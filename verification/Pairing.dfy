// The pairing guard: a timed lockout against guessing the code, and tokens that are
// kept as hex-encoded digests and compared without leaking where they differ.

module Pairing {
  import opened Prelude

  type Byte = bv8
  type Digest = string -> seq<Byte>

  const NANOS: nat := 1_000_000_000
  const U32_MAX: nat := 0xFFFF_FFFF

  // ---------------------------------------------------------------- hex and comparison

  function HexDigit(v: Byte): Byte
    requires v < 16
  {
    if v < 10 then v + 48 else v - 10 + 97
  }

  function HexEncode(bytes: seq<Byte>): (r: seq<Byte>)
    ensures |r| == 2 * |bytes|
  {
    if bytes == [] then [] else [HexDigit(bytes[0] >> 4), HexDigit(bytes[0] & 15)] + HexEncode(bytes[1..])
  }

  /** The sixteen digits, and how two of them spell a byte. */
  lemma HexSpelled(v: Byte)
    ensures v < 16 ==> HexDigit(v) as int == "0123456789abcdef"[v as int] as int
    ensures HexEncode([v]) == [HexDigit(v >> 4), HexDigit(v & 15)] && v == (v >> 4) * 16 + (v & 15)
  {
    assert HexEncode([v][1..]) == [];
  }

  lemma NibblesDetermine(a: Byte, b: Byte)
    requires HexDigit(a >> 4) == HexDigit(b >> 4) && HexDigit(a & 15) == HexDigit(b & 15)
    ensures a == b
  {
  }

  /** Different digests have different encodings. */
  lemma {:induction false} HexInjective(a: seq<Byte>, b: seq<Byte>)
    requires HexEncode(a) == HexEncode(b)
    ensures a == b
  {
    assert |a| == |b|;
    if a != [] {
      var x, y := HexEncode(a), HexEncode(b);
      assert x[0] == y[0] && x[1] == y[1];
      NibblesDetermine(a[0], b[0]);
      assert x[2..] == HexEncode(a[1..]) && y[2..] == HexEncode(b[1..]);
      HexInjective(a[1..], b[1..]);
    }
  }

  /** The or-accumulating loop decides equality, looking at every byte whatever it has seen. */
  method ConstantTimeEq(a: seq<Byte>, b: seq<Byte>) returns (equal: bool)
    ensures equal == (a == b)
  {
    if |a| != |b| {
      return false;
    }
    var diff: Byte := 0;
    for i := 0 to |a|
      invariant diff == 0 <==> a[..i] == b[..i]
    {
      var x, y := a[i], b[i];
      assert a[..i + 1] == a[..i] + [x] && b[..i + 1] == b[..i] + [y];
      XorIsDifference(diff, x, y);
      diff := diff | (x ^ y);
    }
    assert a[..|a|] == a && b[..|b|] == b;
    equal := diff == 0;
  }

  lemma XorIsDifference(diff: Byte, x: Byte, y: Byte)
    ensures diff | (x ^ y) == 0 <==> diff == 0 && x == y
  {
  }

  // ---------------------------------------------------------------- the guard as a value

  datatype Guard = Guard(
    required: bool,
    code: Option<string>,
    hashes: seq<seq<Byte>>,
    failed: nat,
    maxAttempts: nat,
    lockout: nat,
    lockedUntil: Option<nat>)

  function HashToken(digest: Digest, token: string): seq<Byte> {
    HexEncode(digest(token))
  }

  function Hashes(digest: Digest, tokens: seq<string>): (r: seq<seq<Byte>>)
    ensures |r| == |tokens|
    ensures forall i :: 0 <= i < |tokens| ==> r[i] == HashToken(digest, tokens[i])
  {
    if tokens == [] then [] else [HashToken(digest, tokens[0])] + Hashes(digest, tokens[1..])
  }

  /** `code` is the pairing code drawn if one is needed. */
  function NewGuard(
    digest: Digest, required: bool, existing: seq<string>, code: string, maxAttempts: nat, lockout: nat): Guard
  {
    if !required then Guard(false, None, [], 0, maxAttempts, lockout, None)
    else if existing == [] then Guard(true, Some(code), [], 0, maxAttempts, lockout, None)
    else Guard(true, None, Hashes(digest, existing), 0, maxAttempts, lockout, None)
  }

  /** Effective number of guesses: a zero setting still lets one through before it locks. */
  function Allowed(maxAttempts: nat): (m: nat)
    ensures m >= 1
  {
    if maxAttempts == 0 then 1 else maxAttempts
  }

  function Guesses(g: Guard): nat {
    Allowed(g.maxAttempts)
  }

  ghost predicate GuardOk(g: Guard) {
    g.failed < Guesses(g) && g.maxAttempts <= U32_MAX
  }

  /** One try_pair call: the code presented, the clock when the lockout was checked, when the code
      was compared and when a failure was recorded, and the token drawn on success. */
  datatype Attempt = Attempt(code: string, checked: nat, at: nat, recorded: nat, token: string)

  predicate Locked(g: Guard, now: nat) {
    g.lockedUntil.Some? && now < g.lockedUntil.value
  }

  /** Whether the presented code is compared with the real one at all. */
  predicate Compares(g: Guard, a: Attempt) {
    g.required && !Locked(g, a.checked) && g.code.Some?
  }

  function Paired(g: Guard, digest: Digest, a: Attempt): (Guard, Result<Option<string>, nat>) {
    if !g.required then (g, Success(None))
    else if Locked(g, a.checked) then
      var secs := (g.lockedUntil.value - a.checked) / NANOS;
      (g, Failure(if secs > 1 then secs else 1))
    else if g.code.None? then (g, Failure(0))
    else if a.code == g.code.value then
      (g.(failed := 0, hashes := g.hashes + [HashToken(digest, a.token)]), Success(Some(a.token)))
    else if g.failed + 1 >= g.maxAttempts then
      (g.(failed := 0, lockedUntil := Some(a.recorded + g.lockout)), Failure(g.lockout / NANOS))
    else (g.(failed := g.failed + 1), Failure(0))
  }

  /** The seconds that `nanos` are worth, cut to whole ones. */
  predicate WholeSeconds(secs: nat, nanos: nat) {
    secs * 1_000_000_000 <= nanos < (secs + 1) * 1_000_000_000
  }

  /** How long a refused caller is told to wait: what is left of the lockout in whole seconds, but never
      less than one; the whole lockout, in whole seconds, on the attempt that starts it; and nothing
      for any other refusal. */
  lemma RefusalTellsWait(g: Guard, digest: Digest, a: Attempt)
    ensures g.required && Locked(g, a.checked) ==>
      match Paired(g, digest, a).1
      case Success(_) => false
      case Failure(secs) =>
        var left := g.lockedUntil.value - a.checked;
        if left < 1_000_000_000 then secs == 1 else WholeSeconds(secs, left)
    ensures Compares(g, a) && a.code != g.code.value ==>
      match Paired(g, digest, a).1
      case Success(_) => false
      case Failure(secs) => if g.failed + 1 >= g.maxAttempts then WholeSeconds(secs, g.lockout) else secs == 0
    ensures g.required && !Locked(g, a.checked) && g.code.None? ==> Paired(g, digest, a).1 == Failure(0)
  {
  }

  predicate Authenticated(g: Guard, digest: Digest, token: string) {
    !g.required || HashToken(digest, token) in g.hashes
  }

  // ---------------------------------------------------------------- the guard as an object

  class PairingGuard {
    const digest: Digest
    const required: bool
    const pairingCode: Option<string>
    const maxAttempts: nat
    const lockoutDuration: nat
    var tokenHashes: seq<seq<Byte>>
    var failedAttempts: nat
    var lockoutUntil: Option<nat>

    function View(): Guard
      reads this
    {
      Guard(required, pairingCode, tokenHashes, failedAttempts, maxAttempts, lockoutDuration, lockoutUntil)
    }

    constructor (digest: Digest, required: bool, existing: seq<string>, code: string, maxAttempts: nat, lockout: nat)
      requires maxAttempts <= U32_MAX
      ensures View() == NewGuard(digest, required, existing, code, maxAttempts, lockout) && this.digest == digest
      ensures GuardOk(View())
    {
      this.digest := digest;
      this.required := required;
      this.maxAttempts := maxAttempts;
      lockoutDuration := lockout;
      pairingCode := if required && existing == [] then Some(code) else None;
      tokenHashes := if required then Hashes(digest, existing) else [];
      failedAttempts := 0;
      lockoutUntil := None;
    }

    /** `checkedAt` and `recordedAt` are the two clock readings, `token` the uuid drawn on success. */
    method TryPair(
      code: string, checkedAt: nat, at: nat, recordedAt: nat, token: string) returns (r: Result<Option<string>, nat>)
      requires GuardOk(View())
      modifies this
      ensures (View(), r) == Paired(old(View()), digest, Attempt(code, checkedAt, at, recordedAt, token))
      ensures GuardOk(View())
    {
      if !required {
        return Success(None);
      }
      if lockoutUntil.Some? {
        if checkedAt < lockoutUntil.value {
          var remaining := (lockoutUntil.value - checkedAt) / NANOS;
          return Failure(if remaining > 1 then remaining else 1);
        }
      }
      if pairingCode.None? {
        return Failure(0);
      }
      if code == pairingCode.value {
        failedAttempts := 0;
        tokenHashes := tokenHashes + [HashToken(digest, token)];
        return Success(Some(token));
      }
      var attempts := failedAttempts + 1;
      failedAttempts := attempts;
      if attempts >= maxAttempts {
        lockoutUntil := Some(recordedAt + lockoutDuration);
        failedAttempts := 0;
        return Failure(lockoutDuration / NANOS);
      }
      r := Failure(0);
    }

    method IsAuthenticated(token: string) returns (r: bool)
      ensures r == Authenticated(View(), digest, token)
    {
      if !required {
        return true;
      }
      var presented := HashToken(digest, token);
      r := false;
      for i := 0 to |tokenHashes|
        invariant !r && presented !in tokenHashes[..i]
      {
        var same := ConstantTimeEq(tokenHashes[i], presented);
        if same {
          return true;
        }
        assert tokenHashes[..i + 1] == tokenHashes[..i] + [tokenHashes[i]];
      }
      assert tokenHashes[..|tokenHashes|] == tokenHashes;
    }
  }

  // ---------------------------------------------------------------- runs of calls that do not overlap

  /** The clock never goes back, within a call or between calls. */
  predicate Timed(start: nat, calls: seq<Attempt>)
    decreases |calls|
  {
    calls == [] ||
    (start <= calls[0].checked <= calls[0].at <= calls[0].recorded && Timed(calls[0].recorded, calls[1..]))
  }

  function After(g: Guard, digest: Digest, calls: seq<Attempt>): Guard
    decreases |calls|
  {
    if calls == [] then g else After(Paired(g, digest, calls[0]).0, digest, calls[1..])
  }

  /** When codes are compared during a run. */
  function Comparisons(g: Guard, digest: Digest, calls: seq<Attempt>): seq<nat>
    decreases |calls|
  {
    if calls == [] then []
    else
      (if Compares(g, calls[0]) then [calls[0].at] else [])
      + Comparisons(Paired(g, digest, calls[0]).0, digest, calls[1..])
  }

  predicate AllWrong(g: Guard, calls: seq<Attempt>) {
    g.code.Some? ==> forall i :: 0 <= i < |calls| ==> calls[i].code != g.code.value
  }

  predicate Sorted(c: seq<nat>) {
    forall i, j :: 0 <= i <= j < |c| ==> c[i] <= c[j]
  }

  lemma PairedKeepsGuard(g: Guard, digest: Digest, a: Attempt)
    requires GuardOk(g)
    ensures var g' := Paired(g, digest, a).0;
      GuardOk(g') && g'.code == g.code && g'.maxAttempts == g.maxAttempts && g'.lockout == g.lockout &&
        g'.required == g.required
  {
  }

  /** Between calls the failure count stays below the limit. */
  lemma {:induction false} FailuresBelowLimit(g: Guard, digest: Digest, calls: seq<Attempt>)
    requires GuardOk(g)
    ensures GuardOk(After(g, digest, calls)) && Guesses(After(g, digest, calls)) == Guesses(g)
    decreases |calls|
  {
    if calls != [] {
      PairedKeepsGuard(g, digest, calls[0]);
      FailuresBelowLimit(Paired(g, digest, calls[0]).0, digest, calls[1..]);
    }
  }

  /** Comparisons come in order, none before the run starts and none before a lockout ends. */
  lemma {:induction false} ComparisonsInOrder(g: Guard, digest: Digest, start: nat, calls: seq<Attempt>)
    requires GuardOk(g) && Timed(start, calls)
    ensures var c := Comparisons(g, digest, calls);
      && Sorted(c)
      && (forall i :: 0 <= i < |c| ==> start <= c[i] && (g.lockedUntil.Some? ==> g.lockedUntil.value <= c[i]))
    decreases |calls|
  {
    if calls != [] {
      var g1 := Paired(g, digest, calls[0]).0;
      PairedKeepsGuard(g, digest, calls[0]);
      ComparisonsInOrder(g1, digest, calls[0].recorded, calls[1..]);
      var c, rest := Comparisons(g, digest, calls), Comparisons(g1, digest, calls[1..]);
      forall i | 0 <= i < |c| ensures start <= c[i] && (g.lockedUntil.Some? ==> g.lockedUntil.value <= c[i]) {
        if Compares(g, calls[0]) && i > 0 {
          assert c[i] == rest[i - 1];
        }
      }
    }
  }

  lemma Quotient(a: nat, m: nat) returns (q: nat)
    requires m >= 1
    ensures q == a / m && q * m <= a < q * m + m
  {
    q := a / m;
  }

  lemma TimesMonotone(a: nat, b: nat, m: nat)
    requires a <= b
    ensures a * m <= b * m
  {
  }

  /** The comparison that uses up the guesses is followed by a whole lockout. */
  lemma {:induction false} GapAfterLastGuess(g: Guard, digest: Digest, start: nat, calls: seq<Attempt>, i: nat, k: nat)
    requires GuardOk(g) && Timed(start, calls) && AllWrong(g, calls)
    requires i + 1 < |Comparisons(g, digest, calls)| && k >= 1 && g.failed + i + 1 == k * Guesses(g)
    ensures var c := Comparisons(g, digest, calls); c[i] + g.lockout <= c[i + 1]
    decreases |calls|
  {
    var g1 := Paired(g, digest, calls[0]).0;
    var m := Guesses(g);
    PairedKeepsGuard(g, digest, calls[0]);
    assert AllWrong(g1, calls[1..]);
    if !Compares(g, calls[0]) {
      GapAfterLastGuess(g1, digest, calls[0].recorded, calls[1..], i, k);
    } else {
      assert calls[0].code != g.code.value;
      TimesMonotone(1, k, m);
      if i == 0 {
        assert g.failed + 1 == m;
        ComparisonsInOrder(g1, digest, calls[0].recorded, calls[1..]);
      } else if g.failed + 1 == m {
        assert (k - 1) * m == k * m - m;
        GapAfterLastGuess(g1, digest, calls[0].recorded, calls[1..], i - 1, k - 1);
      } else {
        GapAfterLastGuess(g1, digest, calls[0].recorded, calls[1..], i - 1, k);
      }
    }
  }

  /** Any m guesses in a row include one that starts a lockout. */
  lemma SpreadOut(g: Guard, digest: Digest, start: nat, calls: seq<Attempt>, i: nat)
    requires GuardOk(g) && Timed(start, calls) && AllWrong(g, calls)
    requires i + Guesses(g) < |Comparisons(g, digest, calls)|
    ensures var c := Comparisons(g, digest, calls); c[i] + g.lockout <= c[i + Guesses(g)]
  {
    var m := Guesses(g);
    var q := Quotient(g.failed + i, m);
    assert (q + 1) * m == q * m + m;
    var j := q * m + m - g.failed - 1;
    GapAfterLastGuess(g, digest, start, calls, j, q + 1);
    ComparisonsInOrder(g, digest, start, calls);
  }

  // ---------------------------------------------------------------- main results

  /** Main result: in any run of wrong codes whose calls do not overlap, any half-open window as long as
      the lockout contains at most m = max(1, max_attempts) code comparisons. */
  lemma GuessesPerWindow(g: Guard, digest: Digest, start: nat, calls: seq<Attempt>, w: nat, i: nat, j: nat)
    requires GuardOk(g) && Timed(start, calls) && AllWrong(g, calls)
    requires var c := Comparisons(g, digest, calls);
      i <= j < |c| && w <= c[i] && c[j] < w + g.lockout
    ensures j - i + 1 <= Guesses(g)
  {
    if j - i >= Guesses(g) {
      SpreadOut(g, digest, start, calls, i);
      ComparisonsInOrder(g, digest, start, calls);
    }
  }

  lemma OneLess(q: nat, m: nat)
    requires q >= 1
    ensures q * m == (q - 1) * m + m && (q - 1) * m >= 0
  {
  }

  lemma {:induction false} SpreadManyTimes(g: Guard, digest: Digest, start: nat, calls: seq<Attempt>, q: nat)
    requires GuardOk(g) && Timed(start, calls) && AllWrong(g, calls)
    requires q * Guesses(g) < |Comparisons(g, digest, calls)|
    ensures var c := Comparisons(g, digest, calls); c[0] + q * g.lockout <= c[q * Guesses(g)]
  {
    if q > 0 {
      OneLess(q, Guesses(g));
      OneLess(q, g.lockout);
      var before := (q - 1) * Guesses(g);
      SpreadManyTimes(g, digest, start, calls, q - 1);
      SpreadOut(g, digest, start, calls, before);
    }
  }

  /** Main result: a run of such calls with wrong codes whose comparisons span a duration T makes at most
      m * (floor(T / lockout) + 1) of them. */
  lemma GuessRate(g: Guard, digest: Digest, start: nat, calls: seq<Attempt>)
    requires GuardOk(g) && Timed(start, calls) && AllWrong(g, calls) && g.lockout > 0
    ensures var c := Comparisons(g, digest, calls);
      c != [] ==> c[0] <= c[|c| - 1] && |c| <= ((c[|c| - 1] - c[0]) / g.lockout + 1) * Guesses(g)
  {
    var c, m := Comparisons(g, digest, calls), Guesses(g);
    if c != [] {
      ComparisonsInOrder(g, digest, start, calls);
      var q := Quotient(|c| - 1, m);
      SpreadManyTimes(g, digest, start, calls, q);
      var span := c[|c| - 1] - c[0];
      QuotientAtLeast(q, span, g.lockout);
      TimesMonotone(q + 1, span / g.lockout + 1, m);
      assert (q + 1) * m == q * m + m;
    }
  }

  lemma QuotientAtLeast(q: nat, span: nat, d: nat)
    requires d > 0 && q * d <= span
    ensures q <= span / d
  {
    var k := Quotient(span, d);
    assert (k + 1) * d == k * d + d;
    if q > k {
      TimesMonotone(k + 1, q, d);
    }
  }

  function Burst(wrong: string, t: nat, n: nat): seq<Attempt> {
    if n == 0 then [] else [Attempt(wrong, t, t, t, "")] + Burst(wrong, t, n - 1)
  }

  /** All the guesses left, at a single instant, and the lockout they end in. */
  lemma {:induction false} BurstLocks(g: Guard, digest: Digest, wrong: string, t: nat, n: nat)
    requires g.required && g.code.Some? && wrong != g.code.value && !Locked(g, t)
    requires n >= 1 && g.failed + n == Guesses(g)
    ensures var calls := Burst(wrong, t, n);
      && Timed(t, calls) && |Comparisons(g, digest, calls)| == n
      && After(g, digest, calls) == g.(failed := 0, lockedUntil := Some(t + g.lockout))
    ensures forall i :: 0 <= i < |Burst(wrong, t, n)| ==> Burst(wrong, t, n)[i] == Attempt(wrong, t, t, t, "")
    decreases n
  {
    var calls := Burst(wrong, t, n);
    assert calls[1..] == Burst(wrong, t, n - 1);
    if n > 1 {
      BurstLocks(Paired(g, digest, calls[0]).0, digest, wrong, t, n - 1);
    }
  }

  lemma {:induction false} RunsInTurn(g: Guard, digest: Digest, a: seq<Attempt>, b: seq<Attempt>)
    ensures Comparisons(g, digest, a + b) == Comparisons(g, digest, a) + Comparisons(After(g, digest, a), digest, b)
    decreases |a|
  {
    if a == [] {
      assert a + b == b;
    } else {
      assert (a + b)[1..] == a[1..] + b;
      RunsInTurn(Paired(g, digest, a[0]).0, digest, a[1..], b);
    }
  }

  lemma {:induction false} TimedInTurn(t: nat, t': nat, a: seq<Attempt>, b: seq<Attempt>)
    requires t <= t' && Timed(t, a) && Timed(t', b) && forall i :: 0 <= i < |a| ==> a[i].recorded <= t'
    ensures Timed(t, a + b)
    decreases |a|
  {
    if a == [] {
      assert a + b == b;
    } else {
      assert (a + b)[1..] == a[1..] + b;
      TimedInTurn(a[0].recorded, t', a[1..], b);
    }
  }

  /** A burst at every end of a lockout. */
  lemma {:induction false} Bursts(g: Guard, digest: Digest, wrong: string, t: nat, q: nat) returns (calls: seq<Attempt>)
    requires g.required && g.code.Some? && wrong != g.code.value && !Locked(g, t) && g.failed == 0
    ensures Timed(t, calls) && |Comparisons(g, digest, calls)| == (q + 1) * Guesses(g)
    ensures forall i :: 0 <= i < |calls| ==> calls[i].code == wrong && calls[i].recorded <= t + q * g.lockout
    decreases q
  {
    var m := Guesses(g);
    calls := Burst(wrong, t, m);
    BurstLocks(g, digest, wrong, t, m);
    if q > 0 {
      var locked := After(g, digest, calls);
      var rest := Bursts(locked, digest, wrong, t + g.lockout, q - 1);
      RunsInTurn(g, digest, calls, rest);
      TimedInTurn(t, t + g.lockout, calls, rest);
      OneLess(q + 1, m);
      OneLess(q, g.lockout);
      calls := calls + rest;
    }
  }

  /** The rate is reached: within any duration T, m * (floor(T / lockout) + 1) wrong codes can be compared. */
  lemma RateIsReached(g: Guard, digest: Digest, wrong: string, t: nat, span: nat) returns (calls: seq<Attempt>)
    requires g.required && g.code.Some? && wrong != g.code.value && !Locked(g, t) && g.failed == 0 && g.lockout > 0
    ensures Timed(t, calls) && AllWrong(g, calls)
    ensures forall i :: 0 <= i < |calls| ==> calls[i].recorded <= t + span
    ensures |Comparisons(g, digest, calls)| == (span / g.lockout + 1) * Guesses(g)
  {
    calls := Bursts(g, digest, wrong, t, span / g.lockout);
    assert span / g.lockout * g.lockout <= span;
  }

  /** After m wrong codes in a row the guard is locked for the whole lockout duration. */
  lemma {:induction false} LocksAfterLastGuess(g: Guard, digest: Digest, start: nat, calls: seq<Attempt>)
    requires GuardOk(g) && g.required && g.code.Some? && Timed(start, calls) && AllWrong(g, calls)
    requires !Locked(g, start) && calls != [] && g.failed + |calls| == Guesses(g)
    ensures After(g, digest, calls).lockedUntil == Some(calls[|calls| - 1].recorded + g.lockout)
    decreases |calls|
  {
    var g1 := Paired(g, digest, calls[0]).0;
    assert calls[0].code != g.code.value;
    if |calls| == 1 {
      assert After(g1, digest, calls[1..]) == g1;
    } else {
      LocksAfterLastGuess(g1, digest, calls[0].recorded, calls[1..]);
    }
  }

  // ---------------------------------------------------------------- tokens

  function Handed(r: Result<Option<string>, nat>): seq<string> {
    if r.Success? && r.value.Some? then [r.value.value] else []
  }

  /** The tokens that a run hands out. */
  function Issued(g: Guard, digest: Digest, calls: seq<Attempt>): seq<string>
    decreases |calls|
  {
    if calls == [] then []
    else
      var (g', r) := Paired(g, digest, calls[0]);
      Handed(r) + Issued(g', digest, calls[1..])
  }

  /** While locked, no code, not even the right one, is compared or yields a token, and nothing changes. */
  lemma {:induction false} LockedOut(g: Guard, digest: Digest, calls: seq<Attempt>)
    requires g.required && forall i :: 0 <= i < |calls| ==> Locked(g, calls[i].checked)
    ensures After(g, digest, calls) == g && Comparisons(g, digest, calls) == [] && Issued(g, digest, calls) == []
    ensures forall i :: 0 <= i < |calls| ==> Paired(g, digest, calls[i]).1.Failure?
    decreases |calls|
  {
    if calls != [] {
      LockedOut(g, digest, calls[1..]);
    }
  }

  lemma HashesAppend(digest: Digest, a: seq<string>, b: seq<string>)
    ensures Hashes(digest, a + b) == Hashes(digest, a) + Hashes(digest, b)
  {
    var both, parts := Hashes(digest, a + b), Hashes(digest, a) + Hashes(digest, b);
    forall i | 0 <= i < |a| + |b| ensures both[i] == parts[i] {
      assert both[i] == HashToken(digest, (a + b)[i]);
    }
  }

  /** One call appends the hash of the token it hands out, if any. */
  lemma PairedHashes(g: Guard, digest: Digest, a: Attempt)
    ensures var (g1, r) := Paired(g, digest, a);
      g1.required == g.required && g1.hashes == g.hashes + Hashes(digest, Handed(r))
  {
    var r := Paired(g, digest, a).1;
    if r.Success? && r.value.Some? {
      assert Hashes(digest, [r.value.value]) == [HashToken(digest, r.value.value)];
    }
  }

  /** Stored hashes only grow: a run appends exactly the hashes of the tokens it hands out. */
  lemma {:induction false} HashesGrow(g: Guard, digest: Digest, calls: seq<Attempt>)
    ensures After(g, digest, calls).hashes == g.hashes + Hashes(digest, Issued(g, digest, calls))
    ensures After(g, digest, calls).required == g.required
    decreases |calls|
  {
    if calls != [] {
      var (g1, r) := Paired(g, digest, calls[0]);
      HashesGrow(g1, digest, calls[1..]);
      PairedHashes(g, digest, calls[0]);
      HashesAppend(digest, Handed(r), Issued(g1, digest, calls[1..]));
      Regroup(g.hashes, Hashes(digest, Handed(r)), Hashes(digest, Issued(g1, digest, calls[1..])));
    }
  }

  /** A hash is among those of known tokens exactly if one of them has the same digest. */
  lemma HashIsKnownIff(digest: Digest, known: seq<string>, token: string)
    ensures HashToken(digest, token) in Hashes(digest, known) <==>
      exists i :: 0 <= i < |known| && digest(known[i]) == digest(token)
  {
    var stored := Hashes(digest, known);
    if HashToken(digest, token) in stored {
      var i :| 0 <= i < |stored| && stored[i] == HashToken(digest, token);
      HexInjective(digest(known[i]), digest(token));
    }
    if i :| 0 <= i < |known| && digest(known[i]) == digest(token) {
      assert stored[i] == HashToken(digest, token);
    }
  }

  /** Main result: a guard accepts a token exactly if pairing is off or the token's digest is that of
      a token it was configured with or has handed out. */
  lemma AcceptsKnownTokens(
    digest: Digest, required: bool, existing: seq<string>, code: string, m: nat, d: nat, calls: seq<Attempt>,
    token: string)
    ensures var g := NewGuard(digest, required, existing, code, m, d);
      var known := existing + Issued(g, digest, calls);
      Authenticated(After(g, digest, calls), digest, token) <==>
        !required || exists i :: 0 <= i < |known| && digest(known[i]) == digest(token)
  {
    var g := NewGuard(digest, required, existing, code, m, d);
    HashesGrow(g, digest, calls);
    if required {
      var known := existing + Issued(g, digest, calls);
      HashesAppend(digest, existing, Issued(g, digest, calls));
      HashIsKnownIff(digest, known, token);
    }
  }

  /** A token handed out by any call authenticates after every later call. */
  lemma IssuedTokensStayValid(g: Guard, digest: Digest, a: Attempt, calls: seq<Attempt>)
    requires Paired(g, digest, a).1 == Success(Some(a.token))
    ensures Authenticated(After(Paired(g, digest, a).0, digest, calls), digest, a.token)
  {
    var g1 := Paired(g, digest, a).0;
    HashesGrow(g1, digest, calls);
    assert HashToken(digest, a.token) == g1.hashes[|g.hashes|];
  }
}
