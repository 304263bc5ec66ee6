// Calls of the shared pairing guard: what a call that nobody overlaps does, whatever the
// schedule, and which tokens are accepted in every interleaving.

module PairingCalls {
  import opened Counting
  import opened PairingThreads
  import opened Prelude
  import Pairing

  /** The shared guard as the value that whole calls work on. */
  function View(st: State, digest: Pairing.Digest): Pairing.Guard {
    var s := st.setup;
    Pairing.Guard(s.required, s.code, Pairing.Hashes(digest, st.tokens), st.failed, s.maxAttempts, s.lockout, st.lock)
  }

  /** What the constructor makes of its arguments. */
  function Configured(required: bool, existing: seq<string>, code: string, maxAttempts: nat, lockout: nat): Setup {
    if !required then Setup(false, None, [], maxAttempts, lockout)
    else Setup(true, if existing == [] then Some(code) else None, existing, maxAttempts, lockout)
  }

  lemma StartIsNew(
    digest: Pairing.Digest, required: bool, existing: seq<string>, code: string, m: nat, d: nat, threads: nat)
    ensures View(Start(Configured(required, existing, code, m, d), threads), digest) ==
      Pairing.NewGuard(digest, required, existing, code, m, d)
  {
  }

  lemma HashesPush(digest: Pairing.Digest, tokens: seq<string>, token: string)
    ensures Pairing.Hashes(digest, tokens + [token]) ==
      Pairing.Hashes(digest, tokens) + [Pairing.HashToken(digest, token)]
  {
    Pairing.HashesAppend(digest, tokens, [token]);
  }

  // ---------------------------------------------------------------- a call on its own

  /** Only thread `t` moves, and the clock. */
  predicate Alone(t: nat, xs: seq<Action>) {
    forall i :: 0 <= i < |xs| ==> xs[i].Pass? || xs[i] == Step(t)
  }

  /** The clock readings of a call so far: none can be later than the next. */
  predicate Timely(a: Pairing.Attempt, since: nat, now: nat) {
    since <= a.checked <= a.at <= a.recorded <= now
  }

  /** What a call by thread `t` that found the guard as `g` has done to it, and what it still has to do. */
  ghost predicate Halfway(st: State, t: nat, digest: Pairing.Digest, g: Pairing.Guard, a: Pairing.Attempt)
    requires t < |st.pcs|
  {
    var v := View(st, digest);
    match st.pcs[t]
    case Idle => true
    case Look(code, token) => v == g && code == a.code && token == a.token
    case Compare(code, token) => v == g && Pairing.Compares(g, a) && code == a.code && token == a.token
    case Clear(token) => v == g && Pairing.Compares(g, a) && g.code == Some(a.code) && token == a.token
    case Push(token) =>
      v == g.(failed := 0) && Pairing.Compares(g, a) && g.code == Some(a.code) && token == a.token
    case Add => v == g && Pairing.Compares(g, a) && g.code != Some(a.code)
    case ReadClock => v == g.(failed := g.failed + 1) && Exhausts(g, a)
    case Arm(until) => v == g.(failed := g.failed + 1) && Exhausts(g, a) && until == a.recorded + g.lockout
    case Reset(until) =>
      && v == g.(failed := g.failed + 1, lockedUntil := Some(until)) && Exhausts(g, a)
      && until == a.recorded + g.lockout
    case Done(reply) => (v, reply) == Pairing.Paired(g, digest, a)
  }

  /** The attempt uses up the guesses. */
  predicate Exhausts(g: Pairing.Guard, a: Pairing.Attempt) {
    Pairing.Compares(g, a) && g.code != Some(a.code) && g.failed + 1 >= g.maxAttempts
  }

  /** The clock readings after a step of the call. */
  function Noted(st: State, t: nat, a: Pairing.Attempt): Pairing.Attempt
    requires t < |st.pcs|
  {
    match st.pcs[t]
    case Look(_, _) => a.(checked := st.now, at := st.now, recorded := st.now)
    case Compare(_, _) => a.(at := st.now, recorded := st.now)
    case ReadClock => a.(recorded := st.now)
    case _ => a
  }

  lemma StepStaysHalfway(
    st: State, t: nat, digest: Pairing.Digest, g: Pairing.Guard, a: Pairing.Attempt, since: nat)
    requires Enabled(st, Step(t)) && Halfway(st, t, digest, g, a) && Timely(a, since, st.now)
    requires g.failed + 1 < U32
    ensures Halfway(Stepped(st, t), t, digest, g, Noted(st, t, a)) && Timely(Noted(st, t, a), since, st.now)
  {
    match st.pcs[t]
    case Push(token) => HashesPush(digest, st.tokens, token);
    case _ =>
  }

  lemma {:induction false} RunStaysHalfway(
    st: State, t: nat, digest: Pairing.Digest, g: Pairing.Guard, a: Pairing.Attempt, since: nat, xs: seq<Action>)
    returns (a': Pairing.Attempt)
    requires t < |st.pcs| && Halfway(st, t, digest, g, a) && Timely(a, since, st.now)
    requires g.failed + 1 < U32
    requires Runnable(st, xs) && Alone(t, xs)
    ensures |Run(st, xs).pcs| == |st.pcs| && Halfway(Run(st, xs), t, digest, g, a')
    ensures Timely(a', since, Run(st, xs).now) && a'.code == a.code && a'.token == a.token
    ensures Run(st, xs).pcs == st.pcs[t := Run(st, xs).pcs[t]]
    decreases |xs|
  {
    a' := a;
    if xs != [] {
      if xs[0] == Step(t) {
        StepStaysHalfway(st, t, digest, g, a, since);
        a' := Noted(st, t, a);
      }
      a' := RunStaysHalfway(Apply(st, xs[0]), t, digest, g, a', since, xs[1..]);
    }
  }

  /** A thread that is not locking finds room in the counter for its failure. */
  lemma RoomToCount(setup: Setup, threads: nat, st: State, t: nat)
    requires Fits(setup, threads) && Reaches(Start(setup, threads), st) && t < |st.pcs| && st.pcs[t].Idle?
    ensures st.failed + 1 < U32
  {
    ReachedIsOk(setup, threads, st);
    CountBounds(st.pcs, t, Arming);
  }

  /** Main result: in every run in which nobody else moves until the call of thread `t` is answered, the
      call does to the shared guard, and answers, what a whole call does whose clock readings come in
      order within the run. */
  lemma AloneIsWhole(
    st: State, t: nat, code: string, token: string, digest: Pairing.Digest, xs: seq<Action>, reply: Reply)
    returns (a: Pairing.Attempt)
    requires Enabled(st, Call(t, code, token)) && Alone(t, xs)
    requires var called := Apply(st, Call(t, code, token));
      Runnable(called, xs) && t < |Run(called, xs).pcs| && Run(called, xs).pcs[t] == Done(reply)
    requires st.failed + 1 < U32
    ensures a.code == code && a.token == token
    ensures var end := Run(Apply(st, Call(t, code, token)), xs);
      && end.pcs == st.pcs[t := Done(reply)]
      && st.now <= a.checked <= a.at <= a.recorded <= end.now
      && (View(end, digest), reply) == Pairing.Paired(View(st, digest), digest, a)
  {
    var called := Apply(st, Call(t, code, token));
    a := Pairing.Attempt(code, st.now, st.now, st.now, token);
    a := RunStaysHalfway(called, t, digest, View(st, digest), a, st.now, xs);
  }

  /** The right code: the counter is cleared and the token stored. */
  lemma SoloRight(start: State, st: State, t: nat, digest: Pairing.Digest, a: Pairing.Attempt)
    returns (st': State, reply: Reply)
    requires Reaches(start, st) && t < |st.pcs| && st.pcs[t] == Compare(a.code, a.token)
    requires st.setup.required && st.setup.code == Some(a.code) && !Pairing.Locked(View(st, digest), a.checked)
    ensures Reaches(start, st') && st'.pcs == st.pcs[t := Done(reply)]
    ensures (View(st', digest), reply) == Pairing.Paired(View(st, digest), digest, a)
  {
    HashesPush(digest, st.tokens, a.token);
    st' := Walk(start, st, Step(t));
    st' := Walk(start, st', Step(t));
    st' := Walk(start, st', Step(t));
    reply := st'.pcs[t].reply;
  }

  /** A wrong code below the limit is counted. */
  lemma SoloLow(start: State, st: State, t: nat, digest: Pairing.Digest, a: Pairing.Attempt)
    returns (st': State, reply: Reply)
    requires Reaches(start, st) && t < |st.pcs| && st.pcs[t] == Compare(a.code, a.token)
    requires st.setup.required && st.setup.code.Some? && WrongCode(st.setup, a.code)
    requires !Pairing.Locked(View(st, digest), a.checked) && st.failed + 1 < U32 && st.failed + 1 < st.setup.maxAttempts
    ensures Reaches(start, st') && st'.pcs == st.pcs[t := Done(reply)]
    ensures (View(st', digest), reply) == Pairing.Paired(View(st, digest), digest, a)
  {
    st' := Walk(start, st, Step(t));
    st' := Walk(start, st', Step(t));
    reply := st'.pcs[t].reply;
  }

  /** The last wrong code locks, from when the clock is read. */
  lemma SoloLast(start: State, st: State, t: nat, digest: Pairing.Digest, a: Pairing.Attempt)
    returns (st': State, reply: Reply)
    requires Reaches(start, st) && t < |st.pcs| && st.pcs[t] == Compare(a.code, a.token)
    requires st.setup.required && st.setup.code.Some? && WrongCode(st.setup, a.code) && a.recorded >= st.now
    requires !Pairing.Locked(View(st, digest), a.checked) && st.setup.maxAttempts <= st.failed + 1 < U32
    ensures Reaches(start, st') && st'.pcs == st.pcs[t := Done(reply)]
    ensures (View(st', digest), reply) == Pairing.Paired(View(st, digest), digest, a)
  {
    st' := Walk(start, st, Step(t));
    st' := Walk(start, st', Step(t));
    st' := Walk(start, st', Pass(a.recorded - st.now));
    st' := Walk(start, st', Step(t));
    st' := Walk(start, st', Step(t));
    st' := Walk(start, st', Step(t));
    reply := st'.pcs[t].reply;
  }

  /** Turned away before any code is compared. */
  lemma SoloRefused(start: State, st: State, t: nat, digest: Pairing.Digest, a: Pairing.Attempt)
    returns (st': State, reply: Reply)
    requires Reaches(start, st) && t < |st.pcs| && st.pcs[t].Idle? && a.checked == st.now
    requires !Pairing.Compares(View(st, digest), a)
    ensures Reaches(start, st') && st'.pcs == st.pcs[t := Done(reply)]
    ensures (View(st', digest), reply) == Pairing.Paired(View(st, digest), digest, a)
  {
    st' := Walk(start, st, Call(t, a.code, a.token));
    st' := Walk(start, st', Step(t));
    reply := st'.pcs[t].reply;
  }

  /** Conversely, every whole call, whatever its clock readings, is such a run. */
  lemma SoloPairs(start: State, st: State, t: nat, digest: Pairing.Digest, a: Pairing.Attempt)
    returns (st': State, reply: Reply)
    requires Reaches(start, st) && t < |st.pcs| && st.pcs[t].Idle?
    requires a.checked == st.now <= a.at <= a.recorded
    requires st.failed + 1 < U32
    ensures Reaches(start, st') && st'.pcs == st.pcs[t := Done(reply)]
    ensures (View(st', digest), reply) == Pairing.Paired(View(st, digest), digest, a)
  {
    if !Pairing.Compares(View(st, digest), a) {
      st', reply := SoloRefused(start, st, t, digest, a);
    } else {
      st' := Walk(start, st, Call(t, a.code, a.token));
      st' := Walk(start, st', Step(t));
      st' := Walk(start, st', Pass(a.at - st.now));
      assert View(st', digest) == View(st, digest);
      if st.setup.code == Some(a.code) {
        st', reply := SoloRight(start, st', t, digest, a);
      } else if st.failed + 1 < st.setup.maxAttempts {
        st', reply := SoloLow(start, st', t, digest, a);
      } else {
        st', reply := SoloLast(start, st', t, digest, a);
      }
    }
  }

  // ---------------------------------------------------------------- tokens

  /** The token that an action answers a call with, if it does. */
  function Handed(st: State, x: Action): seq<string>
    requires Enabled(st, x)
  {
    if x.Step? && Apply(st, x).pcs[x.t].Done? then Pairing.Handed(Apply(st, x).pcs[x.t].reply) else []
  }

  /** The tokens that a run hands out. */
  function Issued(st: State, xs: seq<Action>): seq<string>
    requires Runnable(st, xs)
    decreases |xs|
  {
    if xs == [] then [] else Handed(st, xs[0]) + Issued(Apply(st, xs[0]), xs[1..])
  }

  lemma ApplyStores(st: State, x: Action)
    requires Enabled(st, x)
    ensures Apply(st, x).tokens == st.tokens + Handed(st, x)
  {
  }

  /** Main result: in every interleaving the stored tokens only grow, by exactly those handed out, in
      that order. */
  lemma {:induction false} TokensAreIssued(st: State, xs: seq<Action>)
    requires Runnable(st, xs)
    ensures Run(st, xs).tokens == st.tokens + Issued(st, xs)
    decreases |xs|
  {
    if xs != [] {
      ApplyStores(st, xs[0]);
      TokensAreIssued(Apply(st, xs[0]), xs[1..]);
    }
  }

  /** Main result: in every state of every interleaving, a token is accepted exactly if pairing is off
      or its digest is that of a token configured or handed out before. */
  lemma AcceptsKnownTokens(
    digest: Pairing.Digest, required: bool, existing: seq<string>, code: string, m: nat, d: nat, threads: nat,
    xs: seq<Action>, token: string)
    requires Runnable(Start(Configured(required, existing, code, m, d), threads), xs)
    ensures var start := Start(Configured(required, existing, code, m, d), threads);
      var known := existing + Issued(start, xs);
      Pairing.Authenticated(View(Run(start, xs), digest), digest, token) <==>
        !required || exists i :: 0 <= i < |known| && digest(known[i]) == digest(token)
  {
    var start := Start(Configured(required, existing, code, m, d), threads);
    RunKeepsSetup(start, xs);
    TokensAreIssued(start, xs);
    if required {
      Pairing.HashIsKnownIff(digest, existing + Issued(start, xs), token);
    }
  }

  /** Whoever has been answered with a token finds it stored. */
  ghost predicate AnswersStored(st: State) {
    forall i :: 0 <= i < |st.pcs| && st.pcs[i].Done? ==>
      forall token :: token in Pairing.Handed(st.pcs[i].reply) ==> token in st.tokens
  }

  lemma {:induction false} RunStoresAnswers(st: State, xs: seq<Action>)
    requires Runnable(st, xs) && AnswersStored(st)
    ensures AnswersStored(Run(st, xs))
    decreases |xs|
  {
    if xs != [] {
      ApplyStores(st, xs[0]);
      RunStoresAnswers(Apply(st, xs[0]), xs[1..]);
    }
  }

  lemma StoredIsAccepted(digest: Pairing.Digest, st: State, token: string)
    requires token in st.tokens
    ensures Pairing.Authenticated(View(st, digest), digest, token)
  {
    var k :| 0 <= k < |st.tokens| && st.tokens[k] == token;
    assert View(st, digest).hashes[k] == Pairing.HashToken(digest, token);
  }

  /** Main result: a token that some thread has been answered with is accepted from then on, whatever the
      other calls do. */
  lemma HandedTokensStayValid(
    digest: Pairing.Digest, setup: Setup, threads: nat, st: State, i: nat, token: string, ys: seq<Action>)
    requires Reaches(Start(setup, threads), st) && i < |st.pcs| && st.pcs[i] == Done(Success(Some(token)))
    requires Runnable(st, ys)
    ensures Pairing.Authenticated(View(Run(st, ys), digest), digest, token)
  {
    var start := Start(setup, threads);
    var xs :| Runnable(start, xs) && Run(start, xs) == st;
    RunStoresAnswers(start, xs);
    assert token in Pairing.Handed(st.pcs[i].reply);
    TokensAreIssued(st, ys);
    StoredIsAccepted(digest, Run(st, ys), token);
  }
}
