// Transcript memory of one session: entries are pushed as they come and, beyond a
// threshold, everything but the most recent half becomes one summary entry, cut to
// size in bytes - which panics in the middle of a character.

module Compaction {
  import opened Prelude
  import opened Transcript
  import Utf8

  const LIMIT := 4096
  const PREFIX := "compaction_summary: "

  // ---------------------------------------------------------------- specification

  function Chunks(entries: seq<Entry>): seq<string> {
    if entries == [] then []
    else Chunks(entries[..|entries| - 1]) + match Spoken(entries[|entries| - 1]) case None => [] case Some(t) => [t]
  }

  function Join(chunks: seq<string>): string {
    if chunks == [] then ""
    else if |chunks| == 1 then chunks[0]
    else Join(chunks[..|chunks| - 1]) + " " + chunks[|chunks| - 1]
  }

  /** The text behind the summary prefix. */
  function Body(chunks: seq<string>, count: nat): string {
    if chunks == [] then "compacted " + Decimal(count) + " events" else Join(chunks)
  }

  /** The summary before it is cut to size. */
  function Whole(entries: seq<Entry>): string {
    PREFIX + Body(Chunks(entries), |entries|)
  }

  /** The summary fits and is kept as it is. */
  predicate Uncut(entries: seq<Entry>) {
    |Utf8.Bytes(Whole(entries))| <= LIMIT
  }

  /** Cutting the summary to size panics. */
  predicate CutFails(entries: seq<Entry>) {
    Utf8.Cut(Whole(entries), LIMIT).None?
  }

  function SummaryText(entries: seq<Entry>): string
    requires !CutFails(entries)
  {
    Utf8.Cut(Whole(entries), LIMIT).value
  }

  function Summary(entries: seq<Entry>, now: int): Entry
    requires !CutFails(entries)
  {
    Entry(SystemText(SummaryText(entries)), "system", now)
  }

  predicate Due(count: nat, threshold: nat) {
    threshold >= 2 && count > threshold
  }

  /** How many recent entries a compaction keeps. */
  function Keep(threshold: nat): nat {
    if threshold / 2 > 1 then threshold / 2 else 1
  }

  function Dropped(entries: seq<Entry>, threshold: nat): seq<Entry>
    requires Due(|entries|, threshold)
  {
    entries[..|entries| - Keep(threshold)]
  }

  function Compacted(entries: seq<Entry>, threshold: nat, now: int): seq<Entry>
    requires Due(|entries|, threshold) && !CutFails(Dropped(entries, threshold))
  {
    [Summary(Dropped(entries, threshold), now)] + entries[|entries| - Keep(threshold)..]
  }

  datatype Memory = Memory(entries: seq<Entry>, compactions: nat)

  datatype Policy = Policy(enabled: bool, threshold: nat)

  /** The push is over the threshold. */
  predicate Overflows(p: Policy, m: Memory) {
    p.enabled && Due(|m.entries| + 1, p.threshold)
  }

  /** The push panics, after adding its entry. */
  predicate Panics(p: Policy, m: Memory, e: Entry) {
    Overflows(p, m) && CutFails(Dropped(m.entries + [e], p.threshold))
  }

  /** What one push leaves behind. `now` is the clock should a compaction be due. */
  function Pushed(p: Policy, m: Memory, e: Entry, now: int): Memory {
    var entries := m.entries + [e];
    if Overflows(p, m) && !Panics(p, m, e)
    then Memory(Compacted(entries, p.threshold, now), m.compactions + 1)
    else m.(entries := entries)
  }

  lemma ChunksNext(entries: seq<Entry>, i: nat)
    requires i < |entries|
    ensures Chunks(entries[..i + 1]) ==
      Chunks(entries[..i]) + match Spoken(entries[i]) case None => [] case Some(t) => [t]
  {
    assert entries[..i + 1][..i] == entries[..i];
  }

  /** The text that stands for the dropped entries; None is the panic. */
  method SummaryOf(dropped: seq<Entry>) returns (text: Option<string>)
    ensures text == Utf8.Cut(Whole(dropped), LIMIT)
  {
    var chunks: seq<string> := [];
    for i := 0 to |dropped|
      invariant chunks == Chunks(dropped[..i])
    {
      ChunksNext(dropped, i);
      var spoken := Spoken(dropped[i]);
      if spoken.Some? {
        chunks := chunks + [spoken.value];
      }
    }
    assert dropped[..|dropped|] == dropped;
    var summary := PREFIX + if chunks == [] then "compacted " + Decimal(|dropped|) + " events" else Join(chunks);
    assert summary == Whole(dropped);
    if |Utf8.Bytes(summary)| > LIMIT {
      return Utf8.Cut(summary, LIMIT);
    }
    text := Some(summary);
  }

  lemma CompactedIs(entries: seq<Entry>, threshold: nat, now: int, text: string)
    requires Due(|entries|, threshold) && Utf8.Cut(Whole(Dropped(entries, threshold)), LIMIT) == Some(text)
    ensures !CutFails(Dropped(entries, threshold))
    ensures Compacted(entries, threshold, now) ==
      [Entry(SystemText(text), "system", now)] + entries[|entries| - Keep(threshold)..]
  {
  }

  // ---------------------------------------------------------------- the list as an object

  class TranscriptMemory {
    const policy: Policy
    var entries: seq<Entry>
    var compactionsApplied: nat

    function View(): Memory
      reads this
    {
      Memory(entries, compactionsApplied)
    }

    constructor (policy: Policy)
      ensures View() == Memory([], 0) && this.policy == policy
    {
      this.policy := policy;
      entries, compactionsApplied := [], 0;
    }

    /** Rewrites the list in place if it is over the threshold; None is a panic, which leaves it alone.
        A due compaction always drops something. */
    method Compact(now: int) returns (applied: Option<bool>)
      modifies this`entries
      ensures applied == Some(false) <==> !Due(old(|entries|), policy.threshold)
      ensures applied.None? <==>
        Due(old(|entries|), policy.threshold) && CutFails(Dropped(old(entries), policy.threshold))
      ensures entries == if applied == Some(true) then Compacted(old(entries), policy.threshold, now) else old(entries)
    {
      if policy.threshold < 2 || |entries| <= policy.threshold {
        return Some(false);
      }
      var keepRecent := if 1 > policy.threshold / 2 then 1 else policy.threshold / 2;
      var compactCount := |entries| - keepRecent;
      var summary := SummaryOf(entries[..compactCount]);
      if summary.None? {
        return None;
      }
      CompactedIs(entries, policy.threshold, now, summary.value);
      var compacted := [Entry(SystemText(summary.value), "system", now)];
      compacted := compacted + entries[compactCount..];
      entries := compacted;
      applied := Some(true);
    }

    method Push(e: Entry, now: int) returns (panicked: bool)
      modifies this
      ensures panicked == Panics(policy, old(View()), e)
      ensures View() == Pushed(policy, old(View()), e, now)
    {
      entries := entries + [e];
      if policy.enabled {
        var applied := Compact(now);
        if applied.None? {
          return true;
        }
        if applied.value {
          compactionsApplied := compactionsApplied + 1;
        }
      }
      panicked := false;
    }
  }

  // ---------------------------------------------------------------- histories

  /** The memory after a whole history of pushes from an empty start; one that panics leaves its entry. */
  function AfterAll(p: Policy, es: seq<Entry>, nows: seq<int>): Memory
    requires |nows| == |es|
    decreases |es|
  {
    if es == [] then Memory([], 0)
    else
      var n := |es| - 1;
      Pushed(p, AfterAll(p, es[..n], nows[..n]), es[n], nows[n])
  }

  /** Pushes between two compactions: the threshold less what a compaction keeps. */
  function Period(threshold: nat): (d: nat)
    requires threshold >= 2
    ensures d >= 1 && d == (threshold + 1) / 2 && Keep(threshold) + d == threshold
  {
    threshold - Keep(threshold)
  }

  lemma AfterLast(p: Policy, es: seq<Entry>, nows: seq<int>)
    requires |nows| == |es| > 0
    ensures var n := |es| - 1;
      && es == es[..n] + [es[n]]
      && AfterAll(p, es, nows) == Pushed(p, AfterAll(p, es[..n], nows[..n]), es[n], nows[n])
  {
  }

  /** Without compaction, or with a threshold under two, the memory is the history. */
  lemma {:induction false} NeverCompacts(p: Policy, es: seq<Entry>, nows: seq<int>)
    requires |nows| == |es| && (!p.enabled || p.threshold < 2)
    ensures AfterAll(p, es, nows) == Memory(es, 0)
    decreases |es|
  {
    if es != [] {
      var n := |es| - 1;
      NeverCompacts(p, es[..n], nows[..n]);
      AfterLast(p, es, nows);
    }
  }

  /** How many pushes `q` periods take. */
  function Span(q: nat, d: nat): nat {
    if q == 0 then 0 else Span(q - 1, d) + d
  }

  lemma NextPeriod(q: nat, d: nat)
    ensures (q + 1) * d == q * d + d
  {
  }

  lemma {:induction false} SpanIsProduct(q: nat, d: nat)
    ensures Span(q, d) == q * d
  {
    if q > 0 {
      SpanIsProduct(q - 1, d);
      NextPeriod(q - 1, d);
    }
  }

  /** What a push that does not panic does to the list, whatever the summary says. */
  ghost predicate Pushes(p: Policy, m: Memory, e: Entry, m': Memory) {
    var all, keep := m.entries + [e], Keep(p.threshold);
    if Overflows(p, m) then
      && m'.compactions == m.compactions + 1 && |m'.entries| == 1 + keep && m'.entries[1..] == all[|all| - keep..]
    else m' == m.(entries := all)
  }

  lemma PushedPushes(p: Policy, m: Memory, e: Entry, now: int)
    requires !Panics(p, m, e)
    ensures Pushes(p, m, e, Pushed(p, m, e, now))
  {
  }

  /** No push of the history panics. */
  predicate NeverPanics(p: Policy, es: seq<Entry>, nows: seq<int>)
    requires |nows| == |es|
    decreases |es|
  {
    es == [] ||
    var n := |es| - 1;
    !Panics(p, AfterAll(p, es[..n], nows[..n]), es[n]) && NeverPanics(p, es[..n], nows[..n])
  }

  /** Past the threshold: one summary, then an exact suffix, `q` whole periods and `r` pushes after the
      first compaction. */
  ghost predicate Shape(p: Policy, m: Memory, es: seq<Entry>, q: nat, r: nat)
    requires p.threshold >= 2
  {
    var kept := Keep(p.threshold) + r;
    && r < Period(p.threshold)
    && |es| - p.threshold - 1 == Span(q, Period(p.threshold)) + r
    && kept <= |es|
    && m.compactions == 1 + q
    && |m.entries| == 1 + kept
    && m.entries[1..] == es[|es| - kept..]
  }

  lemma SuffixGrows(entries: seq<Entry>, es: seq<Entry>, e: Entry, kept: nat)
    requires kept <= |es| && entries != [] && entries[1..] == es[|es| - kept..]
    ensures (entries + [e])[1..] == (es + [e])[|es| - kept..]
  {
  }

  /** The last `k` of the list are the last `k` of the history. */
  lemma SuffixShrinks(all: seq<Entry>, es: seq<Entry>, k: nat)
    requires 1 <= |all| <= |es| + 1 && all[1..] == es[|es| + 1 - |all|..] && k < |all|
    ensures all[|all| - k..] == es[|es| - k..]
  {
    assert all[|all| - k..] == all[1..][|all| - 1 - k..];
    assert es[|es| - k..] == es[|es| + 1 - |all|..][|all| - 1 - k..];
  }

  /** Within a period a push extends the suffix. */
  lemma ShapeGrows(p: Policy, m: Memory, m': Memory, es: seq<Entry>, q: nat, r: nat, e: Entry)
    requires p.enabled && p.threshold >= 2 && Shape(p, m, es, q, r) && r + 1 < Period(p.threshold)
    requires Pushes(p, m, e, m')
    ensures Shape(p, m', es + [e], q, r + 1)
  {
    SuffixGrows(m.entries, es, e, Keep(p.threshold) + r);
  }

  /** The last push of a period compacts again. */
  lemma ShapeTurns(p: Policy, m: Memory, m': Memory, es: seq<Entry>, q: nat, r: nat, e: Entry)
    requires p.enabled && p.threshold >= 2 && Shape(p, m, es, q, r) && r + 1 == Period(p.threshold)
    requires Pushes(p, m, e, m')
    ensures Shape(p, m', es + [e], q + 1, 0)
  {
    SuffixGrows(m.entries, es, e, Keep(p.threshold) + r);
    SuffixShrinks(m.entries + [e], es + [e], Keep(p.threshold));
  }

  ghost predicate Fits(p: Policy, m: Memory, es: seq<Entry>, q: nat, r: nat)
    requires p.threshold >= 2
  {
    if |es| <= p.threshold then m == Memory(es, 0) else Shape(p, m, es, q, r)
  }

  /** A push either lengthens the plain history, extends the suffix or, at the end of a period, compacts. */
  lemma PushFits(p: Policy, m: Memory, m': Memory, es: seq<Entry>, q: nat, r: nat, e: Entry) returns (q': nat, r': nat)
    requires p.enabled && p.threshold >= 2 && Fits(p, m, es, q, r) && Pushes(p, m, e, m')
    ensures Fits(p, m', es + [e], q', r')
  {
    q', r' := 0, 0;
    if |es| > p.threshold {
      if r + 1 < Period(p.threshold) {
        q', r' := q, r + 1;
        ShapeGrows(p, m, m', es, q, r, e);
      } else {
        q', r' := q + 1, 0;
        ShapeTurns(p, m, m', es, q, r, e);
      }
    }
  }

  lemma {:induction false} Shaped(p: Policy, es: seq<Entry>, nows: seq<int>) returns (q: nat, r: nat)
    requires p.enabled && p.threshold >= 2 && |nows| == |es| && NeverPanics(p, es, nows)
    ensures Fits(p, AfterAll(p, es, nows), es, q, r)
    decreases |es|
  {
    if es == [] {
      q, r := 0, 0;
    } else {
      var n := |es| - 1;
      q, r := Shaped(p, es[..n], nows[..n]);
      AfterLast(p, es, nows);
      PushedPushes(p, AfterAll(p, es[..n], nows[..n]), es[n], nows[n]);
      q, r := PushFits(p, AfterAll(p, es[..n], nows[..n]), AfterAll(p, es, nows), es[..n], q, r, es[n]);
    }
  }

  /** The summary that some compaction made of some entries. */
  ghost predicate IsSummary(e: Entry) {
    exists dropped: seq<Entry>, now: int :: !CutFails(dropped) && e == Summary(dropped, now)
  }

  ghost predicate HeadOk(m: Memory) {
    m.compactions > 0 ==> m.entries != [] && IsSummary(m.entries[0])
  }

  lemma PushKeepsHead(p: Policy, m: Memory, e: Entry, now: int)
    requires HeadOk(m)
    ensures HeadOk(Pushed(p, m, e, now))
  {
    var all := m.entries + [e];
    if Overflows(p, m) && !Panics(p, m, e) {
      assert Pushed(p, m, e, now).entries[0] == Summary(Dropped(all, p.threshold), now);
    } else {
      assert m.entries != [] ==> all[0] == m.entries[0];
    }
  }

  lemma {:induction false} HeadIsSummary(p: Policy, es: seq<Entry>, nows: seq<int>)
    requires |nows| == |es|
    ensures HeadOk(AfterAll(p, es, nows))
    decreases |es|
  {
    if es != [] {
      var n := |es| - 1;
      HeadIsSummary(p, es[..n], nows[..n]);
      PushKeepsHead(p, AfterAll(p, es[..n], nows[..n]), es[n], nows[n]);
    }
  }

  lemma DivideOut(a: nat, q: nat, r: nat, d: nat)
    requires d >= 1 && r < d && a == q * d + r
    ensures q == a / d && r == a % d
  {
    Euclid(a, d);
    if q < a / d {
      Between(q + 1, a / d, d);
      NextPeriod(q, d);
    } else if q > a / d {
      Between(a / d + 1, q, d);
      NextPeriod(a / d, d);
    }
  }

  lemma Euclid(a: nat, d: nat)
    requires d >= 1
    ensures a == a / d * d + a % d && a % d < d
  {
  }

  lemma Between(a: nat, b: nat, d: nat)
    requires a <= b
    ensures a * d <= b * d
  {
  }

  /** Main result: for every history of pushes without a panic, the memory never exceeds the threshold; it is
      the whole history, or one summary followed by an exact suffix at least half the threshold long; and
      the number of compactions is exactly known. */
  lemma BoundedHistory(p: Policy, es: seq<Entry>, nows: seq<int>)
    requires p.enabled && p.threshold >= 2 && |nows| == |es| && NeverPanics(p, es, nows)
    ensures var m, t, n := AfterAll(p, es, nows), p.threshold, |es|;
      && |m.entries| <= t
      && (n <= t ==> m == Memory(es, 0))
      && (n > t ==>
            var kept := t / 2 + (n - t - 1) % ((t + 1) / 2);
            && kept <= n
            && m.compactions == 1 + (n - t - 1) / ((t + 1) / 2)
            && |m.entries| == 1 + kept
            && IsSummary(m.entries[0])
            && m.entries[1..] == es[n - kept..])
  {
    var q, r := Shaped(p, es, nows);
    HeadIsSummary(p, es, nows);
    if |es| > p.threshold {
      KeptAndCompactions(p, AfterAll(p, es, nows), es, q, r);
    }
  }

  lemma KeptAndCompactions(p: Policy, m: Memory, es: seq<Entry>, q: nat, r: nat)
    requires p.threshold >= 2 && |es| > p.threshold && Shape(p, m, es, q, r)
    ensures var n, t := |es|, p.threshold;
      r == (n - t - 1) % ((t + 1) / 2) && q == (n - t - 1) / ((t + 1) / 2) && Keep(t) == t / 2
  {
    var d := Period(p.threshold);
    SpanIsProduct(q, d);
    DivideOut(|es| - p.threshold - 1, q, r, d);
  }

  // ---------------------------------------------------------------- panics

  /** Main result: a push panics exactly if a compaction is due and a character of several bytes of the
      whole summary lies across byte 4,096. */
  lemma PushPanicsIff(p: Policy, m: Memory, e: Entry)
    ensures Panics(p, m, e) <==>
      Overflows(p, m) && Utf8.Straddles(Whole(Dropped(m.entries + [e], p.threshold)), LIMIT)
  {
    if Overflows(p, m) {
      Utf8.CutFailsIff(Whole(Dropped(m.entries + [e], p.threshold)), LIMIT);
    }
  }

  /** The memory stays within the threshold at every push of the history. */
  ghost predicate StaysBounded(p: Policy, es: seq<Entry>, nows: seq<int>)
    requires |nows| == |es|
  {
    forall n :: 0 <= n <= |es| ==> |AfterAll(p, es[..n], nows[..n]).entries| <= p.threshold
  }

  lemma {:induction false} PrefixNeverPanics(p: Policy, es: seq<Entry>, nows: seq<int>, n: nat)
    requires |nows| == |es| && NeverPanics(p, es, nows) && n <= |es|
    ensures NeverPanics(p, es[..n], nows[..n])
    decreases |es|
  {
    if n == |es| {
      assert es[..n] == es && nows[..n] == nows;
    } else {
      var last := |es| - 1;
      assert es[..last][..n] == es[..n] && nows[..last][..n] == nows[..n];
      PrefixNeverPanics(p, es[..last], nows[..last], n);
    }
  }

  lemma {:induction false} BoundedNeverPanics(p: Policy, es: seq<Entry>, nows: seq<int>)
    requires |nows| == |es| && StaysBounded(p, es, nows)
    ensures NeverPanics(p, es, nows)
    decreases |es|
  {
    if es != [] {
      var n := |es| - 1;
      AfterLast(p, es, nows);
      assert es[..|es|] == es && nows[..|es|] == nows;
      forall k | 0 <= k <= n ensures |AfterAll(p, es[..n][..k], nows[..n][..k]).entries| <= p.threshold {
        assert es[..n][..k] == es[..k] && nows[..n][..k] == nows[..k];
      }
      BoundedNeverPanics(p, es[..n], nows[..n]);
    }
  }

  /** Main result: the memory stays within the threshold exactly as long as no push panics. */
  lemma BoundedIffNeverPanics(p: Policy, es: seq<Entry>, nows: seq<int>)
    requires p.enabled && p.threshold >= 2 && |nows| == |es|
    ensures StaysBounded(p, es, nows) <==> NeverPanics(p, es, nows)
  {
    if NeverPanics(p, es, nows) {
      forall n | 0 <= n <= |es| ensures |AfterAll(p, es[..n], nows[..n]).entries| <= p.threshold {
        PrefixNeverPanics(p, es, nows, n);
        BoundedHistory(p, es[..n], nows[..n]);
      }
    }
    if StaysBounded(p, es, nows) {
      BoundedNeverPanics(p, es, nows);
    }
  }

  /** What the entries say is ASCII. */
  predicate AllAscii(entries: seq<Entry>) {
    forall i :: 0 <= i < |entries| && Spoken(entries[i]).Some? ==> Utf8.Ascii(Spoken(entries[i]).value)
  }

  lemma {:induction false} DecimalIsAscii(n: nat)
    ensures Utf8.Ascii(Decimal(n))
  {
    if n >= 10 {
      DecimalIsAscii(n / 10);
    }
  }

  lemma {:induction false} ChunksAreAscii(entries: seq<Entry>)
    requires AllAscii(entries)
    ensures forall c :: c in Chunks(entries) ==> Utf8.Ascii(c)
  {
    if entries != [] {
      ChunksAreAscii(entries[..|entries| - 1]);
    }
  }

  lemma {:induction false} JoinIsAscii(chunks: seq<string>)
    requires forall c :: c in chunks ==> Utf8.Ascii(c)
    ensures Utf8.Ascii(Join(chunks))
  {
    var n := |chunks| - 1;
    if n >= 0 {
      assert chunks[n] in chunks;
    }
    if n > 0 {
      JoinIsAscii(chunks[..n]);
      Utf8.AsciiTogether(Join(chunks[..n]), " ");
      Utf8.AsciiTogether(Join(chunks[..n]) + " ", chunks[n]);
    }
  }

  lemma CountIsAscii(n: nat)
    ensures Utf8.Ascii("compacted " + Decimal(n) + " events")
  {
    DecimalIsAscii(n);
    Utf8.AsciiTogether("compacted ", Decimal(n));
    Utf8.AsciiTogether("compacted " + Decimal(n), " events");
  }

  lemma BodyIsAscii(chunks: seq<string>, count: nat)
    requires forall c :: c in chunks ==> Utf8.Ascii(c)
    ensures Utf8.Ascii(Body(chunks, count))
  {
    if chunks == [] {
      CountIsAscii(count);
    } else {
      JoinIsAscii(chunks);
    }
  }

  lemma WholeIsAscii(entries: seq<Entry>)
    requires AllAscii(entries)
    ensures Utf8.Ascii(Whole(entries))
  {
    ChunksAreAscii(entries);
    BodyIsAscii(Chunks(entries), |entries|);
    Utf8.AsciiTogether(PREFIX, Body(Chunks(entries), |entries|));
  }

  lemma AsciiSummary(entries: seq<Entry>, now: int)
    requires AllAscii(entries)
    ensures !CutFails(entries) && AllAscii([Summary(entries, now)])
  {
    var whole := Whole(entries);
    WholeIsAscii(entries);
    Utf8.AsciiCut(whole, LIMIT);
    TrimIsAscii(SummaryText(entries));
  }

  lemma TrimIsAscii(text: string)
    requires Utf8.Ascii(text)
    ensures Utf8.Ascii(Trim(text))
  {
    var i, j := TrimCuts(text);
  }

  lemma AsciiPush(p: Policy, m: Memory, e: Entry, now: int)
    requires AllAscii(m.entries) && AllAscii([e])
    ensures !Panics(p, m, e) && AllAscii(Pushed(p, m, e, now).entries)
  {
    var all := m.entries + [e];
    assert [e][0] == e && AllAscii(all);
    if Overflows(p, m) {
      AsciiSummary(Dropped(all, p.threshold), now);
    }
  }

  /** Main result: while everything said is ASCII no push ever panics. */
  lemma {:induction false} AsciiNeverPanics(p: Policy, es: seq<Entry>, nows: seq<int>)
    requires |nows| == |es| && AllAscii(es)
    ensures NeverPanics(p, es, nows) && AllAscii(AfterAll(p, es, nows).entries)
    decreases |es|
  {
    if es != [] {
      var n := |es| - 1;
      AsciiNeverPanics(p, es[..n], nows[..n]);
      AsciiPush(p, AfterAll(p, es[..n], nows[..n]), es[n], nows[n]);
    }
  }

  function Quiet(): Entry {
    Entry(Content("user", []), "user", 0)
  }

  /** One long text of two-byte characters, its first byte a single one. */
  function Accents(): Entry {
    Entry(Content("user", [Text("x" + Utf8.Fill('\U{E9}', 3000))]), "user", 0)
  }

  lemma AccentsSpoken()
    ensures Spoken(Accents()) == Some("x" + Utf8.Fill('\U{E9}', 3000)) && Spoken(Quiet()) == None
  {
    var text := "x" + Utf8.Fill('\U{E9}', 3000);
    assert text[|text| - 1] == '\U{E9}';
    assert Trimmed(text);
  }

  lemma AccentsWhole()
    ensures Whole([Accents(), Quiet()]) == (PREFIX + "x") + Utf8.Fill('\U{E9}', 3000)
  {
    var entries := [Accents(), Quiet()];
    AccentsSpoken();
    assert entries[..1] == [Accents()] && [Accents()][..0] == [];
    assert Chunks([Accents()]) == [Spoken(Accents()).value];
    assert Chunks(entries) == [Spoken(Accents()).value];
    Regroup(PREFIX, "x", Utf8.Fill('\U{E9}', 3000));
  }

  lemma AccentsStart()
    ensures Utf8.Ascii(PREFIX + "x") && |PREFIX + "x"| == 21
  {
  }

  lemma AccentsCannotBeCut()
    ensures CutFails([Accents(), Quiet()])
  {
    AccentsWhole();
    AccentsStart();
    Utf8.OddBehindAscii(PREFIX + "x", '\U{E9}', 3000, LIMIT);
  }

  /** A history whose third push panics, and which then exceeds the threshold. */
  lemma SomePushPanics()
    ensures var (p, m) := (Policy(true, 2), AfterAll(Policy(true, 2), [Accents(), Quiet()], [0, 0]));
      m == Memory([Accents(), Quiet()], 0) && Panics(p, m, Quiet()) && |Pushed(p, m, Quiet(), 0).entries| == 3
  {
    var p, es := Policy(true, 2), [Accents(), Quiet()];
    assert es[..1] == [Accents()] && [0, 0][..1] == [0] && [Accents()][..0] == [] && [0][..0] == [];
    assert AfterAll(p, [Accents()], [0]) == Memory([Accents()], 0);
    assert AfterAll(p, es, [0, 0]) == Memory(es, 0);
    assert Dropped(es + [Quiet()], 2) == es;
    AccentsCannotBeCut();
  }

  // ---------------------------------------------------------------- what summaries keep

  predicate At(a: string, b: string, i: nat) {
    i + |a| <= |b| && b[i..i + |a|] == a
  }

  ghost predicate Within(a: string, b: string) {
    exists i: nat :: At(a, b, i)
  }

  lemma WithinTransitive(a: string, b: string, c: string)
    requires Within(a, b) && Within(b, c)
    ensures Within(a, c)
  {
    var i: nat :| At(a, b, i);
    var j: nat :| At(b, c, j);
    forall k | 0 <= k < |a| ensures c[j + i..j + i + |a|][k] == a[k] {
      assert a[k] == b[i..i + |a|][k] && b[i + k] == c[j..j + |b|][i + k];
    }
    assert At(a, c, j + i);
  }

  lemma WithinMiddle(a: string, before: string, after: string)
    ensures Within(a, before + a + after)
  {
    var whole := before + a + after;
    assert whole[|before|..|before| + |a|] == a;
    assert At(a, whole, |before|);
  }

  lemma FirstTextTrimmed(parts: seq<Part>)
    ensures FirstText(parts).Some? ==> Trimmed(FirstText(parts).value)
  {
  }

  /** Where chunk `k` begins in the joined text: behind those before it, each with a space after it. */
  function Begins(chunks: seq<string>, k: nat): nat
    requires k < |chunks|
  {
    if k == 0 then 0 else Begins(chunks, k - 1) + |chunks[k - 1]| + 1
  }

  lemma {:induction false} BeginsOfPrefix(chunks: seq<string>, n: nat, k: nat)
    requires k < n <= |chunks|
    ensures Begins(chunks[..n], k) == Begins(chunks, k)
  {
    if k > 0 {
      BeginsOfPrefix(chunks, n, k - 1);
    }
  }

  lemma {:induction false} JoinLength(chunks: seq<string>)
    requires chunks != []
    ensures var last := |chunks| - 1; |Join(chunks)| == Begins(chunks, last) + |chunks[last]|
  {
    var last := |chunks| - 1;
    if last > 0 {
      JoinLength(chunks[..last]);
      BeginsOfPrefix(chunks, last, last - 1);
    }
  }

  /** The last chunk stands behind all the others and a space. */
  lemma {:induction false} LastPlace(chunks: seq<string>)
    requires |chunks| >= 2
    ensures var last := |chunks| - 1;
      At(chunks[last], Join(chunks), Begins(chunks, last)) && Join(chunks)[Begins(chunks, last) - 1] == ' '
  {
    var last := |chunks| - 1;
    JoinLength(chunks[..last]);
    BeginsOfPrefix(chunks, last, last - 1);
    AtEnd(chunks[last], Join(chunks[..last]));
  }

  /** What stands in the text of all chunks but the last stands at the same place in the whole text. */
  lemma {:induction false} EarlierPlace(chunks: seq<string>, k: nat)
    requires k < |chunks| - 1
    requires var front := chunks[..|chunks| - 1];
      && At(chunks[k], Join(front), Begins(front, k))
      && (k > 0 ==> Join(front)[Begins(front, k) - 1] == ' ')
    ensures At(chunks[k], Join(chunks), Begins(chunks, k))
    ensures k > 0 ==> Join(chunks)[Begins(chunks, k) - 1] == ' '
  {
    var last := |chunks| - 1;
    BeginsOfPrefix(chunks, last, k);
    AtStays(chunks[k], Join(chunks[..last]), " " + chunks[last], Begins(chunks, k));
    assert Join(chunks[..last]) + (" " + chunks[last]) == Join(chunks);
  }

  /** Main result: the joined text is the chunks in their order with one space between each two, and nothing
      else: each stands where it begins, behind a space, and the last ends the text. */
  lemma {:induction false} JoinPlaces(chunks: seq<string>, k: nat)
    requires k < |chunks|
    ensures At(chunks[k], Join(chunks), Begins(chunks, k))
    ensures k > 0 ==> Join(chunks)[Begins(chunks, k) - 1] == ' '
    ensures var last := |chunks| - 1; |Join(chunks)| == Begins(chunks, last) + |chunks[last]|
  {
    var last := |chunks| - 1;
    JoinLength(chunks);
    if k < last {
      JoinPlaces(chunks[..last], k);
      EarlierPlace(chunks, k);
    } else if last > 0 {
      LastPlace(chunks);
    }
  }

  lemma AtStays(a: string, b: string, more: string, i: nat)
    requires At(a, b, i)
    ensures At(a, b + more, i)
  {
    assert (b + more)[i..i + |a|] == b[i..i + |a|];
  }

  lemma AtEnd(a: string, b: string)
    ensures At(a, b + " " + a, |b| + 1) && (b + " " + a)[|b|] == ' '
  {
    assert (b + " " + a)[|b| + 1..] == a;
  }

  /** `at` are the positions of the entries that speak, in order, and `chunks` what they say. */
  ghost predicate ChunksAt(entries: seq<Entry>, chunks: seq<string>, at: seq<nat>) {
    && |at| == |chunks|
    && (forall k :: 0 <= k < |at| ==> at[k] < |entries| && Spoken(entries[at[k]]) == Some(chunks[k]))
    && (forall k, l :: 0 <= k < l < |at| ==> at[k] < at[l])
    && forall i :: 0 <= i < |entries| && Spoken(entries[i]).Some? ==> i in at
  }

  lemma {:induction false} ChunksAtNext(entries: seq<Entry>, chunks: seq<string>, at: seq<nat>, e: Entry)
    requires ChunksAt(entries, chunks, at)
    ensures match Spoken(e)
      case None => ChunksAt(entries + [e], chunks, at)
      case Some(text) => ChunksAt(entries + [e], chunks + [text], at + [|entries|])
  {
    var all := entries + [e];
    forall i | 0 <= i < |entries| && Spoken(all[i]).Some? ensures i in at {
      assert all[i] == entries[i];
    }
  }

  /** Entries contribute their chunks in their order, each that speaks exactly one. */
  lemma {:induction false} ChunksInOrder(entries: seq<Entry>) returns (at: seq<nat>)
    ensures ChunksAt(entries, Chunks(entries), at)
  {
    at := [];
    if entries != [] {
      var n := |entries| - 1;
      at := ChunksInOrder(entries[..n]);
      ChunksAtNext(entries[..n], Chunks(entries[..n]), at, entries[n]);
      assert entries == entries[..n] + [entries[n]];
      match Spoken(entries[n])
      case None => assert Chunks(entries) == Chunks(entries[..n]);
      case Some(_) => at := at + [n];
    }
  }

  /** The summary entry: from the system, at the time of the compaction, one text. */
  lemma SummaryIs(entries: seq<Entry>, now: int)
    requires !CutFails(entries)
    ensures var e := Summary(entries, now);
      && e.author == "system" && e.at == now && e.content.role == "system"
      && e.content.parts == [Text(SummaryText(entries))]
    ensures Utf8.Bytes(SummaryText(entries)) ==
      (if Uncut(entries) then Utf8.Bytes(Whole(entries)) else Utf8.Bytes(Whole(entries))[..4096])
    ensures SummaryText(entries) <= Whole(entries)
  {
    Utf8.CutIsPrefix(Whole(entries), LIMIT);
  }

  lemma {:induction false} ChunkOf(entries: seq<Entry>, i: nat)
    requires i < |entries| && Spoken(entries[i]).Some?
    ensures Spoken(entries[i]).value in Chunks(entries)
  {
    var n := |entries| - 1;
    if i < n {
      ChunkOf(entries[..n], i);
    }
  }

  lemma {:induction false} ChunksSolid(entries: seq<Entry>)
    ensures forall c :: c in Chunks(entries) ==> c != "" && Trimmed(c)
  {
    if entries != [] {
      var n := |entries| - 1;
      ChunksSolid(entries[..n]);
      FirstTextTrimmed(entries[n].content.parts);
    }
  }

  lemma {:induction false} JoinMentions(chunks: seq<string>, k: nat)
    requires k < |chunks|
    ensures Within(chunks[k], Join(chunks))
  {
    var n := |chunks| - 1;
    var rest, last := Join(chunks[..n]), chunks[n];
    if n == 0 {
      WithinMiddle(last, "", "");
      assert "" + last + "" == last;
    } else if k == n {
      WithinMiddle(last, rest + " ", "");
      assert rest + " " + last + "" == Join(chunks);
    } else {
      JoinMentions(chunks[..n], k);
      WithinMiddle(rest, "", " " + last);
      assert "" + rest + (" " + last) == Join(chunks);
      WithinTransitive(chunks[k], rest, Join(chunks));
    }
  }

  lemma JoinEnds(chunks: seq<string>)
    requires chunks != [] && chunks[|chunks| - 1] != ""
    ensures var j, last := Join(chunks), chunks[|chunks| - 1]; j != "" && j[|j| - 1] == last[|last| - 1]
  {
  }

  /** A summary starts and ends with something other than white space before it is cut. */
  lemma WholeSolid(entries: seq<Entry>)
    ensures Whole(entries) != "" && Trimmed(Whole(entries))
  {
    var chunks := Chunks(entries);
    var body := Body(chunks, |entries|);
    ChunksSolid(entries);
    if chunks != [] {
      assert chunks[|chunks| - 1] in chunks;
      JoinEnds(chunks);
    } else {
      assert body[|body| - 1] == 's';
    }
    assert (PREFIX + body)[0] == 'c' && (PREFIX + body)[|PREFIX + body| - 1] == body[|body| - 1];
  }

  lemma UncutIsWhole(entries: seq<Entry>)
    requires Uncut(entries)
    ensures !CutFails(entries) && SummaryText(entries) == Whole(entries)
  {
  }

  /** `text` contains the text of each of the entries. */
  ghost predicate Tells(text: string, entries: seq<Entry>) {
    forall i :: 0 <= i < |entries| && Spoken(entries[i]).Some? ==> Within(Spoken(entries[i]).value, text)
  }

  lemma WholeTells(entries: seq<Entry>)
    ensures Tells(Whole(entries), entries)
  {
    var chunks, text := Chunks(entries), Whole(entries);
    forall i | 0 <= i < |entries| && Spoken(entries[i]).Some? ensures Within(Spoken(entries[i]).value, text) {
      ChunkOf(entries, i);
      var k :| 0 <= k < |chunks| && chunks[k] == Spoken(entries[i]).value;
      JoinMentions(chunks, k);
      WithinMiddle(Join(chunks), PREFIX, "");
      assert PREFIX + Join(chunks) + "" == text;
      WithinTransitive(chunks[k], Join(chunks), text);
    }
  }

  /** A summary of at most 4,096 bytes is not cut and contains the text of every entry it replaces. */
  lemma SummaryTells(entries: seq<Entry>)
    requires Uncut(entries)
    ensures !CutFails(entries) && Tells(SummaryText(entries), entries)
  {
    UncutIsWhole(entries);
    WholeTells(entries);
  }

  /** The memory lists `rest`, behind a summary that tells `told` if there has been a compaction. */
  ghost predicate Faithful(m: Memory, told: seq<Entry>, rest: seq<Entry>) {
    if m.compactions == 0 then told == [] && m.entries == rest
    else m.entries != [] && m.entries == [m.entries[0]] + rest && SummaryTellsAll(m.entries[0], told)
  }

  /** A summary entry, solid enough to be a chunk of the next summary unchanged. */
  ghost predicate SummaryTellsAll(e: Entry, told: seq<Entry>) {
    && |e.content.parts| == 1 && e.content.parts[0].Text?
    && var text := e.content.parts[0].text; text != "" && Trimmed(text) && Tells(text, told)
  }

  /** The compaction that the push makes, if any, does not cut its summary. */
  predicate PushUncut(p: Policy, m: Memory, e: Entry) {
    Overflows(p, m) ==> Uncut(Dropped(m.entries + [e], p.threshold))
  }

  /** No summary of the history was cut. */
  predicate NeverCut(p: Policy, es: seq<Entry>, nows: seq<int>)
    requires |nows| == |es|
    decreases |es|
  {
    es == [] ||
    var n := |es| - 1;
    PushUncut(p, AfterAll(p, es[..n], nows[..n]), es[n]) && NeverCut(p, es[..n], nows[..n])
  }

  lemma FirstSummary(entries: seq<Entry>, now: int)
    requires Uncut(entries)
    ensures !CutFails(entries) && SummaryTellsAll(Summary(entries, now), entries)
  {
    UncutIsWhole(entries);
    WholeSolid(entries);
    WholeTells(entries);
  }

  /** Summarising a summary and what followed tells everything the old summary told. */
  lemma NextSummary(old_: Entry, told: seq<Entry>, more: seq<Entry>, now: int)
    requires SummaryTellsAll(old_, told) && Uncut([old_] + more)
    ensures !CutFails([old_] + more) && SummaryTellsAll(Summary([old_] + more, now), told + more)
  {
    var dropped, all := [old_] + more, told + more;
    FirstSummary(dropped, now);
    var text := SummaryText(dropped);
    assert Spoken(dropped[0]) == Some(old_.content.parts[0].text);
    forall i | 0 <= i < |all| && Spoken(all[i]).Some? ensures Within(Spoken(all[i]).value, text) {
      if i < |told| {
        assert all[i] == told[i];
        WithinTransitive(Spoken(all[i]).value, Spoken(dropped[0]).value, text);
      } else {
        assert all[i] == dropped[1 + i - |told|];
      }
    }
  }

  /** A compaction splits the list in two. */
  lemma CompactedParts(all: seq<Entry>, t: nat, now: int) returns (dropped: seq<Entry>, kept: seq<Entry>)
    requires Due(|all|, t)
    ensures dropped == Dropped(all, t) && dropped != [] && dropped + kept == all
    ensures !CutFails(dropped) ==> Compacted(all, t, now) == [Summary(dropped, now)] + kept
  {
    dropped, kept := Dropped(all, t), all[|all| - Keep(t)..];
  }

  lemma FaithfulBehind(head: Entry, told: seq<Entry>, rest: seq<Entry>, n: nat)
    requires SummaryTellsAll(head, told) && n > 0
    ensures Faithful(Memory([head] + rest, n), told, rest)
  {
  }

  /** A compaction of a plain list. */
  lemma FirstCompactionFaithful(dropped: seq<Entry>, kept: seq<Entry>, now: int)
    requires Uncut(dropped)
    ensures !CutFails(dropped) && Faithful(Memory([Summary(dropped, now)] + kept, 1), dropped, kept)
  {
    FirstSummary(dropped, now);
    FaithfulBehind(Summary(dropped, now), dropped, kept, 1);
  }

  /** A compaction of a summary and what followed it. */
  lemma NextCompactionFaithful(
    head: Entry, before: seq<Entry>, more: seq<Entry>, kept: seq<Entry>, now: int, n: nat)
    requires SummaryTellsAll(head, before) && n > 0 && Uncut([head] + more)
    ensures !CutFails([head] + more) && Faithful(Memory([Summary([head] + more, now)] + kept, n), before + more, kept)
  {
    NextSummary(head, before, more, now);
    FaithfulBehind(Summary([head] + more, now), before + more, kept, n);
  }

  lemma BehindHead(head: Entry, tail: seq<Entry>, dropped: seq<Entry>, kept: seq<Entry>)
    requires dropped != [] && dropped + kept == [head] + tail
    ensures dropped == [head] + dropped[1..] && dropped[1..] + kept == tail
  {
    assert (dropped + kept)[0] == head && (dropped + kept)[1..] == dropped[1..] + kept;
  }

  lemma PushStaysFaithful(p: Policy, m: Memory, told: seq<Entry>, rest: seq<Entry>, e: Entry, now: int)
      returns (told': seq<Entry>, rest': seq<Entry>)
    requires Faithful(m, told, rest) && PushUncut(p, m, e)
    ensures Faithful(Pushed(p, m, e, now), told', rest') && told' + rest' == told + rest + [e]
  {
    Regroup(told, rest, [e]);
    if !Overflows(p, m) {
      told', rest' := told, rest + [e];
      PlainPush(m, told, rest, e);
    } else if m.compactions == 0 {
      told', rest' := CompactedParts(rest + [e], p.threshold, now);
      FirstCompactionFaithful(told', rest', now);
    } else {
      var head := m.entries[0];
      Regroup([head], rest, [e]);
      var dropped, kept := CompactedParts([head] + (rest + [e]), p.threshold, now);
      BehindHead(head, rest + [e], dropped, kept);
      NextCompactionFaithful(head, told, dropped[1..], kept, now, m.compactions + 1);
      told', rest' := told + dropped[1..], kept;
      Regroup(told, dropped[1..], kept);
    }
  }

  lemma PlainPush(m: Memory, told: seq<Entry>, rest: seq<Entry>, e: Entry)
    requires Faithful(m, told, rest)
    ensures Faithful(m.(entries := m.entries + [e]), told, rest + [e])
  {
    if m.compactions > 0 {
      Regroup([m.entries[0]], rest, [e]);
    }
  }

  /** Main result: as long as no summary exceeded 4,096 bytes, nothing said is lost: the history is a part
      told inside the current summary followed by the entries still listed. */
  lemma {:induction false} NothingSaidIsLost(p: Policy, es: seq<Entry>, nows: seq<int>)
      returns (told: seq<Entry>, rest: seq<Entry>)
    requires |nows| == |es| && NeverCut(p, es, nows)
    ensures Faithful(AfterAll(p, es, nows), told, rest) && told + rest == es
    decreases |es|
  {
    told, rest := [], [];
    if es != [] {
      var n := |es| - 1;
      told, rest := NothingSaidIsLost(p, es[..n], nows[..n]);
      AfterLast(p, es, nows);
      told, rest := PushStaysFaithful(p, AfterAll(p, es[..n], nows[..n]), told, rest, es[n], nows[n]);
    }
  }
}
