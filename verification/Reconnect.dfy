// Reconnecting to the realtime provider: the capped exponential backoff, one outage
// as the source's loop, and the loops of all sessions interleaved over shared counters.

module Reconnect {
  // ---------------------------------------------------------------- the policy

  datatype Config = Config(enabled: bool, maxAttempts: nat, initialMs: nat, maxMs: nat)

  datatype Policy = Policy(enabled: bool, maxAttempts: nat, initial: nat, max: nat)

  predicate PolicyOk(p: Policy) {
    1 <= p.initial <= p.max
  }

  /** A zero initial backoff counts as one millisecond, and the cap is never below the initial backoff. */
  function FromConfig(c: Config): (p: Policy)
    ensures PolicyOk(p) && p.enabled == c.enabled && p.maxAttempts == c.maxAttempts
    ensures c.initialMs >= 1 ==> p.initial == c.initialMs
    ensures c.maxMs >= p.initial ==> p.max == c.maxMs
    ensures c.maxMs < p.initial ==> p.max == p.initial
  {
    var initial := if c.initialMs > 1 then c.initialMs else 1;
    Policy(c.enabled, c.maxAttempts, initial, if c.maxMs > initial then c.maxMs else initial)
  }

  function Pow2(n: nat): (r: nat)
    ensures r >= 1
  {
    if n == 0 then 1 else 2 * Pow2(n - 1)
  }

  function Min(a: nat, b: nat): nat {
    if a < b then a else b
  }

  /** Milliseconds before the given attempt. The product stays far below 128 bits, so nothing saturates. */
  function Backoff(p: Policy, attempt: nat): nat {
    if attempt == 0 then 0 else Min(p.initial * Pow2(Min(attempt - 1, 16)), p.max)
  }

  lemma {:induction false} Pow2Monotone(a: nat, b: nat)
    requires a <= b
    ensures Pow2(a) <= Pow2(b)
  {
    if a < b {
      Pow2Monotone(a, b - 1);
    }
  }

  lemma TimesMonotone(k: nat, a: nat, b: nat)
    requires a <= b
    ensures k * a <= k * b
  {
  }

  lemma TimesTwo(k: nat, a: nat)
    ensures k * (2 * a) == 2 * (k * a)
  {
  }

  /** Main result: backoffs never shrink and lie between the initial backoff and the cap. */
  lemma BackoffGrows(p: Policy, a: nat, b: nat)
    requires PolicyOk(p) && 1 <= a <= b
    ensures p.initial <= Backoff(p, a) <= Backoff(p, b) <= p.max
  {
    var ea, eb := Min(a - 1, 16), Min(b - 1, 16);
    Pow2Monotone(ea, eb);
    TimesMonotone(p.initial, 1, Pow2(ea));
    TimesMonotone(p.initial, Pow2(ea), Pow2(eb));
  }

  /** Main result: each backoff doubles the one before, up to the cap, exactly up to attempt 16 or
      once sixteen doublings of the initial backoff reach the cap. */
  lemma BackoffDoubles(p: Policy, a: nat)
    requires PolicyOk(p) && a >= 1
    ensures Backoff(p, a + 1) == Min(2 * Backoff(p, a), p.max) <==> a <= 16 || p.initial * Pow2(16) >= p.max
  {
    var e := Min(a - 1, 16);
    BackoffGrows(p, a, a);
    if a <= 16 {
      TimesTwo(p.initial, Pow2(e));
    }
  }

  /** Where it fails: from one millisecond, with a cap of twenty minutes, attempt 18 waits no longer
      than attempt 17. */
  lemma DoublingStops()
    ensures var p := Policy(true, 20, 1, 1_200_000);
      PolicyOk(p) && Backoff(p, 17) == Backoff(p, 18) == 65_536 && 2 * 65_536 < p.max
  {
    assert Pow2(8) == 256;
    assert Pow2(12) == 4096;
    assert Pow2(16) == 65_536;
  }

  /** The waits of the first `n` attempts together. */
  function TotalWait(p: Policy, n: nat): nat {
    if n == 0 then 0 else TotalWait(p, n - 1) + Backoff(p, n)
  }

  lemma GeometricStep(k: nat, n: nat)
    requires n >= 1
    ensures k * (Pow2(n) - 1) == k * (Pow2(n - 1) - 1) + k * Pow2(n - 1)
    ensures n * k == (n - 1) * k + k
  {
    TimesTwo(k, Pow2(n - 1));
  }

  /** Main result: an outage of n attempts waits at most n caps, and at most a geometric sum of the initial backoff. */
  lemma {:induction false} TotalWaitBounded(p: Policy, n: nat)
    requires PolicyOk(p)
    ensures TotalWait(p, n) <= n * p.max
    ensures TotalWait(p, n) <= p.initial * (Pow2(n) - 1)
  {
    if n > 0 {
      TotalWaitBounded(p, n - 1);
      GeometricStep(p.initial, n);
      GeometricStep(p.max, n);
      Pow2Monotone(Min(n - 1, 16), n - 1);
      TimesMonotone(p.initial, Pow2(Min(n - 1, 16)), Pow2(n - 1));
    }
  }

  // ---------------------------------------------------------------- one outage

  /** What one attempt meets: whether shutdown shows before and after the wait, and whether connecting works. */
  datatype Try = Try(stopBefore: bool, stopAfter: bool, connects: bool)

  datatype Tally = Tally(attempts: nat, successes: nat, failures: nat)

  datatype Ending = Recovered | Stopped(counted: bool) | Exhausted

  /** How many connects fail before the outage ends, and how it ends. */
  function Outcome(env: seq<Try>, k: nat): (nat, Ending)
    requires k <= |env|
    decreases |env| - k
  {
    if k == |env| then (k, Exhausted)
    else if env[k].stopBefore then (k, Stopped(false))
    else if env[k].stopAfter then (k, Stopped(true))
    else if env[k].connects then (k, Recovered)
    else Outcome(env, k + 1)
  }

  /** Attempts counted by an outage with `failed` failed connects. */
  function Spent(failed: nat, ending: Ending): nat {
    failed + if ending.Recovered? || ending == Stopped(true) then 1 else 0
  }

  class Diagnostics {
    var attempts: nat
    var successes: nat
    var failures: nat

    function View(): Tally
      reads this
    {
      Tally(attempts, successes, failures)
    }

    constructor ()
      ensures View() == Tally(0, 0, 0)
    {
      attempts, successes, failures := 0, 0, 0;
    }

    /** `waited` is the time slept. */
    method ReconnectWithBackoff(p: Policy, env: seq<Try>) returns (recovered: bool, waited: nat)
      requires |env| == p.maxAttempts
      modifies this
      ensures !p.enabled || p.maxAttempts == 0 ==> !recovered && waited == 0 && View() == old(View())
      ensures p.enabled && p.maxAttempts > 0 ==>
        var (failed, ending) := Outcome(env, 0);
        && recovered == ending.Recovered?
        && waited == TotalWait(p, Spent(failed, ending))
        && View() == Tally(old(attempts) + Spent(failed, ending),
                           old(successes) + if recovered then 1 else 0,
                           old(failures) + failed)
    {
      recovered, waited := false, 0;
      if !p.enabled || p.maxAttempts == 0 {
        return;
      }
      for attempt := 1 to p.maxAttempts + 1
        invariant Outcome(env, 0) == Outcome(env, attempt - 1)
        invariant View() == Tally(old(attempts) + attempt - 1, old(successes), old(failures) + attempt - 1)
        invariant waited == TotalWait(p, attempt - 1)
      {
        var t := env[attempt - 1];
        if t.stopBefore {
          return;
        }
        attempts := attempts + 1;
        waited := waited + Backoff(p, attempt);
        if t.stopAfter {
          return;
        }
        if t.connects {
          successes := successes + 1;
          recovered := true;
          return;
        }
        failures := failures + 1;
      }
    }
  }

  /** The ending is that of the first attempt that does not simply fail, if there is one. */
  lemma {:induction false} OutcomeIsFirst(env: seq<Try>, k: nat)
    requires k <= |env|
    ensures var (failed, ending) := Outcome(env, k);
      && k <= failed <= |env|
      && (forall i :: k <= i < failed ==> env[i] == Try(false, false, false))
      && (ending.Exhausted? <==> failed == |env|)
      && (failed < |env| ==>
            && (ending == Stopped(false) <==> env[failed].stopBefore)
            && (ending == Stopped(true) <==> !env[failed].stopBefore && env[failed].stopAfter)
            && (ending == Recovered <==> env[failed] == Try(false, false, true)))
    decreases |env| - k
  {
    if k < |env| && env[k] == Try(false, false, false) {
      OutcomeIsFirst(env, k + 1);
    }
  }

  // ---------------------------------------------------------------- all sessions at once

  type SessionId = string

  /** Where a session's loop stands. `a` is the current attempt. */
  datatype Pc =
    | Check
    | StartRun
    | Running
    | TryTop(a: nat)
    | Sleeping(a: nat)
    | Connecting(a: nat)
    | CountSuccess(a: nat)
    | CountFailure(a: nat)
    | Done

  datatype Event = Run | Connect(ok: bool)

  /** `trace` and `waited`, the time slept in the current outage, are history. */
  datatype Loop = Loop(pc: Pc, stopping: bool, trace: seq<Event>, waited: nat)

  /** `cut` counts attempts ended by shutdown or abort; it is history. */
  datatype System = System(tally: Tally, cut: nat, loops: map<SessionId, Loop>)

  datatype Action =
    | Spawn(id: SessionId)
    | Stop(id: SessionId)
    | Abort(id: SessionId)
    | Tick(id: SessionId, ok: bool)

  const START := System(Tally(0, 0, 0), 0, map[])

  predicate InFlight(pc: Pc) {
    pc.Sleeping? || pc.Connecting? || pc.CountSuccess? || pc.CountFailure?
  }

  predicate Enabled(s: System, x: Action) {
    if x.Spawn? then x.id !in s.loops else x.id in s.loops
  }

  /** One step of one loop: the loop, the counters, and how many attempts were cut short. `ok` is the
      result of the run or connect call that returns. */
  function Advance(p: Policy, l: Loop, t: Tally, ok: bool): (Loop, Tally, nat) {
    match l.pc
    case Check => (l.(pc := if l.stopping then Done else StartRun), t, 0)
    case StartRun => (l.(pc := Running, trace := l.trace + [Run]), t, 0)
    case Running =>
      if ok || !p.enabled || p.maxAttempts == 0 then (l.(pc := Done), t, 0)
      else (l.(pc := TryTop(1), waited := 0), t, 0)
    case TryTop(a) =>
      if l.stopping then (l.(pc := Done), t, 0)
      else (l.(pc := Sleeping(a), waited := l.waited + Backoff(p, a)), t.(attempts := t.attempts + 1), 0)
    case Sleeping(a) => if l.stopping then (l.(pc := Done), t, 1) else (l.(pc := Connecting(a)), t, 0)
    case Connecting(a) =>
      (l.(pc := if ok then CountSuccess(a) else CountFailure(a), trace := l.trace + [Connect(ok)]), t, 0)
    case CountSuccess(_) => (l.(pc := Check), t.(successes := t.successes + 1), 0)
    case CountFailure(a) =>
      (l.(pc := if a < p.maxAttempts then TryTop(a + 1) else Done), t.(failures := t.failures + 1), 0)
    case Done => (l, t, 0)
  }

  function Apply(p: Policy, s: System, x: Action): System
    requires Enabled(s, x)
  {
    match x
    case Spawn(id) => s.(loops := s.loops[id := Loop(Check, false, [], 0)])
    case Stop(id) => s.(loops := s.loops[id := s.loops[id].(stopping := true)])
    case Abort(id) =>
      s.(loops := s.loops[id := s.loops[id].(pc := Done)], cut := s.cut + if InFlight(s.loops[id].pc) then 1 else 0)
    case Tick(id, ok) =>
      var (l, t, c) := Advance(p, s.loops[id], s.tally, ok);
      System(t, s.cut + c, s.loops[id := l])
  }

  predicate Runnable(p: Policy, s: System, xs: seq<Action>)
    decreases |xs|
  {
    xs == [] || (Enabled(s, xs[0]) && Runnable(p, Apply(p, s, xs[0]), xs[1..]))
  }

  function RunAll(p: Policy, s: System, xs: seq<Action>): System
    requires Runnable(p, s, xs)
    decreases |xs|
  {
    if xs == [] then s else RunAll(p, Apply(p, s, xs[0]), xs[1..])
  }

  // ---------------------------------------------------------------- the invariant

  /** Connects since the last run. */
  function Outage(trace: seq<Event>): nat {
    if trace == [] || trace[|trace| - 1].Run? then 0 else Outage(trace[..|trace| - 1]) + 1
  }

  /** The first event is a run, and a run follows exactly the successful connects. */
  ghost predicate WellTraced(trace: seq<Event>) {
    && (trace != [] ==> trace[0].Run?)
    && forall i :: 0 < i < |trace| ==> (trace[i].Run? <==> trace[i - 1] == Connect(true))
  }

  ghost predicate WithinBudget(p: Policy, trace: seq<Event>) {
    forall n :: 0 <= n <= |trace| ==> Outage(trace[..n]) <= p.maxAttempts
  }

  ghost predicate LoopOk(p: Policy, l: Loop) {
    && WellTraced(l.trace)
    && WithinBudget(p, l.trace)
    && PcOk(p, l)
    && l.waited <= TotalWait(p, p.maxAttempts)
  }

  predicate LastIs(trace: seq<Event>, e: Event) {
    trace != [] && trace[|trace| - 1] == e
  }

  ghost predicate PcOk(p: Policy, l: Loop) {
    match l.pc
    case Check => l.trace == [] || LastIs(l.trace, Connect(true))
    case StartRun => l.trace == [] || LastIs(l.trace, Connect(true))
    case Running => LastIs(l.trace, Run)
    case TryTop(a) => Retrying(p, l, a) && l.waited == TotalWait(p, a - 1)
    case Sleeping(a) => Retrying(p, l, a) && l.waited == TotalWait(p, a)
    case Connecting(a) => Retrying(p, l, a) && l.waited == TotalWait(p, a)
    case CountSuccess(a) => LastIs(l.trace, Connect(true)) && 1 <= a <= p.maxAttempts && l.waited == TotalWait(p, a)
    case CountFailure(a) =>
      LastIs(l.trace, Connect(false)) && 1 <= a <= p.maxAttempts && Outage(l.trace) == a && l.waited == TotalWait(p, a)
    case Done => true
  }

  ghost predicate Retrying(p: Policy, l: Loop, a: nat) {
    l.trace != [] && l.trace[|l.trace| - 1] != Connect(true) && 1 <= a <= p.maxAttempts && Outage(l.trace) == a - 1
  }

  lemma {:induction false} TotalWaitGrows(p: Policy, a: nat, b: nat)
    requires a <= b
    ensures TotalWait(p, a) <= TotalWait(p, b)
  {
    if a < b {
      TotalWaitGrows(p, a, b - 1);
    }
  }

  /** One more event keeps every prefix within the budget if the whole is. */
  lemma {:induction false} BudgetNext(p: Policy, trace: seq<Event>, e: Event)
    requires WithinBudget(p, trace) && Outage(trace + [e]) <= p.maxAttempts
    ensures WithinBudget(p, trace + [e])
  {
    var longer := trace + [e];
    forall n | 0 <= n <= |longer| ensures Outage(longer[..n]) <= p.maxAttempts {
      if n <= |trace| {
        assert longer[..n] == trace[..n];
      } else {
        assert longer[..n] == longer;
      }
    }
  }

  lemma {:induction false} OutageNext(trace: seq<Event>, e: Event)
    ensures Outage(trace + [e]) == if e.Run? then 0 else Outage(trace) + 1
  {
    assert (trace + [e])[..|trace|] == trace;
  }

  /** A run may follow a successful connect or start the trace. */
  lemma {:induction false} TraceRun(p: Policy, trace: seq<Event>)
    requires WellTraced(trace) && WithinBudget(p, trace) && (trace == [] || LastIs(trace, Connect(true)))
    ensures var longer := trace + [Run]; WellTraced(longer) && WithinBudget(p, longer) && LastIs(longer, Run)
  {
    OutageNext(trace, Run);
    BudgetNext(p, trace, Run);
  }

  /** A connect may follow anything but a successful connect, within the budget. */
  lemma {:induction false} TraceConnect(p: Policy, trace: seq<Event>, ok: bool)
    requires WellTraced(trace) && WithinBudget(p, trace)
    requires trace != [] && trace[|trace| - 1] != Connect(true) && Outage(trace) < p.maxAttempts
    ensures var longer := trace + [Connect(ok)];
      WellTraced(longer) && WithinBudget(p, longer) && LastIs(longer, Connect(ok)) &&
        Outage(longer) == Outage(trace) + 1
  {
    OutageNext(trace, Connect(ok));
    BudgetNext(p, trace, Connect(ok));
  }

  predicate Calls(pc: Pc) {
    pc.StartRun? || pc.Connecting?
  }

  lemma QuietStep(p: Policy, l: Loop, t: Tally, ok: bool)
    requires PcOk(p, l) && l.waited <= TotalWait(p, p.maxAttempts) && !Calls(l.pc)
    ensures var l' := Advance(p, l, t, ok).0;
      l'.trace == l.trace && PcOk(p, l') && l'.waited <= TotalWait(p, p.maxAttempts)
  {
    if l.pc.TryTop? {
      TotalWaitGrows(p, l.pc.a, p.maxAttempts);
    } else if l.pc.Running? {
      assert Outage(l.trace) == 0;
    }
  }

  lemma CallStep(p: Policy, l: Loop, t: Tally, ok: bool)
    requires LoopOk(p, l) && Calls(l.pc)
    ensures LoopOk(p, Advance(p, l, t, ok).0)
  {
    if l.pc.StartRun? {
      TraceRun(p, l.trace);
    } else {
      TraceConnect(p, l.trace, ok);
    }
  }

  lemma AdvanceKeepsLoop(p: Policy, l: Loop, t: Tally, ok: bool)
    requires LoopOk(p, l)
    ensures LoopOk(p, Advance(p, l, t, ok).0)
  {
    if Calls(l.pc) {
      CallStep(p, l, t, ok);
    } else {
      QuietStep(p, l, t, ok);
    }
  }

  function Flying(loops: map<SessionId, Loop>): set<SessionId> {
    set id | id in loops && InFlight(loops[id].pc)
  }

  function One(b: bool): nat {
    if b then 1 else 0
  }

  lemma SizesDiffer<T>(a: set<T>, b: set<T>, x: T)
    requires a - {x} == b - {x}
    ensures |a| + One(x in b) == |b| + One(x in a)
  {
    assert x in a ==> a == (a - {x}) + {x};
    assert x !in a ==> a == a - {x};
    assert x in b ==> b == (b - {x}) + {x};
    assert x !in b ==> b == b - {x};
  }

  lemma FlyingUpdates(loops: map<SessionId, Loop>, id: SessionId, l: Loop)
    ensures |Flying(loops[id := l])| + One(id in loops && InFlight(loops[id].pc)) ==
      |Flying(loops)| + One(InFlight(l.pc))
  {
    var before, after := Flying(loops), Flying(loops[id := l]);
    assert id in before <==> id in loops && InFlight(loops[id].pc);
    assert id in after <==> InFlight(l.pc);
    assert before - {id} == after - {id};
    SizesDiffer(before, after, id);
  }

  predicate Balanced(s: System) {
    s.tally.attempts == s.tally.successes + s.tally.failures + s.cut + |Flying(s.loops)|
  }

  ghost predicate Inv(p: Policy, s: System) {
    Balanced(s) && forall id :: id in s.loops ==> LoopOk(p, s.loops[id])
  }

  lemma ApplyKeepsBalance(p: Policy, s: System, x: Action)
    requires Balanced(s) && Enabled(s, x)
    ensures Balanced(Apply(p, s, x))
  {
    FlyingUpdates(s.loops, x.id, Apply(p, s, x).loops[x.id]);
  }

  lemma {:induction false} ApplyKeepsLoop(p: Policy, s: System, x: Action)
    requires Inv(p, s) && Enabled(s, x)
    ensures LoopOk(p, Apply(p, s, x).loops[x.id])
  {
    match x
    case Spawn(id) =>
    case Stop(id) =>
    case Abort(id) =>
    case Tick(id, ok) => AdvanceKeepsLoop(p, s.loops[id], s.tally, ok);
  }

  lemma {:induction false} ApplyElsewhere(p: Policy, s: System, x: Action, id: SessionId)
    requires Enabled(s, x) && id in Apply(p, s, x).loops && id != x.id
    ensures id in s.loops && Apply(p, s, x).loops[id] == s.loops[id]
  {
  }

  lemma {:induction false} ApplyKeepsInv(p: Policy, s: System, x: Action)
    requires Inv(p, s) && Enabled(s, x)
    ensures Inv(p, Apply(p, s, x))
  {
    ApplyKeepsBalance(p, s, x);
    forall id | id in Apply(p, s, x).loops ensures LoopOk(p, Apply(p, s, x).loops[id]) {
      if id == x.id {
        ApplyKeepsLoop(p, s, x);
      } else {
        ApplyElsewhere(p, s, x, id);
      }
    }
  }

  lemma {:induction false} RunKeepsInv(p: Policy, s: System, xs: seq<Action>)
    requires Inv(p, s) && Runnable(p, s, xs)
    ensures Inv(p, RunAll(p, s, xs))
    decreases |xs|
  {
    if xs != [] {
      ApplyKeepsInv(p, s, xs[0]);
      RunKeepsInv(p, Apply(p, s, xs[0]), xs[1..]);
    }
  }

  // ---------------------------------------------------------------- main results

  /** Main result: over all sessions, however their loops interleave, every counted attempt is a success,
      a failure, cut short by shutdown, or still in flight. */
  lemma CountersBalance(p: Policy, xs: seq<Action>)
    requires Runnable(p, START, xs)
    ensures var s := RunAll(p, START, xs);
      s.tally.attempts == s.tally.successes + s.tally.failures + s.cut + |Flying(s.loops)|
  {
    RunKeepsInv(p, START, xs);
  }

  /** Main result: in every session a run comes first or right after a successful connect, and conversely;
      no outage makes more connects than the budget; and the time slept in an outage stays within both bounds. */
  lemma RunsFollowConnects(p: Policy, xs: seq<Action>, id: SessionId)
    requires PolicyOk(p) && Runnable(p, START, xs) && id in RunAll(p, START, xs).loops
    ensures var l := RunAll(p, START, xs).loops[id];
      && (forall i :: 0 < i < |l.trace| ==> (l.trace[i].Run? <==> l.trace[i - 1] == Connect(true)))
      && (l.trace != [] ==> l.trace[0].Run?)
      && (forall n :: 0 <= n <= |l.trace| ==> Outage(l.trace[..n]) <= p.maxAttempts)
      && l.waited <= p.maxAttempts * p.max && l.waited <= p.initial * (Pow2(p.maxAttempts) - 1)
  {
    RunKeepsInv(p, START, xs);
    TotalWaitBounded(p, p.maxAttempts);
  }

  /** Calls that a loop may still make once its shutdown flag is up: one it had checked the flag for. */
  function Slack(pc: Pc): nat {
    One(Calls(pc))
  }

  lemma StopsStep(p: Policy, s: System, x: Action, id: SessionId)
    requires Enabled(s, x) && id in s.loops && s.loops[id].stopping
    ensures var l, l' := s.loops[id], Apply(p, s, x).loops[id];
      l'.stopping && l.trace <= l'.trace && |l'.trace| + Slack(l'.pc) <= |l.trace| + Slack(l.pc)
  {
  }

  /** Main result: after a session's shutdown flag goes up, its loop makes at most one more run or connect. */
  lemma {:induction false} StopsSoon(p: Policy, s: System, xs: seq<Action>, id: SessionId)
    requires Runnable(p, s, xs) && id in s.loops && s.loops[id].stopping
    ensures id in RunAll(p, s, xs).loops
    ensures var l, l' := s.loops[id], RunAll(p, s, xs).loops[id];
      l.trace <= l'.trace && |l'.trace| + Slack(l'.pc) <= |l.trace| + Slack(l.pc)
    decreases |xs|
  {
    if xs != [] {
      StopsStep(p, s, xs[0], id);
      StopsSoon(p, Apply(p, s, xs[0]), xs[1..], id);
    }
  }

  /** How many steps a loop still takes once its flag is up, at most. */
  function StepsToEnd(pc: Pc): nat {
    match pc
    case Check => 1
    case StartRun => 3
    case Running => 2
    case TryTop(_) => 1
    case Sleeping(_) => 1
    case Connecting(_) => 3
    case CountSuccess(_) => 2
    case CountFailure(_) => 2
    case Done => 0
  }

  function Ticking(id: SessionId, oks: seq<bool>): (xs: seq<Action>)
    ensures |xs| == |oks| && forall i :: 0 <= i < |oks| ==> xs[i] == Tick(id, oks[i])
  {
    seq(|oks|, i requires 0 <= i < |oks| => Tick(id, oks[i]))
  }

  lemma {:induction false} StoppingEnds(p: Policy, s: System, id: SessionId, oks: seq<bool>)
    requires id in s.loops && s.loops[id].stopping && StepsToEnd(s.loops[id].pc) <= |oks|
    ensures Runnable(p, s, Ticking(id, oks))
    ensures id in RunAll(p, s, Ticking(id, oks)).loops && RunAll(p, s, Ticking(id, oks)).loops[id].pc.Done?
    decreases |oks|
  {
    if oks != [] {
      assert Ticking(id, oks)[1..] == Ticking(id, oks[1..]);
      StoppingEnds(p, Apply(p, s, Tick(id, oks[0])), id, oks[1..]);
    }
  }

  /** Main result: raising a session's shutdown flag ends its loop: in every state, within three of its own steps,
      whatever its calls return. */
  lemma {:induction false} StopEndsLoop(p: Policy, s: System, id: SessionId, oks: seq<bool>)
    requires id in s.loops && |oks| >= 3
    ensures var xs := [Stop(id)] + Ticking(id, oks);
      Runnable(p, s, xs) && id in RunAll(p, s, xs).loops && RunAll(p, s, xs).loops[id].pc.Done?
  {
    var xs := [Stop(id)] + Ticking(id, oks);
    assert xs[1..] == Ticking(id, oks);
    StoppingEnds(p, Apply(p, s, Stop(id)), id, oks);
  }

  lemma {:induction false} DoneStays(p: Policy, s: System, xs: seq<Action>, id: SessionId)
    requires id in s.loops && s.loops[id].pc.Done? && Runnable(p, s, xs)
    ensures var s' := RunAll(p, s, xs);
      id in s'.loops && s'.loops[id].pc.Done? && s'.loops[id].trace == s.loops[id].trace
    decreases |xs|
  {
    if xs != [] {
      DoneStays(p, Apply(p, s, xs[0]), xs[1..], id);
    }
  }

  /** Main result: a loop that is aborted makes no call any more, in any continuation. */
  lemma {:induction false} AbortIsFinal(p: Policy, s: System, id: SessionId, xs: seq<Action>)
    requires id in s.loops && Runnable(p, Apply(p, s, Abort(id)), xs)
    ensures var s' := RunAll(p, Apply(p, s, Abort(id)), xs);
      id in s'.loops && s'.loops[id].pc.Done? && s'.loops[id].trace == s.loops[id].trace
  {
    DoneStays(p, Apply(p, s, Abort(id)), xs, id);
  }

  // ---------------------------------------------------------------- one outage as steps

  /** The steps of one attempt when nothing else moves the flag but `y`. */
  function Attempted(p: Policy, l: Loop, t: Tally, y: Try): (Loop, Tally, nat) {
    var (top, counted, _) := Advance(p, l.(stopping := y.stopBefore), t, false);
    if top.pc.Done? then (top, counted, 0)
    else
      var (woken, same, cut) := Advance(p, top.(stopping := y.stopAfter), counted, false);
      if woken.pc.Done? then (woken, same, cut)
      else
        var (called, still, _) := Advance(p, woken, same, y.connects);
        var (after, final, _) := Advance(p, called, still, false);
        (after, final, 0)
  }

  /** Attempts from the top of attempt `k + 1` to the end of the outage. */
  function Driven(p: Policy, l: Loop, t: Tally, env: seq<Try>, k: nat): (Loop, Tally, nat)
    requires k <= |env|
    decreases |env| - k
  {
    if k == |env| then (l, t, 0)
    else
      var (l', t', cut) := Attempted(p, l, t, env[k]);
      if l'.pc.TryTop? then Driven(p, l', t', env, k + 1) else (l', t', cut)
  }

  lemma AttemptOutcome(p: Policy, l: Loop, t: Tally, y: Try)
    requires l.pc.TryTop? && 1 <= l.pc.a <= p.maxAttempts
    ensures var (l', t', cut) := Attempted(p, l, t, y);
      && (y == Try(false, false, false) ==>
            && l'.pc == (if l.pc.a < p.maxAttempts then TryTop(l.pc.a + 1) else Done)
            && t' == Tally(t.attempts + 1, t.successes, t.failures + 1) && cut == 0)
      && (y == Try(false, false, true) ==>
            l'.pc == Check && t' == Tally(t.attempts + 1, t.successes + 1, t.failures) && cut == 0)
      && (y.stopBefore ==> l'.pc == Done && t' == t && cut == 0)
      && (!y.stopBefore && y.stopAfter ==> l'.pc == Done && t' == t.(attempts := t.attempts + 1) && cut == 1)
  {
  }

  /** Main result: stepped through on its own, an outage of the interleaved machine ends as the loop's
      specification says and moves the shared counters by the same amounts. */
  lemma {:induction false} OutageIsOutcome(p: Policy, l: Loop, t: Tally, env: seq<Try>, k: nat)
    requires |env| == p.maxAttempts && k < |env| && l.pc == TryTop(k + 1)
    ensures var (l', t', cut) := Driven(p, l, t, env, k);
      var (failed, ending) := Outcome(env, k);
      && l'.pc == (if ending.Recovered? then Check else Done)
      && cut == One(ending == Stopped(true))
      && failed >= k
      && t' == Tally(t.attempts + Spent(failed, ending) - k, t.successes + One(ending.Recovered?),
        t.failures + failed - k)
    decreases |env| - k
  {
    AttemptOutcome(p, l, t, env[k]);
    if env[k] == Try(false, false, false) && k + 1 < |env| {
      var (l', t', _) := Attempted(p, l, t, env[k]);
      OutageIsOutcome(p, l', t', env, k + 1);
    }
  }

  // ---------------------------------------------------------------- from a failed run to the next

  lemma {:induction false} RunsOn(p: Policy, s: System, xs: seq<Action>, ys: seq<Action>)
    requires Runnable(p, s, xs) && Runnable(p, RunAll(p, s, xs), ys)
    ensures Runnable(p, s, xs + ys) && RunAll(p, s, xs + ys) == RunAll(p, RunAll(p, s, xs), ys)
    decreases |xs|
  {
    if xs == [] {
      assert xs + ys == ys;
    } else {
      RunsOn(p, Apply(p, s, xs[0]), xs[1..], ys);
      assert (xs + ys)[1..] == xs[1..] + ys;
    }
  }

  lemma {:induction false} RunsOne(p: Policy, s: System, x: Action)
    requires Enabled(s, x)
    ensures Runnable(p, s, [x]) && RunAll(p, s, [x]) == Apply(p, s, x)
  {
    assert [x][1..] == [];
  }

  /** One more step of session `id`, whatever its call returns being `ok`. */
  lemma {:induction false} Ticks(p: Policy, s: System, xs: seq<Action>, id: SessionId, ok: bool)
    returns (ys: seq<Action>)
    requires Runnable(p, s, xs) && id in RunAll(p, s, xs).loops
    ensures ys == xs + [Tick(id, ok)] && Runnable(p, s, ys)
    ensures RunAll(p, s, ys) == Apply(p, RunAll(p, s, xs), Tick(id, ok))
  {
    RunsOne(p, RunAll(p, s, xs), Tick(id, ok));
    RunsOn(p, s, xs, [Tick(id, ok)]);
    ys := xs + [Tick(id, ok)];
  }

  function Refusals(n: nat): (r: seq<Event>)
    ensures |r| == n && forall i :: 0 <= i < n ==> r[i] == Connect(false)
  {
    if n == 0 then [] else Refusals(n - 1) + [Connect(false)]
  }

  /** After `n` failed connects of an outage that began in `s`: counted, waited for, and at the next attempt, or
      at the end if the budget is used up. */
  ghost predicate Tried(p: Policy, s: System, s': System, id: SessionId, n: nat)
    requires id in s.loops
  {
    && s'.tally == Tally(s.tally.attempts + n, s.tally.successes, s.tally.failures + n) && s'.cut == s.cut
    && s'.loops == s.loops[id := Loop(
      if n < p.maxAttempts then TryTop(n + 1) else Done, false, s.loops[id].trace + Refusals(n), TotalWait(p, n))]
  }

  /** Four steps of session `id`, its call returning `ok`. */
  function Attempt(p: Policy, s: System, id: SessionId, ok: bool): System
    requires id in s.loops
  {
    var s2 := Apply(p, Apply(p, s, Tick(id, false)), Tick(id, false));
    Apply(p, Apply(p, s2, Tick(id, ok)), Tick(id, false))
  }

  /** The first two steps of an attempt count it and wait. */
  lemma {:induction false} Waits(p: Policy, s: System, id: SessionId)
    requires id in s.loops && s.loops[id].pc.TryTop? && !s.loops[id].stopping
    ensures var (l, s2) := (s.loops[id], Apply(p, Apply(p, s, Tick(id, false)), Tick(id, false)));
      && s2.loops == s.loops[id := Loop(Connecting(l.pc.a), false, l.trace, l.waited + Backoff(p, l.pc.a))]
      && s2.tally == s.tally.(attempts := s.tally.attempts + 1) && s2.cut == s.cut
  {
  }

  /** The last two call the runner and count the answer. */
  lemma {:induction false} CallReturns(p: Policy, s: System, id: SessionId, ok: bool)
    requires id in s.loops && s.loops[id].pc.Connecting? && !s.loops[id].stopping
    ensures var (l, t, s2) := (s.loops[id], s.tally, Apply(p, Apply(p, s, Tick(id, ok)), Tick(id, false)));
      && s2.loops == s.loops[id := Loop(
        if ok then Check else if l.pc.a < p.maxAttempts then TryTop(l.pc.a + 1) else Done, false,
        l.trace + [Connect(ok)], l.waited)]
      && s2.tally == Tally(t.attempts, t.successes + One(ok), t.failures + One(!ok)) && s2.cut == s.cut
  {
  }

  /** The four steps of an attempt whose connect returns `ok`. */
  lemma {:induction false} FourSteps(p: Policy, s: System, id: SessionId, ok: bool)
    requires id in s.loops && s.loops[id].pc.TryTop? && !s.loops[id].stopping
    ensures var (l, t, s4) := (s.loops[id], s.tally, Attempt(p, s, id, ok));
      && s4.loops == s.loops[id := Loop(
        if ok then Check else if l.pc.a < p.maxAttempts then TryTop(l.pc.a + 1) else Done, false,
        l.trace + [Connect(ok)], l.waited + Backoff(p, l.pc.a))]
      && s4.tally == Tally(t.attempts + 1, t.successes + One(ok), t.failures + One(!ok)) && s4.cut == s.cut
  {
    Waits(p, s, id);
    CallReturns(p, Apply(p, Apply(p, s, Tick(id, false)), Tick(id, false)), id, ok);
  }

  /** One more failed attempt. */
  lemma {:induction false} TriedNext(p: Policy, s: System, s': System, id: SessionId, n: nat)
    requires id in s.loops && Tried(p, s, s', id, n) && n < p.maxAttempts
    ensures Tried(p, s, Attempt(p, s', id, false), id, n + 1)
  {
    FourSteps(p, s', id, false);
    assert s.loops[id].trace + Refusals(n) + [Connect(false)] == s.loops[id].trace + Refusals(n + 1);
  }

  lemma {:induction false} TriesOnce(p: Policy, s: System, xs: seq<Action>, id: SessionId, n: nat)
    returns (ys: seq<Action>)
    requires id in s.loops && Runnable(p, s, xs) && Tried(p, s, RunAll(p, s, xs), id, n) && n < p.maxAttempts
    ensures Runnable(p, s, ys) && Tried(p, s, RunAll(p, s, ys), id, n + 1)
  {
    TriedNext(p, s, RunAll(p, s, xs), id, n);
    ys := Ticks(p, s, xs, id, false);
    ys := Ticks(p, s, ys, id, false);
    ys := Ticks(p, s, ys, id, false);
    ys := Ticks(p, s, ys, id, false);
  }

  /** Main result: in every state, once the run of a session returns an error, its loop goes through an outage: any
      number of connects up to the budget can fail, each counted and waited for as the backoff says,
      the one after them succeed and lead to the next run, and if all of the budget fail the loop ends. */
  lemma {:induction false} FailedRunReconnects(p: Policy, s: System, id: SessionId, n: nat) returns (xs: seq<Action>)
    requires id in s.loops && s.loops[id].pc.Running? && !s.loops[id].stopping
    requires p.enabled && 1 <= p.maxAttempts && n <= p.maxAttempts
    ensures Runnable(p, s, xs) && id in RunAll(p, s, xs).loops
    ensures var (l, s') := (s.loops[id], RunAll(p, s, xs));
      if n < p.maxAttempts then
        && s'.tally == Tally(s.tally.attempts + n + 1, s.tally.successes + 1, s.tally.failures + n)
        && s'.loops[id] ==
          Loop(Running, false, l.trace + Refusals(n) + [Connect(true)] + [Event.Run], TotalWait(p, n + 1))
      else Tried(p, s, s', id, n) && s'.loops[id].pc.Done?
  {
    xs := Ticks(p, s, [], id, false);
    assert s.loops[id].trace + Refusals(0) == s.loops[id].trace;
    var k := 0;
    while k < n
      invariant k <= n && Runnable(p, s, xs) && Tried(p, s, RunAll(p, s, xs), id, k)
    {
      xs := TriesOnce(p, s, xs, id, k);
      k := k + 1;
    }
    if n < p.maxAttempts {
      xs := Reconnects(p, s, xs, id, n);
    }
  }

  lemma {:induction false} Reconnects(p: Policy, s: System, xs: seq<Action>, id: SessionId, n: nat)
    returns (ys: seq<Action>)
    requires id in s.loops && Runnable(p, s, xs) && Tried(p, s, RunAll(p, s, xs), id, n) && n < p.maxAttempts
    ensures Runnable(p, s, ys) && id in RunAll(p, s, ys).loops
    ensures var s' := RunAll(p, s, ys);
      && s'.tally == Tally(s.tally.attempts + n + 1, s.tally.successes + 1, s.tally.failures + n)
      && s'.loops[id] == Loop(Running, false, s.loops[id].trace + Refusals(n) + [Connect(true)] + [Event.Run],
                              TotalWait(p, n + 1))
  {
    FourSteps(p, RunAll(p, s, xs), id, true);
    ys := Ticks(p, s, xs, id, false);
    ys := Ticks(p, s, ys, id, false);
    ys := Ticks(p, s, ys, id, true);
    ys := Ticks(p, s, ys, id, false);
    ys := Ticks(p, s, ys, id, false);
    ys := Ticks(p, s, ys, id, false);
  }

  /** Without reconnecting, or without a budget, or if the run returned in order, the loop ends. */
  lemma {:induction false} RunEndsLoop(p: Policy, s: System, id: SessionId, ok: bool)
    requires id in s.loops && s.loops[id].pc.Running?
    ensures var s' := Apply(p, s, Tick(id, ok));
      s'.loops[id].pc.Done? <==> ok || !p.enabled || p.maxAttempts == 0
  {
  }
}
