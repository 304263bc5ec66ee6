// The pairing guard shared by a pool of threads: try_pair one lock or atomic operation at a
// time, in every interleaving, and how many codes can be guessed before the lockout bites.

module PairingThreads {
  import opened Prelude
  import opened Counting
  import Pairing

  /** The failure counter is 32 bits wide and wraps. */
  const U32: nat := 0x1_0000_0000

  /** `existing` are the tokens configured. */
  datatype Setup = Setup(
    required: bool, code: Option<string>, existing: seq<string>, maxAttempts: nat, lockout: nat)

  type Reply = Result<Option<string>, nat>

  /** Where a thread is in try_pair; the clock reading of ReadClock gives the end of the lockout. */
  datatype Pc =
    | Idle
    | Look(code: string, token: string)
    | Compare(code: string, token: string)
    | Clear(token: string)
    | Push(token: string)
    | Add
    | ReadClock
    | Arm(until: nat)
    | Reset(until: nat)
    | Done(reply: Reply)

  /** `tokens` are those whose hashes are stored, in that order; `compared` are the instants at which a
      code was compared with the real one. */
  datatype State = State(
    setup: Setup,
    now: nat,
    failed: nat,
    lock: Option<nat>,
    tokens: seq<string>,
    compared: seq<nat>,
    pcs: seq<Pc>)

  datatype Action = Call(t: nat, code: string, token: string) | Step(t: nat) | Pass(dt: nat)

  function Start(setup: Setup, threads: nat): State {
    State(setup, 0, 0, None, setup.existing, [], seq(threads, i => Idle))
  }

  function Guesses(setup: Setup): nat {
    Pairing.Allowed(setup.maxAttempts)
  }

  predicate Locked(st: State) {
    st.lock.Some? && st.now < st.lock.value
  }

  predicate Enabled(st: State, x: Action) {
    match x
    case Call(t, _, _) => t < |st.pcs| && st.pcs[t].Idle?
    case Step(t) => t < |st.pcs| && !st.pcs[t].Idle?
    case Pass(_) => true
  }

  function Refusal(st: State): Reply
    requires Locked(st)
  {
    var secs := (st.lock.value - st.now) / Pairing.NANOS;
    Failure(if secs > 1 then secs else 1)
  }

  function Move(st: State, t: nat, pc: Pc): State
    requires t < |st.pcs|
  {
    st.(pcs := st.pcs[t := pc])
  }

  function Stepped(st: State, t: nat): State
    requires Enabled(st, Step(t))
  {
    match st.pcs[t]
    case Look(code, token) =>
      if !st.setup.required then Move(st, t, Done(Success(None)))
      else if Locked(st) then Move(st, t, Done(Refusal(st)))
      else if st.setup.code.None? then Move(st, t, Done(Failure(0)))
      else Move(st, t, Compare(code, token))
    case Compare(code, token) =>
      Move(st.(compared := st.compared + [st.now]), t, if st.setup.code == Some(code) then Clear(token) else Add)
    case Clear(token) => Move(st.(failed := 0), t, Push(token))
    case Push(token) => Move(st.(tokens := st.tokens + [token]), t, Done(Success(Some(token))))
    case Add =>
      var attempts := (st.failed + 1) % U32;
      Move(st.(failed := attempts), t, if attempts >= st.setup.maxAttempts then ReadClock else Done(Failure(0)))
    case ReadClock => Move(st, t, Arm(st.now + st.setup.lockout))
    case Arm(until) => Move(st.(lock := Some(until)), t, Reset(until))
    case Reset(_) => Move(st.(failed := 0), t, Done(Failure(st.setup.lockout / Pairing.NANOS)))
    case Done(_) => Move(st, t, Idle)
  }

  function Apply(st: State, x: Action): State
    requires Enabled(st, x)
  {
    match x
    case Call(t, code, token) => Move(st, t, Look(code, token))
    case Step(t) => Stepped(st, t)
    case Pass(dt) => st.(now := st.now + dt)
  }

  predicate Runnable(st: State, xs: seq<Action>)
    decreases |xs|
  {
    xs == [] || (Enabled(st, xs[0]) && Runnable(Apply(st, xs[0]), xs[1..]))
  }

  function Run(st: State, xs: seq<Action>): State
    requires Runnable(st, xs)
    decreases |xs|
  {
    if xs == [] then st else Run(Apply(st, xs[0]), xs[1..])
  }

  predicate WrongCode(setup: Setup, code: string) {
    setup.code != Some(code)
  }

  predicate AllWrong(setup: Setup, xs: seq<Action>) {
    forall i :: 0 <= i < |xs| && xs[i].Call? ==> WrongCode(setup, xs[i].code)
  }

  ghost predicate Reaches(st: State, st': State) {
    exists xs :: Runnable(st, xs) && Run(st, xs) == st'
  }

  /** Reached by calls that all present a wrong code. */
  ghost predicate GuessesTo(st: State, st': State) {
    exists xs :: Runnable(st, xs) && AllWrong(st.setup, xs) && Run(st, xs) == st'
  }

  /** The thread's call, if any, presents a wrong code. */
  predicate Guesser(setup: Setup, pc: Pc) {
    (pc.Look? || pc.Compare? ==> WrongCode(setup, pc.code)) && !pc.Clear?
  }

  predicate Guessing(st: State) {
    forall i :: 0 <= i < |st.pcs| ==> Guesser(st.setup, st.pcs[i])
  }

  // ---------------------------------------------------------------- what every run keeps

  /** The thread has used up the guesses and is not through with locking. */
  predicate Arming(pc: Pc) {
    pc.ReadClock? || pc.Arm? || pc.Reset?
  }

  predicate Adding(pc: Pc) {
    pc.Add?
  }

  /** The counter cannot wrap. */
  predicate Fits(setup: Setup, threads: nat) {
    Guesses(setup) + threads <= U32
  }

  ghost predicate Inv(st: State) {
    Fits(st.setup, |st.pcs|) && st.failed < Guesses(st.setup) + Count(st.pcs, Arming)
  }

  lemma MoveCounts(pcs: seq<Pc>, t: nat, pc: Pc, p: Pc -> bool)
    requires t < |pcs|
    ensures Count(pcs[t := pc], p) == Count(pcs, p) - (if p(pcs[t]) then 1 else 0) + (if p(pc) then 1 else 0)
    ensures (if p(pcs[t]) then 1 else 0) <= Count(pcs, p) <= |pcs| - (if p(pcs[t]) then 0 else 1)
  {
    CountUpdate(pcs, t, pc, p);
    CountBounds(pcs, t, p);
  }

  lemma StepKeepsInv(st: State, t: nat)
    requires Inv(st) && Enabled(st, Step(t))
    ensures Inv(Stepped(st, t))
    ensures st.pcs[t].Add? ==> (st.failed + 1) % U32 == st.failed + 1
  {
    MoveCounts(st.pcs, t, Stepped(st, t).pcs[t], Arming);
  }

  lemma ApplyKeepsInv(st: State, x: Action)
    requires Inv(st) && Enabled(st, x)
    ensures Inv(Apply(st, x)) && Apply(st, x).setup == st.setup && |Apply(st, x).pcs| == |st.pcs|
  {
    match x
    case Call(t, code, token) => MoveCounts(st.pcs, t, Look(code, token), Arming);
    case Step(t) => StepKeepsInv(st, t);
    case Pass(_) =>
  }

  lemma {:induction false} RunKeepsInv(st: State, xs: seq<Action>)
    requires Inv(st) && Runnable(st, xs)
    ensures Inv(Run(st, xs)) && Run(st, xs).setup == st.setup && |Run(st, xs).pcs| == |st.pcs|
    decreases |xs|
  {
    if xs != [] {
      ApplyKeepsInv(st, xs[0]);
      RunKeepsInv(Apply(st, xs[0]), xs[1..]);
    }
  }

  lemma StartOk(setup: Setup, threads: nat)
    requires Fits(setup, threads)
    ensures Inv(Start(setup, threads)) && SoloInv(Start(setup, threads))
  {
  }

  /** Main result: in every interleaving fewer failures than the limit are counted while no thread is
      locking, and at most one more for every thread that is. */
  lemma FailuresBelowLimit(setup: Setup, threads: nat, st: State)
    requires Fits(setup, threads) && Reaches(Start(setup, threads), st)
    ensures st.failed < Guesses(setup) + Count(st.pcs, Arming)
    ensures (forall i :: 0 <= i < |st.pcs| ==> !Arming(st.pcs[i])) ==> st.failed < Guesses(setup)
  {
    var xs :| Runnable(Start(setup, threads), xs) && Run(Start(setup, threads), xs) == st;
    StartOk(setup, threads);
    RunKeepsInv(Start(setup, threads), xs);
    if forall i :: 0 <= i < |st.pcs| ==> !Arming(st.pcs[i]) {
      CountNone(st.pcs, Arming);
    }
  }

  lemma {:induction false} NowGrows(st: State, xs: seq<Action>)
    requires Runnable(st, xs)
    ensures st.now <= Run(st, xs).now
    decreases |xs|
  {
    if xs != [] {
      NowGrows(Apply(st, xs[0]), xs[1..]);
    }
  }

  lemma ApplyKeepsGuessing(st: State, x: Action)
    requires Guessing(st) && Enabled(st, x) && AllWrong(st.setup, [x])
    ensures Guessing(Apply(st, x))
  {
    assert [x][0] == x;
  }

  // ---------------------------------------------------------------- one thread

  /** The thread has found no lockout in force and has not yet set one or answered. */
  predicate PastCheck(pc: Pc) {
    pc.Compare? || pc.Clear? || pc.Push? || pc.Add? || pc.ReadClock?
  }

  /** Nobody else can have locked since this thread looked. */
  ghost predicate SoloInv(st: State) {
    forall i :: 0 <= i < |st.pcs| ==>
      && (PastCheck(st.pcs[i]) ==> !Locked(st))
      && (st.pcs[i].Arm? && st.lock.Some? ==> st.lock.value <= st.pcs[i].until)
  }

  lemma ApplyKeepsSolo(st: State, x: Action)
    requires |st.pcs| <= 1 && SoloInv(st) && Enabled(st, x)
    ensures SoloInv(Apply(st, x))
  {
  }

  lemma {:induction false} RunKeepsSolo(st: State, xs: seq<Action>)
    requires |st.pcs| <= 1 && SoloInv(st) && Runnable(st, xs)
    ensures SoloInv(Run(st, xs))
    decreases |xs|
  {
    if xs != [] {
      ApplyKeepsSolo(st, xs[0]);
      RunKeepsSolo(Apply(st, xs[0]), xs[1..]);
    }
  }

  /** A lockout set since `since` is in force until a lockout duration after it. */
  predicate Fresh(st: State, since: nat, until: nat) {
    until >= since + st.setup.lockout
  }

  predicate Shut(st: State, since: nat) {
    st.lock.Some? && Fresh(st, since, st.lock.value)
  }

  /** How many guesses a single thread has left until a lockout duration after `since`. */
  function Left(st: State, since: nat): nat
    requires |st.pcs| <= 1 && Inv(st)
  {
    var m := Guesses(st.setup);
    if |st.pcs| == 0 || Shut(st, since) then 0
    else
      assert Count(st.pcs, Arming) == if Arming(st.pcs[0]) then 1 else 0;
      match st.pcs[0]
      case ReadClock => 0
      case Arm(until) => if Fresh(st, since, until) then 0 else m
      case Reset(_) => m
      case Add => m - st.failed - 1
      case _ => m - st.failed
  }

  lemma SoloStep(st: State, since: nat, x: Action)
    requires |st.pcs| <= 1 && Inv(st) && SoloInv(st) && Guessing(st)
    requires Enabled(st, x) && since <= st.now && Apply(st, x).now < since + st.setup.lockout
    ensures |Apply(st, x).pcs| <= 1 && Inv(Apply(st, x))
    ensures |Apply(st, x).compared| + Left(Apply(st, x), since) <= |st.compared| + Left(st, since)
  {
    ApplyKeepsInv(st, x);
  }

  lemma {:induction false} SoloStretch(st: State, since: nat, xs: seq<Action>)
    requires |st.pcs| <= 1 && Inv(st) && SoloInv(st) && Guessing(st)
    requires Runnable(st, xs) && AllWrong(st.setup, xs)
    requires since <= st.now && Run(st, xs).now < since + st.setup.lockout
    ensures |Run(st, xs).compared| <= |st.compared| + Left(st, since)
    decreases |xs|
  {
    if xs != [] {
      var st1 := Apply(st, xs[0]);
      NowGrows(st1, xs[1..]);
      ApplyKeepsGuessing(st, xs[0]);
      ApplyKeepsSolo(st, xs[0]);
      SoloStep(st, since, xs[0]);
      SoloStretch(st1, since, xs[1..]);
    }
  }

  // ---------------------------------------------------------------- many threads

  /** What happens during a stretch that began at `since`: how often each thread reset the counter, how
      many outdated lockouts were stored over newer ones, and how many failures were counted below
      the limit and at it. `base` codes had been compared before. */
  datatype Watch = Watch(since: nat, base: nat, resets: seq<nat>, stale: nat, low: nat, high: nat)

  function Begin(st: State): Watch {
    Watch(st.now, |st.compared|, seq(|st.pcs|, i => 0), 0, 0, 0)
  }

  function Watched(st: State, w: Watch, x: Action): Watch
    requires Enabled(st, x) && |w.resets| == |st.pcs|
  {
    if !x.Step? then w
    else
      match st.pcs[x.t]
      case Add =>
        if (st.failed + 1) % U32 >= st.setup.maxAttempts then w.(high := w.high + 1) else w.(low := w.low + 1)
      case Arm(until) => if Fresh(st, w.since, until) then w else w.(stale := w.stale + 1)
      case Reset(_) => w.(resets := w.resets[x.t := w.resets[x.t] + 1])
      case _ => w
  }

  /** About to store a lockout that began before the stretch did. */
  function Outdated(end: nat): Pc -> bool {
    (pc: Pc) => pc.Arm? && pc.until < end
  }

  /** How often a thread can have reset the counter: once more than it has seen the lock open, and
      the lock opens during the stretch only at its beginning or by an outdated lockout. */
  ghost predicate ResetsOk(st: State, w: Watch, pc: Pc, resets: nat) {
    && resets <= 2 + w.stale
    && (Arming(pc) || PastCheck(pc) || !Shut(st, w.since) ==> resets <= 1 + w.stale)
    && ((pc.Arm? || pc.Reset?) && !Fresh(st, w.since, pc.until) ==> resets == 0)
    && (pc.Reset? && Fresh(st, w.since, pc.until) && !Shut(st, w.since) ==> resets <= w.stale)
  }

  /** Between two resets fewer failures than the limit stay below it. */
  ghost predicate LowOk(st: State, w: Watch) {
    var m := Guesses(st.setup);
    w.low <= Sum(w.resets) * (m - 1) + (if st.failed < m then st.failed else m - 1)
  }

  /** Whoever reaches the limit resets the counter later. */
  ghost predicate HighOk(st: State, w: Watch) {
    w.high <= Sum(w.resets) + Count(st.pcs, Arming)
  }

  /** Whoever has compared a wrong code counts it. */
  ghost predicate ComparedOk(st: State, w: Watch) {
    |st.compared| <= w.base + w.low + w.high + Count(st.pcs, Adding)
  }

  ghost predicate StaleOk(st: State, w: Watch) {
    w.stale + Count(st.pcs, Outdated(w.since + st.setup.lockout)) <= |st.pcs|
  }

  ghost predicate Tallied(st: State, w: Watch) {
    && |w.resets| == |st.pcs| && w.since <= st.now
    && LowOk(st, w) && HighOk(st, w) && ComparedOk(st, w) && StaleOk(st, w)
  }

  ghost predicate WatchOk(st: State, w: Watch) {
    Tallied(st, w) && forall i :: 0 <= i < |st.pcs| ==> ResetsOk(st, w, st.pcs[i], w.resets[i])
  }

  lemma {:induction false} SumZeros(n: nat)
    ensures Sum(seq(n, i => 0)) == 0
  {
    if n > 0 {
      assert seq(n, i => 0)[1..] == seq(n - 1, i => 0);
      SumZeros(n - 1);
    }
  }

  lemma BeginOk(st: State)
    ensures WatchOk(st, Begin(st))
  {
    SumZeros(|st.pcs|);
    if st.pcs != [] {
      CountBounds(st.pcs, 0, Outdated(st.now + st.setup.lockout));
    }
  }

  lemma OneMore(a: nat, b: nat)
    ensures (a + 1) * b == a * b + b
  {
  }

  lemma ResetKeepsLow(st: State, w: Watch, t: nat)
    requires Enabled(st, Step(t)) && LowOk(st, w) && |w.resets| == |st.pcs| && st.pcs[t].Reset?
    ensures LowOk(Stepped(st, t), Watched(st, w, Step(t)))
  {
    SumUpdate(w.resets, t, w.resets[t] + 1);
    OneMore(Sum(w.resets), Guesses(st.setup) - 1);
  }

  lemma StepKeepsLow(st: State, w: Watch, t: nat)
    requires Inv(st) && Guessing(st) && Enabled(st, Step(t)) && LowOk(st, w) && |w.resets| == |st.pcs|
    ensures LowOk(Stepped(st, t), Watched(st, w, Step(t)))
  {
    if st.pcs[t].Reset? {
      ResetKeepsLow(st, w, t);
    } else {
      StepKeepsInv(st, t);
    }
  }

  lemma StepKeepsHigh(st: State, w: Watch, t: nat)
    requires Enabled(st, Step(t)) && HighOk(st, w) && |w.resets| == |st.pcs|
    ensures HighOk(Stepped(st, t), Watched(st, w, Step(t)))
  {
    if st.pcs[t].Reset? {
      SumUpdate(w.resets, t, w.resets[t] + 1);
    }
    MoveCounts(st.pcs, t, Stepped(st, t).pcs[t], Arming);
  }

  lemma StepKeepsCompared(st: State, w: Watch, t: nat)
    requires Guessing(st) && Enabled(st, Step(t)) && ComparedOk(st, w) && |w.resets| == |st.pcs|
    ensures ComparedOk(Stepped(st, t), Watched(st, w, Step(t)))
  {
    MoveCounts(st.pcs, t, Stepped(st, t).pcs[t], Adding);
  }

  lemma StepKeepsStale(st: State, w: Watch, t: nat)
    requires Enabled(st, Step(t)) && StaleOk(st, w) && |w.resets| == |st.pcs| && w.since <= st.now
    ensures StaleOk(Stepped(st, t), Watched(st, w, Step(t)))
  {
    MoveCounts(st.pcs, t, Stepped(st, t).pcs[t], Outdated(w.since + st.setup.lockout));
  }

  lemma StepKeepsTallies(st: State, w: Watch, t: nat)
    requires Inv(st) && Tallied(st, w) && Guessing(st) && Enabled(st, Step(t))
    ensures Tallied(Stepped(st, t), Watched(st, w, Step(t)))
  {
    StepKeepsLow(st, w, t);
    StepKeepsHigh(st, w, t);
    StepKeepsCompared(st, w, t);
    StepKeepsStale(st, w, t);
  }

  lemma StepKeepsResets(st: State, w: Watch, t: nat, i: nat)
    requires |w.resets| == |st.pcs| && w.since <= st.now < w.since + st.setup.lockout
    requires Enabled(st, Step(t)) && i < |st.pcs|
    requires ResetsOk(st, w, st.pcs[i], w.resets[i]) && ResetsOk(st, w, st.pcs[t], w.resets[t])
    ensures var st1, w1 := Stepped(st, t), Watched(st, w, Step(t)); ResetsOk(st1, w1, st1.pcs[i], w1.resets[i])
  {
  }

  lemma CallKeepsWatch(st: State, w: Watch, x: Action)
    requires WatchOk(st, w) && x.Call? && Enabled(st, x)
    ensures WatchOk(Apply(st, x), w)
  {
    var pc := Look(x.code, x.token);
    MoveCounts(st.pcs, x.t, pc, Arming);
    MoveCounts(st.pcs, x.t, pc, Adding);
    MoveCounts(st.pcs, x.t, pc, Outdated(w.since + st.setup.lockout));
  }

  lemma ApplyKeepsWatch(st: State, w: Watch, x: Action)
    requires Inv(st) && WatchOk(st, w) && Guessing(st) && Enabled(st, x)
    requires Apply(st, x).now < w.since + st.setup.lockout
    ensures WatchOk(Apply(st, x), Watched(st, w, x))
  {
    match x
    case Call(_, _, _) => CallKeepsWatch(st, w, x);
    case Step(t) =>
      StepKeepsTallies(st, w, t);
      forall i | 0 <= i < |st.pcs|
        ensures ResetsOk(Stepped(st, t), Watched(st, w, x), Stepped(st, t).pcs[i], Watched(st, w, x).resets[i])
      {
        StepKeepsResets(st, w, t, i);
      }
    case Pass(_) =>
  }

  /** What `n` threads can guess in a stretch shorter than the lockout. */
  function Bound(setup: Setup, n: nat): nat {
    if n <= 1 then Guesses(setup) else (n + 1) * (n + 1) * Guesses(setup) + n - 1
  }

  lemma TimesMonotone(a: nat, b: nat, c: nat)
    requires a <= b
    ensures a * c <= b * c
  {
  }

  lemma BoundHolds(n: nat, m: nat, stale: nat, resets: nat, low: nat, high: nat, open: nat)
    requires m >= 1 && n >= 1 && stale <= n && resets <= n * (2 + stale)
    requires low <= resets * (m - 1) + m - 1 && high + open <= resets + n
    ensures low + high + open <= (n + 1) * (n + 1) * m + n - 1
  {
    TimesMonotone(2 + stale, 2 + n, n);
    assert resets * (m - 1) + resets == resets * m;
    TimesMonotone(resets, n * (n + 2), m);
    assert n * (n + 2) * m + m == (n * (n + 2) + 1) * m;
    assert n * (n + 2) + 1 == (n + 1) * (n + 1);
  }

  lemma WatchBounds(st: State, w: Watch)
    requires WatchOk(st, w) && |st.pcs| >= 1
    ensures var n := |st.pcs|; |st.compared| <= w.base + (n + 1) * (n + 1) * Guesses(st.setup) + n - 1
  {
    SumBounded(w.resets, 2 + w.stale);
    CountApart(st.pcs, Arming, Adding);
    BoundHolds(|st.pcs|, Guesses(st.setup), w.stale, Sum(w.resets), w.low, w.high, Count(st.pcs, Adding));
  }

  lemma {:induction false} PoolStretch(st: State, w: Watch, xs: seq<Action>)
    requires Inv(st) && WatchOk(st, w) && Guessing(st) && |st.pcs| >= 1
    requires Runnable(st, xs) && AllWrong(st.setup, xs) && Run(st, xs).now < w.since + st.setup.lockout
    ensures var n := |st.pcs|; |Run(st, xs).compared| <= w.base + (n + 1) * (n + 1) * Guesses(st.setup) + n - 1
    decreases |xs|
  {
    if xs == [] {
      WatchBounds(st, w);
    } else {
      var st1 := Apply(st, xs[0]);
      NowGrows(st1, xs[1..]);
      ApplyKeepsGuessing(st, xs[0]);
      ApplyKeepsInv(st, xs[0]);
      ApplyKeepsWatch(st, w, xs[0]);
      PoolStretch(st1, Watched(st, w, xs[0]), xs[1..]);
    }
  }

  /** A stretch of a run of wrong codes, shorter than the lockout, compares at most so many of them. */
  lemma StretchBounded(st: State, xs: seq<Action>)
    requires Inv(st) && Guessing(st) && (|st.pcs| <= 1 ==> SoloInv(st))
    requires Runnable(st, xs) && AllWrong(st.setup, xs) && Run(st, xs).now < st.now + st.setup.lockout
    ensures |Run(st, xs).compared| <= |st.compared| + Bound(st.setup, |st.pcs|)
  {
    if |st.pcs| <= 1 {
      SoloStretch(st, st.now, xs);
    } else {
      BeginOk(st);
      PoolStretch(st, Begin(st), xs);
    }
  }

  // ---------------------------------------------------------------- runs put together

  lemma {:induction false} RunsOn(st: State, xs: seq<Action>, ys: seq<Action>)
    requires Runnable(st, xs) && Runnable(Run(st, xs), ys)
    ensures Runnable(st, xs + ys) && Run(st, xs + ys) == Run(Run(st, xs), ys)
    decreases |xs|
  {
    if xs == [] {
      assert xs + ys == ys;
    } else {
      RunsOn(Apply(st, xs[0]), xs[1..], ys);
      assert (xs + ys)[1..] == xs[1..] + ys;
    }
  }

  lemma RunsOne(st: State, x: Action)
    requires Enabled(st, x)
    ensures Runnable(st, [x]) && Run(st, [x]) == Apply(st, x)
  {
    assert [x][1..] == [];
  }

  lemma {:induction false} RunKeepsSetup(st: State, xs: seq<Action>)
    requires Runnable(st, xs)
    ensures Run(st, xs).setup == st.setup && |Run(st, xs).pcs| == |st.pcs|
    decreases |xs|
  {
    if xs != [] {
      RunKeepsSetup(Apply(st, xs[0]), xs[1..]);
    }
  }

  /** One more step of a run. */
  lemma Walk(start: State, st: State, x: Action) returns (st': State)
    requires Reaches(start, st) && Enabled(st, x)
    ensures st' == Apply(st, x) && Reaches(start, st')
  {
    var xs :| Runnable(start, xs) && Run(start, xs) == st;
    RunsOne(st, x);
    RunsOn(start, xs, [x]);
    st' := Apply(st, x);
  }

  /** One more step of a run of wrong codes. */
  lemma Guess(start: State, st: State, x: Action) returns (st': State)
    requires GuessesTo(start, st) && Enabled(st, x) && (x.Call? ==> WrongCode(st.setup, x.code))
    ensures st' == Apply(st, x) && GuessesTo(start, st')
  {
    var xs :| Runnable(start, xs) && AllWrong(start.setup, xs) && Run(start, xs) == st;
    RunKeepsSetup(start, xs);
    RunsOne(st, x);
    RunsOn(start, xs, [x]);
    assert AllWrong(start.setup, xs + [x]);
    st' := Apply(st, x);
  }

  lemma GuessesToItself(st: State)
    ensures GuessesTo(st, st)
  {
    assert Runnable(st, []) && AllWrong(st.setup, []) && Run(st, []) == st;
  }

  lemma GuessesReach(st: State, st': State)
    requires GuessesTo(st, st')
    ensures Reaches(st, st')
  {
  }

  lemma ReachedIsOk(setup: Setup, threads: nat, st: State)
    requires Fits(setup, threads) && Reaches(Start(setup, threads), st)
    ensures Inv(st) && st.setup == setup && |st.pcs| == threads && (threads <= 1 ==> SoloInv(st))
  {
    var xs :| Runnable(Start(setup, threads), xs) && Run(Start(setup, threads), xs) == st;
    StartOk(setup, threads);
    RunKeepsInv(Start(setup, threads), xs);
    if threads <= 1 {
      RunKeepsSolo(Start(setup, threads), xs);
    }
  }

  // ---------------------------------------------------------------- schedules that overlap

  /** A code is expected, and `wrong` is not it. */
  predicate Playable(setup: Setup, wrong: string) {
    setup.required && setup.code.Some? && WrongCode(setup, wrong) && setup.maxAttempts < U32
  }

  /** A thread presents a code and finds no lockout. */
  lemma PassCheck(start: State, st: State, t: nat, code: string) returns (st': State)
    requires Reaches(start, st) && t < |st.pcs| && st.pcs[t].Idle?
    requires st.setup.required && st.setup.code.Some? && !Locked(st)
    ensures Reaches(start, st') && st' == Move(st, t, Compare(code, ""))
    ensures GuessesTo(start, st) && WrongCode(st.setup, code) ==> GuessesTo(start, st')
  {
    st' := Walk(start, st, Call(t, code, ""));
    st' := Walk(start, st', Step(t));
    if GuessesTo(start, st) && WrongCode(st.setup, code) {
      var st1 := Guess(start, st, Call(t, code, ""));
      var st2 := Guess(start, st1, Step(t));
    }
  }

  lemma GuessLow(start: State, st: State, t: nat, wrong: string) returns (st': State)
    requires GuessesTo(start, st) && Playable(st.setup, wrong) && !Locked(st)
    requires t < |st.pcs| && st.pcs[t].Idle? && st.failed + 1 < Guesses(st.setup)
    ensures GuessesTo(start, st') && st' == st.(failed := st.failed + 1, compared := st.compared + [st.now])
  {
    GuessesReach(start, st);
    st' := PassCheck(start, st, t, wrong);
    st' := Guess(start, st', Step(t));
    st' := Guess(start, st', Step(t));
    st' := Guess(start, st', Step(t));
    assert st'.pcs == st.pcs;
  }

  /** A thread guesses until one guess is left. */
  lemma GuessUp(start: State, st: State, t: nat, wrong: string) returns (st': State)
    requires GuessesTo(start, st) && Playable(st.setup, wrong) && !Locked(st)
    requires t < |st.pcs| && st.pcs[t].Idle? && st.failed < Guesses(st.setup)
    ensures GuessesTo(start, st') && st' == st.(failed := Guesses(st.setup) - 1, compared := st'.compared)
    ensures |st'.compared| == |st.compared| + Guesses(st.setup) - 1 - st.failed
  {
    st' := st;
    while st'.failed + 1 < Guesses(st.setup)
      invariant st'.failed < Guesses(st.setup) && GuessesTo(start, st')
      invariant st' == st.(failed := st'.failed, compared := st'.compared)
      invariant |st'.compared| == |st.compared| + st'.failed - st.failed
      decreases Guesses(st.setup) - st'.failed
    {
      st' := GuessLow(start, st', t, wrong);
    }
  }

  lemma WrongExists(setup: Setup) returns (wrong: string)
    ensures WrongCode(setup, wrong)
  {
    wrong := if setup.code.Some? then setup.code.value + "x" else "";
    assert setup.code.Some? ==> |wrong| != |setup.code.value|;
  }

  /** Everybody idle but the first thread, and a single guess left. */
  lemma Brink(setup: Setup, threads: nat, wrong: string) returns (st: State)
    requires Playable(setup, wrong) && threads >= 2
    ensures GuessesTo(Start(setup, threads), st)
    ensures st == Start(setup, threads).(failed := Guesses(setup) - 1, compared := st.compared)
    ensures |st.compared| == Guesses(setup) - 1
  {
    var start := Start(setup, threads);
    GuessesToItself(start);
    st := GuessUp(start, start, 0, wrong);
  }

  /** Two threads look before either compares: one guess too many at a single instant. */
  lemma TwoLookFirst(setup: Setup, threads: nat) returns (st: State)
    requires setup.required && setup.code.Some? && setup.maxAttempts < U32 && threads >= 2
    ensures GuessesTo(Start(setup, threads), st) && st.now == 0 && |st.compared| == Guesses(setup) + 1
  {
    var start := Start(setup, threads);
    var wrong := WrongExists(setup);
    st := Brink(setup, threads, wrong);
    GuessesReach(start, st);
    st := PassCheck(start, st, 0, wrong);
    st := PassCheck(start, st, 1, wrong);
    st := Guess(start, st, Step(0));
    st := Guess(start, st, Step(1));
  }

  /** A thread that has used the last guess, or one too many, reads the clock for its lockout. */
  lemma UseLast(start: State, st: State, t: nat, wrong: string) returns (st': State)
    requires GuessesTo(start, st) && Playable(st.setup, wrong) && !Locked(st)
    requires t < |st.pcs| && st.pcs[t].Idle? && Guesses(st.setup) - 1 <= st.failed && st.failed + 1 < U32
    ensures GuessesTo(start, st')
    ensures st' == Move(st.(failed := st.failed + 1, compared := st'.compared), t, Arm(st.now + st.setup.lockout))
    ensures |st'.compared| == |st.compared| + 1
  {
    GuessesReach(start, st);
    st' := PassCheck(start, st, t, wrong);
    st' := Guess(start, st', Step(t));
    st' := Guess(start, st', Step(t));
    st' := Guess(start, st', Step(t));
  }

  /** The right code is compared before the lockout is stored, its token comes after. */
  lemma TokenComesLate(setup: Setup, threads: nat) returns (st: State)
    requires setup.required && setup.code.Some? && setup.maxAttempts < U32 && setup.lockout > 0 && threads >= 2
    ensures Reaches(Start(setup, threads), st) && Locked(st) && |st.pcs| == threads && st.pcs[1].Push?
  {
    var start := Start(setup, threads);
    var wrong := WrongExists(setup);
    var brink := Brink(setup, threads, wrong);
    var last := UseLast(start, brink, 0, wrong);
    GuessesReach(start, last);
    st := PassCheck(start, last, 1, setup.code.value);
    st := Walk(start, st, Step(1));
    st := Walk(start, st, Step(0));
    st := Walk(start, st, Step(1));
  }

  /** A second thread counts its failure while the first one is about to lock; should the counter wrap
      there, it starts over and uses up all the guesses once more. */
  lemma UseLastToo(start: State, st: State, wrong: string) returns (st': State)
    requires GuessesTo(start, st) && Playable(st.setup, wrong) && !Locked(st) && |st.pcs| >= 2
    requires st.pcs[1].Idle? && st.failed == Guesses(st.setup)
    ensures GuessesTo(start, st') && st'.pcs == st.pcs[1 := Arm(st.now + st.setup.lockout)]
    ensures st'.lock == st.lock && st'.setup == st.setup && st'.now == st.now
  {
    GuessesReach(start, st);
    st' := PassCheck(start, st, 1, wrong);
    st' := Guess(start, st', Step(1));
    st' := Guess(start, st', Step(1));
    st' := Guess(start, st', Step(1));
    if st'.pcs[1].Idle? {
      st' := GuessUp(start, st', 1, wrong);
      st' := UseLast(start, st', 1, wrong);
    }
  }

  /** Of two threads that lock, the one that read the clock first stores its lockout last. */
  lemma OlderLockoutLast(setup: Setup, threads: nat) returns (st: State)
    requires setup.required && setup.code.Some? && setup.maxAttempts < U32 && threads >= 2
    ensures Reaches(Start(setup, threads), st) && |st.pcs| == threads
    ensures st.lock == Some(1 + setup.lockout) && st.pcs[0] == Arm(setup.lockout)
  {
    var start := Start(setup, threads);
    var wrong := WrongExists(setup);
    st := Brink(setup, threads, wrong);
    st := UseLast(start, st, 0, wrong);
    st := Guess(start, st, Pass(1));
    st := UseLastToo(start, st, wrong);
    GuessesReach(start, st);
    st := Walk(start, st, Step(1));
  }

  // ---------------------------------------------------------------- the bound is of the right order

  /** Nothing but the lockout, the counter and the comparisons differs, and threads outside the range. */
  ghost predicate Elsewhere(st: State, st': State, from: nat, to: nat) {
    && st'.setup == st.setup && st'.now == st.now && st'.tokens == st.tokens && |st'.pcs| == |st.pcs|
    && forall i :: 0 <= i < |st.pcs| && !(from <= i < to) ==> st'.pcs[i] == st.pcs[i]
  }

  ghost predicate AllAt(st: State, from: nat, to: nat, pc: Pc) {
    to <= |st.pcs| && forall i :: from <= i < to ==> st.pcs[i] == pc
  }

  /** Threads that use a guess too many each, and read the clock, one after the other. */
  lemma ArmAll(start: State, st: State, from: nat, to: nat, wrong: string) returns (st': State)
    requires GuessesTo(start, st) && Playable(st.setup, wrong) && !Locked(st)
    requires from <= to && AllAt(st, from, to, Idle)
    requires Guesses(st.setup) - 1 <= st.failed && st.failed + (to - from) < U32
    ensures GuessesTo(start, st') && Elsewhere(st, st', from, to)
    ensures AllAt(st', from, to, Arm(st.now + st.setup.lockout))
    ensures st'.failed == st.failed + (to - from) && st'.lock == st.lock && |st'.compared| >= |st.compared|
  {
    st' := st;
    for i := from to to
      invariant GuessesTo(start, st') && Elsewhere(st, st', from, i)
      invariant AllAt(st', from, i, Arm(st.now + st.setup.lockout))
      invariant st'.failed == st.failed + (i - from) && st'.lock == st.lock && |st'.compared| >= |st.compared|
    {
      st' := UseLast(start, st', i, wrong);
    }
  }

  /** Threads that store the lockouts they have read the clock for. */
  lemma StoreAll(start: State, st: State, from: nat, to: nat, until: nat) returns (st': State)
    requires GuessesTo(start, st) && from <= to && AllAt(st, from, to, Arm(until))
    ensures GuessesTo(start, st') && Elsewhere(st, st', from, to) && AllAt(st', from, to, Reset(until))
    ensures st'.failed == st.failed && st'.compared == st.compared
  {
    st' := st;
    for i := from to to
      invariant GuessesTo(start, st') && Elsewhere(st, st', from, i) && AllAt(st', from, i, Reset(until))
      invariant st'.failed == st.failed && st'.compared == st.compared
    {
      st' := Guess(start, st', Step(i));
    }
  }

  /** A thread that resets the counter under an open lock has all the guesses again. */
  lemma ResetAndGuess(start: State, st: State, t: nat, wrong: string) returns (st': State)
    requires GuessesTo(start, st) && Playable(st.setup, wrong) && !Locked(st) && t < |st.pcs| && st.pcs[t].Reset?
    ensures GuessesTo(start, st') && Elsewhere(st, st', t, t + 1) && st'.lock == st.lock
    ensures st'.pcs[t] == Arm(st.now + st.setup.lockout)
    ensures |st'.compared| == |st.compared| + Guesses(st.setup)
  {
    st' := Guess(start, st, Step(t));
    st' := Guess(start, st', Step(t));
    st' := GuessUp(start, st', t, wrong);
    st' := UseLast(start, st', t, wrong);
  }

  /** So do many, one after the other. */
  lemma ResetAll(start: State, st: State, from: nat, to: nat, until: nat, wrong: string) returns (st': State)
    requires GuessesTo(start, st) && Playable(st.setup, wrong) && !Locked(st)
    requires from <= to && AllAt(st, from, to, Reset(until))
    ensures GuessesTo(start, st') && Elsewhere(st, st', from, to) && st'.lock == st.lock
    ensures AllAt(st', from, to, Arm(st.now + st.setup.lockout))
    ensures |st'.compared| == |st.compared| + (to - from) * Guesses(st.setup)
  {
    st' := st;
    for i := from to to
      invariant GuessesTo(start, st') && Elsewhere(st, st', from, i) && st'.lock == st.lock
      invariant AllAt(st', from, i, Arm(st.now + st.setup.lockout))
      invariant |st'.compared| == |st.compared| + (i - from) * Guesses(st.setup)
    {
      OneMore(i - from, Guesses(st.setup));
      st' := ResetAndGuess(start, st', i, wrong);
    }
  }

  /** Half of the pool holds lockouts that are over, of which `used` have been stored, the other half has
      read the clock; the lock is open. */
  ghost predicate Poised(st: State, k: nat, used: nat) {
    && |st.pcs| == 2 * k && used <= k && !Locked(st)
    && AllAt(st, used, k, Arm(st.now)) && AllAt(st, k, 2 * k, Arm(st.now + st.setup.lockout))
  }

  /** A half locks, one stored lockout that is over opens the lock again, and the half guesses anew. */
  lemma Round(start: State, st: State, k: nat, used: nat, wrong: string) returns (st': State)
    requires GuessesTo(start, st) && Playable(st.setup, wrong) && Poised(st, k, used) && used < k
    ensures GuessesTo(start, st') && Poised(st', k, used + 1) && st'.setup == st.setup && st'.now == st.now
    ensures |st'.compared| == |st.compared| + k * Guesses(st.setup)
  {
    st' := StoreAll(start, st, k, 2 * k, st.now + st.setup.lockout);
    st' := Guess(start, st', Step(used));
    st' := ResetAll(start, st', k, 2 * k, st.now + st.setup.lockout, wrong);
  }

  lemma Rounds(start: State, st: State, k: nat, wrong: string) returns (st': State)
    requires GuessesTo(start, st) && Playable(st.setup, wrong) && Poised(st, k, 0)
    ensures GuessesTo(start, st') && st'.now == st.now
    ensures |st'.compared| == |st.compared| + k * (k * Guesses(st.setup))
  {
    st' := st;
    for used := 0 to k
      invariant GuessesTo(start, st') && Poised(st', k, used) && st'.setup == st.setup && st'.now == st.now
      invariant |st'.compared| == |st.compared| + used * (k * Guesses(st.setup))
    {
      OneMore(used, k * Guesses(st.setup));
      st' := Round(start, st', k, used, wrong);
    }
  }

  /** A lockout later, half of the pool is still about to store its lockout. */
  lemma HalfHoldsBack(setup: Setup, k: nat, wrong: string) returns (st: State)
    requires Playable(setup, wrong) && Fits(setup, 2 * k) && k >= 1
    ensures GuessesTo(Start(setup, 2 * k), st) && st.setup == setup && st.now == setup.lockout && !Locked(st)
    ensures |st.pcs| == 2 * k && AllAt(st, 0, k, Arm(st.now)) && AllAt(st, k, 2 * k, Idle)
    ensures st.failed == Guesses(setup) - 1 + k
  {
    var start := Start(setup, 2 * k);
    st := Brink(setup, 2 * k, wrong);
    st := ArmAll(start, st, 0, k, wrong);
    st := Guess(start, st, Pass(setup.lockout));
  }

  // ---------------------------------------------------------------- main results

  /** A stretch of some run that presents wrong codes only and is shorter than the lockout. */
  ghost predicate Stretch(start: State, st: State, st': State) {
    Reaches(start, st) && Guessing(st) && GuessesTo(st, st') && st'.now < st.now + start.setup.lockout
  }

  /** Main result: in every interleaving, a stretch of wrong codes shorter than the lockout compares at
      most m = max(1, max_attempts) of them for one thread, and (n + 1)^2 * m + n - 1 for n threads. */
  lemma GuessesPerStretch(setup: Setup, threads: nat, st: State, st': State)
    requires Fits(setup, threads) && Stretch(Start(setup, threads), st, st')
    ensures |st'.compared| <= |st.compared| + Bound(setup, threads)
  {
    var xs :| Runnable(st, xs) && AllWrong(st.setup, xs) && Run(st, xs) == st';
    ReachedIsOk(setup, threads, st);
    StretchBounded(st, xs);
  }

  /** Main result: the bound is of the right order: 2k threads can compare k^2 * m wrong codes, and at a
      single instant. */
  lemma ManyGuessesPerStretch(setup: Setup, k: nat) returns (st: State, st': State)
    requires setup.required && setup.code.Some? && setup.lockout > 0 && k >= 1 && Fits(setup, 2 * k)
    ensures Stretch(Start(setup, 2 * k), st, st') && st'.now == st.now
    ensures |st'.compared| >= |st.compared| + k * (k * Guesses(setup))
  {
    var start := Start(setup, 2 * k);
    var wrong := WrongExists(setup);
    st := HalfHoldsBack(setup, k, wrong);
    GuessesReach(start, st);
    GuessesToItself(st);
    st' := ArmAll(st, st, k, 2 * k, wrong);
    st' := Rounds(st, st', k, wrong);
  }

  /** Main result: the limit of m guesses in any stretch shorter than the lockout holds in every
      interleaving exactly if at most one thread calls. */
  lemma LimitHoldsIffSolo(setup: Setup, threads: nat)
    requires setup.required && setup.code.Some? && setup.maxAttempts < U32 && setup.lockout > 0
    ensures threads <= 1 <==>
      forall st, st' :: Stretch(Start(setup, threads), st, st') ==>
        |st'.compared| - |st.compared| <= Guesses(setup)
  {
    if threads <= 1 {
      forall st, st' | Stretch(Start(setup, threads), st, st')
        ensures |st'.compared| - |st.compared| <= Guesses(setup)
      {
        GuessesPerStretch(setup, threads, st, st');
      }
    } else {
      var start := Start(setup, threads);
      GuessesToItself(start);
      GuessesReach(start, start);
      var st' := TwoLookFirst(setup, threads);
    }
  }

  /** Main result: no token is about to be handed out while the guard is locked, in every
      interleaving, exactly if at most one thread calls. */
  lemma NoTokenWhileLockedIffSolo(setup: Setup, threads: nat)
    requires setup.required && setup.code.Some? && setup.maxAttempts < U32 && setup.lockout > 0
    ensures threads <= 1 <==>
      forall st, i :: Reaches(Start(setup, threads), st) && 0 <= i < |st.pcs| && st.pcs[i].Push? ==> !Locked(st)
  {
    if threads <= 1 {
      forall st, i | Reaches(Start(setup, threads), st) && 0 <= i < |st.pcs| && st.pcs[i].Push?
        ensures !Locked(st)
      {
        ReachedIsOk(setup, threads, st);
      }
    } else {
      var st := TokenComesLate(setup, threads);
    }
  }

  /** Main result: a lockout is never replaced by one that ends earlier, in every interleaving,
      exactly if at most one thread calls. */
  lemma LockoutNeverShortensIffSolo(setup: Setup, threads: nat)
    requires setup.required && setup.code.Some? && setup.maxAttempts < U32
    ensures threads <= 1 <==>
      forall st, x :: Reaches(Start(setup, threads), st) && Enabled(st, x) && st.lock.Some?
        ==> Apply(st, x).lock.Some? && Apply(st, x).lock.value >= st.lock.value
  {
    if threads <= 1 {
      forall st, x | Reaches(Start(setup, threads), st) && Enabled(st, x) && st.lock.Some?
        ensures Apply(st, x).lock.Some? && Apply(st, x).lock.value >= st.lock.value
      {
        ReachedIsOk(setup, threads, st);
      }
    } else {
      var st := OlderLockoutLast(setup, threads);
      assert Enabled(st, Step(0)) && Apply(st, Step(0)).lock == Some(setup.lockout);
    }
  }

  /** A stretch of at least `d` splits where the clock passes `d`. */
  lemma {:induction false} SplitAt(st: State, xs: seq<Action>, end: nat) returns (st1: State, ys: seq<Action>)
    requires Runnable(st, xs) && AllWrong(st.setup, xs) && Guessing(st) && st.now < end <= Run(st, xs).now
    ensures GuessesTo(st, st1) && st1.now < end && ys != [] && Guessing(st1) && st1.setup == st.setup
    ensures Runnable(st1, ys) && AllWrong(st.setup, ys) && Run(st1, ys) == Run(st, xs) && |ys| <= |xs|
    ensures ys[0].Pass? && st1.now + ys[0].dt >= end
    decreases |xs|
  {
    if xs[0].Pass? && st.now + xs[0].dt >= end {
      GuessesToItself(st);
      st1, ys := st, xs;
    } else {
      var next := Apply(st, xs[0]);
      ApplyKeepsGuessing(st, xs[0]);
      assert AllWrong(next.setup, xs[1..]);
      st1, ys := SplitAt(next, xs[1..], end);
      GuessesAfter(st, xs[0], st1);
    }
  }

  lemma GuessesAfter(st: State, x: Action, st1: State)
    requires Enabled(st, x) && AllWrong(st.setup, [x]) && GuessesTo(Apply(st, x), st1)
    ensures GuessesTo(st, st1)
  {
    var next := Apply(st, x);
    var xs :| Runnable(next, xs) && AllWrong(next.setup, xs) && Run(next, xs) == st1;
    assert [x][0] == x && ([x] + xs)[1..] == xs;
    assert Runnable(st, [x] + xs) && AllWrong(st.setup, [x] + xs) && Run(st, [x] + xs) == st1;
  }

  lemma ReachesFurther(start: State, st: State, st': State)
    requires Reaches(start, st) && GuessesTo(st, st')
    ensures Reaches(start, st')
  {
    var xs :| Runnable(start, xs) && Run(start, xs) == st;
    var ys :| Runnable(st, ys) && AllWrong(st.setup, ys) && Run(st, ys) == st';
    RunsOn(start, xs, ys);
  }

  /** A lockout's worth of time less makes room for `b` guesses fewer. */
  lemma AnotherLockout(span: nat, rest: nat, d: nat, b: nat)
    requires d > 0 && rest + d <= span
    ensures (rest / d + 1) * b + b <= (span / d + 1) * b
  {
    var q := rest / d;
    assert span >= d * (q + 1);
    assert span / d >= q + 1;
    OneMore(q + 1, b);
    TimesMonotone(q + 2, span / d + 1, b);
  }

  lemma {:induction false} RunRate(setup: Setup, threads: nat, st: State, xs: seq<Action>)
    requires Fits(setup, threads) && Reaches(Start(setup, threads), st) && Guessing(st) && setup.lockout > 0
    requires st.setup == setup && Runnable(st, xs) && AllWrong(setup, xs)
    ensures st.now <= Run(st, xs).now
    ensures |Run(st, xs).compared| <=
      |st.compared| + ((Run(st, xs).now - st.now) / setup.lockout + 1) * Bound(setup, threads)
    decreases |xs|
  {
    NowGrows(st, xs);
    var end := Run(st, xs);
    var b, span := Bound(setup, threads), end.now - st.now;
    if span < setup.lockout {
      GuessesPerStretch(setup, threads, st, end);
      TimesMonotone(1, span / setup.lockout + 1, b);
    } else {
      var st1, ys := SplitAt(st, xs, st.now + setup.lockout);
      var st2 := Apply(st1, ys[0]);
      GuessesPerStretch(setup, threads, st, st1);
      ReachesFurther(Start(setup, threads), st, st1);
      st2 := Walk(Start(setup, threads), st1, ys[0]);
      RunRate(setup, threads, st2, ys[1..]);
      AnotherLockout(span, end.now - st2.now, setup.lockout, b);
    }
  }

  /** Main result: in every interleaving, wrong codes over a duration T are compared at most
      floor(T / lockout) + 1 times the bound of one stretch. */
  lemma GuessRate(setup: Setup, threads: nat, st: State, st': State)
    requires Fits(setup, threads) && Reaches(Start(setup, threads), st) && Guessing(st) && GuessesTo(st, st')
    requires setup.lockout > 0
    ensures st.now <= st'.now
    ensures |st'.compared| <= |st.compared| + ((st'.now - st.now) / setup.lockout + 1) * Bound(setup, threads)
  {
    var xs :| Runnable(st, xs) && AllWrong(st.setup, xs) && Run(st, xs) == st';
    ReachedIsOk(setup, threads, st);
    RunRate(setup, threads, st, xs);
  }
}
