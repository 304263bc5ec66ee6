// The per-session rate limiter: the object as one caller sees it, and the optimistic
// counter as a pool of threads interleaves it, one lock or atomic operation at a time.

module RateLimiter {
  import opened Counting

  type Session = string

  /** Counters are 32-bit and wrap. */
  const U32: nat := 0x1_0000_0000

  function Plus1(v: nat): nat { (v + 1) % U32 }

  function Minus1(v: nat): nat { (v + U32 - 1) % U32 }

  /** Whether a call of `s` is let through, and the counters it leaves behind. */
  predicate Admits(counts: map<Session, nat>, limit: nat, s: Session) {
    s !in counts || counts[s] < limit
  }

  function Charged(counts: map<Session, nat>, limit: nat, s: Session): map<Session, nat> {
    if !Admits(counts, limit, s) then counts
    else counts[s := if s in counts then counts[s] + 1 else 1]
  }

  class Limiter {
    const limit: nat
    var counts: map<Session, nat>

    ghost predicate Valid()
      reads this
    {
      limit < U32 && forall s :: s in counts ==> counts[s] < U32
    }

    constructor (limit: nat)
      requires limit < U32
      ensures Valid() && this.limit == limit && counts == map[]
    {
      this.limit := limit;
      counts := map[];
    }

    /** A refused call leaves every counter as it was; an admitted one adds one to its own. The
        first call of a session is admitted whatever the limit. */
    method CheckAndIncrement(session: Session) returns (allowed: bool)
      requires Valid()
      modifies this
      ensures Valid()
      ensures allowed == Admits(old(counts), limit, session)
      ensures counts == Charged(old(counts), limit, session)
    {
      if session in counts {
        var current := counts[session];
        counts := counts[session := Plus1(current)];
        if current >= limit {
          counts := counts[session := Minus1(counts[session])];
          assert counts == old(counts);
          return false;
        }
        return true;
      }
      counts := counts[session := 1];
      allowed := true;
    }

    method Reset(session: Session)
      requires Valid()
      modifies this
      ensures Valid()
      ensures counts == if session in old(counts) then old(counts)[session := 0] else old(counts)
    {
      if session in counts {
        counts := counts[session := 0];
      }
    }
  }

  // ---------------------------------------------------------------- the interleaved machine

  /** Where a thread is in check_and_increment. `w` says it holds the write lock, not the read lock. */
  datatype Pc =
    | Idle
    | WantRead(s: Session)
    | LookRead(s: Session)
    | WantWrite(s: Session)
    | LookWrite(s: Session)
    | Insert(s: Session)
    | Add(s: Session, w: bool)
    | Undo(s: Session, w: bool)
    | Done(s: Session, w: bool, allowed: bool)

  predicate ReadHeld(pc: Pc) {
    pc.LookRead? || ((pc.Add? || pc.Undo? || pc.Done?) && !pc.w)
  }

  predicate WriteHeld(pc: Pc) {
    pc.LookWrite? || pc.Insert? || ((pc.Add? || pc.Undo? || pc.Done?) && pc.w)
  }

  /** The answers `yes` and `no` that callers have got, and the calls admitted and refused before their
      session's last reset. */
  datatype History = History(
    yes: map<Session, nat>,
    no: map<Session, nat>,
    admittedBefore: map<Session, nat>,
    rejectedBefore: map<Session, nat>)

  /** A fixed pool of threads. The three tallies count, per session and since its last reset, the
      calls begun, those admitted and those refused; `resets` counts the session's resets. */
  datatype State = State(
    limit: nat,
    counts: map<Session, nat>,
    pcs: seq<Pc>,
    called: map<Session, nat>,
    admitted: map<Session, nat>,
    rejected: map<Session, nat>,
    resets: map<Session, nat>,
    history: History)

  function At(m: map<Session, nat>, s: Session): nat {
    if s in m then m[s] else 0
  }

  function Plus(m: map<Session, nat>, s: Session, n: nat): map<Session, nat> {
    m[s := At(m, s) + n]
  }

  function Bump(m: map<Session, nat>, s: Session): map<Session, nat> {
    Plus(m, s, 1)
  }

  function Start(limit: nat, threads: nat): State {
    State(limit, map[], seq(threads, i => Idle), map[], map[], map[], map[], History(map[], map[], map[], map[]))
  }

  datatype Action = Call(t: nat, session: Session) | Step(t: nat) | Reset(session: Session)

  /** RwLock: a reader waits for the writer, a writer for everybody. */
  predicate Enabled(st: State, x: Action) {
    match x
    case Call(t, _) => t < |st.pcs| && st.pcs[t].Idle?
    case Step(t) =>
      && t < |st.pcs| && !st.pcs[t].Idle?
      && (st.pcs[t].WantRead? ==> forall i :: 0 <= i < |st.pcs| ==> !WriteHeld(st.pcs[i]))
      && (st.pcs[t].WantWrite? ==> forall i :: 0 <= i < |st.pcs| ==> !WriteHeld(st.pcs[i]) && !ReadHeld(st.pcs[i]))
    case Reset(_) => forall i :: 0 <= i < |st.pcs| ==> !WriteHeld(st.pcs[i])
  }

  function Move(st: State, t: nat, pc: Pc): State
    requires t < |st.pcs|
  {
    st.(pcs := st.pcs[t := pc])
  }

  /** Where the thread goes next: what it finds decides. */
  function NextPc(st: State, t: nat): Pc
    requires t < |st.pcs|
  {
    match st.pcs[t]
    case Idle => Idle
    case WantRead(s) => LookRead(s)
    case LookRead(s) => if s in st.counts then Add(s, false) else WantWrite(s)
    case WantWrite(s) => LookWrite(s)
    case LookWrite(s) => if s in st.counts then Add(s, true) else Insert(s)
    case Insert(s) => Done(s, true, true)
    case Add(s, w) => if At(st.counts, s) >= st.limit then Undo(s, w) else Done(s, w, true)
    case Undo(s, w) => Done(s, w, false)
    case Done(_, _, _) => Idle
  }

  /** What the step does to the counters and the tallies. */
  function Effect(st: State, t: nat): State
    requires t < |st.pcs|
  {
    match st.pcs[t]
    case Insert(s) => st.(counts := st.counts[s := 1], admitted := Bump(st.admitted, s))
    case Add(s, w) =>
      var current := At(st.counts, s);
      var st' := st.(counts := st.counts[s := Plus1(current)]);
      if current >= st.limit then st' else st'.(admitted := Bump(st.admitted, s))
    case Undo(s, w) => st.(counts := st.counts[s := Minus1(At(st.counts, s))], rejected := Bump(st.rejected, s))
    case _ => st
  }

  /** A call that returns answers its caller. */
  function Heard(h: History, pc: Pc): History {
    match pc
    case Done(s, _, allowed) => if allowed then h.(yes := Bump(h.yes, s)) else h.(no := Bump(h.no, s))
    case _ => h
  }

  function Stepped(st: State, t: nat): State
    requires t < |st.pcs|
  {
    Effect(st, t).(pcs := st.pcs[t := NextPc(st, t)], history := Heard(st.history, st.pcs[t]))
  }

  /** A reset puts the session's tallies away. */
  function PutAway(st: State, s: Session): History {
    st.history.(admittedBefore := Plus(st.history.admittedBefore, s, At(st.admitted, s)),
                rejectedBefore := Plus(st.history.rejectedBefore, s, At(st.rejected, s)))
  }

  function Apply(st: State, x: Action): State
    requires Enabled(st, x)
  {
    match x
    case Call(t, s) => Move(st.(called := Bump(st.called, s)), t, WantRead(s))
    case Step(t) => Stepped(st, t)
    case Reset(s) =>
      if s !in st.counts then st
      else
        st.(counts := st.counts[s := 0], resets := Bump(st.resets, s),
            called := st.called[s := Count(st.pcs, Undecided(s))],
            admitted := st.admitted[s := 0], rejected := st.rejected[s := 0],
            history := PutAway(st, s))
  }

  /** A reset is calm when no call of its session is about to undo. */
  predicate Calm(st: State, x: Action) {
    x.Reset? ==> Count(st.pcs, Undoing(x.session)) == 0
  }

  predicate Runnable(st: State, xs: seq<Action>)
    decreases |xs|
  {
    xs == [] || (Enabled(st, xs[0]) && Runnable(Apply(st, xs[0]), xs[1..]))
  }

  predicate CalmRun(st: State, xs: seq<Action>)
    requires Runnable(st, xs)
    decreases |xs|
  {
    xs == [] || (Calm(st, xs[0]) && CalmRun(Apply(st, xs[0]), xs[1..]))
  }

  function Run(st: State, xs: seq<Action>): State
    requires Runnable(st, xs)
    decreases |xs|
  {
    if xs == [] then st else Run(Apply(st, xs[0]), xs[1..])
  }

  // ---------------------------------------------------------------- counting threads

  function Undoing(s: Session): Pc -> bool {
    (pc: Pc) => pc.Undo? && pc.s == s
  }

  /** The thread's call on `s` has been neither admitted nor refused yet. */
  function Undecided(s: Session): Pc -> bool {
    (pc: Pc) => !pc.Idle? && !pc.Done? && pc.s == s
  }

  // ---------------------------------------------------------------- the invariant

  /** How many calls a session may make until its next reset: the limit, except that the very first
      call is admitted even when the limit is zero. */
  function Capacity(st: State, s: Session): nat {
    if st.limit == 0 && s !in st.resets then 1 else st.limit
  }

  ghost predicate SessionOk(st: State, s: Session) {
    var undoing := Count(st.pcs, Undoing(s));
    && At(st.called, s) == At(st.admitted, s) + At(st.rejected, s) + Count(st.pcs, Undecided(s))
    && At(st.admitted, s) <= Capacity(st, s)
    && (undoing > 0 || At(st.rejected, s) > 0 ==> At(st.admitted, s) == Capacity(st, s))
    && (if s in st.counts then
          && st.counts[s] == (At(st.admitted, s) + undoing) % U32
          && (s !in st.resets ==> At(st.admitted, s) >= 1)
        else
          At(st.admitted, s) == 0 && undoing == 0 && At(st.rejected, s) == 0 && s !in st.resets)
  }

  /** Whoever writes holds the lock alone. */
  ghost predicate Exclusive(pcs: seq<Pc>) {
    forall i, j :: 0 <= i < |pcs| && 0 <= j < |pcs| && i != j && WriteHeld(pcs[i]) ==>
      !WriteHeld(pcs[j]) && !ReadHeld(pcs[j])
  }

  /** An inserting thread still finds no counter, an adding or undoing one still finds its own. */
  ghost predicate FindsCounter(pc: Pc, counts: map<Session, nat>) {
    && (pc.Insert? ==> pc.s !in counts)
    && (pc.Add? || pc.Undo? ==> pc.s in counts)
  }

  ghost predicate ThreadsOk(st: State) {
    Exclusive(st.pcs) && forall i :: 0 <= i < |st.pcs| ==> FindsCounter(st.pcs[i], st.counts)
  }

  /** The counter cannot wrap: the limit and the pool fit into 32 bits together, or nothing is ever admitted
      by counting. */
  predicate Fits(limit: nat, threads: nat) {
    limit < U32 && (limit == 0 || limit + threads <= U32)
  }

  ghost predicate Inv(st: State) {
    Fits(st.limit, |st.pcs|) && ThreadsOk(st) && forall s :: SessionOk(st, s)
  }

  lemma {:induction false} MoveKeepsExclusive(pcs: seq<Pc>, t: nat, pc: Pc)
    requires Exclusive(pcs) && t < |pcs|
    requires WriteHeld(pc) ==> WriteHeld(pcs[t]) || forall i :: 0 <= i < |pcs| ==>
      !WriteHeld(pcs[i]) && !ReadHeld(pcs[i])
    requires ReadHeld(pc) ==> ReadHeld(pcs[t]) || forall i :: 0 <= i < |pcs| ==> !WriteHeld(pcs[i])
    ensures Exclusive(pcs[t := pc])
  {
  }

  lemma {:induction false} StepKeepsExclusive(st: State, t: nat)
    requires Exclusive(st.pcs) && Enabled(st, Step(t))
    ensures Exclusive(Stepped(st, t).pcs)
  {
    MoveKeepsExclusive(st.pcs, t, NextPc(st, t));
  }

  lemma {:induction false} StepKeepsFinding(st: State, t: nat)
    requires ThreadsOk(st) && Enabled(st, Step(t))
    ensures var st' := Stepped(st, t); forall i :: 0 <= i < |st'.pcs| ==> FindsCounter(st'.pcs[i], st'.counts)
  {
    var st' := Stepped(st, t);
    assert FindsCounter(st.pcs[t], st.counts);
    assert forall i :: 0 <= i < |st.pcs| ==> FindsCounter(st.pcs[i], st.counts);
    forall i | 0 <= i < |st'.pcs| ensures FindsCounter(st'.pcs[i], st'.counts) {
      if i != t {
        assert st'.pcs[i] == st.pcs[i] && FindsCounter(st.pcs[i], st.counts);
        assert st.pcs[t].Insert? ==> !st.pcs[i].Insert?;
      }
    }
  }

  lemma {:induction false} ApplyKeepsThreads(st: State, x: Action)
    requires ThreadsOk(st) && Enabled(st, x)
    ensures ThreadsOk(Apply(st, x))
  {
    match x
    case Call(t, session) => MoveKeepsExclusive(st.pcs, t, WantRead(session));
    case Step(t) =>
      StepKeepsExclusive(st, t);
      StepKeepsFinding(st, t);
    case Reset(_) =>
  }

  /** How moving thread `t` changes the two tallies of threads. */
  lemma {:induction false} MoveCounts(st: State, t: nat, pc: Pc, s: Session)
    requires t < |st.pcs|
    ensures Count(st.pcs[t := pc], Undoing(s)) ==
      Count(st.pcs, Undoing(s)) - (if Undoing(s)(st.pcs[t]) then 1 else 0) + (if Undoing(s)(pc) then 1 else 0)
    ensures Count(st.pcs[t := pc], Undecided(s)) ==
      Count(st.pcs, Undecided(s)) - (if Undecided(s)(st.pcs[t]) then 1 else 0) + (if Undecided(s)(pc) then 1 else 0)
    ensures Undoing(s)(st.pcs[t]) ==> Count(st.pcs, Undoing(s)) >= 1
    ensures !Undoing(s)(st.pcs[t]) ==> Count(st.pcs, Undoing(s)) < |st.pcs|
  {
    CountUpdate(st.pcs, t, pc, Undoing(s));
    CountUpdate(st.pcs, t, pc, Undecided(s));
    CountBounds(st.pcs, t, Undoing(s));
  }

  lemma {:induction false} CallKeepsSession(st: State, t: nat, session: Session, s: Session)
    requires Inv(st) && Enabled(st, Call(t, session))
    ensures SessionOk(Apply(st, Call(t, session)), s)
  {
    assert SessionOk(st, s);
    MoveCounts(st, t, WantRead(session), s);
  }

  /** The wrapping counter, read while nobody has wrapped it: it tells exactly whether the capacity is used up. */
  lemma {:induction false} CounterTells(st: State, t: nat)
    requires Inv(st) && t < |st.pcs| && st.pcs[t].Add?
    ensures var s := st.pcs[t].s;
      At(st.counts, s) >= st.limit <==> At(st.admitted, s) == Capacity(st, s)
  {
    var s := st.pcs[t].s;
    assert SessionOk(st, s) && FindsCounter(st.pcs[t], st.counts);
    MoveCounts(st, t, Idle, s);
  }

  lemma {:induction false} Wraps(v: nat)
    ensures Plus1(v % U32) == (v + 1) % U32 && Minus1((v + 1) % U32) == v % U32
  {
  }

  /** The two states agree on everything that is kept per session `s`. */
  ghost predicate SameTallies(st: State, st': State, s: Session) {
    && st'.limit == st.limit && (s in st'.resets <==> s in st.resets) && At(st'.called, s) == At(st.called, s)
    && At(st'.admitted, s) == At(st.admitted, s) && At(st'.rejected, s) == At(st.rejected, s)
    && (s in st'.counts <==> s in st.counts) && At(st'.counts, s) == At(st.counts, s)
  }

  lemma {:induction false} EffectElsewhere(st: State, t: nat, s: Session)
    requires t < |st.pcs| && !st.pcs[t].Idle? && st.pcs[t].s != s
    ensures SameTallies(st, Effect(st, t), s)
  {
    match st.pcs[t]
    case Insert(_) =>
    case Add(_, _) =>
    case Undo(_, _) =>
    case _ =>
  }

  lemma {:induction false} StepTalliesElsewhere(st: State, t: nat, s: Session)
    requires t < |st.pcs| && !st.pcs[t].Idle? && st.pcs[t].s != s
    ensures SameTallies(st, Stepped(st, t), s)
  {
    EffectElsewhere(st, t, s);
    var st' := Stepped(st, t);
    assert st' == Effect(st, t).(pcs := st'.pcs, history := st'.history);
  }

  /** A step of a call on one session changes nothing that another session's invariant mentions. */
  lemma {:induction false} StepElsewhere(st: State, t: nat, s: Session)
    requires t < |st.pcs| && !st.pcs[t].Idle? && st.pcs[t].s != s && SessionOk(st, s)
    ensures SessionOk(Stepped(st, t), s)
  {
    StepTalliesElsewhere(st, t, s);
    MoveCounts(st, t, NextPc(st, t), s);
  }

  lemma {:induction false} LookKeepsSession(st: State, t: nat)
    requires t < |st.pcs| && !st.pcs[t].Insert? && !st.pcs[t].Add? && !st.pcs[t].Undo? && !st.pcs[t].Idle?
    requires SessionOk(st, st.pcs[t].s)
    ensures SessionOk(Stepped(st, t), st.pcs[t].s)
  {
    MoveCounts(st, t, NextPc(st, t), st.pcs[t].s);
  }

  lemma {:induction false} InsertKeepsSession(st: State, t: nat)
    requires Inv(st) && t < |st.pcs| && st.pcs[t].Insert?
    ensures SessionOk(Stepped(st, t), st.pcs[t].s)
  {
    assert SessionOk(st, st.pcs[t].s) && FindsCounter(st.pcs[t], st.counts);
    MoveCounts(st, t, NextPc(st, t), st.pcs[t].s);
  }

  lemma {:induction false} AddKeepsSession(st: State, t: nat)
    requires Inv(st) && t < |st.pcs| && st.pcs[t].Add?
    ensures SessionOk(Stepped(st, t), st.pcs[t].s)
  {
    var s := st.pcs[t].s;
    assert SessionOk(st, s) && FindsCounter(st.pcs[t], st.counts);
    MoveCounts(st, t, NextPc(st, t), s);
    CounterTells(st, t);
    Wraps(At(st.admitted, s) + Count(st.pcs, Undoing(s)));
  }

  lemma {:induction false} UndoKeepsSession(st: State, t: nat)
    requires Inv(st) && t < |st.pcs| && st.pcs[t].Undo?
    ensures SessionOk(Stepped(st, t), st.pcs[t].s)
  {
    var s := st.pcs[t].s;
    assert SessionOk(st, s) && FindsCounter(st.pcs[t], st.counts);
    MoveCounts(st, t, NextPc(st, t), s);
    Wraps(At(st.admitted, s) + Count(st.pcs, Undoing(s)) - 1);
  }

  lemma {:induction false} StepKeepsSession(st: State, t: nat, s: Session)
    requires Inv(st) && Enabled(st, Step(t))
    ensures SessionOk(Apply(st, Step(t)), s)
  {
    assert SessionOk(st, s);
    if st.pcs[t].s != s {
      StepElsewhere(st, t, s);
    } else if st.pcs[t].Insert? {
      InsertKeepsSession(st, t);
    } else if st.pcs[t].Add? {
      AddKeepsSession(st, t);
    } else if st.pcs[t].Undo? {
      UndoKeepsSession(st, t);
    } else {
      LookKeepsSession(st, t);
    }
  }

  lemma {:induction false} ResetKeepsSession(st: State, session: Session, s: Session)
    requires Inv(st) && Enabled(st, Reset(session)) && Calm(st, Reset(session))
    ensures SessionOk(Apply(st, Reset(session)), s)
  {
    assert SessionOk(st, s);
  }

  lemma {:induction false} ApplyKeepsInv(st: State, x: Action)
    requires Inv(st) && Enabled(st, x) && Calm(st, x)
    ensures Inv(Apply(st, x))
  {
    ApplyKeepsThreads(st, x);
    forall s ensures SessionOk(Apply(st, x), s) {
      match x
      case Call(t, session) => CallKeepsSession(st, t, session, s);
      case Step(t) => StepKeepsSession(st, t, s);
      case Reset(session) => ResetKeepsSession(st, session, s);
    }
  }

  lemma {:induction false} StartOk(limit: nat, threads: nat)
    requires Fits(limit, threads)
    ensures Inv(Start(limit, threads))
  {
    var st := Start(limit, threads);
    forall s ensures SessionOk(st, s) {
      CountNone(st.pcs, Undoing(s));
      CountNone(st.pcs, Undecided(s));
    }
  }

  lemma {:induction false} RunKeepsInv(st: State, xs: seq<Action>)
    requires Inv(st) && Runnable(st, xs) && CalmRun(st, xs)
    ensures Inv(Run(st, xs)) && Run(st, xs).limit == st.limit
    decreases |xs|
  {
    if xs != [] {
      ApplyKeepsInv(st, xs[0]);
      RunKeepsInv(Apply(st, xs[0]), xs[1..]);
    }
  }

  // ---------------------------------------------------------------- answers

  /** No reset lies between the two states. */
  predicate SamePast(st: State, st': State) {
    && st'.resets == st.resets && st'.history.admittedBefore == st.history.admittedBefore
    && st'.history.rejectedBefore == st.history.rejectedBefore
  }

  /** About to answer a call of `s` with `allowed`. */
  function Answering(s: Session, allowed: bool): Pc -> bool {
    (pc: Pc) => pc.Done? && pc.s == s && pc.allowed == allowed
  }

  /** The answers callers have got, with those about to be given, are the calls admitted and refused. */
  ghost predicate AnswersOk(st: State, s: Session) {
    && At(st.history.yes, s) + Count(st.pcs, Answering(s, true)) ==
      At(st.history.admittedBefore, s) + At(st.admitted, s)
    && At(st.history.no, s) + Count(st.pcs, Answering(s, false)) ==
      At(st.history.rejectedBefore, s) + At(st.rejected, s)
  }

  /** A step admits or refuses a call of `s` exactly if the call is then about to answer so. */
  lemma {:induction false} EffectDecides(st: State, t: nat, s: Session)
    requires t < |st.pcs|
    ensures At(Effect(st, t).admitted, s) == At(st.admitted, s) + if Answering(s, true)(NextPc(st, t)) then 1 else 0
    ensures At(Effect(st, t).rejected, s) == At(st.rejected, s) + if Answering(s, false)(NextPc(st, t)) then 1 else 0
  {
    match st.pcs[t]
    case Insert(_) =>
    case Add(_, _) =>
    case Undo(_, _) =>
    case _ =>
  }

  lemma {:induction false} StepDecides(st: State, t: nat, s: Session)
    requires t < |st.pcs|
    ensures At(Stepped(st, t).admitted, s) == At(st.admitted, s) + if Answering(s, true)(NextPc(st, t)) then 1 else 0
    ensures At(Stepped(st, t).rejected, s) == At(st.rejected, s) + if Answering(s, false)(NextPc(st, t)) then 1 else 0
  {
    EffectDecides(st, t, s);
    var st' := Stepped(st, t);
    assert st' == Effect(st, t).(pcs := st'.pcs, history := st'.history);
  }

  lemma {:induction false} StepAnswers(st: State, t: nat, s: Session)
    requires t < |st.pcs|
    ensures var (before, after) := (st.history, Stepped(st, t).history);
      && At(after.yes, s) == At(before.yes, s) + (if Answering(s, true)(st.pcs[t]) then 1 else 0)
      && At(after.no, s) == At(before.no, s) + (if Answering(s, false)(st.pcs[t]) then 1 else 0)
    ensures SamePast(st, Stepped(st, t))
  {
    match st.pcs[t]
    case Idle =>
    case WantRead(_) =>
    case LookRead(_) =>
    case WantWrite(_) =>
    case LookWrite(_) =>
    case Insert(_) =>
    case Add(_, _) =>
    case Undo(_, _) =>
    case Done(_, _, _) =>
  }

  lemma {:induction false} StepKeepsAnswers(st: State, t: nat, s: Session)
    requires AnswersOk(st, s) && t < |st.pcs|
    ensures AnswersOk(Stepped(st, t), s)
  {
    StepDecides(st, t, s);
    StepAnswers(st, t, s);
    CountUpdate(st.pcs, t, NextPc(st, t), Answering(s, true));
    CountUpdate(st.pcs, t, NextPc(st, t), Answering(s, false));
  }

  lemma {:induction false} ApplyKeepsAnswers(st: State, x: Action, s: Session)
    requires AnswersOk(st, s) && Enabled(st, x)
    ensures AnswersOk(Apply(st, x), s)
  {
    match x
    case Call(t, session) =>
      CountUpdate(st.pcs, t, WantRead(session), Answering(s, true));
      CountUpdate(st.pcs, t, WantRead(session), Answering(s, false));
    case Step(t) => StepKeepsAnswers(st, t, s);
    case Reset(_) =>
  }

  /** Main result: in every interleaving, with calm resets or not, exactly the admitted calls are
      answered yes and exactly the refused ones no. */
  lemma {:induction false} RunKeepsAnswers(st: State, xs: seq<Action>, s: Session)
    requires AnswersOk(st, s) && Runnable(st, xs)
    ensures AnswersOk(Run(st, xs), s)
    decreases |xs|
  {
    if xs != [] {
      ApplyKeepsAnswers(st, xs[0], s);
      RunKeepsAnswers(Apply(st, xs[0]), xs[1..], s);
    }
  }

  lemma {:induction false} StartAnswers(limit: nat, threads: nat, s: Session)
    ensures AnswersOk(Start(limit, threads), s)
  {
    CountNone(Start(limit, threads).pcs, Answering(s, true));
    CountNone(Start(limit, threads).pcs, Answering(s, false));
  }

  lemma {:induction false} OneMore(n: nat, k: nat)
    ensures (n + 1) * k == n * k + k
  {
  }

  /** Every reset closes a stretch of at most `limit` admissions. */
  ghost predicate PastOk(st: State, s: Session) {
    At(st.history.admittedBefore, s) <= At(st.resets, s) * st.limit
  }

  lemma {:induction false} ApplyKeepsPast(st: State, x: Action, s: Session)
    requires st.limit >= 1 && Inv(st) && PastOk(st, s) && Enabled(st, x)
    ensures PastOk(Apply(st, x), s)
  {
    match x
    case Call(_, _) =>
    case Step(t) => StepAnswers(st, t, s);
    case Reset(_) =>
      assert SessionOk(st, s);
      OneMore(At(st.resets, s), st.limit);
  }

  lemma {:induction false} RunKeepsPast(st: State, xs: seq<Action>, s: Session)
    requires st.limit >= 1 && Inv(st) && PastOk(st, s) && Runnable(st, xs) && CalmRun(st, xs)
    ensures PastOk(Run(st, xs), s)
    decreases |xs|
  {
    if xs != [] {
      ApplyKeepsPast(st, xs[0], s);
      ApplyKeepsInv(st, xs[0]);
      RunKeepsPast(Apply(st, xs[0]), xs[1..], s);
    }
  }

  // ---------------------------------------------------------------- main results

  /** Main result: in every interleaving whose resets are calm, the counter of a session is its
      admitted calls plus the threads about to undo, a call was refused or is about to be only when
      the capacity is used up, and once no call of the session is undecided exactly
      min(calls, capacity) were admitted - each since the session's last reset, and for every session separately. */
  lemma {:induction false} AdmitsExactly(limit: nat, threads: nat, xs: seq<Action>, s: Session)
    requires Fits(limit, threads)
    requires Runnable(Start(limit, threads), xs) && CalmRun(Start(limit, threads), xs)
    ensures var st := Run(Start(limit, threads), xs);
      var cap := Capacity(st, s);
      && (s in st.counts ==> st.counts[s] == (At(st.admitted, s) + Count(st.pcs, Undoing(s))) % U32)
      && At(st.admitted, s) <= cap
      && (At(st.rejected, s) > 0 || Count(st.pcs, Undoing(s)) > 0 ==> At(st.admitted, s) == cap)
      && (Count(st.pcs, Undecided(s)) == 0 ==>
            At(st.admitted, s) == if At(st.called, s) <= cap then At(st.called, s) else cap)
  {
    StartOk(limit, threads);
    RunKeepsInv(Start(limit, threads), xs);
    assert SessionOk(Run(Start(limit, threads), xs), s);
  }

  /** Main result: so, in every interleaving, callers have got exactly one answer for each call that is
      over: yes if it was admitted and no if it was refused; and once all calls are over, in a run with
      calm resets, a session never reset has had min(calls, capacity) yeses and a no for every other call. */
  lemma {:induction false} AnswersExactly(limit: nat, threads: nat, xs: seq<Action>, s: Session)
    requires Runnable(Start(limit, threads), xs)
    ensures var st := Run(Start(limit, threads), xs);
      && At(st.history.yes, s) + Count(st.pcs, Answering(s, true)) ==
        At(st.history.admittedBefore, s) + At(st.admitted, s)
      && At(st.history.no, s) + Count(st.pcs, Answering(s, false)) ==
        At(st.history.rejectedBefore, s) + At(st.rejected, s)
    ensures var st := Run(Start(limit, threads), xs);
      var (cap, calls) := (Capacity(st, s), At(st.called, s));
      && Fits(limit, threads) && CalmRun(Start(limit, threads), xs) && s !in st.resets
      && (forall i :: 0 <= i < |st.pcs| ==> st.pcs[i].Idle?)
      ==>
        && At(st.history.yes, s) == (if calls <= cap then calls else cap)
        && At(st.history.no, s) == calls - At(st.history.yes, s)
  {
    var start := Start(limit, threads);
    var st := Run(start, xs);
    StartAnswers(limit, threads, s);
    RunKeepsAnswers(start, xs, s);
    if Fits(limit, threads) && CalmRun(start, xs) && s !in st.resets && forall i :: 0 <= i < |st.pcs| ==>
      st.pcs[i].Idle?
    {
      AdmitsExactly(limit, threads, xs, s);
      StartOk(limit, threads);
      RunKeepsInv(start, xs);
      RunKeepsNothingPast(start, xs, s);
      assert SessionOk(st, s);
      CountNone(st.pcs, Undecided(s));
      NoneAnswering(st, s);
    }
  }

  /** Tallies are put away only by resets. */
  lemma {:induction false} RunKeepsNothingPast(st: State, xs: seq<Action>, s: Session)
    requires Runnable(st, xs) && (s !in st.resets ==> NothingPast(st, s))
    ensures s !in Run(st, xs).resets ==> NothingPast(Run(st, xs), s)
    decreases |xs|
  {
    if xs != [] {
      var x := xs[0];
      if x.Step? {
        StepAnswers(st, x.t, s);
      }
      RunKeepsNothingPast(Apply(st, x), xs[1..], s);
    }
  }

  predicate NothingPast(st: State, s: Session) {
    s !in st.history.admittedBefore && s !in st.history.rejectedBefore
  }

  // ---------------------------------------------------------------- reachable states

  ghost predicate Reaches(st: State, st': State) {
    exists xs :: Runnable(st, xs) && CalmRun(st, xs) && Run(st, xs) == st'
  }

  /** Main result: in every reachable state a thread inside the part that the write lock guards is there alone:
      every other thread is outside both locks. */
  lemma {:induction false} WriterIsAlone(start: State, st: State, t: nat, u: nat)
    requires start == Start(start.limit, |start.pcs|) && Reaches(start, st)
    requires t < |st.pcs| && u < |st.pcs| && t != u
    requires st.pcs[t].LookWrite? || st.pcs[t].Insert? ||
      ((st.pcs[t].Add? || st.pcs[t].Undo? || st.pcs[t].Done?) && st.pcs[t].w)
    ensures st.pcs[u].Idle? || st.pcs[u].WantRead? || st.pcs[u].WantWrite?
  {
    var xs :| Runnable(start, xs) && CalmRun(start, xs) && Run(start, xs) == st;
    RunKeepsThreads(start, xs);
  }

  lemma {:induction false} RunKeepsThreads(st: State, xs: seq<Action>)
    requires ThreadsOk(st) && Runnable(st, xs)
    ensures ThreadsOk(Run(st, xs))
    decreases |xs|
  {
    if xs != [] {
      ApplyKeepsThreads(st, xs[0]);
      RunKeepsThreads(Apply(st, xs[0]), xs[1..]);
    }
  }

  lemma {:induction false} ReachedAnswers(start: State, st: State, s: Session)
    requires start == Start(start.limit, |start.pcs|) && Reaches(start, st)
    ensures AnswersOk(st, s)
  {
    var xs :| Runnable(start, xs) && CalmRun(start, xs) && Run(start, xs) == st;
    StartAnswers(start.limit, |start.pcs|, s);
    RunKeepsAnswers(start, xs, s);
  }

  lemma {:induction false} Concatenates(st: State, xs: seq<Action>, ys: seq<Action>)
    requires Runnable(st, xs) && CalmRun(st, xs)
    requires Runnable(Run(st, xs), ys) && CalmRun(Run(st, xs), ys)
    ensures Runnable(st, xs + ys) && CalmRun(st, xs + ys) && Run(st, xs + ys) == Run(Run(st, xs), ys)
    decreases |xs|
  {
    if xs == [] {
      assert xs + ys == ys;
    } else {
      Concatenates(Apply(st, xs[0]), xs[1..], ys);
      assert (xs + ys)[1..] == xs[1..] + ys;
    }
  }

  lemma {:induction false} ReachesItself(st: State)
    ensures Reaches(st, st)
  {
    assert Runnable(st, []) && CalmRun(st, []) && Run(st, []) == st;
  }

  lemma {:induction false} ReachesFurther(st: State, st1: State, x: Action)
    requires Reaches(st, st1) && Enabled(st1, x) && Calm(st1, x)
    ensures Reaches(st, Apply(st1, x))
  {
    var xs :| Runnable(st, xs) && CalmRun(st, xs) && Run(st, xs) == st1;
    var after := Apply(st1, x);
    assert [x][1..] == [] && Runnable(after, []) && CalmRun(after, []) && Run(after, []) == after;
    assert Runnable(st1, [x]) && CalmRun(st1, [x]) && Run(st1, [x]) == Apply(st1, x);
    Concatenates(st, xs, [x]);
  }

  // ---------------------------------------------------------------- when the pool does not fit

  /** All threads idle, `k` calls of `s` admitted and counted. */
  ghost predicate Filled(st: State, s: Session, k: nat) {
    && (forall i :: 0 <= i < |st.pcs| ==> st.pcs[i].Idle?)
    && (s in st.counts <==> k > 0) && At(st.counts, s) == k && At(st.admitted, s) == k
  }

  lemma {:induction false} Walk(start: State, st: State, t: nat) returns (st': State)
    requires Reaches(start, st) && Enabled(st, Step(t))
    ensures st' == Stepped(st, t) && Reaches(start, st')
  {
    ReachesFurther(start, st, Step(t));
    st' := Stepped(st, t);
  }

  /** With nobody writing, a new call looks for its counter. */
  lemma {:induction false} LooksUp(start: State, st: State, t: nat, s: Session) returns (st': State)
    requires Reaches(start, st) && t < |st.pcs| && forall i :: 0 <= i < |st.pcs| ==> !WriteHeld(st.pcs[i])
    requires st.pcs[t].Idle?
    ensures Reaches(start, st')
    ensures st' == st.(called := Bump(st.called, s),
      pcs := st.pcs[t := if s in st.counts then Add(s, false) else WantWrite(s)])
  {
    ReachesFurther(start, st, Call(t, s));
    st' := Walk(start, Apply(st, Call(t, s)), t);
    st' := Walk(start, st', t);
  }

  /** A new call gets as far as its decision point: adding, or inserting. */
  lemma {:induction false} Decide(start: State, st: State, t: nat, s: Session) returns (st': State)
    requires Reaches(start, st) && t < |st.pcs| && forall i :: 0 <= i < |st.pcs| ==> !WriteHeld(st.pcs[i])
    requires st.pcs[t].Idle? && (s !in st.counts ==> forall i :: 0 <= i < |st.pcs| ==> !ReadHeld(st.pcs[i]))
    ensures Reaches(start, st')
    ensures st' == st.(called := Bump(st.called, s),
      pcs := st.pcs[t := if s in st.counts then Add(s, false) else Insert(s)])
  {
    st' := LooksUp(start, st, t, s);
    if s !in st.counts {
      st' := Walk(start, st', t);
      st' := Walk(start, st', t);
    }
  }

  lemma {:induction false} UndoneIsUnchanged(counts: map<Session, nat>, s: Session)
    requires s in counts && counts[s] < U32
    ensures counts[s := Plus1(counts[s])][s := Minus1(Plus1(counts[s]))] == counts
  {
  }

  /** At the limit the addition is undone at once. */
  lemma {:induction false} Refuse(start: State, st: State, t: nat, s: Session) returns (st': State)
    requires Reaches(start, st) && t < |st.pcs| && st.pcs[t] == Add(s, false)
    requires s in st.counts && st.limit <= st.counts[s] < U32
    ensures Reaches(start, st') && st'.pcs == st.pcs[t := Done(s, false, false)]
    ensures st'.limit == st.limit && st'.counts == st.counts && st'.admitted == st.admitted
    ensures st'.resets == st.resets && st'.history == st.history
  {
    UndoneIsUnchanged(st.counts, s);
    st' := Walk(start, st, t);
    assert st' == st.(counts := st.counts[s := Plus1(st.counts[s])], pcs := st.pcs[t := Undo(s, false)]);
    st' := Walk(start, st', t);
  }

  /** The step that admits: inserting, or adding below the limit. */
  lemma {:induction false} Admit(st: State, t: nat, s: Session)
    requires t < |st.pcs| && Admits(st.counts, st.limit, s)
    requires st.pcs[t] == if s in st.counts then Add(s, false) else Insert(s)
    requires s in st.counts ==> st.counts[s] < U32 && st.limit < U32
    ensures var st' := Stepped(st, t);
      && st'.pcs == st.pcs[t := Done(s, s !in st.counts, true)] && st'.limit == st.limit
      && st'.counts == Charged(st.counts, st.limit, s) && st'.admitted == Bump(st.admitted, s)
      && st'.resets == st.resets && st'.history == st.history
  {
  }

  lemma {:induction false} ConcludeAdmitted(start: State, st: State, t: nat, s: Session) returns (st': State)
    requires Reaches(start, st) && t < |st.pcs| && Admits(st.counts, st.limit, s)
    requires st.pcs[t] == if s in st.counts then Add(s, false) else Insert(s)
    requires s in st.counts ==> st.counts[s] < U32 && st.limit < U32
    ensures Reaches(start, st') && st'.pcs == st.pcs[t := Idle] && st'.limit == st.limit
    ensures st'.counts == Charged(st.counts, st.limit, s) && At(st'.admitted, s) == At(st.admitted, s) + 1
    ensures SamePast(st, st') && Answered(st, st', s, true)
  {
    Admit(st, t, s);
    st' := Walk(start, st, t);
    st' := Walk(start, st', t);
  }

  /** From its decision point on, a call admits or undoes as CheckAndIncrement of the object does. */
  lemma {:induction false} Conclude(start: State, st: State, t: nat, s: Session) returns (st': State)
    requires Reaches(start, st) && t < |st.pcs|
    requires st.pcs[t] == if s in st.counts then Add(s, false) else Insert(s)
    requires s in st.counts ==> st.counts[s] < U32 && st.limit < U32
    ensures Reaches(start, st') && st'.pcs == st.pcs[t := Idle] && st'.limit == st.limit
    ensures st'.counts == Charged(st.counts, st.limit, s)
    ensures At(st'.admitted, s) == At(st.admitted, s) + (if Admits(st.counts, st.limit, s) then 1 else 0)
    ensures SamePast(st, st') && Answered(st, st', s, Admits(st.counts, st.limit, s))
  {
    if Admits(st.counts, st.limit, s) {
      st' := ConcludeAdmitted(start, st, t, s);
    } else {
      st' := Refuse(start, st, t, s);
      st' := Walk(start, st', t);
    }
  }

  /** One more caller of `s` has been answered, with `allowed`. */
  predicate Answered(st: State, st': State, s: Session, allowed: bool) {
    && st'.history.yes == (if allowed then Bump(st.history.yes, s) else st.history.yes)
    && st'.history.no == (if allowed then st.history.no else Bump(st.history.no, s))
  }

  /** A call that nobody interleaves with does, and answers, what CheckAndIncrement of the object does. */
  lemma {:induction false} SoloCall(start: State, st: State, t: nat, s: Session) returns (st': State)
    requires Reaches(start, st) && t < |st.pcs| && forall i :: 0 <= i < |st.pcs| ==> st.pcs[i].Idle?
    requires s in st.counts ==> st.counts[s] < U32 && st.limit < U32
    ensures Reaches(start, st') && st'.pcs == st.pcs && st'.limit == st.limit
    ensures st'.counts == Charged(st.counts, st.limit, s)
    ensures At(st'.admitted, s) == At(st.admitted, s) + (if Admits(st.counts, st.limit, s) then 1 else 0)
    ensures SamePast(st, st') && Answered(st, st', s, Admits(st.counts, st.limit, s))
  {
    st' := Decide(start, st, t, s);
    st' := Conclude(start, st', t, s);
  }

  /** One more call is admitted while the others are idle. */
  lemma {:induction false} AdmitOne(start: State, st: State, s: Session, k: nat) returns (st': State)
    requires Reaches(start, st) && Filled(st, s, k) && k < st.limit < U32 && |st.pcs| > 0
    ensures Reaches(start, st') && Filled(st', s, k + 1) && st'.limit == st.limit && |st'.pcs| == |st.pcs|
    ensures SamePast(st, st')
  {
    st' := SoloCall(start, st, 0, s);
  }

  lemma {:induction false} Fill(limit: nat, threads: nat, s: Session) returns (st: State)
    requires 1 <= limit < U32 && threads > 0
    ensures Reaches(Start(limit, threads), st) && Filled(st, s, limit) && st.limit == limit && |st.pcs| == threads
    ensures SamePast(Start(limit, threads), st)
  {
    st := Start(limit, threads);
    ReachesItself(st);
    var k := 0;
    while k < limit
      invariant k <= limit && Reaches(Start(limit, threads), st) && Filled(st, s, k) && st.limit == limit &&
        |st.pcs| == threads && SamePast(Start(limit, threads), st)
    {
      st := AdmitOne(Start(limit, threads), st, s, k);
      k := k + 1;
    }
  }

  /** The capacity is used up, `u` threads are about to undo and the rest are idle. */
  ghost predicate Crowded(st: State, s: Session, u: nat) {
    && u <= |st.pcs|
    && (forall i :: 0 <= i < |st.pcs| ==> st.pcs[i] == if i < u then Undo(s, false) else Idle)
    && s in st.counts && st.counts[s] == (st.limit + u) % U32 && At(st.admitted, s) == st.limit
  }

  lemma {:induction false} CrowdOne(start: State, st: State, s: Session, u: nat) returns (st': State)
    requires Reaches(start, st) && Crowded(st, s, u) && u < |st.pcs| && st.limit + u < U32
    ensures Reaches(start, st') && Crowded(st', s, u + 1) && st'.limit == st.limit && |st'.pcs| == |st.pcs|
    ensures SamePast(st, st')
  {
    var st1 := LooksUp(start, st, u, s);
    st' := Walk(start, st1, u);
    assert st'.pcs == st.pcs[u := Undo(s, false)];
    assert st'.counts[s] == Plus1(st.counts[s]);
    Wraps(st.limit + u);
  }

  /** If limit and pool exceed 32 bits together, enough refused threads waiting to undo wrap the
      counter round to zero, and one call more than the limit is answered yes. */
  lemma {:induction false} WrapAdmitsTooMany(limit: nat, threads: nat, s: Session) returns (st: State)
    requires 1 <= limit < U32 && limit + threads > U32
    ensures Reaches(Start(limit, threads), st) && s !in st.resets && At(st.history.yes, s) == limit + 1
  {
    var start := Start(limit, threads);
    st := Fill(limit, threads, s);
    var u := 0;
    while u < U32 - limit
      invariant u <= U32 - limit && Reaches(start, st) && Crowded(st, s, u) && st.limit == limit && |st.pcs| == threads
      invariant SamePast(start, st)
    {
      st := CrowdOne(start, st, s, u);
      u := u + 1;
    }
    st := AdmitWrapped(start, st, s, u);
    ReachedAnswers(start, st, s);
    NoneAnswering(st, s);
  }

  lemma {:induction false} AdmitWrapped(start: State, st: State, s: Session, u: nat) returns (st': State)
    requires 1 <= st.limit < U32 && u == U32 - st.limit && Reaches(start, st) && Crowded(st, s, u) && u < |st.pcs|
    ensures Reaches(start, st') && At(st'.admitted, s) == st.limit + 1 && SamePast(st, st')
    ensures forall i :: 0 <= i < |st'.pcs| ==> !st'.pcs[i].Done?
  {
    st' := Decide(start, st, u, s);
    st' := ConcludeAdmitted(start, st', u, s);
  }

  lemma {:induction false} NoneAnswering(st: State, s: Session)
    requires forall i :: 0 <= i < |st.pcs| ==> !st.pcs[i].Done?
    ensures forall b :: Count(st.pcs, Answering(s, b)) == 0
  {
    CountNone(st.pcs, Answering(s, true));
    CountNone(st.pcs, Answering(s, false));
  }

  /** Main result: the callers of a pool of threads get no more than the limit of yeses for each session,
      and the limit again for each reset of it, in any interleaving with calm resets, exactly if limit
      and pool size fit into 32 bits together. */
  lemma {:induction false} LimitHoldsIffPoolFits(limit: nat, threads: nat)
    requires 1 <= limit < U32
    ensures limit + threads <= U32 <==>
      forall st, s :: Reaches(Start(limit, threads), st) ==> At(st.history.yes, s) <= (At(st.resets, s) + 1) * limit
  {
    if limit + threads <= U32 {
      forall st, s | Reaches(Start(limit, threads), st) ensures At(st.history.yes, s) <= (At(st.resets, s) + 1) * limit
      {
        ReachedIsOk(limit, threads, st);
        ReachedAnswers(Start(limit, threads), st, s);
        OneMore(At(st.resets, s), limit);
        assert SessionOk(st, s) && PastOk(st, s) && Capacity(st, s) == limit;
      }
    } else {
      var st := WrapAdmitsTooMany(limit, threads, "");
    }
  }

  // ---------------------------------------------------------------- resets

  lemma {:induction false} ReachedIsOk(limit: nat, threads: nat, st: State)
    requires Fits(limit, threads) && Reaches(Start(limit, threads), st)
    ensures Inv(st) && st.limit == limit && (limit >= 1 ==> forall s :: PastOk(st, s))
  {
    var start := Start(limit, threads);
    var xs :| Runnable(start, xs) && CalmRun(start, xs) && Run(start, xs) == st;
    StartOk(limit, threads);
    RunKeepsInv(start, xs);
    if limit >= 1 {
      forall s ensures PastOk(st, s) {
        RunKeepsPast(start, xs, s);
      }
    }
  }

  /** No more than the limit was admitted since the reset, and a call is about to be refused only
      when that much was. */
  ghost predicate Exact(st: State, s: Session) {
    && At(st.admitted, s) <= st.limit
    && forall i :: 0 <= i < |st.pcs| && st.pcs[i].Add? && st.pcs[i].s == s && At(st.counts, s) >= st.limit ==>
        At(st.admitted, s) == st.limit
  }

  lemma {:induction false} OkIsExact(st: State, s: Session)
    requires Inv(st) && st.limit >= 1
    ensures Exact(st, s)
  {
    assert SessionOk(st, s);
    forall i | 0 <= i < |st.pcs| && st.pcs[i].Add? && st.pcs[i].s == s && At(st.counts, s) >= st.limit
      ensures At(st.admitted, s) == st.limit
    {
      CounterTells(st, i);
    }
  }

  /** The late undo wraps the counter below zero. */
  lemma {:induction false} LateUndo(start: State, st: State, t: nat, s: Session) returns (st': State)
    requires Reaches(start, st) && t < |st.pcs| && st.pcs[t] == Undo(s, false) && s in st.counts && st.counts[s] == 0
    ensures Reaches(start, st') && st'.pcs == st.pcs[t := Idle] && st'.limit == st.limit
    ensures st'.counts == st.counts[s := U32 - 1] && st'.admitted == st.admitted
  {
    st' := Walk(start, st, t);
    st' := Walk(start, st', t);
  }

  /** The thread whose undo came late calls again and finds the limit used up, with nothing admitted. */
  lemma {:induction false} LateUndoBlocks(st: State, t: nat, s: Session) returns (st': State)
    requires Inv(st) && st.limit >= 1 && s in st.counts && Enabled(st, Reset(s))
    requires t < |st.pcs| && st.pcs[t].Undo? && st.pcs[t].s == s
    ensures Reaches(Apply(st, Reset(s)), st') && !Exact(st', s)
  {
    var start := Apply(st, Reset(s));
    ReachesItself(start);
    st' := LateUndo(start, start, t, s);
    st' := Decide(start, st', t, s);
    assert st'.pcs[t] == Add(s, false) && At(st'.admitted, s) == 0;
  }

  /** Main result: in every reachable state, a reset leaves the session's limit exact in every
      continuation with calm resets if and only if no call of the session was about to undo. */
  lemma {:induction false} ResetIsExactIffCalm(limit: nat, threads: nat, st: State, s: Session)
    requires Fits(limit, threads) && limit >= 1 && Reaches(Start(limit, threads), st)
    requires s in st.counts && Enabled(st, Reset(s))
    ensures Calm(st, Reset(s)) <==> forall st' :: Reaches(Apply(st, Reset(s)), st') ==> Exact(st', s)
  {
    ReachedIsOk(limit, threads, st);
    var st1 := Apply(st, Reset(s));
    if Calm(st, Reset(s)) {
      ApplyKeepsInv(st, Reset(s));
      forall st' | Reaches(st1, st') ensures Exact(st', s) {
        var xs :| Runnable(st1, xs) && CalmRun(st1, xs) && Run(st1, xs) == st';
        RunKeepsInv(st1, xs);
        OkIsExact(st', s);
      }
    } else {
      if forall i :: 0 <= i < |st.pcs| ==> !Undoing(s)(st.pcs[i]) {
        CountNone(st.pcs, Undoing(s));
      }
      var t :| 0 <= t < |st.pcs| && Undoing(s)(st.pcs[t]);
      var st' := LateUndoBlocks(st, t, s);
    }
  }

  /** One more call admitted while nobody writes. */
  lemma {:induction false} AdmitAmong(start: State, st: State, t: nat, s: Session) returns (st': State)
    requires Reaches(start, st) && t < |st.pcs| && forall i :: 0 <= i < |st.pcs| ==> !WriteHeld(st.pcs[i])
    requires st.pcs[t].Idle? && s in st.counts && st.counts[s] < st.limit < U32
    ensures Reaches(start, st') && st'.pcs == st.pcs && st'.limit == st.limit
    ensures st'.counts == st.counts[s := st.counts[s] + 1] && At(st'.admitted, s) == At(st.admitted, s) + 1
  {
    st' := Decide(start, st, t, s);
    st' := ConcludeAdmitted(start, st', t, s);
  }

  /** The other way it fails: the limit is used up after the reset, the late undo takes one off the
      counter, and one call more than the limit is admitted. */
  lemma {:induction false} LateUndoOveradmits(st: State, t: nat, u: nat) returns (st': State)
    requires Inv(st) && st.limit >= 1 && t < |st.pcs| && u < |st.pcs|
    requires st.pcs[t].Undo? && st.pcs[u].Idle? && Enabled(st, Reset(st.pcs[t].s))
    ensures Reaches(Apply(st, Reset(st.pcs[t].s)), st') && At(st'.admitted, st.pcs[t].s) == st.limit + 1
  {
    var s := st.pcs[t].s;
    var start := Apply(st, Reset(s));
    assert FindsCounter(st.pcs[t], st.counts);
    ReachesItself(start);
    st' := start;
    var k := 0;
    while k < st.limit
      invariant k <= st.limit && Reaches(start, st') && st'.pcs == st.pcs && st'.limit == st.limit
      invariant s in st'.counts && st'.counts[s] == k && At(st'.admitted, s) == k
    {
      st' := AdmitAmong(start, st', u, s);
      k := k + 1;
    }
    st' := Walk(start, st', t);
    st' := AdmitAmong(start, st', u, s);
  }
}
