// How a caller waiting on the bridge can still end, in every reachable state: with the
// worker's word, by its own timeout, or abandoned by a close.

module DockerAnswers {
  import opened DockerBridge
  import opened DockerWire
  import opened Prelude

  // ---------------------------------------------------------------- how waiting callers end

  /** Sent, registered and unanswered. */
  predicate Unanswered(st: State, c: CallerId) {
    c in st.callers && st.callers[c].pc.Waiting? && st.callers[c].slot.None? && st.callers[c].pc.l in st.links
  }

  function WireOf(st: State, c: CallerId): Wire
    requires Unanswered(st, c)
  {
    st.links[st.callers[c].pc.l].wire
  }

  /** run() reads the link's messages, or can still come to. */
  predicate Reads(st: State, l: LinkId)
    requires l in st.links
  {
    match st.links[l].reader
    case Ready => st.current == Some(l)
    case Opening => true
    case Reading => true
    case _ => false
  }

  /** A close that took the link and has yet to drain its registrations. */
  predicate Closes(pc: Pc, l: LinkId) {
    (pc.CloseTaken? || pc.CloseAllocated? || pc.CloseSent? || pc.CloseKilled?) && pc.l == l
  }

  ghost predicate CloseHolds(st: State, l: LinkId) {
    exists d :: d in st.callers && Closes(st.callers[d].pc, l)
  }

  /** The ways in which an unanswered caller of command `id` on link `l` can still end: by its timeout;
      as abandoned, if a close has taken the link or can; as the worker says, if the acknowledgement can
      still come and be read. */
  ghost predicate Possible(st: State, l: LinkId, id: Id, a: Answer)
    requires l in st.links
  {
    match a
    case TimedOut => true
    case Abandoned => st.current == Some(l) || CloseHolds(st, l)
    case Acked => Reads(st, l) && Deliverable(st.links[l].wire, Cmd(id, false), true)
    case Refused => Reads(st, l) && Deliverable(st.links[l].wire, Cmd(id, false), false)
    case _ => false
  }

  /** The caller ends, if at all, with one of these answers. */
  predicate EndsWithin(k: Caller, id: Id, l: LinkId, allowed: set<Answer>) {
    match k.pc
    case Waiting(i, m) => i == id && m == l && (k.slot == None || k.slot.value in allowed)
    case TimingOut(i, m) => i == id && m == l
    case Done(i, at, a) => i == id && at == Some(l) && a in allowed
    case _ => false
  }

  /** All that is possible is allowed. */
  ghost predicate Allows(st: State, c: CallerId, id: Id, l: LinkId, allowed: set<Answer>) {
    && c in st.callers && l in st.links && EndsWithin(st.callers[c], id, l, allowed) && TimedOut in allowed
    && (Unanswered(st, c) ==> forall a :: Possible(st, l, id, a) ==> a in allowed)
  }

  ghost predicate Expects(st: State, c: CallerId, id: Id, l: LinkId, allowed: set<Answer>) {
    Inv(st) && ReadersOk(st) && Allows(st, c, id, l, allowed)
  }

  lemma {:induction false} WaiterIsRegistered(st: State, c: CallerId)
    requires Inv(st) && Unanswered(st, c)
    ensures var pc := st.callers[c].pc;
      pc.id in st.links[pc.l].pending && st.links[pc.l].pending[pc.id] == c
  {
    assert CallerOk(st, c, st.callers[c]);
  }

  /** A caller waits on one link for one command. */
  lemma {:induction false} RegisteredOnce(st: State, c: CallerId, m: LinkId, i: Id)
    requires Inv(st) && c in st.callers && st.callers[c].pc.Waiting?
    requires m in st.links && i in st.links[m].pending && st.links[m].pending[i] == c
    ensures m == st.callers[c].pc.l && i == st.callers[c].pc.id
  {
    assert LinkOk(st, m, st.links[m]);
  }

  // ---------------------------------------------------------------- nothing becomes possible

  lemma {:induction false} ApplyReads(st: State, x: Action, l: LinkId)
    requires Enabled(st, x) && l in st.links && l in Apply(st, x).links && Reads(Apply(st, x), l)
    ensures Reads(st, l)
  {
    if x.Advance? {
      AdvanceKeepsReaders(st, x.c);
    }
  }

  /** Only a close taking the current connection begins to hold a link. */
  lemma {:induction false} AdvanceTakesNoLink(st: State, d: CallerId, l: LinkId)
    requires Enabled(st, Advance(d)) && CloseHolds(AdvanceCaller(st, d), l)
    ensures CloseHolds(st, l)
  {
    var st' := AdvanceCaller(st, d);
    var e :| e in st'.callers && Closes(st'.callers[e].pc, l);
    if !st.callers[d].pc.CloseKilled? {
      AdvanceMovesOnePc(st, d);
    }
    assert Closes(st.callers[e].pc, l);
  }

  lemma {:induction false} ReadKeepsPcs(st: State, m: LinkId)
    requires Enabled(st, ReaderReads(m))
    ensures var st' := ReadOne(st, m);
      && st'.callers.Keys == st.callers.Keys && st'.current == st.current
      && forall e :: e in st.callers ==> st'.callers[e].pc == st.callers[e].pc
  {
  }

  lemma {:induction false} OtherActionCloses(st: State, x: Action, l: LinkId)
    requires Enabled(st, x) && !x.Advance? && !x.ReaderReads? && l in st.links
    requires Apply(st, x).current == Some(l) || CloseHolds(Apply(st, x), l)
    ensures st.current == Some(l) || CloseHolds(st, l)
  {
    if e :| e in Apply(st, x).callers && Closes(Apply(st, x).callers[e].pc, l) {
      assert x == BeginClose(e) || (e in st.callers && Closes(st.callers[e].pc, l));
    }
  }

  lemma {:induction false} ApplyCloses(st: State, x: Action, l: LinkId)
    requires Enabled(st, x) && l in st.links
    requires Apply(st, x).current == Some(l) || CloseHolds(Apply(st, x), l)
    ensures st.current == Some(l) || CloseHolds(st, l)
  {
    if x.Advance? {
      AdvanceKeepsReaders(st, x.c);
      if CloseHolds(Apply(st, x), l) {
        AdvanceTakesNoLink(st, x.c, l);
      }
    } else if x.ReaderReads? {
      ReadKeepsPcs(st, x.l);
      if e :| e in Apply(st, x).callers && Closes(Apply(st, x).callers[e].pc, l) {
        assert Closes(st.callers[e].pc, l);
      }
    } else {
      OtherActionCloses(st, x, l);
    }
  }

  /** What a caller's step does to a wire: it may send, or kill the worker. */
  lemma {:induction false} AdvanceWires(st: State, d: CallerId, l: LinkId)
    requires Enabled(st, Advance(d)) && l in st.links
    ensures var (pc, w, w') := (st.callers[d].pc, st.links[l].wire, AdvanceCaller(st, d).links[l].wire);
      || w' == w || w' == Killed(w)
      || (pc.Registered? && w' == Sent(w, Cmd(pc.id, false)))
      || (pc.CloseAllocated? && w' == Sent(w, Cmd(pc.id, true)))
  {
  }

  lemma {:induction false} AdvanceDelivers(st: State, d: CallerId, c: CallerId, ok: bool)
    requires Inv(st) && Enabled(st, Advance(d)) && Unanswered(st, c)
    requires var pc := st.callers[c].pc; Deliverable(AdvanceCaller(st, d).links[pc.l].wire, Cmd(pc.id, false), ok)
    ensures var pc := st.callers[c].pc; Deliverable(st.links[pc.l].wire, Cmd(pc.id, false), ok)
  {
    var (pc, mine) := (st.callers[d].pc, st.callers[c].pc);
    assert CallerOk(st, c, st.callers[c]) && CallerOk(st, d, st.callers[d]);
    AdvanceWires(st, d, mine.l);
    if pc.Registered? {
      assert pc.id != mine.id;
      if AdvanceCaller(st, d).links[mine.l].wire == Sent(st.links[mine.l].wire, Cmd(pc.id, false)) {
        SentDelivers(st.links[mine.l].wire, Cmd(pc.id, false), Cmd(mine.id, false), ok);
      }
    } else if pc.CloseAllocated? {
      if AdvanceCaller(st, d).links[mine.l].wire == Sent(st.links[mine.l].wire, Cmd(pc.id, true)) {
        SentDelivers(st.links[mine.l].wire, Cmd(pc.id, true), Cmd(mine.id, false), ok);
      }
    }
  }

  lemma {:induction false} OtherActionWires(st: State, x: Action, l: LinkId)
    requires Enabled(st, x) && !x.Advance? && l in st.links
    ensures l in Apply(st, x).links
    ensures var (w, w') := (st.links[l].wire, Apply(st, x).links[l].wire);
      || w' == w
      || (x.WireMoves? && x.l == l && w' == StepWire(w, x.x))
      || (x.ReaderReads? && x.l == l && w' == StepWire(w, Read))
  {
    match x
    case Connect(_) =>
    case Begin(_) =>
    case BeginClose(_) =>
    case TimeOut(_) =>
    case WireMoves(_, _) =>
    case RunBegins(_) =>
    case ReaderStarts(_) =>
    case ReaderReads(_) =>
    case ReaderStops(_) =>
    case ReaderClears(_) =>
    case ReaderFails(_) =>
  }

  lemma {:induction false} OtherActionDelivers(st: State, x: Action, l: LinkId, cmd: Cmd, ok: bool)
    requires Inv(st) && Enabled(st, x) && !x.Advance? && l in st.links && l in Apply(st, x).links
    requires Deliverable(Apply(st, x).links[l].wire, cmd, ok)
    ensures Deliverable(st.links[l].wire, cmd, ok)
  {
    assert LinkOk(st, l, st.links[l]);
    OtherActionWires(st, x, l);
    if Apply(st, x).links[l].wire != st.links[l].wire {
      StepDelivers(st.links[l].wire, if x.WireMoves? then x.x else Read, cmd, ok);
    }
  }

  lemma {:induction false} ApplyDelivers(st: State, x: Action, c: CallerId, ok: bool)
    requires Inv(st) && Enabled(st, x) && Unanswered(st, c) && st.callers[c].pc.l in Apply(st, x).links
    requires var pc := st.callers[c].pc; Deliverable(Apply(st, x).links[pc.l].wire, Cmd(pc.id, false), ok)
    ensures var pc := st.callers[c].pc; Deliverable(st.links[pc.l].wire, Cmd(pc.id, false), ok)
  {
    var pc := st.callers[c].pc;
    if x.Advance? {
      AdvanceDelivers(st, x.c, c, ok);
    } else {
      OtherActionDelivers(st, x, pc.l, Cmd(pc.id, false), ok);
    }
  }

  lemma {:induction false} NothingBecomesPossible(st: State, x: Action, c: CallerId, a: Answer)
    requires Inv(st) && Enabled(st, x) && Unanswered(st, c) && st.callers[c].pc.l in Apply(st, x).links
    requires Possible(Apply(st, x), st.callers[c].pc.l, st.callers[c].pc.id, a)
    ensures Possible(st, st.callers[c].pc.l, st.callers[c].pc.id, a)
  {
    var l := st.callers[c].pc.l;
    match a
    case TimedOut =>
    case Abandoned => ApplyCloses(st, x, l);
    case Acked =>
      ApplyReads(st, x, l);
      ApplyDelivers(st, x, c, true);
    case Refused =>
      ApplyReads(st, x, l);
      ApplyDelivers(st, x, c, false);
    case _ =>
  }

  // ---------------------------------------------------------------- nobody ends otherwise

  /** Who is answered by a message was waiting for that very acknowledgement. */
  lemma {:induction false} AnswerWasPossible(st: State, m: LinkId, c: CallerId)
    requires Inv(st) && Enabled(st, ReaderReads(m)) && Unanswered(st, c)
    requires m in st.links && st.links[m].wire.messages != []
    requires var k := st.links[m];
      && k.wire.messages[0].Ack? && k.wire.messages[0].report.cmd.id in k.pending
      && k.pending[k.wire.messages[0].report.cmd.id] == c
    ensures var (pc, r) := (st.callers[c].pc, st.links[m].wire.messages[0].report);
      pc.l == m && pc.id == r.cmd.id && Possible(st, m, pc.id, if r.ok then Acked else Refused)
  {
    var w := st.links[m].wire;
    RegisteredOnce(st, c, m, w.messages[0].report.cmd.id);
    assert Unread(w.messages)[0] == w.messages[0].report;
    if w.messages[0].report.cmd.closing {
      CloseIsUnregistered(st, m);
    }
  }

  lemma {:induction false} ReadEndsWithin(st: State, m: LinkId, c: CallerId, id: Id, l: LinkId, allowed: set<Answer>)
    requires Expects(st, c, id, l, allowed) && Enabled(st, ReaderReads(m))
    ensures c in ReadOne(st, m).callers && EndsWithin(ReadOne(st, m).callers[c], id, l, allowed)
  {
    var (k, head) := (st.links[m], st.links[m].wire.messages[0]);
    if head.Ack? && head.report.cmd.id in k.pending && k.pending[head.report.cmd.id] == c {
      PendingUnanswered(st, m, head.report.cmd.id);
      ReadAnswers(st, m);
      if st.callers[c].pc.Waiting? {
        AnswerWasPossible(st, m, c);
      }
    } else {
      OthersUnread(st, m, c);
    }
  }

  /** Failing every waiter of link `m` reaches a caller of link `l` only if the links are the same. */
  lemma {:induction false} FailAllEndsWithin(st: State, m: LinkId, c: CallerId, id: Id, l: LinkId, allowed: set<Answer>)
    requires Expects(st, c, id, l, allowed) && m in st.links && (m == l ==> CloseHolds(st, l))
    ensures EndsWithin(FailAll(st, m).callers[c], id, l, allowed)
  {
    if c in st.links[m].pending.Values && st.callers[c].pc.Waiting? {
      var i :| i in st.links[m].pending && st.links[m].pending[i] == c;
      RegisteredOnce(st, c, m, i);
      assert CallerOk(st, c, st.callers[c]);
      assert Possible(st, l, id, Abandoned);
    }
  }

  lemma {:induction false} AdvanceEndsWithin(
    st: State, d: CallerId, c: CallerId, id: Id, l: LinkId, allowed: set<Answer>)
    requires Expects(st, c, id, l, allowed) && Enabled(st, Advance(d))
    ensures c in AdvanceCaller(st, d).callers && EndsWithin(AdvanceCaller(st, d).callers[c], id, l, allowed)
  {
    var pc := st.callers[d].pc;
    if pc.CloseKilled? {
      if pc.l == l {
        assert Closes(pc, l);
      }
      FailAllEndsWithin(st, pc.l, c, id, l, allowed);
    } else {
      AdvanceMovesOnePc(st, d);
    }
  }

  /** Of the other actions only its own timeout touches a caller. */
  lemma {:induction false} OtherActionCaller(st: State, x: Action, c: CallerId)
    requires ReadersOk(st) && Enabled(st, x) && !x.Advance? && !x.ReaderReads? && c in st.callers
    ensures c in Apply(st, x).callers
    ensures Apply(st, x).callers[c] ==
      if x == TimeOut(c) then Caller(TimingOut(st.callers[c].pc.id, st.callers[c].pc.l), st.callers[c].slot)
      else st.callers[c]
  {
    match x
    case Connect(_) =>
    case Begin(_) =>
    case BeginClose(_) =>
    case TimeOut(_) =>
    case WireMoves(_, _) =>
    case RunBegins(_) =>
    case ReaderStarts(_) =>
    case ReaderStops(_) =>
    case ReaderClears(_) =>
    case ReaderFails(_) =>
  }

  lemma {:induction false} ApplyEndsWithin(st: State, x: Action, c: CallerId, id: Id, l: LinkId, allowed: set<Answer>)
    requires Expects(st, c, id, l, allowed) && Enabled(st, x)
    ensures c in Apply(st, x).callers && EndsWithin(Apply(st, x).callers[c], id, l, allowed)
  {
    if x.Advance? {
      AdvanceEndsWithin(st, x.c, c, id, l, allowed);
    } else if x.ReaderReads? {
      ReadEndsWithin(st, x.l, c, id, l, allowed);
    } else {
      OtherActionCaller(st, x, c);
    }
  }

  /** Who is unanswered after a step was unanswered before it. */
  lemma {:induction false} WasUnanswered(st: State, x: Action, c: CallerId, id: Id, l: LinkId, allowed: set<Answer>)
    requires Expects(st, c, id, l, allowed) && Enabled(st, x) && Unanswered(Apply(st, x), c)
    ensures Unanswered(st, c) && st.callers[c].pc == Apply(st, x).callers[c].pc
  {
    if x.Advance? {
      if !st.callers[x.c].pc.CloseKilled? {
        AdvanceMovesOnePc(st, x.c);
      }
    } else if x.ReaderReads? {
      ReadKeepsPcs(st, x.l);
      ReadSettles(st, x.l, c);
    } else {
      OtherActionCaller(st, x, c);
    }
  }

  lemma {:induction false} LinksStay(st: State, x: Action, l: LinkId)
    requires Enabled(st, x) && l in st.links
    ensures l in Apply(st, x).links
  {
    if x.Advance? {
      AdvanceKeepsReaders(st, x.c);
    } else {
      OtherActionWires(st, x, l);
    }
  }

  lemma {:induction false} ApplyKeepsExpects(st: State, x: Action, c: CallerId, id: Id, l: LinkId, allowed: set<Answer>)
    requires Expects(st, c, id, l, allowed) && Enabled(st, x)
    ensures Expects(Apply(st, x), c, id, l, allowed)
  {
    ApplyKeepsInv(st, x);
    ApplyKeepsReaders(st, x);
    LinksStay(st, x, l);
    ApplyEndsWithin(st, x, c, id, l, allowed);
    if Unanswered(Apply(st, x), c) {
      WasUnanswered(st, x, c, id, l, allowed);
      forall a | Possible(Apply(st, x), l, id, a) ensures a in allowed {
        NothingBecomesPossible(st, x, c, a);
      }
    }
  }

  lemma {:induction false} RunKeepsExpects(
    st: State, xs: seq<Action>, c: CallerId, id: Id, l: LinkId, allowed: set<Answer>)
    requires Expects(st, c, id, l, allowed) && Runnable(st, xs)
    ensures Expects(Run(st, xs), c, id, l, allowed)
    decreases |xs|
  {
    if xs != [] {
      ApplyKeepsExpects(st, xs[0], c, id, l, allowed);
      RunKeepsExpects(Apply(st, xs[0]), xs[1..], c, id, l, allowed);
    }
  }

  // ---------------------------------------------------------------- each way is open

  lemma {:induction false} RunsOne(st: State, x: Action, ys: seq<Action>)
    requires Enabled(st, x) && Runnable(Apply(st, x), ys)
    ensures Runnable(st, [x] + ys) && Run(st, [x] + ys) == Run(Apply(st, x), ys)
  {
    assert ([x] + ys)[1..] == ys;
  }

  function StepsLeft(pc: Pc): nat {
    if pc.CloseTaken? then 3 else if pc.CloseAllocated? then 2 else if pc.CloseSent? then 1 else 0
  }

  /** A close that holds the link goes on to abandon whoever waits there. */
  lemma {:induction false} CloseAbandons(st: State, d: CallerId, c: CallerId) returns (ys: seq<Action>)
    requires Inv(st) && Unanswered(st, c)
    requires d in st.callers && Closes(st.callers[d].pc, st.callers[c].pc.l)
    ensures Runnable(st, ys) && c in Run(st, ys).callers
    ensures Run(st, ys).callers[c] == st.callers[c].(slot := Some(Abandoned))
    decreases StepsLeft(st.callers[d].pc)
  {
    assert CallerOk(st, d, st.callers[d]) && CallerOk(st, c, st.callers[c]);
    var st1 := AdvanceCaller(st, d);
    if st.callers[d].pc.CloseKilled? {
      assert st.links[st.callers[c].pc.l].pending[st.callers[c].pc.id] == c;
      RunsOne(st, Advance(d), []);
      ys := [Advance(d)] + [];
    } else {
      AdvanceMovesOnePc(st, d);
      AdvanceKeeps(st, d);
      ys := CloseAbandons(st1, d, c);
      RunsOne(st, Advance(d), ys);
      ys := [Advance(d)] + ys;
    }
  }

  /** Whether the caller can be told `a` in some continuation. */
  ghost predicate CanEndWith(st: State, c: CallerId, a: Answer) {
    exists ys :: Runnable(st, ys) && EndedWith(Run(st, ys), c, a)
  }

  predicate EndedWith(st: State, c: CallerId, a: Answer) {
    c in st.callers && st.callers[c].pc.Done? && st.callers[c].pc.answer == a
  }

  lemma {:induction false} TimesOut(st: State, c: CallerId)
    requires c in st.callers && st.callers[c].pc.TimingOut? && st.callers[c].pc.l in st.links
    ensures Runnable(st, [Advance(c)]) && EndedWith(Run(st, [Advance(c)]), c, TimedOut)
  {
    RunsOne(st, Advance(c), []);
    assert [Advance(c)] + [] == [Advance(c)];
  }

  lemma {:induction false} CanTimeOut(st: State, c: CallerId)
    requires Inv(st) && Unanswered(st, c)
    ensures CanEndWith(st, c, TimedOut)
  {
    TimesOut(Apply(st, TimeOut(c)), c);
    RunsOne(st, TimeOut(c), [Advance(c)]);
  }

  /** Once its slot holds an answer the caller can take it. */
  lemma {:induction false} AnsweredCanEnd(st: State, c: CallerId, a: Answer, ys: seq<Action>)
    requires Inv(st) && Unanswered(st, c) && Runnable(st, ys) && c in Run(st, ys).callers
    requires Run(st, ys).callers[c] == st.callers[c].(slot := Some(a))
    ensures CanEndWith(st, c, a)
  {
    RunKeepsInv(st, ys);
    TakesAnswer(Run(st, ys), c, a);
    RunsTogether(st, ys, [Advance(c)]);
  }

  /** A caller that does not exist yet. */
  lemma {:induction false} NewCaller(cs: set<CallerId>) returns (d: CallerId)
    ensures forall c :: c in cs ==> c < d
    decreases |cs|
  {
    d := 0;
    if cs != {} {
      var c :| c in cs;
      var e := NewCaller(cs - {c});
      d := if c < e then e else c + 1;
      forall b | b in cs ensures b < d {
        assert b == c || b in cs - {c};
      }
    }
  }

  lemma {:induction false} CanBeAbandoned(st: State, c: CallerId)
    requires Inv(st) && Unanswered(st, c) && Possible(st, st.callers[c].pc.l, st.callers[c].pc.id, Abandoned)
    ensures CanEndWith(st, c, Abandoned)
  {
    var l := st.callers[c].pc.l;
    if CloseHolds(st, l) {
      var d :| d in st.callers && Closes(st.callers[d].pc, l);
      var ys := CloseAbandons(st, d, c);
      AnsweredCanEnd(st, c, Abandoned, ys);
    } else {
      var d := NewCaller(st.callers.Keys);
      var st1 := Apply(st, BeginClose(d));
      ApplyKeepsInv(st, BeginClose(d));
      var ys := CloseAbandons(st1, d, c);
      RunsOne(st, BeginClose(d), ys);
      AnsweredCanEnd(st, c, Abandoned, [BeginClose(d)] + ys);
    }
  }

  lemma {:induction false} TakesAnswer(st: State, c: CallerId, a: Answer)
    requires Inv(st) && c in st.callers && st.callers[c].pc.Waiting? && st.callers[c].slot == Some(a)
    ensures Runnable(st, [Advance(c)]) && EndedWith(Run(st, [Advance(c)]), c, a)
  {
    assert CallerOk(st, c, st.callers[c]);
    RunsOne(st, Advance(c), []);
    assert [Advance(c)] + [] == [Advance(c)];
  }

  lemma {:induction false} RunsTogether(st: State, xs: seq<Action>, ys: seq<Action>)
    requires Runnable(st, xs) && Runnable(Run(st, xs), ys)
    ensures Runnable(st, xs + ys) && Run(st, xs + ys) == Run(Run(st, xs), ys)
    decreases |xs|
  {
    if xs == [] {
      assert xs + ys == ys;
    } else {
      RunsTogether(Apply(st, xs[0]), xs[1..], ys);
      assert (xs + ys)[1..] == xs[1..] + ys;
    }
  }

  /** Brings run() to the point where it reads the link. */
  lemma {:induction false} ReadsOn(st: State, l: LinkId) returns (ys: seq<Action>)
    requires ReadersOk(st) && l in st.links && Reads(st, l)
    ensures Runnable(st, ys) && Run(st, ys) == SetLink(st, l, st.links[l].(reader := Reading))
  {
    var k := st.links[l];
    var opening := SetLink(st, l, k.(reader := Opening));
    var reading := SetLink(st, l, k.(reader := Reading));
    RunsOne(opening, ReaderStarts(l), []);
    assert Apply(opening, ReaderStarts(l)).links == reading.links;
    ys := [];
    if k.reader.Opening? {
      assert opening.links == st.links;
      ys := [ReaderStarts(l)] + [];
    } else if k.reader.Ready? {
      assert Apply(st, RunBegins(l)) == opening;
      RunsOne(st, RunBegins(l), [ReaderStarts(l)] + []);
      ys := [RunBegins(l)] + ([ReaderStarts(l)] + []);
    } else {
      assert reading.links == st.links;
    }
  }

  /** The message at the head, if it is not the one the caller waits for, is nothing to the caller. */
  lemma {:induction false} HeadIsAnothers(st: State, c: CallerId, ok: bool)
    requires Inv(st) && Unanswered(st, c) && WireOf(st, c).messages != [] && WireOf(st, c).messages[0].Ack?
    requires var wanted := Report(Cmd(st.callers[c].pc.id, false), ok);
      wanted in Unread(WireOf(st, c).messages) && WireOf(st, c).messages[0] != Ack(wanted)
    ensures var (k, r) := (st.links[st.callers[c].pc.l], WireOf(st, c).messages[0].report);
      r.cmd.id in k.pending ==> k.pending[r.cmd.id] != c
  {
    var (pc, w) := (st.callers[c].pc, WireOf(st, c));
    var (wanted, r) := (Report(Cmd(pc.id, false), ok), w.messages[0].report);
    assert LinkOk(st, pc.l, st.links[pc.l]);
    UnreadDistinct(w);
    assert Unread(w.messages)[0] == r && Cmds(Unread(w.messages))[0] == r.cmd;
    var k :| 0 <= k < |Unread(w.messages)| && Unread(w.messages)[k] == wanted;
    assert Cmds(Unread(w.messages))[k].id == pc.id;
    if r.cmd.id in st.links[pc.l].pending && st.links[pc.l].pending[r.cmd.id] == c {
      RegisteredOnce(st, c, pc.l, r.cmd.id);
    }
  }

  /** The reader takes a message that is not the one the caller waits for. */
  lemma {:induction false} ReadsAnother(st: State, c: CallerId, ok: bool)
    requires Inv(st) && Unanswered(st, c) && Enabled(st, ReaderReads(st.callers[c].pc.l))
    requires var wanted := Report(Cmd(st.callers[c].pc.id, false), ok);
      wanted in Unread(WireOf(st, c).messages) && WireOf(st, c).messages[0] != Ack(wanted)
    ensures var (pc, st') := (st.callers[c].pc, Apply(st, ReaderReads(st.callers[c].pc.l)));
      && c in st'.callers && st'.callers[c] == st.callers[c] && Unanswered(st', c)
      && st'.links[pc.l].reader == st.links[pc.l].reader
      && WireOf(st', c).messages == WireOf(st, c).messages[1..]
      && Report(Cmd(pc.id, false), ok) in Unread(WireOf(st', c).messages)
  {
    var l := st.callers[c].pc.l;
    if WireOf(st, c).messages[0].Ack? {
      HeadIsAnothers(st, c, ok);
    }
    ReadTakesMessage(st, l);
    OthersUnread(st, l, c);
  }

  /** A message answers at most the caller registered for it. */
  lemma {:induction false} OthersUnread(st: State, l: LinkId, c: CallerId)
    requires Enabled(st, ReaderReads(l)) && c in st.callers
    requires var (k, m) := (st.links[l], st.links[l].wire.messages[0]);
      m.Ack? && m.report.cmd.id in k.pending ==> k.pending[m.report.cmd.id] != c
    ensures c in ReadOne(st, l).callers && ReadOne(st, l).callers[c] == st.callers[c]
  {
  }

  lemma {:induction false} ReadsIt(st: State, c: CallerId, ok: bool)
    requires Inv(st) && Unanswered(st, c) && Enabled(st, ReaderReads(st.callers[c].pc.l))
    requires var (pc, w) := (st.callers[c].pc, st.links[st.callers[c].pc.l].wire);
      w.messages[0] == Ack(Report(Cmd(pc.id, false), ok))
    ensures var st' := Apply(st, ReaderReads(st.callers[c].pc.l));
      c in st'.callers && st'.callers[c] == st.callers[c].(slot := Some(if ok then Acked else Refused))
  {
    WaiterIsRegistered(st, c);
  }

  /** A step of the link's wire leaves the caller waiting. */
  lemma {:induction false} WireGoesOn(st: State, c: CallerId, step: WireStep)
    requires Inv(st) && Unanswered(st, c) && !step.Read? && CanStep(WireOf(st, c), step)
    ensures var x := WireMoves(st.callers[c].pc.l, step);
      && Enabled(st, x) && Inv(Apply(st, x)) && Unanswered(Apply(st, x), c)
      && Apply(st, x).callers == st.callers && WireOf(Apply(st, x), c) == StepWire(WireOf(st, c), step)
      && Apply(st, x).links[x.l].reader == st.links[x.l].reader
  {
    ApplyKeepsInv(st, WireMoves(st.callers[c].pc.l, step));
  }

  /** The worker runs the command with this outcome and the reader gets to the acknowledgement. */
  lemma {:induction false} Deliver(st: State, c: CallerId, ok: bool) returns (ys: seq<Action>)
    requires Inv(st) && Unanswered(st, c) && st.links[st.callers[c].pc.l].reader.Reading?
    requires Deliverable(WireOf(st, c), Cmd(st.callers[c].pc.id, false), ok)
    ensures Runnable(st, ys) && c in Run(st, ys).callers
    ensures Run(st, ys).callers[c] == st.callers[c].(slot := Some(if ok then Acked else Refused))
    decreases |WireOf(st, c).channel|, |WireOf(st, c).pipe|, |WireOf(st, c).busy|, |WireOf(st, c).messages|
  {
    var pc := st.callers[c].pc;
    if Report(Cmd(pc.id, false), ok) in Unread(WireOf(st, c).messages) {
      ys := DeliverUnread(st, c, ok);
    } else {
      assert LinkOk(st, pc.l, st.links[pc.l]);
      var step := Progress(WireOf(st, c), Cmd(pc.id, false), ok);
      WireGoesOn(st, c, step);
      ys := Deliver(Apply(st, WireMoves(pc.l, step)), c, ok);
      RunsOne(st, WireMoves(pc.l, step), ys);
      ys := [WireMoves(pc.l, step)] + ys;
    }
  }

  lemma {:induction false} DeliverUnread(st: State, c: CallerId, ok: bool) returns (ys: seq<Action>)
    requires Inv(st) && Unanswered(st, c) && st.links[st.callers[c].pc.l].reader.Reading?
    requires Report(Cmd(st.callers[c].pc.id, false), ok) in Unread(WireOf(st, c).messages)
    ensures Runnable(st, ys) && c in Run(st, ys).callers
    ensures Run(st, ys).callers[c] == st.callers[c].(slot := Some(if ok then Acked else Refused))
    decreases |WireOf(st, c).messages|
  {
    var x := ReaderReads(st.callers[c].pc.l);
    if WireOf(st, c).messages[0] == Ack(Report(Cmd(st.callers[c].pc.id, false), ok)) {
      ReadsIt(st, c, ok);
      ys := [];
    } else {
      ReadsAnother(st, c, ok);
      ApplyKeepsInv(st, x);
      ys := DeliverUnread(Apply(st, x), c, ok);
    }
    RunsOne(st, x, ys);
    ys := [x] + ys;
  }

  lemma {:induction false} CanBeTold(st: State, c: CallerId, ok: bool)
    requires Inv(st) && ReadersOk(st) && Unanswered(st, c)
    requires Possible(st, st.callers[c].pc.l, st.callers[c].pc.id, if ok then Acked else Refused)
    ensures CanEndWith(st, c, if ok then Acked else Refused)
  {
    var l := st.callers[c].pc.l;
    var ys := ReadsOn(st, l);
    RunKeepsInv(st, ys);
    var zs := Deliver(Run(st, ys), c, ok);
    RunsTogether(st, ys, zs);
    AnsweredCanEnd(st, c, if ok then Acked else Refused, ys + zs);
  }

  // ---------------------------------------------------------------- main results

  /** Main result: in every reachable state, the ways in which a waiting, unanswered caller can still end
      are exactly those that are possible: by its own timeout always; as abandoned if and only if a close
      has taken the link or can still take it; and with the worker's success or failure if and only if
      run() reads the link or can come to, and the acknowledgement is unread, about to be made, or the
      command is in the queue of a worker that has no Close to run before it. */
  lemma {:induction false} WaiterEnds(xs: seq<Action>, c: CallerId, a: Answer)
    requires Runnable(START, xs) && Unanswered(Run(START, xs), c)
    ensures var st := Run(START, xs);
      CanEndWith(st, c, a) <==> Possible(st, st.callers[c].pc.l, st.callers[c].pc.id, a)
  {
    RunKeepsInv(START, xs);
    RunKeepsReaders(START, xs);
    var st := Run(START, xs);
    var pc := st.callers[c].pc;
    if Possible(st, pc.l, pc.id, a) {
      match a
      case TimedOut => CanTimeOut(st, c);
      case Abandoned => CanBeAbandoned(st, c);
      case Acked => CanBeTold(st, c, true);
      case Refused => CanBeTold(st, c, false);
      case _ =>
    }
    if CanEndWith(st, c, a) {
      EndsAsPossible(st, c, a);
    }
  }

  lemma {:induction false} ExpectsPossible(st: State, c: CallerId)
    requires Inv(st) && ReadersOk(st) && Unanswered(st, c)
    ensures var pc := st.callers[c].pc; Expects(st, c, pc.id, pc.l, PossibleSet(st, pc.l, pc.id))
  {
    var pc := st.callers[c].pc;
    var allowed := PossibleSet(st, pc.l, pc.id);
    assert TimedOut in allowed;
    assert Allows(st, c, pc.id, pc.l, allowed);
  }

  lemma {:induction false} ExpectedEnds(st: State, c: CallerId, id: Id, l: LinkId, allowed: set<Answer>, a: Answer)
    requires Expects(st, c, id, l, allowed) && EndedWith(st, c, a)
    ensures a in allowed
  {
  }

  lemma {:induction false} EndsAsPossible(st: State, c: CallerId, a: Answer)
    requires Inv(st) && ReadersOk(st) && Unanswered(st, c) && CanEndWith(st, c, a)
    ensures Possible(st, st.callers[c].pc.l, st.callers[c].pc.id, a)
  {
    var pc := st.callers[c].pc;
    var allowed := PossibleSet(st, pc.l, pc.id);
    var ys :| Runnable(st, ys) && EndedWith(Run(st, ys), c, a);
    ExpectsPossible(st, c);
    RunKeepsExpects(st, ys, c, pc.id, pc.l, allowed);
    ExpectedEnds(Run(st, ys), c, pc.id, pc.l, allowed, a);
  }

  ghost function PossibleSet(st: State, l: LinkId, id: Id): (r: set<Answer>)
    requires l in st.links
    ensures forall a :: a in r <==> Possible(st, l, id, a)
  {
    set a | a in {Acked, Refused, TimedOut, Abandoned} && Possible(st, l, id, a)
  }

  /** Waiting, unanswered, on a link whose run() has cleared the connection or returned. */
  predicate LeftWaiting(st: State, c: CallerId) {
    Unanswered(st, c) && var r := st.links[st.callers[c].pc.l].reader; r.Failing? || r.Ended?
  }

  /** Main result: so a caller left waiting on a connection that run() has given up can still end in exactly
      these ways: by its own timeout, always, and as abandoned if and only if a close took that connection
      and has not drained it yet. */
  lemma {:induction false} LeftWaiterEnds(xs: seq<Action>, c: CallerId, a: Answer)
    requires Runnable(START, xs) && LeftWaiting(Run(START, xs), c)
    ensures var st := Run(START, xs);
      CanEndWith(st, c, a) <==> a == TimedOut || (a == Abandoned && CloseHolds(st, st.callers[c].pc.l))
  {
    WaiterEnds(xs, c, a);
    RunKeepsReaders(START, xs);
  }
}
