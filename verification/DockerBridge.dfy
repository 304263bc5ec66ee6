// The bridge between callers and docker workers: callers allocate an id, register to
// be woken, send, and wait; the reader loop matches acknowledgements to waiters while
// timeouts and close race with it. One step per lock, atomic or channel operation.

module DockerBridge {
  import opened Prelude
  import opened DockerWire

  type LinkId = nat
  type CallerId = nat

  /** What a caller is told. Acked and Refused are the worker's word; Abandoned is close's. */
  datatype Answer = Acked | Refused | NotConnected | SendFailed | TimedOut | Abandoned

  datatype Pc =
    | Allocated(id: Id)
    | Connected(id: Id, l: LinkId)
    | Registered(id: Id, l: LinkId)
    | SendRefused(id: Id, l: LinkId)
    | Waiting(id: Id, l: LinkId)
    | TimingOut(id: Id, l: LinkId)
    | Done(id: Id, at: Option<LinkId>, answer: Answer)
    | CloseTaken(l: LinkId)
    | CloseAllocated(id: Id, l: LinkId)
    | CloseSent(id: Id, l: LinkId)
    | CloseKilled(id: Id, l: LinkId)
    | CloseDone(id: Id, l: LinkId)
    | CloseIdle

  /** `slot` is the caller's oneshot channel. */
  datatype Caller = Caller(pc: Pc, slot: Option<Answer>)

  /** Where run() stands on a connection: not begun, connection cloned, reading, its two closing steps, returned. */
  datatype Reader = Ready | Opening | Reading | Clearing | Failing | Ended

  datatype Link = Link(pending: map<Id, CallerId>, wire: Wire, reader: Reader)

  /** `owner` is history: which caller allocated an id. */
  datatype State = State(
    nextId: Id,
    current: Option<LinkId>,
    links: map<LinkId, Link>,
    callers: map<CallerId, Caller>,
    owner: map<Id, CallerId>)

  const START := State(1, None, map[], map[], map[])

  datatype Action =
    | Connect(l: LinkId)
    | Begin(c: CallerId)
    | BeginClose(c: CallerId)
    | Advance(c: CallerId)
    | TimeOut(c: CallerId)
    | WireMoves(l: LinkId, x: WireStep)
    | RunBegins(l: LinkId)
    | ReaderStarts(l: LinkId)
    | ReaderReads(l: LinkId)
    | ReaderStops(l: LinkId)
    | ReaderClears(l: LinkId)
    | ReaderFails(l: LinkId)

  predicate CanAdvance(st: State, k: Caller) {
    match k.pc
    case Allocated(_) => st.current.None? || st.current.value in st.links
    case Waiting(_, _) => k.slot.Some?
    case Done(_, _, _) => false
    case CloseDone(_, _) => false
    case CloseIdle => false
    case _ => true
  }

  predicate Active(r: Reader) {
    r.Opening? || r.Reading? || r.Clearing? || r.Failing?
  }

  predicate NoneActive(st: State) {
    forall l :: l in st.links ==> !Active(st.links[l].reader)
  }

  /** One task per session connects and runs in turn: it connects only when no run() is under way, and
      connecting while a connection is set changes nothing. */
  predicate Enabled(st: State, x: Action) {
    match x
    case Connect(l) => l !in st.links && st.current.None? && NoneActive(st)
    case RunBegins(l) => st.current == Some(l) && l in st.links && st.links[l].reader.Ready? && NoneActive(st)
    case Begin(c) => c !in st.callers
    case BeginClose(c) => c !in st.callers
    case Advance(c) =>
      c in st.callers && CanAdvance(st, st.callers[c])
      && (LinkOf(st.callers[c].pc).Some? ==> LinkOf(st.callers[c].pc).value in st.links)
    case TimeOut(c) => c in st.callers && st.callers[c].pc.Waiting? && st.callers[c].slot.None?
    case WireMoves(l, step) => l in st.links && !step.Read? && CanStep(st.links[l].wire, step)
    case ReaderStarts(l) => l in st.links && st.links[l].reader.Opening?
    case ReaderReads(l) => l in st.links && st.links[l].reader.Reading? && st.links[l].wire.messages != []
    case ReaderStops(l) => l in st.links && st.links[l].reader.Reading?
    case ReaderClears(l) => l in st.links && st.links[l].reader.Clearing?
    case ReaderFails(l) => l in st.links && st.links[l].reader.Failing?
  }

  function LinkOf(pc: Pc): Option<LinkId> {
    match pc
    case Allocated(_) => None
    case Done(_, _, _) => None
    case CloseIdle => None
    case _ => Some(pc.l)
  }

  function IdOf(pc: Pc): Option<Id> {
    match pc
    case CloseTaken(_) => None
    case CloseIdle => None
    case _ => Some(pc.id)
  }

  function SetPc(st: State, c: CallerId, pc: Pc): State
    requires c in st.callers
  {
    st.(callers := st.callers[c := st.callers[c].(pc := pc)])
  }

  function SetLink(st: State, l: LinkId, k: Link): State {
    st.(links := st.links[l := k])
  }

  function Allocate(st: State, c: CallerId): State {
    st.(nextId := st.nextId + 1, owner := st.owner[st.nextId := c])
  }

  function Unregister(st: State, l: LinkId, id: Id): State
    requires l in st.links
  {
    SetLink(st, l, st.links[l].(pending := st.links[l].pending - {id}))
  }

  /** Drain a pending map, answering every waiter. */
  function FailAll(st: State, l: LinkId): State
    requires l in st.links
  {
    var waiters := st.links[l].pending.Values;
    SetLink(st.(callers := map c | c in st.callers ::
                  if c in waiters then st.callers[c].(slot := Some(Abandoned)) else st.callers[c]),
            l, st.links[l].(pending := map[]))
  }

  function Killed(w: Wire): Wire {
    w.(workerUp := false, busy := [])
  }

  function AdvanceCaller(st: State, c: CallerId): State
    requires Enabled(st, Advance(c))
  {
    match st.callers[c].pc
    case Allocated(id) =>
      SetPc(st, c, if st.current.Some? then Connected(id, st.current.value) else Done(id, None, NotConnected))
    case Connected(id, l) =>
      SetPc(SetLink(st, l, st.links[l].(pending := st.links[l].pending[id := c])), c, Registered(id, l))
    case Registered(id, l) =>
      SetPc(SetLink(st, l, st.links[l].(wire := Sent(st.links[l].wire, Cmd(id, false)))), c,
            if st.links[l].wire.writerUp then Waiting(id, l) else SendRefused(id, l))
    case SendRefused(id, l) => SetPc(Unregister(st, l, id), c, Done(id, Some(l), SendFailed))
    case Waiting(id, l) => SetPc(st, c, Done(id, Some(l), st.callers[c].slot.value))
    case TimingOut(id, l) => SetPc(Unregister(st, l, id), c, Done(id, Some(l), TimedOut))
    case CloseTaken(l) => SetPc(Allocate(st, c), c, CloseAllocated(st.nextId, l))
    case CloseAllocated(id, l) =>
      SetPc(SetLink(st, l, st.links[l].(wire := Sent(st.links[l].wire, Cmd(id, true)))), c, CloseSent(id, l))
    case CloseSent(id, l) => SetPc(SetLink(st, l, st.links[l].(wire := Killed(st.links[l].wire))), c,
      CloseKilled(id, l))
    case CloseKilled(id, l) => SetPc(FailAll(st, l), c, CloseDone(id, l))
    case Done(_, _, _) => st
    case CloseDone(_, _) => st
    case CloseIdle => st
  }

  /** Answer a waiter and forget its registration. */
  function Answering(st: State, l: LinkId, id: Id, answer: Answer): State
    requires l in st.links && id in st.links[l].pending && st.links[l].pending[id] in st.callers
  {
    var c := st.links[l].pending[id];
    Unregister(st, l, id).(callers := st.callers[c := st.callers[c].(slot := Some(answer))])
  }

  /** The reader takes one message; an acknowledgement answers its waiter, if it still has one. */
  function ReadOne(st: State, l: LinkId): State
    requires Enabled(st, ReaderReads(l))
  {
    var m := st.links[l].wire.messages[0];
    var st1 := SetLink(st, l, st.links[l].(wire := StepWire(st.links[l].wire, Read)));
    var pending := st.links[l].pending;
    if m.Note? || m.report.cmd.id !in pending || pending[m.report.cmd.id] !in st.callers then st1
    else Answering(st1, l, m.report.cmd.id, if m.report.ok then Acked else Refused)
  }

  function Apply(st: State, x: Action): State
    requires Enabled(st, x)
  {
    match x
    case Connect(l) => SetLink(st, l, Link(map[], NEW_WIRE, Ready)).(current := Some(l))
    case Begin(c) => Allocate(st, c).(callers := st.callers[c := Caller(Allocated(st.nextId), None)])
    case BeginClose(c) =>
      st.(current := None,
          callers := st.callers[c := Caller(if st.current.Some? then CloseTaken(st.current.value)
            else CloseIdle, None)])
    case Advance(c) => AdvanceCaller(st, c)
    case TimeOut(c) => SetPc(st, c, TimingOut(st.callers[c].pc.id, st.callers[c].pc.l))
    case WireMoves(l, step) => SetLink(st, l, st.links[l].(wire := StepWire(st.links[l].wire, step)))
    case RunBegins(l) => SetLink(st, l, st.links[l].(reader := Opening))
    case ReaderStarts(l) => SetLink(st, l, st.links[l].(reader := Reading))
    case ReaderReads(l) => ReadOne(st, l)
    case ReaderStops(l) => SetLink(st, l, st.links[l].(reader := Clearing))
    case ReaderClears(l) => SetLink(st, l, st.links[l].(reader := Failing)).(current := None)
    case ReaderFails(l) =>
      var st' := if st.current.Some? && st.current.value in st.links then FailAll(st, st.current.value) else st;
      SetLink(st', l, st'.links[l].(reader := Ended))
  }

  predicate Runnable(st: State, xs: seq<Action>)
    decreases |xs|
  {
    xs == [] || (Enabled(st, xs[0]) && Runnable(Apply(st, xs[0]), xs[1..]))
  }

  function Run(st: State, xs: seq<Action>): State
    requires Runnable(st, xs)
    decreases |xs|
  {
    if xs == [] then st else Run(Apply(st, xs[0]), xs[1..])
  }

  // ---------------------------------------------------------------- the invariant

  /** The caller put this very command on the wire of link `l`. */
  predicate PastSend(pc: Pc, cmd: Cmd, l: LinkId) {
    match pc
    case Waiting(id, m) => cmd == Cmd(id, false) && m == l
    case TimingOut(id, m) => cmd == Cmd(id, false) && m == l
    case Done(id, at, a) => cmd == Cmd(id, false) && at == Some(l) && a != SendFailed && a != NotConnected
    case CloseSent(id, m) => cmd == Cmd(id, true) && m == l
    case CloseKilled(id, m) => cmd == Cmd(id, true) && m == l
    case CloseDone(id, m) => cmd == Cmd(id, true) && m == l
    case _ => false
  }

  predicate Registering(pc: Pc, id: Id, l: LinkId) {
    (pc.Registered? || pc.SendRefused? || pc.Waiting? || pc.TimingOut?) && pc.id == id && pc.l == l
  }

  /** The worker's word about command `id` has been read from the wire. */
  ghost predicate AnswerRead(w: Wire, id: Id, a: Answer) {
    && (a == Acked ==> Report(Cmd(id, false), true) in w.consumed)
    && (a == Refused ==> Report(Cmd(id, false), false) in w.consumed)
  }

  /** A registered caller is still waited for, or its slot holds an answer it is entitled to. */
  ghost predicate SlotOk(k: Link, id: Id, c: CallerId, slot: Option<Answer>) {
    if id in k.pending then k.pending[id] == c && slot == None
    else slot.Some? && slot.value in {Acked, Refused, Abandoned} && AnswerRead(k.wire, id, slot.value)
  }

  ghost predicate CallerOk(st: State, c: CallerId, k: Caller) {
    && (IdOf(k.pc).Some? ==> IdOf(k.pc).value in st.owner && st.owner[IdOf(k.pc).value] == c)
    && (LinkOf(k.pc).Some? ==> LinkOf(k.pc).value in st.links)
    && match k.pc
       case Registered(id, l) => SlotOk(st.links[l], id, c, k.slot)
       case SendRefused(id, l) => SlotOk(st.links[l], id, c, k.slot)
       case Waiting(id, l) => SlotOk(st.links[l], id, c, k.slot)
       case TimingOut(id, l) => SlotOk(st.links[l], id, c, k.slot)
       case Done(id, at, a) =>
         && (at.None? ==> a == NotConnected)
         && (at.Some? ==>
           at.value in st.links && AnswerRead(st.links[at.value].wire, id, a) && id !in st.links[at.value].pending)
       case _ => k.slot == None
  }

  ghost predicate LinkOk(st: State, l: LinkId, k: Link) {
    && WireOk(k.wire)
    && (forall id :: id in k.pending ==>
      k.pending[id] in st.callers && Registering(st.callers[k.pending[id]].pc, id, l))
    && (forall i :: 0 <= i < |k.wire.sent| ==>
          var cmd := k.wire.sent[i];
          cmd.id in st.owner && st.owner[cmd.id] in st.callers && PastSend(st.callers[st.owner[cmd.id]].pc, cmd, l))
  }

  ghost predicate OwnerOk(st: State) {
    forall id :: id in st.owner ==>
      id < st.nextId && st.owner[id] in st.callers && IdOf(st.callers[st.owner[id]].pc) == Some(id)
  }

  ghost predicate Inv(st: State) {
    && OwnerOk(st)
    && (forall c :: c in st.callers ==> CallerOk(st, c, st.callers[c]))
    && (forall l :: l in st.links ==> LinkOk(st, l, st.links[l]))
    && (st.current.Some? ==> st.current.value in st.links)
  }

  // ---------------------------------------------------------------- what one action may change

  /** Link `k'` continues `k`: acknowledgements read stay read, and registrations other than those in `ids` stay. */
  ghost predicate Continues(k: Link, k': Link, ids: set<Id>) {
    && k.wire.consumed <= k'.wire.consumed
    && (forall id :: id !in ids ==> (id in k.pending <==> id in k'.pending))
    && (forall id :: id !in ids && id in k.pending ==> k'.pending[id] == k.pending[id])
  }

  ghost predicate LinksContinue(st: State, st': State, ids: set<Id>) {
    forall l :: l in st.links ==> l in st'.links && Continues(st.links[l], st'.links[l], ids)
  }

  ghost predicate OwnersKept(st: State, st': State) {
    forall id :: id in st.owner ==> id in st'.owner && st'.owner[id] == st.owner[id]
  }

  /** A caller whose id is not touched keeps what it knows. */
  lemma CallerKeeps(st: State, st': State, c: CallerId, k: Caller, ids: set<Id>)
    requires CallerOk(st, c, k) && LinksContinue(st, st', ids) && OwnersKept(st, st')
    requires IdOf(k.pc).Some? ==> IdOf(k.pc).value !in ids
    ensures CallerOk(st', c, k)
  {
  }

  /** A caller that moved on from `pc` to `pc'` still has sent what it sent and, if listed, registered what
      it registered. */
  ghost predicate MovesOn(pc: Pc, pc': Pc, l: LinkId, listed: map<Id, CallerId>) {
    && (forall cmd :: PastSend(pc, cmd, l) ==> PastSend(pc', cmd, l))
    && (forall id :: id in listed && Registering(pc, id, l) ==> Registering(pc', id, l))
  }

  ghost predicate CallersContinue(st: State, st': State, l: LinkId)
    requires l in st'.links
  {
    forall c :: c in st.callers ==>
      c in st'.callers && MovesOn(st.callers[c].pc, st'.callers[c].pc, l, st'.links[l].pending)
  }

  /** A link that gains neither commands nor registrations keeps what it knows. */
  lemma LinkKeeps(st: State, st': State, l: LinkId)
    requires l in st.links && LinkOk(st, l, st.links[l]) && l in st'.links
    requires OwnersKept(st, st') && CallersContinue(st, st', l)
    requires WireOk(st'.links[l].wire) && st'.links[l].wire.sent == st.links[l].wire.sent
    requires forall id :: id in st'.links[l].pending ==>
      id in st.links[l].pending && st'.links[l].pending[id] == st.links[l].pending[id]
    ensures LinkOk(st', l, st'.links[l])
  {
  }

  /** If only caller `c` moved, and moved on, every caller did. */
  lemma OneMoves(st: State, st': State, c: CallerId, l: LinkId)
    requires c in st.callers && l in st'.links && st'.callers.Keys == st.callers.Keys
    requires forall d :: d in st.callers && d != c ==> st'.callers[d] == st.callers[d]
    requires MovesOn(st.callers[c].pc, st'.callers[c].pc, l, st'.links[l].pending)
    ensures CallersContinue(st, st', l)
  {
    forall d | d in st.callers ensures MovesOn(st.callers[d].pc, st'.callers[d].pc, l, st'.links[l].pending) {
      if d != c {
        assert st'.callers[d] == st.callers[d];
      }
    }
  }

  // ---------------------------------------------------------------- each action keeps the invariant

  lemma WireStepFrame(w: Wire, x: WireStep)
    requires CanStep(w, x)
    ensures StepWire(w, x).sent == w.sent && w.consumed <= StepWire(w, x).consumed
  {
  }

  /** Changes of what travels on one link, no command being added. */
  lemma WireChangeKeeps(st: State, l: LinkId, w: Wire)
    requires Inv(st) && l in st.links && WireOk(w)
    requires w.sent == st.links[l].wire.sent && st.links[l].wire.consumed <= w.consumed
    ensures Inv(SetLink(st, l, st.links[l].(wire := w)))
  {
    var st' := SetLink(st, l, st.links[l].(wire := w));
    forall m | m in st'.links ensures LinkOk(st', m, st'.links[m]) {
      LinkKeeps(st, st', m);
    }
    forall c | c in st'.callers ensures CallerOk(st', c, st'.callers[c]) {
      CallerKeeps(st, st', c, st.callers[c], {});
    }
  }

  lemma WireMovesKeeps(st: State, l: LinkId, x: WireStep)
    requires Inv(st) && Enabled(st, WireMoves(l, x))
    ensures Inv(Apply(st, WireMoves(l, x)))
  {
    StepKeepsWire(st.links[l].wire, x);
    WireStepFrame(st.links[l].wire, x);
    WireChangeKeeps(st, l, StepWire(st.links[l].wire, x));
  }

  /** A reader that moves on leaves its link as sound as it was. */
  lemma ReaderTurnsLinks(st: State, l: LinkId, reader: Reader)
    requires Inv(st) && l in st.links
    ensures var st' := SetLink(st, l, st.links[l].(reader := reader));
      forall m :: m in st'.links ==> LinkOk(st', m, st'.links[m])
  {
    var st' := SetLink(st, l, st.links[l].(reader := reader));
    forall m | m in st'.links ensures LinkOk(st', m, st'.links[m]) {
      LinkKeeps(st, st', m);
    }
  }

  lemma ReaderTurnsCallers(st: State, l: LinkId, reader: Reader)
    requires Inv(st) && l in st.links
    ensures var st' := SetLink(st, l, st.links[l].(reader := reader));
      forall c :: c in st'.callers ==> CallerOk(st', c, st'.callers[c])
  {
    var st' := SetLink(st, l, st.links[l].(reader := reader));
    forall c | c in st'.callers ensures CallerOk(st', c, st'.callers[c]) {
      CallerKeeps(st, st', c, st.callers[c], {});
    }
  }

  lemma ReaderTurnsKeeps(st: State, l: LinkId, reader: Reader)
    requires Inv(st) && l in st.links
    ensures Inv(SetLink(st, l, st.links[l].(reader := reader)))
  {
    ReaderTurnsLinks(st, l, reader);
    ReaderTurnsCallers(st, l, reader);
  }

  lemma ForgetCurrentKeeps(st: State)
    requires Inv(st)
    ensures Inv(st.(current := None))
  {
    var st' := st.(current := None);
    forall m | m in st'.links ensures LinkOk(st', m, st'.links[m]) {
      LinkKeeps(st, st', m);
    }
    forall c | c in st'.callers ensures CallerOk(st', c, st'.callers[c]) {
      CallerKeeps(st, st', c, st.callers[c], {});
    }
  }

  lemma ConnectKeeps(st: State, l: LinkId)
    requires Inv(st) && Enabled(st, Connect(l))
    ensures Inv(Apply(st, Connect(l)))
  {
    var st' := Apply(st, Connect(l));
    NewWireOk();
    forall m | m in st'.links ensures LinkOk(st', m, st'.links[m]) {
      if m != l {
        LinkKeeps(st, st', m);
      }
    }
    forall c | c in st'.callers ensures CallerOk(st', c, st'.callers[c]) {
      CallerKeeps(st, st', c, st.callers[c], {});
    }
  }

  lemma BeginKeeps(st: State, c: CallerId)
    requires Inv(st) && Enabled(st, Begin(c))
    ensures Inv(Apply(st, Begin(c)))
  {
    var st' := Apply(st, Begin(c));
    forall m | m in st'.links ensures LinkOk(st', m, st'.links[m]) {
      LinkKeeps(st, st', m);
    }
    forall d | d in st'.callers ensures CallerOk(st', d, st'.callers[d]) {
      if d != c {
        CallerKeeps(st, st', d, st.callers[d], {});
      }
    }
  }

  lemma BeginCloseKeeps(st: State, c: CallerId)
    requires Inv(st) && Enabled(st, BeginClose(c))
    ensures Inv(Apply(st, BeginClose(c)))
  {
    var st' := Apply(st, BeginClose(c));
    forall m | m in st'.links ensures LinkOk(st', m, st'.links[m]) {
      LinkKeeps(st, st', m);
    }
    forall d | d in st'.callers ensures CallerOk(st', d, st'.callers[d]) {
      if d != c {
        CallerKeeps(st, st', d, st.callers[d], {});
      }
    }
  }

  /** A caller's own step: everybody else keeps what they know. */
  lemma OthersKeep(st: State, st': State, c: CallerId, ids: set<Id>)
    requires Inv(st) && c in st.callers && st'.callers.Keys == st.callers.Keys
    requires forall d :: d in st.callers && d != c ==> st'.callers[d] == st.callers[d]
    requires LinksContinue(st, st', ids) && OwnersKept(st, st')
    requires forall id :: id in ids ==> IdOf(st.callers[c].pc) == Some(id)
    requires CallerOk(st', c, st'.callers[c])
    ensures forall d :: d in st'.callers ==> CallerOk(st', d, st'.callers[d])
  {
    forall d | d in st'.callers && d != c ensures CallerOk(st', d, st'.callers[d]) {
      assert CallerOk(st, d, st.callers[d]) && CallerOk(st, c, st.callers[c]);
      CallerKeeps(st, st', d, st.callers[d], ids);
    }
  }

  lemma ConnectedFrame(st: State, c: CallerId)
    requires OwnerOk(st) && Enabled(st, Advance(c)) && st.callers[c].pc.Connected?
    ensures LinksContinue(st, AdvanceCaller(st, c), {st.callers[c].pc.id})
    ensures OwnersKept(st, AdvanceCaller(st, c))
    ensures OwnerOk(AdvanceCaller(st, c))
  {
    match st.callers[c].pc
    case Connected(id, l) =>
  }

  lemma ConnectedCaller(st: State, c: CallerId)
    requires Inv(st) && Enabled(st, Advance(c)) && st.callers[c].pc.Connected?
    ensures var st' := AdvanceCaller(st, c); CallerOk(st', c, st'.callers[c])
  {
    assert CallerOk(st, c, st.callers[c]);
  }

  lemma ConnectedLinks(st: State, c: CallerId, m: LinkId)
    requires Inv(st) && Enabled(st, Advance(c)) && st.callers[c].pc.Connected? && m in st.links
    ensures var st' := AdvanceCaller(st, c); LinkOk(st', m, st'.links[m])
  {
    var st' := AdvanceCaller(st, c);
    assert LinkOk(st, m, st.links[m]);
    if m != st.callers[c].pc.l {
      OneMoves(st, st', c, m);
      LinkKeeps(st, st', m);
    }
  }

  lemma ConnectedKeeps(st: State, c: CallerId)
    requires Inv(st) && Enabled(st, Advance(c)) && st.callers[c].pc.Connected?
    ensures Inv(AdvanceCaller(st, c))
  {
    var st' := AdvanceCaller(st, c);
    ConnectedFrame(st, c);
    ConnectedCaller(st, c);
    OthersKeep(st, st', c, {st.callers[c].pc.id});
    forall m | m in st'.links ensures LinkOk(st', m, st'.links[m]) {
      ConnectedLinks(st, c, m);
    }
  }

  /** An id whose caller has not sent yet is on no wire. */
  lemma NotSentYet(st: State, c: CallerId, l: LinkId)
    requires Inv(st) && c in st.callers && l in st.links
    requires st.callers[c].pc.Registered? || st.callers[c].pc.CloseAllocated?
    ensures forall i :: 0 <= i < |st.links[l].wire.sent| ==> st.links[l].wire.sent[i].id != st.callers[c].pc.id
  {
    assert CallerOk(st, c, st.callers[c]) && LinkOk(st, l, st.links[l]);
  }

  /** Caller `c` is about to put `cmd` on its link's wire and to move to `pc`. */
  predicate Sends(st: State, c: CallerId, cmd: Cmd, pc: Pc) {
    && c in st.callers && (st.callers[c].pc.Registered? || st.callers[c].pc.CloseAllocated?)
    && st.callers[c].pc.l in st.links
    && cmd == Cmd(st.callers[c].pc.id, st.callers[c].pc.CloseAllocated?)
    && pc == if cmd.closing then CloseSent(cmd.id, st.callers[c].pc.l)
             else if st.links[st.callers[c].pc.l].wire.writerUp then Waiting(cmd.id, st.callers[c].pc.l)
             else SendRefused(cmd.id, st.callers[c].pc.l)
  }

  function Sending(st: State, c: CallerId, cmd: Cmd, pc: Pc): State
    requires Sends(st, c, cmd, pc)
  {
    var l := st.callers[c].pc.l;
    SetPc(SetLink(st, l, st.links[l].(wire := Sent(st.links[l].wire, cmd))), c, pc)
  }

  lemma SendingFrame(st: State, c: CallerId, cmd: Cmd, pc: Pc)
    requires Sends(st, c, cmd, pc) && OwnerOk(st)
    ensures var st' := Sending(st, c, cmd, pc);
      LinksContinue(st, st', {}) && OwnersKept(st, st') && OwnerOk(st') && st'.current == st.current &&
        st'.links.Keys == st.links.Keys
  {
  }

  /** Putting a command on the wire. */
  lemma SendKeeps(st: State, c: CallerId, cmd: Cmd, pc: Pc)
    requires Inv(st) && Sends(st, c, cmd, pc)
    ensures Inv(Sending(st, c, cmd, pc))
  {
    var st' := Sending(st, c, cmd, pc);
    SendingLinks(st, c, cmd, pc);
    SendingCaller(st, c, cmd, pc);
    SendingFrame(st, c, cmd, pc);
    OthersKeep(st, st', c, {});
  }

  lemma SendingCaller(st: State, c: CallerId, cmd: Cmd, pc: Pc)
    requires Inv(st) && Sends(st, c, cmd, pc)
    ensures var st' := Sending(st, c, cmd, pc);
      CallerOk(st', c, st'.callers[c]) && IdOf(pc) == IdOf(st.callers[c].pc)
  {
    assert CallerOk(st, c, st.callers[c]);
  }

  lemma SendingMoves(st: State, c: CallerId, cmd: Cmd, pc: Pc, m: LinkId)
    requires Inv(st) && Sends(st, c, cmd, pc) && m in st.links
    ensures CallersContinue(st, Sending(st, c, cmd, pc), m)
  {
    var st' := Sending(st, c, cmd, pc);
    assert MovesOn(st.callers[c].pc, pc, m, st'.links[m].pending);
    OneMoves(st, st', c, m);
  }

  lemma SendingLink(st: State, c: CallerId, cmd: Cmd, pc: Pc, m: LinkId)
    requires Inv(st) && Sends(st, c, cmd, pc) && m in st.links
    ensures var st' := Sending(st, c, cmd, pc); LinkOk(st', m, st'.links[m])
  {
    var l := st.callers[c].pc.l;
    var st' := Sending(st, c, cmd, pc);
    SendingMoves(st, c, cmd, pc, m);
    assert CallerOk(st, c, st.callers[c]);
    if m == l {
      NotSentYet(st, c, l);
      SentLinkOk(st, st', c, cmd);
    } else {
      LinkKeeps(st, st', m);
    }
  }

  lemma SendingLinks(st: State, c: CallerId, cmd: Cmd, pc: Pc)
    requires Inv(st) && Sends(st, c, cmd, pc)
    ensures var st' := Sending(st, c, cmd, pc); forall m :: m in st'.links ==> LinkOk(st', m, st'.links[m])
  {
    var st' := Sending(st, c, cmd, pc);
    forall m | m in st'.links ensures LinkOk(st', m, st'.links[m]) {
      SendingLink(st, c, cmd, pc, m);
    }
  }

  lemma SentLinkOk(st: State, st': State, c: CallerId, cmd: Cmd)
    requires c in st.callers && (st.callers[c].pc.Registered? || st.callers[c].pc.CloseAllocated?)
    requires var l := st.callers[c].pc.l;
      && l in st.links && LinkOk(st, l, st.links[l]) && l in st'.links
      && st'.links[l] == st.links[l].(wire := Sent(st.links[l].wire, cmd))
      && (forall i :: 0 <= i < |st.links[l].wire.sent| ==> st.links[l].wire.sent[i].id != cmd.id)
      && CallersContinue(st, st', l)
      && (st.links[l].wire.writerUp ==>
        cmd.id in st'.owner && st'.owner[cmd.id] == c && c in st'.callers && PastSend(st'.callers[c].pc, cmd, l))
    requires OwnersKept(st, st')
    ensures LinkOk(st', st.callers[c].pc.l, st'.links[st.callers[c].pc.l])
  {
    SentKeeps(st.links[st.callers[c].pc.l].wire, cmd);
  }

  lemma RegisteredKeeps(st: State, c: CallerId)
    requires Inv(st) && Enabled(st, Advance(c)) && st.callers[c].pc.Registered?
    ensures Inv(AdvanceCaller(st, c))
  {
    SendKeeps(st, c, Cmd(st.callers[c].pc.id, false), AdvanceCaller(st, c).callers[c].pc);
  }

  /** Removing one's own registration. */
  function Left(st: State, c: CallerId, id: Id, l: LinkId, answer: Answer): State
    requires c in st.callers && l in st.links
  {
    SetPc(Unregister(st, l, id), c, Done(id, Some(l), answer))
  }

  predicate MayLeave(pc: Pc, answer: Answer) {
    (pc.SendRefused? && answer == SendFailed) || (pc.TimingOut? && answer == TimedOut)
  }

  lemma LeavingMoves(pc: Pc, answer: Answer, m: LinkId, listed: map<Id, CallerId>)
    requires MayLeave(pc, answer) && (m == pc.l ==> pc.id !in listed)
    ensures MovesOn(pc, Done(pc.id, Some(pc.l), answer), m, listed)
  {
  }

  lemma LeavingLinks(st: State, c: CallerId, answer: Answer, m: LinkId)
    requires Inv(st) && c in st.callers && MayLeave(st.callers[c].pc, answer) && m in st.links &&
      st.callers[c].pc.l in st.links
    ensures var st' := Left(st, c, st.callers[c].pc.id, st.callers[c].pc.l, answer); LinkOk(st', m, st'.links[m])
  {
    var pc := st.callers[c].pc;
    var st' := Left(st, c, pc.id, pc.l, answer);
    assert LinkOk(st, m, st.links[m]);
    LeavingMoves(pc, answer, m, st'.links[m].pending);
    OneMoves(st, st', c, m);
    LinkKeeps(st, st', m);
  }

  lemma LeavingFrame(st: State, c: CallerId, answer: Answer)
    requires OwnerOk(st) && c in st.callers && MayLeave(st.callers[c].pc, answer) && st.callers[c].pc.l in st.links
    ensures var (id, l) := (st.callers[c].pc.id, st.callers[c].pc.l);
      var st' := Left(st, c, id, l, answer);
      LinksContinue(st, st', {id}) && OwnersKept(st, st') && OwnerOk(st') && st'.current == st.current &&
        st'.links.Keys == st.links.Keys
  {
  }

  lemma LeavingCaller(st: State, c: CallerId, answer: Answer)
    requires c in st.callers && CallerOk(st, c, st.callers[c])
    requires MayLeave(st.callers[c].pc, answer) && st.callers[c].pc.l in st.links
    ensures var st' := Left(st, c, st.callers[c].pc.id, st.callers[c].pc.l, answer); CallerOk(st', c, st'.callers[c])
  {
  }

  lemma LeavingCallers(st: State, c: CallerId, answer: Answer)
    requires Inv(st) && Enabled(st, Advance(c)) && MayLeave(st.callers[c].pc, answer)
    ensures var st' := Left(st, c, st.callers[c].pc.id, st.callers[c].pc.l, answer);
      forall d :: d in st'.callers ==> CallerOk(st', d, st'.callers[d])
  {
    var (id, l) := (st.callers[c].pc.id, st.callers[c].pc.l);
    assert CallerOk(st, c, st.callers[c]);
    LeavingCaller(st, c, answer);
    LeavingFrame(st, c, answer);
    LeavingOthers(st, c, answer);
    OthersKeep(st, Left(st, c, id, l, answer), c, {id});
  }

  lemma LeavingOthers(st: State, c: CallerId, answer: Answer)
    requires c in st.callers && MayLeave(st.callers[c].pc, answer) && st.callers[c].pc.l in st.links
    ensures var st' := Left(st, c, st.callers[c].pc.id, st.callers[c].pc.l, answer);
      && st'.callers.Keys == st.callers.Keys && (forall d :: d in st.callers && d != c ==>
        st'.callers[d] == st.callers[d])
      && IdOf(st.callers[c].pc) == Some(st.callers[c].pc.id)
  {
  }

  lemma UnregisterKeeps(st: State, c: CallerId, answer: Answer)
    requires Inv(st) && Enabled(st, Advance(c)) && MayLeave(st.callers[c].pc, answer)
    ensures Inv(Left(st, c, st.callers[c].pc.id, st.callers[c].pc.l, answer))
  {
    var (id, l) := (st.callers[c].pc.id, st.callers[c].pc.l);
    var st' := Left(st, c, id, l, answer);
    LeavingFrame(st, c, answer);
    LeavingCallers(st, c, answer);
    forall m | m in st'.links ensures LinkOk(st', m, st'.links[m]) {
      LeavingLinks(st, c, answer, m);
    }
  }

  lemma LeaveKeeps(st: State, c: CallerId)
    requires Inv(st) && Enabled(st, Advance(c)) && (st.callers[c].pc.SendRefused? || st.callers[c].pc.TimingOut?)
    ensures Inv(AdvanceCaller(st, c))
  {
    UnregisterKeeps(st, c, if st.callers[c].pc.SendRefused? then SendFailed else TimedOut);
  }

  lemma PcOnlyLinks(st: State, c: CallerId, pc: Pc, m: LinkId)
    requires Inv(st) && c in st.callers && m in st.links
    requires MovesOn(st.callers[c].pc, pc, m, st.links[m].pending)
    ensures LinkOk(SetPc(st, c, pc), m, st.links[m])
  {
    OneMoves(st, SetPc(st, c, pc), c, m);
    assert LinkOk(st, m, st.links[m]);
    LinkKeeps(st, SetPc(st, c, pc), m);
  }

  lemma PcOnlyFrame(st: State, c: CallerId, pc: Pc)
    requires OwnerOk(st) && c in st.callers && IdOf(pc) == IdOf(st.callers[c].pc)
    ensures var st' := SetPc(st, c, pc); LinksContinue(st, st', {}) && OwnersKept(st, st') && OwnerOk(st')
  {
  }

  lemma PcOnlyKeeps(st: State, c: CallerId, pc: Pc)
    requires Inv(st) && c in st.callers
    requires IdOf(pc) == IdOf(st.callers[c].pc) && CallerOk(st, c, st.callers[c].(pc := pc))
    requires forall l :: l in st.links ==> MovesOn(st.callers[c].pc, pc, l, st.links[l].pending)
    ensures Inv(SetPc(st, c, pc))
  {
    var st' := SetPc(st, c, pc);
    PcOnlyFrame(st, c, pc);
    CallerKeeps(st, st', c, st'.callers[c], {});
    OthersKeep(st, st', c, {});
    forall m | m in st'.links ensures LinkOk(st', m, st'.links[m]) {
      PcOnlyLinks(st, c, pc, m);
    }
  }

  lemma WaitingMoves(pc: Pc, l: LinkId, listed: map<Id, CallerId>, answer: Answer)
    requires pc.Waiting?
    ensures MovesOn(pc, TimingOut(pc.id, pc.l), l, listed)
    ensures answer in {Acked, Refused, Abandoned} && (l == pc.l ==> pc.id !in listed)
      ==> MovesOn(pc, Done(pc.id, Some(pc.l), answer), l, listed)
  {
  }

  lemma TimeOutKeeps(st: State, c: CallerId)
    requires Inv(st) && Enabled(st, TimeOut(c))
    ensures Inv(Apply(st, TimeOut(c)))
  {
    var k := st.callers[c];
    assert CallerOk(st, c, k);
    forall l | l in st.links ensures MovesOn(k.pc, TimingOut(k.pc.id, k.pc.l), l, st.links[l].pending) {
      WaitingMoves(k.pc, l, st.links[l].pending, TimedOut);
    }
    PcOnlyKeeps(st, c, TimingOut(k.pc.id, k.pc.l));
  }

  lemma WaitingKeeps(st: State, c: CallerId)
    requires Inv(st) && Enabled(st, Advance(c)) && st.callers[c].pc.Waiting?
    ensures Inv(AdvanceCaller(st, c))
  {
    var k := st.callers[c];
    assert CallerOk(st, c, k);
    AnsweredMoves(st, k);
    PcOnlyKeeps(st, c, Done(k.pc.id, Some(k.pc.l), k.slot.value));
  }

  lemma AnsweredMoves(st: State, k: Caller)
    requires k.pc.Waiting? && k.slot.Some? && k.slot.value in {Acked, Refused, Abandoned}
    requires k.pc.l in st.links ==> k.pc.id !in st.links[k.pc.l].pending
    ensures forall l :: l in st.links ==>
      MovesOn(k.pc, Done(k.pc.id, Some(k.pc.l), k.slot.value), l, st.links[l].pending)
  {
    forall l | l in st.links
      ensures MovesOn(k.pc, Done(k.pc.id, Some(k.pc.l), k.slot.value), l, st.links[l].pending)
    {
      WaitingMoves(k.pc, l, st.links[l].pending, k.slot.value);
    }
  }

  lemma AllocatedKeeps(st: State, c: CallerId)
    requires Inv(st) && Enabled(st, Advance(c)) && st.callers[c].pc.Allocated?
    ensures Inv(AdvanceCaller(st, c))
  {
    assert CallerOk(st, c, st.callers[c]);
    PcOnlyKeeps(st, c, AdvanceCaller(st, c).callers[c].pc);
  }

  lemma CloseTakenFrame(st: State, c: CallerId)
    requires Inv(st) && Enabled(st, Advance(c)) && st.callers[c].pc.CloseTaken?
    ensures var st' := AdvanceCaller(st, c);
      LinksContinue(st, st', {}) && OwnersKept(st, st') && OwnerOk(st') && CallerOk(st', c, st'.callers[c])
  {
    assert CallerOk(st, c, st.callers[c]);
  }

  lemma CloseTakenKeeps(st: State, c: CallerId)
    requires Inv(st) && Enabled(st, Advance(c)) && st.callers[c].pc.CloseTaken?
    ensures Inv(AdvanceCaller(st, c))
  {
    var st' := AdvanceCaller(st, c);
    CloseTakenFrame(st, c);
    OthersKeep(st, st', c, {});
    forall m | m in st'.links ensures LinkOk(st', m, st'.links[m]) {
      OneMoves(st, st', c, m);
      LinkKeeps(st, st', m);
    }
  }

  lemma CloseAllocatedKeeps(st: State, c: CallerId)
    requires Inv(st) && Enabled(st, Advance(c)) && st.callers[c].pc.CloseAllocated?
    ensures Inv(AdvanceCaller(st, c))
  {
    SendKeeps(st, c, Cmd(st.callers[c].pc.id, true), CloseSent(st.callers[c].pc.id, st.callers[c].pc.l));
  }

  lemma KilledOk(w: Wire)
    requires WireOk(w)
    ensures WireOk(Killed(w))
  {
  }

  lemma KillKeeps(st: State, l: LinkId)
    requires Inv(st) && l in st.links
    ensures Inv(SetLink(st, l, st.links[l].(wire := Killed(st.links[l].wire))))
  {
    assert LinkOk(st, l, st.links[l]);
    KilledOk(st.links[l].wire);
    WireChangeKeeps(st, l, Killed(st.links[l].wire));
  }

  lemma CloseSentKeeps(st: State, c: CallerId)
    requires Inv(st) && Enabled(st, Advance(c)) && st.callers[c].pc.CloseSent?
    ensures Inv(AdvanceCaller(st, c))
  {
    var (id, l) := (st.callers[c].pc.id, st.callers[c].pc.l);
    KillKeeps(st, l);
    var st1 := SetLink(st, l, st.links[l].(wire := Killed(st.links[l].wire)));
    assert CallerOk(st1, c, st1.callers[c]);
    forall m | m in st1.links ensures MovesOn(st1.callers[c].pc, CloseKilled(id, l), m, st1.links[m].pending) {
      CloseMoves(id, l, m, st1.links[m].pending);
    }
    PcOnlyKeeps(st1, c, CloseKilled(id, l));
  }

  lemma FailAllCaller(st: State, l: LinkId, c: CallerId)
    requires Inv(st) && l in st.links && c in st.callers
    ensures CallerOk(FailAll(st, l), c, FailAll(st, l).callers[c])
  {
    var st' := FailAll(st, l);
    var pending := st.links[l].pending;
    assert LinkOk(st, l, st.links[l]) && CallerOk(st, c, st.callers[c]);
    PendingIsOwner(st, l);
    if c in pending.Values {
      var id :| id in pending && pending[id] == c;
      assert Registering(st.callers[c].pc, id, l);
    } else {
      CallerKeeps(st, st', c, st.callers[c], pending.Keys);
    }
  }

  lemma FailAllKeeps(st: State, l: LinkId)
    requires Inv(st) && l in st.links
    ensures Inv(FailAll(st, l))
  {
    var st' := FailAll(st, l);
    forall c | c in st'.callers ensures CallerOk(st', c, st'.callers[c]) {
      FailAllCaller(st, l, c);
    }
    forall m | m in st'.links ensures LinkOk(st', m, st'.links[m]) {
      LinkKeeps(st, st', m);
    }
  }

  lemma CloseKilledKeeps(st: State, c: CallerId)
    requires Inv(st) && Enabled(st, Advance(c)) && st.callers[c].pc.CloseKilled?
    ensures Inv(AdvanceCaller(st, c))
  {
    var (id, l) := (st.callers[c].pc.id, st.callers[c].pc.l);
    assert CallerOk(st, c, st.callers[c]);
    FailAllKeeps(st, l);
    var st1 := FailAll(st, l);
    assert st1.callers[c].pc == st.callers[c].pc;
    assert CallerOk(st1, c, st1.callers[c]);
    forall m | m in st1.links ensures MovesOn(st1.callers[c].pc, CloseDone(id, l), m, st1.links[m].pending) {
      CloseMoves(id, l, m, st1.links[m].pending);
    }
    PcOnlyKeeps(st1, c, CloseDone(id, l));
  }

  lemma CloseMoves(id: Id, l: LinkId, m: LinkId, listed: map<Id, CallerId>)
    ensures MovesOn(CloseSent(id, l), CloseKilled(id, l), m, listed)
    ensures MovesOn(CloseKilled(id, l), CloseDone(id, l), m, listed)
  {
  }

  lemma AnsweringFrame(st: State, l: LinkId, id: Id, answer: Answer)
    requires OwnerOk(st) && l in st.links && id in st.links[l].pending && st.links[l].pending[id] in st.callers
    ensures var st' := Answering(st, l, id, answer);
      LinksContinue(st, st', {id}) && OwnersKept(st, st') && OwnerOk(st') && st'.current == st.current &&
        st'.links.Keys == st.links.Keys
  {
  }

  lemma AnswerKeepsCallers(st: State, l: LinkId, id: Id, answer: Answer)
    requires Inv(st) && l in st.links && id in st.links[l].pending && st.links[l].pending[id] in st.callers
    requires answer in {Acked, Refused} && AnswerRead(st.links[l].wire, id, answer)
    ensures var st' := Answering(st, l, id, answer); forall d :: d in st'.callers ==> CallerOk(st', d, st'.callers[d])
  {
    var c := st.links[l].pending[id];
    var st' := Answering(st, l, id, answer);
    AnsweringFrame(st, l, id, answer);
    assert CallerOk(st', c, st'.callers[c]) && IdOf(st.callers[c].pc) == Some(id) by {
      assert LinkOk(st, l, st.links[l]) && CallerOk(st, c, st.callers[c]);
    }
    OthersKeep(st, st', c, {id});
  }

  lemma AnswerKeepsLink(st: State, l: LinkId, id: Id, answer: Answer, m: LinkId)
    requires OwnerOk(st) && l in st.links && id in st.links[l].pending && st.links[l].pending[id] in st.callers
    requires m in st.links && LinkOk(st, m, st.links[m])
    ensures var st' := Answering(st, l, id, answer); m in st'.links && LinkOk(st', m, st'.links[m])
  {
    var st' := Answering(st, l, id, answer);
    OneMoves(st, st', st.links[l].pending[id], m);
    LinkKeeps(st, st', m);
  }

  /** The reader answers a waiter: the acknowledgement it answers with has just been read. */
  lemma AnswerKeeps(st: State, l: LinkId, id: Id, answer: Answer)
    requires Inv(st) && l in st.links && id in st.links[l].pending && st.links[l].pending[id] in st.callers
    requires answer in {Acked, Refused} && AnswerRead(st.links[l].wire, id, answer)
    ensures Inv(Answering(st, l, id, answer))
  {
    var st' := Answering(st, l, id, answer);
    AnsweringFrame(st, l, id, answer);
    AnswerKeepsCallers(st, l, id, answer);
    forall m | m in st'.links ensures LinkOk(st', m, st'.links[m]) {
      AnswerKeepsLink(st, l, id, answer, m);
    }
  }

  lemma ReaderReadsKeeps(st: State, l: LinkId)
    requires Inv(st) && Enabled(st, ReaderReads(l))
    ensures Inv(ReadOne(st, l))
  {
    var k := st.links[l];
    var w := StepWire(k.wire, Read);
    assert LinkOk(st, l, k);
    StepKeepsWire(k.wire, Read);
    WireChangeKeeps(st, l, w);
    var m := k.wire.messages[0];
    if m.Ack? && m.report.cmd.id in k.pending {
      AckIsForWaiter(st, l);
      assert w.consumed[|w.consumed| - 1] == m.report;
      AnswerKeeps(SetLink(st, l, k.(wire := w)), l, m.report.cmd.id, if m.report.ok then Acked else Refused);
    }
  }

  /** A report of the worker is about a command that was sent on this link. */
  lemma ReportsWereSent(w: Wire, r: Report)
    requires WireOk(w) && (r in w.ran || r in w.acked || r in Unread(w.messages) || r in w.consumed)
    ensures exists i :: 0 <= i < |w.ran| && w.ran[i] == r && i < |w.sent| && w.sent[i] == r.cmd
  {
    AcksFollowCommands(w);
    var seen := w.consumed + Unread(w.messages);
    assert w.acked <= w.ran && seen <= w.acked;
    if r in Unread(w.messages) {
      var j :| 0 <= j < |Unread(w.messages)| && Unread(w.messages)[j] == r;
      assert seen[|w.consumed| + j] == r;
    }
    var i :| 0 <= i < |w.ran| && w.ran[i] == r;
    assert Cmds(w.ran)[i] == w.sent[i];
  }

  /** An acknowledgement that finds an entry is that of the entry's own command, not of a Close. */
  lemma AckIsForWaiter(st: State, l: LinkId)
    requires Inv(st) && Enabled(st, ReaderReads(l)) && st.links[l].wire.messages[0].Ack?
    requires st.links[l].wire.messages[0].report.cmd.id in st.links[l].pending
    ensures st.links[l].wire.messages[0].report.cmd.closing == false
    ensures st.links[l].pending[st.links[l].wire.messages[0].report.cmd.id] in st.callers
  {
    var k := st.links[l];
    var r := k.wire.messages[0].report;
    assert LinkOk(st, l, k);
    ReportsWereSent(k.wire, r);
    var i :| 0 <= i < |k.wire.ran| && k.wire.ran[i] == r && i < |k.wire.sent| && k.wire.sent[i] == r.cmd;
    var c := k.pending[r.cmd.id];
    assert CallerOk(st, c, st.callers[c]);
  }

  lemma AdvanceKeeps(st: State, c: CallerId)
    requires Inv(st) && Enabled(st, Advance(c))
    ensures Inv(AdvanceCaller(st, c))
  {
    match st.callers[c].pc
    case Allocated(_) => AllocatedKeeps(st, c);
    case Connected(_, _) => ConnectedKeeps(st, c);
    case Registered(_, _) => RegisteredKeeps(st, c);
    case SendRefused(_, _) => LeaveKeeps(st, c);
    case Waiting(_, _) => WaitingKeeps(st, c);
    case TimingOut(_, _) => LeaveKeeps(st, c);
    case CloseTaken(_) => CloseTakenKeeps(st, c);
    case CloseAllocated(_, _) => CloseAllocatedKeeps(st, c);
    case CloseSent(_, _) => CloseSentKeeps(st, c);
    case CloseKilled(_, _) => CloseKilledKeeps(st, c);
  }

  lemma ReaderFailsKeeps(st: State, l: LinkId)
    requires Inv(st) && Enabled(st, ReaderFails(l))
    ensures Inv(Apply(st, ReaderFails(l)))
  {
    if st.current.Some? {
      FailAllKeeps(st, st.current.value);
      ReaderTurnsKeeps(FailAll(st, st.current.value), l, Ended);
    } else {
      ReaderTurnsKeeps(st, l, Ended);
    }
  }

  lemma ApplyKeepsInv(st: State, x: Action)
    requires Inv(st) && Enabled(st, x)
    ensures Inv(Apply(st, x))
  {
    match x
    case Connect(l) => ConnectKeeps(st, l);
    case Begin(c) => BeginKeeps(st, c);
    case BeginClose(c) => BeginCloseKeeps(st, c);
    case Advance(c) => AdvanceKeeps(st, c);
    case TimeOut(c) => TimeOutKeeps(st, c);
    case WireMoves(l, step) => WireMovesKeeps(st, l, step);
    case RunBegins(l) => ReaderTurnsKeeps(st, l, Opening);
    case ReaderStarts(l) => ReaderTurnsKeeps(st, l, Reading);
    case ReaderReads(l) => ReaderReadsKeeps(st, l);
    case ReaderStops(l) => ReaderTurnsKeeps(st, l, Clearing);
    case ReaderClears(l) =>
      ReaderTurnsKeeps(st, l, Failing);
      ForgetCurrentKeeps(SetLink(st, l, st.links[l].(reader := Failing)));
    case ReaderFails(l) => ReaderFailsKeeps(st, l);
  }

  lemma {:induction false} RunKeepsInv(st: State, xs: seq<Action>)
    requires Inv(st) && Runnable(st, xs)
    ensures Inv(Run(st, xs))
    decreases |xs|
  {
    if xs != [] {
      ApplyKeepsInv(st, xs[0]);
      RunKeepsInv(Apply(st, xs[0]), xs[1..]);
    }
  }

  // ---------------------------------------------------------------- main results, for every run

  /** Main result: no two callers, closing ones included, ever hold the same command id. */
  lemma IdsNeverReused(xs: seq<Action>, c: CallerId, d: CallerId)
    requires Runnable(START, xs)
    requires var st := Run(START, xs); c in st.callers && d in st.callers && c != d
    ensures var st := Run(START, xs);
      IdOf(st.callers[c].pc).Some? ==> IdOf(st.callers[c].pc) != IdOf(st.callers[d].pc)
  {
    RunKeepsInv(START, xs);
    var st := Run(START, xs);
    assert CallerOk(st, c, st.callers[c]) && CallerOk(st, d, st.callers[d]);
  }

  /** Main result: over all connections together, no command id is executed twice. */
  lemma ExecutedAtMostOnce(xs: seq<Action>, l: LinkId, i: nat, m: LinkId, j: nat)
    requires Runnable(START, xs)
    requires var st := Run(START, xs);
      && l in st.links && i < |st.links[l].wire.ran| && m in st.links && j < |st.links[m].wire.ran|
      && st.links[l].wire.ran[i].cmd.id == st.links[m].wire.ran[j].cmd.id
    ensures l == m && i == j
  {
    RunKeepsInv(START, xs);
    var st := Run(START, xs);
    assert LinkOk(st, l, st.links[l]) && LinkOk(st, m, st.links[m]);
    AcksFollowCommands(st.links[l].wire);
    AcksFollowCommands(st.links[m].wire);
    assert Cmds(st.links[l].wire.ran)[i] == st.links[l].wire.sent[i];
    assert Cmds(st.links[m].wire.ran)[j] == st.links[m].wire.sent[j];
  }

  /** Main result: a caller is told Ok only if the worker ran the command with that very id
      successfully, and told that its command failed only if the worker ran it and it failed. */
  lemma AnswersAreTrue(xs: seq<Action>, c: CallerId)
    requires Runnable(START, xs)
    requires var st := Run(START, xs); c in st.callers && st.callers[c].pc.Done?
    ensures var st := Run(START, xs);
      var pc := st.callers[c].pc;
      pc.answer in {Acked, Refused} ==>
        && pc.at.Some? && pc.at.value in st.links
        && Report(Cmd(pc.id, false), pc.answer == Acked) in st.links[pc.at.value].wire.ran
  {
    RunKeepsInv(START, xs);
    var st := Run(START, xs);
    var pc := st.callers[c].pc;
    assert CallerOk(st, c, st.callers[c]);
    if pc.at.Some? && pc.answer in {Acked, Refused} {
      var w := st.links[pc.at.value].wire;
      assert LinkOk(st, pc.at.value, st.links[pc.at.value]);
      ReportsWereSent(w, Report(Cmd(pc.id, false), pc.answer == Acked));
    }
  }

  /** Given up on, by the caller's own timeout or by close. */
  predicate GivenUp(k: Caller) {
    || k.pc.TimingOut?
    || (k.pc.Done? && k.pc.answer in {TimedOut, Abandoned})
    || (k.pc.Waiting? && k.slot == Some(Abandoned))
  }

  /** The head of the message queue reports a command whose caller sent it and has not been answered by it. */
  lemma AckSender(st: State, l: LinkId)
    requires Inv(st) && Enabled(st, ReaderReads(l))
    requires var m := st.links[l].wire.messages[0]; m.Ack? && !m.report.cmd.closing
    ensures var r := st.links[l].wire.messages[0].report;
      && r.cmd.id in st.owner && st.owner[r.cmd.id] in st.callers
      && PastSend(st.callers[st.owner[r.cmd.id]].pc, r.cmd, l)
      && forall ok :: Report(r.cmd, ok) !in st.links[l].wire.consumed
  {
    var k := st.links[l];
    var r := k.wire.messages[0].report;
    assert LinkOk(st, l, k);
    assert r == Unread(k.wire.messages)[0];
    ReportsWereSent(k.wire, r);
    var i :| 0 <= i < |k.wire.ran| && k.wire.ran[i] == r && i < |k.wire.sent| && k.wire.sent[i] == r.cmd;
    UnreadNotConsumed(k.wire);
  }

  /** Main result: an arriving acknowledgement finds its waiter registered unless that caller has
      timed out or was failed by close; registering happens before sending, so it is never too early. */
  lemma AckFindsWaiter(xs: seq<Action>, l: LinkId)
    requires Runnable(START, xs) && Enabled(Run(START, xs), ReaderReads(l))
    requires var m := Run(START, xs).links[l].wire.messages[0]; m.Ack? && !m.report.cmd.closing
    ensures var st := Run(START, xs);
      var id := st.links[l].wire.messages[0].report.cmd.id;
      && id in st.owner && st.owner[id] in st.callers
      && (id in st.links[l].pending ==> st.links[l].pending[id] == st.owner[id])
      && (id in st.links[l].pending || GivenUp(st.callers[st.owner[id]]))
  {
    RunKeepsInv(START, xs);
    AckFinds(Run(START, xs), l);
  }

  lemma AckFinds(st: State, l: LinkId)
    requires Inv(st) && Enabled(st, ReaderReads(l))
    requires var m := st.links[l].wire.messages[0]; m.Ack? && !m.report.cmd.closing
    ensures var id := st.links[l].wire.messages[0].report.cmd.id;
      && id in st.owner && st.owner[id] in st.callers
      && (id in st.links[l].pending ==> st.links[l].pending[id] == st.owner[id])
      && (id in st.links[l].pending || GivenUp(st.callers[st.owner[id]]))
  {
    AckSender(st, l);
    var c := st.owner[st.links[l].wire.messages[0].report.cmd.id];
    assert CallerOk(st, c, st.callers[c]);
    assert LinkOk(st, l, st.links[l]);
    PendingIsOwner(st, l);
  }

  lemma PendingIsOwner(st: State, l: LinkId)
    requires Inv(st) && l in st.links
    ensures forall id :: id in st.links[l].pending ==> id in st.owner && st.owner[id] == st.links[l].pending[id]
  {
    assert LinkOk(st, l, st.links[l]);
    forall id | id in st.links[l].pending ensures id in st.owner && st.owner[id] == st.links[l].pending[id] {
      var d := st.links[l].pending[id];
      assert CallerOk(st, d, st.callers[d]);
    }
  }

  /** The acknowledgement at the head of the queue has not been read before, with either outcome. */
  lemma UnreadNotConsumed(w: Wire)
    requires WireOk(w) && w.messages != [] && w.messages[0].Ack?
    ensures forall ok :: Report(w.messages[0].report.cmd, ok) !in w.consumed
  {
    StagesDisjoint(w);
    var r := w.messages[0].report;
    assert Unread(w.messages)[0] == r && Cmds(Unread(w.messages))[0] == r.cmd;
    forall ok ensures Report(r.cmd, ok) !in w.consumed {
      forall j | 0 <= j < |w.consumed| ensures w.consumed[j] != Report(r.cmd, ok) {
        assert Cmds(w.consumed)[j].id != r.cmd.id;
      }
    }
  }

  /** The message at the head has been taken, and an acknowledgement noted as read. */
  predicate TakenFrom(w: Wire, w': Wire) {
    && w.messages != [] && w'.messages == w.messages[1..]
    && w'.consumed == (if w.messages[0].Ack? then w.consumed + [w.messages[0].report] else w.consumed)
    && w' == w.(messages := w'.messages, consumed := w'.consumed)
  }

  /** The reader's step touches its own link alone. */
  lemma {:induction false} ReadTakesMessage(st: State, l: LinkId)
    requires Enabled(st, ReaderReads(l))
    ensures var st' := ReadOne(st, l);
      && st'.links.Keys == st.links.Keys && (forall m :: m in st.links && m != l ==> st'.links[m] == st.links[m])
      && TakenFrom(st.links[l].wire, st'.links[l].wire) && st'.links[l].reader == st.links[l].reader
      && st'.nextId == st.nextId && st'.current == st.current && st'.owner == st.owner
  {
  }

  lemma {:induction false} ReadAnswers(st: State, l: LinkId)
    requires Enabled(st, ReaderReads(l))
    requires var k := st.links[l];
      k.wire.messages[0].Ack? && k.wire.messages[0].report.cmd.id in k.pending
    requires st.links[l].pending[st.links[l].wire.messages[0].report.cmd.id] in st.callers
    ensures var st' := ReadOne(st, l);
      var r := st.links[l].wire.messages[0].report;
      var c := st.links[l].pending[r.cmd.id];
      && st'.callers == st.callers[c := Caller(st.callers[c].pc, Some(if r.ok then Acked else Refused))]
      && st'.links[l].pending == st.links[l].pending - {r.cmd.id}
  {
  }

  /** Main result: in every run, an acknowledgement whose waiter is registered answers it, as the worker
      reported, and forgets the registration; it changes no other caller and no other registration. */
  lemma {:induction false} AckAnswersWaiter(xs: seq<Action>, l: LinkId)
    requires Runnable(START, xs) && Enabled(Run(START, xs), ReaderReads(l))
    requires var k := Run(START, xs).links[l];
      k.wire.messages[0].Ack? && !k.wire.messages[0].report.cmd.closing && k.wire.messages[0].report.cmd.id in k.pending
    ensures var (st, st') := (Run(START, xs), Apply(Run(START, xs), ReaderReads(l)));
      var r := st.links[l].wire.messages[0].report;
      && r.cmd.id in st.owner && st.owner[r.cmd.id] in st.callers
      && var c := st.owner[r.cmd.id];
        && st.callers[c].slot.None? && st.links[l].pending[r.cmd.id] == c
        && st'.callers == st.callers[c := Caller(st.callers[c].pc, Some(if r.ok then Acked else Refused))]
        && st'.links.Keys == st.links.Keys && st'.links[l].pending == st.links[l].pending - {r.cmd.id}
        && (forall m :: m in st.links && m != l ==> st'.links[m] == st.links[m])
        && TakenFrom(st.links[l].wire, st'.links[l].wire)
  {
    RunKeepsInv(START, xs);
    var st := Run(START, xs);
    AckFinds(st, l);
    PendingUnanswered(st, l, st.links[l].wire.messages[0].report.cmd.id);
    ReadTakesMessage(st, l);
    ReadAnswers(st, l);
  }

  lemma {:induction false} PendingUnanswered(st: State, l: LinkId, id: Id)
    requires Inv(st) && l in st.links && id in st.links[l].pending
    ensures st.links[l].pending[id] in st.callers && st.callers[st.links[l].pending[id]].slot.None?
  {
    var c := st.links[l].pending[id];
    assert LinkOk(st, l, st.links[l]);
    assert CallerOk(st, c, st.callers[c]);
  }

  /** Main result: any other message answers nobody: in every run a note, the acknowledgement of a Close
      and one whose waiter is gone are taken from the wire and change no caller and no registration. */
  lemma {:induction false} OtherMessagesAnswerNobody(xs: seq<Action>, l: LinkId)
    requires Runnable(START, xs) && Enabled(Run(START, xs), ReaderReads(l))
    requires var k := Run(START, xs).links[l];
      var m := k.wire.messages[0];
      m.Note? || m.report.cmd.closing || m.report.cmd.id !in k.pending
    ensures var (st, st') := (Run(START, xs), Apply(Run(START, xs), ReaderReads(l)));
      && st'.callers == st.callers && st'.links.Keys == st.links.Keys
      && (forall m :: m in st.links ==> st'.links[m].pending == st.links[m].pending)
      && (forall m :: m in st.links && m != l ==> st'.links[m] == st.links[m])
      && TakenFrom(st.links[l].wire, st'.links[l].wire)
  {
    RunKeepsInv(START, xs);
    var st := Run(START, xs);
    var m := st.links[l].wire.messages[0];
    if m.Ack? && m.report.cmd.closing {
      CloseIsUnregistered(st, l);
    }
    ReadTakesMessage(st, l);
    ReadAnswersNobody(st, l);
  }

  lemma {:induction false} ReadAnswersNobody(st: State, l: LinkId)
    requires Enabled(st, ReaderReads(l))
    requires var (k, m) := (st.links[l], st.links[l].wire.messages[0]); m.Note? || m.report.cmd.id !in k.pending
    ensures ReadOne(st, l).callers == st.callers && ReadOne(st, l).links[l].pending == st.links[l].pending
  {
  }

  lemma {:induction false} CloseIsUnregistered(st: State, l: LinkId)
    requires Inv(st) && Enabled(st, ReaderReads(l))
    requires var m := st.links[l].wire.messages[0]; m.Ack? && m.report.cmd.closing
    ensures st.links[l].wire.messages[0].report.cmd.id !in st.links[l].pending
  {
    var k := st.links[l];
    var r := k.wire.messages[0].report;
    assert LinkOk(st, l, k);
    assert r == Unread(k.wire.messages)[0];
    ReportsWereSent(k.wire, r);
    var i :| 0 <= i < |k.wire.ran| && k.wire.ran[i] == r && i < |k.wire.sent| && k.wire.sent[i] == r.cmd;
    PendingIsOwner(st, l);
  }

  /** What a caller has been told, and what its slot holds, never changes again. */
  ghost predicate Settled(k: Caller, k': Caller) {
    && (k.pc.Done? ==> k'.pc == k.pc)
    && (k.slot.Some? ==> k'.slot == k.slot)
  }

  lemma ReadSettles(st: State, l: LinkId, c: CallerId)
    requires Inv(st) && Enabled(st, ReaderReads(l)) && c in st.callers
    ensures c in ReadOne(st, l).callers && Settled(st.callers[c], ReadOne(st, l).callers[c])
  {
    assert LinkOk(st, l, st.links[l]) && CallerOk(st, c, st.callers[c]);
  }

  lemma AdvanceSettles(st: State, d: CallerId, c: CallerId)
    requires Inv(st) && Enabled(st, Advance(d)) && c in st.callers
    ensures c in AdvanceCaller(st, d).callers && Settled(st.callers[c], AdvanceCaller(st, d).callers[c])
  {
    if st.callers[d].pc.CloseKilled? {
      FailAllSettles(st, st.callers[d].pc.l, c);
    } else {
      AdvanceMovesOnePc(st, d);
    }
  }

  /** Apart from failing every waiter, a caller's step moves its own program counter and no slot. */
  lemma AdvanceMovesOnePc(st: State, d: CallerId)
    requires Enabled(st, Advance(d)) && !st.callers[d].pc.CloseKilled?
    ensures var st' := AdvanceCaller(st, d);
      d in st'.callers && st'.callers == st.callers[d := st.callers[d].(pc := st'.callers[d].pc)]
  {
  }

  lemma ApplySettles(st: State, x: Action, c: CallerId)
    requires Inv(st) && Enabled(st, x) && c in st.callers
    ensures c in Apply(st, x).callers && Settled(st.callers[c], Apply(st, x).callers[c])
  {
    if x.ReaderReads? {
      ReadSettles(st, x.l, c);
    } else if x.Advance? {
      AdvanceSettles(st, x.c, c);
    } else if x.ReaderFails? && st.current.Some? {
      FailAllSettles(st, st.current.value, c);
    }
  }

  lemma FailAllSettles(st: State, l: LinkId, c: CallerId)
    requires Inv(st) && l in st.links && c in st.callers
    ensures Settled(st.callers[c], FailAll(st, l).callers[c])
  {
    if c in st.links[l].pending.Values {
      var id :| id in st.links[l].pending && st.links[l].pending[id] == c;
      assert LinkOk(st, l, st.links[l]) && CallerOk(st, c, st.callers[c]);
    }
  }

  /** Main result: each caller gets one result: an answer, once given, is never replaced. */
  lemma {:induction false} OneAnswerEach(st: State, xs: seq<Action>, c: CallerId)
    requires Inv(st) && Runnable(st, xs) && c in st.callers
    ensures c in Run(st, xs).callers && Settled(st.callers[c], Run(st, xs).callers[c])
    decreases |xs|
  {
    if xs != [] {
      ApplySettles(st, xs[0], c);
      ApplyKeepsInv(st, xs[0]);
      OneAnswerEach(Apply(st, xs[0]), xs[1..], c);
    }
  }

  /** Main result: in every run, the acknowledgements read on a link, those the worker sent, what it ran and
      what was put on the link's command queue are prefixes of each other, and nothing is run after a Close. */
  lemma AcksFollowCommandsAlways(xs: seq<Action>, l: LinkId)
    requires Runnable(START, xs) && l in Run(START, xs).links
    ensures var w := Run(START, xs).links[l].wire;
      && Cmds(w.consumed) <= Cmds(w.acked) <= Cmds(w.ran) <= w.sent
      && forall i :: 0 <= i < |w.ran| && w.ran[i].cmd.closing ==> i == |w.ran| - 1
  {
    RunKeepsInv(START, xs);
    assert LinkOk(Run(START, xs), l, Run(START, xs).links[l]);
    AcksFollowCommands(Run(START, xs).links[l].wire);
  }

  /** Main result: in every run, the ids in a link's command queue, in its unread acknowledgements and in
      those already read are pairwise disjoint. */
  lemma StagesDisjointAlways(xs: seq<Action>, l: LinkId)
    requires Runnable(START, xs) && l in Run(START, xs).links
    ensures var w := Run(START, xs).links[l].wire;
      && NoSharedId(w.pipe + w.channel, Cmds(Unread(w.messages)))
      && NoSharedId(w.pipe + w.channel, Cmds(w.consumed))
      && NoSharedId(Cmds(Unread(w.messages)), Cmds(w.consumed))
  {
    RunKeepsInv(START, xs);
    assert LinkOk(Run(START, xs), l, Run(START, xs).links[l]);
    StagesDisjoint(Run(START, xs).links[l].wire);
  }

  // ---------------------------------------------------------------- when run() returns

  /** At most one run() is under way, and once it has cleared the connection there is none until it returns. */
  ghost predicate ReadersOk(st: State) {
    && (forall l, m :: l in st.links && m in st.links && l != m && Active(st.links[l].reader) ==>
      !Active(st.links[m].reader))
    && (forall l :: l in st.links && st.links[l].reader.Failing? ==> st.current.None?)
    && (forall l :: l in st.links && st.links[l].reader.Ended? ==> st.current != Some(l))
    && (forall l :: l in st.links && st.links[l].reader.Ready? && st.current == Some(l) ==> NoneActive(st))
  }

  lemma AdvanceKeepsReaders(st: State, c: CallerId)
    requires Enabled(st, Advance(c))
    ensures var st' := AdvanceCaller(st, c);
      && st'.current == st.current && st'.links.Keys == st.links.Keys
      && forall l :: l in st.links ==> st'.links[l].reader == st.links[l].reader
  {
  }

  lemma ApplyKeepsReaders(st: State, x: Action)
    requires ReadersOk(st) && Enabled(st, x)
    ensures ReadersOk(Apply(st, x))
  {
    if x.Advance? {
      AdvanceKeepsReaders(st, x.c);
    }
  }

  lemma {:induction false} RunKeepsReaders(st: State, xs: seq<Action>)
    requires ReadersOk(st) && Runnable(st, xs)
    ensures ReadersOk(Run(st, xs))
    decreases |xs|
  {
    if xs != [] {
      ApplyKeepsReaders(st, xs[0]);
      RunKeepsReaders(Apply(st, xs[0]), xs[1..]);
    }
  }

  /** Main result: run() means to fail its waiters when it ends, but it has cleared the connection through
      which it looks them up: in every run that step changes no caller and no registration. */
  lemma ReaderExitFailsNobody(xs: seq<Action>, l: LinkId)
    requires Runnable(START, xs) && Enabled(Run(START, xs), ReaderFails(l))
    ensures var st := Run(START, xs);
      var st' := Apply(st, ReaderFails(l));
      && st'.callers == st.callers && st'.links.Keys == st.links.Keys
      && forall m :: m in st.links ==>
        st'.links[m].pending == st.links[m].pending && st'.links[m].wire == st.links[m].wire
  {
    RunKeepsReaders(START, xs);
  }
}
