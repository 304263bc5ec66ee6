// Whole lives on the bridge, from any reachable state: of a connection, of a command on a
// working and on a broken connection, and of a close.

module DockerLives {
  import opened DockerAnswers
  import opened DockerBridge
  import opened DockerWire
  import opened Prelude

  // ---------------------------------------------------------------- runs put together

  /** One more action of a run. */
  lemma {:induction false} Acts(st: State, xs: seq<Action>, x: Action) returns (ys: seq<Action>)
    requires Runnable(st, xs) && Enabled(Run(st, xs), x)
    ensures ys == xs + [x] && Runnable(st, ys) && Run(st, ys) == Apply(Run(st, xs), x)
  {
    RunsOne(Run(st, xs), x, []);
    assert [x] + [] == [x];
    RunsTogether(st, xs, [x]);
    ys := xs + [x];
  }

  // ---------------------------------------------------------------- a command from its beginning

  /** A connection that works: run() reads it or is going to, its writer and worker are up and no Close is
      on its way. */
  predicate Serves(st: State, l: LinkId) {
    && st.current == Some(l) && l in st.links && Reads(st, l)
    && var w := st.links[l].wire;
      && w.writerUp && w.workerUp && (forall i :: 0 <= i < |w.busy| ==> !w.busy[i].cmd.closing)
      && forall i :: 0 <= i < |Queue(w)| ==> !Queue(w)[i].closing
  }

  lemma {:induction false} SentComes(w: Wire, cmd: Cmd)
    requires w.writerUp && w.workerUp && (forall i :: 0 <= i < |w.busy| ==> !w.busy[i].cmd.closing)
    requires forall i :: 0 <= i < |Queue(w)| ==> !Queue(w)[i].closing
    ensures Comes(Sent(w, cmd), cmd)
  {
    var i := |Queue(w)|;
    assert Queue(Sent(w, cmd)) == Queue(w) + [cmd];
    assert Queue(Sent(w, cmd))[i] == cmd;
  }

  /** A new caller takes an id, registers and sends. */
  lemma {:induction false} Sends(st: State, l: LinkId, c: CallerId) returns (ys: seq<Action>, st': State)
    requires Serves(st, l) && c !in st.callers
    ensures ys == [Begin(c), Advance(c), Advance(c), Advance(c)] && Runnable(st, ys) && Run(st, ys) == st'
    ensures Unanswered(st', c) && st'.callers[c].pc == Waiting(st.nextId, l) && Reads(st', l)
    ensures st'.links[l].wire == Sent(st.links[l].wire, Cmd(st.nextId, false))
  {
    var s1 := Apply(st, Begin(c));
    var s2 := AdvanceCaller(s1, c);
    var s3 := AdvanceCaller(s2, c);
    st' := AdvanceCaller(s3, c);
    RunsOne(s3, Advance(c), []);
    RunsOne(s2, Advance(c), [Advance(c)]);
    RunsOne(s1, Advance(c), [Advance(c), Advance(c)]);
    RunsOne(st, Begin(c), [Advance(c), Advance(c), Advance(c)]);
    ys := [Begin(c)] + [Advance(c), Advance(c), Advance(c)];
  }

  /** Main result: in every reachable state with a working connection a new caller's command is sent to it, under
      the next id, and the caller can end with the worker's success or failure. */
  lemma {:induction false} CommandCanSucceed(xs: seq<Action>, l: LinkId, c: CallerId, ok: bool)
    requires Runnable(START, xs) && Serves(Run(START, xs), l) && c !in Run(START, xs).callers
    ensures var (st, ys) := (Run(START, xs), [Begin(c), Advance(c), Advance(c), Advance(c)]);
      && Runnable(st, ys) && Unanswered(Run(st, ys), c) && Run(st, ys).callers[c].pc == Waiting(st.nextId, l)
      && CanEndWith(Run(st, ys), c, if ok then Acked else Refused)
  {
    var st := Run(START, xs);
    var ys, st' := Sends(st, l, c);
    SentComes(st.links[l].wire, Cmd(st.nextId, false));
    RunsTogether(START, xs, ys);
    WaiterEnds(xs + ys, c, if ok then Acked else Refused);
  }

  /** A new connection works. */
  lemma {:induction false} ConnectServes(st: State, l: LinkId)
    requires Enabled(st, Connect(l))
    ensures Serves(Apply(st, Connect(l)), l)
  {
  }

  // ---------------------------------------------------------------- the life of a connection

  /** Main result: with no connection set and no run() under way a new one can be made, and it works; run()
      reads it until it stops, clears it, and returns, and then the next one can be made. Neither touches
      a caller or another connection. */
  lemma {:induction false} ConnectionLives(st: State, l: LinkId, m: LinkId)
    returns (xs: seq<Action>, up: State, ys: seq<Action>, down: State)
    requires st.current.None? && l !in st.links && m !in st.links && l != m
    requires forall k :: k in st.links ==> !Active(st.links[k].reader)
    ensures xs == [Connect(l), RunBegins(l), ReaderStarts(l)] && Runnable(st, xs) && up == Run(st, xs)
    ensures Serves(up, l) && up == ReadState(st, l)
    ensures ys == [ReaderStops(l), ReaderClears(l), ReaderFails(l)] && Runnable(up, ys) && down == Run(up, ys)
    ensures down == st.(links := st.links[l := Link(map[], NEW_WIRE, Ended)]) && Enabled(down, Connect(m))
  {
    xs := ConnectionComesUp(st, l);
    up := Run(st, xs);
    ys := ConnectionGoesDown(st, l);
    down := Run(up, ys);
  }

  /** The new connection is set and read; nothing else has changed. */
  function ReadState(st: State, l: LinkId): State {
    st.(current := Some(l), links := st.links[l := Link(map[], NEW_WIRE, Reading)])
  }

  lemma {:induction false} ConnectionComesUp(st: State, l: LinkId) returns (xs: seq<Action>)
    requires st.current.None? && l !in st.links && forall k :: k in st.links ==> !Active(st.links[k].reader)
    ensures xs == [Connect(l), RunBegins(l), ReaderStarts(l)] && Runnable(st, xs)
    ensures Run(st, xs) == ReadState(st, l) && Serves(Run(st, xs), l)
  {
    xs := Acts(st, [], Connect(l));
    xs := Acts(st, xs, RunBegins(l));
    xs := Acts(st, xs, ReaderStarts(l));
    assert Run(st, xs).links == ReadState(st, l).links;
  }

  lemma {:induction false} ConnectionGoesDown(st: State, l: LinkId) returns (ys: seq<Action>)
    requires st.current.None? && l !in st.links
    ensures ys == [ReaderStops(l), ReaderClears(l), ReaderFails(l)] && Runnable(ReadState(st, l), ys)
    ensures Run(ReadState(st, l), ys) == st.(links := st.links[l := Link(map[], NEW_WIRE, Ended)])
  {
    var up := ReadState(st, l);
    ys := Acts(up, [], ReaderStops(l));
    ys := Acts(up, ys, ReaderClears(l));
    ys := Acts(up, ys, ReaderFails(l));
    assert Run(up, ys).links == st.links[l := Link(map[], NEW_WIRE, Ended)];
  }

  /** Main result: without a connection a command ends at once, as not connected; on one whose writer has
      stopped it ends as a failed send, and leaves no registration. */
  lemma {:induction false} CommandFails(st: State, c: CallerId) returns (xs: seq<Action>)
    requires c !in st.callers
    requires st.current.Some? ==> st.current.value in st.links && !st.links[st.current.value].wire.writerUp
    ensures Runnable(st, xs) && c in Run(st, xs).callers
    ensures Run(st, xs).callers[c].pc ==
      if st.current.None? then Done(st.nextId, None, NotConnected) else Done(st.nextId, st.current, SendFailed)
    ensures Run(st, xs).nextId == st.nextId + 1 && Run(st, xs).links.Keys == st.links.Keys
    ensures forall k :: k in st.links ==>
      Run(st, xs).links[k] == if st.current != Some(k) then st.links[k]
        else st.links[k].(pending := st.links[k].pending - {st.nextId})
  {
    xs := Acts(st, [], Begin(c));
    xs := Acts(st, xs, Advance(c));
    if st.current.Some? {
      xs := Acts(st, xs, Advance(c));
      xs := Acts(st, xs, Advance(c));
      xs := Acts(st, xs, Advance(c));
    }
  }

  /** A writer can stop at any time; what it had not written is lost, and later commands fail. */
  lemma {:induction false} WriterCanStop(st: State, l: LinkId, c: CallerId) returns (xs: seq<Action>)
    requires st.current == Some(l) && l in st.links && st.links[l].wire.writerUp && c !in st.callers
    ensures Runnable(st, xs) && c in Run(st, xs).callers
    ensures Run(st, xs).callers[c].pc == Done(st.nextId, Some(l), SendFailed)
    ensures l in Run(st, xs).links && Run(st, xs).links[l].wire.channel == []
  {
    xs := Acts(st, [], WireMoves(l, WriterStops));
    var ys := CommandFails(Run(st, xs), c);
    RunsTogether(st, xs, ys);
    xs := xs + ys;
  }

  /** Main result: a worker can stop at any time; in every reachable state, an unanswered caller then hears of
      its command only what the worker had already put on the wire. */
  lemma {:induction false} WorkerCanStop(xs: seq<Action>, c: CallerId, ok: bool)
    requires Runnable(START, xs) && Unanswered(Run(START, xs), c)
    requires var st := Run(START, xs); WireOf(st, c).workerUp && Reads(st, st.callers[c].pc.l)
    ensures var (st, x) := (Run(START, xs), WireMoves(Run(START, xs).callers[c].pc.l, WorkerStops));
      && Enabled(st, x) && Unanswered(Apply(st, x), c)
      && (CanEndWith(Apply(st, x), c, if ok then Acked else Refused) <==>
        Report(Cmd(st.callers[c].pc.id, false), ok) in Unread(WireOf(st, c).messages))
  {
    var st := Run(START, xs);
    var x := WireMoves(st.callers[c].pc.l, WorkerStops);
    RunsOne(st, x, []);
    RunsTogether(START, xs, [x] + []);
    WaiterEnds(xs + ([x] + []), c, if ok then Acked else Refused);
  }

  // ---------------------------------------------------------------- the life of a close

  /** A close that found the connection `l`: its command went on the queue, if there is still somebody to
      write it; the worker is killed; whoever was registered is abandoned and nobody is registered. */
  ghost predicate ClosedDown(st: State, st': State, d: CallerId, l: LinkId)
    requires l in st.links
  {
    && st'.current.None? && st'.nextId == st.nextId + 1 && st'.links.Keys == st.links.Keys
    && (forall k :: k in st.links && k != l ==> st'.links[k] == st.links[k])
    && st'.links[l].pending == map[] && st'.links[l].reader == st.links[l].reader
    && var (w, w') := (st.links[l].wire, st'.links[l].wire);
      && !w'.workerUp && w'.busy == [] && w'.messages == w.messages && w'.ran == w.ran && w'.pipe == w.pipe
      && w'.channel == (if w.writerUp then w.channel + [Cmd(st.nextId, true)] else w.channel)
      && d in st'.callers && st'.callers[d].pc == CloseDone(st.nextId, l)
      && st'.callers.Keys == st.callers.Keys + {d}
      && forall c :: c in st.callers ==>
        st'.callers[c] == if c !in st.links[l].pending.Values then st.callers[c]
          else st.callers[c].(slot := Some(Abandoned))
  }

  /** Main result: in every reachable state a close ends: without a connection at once and without a trace,
      and otherwise with the connection closed down. */
  lemma {:induction false} CloseLives(xs: seq<Action>, d: CallerId) returns (ys: seq<Action>)
    requires Runnable(START, xs) && d !in Run(START, xs).callers
    ensures var st := Run(START, xs);
      && Runnable(st, ys)
      && match st.current
         case None => Run(st, ys) == st.(callers := st.callers[d := Caller(CloseIdle, None)])
         case Some(l) => l in st.links && ClosedDown(st, Run(st, ys), d, l)
  {
    var st := Run(START, xs);
    RunKeepsInv(START, xs);
    if st.current.Some? {
      NewcomerUnregistered(st, d, st.current.value);
      ys := CloseRuns(st, d, st.current.value);
    } else {
      ys := Acts(st, [], BeginClose(d));
    }
  }

  /** The close has told the worker, if its writer still takes commands. */
  function ToldState(st: State, d: CallerId, l: LinkId): State
    requires l in st.links
  {
    var w := st.links[l].wire;
    var queue := if w.writerUp then w.channel + [Cmd(st.nextId, true)] else w.channel;
    var sent := if w.writerUp then w.sent + [Cmd(st.nextId, true)] else w.sent;
    State(st.nextId + 1, None, st.links[l := st.links[l].(wire := w.(channel := queue, sent := sent))],
      st.callers[d := Caller(CloseSent(st.nextId, l), None)], st.owner[st.nextId := d])
  }

  /** It has killed the worker, and has yet to drain the registrations. */
  function KilledState(st: State, d: CallerId, l: LinkId): State
    requires l in st.links
  {
    var told := ToldState(st, d, l);
    told.(links := told.links[l := told.links[l].(wire := told.links[l].wire.(workerUp := false, busy := []))],
          callers := told.callers[d := Caller(CloseKilled(st.nextId, l), None)])
  }

  lemma {:induction false} CloseTells(st: State, d: CallerId, l: LinkId) returns (ys: seq<Action>)
    requires st.current == Some(l) && l in st.links && d !in st.callers
    ensures Runnable(st, ys) && Run(st, ys) == ToldState(st, d, l)
  {
    ys := Acts(st, [], BeginClose(d));
    ys := Acts(st, ys, Advance(d));
    ys := Acts(st, ys, Advance(d));
    assert Run(st, ys).links == ToldState(st, d, l).links;
    assert Run(st, ys).callers == ToldState(st, d, l).callers;
  }

  lemma {:induction false} CloseKills(st: State, d: CallerId, l: LinkId) returns (ys: seq<Action>)
    requires st.current == Some(l) && l in st.links && d !in st.callers
    ensures Runnable(st, ys) && Run(st, ys) == KilledState(st, d, l)
  {
    ys := CloseTells(st, d, l);
    ys := Acts(st, ys, Advance(d));
  }

  lemma {:induction false} CloseRuns(st: State, d: CallerId, l: LinkId) returns (ys: seq<Action>)
    requires st.current == Some(l) && l in st.links && d !in st.callers && d !in st.links[l].pending.Values
    ensures Runnable(st, ys) && ClosedDown(st, Run(st, ys), d, l)
  {
    ys := CloseKills(st, d, l);
    ys := Acts(st, ys, Advance(d));
    assert Run(st, ys) == SetPc(FailAll(KilledState(st, d, l), l), d, CloseDone(st.nextId, l));
  }

  lemma {:induction false} NewcomerUnregistered(st: State, d: CallerId, l: LinkId)
    requires Inv(st) && d !in st.callers && l in st.links
    ensures d !in st.links[l].pending.Values
  {
    assert LinkOk(st, l, st.links[l]);
  }

  /** What the worker says between its acknowledgements is read and answers nobody. */
  lemma {:induction false} NoteIsRead(st: State, l: LinkId) returns (xs: seq<Action>)
    requires l in st.links && st.links[l].reader.Reading?
    requires st.links[l].wire.workerUp && st.links[l].wire.messages == []
    ensures xs == [WireMoves(l, Say), ReaderReads(l)] && Runnable(st, xs) && Run(st, xs) == st
  {
    xs := Acts(st, [], WireMoves(l, Say));
    xs := Acts(st, xs, ReaderReads(l));
    assert Run(st, xs).links[l].wire == st.links[l].wire;
    assert Run(st, xs).links == st.links;
  }
}
