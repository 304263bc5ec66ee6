// One connection to a docker worker as a pipeline: command channel, writer task,
// worker stdin, the worker itself, its message queue, and the reader loop. Commands
// run in the order they were sent and acknowledgements come back in that order.

module DockerWire {
  import opened Prelude

  type Id = nat

  datatype Cmd = Cmd(id: Id, closing: bool)

  /** The worker's acknowledgement of a command. */
  datatype Report = Report(cmd: Cmd, ok: bool)

  datatype Msg = Ack(report: Report) | Note

  /** `sent`, `ran`, `acked` and `consumed` are history: commands put on the channel, executed,
      acknowledged by the worker, and acknowledgements read by the reader loop. */
  datatype Wire = Wire(
    channel: seq<Cmd>,
    writerUp: bool,
    pipe: seq<Cmd>,
    workerUp: bool,
    busy: seq<Report>,
    messages: seq<Msg>,
    sent: seq<Cmd>,
    ran: seq<Report>,
    acked: seq<Report>,
    consumed: seq<Report>)

  const NEW_WIRE := Wire([], true, [], true, [], [], [], [], [], [])

  datatype WireStep =
    | Write                     // the writer task copies one command to the worker's stdin
    | WriterStops               // a write fails: the channel's receiver goes away with what it held
    | Execute(ok: bool)         // the worker reads and runs one command
    | Acknowledge               // the worker queues the acknowledgement; after Close it exits
    | Say                       // started, audio, text, transcript or error message
    | WorkerStops               // killed, or exits
    | LoseTail(n: nat)          // output that a stopped worker never flushed
    | Read                      // the reader loop takes one message

  predicate CanStep(w: Wire, x: WireStep) {
    match x
    case Write => w.writerUp && w.channel != []
    case WriterStops => w.writerUp
    case Execute(_) => w.workerUp && w.busy == [] && w.pipe != []
    case Acknowledge => w.workerUp && w.busy != []
    case Say => w.workerUp
    case WorkerStops => w.workerUp
    case LoseTail(n) => !w.workerUp && n <= |w.messages|
    case Read => w.messages != []
  }

  function StepWire(w: Wire, x: WireStep): Wire
    requires CanStep(w, x)
  {
    match x
    case Write => w.(channel := w.channel[1..], pipe := w.pipe + [w.channel[0]])
    case WriterStops => w.(channel := [], writerUp := false)
    case Execute(ok) =>
      var r := Report(w.pipe[0], ok);
      w.(pipe := w.pipe[1..], busy := [r], ran := w.ran + [r])
    case Acknowledge =>
      var r := w.busy[0];
      w.(busy := [], messages := w.messages + [Ack(r)], acked := w.acked + [r], workerUp := !r.cmd.closing)
    case Say => w.(messages := w.messages + [Note])
    case WorkerStops => w.(workerUp := false, busy := [])
    case LoseTail(n) => w.(messages := w.messages[..n])
    case Read =>
      w.(messages := w.messages[1..],
         consumed := w.consumed + if w.messages[0].Ack? then [w.messages[0].report] else [])
  }

  /** command_tx.send succeeds while the writer task holds the receiver. */
  function Sent(w: Wire, c: Cmd): Wire {
    if w.writerUp then w.(channel := w.channel + [c], sent := w.sent + [c]) else w
  }

  function Cmds(rs: seq<Report>): (r: seq<Cmd>)
    ensures |r| == |rs|
    ensures forall i :: 0 <= i < |rs| ==> r[i] == rs[i].cmd
  {
    seq(|rs|, i requires 0 <= i < |rs| => rs[i].cmd)
  }

  /** The acknowledgements among queued messages. */
  function Unread(ms: seq<Msg>): seq<Report> {
    if ms == [] then [] else (if ms[0].Ack? then [ms[0].report] else []) + Unread(ms[1..])
  }

  lemma {:induction false} UnreadAppend(a: seq<Msg>, b: seq<Msg>)
    ensures Unread(a + b) == Unread(a) + Unread(b)
  {
    if a == [] {
      assert a + b == b;
    } else {
      assert (a + b)[0] == a[0] && (a + b)[1..] == a[1..] + b;
      UnreadAppend(a[1..], b);
      Regroup(if a[0].Ack? then [a[0].report] else [], Unread(a[1..]), Unread(b));
    }
  }

  predicate IdsDistinct(cs: seq<Cmd>) {
    forall i, j :: 0 <= i < j < |cs| ==> cs[i].id != cs[j].id
  }

  /** A Close is the last thing the worker runs. */
  predicate CloseLast(rs: seq<Report>) {
    forall i :: 0 <= i < |rs| - 1 ==> !rs[i].cmd.closing
  }

  ghost predicate WireOk(w: Wire) {
    && IdsDistinct(w.sent)
    && Cmds(w.ran) + w.pipe + w.channel <= w.sent
    && (w.writerUp ==> Cmds(w.ran) + w.pipe + w.channel == w.sent)
    && (w.workerUp ==> w.ran == w.acked + w.busy && |w.busy| <= 1)
    && (!w.workerUp ==> w.acked <= w.ran && |w.ran| <= |w.acked| + 1 && w.busy == [])
    && w.consumed + Unread(w.messages) <= w.acked
    && (w.workerUp ==> w.consumed + Unread(w.messages) == w.acked)
    && CloseLast(w.ran)
    && (w.workerUp && w.busy == [] && w.ran != [] ==> !w.ran[|w.ran| - 1].cmd.closing)
  }

  lemma NewWireOk()
    ensures WireOk(NEW_WIRE)
  {
  }

  lemma SentKeeps(w: Wire, c: Cmd)
    requires WireOk(w) && forall i :: 0 <= i < |w.sent| ==> w.sent[i].id != c.id
    ensures WireOk(Sent(w, c))
  {
    if w.writerUp {
      assert Cmds(w.ran) + w.pipe + (w.channel + [c]) == w.sent + [c];
    }
  }

  lemma AcknowledgeKeeps(w: Wire)
    requires WireOk(w) && CanStep(w, Acknowledge)
    ensures WireOk(StepWire(w, Acknowledge))
  {
    var w' := StepWire(w, Acknowledge);
    UnreadAppend(w.messages, [Ack(w.busy[0])]);
    assert w.busy == [w.busy[0]];
    assert w'.consumed + Unread(w'.messages) == w'.acked;
  }

  lemma ReadKeeps(w: Wire)
    requires WireOk(w) && CanStep(w, Read)
    ensures WireOk(StepWire(w, Read))
  {
    var w' := StepWire(w, Read);
    var head := if w.messages[0].Ack? then [w.messages[0].report] else [];
    assert Unread(w.messages) == head + Unread(w'.messages);
    assert (w.consumed + head) + Unread(w'.messages) == w.consumed + (head + Unread(w'.messages));
  }

  lemma WriteKeeps(w: Wire)
    requires WireOk(w) && CanStep(w, Write)
    ensures WireOk(StepWire(w, Write))
  {
    var w' := StepWire(w, Write);
    assert Cmds(w'.ran) + w'.pipe + w'.channel == Cmds(w.ran) + w.pipe + w.channel;
  }

  lemma ExecuteKeeps(w: Wire, ok: bool)
    requires WireOk(w) && CanStep(w, Execute(ok))
    ensures WireOk(StepWire(w, Execute(ok)))
  {
    var w' := StepWire(w, Execute(ok));
    assert Cmds(w'.ran) + w'.pipe + w'.channel == Cmds(w.ran) + w.pipe + w.channel;
  }

  lemma LoseTailKeeps(w: Wire, n: nat)
    requires WireOk(w) && CanStep(w, LoseTail(n))
    ensures WireOk(StepWire(w, LoseTail(n)))
  {
    UnreadAppend(w.messages[..n], w.messages[n..]);
    assert w.messages == w.messages[..n] + w.messages[n..];
    assert w.consumed + Unread(w.messages[..n]) <= w.consumed + Unread(w.messages);
  }

  lemma StepKeepsWire(w: Wire, x: WireStep)
    requires WireOk(w) && CanStep(w, x)
    ensures WireOk(StepWire(w, x))
  {
    match x
    case Write => WriteKeeps(w);
    case WriterStops => assert Cmds(w.ran) + w.pipe + [] <= w.sent;
    case Execute(ok) => ExecuteKeeps(w, ok);
    case Acknowledge => AcknowledgeKeeps(w);
    case Say => UnreadAppend(w.messages, [Note]);
    case WorkerStops =>
    case LoseTail(n) => LoseTailKeeps(w, n);
    case Read => ReadKeeps(w);
  }

  // ---------------------------------------------------------------- what the invariant says

  /** What the reader has seen is a prefix of the worker's acknowledgements, these are
      a prefix of what it ran, and that is a prefix of what was put on the command channel; a Close
      is the last command that is run, so nothing after it is acknowledged. */
  lemma AcksFollowCommands(w: Wire)
    requires WireOk(w)
    ensures Cmds(w.consumed) <= Cmds(w.acked) <= Cmds(w.ran) <= w.sent
    ensures forall i :: 0 <= i < |w.ran| && w.ran[i].cmd.closing ==> i == |w.ran| - 1
  {
    assert w.acked <= w.ran && w.consumed <= w.acked;
    assert Cmds(w.ran) <= Cmds(w.ran) + w.pipe + w.channel;
  }

  predicate NoSharedId(a: seq<Cmd>, b: seq<Cmd>) {
    forall i, j :: 0 <= i < |a| && 0 <= j < |b| ==> a[i].id != b[j].id
  }

  /** The ids in the command queue, in unread acknowledgements and in those already
      read are pairwise disjoint. */
  lemma StagesDisjoint(w: Wire)
    requires WireOk(w)
    ensures NoSharedId(w.pipe + w.channel, Cmds(Unread(w.messages)))
    ensures NoSharedId(w.pipe + w.channel, Cmds(w.consumed))
    ensures NoSharedId(Cmds(Unread(w.messages)), Cmds(w.consumed))
  {
    var queue, unread, read := w.pipe + w.channel, Cmds(Unread(w.messages)), Cmds(w.consumed);
    var all := Cmds(w.ran) + w.pipe + w.channel;
    var seen := w.consumed + Unread(w.messages);
    assert seen <= w.acked <= w.ran;
    forall j | 0 <= j < |unread| ensures unread[j] == all[|read| + j] && |read| + j < |w.ran| {
      assert unread[j] == seen[|read| + j].cmd;
    }
    forall j | 0 <= j < |read| ensures read[j] == all[j] && j < |w.ran| {
      assert read[j] == seen[j].cmd;
    }
    assert forall i :: 0 <= i < |queue| ==> queue[i] == all[|w.ran| + i];
    assert IdsDistinct(all);
  }

  // ---------------------------------------------------------------- what can still come back

  /** The commands the worker has yet to start, as far as it can still get them. */
  function Queue(w: Wire): seq<Cmd> {
    w.pipe + if w.writerUp then w.channel else []
  }

  /** The command waits for a worker that has no Close to run before it. */
  predicate Comes(w: Wire, cmd: Cmd) {
    && w.workerUp && (forall i :: 0 <= i < |w.busy| ==> !w.busy[i].cmd.closing)
    && exists i :: 0 <= i < |Queue(w)| && Queue(w)[i] == cmd && forall j :: 0 <= j < i ==> !Queue(w)[j].closing
  }

  /** An acknowledgement of the command with this outcome can still be read. */
  predicate Deliverable(w: Wire, cmd: Cmd, ok: bool) {
    Report(cmd, ok) in Unread(w.messages) || (w.workerUp && Report(cmd, ok) in w.busy) || Comes(w, cmd)
  }

  lemma {:induction false} UnreadOfPrefix(ms: seq<Msg>, n: nat, r: Report)
    requires n <= |ms| && r in Unread(ms[..n])
    ensures r in Unread(ms)
  {
    UnreadAppend(ms[..n], ms[n..]);
    assert ms == ms[..n] + ms[n..];
  }

  /** No step makes an acknowledgement possible that was not. */
  lemma {:induction false} StepDelivers(w: Wire, x: WireStep, cmd: Cmd, ok: bool)
    requires |w.busy| <= 1 && CanStep(w, x) && Deliverable(StepWire(w, x), cmd, ok)
    ensures Deliverable(w, cmd, ok)
  {
    var w' := StepWire(w, x);
    if Comes(w', cmd) && !x.Execute? && !x.Acknowledge? {
      assert x.Write? ==> Queue(w') == Queue(w);
      QueueCut(w, w', cmd);
    }
    match x
    case Write =>
    case WriterStops =>
    case Execute(b) => ExecuteDelivers(w, b, cmd, ok);
    case Acknowledge => AcknowledgeDelivers(w, cmd, ok);
    case Say =>
      UnreadAppend(w.messages, [Note]);
      assert Unread([Note]) == [];
    case WorkerStops =>
    case LoseTail(n) =>
      if Report(cmd, ok) in Unread(w'.messages) {
        UnreadOfPrefix(w.messages, n, Report(cmd, ok));
      }
    case Read =>
  }

  /** A queue cut short, or with other commands behind it, brings nothing new. */
  lemma QueueCut(w: Wire, w': Wire, cmd: Cmd)
    requires Queue(w') <= Queue(w) && w'.workerUp == w.workerUp && w'.busy == w.busy && Comes(w', cmd)
    ensures Comes(w, cmd)
  {
    var i :| 0 <= i < |Queue(w')| && Queue(w')[i] == cmd && forall j :: 0 <= j < i ==> !Queue(w')[j].closing;
    assert Queue(w)[i] == cmd && forall j :: 0 <= j < i ==> Queue(w)[j] == Queue(w')[j];
  }

  lemma ExecuteDelivers(w: Wire, b: bool, cmd: Cmd, ok: bool)
    requires CanStep(w, Execute(b)) && Deliverable(StepWire(w, Execute(b)), cmd, ok)
    ensures Deliverable(w, cmd, ok)
  {
    var w' := StepWire(w, Execute(b));
    assert Queue(w) == [w.pipe[0]] + Queue(w');
    if Comes(w', cmd) {
      var i :| 0 <= i < |Queue(w')| && Queue(w')[i] == cmd && forall j :: 0 <= j < i ==> !Queue(w')[j].closing;
      assert w'.busy[0].cmd == w.pipe[0];
      assert Queue(w)[i + 1] == cmd;
      forall j | 0 <= j < i + 1 ensures !Queue(w)[j].closing {
        assert j > 0 ==> Queue(w)[j] == Queue(w')[j - 1];
      }
    } else if Report(cmd, ok) in w'.busy {
      assert Queue(w)[0] == cmd;
    }
  }

  lemma AcknowledgeDelivers(w: Wire, cmd: Cmd, ok: bool)
    requires |w.busy| <= 1 && CanStep(w, Acknowledge) && Deliverable(StepWire(w, Acknowledge), cmd, ok)
    ensures Deliverable(w, cmd, ok)
  {
    var w' := StepWire(w, Acknowledge);
    UnreadAppend(w.messages, [Ack(w.busy[0])]);
    if Comes(w', cmd) {
      assert Queue(w') == Queue(w);
    }
  }

  lemma SentDelivers(w: Wire, other: Cmd, cmd: Cmd, ok: bool)
    requires Deliverable(Sent(w, other), cmd, ok) && other != cmd
    ensures Deliverable(w, cmd, ok)
  {
    var w' := Sent(w, other);
    if Comes(w', cmd) && w.writerUp {
      assert Queue(w') == Queue(w) + [other];
      var i :| 0 <= i < |Queue(w')| && Queue(w')[i] == cmd && forall j :: 0 <= j < i ==> !Queue(w')[j].closing;
      assert Queue(w)[i] == cmd && forall j :: 0 <= j < i ==> Queue(w)[j] == Queue(w')[j];
    }
  }

  /** No command is acknowledged twice among the unread messages. */
  lemma UnreadDistinct(w: Wire)
    requires WireOk(w)
    ensures IdsDistinct(Cmds(Unread(w.messages)))
  {
    var unread, n := Unread(w.messages), |w.consumed|;
    var seen := w.consumed + unread;
    assert seen <= w.acked <= w.ran && Cmds(w.ran) <= Cmds(w.ran) + w.pipe + w.channel <= w.sent;
    forall i, j | 0 <= i < j < |unread| ensures unread[i].cmd.id != unread[j].cmd.id {
      assert unread[i] == seen[n + i] && unread[j] == seen[n + j];
      assert Cmds(w.ran)[n + i] == w.sent[n + i] && Cmds(w.ran)[n + j] == w.sent[n + j];
    }
  }

  /** An acknowledgement that has not arrived is brought nearer by the worker's side of the wire. */
  lemma Progress(w: Wire, cmd: Cmd, ok: bool) returns (x: WireStep)
    requires WireOk(w) && Deliverable(w, cmd, ok) && !cmd.closing && Report(cmd, ok) !in Unread(w.messages)
    ensures !x.Read? && CanStep(w, x) && Deliverable(StepWire(w, x), cmd, ok)
    ensures var w' := StepWire(w, x);
      || |w'.channel| < |w.channel|
      || (w'.channel == w.channel && |w'.pipe| < |w.pipe|)
      || (w'.channel == w.channel && w'.pipe == w.pipe && |w'.busy| < |w.busy|)
  {
    if w.busy != [] {
      x := Acknowledge;
      AcknowledgeBrings(w, cmd, ok);
    } else if w.pipe != [] {
      x := Execute(ok);
      ExecuteBrings(w, cmd, ok);
    } else {
      x := Write;
      assert Queue(StepWire(w, Write)) == Queue(w);
    }
  }

  lemma AcknowledgeBrings(w: Wire, cmd: Cmd, ok: bool)
    requires w.workerUp && |w.busy| == 1 && Deliverable(w, cmd, ok)
    ensures Deliverable(StepWire(w, Acknowledge), cmd, ok)
  {
    var w' := StepWire(w, Acknowledge);
    UnreadAppend(w.messages, [Ack(w.busy[0])]);
    assert Unread([Ack(w.busy[0])]) == [w.busy[0]];
    if Comes(w, cmd) {
      assert Queue(w') == Queue(w);
    }
  }

  lemma ExecuteBrings(w: Wire, cmd: Cmd, ok: bool)
    requires w.busy == [] && w.pipe != [] && Comes(w, cmd)
    ensures CanStep(w, Execute(ok)) && Deliverable(StepWire(w, Execute(ok)), cmd, ok)
  {
    var w' := StepWire(w, Execute(ok));
    assert Queue(w) == [w.pipe[0]] + Queue(w');
    var i :| 0 <= i < |Queue(w)| && Queue(w)[i] == cmd && forall j :: 0 <= j < i ==> !Queue(w)[j].closing;
    if i > 0 {
      assert Queue(w')[i - 1] == cmd;
      forall j | 0 <= j < i - 1 ensures !Queue(w')[j].closing {
        assert Queue(w)[j + 1] == Queue(w')[j];
      }
      assert !Queue(w)[0].closing;
      assert Comes(w', cmd);
    } else {
      assert Report(cmd, ok) in w'.busy;
    }
  }
}
