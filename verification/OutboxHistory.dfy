// What happens to queued channel output over a whole run of the lock-granular
// gateway: nothing is duplicated or reordered, and only a termination or a forced
// recreation loses anything.

module OutboxHistory {
  import opened Prelude
  import opened GatewayState
  import opened GatewaySteps

  /** The one thing a step may do to the outbox. */
  datatype OutboxOp =
    | Nothing
    | Enqueue(key: RouteKey, item: Item)
    | Drain(key: RouteKey, n: nat)
    | Discard(keys: set<RouteKey>)

  function Perform(o: Outbox, op: OutboxOp): Outbox {
    match op
    case Nothing => o
    case Enqueue(k, i) => Push(o, k, i)
    case Drain(k, n) => Drained(o, k, n)
    case Discard(keys) => o - keys
  }

  function PcOp(pc: Pc): OutboxOp {
    match pc
    case TranscriptPush(key, item) => Enqueue(key, item)
    case OutboxDrain(key, n) => Drain(key, n)
    case TermOutbox(_, removed) => Discard(removed)
    case ForceOutbox(t, _) => Discard({t.key})
    case _ => Nothing
  }

  function OpOf(s: Sys, x: Action): OutboxOp
    requires Enabled(s, x)
  {
    if x.Tick? then PcOp(s.actors[x.cid].pc) else Nothing
  }

  lemma TerminatePerforms(c: Cut)
    requires Terminating(c.a.pc)
    ensures StepTerminate(c).g.outbox == Perform(c.g.outbox, PcOp(c.a.pc)) && StepTerminate(c).h.handed == c.h.handed
  {
    if !c.a.pc.TermOutbox? {
      assert PcOp(c.a.pc) == Nothing;
      assert StepTerminate(c).g.outbox == c.g.outbox;
    }
  }

  lemma ForcePerforms(c: Cut)
    requires Forcing(c.a.pc)
    ensures StepForce(c).g.outbox == Perform(c.g.outbox, PcOp(c.a.pc)) && StepForce(c).h.handed == c.h.handed
  {
    if !c.a.pc.ForceOutbox? {
      assert PcOp(c.a.pc) == Nothing;
      assert StepForce(c).g.outbox == c.g.outbox;
    }
  }

  ghost predicate Untouched(c: Cut, c': Cut) {
    c'.g.outbox == c.g.outbox && c'.h.handed == c.h.handed
  }

  lemma QuietPc(pc: Pc)
    requires Creating(pc) || Authorizing(pc) || Routing(pc)
    ensures PcOp(pc).Nothing?
  {
  }

  lemma CreatePerforms(c: Cut, cid: ConnId, env: Env)
    requires Creating(c.a.pc)
    ensures Untouched(c, StepCreate(c, cid, env))
  {
    match c.a.pc
    case RunnerCreate(_) =>
    case OwnerInsert(_, _) =>
    case ResponderInsert(_, _) =>
    case PriorityInsert(_, _) =>
  }

  lemma AuthPerforms(c: Cut, cid: ConnId)
    requires Authorizing(c.a.pc)
    ensures Untouched(c, StepAuth(c, cid))
  {
  }

  lemma RoutePerforms(c: Cut, env: Env)
    requires Routing(c.a.pc)
    ensures Untouched(c, StepRoute(c, env))
  {
  }

  /** The items a step hands to a poll. */
  function Handing(c: Cut): seq<Handover> {
    match PcOp(c.a.pc)
    case Drain(key, n) => HandedOver(Acting(c.a.conn), key, Queued(c.g.outbox, key)[..Taken(c.g.outbox, key, n)])
    case _ => []
  }

  lemma StepPerforms(c: Cut, cid: ConnId, env: Env)
    ensures Step(c, cid, env).g.outbox == Perform(c.g.outbox, PcOp(c.a.pc))
    ensures Step(c, cid, env).h.handed == c.h.handed + Handing(c)
  {
    if Terminating(c.a.pc) {
      TerminatePerforms(c);
    } else if Forcing(c.a.pc) {
      ForcePerforms(c);
    } else if Creating(c.a.pc) {
      QuietPc(c.a.pc);
      CreatePerforms(c, cid, env);
    } else if Authorizing(c.a.pc) {
      QuietPc(c.a.pc);
      AuthPerforms(c, cid);
    } else if Routing(c.a.pc) {
      QuietPc(c.a.pc);
      RoutePerforms(c, env);
    }
  }

  lemma ApplyPerforms(s: Sys, x: Action)
    requires Enabled(s, x)
    ensures Apply(s, x).g.outbox == Perform(s.g.outbox, OpOf(s, x))
    ensures Apply(s, x).h.handed == s.h.handed + if x.Tick? then Handing(Cut(s.g, s.h, s.actors[x.cid])) else []
  {
    if x.Tick? {
      StepPerforms(Cut(s.g, s.h, s.actors[x.cid]), x.cid, x.env);
    }
  }

  /** The outbox operations of a run, in order. */
  function Trace(s: Sys, xs: seq<Action>): seq<OutboxOp>
    requires Runnable(s, xs)
    decreases |xs|
  {
    if xs == [] then [] else [OpOf(s, xs[0])] + Trace(Apply(s, xs[0]), xs[1..])
  }

  function PerformAll(o: Outbox, ops: seq<OutboxOp>): Outbox
    decreases |ops|
  {
    if ops == [] then o else PerformAll(Perform(o, ops[0]), ops[1..])
  }

  /** What one operation puts on route `k`'s queue, takes from it, and whether it discards it. */
  function Put(op: OutboxOp, k: RouteKey): seq<Item> {
    if op.Enqueue? && op.key == k then [op.item] else []
  }

  function Took(o: Outbox, op: OutboxOp, k: RouteKey): seq<Item> {
    if op.Drain? && op.key == k then Queued(o, k)[..Taken(o, k, op.n)] else []
  }

  predicate Drops(op: OutboxOp, k: RouteKey) {
    op.Discard? && k in op.keys
  }

  /** The same over a run of operations. */
  function Enqueued(ops: seq<OutboxOp>, k: RouteKey): seq<Item> {
    if ops == [] then [] else Put(ops[0], k) + Enqueued(ops[1..], k)
  }

  function Delivered(o: Outbox, ops: seq<OutboxOp>, k: RouteKey): seq<Item>
    decreases |ops|
  {
    if ops == [] then [] else Took(o, ops[0], k) + Delivered(Perform(o, ops[0]), ops[1..], k)
  }

  predicate Discards(ops: seq<OutboxOp>, k: RouteKey) {
    ops != [] && (Drops(ops[0], k) || Discards(ops[1..], k))
  }

  /** `a` is `b` with some elements left out, in the same order. */
  ghost predicate Subsequence<T>(a: seq<T>, b: seq<T>) {
    a == [] || (b != [] && ((a[0] == b[0] && Subsequence(a[1..], b[1..])) || Subsequence(a, b[1..])))
  }

  lemma {:induction false} SubsequenceOfItself<T>(a: seq<T>)
    ensures Subsequence(a, a)
  {
    if a != [] {
      SubsequenceOfItself(a[1..]);
    }
  }

  lemma {:induction false} SubsequenceBehind<T>(p: seq<T>, a: seq<T>, b: seq<T>)
    requires Subsequence(a, b)
    ensures Subsequence(p + a, p + b)
  {
    if p == [] {
      assert p + a == a && p + b == b;
    } else {
      SubsequenceBehind(p[1..], a, b);
      assert (p + a)[1..] == p[1..] + a && (p + b)[1..] == p[1..] + b;
    }
  }

  lemma {:induction false} SubsequenceOfMore<T>(a: seq<T>, p: seq<T>, b: seq<T>)
    requires Subsequence(a, b)
    ensures Subsequence(a, p + b)
  {
    if p == [] {
      assert p + b == b;
    } else {
      SubsequenceOfMore(a, p[1..], b);
      assert (p + b)[1..] == p[1..] + b;
    }
  }

  predicate Distinct<T(==)>(a: seq<T>) {
    forall i, j :: 0 <= i < j < |a| ==> a[i] != a[j]
  }

  lemma {:induction false} SubsequenceKeepsDistinct<T>(a: seq<T>, b: seq<T>)
    requires Subsequence(a, b) && Distinct(b)
    ensures forall i :: 0 <= i < |a| ==> a[i] in b
    ensures Distinct(a)
  {
    if a != [] {
      if a[0] == b[0] && Subsequence(a[1..], b[1..]) {
        SubsequenceKeepsDistinct(a[1..], b[1..]);
        forall i | 0 <= i < |a| ensures a[i] in b {
          assert i > 0 ==> a[i] == a[1..][i - 1];
        }
        forall i, j | 0 <= i < j < |a| ensures a[i] != a[j] {
          assert a[j] == a[1..][j - 1] && a[j] in b[1..];
          assert i > 0 ==> a[i] == a[1..][i - 1];
        }
      } else {
        SubsequenceKeepsDistinct(a, b[1..]);
      }
    }
  }

  // ---------------------------------------------------------------- one run of operations

  lemma OneOpBalances(o: Outbox, op: OutboxOp, k: RouteKey)
    ensures !Drops(op, k) ==> Queued(o, k) + Put(op, k) == Took(o, op, k) + Queued(Perform(o, op), k)
    ensures Drops(op, k) ==> Put(op, k) == Took(o, op, k) == Queued(Perform(o, op), k) == []
  {
  }

  lemma Rebalance<T>(q: seq<T>, p: seq<T>, e: seq<T>, t: seq<T>, q1: seq<T>)
    requires q + p == t + q1
    ensures q + (p + e) == t + (q1 + e)
  {
    assert q + (p + e) == (q + p) + e;
    assert t + (q1 + e) == (t + q1) + e;
  }

  /** Conservation: without a discard, what was there and what came in is what was delivered and what is left. */
  lemma {:induction false} Conserved(o: Outbox, ops: seq<OutboxOp>, k: RouteKey)
    requires !Discards(ops, k)
    ensures Queued(o, k) + Enqueued(ops, k) == Delivered(o, ops, k) + Queued(PerformAll(o, ops), k)
    decreases |ops|
  {
    if ops != [] {
      var o1 := Perform(o, ops[0]);
      OneOpBalances(o, ops[0], k);
      Conserved(o1, ops[1..], k);
      Rebalance(Queued(o, k), Put(ops[0], k), Enqueued(ops[1..], k), Took(o, ops[0], k), Queued(o1, k));
      Regroup(Took(o, ops[0], k), Delivered(o1, ops[1..], k), Queued(PerformAll(o, ops), k));
    }
  }

  /** In every case what is delivered, followed by what is left, keeps the order and repeats nothing. */
  lemma {:induction false} NeverReordered(o: Outbox, ops: seq<OutboxOp>, k: RouteKey)
    ensures Subsequence(Delivered(o, ops, k) + Queued(PerformAll(o, ops), k), Queued(o, k) + Enqueued(ops, k))
    decreases |ops|, 1
  {
    if ops == [] {
      SubsequenceOfItself(Queued(o, k));
      assert Delivered(o, ops, k) + Queued(PerformAll(o, ops), k) == Queued(o, k);
      assert Queued(o, k) + Enqueued(ops, k) == Queued(o, k);
    } else {
      NeverReorderedStep(o, ops[0], ops[1..], k);
    }
  }

  lemma {:induction false} NeverReorderedStep(o: Outbox, op: OutboxOp, ops: seq<OutboxOp>, k: RouteKey)
    ensures Subsequence(
      (Took(o, op, k) + Delivered(Perform(o, op), ops, k)) + Queued(PerformAll(Perform(o, op), ops), k),
                        Queued(o, k) + (Put(op, k) + Enqueued(ops, k)))
    decreases |ops|, 2
  {
    var o1 := Perform(o, op);
    var took, put, came := Took(o, op, k), Put(op, k), Enqueued(ops, k);
    var out := Delivered(o1, ops, k) + Queued(PerformAll(o1, ops), k);
    NeverReordered(o1, ops, k);
    OneOpBalances(o, op, k);
    Regroup(took, Delivered(o1, ops, k), Queued(PerformAll(o1, ops), k));
    if Drops(op, k) {
      SubsequenceOfMore(out, Queued(o, k), Queued(o1, k) + came);
      assert put + came == Queued(o1, k) + came;
      assert took + out == out;
    } else {
      SubsequenceBehind(took, out, Queued(o1, k) + came);
      Rebalance(Queued(o, k), put, came, took, Queued(o1, k));
    }
  }

  // ---------------------------------------------------------------- runs of the gateway

  /** The items a history hands to polls of `k`. */
  function HandedFor(hs: seq<Handover>, k: RouteKey): seq<Item> {
    if hs == [] then [] else (if hs[0].key == k then [hs[0].item] else []) + HandedFor(hs[1..], k)
  }

  lemma {:induction false} HandedForAppend(hs: seq<Handover>, more: seq<Handover>, k: RouteKey)
    ensures HandedFor(hs + more, k) == HandedFor(hs, k) + HandedFor(more, k)
  {
    if hs == [] {
      assert hs + more == more;
    } else {
      HandedForAppend(hs[1..], more, k);
      assert (hs + more)[1..] == hs[1..] + more;
    }
  }

  lemma {:induction false} HandedForBatch(p: Principal, key: RouteKey, items: seq<Item>, k: RouteKey)
    ensures HandedFor(HandedOver(p, key, items), k) == if key == k then items else []
  {
    if items != [] {
      HandedForBatch(p, key, items[1..], k);
      assert HandedOver(p, key, items)[1..] == HandedOver(p, key, items[1..]);
    }
  }

  lemma DeliveredOne(o: Outbox, op: OutboxOp, k: RouteKey)
    ensures Delivered(o, [op], k) == Took(o, op, k)
  {
    assert [op][1..] == [];
    assert Delivered(Perform(o, op), [], k) == [];
  }

  lemma ApplyHands(s: Sys, x: Action, k: RouteKey)
    requires Enabled(s, x)
    ensures HandedFor(Apply(s, x).h.handed, k) ==
      HandedFor(s.h.handed, k) + Delivered(s.g.outbox, [OpOf(s, x)], k)
  {
    var op := OpOf(s, x);
    ApplyPerforms(s, x);
    DeliveredOne(s.g.outbox, op, k);
    if op.Drain? {
      var conn := s.actors[x.cid].conn;
      var items := Queued(s.g.outbox, op.key)[..Taken(s.g.outbox, op.key, op.n)];
      HandedForAppend(s.h.handed, HandedOver(Acting(conn), op.key, items), k);
      HandedForBatch(Acting(conn), op.key, items, k);
    } else {
      assert Apply(s, x).h.handed == s.h.handed;
    }
  }

  lemma ApplyOutbox(s: Sys, x: Action)
    requires Enabled(s, x)
    ensures Apply(s, x).g.outbox == Perform(s.g.outbox, OpOf(s, x))
  {
    ApplyPerforms(s, x);
  }

  lemma DeliveredFirst(o: Outbox, op: OutboxOp, ops: seq<OutboxOp>, k: RouteKey)
    ensures Delivered(o, [op] + ops, k) == Delivered(o, [op], k) + Delivered(Perform(o, op), ops, k)
  {
    DeliveredOne(o, op, k);
    assert ([op] + ops)[1..] == ops;
  }

  lemma PerformFirst(o: Outbox, op: OutboxOp, ops: seq<OutboxOp>)
    ensures PerformAll(o, [op] + ops) == PerformAll(Perform(o, op), ops)
  {
    assert ([op] + ops)[1..] == ops;
  }

  lemma {:induction false} RunTraces(s: Sys, xs: seq<Action>, k: RouteKey)
    requires Runnable(s, xs)
    ensures Run(s, xs).g.outbox == PerformAll(s.g.outbox, Trace(s, xs))
    ensures HandedFor(Run(s, xs).h.handed, k) == HandedFor(s.h.handed, k) + Delivered(s.g.outbox, Trace(s, xs), k)
    decreases |xs|
  {
    if xs != [] {
      var s1 := Apply(s, xs[0]);
      ApplyOutbox(s, xs[0]);
      ApplyHands(s, xs[0], k);
      RunTraces(s1, xs[1..], k);
      DeliveredFirst(s.g.outbox, OpOf(s, xs[0]), Trace(s1, xs[1..]), k);
      PerformFirst(s.g.outbox, OpOf(s, xs[0]), Trace(s1, xs[1..]));
    }
  }

  // ---------------------------------------------------------------- queued items are distinct

  predicate Transcribing(pc: Pc) {
    pc.TranscriptLookup? || pc.TranscriptPush?
  }

  /** Items under way to a queue carry drawn ids, each its own. */
  ghost predicate IdsOk(s: Sys) {
    && (forall c :: c in s.actors && Transcribing(s.actors[c].pc) ==> s.actors[c].pc.item.id in s.h.ids)
    && (forall c, d :: c in s.actors && d in s.actors && c != d
          && Transcribing(s.actors[c].pc) && Transcribing(s.actors[d].pc)
          ==> s.actors[c].pc.item.id != s.actors[d].pc.item.id)
  }

  /** A step draws no id, and what is under way after it was so before. */
  ghost predicate DrawsNothing(c: Cut, c': Cut) {
    && c'.h.ids == c.h.ids
    && (Transcribing(c'.a.pc) ==> c.a.pc.TranscriptLookup? && c'.a.pc.item == c.a.pc.item)
  }

  lemma CreateDraws(c: Cut, cid: ConnId, env: Env)
    requires Creating(c.a.pc)
    ensures DrawsNothing(c, StepCreate(c, cid, env))
  {
    match c.a.pc
    case RunnerCreate(_) =>
    case OwnerInsert(_, _) =>
    case ResponderInsert(_, _) =>
    case PriorityInsert(_, _) =>
  }

  lemma AuthDraws(c: Cut, cid: ConnId)
    requires Authorizing(c.a.pc)
    ensures DrawsNothing(c, StepAuth(c, cid))
  {
  }

  lemma TerminateDraws(c: Cut)
    requires Terminating(c.a.pc)
    ensures DrawsNothing(c, StepTerminate(c))
  {
  }

  lemma ForceDraws(c: Cut)
    requires Forcing(c.a.pc)
    ensures DrawsNothing(c, StepForce(c))
  {
  }

  lemma RouteDraws(c: Cut, env: Env)
    requires Routing(c.a.pc)
    ensures DrawsNothing(c, StepRoute(c, env))
  {
  }

  lemma QueueDraws(c: Cut, env: Env)
    requires Queueing(c.a.pc)
    ensures DrawsNothing(c, StepQueue(c, env))
  {
  }

  lemma StepDraws(c: Cut, cid: ConnId, env: Env)
    requires !c.a.pc.Idle?
    ensures DrawsNothing(c, Step(c, cid, env))
  {
    if Creating(c.a.pc) {
      CreateDraws(c, cid, env);
    } else if Authorizing(c.a.pc) {
      AuthDraws(c, cid);
    } else if Terminating(c.a.pc) {
      TerminateDraws(c);
    } else if Forcing(c.a.pc) {
      ForceDraws(c);
    } else if Routing(c.a.pc) {
      RouteDraws(c, env);
    } else {
      QueueDraws(c, env);
    }
  }

  lemma BeginDraws(a: Actor, req: Request)
    requires a.pc.Idle?
    ensures !Transcribing(Begin(a, req).pc)
  {
  }

  /** What one action puts under way was drawn just now, or was under way already. */
  ghost predicate UnderWay(s: Sys, s': Sys) {
    && s.h.ids <= s'.h.ids
    && forall c :: c in s'.actors && Transcribing(s'.actors[c].pc) ==>
         || s'.actors[c].pc.item.id !in s.h.ids
         || (c in s.actors && Transcribing(s.actors[c].pc) && s'.actors[c].pc.item == s.actors[c].pc.item)
  }

  lemma TickKeepsIds(s: Sys, c: ConnId, env: Env)
    requires IdsOk(s) && Enabled(s, Tick(c, env))
    ensures IdsOk(Apply(s, Tick(c, env))) && UnderWay(s, Apply(s, Tick(c, env)))
  {
    if !s.actors[c].pc.Idle? {
      StepDraws(Cut(s.g, s.h, s.actors[c]), c, env);
      assert IdsOk(Apply(s, Tick(c, env)));
    }
  }

  lemma ApplyKeepsIds(s: Sys, x: Action)
    requires IdsOk(s) && Enabled(s, x)
    ensures IdsOk(Apply(s, x)) && UnderWay(s, Apply(s, x))
  {
    if x.Tick? {
      TickKeepsIds(s, x.cid, x.env);
    } else if x.Receive? {
      BeginDraws(s.actors[x.cid], x.request);
    }
  }

  ghost predicate DistinctIds(items: seq<Item>) {
    forall i, j :: 0 <= i < j < |items| ==> items[i].id != items[j].id
  }

  /** An id not drawn yet, or one under way. */
  ghost predicate ToCome(s: Sys, id: nat) {
    id !in s.h.ids || exists c :: c in s.actors && Transcribing(s.actors[c].pc) && s.actors[c].pc.item.id == id
  }

  lemma ToComeEarlier(s: Sys, s': Sys, id: nat)
    requires UnderWay(s, s') && ToCome(s', id)
    ensures ToCome(s, id)
  {
    if id in s'.h.ids {
      var c :| c in s'.actors && Transcribing(s'.actors[c].pc) && s'.actors[c].pc.item.id == id;
    }
  }

  /** A pushed item is not to come any more. */
  lemma PushedIsPast(s: Sys, x: Action, k: RouteKey)
    requires IdsOk(s) && Enabled(s, x) && Put(OpOf(s, x), k) != []
    ensures var item := Put(OpOf(s, x), k)[0];
      Put(OpOf(s, x), k) == [item] && ToCome(s, item.id) && !ToCome(Apply(s, x), item.id)
  {
    var item := Put(OpOf(s, x), k)[0];
    ApplyKeepsIds(s, x);
    assert s.actors[x.cid].pc.TranscriptPush? && s.actors[x.cid].pc.item == item;
    var s' := Apply(s, x);
    assert s'.actors[x.cid].pc.Idle?;
    forall d | d in s'.actors && Transcribing(s'.actors[d].pc) ensures s'.actors[d].pc.item.id != item.id {
    }
  }

  lemma {:induction false} EnqueuedOnce(s: Sys, xs: seq<Action>, k: RouteKey)
    requires IdsOk(s) && Runnable(s, xs)
    ensures var items := Enqueued(Trace(s, xs), k);
      DistinctIds(items) && forall i :: 0 <= i < |items| ==> ToCome(s, items[i].id)
    decreases |xs|
  {
    if xs != [] {
      var s1 := Apply(s, xs[0]);
      var first, rest := Put(OpOf(s, xs[0]), k), Enqueued(Trace(s1, xs[1..]), k);
      ApplyKeepsIds(s, xs[0]);
      EnqueuedOnce(s1, xs[1..], k);
      assert Trace(s, xs)[1..] == Trace(s1, xs[1..]);
      forall i | 0 <= i < |rest| ensures ToCome(s, rest[i].id) {
        ToComeEarlier(s, s1, rest[i].id);
      }
      if first != [] {
        PushedIsPast(s, xs[0], k);
        OneBefore(first[0], rest);
        assert Enqueued(Trace(s, xs), k) == [first[0]] + rest;
      } else {
        assert Enqueued(Trace(s, xs), k) == rest;
      }
    }
  }

  lemma OneBefore(item: Item, rest: seq<Item>)
    requires DistinctIds(rest) && forall i :: 0 <= i < |rest| ==> rest[i].id != item.id
    ensures DistinctIds([item] + rest)
  {
  }

  /** Main result: in every interleaving, the items handed to polls of a route are some of the
      items queued for it, in the order they were queued and none twice; if no termination or
      recreation discarded the route's queue, what was queued is exactly what was handed over
      followed by what still waits. */
  lemma PolledInOrder(xs: seq<Action>, k: RouteKey)
    requires Runnable(START, xs)
    ensures var (s, queued) := (Run(START, xs), Enqueued(Trace(START, xs), k));
      && Subsequence(HandedFor(s.h.handed, k) + Queued(s.g.outbox, k), queued)
      && Distinct(HandedFor(s.h.handed, k) + Queued(s.g.outbox, k))
      && (!Discards(Trace(START, xs), k) ==> queued == HandedFor(s.h.handed, k) + Queued(s.g.outbox, k))
  {
    var ops := Trace(START, xs);
    RunTraces(START, xs, k);
    NeverReordered(NO_TABLES.outbox, ops, k);
    assert HandedFor(Run(START, xs).h.handed, k) == Delivered(NO_TABLES.outbox, ops, k);
    assert Queued(NO_TABLES.outbox, k) + Enqueued(ops, k) == Enqueued(ops, k);
    EnqueuedOnce(START, xs, k);
    SubsequenceKeepsDistinct(HandedFor(Run(START, xs).h.handed, k) + Queued(Run(START, xs).g.outbox, k),
      Enqueued(ops, k));
    if !Discards(ops, k) {
      Conserved(NO_TABLES.outbox, ops, k);
    }
  }

  // ---------------------------------------------------------------- polling a queue empty

  function PollTimes(o: Outbox, k: RouteKey, n: nat, times: nat): Outbox {
    if times == 0 then o else PollTimes(Drained(o, k, n), k, n, times - 1)
  }

  lemma {:induction false} PollLeaves(o: Outbox, k: RouteKey, n: nat, times: nat)
    requires n >= 1 && (k in o ==> o[k] != [])
    ensures var (l, rest) := (|Queued(o, k)|, PollTimes(o, k, n, times));
      && |Queued(rest, k)| == (if l <= n * times then 0 else l - n * times)
      && (k in rest <==> Queued(rest, k) != [])
  {
    if times > 0 {
      var o1 := Drained(o, k, n);
      PollLeaves(o1, k, n, times - 1);
      assert n * times == n + n * (times - 1);
    }
  }

  lemma CeilingDivision(l: nat, n: nat, times: nat)
    requires n >= 1
    ensures times >= (l + n - 1) / n <==> n * times >= l
  {
    var q := (l + n - 1) / n;
    assert n * q <= l + n - 1 < n * q + n;
    if times >= q {
      assert n * times >= n * q;
    } else {
      assert n * times <= n * (q - 1);
      assert n * (q - 1) == n * q - n;
    }
  }

  /** Polling again and again with any `max_items` empties a queue of L items after ceil(L/n)
      polls and no sooner, n being the clamped batch size; the key is then gone from the outbox. */
  lemma PollsToEmpty(o: Outbox, k: RouteKey, maxItems: Option<nat>, times: nat)
    requires k in o ==> o[k] != []
    ensures var (l, n) := (|Queued(o, k)|, BoundedMaxItems(maxItems));
      k !in PollTimes(o, k, n, times) <==> times >= (l + n - 1) / n
  {
    PollLeaves(o, k, BoundedMaxItems(maxItems), times);
    CeilingDivision(|Queued(o, k)|, BoundedMaxItems(maxItems), times);
  }
}
