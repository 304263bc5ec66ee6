// A handler whose steps run without interruption does exactly what the whole-handler
// function says: the lock-granular machine and the atomic model are the same code.

module GatewayRefinement {
  import opened Prelude
  import opened GatewayState
  import opened GatewaySteps
  import opened GatewayAtomic

  /** How many steps a handler has left at most. */
  function Rank(pc: Pc): nat {
    match pc
    case Idle => 0
    case RunnerRespond(_, _) => 1
    case RunnerOperate(_) => 1
    case TermRunner(_) => 1
    case OutboxDrain(_, _) => 1
    case TranscriptPush(_, _) => 1
    case TranscriptLookup(_, _) => 2
    case RunnerSend(_, _) => 2
    case TermOutbox(_, _) => 2
    case TermReverse(_, _) => 3
    case TermRoutes(_) => 4
    case TermOwner(_) => 5
    case TermPriority(_) => 6
    case TermResponder(_) => 7
    case AuthPriority(_, _) => 3
    case AuthResponder(_, _) => 4
    case AuthLookup(_, _) => 8
    case ReverseInsert(_, _) => 9
    case RouteInsert(_, _) => 10
    case PriorityInsert(_, _) => 11
    case ResponderInsert(_, _) => 12
    case OwnerInsert(_, _) => 13
    case RunnerCreate(_) => 14
    case StaleReverse(_, _) => 15
    case StaleRoute(_, _) => 16
    case OwnerCheck(_, _) => 17
    case ForceRunner(_, _) => 15
    case ForceOwner(_, _) => 16
    case ForcePriority(_, _) => 17
    case ForceResponder(_, _) => 18
    case ForceOutbox(_, _) => 19
    case ForceReverse(_, _) => 20
    case ForceRoute(_, _) => 21
    case RouteLookup(_) => 22
  }

  lemma CreatingRunsOut(c: Cut, cid: ConnId, env: Env)
    requires Creating(c.a.pc)
    ensures Rank(StepCreate(c, cid, env).a.pc) < Rank(c.a.pc)
  {
  }

  lemma AuthorizingRunsOut(c: Cut, cid: ConnId)
    requires Authorizing(c.a.pc)
    ensures Rank(StepAuth(c, cid).a.pc) < Rank(c.a.pc)
  {
  }

  lemma TerminatingRunsOut(c: Cut)
    requires Terminating(c.a.pc)
    ensures Rank(StepTerminate(c).a.pc) < Rank(c.a.pc)
  {
  }

  lemma ForcingRunsOut(c: Cut)
    requires Forcing(c.a.pc)
    ensures Rank(StepForce(c).a.pc) < Rank(c.a.pc)
  {
  }

  lemma RoutingRunsOut(c: Cut, env: Env)
    requires Routing(c.a.pc)
    ensures Rank(StepRoute(c, env).a.pc) < Rank(c.a.pc)
  {
  }

  lemma QueueingRunsOut(c: Cut, env: Env)
    requires Queueing(c.a.pc)
    ensures Rank(StepQueue(c, env).a.pc) < Rank(c.a.pc)
  {
  }

  lemma StepsRunOut(c: Cut, cid: ConnId, env: Env)
    requires !c.a.pc.Idle?
    ensures Rank(Step(c, cid, env).a.pc) < Rank(c.a.pc)
  {
    if Creating(c.a.pc) {
      CreatingRunsOut(c, cid, env);
    } else if Authorizing(c.a.pc) {
      AuthorizingRunsOut(c, cid);
    } else if Terminating(c.a.pc) {
      TerminatingRunsOut(c);
    } else if Forcing(c.a.pc) {
      ForcingRunsOut(c);
    } else if Routing(c.a.pc) {
      RoutingRunsOut(c, env);
    } else {
      QueueingRunsOut(c, env);
    }
  }

  /** Run one client's handler to its end with nobody in between. */
  function Solo(c: Cut, cid: ConnId, env: Env): (r: Cut)
    ensures r.a.pc.Idle?
    decreases Rank(c.a.pc)
  {
    if c.a.pc.Idle? then c
    else
      StepsRunOut(c, cid, env);
      Solo(Step(c, cid, env), cid, env)
  }

  /** The tables, the client and the reply, and who owns what according to history. */
  function Seen(c: Cut): (Outcome, map<SessionId, Principal>) {
    (Outcome(c.g, c.a.conn, c.a.resp), c.h.ever)
  }

  lemma SoloStep(c: Cut, cid: ConnId, env: Env)
    requires !c.a.pc.Idle?
    ensures Solo(c, cid, env) == Solo(Step(c, cid, env), cid, env)
  {
  }

  /** Binding the push senders takes two steps. */
  lemma SoloBind(c: Cut, cid: ConnId, env: Env)
    requires c.a.pc.AuthResponder?
    ensures Solo(c, cid, env) == Solo(Cut(Bind(c.g, cid, c.a.conn.ws, c.a.pc.s), c.h,
      c.a.(pc := if c.a.pc.goal.ToDeliver? then RunnerSend(c.a.pc.goal.ticket, c.a.pc.s)
        else RunnerOperate(c.a.pc.s))), cid, env)
  {
    SoloStep(c, cid, env);
    SoloStep(Step(c, cid, env), cid, env);
  }

  /** Authorising, from the cache check on, for a goal that binds push senders. */
  lemma SoloAuthorize(c: Cut, a: Actor, s: SessionId, goal: Goal, cid: ConnId, env: Env)
    requires c.a == EnterAuth(a, s, goal) && !goal.ToTerminate?
    ensures var auth := Authorized(c.g, cid, a.conn.ws, a.conn, s);
      Solo(c, cid, env) ==
        if auth.resp.Failed? then Cut(c.g, c.h, Finish(a, auth.resp))
        else Solo(Cut(auth.g, c.h, a.(conn := auth.conn, pc := if goal.ToDeliver? then RunnerSend(goal.ticket, s)
          else RunnerOperate(s))), cid, env)
  {
    if c.a.pc.AuthLookup? {
      SoloStep(c, cid, env);
      var c1 := Step(c, cid, env);
      if c1.a.pc.AuthResponder? {
        SoloBind(c1, cid, env);
      }
    } else if c.a.pc.AuthResponder? {
      SoloBind(c, cid, env);
    }
  }

  lemma SoloRespond(c: Cut, cid: ConnId, env: Env)
    requires c.a.pc.RunnerRespond?
    ensures Seen(Solo(c, cid, env)) ==
      (Outcome(c.g, c.a.conn,
        if env.respondOk then ChannelRouted(c.a.pc.t.key, c.a.pc.s) else Failed("channel_response_failed")), c.h.ever)
  {
    SoloStep(c, cid, env);
  }

  lemma SoloSend(c: Cut, cid: ConnId, env: Env)
    requires c.a.pc.RunnerSend?
    ensures var (t, s) := (c.a.pc.t, c.a.pc.s);
      Seen(Solo(c, cid, env)) ==
        (Outcome(c.g, c.a.conn,
          if !(env.sendOk && s in c.g.live) then Failed("channel_inbound_failed")
          else if t.respond && !env.respondOk then Failed("channel_response_failed")
          else ChannelRouted(t.key, s)), c.h.ever)
  {
    SoloStep(c, cid, env);
    var c1 := Step(c, cid, env);
    if c1.a.pc.RunnerRespond? {
      SoloRespond(c1, cid, env);
    }
  }

  lemma SoloDeliver(c: Cut, cid: ConnId, env: Env)
    requires c.a.pc.ReverseInsert?
    ensures var t := c.a.pc.t;
      Seen(Solo(c, cid, env)) == (Delivered(c.g, cid, c.a.conn, t.key, c.a.pc.s, t.respond, env), c.h.ever)
  {
    var t, s := c.a.pc.t, c.a.pc.s;
    SoloStep(c, cid, env);
    var c1 := Step(c, cid, env);
    SoloAuthorize(c1, c.a, s, ToDeliver(t), cid, env);
    var auth := Authorized(c1.g, cid, c.a.conn.ws, c.a.conn, s);
    if !auth.resp.Failed? {
      SoloSend(Cut(auth.g, c1.h, c.a.(conn := auth.conn, pc := RunnerSend(t, s))), cid, env);
    }
  }

  /** Session creation takes four steps. */
  lemma SoloCreate(c: Cut, cid: ConnId, env: Env)
    requires c.a.pc.RunnerCreate?
    ensures var made := Created(c.g, cid, c.a.conn, env);
      var n := c.a.pc.next;
      Solo(c, cid, env) ==
        if made.resp.Failed? then Cut(made.g, c.h, Finish(c.a, made.resp))
        else
          var h := c.h.(ever := c.h.ever[env.uuid := Acting(c.a.conn)], published := c.h.published + {env.uuid});
          var a := c.a.(conn := made.conn);
          Solo(Cut(made.g, h, if n.ReplyCreated? then Finish(a, made.resp)
            else a.(pc := RouteInsert(n.ticket, env.uuid))), cid, env)
  {
    SoloStep(c, cid, env);
    if env.createOk {
      var c1 := Step(c, cid, env);
      SoloStep(c1, cid, env);
      var c2 := Step(c1, cid, env);
      SoloStep(c2, cid, env);
      SoloStep(Step(c2, cid, env), cid, env);
    }
  }

  lemma SoloOpen(c: Cut, cid: ConnId, env: Env)
    requires c.a.pc.RunnerCreate? && c.a.pc.next.BindRoute? && env.uuid !in c.g.owners
    ensures var t := c.a.pc.next.ticket;
      var o := Opened(c.g, cid, c.a.conn, t.key, t.respond, env);
      Seen(Solo(c, cid, env)) == (o, Remembered(c.h.ever, o.g, env.uuid))
  {
    SoloCreate(c, cid, env);
    if env.createOk {
      var t := c.a.pc.next.ticket;
      var made := Created(c.g, cid, c.a.conn, env);
      var h := c.h.(ever := c.h.ever[env.uuid := Acting(c.a.conn)], published := c.h.published + {env.uuid});
      var c1 := Cut(made.g, h, c.a.(conn := made.conn, pc := RouteInsert(t, env.uuid)));
      SoloStep(c1, cid, env);
      SoloDeliver(Step(c1, cid, env), cid, env);
      DeliveredFrame(Step(c1, cid, env).g, cid, made.conn, t.key, env.uuid, t.respond, env);
    }
  }

  /** Forced replacement takes seven steps. */
  lemma SoloForce(c: Cut, cid: ConnId, env: Env)
    requires c.a.pc.ForceRoute?
    ensures var t := c.a.pc.t;
      Solo(c, cid, env) == Solo(Cut(Replace(c.g, t.key, c.a.pc.s), Log(c.h, c.a, c.a.pc.s, Replaces(t)),
        c.a.(pc := RunnerCreate(BindRoute(t)))), cid, env)
  {
    SoloStep(c, cid, env);
    var c1 := Step(c, cid, env);
    SoloStep(c1, cid, env);
    var c2 := Step(c1, cid, env);
    SoloStep(c2, cid, env);
    SoloForceRest(Step(c2, cid, env), cid, env);
  }

  lemma SoloForceRest(c: Cut, cid: ConnId, env: Env)
    requires c.a.pc.ForceResponder?
    ensures var (t, s) := (c.a.pc.t, c.a.pc.s);
      Solo(c, cid, env) == Solo(Cut(
        c.g.(responders := c.g.responders - {s}, priority := c.g.priority - {s}, owners := c.g.owners - {s},
          live := c.g.live - {s}),
        Log(c.h, c.a, s, Replaces(t)), c.a.(pc := RunnerCreate(BindRoute(t)))), cid, env)
  {
    SoloStep(c, cid, env);
    var c1 := Step(c, cid, env);
    SoloStep(c1, cid, env);
    SoloForceLast(Step(c1, cid, env), cid, env);
  }

  lemma SoloForceLast(c: Cut, cid: ConnId, env: Env)
    requires c.a.pc.ForceOwner?
    ensures var (t, s) := (c.a.pc.t, c.a.pc.s);
      Solo(c, cid, env) == Solo(Cut(
        c.g.(owners := c.g.owners - {s}, live := c.g.live - {s}),
        Log(c.h, c.a, s, Replaces(t)), c.a.(pc := RunnerCreate(BindRoute(t)))), cid, env)
  {
    SoloStep(c, cid, env);
    SoloForceRunner(Step(c, cid, env), cid, env);
  }

  lemma SoloForceRunner(c: Cut, cid: ConnId, env: Env)
    requires c.a.pc.ForceRunner?
    ensures var (t, s) := (c.a.pc.t, c.a.pc.s);
      Solo(c, cid, env) == Solo(Cut(
        c.g.(live := c.g.live - {s}), Log(c.h, c.a, s, Replaces(t)), c.a.(pc := RunnerCreate(BindRoute(t)))), cid, env)
  {
    SoloStep(c, cid, env);
  }

  lemma SoloStale(c: Cut, cid: ConnId, env: Env)
    requires c.a.pc.StaleRoute? && env.uuid !in c.g.owners
    ensures var (t, s) := (c.a.pc.t, c.a.pc.s);
      var o := Opened(Unrouted(c.g, t.key, s), cid, c.a.conn, t.key, t.respond, env);
      Seen(Solo(c, cid, env)) == (o, Remembered(c.h.ever, o.g, env.uuid))
  {
    SoloStep(c, cid, env);
    var c1 := Step(c, cid, env);
    SoloStep(c1, cid, env);
    SoloOpen(Step(c1, cid, env), cid, env);
  }

  lemma SoloMapped(c: Cut, cid: ConnId, env: Env)
    requires c.a.pc.OwnerCheck? && env.uuid !in c.g.owners
    ensures var (t, s) := (c.a.pc.t, c.a.pc.s);
      var o := if s in c.g.owners then Delivered(c.g, cid, c.a.conn, t.key, s, t.respond, env)
               else Opened(Unrouted(c.g, t.key, s), cid, c.a.conn, t.key, t.respond, env);
      Seen(Solo(c, cid, env)) == (o, Remembered(c.h.ever, o.g, env.uuid))
  {
    SoloStep(c, cid, env);
    var c1 := Step(c, cid, env);
    if c1.a.pc.ReverseInsert? {
      SoloDeliver(c1, cid, env);
      DeliveredFrame(c1.g, cid, c.a.conn, c.a.pc.t.key, c.a.pc.s, c.a.pc.t.respond, env);
    } else {
      SoloStale(c1, cid, env);
    }
  }

  lemma SoloRoute(c: Cut, cid: ConnId, env: Env)
    requires c.a.pc.RouteLookup? && env.uuid !in c.g.owners
    ensures var t := c.a.pc.t;
      var o := RoutedTo(c.g, cid, c.a.conn, t.key, t.respond, t.force, env);
      Seen(Solo(c, cid, env)) == (o, Remembered(c.h.ever, o.g, env.uuid))
  {
    var t := c.a.pc.t;
    SoloStep(c, cid, env);
    var c1 := Step(c, cid, env);
    if t.key !in c.g.routes {
      SoloOpen(c1, cid, env);
    } else if t.force {
      SoloForce(c1, cid, env);
      SoloOpen(Cut(Replace(c1.g, t.key, c1.a.pc.s), Log(c1.h, c1.a, c1.a.pc.s, Replaces(t)),
        c1.a.(pc := RunnerCreate(BindRoute(t)))), cid, env);
    } else {
      SoloMapped(c1, cid, env);
    }
  }

  /** What a termination's last three or four steps, from the reverse index on, leave behind. */
  lemma SoloRetire(c: Cut, cid: ConnId, env: Env)
    requires c.a.pc.TermReverse?
    ensures var (s, removed) := (c.a.pc.s, c.a.pc.removed);
      Seen(Solo(c, cid, env)) ==
        (Outcome(c.g.(reverse := c.g.reverse - {s}, outbox := c.g.outbox - removed, live := c.g.live - {s}),
                 c.a.conn.(owned := c.a.conn.owned - {s}),
                 if s in c.g.live then SessionTerminated(s) else Failed("session_terminate_failed")), c.h.ever)
  {
    SoloStep(c, cid, env);
    var c1 := Step(c, cid, env);
    SoloStep(c1, cid, env);
    if c1.a.pc.TermOutbox? {
      SoloStep(Step(c1, cid, env), cid, env);
    } else {
      assert c.g.outbox - c.a.pc.removed == c.g.outbox;
    }
  }

  lemma SoloUnroute(c: Cut, cid: ConnId, env: Env)
    requires c.a.pc.TermOwner?
    ensures var s := c.a.pc.s;
      Seen(Solo(c, cid, env)) ==
        (Outcome(Dissolve(c.g, s).(responders := c.g.responders, priority := c.g.priority),
                 c.a.conn.(owned := c.a.conn.owned - {s}),
                 if s in c.g.live then SessionTerminated(s) else Failed("session_terminate_failed")), c.h.ever)
  {
    SoloStep(c, cid, env);
    var c1 := Step(c, cid, env);
    SoloStep(c1, cid, env);
    SoloRetire(Step(c1, cid, env), cid, env);
    assert RoutesTo(c1.g, c.a.pc.s) == RoutesTo(c.g, c.a.pc.s);
  }

  lemma SoloDissolve(c: Cut, cid: ConnId, env: Env)
    requires c.a.pc.TermResponder?
    ensures var s := c.a.pc.s;
      Seen(Solo(c, cid, env)) ==
        (Outcome(Dissolve(c.g, s), c.a.conn.(owned := c.a.conn.owned - {s}),
                 if s in c.g.live then SessionTerminated(s) else Failed("session_terminate_failed")), c.h.ever)
  {
    SoloStep(c, cid, env);
    var c1 := Step(c, cid, env);
    SoloStep(c1, cid, env);
    var c2 := Step(c1, cid, env);
    SoloUnroute(c2, cid, env);
    assert RoutesTo(c2.g, c.a.pc.s) == RoutesTo(c.g, c.a.pc.s);
  }

  lemma SoloTerminate(c: Cut, a: Actor, s: SessionId, cid: ConnId, env: Env)
    requires c.a == EnterAuth(a, s, ToTerminate)
    ensures Seen(Solo(c, cid, env)).1 == c.h.ever
    ensures !c.a.pc.Idle? ==> Seen(Solo(c, cid, env)).0 == Terminated(c.g, cid, a.conn, s)
    ensures c.a.pc.Idle? ==> Seen(c).0 == Terminated(c.g, cid, a.conn, s)
  {
    if c.a.pc.AuthLookup? {
      SoloStep(c, cid, env);
      var c1 := Step(c, cid, env);
      if c1.a.pc.TermResponder? {
        SoloDissolve(c1, cid, env);
      }
    } else if c.a.pc.TermResponder? {
      SoloDissolve(c, cid, env);
    }
  }

  lemma SoloOperation(c: Cut, cid: ConnId, env: Env)
    requires c.a.pc.RunnerOperate?
    ensures Seen(Solo(c, cid, env)) ==
      (Outcome(c.g, c.a.conn, if env.sendOk && c.a.pc.s in c.g.live then Operated(c.a.pc.s)
        else Failed("session_operation_failed")),
       c.h.ever)
  {
    SoloStep(c, cid, env);
  }

  lemma SoloOperate(c: Cut, a: Actor, s: SessionId, cid: ConnId, env: Env)
    requires c.a == EnterAuth(a, s, ToOperate)
    ensures Seen(Solo(c, cid, env)) == (Operating(c.g, cid, a.conn, s, env), c.h.ever)
  {
    SoloAuthorize(c, a, s, ToOperate, cid, env);
    var auth := Authorized(c.g, cid, a.conn.ws, a.conn, s);
    if !auth.resp.Failed? {
      SoloOperation(Cut(auth.g, c.h, a.(conn := auth.conn, pc := RunnerOperate(s))), cid, env);
    }
  }

  /** Running `c` alone is the outcome `o`, with the history that `o` implies. */
  ghost predicate Realizes(c: Cut, cid: ConnId, env: Env, o: Outcome, ever: map<SessionId, Principal>) {
    Seen(Solo(c, cid, env)) == (o, Remembered(ever, o.g, env.uuid))
  }

  lemma CreateRealized(c: Cut, cid: ConnId, env: Env)
    requires env.uuid !in c.g.owners
    ensures Realizes(c.(a := c.a.(pc := RunnerCreate(ReplyCreated))), cid, env, Created(c.g, cid, c.a.conn, env),
      c.h.ever)
  {
    SoloCreate(c.(a := c.a.(pc := RunnerCreate(ReplyCreated))), cid, env);
  }

  lemma TerminateRealized(c: Cut, cid: ConnId, s: SessionId, env: Env)
    requires env.uuid !in c.g.owners && c.a.pc.Idle?
    ensures Realizes(c.(a := EnterAuth(c.a, s, ToTerminate)), cid, env, Terminated(c.g, cid, c.a.conn, s), c.h.ever)
  {
    SoloTerminate(c.(a := EnterAuth(c.a, s, ToTerminate)), c.a, s, cid, env);
  }

  lemma OperateRealized(c: Cut, cid: ConnId, s: SessionId, env: Env)
    requires env.uuid !in c.g.owners && c.a.pc.Idle?
    ensures Realizes(c.(a := EnterAuth(c.a, s, ToOperate)), cid, env, Operating(c.g, cid, c.a.conn, s, env), c.h.ever)
  {
    SoloOperate(c.(a := EnterAuth(c.a, s, ToOperate)), c.a, s, cid, env);
    AuthorizedFrame(c.g, cid, c.a.conn.ws, c.a.conn, s);
  }

  lemma PollRealized(c: Cut, cid: ConnId, key: RouteKey, n: nat, env: Env)
    requires env.uuid !in c.g.owners
    ensures Realizes(c.(a := c.a.(pc := OutboxDrain(key, n))), cid, env,
      Outcome(c.g.(outbox := Drained(c.g.outbox, key, n)), c.a.conn,
        Batch(key, Queued(c.g.outbox, key)[..Taken(c.g.outbox, key, n)])), c.h.ever)
  {
    SoloStep(c.(a := c.a.(pc := OutboxDrain(key, n))), cid, env);
  }

  /** Main result: run alone, every handler of the lock-granular machine changes the tables, the
      client and the ownership history exactly as the whole-handler function says, and replies the same. */
  lemma SoloIsHandled(c: Cut, cid: ConnId, req: Request, env: Env)
    requires c.a.pc.Idle? && env.uuid !in c.g.owners
    ensures Realizes(c.(a := Begin(c.a, req)), cid, env, Handled(c.g, cid, c.a.conn, req, env), c.h.ever)
  {
    if c.a.conn.authenticated {
      match req
      case Create => CreateRealized(c, cid, env);
      case Terminate(s) => TerminateRealized(c, cid, s, env);
      case Operate(s) => OperateRealized(c, cid, s, env);
      case Route(r) =>
        if c.a.conn.principal.Some? && InboundRoute(c.a.conn.principal.value, r).Success? {
          SoloRoute(c.(a := Begin(c.a, req)), cid, env);
        }
      case Poll(channel, account, user, maxItems) =>
        if c.a.conn.principal.Some? && RouteOf(c.a.conn.principal.value, channel, account, user).Success? {
          PollRealized(c, cid, RouteOf(c.a.conn.principal.value, channel, account, user).value,
            BoundedMaxItems(maxItems), env);
        }
    }
  }

  lemma SoloPush(c: Cut, cid: ConnId, env: Env)
    requires c.a.pc.TranscriptPush?
    ensures Solo(c, cid, env).g == c.g.(outbox := Push(c.g.outbox, c.a.pc.key, c.a.pc.item))
  {
    SoloStep(c, cid, env);
  }

  lemma SoloTranscript(c: Cut, cid: ConnId, env: Env)
    requires c.a.pc.TranscriptLookup?
    ensures var (s, item) := (c.a.pc.s, c.a.pc.item);
      Solo(c, cid, env).g == if s in c.g.reverse then c.g.(outbox := Push(c.g.outbox, c.g.reverse[s], item)) else c.g
  {
    SoloStep(c, cid, env);
    var c1 := Step(c, cid, env);
    if c1.a.pc.TranscriptPush? {
      SoloPush(c1, cid, env);
    }
  }

  /** The transcript task, run alone from its lookup on, queues as Transcribed says. */
  lemma TranscriptIsTranscribed(c: Cut, cid: ConnId, s: SessionId, text: string, id: nat, env: Env)
    requires Trim(text) != "" && c.a.pc == TranscriptLookup(s, Item(id, s, Trim(text)))
    ensures Solo(c, cid, env).g == Transcribed(c.g, s, text, true, id)
  {
    SoloTranscript(c, cid, env);
  }
}
