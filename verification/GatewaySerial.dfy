// When the route tables are inverse although handlers interleave lock by lock: a
// principal's part of them is as long as channel messages and terminations of the
// clients that have proved it do not overlap, whatever other principals' clients do.

module GatewaySerial {
  import opened Prelude
  import opened GatewayState
  import opened GatewaySteps
  import I = GatewayIsolation
  import Race = GatewayRace
  import Atomic = GatewayAtomic

  type Routes = map<RouteKey, SessionId>
  type Reverse = map<SessionId, RouteKey>

  /** Inside a channel message or a termination. */
  predicate InRoutes(pc: Pc) {
    || Terminating(pc) || Forcing(pc) || Routing(pc)
    || (Creating(pc) && pc.next.BindRoute?)
    || (Authorizing(pc) && !pc.goal.ToOperate?)
  }

  /** The client has proved `p` and is inside a channel message or a termination. */
  predicate Covers(a: Actor, p: Principal) {
    InRoutes(a.pc) && p in a.conn.proved
  }

  ghost predicate Covered(s: Sys, p: Principal) {
    exists c :: c in s.actors && Covers(s.actors[c], p)
  }

  /** No two clients that have proved `p` are inside channel messages or terminations at once. */
  ghost predicate SerialFor(s: Sys, p: Principal) {
    forall c, d :: c in s.actors && d in s.actors && Covers(s.actors[c], p) && Covers(s.actors[d], p) ==> c == d
  }

  ghost predicate SerialRun(s: Sys, xs: seq<Action>, p: Principal)
    requires Runnable(s, xs)
    decreases |xs|
  {
    SerialFor(s, p) && (xs == [] || SerialRun(Apply(s, xs[0]), xs[1..], p))
  }

  // ---------------------------------------------------------------- one principal's part of the tables

  /** The routes of principal `p` and the reverse entries to them are inverse. */
  ghost predicate InverseFor(routes: Routes, reverse: Reverse, p: Principal) {
    && (forall k :: k in routes && k.principal == p ==> routes[k] in reverse && reverse[routes[k]] == k)
    && (forall s :: s in reverse && reverse[s].principal == p ==> reverse[s] in routes && routes[reverse[s]] == s)
  }

  /** Routes of `p` and reverse entries to them are the same. */
  ghost predicate SameFor(routes: Routes, reverse: Reverse, routes': Routes, reverse': Reverse, p: Principal) {
    && (forall k :: k in routes && k.principal == p ==> k in routes' && routes'[k] == routes[k])
    && (forall k :: k in routes' && k.principal == p ==> k in routes && routes[k] == routes'[k])
    && (forall s :: s in reverse && reverse[s].principal == p ==> s in reverse' && reverse'[s] == reverse[s])
    && (forall s :: s in reverse' && reverse'[s].principal == p ==> s in reverse && reverse[s] == reverse'[s])
  }

  predicate OwnedBy(h: History, s: SessionId, p: Principal) {
    s in h.ever && h.ever[s] == p
  }

  predicate Binds(n: Next, p: Principal) {
    n.BindRoute? && n.ticket.key.principal == p
  }

  predicate Delivers(goal: Goal, p: Principal) {
    goal.ToDeliver? && goal.ticket.key.principal == p
  }

  /** The handler works on routes of `p`. */
  predicate Concerns(h: History, pc: Pc, p: Principal) {
    match pc
    case TermResponder(s) => OwnedBy(h, s, p)
    case TermPriority(s) => OwnedBy(h, s, p)
    case TermOwner(s) => OwnedBy(h, s, p)
    case TermRoutes(s) => OwnedBy(h, s, p)
    case TermReverse(s, _) => OwnedBy(h, s, p)
    case TermOutbox(s, _) => OwnedBy(h, s, p)
    case TermRunner(s) => OwnedBy(h, s, p)
    case RunnerCreate(n) => Binds(n, p)
    case OwnerInsert(_, n) => Binds(n, p)
    case ResponderInsert(_, n) => Binds(n, p)
    case PriorityInsert(_, n) => Binds(n, p)
    case AuthLookup(_, goal) => Delivers(goal, p)
    case AuthResponder(_, goal) => Delivers(goal, p)
    case AuthPriority(_, goal) => Delivers(goal, p)
    case RouteLookup(t) => t.key.principal == p
    case ForceRoute(t, _) => t.key.principal == p
    case ForceReverse(t, _) => t.key.principal == p
    case ForceOutbox(t, _) => t.key.principal == p
    case ForceResponder(t, _) => t.key.principal == p
    case ForcePriority(t, _) => t.key.principal == p
    case ForceOwner(t, _) => t.key.principal == p
    case ForceRunner(t, _) => t.key.principal == p
    case OwnerCheck(t, _) => t.key.principal == p
    case StaleRoute(t, _) => t.key.principal == p
    case StaleReverse(t, _) => t.key.principal == p
    case RouteInsert(t, _) => t.key.principal == p
    case ReverseInsert(t, _) => t.key.principal == p
    case RunnerSend(t, _) => t.key.principal == p
    case RunnerRespond(t, _) => t.key.principal == p
    case _ => false
  }

  lemma ConcernIsCovered(g: Shared, h: History, a: Actor, p: Principal)
    requires I.ActorOk(g, h, a) && Concerns(h, a.pc, p)
    ensures Covers(a, p)
  {
  }

  // ---------------------------------------------------------------- what a step does to the route tables

  function RoutesAfter(routes: Routes, pc: Pc): Routes {
    match pc
    case TermRoutes(s) => map k | k in routes && routes[k] != s :: routes[k]
    case ForceRoute(t, _) => routes - {t.key}
    case StaleRoute(t, _) => routes - {t.key}
    case RouteInsert(t, s) => routes[t.key := s]
    case _ => routes
  }

  /** The reverse table after the step; at any time, as it will be once the change under way is complete. */
  function Finished(reverse: Reverse, pc: Pc): Reverse {
    match pc
    case TermReverse(s, _) => reverse - {s}
    case ForceReverse(_, s) => reverse - {s}
    case StaleReverse(_, s) => reverse - {s}
    case ReverseInsert(t, s) => reverse[s := t.key]
    case _ => reverse
  }

  /** The step changes the two route tables so, if at all. */
  ghost predicate Effect(c: Cut, c': Cut) {
    c'.g.routes == RoutesAfter(c.g.routes, c.a.pc) && c'.g.reverse == Finished(c.g.reverse, c.a.pc)
  }

  lemma CreateEffect(c: Cut, cid: ConnId, env: Env)
    requires Creating(c.a.pc)
    ensures Effect(c, StepCreate(c, cid, env))
  {
    match c.a.pc
    case RunnerCreate(_) =>
    case OwnerInsert(_, _) =>
    case ResponderInsert(_, _) =>
    case PriorityInsert(_, _) =>
  }

  lemma AuthEffect(c: Cut, cid: ConnId)
    requires Authorizing(c.a.pc)
    ensures Effect(c, StepAuth(c, cid))
  {
    match c.a.pc
    case AuthLookup(_, _) =>
    case AuthResponder(_, _) =>
    case AuthPriority(_, _) =>
  }

  lemma TerminateEffect(c: Cut)
    requires Terminating(c.a.pc)
    ensures Effect(c, StepTerminate(c))
  {
    match c.a.pc
    case TermResponder(_) =>
    case TermPriority(_) =>
    case TermOwner(_) =>
    case TermRoutes(_) =>
    case TermReverse(_, _) =>
    case TermOutbox(_, _) =>
    case TermRunner(_) =>
  }

  lemma ForceEffect(c: Cut)
    requires Forcing(c.a.pc)
    ensures Effect(c, StepForce(c))
  {
    match c.a.pc
    case ForceRoute(_, _) =>
    case ForceReverse(_, _) =>
    case ForceOutbox(_, _) =>
    case ForceResponder(_, _) =>
    case ForcePriority(_, _) =>
    case ForceOwner(_, _) =>
    case ForceRunner(_, _) =>
  }

  lemma RouteEffect(c: Cut, env: Env)
    requires Routing(c.a.pc)
    ensures Effect(c, StepRoute(c, env))
  {
    match c.a.pc
    case RouteLookup(_) =>
    case OwnerCheck(_, _) =>
    case StaleRoute(_, _) =>
    case StaleReverse(_, _) =>
    case RouteInsert(_, _) =>
    case ReverseInsert(_, _) =>
    case RunnerSend(_, _) =>
    case RunnerRespond(_, _) =>
  }

  lemma QueueEffect(c: Cut, env: Env)
    requires Queueing(c.a.pc)
    ensures Effect(c, StepQueue(c, env))
  {
    match c.a.pc
    case OutboxDrain(_, _) =>
    case TranscriptLookup(_, _) =>
    case TranscriptPush(_, _) =>
    case RunnerOperate(_) =>
  }

  lemma StepEffect(c: Cut, cid: ConnId, env: Env)
    ensures Effect(c, Step(c, cid, env))
  {
    if Creating(c.a.pc) {
      CreateEffect(c, cid, env);
    } else if Authorizing(c.a.pc) {
      AuthEffect(c, cid);
    } else if Terminating(c.a.pc) {
      TerminateEffect(c);
    } else if Forcing(c.a.pc) {
      ForceEffect(c);
    } else if Routing(c.a.pc) {
      RouteEffect(c, env);
    } else if Queueing(c.a.pc) {
      QueueEffect(c, env);
    }
  }

  /** A step leaves the part of every principal alone that its handler does not work on. */
  lemma EffectElsewhere(g: Shared, h: History, a: Actor, p: Principal)
    requires I.SharedOk(g, h) && I.ActorOk(g, h, a) && !Concerns(h, a.pc, p)
    ensures SameFor(g.routes, g.reverse, RoutesAfter(g.routes, a.pc), Finished(g.reverse, a.pc), p)
  {
    match a.pc
    case TermRoutes(_) =>
    case TermReverse(_, _) =>
    case ForceRoute(_, _) =>
    case ForceReverse(_, _) =>
    case StaleRoute(_, _) =>
    case StaleReverse(_, _) =>
    case RouteInsert(_, _) =>
    case ReverseInsert(_, _) =>
    case _ =>
  }

  // ---------------------------------------------------------------- what a handler relies on

  ghost predicate Unrouted(g: Shared, s: SessionId) {
    s !in g.reverse && forall k :: k in g.routes ==> g.routes[k] != s
  }

  predicate Routed(g: Shared, key: RouteKey, s: SessionId) {
    key in g.routes && g.routes[key] == s
  }

  /** What a channel message has read from the route table and still relies on. */
  ghost predicate Knows(g: Shared, pc: Pc) {
    match pc
    case ForceRoute(t, s) => Routed(g, t.key, s)
    case OwnerCheck(t, s) => Routed(g, t.key, s)
    case StaleRoute(t, s) => Routed(g, t.key, s)
    case ForceReverse(t, _) => t.key !in g.routes
    case ForceOutbox(t, _) => t.key !in g.routes
    case ForceResponder(t, _) => t.key !in g.routes
    case ForcePriority(t, _) => t.key !in g.routes
    case ForceOwner(t, _) => t.key !in g.routes
    case ForceRunner(t, _) => t.key !in g.routes
    case StaleReverse(t, _) => t.key !in g.routes
    case RunnerCreate(n) => n.BindRoute? ==> n.ticket.key !in g.routes
    case OwnerInsert(s, n) => n.BindRoute? ==> n.ticket.key !in g.routes && Unrouted(g, s)
    case ResponderInsert(s, n) => n.BindRoute? ==> n.ticket.key !in g.routes && Unrouted(g, s)
    case PriorityInsert(s, n) => n.BindRoute? ==> n.ticket.key !in g.routes && Unrouted(g, s)
    case RouteInsert(t, s) => t.key !in g.routes && Unrouted(g, s)
    case _ => true
  }

  /** The part of `p` is inverse but for the change under way at `pc`. */
  ghost predicate Part(g: Shared, pc: Pc, p: Principal) {
    Knows(g, pc) && InverseFor(g.routes, Finished(g.reverse, pc), p)
  }

  /** No change is under way, and nothing that was read is relied on. */
  predicate Plain(pc: Pc) {
    || pc.Idle? || Authorizing(pc) || Queueing(pc) || (Terminating(pc) && !pc.TermReverse?)
    || pc.RouteLookup? || pc.RunnerSend? || pc.RunnerRespond? || (Creating(pc) && pc.next.ReplyCreated?)
  }

  lemma PlainPart(g: Shared, pc: Pc, p: Principal)
    requires Plain(pc)
    ensures Part(g, pc, p) <==> InverseFor(g.routes, g.reverse, p)
  {
  }

  // ---------------------------------------------------------------- steps that concern the principal

  /** Nothing is under way at the new program counter, and what it relies on holds. */
  ghost predicate Settles(g: Shared, pc: Pc) {
    Finished(g.reverse, pc) == g.reverse && Knows(g, pc)
  }

  /** The steps that begin a change of both tables or rely on what was read. */
  predicate Turns(pc: Pc) {
    pc.TermRoutes? || pc.ForceRoute? || pc.StaleRoute? || pc.RouteInsert? || pc.OwnerCheck?
  }

  /** Where those steps lead; any other one completes the change under way, if there is one. */
  ghost predicate Goes(pc: Pc, g': Shared, pc': Pc) {
    && (pc.TermRoutes? ==> pc'.TermReverse? && pc'.s == pc.s)
    && (pc.ForceRoute? ==> pc' == ForceReverse(pc.t, pc.s))
    && (pc.StaleRoute? ==> pc' == StaleReverse(pc.t, pc.s))
    && (pc.RouteInsert? ==> pc' == ReverseInsert(pc.t, pc.s))
    && (pc.OwnerCheck? ==> pc' == ReverseInsert(pc.t, pc.s) || pc' == StaleRoute(pc.t, pc.s))
    && (!Turns(pc) ==> Settles(g', pc'))
  }

  lemma FreshIsUnrouted(g: Shared, h: History, uuid: SessionId)
    requires I.SharedOk(g, h) && uuid !in h.ever
    ensures Unrouted(g, uuid)
  {
  }

  lemma CreateSettles(c: Cut, cid: ConnId, env: Env)
    requires Creating(c.a.pc) && Knows(c.g, c.a.pc) && Unrouted(c.g, env.uuid)
    ensures Settles(StepCreate(c, cid, env).g, StepCreate(c, cid, env).a.pc)
  {
    match c.a.pc
    case RunnerCreate(_) =>
    case OwnerInsert(_, _) =>
    case ResponderInsert(_, _) =>
    case PriorityInsert(_, _) =>
  }

  lemma AuthIsPlain(c: Cut, cid: ConnId)
    requires Authorizing(c.a.pc)
    ensures Plain(StepAuth(c, cid).a.pc)
  {
    match c.a.pc
    case AuthLookup(_, _) =>
    case AuthResponder(_, _) =>
    case AuthPriority(_, _) =>
  }

  lemma TerminateGoes(c: Cut)
    requires Terminating(c.a.pc)
    ensures c.a.pc.TermRoutes? ==> StepTerminate(c).a.pc.TermReverse? && StepTerminate(c).a.pc.s == c.a.pc.s
    ensures !c.a.pc.TermRoutes? ==> Plain(StepTerminate(c).a.pc)
  {
    match c.a.pc
    case TermResponder(_) =>
    case TermPriority(_) =>
    case TermOwner(_) =>
    case TermRoutes(_) =>
    case TermReverse(_, _) =>
    case TermOutbox(_, _) =>
    case TermRunner(_) =>
  }

  lemma ForceRouteGoes(c: Cut)
    requires c.a.pc.ForceRoute?
    ensures StepForce(c).a.pc == ForceReverse(c.a.pc.t, c.a.pc.s)
  {
  }

  lemma ForceSettles(c: Cut)
    requires Forcing(c.a.pc) && !c.a.pc.ForceRoute? && Knows(c.g, c.a.pc)
    ensures Settles(StepForce(c).g, StepForce(c).a.pc)
  {
    match c.a.pc
    case ForceReverse(_, _) =>
    case ForceOutbox(_, _) =>
    case ForceResponder(_, _) =>
    case ForcePriority(_, _) =>
    case ForceOwner(_, _) =>
    case ForceRunner(_, _) =>
  }

  lemma RouteTurnGoes(c: Cut, env: Env)
    requires c.a.pc.OwnerCheck? || c.a.pc.StaleRoute? || c.a.pc.RouteInsert?
    ensures Goes(c.a.pc, StepRoute(c, env).g, StepRoute(c, env).a.pc)
  {
  }

  lemma RouteSettles(c: Cut, env: Env)
    requires Knows(c.g, c.a.pc) && (c.a.pc.RouteLookup? || c.a.pc.StaleReverse? || c.a.pc.ReverseInsert?)
    ensures Settles(StepRoute(c, env).g, StepRoute(c, env).a.pc)
  {
    match c.a.pc
    case RouteLookup(_) =>
    case StaleReverse(_, _) =>
    case ReverseInsert(_, _) =>
  }

  lemma SendIsPlain(c: Cut, env: Env)
    requires c.a.pc.RunnerSend? || c.a.pc.RunnerRespond?
    ensures Plain(StepRoute(c, env).a.pc)
  {
  }

  lemma StepGoes(c: Cut, cid: ConnId, env: Env)
    requires InRoutes(c.a.pc) && Knows(c.g, c.a.pc) && Unrouted(c.g, env.uuid)
    ensures Goes(c.a.pc, Step(c, cid, env).g, Step(c, cid, env).a.pc)
  {
    var pc, c' := c.a.pc, Step(c, cid, env);
    if Creating(pc) {
      CreateSettles(c, cid, env);
    } else if Authorizing(pc) {
      AuthIsPlain(c, cid);
      PlainSettles(c'.g, c'.a.pc);
    } else if Terminating(pc) {
      TerminateGoes(c);
      if !pc.TermRoutes? {
        PlainSettles(c'.g, c'.a.pc);
      }
    } else if pc.ForceRoute? {
      ForceRouteGoes(c);
    } else if Forcing(pc) {
      ForceSettles(c);
    } else if pc.RunnerSend? || pc.RunnerRespond? {
      SendIsPlain(c, env);
      PlainSettles(c'.g, c'.a.pc);
    } else if Turns(pc) {
      RouteTurnGoes(c, env);
    } else {
      RouteSettles(c, env);
    }
  }

  lemma PlainSettles(g: Shared, pc: Pc)
    requires Plain(pc)
    ensures Settles(g, pc)
  {
  }

  /** Dropping the routes to `s` together with its reverse entry keeps a part inverse. */
  lemma DropSession(routes: Routes, reverse: Reverse, s: SessionId, p: Principal)
    requires InverseFor(routes, reverse, p)
    ensures InverseFor(map k | k in routes && routes[k] != s :: routes[k], reverse - {s}, p)
  {
  }

  /** Dropping one bound route together with its session's reverse entry keeps the part inverse. */
  lemma DropRoute(routes: Routes, reverse: Reverse, key: RouteKey)
    requires InverseFor(routes, reverse, key.principal) && key in routes
    requires routes[key] in reverse ==> reverse[routes[key]] == key
    ensures InverseFor(routes - {key}, reverse - {routes[key]}, key.principal)
  {
  }

  /** Binding an unrouted session to a free key, in both directions, keeps the part inverse. */
  lemma InsertRoute(g: Shared, key: RouteKey, s: SessionId)
    requires InverseFor(g.routes, g.reverse, key.principal) && key !in g.routes && Unrouted(g, s)
    ensures InverseFor(g.routes[key := s], g.reverse[s := key], key.principal)
  {
  }

  /** A step from `pc` to `pc'` of a handler that works on the part of `p`, which is in order. */
  ghost predicate Steps(g: Shared, h: History, pc: Pc, g': Shared, pc': Pc, p: Principal) {
    && Concerns(h, pc, p) && Part(g, pc, p) && Goes(pc, g', pc')
    && g'.routes == RoutesAfter(g.routes, pc) && g'.reverse == Finished(g.reverse, pc)
  }

  lemma StrikesOn(g: Shared, h: History, pc: Pc, g': Shared, pc': Pc, p: Principal)
    requires pc.TermRoutes? && Steps(g, h, pc, g', pc', p)
    ensures Part(g', pc', p)
  {
    DropSession(g.routes, g.reverse, pc.s, p);
  }

  lemma DropsOn(g: Shared, h: History, pc: Pc, g': Shared, pc': Pc, p: Principal)
    requires (pc.ForceRoute? || pc.StaleRoute?) && Steps(g, h, pc, g', pc', p)
    ensures Part(g', pc', p)
  {
    DropRoute(g.routes, g.reverse, pc.t.key);
  }

  lemma InsertsOn(g: Shared, h: History, pc: Pc, g': Shared, pc': Pc, p: Principal)
    requires pc.RouteInsert? && Steps(g, h, pc, g', pc', p)
    ensures Part(g', pc', p)
  {
    InsertRoute(g, pc.t.key, pc.s);
  }

  /** A route found in the table has its reverse entry already. */
  lemma ChecksOn(g: Shared, h: History, pc: Pc, g': Shared, pc': Pc, p: Principal)
    requires pc.OwnerCheck? && Steps(g, h, pc, g', pc', p)
    ensures Part(g', pc', p)
  {
    assert g.reverse[pc.s := pc.t.key] == g.reverse;
  }

  /** Any other step completes the change under way, if there is one. */
  lemma CompletesOn(g: Shared, h: History, pc: Pc, g': Shared, pc': Pc, p: Principal)
    requires !Turns(pc) && Steps(g, h, pc, g', pc', p)
    ensures Part(g', pc', p)
  {
    assert g'.routes == g.routes;
  }

  lemma GoesOn(g: Shared, h: History, pc: Pc, g': Shared, pc': Pc, p: Principal)
    requires Steps(g, h, pc, g', pc', p)
    ensures Part(g', pc', p)
  {
    if pc.TermRoutes? {
      StrikesOn(g, h, pc, g', pc', p);
    } else if pc.ForceRoute? || pc.StaleRoute? {
      DropsOn(g, h, pc, g', pc', p);
    } else if pc.RouteInsert? {
      InsertsOn(g, h, pc, g', pc', p);
    } else if pc.OwnerCheck? {
      ChecksOn(g, h, pc, g', pc', p);
    } else {
      CompletesOn(g, h, pc, g', pc', p);
    }
  }

  lemma StepWithin(c: Cut, cid: ConnId, env: Env, p: Principal)
    requires I.CutOk(c) && env.uuid !in c.h.ever && Concerns(c.h, c.a.pc, p) && Part(c.g, c.a.pc, p)
    ensures var c' := Step(c, cid, env); Part(c'.g, c'.a.pc, p)
  {
    ConcernIsCovered(c.g, c.h, c.a, p);
    FreshIsUnrouted(c.g, c.h, env.uuid);
    StepEffect(c, cid, env);
    StepGoes(c, cid, env);
    GoesOn(c.g, c.h, c.a.pc, Step(c, cid, env).g, Step(c, cid, env).a.pc, p);
  }

  // ---------------------------------------------------------------- whose routes a handler works on

  /** A handler takes up, and gives up, the part of `p` only where nothing is under way. */
  ghost predicate TurnsPlain(c: Cut, c': Cut, p: Principal) {
    Plain(c'.a.pc) || (Concerns(c.h, c.a.pc, p) <==> Concerns(c'.h, c'.a.pc, p))
  }

  lemma CreateTurns(c: Cut, cid: ConnId, env: Env, p: Principal)
    requires Creating(c.a.pc)
    ensures TurnsPlain(c, StepCreate(c, cid, env), p)
  {
    match c.a.pc
    case RunnerCreate(_) =>
    case OwnerInsert(_, _) =>
    case ResponderInsert(_, _) =>
    case PriorityInsert(_, _) =>
  }

  lemma TerminateTurns(c: Cut, p: Principal)
    requires Terminating(c.a.pc)
    ensures TurnsPlain(c, StepTerminate(c), p)
  {
    match c.a.pc
    case TermResponder(_) =>
    case TermPriority(_) =>
    case TermOwner(_) =>
    case TermRoutes(_) =>
    case TermReverse(_, _) =>
    case TermOutbox(_, _) =>
    case TermRunner(_) =>
  }

  lemma ForceTurns(c: Cut, p: Principal)
    requires Forcing(c.a.pc)
    ensures TurnsPlain(c, StepForce(c), p)
  {
    match c.a.pc
    case ForceRoute(_, _) =>
    case ForceReverse(_, _) =>
    case ForceOutbox(_, _) =>
    case ForceResponder(_, _) =>
    case ForcePriority(_, _) =>
    case ForceOwner(_, _) =>
    case ForceRunner(_, _) =>
  }

  lemma RouteTurns(c: Cut, env: Env, p: Principal)
    requires Routing(c.a.pc)
    ensures TurnsPlain(c, StepRoute(c, env), p)
  {
    match c.a.pc
    case RouteLookup(_) =>
    case OwnerCheck(_, _) =>
    case StaleRoute(_, _) =>
    case StaleReverse(_, _) =>
    case RouteInsert(_, _) =>
    case ReverseInsert(_, _) =>
    case RunnerSend(_, _) =>
    case RunnerRespond(_, _) =>
  }

  lemma QueueTurns(c: Cut, env: Env, p: Principal)
    requires Queueing(c.a.pc)
    ensures TurnsPlain(c, StepQueue(c, env), p)
  {
    match c.a.pc
    case OutboxDrain(_, _) =>
    case TranscriptLookup(_, _) =>
    case TranscriptPush(_, _) =>
    case RunnerOperate(_) =>
  }

  lemma StepTurns(c: Cut, cid: ConnId, env: Env, p: Principal)
    ensures TurnsPlain(c, Step(c, cid, env), p)
  {
    if Creating(c.a.pc) {
      CreateTurns(c, cid, env, p);
    } else if Authorizing(c.a.pc) {
      AuthIsPlain(c, cid);
    } else if Terminating(c.a.pc) {
      TerminateTurns(c, p);
    } else if Forcing(c.a.pc) {
      ForceTurns(c, p);
    } else if Routing(c.a.pc) {
      RouteTurns(c, env, p);
    } else if Queueing(c.a.pc) {
      QueueTurns(c, env, p);
    }
  }

  // ---------------------------------------------------------------- the system

  /** Whoever works on the part of `p` has it in order; if nobody does, it is inverse. */
  ghost predicate PartsOk(s: Sys, p: Principal) {
    && (forall c :: c in s.actors && Concerns(s.h, s.actors[c].pc, p) ==> Part(s.g, s.actors[c].pc, p))
    && ((forall c :: c in s.actors ==> !Concerns(s.h, s.actors[c].pc, p)) ==> InverseFor(s.g.routes, s.g.reverse, p))
  }

  ghost predicate SerialInv(s: Sys, p: Principal) {
    I.Inv(s) && SerialFor(s, p) && PartsOk(s, p)
  }

  ghost predicate Remembers(h: History, h': History) {
    forall s :: s in h.ever ==> s in h'.ever && h'.ever[s] == h.ever[s]
  }

  lemma InverseElsewhere(g: Shared, g': Shared, p: Principal)
    requires SameFor(g.routes, g.reverse, g'.routes, g'.reverse, p) && InverseFor(g.routes, g.reverse, p)
    ensures InverseFor(g'.routes, g'.reverse, p)
  {
  }

  lemma FinishedElsewhere(routes: Routes, reverse: Reverse, routes': Routes, reverse': Reverse, pc: Pc, p: Principal)
    requires SameFor(routes, reverse, routes', reverse', p) && InverseFor(routes, Finished(reverse, pc), p)
    ensures InverseFor(routes', Finished(reverse', pc), p)
  {
    var r, r' := Finished(reverse, pc), Finished(reverse', pc);
    forall s | s in r' && r'[s].principal == p
      ensures s in r && r[s] == r'[s] && r'[s] in routes' && routes'[r'[s]] == s
    {
      assert s in reverse' || pc.ReverseInsert?;
    }
    forall k | k in routes' && k.principal == p ensures routes'[k] in r' && r'[routes'[k]] == k {
      assert k in routes && routes[k] in r;
    }
  }

  lemma KnowsElsewhere(g: Shared, h: History, g': Shared, h': History, a: Actor, p: Principal)
    requires SameFor(g.routes, g.reverse, g'.routes, g'.reverse, p) && Concerns(h, a.pc, p) && Knows(g, a.pc)
    requires I.SharedOk(g, h) && I.ActorOk(g, h, a) && I.SharedOk(g', h') && Remembers(h, h')
    ensures Knows(g', a.pc)
  {
  }

  /** What a client is in the middle of changing stays in order while others change other parts. */
  lemma PartElsewhere(g: Shared, h: History, g': Shared, h': History, a: Actor, p: Principal)
    requires SameFor(g.routes, g.reverse, g'.routes, g'.reverse, p) && Concerns(h, a.pc, p) && Part(g, a.pc, p)
    requires I.SharedOk(g, h) && I.ActorOk(g, h, a) && I.SharedOk(g', h') && Remembers(h, h')
    ensures Part(g', a.pc, p)
  {
    FinishedElsewhere(g.routes, g.reverse, g'.routes, g'.reverse, a.pc, p);
    KnowsElsewhere(g, h, g', h', a, p);
  }

  /** A client that does not move works on the same part as before. */
  lemma ConcernStays(g: Shared, h: History, h': History, a: Actor, p: Principal)
    requires I.ActorOk(g, h, a) && Remembers(h, h')
    ensures Concerns(h, a.pc, p) <==> Concerns(h', a.pc, p)
  {
  }

  /** Only client `c` moves, and what it leaves behind is in order. */
  lemma MovesKeepParts(s: Sys, s': Sys, c: ConnId, p: Principal)
    requires SerialInv(s, p) && I.Inv(s') && SerialFor(s', p) && Remembers(s.h, s'.h)
    requires c in s'.actors && s'.actors == s.actors[c := s'.actors[c]]
    requires SameFor(s.g.routes, s.g.reverse, s'.g.routes, s'.g.reverse, p)
    requires c in s.actors ==> !Concerns(s.h, s.actors[c].pc, p)
    requires Concerns(s'.h, s'.actors[c].pc, p) ==> Plain(s'.actors[c].pc)
    ensures PartsOk(s', p)
  {
    OthersStay(s, s', c, p);
    if forall d :: d in s.actors ==> !Concerns(s.h, s.actors[d].pc, p) {
      InverseElsewhere(s.g, s'.g, p);
      if Concerns(s'.h, s'.actors[c].pc, p) {
        PlainPart(s'.g, s'.actors[c].pc, p);
      }
    } else {
      var d :| d in s.actors && Concerns(s.h, s.actors[d].pc, p);
      assert d != c && Concerns(s'.h, s'.actors[d].pc, p);
      ConcernIsCovered(s'.g, s'.h, s'.actors[d], p);
      if Concerns(s'.h, s'.actors[c].pc, p) {
        ConcernIsCovered(s'.g, s'.h, s'.actors[c], p);
      }
    }
  }

  lemma OthersStay(s: Sys, s': Sys, c: ConnId, p: Principal)
    requires I.Inv(s) && I.Inv(s') && PartsOk(s, p) && Remembers(s.h, s'.h)
    requires c in s'.actors && s'.actors == s.actors[c := s'.actors[c]]
    requires SameFor(s.g.routes, s.g.reverse, s'.g.routes, s'.g.reverse, p)
    ensures forall d :: d in s.actors && d != c ==>
      (Concerns(s.h, s.actors[d].pc, p) <==> Concerns(s'.h, s'.actors[d].pc, p))
    ensures forall d :: d in s'.actors && d != c && Concerns(s'.h, s'.actors[d].pc, p) ==>
      Part(s'.g, s'.actors[d].pc, p)
  {
    forall d | d in s.actors && d != c
      ensures Concerns(s.h, s.actors[d].pc, p) <==> Concerns(s'.h, s'.actors[d].pc, p)
      ensures Concerns(s'.h, s'.actors[d].pc, p) ==> Part(s'.g, s'.actors[d].pc, p)
    {
      ConcernStays(s.g, s.h, s'.h, s.actors[d], p);
      if Concerns(s.h, s.actors[d].pc, p) {
        PartElsewhere(s.g, s.h, s'.g, s'.h, s.actors[d], p);
      }
    }
  }

  lemma TickCut(s: Sys, c: ConnId, env: Env)
    requires I.Inv(s) && Enabled(s, Tick(c, env)) && !s.actors[c].pc.Idle?
    ensures I.CutOk(Cut(s.g, s.h, s.actors[c])) && Remembers(s.h, Step(Cut(s.g, s.h, s.actors[c]), c, env).h)
  {
    assert I.ActorOk(s.g, s.h, s.actors[c]);
    I.StepIsOk(Cut(s.g, s.h, s.actors[c]), c, env);
  }

  lemma TickElsewhere(s: Sys, c: ConnId, env: Env, p: Principal)
    requires SerialInv(s, p) && Enabled(s, Tick(c, env)) && !s.actors[c].pc.Idle?
    requires I.Inv(Apply(s, Tick(c, env))) && SerialFor(Apply(s, Tick(c, env)), p)
    requires !Concerns(s.h, s.actors[c].pc, p)
    ensures PartsOk(Apply(s, Tick(c, env)), p)
  {
    var cut := Cut(s.g, s.h, s.actors[c]);
    TickCut(s, c, env);
    StepEffect(cut, c, env);
    StepTurns(cut, c, env, p);
    EffectElsewhere(s.g, s.h, s.actors[c], p);
    MovesKeepParts(s, Apply(s, Tick(c, env)), c, p);
  }

  /** The one client at work on the part of `p` takes a step. */
  lemma TickInside(s: Sys, c: ConnId, env: Env, p: Principal)
    requires SerialInv(s, p) && Enabled(s, Tick(c, env)) && I.Inv(Apply(s, Tick(c, env)))
    requires Concerns(s.h, s.actors[c].pc, p)
    ensures PartsOk(Apply(s, Tick(c, env)), p)
  {
    var cut := Cut(s.g, s.h, s.actors[c]);
    var s' := Apply(s, Tick(c, env));
    TickCut(s, c, env);
    StepWithin(cut, c, env, p);
    OthersIdle(s, s'.h, c, p);
    if !Concerns(s'.h, s'.actors[c].pc, p) {
      StepTurns(cut, c, env, p);
      PlainPart(s'.g, s'.actors[c].pc, p);
    }
  }

  lemma OthersIdle(s: Sys, h': History, c: ConnId, p: Principal)
    requires I.Inv(s) && SerialFor(s, p) && c in s.actors && Concerns(s.h, s.actors[c].pc, p) && Remembers(s.h, h')
    ensures forall d :: d in s.actors && d != c ==> !Concerns(h', s.actors[d].pc, p)
  {
    ConcernIsCovered(s.g, s.h, s.actors[c], p);
    forall d | d in s.actors && d != c ensures !Concerns(h', s.actors[d].pc, p) {
      ConcernStays(s.g, s.h, h', s.actors[d], p);
      if Concerns(s.h, s.actors[d].pc, p) {
        ConcernIsCovered(s.g, s.h, s.actors[d], p);
      }
    }
  }

  /** A message arriving, and any other action that is no step, finds the client idle. */
  lemma OtherActionIsPlain(s: Sys, x: Action)
    requires Enabled(s, x) && !x.Tick?
    ensures x.cid in s.actors ==> s.actors[x.cid].pc.Idle?
    ensures Apply(s, x).g.routes == s.g.routes && Apply(s, x).g.reverse == s.g.reverse
    ensures Apply(s, x).h.ever == s.h.ever
    ensures x.cid in Apply(s, x).actors && Plain(Apply(s, x).actors[x.cid].pc)
    ensures Apply(s, x).actors == s.actors[x.cid := Apply(s, x).actors[x.cid]]
  {
    match x
    case Arrive(_, _, _) =>
    case Prove(_, _) =>
    case Receive(c, request) => BeginIsPlain(s.actors[c], request);
    case Emit(_, _, _, _, _) =>
    case Leave(_) =>
  }

  lemma BeginIsPlain(a: Actor, req: Request)
    requires a.pc.Idle?
    ensures Plain(Begin(a, req).pc)
  {
  }

  lemma OtherActionKeepsParts(s: Sys, x: Action, p: Principal)
    requires SerialInv(s, p) && Enabled(s, x) && !x.Tick? && I.Inv(Apply(s, x)) && SerialFor(Apply(s, x), p)
    ensures PartsOk(Apply(s, x), p)
  {
    OtherActionIsPlain(s, x);
    MovesKeepParts(s, Apply(s, x), x.cid, p);
  }

  lemma IdleTickKeepsParts(s: Sys, c: ConnId, env: Env, p: Principal)
    requires PartsOk(s, p) && Enabled(s, Tick(c, env)) && s.actors[c].pc.Idle?
    ensures PartsOk(Apply(s, Tick(c, env)), p)
  {
    I.IdleTick(s, c, env);
  }

  lemma ApplyKeepsSerial(s: Sys, x: Action, p: Principal)
    requires SerialInv(s, p) && Enabled(s, x) && SerialFor(Apply(s, x), p)
    ensures SerialInv(Apply(s, x), p)
  {
    I.ApplyKeepsInv(s, x);
    if !x.Tick? {
      OtherActionKeepsParts(s, x, p);
    } else if s.actors[x.cid].pc.Idle? {
      IdleTickKeepsParts(s, x.cid, x.env, p);
    } else if Concerns(s.h, s.actors[x.cid].pc, p) {
      TickInside(s, x.cid, x.env, p);
    } else {
      TickElsewhere(s, x.cid, x.env, p);
    }
  }

  lemma SerialAtOnce(s: Sys, xs: seq<Action>, p: Principal)
    requires Runnable(s, xs) && SerialRun(s, xs, p)
    ensures SerialFor(s, p) && (xs != [] ==> SerialFor(Apply(s, xs[0]), p))
  {
  }

  lemma {:induction false} RunKeepsSerial(s: Sys, xs: seq<Action>, p: Principal)
    requires SerialInv(s, p) && Runnable(s, xs) && SerialRun(s, xs, p)
    ensures SerialInv(Run(s, xs), p)
    decreases |xs|
  {
    if xs != [] {
      SerialAtOnce(s, xs, p);
      ApplyKeepsSerial(s, xs[0], p);
      RunKeepsSerial(Apply(s, xs[0]), xs[1..], p);
    }
  }

  lemma StartSerial(p: Principal)
    ensures SerialInv(START, p)
  {
  }

  // ---------------------------------------------------------------- main results

  /** Main result: in every interleaving in which channel messages and terminations of the clients that
      have proved `p` do not overlap, the routes of `p` and the reverse entries to them are inverse
      whenever no such client is inside one. Clients of other principals may do what they like. */
  lemma PartInverse(xs: seq<Action>, p: Principal)
    requires Runnable(START, xs) && SerialRun(START, xs, p) && !Covered(Run(START, xs), p)
    ensures InverseFor(Run(START, xs).g.routes, Run(START, xs).g.reverse, p)
  {
    StartSerial(p);
    RunKeepsSerial(START, xs, p);
    var s := Run(START, xs);
    forall c | c in s.actors ensures !Concerns(s.h, s.actors[c].pc, p) {
      if Concerns(s.h, s.actors[c].pc, p) {
        ConcernIsCovered(s.g, s.h, s.actors[c], p);
      }
    }
  }

  /** The clients that have proved `p`. */
  ghost function Provers(s: Sys, p: Principal): set<ConnId> {
    set c | c in s.actors && p in s.actors[c].conn.proved
  }

  lemma ApplyKeepsProvers(s: Sys, x: Action, p: Principal)
    requires I.Inv(s) && Enabled(s, x)
    ensures Provers(s, p) <= Provers(Apply(s, x), p)
  {
    match x
    case Arrive(_, _, _) =>
    case Prove(_, _) =>
    case Receive(c, request) => I.BeginOk(s.g, s.h, s.actors[c], request);
    case Emit(_, _, _, _, _) =>
    case Leave(_) =>
    case Tick(c, env) =>
      if s.actors[c].pc.Idle? {
        I.IdleTick(s, c, env);
      } else {
        assert I.ActorOk(s.g, s.h, s.actors[c]);
        I.StepIsOk(Cut(s.g, s.h, s.actors[c]), c, env);
      }
  }

  lemma {:induction false} RunKeepsProvers(s: Sys, xs: seq<Action>, p: Principal)
    requires I.Inv(s) && Runnable(s, xs)
    ensures Provers(s, p) <= Provers(Run(s, xs), p)
    decreases |xs|
  {
    if xs != [] {
      ApplyKeepsProvers(s, xs[0], p);
      I.ApplyKeepsInv(s, xs[0]);
      RunKeepsProvers(Apply(s, xs[0]), xs[1..], p);
    }
  }

  lemma OneIsAlone(cs: set<ConnId>, c: ConnId, d: ConnId)
    requires |cs| <= 1 && c in cs && d in cs
    ensures c == d
  {
    if c != d {
      assert {c, d} <= cs;
      SubsetIsSmaller({c, d}, cs);
    }
  }

  lemma {:induction false} SubsetIsSmaller(a: set<ConnId>, b: set<ConnId>)
    requires a <= b
    ensures |a| <= |b|
  {
    if a != {} {
      var x :| x in a;
      SubsetIsSmaller(a - {x}, b - {x});
    }
  }

  /** A client on its own cannot overlap with another. */
  lemma {:induction false} OneIsSerial(s: Sys, xs: seq<Action>, p: Principal)
    requires I.Inv(s) && Runnable(s, xs) && |Provers(Run(s, xs), p)| <= 1
    ensures SerialRun(s, xs, p)
    decreases |xs|
  {
    RunKeepsProvers(s, xs, p);
    forall c, d | c in s.actors && d in s.actors && Covers(s.actors[c], p) && Covers(s.actors[d], p) ensures c == d {
      assert c in Provers(s, p) && d in Provers(s, p);
      OneIsAlone(Provers(Run(s, xs), p), c, d);
    }
    if xs != [] {
      I.ApplyKeepsInv(s, xs[0]);
      OneIsSerial(Apply(s, xs[0]), xs[1..], p);
    }
  }

  /** At most `n` clients ever prove any one principal. */
  ghost predicate Sparse(s: Sys, n: nat) {
    forall p :: |Provers(s, p)| <= n
  }

  /** In every run in which at most `n` clients ever prove `p`, its part is inverse at rest. */
  ghost predicate InverseAtRest(p: Principal, n: nat) {
    forall xs :: Runnable(START, xs) && |Provers(Run(START, xs), p)| <= n && !Covered(Run(START, xs), p) ==>
      InverseFor(Run(START, xs).g.routes, Run(START, xs).g.reverse, p)
  }

  lemma {:induction false} LowerStays(s: string)
    requires forall i :: 0 <= i < |s| ==> !('A' <= s[i] <= 'Z')
    ensures AsciiLower(s) == s
  {
    if s != "" {
      LowerStays(s[1..]);
    }
  }

  lemma SlackIsAccepted()
    ensures NormalizeChannel("slack") == Some("slack")
  {
    LowerStays("slack");
    OneOfIsIn("slack", CHANNELS);
    assert CHANNELS[1] == "slack";
  }

  lemma SomeMessage(p: Principal) returns (r: Inbound, key: RouteKey)
    ensures InboundRoute(p, r) == Success(key)
  {
    r := Inbound("slack", "a", "a", "a", true, false);
    key := RouteKey(p, "slack", "a", "a");
    SlackIsAccepted();
    assert NormalizeComponent("a") == Some("a");
  }

  /** In a system of two clients nobody is proved by more than two. */
  lemma TwoProvers(s: Sys)
    requires s.actors.Keys == {0, 1}
    ensures Sparse(s, 2)
  {
    forall p ensures |Provers(s, p)| <= 2 {
      SubsetIsSmaller(Provers(s, p), {0, 1});
    }
  }

  /** Two clients suffice to break the part of any principal. */
  lemma TwoBreakPart(p: Principal) returns (xs: seq<Action>)
    ensures Runnable(START, xs) && Sparse(Run(START, xs), 2)
    ensures forall c :: c in Run(START, xs).actors ==> Run(START, xs).actors[c].pc.Idle?
    ensures !InverseFor(Run(START, xs).g.routes, Run(START, xs).g.reverse, p)
  {
    var r, key := SomeMessage(p);
    xs := Race.RaceBreaksInverse(p, r, key);
    TwoProvers(Run(START, xs));
    RacedIsBroken(Run(START, xs), key);
  }

  lemma RacedIsBroken(s: Sys, key: RouteKey)
    requires Race.Raced(s, key)
    ensures !InverseFor(s.g.routes, s.g.reverse, key.principal)
  {
    assert s.g.reverse["first"] == key && s.g.routes[key] == "second";
  }

  lemma WholeMakesParts(g: Shared, p: Principal)
    requires Atomic.RoutesInverse(g)
    ensures InverseFor(g.routes, g.reverse, p)
  {
  }

  /** Main result: the routes of a principal and the reverse entries to them are inverse at rest, in
      every interleaving of any clients, exactly if at most one client ever proves the principal. */
  lemma InverseIffOneClient(p: Principal, n: nat)
    ensures n <= 1 <==> InverseAtRest(p, n)
  {
    if n <= 1 {
      forall xs | Runnable(START, xs) && |Provers(Run(START, xs), p)| <= n && !Covered(Run(START, xs), p)
        ensures InverseFor(Run(START, xs).g.routes, Run(START, xs).g.reverse, p)
      {
        StartSerial(p);
        OneIsSerial(START, xs, p);
        PartInverse(xs, p);
      }
    } else {
      var xs := TwoBreakPart(p);
    }
  }

  /** No handler is inside a channel message or a termination. */
  ghost predicate AtRest(s: Sys) {
    forall c :: c in s.actors ==> !InRoutes(s.actors[c].pc)
  }

  lemma PartsMakeWhole(g: Shared)
    requires forall p :: InverseFor(g.routes, g.reverse, p)
    ensures Atomic.RoutesInverse(g)
  {
    forall k | k in g.routes ensures g.routes[k] in g.reverse && g.reverse[g.routes[k]] == k {
      assert InverseFor(g.routes, g.reverse, k.principal);
    }
    forall t | t in g.reverse ensures g.reverse[t] in g.routes && g.routes[g.reverse[t]] == t {
      assert InverseFor(g.routes, g.reverse, g.reverse[t].principal);
    }
  }

  /** Main result: the whole route tables are inverse at rest if, for each principal, the channel messages
      and terminations of its clients do not overlap; polls, transcripts, session commands and creations may. */
  lemma TablesInverse(xs: seq<Action>)
    requires Runnable(START, xs) && (forall p :: SerialRun(START, xs, p)) && AtRest(Run(START, xs))
    ensures Atomic.RoutesInverse(Run(START, xs).g)
  {
    forall p ensures InverseFor(Run(START, xs).g.routes, Run(START, xs).g.reverse, p) {
      PartInverse(xs, p);
    }
    PartsMakeWhole(Run(START, xs).g);
  }

  /** Main result: the whole route tables are inverse at rest, in every interleaving, exactly if at most
      one client ever proves any one principal. */
  lemma TablesInverseIffOneClientEach(n: nat)
    ensures n <= 1 <==>
      forall xs :: Runnable(START, xs) && Sparse(Run(START, xs), n) && AtRest(Run(START, xs)) ==>
        Atomic.RoutesInverse(Run(START, xs).g)
  {
    if n <= 1 {
      forall xs | Runnable(START, xs) && Sparse(Run(START, xs), n) && AtRest(Run(START, xs))
        ensures Atomic.RoutesInverse(Run(START, xs).g)
      {
        forall p ensures SerialRun(START, xs, p) {
          StartSerial(p);
          OneIsSerial(START, xs, p);
        }
        TablesInverse(xs);
      }
    } else {
      var xs := TwoBreakPart("");
      if Atomic.RoutesInverse(Run(START, xs).g) {
        WholeMakesParts(Run(START, xs).g, "");
      }
    }
  }
}
