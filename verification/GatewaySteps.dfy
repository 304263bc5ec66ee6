// The same handlers split at every lock acquisition and runner call: one program
// counter per client, and any interleaving of their steps. The route tables need
// not stay inverse here, but sessions, routes, queues, push senders and runner
// calls stay separated by owner.

module GatewaySteps {
  import opened Prelude
  import opened GatewayState

  /** A channel message whose parts have been validated, with the text to be handed on. */
  datatype Ticket = Ticket(key: RouteKey, text: string, respond: bool, force: bool)

  /** What follows a session creation, and what follows an authorisation. */
  datatype Next = ReplyCreated | BindRoute(ticket: Ticket)
  datatype Goal = ToTerminate | ToOperate | ToDeliver(ticket: Ticket)

  /** The lock or runner call a handler is about to take. */
  datatype Pc =
    | Idle
    | RunnerCreate(next: Next)
    | OwnerInsert(s: SessionId, next: Next)
    | ResponderInsert(s: SessionId, next: Next)
    | PriorityInsert(s: SessionId, next: Next)
    | AuthLookup(s: SessionId, goal: Goal)
    | AuthResponder(s: SessionId, goal: Goal)
    | AuthPriority(s: SessionId, goal: Goal)
    | TermResponder(s: SessionId)
    | TermPriority(s: SessionId)
    | TermOwner(s: SessionId)
    | TermRoutes(s: SessionId)
    | TermReverse(s: SessionId, removed: set<RouteKey>)
    | TermOutbox(s: SessionId, removed: set<RouteKey>)
    | TermRunner(s: SessionId)
    | RunnerOperate(s: SessionId)
    | RouteLookup(t: Ticket)
    | ForceRoute(t: Ticket, s: SessionId)
    | ForceReverse(t: Ticket, s: SessionId)
    | ForceOutbox(t: Ticket, s: SessionId)
    | ForceResponder(t: Ticket, s: SessionId)
    | ForcePriority(t: Ticket, s: SessionId)
    | ForceOwner(t: Ticket, s: SessionId)
    | ForceRunner(t: Ticket, s: SessionId)
    | OwnerCheck(t: Ticket, s: SessionId)
    | StaleRoute(t: Ticket, s: SessionId)
    | StaleReverse(t: Ticket, s: SessionId)
    | RouteInsert(t: Ticket, s: SessionId)
    | ReverseInsert(t: Ticket, s: SessionId)
    | RunnerSend(t: Ticket, s: SessionId)
    | RunnerRespond(t: Ticket, s: SessionId)
    | OutboxDrain(key: RouteKey, n: nat)
    | TranscriptLookup(s: SessionId, item: Item)
    | TranscriptPush(key: RouteKey, item: Item)

  datatype Actor = Actor(conn: Conn, pc: Pc, resp: Response)

  /** What a client has the runner do: end a session, one of the session commands, or, for a channel message,
      end the session it replaces, take its text, or create a response. */
  datatype Purpose = Ends | Operates | Replaces(t: Ticket) | Sends(t: Ticket) | Responds(t: Ticket)

  predicate ViaChannel(p: Purpose) {
    p.Replaces? || p.Sends? || p.Responds?
  }

  /** A runner call as the runner sees it: which session, for whom, by a client that has proved what. */
  datatype Call = Call(session: SessionId, acting: Principal, proved: set<Principal>, purpose: Purpose)

  /** An item handed to a poll of route `key` made as `principal`. */
  datatype Handover = Handover(principal: Principal, key: RouteKey, item: Item)

  /** Output of `session` pushed to a client that had proved `proved` by then. */
  datatype Pushed = Pushed(session: SessionId, proved: set<Principal>)

  /** History: the only owner each session ever had, which sessions were ever visible in the
      owner table, every runner call, every item polled or pushed, every final transcript received,
      and the ids drawn for queued items. */
  datatype History = History(
    ever: map<SessionId, Principal>,
    published: set<SessionId>,
    calls: seq<Call>,
    handed: seq<Handover>,
    pushed: seq<Pushed>,
    spoken: set<(SessionId, string)>,
    ids: set<nat>)

  datatype Cut = Cut(g: Shared, h: History, a: Actor)

  // ---------------------------------------------------------------- steps

  predicate Creating(pc: Pc) {
    pc.RunnerCreate? || pc.OwnerInsert? || pc.ResponderInsert? || pc.PriorityInsert?
  }

  predicate Authorizing(pc: Pc) {
    pc.AuthLookup? || pc.AuthResponder? || pc.AuthPriority?
  }

  predicate Terminating(pc: Pc) {
    pc.TermResponder? || pc.TermPriority? || pc.TermOwner? || pc.TermRoutes?
    || pc.TermReverse? || pc.TermOutbox? || pc.TermRunner?
  }

  predicate Forcing(pc: Pc) {
    pc.ForceRoute? || pc.ForceReverse? || pc.ForceOutbox? || pc.ForceResponder?
    || pc.ForcePriority? || pc.ForceOwner? || pc.ForceRunner?
  }

  predicate Routing(pc: Pc) {
    pc.RouteLookup? || pc.OwnerCheck? || pc.StaleRoute? || pc.StaleReverse?
    || pc.RouteInsert? || pc.ReverseInsert? || pc.RunnerSend? || pc.RunnerRespond?
  }

  predicate Queueing(pc: Pc) {
    pc.OutboxDrain? || pc.TranscriptLookup? || pc.TranscriptPush? || pc.RunnerOperate?
  }

  function Finish(a: Actor, resp: Response): Actor {
    a.(pc := Idle, resp := resp)
  }

  function Log(h: History, a: Actor, s: SessionId, purpose: Purpose): History {
    h.(calls := h.calls + [Call(s, Acting(a.conn), a.conn.proved, purpose)])
  }

  function Granting(s: SessionId, goal: Goal): Pc {
    if goal.ToTerminate? then TermResponder(s) else AuthResponder(s, goal)
  }

  function EnterAuth(a: Actor, s: SessionId, goal: Goal): Actor {
    if a.conn.principal.None? then Finish(a, Failed("auth_required"))
    else a.(pc := if s in a.conn.owned then Granting(s, goal) else AuthLookup(s, goal))
  }

  function StepCreate(c: Cut, cid: ConnId, env: Env): Cut
    requires Creating(c.a.pc)
  {
    var (g, h, a) := (c.g, c.h, c.a);
    match a.pc
    case RunnerCreate(next) =>
      if !env.createOk then c.(a := Finish(a, Failed("session_create_failed")))
      else
        var p := Acting(a.conn);
        Cut(g.(live := g.live[env.uuid := p]), h.(ever := h.ever[env.uuid := p]), a.(pc := OwnerInsert(env.uuid, next)))
    case OwnerInsert(s, next) =>
      Cut(g.(owners := g.owners[s := Acting(a.conn)]), h.(published := h.published + {s}),
        a.(pc := ResponderInsert(s, next)))
    case ResponderInsert(s, next) =>
      Cut(if a.conn.ws then g.(responders := g.responders[s := cid]) else g, h, a.(pc := PriorityInsert(s, next)))
    case PriorityInsert(s, next) =>
      var g' := if a.conn.ws then g.(priority := g.priority[s := cid]) else g;
      var a' := a.(conn := a.conn.(owned := a.conn.owned + {s}));
      Cut(g', h, if next.ReplyCreated? then Finish(a', SessionCreated(s)) else a'.(pc := RouteInsert(next.ticket, s)))
  }

  function StepAuth(c: Cut, cid: ConnId): Cut
    requires Authorizing(c.a.pc)
  {
    var (g, h, a) := (c.g, c.h, c.a);
    match a.pc
    case AuthLookup(s, goal) =>
      if s !in g.owners then c.(a := Finish(a, Failed("session_not_found")))
      else if Some(g.owners[s]) != a.conn.principal then c.(a := Finish(a, Failed("forbidden_session")))
      else c.(a := a.(conn := a.conn.(owned := a.conn.owned + {s}), pc := Granting(s, goal)))
    case AuthResponder(s, goal) =>
      Cut(if a.conn.ws then g.(responders := g.responders[s := cid]) else g, h, a.(pc := AuthPriority(s, goal)))
    case AuthPriority(s, goal) =>
      Cut(if a.conn.ws then g.(priority := g.priority[s := cid]) else g, h,
          a.(pc := if goal.ToDeliver? then RunnerSend(goal.ticket, s) else RunnerOperate(s)))
  }

  function StepTerminate(c: Cut): Cut
    requires Terminating(c.a.pc)
  {
    var (g, h, a) := (c.g, c.h, c.a);
    var forgotten := a.conn.(owned := a.conn.owned - {a.pc.s});
    match a.pc
    case TermResponder(s) => Cut(g.(responders := g.responders - {s}), h, a.(pc := TermPriority(s)))
    case TermPriority(s) => Cut(g.(priority := g.priority - {s}), h, a.(pc := TermOwner(s)))
    case TermOwner(s) => Cut(g.(owners := g.owners - {s}), h, a.(pc := TermRoutes(s)))
    case TermRoutes(s) =>
      Cut(g.(routes := map k | k in g.routes && g.routes[k] != s :: g.routes[k]), h,
        a.(pc := TermReverse(s, RoutesTo(g, s))))
    case TermReverse(s, removed) =>
      Cut(g.(reverse := g.reverse - {s}), h,
          if removed == {} then a.(conn := forgotten, pc := TermRunner(s)) else a.(pc := TermOutbox(s, removed)))
    case TermOutbox(s, removed) => Cut(g.(outbox := g.outbox - removed), h, a.(conn := forgotten, pc := TermRunner(s)))
    case TermRunner(s) =>
      Cut(g.(live := g.live - {s}), Log(h, a, s, Ends),
          Finish(a, if s in g.live then SessionTerminated(s) else Failed("session_terminate_failed")))
  }

  function StepForce(c: Cut): Cut
    requires Forcing(c.a.pc)
  {
    var (g, h, a) := (c.g, c.h, c.a);
    match a.pc
    case ForceRoute(t, s) => Cut(g.(routes := g.routes - {t.key}), h, a.(pc := ForceReverse(t, s)))
    case ForceReverse(t, s) => Cut(g.(reverse := g.reverse - {s}), h, a.(pc := ForceOutbox(t, s)))
    case ForceOutbox(t, s) => Cut(g.(outbox := g.outbox - {t.key}), h, a.(pc := ForceResponder(t, s)))
    case ForceResponder(t, s) => Cut(g.(responders := g.responders - {s}), h, a.(pc := ForcePriority(t, s)))
    case ForcePriority(t, s) => Cut(g.(priority := g.priority - {s}), h, a.(pc := ForceOwner(t, s)))
    case ForceOwner(t, s) => Cut(g.(owners := g.owners - {s}), h, a.(pc := ForceRunner(t, s)))
    case ForceRunner(t, s) => Cut(g.(live := g.live - {s}), Log(h, a, s, Replaces(t)),
      a.(pc := RunnerCreate(BindRoute(t))))
  }

  function StepRoute(c: Cut, env: Env): Cut
    requires Routing(c.a.pc)
  {
    var (g, h, a) := (c.g, c.h, c.a);
    match a.pc
    case RouteLookup(t) =>
      c.(a := a.(pc := if t.key !in g.routes then RunnerCreate(BindRoute(t))
                       else if t.force then ForceRoute(t, g.routes[t.key])
                       else OwnerCheck(t, g.routes[t.key])))
    case OwnerCheck(t, s) => c.(a := a.(pc := if s in g.owners then ReverseInsert(t, s) else StaleRoute(t, s)))
    case StaleRoute(t, s) => Cut(g.(routes := g.routes - {t.key}), h, a.(pc := StaleReverse(t, s)))
    case StaleReverse(t, s) => Cut(g.(reverse := g.reverse - {s}), h, a.(pc := RunnerCreate(BindRoute(t))))
    case RouteInsert(t, s) => Cut(g.(routes := g.routes[t.key := s]), h, a.(pc := ReverseInsert(t, s)))
    case ReverseInsert(t, s) => Cut(g.(reverse := g.reverse[s := t.key]), h, EnterAuth(a, s, ToDeliver(t)))
    case RunnerSend(t, s) =>
      Cut(g, Log(h, a, s, Sends(t)),
          if !(env.sendOk && s in g.live) then Finish(a, Failed("channel_inbound_failed"))
          else if t.respond then a.(pc := RunnerRespond(t, s))
          else Finish(a, ChannelRouted(t.key, s)))
    case RunnerRespond(t, s) =>
      Cut(g, Log(h, a, s, Responds(t)),
          Finish(a, if env.respondOk then ChannelRouted(t.key, s) else Failed("channel_response_failed")))
  }

  function HandedOver(p: Principal, key: RouteKey, items: seq<Item>): (r: seq<Handover>)
    ensures |r| == |items|
    ensures forall i :: 0 <= i < |items| ==> r[i] == Handover(p, key, items[i])
  {
    seq(|items|, i requires 0 <= i < |items| => Handover(p, key, items[i]))
  }

  function StepQueue(c: Cut, env: Env): Cut
    requires Queueing(c.a.pc)
  {
    var (g, h, a) := (c.g, c.h, c.a);
    match a.pc
    case OutboxDrain(key, n) =>
      var items := Queued(g.outbox, key)[..Taken(g.outbox, key, n)];
      Cut(g.(outbox := Drained(g.outbox, key, n)),
          h.(handed := h.handed + HandedOver(Acting(a.conn), key, items)), Finish(a, Batch(key, items)))
    case TranscriptLookup(s, item) =>
      c.(a := if s in g.reverse then a.(pc := TranscriptPush(g.reverse[s], item)) else Finish(a, NoReply))
    case TranscriptPush(key, item) => Cut(g.(outbox := Push(g.outbox, key, item)), h, Finish(a, NoReply))
    case RunnerOperate(s) =>
      Cut(g, Log(h, a, s, Operates),
          Finish(a, if env.sendOk && s in g.live then Operated(s) else Failed("session_operation_failed")))
  }

  /** One step of the client's handler. */
  function Step(c: Cut, cid: ConnId, env: Env): Cut {
    if Creating(c.a.pc) then StepCreate(c, cid, env)
    else if Authorizing(c.a.pc) then StepAuth(c, cid)
    else if Terminating(c.a.pc) then StepTerminate(c)
    else if Forcing(c.a.pc) then StepForce(c)
    else if Routing(c.a.pc) then StepRoute(c, env)
    else if Queueing(c.a.pc) then StepQueue(c, env)
    else c
  }

  function TicketOf(key: RouteKey, r: Inbound): Ticket {
    Ticket(key, Trim(r.text), r.respond, r.force)
  }

  /** A message arrives at an idle client: the part of its handler before the first lock. */
  function Begin(a: Actor, req: Request): Actor {
    if !a.conn.authenticated then Finish(a, Failed("auth_required"))
    else
      match req
      case Create => a.(pc := RunnerCreate(ReplyCreated))
      case Terminate(s) => EnterAuth(a, s, ToTerminate)
      case Operate(s) => EnterAuth(a, s, ToOperate)
      case Route(r) =>
        if a.conn.principal.None? then Finish(a, Failed("auth_required"))
        else BeginOn(a, InboundRoute(a.conn.principal.value, r), key => RouteLookup(TicketOf(key, r)))
      case Poll(channel, account, user, maxItems) =>
        if a.conn.principal.None? then Finish(a, Failed("auth_required"))
        else BeginOn(a, RouteOf(a.conn.principal.value, channel, account, user),
          key => OutboxDrain(key, BoundedMaxItems(maxItems)))
  }

  function BeginOn(a: Actor, route: Result<RouteKey, string>, first: RouteKey -> Pc): Actor {
    match route
    case Failure(code) => Finish(a, Failed(code))
    case Success(key) => a.(pc := first(key))
  }

  // ---------------------------------------------------------------- the system

  datatype Sys = Sys(g: Shared, h: History, actors: map<ConnId, Actor>)

  datatype Action =
    | Arrive(cid: ConnId, ws: bool, preauthenticated: Option<Principal>)
    | Prove(cid: ConnId, principal: Principal)
    | Receive(cid: ConnId, request: Request)
    | Emit(cid: ConnId, session: SessionId, text: string, isFinal: bool, id: nat)
    | Tick(cid: ConnId, env: Env)
    | Leave(cid: ConnId)

  const START := Sys(NO_TABLES, History(map[], {}, [], [], [], {}, {}), map[])

  predicate Enabled(s: Sys, x: Action) {
    match x
    case Arrive(c, _, _) => c !in s.actors
    case Tick(c, env) => c in s.actors && env.uuid !in s.h.ever
    case Emit(c, _, _, _, id) => c in s.actors && s.actors[c].pc.Idle? && id !in s.h.ids
    case _ => x.cid in s.actors && s.actors[x.cid].pc.Idle?
  }

  /** Output of a session goes to the client its push sender points at, whatever the text. */
  function PushOut(s: Sys, session: SessionId): History {
    if session in s.g.responders && s.g.responders[session] in s.actors then
      s.h.(pushed := s.h.pushed + [Pushed(session, s.actors[s.g.responders[session]].conn.proved)])
    else s.h
  }

  function Apply(s: Sys, x: Action): Sys
    requires Enabled(s, x)
  {
    match x
    case Arrive(c, ws, p) => s.(actors := s.actors[c := Actor(Fresh(ws, p), Idle, NoReply)])
    case Prove(c, p) => s.(actors := s.actors[c := s.actors[c].(conn := Proven(s.actors[c].conn, p))])
    case Receive(c, req) => s.(actors := s.actors[c := Begin(s.actors[c], req)])
    case Emit(c, session, text, isFinal, id) =>
      var t := Trim(text);
      var h := PushOut(s, session);
      if !isFinal || t == "" then s.(h := h)
      else
        Sys(s.g, h.(spoken := h.spoken + {(session, t)}, ids := h.ids + {id}),
            s.actors[c := s.actors[c].(pc := TranscriptLookup(session, Item(id, session, t)))])
    case Tick(c, env) =>
      var cut := Step(Cut(s.g, s.h, s.actors[c]), c, env);
      Sys(cut.g, cut.h, s.actors[c := cut.a])
    case Leave(c) =>
      var gone := s.actors[c].conn.(authenticated := false, principal := None, owned := {});
      s.(g := Closed(s.g, s.actors[c].conn), actors := s.actors[c := s.actors[c].(conn := gone)])
  }

  predicate Runnable(s: Sys, xs: seq<Action>)
    decreases |xs|
  {
    xs == [] || (Enabled(s, xs[0]) && Runnable(Apply(s, xs[0]), xs[1..]))
  }

  function Run(s: Sys, xs: seq<Action>): Sys
    requires Runnable(s, xs)
    decreases |xs|
  {
    if xs == [] then s else Run(Apply(s, xs[0]), xs[1..])
  }
}
