// Owner isolation under every interleaving of the gateway's lock-granular steps,
// and agreement between the gateway's owner table and the runner's sessions.

module GatewayIsolation {
  import opened Prelude
  import opened GatewayState
  import opened GatewaySteps

  // ---------------------------------------------------------------- the invariant

  /** `s` has been visible in the owner table, and its only owner ever is `p`. */
  ghost predicate OwnedBy(h: History, s: SessionId, p: Principal) {
    s in h.published && s in h.ever && h.ever[s] == p
  }

  ghost predicate OwnedByOneOf(h: History, s: SessionId, ps: set<Principal>) {
    s in h.published && s in h.ever && h.ever[s] in ps
  }

  ghost predicate ItemOk(h: History, i: Item, p: Principal) {
    OwnedBy(h, i.session, p) && (i.session, i.text) in h.spoken
  }

  ghost predicate SharedOk(g: Shared, h: History) {
    && (forall s :: s in g.owners ==> OwnedBy(h, s, g.owners[s]) && s in g.live)
    && (forall s :: s in g.live ==> s in h.ever && h.ever[s] == g.live[s])
    && (forall k :: k in g.routes ==> OwnedBy(h, g.routes[k], k.principal))
    && (forall s :: s in g.reverse ==> OwnedBy(h, s, g.reverse[s].principal))
    && (forall k, i :: k in g.outbox && i in g.outbox[k] ==> ItemOk(h, i, k.principal))
  }

  ghost predicate HistoryOk(h: History) {
    && h.published <= h.ever.Keys
    && (forall i :: 0 <= i < |h.calls| ==> OwnedByOneOf(h, h.calls[i].session, h.calls[i].proved))
    && (forall i :: 0 <= i < |h.calls| && ViaChannel(h.calls[i].purpose) ==>
          OwnedBy(h, h.calls[i].session, h.calls[i].acting))
    && (forall i :: 0 <= i < |h.handed| ==> ItemOk(h, h.handed[i].item, h.handed[i].principal))
    && (forall i :: 0 <= i < |h.pushed| ==> OwnedByOneOf(h, h.pushed[i].session, h.pushed[i].proved))
  }

  ghost predicate ConnOk(h: History, c: Conn) {
    && (c.authenticated ==> c.principal.Some?)
    && (c.principal.Some? ==> c.principal.value in c.proved)
    && (forall s :: s in c.owned ==> OwnedByOneOf(h, s, c.proved))
  }

  ghost predicate Mine(h: History, c: Conn, t: Ticket, s: SessionId) {
    c.principal == Some(t.key.principal) && OwnedBy(h, s, t.key.principal)
  }

  ghost predicate NextOk(c: Conn, n: Next) {
    c.principal.Some? && (n.BindRoute? ==> c.principal.value == n.ticket.key.principal)
  }

  ghost predicate GoalOk(h: History, c: Conn, s: SessionId, goal: Goal) {
    c.principal.Some? && (goal.ToDeliver? ==> Mine(h, c, goal.ticket, s))
  }

  /** What a client knows at each program counter. */
  ghost predicate PcOk(g: Shared, h: History, c: Conn, pc: Pc) {
    match pc
    case Idle => true
    case RunnerCreate(n) => NextOk(c, n)
    case OwnerInsert(s, n) => NextOk(c, n) && s in h.ever && h.ever[s] == c.principal.value && s !in h.published &&
      s in g.live
    case ResponderInsert(s, n) => NextOk(c, n) && OwnedBy(h, s, c.principal.value)
    case PriorityInsert(s, n) => NextOk(c, n) && OwnedBy(h, s, c.principal.value)
    case AuthLookup(s, goal) => GoalOk(h, c, s, goal)
    case AuthResponder(s, goal) => GoalOk(h, c, s, goal) && OwnedByOneOf(h, s, c.proved)
    case AuthPriority(s, goal) => GoalOk(h, c, s, goal) && OwnedByOneOf(h, s, c.proved)
    case TermResponder(s) => OwnedByOneOf(h, s, c.proved)
    case TermPriority(s) => OwnedByOneOf(h, s, c.proved)
    case TermOwner(s) => OwnedByOneOf(h, s, c.proved)
    case TermRoutes(s) => OwnedByOneOf(h, s, c.proved) && s !in g.owners
    case TermReverse(s, _) => OwnedByOneOf(h, s, c.proved) && s !in g.owners
    case TermOutbox(s, _) => OwnedByOneOf(h, s, c.proved) && s !in g.owners
    case TermRunner(s) => OwnedByOneOf(h, s, c.proved) && s !in g.owners
    case RunnerOperate(s) => OwnedByOneOf(h, s, c.proved)
    case RouteLookup(t) => c.principal == Some(t.key.principal)
    case ForceRoute(t, s) => Mine(h, c, t, s)
    case ForceReverse(t, s) => Mine(h, c, t, s)
    case ForceOutbox(t, s) => Mine(h, c, t, s)
    case ForceResponder(t, s) => Mine(h, c, t, s)
    case ForcePriority(t, s) => Mine(h, c, t, s)
    case ForceOwner(t, s) => Mine(h, c, t, s)
    case ForceRunner(t, s) => Mine(h, c, t, s) && s !in g.owners
    case OwnerCheck(t, s) => Mine(h, c, t, s)
    case StaleRoute(t, s) => Mine(h, c, t, s)
    case StaleReverse(t, s) => Mine(h, c, t, s)
    case RouteInsert(t, s) => Mine(h, c, t, s)
    case ReverseInsert(t, s) => Mine(h, c, t, s)
    case RunnerSend(t, s) => Mine(h, c, t, s)
    case RunnerRespond(t, s) => Mine(h, c, t, s)
    case OutboxDrain(key, _) => c.principal == Some(key.principal)
    case TranscriptLookup(s, item) => item.session == s && (s, item.text) in h.spoken
    case TranscriptPush(key, item) => ItemOk(h, item, key.principal)
  }

  ghost predicate ActorOk(g: Shared, h: History, a: Actor) {
    ConnOk(h, a.conn) && PcOk(g, h, a.conn, a.pc)
  }

  /** A drawn session id that no table shows yet. */
  function Pending(a: Actor): set<SessionId> {
    if a.pc.OwnerInsert? then {a.pc.s} else {}
  }

  /** Sessions that this client is about to insert into, or has removed from, the owner table. */
  function InFlight(a: Actor): set<SessionId> {
    if a.pc.OwnerInsert? || a.pc.TermRoutes? || a.pc.TermReverse? || a.pc.TermOutbox? || a.pc.TermRunner?
      || a.pc.ForceRunner?
    then {a.pc.s} else {}
  }

  /** Live sessions that the gateway does not list. */
  function Unlisted(g: Shared): set<SessionId> {
    g.live.Keys - g.owners.Keys
  }

  /** How one client's step may change what the others rely on. */
  ghost predicate Grows(g: Shared, h: History, g': Shared, h': History, mine: set<SessionId>) {
    && (forall s :: s in h.ever ==> s in h'.ever && h'.ever[s] == h.ever[s])
    && h.published <= h'.published <= h.published + mine
    && h.spoken <= h'.spoken
    && (forall s :: s in g'.owners ==> s in g.owners || s in mine)
    && (forall s :: s in g.live && s !in g'.live ==> s in h.published)
  }

  /** Push senders that appear in a step point at the stepping client, which may see the session. */
  ghost predicate SendersGrow(
    old_: map<SessionId, ConnId>, new_: map<SessionId, ConnId>, h: History, cid: ConnId, c: Conn)
  {
    forall s :: s in new_ ==> (s in old_ && new_[s] == old_[s]) || (new_[s] == cid && OwnedByOneOf(h, s, c.proved))
  }

  /** Only what the stepping handlers hold in their hands is live and not listed. */
  ghost predicate Accounts(c: Cut, c': Cut) {
    Unlisted(c'.g) <= (Unlisted(c.g) - InFlight(c.a)) + InFlight(c'.a)
  }

  /** What one step of a client guarantees. */
  ghost predicate StepOk(c: Cut, c': Cut, cid: ConnId, uuid: SessionId) {
    && SharedOk(c'.g, c'.h) && HistoryOk(c'.h) && ActorOk(c'.g, c'.h, c'.a)
    && Grows(c.g, c.h, c'.g, c'.h, Pending(c.a))
    && Pending(c'.a) <= {uuid}
    && c'.a.conn.proved == c.a.conn.proved
    && SendersGrow(c.g.responders, c'.g.responders, c'.h, cid, c'.a.conn)
    && SendersGrow(c.g.priority, c'.g.priority, c'.h, cid, c'.a.conn)
    && Accounts(c, c')
  }

  ghost predicate CutOk(c: Cut) {
    SharedOk(c.g, c.h) && HistoryOk(c.h) && ActorOk(c.g, c.h, c.a)
  }

  // ---------------------------------------------------------------- kinds of steps

  ghost predicate SubMap<K, V>(a: map<K, V>, b: map<K, V>) {
    forall k :: k in a ==> k in b && a[k] == b[k]
  }

  /** Nothing is added or changed, and the runner's sessions stay. */
  ghost predicate Fewer(g: Shared, g': Shared) {
    && SubMap(g'.owners, g.owners) && SubMap(g'.routes, g.routes) && SubMap(g'.reverse, g.reverse)
    && SubMap(g'.responders, g.responders) && SubMap(g'.priority, g.priority)
    && (forall k, i :: k in g'.outbox && i in g'.outbox[k] ==> k in g.outbox && i in g.outbox[k])
    && g'.live == g.live
  }

  lemma FewerKeeps(g: Shared, h: History, g': Shared)
    requires SharedOk(g, h) && Fewer(g, g')
    ensures SharedOk(g', h) && Grows(g, h, g', h, {})
  {
  }

  /** The client ends up knowing what its next program counter asks for, with no new session drawn. */
  ghost predicate MovesOn(c: Cut, c': Cut) {
    && ActorOk(c'.g, c'.h, c'.a) && c'.a.conn.proved == c.a.conn.proved
    && Pending(c.a) == {} && Pending(c'.a) == {} && Accounts(c, c')
  }

  /** A step that looks something up or removes entries. */
  lemma RemovalOk(c: Cut, c': Cut, cid: ConnId, uuid: SessionId)
    requires CutOk(c) && Fewer(c.g, c'.g) && c'.h == c.h && MovesOn(c, c')
    ensures StepOk(c, c', cid, uuid)
  {
    FewerKeeps(c.g, c.h, c'.g);
  }

  lemma LogKeeps(h: History, a: Actor, s: SessionId, purpose: Purpose)
    requires HistoryOk(h) && OwnedByOneOf(h, s, a.conn.proved)
    requires ViaChannel(purpose) ==> OwnedBy(h, s, Acting(a.conn))
    ensures HistoryOk(Log(h, a, s, purpose))
  {
  }

  /** A step that calls the runner for a session, perhaps to end it. */
  lemma CallOk(c: Cut, c': Cut, s: SessionId, purpose: Purpose, cid: ConnId, uuid: SessionId)
    requires CutOk(c) && OwnedByOneOf(c.h, s, c.a.conn.proved)
    requires ViaChannel(purpose) ==> OwnedBy(c.h, s, Acting(c.a.conn))
    requires c'.h == Log(c.h, c.a, s, purpose) && MovesOn(c, c')
    requires c'.g == c.g || (s !in c.g.owners && c'.g == c.g.(live := c.g.live - {s}))
    ensures StepOk(c, c', cid, uuid)
  {
    LogKeeps(c.h, c.a, s, purpose);
  }

  /** A step that points a push sender of the session at the client. */
  lemma SenderOk(c: Cut, c': Cut, s: SessionId, cid: ConnId, uuid: SessionId)
    requires CutOk(c) && OwnedByOneOf(c.h, s, c.a.conn.proved) && c'.h == c.h && MovesOn(c, c')
    requires c'.g in {c.g, c.g.(responders := c.g.responders[s := cid]), c.g.(priority := c.g.priority[s := cid])}
    ensures StepOk(c, c', cid, uuid)
  {
  }

  // ---------------------------------------------------------------- each step

  lemma CreateStepOk(c: Cut, cid: ConnId, env: Env)
    requires CutOk(c) && env.uuid !in c.h.ever
    requires c.a.pc.RunnerCreate?
    ensures StepOk(c, StepCreate(c, cid, env), cid, env.uuid)
  {
    var c' := StepCreate(c, cid, env);
    DrawnKeeps(c.g, c.h, env.uuid, Acting(c.a.conn));
    assert ActorOk(c'.g, c'.h, c'.a);
  }

  /** A session id never drawn before is nobody's yet. */
  lemma DrawnKeeps(g: Shared, h: History, uuid: SessionId, p: Principal)
    requires SharedOk(g, h) && HistoryOk(h) && uuid !in h.ever
    ensures var g', h' := g.(live := g.live[uuid := p]), h.(ever := h.ever[uuid := p]);
      SharedOk(g', h') && HistoryOk(h') && Grows(g, h, g', h', {})
  {
  }

  lemma PublishStepOk(c: Cut, cid: ConnId, env: Env)
    requires CutOk(c)
    requires c.a.pc.OwnerInsert?
    ensures StepOk(c, StepCreate(c, cid, env), cid, env.uuid)
  {
    var c' := StepCreate(c, cid, env);
    assert SharedOk(c'.g, c'.h);
    assert HistoryOk(c'.h);
  }

  lemma RegisterStepOk(c: Cut, cid: ConnId, env: Env)
    requires CutOk(c)
    requires c.a.pc.ResponderInsert? || c.a.pc.PriorityInsert?
    ensures StepOk(c, StepCreate(c, cid, env), cid, env.uuid)
  {
    SenderOk(c, StepCreate(c, cid, env), c.a.pc.s, cid, env.uuid);
  }

  lemma LookupStepOk(c: Cut, cid: ConnId, uuid: SessionId)
    requires CutOk(c)
    requires c.a.pc.AuthLookup?
    ensures StepOk(c, StepAuth(c, cid), cid, uuid)
  {
    assert ConnOk(c.h, StepAuth(c, cid).a.conn);
    RemovalOk(c, StepAuth(c, cid), cid, uuid);
  }

  lemma BindStepOk(c: Cut, cid: ConnId, uuid: SessionId)
    requires CutOk(c)
    requires c.a.pc.AuthResponder? || c.a.pc.AuthPriority?
    ensures StepOk(c, StepAuth(c, cid), cid, uuid)
  {
    SenderOk(c, StepAuth(c, cid), c.a.pc.s, cid, uuid);
  }

  lemma TerminateStepOk(c: Cut, cid: ConnId, uuid: SessionId)
    requires CutOk(c)
    requires c.a.pc.TermResponder? || c.a.pc.TermPriority? || c.a.pc.TermOwner? || c.a.pc.TermRoutes?
    ensures StepOk(c, StepTerminate(c), cid, uuid)
  {
    RemovalOk(c, StepTerminate(c), cid, uuid);
  }

  lemma RetireStepOk(c: Cut, cid: ConnId, uuid: SessionId)
    requires CutOk(c)
    requires c.a.pc.TermReverse? || c.a.pc.TermOutbox?
    ensures StepOk(c, StepTerminate(c), cid, uuid)
  {
    RemovalOk(c, StepTerminate(c), cid, uuid);
  }

  lemma RunnerTerminateStepOk(c: Cut, cid: ConnId, uuid: SessionId)
    requires CutOk(c)
    requires c.a.pc.TermRunner?
    ensures StepOk(c, StepTerminate(c), cid, uuid)
  {
    CallOk(c, StepTerminate(c), c.a.pc.s, Ends, cid, uuid);
  }

  lemma ForceStepOk(c: Cut, cid: ConnId, uuid: SessionId)
    requires CutOk(c)
    requires c.a.pc.ForceRoute? || c.a.pc.ForceReverse? || c.a.pc.ForceOutbox?
    ensures StepOk(c, StepForce(c), cid, uuid)
  {
    RemovalOk(c, StepForce(c), cid, uuid);
  }

  lemma ReplaceStepOk(c: Cut, cid: ConnId, uuid: SessionId)
    requires CutOk(c)
    requires c.a.pc.ForceResponder? || c.a.pc.ForcePriority?
    ensures StepOk(c, StepForce(c), cid, uuid)
  {
    RemovalOk(c, StepForce(c), cid, uuid);
  }

  lemma DisownStepOk(c: Cut, cid: ConnId, uuid: SessionId)
    requires CutOk(c)
    requires c.a.pc.ForceOwner?
    ensures StepOk(c, StepForce(c), cid, uuid)
  {
    RemovalOk(c, StepForce(c), cid, uuid);
  }

  lemma RunnerReplaceStepOk(c: Cut, cid: ConnId, uuid: SessionId)
    requires CutOk(c)
    requires c.a.pc.ForceRunner?
    ensures StepOk(c, StepForce(c), cid, uuid)
  {
    CallOk(c, StepForce(c), c.a.pc.s, Replaces(c.a.pc.t), cid, uuid);
  }

  lemma RouteStepOk(c: Cut, cid: ConnId, env: Env)
    requires CutOk(c)
    requires c.a.pc.RouteLookup? || c.a.pc.OwnerCheck?
    ensures StepOk(c, StepRoute(c, env), cid, env.uuid)
  {
    RemovalOk(c, StepRoute(c, env), cid, env.uuid);
  }

  lemma StaleStepOk(c: Cut, cid: ConnId, env: Env)
    requires CutOk(c)
    requires c.a.pc.StaleRoute? || c.a.pc.StaleReverse?
    ensures StepOk(c, StepRoute(c, env), cid, env.uuid)
  {
    RemovalOk(c, StepRoute(c, env), cid, env.uuid);
  }

  lemma RouteInsertStepOk(c: Cut, cid: ConnId, env: Env)
    requires CutOk(c)
    requires c.a.pc.RouteInsert?
    ensures StepOk(c, StepRoute(c, env), cid, env.uuid)
  {
    var c' := StepRoute(c, env);
    assert SharedOk(c'.g, c'.h);
    assert ActorOk(c'.g, c'.h, c'.a);
  }

  lemma EnterAuthOk(g: Shared, h: History, a: Actor, s: SessionId, goal: Goal)
    requires ConnOk(h, a.conn) && (a.conn.principal.Some? ==> GoalOk(h, a.conn, s, goal))
    ensures ActorOk(g, h, EnterAuth(a, s, goal)) && EnterAuth(a, s, goal).conn == a.conn
    ensures Pending(EnterAuth(a, s, goal)) == {} && InFlight(EnterAuth(a, s, goal)) == {}
  {
  }

  lemma ReverseInsertStepOk(c: Cut, cid: ConnId, env: Env)
    requires CutOk(c)
    requires c.a.pc.ReverseInsert?
    ensures StepOk(c, StepRoute(c, env), cid, env.uuid)
  {
    var c' := StepRoute(c, env);
    EnterAuthOk(c'.g, c.h, c.a, c.a.pc.s, ToDeliver(c.a.pc.t));
    assert SharedOk(c'.g, c'.h);
  }

  lemma DeliverStepOk(c: Cut, cid: ConnId, env: Env)
    requires CutOk(c)
    requires c.a.pc.RunnerSend?
    ensures StepOk(c, StepRoute(c, env), cid, env.uuid)
  {
    CallOk(c, StepRoute(c, env), c.a.pc.s, Sends(c.a.pc.t), cid, env.uuid);
  }

  lemma RespondStepOk(c: Cut, cid: ConnId, env: Env)
    requires CutOk(c)
    requires c.a.pc.RunnerRespond?
    ensures StepOk(c, StepRoute(c, env), cid, env.uuid)
  {
    CallOk(c, StepRoute(c, env), c.a.pc.s, Responds(c.a.pc.t), cid, env.uuid);
  }

  lemma DrainHandsOwnItems(g: Shared, h: History, key: RouteKey, n: nat)
    requires SharedOk(g, h)
    ensures var items := Queued(g.outbox, key)[..Taken(g.outbox, key, n)];
      forall i :: 0 <= i < |items| ==> ItemOk(h, items[i], key.principal)
    ensures Fewer(g, g.(outbox := Drained(g.outbox, key, n)))
  {
    var items := Queued(g.outbox, key)[..Taken(g.outbox, key, n)];
    forall i | 0 <= i < |items| ensures ItemOk(h, items[i], key.principal) {
      assert items[i] in g.outbox[key];
    }
  }

  lemma HandoverKeeps(g: Shared, h: History, p: Principal, key: RouteKey, items: seq<Item>)
    requires SharedOk(g, h) && HistoryOk(h) && forall i :: 0 <= i < |items| ==> ItemOk(h, items[i], p)
    ensures var h' := h.(handed := h.handed + HandedOver(p, key, items));
      SharedOk(g, h') && HistoryOk(h') && Grows(g, h, g, h', {})
  {
  }

  lemma DrainStepOk(c: Cut, cid: ConnId, env: Env)
    requires CutOk(c)
    requires c.a.pc.OutboxDrain?
    ensures StepOk(c, StepQueue(c, env), cid, env.uuid)
  {
    var (key, n) := (c.a.pc.key, c.a.pc.n);
    var c' := StepQueue(c, env);
    DrainHandsOwnItems(c.g, c.h, key, n);
    FewerKeeps(c.g, c.h, c'.g);
    HandoverKeeps(c'.g, c.h, Acting(c.a.conn), key, Queued(c.g.outbox, key)[..Taken(c.g.outbox, key, n)]);
    assert ActorOk(c'.g, c'.h, c'.a);
  }

  lemma TranscriptLookupStepOk(c: Cut, cid: ConnId, env: Env)
    requires CutOk(c)
    requires c.a.pc.TranscriptLookup?
    ensures StepOk(c, StepQueue(c, env), cid, env.uuid)
  {
    RemovalOk(c, StepQueue(c, env), cid, env.uuid);
  }

  lemma TranscriptPushStepOk(c: Cut, cid: ConnId, env: Env)
    requires CutOk(c)
    requires c.a.pc.TranscriptPush?
    ensures StepOk(c, StepQueue(c, env), cid, env.uuid)
  {
    var c' := StepQueue(c, env);
    assert SharedOk(c'.g, c'.h);
    assert ActorOk(c'.g, c'.h, c'.a);
  }

  lemma OperateStepOk(c: Cut, cid: ConnId, env: Env)
    requires CutOk(c)
    requires c.a.pc.RunnerOperate?
    ensures StepOk(c, StepQueue(c, env), cid, env.uuid)
  {
    CallOk(c, StepQueue(c, env), c.a.pc.s, Operates, cid, env.uuid);
  }

  lemma CreatingOk(c: Cut, cid: ConnId, env: Env)
    requires CutOk(c) && env.uuid !in c.h.ever && Creating(c.a.pc)
    ensures StepOk(c, StepCreate(c, cid, env), cid, env.uuid)
  {
    if c.a.pc.RunnerCreate? {
      CreateStepOk(c, cid, env);
    } else if c.a.pc.OwnerInsert? {
      PublishStepOk(c, cid, env);
    } else {
      RegisterStepOk(c, cid, env);
    }
  }

  lemma AuthorizingOk(c: Cut, cid: ConnId, env: Env)
    requires CutOk(c) && env.uuid !in c.h.ever && Authorizing(c.a.pc)
    ensures StepOk(c, StepAuth(c, cid), cid, env.uuid)
  {
    if c.a.pc.AuthLookup? {
      LookupStepOk(c, cid, env.uuid);
    } else {
      BindStepOk(c, cid, env.uuid);
    }
  }

  lemma TerminatingOk(c: Cut, cid: ConnId, env: Env)
    requires CutOk(c) && env.uuid !in c.h.ever && Terminating(c.a.pc)
    ensures StepOk(c, StepTerminate(c), cid, env.uuid)
  {
    if c.a.pc.TermResponder? || c.a.pc.TermPriority? || c.a.pc.TermOwner? || c.a.pc.TermRoutes? {
      TerminateStepOk(c, cid, env.uuid);
    } else if c.a.pc.TermReverse? || c.a.pc.TermOutbox? {
      RetireStepOk(c, cid, env.uuid);
    } else {
      RunnerTerminateStepOk(c, cid, env.uuid);
    }
  }

  lemma ForcingOk(c: Cut, cid: ConnId, env: Env)
    requires CutOk(c) && env.uuid !in c.h.ever && Forcing(c.a.pc)
    ensures StepOk(c, StepForce(c), cid, env.uuid)
  {
    if c.a.pc.ForceRoute? || c.a.pc.ForceReverse? || c.a.pc.ForceOutbox? {
      ForceStepOk(c, cid, env.uuid);
    } else if c.a.pc.ForceResponder? || c.a.pc.ForcePriority? {
      ReplaceStepOk(c, cid, env.uuid);
    } else if c.a.pc.ForceOwner? {
      DisownStepOk(c, cid, env.uuid);
    } else {
      RunnerReplaceStepOk(c, cid, env.uuid);
    }
  }

  lemma RoutingOk(c: Cut, cid: ConnId, env: Env)
    requires CutOk(c) && env.uuid !in c.h.ever && Routing(c.a.pc)
    ensures StepOk(c, StepRoute(c, env), cid, env.uuid)
  {
    if c.a.pc.RouteLookup? || c.a.pc.OwnerCheck? {
      RouteStepOk(c, cid, env);
    } else if c.a.pc.StaleRoute? || c.a.pc.StaleReverse? {
      StaleStepOk(c, cid, env);
    } else if c.a.pc.RouteInsert? {
      RouteInsertStepOk(c, cid, env);
    } else if c.a.pc.ReverseInsert? {
      ReverseInsertStepOk(c, cid, env);
    } else if c.a.pc.RunnerSend? {
      DeliverStepOk(c, cid, env);
    } else {
      RespondStepOk(c, cid, env);
    }
  }

  lemma QueueingOk(c: Cut, cid: ConnId, env: Env)
    requires CutOk(c) && env.uuid !in c.h.ever && Queueing(c.a.pc)
    ensures StepOk(c, StepQueue(c, env), cid, env.uuid)
  {
    if c.a.pc.OutboxDrain? {
      DrainStepOk(c, cid, env);
    } else if c.a.pc.TranscriptLookup? {
      TranscriptLookupStepOk(c, cid, env);
    } else if c.a.pc.TranscriptPush? {
      TranscriptPushStepOk(c, cid, env);
    } else {
      OperateStepOk(c, cid, env);
    }
  }

  lemma StepIsOk(c: Cut, cid: ConnId, env: Env)
    requires CutOk(c) && env.uuid !in c.h.ever && !c.a.pc.Idle?
    ensures StepOk(c, Step(c, cid, env), cid, env.uuid)
  {
    if Creating(c.a.pc) {
      CreatingOk(c, cid, env);
    } else if Authorizing(c.a.pc) {
      AuthorizingOk(c, cid, env);
    } else if Terminating(c.a.pc) {
      TerminatingOk(c, cid, env);
    } else if Forcing(c.a.pc) {
      ForcingOk(c, cid, env);
    } else if Routing(c.a.pc) {
      RoutingOk(c, cid, env);
    } else {
      QueueingOk(c, cid, env);
    }
  }

  // ---------------------------------------------------------------- all clients together

  /** Every push sender points at a client that may see the session. */
  ghost predicate SendersOk(senders: map<SessionId, ConnId>, h: History, actors: map<ConnId, Actor>) {
    forall s :: s in senders ==> senders[s] in actors && OwnedByOneOf(h, s, actors[senders[s]].conn.proved)
  }

  /** No two clients hold the same unpublished session. */
  ghost predicate PendingDistinct(actors: map<ConnId, Actor>) {
    forall c, d :: c in actors && d in actors && c != d ==> Pending(actors[c]) !! Pending(actors[d])
  }

  /** A live session missing from the owner table is in some handler's hands. */
  ghost predicate Accounted(s: Sys) {
    forall t :: t in Unlisted(s.g) ==> exists c :: c in s.actors && t in InFlight(s.actors[c])
  }

  ghost predicate Inv(s: Sys) {
    && SharedOk(s.g, s.h) && HistoryOk(s.h)
    && (forall c :: c in s.actors ==> ActorOk(s.g, s.h, s.actors[c]))
    && SendersOk(s.g.responders, s.h, s.actors) && SendersOk(s.g.priority, s.h, s.actors)
    && PendingDistinct(s.actors)
    && Accounted(s)
  }

  /** What one client relies on survives any other client's step. */
  lemma OtherKeeps(g: Shared, h: History, g': Shared, h': History, mine: set<SessionId>, b: Actor)
    requires ActorOk(g, h, b) && HistoryOk(h) && Grows(g, h, g', h', mine) && mine !! Pending(b)
    requires forall s :: s in mine ==> s !in h.published
    ensures ActorOk(g', h', b)
  {
  }

  lemma TickKeepsActors(s: Sys, c: ConnId, env: Env)
    requires Inv(s) && Enabled(s, Tick(c, env)) && !s.actors[c].pc.Idle?
    ensures var s' := Apply(s, Tick(c, env)); forall d :: d in s'.actors ==> ActorOk(s'.g, s'.h, s'.actors[d])
  {
    var s' := Apply(s, Tick(c, env));
    StepIsOk(Cut(s.g, s.h, s.actors[c]), c, env);
    forall d | d in s'.actors && d != c ensures ActorOk(s'.g, s'.h, s'.actors[d]) {
      OtherKeeps(s.g, s.h, s'.g, s'.h, Pending(s.actors[c]), s.actors[d]);
    }
  }

  lemma TickKeepsSenders(s: Sys, c: ConnId, env: Env)
    requires Inv(s) && Enabled(s, Tick(c, env)) && !s.actors[c].pc.Idle?
    ensures var s' := Apply(s, Tick(c, env));
      SendersOk(s'.g.responders, s'.h, s'.actors) && SendersOk(s'.g.priority, s'.h, s'.actors)
  {
    StepIsOk(Cut(s.g, s.h, s.actors[c]), c, env);
  }

  lemma TickKeepsAccounts(s: Sys, c: ConnId, env: Env)
    requires Inv(s) && Enabled(s, Tick(c, env)) && !s.actors[c].pc.Idle?
    ensures var s' := Apply(s, Tick(c, env)); PendingDistinct(s'.actors) && Accounted(s')
  {
    var s' := Apply(s, Tick(c, env));
    StepIsOk(Cut(s.g, s.h, s.actors[c]), c, env);
    forall d | d in s.actors && d != c ensures env.uuid !in Pending(s.actors[d]) {
      assert ActorOk(s.g, s.h, s.actors[d]);
    }
    forall t | t in Unlisted(s'.g) ensures exists d :: d in s'.actors && t in InFlight(s'.actors[d]) {
      if t in InFlight(s'.actors[c]) {
      } else {
        var d :| d in s.actors && t in InFlight(s.actors[d]);
        assert d != c && s'.actors[d] == s.actors[d];
      }
    }
  }

  lemma BeginOk(g: Shared, h: History, a: Actor, req: Request)
    requires ActorOk(g, h, a) && a.pc.Idle?
    ensures ActorOk(g, h, Begin(a, req)) && Begin(a, req).conn == a.conn
    ensures Pending(Begin(a, req)) == {} && InFlight(Begin(a, req)) == {}
  {
  }

  /** An action other than a step changes one idle client, and takes away senders at most. */
  lemma IdleActionKeeps(s: Sys, s': Sys, c: ConnId)
    requires Inv(s) && c in s'.actors && (c in s.actors ==> s.actors[c].pc.Idle?)
    requires s'.actors == s.actors[c := s'.actors[c]]
    requires SharedOk(s'.g, s'.h) && HistoryOk(s'.h) && ActorOk(s'.g, s'.h, s'.actors[c])
    requires Grows(s.g, s.h, s'.g, s'.h, {}) && s'.g.owners == s.g.owners && s'.g.live == s.g.live
    requires Pending(s'.actors[c]) == {} && InFlight(s'.actors[c]) == {}
    requires c in s.actors ==> s.actors[c].conn.proved <= s'.actors[c].conn.proved
    requires forall t :: t in s'.g.responders ==> t in s.g.responders && s'.g.responders[t] == s.g.responders[t]
    requires forall t :: t in s'.g.priority ==> t in s.g.priority && s'.g.priority[t] == s.g.priority[t]
    ensures Inv(s')
  {
    forall d | d in s'.actors && d != c ensures ActorOk(s'.g, s'.h, s'.actors[d]) {
      OtherKeeps(s.g, s.h, s'.g, s'.h, {}, s.actors[d]);
    }
    IdleStaysAccounted(s, s', c);
  }

  lemma IdleStaysAccounted(s: Sys, s': Sys, c: ConnId)
    requires Accounted(s) && c in s'.actors && (c in s.actors ==> s.actors[c].pc.Idle?)
    requires s'.actors == s.actors[c := s'.actors[c]] && s'.g.owners == s.g.owners && s'.g.live == s.g.live
    ensures Accounted(s')
  {
    assert Unlisted(s'.g) == Unlisted(s.g);
    forall t | t in Unlisted(s'.g) ensures exists d :: d in s'.actors && t in InFlight(s'.actors[d]) {
      var d :| d in s.actors && t in InFlight(s.actors[d]);
      assert s'.actors[d] == s.actors[d];
    }
  }

  lemma PushKeeps(s: Sys, session: SessionId)
    requires Inv(s)
    ensures var h := PushOut(s, session); SharedOk(s.g, h) && HistoryOk(h) && Grows(s.g, s.h, s.g, h, {})
  {
  }

  lemma TickKeepsShared(s: Sys, c: ConnId, env: Env)
    requires Inv(s) && Enabled(s, Tick(c, env)) && !s.actors[c].pc.Idle?
    ensures var s' := Apply(s, Tick(c, env)); SharedOk(s'.g, s'.h) && HistoryOk(s'.h)
  {
    StepIsOk(Cut(s.g, s.h, s.actors[c]), c, env);
  }

  lemma IdleTick(s: Sys, c: ConnId, env: Env)
    requires Enabled(s, Tick(c, env)) && s.actors[c].pc.Idle?
    ensures Apply(s, Tick(c, env)) == s
  {
    assert s.actors == s.actors[c := s.actors[c]];
  }

  lemma TickKeepsInv(s: Sys, c: ConnId, env: Env)
    requires Inv(s) && Enabled(s, Tick(c, env))
    ensures Inv(Apply(s, Tick(c, env)))
  {
    if s.actors[c].pc.Idle? {
      IdleTick(s, c, env);
    } else {
      TickKeepsShared(s, c, env);
      TickKeepsActors(s, c, env);
      TickKeepsSenders(s, c, env);
      TickKeepsAccounts(s, c, env);
    }
  }

  /** The history once a transcript has been received. */
  function Heard(h: History, item: Item): History {
    h.(spoken := h.spoken + {(item.session, item.text)}, ids := h.ids + {item.id})
  }

  lemma SpokenKeepsInv(s: Sys, c: ConnId, item: Item)
    requires Inv(s) && c in s.actors && s.actors[c].pc.Idle?
    ensures Inv(Sys(s.g, Heard(s.h, item), s.actors[c := s.actors[c].(pc := TranscriptLookup(item.session, item))]))
  {
    var h := Heard(s.h, item);
    assert SharedOk(s.g, h) && HistoryOk(h);
    IdleActionKeeps(s, Sys(s.g, h, s.actors[c := s.actors[c].(pc := TranscriptLookup(item.session, item))]), c);
  }

  lemma PushOutKeepsInv(s: Sys, c: ConnId, session: SessionId)
    requires Inv(s) && c in s.actors && s.actors[c].pc.Idle?
    ensures Inv(s.(h := PushOut(s, session)))
  {
    PushKeeps(s, session);
    assert s.actors == s.actors[c := s.actors[c]];
    IdleActionKeeps(s, s.(h := PushOut(s, session)), c);
  }

  lemma EmitKeepsInv(s: Sys, c: ConnId, session: SessionId, text: string, isFinal: bool, id: nat)
    requires Inv(s) && Enabled(s, Emit(c, session, text, isFinal, id))
    ensures Inv(Apply(s, Emit(c, session, text, isFinal, id)))
  {
    PushOutKeepsInv(s, c, session);
    SpokenKeepsInv(s.(h := PushOut(s, session)), c, Item(id, session, Trim(text)));
  }

  lemma LeaveKeepsInv(s: Sys, c: ConnId)
    requires Inv(s) && Enabled(s, Leave(c))
    ensures Inv(Apply(s, Leave(c)))
  {
    IdleActionKeeps(s, Apply(s, Leave(c)), c);
  }

  lemma ArriveKeepsInv(s: Sys, c: ConnId, ws: bool, p: Option<Principal>)
    requires Inv(s) && Enabled(s, Arrive(c, ws, p))
    ensures Inv(Apply(s, Arrive(c, ws, p)))
  {
    IdleActionKeeps(s, Apply(s, Arrive(c, ws, p)), c);
  }

  lemma ProveKeepsInv(s: Sys, c: ConnId, p: Principal)
    requires Inv(s) && Enabled(s, Prove(c, p))
    ensures Inv(Apply(s, Prove(c, p)))
  {
    IdleActionKeeps(s, Apply(s, Prove(c, p)), c);
  }

  lemma ReceiveKeepsInv(s: Sys, c: ConnId, req: Request)
    requires Inv(s) && Enabled(s, Receive(c, req))
    ensures Inv(Apply(s, Receive(c, req)))
  {
    BeginOk(s.g, s.h, s.actors[c], req);
    IdleActionKeeps(s, Apply(s, Receive(c, req)), c);
  }

  lemma ApplyKeepsInv(s: Sys, x: Action)
    requires Inv(s) && Enabled(s, x)
    ensures Inv(Apply(s, x))
  {
    match x
    case Tick(c, env) => TickKeepsInv(s, c, env);
    case Arrive(c, ws, p) => ArriveKeepsInv(s, c, ws, p);
    case Prove(c, p) => ProveKeepsInv(s, c, p);
    case Receive(c, req) => ReceiveKeepsInv(s, c, req);
    case Emit(c, session, text, isFinal, id) => EmitKeepsInv(s, c, session, text, isFinal, id);
    case Leave(c) => LeaveKeepsInv(s, c);
  }

  lemma {:induction false} RunKeepsInv(s: Sys, xs: seq<Action>)
    requires Inv(s) && Runnable(s, xs)
    ensures Inv(Run(s, xs))
    decreases |xs|
  {
    if xs != [] {
      ApplyKeepsInv(s, xs[0]);
      RunKeepsInv(Apply(s, xs[0]), xs[1..]);
    }
  }

  // ---------------------------------------------------------------- main results, for every interleaving

  /** The session's only owner ever was `p`. */
  ghost predicate AlwaysOf(h: History, s: SessionId, p: Principal) {
    s in h.ever && h.ever[s] == p
  }

  /** Main result: in every interleaving each route, each reverse entry and each queued item of a
      key names a session whose only owner ever is the key's principal. */
  lemma RoutesStayWithTheirOwner(xs: seq<Action>)
    requires Runnable(START, xs)
    ensures var s := Run(START, xs);
      && (forall k :: k in s.g.routes ==> AlwaysOf(s.h, s.g.routes[k], k.principal))
      && (forall t :: t in s.g.reverse ==> AlwaysOf(s.h, t, s.g.reverse[t].principal))
      && (forall k, i :: k in s.g.outbox && i in s.g.outbox[k] ==> AlwaysOf(s.h, i.session, k.principal))
  {
    RunKeepsInv(START, xs);
    var s := Run(START, xs);
    forall k, i | k in s.g.outbox && i in s.g.outbox[k] ensures AlwaysOf(s.h, i.session, k.principal) {
      assert ItemOk(s.h, i, k.principal);
    }
  }

  /** Main result: a poll hands a principal only text that its own sessions spoke, a channel
      message only reaches a session of its sender, and every runner call and every push goes to,
      or comes from, a session of a principal that the client had proved by then. */
  lemma EffectsStayWithTheirOwner(xs: seq<Action>)
    requires Runnable(START, xs)
    ensures var h := Run(START, xs).h;
      && (forall i :: 0 <= i < |h.handed| ==>
            AlwaysOf(h, h.handed[i].item.session, h.handed[i].principal)
            && (h.handed[i].item.session, h.handed[i].item.text) in h.spoken)
      && (forall i :: 0 <= i < |h.calls| && ViaChannel(h.calls[i].purpose) ==>
        AlwaysOf(h, h.calls[i].session, h.calls[i].acting))
      && (forall i :: 0 <= i < |h.calls| ==>
        h.calls[i].session in h.ever && h.ever[h.calls[i].session] in h.calls[i].proved)
      && (forall i :: 0 <= i < |h.pushed| ==>
        h.pushed[i].session in h.ever && h.ever[h.pushed[i].session] in h.pushed[i].proved)
  {
    RunKeepsInv(START, xs);
    var h := Run(START, xs).h;
    forall i | 0 <= i < |h.handed| ensures ItemOk(h, h.handed[i].item, h.handed[i].principal) {
    }
  }

  /** Main result: a client's session cache only ever holds sessions of principals it has proved,
      and an authenticated client has a principal. */
  lemma CachesStaySound(xs: seq<Action>, c: ConnId)
    requires Runnable(START, xs) && c in Run(START, xs).actors
    ensures var s := Run(START, xs);
      var conn := s.actors[c].conn;
      && (conn.authenticated ==> conn.principal.Some?)
      && (forall t :: t in conn.owned ==> t in s.h.ever && s.h.ever[t] in conn.proved)
  {
    RunKeepsInv(START, xs);
    assert ActorOk(Run(START, xs).g, Run(START, xs).h, Run(START, xs).actors[c]);
  }

  /** Main result: the gateway never lists a session the runner does not have; whenever no
      handler is in flight the two tables list the same sessions with the same owners. */
  lemma GatewayAgreesWithRunner(xs: seq<Action>)
    requires Runnable(START, xs)
    ensures var s := Run(START, xs);
      && s.g.owners.Keys <= s.g.live.Keys
      && ((forall c :: c in s.actors ==> s.actors[c].pc.Idle?) ==> s.g.owners == s.g.live)
  {
    RunKeepsInv(START, xs);
    var s := Run(START, xs);
    if forall c :: c in s.actors ==> s.actors[c].pc.Idle? {
      assert Unlisted(s.g) == {};
      assert forall t :: t in s.g.live ==> t in Unlisted(s.g) || t in s.g.owners;
    }
  }

  lemma ApplyKeepsOwner(s: Sys, x: Action, t: SessionId)
    requires Inv(s) && Enabled(s, x) && t in s.h.ever
    ensures AlwaysOf(Apply(s, x).h, t, s.h.ever[t])
  {
    if x.Tick? && !s.actors[x.cid].pc.Idle? {
      StepIsOk(Cut(s.g, s.h, s.actors[x.cid]), x.cid, x.env);
    }
  }

  /** The owner recorded for a session never changes afterwards, so "ever" above means what it says. */
  lemma {:induction false} OwnersAreForever(s: Sys, xs: seq<Action>, t: SessionId)
    requires Inv(s) && Runnable(s, xs) && t in s.h.ever
    ensures AlwaysOf(Run(s, xs).h, t, s.h.ever[t])
    decreases |xs|
  {
    if xs != [] {
      ApplyKeepsInv(s, xs[0]);
      ApplyKeepsOwner(s, xs[0], t);
      OwnersAreForever(Apply(s, xs[0]), xs[1..], t);
    }
  }
}
