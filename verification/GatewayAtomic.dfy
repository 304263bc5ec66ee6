// What holds after every handler when handlers run one at a time: the two route
// tables are exact inverses, the outbox is keyed by live routes only, and the
// gateway agrees with the runner about which sessions exist.

module GatewayAtomic {
  import opened Prelude
  import opened GatewayState

  /** `ever` remembers the first owner of every session that was created. */
  datatype World = World(g: Shared, conns: map<ConnId, Conn>, ever: map<SessionId, Principal>)

  datatype Op =
    | Open(conn: ConnId, ws: bool, preauthenticated: Option<Principal>)
    | Prove(conn: ConnId, principal: Principal)
    | Handle(conn: ConnId, request: Request, env: Env)
    | Transcript(session: SessionId, text: string, isFinal: bool, id: nat)
    | Close(conn: ConnId)

  const START := World(NO_TABLES, map[], map[])

  /** An operation names an existing connection, and a drawn uuid was never drawn before. */
  predicate Possible(w: World, op: Op) {
    match op
    case Open(c, _, _) => c !in w.conns
    case Prove(c, _) => c in w.conns
    case Handle(c, _, env) => c in w.conns && env.uuid !in w.ever
    case Transcript(_, _, _, _) => true
    case Close(c) => c in w.conns
  }

  function Remembered(ever: map<SessionId, Principal>, g: Shared, uuid: SessionId): map<SessionId, Principal> {
    if uuid in g.owners then ever[uuid := g.owners[uuid]] else ever
  }

  function After(w: World, op: Op): World
    requires Possible(w, op)
  {
    match op
    case Open(c, ws, p) => w.(conns := w.conns[c := Fresh(ws, p)])
    case Prove(c, p) => w.(conns := w.conns[c := Proven(w.conns[c], p)])
    case Handle(c, req, env) =>
      var o := Handled(w.g, c, w.conns[c], req, env);
      World(o.g, w.conns[c := o.conn], Remembered(w.ever, o.g, env.uuid))
    case Transcript(s, text, isFinal, id) => w.(g := Transcribed(w.g, s, text, isFinal, id))
    case Close(c) => World(Closed(w.g, w.conns[c]), w.conns - {c}, w.ever)
  }

  predicate PossibleRun(w: World, ops: seq<Op>)
    decreases |ops|
  {
    ops == [] || (Possible(w, ops[0]) && PossibleRun(After(w, ops[0]), ops[1..]))
  }

  function AfterRun(w: World, ops: seq<Op>): World
    requires PossibleRun(w, ops)
    decreases |ops|
  {
    if ops == [] then w else AfterRun(After(w, ops[0]), ops[1..])
  }

  // ---------------------------------------------------------------- the invariant

  ghost predicate RoutesInverse(g: Shared) {
    && (forall k :: k in g.routes ==> g.routes[k] in g.reverse && g.reverse[g.routes[k]] == k)
    && (forall s :: s in g.reverse ==> g.reverse[s] in g.routes && g.routes[g.reverse[s]] == s)
  }

  ghost predicate RoutesOwned(g: Shared) {
    forall k :: k in g.routes ==> g.routes[k] in g.owners && g.owners[g.routes[k]] == k.principal
  }

  ghost predicate OutboxRouted(g: Shared) {
    forall k :: k in g.outbox ==>
      k in g.routes && g.outbox[k] != [] && forall i :: i in g.outbox[k] ==> i.session == g.routes[k]
  }

  ghost predicate Tables(g: Shared, ever: map<SessionId, Principal>) {
    && RoutesInverse(g) && RoutesOwned(g) && OutboxRouted(g)
    && g.owners == g.live
    && (forall s :: s in g.owners ==> s in ever && ever[s] == g.owners[s])
  }

  ghost predicate ConnOk(c: Conn, ever: map<SessionId, Principal>) {
    && (c.authenticated ==> c.principal.Some?)
    && (c.principal.Some? ==> c.principal.value in c.proved)
    && (forall s :: s in c.owned ==> s in ever && ever[s] in c.proved)
  }

  ghost predicate Coherent(w: World) {
    Tables(w.g, w.ever) && forall c :: c in w.conns ==> ConnOk(w.conns[c], w.ever)
  }

  // ---------------------------------------------------------------- each handler keeps it

  ghost predicate Kept(o: Outcome, ever: map<SessionId, Principal>) {
    Tables(o.g, ever) && ConnOk(o.conn, ever)
  }

  lemma CreatedKeeps(g: Shared, ever: map<SessionId, Principal>, cid: ConnId, c: Conn, env: Env)
    requires Tables(g, ever) && ConnOk(c, ever) && env.uuid !in ever && c.principal.Some?
    ensures var o := Created(g, cid, c, env); Kept(o, Remembered(ever, o.g, env.uuid))
  {
    forall k | k in g.routes ensures g.routes[k] != env.uuid {
      assert g.routes[k] in g.owners;
    }
  }

  lemma BindKeeps(g: Shared, ever: map<SessionId, Principal>, cid: ConnId, ws: bool, s: SessionId)
    requires Tables(g, ever)
    ensures Tables(Bind(g, cid, ws, s), ever)
  {
  }

  lemma AuthorizedKeeps(g: Shared, ever: map<SessionId, Principal>, cid: ConnId, ws: bool, c: Conn, s: SessionId)
    requires Tables(g, ever) && ConnOk(c, ever)
    ensures Kept(Authorized(g, cid, ws, c, s), ever)
  {
    BindKeeps(g, ever, cid, ws, s);
  }

  lemma DissolveKeeps(g: Shared, ever: map<SessionId, Principal>, s: SessionId)
    requires Tables(g, ever)
    ensures Tables(Dissolve(g, s), ever)
  {
    var d := Dissolve(g, s);
    assert RoutesInverse(d) && RoutesOwned(d);
    assert OutboxRouted(d);
  }

  lemma TerminatedKeeps(g: Shared, ever: map<SessionId, Principal>, cid: ConnId, c: Conn, s: SessionId)
    requires Tables(g, ever) && ConnOk(c, ever)
    ensures Kept(Terminated(g, cid, c, s), ever)
  {
    DissolveKeeps(g, ever, s);
  }

  lemma DeliveredKeeps(
    g: Shared, ever: map<SessionId, Principal>, cid: ConnId, c: Conn, key: RouteKey, s: SessionId, respond: bool,
    env: Env)
    requires Tables(g.(reverse := g.reverse[s := key]), ever) && ConnOk(c, ever)
    requires c.principal == Some(key.principal) && key in g.routes && g.routes[key] == s
    ensures Kept(Delivered(g, cid, c, key, s, respond, env), ever)
  {
    AuthorizedKeeps(g.(reverse := g.reverse[s := key]), ever, cid, c.ws, c, s);
  }

  /** Giving a session that no table routes yet to a route that has none keeps the tables. */
  lemma NewRouteKeeps(g: Shared, ever: map<SessionId, Principal>, key: RouteKey, s: SessionId)
    requires Tables(g, ever) && key !in g.routes && s !in g.reverse
    requires s in g.owners && g.owners[s] == key.principal
    ensures Tables(g.(routes := g.routes[key := s], reverse := g.reverse[s := key]), ever)
  {
    forall t | t in g.reverse ensures g.reverse[t] != key && t != s {
      assert g.reverse[t] in g.routes;
    }
  }

  lemma ReverseIsOwned(g: Shared, ever: map<SessionId, Principal>)
    requires Tables(g, ever)
    ensures g.reverse.Keys <= g.owners.Keys
  {
    forall s | s in g.reverse ensures s in g.owners {
      assert g.reverse[s] in g.routes;
    }
  }

  lemma OpenedKeeps(
    g: Shared, ever: map<SessionId, Principal>, cid: ConnId, c: Conn, key: RouteKey, respond: bool, env: Env)
    requires Tables(g, ever) && ConnOk(c, ever) && env.uuid !in ever
    requires c.principal == Some(key.principal) && key !in g.routes
    ensures var o := Opened(g, cid, c, key, respond, env); Kept(o, Remembered(ever, o.g, env.uuid))
  {
    CreatedKeeps(g, ever, cid, c, env);
    var made := Created(g, cid, c, env);
    if made.resp.SessionCreated? {
      var ever' := Remembered(ever, made.g, env.uuid);
      ReverseIsOwned(g, ever);
      NewRouteKeeps(made.g, ever', key, env.uuid);
      var bound := made.g.(routes := made.g.routes[key := env.uuid]);
      DeliveredKeeps(bound, ever', cid, made.conn, key, env.uuid, respond, env);
    }
  }

  lemma ReplaceKeeps(g: Shared, ever: map<SessionId, Principal>, key: RouteKey)
    requires Tables(g, ever) && key in g.routes
    ensures Tables(Replace(g, key, g.routes[key]), ever)
  {
    var r := Replace(g, key, g.routes[key]);
    forall k | k in r.routes ensures r.routes[k] != g.routes[key] {
      assert g.reverse[g.routes[k]] == k;
    }
    assert RoutesInverse(r) && RoutesOwned(r) && OutboxRouted(r);
  }

  lemma RoutedKeeps(
    g: Shared, ever: map<SessionId, Principal>, cid: ConnId, c: Conn, key: RouteKey, respond: bool, force: bool,
    env: Env)
    requires Tables(g, ever) && ConnOk(c, ever) && env.uuid !in ever && c.principal == Some(key.principal)
    ensures var o := RoutedTo(g, cid, c, key, respond, force, env); Kept(o, Remembered(ever, o.g, env.uuid))
  {
    if key !in g.routes {
      OpenedKeeps(g, ever, cid, c, key, respond, env);
    } else if force {
      ReplaceKeeps(g, ever, key);
      OpenedKeeps(Replace(g, key, g.routes[key]), ever, cid, c, key, respond, env);
    } else {
      assert g.reverse[g.routes[key] := key] == g.reverse;
      assert g == g.(reverse := g.reverse[g.routes[key] := key]);
      DeliveredKeeps(g, ever, cid, c, key, g.routes[key], respond, env);
    }
  }

  lemma PolledKeeps(
    g: Shared, ever: map<SessionId, Principal>, c: Conn, channel: string, account: string, user: string,
    maxItems: Option<nat>)
    requires Tables(g, ever) && ConnOk(c, ever)
    ensures Kept(Polled(g, c, channel, account, user, maxItems), ever)
  {
  }

  lemma HandledKeeps(g: Shared, ever: map<SessionId, Principal>, cid: ConnId, c: Conn, req: Request, env: Env)
    requires Tables(g, ever) && ConnOk(c, ever) && env.uuid !in ever
    ensures var o := Handled(g, cid, c, req, env); Kept(o, Remembered(ever, o.g, env.uuid))
  {
    if c.authenticated {
      match req
      case Create => CreatedKeeps(g, ever, cid, c, env);
      case Terminate(s) => TerminatedKeeps(g, ever, cid, c, s);
      case Operate(s) => AuthorizedKeeps(g, ever, cid, c.ws, c, s);
      case Route(r) =>
        if InboundRoute(c.principal.value, r).Success? {
          RoutedKeeps(g, ever, cid, c, InboundRoute(c.principal.value, r).value, r.respond, r.force, env);
        }
      case Poll(channel, account, user, maxItems) => PolledKeeps(g, ever, c, channel, account, user, maxItems);
    }
  }

  lemma CloseKeeps(g: Shared, ever: map<SessionId, Principal>, c: Conn)
    requires Tables(g, ever)
    ensures Tables(Closed(g, c), ever)
  {
  }

  lemma TranscribedKeeps(g: Shared, ever: map<SessionId, Principal>, s: SessionId, text: string, isFinal: bool, id: nat)
    requires Tables(g, ever)
    ensures Tables(Transcribed(g, s, text, isFinal, id), ever)
  {
  }

  lemma OpKeepsCoherent(w: World, op: Op)
    requires Coherent(w) && Possible(w, op)
    ensures Coherent(After(w, op))
  {
    match op
    case Open(_, _, _) =>
    case Prove(_, _) =>
    case Handle(c, req, env) => HandledKeeps(w.g, w.ever, c, w.conns[c], req, env);
    case Transcript(s, text, isFinal, id) => TranscribedKeeps(w.g, w.ever, s, text, isFinal, id);
    case Close(c) => CloseKeeps(w.g, w.ever, w.conns[c]);
  }

  /** Main result: every run of whole handlers, from empty tables, ends coherent. */
  lemma {:induction false} RunsStayCoherent(w: World, ops: seq<Op>)
    requires Coherent(w) && PossibleRun(w, ops)
    ensures Coherent(AfterRun(w, ops))
    decreases |ops|
  {
    if ops != [] {
      OpKeepsCoherent(w, ops[0]);
      RunsStayCoherent(After(w, ops[0]), ops[1..]);
    }
  }

  lemma RunsFromStart(ops: seq<Op>)
    requires PossibleRun(START, ops)
    ensures Coherent(AfterRun(START, ops))
  {
    RunsStayCoherent(START, ops);
  }

  // ---------------------------------------------------------------- what coherence buys

  /** The route and its session are bound in both directions, and the session is live and the route principal's. */
  ghost predicate Bound(g: Shared, key: RouteKey, s: SessionId) {
    && key in g.routes && g.routes[key] == s && s in g.reverse && g.reverse[s] == key
    && s in g.owners && g.owners[s] == key.principal && s in g.live
  }

  /** A channel message for `key` was handed to session `s`, or failed for a reason of the runner's. */
  ghost predicate Settled(o: Outcome, key: RouteKey, s: SessionId) {
    match o.resp
    case ChannelRouted(k, t) => k == key && t == s && Bound(o.g, key, s)
    case Failed(code) => code in {"session_create_failed", "channel_inbound_failed", "channel_response_failed"}
    case _ => false
  }

  lemma DeliveredSettles(g: Shared, cid: ConnId, c: Conn, key: RouteKey, s: SessionId, respond: bool, env: Env)
    requires c.principal == Some(key.principal)
    requires key in g.routes && g.routes[key] == s && s in g.owners && g.owners[s] == key.principal && s in g.live
    ensures Settled(Delivered(g, cid, c, key, s, respond, env), key, s)
    ensures env.sendOk && env.respondOk ==> Delivered(g, cid, c, key, s, respond, env).resp == ChannelRouted(key, s)
  {
  }

  lemma OpenedSettles(g: Shared, cid: ConnId, c: Conn, key: RouteKey, respond: bool, env: Env)
    requires c.principal == Some(key.principal)
    ensures Settled(Opened(g, cid, c, key, respond, env), key, env.uuid)
  {
    var made := Created(g, cid, c, env);
    if made.resp.SessionCreated? {
      DeliveredSettles(made.g.(routes := made.g.routes[key := env.uuid]), cid, made.conn, key, env.uuid, respond, env);
    }
  }

  /** The session a channel message for `key` is handed to. */
  function Target(g: Shared, key: RouteKey, force: bool, uuid: SessionId): SessionId {
    if key in g.routes && !force then g.routes[key] else uuid
  }

  lemma RoutedSettles(g: Shared, cid: ConnId, c: Conn, key: RouteKey, respond: bool, force: bool, env: Env)
    requires c.principal == Some(key.principal)
    requires key in g.routes ==>
      g.routes[key] in g.owners && g.owners[g.routes[key]] == key.principal && g.routes[key] in g.live
    ensures Settled(RoutedTo(g, cid, c, key, respond, force, env), key, Target(g, key, force, env.uuid))
    ensures key in g.routes && !force && env.sendOk && env.respondOk ==>
      RoutedTo(g, cid, c, key, respond, force, env).resp == ChannelRouted(key, g.routes[key])
  {
    if key !in g.routes {
      OpenedSettles(g, cid, c, key, respond, env);
    } else if force {
      OpenedSettles(Replace(g, key, g.routes[key]), cid, c, key, respond, env);
    } else {
      DeliveredSettles(g, cid, c, key, g.routes[key], respond, env);
    }
  }

  lemma RouteOwned(w: World, key: RouteKey)
    requires Coherent(w) && key in w.g.routes
    ensures w.g.routes[key] in w.g.owners && w.g.owners[w.g.routes[key]] == key.principal && w.g.routes[key] in w.g.live
  {
  }

  /** Main result: with coherent tables the recovery branch for a route whose session is gone is
      never taken and the inner authorisation never fails; a channel message that is not refused
      for its own contents is settled with the route's session - reused without `force`, new with
      it - which is live, belongs to the caller and is bound to the route in both directions. */
  lemma RoutedToOwnSession(w: World, c: ConnId, r: Inbound, env: Env)
    requires Coherent(w) && Possible(w, Handle(c, Route(r), env)) && w.conns[c].authenticated
    ensures w.conns[c].principal.Some?
    ensures var me := w.conns[c].principal.value;
      var o := Handled(w.g, c, w.conns[c], Route(r), env);
      match InboundRoute(me, r)
      case Failure(code) => o == Outcome(w.g, w.conns[c], Failed(code))
      case Success(key) => key.principal == me && Settled(o, key, Target(w.g, key, r.force, env.uuid))
  {
    var me := w.conns[c].principal.value;
    match InboundRoute(me, r)
    case Failure(_) =>
    case Success(key) =>
      if key in w.g.routes {
        RouteOwned(w, key);
      }
      RoutedSettles(w.g, c, w.conns[c], key, r.respond, r.force, env);
  }

  lemma AuthorizedFrame(g: Shared, cid: ConnId, ws: bool, c: Conn, s: SessionId)
    ensures var o := Authorized(g, cid, ws, c, s);
      && o.g == (if o.resp.Failed? then g else Bind(g, cid, ws, s))
      && o.conn.owned == if o.resp.Failed? then c.owned else c.owned + {s}
  {
  }

  /** Delivery touches the reverse index and the push senders only. */
  lemma DeliveredFrame(g: Shared, cid: ConnId, c: Conn, key: RouteKey, s: SessionId, respond: bool, env: Env)
    ensures var g' := Delivered(g, cid, c, key, s, respond, env).g;
      && g'.owners == g.owners && g'.live == g.live && g'.routes == g.routes && g'.outbox == g.outbox
      && g'.reverse == g.reverse[s := key]
  {
    AuthorizedFrame(g.(reverse := g.reverse[s := key]), cid, c.ws, c, s);
  }

  lemma DeliveredCaches(g: Shared, cid: ConnId, c: Conn, key: RouteKey, s: SessionId, respond: bool, env: Env)
    requires s in c.owned
    ensures var o := Delivered(g, cid, c, key, s, respond, env);
      && o.g.responders.Keys <= g.responders.Keys + {s} && o.g.priority.Keys <= g.priority.Keys + {s}
      && o.conn.owned == c.owned
  {
    AuthorizedFrame(g.(reverse := g.reverse[s := key]), cid, c.ws, c, s);
  }

  lemma OpenedFrame(g: Shared, cid: ConnId, c: Conn, key: RouteKey, respond: bool, env: Env)
    ensures var g' := Opened(g, cid, c, key, respond, env).g;
      && g'.outbox == g.outbox
      && if env.createOk then
           && g'.owners == g.owners[env.uuid := Acting(c)] && g'.live == g.live[env.uuid := Acting(c)]
           && g'.routes == g.routes[key := env.uuid] && g'.reverse == g.reverse[env.uuid := key]
         else g' == g
  {
    var made := Created(g, cid, c, env);
    if env.createOk {
      DeliveredFrame(made.g.(routes := made.g.routes[key := env.uuid]), cid, made.conn, key, env.uuid, respond, env);
    }
  }

  lemma OpenedCaches(g: Shared, cid: ConnId, c: Conn, key: RouteKey, respond: bool, env: Env)
    ensures var o := Opened(g, cid, c, key, respond, env);
      && o.g.responders.Keys <= g.responders.Keys + {env.uuid} && o.g.priority.Keys <= g.priority.Keys + {env.uuid}
      && o.conn.owned == if env.createOk then c.owned + {env.uuid} else c.owned
  {
    var made := Created(g, cid, c, env);
    if env.createOk {
      DeliveredCaches(made.g.(routes := made.g.routes[key := env.uuid]), cid, made.conn, key, env.uuid, respond, env);
    }
  }

  lemma OpenedForgets(g: Shared, cid: ConnId, c: Conn, key: RouteKey, respond: bool, env: Env, s: SessionId)
    requires s != env.uuid && s !in g.owners && s !in g.live && s !in g.reverse && key !in g.outbox && key !in g.routes
    ensures var g' := Opened(g, cid, c, key, respond, env).g;
      && s !in g'.owners && s !in g'.live && s !in g'.reverse && key !in g'.outbox
      && (key in g'.routes ==> g'.routes[key] == env.uuid)
  {
    OpenedFrame(g, cid, c, key, respond, env);
  }

  /** A forced message leaves no trace of the session it replaced in any shared table. Only clients'
      own caches keep its id: the client's grows by the new session and loses nothing. */
  lemma ForceForgets(
    g: Shared, ever: map<SessionId, Principal>, cid: ConnId, c: Conn, key: RouteKey, respond: bool, env: Env)
    requires Tables(g, ever) && env.uuid !in ever && c.principal == Some(key.principal) && key in g.routes
    ensures var o := RoutedTo(g, cid, c, key, respond, true, env);
      var prior := g.routes[key];
      && prior !in o.g.owners && prior !in o.g.live && prior !in o.g.reverse && key !in o.g.outbox
      && prior !in o.g.responders && prior !in o.g.priority
      && (forall k :: k in o.g.routes ==> o.g.routes[k] != prior)
      && (key in o.g.routes ==> o.g.routes[key] == env.uuid)
      && o.conn.owned == if env.createOk then c.owned + {env.uuid} else c.owned
  {
    var prior := g.routes[key];
    assert prior in g.owners;
    var r := Replace(g, key, prior);
    ReplaceKeeps(g, ever, key);
    OpenedForgets(r, cid, c, key, respond, env, prior);
    OpenedCaches(r, cid, c, key, respond, env);
    OpenedFrame(r, cid, c, key, respond, env);
    forall k | k in r.routes ensures r.routes[k] != prior {
      assert r.reverse[r.routes[k]] == k;
    }
  }

  /** The next unforced message for a bound route, from any connection of the same
      principal, reaches the same session. */
  lemma RouteIsSticky(
    g: Shared, ever: map<SessionId, Principal>, key: RouteKey, s: SessionId, cid: ConnId, c: Conn, respond: bool,
    env: Env)
    requires Tables(g, ever) && Bound(g, key, s) && c.principal == Some(key.principal) && env.sendOk && env.respondOk
    ensures RoutedTo(g, cid, c, key, respond, false, env).resp == ChannelRouted(key, s)
  {
    RoutedSettles(g, cid, c, key, respond, false, env);
  }

  /** Route `k` maps, and queues, the same in both states. */
  ghost predicate SameRoute(g: Shared, g': Shared, k: RouteKey) {
    && (k in g.routes <==> k in g'.routes) && (k in g.routes ==> g'.routes[k] == g.routes[k])
    && Queued(g'.outbox, k) == Queued(g.outbox, k)
  }

  lemma OpenedElsewhere(g: Shared, cid: ConnId, c: Conn, key: RouteKey, respond: bool, env: Env, k: RouteKey)
    requires k != key
    ensures SameRoute(g, Opened(g, cid, c, key, respond, env).g, k)
  {
    OpenedFrame(g, cid, c, key, respond, env);
  }

  lemma ReplacedElsewhere(g: Shared, key: RouteKey, s: SessionId, k: RouteKey)
    requires k != key
    ensures SameRoute(g, Replace(g, key, s), k) && SameRoute(g, Unrouted(g, key, s), k)
  {
  }

  lemma RoutedElsewhere(
    g: Shared, cid: ConnId, c: Conn, key: RouteKey, respond: bool, force: bool, env: Env, k: RouteKey)
    requires k != key
    ensures SameRoute(g, RoutedTo(g, cid, c, key, respond, force, env).g, k)
  {
    if key !in g.routes {
      OpenedElsewhere(g, cid, c, key, respond, env, k);
    } else if force {
      ReplacedElsewhere(g, key, g.routes[key], k);
      OpenedElsewhere(Replace(g, key, g.routes[key]), cid, c, key, respond, env, k);
    } else if g.routes[key] in g.owners {
      DeliveredFrame(g, cid, c, key, g.routes[key], respond, env);
    } else {
      ReplacedElsewhere(g, key, g.routes[key], k);
      OpenedElsewhere(Unrouted(g, key, g.routes[key]), cid, c, key, respond, env, k);
    }
  }

  lemma TerminatedElsewhere(g: Shared, cid: ConnId, c: Conn, s: SessionId, k: RouteKey)
    requires k in g.routes && g.routes[k] == s ==> Authorized(g, cid, false, c, s).resp.Failed?
    requires k in g.outbox ==> k in g.routes
    ensures SameRoute(g, Terminated(g, cid, c, s).g, k)
  {
  }

  lemma DrainedElsewhere(o: Outbox, key: RouteKey, n: nat, k: RouteKey)
    requires k != key
    ensures Queued(Drained(o, key, n), k) == Queued(o, k)
  {
  }

  lemma PolledElsewhere(
    g: Shared, c: Conn, channel: string, account: string, user: string, maxItems: Option<nat>, k: RouteKey)
    requires c.principal != Some(k.principal)
    ensures SameRoute(g, Polled(g, c, channel, account, user, maxItems).g, k)
  {
    if c.principal.Some? && RouteOf(c.principal.value, channel, account, user).Success? {
      DrainedElsewhere(g.outbox, RouteOf(c.principal.value, channel, account, user).value, BoundedMaxItems(maxItems),
        k);
    }
  }

  lemma OperatedElsewhere(g: Shared, cid: ConnId, c: Conn, s: SessionId, env: Env, k: RouteKey)
    ensures SameRoute(g, Operating(g, cid, c, s, env).g, k)
  {
    AuthorizedFrame(g, cid, c.ws, c, s);
  }

  lemma OwnRouteUnauthorized(
    g: Shared, ever: map<SessionId, Principal>, cid: ConnId, c: Conn, s: SessionId, k: RouteKey)
    requires Tables(g, ever) && ConnOk(c, ever) && k.principal !in c.proved
    ensures k in g.routes && g.routes[k] == s ==> Authorized(g, cid, false, c, s).resp.Failed?
  {
  }

  /** Main result: a client changes no route and no queue of a principal it has never authenticated as. */
  lemma OthersUntouched(
    g: Shared, ever: map<SessionId, Principal>, cid: ConnId, c: Conn, req: Request, env: Env, k: RouteKey)
    requires Tables(g, ever) && ConnOk(c, ever) && k.principal !in c.proved
    ensures SameRoute(g, Handled(g, cid, c, req, env).g, k)
  {
    if c.authenticated {
      match req
      case Create =>
      case Operate(s) => OperatedElsewhere(g, cid, c, s, env, k);
      case Terminate(s) =>
        OwnRouteUnauthorized(g, ever, cid, c, s, k);
        TerminatedElsewhere(g, cid, c, s, k);
      case Route(r) =>
        if InboundRoute(c.principal.value, r).Success? {
          RoutedElsewhere(g, cid, c, InboundRoute(c.principal.value, r).value, r.respond, r.force, env, k);
        }
      case Poll(channel, account, user, maxItems) => PolledElsewhere(g, c, channel, account, user, maxItems, k);
    }
  }
}
