// The gateway's shared tables as values, and what each handler does to them when
// it runs without interruption. The class in Gateway.dfy is proved against these
// functions; GatewaySteps.dfy splits the same handlers at every lock.

module GatewayState {
  import opened Prelude

  type Principal = string
  type SessionId = string
  type ConnId = nat

  datatype RouteKey = RouteKey(principal: Principal, channel: string, account: string, user: string)

  datatype Item = Item(id: nat, session: SessionId, text: string)

  type Outbox = map<RouteKey, seq<Item>>

  /** The separately locked tables, and the runner's own table of live sessions. */
  datatype Shared = Shared(
    owners: map<SessionId, Principal>,
    routes: map<RouteKey, SessionId>,
    reverse: map<SessionId, RouteKey>,
    outbox: Outbox,
    responders: map<SessionId, ConnId>,
    priority: map<SessionId, ConnId>,
    live: map<SessionId, Principal>)

  /** One client's state. `ws` says whether it passes push senders; `proved` remembers
      every principal it has authenticated as. */
  datatype Conn = Conn(
    ws: bool,
    authenticated: bool,
    principal: Option<Principal>,
    owned: set<SessionId>,
    proved: set<Principal>)

  datatype Inbound = Inbound(channel: string, account: string, user: string, text: string, respond: bool, force: bool)

  datatype Request =
    | Create
    | Terminate(session: SessionId)
    | Operate(session: SessionId)
    | Route(inbound: Inbound)
    | Poll(channel: string, account: string, user: string, maxItems: Option<nat>)

  /** What the environment answers during one handler: the uuid it draws and whether the runner calls succeed. */
  datatype Env = Env(uuid: SessionId, createOk: bool, sendOk: bool, respondOk: bool)

  datatype Response =
    | NoReply
    | Failed(code: string)
    | Granted
    | SessionCreated(session: SessionId)
    | SessionTerminated(session: SessionId)
    | Operated(session: SessionId)
    | ChannelRouted(key: RouteKey, session: SessionId)
    | Batch(key: RouteKey, items: seq<Item>)

  datatype Outcome = Outcome(g: Shared, conn: Conn, resp: Response)

  const NO_TABLES := Shared(map[], map[], map[], map[], map[], map[], map[])

  // ---------------------------------------------------------------- normalisation

  const CHANNELS: seq<string> := ["telegram", "slack", "webhook", "discord", "matrix", "teams"]

  predicate OneOf(name: string, names: seq<string>) {
    names != [] && (name == names[0] || OneOf(name, names[1..]))
  }

  function NormalizeChannel(channel: string): (r: Option<string>)
    ensures r.Some? ==> OneOf(r.value, CHANNELS)
  {
    var name := AsciiLower(Trim(channel));
    if OneOf(name, CHANNELS) then Some(name) else None
  }

  function NormalizeComponent(value: string): (r: Option<string>)
    ensures r.Some? ==> r.value != "" && Trimmed(r.value)
  {
    var trimmed := Trim(value);
    if trimmed == "" then None else Some(trimmed)
  }

  lemma {:induction false} OneOfIsIn(name: string, names: seq<string>)
    ensures OneOf(name, names) <==> name in names
  {
    if names != [] {
      OneOfIsIn(name, names[1..]);
    }
  }

  lemma ChannelsAreTrimmed(name: string)
    requires OneOf(name, CHANNELS)
    ensures Trimmed(name)
  {
    OneOfIsIn(name, CHANNELS);
  }

  lemma {:induction false} LowerAt(s: string)
    ensures forall i :: 0 <= i < |s| && IsSpace(s[i]) ==> AsciiLower(s)[i] == s[i]
  {
    if s != "" {
      LowerAt(s[1..]);
      forall i | 0 <= i < |s| && IsSpace(s[i]) ensures AsciiLower(s)[i] == s[i] {
        assert i > 0 ==> AsciiLower(s)[i] == AsciiLower(s[1..])[i - 1];
      }
    }
  }

  lemma LowerTrimmed(s: string)
    requires Trimmed(AsciiLower(s))
    ensures Trimmed(s)
  {
    LowerAt(s);
  }

  /** A channel is accepted under a supported name exactly if it is that name up to ASCII case, with
      nothing but white space around it. */
  lemma ChannelAccepted(channel: string, name: string)
    ensures NormalizeChannel(channel) == Some(name) <==>
      OneOf(name, CHANNELS) && exists core :: AsciiLower(core) == name && Padded(channel, core)
  {
    TrimIff(channel, Trim(channel));
    if core :| OneOf(name, CHANNELS) && AsciiLower(core) == name && Padded(channel, core) {
      ChannelsAreTrimmed(name);
      LowerTrimmed(core);
      TrimIff(channel, core);
    }
  }

  /** A component is accepted exactly if something other than white space is in it, and then without
      the white space around that. */
  lemma ComponentAccepted(value: string, name: string)
    ensures NormalizeComponent(value) == Some(name) <==> name != "" && Trimmed(name) && Padded(value, name)
    ensures NormalizeComponent(value).None? <==> Blank(value)
  {
    TrimIff(value, name);
    TrimIff(value, "");
    PaddedEmpty(value);
  }

  /** The route a request addresses, or the code of the first component that is refused. */
  function RouteOf(principal: Principal, channel: string, account: string, user: string): (r: Result<RouteKey, string>)
    ensures r.Success? ==> r.value.principal == principal
  {
    match NormalizeChannel(channel)
    case None => Failure("invalid_channel")
    case Some(c) =>
      match NormalizeComponent(account)
      case None => Failure("invalid_channel_route")
      case Some(a) =>
        match NormalizeComponent(user)
        case None => Failure("invalid_channel_route")
        case Some(u) => Success(RouteKey(principal, c, a, u))
  }

  function InboundRoute(principal: Principal, r: Inbound): (k: Result<RouteKey, string>)
    ensures k.Success? ==> k.value.principal == principal
  {
    match RouteOf(principal, r.channel, r.account, r.user)
    case Failure(code) => Failure(code)
    case Success(key) =>
      if NormalizeComponent(r.text).None? then Failure("invalid_channel_message") else Success(key)
  }

  function Distance(a: int, b: int): nat {
    if a < b then b - a else a - b
  }

  /** The allowed number nearest to the one asked for. */
  function BoundedMaxItems(value: Option<nat>): (n: nat)
    ensures 1 <= n <= 500
    ensures value.None? ==> n == 50
    ensures value.Some? ==> forall k :: 1 <= k <= 500 ==> Distance(n, value.value) <= Distance(k, value.value)
  {
    var v := if value.Some? then value.value else 50;
    if v < 1 then 1 else if v > 500 then 500 else v
  }

  // ---------------------------------------------------------------- the outbox

  function Queued(o: Outbox, k: RouteKey): seq<Item> {
    if k in o then o[k] else []
  }

  function Push(o: Outbox, k: RouteKey, i: Item): Outbox {
    o[k := Queued(o, k) + [i]]
  }

  /** How many items one poll takes. */
  function Taken(o: Outbox, k: RouteKey, n: nat): (t: nat)
    ensures t <= |Queued(o, k)|
  {
    if n <= |Queued(o, k)| then n else |Queued(o, k)|
  }

  function Drained(o: Outbox, k: RouteKey, n: nat): Outbox {
    if k !in o then o
    else if Taken(o, k, n) == |o[k]| then o - {k}
    else o[k := o[k][Taken(o, k, n)..]]
  }

  // ---------------------------------------------------------------- handler pieces

  /** Point the session's push senders at this connection, if it has any. */
  function Bind(g: Shared, cid: ConnId, ws: bool, s: SessionId): Shared {
    if ws then g.(responders := g.responders[s := cid], priority := g.priority[s := cid]) else g
  }

  /** Everything TerminateSession removes. */
  function Dissolve(g: Shared, s: SessionId): Shared {
    g.(owners := g.owners - {s},
       responders := g.responders - {s},
       priority := g.priority - {s},
       routes := map k | k in g.routes && g.routes[k] != s :: g.routes[k],
       reverse := g.reverse - {s},
       outbox := g.outbox - RoutesTo(g, s),
       live := g.live - {s})
  }

  function RoutesTo(g: Shared, s: SessionId): set<RouteKey> {
    set k | k in g.routes && g.routes[k] == s
  }

  /** Everything a forced recreation removes for the route's old session. */
  function Replace(g: Shared, key: RouteKey, s: SessionId): Shared {
    g.(routes := g.routes - {key},
       reverse := g.reverse - {s},
       outbox := g.outbox - {key},
       responders := g.responders - {s},
       priority := g.priority - {s},
       owners := g.owners - {s},
       live := g.live - {s})
  }

  function Acting(conn: Conn): Principal {
    if conn.principal.Some? then conn.principal.value else "unknown"
  }

  function Created(g: Shared, cid: ConnId, conn: Conn, env: Env): Outcome {
    if !env.createOk then Outcome(g, conn, Failed("session_create_failed"))
    else
      var p := Acting(conn);
      var g' := g.(live := g.live[env.uuid := p], owners := g.owners[env.uuid := p]);
      Outcome(Bind(g', cid, conn.ws, env.uuid), conn.(owned := conn.owned + {env.uuid}), SessionCreated(env.uuid))
  }

  function Authorized(g: Shared, cid: ConnId, ws: bool, conn: Conn, s: SessionId): Outcome {
    if conn.principal.None? then Outcome(g, conn, Failed("auth_required"))
    else if s in conn.owned then Outcome(Bind(g, cid, ws, s), conn, Granted)
    else if s !in g.owners then Outcome(g, conn, Failed("session_not_found"))
    else if g.owners[s] != conn.principal.value then Outcome(g, conn, Failed("forbidden_session"))
    else Outcome(Bind(g, cid, ws, s), conn.(owned := conn.owned + {s}), Granted)
  }

  function Terminated(g: Shared, cid: ConnId, conn: Conn, s: SessionId): Outcome {
    var auth := Authorized(g, cid, false, conn, s);
    if auth.resp.Failed? then auth
    else
      Outcome(Dissolve(g, s), auth.conn.(owned := auth.conn.owned - {s}),
              if s in g.live then SessionTerminated(s) else Failed("session_terminate_failed"))
  }

  function Operating(g: Shared, cid: ConnId, conn: Conn, s: SessionId, env: Env): Outcome {
    var auth := Authorized(g, cid, conn.ws, conn, s);
    if auth.resp.Failed? then auth
    else auth.(resp := if env.sendOk && s in g.live then Operated(s) else Failed("session_operation_failed"))
  }

  /** The tail of ChannelInbound: index the route, authorise, hand the text to the runner. */
  function Delivered(
    g: Shared, cid: ConnId, conn: Conn, key: RouteKey, s: SessionId, respond: bool, env: Env): Outcome
  {
    var auth := Authorized(g.(reverse := g.reverse[s := key]), cid, conn.ws, conn, s);
    if auth.resp.Failed? then auth
    else if !(env.sendOk && s in g.live) then auth.(resp := Failed("channel_inbound_failed"))
    else if respond && !env.respondOk then auth.(resp := Failed("channel_response_failed"))
    else auth.(resp := ChannelRouted(key, s))
  }

  /** Create a session for the route and deliver to it. */
  function Opened(g: Shared, cid: ConnId, conn: Conn, key: RouteKey, respond: bool, env: Env): Outcome {
    var made := Created(g, cid, conn, env);
    if made.resp.Failed? then made
    else Delivered(made.g.(routes := made.g.routes[key := env.uuid]), cid, made.conn, key, env.uuid, respond, env)
  }

  /** What ChannelInbound does once its route key is known. */
  function RoutedTo(g: Shared, cid: ConnId, conn: Conn, key: RouteKey, respond: bool, force: bool, env: Env): Outcome {
    if key !in g.routes then Opened(g, cid, conn, key, respond, env)
    else
      var prior := g.routes[key];
      if force then Opened(Replace(g, key, prior), cid, conn, key, respond, env)
      else if prior in g.owners then Delivered(g, cid, conn, key, prior, respond, env)
      else Opened(Unrouted(g, key, prior), cid, conn, key, respond, env)
  }

  /** Forget a route whose session no longer exists. */
  function Unrouted(g: Shared, key: RouteKey, s: SessionId): Shared {
    g.(routes := g.routes - {key}, reverse := g.reverse - {s})
  }

  function Routed(g: Shared, cid: ConnId, conn: Conn, r: Inbound, env: Env): Outcome {
    if conn.principal.None? then Outcome(g, conn, Failed("auth_required"))
    else
      match InboundRoute(conn.principal.value, r)
      case Failure(code) => Outcome(g, conn, Failed(code))
      case Success(key) => RoutedTo(g, cid, conn, key, r.respond, r.force, env)
  }

  function Polled(
    g: Shared, conn: Conn, channel: string, account: string, user: string, maxItems: Option<nat>): Outcome
  {
    if conn.principal.None? then Outcome(g, conn, Failed("auth_required"))
    else
      match RouteOf(conn.principal.value, channel, account, user)
      case Failure(code) => Outcome(g, conn, Failed(code))
      case Success(key) =>
        var n := BoundedMaxItems(maxItems);
        Outcome(g.(outbox := Drained(g.outbox, key, n)), conn,
          Batch(key, Queued(g.outbox, key)[..Taken(g.outbox, key, n)]))
  }

  /** One message of an authenticated client, handled to the end. */
  function Handled(g: Shared, cid: ConnId, conn: Conn, req: Request, env: Env): Outcome {
    if !conn.authenticated then Outcome(g, conn, Failed("auth_required"))
    else
      match req
      case Create => Created(g, cid, conn, env)
      case Terminate(s) => Terminated(g, cid, conn, s)
      case Operate(s) => Operating(g, cid, conn, s, env)
      case Route(r) => Routed(g, cid, conn, r, env)
      case Poll(channel, account, user, maxItems) => Polled(g, conn, channel, account, user, maxItems)
  }

  /** A transcript from the runner; only final, non-blank text of a routed session is queued. */
  function Transcribed(g: Shared, s: SessionId, text: string, isFinal: bool, id: nat): Shared {
    if !isFinal || Trim(text) == "" || s !in g.reverse then g
    else g.(outbox := Push(g.outbox, g.reverse[s], Item(id, s, Trim(text))))
  }

  /** Socket cleanup. */
  function Closed(g: Shared, conn: Conn): Shared {
    g.(responders := g.responders - conn.owned, priority := g.priority - conn.owned)
  }

  function Proven(conn: Conn, p: Principal): Conn {
    conn.(authenticated := true, principal := Some(p), proved := conn.proved + {p})
  }

  function Fresh(ws: bool, principal: Option<Principal>): Conn {
    Conn(ws, principal.Some?, principal, {}, if principal.Some? then {principal.value} else {})
  }
}
