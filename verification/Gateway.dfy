// The gateway server as an object: the shared tables are fields that the handlers
// update one after the other, and each handler is proved to do exactly what the
// corresponding function of GatewayState says, on the tables and on the client.

module Gateway {
  import opened Prelude
  import opened GatewayState

  class Connection {
    const id: ConnId
    const ws: bool
    var authenticated: bool
    var principal: Option<Principal>
    var owned: set<SessionId>
    ghost var proved: set<Principal>

    ghost function View(): Conn
      reads this
    {
      Conn(ws, authenticated, principal, owned, proved)
    }

    /** A new client; it starts authenticated when pairing is disabled or its HTTP token was accepted. */
    constructor (id: ConnId, ws: bool, preauthenticated: Option<Principal>)
      ensures View() == Fresh(ws, preauthenticated) && this.id == id
    {
      this.id := id;
      this.ws := ws;
      authenticated := preauthenticated.Some?;
      principal := preauthenticated;
      owned := {};
      proved := if preauthenticated.Some? then {preauthenticated.value} else {};
    }

    /** The effect of a successful Pair or Authenticate message. */
    method Prove(p: Principal)
      modifies this
      ensures View() == Proven(old(View()), p)
    {
      authenticated := true;
      principal := Some(p);
      proved := proved + {p};
    }
  }

  class Server {
    var owners: map<SessionId, Principal>
    var routes: map<RouteKey, SessionId>
    var reverse: map<SessionId, RouteKey>
    var outbox: Outbox
    var responders: map<SessionId, ConnId>
    var priority: map<SessionId, ConnId>
    /** The runner's table of live sessions, reached through its create and terminate calls. */
    var live: map<SessionId, Principal>

    ghost function View(): Shared
      reads this
    {
      Shared(owners, routes, reverse, outbox, responders, priority, live)
    }

    constructor ()
      ensures View() == NO_TABLES
    {
      owners, routes, reverse, outbox := map[], map[], map[], map[];
      responders, priority, live := map[], map[], map[];
    }

    method RegisterSenders(conn: Connection, ws: bool, s: SessionId)
      modifies this`responders, this`priority
      ensures View() == Bind(old(View()), conn.id, ws, s)
    {
      if ws {
        responders := responders[s := conn.id];
        priority := priority[s := conn.id];
      }
    }

    method CreateSession(conn: Connection, env: Env) returns (resp: Response)
      modifies this, conn
      ensures Outcome(View(), conn.View(), resp) == Created(old(View()), conn.id, old(conn.View()), env)
    {
      var principal := "unknown";
      if conn.principal.Some? {
        principal := conn.principal.value;
      }
      if !env.createOk {
        return Failed("session_create_failed");
      }
      live := live[env.uuid := principal];
      owners := owners[env.uuid := principal];
      RegisterSenders(conn, conn.ws, env.uuid);
      if env.uuid !in conn.owned {
        conn.owned := conn.owned + {env.uuid};
      }
      assert conn.View() == old(conn.View()).(owned := old(conn.owned) + {env.uuid});
      resp := SessionCreated(env.uuid);
    }

    method AuthorizeSessionAccess(conn: Connection, ws: bool, s: SessionId) returns (resp: Response)
      modifies this`responders, this`priority, conn
      ensures Outcome(View(), conn.View(), resp) == Authorized(old(View()), conn.id, ws, old(conn.View()), s)
    {
      if conn.principal.None? {
        return Failed("auth_required");
      }
      if s in conn.owned {
        RegisterSenders(conn, ws, s);
        return Granted;
      }
      if s !in owners {
        return Failed("session_not_found");
      }
      if owners[s] != conn.principal.value {
        return Failed("forbidden_session");
      }
      conn.owned := conn.owned + {s};
      RegisterSenders(conn, ws, s);
      resp := Granted;
    }

    /** Drop every route to `s` and report which keys were dropped. */
    method RetainOtherRoutes(s: SessionId) returns (removed: set<RouteKey>)
      modifies this`routes
      ensures removed == RoutesTo(old(View()), s)
      ensures routes == map k | k in old(routes) && old(routes)[k] != s :: old(routes)[k]
    {
      removed := {};
      var todo := routes.Keys;
      while todo != {}
        invariant todo <= old(routes).Keys && removed <= old(routes).Keys
        invariant forall k :: k in removed <==> k in old(routes) && k !in todo && old(routes)[k] == s
        invariant routes == old(routes) - removed
        decreases todo
      {
        var k :| k in todo;
        todo := todo - {k};
        if routes[k] == s {
          removed := removed + {k};
          routes := routes - {k};
        }
      }
    }

    method TerminateSession(conn: Connection, s: SessionId) returns (resp: Response)
      modifies this, conn
      ensures Outcome(View(), conn.View(), resp) == Terminated(old(View()), conn.id, old(conn.View()), s)
    {
      resp := AuthorizeSessionAccess(conn, false, s);
      if resp.Failed? {
        return;
      }
      assert View() == old(View());
      responders := responders - {s};
      priority := priority - {s};
      owners := owners - {s};
      var removed := RetainOtherRoutes(s);
      assert removed == RoutesTo(old(View()), s);
      reverse := reverse - {s};
      if removed != {} {
        outbox := outbox - removed;
      }
      assert outbox == old(outbox) - removed;
      conn.owned := conn.owned - {s};
      if s in live {
        live := live - {s};
        resp := SessionTerminated(s);
      } else {
        resp := Failed("session_terminate_failed");
      }
      assert live == old(live) - {s};
      assert View() == Dissolve(old(View()), s);
    }

    /** One of the session commands that authorise and then make a single runner call. */
    method OperateSession(conn: Connection, s: SessionId, env: Env) returns (resp: Response)
      modifies this, conn
      ensures Outcome(View(), conn.View(), resp) == Operating(old(View()), conn.id, old(conn.View()), s, env)
    {
      resp := AuthorizeSessionAccess(conn, conn.ws, s);
      if resp.Granted? {
        resp := if env.sendOk && s in live then Operated(s) else Failed("session_operation_failed");
      }
    }

    method TearDownForRecreate(key: RouteKey, s: SessionId)
      modifies this
      ensures View() == Replace(old(View()), key, s)
    {
      routes := routes - {key};
      reverse := reverse - {s};
      outbox := outbox - {key};
      responders := responders - {s};
      priority := priority - {s};
      owners := owners - {s};
      live := live - {s};
    }

    method DeliverInbound(
      conn: Connection, key: RouteKey, s: SessionId, respond: bool, env: Env) returns (resp: Response)
      modifies this, conn
      ensures Outcome(View(), conn.View(), resp) ==
        Delivered(old(View()), conn.id, old(conn.View()), key, s, respond, env)
    {
      reverse := reverse[s := key];
      resp := AuthorizeSessionAccess(conn, conn.ws, s);
      if resp.Failed? {
        return;
      }
      if !(env.sendOk && s in live) {
        return Failed("channel_inbound_failed");
      }
      if respond && !env.respondOk {
        return Failed("channel_response_failed");
      }
      resp := ChannelRouted(key, s);
    }

    method RouteInbound(conn: Connection, key: RouteKey, respond: bool, force: bool, env: Env) returns (resp: Response)
      modifies this, conn
      ensures Outcome(View(), conn.View(), resp) ==
        RoutedTo(old(View()), conn.id, old(conn.View()), key, respond, force, env)
    {
      var mapped := if key in routes then Some(routes[key]) else None;
      if force {
        if mapped.Some? {
          TearDownForRecreate(key, mapped.value);
        }
        mapped := None;
      }
      if mapped.Some? {
        if mapped.value in owners {
          resp := DeliverInbound(conn, key, mapped.value, respond, env);
          return;
        }
        routes := routes - {key};
        reverse := reverse - {mapped.value};
      }
      resp := CreateSession(conn, env);
      if !resp.SessionCreated? {
        return;
      }
      var created := resp.session;
      routes := routes[key := created];
      resp := DeliverInbound(conn, key, created, respond, env);
    }

    method ChannelInbound(conn: Connection, r: Inbound, env: Env) returns (resp: Response)
      modifies this, conn
      ensures Outcome(View(), conn.View(), resp) == Routed(old(View()), conn.id, old(conn.View()), r, env)
    {
      if conn.principal.None? {
        return Failed("auth_required");
      }
      match InboundRoute(conn.principal.value, r)
      case Failure(code) => resp := Failed(code);
      case Success(key) => resp := RouteInbound(conn, key, r.respond, r.force, env);
    }

    method DrainOutbox(
      conn: Connection, channel: string, account: string, user: string, maxItems: Option<nat>) returns (resp: Response)
      modifies this`outbox
      ensures Outcome(View(), conn.View(), resp) ==
        Polled(old(View()), old(conn.View()), channel, account, user, maxItems)
    {
      if conn.principal.None? {
        return Failed("auth_required");
      }
      match RouteOf(conn.principal.value, channel, account, user)
      case Failure(code) => resp := Failed(code);
      case Success(key) =>
        var items := [];
        if key in outbox {
          var queue := outbox[key];
          var takeN := BoundedMaxItems(maxItems);
          var split := if takeN < |queue| then takeN else |queue|;
          items := queue[..split];
          outbox := outbox[key := queue[split..]];
          if outbox[key] == [] {
            outbox := outbox - {key};
          }
          assert split == |queue| ==> outbox == old(outbox) - {key};
        }
        resp := Batch(key, items);
    }

    method QueueTranscript(s: SessionId, text: string, isFinal: bool, id: nat)
      modifies this`outbox
      ensures View() == Transcribed(old(View()), s, text, isFinal, id)
    {
      if !isFinal {
        return;
      }
      var trimmed := Trim(text);
      if trimmed == "" || s !in reverse {
        return;
      }
      var key := reverse[s];
      var queue := if key in outbox then outbox[key] else [];
      outbox := outbox[key := queue + [Item(id, s, trimmed)]];
    }

    method HandleMessage(conn: Connection, req: Request, env: Env) returns (resp: Response)
      modifies this, conn
      ensures Outcome(View(), conn.View(), resp) == Handled(old(View()), conn.id, old(conn.View()), req, env)
    {
      if !conn.authenticated {
        return Failed("auth_required");
      }
      match req
      case Create => resp := CreateSession(conn, env);
      case Terminate(s) => resp := TerminateSession(conn, s);
      case Operate(s) => resp := OperateSession(conn, s, env);
      case Route(r) => resp := ChannelInbound(conn, r, env);
      case Poll(channel, account, user, maxItems) => resp := DrainOutbox(conn, channel, account, user, maxItems);
    }

    method CloseSocket(conn: Connection)
      modifies this`responders, this`priority
      ensures View() == Closed(old(View()), conn.View())
    {
      responders := responders - conn.owned;
      priority := priority - conn.owned;
    }
  }
}
