// What the session commands and transcripts do when handlers run one at a time, told from
// the sessions that exist and whose they are.

module GatewayCommands {
  import opened GatewayAtomic
  import opened GatewayMessages
  import opened GatewayState
  import opened Prelude

  /** The commands on a session that exists. */
  function SessionOf(req: Request): Option<SessionId> {
    match req
    case Terminate(s) => Some(s)
    case Operate(s) => Some(s)
    case _ => None
  }

  /** The code with which a client's command on session `s` is refused. A session that the client has cached
      is not looked up. */
  function CommandRefusal(g: Shared, conn: Conn, s: SessionId): Option<string> {
    if !conn.authenticated || conn.principal.None? then Some("auth_required")
    else if s in conn.owned then None
    else if s !in g.live then Some("session_not_found")
    else if g.live[s] != conn.principal.value then Some("forbidden_session")
    else None
  }

  /** Main result: with coherent tables a command on a session is refused, and then changes nothing, exactly if
      the client has not logged in, or has not cached the session and it does not live or is another's. */
  lemma CommandRefused(w: World, c: ConnId, req: Request, env: Env)
    requires Coherent(w) && c in w.conns && SessionOf(req).Some?
    ensures var (o, conn) := (Handled(w.g, c, w.conns[c], req, env), w.conns[c]);
      match CommandRefusal(w.g, conn, SessionOf(req).value)
      case Some(code) => o == Outcome(w.g, conn, Failed(code))
      case None => o.resp !in {Failed("auth_required"), Failed("session_not_found"), Failed("forbidden_session")}
  {
  }

  /** Both push senders of the session are this client's, if it has any; nothing else differs. */
  ghost predicate SendersMoved(g: Shared, g': Shared, s: SessionId, cid: ConnId, ws: bool) {
    && g' == g.(responders := g'.responders, priority := g'.priority)
    && g'.responders == (if ws then g.responders[s := cid] else g.responders)
    && g'.priority == (if ws then g.priority[s := cid] else g.priority)
  }

  /** Main result: a command that is not refused reaches the runner: the session is cached, its output goes to
      this client, and it succeeds exactly if the session lives and the runner's call does. */
  lemma CommandReachesRunner(w: World, c: ConnId, s: SessionId, env: Env)
    requires Coherent(w) && c in w.conns && CommandRefusal(w.g, w.conns[c], s).None?
    ensures var (o, conn) := (Handled(w.g, c, w.conns[c], Operate(s), env), w.conns[c]);
      && SendersMoved(w.g, o.g, s, c, conn.ws) && o.conn == conn.(owned := conn.owned + {s})
      && o.resp == if s in w.g.live && env.sendOk then Operated(s) else Failed("session_operation_failed")
  {
    assert w.conns[c].owned + {s} == w.conns[c].owned || s !in w.conns[c].owned;
  }

  /** The session is in no table any more; its routes and their queues are gone, all others are as they were. */
  ghost predicate Gone(g: Shared, g': Shared, s: SessionId) {
    && g'.live == g.live - {s} && g'.owners == g.owners - {s} && g'.reverse == g.reverse - {s}
    && g'.responders == g.responders - {s} && g'.priority == g.priority - {s}
    && (forall k :: k in g'.routes <==> k in g.routes && g.routes[k] != s)
    && (forall k :: k in g'.routes ==> g'.routes[k] == g.routes[k])
    && (forall k :: k in g'.outbox <==> k in g.outbox && !(k in g.routes && g.routes[k] == s))
    && (forall k :: k in g'.outbox ==> g'.outbox[k] == g.outbox[k])
  }

  /** Main result: a termination that is not refused leaves no trace of the session, in the tables or the
      client's cache, and is reported as done exactly if the session lived. */
  lemma TerminateForgets(w: World, c: ConnId, s: SessionId, env: Env)
    requires Coherent(w) && c in w.conns && CommandRefusal(w.g, w.conns[c], s).None?
    ensures var (o, conn) := (Handled(w.g, c, w.conns[c], Terminate(s), env), w.conns[c]);
      && Gone(w.g, o.g, s) && o.conn == conn.(owned := conn.owned - {s})
      && o.resp == if s in w.g.live then SessionTerminated(s) else Failed("session_terminate_failed")
  {
  }

  /** Main result: a creation fails without a trace, or the new session lives and is listed for the caller, with
      its output going to the caller, who has it cached; no route or queue changes. */
  lemma CreateLists(w: World, c: ConnId, env: Env)
    requires Coherent(w) && c in w.conns
    ensures var (o, conn) := (Handled(w.g, c, w.conns[c], Create, env), w.conns[c]);
      if !conn.authenticated then o == Outcome(w.g, conn, Failed("auth_required"))
      else if !env.createOk then o == Outcome(w.g, conn, Failed("session_create_failed"))
      else
        && o.resp == SessionCreated(env.uuid) && o.conn == conn.(owned := conn.owned + {env.uuid})
        && o.g.live == w.g.live[env.uuid := conn.principal.value] && o.g.owners == o.g.live
        && SendersMoved(w.g.(live := o.g.live, owners := o.g.owners), o.g, env.uuid, c, conn.ws)
  {
  }

  /** Main result: a transcript is queued exactly if it is final, says something and its session has a route:
      then it goes, without the white space around it, to the end of that route's queue. */
  lemma TranscriptQueued(g: Shared, s: SessionId, text: string, isFinal: bool, id: nat)
    ensures var g' := Transcribed(g, s, text, isFinal, id);
      if isFinal && !Blank(text) && s in g.reverse then
        exists core :: Core(text, core) &&
          g' == g.(outbox := g.outbox[g.reverse[s] := Queued(g.outbox, g.reverse[s]) + [Item(id, s, core)]])
      else g' == g
  {
    TrimIff(text, "");
    TrimIff(text, Trim(text));
    PaddedEmpty(text);
    if Trim(text) != "" {
      assert Core(text, Trim(text));
    }
  }
}
