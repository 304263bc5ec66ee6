// What a channel message, a poll and a job request are validated to, told from the raw
// request: which part is refused with which code, and otherwise whose route and which
// text the handler goes on with.

module GatewayMessages {
  import opened GatewayState
  import opened GatewaySteps
  import opened Prelude

  /** One of the six supported names, up to ASCII case and with only white space around it. */
  ghost predicate Names(channel: string, name: string) {
    && name in {"telegram", "slack", "webhook", "discord", "matrix", "teams"}
    && exists core :: AsciiLower(core) == name && Padded(channel, core)
  }

  ghost predicate Supported(channel: string) {
    exists name :: Names(channel, name)
  }

  /** What is left of a text, something, without the white space around it. */
  ghost predicate Core(value: string, core: string) {
    core != "" && Trimmed(core) && Padded(value, core)
  }

  /** The route of principal `p` that these parts address. */
  ghost predicate Addresses(p: Principal, channel: string, account: string, user: string, key: RouteKey) {
    key.principal == p && Names(channel, key.channel) && Core(account, key.account) && Core(user, key.user)
  }

  lemma {:induction false} NamesIs(channel: string, name: string)
    ensures Names(channel, name) <==> NormalizeChannel(channel) == Some(name)
  {
    ChannelAccepted(channel, name);
    OneOfIsIn(name, CHANNELS);
  }

  lemma {:induction false} CoreIs(value: string, core: string)
    ensures Core(value, core) <==> NormalizeComponent(value) == Some(core)
  {
    ComponentAccepted(value, core);
  }

  lemma {:induction false} SupportedIs(channel: string)
    ensures Supported(channel) <==> NormalizeChannel(channel).Some?
  {
    if NormalizeChannel(channel).Some? {
      NamesIs(channel, NormalizeChannel(channel).value);
    }
    if name :| Names(channel, name) {
      NamesIs(channel, name);
    }
  }

  lemma {:induction false} BlankIs(value: string)
    ensures Blank(value) <==> NormalizeComponent(value).None?
  {
    ComponentAccepted(value, "");
  }

  lemma {:induction false} AddressesIs(p: Principal, channel: string, account: string, user: string, key: RouteKey)
    ensures Addresses(p, channel, account, user, key) <==> RouteOf(p, channel, account, user) == Success(key)
  {
    NamesIs(channel, key.channel);
    CoreIs(account, key.account);
    CoreIs(user, key.user);
  }

  /** The code with which these parts of a request are refused, the first that fails: channel, then route. */
  ghost function Refusal(channel: string, account: string, user: string): Option<string> {
    if !Supported(channel) then Some("invalid_channel")
    else if Blank(account) || Blank(user) then Some("invalid_channel_route")
    else None
  }

  /** The same for a message, whose text comes last. */
  ghost function MessageRefusal(r: Inbound): Option<string> {
    var code := Refusal(r.channel, r.account, r.user);
    if code.Some? then code else if Blank(r.text) then Some("invalid_channel_message") else None
  }

  lemma {:induction false} RouteOfIs(p: Principal, channel: string, account: string, user: string)
    ensures match Refusal(channel, account, user)
      case Some(code) => RouteOf(p, channel, account, user) == Failure(code)
      case None => RouteOf(p, channel, account, user).Success?
  {
    SupportedIs(channel);
    BlankIs(account);
    BlankIs(user);
  }

  lemma {:induction false} InboundRouteIs(p: Principal, r: Inbound)
    ensures match MessageRefusal(r)
      case Some(code) => InboundRoute(p, r) == Failure(code)
      case None =>
        InboundRoute(p, r).Success? && Addresses(p, r.channel, r.account, r.user, InboundRoute(p, r).value)
  {
    RouteOfIs(p, r.channel, r.account, r.user);
    BlankIs(r.text);
    if InboundRoute(p, r).Success? {
      AddressesIs(p, r.channel, r.account, r.user, InboundRoute(p, r).value);
    }
  }

  /** There is only one such route. */
  lemma {:induction false} AddressesOne(
    p: Principal, channel: string, account: string, user: string, key: RouteKey, other: RouteKey)
    requires Addresses(p, channel, account, user, key) && Addresses(p, channel, account, user, other)
    ensures key == other
  {
    AddressesIs(p, channel, account, user, key);
    AddressesIs(p, channel, account, user, other);
  }

  // ---------------------------------------------------------------- whole handlers

  /** Main result: what a channel message does, for every client, server and message. Without a
      principal, or with a part that is blank or unsupported, nothing changes and the first such
      part names the error; otherwise the handler routes to the one route of the client's own
      principal that the parts address, whatever white space surrounds them. */
  lemma {:induction false} MessageHandled(g: Shared, cid: ConnId, conn: Conn, r: Inbound, env: Env)
    ensures !conn.authenticated || conn.principal.None? ==>
      Handled(g, cid, conn, Route(r), env) == Outcome(g, conn, Failed("auth_required"))
    ensures conn.authenticated && conn.principal.Some? ==>
      match MessageRefusal(r)
      case Some(code) => Handled(g, cid, conn, Route(r), env) == Outcome(g, conn, Failed(code))
      case None =>
        && (exists key :: Addresses(conn.principal.value, r.channel, r.account, r.user, key))
        && forall key :: Addresses(conn.principal.value, r.channel, r.account, r.user, key) ==>
          Handled(g, cid, conn, Route(r), env) == RoutedTo(g, cid, conn, key, r.respond, r.force, env)
  {
    if conn.authenticated && conn.principal.Some? {
      var p := conn.principal.value;
      InboundRouteIs(p, r);
      forall key | InboundRoute(p, r).Success? && Addresses(p, r.channel, r.account, r.user, key)
        ensures InboundRoute(p, r) == Success(key)
      {
        AddressesOne(p, r.channel, r.account, r.user, key, InboundRoute(p, r).value);
      }
    }
  }

  /** A poll of up to `n` items hands over the front of the route's queue and leaves the rest, and an
      emptied queue goes; no other queue and no other table changes. */
  ghost predicate HandsOver(g: Shared, g': Shared, key: RouteKey, n: nat, items: seq<Item>) {
    && Queued(g.outbox, key) == items + Queued(g'.outbox, key)
    && |items| == (if n < |Queued(g.outbox, key)| then n else |Queued(g.outbox, key)|)
    && (key in g'.outbox ==> key in g.outbox && g'.outbox[key] != [])
    && g'.outbox - {key} == g.outbox - {key} && g' == g.(outbox := g'.outbox)
  }

  function Front(o: Outbox, key: RouteKey, n: nat): seq<Item> {
    Queued(o, key)[..Taken(o, key, n)]
  }

  lemma {:induction false} DrainHandsOver(g: Shared, key: RouteKey, n: nat)
    requires n >= 1
    ensures HandsOver(g, g.(outbox := Drained(g.outbox, key, n)), key, n, Front(g.outbox, key, n))
  {
  }

  lemma {:induction false} PollServes(
    g: Shared, cid: ConnId, conn: Conn, channel: string, account: string, user: string, max: Option<nat>, env: Env)
    requires conn.authenticated && conn.principal.Some?
    ensures var (o, n) := (Handled(g, cid, conn, Poll(channel, account, user, max), env), BoundedMaxItems(max));
      match RouteOf(conn.principal.value, channel, account, user)
      case Failure(code) => o == Outcome(g, conn, Failed(code))
      case Success(key) =>
        o == Outcome(g.(outbox := Drained(g.outbox, key, n)), conn, Batch(key, Front(g.outbox, key, n)))
  {
  }

  /** Main result: what a poll does, for every client, server and request: refused like a message, and
      otherwise served from the one route of the client's own principal that the parts address. */
  lemma {:induction false} PollHandled(
    g: Shared, cid: ConnId, conn: Conn, channel: string, account: string, user: string, max: Option<nat>, env: Env)
    ensures !conn.authenticated || conn.principal.None? ==>
      Handled(g, cid, conn, Poll(channel, account, user, max), env) == Outcome(g, conn, Failed("auth_required"))
    ensures conn.authenticated && conn.principal.Some? ==>
      var o := Handled(g, cid, conn, Poll(channel, account, user, max), env);
      match Refusal(channel, account, user)
      case Some(code) => o == Outcome(g, conn, Failed(code))
      case None =>
        && o.conn == conn && o.resp.Batch? && Addresses(conn.principal.value, channel, account, user, o.resp.key)
        && HandsOver(g, o.g, o.resp.key, BoundedMaxItems(max), o.resp.items)
  {
    if conn.authenticated && conn.principal.Some? {
      PollServes(g, cid, conn, channel, account, user, max, env);
      RouteOfIs(conn.principal.value, channel, account, user);
      if Refusal(channel, account, user).None? {
        var key := RouteOf(conn.principal.value, channel, account, user).value;
        AddressesIs(conn.principal.value, channel, account, user, key);
        DrainHandsOver(g, key, BoundedMaxItems(max));
      }
    }
  }

  // ---------------------------------------------------------------- the same lock by lock

  /** The handler of this message by a client of `p` carries this ticket: the addressed route, the text
      without the white space around it, and the two flags as they came. */
  ghost predicate Asks(p: Principal, r: Inbound, t: Ticket) {
    && Addresses(p, r.channel, r.account, r.user, t.key) && Core(r.text, t.text)
    && t.respond == r.respond && t.force == r.force
  }

  /** Main result: split at the locks, a message is refused at once with the same codes, or starts on the
      route lookup with what it asks. */
  lemma {:induction false} MessageBegins(a: Actor, r: Inbound)
    ensures !a.conn.authenticated || a.conn.principal.None? ==>
      Begin(a, Route(r)) == Finish(a, Failed("auth_required"))
    ensures a.conn.authenticated && a.conn.principal.Some? ==>
      match MessageRefusal(r)
      case Some(code) => Begin(a, Route(r)) == Finish(a, Failed(code))
      case None =>
        var b := Begin(a, Route(r)); b.pc.RouteLookup? && Asks(a.conn.principal.value, r, b.pc.t) && b == a.(pc := b.pc)
  {
    if a.conn.authenticated && a.conn.principal.Some? {
      InboundRouteIs(a.conn.principal.value, r);
      if MessageRefusal(r).None? {
        ComponentAccepted(r.text, Trim(r.text));
      }
    }
  }

  function TicketIn(pc: Pc): Option<Ticket> {
    match pc
    case RunnerCreate(BindRoute(t)) => Some(t)
    case OwnerInsert(_, BindRoute(t)) => Some(t)
    case ResponderInsert(_, BindRoute(t)) => Some(t)
    case PriorityInsert(_, BindRoute(t)) => Some(t)
    case AuthLookup(_, ToDeliver(t)) => Some(t)
    case AuthResponder(_, ToDeliver(t)) => Some(t)
    case AuthPriority(_, ToDeliver(t)) => Some(t)
    case RouteLookup(t) => Some(t)
    case ForceRoute(t, _) => Some(t)
    case ForceReverse(t, _) => Some(t)
    case ForceOutbox(t, _) => Some(t)
    case ForceResponder(t, _) => Some(t)
    case ForcePriority(t, _) => Some(t)
    case ForceOwner(t, _) => Some(t)
    case ForceRunner(t, _) => Some(t)
    case OwnerCheck(t, _) => Some(t)
    case StaleRoute(t, _) => Some(t)
    case StaleReverse(t, _) => Some(t)
    case RouteInsert(t, _) => Some(t)
    case ReverseInsert(t, _) => Some(t)
    case RunnerSend(t, _) => Some(t)
    case RunnerRespond(t, _) => Some(t)
    case _ => None
  }

  /** Some handler carries the ticket, or some runner call was made for it. */
  ghost predicate Carried(s: Sys, t: Ticket) {
    || (exists c :: c in s.actors && TicketIn(s.actors[c].pc) == Some(t))
    || (exists i :: 0 <= i < |s.h.calls| && ViaChannel(s.h.calls[i].purpose) && s.h.calls[i].purpose.t == t)
  }

  /** A client of some principal sends a message that asks for the ticket. */
  ghost predicate AskedBy(s: Sys, x: Action, t: Ticket) {
    && x.Receive? && x.request.Route? && x.cid in s.actors && s.actors[x.cid].conn.principal.Some?
    && Asks(s.actors[x.cid].conn.principal.value, x.request.inbound, t)
  }

  ghost predicate Asked(s: Sys, xs: seq<Action>, t: Ticket)
    requires Runnable(s, xs)
    decreases |xs|
  {
    xs != [] && (AskedBy(s, xs[0], t) || Asked(Apply(s, xs[0]), xs[1..], t))
  }

  /** A step passes its own ticket on to the next step. */
  lemma {:induction false} StepKeepsTicket(c: Cut, cid: ConnId, env: Env)
    ensures TicketIn(Step(c, cid, env).a.pc) in {None, TicketIn(c.a.pc)}
  {
    match c.a.pc
    case Idle =>
    case RunnerCreate(_) =>
    case OwnerInsert(_, _) =>
    case ResponderInsert(_, _) =>
    case PriorityInsert(_, _) =>
    case AuthLookup(_, _) =>
    case AuthResponder(_, _) =>
    case AuthPriority(_, _) =>
    case RunnerOperate(_) =>
    case OutboxDrain(_, _) =>
    case TranscriptLookup(_, _) =>
    case TranscriptPush(_, _) =>
    case RouteLookup(_) =>
    case OwnerCheck(_, _) =>
    case StaleRoute(_, _) =>
    case StaleReverse(_, _) =>
    case RouteInsert(_, _) =>
    case ReverseInsert(_, _) =>
    case RunnerSend(_, _) =>
    case RunnerRespond(_, _) =>
    case _ =>
  }

  /** It makes at most one runner call, and if for a channel message, then for its own ticket. */
  ghost predicate CallsFor(before: seq<Call>, after: seq<Call>, ticket: Option<Ticket>) {
    || after == before
    || exists call :: after == before + [call] && (ViaChannel(call.purpose) ==> Some(call.purpose.t) == ticket)
  }

  lemma {:induction false} StepCalls(c: Cut, cid: ConnId, env: Env)
    ensures CallsFor(c.h.calls, Step(c, cid, env).h.calls, TicketIn(c.a.pc))
  {
    match c.a.pc
    case Idle =>
    case RunnerCreate(_) =>
    case OwnerInsert(_, _) =>
    case ResponderInsert(_, _) =>
    case PriorityInsert(_, _) =>
    case AuthLookup(_, _) =>
    case AuthResponder(_, _) =>
    case AuthPriority(_, _) =>
    case RunnerOperate(_) =>
    case OutboxDrain(_, _) =>
    case TranscriptLookup(_, _) =>
    case TranscriptPush(_, _) =>
    case RouteLookup(_) =>
    case OwnerCheck(_, _) =>
    case StaleRoute(_, _) =>
    case StaleReverse(_, _) =>
    case RouteInsert(_, _) =>
    case ReverseInsert(_, _) =>
    case RunnerSend(_, _) =>
    case RunnerRespond(_, _) =>
    case _ =>
  }

  lemma {:induction false} TickCarries(s: Sys, x: Action, t: Ticket)
    requires Enabled(s, x) && x.Tick? && Carried(Apply(s, x), t)
    ensures Carried(s, t)
  {
    var cut := Cut(s.g, s.h, s.actors[x.cid]);
    var s' := Apply(s, x);
    StepKeepsTicket(cut, x.cid, x.env);
    StepCalls(cut, x.cid, x.env);
    if c :| c in s'.actors && TicketIn(s'.actors[c].pc) == Some(t) {
      assert TicketIn(s.actors[c].pc) == Some(t);
    } else {
      var i :| 0 <= i < |s'.h.calls| && ViaChannel(s'.h.calls[i].purpose) && s'.h.calls[i].purpose.t == t;
      if i < |s.h.calls| {
        assert s.h.calls[i] == s'.h.calls[i];
      } else {
        assert TicketIn(s.actors[x.cid].pc) == Some(t);
      }
    }
  }

  lemma {:induction false} OtherCalls(s: Sys, x: Action)
    requires Enabled(s, x) && !x.Tick?
    ensures Apply(s, x).h.calls == s.h.calls
  {
  }

  /** Only a message that asks for it gives a client a new ticket. */
  lemma {:induction false} OtherTickets(s: Sys, x: Action, c: ConnId, t: Ticket)
    requires Enabled(s, x) && !x.Tick? && c in Apply(s, x).actors && TicketIn(Apply(s, x).actors[c].pc) == Some(t)
    ensures (c in s.actors && TicketIn(s.actors[c].pc) == Some(t)) || AskedBy(s, x, t)
  {
    match x
    case Arrive(_, _, _) =>
    case Prove(_, _) =>
    case Receive(d, request) =>
      if request.Route? && d == c {
        MessageBegins(s.actors[c], request.inbound);
      }
    case Emit(_, _, _, _, _) =>
    case Leave(_) =>
  }

  lemma {:induction false} OtherCarries(s: Sys, x: Action, t: Ticket)
    requires Enabled(s, x) && !x.Tick? && Carried(Apply(s, x), t)
    ensures Carried(s, t) || AskedBy(s, x, t)
  {
    OtherCalls(s, x);
    if c :| c in Apply(s, x).actors && TicketIn(Apply(s, x).actors[c].pc) == Some(t) {
      OtherTickets(s, x, c, t);
    }
  }

  lemma {:induction false} CarriedWasAsked(s: Sys, xs: seq<Action>, t: Ticket)
    requires Runnable(s, xs) && Carried(Run(s, xs), t)
    ensures Carried(s, t) || Asked(s, xs, t)
    decreases |xs|
  {
    if xs != [] {
      CarriedWasAsked(Apply(s, xs[0]), xs[1..], t);
      if Carried(Apply(s, xs[0]), t) {
        if xs[0].Tick? {
          TickCarries(s, xs[0], t);
        } else {
          OtherCarries(s, xs[0], t);
        }
      }
    }
  }

  /** Main result: in every interleaving, whatever a channel message has the runner do was asked for by a
      client then: the text handed on is that of a message it sent, without the white space around it,
      and for the route that the message addresses for the client's own principal. */
  lemma {:induction false} RunnerHearsWhatWasSent(xs: seq<Action>, i: nat)
    requires Runnable(START, xs) && i < |Run(START, xs).h.calls|
    requires ViaChannel(Run(START, xs).h.calls[i].purpose)
    ensures Asked(START, xs, Run(START, xs).h.calls[i].purpose.t)
  {
    var t := Run(START, xs).h.calls[i].purpose.t;
    assert Carried(Run(START, xs), t);
    CarriedWasAsked(START, xs, t);
  }

  // ---------------------------------------------------------------- what an answer tells

  ghost predicate Made(h: History, session: SessionId, purpose: Purpose) {
    exists i :: 0 <= i < |h.calls| && h.calls[i].session == session && h.calls[i].purpose == purpose
  }

  /** The runner took a text for this route and session. */
  ghost predicate Sent(h: History, session: SessionId, key: RouteKey) {
    exists i :: 0 <= i < |h.calls| && h.calls[i].session == session && h.calls[i].purpose.Sends?
      && h.calls[i].purpose.t.key == key
  }

  /** What the client has been told was done. */
  ghost predicate Earned(h: History, resp: Response) {
    match resp
    case ChannelRouted(key, s) => Sent(h, s, key)
    case Operated(s) => Made(h, s, Operates)
    case SessionTerminated(s) => Made(h, s, Ends)
    case _ => true
  }

  ghost predicate ActorEarned(h: History, a: Actor) {
    Earned(h, a.resp) && (a.pc.RunnerRespond? ==> Sent(h, a.pc.s, a.pc.t.key))
  }

  lemma {:induction false} StillEarned(h: History, h': History, a: Actor)
    requires h.calls <= h'.calls && ActorEarned(h, a)
    ensures ActorEarned(h', a)
  {
  }

  lemma {:induction false} LogMakes(h: History, a: Actor, s: SessionId, purpose: Purpose)
    ensures Made(Log(h, a, s, purpose), s, purpose)
    ensures purpose.Sends? ==> Sent(Log(h, a, s, purpose), s, purpose.t.key)
  {
    assert Log(h, a, s, purpose).calls[|h.calls|] == Call(s, Acting(a.conn), a.conn.proved, purpose);
  }

  /** Answers that claim nothing of the runner. */
  predicate Claims(resp: Response) {
    resp.ChannelRouted? || resp.Operated? || resp.SessionTerminated?
  }

  /** Creating, authorising and replacing claim nothing and lead to no response of the runner. */
  lemma {:induction false} CreateClaimsNothing(c: Cut, cid: ConnId, env: Env)
    requires Creating(c.a.pc)
    ensures var a := StepCreate(c, cid, env).a; !a.pc.RunnerRespond? && (a.resp == c.a.resp || !Claims(a.resp))
  {
  }

  lemma {:induction false} AuthClaimsNothing(c: Cut, cid: ConnId)
    requires Authorizing(c.a.pc)
    ensures var a := StepAuth(c, cid).a; !a.pc.RunnerRespond? && (a.resp == c.a.resp || !Claims(a.resp))
  {
  }

  lemma {:induction false} ForceClaimsNothing(c: Cut)
    requires Forcing(c.a.pc)
    ensures var a := StepForce(c).a; !a.pc.RunnerRespond? && (a.resp == c.a.resp || !Claims(a.resp))
  {
  }

  lemma {:induction false} TerminateEarns(c: Cut)
    requires Terminating(c.a.pc) && Earned(StepTerminate(c).h, c.a.resp)
    ensures ActorEarned(StepTerminate(c).h, StepTerminate(c).a)
  {
    LogMakes(c.h, c.a, c.a.pc.s, Ends);
  }

  lemma {:induction false} RouteEarns(c: Cut, env: Env)
    requires Routing(c.a.pc) && ActorEarned(StepRoute(c, env).h, c.a)
    ensures ActorEarned(StepRoute(c, env).h, StepRoute(c, env).a)
  {
    match c.a.pc
    case RunnerSend(t, s) => LogMakes(c.h, c.a, s, Sends(t));
    case _ =>
  }

  lemma {:induction false} QueueEarns(c: Cut, env: Env)
    requires Queueing(c.a.pc) && Earned(StepQueue(c, env).h, c.a.resp)
    ensures ActorEarned(StepQueue(c, env).h, StepQueue(c, env).a)
  {
    match c.a.pc
    case RunnerOperate(s) => LogMakes(c.h, c.a, s, Operates);
    case _ =>
  }

  lemma {:induction false} StepEarns(c: Cut, cid: ConnId, env: Env)
    requires ActorEarned(c.h, c.a)
    ensures ActorEarned(Step(c, cid, env).h, Step(c, cid, env).a)
  {
    StepCalls(c, cid, env);
    StillEarned(c.h, Step(c, cid, env).h, c.a);
    if Creating(c.a.pc) {
      CreateClaimsNothing(c, cid, env);
    } else if Authorizing(c.a.pc) {
      AuthClaimsNothing(c, cid);
    } else if Terminating(c.a.pc) {
      TerminateEarns(c);
    } else if Forcing(c.a.pc) {
      ForceClaimsNothing(c);
    } else if Routing(c.a.pc) {
      RouteEarns(c, env);
    } else if Queueing(c.a.pc) {
      QueueEarns(c, env);
    }
  }

  ghost predicate AllEarned(s: Sys) {
    forall c :: c in s.actors ==> ActorEarned(s.h, s.actors[c])
  }

  lemma {:induction false} ApplyEarns(s: Sys, x: Action)
    requires AllEarned(s) && Enabled(s, x)
    ensures AllEarned(Apply(s, x))
  {
    if x.Tick? {
      var c := Cut(s.g, s.h, s.actors[x.cid]);
      StepCalls(c, x.cid, x.env);
      StepEarns(c, x.cid, x.env);
      forall d | d in s.actors && d != x.cid ensures ActorEarned(Apply(s, x).h, s.actors[d]) {
        StillEarned(s.h, Apply(s, x).h, s.actors[d]);
      }
    } else {
      OtherCalls(s, x);
    }
  }

  lemma {:induction false} RunEarns(s: Sys, xs: seq<Action>)
    requires AllEarned(s) && Runnable(s, xs)
    ensures AllEarned(Run(s, xs))
    decreases |xs|
  {
    if xs != [] {
      ApplyEarns(s, xs[0]);
      RunEarns(Apply(s, xs[0]), xs[1..]);
    }
  }

  /** Main result: in every interleaving, a client is told that its message was routed only if the runner took a
      text for that route and session, and told that a command or a termination was done only if the runner
      was called for it. */
  lemma {:induction false} AnswersWereEarned(xs: seq<Action>, c: ConnId)
    requires Runnable(START, xs) && c in Run(START, xs).actors
    ensures Earned(Run(START, xs).h, Run(START, xs).actors[c].resp)
  {
    RunEarns(START, xs);
  }

  /** Output of a session is pushed to the client its sender points at, and to nobody without one. */
  lemma {:induction false} OutputIsPushed(s: Sys, c: ConnId, session: SessionId, text: string, isFinal: bool, id: nat)
    requires Enabled(s, Emit(c, session, text, isFinal, id))
    ensures var (before, after) := (s.h.pushed, Apply(s, Emit(c, session, text, isFinal, id)).h.pushed);
      if session in s.g.responders && s.g.responders[session] in s.actors
      then after == before + [Pushed(session, s.actors[s.g.responders[session]].conn.proved)]
      else after == before
  {
  }
}
