// What locking each table separately costs: two messages for one unrouted channel can
// overlap so that the route tables end up not inverse, even after both are answered.

module GatewayRace {
  import opened Prelude
  import opened GatewayState
  import opened GatewaySteps
  import Atomic = GatewayAtomic

  lemma {:induction false} RunsTogether(s: Sys, xs: seq<Action>, ys: seq<Action>)
    requires Runnable(s, xs) && Runnable(Run(s, xs), ys)
    ensures Runnable(s, xs + ys) && Run(s, xs + ys) == Run(Run(s, xs), ys)
    decreases |xs|
  {
    if xs == [] {
      assert xs + ys == ys;
    } else {
      RunsTogether(Apply(s, xs[0]), xs[1..], ys);
      assert (xs + ys)[1..] == xs[1..] + ys;
    }
  }

  lemma RunsOne(s: Sys, x: Action, ys: seq<Action>)
    requires Enabled(s, x) && Runnable(Apply(s, x), ys)
    ensures Runnable(s, [x] + ys) && Run(s, [x] + ys) == Run(Apply(s, x), ys)
  {
    assert ([x] + ys)[1..] == ys;
  }

  /** A client about to create a session for its route, over plain HTTP. */
  ghost predicate Opening(s: Sys, c: ConnId, p: Principal, t: Ticket) {
    && c in s.actors
    && s.actors[c].pc == RunnerCreate(BindRoute(t))
    && s.actors[c].conn.principal == Some(p) && !s.actors[c].conn.ws
  }

  /** Nothing has happened to the other clients, the route tables or the ownership history but what is listed. */
  ghost predicate Only(s: Sys, s': Sys, c: ConnId, pc: Pc, ever: map<SessionId, Principal>) {
    && c in s.actors && c in s'.actors && s'.actors == s.actors[c := s'.actors[c]]
    && s'.actors[c].pc == pc && s'.actors[c].conn.(owned := {}) == s.actors[c].conn.(owned := {})
    && s'.g.routes == s.g.routes && s'.g.reverse == s.g.reverse && s'.h.ever == ever
  }

  lemma CreateTick(s: Sys, c: ConnId, p: Principal, t: Ticket, u: SessionId)
    requires Opening(s, c, p, t) && u !in s.h.ever
    ensures var s' := Apply(s, Tick(c, Env(u, true, true, true)));
      Only(s, s', c, OwnerInsert(u, BindRoute(t)), s.h.ever[u := p]) && u in s'.g.live
  {
  }

  lemma OnlyTogether(s: Sys, s1: Sys, s2: Sys, c: ConnId, pc: Pc, pc': Pc, ever: map<SessionId, Principal>)
    requires Only(s, s1, c, pc, ever) && Only(s1, s2, c, pc', ever)
    ensures Only(s, s2, c, pc', ever)
  {
  }

  lemma RegisterTick(s: Sys, c: ConnId, t: Ticket, u: SessionId, w: SessionId)
    requires c in s.actors && !s.actors[c].conn.ws && w !in s.h.ever && u in s.g.live
    requires s.actors[c].pc in {OwnerInsert(u, BindRoute(t)), ResponderInsert(u, BindRoute(t)),
      PriorityInsert(u, BindRoute(t))}
    ensures var s', pc := Apply(s, Tick(c, Env(w, true, true, true))), s.actors[c].pc;
      && Only(s, s', c, if pc.OwnerInsert? then ResponderInsert(u, BindRoute(t))
                        else if pc.ResponderInsert? then PriorityInsert(u, BindRoute(t))
                        else RouteInsert(t, u), s.h.ever)
      && u in s'.g.live && (pc.PriorityInsert? ==> u in s'.actors[c].conn.owned)
  {
  }

  lemma RegisterTicks(s: Sys, c: ConnId, t: Ticket, u: SessionId, w: SessionId) returns (xs: seq<Action>)
    requires c in s.actors && s.actors[c].pc == OwnerInsert(u, BindRoute(t)) && !s.actors[c].conn.ws
    requires w !in s.h.ever && u in s.g.live
    ensures Runnable(s, xs)
    ensures var s' := Run(s, xs);
      Only(s, s', c, RouteInsert(t, u), s.h.ever) && u in s'.g.live && u in s'.actors[c].conn.owned
  {
    var x := Tick(c, Env(w, true, true, true));
    var s1 := Apply(s, x);
    RegisterTick(s, c, t, u, w);
    var s2 := Apply(s1, x);
    RegisterTick(s1, c, t, u, w);
    var s3 := Apply(s2, x);
    RegisterTick(s2, c, t, u, w);
    OnlyTogether(s, s1, s2, c, s1.actors[c].pc, s2.actors[c].pc, s.h.ever);
    OnlyTogether(s, s2, s3, c, s2.actors[c].pc, s3.actors[c].pc, s.h.ever);
    RunsOne(s2, x, []);
    RunsOne(s1, x, [x]);
    xs := [x] + ([x] + [x]);
    RunsOne(s, x, [x] + [x]);
    assert Run(s, xs) == s3;
  }

  /** A client that has its session and is about to enter it into the route tables. */
  ghost predicate Binding(s: Sys, c: ConnId, p: Principal, t: Ticket, u: SessionId) {
    && c in s.actors && s.actors[c].pc == RouteInsert(t, u)
    && s.actors[c].conn.principal == Some(p) && !s.actors[c].conn.ws && u in s.actors[c].conn.owned
    && u in s.g.live
  }

  ghost predicate Delivering(s: Sys, c: ConnId, t: Ticket, u: SessionId, pc: Pc) {
    && c in s.actors && s.actors[c].pc == pc && !s.actors[c].conn.ws && u in s.g.live
  }

  lemma IndexTicks(s: Sys, c: ConnId, p: Principal, t: Ticket, u: SessionId, w: SessionId) returns (xs: seq<Action>)
    requires Binding(s, c, p, t, u) && w !in s.h.ever
    ensures Runnable(s, xs)
    ensures var s' := Run(s, xs);
      && s'.actors == s.actors[c := s.actors[c].(pc := AuthResponder(u, ToDeliver(t)))]
      && Delivering(s', c, t, u, AuthResponder(u, ToDeliver(t)))
      && s'.g.routes == s.g.routes[t.key := u] && s'.g.reverse == s.g.reverse[u := t.key] && s'.h.ever == s.h.ever
  {
    var x := Tick(c, Env(w, true, true, true));
    var s1 := Apply(s, x);
    var s2 := Apply(s1, x);
    RunsOne(s1, x, []);
    xs := [x] + [x];
    RunsOne(s, x, [x]);
    assert Run(s, xs) == s2;
  }

  /** The last steps: sending the text and, if asked for, requesting a response. */
  lemma SendTicks(s: Sys, c: ConnId, t: Ticket, u: SessionId, w: SessionId) returns (xs: seq<Action>)
    requires Delivering(s, c, t, u, RunnerSend(t, u)) && w !in s.h.ever
    ensures Runnable(s, xs)
    ensures var s' := Run(s, xs);
      && s'.actors == s.actors[c := s.actors[c].(pc := Idle, resp := ChannelRouted(t.key, u))]
      && s'.g.routes == s.g.routes && s'.g.reverse == s.g.reverse && s'.h.ever == s.h.ever
  {
    var x := Tick(c, Env(w, true, true, true));
    var s1 := Apply(s, x);
    if t.respond {
      RunsOne(s1, x, []);
      RunsOne(s, x, [x]);
      xs := [x] + [x];
    } else {
      RunsOne(s, x, []);
      xs := [x] + [];
    }
  }

  lemma DeliverTicks(s: Sys, c: ConnId, t: Ticket, u: SessionId, w: SessionId) returns (xs: seq<Action>)
    requires Delivering(s, c, t, u, AuthResponder(u, ToDeliver(t))) && w !in s.h.ever
    ensures Runnable(s, xs)
    ensures var s' := Run(s, xs);
      && s'.actors == s.actors[c := s.actors[c].(pc := Idle, resp := ChannelRouted(t.key, u))]
      && s'.g.routes == s.g.routes && s'.g.reverse == s.g.reverse && s'.h.ever == s.h.ever
  {
    var x := Tick(c, Env(w, true, true, true));
    var s1 := Apply(s, x);
    assert Delivering(s1, c, t, u, AuthPriority(u, ToDeliver(t)));
    var s2 := Apply(s1, x);
    assert Delivering(s2, c, t, u, RunnerSend(t, u));
    xs := SendTicks(s2, c, t, u, w);
    RunsOne(s1, x, xs);
    xs := [x] + xs;
    RunsOne(s, x, xs);
    xs := [x] + xs;
  }

  ghost predicate Bound(s: Sys, s': Sys, c: ConnId, key: RouteKey, u: SessionId) {
    && c in s.actors && s'.actors == s.actors[c := s.actors[c].(pc := Idle, resp := ChannelRouted(key, u))]
    && s'.g.routes == s.g.routes[key := u] && s'.g.reverse == s.g.reverse[u := key] && s'.h.ever == s.h.ever
  }

  /** The client has been answered with session `u`, which the route tables now name for its route. */
  ghost predicate Answered(s: Sys, s': Sys, c: ConnId, p: Principal, key: RouteKey, u: SessionId) {
    && c in s.actors && c in s'.actors
    && s'.actors[c].pc == Idle && s'.actors[c].resp == ChannelRouted(key, u)
    && s'.actors == s.actors[c := s'.actors[c]]
    && s'.g.routes == s.g.routes[key := u] && s'.g.reverse == s.g.reverse[u := key] && s'.h.ever == s.h.ever[u := p]
  }

  lemma CreateTicks(s: Sys, c: ConnId, p: Principal, t: Ticket, u: SessionId, w: SessionId) returns (xs: seq<Action>)
    requires Opening(s, c, p, t) && u !in s.h.ever && w !in s.h.ever && u != w
    ensures Runnable(s, xs)
    ensures var s' := Run(s, xs);
      Only(s, s', c, RouteInsert(t, u), s.h.ever[u := p]) && u in s'.g.live && u in s'.actors[c].conn.owned
  {
    var x := Tick(c, Env(u, true, true, true));
    CreateTick(s, c, p, t, u);
    var s1 := Apply(s, x);
    xs := RegisterTicks(s1, c, t, u, w);
    OnlyTogether(s, s1, Run(s1, xs), c, s1.actors[c].pc, RouteInsert(t, u), s1.h.ever);
    RunsOne(s, x, xs);
    xs := [x] + xs;
  }

  lemma BindTicks(s: Sys, c: ConnId, p: Principal, t: Ticket, u: SessionId, w: SessionId) returns (xs: seq<Action>)
    requires Binding(s, c, p, t, u) && w !in s.h.ever
    ensures Runnable(s, xs)
    ensures Bound(s, Run(s, xs), c, t.key, u)
  {
    var index := IndexTicks(s, c, p, t, u, w);
    var deliver := DeliverTicks(Run(s, index), c, t, u, w);
    RunsTogether(s, index, deliver);
    xs := index + deliver;
  }

  /** The whole of one client's remaining work, from creating the session to the answer. */
  lemma OpenTicks(s: Sys, c: ConnId, p: Principal, t: Ticket, u: SessionId, w: SessionId) returns (xs: seq<Action>)
    requires Opening(s, c, p, t) && u !in s.h.ever && w !in s.h.ever && u != w
    ensures Runnable(s, xs)
    ensures Answered(s, Run(s, xs), c, p, t.key, u)
  {
    var create := CreateTicks(s, c, p, t, u, w);
    var s1 := Run(s, create);
    var bind := BindTicks(s1, c, p, t, u, w);
    RunsTogether(s, create, bind);
    CreatedThenBound(s, s1, Run(s1, bind), c, p, t, u);
    xs := create + bind;
  }

  lemma CreatedThenBound(s: Sys, s1: Sys, s2: Sys, c: ConnId, p: Principal, t: Ticket, u: SessionId)
    requires Only(s, s1, c, RouteInsert(t, u), s.h.ever[u := p]) && Bound(s1, s2, c, t.key, u)
    ensures Answered(s, s2, c, p, t.key, u)
  {
  }

  /** Two clients in one and the same state, and nothing else. */
  ghost predicate Both(s: Sys, a: Actor) {
    s.g == NO_TABLES && s.h.ever == map[] && s.actors.Keys == {0, 1} && s.actors[0] == a && s.actors[1] == a
  }

  function At(p: Principal, pc: Pc): Actor {
    Actor(Fresh(false, Some(p)), pc, NoReply)
  }

  lemma ArriveTicks(p: Principal) returns (xs: seq<Action>)
    ensures Runnable(START, xs) && Both(Run(START, xs), At(p, Idle))
  {
    var a, b := Arrive(0, false, Some(p)), Arrive(1, false, Some(p));
    RunsOne(Apply(START, a), b, []);
    RunsOne(START, a, [b]);
    xs := [a] + [b];
  }

  lemma Receives(s: Sys, c: ConnId, p: Principal, r: Inbound, key: RouteKey)
    requires InboundRoute(p, r) == Success(key)
    requires c in s.actors && s.actors[c] == Actor(Fresh(false, Some(p)), Idle, NoReply)
    ensures Apply(s, Receive(c, Route(r))) ==
            s.(actors := s.actors[c := s.actors[c].(pc := RouteLookup(TicketOf(key, r)))])
  {
  }

  lemma Looks(s: Sys, c: ConnId, t: Ticket)
    requires c in s.actors && s.actors[c].pc == RouteLookup(t) && t.key !in s.g.routes && "" !in s.h.ever
    ensures Enabled(s, Tick(c, Env("", true, true, true)))
    ensures Apply(s, Tick(c, Env("", true, true, true))) ==
            s.(actors := s.actors[c := s.actors[c].(pc := RunnerCreate(BindRoute(t)))])
  {
  }

  /** Both clients send the message. */
  lemma AskTicks(s: Sys, p: Principal, r: Inbound, key: RouteKey) returns (xs: seq<Action>)
    requires Both(s, At(p, Idle)) && InboundRoute(p, r) == Success(key)
    ensures Runnable(s, xs) && Both(Run(s, xs), At(p, RouteLookup(TicketOf(key, r))))
  {
    var m0, m1 := Receive(0, Route(r)), Receive(1, Route(r));
    Receives(s, 0, p, r, key);
    var s1 := Apply(s, m0);
    Receives(s1, 1, p, r, key);
    RunsOne(s1, m1, []);
    RunsOne(s, m0, [m1]);
    xs := [m0] + [m1];
  }

  /** Both get as far as finding no route. */
  lemma FindTicks(s: Sys, p: Principal, t: Ticket) returns (xs: seq<Action>)
    requires Both(s, At(p, RouteLookup(t)))
    ensures Runnable(s, xs) && Both(Run(s, xs), At(p, RunnerCreate(BindRoute(t))))
  {
    var l0, l1 := Tick(0, Env("", true, true, true)), Tick(1, Env("", true, true, true));
    Looks(s, 0, t);
    var s1 := Apply(s, l0);
    Looks(s1, 1, t);
    RunsOne(s1, l1, []);
    RunsOne(s, l0, [l1]);
    xs := [l0] + [l1];
  }

  lemma LookTicks(p: Principal, r: Inbound, key: RouteKey) returns (xs: seq<Action>)
    requires InboundRoute(p, r) == Success(key)
    ensures Runnable(START, xs)
    ensures var s, t := Run(START, xs), TicketOf(key, r);
      && s.actors.Keys == {0, 1} && Opening(s, 0, p, t) && Opening(s, 1, p, t)
      && s.g == NO_TABLES && s.h.ever == map[]
  {
    var arrive := ArriveTicks(p);
    var s1 := Run(START, arrive);
    var ask := AskTicks(s1, p, r, key);
    var find := FindTicks(Run(s1, ask), p, TicketOf(key, r));
    RunsTogether(s1, ask, find);
    RunsTogether(START, arrive, ask + find);
    xs := arrive + (ask + find);
  }

  /** Both clients of a two-client system answered with different sessions. */
  ghost predicate Raced(s: Sys, key: RouteKey) {
    && s.actors.Keys == {0, 1}
    && (forall c :: c in s.actors ==> s.actors[c].pc == Idle && s.actors[c].resp.ChannelRouted?)
    && s.g.routes == map[key := "second"] && s.g.reverse == map["first" := key, "second" := key]
  }

  lemma BothAnswered(s: Sys, s1: Sys, s2: Sys, p: Principal, key: RouteKey)
    requires s.actors.Keys == {0, 1} && s.g == NO_TABLES
    requires Answered(s, s1, 0, p, key, "first") && Answered(s1, s2, 1, p, key, "second")
    ensures Raced(s2, key) && !Atomic.RoutesInverse(s2.g)
  {
    assert s2.actors.Keys == {0, 1} && s2.actors[0] == s1.actors[0];
    assert s2.g.reverse["first"] == key && s2.g.routes[key] == "second";
  }

  /** Main result: for every valid message, two clients sending it at once can leave both answered, every
      client idle, and the reverse table still naming the route for a session that the route no longer has. */
  lemma RaceBreaksInverse(p: Principal, r: Inbound, key: RouteKey) returns (xs: seq<Action>)
    requires InboundRoute(p, r) == Success(key)
    ensures Runnable(START, xs)
    ensures Raced(Run(START, xs), key) && !Atomic.RoutesInverse(Run(START, xs).g)
  {
    var t := TicketOf(key, r);
    var look := LookTicks(p, r, key);
    var s0 := Run(START, look);
    var one := OpenTicks(s0, 0, p, t, "first", "later");
    var s1 := Run(s0, one);
    var two := OpenTicks(s1, 1, p, t, "second", "later");
    RunsTogether(START, look, one);
    RunsTogether(START, look + one, two);
    BothAnswered(s0, s1, Run(s1, two), p, key);
    xs := look + one + two;
  }
}
