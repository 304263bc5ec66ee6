// Push senders and logins, in every interleaving: a session's sender is a client that has
// the session cached, so a closed client is nobody's; and a client acts for the
// principal it proved last, or for none once it has left.

module GatewaySenders {
  import opened GatewayMessages
  import opened GatewayState
  import opened GatewaySteps
  import opened Prelude

  /** The client has registered its first sender for the session it creates, and is about to cache it. */
  predicate Registers(pc: Pc, s: SessionId) {
    (pc.ResponderInsert? || pc.PriorityInsert?) && pc.s == s
  }

  /** The client is ending the session and has taken its senders away. */
  predicate Retires(pc: Pc, s: SessionId) {
    (pc.TermOwner? || pc.TermRoutes? || pc.TermReverse? || pc.TermOutbox?) && pc.s == s
  }

  /** Client `c` may be the sender of session `s`. */
  predicate MaySend(a: Actor, s: SessionId) {
    s in a.conn.owned || Registers(a.pc, s)
  }

  ghost predicate SendersOk(g: Shared, c: ConnId, a: Actor) {
    && (forall s :: s in g.responders && g.responders[s] == c ==>
      MaySend(a, s) && !Retires(a.pc, s) && !(a.pc.TermPriority? && a.pc.s == s))
    && (forall s :: s in g.priority && g.priority[s] == c ==> MaySend(a, s) && !Retires(a.pc, s))
    && ((a.pc.AuthResponder? || a.pc.AuthPriority?) ==> a.pc.s in a.conn.owned)
  }

  ghost predicate AllSendersOk(s: Sys) {
    && (forall c :: c in s.actors ==> SendersOk(s.g, c, s.actors[c]))
    && (forall t :: t in s.g.responders ==> s.g.responders[t] in s.actors)
    && (forall t :: t in s.g.priority ==> s.g.priority[t] in s.actors)
  }

  /** The entries that do not point at `c` may go or come; those that do were there before. */
  ghost predicate NoneNewFor(before: map<SessionId, ConnId>, after: map<SessionId, ConnId>, c: ConnId) {
    forall s :: s in after && after[s] == c ==> s in before && before[s] == c
  }

  ghost predicate NoneNew(before: Shared, after: Shared, c: ConnId) {
    NoneNewFor(before.responders, after.responders, c) && NoneNewFor(before.priority, after.priority, c)
  }

  lemma {:induction false} CreateElsewhere(k: Cut, cid: ConnId, env: Env, d: ConnId)
    requires d != cid && Creating(k.a.pc)
    ensures NoneNew(k.g, StepCreate(k, cid, env).g, d)
  {
  }

  lemma {:induction false} AuthElsewhere(k: Cut, cid: ConnId, d: ConnId)
    requires d != cid && Authorizing(k.a.pc)
    ensures NoneNew(k.g, StepAuth(k, cid).g, d)
  {
  }

  lemma {:induction false} TerminateElsewhere(k: Cut, d: ConnId)
    requires Terminating(k.a.pc)
    ensures NoneNew(k.g, StepTerminate(k).g, d)
  {
  }

  lemma {:induction false} ForceElsewhere(k: Cut, d: ConnId)
    requires Forcing(k.a.pc)
    ensures NoneNew(k.g, StepForce(k).g, d)
  {
  }

  lemma {:induction false} RouteElsewhere(k: Cut, env: Env, d: ConnId)
    requires Routing(k.a.pc)
    ensures NoneNew(k.g, StepRoute(k, env).g, d)
  {
  }

  /** A client's step points senders at nobody else. */
  lemma {:induction false} StepSendersElsewhere(k: Cut, cid: ConnId, env: Env, d: ConnId)
    requires d != cid
    ensures NoneNew(k.g, Step(k, cid, env).g, d)
  {
    if Creating(k.a.pc) {
      CreateElsewhere(k, cid, env, d);
    } else if Authorizing(k.a.pc) {
      AuthElsewhere(k, cid, d);
    } else if Terminating(k.a.pc) {
      TerminateElsewhere(k, d);
    } else if Forcing(k.a.pc) {
      ForceElsewhere(k, d);
    } else if Routing(k.a.pc) {
      RouteElsewhere(k, env, d);
    }
  }

  lemma {:induction false} CreateKeepsSenders(k: Cut, cid: ConnId, env: Env)
    requires SendersOk(k.g, cid, k.a) && Creating(k.a.pc)
    ensures SendersOk(StepCreate(k, cid, env).g, cid, StepCreate(k, cid, env).a)
  {
  }

  lemma {:induction false} AuthKeepsSenders(k: Cut, cid: ConnId)
    requires SendersOk(k.g, cid, k.a) && Authorizing(k.a.pc)
    ensures SendersOk(StepAuth(k, cid).g, cid, StepAuth(k, cid).a)
  {
  }

  lemma {:induction false} TerminateKeepsSenders(k: Cut, cid: ConnId)
    requires SendersOk(k.g, cid, k.a) && Terminating(k.a.pc)
    ensures SendersOk(StepTerminate(k).g, cid, StepTerminate(k).a)
  {
  }

  lemma {:induction false} ForceKeepsSenders(k: Cut, cid: ConnId)
    requires SendersOk(k.g, cid, k.a) && Forcing(k.a.pc)
    ensures SendersOk(StepForce(k).g, cid, StepForce(k).a)
  {
  }

  lemma {:induction false} RouteKeepsSenders(k: Cut, cid: ConnId, env: Env)
    requires SendersOk(k.g, cid, k.a) && Routing(k.a.pc)
    ensures SendersOk(StepRoute(k, env).g, cid, StepRoute(k, env).a)
  {
  }

  lemma {:induction false} StepKeepsSenders(k: Cut, cid: ConnId, env: Env)
    requires SendersOk(k.g, cid, k.a)
    ensures SendersOk(Step(k, cid, env).g, cid, Step(k, cid, env).a)
  {
    if Creating(k.a.pc) {
      CreateKeepsSenders(k, cid, env);
    } else if Authorizing(k.a.pc) {
      AuthKeepsSenders(k, cid);
    } else if Terminating(k.a.pc) {
      TerminateKeepsSenders(k, cid);
    } else if Forcing(k.a.pc) {
      ForceKeepsSenders(k, cid);
    } else if Routing(k.a.pc) {
      RouteKeepsSenders(k, cid, env);
    }
  }

  lemma {:induction false} TickKeepsSenders(s: Sys, x: Action)
    requires AllSendersOk(s) && Enabled(s, x) && x.Tick?
    ensures AllSendersOk(Apply(s, x))
  {
    var k := Cut(s.g, s.h, s.actors[x.cid]);
    forall c | c in s.actors ensures SendersOk(Apply(s, x).g, c, Apply(s, x).actors[c]) {
      if c == x.cid {
        StepKeepsSenders(k, c, x.env);
      } else {
        StepSendersElsewhere(k, x.cid, x.env, c);
      }
    }
    forall t | t in Apply(s, x).g.responders || t in Apply(s, x).g.priority ensures SendsKnown(s, Apply(s, x).g, t) {
      SendersAreKnown(s, x, t);
    }
  }

  predicate SendsKnown(s: Sys, g: Shared, t: SessionId) {
    (t in g.responders ==> g.responders[t] in s.actors) && (t in g.priority ==> g.priority[t] in s.actors)
  }

  lemma {:induction false} SendersAreKnown(s: Sys, x: Action, t: SessionId)
    requires AllSendersOk(s) && Enabled(s, x) && x.Tick?
    ensures SendsKnown(s, Apply(s, x).g, t)
  {
    var k := Cut(s.g, s.h, s.actors[x.cid]);
    var g := Apply(s, x).g;
    if t in g.responders && g.responders[t] != x.cid {
      StepSendersElsewhere(k, x.cid, x.env, g.responders[t]);
    }
    if t in g.priority && g.priority[t] != x.cid {
      StepSendersElsewhere(k, x.cid, x.env, g.priority[t]);
    }
  }

  lemma {:induction false} LeaveKeepsSenders(s: Sys, c: ConnId)
    requires AllSendersOk(s) && Enabled(s, Leave(c))
    ensures AllSendersOk(Apply(s, Leave(c))) && Silent(Apply(s, Leave(c)), c)
  {
    LeaverIsSilent(s, c);
    forall d | d in s.actors && d != c ensures SendersOk(Apply(s, Leave(c)).g, d, s.actors[d]) {
      assert SendersOk(s.g, d, s.actors[d]);
    }
  }

  lemma {:induction false} LeaverIsSilent(s: Sys, c: ConnId)
    requires AllSendersOk(s) && Enabled(s, Leave(c))
    ensures Silent(Apply(s, Leave(c)), c)
  {
    assert SendersOk(s.g, c, s.actors[c]);
  }

  lemma {:induction false} BeginKeepsSenders(g: Shared, c: ConnId, a: Actor, request: Request)
    requires SendersOk(g, c, a) && a.pc.Idle?
    ensures SendersOk(g, c, Begin(a, request)) && Begin(a, request).conn == a.conn
  {
    match request
    case Create =>
    case Terminate(_) =>
    case Operate(_) =>
    case Route(_) =>
    case Poll(_, _, _, _) =>
  }

  lemma {:induction false} ReceiveKeepsSenders(s: Sys, c: ConnId, request: Request)
    requires AllSendersOk(s) && Enabled(s, Receive(c, request))
    ensures AllSendersOk(Apply(s, Receive(c, request)))
  {
    BeginKeepsSenders(s.g, c, s.actors[c], request);
    ActorKeepsSenders(s, s.h, c, Begin(s.actors[c], request));
  }

  /** A change of one client that points nothing new at it. */
  lemma {:induction false} ActorKeepsSenders(s: Sys, h: History, c: ConnId, a: Actor)
    requires AllSendersOk(s) && c in s.actors && SendersOk(s.g, c, a)
    ensures AllSendersOk(s.(h := h, actors := s.actors[c := a]))
  {
  }

  lemma {:induction false} EmitKeepsSenders(s: Sys, x: Action)
    requires AllSendersOk(s) && Enabled(s, x) && x.Emit?
    ensures AllSendersOk(Apply(s, x))
  {
    var c := x.cid;
    var a := s.actors[c].(pc := TranscriptLookup(x.session, Item(x.id, x.session, Trim(x.text))));
    ActorKeepsSenders(s, Apply(s, x).h, c, a);
    ActorKeepsSenders(s, Apply(s, x).h, c, s.actors[c]);
    assert s.actors[c := s.actors[c]] == s.actors;
  }

  /** A new client is nobody's sender yet. */
  lemma {:induction false} ArriveKeepsSenders(s: Sys, c: ConnId, a: Actor)
    requires AllSendersOk(s) && c !in s.actors && a.pc.Idle?
    ensures AllSendersOk(s.(actors := s.actors[c := a]))
  {
  }

  lemma {:induction false} ApplyKeepsSenders(s: Sys, x: Action)
    requires AllSendersOk(s) && Enabled(s, x)
    ensures AllSendersOk(Apply(s, x))
  {
    match x
    case Arrive(c, ws, p) => ArriveKeepsSenders(s, c, Actor(Fresh(ws, p), Idle, NoReply));
    case Prove(c, p) => ActorKeepsSenders(s, s.h, c, s.actors[c].(conn := Proven(s.actors[c].conn, p)));
    case Receive(c, request) => ReceiveKeepsSenders(s, c, request);
    case Emit(_, _, _, _, _) => EmitKeepsSenders(s, x);
    case Tick(_, _) => TickKeepsSenders(s, x);
    case Leave(c) => LeaveKeepsSenders(s, c);
  }

  lemma {:induction false} RunKeepsSenders(s: Sys, xs: seq<Action>)
    requires AllSendersOk(s) && Runnable(s, xs)
    ensures AllSendersOk(Run(s, xs))
    decreases |xs|
  {
    if xs != [] {
      ApplyKeepsSenders(s, xs[0]);
      RunKeepsSenders(Apply(s, xs[0]), xs[1..]);
    }
  }

  // ---------------------------------------------------------------- main results

  /** Main result: in every interleaving, whenever a client is between messages, the sessions whose output is
      pushed to it are among those it has cached. */
  lemma {:induction false} SendersAreCached(xs: seq<Action>, c: ConnId, t: SessionId)
    requires Runnable(START, xs) && c in Run(START, xs).actors && Run(START, xs).actors[c].pc.Idle?
    ensures var s := Run(START, xs);
      (t in s.g.responders && s.g.responders[t] == c) || (t in s.g.priority && s.g.priority[t] == c) ==>
        t in s.actors[c].conn.owned
  {
    RunKeepsSenders(START, xs);
  }

  /** Nobody's sender, without a login and without cached sessions. */
  ghost predicate Silent(s: Sys, c: ConnId) {
    && c in s.actors && s.actors[c].conn.owned == {} && !s.actors[c].conn.authenticated
    && s.actors[c].conn.principal.None?
    && (s.actors[c].pc.Idle? || s.actors[c].pc.TranscriptLookup? || s.actors[c].pc.TranscriptPush?)
    && (forall t :: t in s.g.responders ==> s.g.responders[t] != c)
    && (forall t :: t in s.g.priority ==> s.g.priority[t] != c)
  }

  lemma {:induction false} ApplyKeepsSilent(s: Sys, x: Action, c: ConnId)
    requires Silent(s, c) && Enabled(s, x) && !(x.Prove? && x.cid == c)
    ensures Silent(Apply(s, x), c)
  {
    if x.Tick? && x.cid != c {
      StepSendersElsewhere(Cut(s.g, s.h, s.actors[x.cid]), x.cid, x.env, c);
    }
  }

  lemma {:induction false} RunKeepsSilent(s: Sys, xs: seq<Action>, c: ConnId)
    requires Silent(s, c) && Runnable(s, xs) && forall i :: 0 <= i < |xs| ==> !(xs[i].Prove? && xs[i].cid == c)
    ensures Silent(Run(s, xs), c)
    decreases |xs|
  {
    if xs != [] {
      ApplyKeepsSilent(s, xs[0], c);
      RunKeepsSilent(Apply(s, xs[0]), xs[1..], c);
    }
  }

  /** Main result: in every interleaving, a client that has left is no session's sender, then and in every
      later state, unless it logs in anew; and it is refused whatever it sends. */
  lemma {:induction false} LeaverStaysSilent(xs: seq<Action>, c: ConnId, ys: seq<Action>, request: Request)
    requires Runnable(START, xs) && Enabled(Run(START, xs), Leave(c))
    requires Runnable(Apply(Run(START, xs), Leave(c)), ys)
    requires forall i :: 0 <= i < |ys| ==> !(ys[i].Prove? && ys[i].cid == c)
    ensures var s := Run(Apply(Run(START, xs), Leave(c)), ys);
      && c in s.actors
      && (forall t :: t in s.g.responders ==> s.g.responders[t] != c)
      && (forall t :: t in s.g.priority ==> s.g.priority[t] != c)
      && Begin(s.actors[c], request) == Finish(s.actors[c], Failed("auth_required"))
  {
    RunKeepsSenders(START, xs);
    LeaveKeepsSenders(Run(START, xs), c);
    RunKeepsSilent(Apply(Run(START, xs), Leave(c)), ys, c);
  }

  /** Main result: a login replaces the one before: the next message of the client is handled for the
      principal proved last, and its session cache is as it was. */
  lemma {:induction false} LoginReplaces(s: Sys, c: ConnId, p: Principal, r: Inbound)
    requires Enabled(s, Prove(c, p))
    ensures var a := Apply(s, Prove(c, p)).actors[c];
      && a.conn.owned == s.actors[c].conn.owned && a.conn.principal == Some(p) && a.conn.authenticated
      && match MessageRefusal(r)
         case Some(code) => Begin(a, Route(r)) == Finish(a, Failed(code))
         case None => Begin(a, Route(r)).pc.RouteLookup? && Asks(p, r, Begin(a, Route(r)).pc.t)
  {
    MessageBegins(Apply(s, Prove(c, p)).actors[c], r);
  }
}
