// Periodic channel jobs: the registry that the handlers share, the worker task of
// each job, and every interleaving of registry locks, cancel signals and ticks.

module ChannelJobs {
  import opened Prelude
  import opened GatewayState
  import opened Sorting
  import M = GatewayMessages
  import Steps = GatewaySteps

  type JobId = string

  datatype Job = Job(
    id: JobId,
    channel: string,
    account: string,
    user: string,
    text: string,
    interval: nat,
    respond: bool,
    createdAt: nat)

  datatype Entry = Entry(owner: Principal, job: Job)

  type Table = map<JobId, Entry>

  datatype Draft = Draft(channel: string, account: string, user: string, text: string, interval: nat, respond: bool)

  datatype Reply =
    | Refused(code: string)
    | JobCreated(job: Job)
    | JobCanceled(id: JobId)
    | Jobs(jobs: seq<Job>)

  // ---------------------------------------------------------------- the handlers

  function AsInbound(d: Draft): Inbound {
    Inbound(d.channel, d.account, d.user, d.text, d.respond, false)
  }

  /** The job a request asks for, or the code it is refused with. */
  function Validated(principal: Option<Principal>, d: Draft, uuid: JobId, now: nat): Result<Entry, string> {
    if principal.None? then Failure("auth_required")
    else
      match InboundRoute(principal.value, AsInbound(d))
      case Failure(code) => Failure(code)
      case Success(key) =>
        if d.interval == 0 then Failure("invalid_channel_job")
        else
          var text := NormalizeComponent(d.text).value;
          Success(Entry(principal.value, Job(uuid, key.channel, key.account, key.user, text, d.interval, d.respond,
            now)))
  }

  function Enrolled(t: Table, asked: Result<Entry, string>): (Table, Reply) {
    match asked
    case Failure(code) => (t, Refused(code))
    case Success(entry) => (t[entry.job.id := entry], JobCreated(entry.job))
  }

  function Struck(t: Table, principal: Option<Principal>, id: JobId): (Table, Reply) {
    if principal.None? then (t, Refused("auth_required"))
    else if id !in t then (t, Refused("channel_job_not_found"))
    else if t[id].owner != principal.value then (t, Refused("forbidden_channel_job"))
    else (t - {id}, JobCanceled(id))
  }

  class Registry {
    var jobs: Table

    constructor ()
      ensures jobs == map[]
    {
      jobs := map[];
    }

    method Create(principal: Option<Principal>, d: Draft, uuid: JobId, now: nat) returns (r: Reply)
      modifies this
      ensures (jobs, r) == Enrolled(old(jobs), Validated(principal, d, uuid, now))
    {
      if principal.None? {
        return Refused("auth_required");
      }
      var channel := NormalizeChannel(d.channel);
      if channel.None? {
        return Refused("invalid_channel");
      }
      var account := NormalizeComponent(d.account);
      if account.None? {
        return Refused("invalid_channel_route");
      }
      var user := NormalizeComponent(d.user);
      if user.None? {
        return Refused("invalid_channel_route");
      }
      var text := NormalizeComponent(d.text);
      if text.None? {
        return Refused("invalid_channel_message");
      }
      assert InboundRoute(principal.value, AsInbound(d)).Success?;
      if d.interval == 0 {
        return Refused("invalid_channel_job");
      }
      var job := Job(uuid, channel.value, account.value, user.value, text.value, d.interval, d.respond, now);
      jobs := jobs[uuid := Entry(principal.value, job)];
      r := JobCreated(job);
    }

    method Cancel(principal: Option<Principal>, id: JobId) returns (r: Reply)
      modifies this
      ensures (jobs, r) == Struck(old(jobs), principal, id)
    {
      if principal.None? {
        return Refused("auth_required");
      }
      if id !in jobs {
        return Refused("channel_job_not_found");
      }
      if jobs[id].owner != principal.value {
        return Refused("forbidden_channel_job");
      }
      jobs := jobs - {id};
      r := JobCanceled(id);
    }

    /** `order` is the order in which the table happens to be iterated. */
    method List(principal: Option<Principal>, order: seq<JobId>) returns (r: Reply)
      requires Keyed(jobs) && Enumerates(order, jobs)
      ensures principal.None? ==> r == Refused("auth_required")
      ensures principal.Some? ==> r.Jobs? && Listing(jobs, principal.value, r.jobs)
    {
      if principal.None? {
        return Refused("auth_required");
      }
      ghost var p := principal.value;
      BeforeIsStrict();
      var mine: seq<Job> := [];
      for i := 0 to |order|
        invariant Ascending(mine, Before)
        invariant forall job :: job in mine <==> job.id in order[..i] && jobs[job.id] == Entry(p, job)
      {
        assert order[..i + 1] == order[..i] + [order[i]];
        var entry := jobs[order[i]];
        if entry.owner == principal.value {
          AppendsJob(mine, entry.job);
          mine := Insert(mine, entry.job, Before);
        }
      }
      assert order[..|order|] == order;
      r := Jobs(mine);
    }
  }

  // ---------------------------------------------------------------- listing order

  ghost predicate Keyed(t: Table) {
    forall id :: id in t ==> t[id].job.id == id
  }

  ghost predicate Enumerates(order: seq<JobId>, t: Table) {
    && (forall id :: id in order <==> id in t)
    && forall i, j :: 0 <= i < j < |order| ==> order[i] != order[j]
  }

  /** The caller's jobs, oldest first. */
  ghost predicate Listing(t: Table, p: Principal, js: seq<Job>) {
    Ascending(js, Before) && forall job :: job in js <==> job.id in t && t[job.id] == Entry(p, job)
  }

  predicate StrLess(a: string, b: string) {
    b != "" && (a == "" || a[0] < b[0] || (a[0] == b[0] && StrLess(a[1..], b[1..])))
  }

  /** Creation time first, then job id. */
  predicate Before(a: Job, b: Job) {
    a.createdAt < b.createdAt || (a.createdAt == b.createdAt && StrLess(a.id, b.id))
  }

  lemma {:induction false} StrTotal(a: string, b: string)
    ensures !(StrLess(a, b) && StrLess(b, a))
    ensures StrLess(a, b) || a == b || StrLess(b, a)
  {
    if a != "" && b != "" {
      StrTotal(a[1..], b[1..]);
      assert a == [a[0]] + a[1..] && b == [b[0]] + b[1..];
    }
  }

  lemma {:induction false} StrTransitive(a: string, b: string, c: string)
    requires StrLess(a, b) && StrLess(b, c)
    ensures StrLess(a, c)
  {
    if a != "" && b != "" && c != "" && a[0] == b[0] && b[0] == c[0] {
      StrTransitive(a[1..], b[1..], c[1..]);
    }
  }

  lemma BeforeIsOrder(a: Job, b: Job, c: Job)
    ensures !(Before(a, b) && Before(b, a))
    ensures a.id != b.id ==> Before(a, b) || Before(b, a)
    ensures Before(a, b) && Before(b, c) ==> Before(a, c)
  {
    StrTotal(a.id, b.id);
    if StrLess(a.id, b.id) && StrLess(b.id, c.id) {
      StrTransitive(a.id, b.id, c.id);
    }
  }

  lemma AppendsJob(js: seq<Job>, j: Job)
    requires StrictOrder(Before) && Ascending(js, Before) && forall x :: x in js ==> x.id != j.id
    ensures Ascending(Insert(js, j, Before), Before)
    ensures forall x :: x in Insert(js, j, Before) <==> x == j || x in js
  {
    forall x | x in js ensures Before(j, x) || Before(x, j) {
      BeforeIsOrder(j, x, x);
    }
    InsertAscends(js, j, Before);
    InsertHolds(js, j, Before);
  }

  lemma BeforeIsStrict()
    ensures StrictOrder(Before)
  {
    forall a, b ensures Before(a, b) ==> !Before(b, a) {
      BeforeIsOrder(a, b, a);
    }
    forall a, b, c | Before(a, b) && Before(b, c) ensures Before(a, c) {
      BeforeIsOrder(a, b, c);
    }
  }

  /** Main result: a user's listing is determined by the table, so neither the table's iteration order nor
      the sorting routine shows. */
  lemma ListingIsUnique(t: Table, p: Principal, a: seq<Job>, b: seq<Job>)
    requires Listing(t, p, a) && Listing(t, p, b)
    ensures a == b
  {
    BeforeIsStrict();
    AscendingIsUnique(a, b, Before);
  }

  // ---------------------------------------------------------------- interleavings

  /** Created but not yet spawned, looping, out of its loop, gone. */
  datatype Phase = Unspawned | Running | Stopping | Stopped

  datatype Worker = Worker(entry: Entry, phase: Phase, fired: bool)

  /** A tick hands a message to the channel handler as a client of its own. */
  datatype Tick = Tick(id: JobId, conn: Conn, inbound: Inbound)

  /** `firing` are jobs struck from the table whose cancel signal is still to be sent;
      `created`, `cancelled` and `ticks` are history. */
  datatype State = State(
    table: Table,
    workers: map<JobId, Worker>,
    firing: set<JobId>,
    created: Table,
    cancelled: map<JobId, Principal>,
    ticks: seq<Tick>)

  datatype Action =
    | CreateJob(principal: Option<Principal>, draft: Draft, uuid: JobId, now: nat)
    | Spawn(id: JobId)
    | CancelJob(principal: Option<Principal>, id: JobId)
    | Fire(id: JobId)
    | TickJob(id: JobId)
    | Notice(id: JobId)
    | Cleanup(id: JobId)

  const START := State(map[], map[], {}, map[], map[], [])

  predicate InPhase(s: State, id: JobId, phase: Phase) {
    id in s.workers && s.workers[id].phase == phase
  }

  /** A running worker may take either branch of its select once its signal has been sent. */
  predicate Enabled(s: State, x: Action) {
    match x
    case CreateJob(_, _, uuid, _) => uuid !in s.created
    case Spawn(id) => InPhase(s, id, Unspawned)
    case CancelJob(_, _) => true
    case Fire(id) => id in s.firing && id in s.workers
    case TickJob(id) => InPhase(s, id, Running)
    case Notice(id) => InPhase(s, id, Running) && s.workers[id].fired
    case Cleanup(id) => InPhase(s, id, Stopping)
  }

  function Move(s: State, id: JobId, phase: Phase): map<JobId, Worker>
    requires id in s.workers
  {
    s.workers[id := s.workers[id].(phase := phase)]
  }

  function TickOf(e: Entry): Tick {
    Tick(e.job.id, Fresh(false, Some(e.owner)),
         Inbound(e.job.channel, e.job.account, e.job.user, e.job.text, e.job.respond, false))
  }

  function Stored(s: State, asked: Result<Entry, string>): State {
    match asked
    case Failure(_) => s
    case Success(e) =>
      s.(table := Enrolled(s.table, asked).0, created := s.created[e.job.id := e],
         workers := s.workers[e.job.id := Worker(e, Unspawned, false)])
  }

  function Apply(s: State, x: Action): State
    requires Enabled(s, x)
  {
    match x
    case CreateJob(p, d, uuid, now) => Stored(s, Validated(p, d, uuid, now))
    case Spawn(id) => s.(workers := Move(s, id, Running))
    case CancelJob(p, id) =>
      var (table, reply) := Struck(s.table, p, id);
      if reply.JobCanceled? then
        s.(table := table, firing := s.firing + {id}, cancelled := s.cancelled[id := p.value])
      else s
    case Fire(id) => s.(firing := s.firing - {id}, workers := s.workers[id := s.workers[id].(fired := true)])
    case TickJob(id) => s.(ticks := s.ticks + [TickOf(s.workers[id].entry)])
    case Notice(id) => s.(workers := Move(s, id, Stopping))
    case Cleanup(id) => s.(table := s.table - {id}, workers := Move(s, id, Stopped))
  }

  predicate Runnable(s: State, xs: seq<Action>)
    decreases |xs|
  {
    xs == [] || (Enabled(s, xs[0]) && Runnable(Apply(s, xs[0]), xs[1..]))
  }

  function Run(s: State, xs: seq<Action>): State
    requires Runnable(s, xs)
    decreases |xs|
  {
    if xs == [] then s else Run(Apply(s, xs[0]), xs[1..])
  }

  // ---------------------------------------------------------------- the invariant

  /** The jobs created and not cancelled. */
  function Outstanding(s: State): Table {
    map id | id in s.created && id !in s.cancelled :: s.created[id]
  }

  ghost predicate TableExact(s: State) {
    && Keyed(s.created)
    && s.cancelled.Keys <= s.created.Keys
    && s.table == Outstanding(s)
    && forall id :: id in s.cancelled ==> s.cancelled[id] == s.created[id].owner
  }

  /** Every job has the one worker it was created with; a signal is sent, or about to be, exactly for cancelled jobs. */
  ghost predicate WorkersExact(s: State) {
    && s.workers.Keys == s.created.Keys
    && forall id :: id in s.workers ==>
      && s.workers[id].entry == s.created[id]
      && (id in s.cancelled <==> s.workers[id].fired || id in s.firing)
      && !(s.workers[id].fired && id in s.firing)
      && (s.workers[id].phase.Stopping? || s.workers[id].phase.Stopped? ==> s.workers[id].fired)
  }

  ghost predicate TicksOk(s: State) {
    forall i :: 0 <= i < |s.ticks| ==> s.ticks[i].id in s.created && s.ticks[i] == TickOf(s.created[s.ticks[i].id])
  }

  ghost predicate Inv(s: State) {
    TableExact(s) && WorkersExact(s) && TicksOk(s) && s.firing <= s.created.Keys
  }

  lemma ChannelStable(raw: string)
    requires NormalizeChannel(raw).Some?
    ensures var name := NormalizeChannel(raw).value; NormalizeChannel(name) == Some(name)
  {
    LowerIsPointwise(Trim(raw));
    var name := NormalizeChannel(raw).value;
    assert Trim(name) == name;
  }

  lemma ComponentStable(raw: string)
    requires NormalizeComponent(raw).Some?
    ensures var name := NormalizeComponent(raw).value; NormalizeComponent(name) == Some(name)
  {
  }

  /** A job as it is stored: its route and text survive another normalisation. */
  ghost predicate Stable(e: Entry) {
    && NormalizeChannel(e.job.channel) == Some(e.job.channel)
    && NormalizeComponent(e.job.account) == Some(e.job.account)
    && NormalizeComponent(e.job.user) == Some(e.job.user)
    && NormalizeComponent(e.job.text) == Some(e.job.text)
  }

  lemma ValidatedParts(principal: Option<Principal>, d: Draft, uuid: JobId, now: nat)
    requires Validated(principal, d, uuid, now).Success?
    ensures var job := Validated(principal, d, uuid, now).value.job;
      && NormalizeChannel(d.channel) == Some(job.channel)
      && NormalizeComponent(d.account) == Some(job.account)
      && NormalizeComponent(d.user) == Some(job.user)
      && NormalizeComponent(d.text) == Some(job.text)
  {
  }

  /** The job that a request asks for: its parts without the white space around them, the rest as it came. */
  ghost predicate JobOf(d: Draft, uuid: JobId, now: nat, job: Job) {
    && job.id == uuid && job.createdAt == now && job.interval == d.interval && job.respond == d.respond
    && M.Names(d.channel, job.channel) && M.Core(d.account, job.account) && M.Core(d.user, job.user)
    && M.Core(d.text, job.text)
  }

  /** The code of the first part that is refused: channel, route, text, then interval. */
  ghost function DraftRefusal(d: Draft): Option<string> {
    var code := M.Refusal(d.channel, d.account, d.user);
    if code.Some? then code
    else if Blank(d.text) then Some("invalid_channel_message")
    else if d.interval == 0 then Some("invalid_channel_job")
    else None
  }

  /** Main result: what a request for a job does, for every caller, request and table. Without a principal,
      or with a part that is refused, nothing changes and the first such part names the error; otherwise
      exactly the job asked for is stored under its id, for its creator. */
  lemma JobRequested(t: Table, principal: Option<Principal>, d: Draft, uuid: JobId, now: nat)
    ensures principal.None? ==>
      Enrolled(t, Validated(principal, d, uuid, now)) == (t, Refused("auth_required"))
    ensures principal.Some? ==>
      var (t', reply) := Enrolled(t, Validated(principal, d, uuid, now));
      match DraftRefusal(d)
      case Some(code) => t' == t && reply == Refused(code)
      case None =>
        && reply.JobCreated? && JobOf(d, uuid, now, reply.job)
        && t' == t[uuid := Entry(principal.value, reply.job)]
  {
    if principal.Some? {
      M.InboundRouteIs(principal.value, AsInbound(d));
      if Validated(principal, d, uuid, now).Success? {
        ValidatedParts(principal, d, uuid, now);
        M.CoreIs(d.text, Validated(principal, d, uuid, now).value.job.text);
      }
    }
  }

  lemma ValidatedIsStable(principal: Option<Principal>, d: Draft, uuid: JobId, now: nat)
    requires Validated(principal, d, uuid, now).Success?
    ensures Stable(Validated(principal, d, uuid, now).value)
  {
    var e := Validated(principal, d, uuid, now).value;
    ValidatedParts(principal, d, uuid, now);
    PartsAreStable(d, e);
  }

  lemma PartsAreStable(d: Draft, e: Entry)
    requires NormalizeChannel(d.channel) == Some(e.job.channel)
    requires NormalizeComponent(d.account) == Some(e.job.account)
    requires NormalizeComponent(d.user) == Some(e.job.user)
    requires NormalizeComponent(d.text) == Some(e.job.text)
    ensures Stable(e)
  {
    ChannelStable(d.channel);
    ComponentStable(d.account);
    ComponentStable(d.user);
    ComponentStable(d.text);
  }

  lemma StoredKeepsTable(s: State, asked: Result<Entry, string>)
    requires Inv(s) && (asked.Success? ==> asked.value.job.id !in s.created)
    ensures TableExact(Stored(s, asked))
  {
  }

  lemma StoredKeepsWorkers(s: State, asked: Result<Entry, string>)
    requires Inv(s) && (asked.Success? ==> asked.value.job.id !in s.created)
    ensures WorkersExact(Stored(s, asked))
  {
  }

  lemma StoredKeepsTicks(s: State, asked: Result<Entry, string>)
    requires Inv(s) && (asked.Success? ==> asked.value.job.id !in s.created)
    ensures TicksOk(Stored(s, asked))
  {
  }

  lemma StoredKeepsInv(s: State, asked: Result<Entry, string>)
    requires Inv(s) && (asked.Success? ==> asked.value.job.id !in s.created)
    ensures Inv(Stored(s, asked))
  {
    StoredKeepsTable(s, asked);
    StoredKeepsWorkers(s, asked);
    StoredKeepsTicks(s, asked);
  }

  lemma CancelKeepsInv(s: State, x: Action)
    requires Inv(s) && x.CancelJob?
    ensures Inv(Apply(s, x))
  {
    var s' := Apply(s, x);
    if s' != s {
      assert TableExact(s');
      assert WorkersExact(s');
    }
  }

  lemma WorkerKeepsWorkers(s: State, x: Action)
    requires Inv(s) && Enabled(s, x) && !x.CreateJob? && !x.CancelJob?
    ensures WorkersExact(Apply(s, x))
  {
  }

  lemma WorkerKeepsInv(s: State, x: Action)
    requires Inv(s) && Enabled(s, x) && !x.CreateJob? && !x.CancelJob?
    ensures Inv(Apply(s, x)) && Apply(s, x).table == s.table
  {
    var s' := Apply(s, x);
    assert s'.created == s.created && s'.cancelled == s.cancelled && s'.table == s.table;
    WorkerKeepsWorkers(s, x);
  }

  lemma {:induction false} RunKeepsInv(s: State, xs: seq<Action>)
    requires Inv(s) && Runnable(s, xs)
    ensures Inv(Run(s, xs))
    decreases |xs|
  {
    if xs != [] {
      var x := xs[0];
      if x.CreateJob? {
        StoredKeepsInv(s, Validated(x.principal, x.draft, x.uuid, x.now));
      } else if x.CancelJob? {
        CancelKeepsInv(s, x);
      } else {
        WorkerKeepsInv(s, x);
      }
      RunKeepsInv(Apply(s, x), xs[1..]);
    }
  }

  ghost predicate AllStable(t: Table) {
    forall id :: id in t ==> Stable(t[id])
  }

  lemma StoredStaysStable(s: State, asked: Result<Entry, string>)
    requires AllStable(s.created) && (asked.Success? ==> Stable(asked.value))
    ensures AllStable(Stored(s, asked).created)
  {
  }

  lemma OthersCreateNothing(s: State, x: Action)
    requires Enabled(s, x) && !x.CreateJob?
    ensures Apply(s, x).created == s.created
  {
  }

  lemma ApplyKeepsStable(s: State, x: Action)
    requires AllStable(s.created) && Enabled(s, x)
    ensures AllStable(Apply(s, x).created)
  {
    if x.CreateJob? {
      var asked := Validated(x.principal, x.draft, x.uuid, x.now);
      if asked.Success? {
        ValidatedIsStable(x.principal, x.draft, x.uuid, x.now);
      }
      StoredStaysStable(s, asked);
    } else {
      OthersCreateNothing(s, x);
    }
  }

  lemma {:induction false} JobsStayStable(s: State, xs: seq<Action>)
    requires AllStable(s.created) && Runnable(s, xs)
    ensures AllStable(Run(s, xs).created)
    decreases |xs|
  {
    if xs != [] {
      ApplyKeepsStable(s, xs[0]);
      JobsStayStable(Apply(s, xs[0]), xs[1..]);
    }
  }

  /** A tick's message passes validation and addresses the job's own route. */
  lemma StableRoute(e: Entry)
    requires Stable(e)
    ensures InboundRoute(e.owner, TickOf(e).inbound) ==
      Success(RouteKey(e.owner, e.job.channel, e.job.account, e.job.user))
  {
  }

  // ---------------------------------------------------------------- main results

  /** Main result: in every interleaving the registry is exactly the created jobs not cancelled, only
      the creator ever cancelled a job, every registered job's worker is up with its signal unsent, and
      every cancelled job's signal is sent or about to be. */
  lemma RegistryIsExact(xs: seq<Action>)
    requires Runnable(START, xs)
    ensures var s := Run(START, xs);
      && s.table == Outstanding(s)
      && (forall id :: id in s.cancelled ==> id in s.created && s.cancelled[id] == s.created[id].owner)
      && (forall id :: id in s.table ==>
        && id in s.workers && s.workers[id].entry == s.table[id] && !s.workers[id].fired
        && (s.workers[id].phase.Unspawned? || s.workers[id].phase.Running?))
      && (forall id :: id in s.cancelled ==> id in s.firing || (id in s.workers && s.workers[id].fired))
  {
    RunKeepsInv(START, xs);
  }

  /** Main result: a worker's own cleanup finds its job gone already and never removes another. */
  lemma CleanupRemovesNothing(xs: seq<Action>, id: JobId)
    requires Runnable(START, xs) && Enabled(Run(START, xs), Cleanup(id))
    ensures var s := Run(START, xs); id !in s.table && Apply(s, Cleanup(id)).table == s.table
  {
    RunKeepsInv(START, xs);
  }

  /** The tick is a fresh client that has proved only its job's creator, and its message starts the
      channel handler on the creator's own route. */
  ghost predicate ActsAsCreator(t: Tick, e: Entry) {
    && t.conn == Conn(false, true, Some(e.owner), {}, {e.owner})
    && t.inbound == Inbound(e.job.channel, e.job.account, e.job.user, e.job.text, e.job.respond, false)
    && var key := RouteKey(e.owner, e.job.channel, e.job.account, e.job.user);
      Steps.Begin(Steps.Actor(t.conn, Steps.Idle, NoReply), Route(t.inbound)).pc
        == Steps.RouteLookup(Steps.Ticket(key, e.job.text, e.job.respond, false))
  }

  lemma StableActs(e: Entry)
    requires Stable(e)
    ensures ActsAsCreator(TickOf(e), e)
  {
    StableRoute(e);
  }

  /** Main result: every tick of every run sends its created job's text as a fresh client of the job's
      creator, passes the channel handler's validation and starts on the creator's own route, without
      forcing a new session. */
  lemma TicksActAsCreator(xs: seq<Action>, i: nat)
    requires Runnable(START, xs) && i < |Run(START, xs).ticks|
    ensures var s := Run(START, xs);
      s.ticks[i].id in s.created && ActsAsCreator(s.ticks[i], s.created[s.ticks[i].id])
  {
    RunKeepsInv(START, xs);
    JobsStayStable(START, xs);
    var s := Run(START, xs);
    StableActs(s.created[s.ticks[i].id]);
  }

  /** What a cancel answers in any reachable state, for every caller and job id. */
  lemma CancelAnswers(xs: seq<Action>, p: Principal, id: JobId)
    requires Runnable(START, xs)
    ensures var s := Run(START, xs);
      var reply := Struck(s.table, Some(p), id).1;
      && (reply == JobCanceled(id) <==> id in s.created && id !in s.cancelled && s.created[id].owner == p)
      && (reply == Refused("forbidden_channel_job") <==>
        id in s.created && id !in s.cancelled && s.created[id].owner != p)
      && (reply == Refused("channel_job_not_found") <==> id !in s.created || id in s.cancelled)
  {
    RunKeepsInv(START, xs);
  }

  ghost predicate OutOfLoop(s: State, id: JobId) {
    id in s.created && id in s.workers && (s.workers[id].phase.Stopping? || s.workers[id].phase.Stopped?)
  }

  lemma StaysOutOfLoop(s: State, x: Action, id: JobId)
    requires OutOfLoop(s, id) && Enabled(s, x)
    ensures x != TickJob(id) && x != Spawn(id) && OutOfLoop(Apply(s, x), id)
  {
  }

  /** A worker that has left its loop stays out of it: whatever runs next, its ticks are over. */
  lemma {:induction false} StoppedForGood(s: State, xs: seq<Action>, id: JobId)
    requires OutOfLoop(s, id) && Runnable(s, xs)
    ensures TickJob(id) !in xs && Spawn(id) !in xs
    decreases |xs|
  {
    if xs != [] {
      StaysOutOfLoop(s, xs[0], id);
      StoppedForGood(Apply(s, xs[0]), xs[1..], id);
      assert xs == [xs[0]] + xs[1..];
    }
  }

  /** Some continuation has the job's worker tick. */
  ghost predicate CanTick(s: State, id: JobId) {
    exists xs :: Runnable(s, xs) && TickJob(id) in xs
  }

  lemma LoopingCanTick(s: State, id: JobId)
    requires InPhase(s, id, Unspawned) || InPhase(s, id, Running)
    ensures CanTick(s, id)
  {
    var tick := [TickJob(id)];
    if InPhase(s, id, Running) {
      assert Runnable(s, tick) && TickJob(id) in tick;
    } else {
      var xs := [Spawn(id)] + tick;
      var s1 := Apply(s, xs[0]);
      assert xs[1..] == tick && Enabled(s1, TickJob(id)) && Runnable(s1, tick);
      assert Runnable(s, xs) && xs[1] == TickJob(id);
    }
  }

  /** Main result: in every reachable state a created job may tick again exactly if its worker has not
      left its loop; neither the table nor the signal matters. */
  lemma TicksAgainIffInLoop(xs: seq<Action>, id: JobId)
    requires Runnable(START, xs) && id in Run(START, xs).created
    ensures CanTick(Run(START, xs), id) <==> !OutOfLoop(Run(START, xs), id)
  {
    var s := Run(START, xs);
    RunKeepsInv(START, xs);
    if OutOfLoop(s, id) {
      forall ys | Runnable(s, ys) ensures TickJob(id) !in ys {
        StoppedForGood(s, ys, id);
      }
    } else {
      LoopingCanTick(s, id);
    }
  }

  /** So no successful cancel, in any reachable state, stops the ticks: the job may tick again both
      right after the cancel and after its signal was sent. */
  lemma TickAfterCancel(xs: seq<Action>, p: Principal, id: JobId)
    requires Runnable(START, xs) && Struck(Run(START, xs).table, Some(p), id).1 == JobCanceled(id)
    ensures var cancelled := Apply(Run(START, xs), CancelJob(Some(p), id));
      CanTick(cancelled, id) && Enabled(cancelled, Fire(id)) && CanTick(Apply(cancelled, Fire(id)), id)
  {
    RunKeepsInv(START, xs);
    var cancelled := Apply(Run(START, xs), CancelJob(Some(p), id));
    LoopingCanTick(cancelled, id);
    LoopingCanTick(Apply(cancelled, Fire(id)), id);
  }

  // ---------------------------------------------------------------- the life of a job

  lemma {:induction false} RunsOn(s: State, xs: seq<Action>, x: Action)
    requires Runnable(s, xs) && Enabled(Run(s, xs), x)
    ensures Runnable(s, xs + [x]) && Run(s, xs + [x]) == Apply(Run(s, xs), x)
    decreases |xs|
  {
    if xs == [] {
      assert [] + [x] == [x] && [x][1..] == [];
    } else {
      RunsOn(Apply(s, xs[0]), xs[1..], x);
      assert (xs + [x])[1..] == xs[1..] + [x];
    }
  }

  /** One more action of a run. */
  lemma {:induction false} Acts(s: State, xs: seq<Action>, x: Action) returns (ys: seq<Action>)
    requires Runnable(s, xs) && Enabled(Run(s, xs), x)
    ensures ys == xs + [x] && Runnable(s, ys) && Run(s, ys) == Apply(Run(s, xs), x)
  {
    RunsOn(s, xs, x);
    ys := xs + [x];
  }

  function Repeated(t: Tick, n: nat): (r: seq<Tick>)
    ensures |r| == n && forall i :: 0 <= i < n ==> r[i] == t
  {
    if n == 0 then [] else Repeated(t, n - 1) + [t]
  }

  /** The tick of a job of `p`, part by part. */
  function CreatorsTick(p: Principal, job: Job): Tick {
    Tick(job.id, Conn(false, true, Some(p), {}, {p}),
         Inbound(job.channel, job.account, job.user, job.text, job.respond, false))
  }

  /** A job of `p`, and what its worker has done: ticked, and come to this phase. */
  ghost predicate Lives(s: State, p: Principal, job: Job, ticks: nat, phase: Phase, fired: bool) {
    && s.workers == map[job.id := Worker(Entry(p, job), phase, fired)] && s.created == map[job.id := Entry(p, job)]
    && s.ticks == Repeated(CreatorsTick(p, job), ticks)
  }

  /** The only job of the registry, not cancelled. */
  predicate Registered(s: State, p: Principal, job: Job) {
    s.table == map[job.id := Entry(p, job)] && s.firing == {} && s.cancelled == map[]
  }

  lemma {:induction false} ValidJob(p: Principal, d: Draft, uuid: JobId, now: nat) returns (job: Job)
    requires DraftRefusal(d).None?
    ensures JobOf(d, uuid, now, job) && Validated(Some(p), d, uuid, now) == Success(Entry(p, job))
  {
    JobRequested(map[], Some(p), d, uuid, now);
    job := Validated(Some(p), d, uuid, now).value.job;
  }

  lemma {:induction false} FirstStored(p: Principal, job: Job)
    ensures var e := Entry(p, job);
      Stored(START, Success(e)) ==
        State(map[job.id := e], map[job.id := Worker(e, Unspawned, false)], {}, map[job.id := e], map[], [])
  {
  }

  lemma {:induction false} Starts(p: Principal, d: Draft, uuid: JobId, now: nat)
    returns (xs: seq<Action>, job: Job)
    requires DraftRefusal(d).None?
    ensures JobOf(d, uuid, now, job) && Runnable(START, xs)
    ensures Lives(Run(START, xs), p, job, 0, Running, false) && Registered(Run(START, xs), p, job)
  {
    job := ValidJob(p, d, uuid, now);
    FirstStored(p, job);
    xs := Acts(START, [], CreateJob(Some(p), d, uuid, now));
    xs := Acts(START, xs, Spawn(uuid));
  }

  lemma {:induction false} TicksOn(xs: seq<Action>, p: Principal, job: Job, n: nat) returns (ys: seq<Action>)
    requires Runnable(START, xs)
    requires Lives(Run(START, xs), p, job, 0, Running, false) && Registered(Run(START, xs), p, job)
    ensures Runnable(START, ys)
    ensures Lives(Run(START, ys), p, job, n, Running, false) && Registered(Run(START, ys), p, job)
  {
    ys := xs;
    if n > 0 {
      ys := TicksOn(xs, p, job, n - 1);
      ys := Acts(START, ys, TickJob(job.id));
    }
  }

  /** Main result: every valid request leads to a job whose worker starts and can tick any number of times for
      its creator; its cancel takes it off the registry, and once the signal is sent the worker leaves its
      loop and cleans up. */
  lemma {:induction false} JobRuns(p: Principal, d: Draft, uuid: JobId, now: nat, n: nat)
    returns (xs: seq<Action>, job: Job, ys: seq<Action>)
    requires DraftRefusal(d).None?
    ensures JobOf(d, uuid, now, job) && Runnable(START, xs)
    ensures Lives(Run(START, xs), p, job, n, Running, false) && Registered(Run(START, xs), p, job)
    ensures ys == xs + [CancelJob(Some(p), uuid), Fire(uuid), Notice(uuid), Cleanup(uuid)] && Runnable(START, ys)
    ensures Lives(Run(START, ys), p, job, n, Stopped, true)
    ensures Run(START, ys).table == map[] && Run(START, ys).firing == {} && Run(START, ys).cancelled == map[uuid := p]
  {
    xs, job := Starts(p, d, uuid, now);
    xs := TicksOn(xs, p, job, n);
    ys := Ends(xs, p, job, n);
  }

  lemma {:induction false} Ends(xs: seq<Action>, p: Principal, job: Job, n: nat) returns (ys: seq<Action>)
    requires Runnable(START, xs)
    requires Lives(Run(START, xs), p, job, n, Running, false) && Registered(Run(START, xs), p, job)
    ensures ys == xs + [CancelJob(Some(p), job.id), Fire(job.id), Notice(job.id), Cleanup(job.id)]
    ensures Runnable(START, ys) && Lives(Run(START, ys), p, job, n, Stopped, true)
    ensures Run(START, ys).table == map[] && Run(START, ys).firing == {}
    ensures Run(START, ys).cancelled == map[job.id := p]
  {
    ys := Acts(START, xs, CancelJob(Some(p), job.id));
    ys := Acts(START, ys, Fire(job.id));
    ys := Acts(START, ys, Notice(job.id));
    ys := Acts(START, ys, Cleanup(job.id));
  }
}
