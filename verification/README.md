# LiveClaw core, modelled and proved in Dafny

LiveClaw connects realtime voice and text sessions of an AI provider to WebSocket clients and chat channels. This
project models the parts of it that keep state over unbounded runs and proves what they promise. It stands beside the
Rust sources; paths below are relative to the repository root. `dafny verify dfyconfig.toml` verifies everything.

## What is modelled

**Gateway** (`liveclaw-gateway/src/server.rs`). Sessions, channel routes and the outbox live in maps with a lock each.
The model has two granularities. `Gateway` is the server as a class whose methods are whole handlers, each proved equal
to a function of `GatewayState`; `GatewayAtomic` proves what runs of whole handlers keep: route tables that are exact
inverses, routes owned by their principal, an outbox keyed by live routes, agreement with the runner. `GatewaySteps`
splits the same handlers at every lock acquisition and runner call and lets any number of clients interleave;
`GatewayIsolation` proves owner isolation and agreement with the runner there, `OutboxHistory` conservation of queued
output, `GatewayRefinement` that an uninterrupted handler is the whole-handler function, `GatewayRace` that the
inverse property itself does not survive interleaving, and `GatewaySerial` when it does, principal by principal.
`GatewayMessages` and `GatewayCommands` tell from the raw request what each message does, and `GatewaySenders` whose
output is pushed where. `ChannelJobs` adds the job registry with its worker tasks.

**Docker worker bridge** (`liveclaw-app/src/main.rs`). `DockerWire` is one connection as a pipeline of queues,
`DockerBridge` the callers, closes, timeouts and reader around any number of connections, `DockerAnswers` how a
waiting caller can end, and `DockerLives` whole lives of connections, commands and closes.

**Rate limiter** (`liveclaw-app/src/security.rs`). `RateLimiter` has the object and the optimistic counter as a pool of
threads interleaves it, with 32-bit wrap-around and the readers-writer lock.

**Pairing guard** (`liveclaw-gateway/src/pairing.rs`). `Pairing` has the timed lockout and the rate at which codes can
be guessed by calls that do not overlap, and token verification through digest, hex encoding and the accumulating
comparison. `PairingThreads` splits a call at every lock and atomic operation for a pool of threads, and
`PairingCalls` proves there what undisturbed calls do and which tokens are accepted.

**Transcript memory, reconnecting, durable stores** (`liveclaw-app/src/main.rs`, `liveclaw-app/src/storage.rs`).
`Compaction` and `Snapshot` are the two memory paths, `Reconnect` the backoff and the runtime loops of all sessions,
`MemoryStore` the memory service with its file, `Artifacts` the versioned artifact store.

**Base64** (`liveclaw-gateway/src/server.rs`, the encoder again in `liveclaw-app/src/main.rs`). `Base64` specifies
section 4 of RFC 4648 bit by bit, `Base64Codec` proves the shifting loops against it, `Base64Laws` the round trips.

`Prelude`, `Sorting`, `Counting`, `Utf8` and `Transcript` hold shared vocabulary.

Interleaved machines are state machines over values, one step per lock, channel or atomic operation; code that runs on
its own is written as classes and loops. What the environment decides (uuids, clock readings, runner results, shutdown
flags, hash-map iteration order, I/O failures) is a parameter of the step. Uuids are fresh; the token digest is an
arbitrary function.

## Where properties fail

- The route tables are inverse between whole handlers, not under interleaving: `GatewayRace.RaceBreaksInverse`. A
  principal's part of them is as long as channel messages and terminations of its own clients do not overlap, a job's
  ticks counting as a client: `GatewaySerial.PartInverse`. Exactly principals with a single client need no such care:
  `InverseIffOneClient`, and for all principals together `TablesInverseIffOneClientEach`.
- Pairing promises m guesses per lockout, no token while locked and a lockout that lasts. Each holds in every
  interleaving exactly for a pool of at most one thread: `PairingThreads.LimitHoldsIffSolo`, `NoTokenWhileLockedIffSolo`
  and `LockoutNeverShortensIffSolo`. Two calls that both find no lockout before either compares make m + 1 guesses at
  one instant; `GuessesPerStretch` bounds larger pools, and `ManyGuessesPerStretch` shows that order to be reached.
- With calm resets the rate limit holds exactly if limit plus thread pool fits into 32 bits:
  `RateLimiter.LimitHoldsIffPoolFits`. The first call of a session is admitted even with limit zero.
- A reset is calm, and the limit exact from there on, exactly if no call of its session is about to undo:
  `RateLimiter.ResetIsExactIffCalm`. A late undo blocks the session or lets one call too many through.
- A job may tick after it was cancelled, as long as its worker has not left its loop: `ChannelJobs.TicksAgainIffInLoop`.
- The bridge's reader means to fail its waiters when it ends but clears the connection first:
  `DockerBridge.ReaderExitFailsNobody`. They end by timeout, or as abandoned if a close holds their connection:
  `DockerAnswers.LeftWaiterEnds`.
- A snapshot forgets what is neither later than the latest summary's end nor in that summary:
  `Snapshot.RecalledIffKept`. An event at the very instant a batch ends but not in the batch is lost:
  `Snapshot.LosingLogLoses`.
- Cutting a summary at 4,096 bytes panics inside a character: `Compaction.PushPanicsIff`,
  `Snapshot.SummarizePanicsIff`. The entry list then keeps growing, and stays bounded exactly as long as no push panics:
  `Compaction.BoundedIffNeverPanics`, with a history that panics in `Compaction.SomePushPanics`.
- A default save can replace a stored part, or get a version below one that is there. `Artifacts.DefaultSaveReplacesIff`
  and `DefaultSaveExceedsIff` say exactly when: if another save came between its reading and its writing, as in
  `OverlappingSavesCollide`, or once the greatest 64-bit version is taken: `NextIsGreatest`, `GreatestWraps`.
- Backoff stops doubling after attempt 16 if the cap is not reached by then: `Reconnect.BackoffDoubles`, as in
  `Reconnect.DoublingStops`.
- The Base64 decoder accepts texts that are not canonical: `Base64Laws.ReencodesIffCanonical` says which, and
  `Base64Laws.SpellingsOfOneByte` has two.
- A memory table with an empty inner map would not survive a restart: `MemoryStore.LoadRestores`. It never arises.

## Model

| member | source | states |
|---|---|---|
| `Prelude.TrimCuts` | liveclaw-gateway/src/server.rs:2110-2117 | Trimming removes white space at the two ends and nothing else |
| `Prelude.WhiteSpaceSpelled` | liveclaw-gateway/src/server.rs:2110-2117 | White space is the 25 code points of the Unicode property White_Space |
| `Prelude.LowerIs` | liveclaw-gateway/src/server.rs:2098-2099 | Lower-casing adds 32 to the ASCII capitals and changes nothing else |
| `GatewayState.NormalizeChannel` | liveclaw-gateway/src/server.rs:2098-2108 | An accepted channel name is one of the six supported ones |
| `GatewayState.ChannelAccepted` | liveclaw-gateway/src/server.rs:2098-2108 | A channel is accepted under a supported name exactly if it is that name up to ASCII case with only white space around it |
| `GatewayState.ComponentAccepted` | liveclaw-gateway/src/server.rs:2110-2117 | A route component is accepted exactly if it is not blank, and then without the white space around it |
| `GatewayState.BoundedMaxItems` | liveclaw-gateway/src/server.rs:2119-2121 | A batch is 50 items unless asked otherwise, and otherwise the number between 1 and 500 nearest to the one asked for |
| `Gateway.Connection.Prove` | liveclaw-gateway/src/server.rs:1721-1771 | Pairing or authenticating sets the client's principal and leaves its session cache as it is |
| `Gateway.Server.CreateSession` | liveclaw-gateway/src/server.rs:1785-1838 | Creating a session lists the runner's new session under the caller and binds its senders; a runner failure changes nothing |
| `GatewayCommands.CreateLists` | liveclaw-gateway/src/server.rs:1785-1838 | With coherent tables a creation fails without a trace, or its session lives, is listed for the caller and sends its output there |
| `Gateway.Server.AuthorizeSessionAccess` | liveclaw-gateway/src/server.rs:2874-2936 | The whole effect of an authorisation: cache hit, unknown session, other owner, or own session |
| `Gateway.Server.RetainOtherRoutes` | liveclaw-gateway/src/server.rs:1861-1870 | The retain loop removes exactly the routes to the session and reports their keys |
| `Gateway.Server.TerminateSession` | liveclaw-gateway/src/server.rs:1843-1900 | Everything a termination removes, also when the runner then reports an error |
| `GatewayCommands.TerminateForgets` | liveclaw-gateway/src/server.rs:1843-1900 | A granted termination leaves no trace of the session in tables or cache, touches nothing else, and is reported done exactly if the session lived |
| `Gateway.Server.OperateSession` | liveclaw-gateway/src/server.rs:1947-2003 | A session command authorises first and reaches the runner only if granted |
| `GatewayCommands.CommandRefused` | liveclaw-gateway/src/server.rs:2874-2936 | With coherent tables a command on a session is refused, changing nothing, exactly if the client has not logged in, or has not cached the session and it does not live or is another's |
| `GatewayCommands.CommandReachesRunner` | liveclaw-gateway/src/server.rs:1947-2003 | Otherwise the session is cached, its output goes to this client, and the command succeeds exactly if the session lives and the runner's call does |
| `Gateway.Server.TearDownForRecreate` | liveclaw-gateway/src/server.rs:2601-2641 | Everything a forced recreation removes for the old session and its route |
| `Gateway.Server.RouteInbound` | liveclaw-gateway/src/server.rs:2595-2709 | A channel message reuses, recreates or creates the route's session, in the source's branch order |
| `Gateway.Server.ChannelInbound` | liveclaw-gateway/src/server.rs:2552-2746 | The channel handler with its validation, one error code per refused part |
| `GatewayMessages.MessageHandled` | liveclaw-gateway/src/server.rs:2552-2746 | What a channel message does, from the raw request: the first blank or unsupported part names the error and nothing changes; otherwise the handler routes to the one route of the client's principal that the parts address, whatever white space surrounds them |
| `GatewayMessages.PollHandled` | liveclaw-gateway/src/server.rs:2131-2211 | The same for a poll, which hands over the front of that route's queue, keeps the rest and touches nothing else |
| `GatewayMessages.MessageBegins` | liveclaw-gateway/src/server.rs:2560-2594 | The same for the handler split at its locks: refused at once with the same codes, or started with the addressed route and the trimmed text |
| `GatewayMessages.RunnerHearsWhatWasSent` | liveclaw-gateway/src/server.rs:2560-2744 | In every interleaving, what a channel message has the runner do was asked for by a message then: its text without the white space around it, for the route it addresses |
| `GatewayMessages.AnswersWereEarned` | liveclaw-gateway/src/server.rs:1843-2744 | In every interleaving a client is told that a message, command or termination was done only if the runner was called for that route and session |
| `GatewayMessages.OutputIsPushed` | liveclaw-gateway/src/server.rs:1484-1493 | A session's output goes to the client its sender points at, and to nobody without one |
| `Gateway.Server.DrainOutbox` | liveclaw-gateway/src/server.rs:2131-2178 | A poll hands over the first items of its own route's queue and removes an emptied queue |
| `Gateway.Server.QueueTranscript` | liveclaw-gateway/src/server.rs:2408-2438 | Only final, non-blank text of a routed session is queued, at the end of its route's queue |
| `GatewayCommands.TranscriptQueued` | liveclaw-gateway/src/server.rs:2408-2438 | A transcript goes, trimmed, to the end of its route's queue exactly if it is final, says something and its session has a route |
| `Gateway.Server.HandleMessage` | liveclaw-gateway/src/server.rs:1506-1700 | Every session message is refused before authentication; the rest does what its handler does |
| `Gateway.Server.CloseSocket` | liveclaw-gateway/src/server.rs:1484-1493 | Closing a socket removes the senders of every session in its cache |
| `GatewaySenders.SendersAreCached` | liveclaw-gateway/src/server.rs:1484-1493 | In every interleaving, output is pushed to an idle client only for sessions it has cached |
| `GatewaySenders.LeaverStaysSilent` | liveclaw-gateway/src/server.rs:1484-1493 | In every interleaving a client that has left is no session's sender, then or later, and is refused whatever it sends, unless it logs in anew |
| `GatewaySenders.LoginReplaces` | liveclaw-gateway/src/server.rs:1721-1771 | After a login the client's next message is handled for the principal proved last, with the cache it had |
| `GatewayAtomic.HandledKeeps` | liveclaw-gateway/src/server.rs:1785-2178 | Each whole handler keeps the route tables inverse, routes owned, the outbox routed and the owner table equal to the runner's |
| `GatewayAtomic.OpKeepsCoherent` | liveclaw-gateway/src/server.rs:1721-2440 | So do pairing, transcripts and socket closes, for all connections together |
| `GatewayAtomic.RunsStayCoherent` | liveclaw-gateway/src/server.rs:1721-2711 | Over every run of whole handlers the tables stay coherent |
| `GatewayAtomic.RunsFromStart` | liveclaw-gateway/src/server.rs:1721-2711 | Every run of whole handlers from empty tables ends with inverse, owned route tables, a routed outbox and the runner's sessions |
| `GatewayAtomic.RoutedToOwnSession` | liveclaw-gateway/src/server.rs:2595-2744 | With whole handlers the stale-route branch is never taken and the inner authorisation never fails: the message settles with a live session of the caller bound to the route both ways |
| `GatewayAtomic.ForceForgets` | liveclaw-gateway/src/server.rs:2601-2641 | A forced message leaves no trace of the session it replaced in any shared table, push senders included; only session caches keep its id |
| `GatewayAtomic.RouteIsSticky` | liveclaw-gateway/src/server.rs:2643-2653 | The next unforced message for a bound route reaches the same session from any connection of the principal |
| `GatewayAtomic.OthersUntouched` | liveclaw-gateway/src/server.rs:1843-2178 | A client changes no route and no queue of a principal it never authenticated as |
| `GatewayIsolation.StepIsOk` | liveclaw-gateway/src/server.rs:1785-2744 | Every single lock or runner step of every handler keeps the owner invariant and disturbs no other handler's knowledge |
| `GatewayIsolation.RunKeepsInv` | liveclaw-gateway/src/server.rs:1412-2744 | The owner invariant holds in every interleaving of all clients' steps |
| `GatewayIsolation.RoutesStayWithTheirOwner` | liveclaw-gateway/src/server.rs:2588-2711 | In every interleaving each route, reverse entry and queued item names a session whose only owner ever is the key's principal |
| `GatewayIsolation.EffectsStayWithTheirOwner` | liveclaw-gateway/src/server.rs:2157-2176 | Polls return only text of the poller's sessions, channel sends reach only the sender's sessions, runner calls and pushed output stay with principals the client has proved |
| `GatewayIsolation.CachesStaySound` | liveclaw-gateway/src/server.rs:2874-2936 | A session cache holds only sessions of proved principals, through re-authentication and other clients' terminations; authenticated clients have a principal |
| `GatewayIsolation.GatewayAgreesWithRunner` | liveclaw-app/src/main.rs:2230-2268 | The gateway never lists a session the runner lacks, and with no handler in flight the two tables are equal |
| `GatewayIsolation.OwnersAreForever` | liveclaw-gateway/src/server.rs:1798-1808 | The owner recorded for a session never changes |
| `GatewayRefinement.SoloIsHandled` | liveclaw-gateway/src/server.rs:1785-2744 | A handler stepped without interruption does to tables, client and reply exactly what the whole-handler model says |
| `GatewayRefinement.TranscriptIsTranscribed` | liveclaw-gateway/src/server.rs:2408-2438 | The same for queueing a transcript |
| `GatewayRace.RaceBreaksInverse` | liveclaw-gateway/src/server.rs:2595-2701 | For every valid message two clients sending it at once can end answered and idle with route tables that are not inverse |
| `GatewaySerial.PartInverse` | liveclaw-gateway/src/server.rs:1843-2744 | While channel messages and terminations of the clients that proved a principal do not overlap, its routes and reverse entries are inverse whenever no such client is inside one, in every interleaving and whatever the clients of other principals do |
| `GatewaySerial.InverseIffOneClient` | liveclaw-gateway/src/server.rs:1843-2744 | For every principal: its part of the tables is inverse at rest in every run in which at most n clients ever prove it, if and only if n is at most one |
| `GatewaySerial.TablesInverse` | liveclaw-gateway/src/server.rs:1843-2744 | If that holds of every principal, the whole route tables are inverse whenever no channel message and no termination is in flight |
| `GatewaySerial.TablesInverseIffOneClientEach` | liveclaw-gateway/src/server.rs:1843-2744 | The whole tables are inverse at rest in every run in which at most n clients ever prove any one principal, if and only if n is at most one |
| `OutboxHistory.RunTraces` | liveclaw-gateway/src/server.rs:2131-2440 | Outbox and poll history of a run are those of its enqueue, drain and discard operations |
| `OutboxHistory.Conserved` | liveclaw-gateway/src/server.rs:2163-2176 | Without a discard, queued before plus enqueued equals delivered plus queued after, in order |
| `OutboxHistory.NeverReordered` | liveclaw-gateway/src/server.rs:2163-2176 | In any case what is delivered and left is an in-order part of what was queued |
| `OutboxHistory.EnqueuedOnce` | liveclaw-gateway/src/server.rs:2408-2438 | No item is queued twice, in any interleaving |
| `OutboxHistory.PolledInOrder` | liveclaw-gateway/src/server.rs:2131-2440 | Over every interleaving polls get an in-order, duplicate-free part of a route's items, and all of them but the waiting ones if nothing was discarded |
| `OutboxHistory.PollsToEmpty` | liveclaw-gateway/src/server.rs:2119-2178 | Polling empties a queue of L items after exactly ceil(L/n) polls, n the clamped batch size |
| `ChannelJobs.Registry.Create` | liveclaw-gateway/src/server.rs:2213-2281 | A job is stored exactly if every part of the request is valid, with normalised parts; otherwise the first refused part names the error |
| `ChannelJobs.JobRequested` | liveclaw-gateway/src/server.rs:2213-2281 | What a request for a job does, from the raw request: the first refused part names the error and nothing changes; otherwise exactly the job asked for, its parts trimmed, is stored under its id for its creator |
| `ChannelJobs.Registry.Cancel` | liveclaw-gateway/src/server.rs:2346-2385 | Only the owner removes a job; unknown and foreign jobs are told apart |
| `ChannelJobs.Registry.List` | liveclaw-gateway/src/server.rs:2387-2406 | The listing is the caller's jobs and no others, ascending by creation time and id, for any table iteration order |
| `ChannelJobs.ListingIsUnique` | liveclaw-gateway/src/server.rs:2400-2404 | Such a listing is determined by the table |
| `Sorting.InsertAscends` | liveclaw-gateway/src/server.rs:2400-2404 | Inserting into an ascending sequence keeps it ascending |
| `Sorting.AscendingIsUnique` | liveclaw-app/src/storage.rs:303-303 | An ascending sequence is determined by its elements, whichever routine sorted it |
| `ChannelJobs.RunKeepsInv` | liveclaw-gateway/src/server.rs:2264-2312 | The registry invariant holds in every interleaving of handlers, workers and signals |
| `ChannelJobs.RegistryIsExact` | liveclaw-gateway/src/server.rs:2264-2384 | The registry is exactly the created jobs not cancelled by their owner, each with a live worker whose signal is unsent; every cancelled job's signal is sent or about to be |
| `ChannelJobs.CleanupRemovesNothing` | liveclaw-gateway/src/server.rs:2311-2312 | A worker's own cleanup never removes a registered job |
| `ChannelJobs.TicksActAsCreator` | liveclaw-gateway/src/server.rs:2315-2336 | Every tick of every run sends its created job's text, part by part as stored, as a fresh client of the creator, passes validation and starts on the creator's own route |
| `ChannelJobs.CancelAnswers` | liveclaw-gateway/src/server.rs:2346-2385 | What a cancel answers in every reachable state, for every caller and job |
| `ChannelJobs.StoppedForGood` | liveclaw-gateway/src/server.rs:2300-2312 | A worker that left its loop never ticks again |
| `ChannelJobs.TicksAgainIffInLoop` | liveclaw-gateway/src/server.rs:2296-2312 | In every reachable state a created job may tick again exactly if its worker has not left its loop |
| `ChannelJobs.TickAfterCancel` | liveclaw-gateway/src/server.rs:2301-2308 | So after any successful cancel in any reachable state a tick is still possible, even once the signal was sent |
| `ChannelJobs.JobRuns` | liveclaw-gateway/src/server.rs:2264-2312 | Every valid request leads to a job that can tick any number of times and that cancel, signal and cleanup then end |
| `DockerWire.StepKeepsWire` | liveclaw-app/src/main.rs:409-432 | Writer, worker and reader steps keep the pipeline invariant |
| `DockerBridge.AcksFollowCommandsAlways` | liveclaw-app/src/main.rs:3889-3945 | On every link of every run, read acknowledgements, acknowledgements, executions and sent commands are prefixes of each other in that order, and a Close comes last |
| `DockerBridge.StagesDisjointAlways` | liveclaw-app/src/main.rs:483-493 | On every link of every run, ids in the command queue, in unread and in read acknowledgements are pairwise disjoint |
| `DockerBridge.RunKeepsInv` | liveclaw-app/src/main.rs:340-604 | The protocol invariant holds in every interleaving of callers, closes, timeouts, reconnects, worker and reader |
| `DockerBridge.IdsNeverReused` | liveclaw-app/src/main.rs:570-604 | No two callers or closes ever hold the same command id |
| `DockerBridge.ExecutedAtMostOnce` | liveclaw-app/src/main.rs:3889-3945 | Over all connections no command id is executed twice |
| `DockerBridge.AnswersAreTrue` | liveclaw-app/src/main.rs:483-493 | A caller is told Ok, or that its command failed, only if the worker ran that very command with that outcome |
| `DockerBridge.AckFindsWaiter` | liveclaw-app/src/main.rs:349-365 | An arriving acknowledgement finds its waiter registered unless that caller timed out or was failed by close |
| `DockerBridge.AckAnswersWaiter` | liveclaw-app/src/main.rs:483-493 | In every run an acknowledgement whose waiter is registered answers it as the worker reported and forgets the registration, and changes no other caller or registration |
| `DockerBridge.OtherMessagesAnswerNobody` | liveclaw-app/src/main.rs:478-520 | In every run any other message is taken and changes no caller and no registration |
| `DockerBridge.OneAnswerEach` | liveclaw-app/src/main.rs:357-364 | A caller's answer, once given, never changes |
| `DockerBridge.ReaderExitFailsNobody` | liveclaw-app/src/main.rs:531-537 | In every run the reader's last step fails no waiter and touches no registration, since it has cleared the connection and no other is set until it returns |
| `DockerAnswers.WaiterEnds` | liveclaw-app/src/main.rs:340-570 | In every reachable state the ways an unanswered caller can still end are exactly: by timeout always; abandoned iff a close took the link or can; with the worker's success or failure iff run() can read and the acknowledgement is unread, being made, or the command queues for a worker with no Close before it |
| `DockerAnswers.LeftWaiterEnds` | liveclaw-app/src/main.rs:340-365 | So a caller left waiting on a given-up connection can end by its own timeout always, and as abandoned exactly if a close holds that connection; in no other way |
| `DockerLives.CommandCanSucceed` | liveclaw-app/src/main.rs:340-365 | In every reachable state with a working connection a new command is sent under the next id and its caller can be told success or failure |
| `DockerLives.CommandFails` | liveclaw-app/src/main.rs:340-357 | Without a connection a command ends at once; on one whose writer has stopped it ends as a failed send and leaves no registration |
| `DockerLives.WorkerCanStop` | liveclaw-app/src/main.rs:3889-3945 | Once its worker has stopped, an unanswered caller hears only what was already on the wire |
| `DockerLives.ConnectionLives` | liveclaw-app/src/main.rs:381-540 | A connection can be made whenever none is set and run() is over; it works, is read, cleared and given up, and then the next can be made, nobody else touched |
| `DockerLives.CloseLives` | liveclaw-app/src/main.rs:542-567 | In every reachable state a close ends, without a connection at once, otherwise with the Close queued, the worker killed, everybody registered abandoned and nobody registered |
| `RateLimiter.Limiter.CheckAndIncrement` | liveclaw-app/src/security.rs:30-60 | A call is admitted exactly below the limit or as the first of its session; a refused call leaves the counters as they were |
| `RateLimiter.Limiter.Reset` | liveclaw-app/src/security.rs:63-68 | A reset zeroes an existing counter and creates none |
| `RateLimiter.RunKeepsInv` | liveclaw-app/src/security.rs:30-68 | The counting invariant holds in every interleaving of a pool of threads with calm resets |
| `RateLimiter.AdmitsExactly` | liveclaw-app/src/security.rs:30-60 | The counter is admitted calls plus threads about to undo; refusals happen only at the limit; once all calls finish exactly min(calls, limit) were admitted, per session |
| `RateLimiter.AnswersExactly` | liveclaw-app/src/security.rs:30-60 | In every interleaving exactly the admitted calls are answered true and the refused ones false; once all calls are over a session never reset has had min(calls, limit) yeses |
| `RateLimiter.WriterIsAlone` | liveclaw-app/src/security.rs:46-60 | A thread under the write lock finds every other thread outside both locks |
| `RateLimiter.SoloCall` | liveclaw-app/src/security.rs:30-60 | A call nobody interleaves with does, and answers, what the object's method does |
| `RateLimiter.WrapAdmitsTooMany` | liveclaw-app/src/security.rs:36-40 | If limit and pool exceed 32 bits together the counter can wrap and one call more than the limit is answered true |
| `RateLimiter.LimitHoldsIffPoolFits` | liveclaw-app/src/security.rs:30-68 | Callers get at most the limit of true answers per session, and the limit again per reset of it, in every interleaving with calm resets exactly if limit plus pool size fits into 32 bits |
| `RateLimiter.ResetIsExactIffCalm` | liveclaw-app/src/security.rs:63-68 | In every state reached by calm resets, a reset leaves the session's limit exact over all continuations with calm resets if and only if no call of the session is about to undo |
| `RateLimiter.LateUndoBlocks` | liveclaw-app/src/security.rs:36-40 | One way it fails: the late undo wraps the counter below zero and a call is about to be refused with nothing admitted |
| `RateLimiter.LateUndoOveradmits` | liveclaw-app/src/security.rs:36-40 | The other: the late undo takes one off a used-up counter and one call more than the limit is admitted |
| `Pairing.HexInjective` | liveclaw-gateway/src/pairing.rs:155-157 | Hex encoding is injective |
| `Pairing.HexSpelled` | liveclaw-gateway/src/pairing.rs:155-157 | The sixteen hex digits, high half first |
| `Pairing.ConstantTimeEq` | liveclaw-gateway/src/pairing.rs:179-188 | The or-accumulating loop decides equality |
| `Pairing.PairingGuard.constructor` | liveclaw-gateway/src/pairing.rs:32-68 | A guard draws a code only if pairing is required and no token exists yet |
| `Pairing.PairingGuard.TryPair` | liveclaw-gateway/src/pairing.rs:79-121 | The whole effect and reply of one attempt |
| `Pairing.RefusalTellsWait` | liveclaw-gateway/src/pairing.rs:84-119 | A locked-out caller is told the rest of the lockout in whole seconds but at least one, the locking attempt the whole lockout, any other refusal zero |
| `Pairing.PairingGuard.IsAuthenticated` | liveclaw-gateway/src/pairing.rs:129-139 | A token is accepted exactly if pairing is off or its encoded digest is stored |
| `Pairing.FailuresBelowLimit` | liveclaw-gateway/src/pairing.rs:109-119 | Between calls that do not overlap the failure count stays below max(1, max_attempts) |
| `Pairing.LockedOut` | liveclaw-gateway/src/pairing.rs:84-94 | Calls that check the lockout while locked change nothing, compare no code and issue no token, over any run of calls that do not overlap |
| `Pairing.LocksAfterLastGuess` | liveclaw-gateway/src/pairing.rs:109-119 | The last allowed wrong code of calls that do not overlap locks the guard for the whole lockout |
| `Pairing.GuessesPerWindow` | liveclaw-gateway/src/pairing.rs:84-119 | For calls that do not overlap, any half-open window as long as the lockout contains at most m comparisons of wrong codes |
| `Pairing.GuessRate` | liveclaw-gateway/src/pairing.rs:84-119 | For calls that do not overlap, wrong codes over duration T are compared at most m(floor(T/D)+1) times |
| `Pairing.RateIsReached` | liveclaw-gateway/src/pairing.rs:84-119 | For every T some run of such calls makes that many comparisons within T |
| `PairingThreads.FailuresBelowLimit` | liveclaw-gateway/src/pairing.rs:109-119 | In every interleaving of a pool the failure count stays below m plus the threads that are locking, so below m when none is |
| `PairingThreads.GuessesPerStretch` | liveclaw-gateway/src/pairing.rs:79-121 | In every interleaving a stretch of wrong codes shorter than the lockout compares at most m of them for one thread and (n+1)^2 m + n - 1 for n |
| `PairingThreads.ManyGuessesPerStretch` | liveclaw-gateway/src/pairing.rs:84-119 | That order is reached: for every k some schedule of 2k threads compares at least k^2 m wrong codes at a single instant |
| `PairingThreads.LimitHoldsIffSolo` | liveclaw-gateway/src/pairing.rs:84-119 | The bound of m comparisons holds in every interleaving exactly if the pool has at most one thread |
| `PairingThreads.NoTokenWhileLockedIffSolo` | liveclaw-gateway/src/pairing.rs:84-108 | No token is handed out while the guard is locked, in every interleaving, exactly if the pool has at most one thread |
| `PairingThreads.LockoutNeverShortensIffSolo` | liveclaw-gateway/src/pairing.rs:113-116 | No lockout is replaced by an earlier end, in every interleaving, exactly if the pool has at most one thread |
| `PairingThreads.GuessRate` | liveclaw-gateway/src/pairing.rs:79-121 | In every interleaving wrong codes over duration T are compared at most floor(T/D)+1 times the bound of one stretch |
| `PairingCalls.AloneIsWhole` | liveclaw-gateway/src/pairing.rs:79-121 | In every run in which nobody else moves until a call is answered, the call does to the shared guard, and answers, what a whole call does with some clock readings in order within the run |
| `PairingCalls.SoloPairs` | liveclaw-gateway/src/pairing.rs:79-121 | Conversely a whole call with any clock readings in order is such a run |
| `PairingCalls.StartIsNew` | liveclaw-gateway/src/pairing.rs:32-68 | A run starts from the guard that the constructor makes |
| `PairingCalls.TokensAreIssued` | liveclaw-gateway/src/pairing.rs:102-108 | In every interleaving the stored tokens only grow, by exactly the tokens that calls are answered with, in that order |
| `PairingCalls.AcceptsKnownTokens` | liveclaw-gateway/src/pairing.rs:129-139 | In every state of every interleaving a token is accepted iff pairing is off or its digest is that of a token configured or handed out so far |
| `PairingCalls.HandedTokensStayValid` | liveclaw-gateway/src/pairing.rs:102-139 | A token that some thread was answered with is accepted in every later state, however the other calls interleave |
| `Pairing.HashesGrow` | liveclaw-gateway/src/pairing.rs:102-108 | Over calls that do not overlap, stored hashes only grow, by exactly the hashes of the tokens handed out |
| `Pairing.AcceptsKnownTokens` | liveclaw-gateway/src/pairing.rs:129-139 | After calls that do not overlap, a token is accepted iff pairing is off or its digest is that of a configured or handed-out token |
| `Pairing.IssuedTokensStayValid` | liveclaw-gateway/src/pairing.rs:102-108 | A handed-out token authenticates after every later call, for calls that do not overlap |
| `Compaction.TranscriptMemory.Compact` | liveclaw-app/src/main.rs:1491-1538 | The loop over dropped entries builds the summary, cut at 4,096 bytes, and keeps the recent half; below the threshold and on a panic nothing changes |
| `Compaction.TranscriptMemory.Push` | liveclaw-app/src/main.rs:1734-1753 | One push with its compaction and counter; a panicking push has added its entry and compacted nothing |
| `Compaction.NeverCompacts` | liveclaw-app/src/main.rs:1495-1497 | Disabled or with a threshold under two the memory is the history |
| `Compaction.BoundedHistory` | liveclaw-app/src/main.rs:1491-1538 | After n pushes of which none panicked: at most t entries, the whole history or a summary entry and an exact suffix of known length, and an exact number of compactions |
| `Compaction.BoundedIffNeverPanics` | liveclaw-app/src/main.rs:1491-1538 | The memory stays within the threshold at every push of a history exactly if no push panics |
| `Compaction.PushPanicsIff` | liveclaw-app/src/main.rs:1522-1525 | A push panics exactly if a compaction is due and a character of several bytes of the uncut summary lies across byte 4,096 |
| `Compaction.AsciiNeverPanics` | liveclaw-app/src/main.rs:1522-1525 | While everything said is ASCII no push of any history panics |
| `Compaction.SomePushPanics` | liveclaw-app/src/main.rs:1522-1525 | A history of two entries and a threshold of two: the third push panics and leaves three entries |
| `Utf8.CutFailsIff` | liveclaw-app/src/main.rs:1523-1525 | Cutting UTF-8 text at a byte fails exactly when that byte is inside the text and starts no character |
| `Utf8.CutIsPrefix` | liveclaw-app/src/main.rs:1523-1525 | Otherwise what is left is a prefix whose bytes are the first ones |
| `Compaction.JoinPlaces` | liveclaw-app/src/main.rs:1517-1521 | The joined text is the chunks in their order, one space between each two and nothing else |
| `Compaction.ChunksInOrder` | liveclaw-app/src/main.rs:1504-1515 | Each entry that speaks contributes exactly one chunk, in order |
| `Compaction.SummaryIs` | liveclaw-app/src/main.rs:1517-1531 | The summary entry is from the system, at the time of the compaction, with the first 4,096 bytes of the whole summary |
| `Transcript.DecimalSpells` | liveclaw-app/src/main.rs:1518-1518 | The event count is spelled in decimal digits without a leading zero |
| `Compaction.SummaryTells` | liveclaw-app/src/main.rs:1505-1525 | A summary of at most 4,096 bytes is kept whole and contains the text of every entry it replaced |
| `Compaction.NothingSaidIsLost` | liveclaw-app/src/main.rs:1505-1536 | While no summary exceeded 4,096 bytes, the history is a part told inside the current summary followed by the listed entries |
| `Snapshot.FindLatest` | liveclaw-app/src/main.rs:927-933 | The reverse search finds the compaction latest in the log |
| `Snapshot.MemoryEntries` | liveclaw-app/src/main.rs:926-984 | The snapshot loop keeps later events with text, in order, behind the latest summary |
| `Snapshot.MemoryIs` | liveclaw-app/src/main.rs:926-984 | For every log: first the content of the last summary, from the system at its end, then in order every speaking event later than that end, with its content, time and author, blank authors as assistant |
| `Snapshot.Summarize` | liveclaw-app/src/main.rs:727-769 | The summariser's loop builds the summary of a batch, cut at 4,096 bytes, and the span it covers; nothing for an empty batch, or a panic |
| `Snapshot.SummaryEventIs` | liveclaw-app/src/main.rs:755-767 | The summary event is from the system and carries the cut text and the span of its batch |
| `Snapshot.SummarizePanicsIff` | liveclaw-app/src/main.rs:752-754 | It panics exactly if a character of several bytes of the uncut summary lies across byte 4,096 |
| `Snapshot.KeptIsRecalled` | liveclaw-app/src/main.rs:926-984 | Over any log with summaries at any times, none over 4,096 bytes, whatever is later than the latest summary's end, or stands in it directly or through earlier summaries, is recalled |
| `Snapshot.RecalledIffKept` | liveclaw-app/src/main.rs:926-984 | and only that: an event with a character of its own is recalled exactly then |
| `Snapshot.LosingLogLoses` | liveclaw-app/src/main.rs:926-984 | A log of three acts that loses an event although no summary was cut: the event comes at the instant at which the batch before it ends |
| `Snapshot.ChainLosesNothing` | liveclaw-app/src/main.rs:926-984 | So nothing is lost if each batch takes up where the last ended, includes its summary and ends before a strictly later event |
| `Snapshot.SummaryStandsForAll` | liveclaw-app/src/main.rs:727-769 | Summarising a log in time order whole leaves the summary alone, which contains everything said unless it exceeded 4,096 bytes |
| `Reconnect.FromConfig` | liveclaw-app/src/main.rs:657-668 | The policy's bounds are well ordered, configured values are kept where they are, and so are the switch and the number of attempts |
| `Reconnect.BackoffGrows` | liveclaw-app/src/main.rs:671-681 | Backoffs never shrink and lie between the initial backoff and the cap |
| `Reconnect.BackoffDoubles` | liveclaw-app/src/main.rs:671-681 | Each backoff doubles the previous one up to the cap, exactly up to attempt 16 or once sixteen doublings reach the cap |
| `Reconnect.DoublingStops` | liveclaw-app/src/main.rs:671-681 | From one millisecond with a cap of twenty minutes, attempt 18 waits no longer than attempt 17 |
| `Reconnect.TotalWaitBounded` | liveclaw-app/src/main.rs:671-681 | An outage of n attempts waits at most n caps and at most initial times (2^n - 1) |
| `Reconnect.Diagnostics.ReconnectWithBackoff` | liveclaw-app/src/main.rs:1540-1606 | The retry loop against its recursive specification: result, time waited and the three counters |
| `Reconnect.OutcomeIsFirst` | liveclaw-app/src/main.rs:1551-1598 | An outage ends with the first attempt that connects or meets shutdown, else after the whole budget |
| `Reconnect.CountersBalance` | liveclaw-app/src/main.rs:1540-1648 | Over all sessions interleaved, attempts are successes plus failures plus cut short plus in flight |
| `Reconnect.RunsFollowConnects` | liveclaw-app/src/main.rs:1608-1648 | Runs come first or right after a successful connect and conversely; no outage exceeds its budget or its wait bounds |
| `Reconnect.StopsSoon` | liveclaw-app/src/main.rs:1608-1648 | After a session's shutdown flag goes up its loop makes at most one more run or connect |
| `Reconnect.StopEndsLoop` | liveclaw-app/src/main.rs:1551-1648 | In every state raising a session's flag ends its loop within three of its own steps, whatever its calls return |
| `Reconnect.AbortIsFinal` | liveclaw-app/src/main.rs:2315-2316 | A loop that is aborted makes no further call, in any continuation |
| `Reconnect.OutageIsOutcome` | liveclaw-app/src/main.rs:1540-1606 | Stepped on its own, an outage of the interleaved machine ends and counts as the loop's specification says |
| `Reconnect.FailedRunReconnects` | liveclaw-app/src/main.rs:1540-1648 | In every state a failed run is followed by an outage in which any number of connects up to the budget can fail, each counted and waited for, the next one succeed and lead to the next run, or the loop end |
| `Reconnect.RunEndsLoop` | liveclaw-app/src/main.rs:1615-1635 | The loop ends after a run exactly if it returned in order or there is nothing to reconnect with |
| `MemoryStore.RecallOfPersist` | liveclaw-app/src/storage.rs:164-171 | An entry comes back with content and author, its time cut to the millisecond |
| `MemoryStore.LoadRestores` | liveclaw-app/src/storage.rs:67-133 | A written list loads back as the same table, whatever order it was written in, exactly if no user's table is empty |
| `MemoryStore.FileMemoryService.Open` | liveclaw-app/src/storage.rs:58-93 | A service starts from what the file holds, or fails on a corrupt file |
| `MemoryStore.FileMemoryService.LoadLoop` | liveclaw-app/src/storage.rs:82-92 | The loading loop |
| `MemoryStore.FileMemoryService.Flatten` | liveclaw-app/src/storage.rs:105-115 | The nested listing loops, for every iteration order |
| `MemoryStore.FileMemoryService.AddSession` | liveclaw-app/src/storage.rs:157-189 | Memory takes the entries in any case; the file is rewritten to load as the memory, or untouched if writing fails |
| `MemoryStore.FileMemoryService.Search` | liveclaw-app/src/storage.rs:191-235 | An entry is found exactly if some word of the query is a word of one of its text parts |
| `MemoryStore.WordsAre` | liveclaw-app/src/storage.rs:136-142 | The words of a text are exactly its longest parts without white space, lower-cased |
| `MemoryStore.SearchFinds` | liveclaw-app/src/storage.rs:191-235 | A search finds every matching entry once, those of one session in its order, and nothing else, each with its content, author and time |
| `MemoryStore.FileAgrees` | liveclaw-app/src/storage.rs:67-189 | After any run of adds a restart finds the table as of the last written add; after a written add file and memory agree |
| `MemoryStore.StoreIsLatest` | liveclaw-app/src/storage.rs:173-185 | An add replaces its own session's entries and nothing else, over every run |
| `MemoryStore.SearchIsDetermined` | liveclaw-app/src/storage.rs:215-233 | A search finds the same entries as often in every iteration order |
| `MemoryStore.SearchSurvivesRestart` | liveclaw-app/src/storage.rs:67-235 | After a run whose last add was written, a restarted service finds the same entries the same number of times |
| `MemoryStore.QueryIsUnion` | liveclaw-app/src/storage.rs:136-142 | A query of two parts matches what either part matches |
| `Artifacts.SanitizeIsSafe` | liveclaw-app/src/storage.rs:239-245 | Sanitised names have no separator and no '..', safe names are left alone, sanitising twice changes nothing |
| `Artifacts.SanitizeIs` | liveclaw-app/src/storage.rs:239-245 | What a name becomes: every separator and then every '..' from the left an underscore, then the white space around it goes; without '..' every other character keeps its place |
| `Artifacts.FirstDotDot` | liveclaw-app/src/storage.rs:239-245 | The first '..' becomes one underscore, and so on behind it |
| `Artifacts.StayApart` | liveclaw-app/src/storage.rs:239-245 | Two names that differ in a character no rule touches stay apart |
| `Artifacts.FileDirIs` | liveclaw-app/src/storage.rs:269-279 | The directory has one step for each of the four sanitised names, none vanishing exactly if none is empty or a single dot |
| `Artifacts.StaysBelowRoot` | liveclaw-app/src/storage.rs:269-279 | Whatever the key, no step of its path is empty, '.', '..' or contains a separator |
| `Artifacts.ProperKeysApart` | liveclaw-app/src/storage.rs:269-279 | Keys without vanishing components share or nest directories exactly if they sanitise alike |
| `Artifacts.VersionsAreUnique` | liveclaw-app/src/storage.rs:286-304 | The sorted versions do not depend on the directory's listing order |
| `Artifacts.VersionsSpelled` | liveclaw-app/src/storage.rs:286-304 | That is, each version is below the next |
| `Artifacts.NextIsGreatest` | liveclaw-app/src/storage.rs:322-325 | A default save's version exceeds all others exactly unless the greatest 64-bit version is taken |
| `Artifacts.FileArtifactService.VersionsOf` | liveclaw-app/src/storage.rs:281-305 | The sorted set of the directory's versions |
| `Artifacts.FileArtifactService.Save` | liveclaw-app/src/storage.rs:310-333 | A save writes one version, the given one or the next, and creates its directories |
| `Artifacts.FileArtifactService.Load` | liveclaw-app/src/storage.rs:335-351 | A load returns the given version, or the greatest; without one it is an error |
| `Artifacts.FileArtifactService.Delete` | liveclaw-app/src/storage.rs:353-375 | A delete removes one version or the whole directory tree, and missing ones are no error |
| `Artifacts.DiskIsHistory` | liveclaw-app/src/storage.rs:310-375 | After any history on any keys a version is stored exactly if saved and not deleted since, with the part saved last |
| `Artifacts.DirsAreHistory` | liveclaw-app/src/storage.rs:310-375 | and a directory is there exactly if a save made it, written or not, and it was not deleted since |
| `Artifacts.DefaultSaveReplacesIff` | liveclaw-app/src/storage.rs:320-330 | A default save replaces a stored part exactly if its version was written between its reading and its writing and not deleted since, or if it wraps from the greatest version to a smallest one that is still there |
| `Artifacts.DefaultSaveExceedsIff` | liveclaw-app/src/storage.rs:320-330 | It exceeds every version present when it writes exactly if it exceeds those written meanwhile and not deleted and, should it wrap, those it read that are still there |
| `Artifacts.LoneDefaultSaveIncreases` | liveclaw-app/src/storage.rs:320-330 | So it does if no other save to the directory falls in between and the greatest version is free |
| `Artifacts.GreatestWraps` | liveclaw-app/src/storage.rs:320-325 | A directory that holds the greatest 64-bit version, whose next default save takes the smallest |
| `Artifacts.DefaultSavesIncrease` | liveclaw-app/src/storage.rs:320-325 | A default save gets a version above every one written and not deleted before it read, whatever happened to the directory meanwhile |
| `Artifacts.OverlappingSavesCollide` | liveclaw-app/src/storage.rs:320-330 | Two default saves that both read before either writes take one version, and the first part written is lost |
| `Base64.TableSpelled` | liveclaw-gateway/src/server.rs:3024-3024 | The alphabet, spelled out |
| `Base64Codec.PacksTriple` | liveclaw-gateway/src/server.rs:3032-3035 | Shifting three bytes through a 32-bit word gives their four sextets |
| `Base64Codec.EncodeChunk` | liveclaw-gateway/src/server.rs:3028-3049 | One round of the encoding loop |
| `Base64Codec.Encode` | liveclaw-gateway/src/server.rs:3023-3053 | The encoding loop computes the specification |
| `Base64Codec.PackChunk` | liveclaw-gateway/src/server.rs:2999-3004 | The inner decoding loop packs a group or finds a foreign character |
| `Base64Codec.DecodeChunk` | liveclaw-gateway/src/server.rs:2998-3016 | One round of the decoding loop |
| `Base64Codec.GroupedDecodes` | liveclaw-gateway/src/server.rs:2998-3017 | Decoding group by group neither changes the bytes nor what is refused |
| `Base64Codec.Decode` | liveclaw-gateway/src/server.rs:2982-3020 | The decoder computes the specification |
| `Base64Laws.RoundTrip` | liveclaw-gateway/src/server.rs:2982-3053 | Decoding undoes encoding for every byte string |
| `Base64Laws.EncodedLength` | liveclaw-app/src/main.rs:3951-3979 | Encoding takes four characters per started group of three bytes |
| `Base64Laws.DecodedLength` | liveclaw-gateway/src/server.rs:2982-3020 | A text decodes exactly if it is in the alphabet up to trailing '=', and then to 3n/4 bytes, rounded down |
| `Base64Laws.ReencodesIffCanonical` | liveclaw-gateway/src/server.rs:2982-3053 | Re-encoding restores a decoded text exactly if it is padded as section 4 of RFC 4648 asks with zero spare bits |
| `Base64Laws.PaddingIsDropped` | liveclaw-gateway/src/server.rs:2994-2994 | Trailing padding of any length changes nothing |
| `Base64Laws.SpellingsOfOneByte` | liveclaw-gateway/src/server.rs:2982-3020 | Three texts that decode to the same byte, two of them not canonical |

## Left out

- Gateway.Server.OperateSession: one command stands for the session commands that authorise and make one runner call; audio decoding before the call and the prompt handler's second runner call are not distinguished.
- Gateway.Server.CreateSession: the session configuration passed to the runner is left out, and so is the table of audio senders, from which handlers only ever remove.
- Gateway.Server.CloseSocket: the list of owned sessions is a set; a closed client stays as an inert record.
- GatewayIsolation.GatewayAgreesWithRunner: the runner's create and terminate calls are single steps and handlers run to completion; the runner's own lock order inside them is not split further.
- Gateway.Server.HandleMessage: job, tool-probe and diagnostics messages are not among its requests; jobs have their own registry in ChannelJobs.
- Pairing.PairingGuard.TryPair: calls are whole here, as they are in FailuresBelowLimit, LockedOut, LocksAfterLastGuess, GuessesPerWindow, GuessRate, HashesGrow, AcceptsKnownTokens and IssuedTokensStayValid; PairingThreads and PairingCalls have the calls that overlap.
- PairingThreads.GuessesPerStretch: the bound for several threads is reached up to a constant factor, not exactly, and m plus the pool is taken to fit into 32 bits, so that the failure counter does not wrap.
- Pairing.AcceptsKnownTokens: the digest is any function from token to bytes, so SHA-256 and uuid entropy are not modelled.
- DockerBridge.IdsNeverReused: command ids are unbounded; the 64-bit counter's wrap-around is not modelled.
- ChannelJobs.RegistryIsExact: interval timing of ticks is left out; any number of ticks may happen while a worker loops.
- Compaction.TranscriptMemory.Compact: what a panic does beyond the list itself is left out. The check for nothing to compact is omitted because a due compaction always drops something.
- Snapshot.KeptIsRecalled: which batches the runner library hands to the summariser, and when, is open, so any contiguous batch of the log is; a call of the summariser that panics adds nothing to the log; the per-session compaction counts belong to that library.
- MemoryStore.FileMemoryService.AddSession: JSON is taken as faithful, and the temporary file that is renamed into place is not a state of its own.
- MemoryStore.FileMemoryService.Search: lower-casing is ASCII, and millisecond counts outside the date library's range, which a file could hold, are not modelled.
- Artifacts.FileArtifactService.VersionsOf: the listing is of version numbers; parsing file names and skipping foreign files are left out.
- Artifacts.FileArtifactService.Save: the call is whole, while in DefaultSaveReplacesIff and the lemmas beside it a save reads first and writes later; version files are keyed by their number; the decimal file name and foreign files in the directory are not modelled.
- Listing the artifact names of a session, and parsing the memory backend setting: simple.
- The runner side beyond session creation and termination: graph execution, tool policies, provider wiring and diagnostics output.
- HTTP routes and payload adapters, WebSocket framing, serde, command line, service installation and configuration defaults: I/O or library behaviour.
- Liveness: bounded channels and fair scheduling are not modelled, so nothing is claimed to happen eventually.
- Regular-expression redaction, path canonicalisation of workspace tools, and the agent, graph and plugin crates: their meaning lies in libraries that are not part of this model.
