# Yuanshu protocols in Dafny

Yuanshu connects control clients to nodes through a server. Its server and node hold a
number of small stateful protocols whose promises are about whole runs: leases with fencing
epochs, sessions bound to connections, transports with several workers, a single-flight
cache, crash-safe files, all-or-nothing directory swaps, remote configuration changes, rate
limiters and reconnect backoff. This project models them and proves those promises.

`dafny verify dfyconfig.toml` checks everything.

## How the model is built

- One module per protocol. An object whose methods update its fields is a class, and each
  method is proved against a function of the old state, or states its result outright.
- A concurrent protocol has, beside its class, a state machine over values. Every section
  under a mutex is an event of its own, and so is every load, save and lookup of a protocol
  that has no mutex; between two events of one actor any other actor may act. A section
  reads the clock once, as part of its event. A run is any list of events, and an event
  that its actor is not ready for changes nothing, so a
  statement about every list of events is a statement about every interleaving of any
  number of callers and workers. History variables (frames accepted, epochs forwarded,
  channels closed, snapshots published) are part of the state.
- Beside the theorems about whole runs, each operation has lemmas that say what it comes to
  when nothing disturbs it, in the terms of its input and the stored state.
- Clocks, random values, results of system calls, of libraries and of the network are
  parameters or events. Times are nanoseconds as unbounded integers; a fresh random
  identifier is one not drawn before; digests are taken to be injective; `float64` values
  are reals.

| module | source | subject |
|---|---|---|
| `LeaseStore`, `LeaseRouting`, `LeaseOperations` | internal/server/lease_memory.go, lease_hub.go, hub.go | leases, fencing epochs, routing under scope locks |
| `NodeSessions`, `NodeOperations` | internal/server/node_sessions.go, hub.go | registry of connections and the HTTP sessions bound to them |
| `Transport`, `RelayTransport`, `RelayOperations`, `StandaloneTransport` | internal/transport | channels, the WebSocket transport, the in-process transport |
| `AdminIdempotency`, `AdminOperations`, `ActionChallenges` | internal/server/admin.go | idempotency cache, one-time challenges |
| `ConfigStore`, `NodeConfig` | internal/config/store.go | configuration file and backup |
| `ConfigController`, `ConfigFields` | internal/node/config_controller.go, host.go | reading and merging remote configuration changes |
| `ConfigRuns` | internal/node/config_controller.go | the configuration controller over whole runs |
| `CertificateSwap` | internal/server/certificate_staging.go, init.go | certificate directory swap |
| `IdentityRepair` | internal/node/identity_repair.go | moving identity files into a backup |
| `InteractionAnswers` | internal/node/control_session.go | answers to stored questions |
| `Limiters`, `LimiterRuns` | internal/server/http.go, pairing.go | attempt limiters |
| `Inventory` | internal/adapter/inventory.go | single-flight refresh |
| `RelaySupervisor` | internal/node/relay_supervisor.go | reconnect backoff |

## Where the code does less than one might expect

Each entry names the members that show it and those that say exactly when the stronger
property holds.

- The configuration controller has no lock. An update that loaded the file before a change
  was approved saves over it, so a permission that the approval took away comes back
  (`StaleUpdateRestoresWrite`; for all pairs of changes, `StaleUpdateUndoesApproval`). In
  every run, permissions only shrink from step to step exactly when no save is stale, that
  is, when every permission its base has and its change keeps is still in place
  (`PermissionsOnlyShrinkExactlyWhen`, `SaveGainsNothingExactlyWhen`), in particular when the
  file still holds what the call loaded (`UndisturbedSaveIsUpToDate`). What does hold without
  a condition: no run ever comes to a permission that its first configuration did not have
  (`RemoteRunsEscalateNothing`).
- A waiter on an idempotency key re-reads the map after waking, and answers with the key's
  latest execution. If the one it waited for failed and another request came first, it finds
  either a running entry, whose blank response has the status 0 that net/http refuses, so that
  the connection ends without an answer (`FailedWaiterShowsBlank`), or the completed response
  to another body, which a request of its own would have been refused
  (`WaiterGetsAnotherBodysAnswer`, `AnotherBodysAnswerIsReachable`). Until the awaited entry
  expires, the waiter replays the awaited execution exactly when it ended below 500
  (`ReplayExactlyWhen`).
- The cache key has no route: a key used again with the same body on another route is answered
  with the first route's response and not executed (`AnyRouteIsAnswered`,
  `AnotherRoutesAnswerIsReachable`). An answer is for the request's own body, and its own
  route, exactly when the key's latest execution was (`RereadAnswersLatest`), and always if the
  key is used for one thing only (`OneUseReplaysItself`).
- A request that has read the registry still authenticates after its connection is gone:
  tokens of a gone connection never authenticate again exactly when no request is past its
  registry read (`RetiredNeverAuthenticates`).
- A refresh that is past its registry read still puts its token into the session map after
  the teardown (`RefreshCanOutliveTeardown`, a run from the start; `RefreshOutlivesTeardown`).
  A gone connection never owns a session again exactly when it owns none and has no such
  refresh (`RetiredOwnsNothingExactlyWhen`).
- Concurrent requests, and failures recorded without asking first, get past the limit of
  five: with `c` requests in flight and `u` unasked failures a window records up to
  4 + c + u (`CrowdReachesBound`) and a minute up to 2(4 + c) + u (`CrowdReachesMinuteBound`),
  and never more (`FailuresAreBounded`). The second step of the admin login records
  failures without asking (internal/server/admin.go:356). One request at a time, all asking,
  a span below a minute holds at most ten failures in the shared limiter and nine in the
  keyed one; both are reached (`TenFailuresAtOnce`, `NineKeyedFailuresAtOnce`), the latter as
  the case c = 1 of 2(4 + c) - 1 (`KeyedCrowdReachesMinuteBound`).
- A failing `install` leaves the live certificate directory missing when the rename that
  should undo the first one fails too, or when the rollback after a failed sync does; the
  original is then at the backup path. `Stranded`, in the contract of `Install`, is exactly that.
- `applyRemoteChanges` writes into the slice of the loaded configuration, so the response to
  a change that was only parked already shows its workspaces (the contract of `Update`).
- A primary configuration file above the size limit counts as corrupt and is replaced,
  whatever version it claims (`OversizedPrimaryIsReplaced`); below the limit a newer or unsafe
  one never is (`UnsafePrimaryIsNeverOverwritten`).
- An expired lease proof stays dead exactly as long as the clock does not fall below the
  lease's expiry (`ProofIsDeadExactlyWhen`), so always under a clock that does not go back
  (`ExpiredProofNeverPasses`), but not under every clock (`ClockSetBackRevivesProof`). A
  superseded one stays dead under any clock (`SupersededProofNeverPasses`).
- Lease keys tell scopes apart exactly as long as the owner, node and workspace IDs contain
  no NUL; the thread ID may (`LeaseKeyInjective`, `LeaseKeyCollides`, `LeaseKeyNeedsSeparable`).
- A call that joined an inventory refresh succeeds also when that refresh was abandoned. What
  it sees is newer than what it came to exactly when the refresh it joined or a later one
  published before it woke (`WaiterWakesToNewerExactlyWhen`, `JoinedSawNewerExactlyWhen`); in
  every state with no refresh running both outcomes can follow (`AbandonedRefreshAnswersOld`,
  `AbandonedRefreshAnswersNewer`).

## Model

| member | source | states |
|---|---|---|
| `LeaseStore.MemoryLeaseStore.AcquireLease` | internal/server/lease_memory.go:81-104 | the statement-by-statement update of the records map is the step `Acquire` that the run theorems use |
| `LeaseStore.MemoryLeaseStore.RenewLease` | internal/server/lease_memory.go:106-121 | refines `Renew`: conflict, expired (stored record untouched) or extended |
| `LeaseStore.MemoryLeaseStore.ReleaseLease` | internal/server/lease_memory.go:123-137 | refines `Release`: conflict, or a cleared record with the next epoch |
| `LeaseStore.MemoryLeaseStore.Lease` | internal/server/lease_memory.go:139-150 | a reader sees a held record past its expiry as expired, and a missing one as no lease |
| `LeaseStore.AcquireGrants` | internal/server/lease_memory.go:81-104 | acquiring succeeds exactly when the expected epoch matches and nobody else holds the lease unexpired (or it is forced); then the client is the holder, under the next epoch unless it already was; otherwise nothing changes |
| `LeaseStore.RenewExtendsReleaseEnds` | internal/server/lease_memory.go:106-137 | a renewed lease is held exactly until now + ttl; a released scope reads as released one epoch later; renewing needs more than releasing |
| `LeaseStore.SeparatorSplits` | internal/server/lease_memory.go:152-154 | a NUL-free component is determined by the joined text |
| `LeaseStore.LeaseKeyInjective` | internal/server/lease_memory.go:152-154 | different scopes have different keys; only the last component, the thread ID, may contain NUL |
| `LeaseStore.LeaseKeyCollides` | internal/server/lease_memory.go:152-154 | the condition is exact: a scope with NUL in another component shares its key with some other scope |
| `LeaseStore.LeaseKeyNeedsSeparable` | internal/server/lease_memory.go:152-154 | two scopes of any one owner that differ in node and workspace and share a key |
| `LeaseStore.OperationsEvolve` | internal/server/lease_memory.go:81-137 | an operation leaves a key alone, raises its epoch by one, or renews an unexpired lease keeping everything but its expiry |
| `LeaseStore.OtherScopesUntouched` | internal/server/lease_memory.go:81-154 | operations on one scope change no answer about any other scope at any time, thread IDs with NUL included |
| `LeaseRouting.JsonNumber` | internal/server/lease_hub.go:366-372 | accepts exactly the integral numbers from 0 to 2^53 - 1 and returns that number |
| `LeaseRouting.LeaseMutationPayload` | internal/server/lease_hub.go:346-356 | an accepted payload names a lease and a positive safe epoch |
| `LeaseRouting.LeaseHub.LeaseLock` | internal/server/lease_hub.go:96-106 | a scope keeps the mutex it was first given; a new scope gets a new one |
| `LeaseRouting.LeaseHub.HandleServerControl` | internal/server/lease_hub.go:124-159 | on the frame as it came in, the locked body refines `HandleLease`: store update and reply, including unreadable payloads, a failing random source, conflict and expiry |
| `LeaseRouting.LeaseHub.CheckLease` | internal/server/lease_hub.go:217-237 | on the frame as it came in: passes exactly when the record of its scope is held, unexpired, held by the sender, and named by its proof; reports expired exactly for an expired lease |
| `LeaseRouting.HandledEvolves` | internal/server/lease_hub.go:115-168 | a lease message evolves only its own scope's record |
| `LeaseRouting.RunKeepsInv` | internal/server/hub.go:399-473 | every run keeps: locks unique per scope, holders past their lock, a cleared frame's record unchanged until it is sent, every frame sent fenced and in epoch order |
| `LeaseRouting.ScopesAreExclusive` | internal/server/lease_hub.go:96-113 | in every interleaving no two connections are past the lock of one scope |
| `LeaseRouting.ForwardedFramesWereFenced` | internal/server/hub.go:399-473 | in every interleaving each frame of the nine mutating types sent to a node had a complete scope whose record, when checked, was held, unexpired, the sender's and named by the proof, with no lease operation on that scope between check and send |
| `LeaseRouting.ForwardedEpochsNeverGoBack` | internal/server/hub.go:399-473 | per scope, the epochs of forwarded frames of the nine types never decrease, and equal epochs mean one client and one lease |
| `LeaseOperations.ForwardedPayloadNamesLease` | internal/server/lease_hub.go:320-372 | over every run, a forwarded frame of the nine types names a complete scope, and its payload's `lease` is exactly the lease and epoch it was checked against |
| `LeaseOperations.MutatingFrame` | internal/server/hub.go:399-473 | on a scope nobody is working on, a frame of the nine mutating types reaches its node exactly if the record of its scope is held, unexpired, the sender's, and named by the `lease` of its payload |
| `LeaseOperations.MutatingFrameRefused` | internal/server/hub.go:399-473 | such a frame goes nowhere if its scope is incomplete, its node offline, or it is not its owner's |
| `LeaseOperations.PlainFrame` | internal/server/hub.go:399-473 | every other frame the server does not handle itself goes straight to its online node, without lock or lease |
| `LeaseOperations.LeaseFrame` | internal/server/lease_hub.go:115-168 | a lease message reaches no node; on a scope nobody is working on it is handled under the lock as the next rows say, counted, and the lock is free again |
| `LeaseOperations.OtherServerFrame` | internal/server/lease_hub.go:115-123 | notification messages, and lease messages without a complete scope, change nothing |
| `LeaseOperations.ReleaseFrame` | internal/server/lease_hub.go:142-159 | a release by the holder naming its held record leaves it released, emptied, one epoch later, and is confirmed; any other is a conflict and changes nothing |
| `LeaseOperations.RenewFrame` | internal/server/lease_hub.go:142-159 | a renewal by the holder of an unexpired lease moves its expiry to exactly a minute from now; expired is reported and stored as it was; any other is a conflict |
| `LeaseOperations.UnreadableChange` | internal/server/lease_hub.go:142-146 | a renewal or release whose payload names no lease is invalid and changes nothing |
| `LeaseOperations.AcquireFrame` | internal/server/lease_hub.go:129-141 | an acquire grants a minute under the next epoch exactly when the expected epoch fits and nobody holds the lease or it is forced; the holder itself gets its lease back; otherwise conflict, and a failing random source changes nothing |
| `LeaseOperations.UnreadableAcquire` | internal/server/lease_hub.go:129-133 | an acquire with a malformed `force` or `expectedEpoch` is invalid and changes nothing |
| `LeaseOperations.StatusFrame` | internal/server/lease_hub.go:153-168 | a status request changes nothing and shows the record, as expired if its time is over |
| `LeaseOperations.NamedExactly` | internal/server/lease_hub.go:346-372 | a payload names a lease exactly by a non-empty `leaseId` and a whole `epoch` from 1 to 2^53 - 1 |
| `LeaseOperations.AcquirePayloadExactly` | internal/server/lease_hub.go:327-344 | what `force` and `expectedEpoch` say, and which values are accepted |
| `LeaseOperations.TargetedExactly` | internal/server/lease_hub.go:320-325 | a frame names a scope exactly by four non-empty parts |
| `LeaseRouting.EpochsAreFencing` | internal/server/lease_memory.go:81-137 | over every run a scope's epoch never decreases and an epoch that stays current keeps its lease, holder and state |
| `LeaseRouting.LeaseIsLostOnlyFor` | internal/server/lease_memory.go:81-137 | over every run a held lease stays with its holder unless some step was a forced takeover, an acquire after its expiry, or the holder's own release |
| `LeaseRouting.SupersededProofNeverPasses` | internal/server/lease_hub.go:217-237 | a superseded proof never passes the check again, whatever the clock does |
| `LeaseRouting.ProofIsDeadExactlyWhen` | internal/server/lease_hub.go:217-237 | for a proof naming the held record: over every run whose clock stays at or above a floor it never passes, if and only if the lease expires by that floor |
| `LeaseRouting.ExpiredProofNeverPasses` | internal/server/lease_hub.go:217-237 | in particular with a non-decreasing clock, a proof once seen expired under its scope's lock never passes again |
| `LeaseRouting.ClockSetBackRevivesProof` | internal/server/lease_hub.go:217-237 | for example a run that sets the clock on and back makes a proof fail and then pass |
| `LeaseRouting.EpochsGrowByOne` | internal/server/lease_memory.go:81-137 | an epoch grows by at most one per event, so 64 bits last for any real run |
| `NodeSessions.Hub.CleanupNodeSessions` | internal/server/node_sessions.go:140-146 | the sweep leaves exactly the unexpired sessions |
| `NodeSessions.Hub.InvalidateNodeSessionScope` | internal/server/node_sessions.go:130-138 | leaves exactly the sessions of other connections |
| `NodeSessions.Hub.IssueNodeSession` | internal/server/node_sessions.go:23-54 | sweeps and binds the new token to the connection |
| `NodeSessions.Hub.Register` | internal/server/hub.go:499-533 | refused exactly when closed; otherwise replaces and returns the previous connection of the key |
| `NodeSessions.Hub.Unregister` | internal/server/hub.go:565-581 | removes exactly this connection; every other registered connection stays |
| `NodeSessions.Hub.Close` | internal/server/hub.go:651-676 | the first call empties registry and sessions and returns all connections; later ones do nothing |
| `NodeSessions.Hub.AuthenticateNodeRequest` | internal/server/node_sessions.go:56-82 | undisturbed, admits exactly a known unexpired token for the named node whose connection is the registered one of an active node |
| `NodeSessions.RunKeepsInv` | internal/server/node_sessions.go:23-146 | every run keeps: registered connections belong to serving handlers, digests keep their sessions, every admission is sound |
| `NodeSessions.AdmissionsAreSound` | internal/server/node_sessions.go:56-82 | in every interleaving an authenticated request used a token unexpired when read, whose connection was the registered one when the registry was read |
| `NodeSessions.LeavingRetires` | internal/server/hub.go:499-676 | however a registered connection leaves the registry, it is retired |
| `NodeSessions.DisconnectRetires` | internal/server/hub.go:638-649 | a disconnect retires the connection registered under its key and leaves every other one registered |
| `NodeSessions.RetiredAdmitsOnlyAwaiting` | internal/server/node_sessions.go:56-82 | every admission of a retired connection was past its registry read when it retired |
| `NodeSessions.RetiredNeverAuthenticates` | internal/server/node_sessions.go:56-82 | a retired connection's tokens never authenticate again, whatever comes, if and only if no request is past its registry read with one |
| `NodeSessions.GoneConnectionsNeverAuthenticate` | internal/server/node_sessions.go:56-138 | at any point of any run: after a connection is replaced, disconnected or unregistered, only requests that had read the registry before still authenticate with its tokens, refreshes in flight included |
| `NodeSessions.StaleUnregisterKeepsNewer` | internal/server/hub.go:565-581 | a stale unregister never removes a newer connection |
| `NodeSessions.ClosedHubAdmitsNobodyNew` | internal/server/hub.go:651-676 | after Close took the registry lock only requests that had read the registry before are still admitted |
| `NodeSessions.RefreshCanOutliveTeardown` | internal/server/node_sessions.go:90-116 | a run from the start in which a refresh races with the teardown and leaves a session of a gone connection in the map |
| `NodeSessions.RefreshOutlivesTeardown` | internal/server/node_sessions.go:90-116 | in any state, a refresh past its registry read can still do so |
| `NodeSessions.CleanStaysClean` | internal/server/node_sessions.go:23-146 | a retired connection without sessions and without such a refresh never owns a session again |
| `NodeSessions.RetiredOwnsNothingExactlyWhen` | internal/server/node_sessions.go:23-146 | both directions: never again a session, whatever comes, if and only if there is none and no such refresh |
| `NodeOperations.RequestComesTo` | internal/server/node_sessions.go:56-82 | undisturbed, a request is admitted exactly if its token is known, unexpired, names the node, its connection is the registered one and the node active; it leaves nothing but the sweep |
| `NodeOperations.RefreshComesTo` | internal/server/node_sessions.go:90-116 | undisturbed, a refresh of an active node puts a new token for the same connection and removes the old one, and every other unexpired session stays |
| `NodeOperations.RegistrationComesTo` | internal/server/hub.go:499-533 | a connection that authenticates owns its session, and registering takes its key unless the hub is closed |
| `NodeOperations.TeardownComesTo` | internal/server/hub.go:565-581 | a teardown removes this connection and its sessions, and no others |
| `NodeOperations.CloseComesTo` | internal/server/hub.go:651-676 | closing leaves no connection registered and no session |
| `RelayTransport.Relay.Send` | internal/transport/relay.go:91-112 | exact error of every case; appends exactly the accepted frame; never sends on a closed channel |
| `RelayTransport.Relay.BeginClose` | internal/transport/relay.go:141-150 | closes the send channel at most once and only before the shutdown |
| `RelayTransport.Relay.Terminate` | internal/transport/relay.go:229-242 | only the first call takes effect and its error stays; `done` is closed once |
| `RelayTransport.Relay.TerminalError` | internal/transport/relay.go:244-251 | the stored error once closed, else the closed error |
| `RelayTransport.RunKeepsInv` | internal/transport/relay.go:91-242 | every run of callers and three workers keeps frame conservation and the shutdown order |
| `RelayTransport.ChannelsAreClosedOnce` | internal/transport/relay.go:91-242 | in every interleaving no send on a closed channel, and `send` and `done` are closed at most once |
| `RelayTransport.WrittenIsPrefixOfAccepted` | internal/transport/relay.go:91-201 | in every interleaving the frames written are an in-order prefix of the frames accepted, and the rest is in the writer's hand or the queue |
| `RelayTransport.GracefulCloseWritesEverything` | internal/transport/relay.go:179-201 | if the shutdown began with the drained channel, every accepted frame was written |
| `RelayTransport.DrainedWriterWroteEverything` | internal/transport/relay.go:179-201 | whoever shuts the transport down: once the writer found the send channel closed and empty, every accepted frame was written |
| `RelayTransport.ReceiverSeesOneError` | internal/transport/relay.go:114-139 | frames are received in the order read, and every terminal error is that of the call that shut down |
| `RelayTransport.QuietAfterClose` | internal/transport/relay.go:141-150 | once the workers are gone nothing is accepted or written any more |
| `RelayOperations.SendComesTo` | internal/transport/relay.go:91-112 | a frame is taken exactly if it fits, the transport is open and there is room |
| `RelayOperations.CloseComesTo` | internal/transport/relay.go:141-150 | closes the send channel of an open transport, once |
| `RelayOperations.WriterComesTo` | internal/transport/relay.go:179-201 | the oldest frame is written; a failed write, or a closed and empty channel, leads to the shutdown |
| `RelayOperations.ReaderComesTo` | internal/transport/relay.go:152-177 | a frame read is handed on if there is room; a full queue or a read error leads to the shutdown |
| `RelayOperations.ReceiveComesTo` | internal/transport/relay.go:114-139 | the oldest frame, and the final error once there is none and the transport is shut down |
| `RelayOperations.ShutdownComesTo` | internal/transport/relay.go:229-251 | the first to come decides the error: too large, backpressure or closed by its cause; later ones change nothing |
| `RelayOperations.WritesEverything` | internal/transport/relay.go:179-201 | a writer that nothing fails writes the whole queue in order |
| `RelayOperations.GracefulCloseComesTo` | internal/transport/relay.go:141-242 | a graceful close writes every accepted frame and then shuts down with the closed error |
| `StandaloneTransport.Direction.Send` | internal/transport/standalone.go:49-61 | closed, backpressure or accepted, exactly; accepted frames are appended |
| `StandaloneTransport.Direction.Receive` | internal/transport/standalone.go:111-134 | delivers the next accepted frame, and reports closed exactly when all were delivered |
| `StandaloneTransport.Direction.CloseSender` | internal/transport/standalone.go:63-71 | closes the queue's channel at most once |
| `StandaloneTransport.Endpoint.Send` | internal/transport/standalone.go:93-109 | exactly which of canceled, closed, too large and backpressure is reported, and otherwise the frame is appended |
| `StandaloneTransport.Endpoint.Close` | internal/transport/standalone.go:136-143 | closes the sending side of one direction and the receiving side of the other, once |
| `StandaloneTransport.NewStandalonePair` | internal/transport/standalone.go:22-36 | cross-wired endpoints with the control and event limits; zero means the default capacity, negative is refused |
| `StandaloneTransport.FramesAreConserved` | internal/transport/standalone.go:49-143 | in every run and both directions accepted equals delivered followed by queued, the queue fits its capacity, frames fit their limit, and no channel panics |
| `StandaloneTransport.LimitsAreFixed` | internal/transport/standalone.go:22-36 | capacity and limits are the configured ones throughout every run |
| `StandaloneTransport.DrainRun` | internal/transport/standalone.go:111-134 | whatever happens around it, an open receiver of a closed sender gets exactly the results of `Drain` |
| `StandaloneTransport.OpenReceiverDrains` | internal/transport/standalone.go:111-134 | after the sender closed, an open receiver drains every accepted frame in order and then sees only ErrClosed |
| `StandaloneTransport.DrainShape` | internal/transport/standalone.go:111-134 | the drain is the queued frames in order, then only ErrClosed |
| `StandaloneTransport.SendComesTo` | internal/transport/standalone.go:49-109 | a frame is queued exactly if it fits the side's limit, both ends are open and there is room |
| `StandaloneTransport.ReceiveComesTo` | internal/transport/standalone.go:111-134 | the oldest frame, ErrClosed, or waiting on, and in exactly which case |
| `StandaloneTransport.CloseComesTo` | internal/transport/standalone.go:136-143 | one side's Close ends its sending and its receiving direction and leaves queued frames; again it changes nothing |
| `AdminIdempotency.AdminService.Cleanup` | internal/server/admin.go:975-991 | drops exactly the finished entries that have expired |
| `AdminIdempotency.AdminService.Admit` | internal/server/admin.go:197-232 | conflict for another body, join for the same, otherwise a new running entry |
| `AdminIdempotency.AdminService.Finish` | internal/server/admin.go:236-247 | below 500 the response is published, otherwise the key is evicted; the ready channel is closed either way |
| `AdminIdempotency.RunKeepsInv` | internal/server/admin.go:179-252 | every run keeps: cached entries are live, running entries are cached, replays of an awaited entry show its response |
| `AdminIdempotency.OneExecutionInFlight` | internal/server/admin.go:179-252 | in every interleaving at most one execution per key is in flight |
| `AdminIdempotency.ReadyIsClosedOnce` | internal/server/admin.go:236-247 | in every interleaving an entry's ready channel is closed exactly once, when its handler ends |
| `AdminIdempotency.CompletedEntryNeverChanges` | internal/server/admin.go:236-247 | an ended entry's status, headers and body never change |
| `AdminIdempotency.ReplayEqualsExecution` | internal/server/admin.go:204-226 | a waiter that re-reads the entry it waited for answers exactly as the execution did |
| `AdminIdempotency.RereadAnswersLatest` | internal/server/admin.go:196-226 | in every interleaving a waiter that finds an entry answers with the key's latest execution: for its own body and its own route exactly when that one was, blank while it runs |
| `AdminIdempotency.ReplayExactlyWhen` | internal/server/admin.go:204-226 | with a non-decreasing clock, until its entry expires a waiter replays the awaited execution exactly when that ended below 500; of a failed one never |
| `AdminIdempotency.OneUseReplaysItself` | internal/server/admin.go:196-226 | a key used for one body on one route never gives a waiter the answer to anything else |
| `AdminIdempotency.WaiterGetsAnotherBodysAnswer` | internal/server/admin.go:217-226 | a failed execution's waiter answers with the completed response of a later execution, also when that was for another body |
| `AdminIdempotency.AnotherBodysAnswerIsReachable` | internal/server/admin.go:196-245 | for any two uses of a key, a run from the start in which a waiter for one gets the response to the other |
| `AdminIdempotency.AnyRouteIsAnswered` | internal/server/admin.go:196-226 | in any state, a request whose key has an unexpired response to the same body gets that one, whatever its route, and is not executed |
| `AdminIdempotency.AnotherRoutesAnswerIsReachable` | internal/server/admin.go:196-245 | for any two routes, a run from the start in which one is answered with the response of the other and only the other is executed |
| `AdminIdempotency.FailedWaiterShowsBlank` | internal/server/admin.go:217-226 | when a new execution starts before a failed one's waiter re-reads, the waiter finds its blank response, whose status 0 net/http refuses |
| `AdminIdempotency.FailureStrandsWaiter` | internal/server/admin.go:236-247 | every waiter of a failing execution comes to re-read a key the cache no longer holds |
| `AdminIdempotency.FailedWaiterIsReachable` | internal/server/admin.go:204-232 | an executing request with a waiter is reachable |
| `AdminIdempotency.NoReExecutionBeforeExpiry` | internal/server/admin.go:197-247 | with a non-decreasing clock, when an execution starts every earlier one of its key that ended below 500 has expired |
| `AdminOperations.AdmitComesTo` | internal/server/admin.go:197-233 | another body is a conflict, the same body waits or replays, and a key not in use executes under an entry of ten minutes |
| `AdminOperations.FinishComesTo` | internal/server/admin.go:236-247 | below 500 the response is stored, at 500 or above the key is evicted; the ready channel is closed either way |
| `AdminOperations.WakeComesTo` | internal/server/admin.go:209-216 | a waiter goes on when its execution has ended and not before |
| `AdminOperations.RereadComesTo` | internal/server/admin.go:217-230 | the re-read answers with what the key holds, or nothing stored if it is gone |
| `AdminOperations.SweepComesTo` | internal/server/admin.go:986-990 | a sweep drops exactly the ended executions that have expired |
| `ActionChallenges.ChallengeBook.Cleanup` | internal/server/admin.go:975-991 | drops exactly the expired challenges |
| `ActionChallenges.ChallengeBook.RequireHighRisk` | internal/server/admin.go:739-765 | admits exactly a matching unexpired signed challenge, and consumes it either way |
| `ActionChallenges.IssuedChallengeAdmitsExactlyItsAction` | internal/server/admin.go:404-765 | the round trip: whatever happens between, the first use of an issued challenge is admitted exactly if it comes from its session, for its action, signed and within the minute |
| `ActionChallenges.AdmittedActionsAreLicensed` | internal/server/admin.go:739-765 | in every interleaving an admitted action used an unexpired challenge issued to its session for exactly its method, path and body |
| `ActionChallenges.ChallengesAreOneTime` | internal/server/admin.go:739-765 | in every interleaving no challenge admits two actions |
| `ActionChallenges.SpentChallengeNeverAdmits` | internal/server/admin.go:752-755 | a challenge that was removed and decided never admits anything again |
| `ConfigStore.FileStore.Load` | internal/config/store.go:48-74 | the disk is loaded as the next rows say |
| `ConfigStore.ReadablePrimaryLoads` | internal/config/store.go:48-60 | a primary of at most 1 MiB that the library calls read is loaded, migrated exactly from version 1 |
| `ConfigStore.LostPrimaryLoadsBackup` | internal/config/store.go:60-74 | in place of a primary that is missing, too large or invalid a backup that reads is loaded as recovered; otherwise which error |
| `ConfigStore.UnsafePrimaryFails` | internal/config/store.go:131-160 | an irregular, unreadable or newer-version primary fails with its own error whatever the backup is |
| `ConfigStore.FileStore.Save` | internal/config/store.go:76-113 | the disk passes only through old, backed-up and saved states; a save of an encodable value over a primary that reads, is missing, too large or invalid succeeds if the writes do, backs up exactly a primary that reads, and the next load returns the value; other primaries are refused untouched |
| `ConfigStore.StopKeepsOldOrNew` | internal/config/store.go:76-113 | after a stop anywhere in a save, loading still works and yields the old or the new configuration |
| `ConfigStore.SaveThenLoad` | internal/config/store.go:48-113 | loading after a completed save returns what was saved |
| `ConfigStore.LostPrimaryYieldsPrevious` | internal/config/store.go:48-113 | losing the primary after a save over a valid one yields what that one held |
| `ConfigStore.LostPrimaryYieldsLastSaveButOne` | internal/config/store.go:48-113 | after two saves, losing the primary yields the first |
| `ConfigStore.UnsafePrimaryIsNeverOverwritten` | internal/config/store.go:131-226 | a newer-version (within the size limit), unsafe or unreadable primary is never changed |
| `ConfigStore.OversizedPrimaryIsReplaced` | internal/config/store.go:131-226 | an oversized primary is replaced whatever its version |
| `ConfigStore.ConfigurationIsNeverLost` | internal/config/store.go:48-113 | over any number of saves stopped anywhere, loading always works and yields the first or a saved configuration |
| `ConfigStore.OverlappingSavesLoseNothing` | internal/config/store.go:76-113 | over every interleaving of saves that share no lock, each stopped anywhere, loading always works and yields the first configuration or one that was to be saved |
| `ConfigStore.SaveAloneComesTo` | internal/config/store.go:76-113 | a save that nothing overlaps writes what `Save` writes |
| `ConfigController.ReadWorkspaceItems` | internal/node/config_controller.go:466-517 | all items are read, or none because one is malformed |
| `ConfigController.UpdateInPlace` | internal/node/config_controller.go:424-442 | the in-place change of one workspace equals `UpdateWorkspace`; a refused one has gained nothing |
| `ConfigController.ApplyItemInPlace` | internal/node/config_controller.go:421-447 | the in-place loop over the slice equals `ApplyItem`, with the same refusals |
| `ConfigController.ApplyItemsInPlace` | internal/node/config_controller.go:421-447 | the nested loops equal `ApplyItems`; even a refused list leaves no gain in the shared slice |
| `ConfigController.ApplyScalars` | internal/node/config_controller.go:371-415 | given fields replace old ones, the first malformed one refuses; which changes are sensitive |
| `ConfigController.ApplyInPlace` | internal/node/config_controller.go:366-457 | the merge equals `ApplyRemoteChanges` and leaves the new workspaces in the caller's slice |
| `ConfigController.ItemsActPointwise` | internal/node/config_controller.go:421-447 | the nested loops over one slice come to the same as folding the items over each workspace alone |
| `ConfigController.AcceptedExactlyWhen` | internal/node/config_controller.go:421-447 | a list is accepted exactly when each item names a workspace, asks for no network, and asks for write only where the items before it left write |
| `ConfigController.UpdateFromIsHarmless` | internal/node/config_controller.go:421-447 | one item gains no permission and changes no identity |
| `ConfigController.ApplyItemsIsHarmless` | internal/node/config_controller.go:421-447 | however often a list names a workspace, it gains nothing |
| `ConfigController.SameRuntimeBoundary` | internal/node/host.go:465-480 | masking and comparing decides equality outside host, relay, events and each workspace's name, profile and network flag |
| `ConfigController.AcceptedChangesAreHarmless` | internal/node/config_controller.go:366-457 | every accepted change is valid, within the hot-reload boundary, and escalates nothing |
| `ConfigController.PermissionsOfAccepted` | internal/node/config_controller.go:366-457 | a workspace of an accepted change has a permission exactly when it had it and no item takes it away |
| `ConfigFields.AcceptedChangeCarriesItsKeys` | internal/node/config_controller.go:366-457 | each of the six scalar keys is in its own field of the result, as given, or the old value when absent, and nothing else outside the workspaces differs |
| `ConfigFields.AcceptedExactlyWhenKeysAre` | internal/node/config_controller.go:366-457 | a change set is accepted exactly when it is not empty, each key has a value of its kind, the items are readable and accepted, and the result is valid |
| `ConfigFields.ItemReadExactly` | internal/node/config_controller.go:466-517 | an item is read exactly from an ID and at least one of a name, a profile by one of its two texts, and a flag |
| `ConfigFields.ItemsReadExactly` | internal/node/config_controller.go:466-517 | a list is read exactly when it is a non-empty array of such objects, in order |
| `ConfigFields.LastMentionWins` | internal/node/config_controller.go:421-447 | the last item to give a workspace a name, or a profile, wins |
| `ConfigFields.AcceptedWorkspaces` | internal/node/config_controller.go:421-447 | each workspace of an accepted change keeps its place and everything but name, profile and flag, and has the last name and profile given to it |
| `ConfigRuns.NodeConfigController.PrepareUpdate` | internal/node/config_controller.go:170-190 | load, compare and merge refine `PlanUpdate`, and leave the new workspaces in the loaded slice |
| `ConfigRuns.NodeConfigController.PrepareApproval` | internal/node/config_controller.go:216-227 | what an approval does with the record it read: missing, expired, not pending, or on to the file |
| `ConfigRuns.NodeConfigController.PrepareMerge` | internal/node/config_controller.go:228-245 | what an approval does with the configuration it loaded: stale or refused moves to rejected, else the merge is to be saved |
| `ConfigRuns.NodeConfigController.Update` | internal/node/config_controller.go:170-210 | undisturbed, a call is its events in a row; in which case nothing happens, the change is parked (a relay, proxy or workspace key), or it is saved; a parked one leaves the file alone while the response shows its workspaces |
| `ConfigRuns.NodeConfigController.Approve` | internal/node/config_controller.go:216-256 | undisturbed, a call is its events in a row; missing, older than a day, not pending, stale, refused or merged and saved, and what becomes of the record in each case |
| `ConfigRuns.NodeConfigController.Transition` | internal/node/config_controller.go:216-261 | only pending records move |
| `ConfigRuns.NodeConfigController.Reject` | internal/node/config_controller.go:258-261 | a pending change becomes rejected, any other stays |
| `ConfigRuns.RunKeepsInv` | internal/node/config_controller.go:170-261 | every interleaving keeps: records, plans and saves belong to what was computed when their change was parked |
| `ConfigRuns.ApproveSavesWhatWasParked` | internal/node/config_controller.go:216-256 | in every interleaving an approval saves exactly what was computed and validated when its change was parked |
| `ConfigRuns.RepeatedApprovalsDoNotCompound` | internal/node/config_controller.go:216-256 | two approvals of one change, repeated or at once, save the same configuration |
| `ConfigRuns.SavesAreHarmlessToTheirBase` | internal/node/config_controller.go:170-256 | in every interleaving a save is valid, within the hot-reload boundary of what it loaded, and gains no permission over it |
| `ConfigRuns.RemoteRunsEscalateNothing` | internal/node/config_controller.go:170-261 | in every interleaving of remote updates, approvals and rejections the configuration never holds a permission the first one lacked and never leaves its hot-reload boundary |
| `ConfigRuns.NoWorkspaceGainsWrite` | internal/node/config_controller.go:366-457 | in terms of profiles: a workspace that may write at the end could at the start |
| `ConfigRuns.SaveGainsNothingExactlyWhen` | internal/node/config_controller.go:170-256 | a save gains no permission over the configuration in place exactly when every permission its base has and its change keeps is still there |
| `ConfigRuns.UndisturbedSaveIsUpToDate` | internal/node/config_controller.go:170-256 | in particular when the file still holds what the call loaded |
| `ConfigRuns.PermissionsOnlyShrinkExactlyWhen` | internal/node/config_controller.go:170-261 | for every remote run: no step gives a permission back exactly when no save is stale |
| `ConfigRuns.StaleUpdateUndoesApproval` | internal/node/config_controller.go:170-256 | a run from the start in which an update saves over an approved change, whatever the two are |
| `ConfigRuns.StaleUpdateRestoresWrite` | internal/node/config_controller.go:170-256 | in such a run a workspace that an approval made read-only may write again after a mere rename of the host |
| `CertificateSwap.StageManagedCertificate` | internal/server/certificate_staging.go:21-73 | exactly when staging fails; the staged directory has the current CA and metadata, or a created CA when there was none, because the provider makes a root only where there is none |
| `CertificateSwap.ManagedCertificateSwap.Install` | internal/server/certificate_staging.go:75-101 | a failure leaves the live directory as it was unless an undoing call failed too, and then the original is at the backup path |
| `CertificateSwap.ManagedCertificateSwap.Rollback` | internal/server/certificate_staging.go:103-117 | success puts the original back at the live path; not installed or committed means nothing to do |
| `CertificateSwap.ManagedCertificateSwap.Commit` | internal/server/certificate_staging.go:119-128 | the live directory stays and only the backup may go |
| `CertificateSwap.Initialize` | internal/server/init.go:115-139 | all or nothing: the new directory with the same CA, or the original exactly when no undoing call failed; until the commit the original is always at the live or backup path |
| `IdentityRepair.Filesystem.Rollback` | internal/node/identity_repair.go:64-69 | the reverse loop computes `UndoFrom`, ignoring failed renames |
| `IdentityRepair.Filesystem.MoveOne` | internal/node/identity_repair.go:70-85 | one round moves, skips or refuses a file, exactly by what could be moved from the start |
| `IdentityRepair.Filesystem.PrepareRepair` | internal/node/identity_repair.go:61-86 | success exactly when every file is movable, and then exactly the existing ones are in the backup; failure restores the exact start, exactly when no undoing rename failed |
| `IdentityRepair.MoveRelocates` | internal/node/identity_repair.go:79-84 | one more file in the backup with its content, nothing else changed |
| `IdentityRepair.UndoRelocates` | internal/node/identity_repair.go:64-69 | undoing one move gives back exactly that file |
| `IdentityRepair.RollbackRestores` | internal/node/identity_repair.go:64-69 | after the rollback only the moves whose undoing failed remain, and the start is back exactly when there are none |
| `IdentityRepair.RepairTargetsAreDistinct` | internal/node/identity_repair.go:14-61 | no two listed files collapse onto one target |
| `IdentityRepair.RepairListsTheSixFiles` | internal/node/identity_repair.go:14-61 | which six files are listed, beside the configuration or in the default places |
| `InteractionAnswers.Index` | internal/node/control_session.go:744-757 | the index knows exactly the question IDs, the last question winning a repeated one |
| `InteractionAnswers.CheckValues` | internal/node/control_session.go:788-797 | every value non-empty, within the size, and an option unless there are none or others are allowed |
| `InteractionAnswers.CheckAnswers` | internal/node/control_session.go:782-802 | passes exactly when the answers' IDs are distinct and each is accepted by its index entry |
| `InteractionAnswers.Pigeonhole` | internal/node/control_session.go:779-803 | as many distinct answers to known questions as there are questions leave no question unanswered and no ID repeated |
| `InteractionAnswers.PassingAllIsComplete` | internal/node/control_session.go:779-803 | passing the checks makes the answers a bijection onto distinct questions |
| `InteractionAnswers.CompletePassesAll` | internal/node/control_session.go:779-803 | and a complete set of answers passes them |
| `InteractionAnswers.CollectTexts` | internal/node/control_session.go:766-774 | the loop collects `Texts` |
| `InteractionAnswers.TextsAreAllInOrder` | internal/node/control_session.go:766-774 | all selected options in order, or none because one is not a non-empty string |
| `InteractionAnswers.SubmittedExactly` | internal/node/control_session.go:758-778 | which answers a payload submits: a list, one answer, or selected options, in this precedence |
| `InteractionAnswers.Resolve` | internal/node/control_session.go:731-804 | returns the answers exactly when there are questions, the payload submits them, and they are complete |
| `Limiters.AttemptLimiter.Allowed` | internal/server/http.go:33-42 | opens a window if none is current; refuses exactly in a window with five failures |
| `Limiters.AttemptLimiter.Failure` | internal/server/http.go:43-51 | counts in the current window or opens one |
| `Limiters.KeyedAttemptLimiter.Allowed` | internal/server/pairing.go:50-61 | refuses exactly when one of the keys is blocked |
| `Limiters.KeyedAttemptLimiter.Failure` | internal/server/pairing.go:63-82 | counts every key in order, then prunes above 4096 |
| `Limiters.KeyedAttemptLimiter.Prune` | internal/server/pairing.go:75-81 | in whatever order, removes exactly the windows that are over |
| `Limiters.PruningIsInvisible` | internal/server/pairing.go:50-82 | for every sequence of calls under a non-decreasing clock the pruning limiter answers exactly as one that never prunes |
| `Limiters.RunKeepsInv` | internal/server/http.go:33-51 | every run keeps: which failures are in the window, the load of a window, and the spread of all failures |
| `Limiters.FailuresAreBounded` | internal/server/http.go:33-51 | with at most `peak` requests in flight and `strays` unasked failures a window records at most 4 + peak + strays failures and any span below a minute at most 2(4 + peak) + strays |
| `Limiters.SequentialFailuresAreBounded` | internal/server/http.go:33-51 | one request at a time, all asking: five failures per window, ten in any span below a minute |
| `Limiters.RefusalsAreEarned` | internal/server/http.go:33-42 | a refusal means five failures within the last minute |
| `LimiterRuns.CountAllAt` | internal/server/pairing.go:67-74 | with distinct keys, each key is charged once and no other |
| `LimiterRuns.NextIsStep` | internal/server/pairing.go:50-82 | one key of the keyed limiter behaves as one window of its own |
| `LimiterRuns.KeyedFailuresAreBounded` | internal/server/pairing.go:50-82 | per key, with `peak` requests carrying it in flight: at most 4 + peak failures per window and one less than twice that in any span below a minute |
| `LimiterRuns.SequentialKeyedFailuresAreBounded` | internal/server/pairing.go:50-82 | one request at a time: five per window, nine in any span below a minute |
| `LimiterRuns.KeysAreChargedPerMention` | internal/server/pairing.go:67-74 | in general each key is charged as often as it is named |
| `LimiterRuns.TenFailuresAtOnce` | internal/server/http.go:33-51 | a sequential run with ten failures within a nanosecond: ten is exact |
| `LimiterRuns.Realized` | internal/server/pairing.go:50-82 | every run of one window whose callers ask is a run of the keyed limiter |
| `LimiterRuns.NineKeyedFailuresAtOnce` | internal/server/pairing.go:50-82 | a sequential run with nine failures of one key within a nanosecond: nine is exact |
| `LimiterRuns.CrowdReachesBound` | internal/server/http.go:33-51 | for every c and u, c concurrent requests and u unasked failures record 4 + c + u failures in one window |
| `LimiterRuns.CrowdReachesMinuteBound` | internal/server/http.go:33-51 | and 2(4 + c) + u within a nanosecond: both bounds are exact |
| `LimiterRuns.KeyedCrowdReachesMinuteBound` | internal/server/pairing.go:50-82 | for every c, c concurrent requests with one key record 2(4 + c) - 1 failures within a nanosecond: the keyed bound is exact |
| `Inventory.Inventory.Enter` | internal/adapter/inventory.go:70-83 | joins the running refresh or becomes the owner of a new channel |
| `Inventory.Inventory.FinishRefresh` | internal/adapter/inventory.go:122-132 | publishes if asked; closes the channel exactly if it is the running one, never a closed one |
| `Inventory.Inventory.RefreshAlone` | internal/adapter/inventory.go:60-111 | undisturbed, a call publishes under the next generation, or leaves the snapshot when canceled |
| `Inventory.RunKeepsInv` | internal/adapter/inventory.go:60-132 | every run keeps: one owner, its generation still the next one, channels closed once, waiters' facts |
| `Inventory.RefreshIsSingleFlight` | internal/adapter/inventory.go:60-132 | in every interleaving at most one refresh runs, and one runs exactly while a channel is in place |
| `Inventory.GenerationsAreConsecutive` | internal/adapter/inventory.go:105-132 | published generations are exactly 1, 2, 3, … despite the unlocked gap, and the last is in place |
| `Inventory.ChannelsAreClosedOnce` | internal/adapter/inventory.go:122-132 | every channel is closed exactly once, published or abandoned; only the running one is open |
| `Inventory.WaitersSeeTheirRefresh` | internal/adapter/inventory.go:71-79 | a waiter returns a published (or the empty) snapshot, never older than when it came, and newer if its refresh published |
| `Inventory.WaiterWakesToNewerExactlyWhen` | internal/adapter/inventory.go:71-79 | in every interleaving a waiter whose channel is closed wakes to the snapshot in place, newer than the one it came to exactly when the refresh it joined or a later one has published |
| `Inventory.JoinedSawNewerExactlyWhen` | internal/adapter/inventory.go:71-79 | the same, both directions, of every call that has returned from its wait |
| `Inventory.AbandonedRefreshAnswersOld` | internal/adapter/inventory.go:71-132 | in every state with no refresh running: a call whose refresh is abandoned and that wakes next succeeds with the old snapshot |
| `Inventory.AbandonedRefreshAnswersNewer` | internal/adapter/inventory.go:71-132 | in every such state: if another refresh publishes before it wakes, with the newer one |
| `RelaySupervisor.NextIsBackoff` | internal/node/relay_supervisor.go:229-234 | iterating the doubling test gives the closed form `Backoff` for all positive settings |
| `RelaySupervisor.DoubledIsPower` | internal/node/relay_supervisor.go:229-234 | the closed form's doubling is initial·2^k |
| `RelaySupervisor.BackoffStaysWithinMaximum` | internal/node/relay_supervisor.go:229-234 | the interval never exceeds the maximum exactly when the initial one does not |
| `RelaySupervisor.MaximumIsKept` | internal/node/relay_supervisor.go:229-234 | at the maximum it stays there |
| `RelaySupervisor.MaximumIsReached` | internal/node/relay_supervisor.go:229-234 | it gets there from every initial interval |
| `RelaySupervisor.MaximumIsReachedExactlyWhen` | internal/node/relay_supervisor.go:229-234 | after k attempts it is there exactly when initial·2^k comes to the maximum, or to a nanosecond less |
| `RelaySupervisor.DefaultIntervals` | internal/node/relay_supervisor.go:20-22 | with the defaults the intervals are 1, 2, 4, 8, 16 and then 30 seconds |
| `RelaySupervisor.BackoffGrows` | internal/node/relay_supervisor.go:229-234 | it never shrinks and no doubling leaves 64 bits |
| `RelaySupervisor.JitterIsBounded` | internal/node/relay_supervisor.go:236-251 | for every random value the delay is within 0.8 to 1.2 of the interval, cut to nanoseconds, with both ends reached |
| `RelaySupervisor.RelaySupervisor.Attempt` | internal/node/relay_supervisor.go:112-146 | ends exactly for a done context, a revoked result, or a context done after serving; nothing stays active; one attempt and its outcome are told |
| `RelaySupervisor.RelaySupervisor.Pause` | internal/node/relay_supervisor.go:215-227 | the delay is the jittered interval |
| `RelaySupervisor.RelaySupervisor.Run` | internal/node/relay_supervisor.go:108-152 | no connect follows a round that was revoked, done or not resumed, and one of these is why it stops; every wait is the closed form for the attempts since the last stable one |

## Left out

- The SQL lease store and the admin's lease release (internal/server/admin.go:705-707): the leases are those of the in-memory store and of the hub's own steps; the admin's release goes to the store without the hub's lock.
- Validation and replay protection of frames, signatures, notifications, broadcasts of lease changes, and `nodeDetails`: not part of the lease and session invariants.
- The `controls` half of the registry: the session model is about node connections.
- TOML and JSON codecs, validators, digests, signatures and certificates: parameters or assumed injective and round-tripping, as `RoundTrips` and `InjectiveRevision` say.
- The steps inside one atomic file write: a write happens as a whole, or not at all, and may report failure although it happened.
- Handlers that panic, and goroutines that are never scheduled again: no liveness is stated beyond what a run shows.
- LeaseRouting.LeaseHub.HandleServerControl: the broadcast and the answer to the client, and what happens when sending them fails, are not modelled.
- NodeSessions.Hub.IssueNodeSession: the checks of its arguments and a failing random source, which leave everything as it is, are not modelled.
- NodeSessions.Hub.Register: closing the previous connection, the `controls` map and the node details are not modelled.
- NodeSessions.Hub.Unregister: the `controls` map and the node details are not modelled.
- NodeSessions.Hub.AuthenticateNodeRequest: runs the locked sections one after the other; interleavings are the subject of the run lemmas.
- NodeSessions.Hub.Close: does not model the `controls` map and the closing of the connections it returns, and runs its two locked sections one after the other; in the state machine they are two events.
- ConfigController.ApplyScalars: text lengths count characters rather than bytes and blank means ASCII white space, because strings are sequences of characters.
- ConfigStore.LostPrimaryYieldsPrevious: is about saves that do not overlap; of overlapping ones `OverlappingSavesLoseNothing` tells what loads.
- ConfigRuns.NodeConfigController.Update: failures to load the configuration, to draw an identifier and to read the change store are not modelled.
- ConfigRuns.NodeConfigController.Approve: failures to load the configuration and to decode a stored change are not modelled.
- CertificateSwap.StageManagedCertificate: how the provider checks and issues certificates is not modelled, only that it makes a root where there is none (internal/server/certificate_provider.go:243-252); file permissions and the deployment modes that need no managed certificate are not modelled.
- IdentityRepair.Filesystem.PrepareRepair: the checks before the move loop, the creation of the backup directory (given as new and empty) and its removal are not modelled.
- Inventory.Inventory.FinishRefresh: snapshots are values, so the copying that keeps callers from sharing a slice is not modelled; nor are detection, validation and sorting, and generations do not wrap at 64 bits.
- RelaySupervisor.JitterIsBounded: does not model float64 rounding, nor an interval so close to the 64-bit limit that 1.2 times it does not fit.
- RelaySupervisor.RelaySupervisor.Run: Close, Reconnect and the wake-up channel appear as the outcomes of a round (a done context, a finished serve, a resumed wait).
- Reloading by the host beyond `sameRuntimeBoundary`, configuration field validation, command lines, setup, web front ends, platform packages and status catalogs: plumbing, or single-branch facts.
