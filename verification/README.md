# Vision's lifecycle protocols, modelled and proved

Vision supervises MCP backends. Its hand-written protocols keep sessions, processes, capacity
and probe evidence consistent under concurrent callers. This project models each of them in
Dafny and proves what it promises.

A protocol is a state machine with one action per lock section, per environment answer and per
goroutine step. `Step` is total, runs are arbitrary sequences of actions, and the theorems hold
for every run, that is for every interleaving of those sections. Beside a machine stands a
class with the code's own fields; its methods are sections of the code, and each is proved to
move the object's state as the machine does and to keep the invariant. The lease table, the
evidence store, the token bucket and the restart window have no machine: their methods are
proved against functions on the old state or the history. Loops over maps are proved for every
iteration order. The `Outcomes` modules say what the operations achieve, in fields and literal
values: who is admitted, answered, replaced, reclaimed, and exactly when.

| files | what they model |
|---|---|
| `SharedSession`, `SharedSessionProofs`, `SharedSessionOutcomes`, `SharedSessionManager` | one subprocess shared by many upstream sessions |
| `ProxyMachine`, `ProxySessionProofs`, `ProxyOutcomes`, `ProxySessionClass` | the generations of one proxy session, the manager's slot and the two indexes |
| `ProxyRemovals`, `ProxyLease` | who removes a session from the manager when, and the shared lease of a proxy, around that machine |
| `SessionTable` | the session manager's table |
| `LeaseTable`, `LeaseManagerClass`, `SortedIds` | managed HTTP leases |
| `GatewayMachine`, `GatewayProofs`, `GatewayOutcomes`, `ManagedGatewayClass` | the gateway around them: admission, cleanup, quarantine, metrics |
| `Backend`, `ManagedBackend` | drain and recycle against requests, alone and behind the gateway |
| `ToolCache` | shared tool results |
| `Reachability`, `Lifecycle`, `ProbeManager` | probe evidence, the verdict made of it, and the workers that feed it |
| `GroupVerification`, `Reconciler` | which process groups may be signalled and which lease files removed |
| `TokenBucket`, `RestartTracker` | the two rate limits |

Assumptions: the clock does not run back; backend session identifiers are not reused, nor are
the downstream identifiers of a proxy, which carry a counter; connecting and closing in the
MCP SDK are atomic and may fail; callbacks return. Clock readings, backend answers,
process-table reads, timers and `select` choices are parameters or actions.

## What the proofs found

- The promise that a live generation is always held by the manager is false without a
  condition. A `tools/list_changed` notification that arrives before startup has stored its
  pointer (`internal/mcp/proxy.go:1335-1366`) may respawn, and startup then overwrites the
  respawned pointer (`internal/mcp/proxy.go:1080-1097`). `LiveGenerationIsHeld` proves the
  promise for every run in which no respawn passes its double check that early;
  `RacedRespawnOrphansTheStartup` proves that from every such early respawn the promise can be
  broken.
- The same early respawn ends in a nil dereference. It removes the previous generation, whose
  slot is only reserved while startup still connects, and RemoveSession reads the start time
  of what was in the slot (`internal/session/manager.go:220-234`).
  `RacedRespawnDereferencesNil` says exactly when; `NilRemovalNeedsRacedRespawn` says that no
  other call of RemoveSession does.
- The comment at `internal/mcp/proxy.go:2078-2082` says that the generation is proven live
  in the manager when its pointer is published. The manager can drop it between the two
  statements: `DroppedGenerationIsPublished`. `PublishedGenerationIsTracked` says that this is
  exactly when the published generation is not tracked. The removal then waits for closeMu and
  closes the proxy, which is what `LiveGenerationIsHeld` says.
- A drain keeps its promise exactly until MarkReady is called: `DrainedBackendIsQuiet`,
  `ReadiedDrainCanRecycleUnderLoad`.
- The session limit holds as long as no reservation of a running spawn is forgotten
  (`LimitIsKept`), and from every state in which one is, it can be exceeded
  (`ForgottenSpawnBreaksTheLimit`). CloseAll during a spawn forgets it (`LimitCanBeExceeded`).
- SpawnSession overwrites whatever its slot holds when it returns. Two spawns for one identifier
  at once lose a connection (`DoubledSpawnLosesAConnection`), nothing else does
  (`NothingIsLost`).
- Evidence that Remove has deleted can come back without a start, because the store has other
  writers: on a stop the daemon removes the probe worker before it tears the proxies down
  (`internal/daemon/daemon.go:759-761`). `RemovedEvidenceReturnsExactlyWhen` says exactly when.
- A cached tool result is fresh relative to the clock reading made before the lock is taken,
  not to the moment of the lookup (`internal/mcp/proxy.go:1866-1869`): `StaleHitExactlyWhen`,
  `StaleHitIsPossible`.
- Branches that cannot be taken: the error result of VerifyGroup, and so the
  `verification_failed` results; the empty-key guard of trimCacheLocked; the zero check in the
  completion guard of the backend coordinator.

## Model

| member | source | states |
|---|---|---|
| SharedSessionProofs.StepKeeps | internal/session/shared.go:160-345 | Every section of the manager, of the startup goroutine, of the reaper, of the health probe and of CloseAll keeps the whole invariant: where an unclosed process can be, what each counter counts, what the drain channel and the timer promise. |
| SharedSessionProofs.RunKeeps | internal/session/shared.go:160-730 | The invariant holds after every run, for any interleaving. |
| SharedSessionProofs.AtMostOneProcess | internal/session/shared.go:271-345 | In every reachable state at most one spawned shared process is not yet closed. |
| SharedSessionProofs.ShutdownIsFinal | internal/session/shared.go:685-730 | Once the first CloseAll has returned, every process ever spawned is closed, and in every continuation no startup is reserved and nothing is spawned. |
| SharedSessionProofs.LiveProcessClosedOnlyWhenQuiet | internal/session/shared.go:635-682 | A process whose transport is alive is closed, by a replacement or by the idle reaper, only in a state without dispatched requests; only shutdown is exempt. |
| SharedSessionProofs.ReservedReplacementStopsDispatch | internal/session/shared.go:494-564 | While a startup is reserved the number of dispatched requests never rises. |
| SharedSessionProofs.DrainEnds | internal/session/shared.go:509-522 | From every reachable state in which a drain channel waits, the releases of the dispatched requests, one each, bring the count to zero and close that channel. |
| SharedSessionProofs.DrainChannelClosedOnce | internal/session/shared.go:855-888 | The drain channel exists only while requests are dispatched; every drain channel ever made has been closed exactly once, except the one still waited on. |
| SharedSessionProofs.UnreferencedProcessIsReaped | internal/session/shared.go:439-470 | If an open manager with idle reaping has no references, no startup pending and a process, a reap timer is pending or its callback is queued. |
| SharedSessionProofs.RefCountIsSessionCount | internal/session/shared.go:160-208 | The reference count is the number of tracked sessions and never exceeds the configured maximum. |
| SharedSessionProofs.FailedWaiterRemovesOnlyItsOwn | internal/session/shared.go:193-206 | A waiter whose startup failed removes a session exactly when the session is still the record it joined, nobody was ever admitted on it, and it is the last waiter; otherwise the table is untouched. |
| SharedSessionProofs.AdmittedSessionStays | internal/session/shared.go:160-208 | An admitted session leaves the table only through RemoveSession of that session or CloseAll. |
| SharedSessionProofs.ExpiringSessionHasNoRequest | internal/session/shared.go:604-632 | A session marked for expiry has no request in flight, in any reachable state. |
| SharedSessionClass.SharedSessionManager.constructor | internal/session/shared.go:127-145 | A new manager is the initial state and satisfies the invariant. |
| SharedSessionClass.SharedSessionManager.ArmIdleTimerLocked | internal/session/shared.go:458-470 | The timer is replaced, under the three conditions of the code, and nothing else changes. |
| SharedSessionClass.SharedSessionManager.StartDownstreamLocked | internal/session/shared.go:271-300 | A startup is reserved, the failure count is reset, and the goroutine remembers the process and the drain it was given. |
| SharedSessionClass.SharedSessionManager.BeginAdmission | internal/session/shared.go:160-189 | First section of GetOrCreateSession: refused exactly when closed, or new and over the limit; otherwise tracked, one more waiter, timer stopped. Keeps the invariant. |
| SharedSessionClass.SharedSessionManager.TrackSession | internal/session/shared.go:167-176 | A new session gets a fresh record and one reference; a known one is left alone. |
| SharedSessionClass.SharedSessionManager.GetOrCreateDownstream | internal/session/shared.go:210-231 | What the caller gets: refused, the live process, or a startup to wait for, reserved if there was none. |
| SharedSessionClass.SharedSessionManager.AdmissionDownstream | internal/session/shared.go:191-192 | The same section on behalf of an admitted waiter. Keeps the invariant. |
| SharedSessionClass.SharedSessionManager.EndAdmission | internal/session/shared.go:193-206 | Success admits the record; the last failed waiter of a never-admitted record untracks it and rearms the timer. Keeps the invariant. |
| SharedSessionClass.SharedSessionManager.RemoveSession | internal/session/shared.go:439-454 | The session, its record and its reference go together; the timer is rearmed at zero. Keeps the invariant. |
| SharedSessionClass.SharedSessionManager.EnterRequest | internal/session/shared.go:494-506 | A request enters on a tracked session that is not expiring. Keeps the invariant. |
| SharedSessionClass.SharedSessionManager.ReadyRequest | internal/session/shared.go:528-563 | One pass of the readiness loop; a request is dispatched only with an open manager, no startup pending, no failed spawn, a process, if there is one, that has not been seen to end, and an unexpired session. Keeps the invariant. |
| SharedSessionClass.SharedSessionManager.ReleaseRequest | internal/session/shared.go:509-522 | The count goes down once per dispatched request and the drain channel is closed when it reaches zero. Keeps the invariant. |
| SharedSessionClass.SharedSessionManager.MarkExpiredSessions | internal/session/shared.go:604-622 | Exactly the stale records of tracked sessions without requests are marked, and the list names exactly the sessions marked now. Keeps the invariant. |
| SharedSessionClass.SharedSessionManager.ReapDownstream | internal/session/shared.go:635-682 | The idle callback closes the process, postpones, or does nothing, as the code decides. Keeps the invariant. |
| SharedSessionClass.SharedSessionManager.JudgeHealth | internal/session/shared.go:855-888 | A failed probe is counted or reserves a replacement, draining only a live transport with requests. Keeps the invariant. |
| SharedSessionClass.SharedSessionManager.DetachForStartup | internal/session/shared.go:289-293 | The startup goroutine detaches the previous process. Keeps the invariant. |
| SharedSessionClass.SharedSessionManager.PublishStartup | internal/session/shared.go:305-323 | The new process is published unless the manager was closed meanwhile. Keeps the invariant. |
| SharedSessionClass.SharedSessionManager.FinishStartup | internal/session/shared.go:331-343 | The startup is over, its waiters are released and an unreferenced process gets its timer; what they are told is stated by SharedSessionOutcomes.StartupResultExactlyWhen. Keeps the invariant. |
| SharedSessionClass.SharedSessionManager.CloseAllLocked | internal/session/shared.go:685-723 | The first CloseAll closes the manager, clears the tables and takes over the process. Keeps the invariant. |
| SharedSessionClass.MarkLoop | internal/session/shared.go:608-620 | The marking loop, in any iteration order, marks exactly the stale records and lists exactly their sessions. |
| ProxySessionProofs.StepKeeps | internal/mcp/proxy.go:929-2252 | Every section of startup, initialization, close, removal and respawn of a proxy session keeps the invariants of credit, indexes and generations. |
| ProxySessionProofs.RunKeeps | internal/mcp/proxy.go:929-2252 | The invariants hold after every run of one proxy session, its manager and the two indexes. |
| ProxySessionProofs.CreditFollowsGeneration | internal/mcp/proxy.go:850-966 | Whenever closeMu is free a held credit implies a live generation and a live generation an unused closeOnce; from the liveness check of publishInitialized on the session holds a credit exactly while it is live. The gauge is always exactly that credit, never negative. |
| ProxySessionProofs.LiveGenerationIsHeld | internal/mcp/proxy.go:1948-2087 | While no respawn has passed its double check before startup stored its pointer: a live generation is the one named by the proxy, the manager holds it with the index leading here, or a removal of it is under way that will close this proxy. |
| ProxySessionProofs.RacedRespawnOrphansTheStartup | internal/mcp/proxy.go:1080-1097 | The condition of LiveGenerationIsHeld cannot be weakened: from every reachable state in which a respawn passes its double check before the store, some continuation leaves a live generation that no removal reaches. |
| ProxySessionProofs.PublishedGenerationIsTracked | internal/mcp/proxy.go:2030-2087 | Whatever happens between GetSession and the pointer store, the published generation is one the manager still tracks exactly if the manager did not drop it in between. |
| ProxySessionProofs.DroppedGenerationIsPublished | internal/mcp/proxy.go:2030-2087 | A concrete run in which the manager drops the generation between GetSession and the pointer store: the respawn publishes it although the manager holds it no longer. What remains is LiveGenerationIsHeld: its removal waits for closeMu. |
| ProxySessionProofs.CloserClosesTheProxy | internal/mcp/proxy.go:2156-2252 | Whoever gets closeMu in closeDownstream leaves the proxy closed, without a credit, out of the downstream index, and, if initialized, out of the upstream index, whatever an earlier close consumed. |
| ProxySessionProofs.ClosedSharedProxyIsUnindexed | internal/mcp/proxy.go:929-966 | Once no closer waits or holds closeMu and publishInitialized is not between publication and recheck, a closed shared proxy is in neither index, even if the close landed between the liveness check and the publication. |
| ProxySessionProofs.ClosedSharedProxyStaysClosed | internal/mcp/proxy.go:1277-1284 | A closed shared proxy stays closed and without a pointer in every continuation; no respawn notification brings it back. |
| ProxyRemovals.RemovalsRefineProxy | internal/mcp/proxy.go:2088-2105 | Every run of a proxy together with its calls of RemoveSession is a run of the proxy machine, so the theorems about that machine hold of it. |
| ProxyRemovals.NilRemovalNeedsRacedRespawn | internal/session/manager.go:220-234 | As long as no respawn passes its double check before startup has stored its pointer, none of the callers of RemoveSession (DELETE, a failed tools/list, the end of a respawn) calls it on a slot that is only reserved. |
| ProxyRemovals.RacedRespawnDereferencesNil | internal/session/manager.go:220-234 | When a respawn does pass its double check that early, some continuation calls RemoveSession on a reserved slot, and dereferences nil, if and only if the slot of the startup is reserved or still to be reserved. |
| ProxyRemovals.NilIsDereferenced | internal/mcp/proxy.go:1054-1097 | It happens: a notification that arrives while the downstream is being connected is enough. |
| ProxyLease.DeadProxyHoldsNoLease | internal/mcp/proxy.go:339-361 | A shared proxy that is closed, or whose startup failed, or whose lease expired, has returned its lease when it is over, also if its close path had been consumed before, so the reference count cannot leak; a live one whose lease neither expired nor was cleared still holds it. |
| ProxySessionClass.ProxySession.constructor | internal/mcp/proxy.go:989-1010 | A new proxy session, registered under its first identifier, satisfies the invariants. |
| ProxySessionClass.ProxySession.AcquireActiveSession | internal/mcp/proxy.go:850-863 | Idempotent: the gauge rises only if no credit was held. |
| ProxySessionClass.ProxySession.ReleaseActiveSession | internal/mcp/proxy.go:870-883 | Idempotent: the gauge falls only if a credit was held. |
| ProxySessionClass.ProxySession.StoreSpawned | internal/mcp/proxy.go:1090-1097 | The startup pointer is stored unless the generation is closed. Keeps the invariants. |
| ProxySessionClass.ProxySession.PublishLiveness | internal/mcp/proxy.go:933-950 | The check inside closeMu: credit for a live generation, a terminal close for a dead shared one, nothing for a dead stateful one. Keeps the invariants. |
| ProxySessionClass.ProxySession.OnInitialized | internal/mcp/proxy.go:454-463 | Both index entries appear. Keeps the invariants. |
| ProxySessionClass.ProxySession.PublishStillLive | internal/mcp/proxy.go:958-966 | A generation that was live before and is dead after the publication is closed again. Keeps the invariants. |
| ProxySessionClass.ProxySession.OnSharedRespawn | internal/mcp/proxy.go:1277-1284 | The local pointer follows the shared process unless the proxy is closed; ProxyOutcomes.LivePointerIsLastNotified says where it points over a run. Keeps the invariants. |
| ProxySessionClass.ProxySession.OnSessionRemoved | internal/mcp/proxy.go:318-338 | The removal callback takes its entry out whoever owns it, and closes the owner if there is one. Keeps the invariants. |
| ProxySessionClass.ProxySession.CloseDownstream | internal/mcp/proxy.go:2156-2252 | closeDownstream as a whole, its sections uninterrupted: closed, no pointer, no credit, gauge back, out of both indexes. |
| ProxySessionClass.ProxySession.CloseOnceStart | internal/mcp/proxy.go:2168-2176 | The credit goes back in the first closeDownstream of a generation and in no later one. Keeps the invariants. |
| ProxySessionClass.ProxySession.CloseOnceEnd | internal/mcp/proxy.go:2202-2208 | The generation is marked closed and detached. Keeps the invariants. |
| ProxySessionClass.ProxySession.OwnerKeys | internal/mcp/proxy.go:2240-2245 | The terminal cleanup reads its two keys. Keeps the invariants. |
| ProxySessionClass.ProxySession.OnDownstreamClosed | internal/mcp/proxy.go:2246-2248 | The downstream entry goes. Keeps the invariants. |
| ProxySessionClass.ProxySession.OnClosed | internal/mcp/proxy.go:464-479 | The upstream entry goes and, if it led here, the downstream entry of the present identifier. Keeps the invariants. |
| ProxySessionClass.ProxySession.RespawnDoubleCheck | internal/mcp/proxy.go:1948-1959 | A live generation is returned instead of a respawn. Keeps the invariants. |
| ProxySessionClass.ProxySession.RekeyIndexes | internal/mcp/proxy.go:484-494 | The downstream index moves to the new identifier and the upstream entry of an initialized session comes back. Keeps the invariants. |
| ProxySessionClass.ProxySession.PublishRespawned | internal/mcp/proxy.go:2030-2087 | The closeMu section of respawnDownstream: the new generation is published exactly when the manager tracks it, with a fresh closeOnce. |
| ProxySessionClass.ProxySession.SurvivalCheck | internal/mcp/proxy.go:2030-2067 | GetSession decides; survival re-arms closeOnce and publishes the identifier. Keeps the invariants. |
| ProxySessionClass.ProxySession.Reacquire | internal/mcp/proxy.go:2075-2077 | An initialized session gets its credit back. Keeps the invariants. |
| ProxySessionClass.ProxySession.StoreRespawned | internal/mcp/proxy.go:2083-2087 | The pointer is published last. Keeps the invariants. |
| SessionTable.ConnectionsAreConserved | internal/session/manager.go:118-413 | Every connection ever stored is in the table under its own identifier or was handed out to be closed exactly once, or was overwritten or deleted exactly once by the end of another spawn for the same identifier. |
| SessionTable.NothingIsLost | internal/session/manager.go:118-199 | As long as no two spawns for one identifier run at once, in particular with fresh identifiers, no connection is overwritten or deleted that way. |
| SessionTable.DoubledSpawnLosesAConnection | internal/session/manager.go:184-199 | From every reachable state with two spawns for one identifier under way, some continuation loses a connection. |
| SessionTable.LimitIsKept | internal/session/manager.go:118-150 | The table exceeds its limit by no more sessions than were stored after their reservation was forgotten, and not at all in a run in which no reservation of a running spawn is ever forgotten. |
| SessionTable.ForgottenSpawnBreaksTheLimit | internal/session/manager.go:118-199 | From every reachable state in which a reservation of a running spawn is forgotten, some continuation ends above the limit. |
| SessionTable.LimitCanBeExceeded | internal/session/manager.go:352-372 | A CloseAll during a spawn leads above a limit of one. |
| SessionTable.StepKeeps | internal/session/manager.go:118-413 | Reservation, store, removal, reaping and CloseAll keep the table invariant. |
| SessionTable.Manager.ReserveSlot | internal/session/manager.go:118-145 | Refused exactly for an identifier in the table or a full table; otherwise an empty slot is held. Keeps the invariant. |
| SessionTable.Manager.StoreTracked | internal/session/manager.go:184-199 | The slot is filled with a fresh connection, also when it had been forgotten or filled meanwhile. Keeps the invariant. |
| SessionTable.Manager.AbandonSlot | internal/session/manager.go:148-153 | A failed spawn gives its slot back. Keeps the invariant. |
| SessionTable.Manager.GetSession | internal/session/manager.go:212-216 | It answers exactly for live sessions, with a connection made for that identifier that nobody has been told to close; nil for a missing or merely reserved slot. |
| SessionTable.Manager.RemoveSession | internal/session/manager.go:220-237 | The slot leaves the table; a tracked session hands out its connection, and a slot that was only reserved is dereferenced as nil. Keeps the invariant. |
| SessionTable.Manager.ReapExpiredSessions | internal/session/manager.go:301-336 | Exactly the sessions past their idle or lifetime limit leave, whatever the iteration order; reservations stay. Keeps the invariant. |
| SessionTable.Manager.CloseEverything | internal/session/manager.go:352-362 | Every connection is handed out and the table is empty. Keeps the invariant. |
| LeaseTable.DeriveBounds | internal/mcp/lease.go:108-147 | The never-active bound is disabled or at least 30 s and, above that floor, no longer than the idle timeout or five grace periods; the quarantine bound is at least 30 s and never disabled. int64 overflow of the grace product is included. |
| LeaseTable.ExpiryReasonExactlyWhen | internal/mcp/lease.go:274-296 | A lease is reclaimed exactly if it is active without a request in flight and one of the three rules applies, under the first that does; while nobody touches it, a reason does not go away. |
| LeaseTable.FinalizeEachKeeps | internal/mcp/lease.go:524-545 | Closing a list of leases in any order keeps the table invariant and removes exactly those leases. |
| LeaseTable.InvalidateKeeps | internal/mcp/lease.go:363-382 | InvalidateAll keeps the history and the commit count, and leaves no lease and no reservation. |
| LeaseManagerClass.LeaseManager.constructor | internal/mcp/lease.go:108-147 | An empty table with the derived bounds. |
| LeaseManagerClass.LeaseManager.Reserve | internal/mcp/lease.go:150-159 | A token that was never used, unless reservations and leases fill the capacity. |
| LeaseManagerClass.LeaseManager.Commit | internal/mcp/lease.go:161-184 | The three refusals in order, and otherwise reservation traded for an active lease. |
| LeaseManagerClass.LeaseManager.ReleaseReservation | internal/mcp/lease.go:186-190 | The reservation is gone; nothing else changes. |
| LeaseManagerClass.LeaseManager.BeginRequest | internal/mcp/lease.go:201-219 | Only an active lease admits; application activity refreshes it and moves a running deadline. |
| LeaseManagerClass.LeaseManager.CompleteRequest | internal/mcp/lease.go:221-237 | The guard takes its request back if the lease is still there. |
| LeaseManagerClass.LeaseManager.BeginSSE | internal/mcp/lease.go:240-250 | A stream counts and cancels the disconnect deadline. |
| LeaseManagerClass.LeaseManager.EndSSE | internal/mcp/lease.go:252-261 | The last stream starts the grace period, if there is one. |
| LeaseManagerClass.LeaseManager.ExpireEligible | internal/mcp/lease.go:274-304 | Exactly the eligible leases become expiring and are returned, each with the first reason that applies, in ascending order, whatever the map order. |
| LeaseManagerClass.LeaseManager.TryBeginExpiry | internal/mcp/lease.go:306-316 | Only an active lease without requests is claimed. |
| LeaseManagerClass.LeaseManager.MarkCleanupUncertain | internal/mcp/lease.go:321-332 | The lease is quarantined until the bound has passed. |
| LeaseManagerClass.LeaseManager.RestoreActive | internal/mcp/lease.go:336-346 | Only an expiring lease becomes active again. |
| LeaseManagerClass.LeaseManager.RecordClosedLocked | internal/mcp/lease.go:384-408 | A full history of 1000 rows shifts out its oldest and counts it. |
| LeaseManagerClass.LeaseManager.FinalizeClose | internal/mcp/lease.go:348-358 | The lease is recorded with its own reason and removed. |
| LeaseManagerClass.LeaseManager.ExpireCleanupUncertain | internal/mcp/lease.go:524-545 | Every quarantine that is over, and nothing else, is closed and returned with its reason in ascending order, whatever the map order. |
| LeaseManagerClass.LeaseManager.InvalidateAll | internal/mcp/lease.go:363-382 | Every lease is recorded in ascending order; leases and reservations are cleared; the count is returned. |
| LeaseManagerClass.MarkEligible | internal/mcp/lease.go:278-299 | The loop of ExpireEligible over a map in any order equals marking every lease by its own reason. |
| SortedIds.Sort | internal/mcp/lease.go:300-303 | Sorting what was collected from a map: ascending, complete, without repetition. |
| SortedIds.AscendingUnique | internal/mcp/lease.go:372 | A set of identifiers has one ascending order, so the result does not depend on the map order. |
| GatewayProofs.StepKeeps | internal/mcp/managed_gateway.go:168-517 | Every step of the gateway and of the backend's answers keeps the invariants of admission, open requests, cleanup and accounting. |
| GatewayProofs.RunKeeps | internal/mcp/managed_gateway.go:168-517 | The invariants hold after every run. |
| GatewayProofs.CleanupIsDispatchedOnce | internal/mcp/managed_gateway.go:314-344 | Each lease has at most one cleanup DELETE dispatched over its whole life; from then on, in every continuation, it is closed, or expiring or quarantined with no POST in flight; it is never active again. |
| GatewayProofs.ExpiringLeaseHasOneOwner | internal/mcp/managed_gateway.go:241-279 | A lease is expiring exactly as long as one cleanup owns it, and an owner that has not dispatched is the first to do so. |
| GatewayProofs.CapacityIsNeverExceeded | internal/mcp/lease.go:150-184 | Reservations plus leases never exceed the maximum, and the held reservations are exactly the initializes since the last InvalidateAll that are undecided or ambiguous. |
| GatewayProofs.InvalidatedReservationNeverCommits | internal/mcp/lease.go:363-382 | Whatever the backend answers after an InvalidateAll to an initialize reserved before it, and whatever happened in between, the table and the gauge stay as they are. |
| GatewayProofs.GaugeCountsLeases | internal/mcp/managed_gateway.go:349-360 | The active-session gauge is always the number of leases plus the decrements still owed for released quarantines. |
| GatewayProofs.CommitsAreConserved | internal/mcp/lease.go:384-408 | Commits equal open leases plus retained plus omitted closed rows, and the retained rows are exactly the most recent closures, at most 1000, in order. |
| GatewayProofs.DeadlinesAreMeant | internal/mcp/lease.go:201-261 | A running disconnect deadline means no open stream and lies at least the grace period after the last activity; a quarantine ends within its bound. |
| GatewayProofs.PrunedLeaseIsIdle | internal/mcp/lease.go:274-299 | What the pruner may claim has no POST open and no cleanup sent, and has been disconnected without a stream for the grace period, or has never seen application activity and been idle for at least 30 s, or has been idle for the configured timeout. |
| ManagedGatewayClass.CleanEachEffect | internal/mcp/managed_gateway.go:314-344 | After pruning, each claimed lease is gone if its disposal was proved, active if no request was sent, quarantined otherwise, and had at most one request; all others are untouched. |
| ManagedGatewayClass.ManagedHTTPGateway.constructor | internal/mcp/managed_gateway.go:84-121 | A new gateway satisfies the invariants. |
| ManagedGatewayClass.ManagedHTTPGateway.Reserve | internal/mcp/managed_gateway.go:301-305 | One attempt of reserveWithPrune: refused exactly at capacity, otherwise an undecided initialize holds the token. Keeps the invariants. |
| ManagedGatewayClass.ManagedHTTPGateway.ObserveInitialize | internal/mcp/managed_gateway.go:412-429 | An error status gives the reservation back, a good answer commits and counts, a refused commit leaves it quarantined; what a good answer leaves in the table is stated by GatewayOutcomes.AnswerOpensSession. Keeps the invariants. |
| ManagedGatewayClass.ManagedHTTPGateway.FinalizeClose | internal/mcp/managed_gateway.go:469-479 | The gauge falls exactly when the lease was there. Keeps the invariants. |
| ManagedGatewayClass.ManagedHTTPGateway.CloseExpiredQuarantines | internal/mcp/managed_gateway.go:349-360 | Every quarantine that is over ends and the gauge falls by exactly that many. Keeps the invariants. |
| ManagedGatewayClass.ManagedHTTPGateway.PruneIdle | internal/mcp/managed_gateway.go:314-344 | Quarantines end first, then exactly the eligible leases are cleaned up in ascending order. Keeps the invariants. |
| ManagedGatewayClass.ManagedHTTPGateway.ClaimEligible | internal/mcp/managed_gateway.go:316-317 | Exactly the eligible leases are claimed. Keeps the invariants. |
| ManagedGatewayClass.ManagedHTTPGateway.CleanAll | internal/mcp/managed_gateway.go:316-343 | The loop is the fold of its turns. Keeps the invariants. |
| ManagedGatewayClass.ManagedHTTPGateway.CleanUp | internal/mcp/managed_gateway.go:318-343 | One turn: at most one DELETE, and its five outcomes. Keeps the invariants. |
| ManagedGatewayClass.ManagedHTTPGateway.InvalidateAll | internal/mcp/managed_gateway.go:506-517 | No lease, no reservation, and a gauge that is only what is still owed. Keeps the invariants. |
| Backend.ZeroChannelFollowsInFlight | internal/supervisor/backend.go:70-96 | The zero channel is closed exactly while nothing is in flight, and no channel is closed twice, over every run. |
| Backend.DrainedBackendIsQuiet | internal/supervisor/backend.go:107-148 | From the start of a drain until MarkReady is called, no request is admitted, and recycle runs with nothing in flight. |
| Backend.ReadiedDrainCanRecycleUnderLoad | internal/supervisor/backend.go:58-62 | The condition cannot be weakened: wherever a drain is when MarkReady is called, waiting, woken or running recycle, some continuation recycles under a request in flight. |
| Backend.BackendCoordinator.constructor | internal/supervisor/backend.go:34-38 | A new coordinator satisfies the invariant. |
| Backend.BackendCoordinator.SetState | internal/supervisor/backend.go:52-68 | The three Mark calls set the state and nothing else. Keeps the invariant. |
| Backend.BackendCoordinator.BeginRequest | internal/supervisor/backend.go:70-81 | Admitted exactly when ready; the first request makes a fresh channel. Keeps the invariant. |
| Backend.BackendCoordinator.CompleteRequest | internal/supervisor/backend.go:83-96 | The last request closes the channel. Keeps the invariant. |
| Backend.BackendCoordinator.StartDraining | internal/supervisor/backend.go:112-122 | Refused unless ready; otherwise draining, waiting on the present channel. Keeps the invariant. |
| Backend.BackendCoordinator.AbandonDrain | internal/supervisor/backend.go:125-129 | A cancelled drain leaves the backend restarting. Keeps the invariant. |
| Backend.BackendCoordinator.StartRecycle | internal/supervisor/backend.go:130-135 | Without a MarkReady in between, nothing is in flight when recycle is called. Keeps the invariant. |
| Backend.BackendCoordinator.FinishRecycle | internal/supervisor/backend.go:137-147 | Probing after success, restarting after failure. Keeps the invariant. |
| ManagedBackend.RecycleIsQuiet | internal/mcp/managed_gateway.go:255-288 | Gateway and coordinator together: unless MarkReady was called since the drain began, recycle runs while no initialize, no POST and no cleanup DELETE is between its backend admission and its completion, and nothing that comes to the gate then is admitted or sent. |
| ManagedBackend.FlightsAreCounted | internal/mcp/managed_gateway.go:255-327 | In every run the coordinator counts exactly the admitted requests that have not completed; a POST among them is counted on its lease, and no cleanup is there twice. |
| ToolCache.OneExecutionPerKey | internal/mcp/proxy.go:1867-1895 | At most one execution per key is outstanding, and a key being executed is not cached. |
| ToolCache.ReturnedResultIsFresh | internal/mcp/proxy.go:1856-1910 | Every returned result is the outcome of one execution of the caller's own key that ended during the call, or succeeded less than the TTL before the clock reading the call made. |
| ToolCache.StaleHitExactlyWhen | internal/mcp/proxy.go:1866-1875 | At the moment of the lookup a hit is as old as the TTL, or older, exactly if the entry expired between the clock reading and the lookup. |
| ToolCache.StaleHitIsPossible | internal/mcp/proxy.go:1866-1875 | From every reachable state in which a caller has read the clock and its entry is usable, some continuation gives it a result that old. |
| ToolCache.CacheIsBounded | internal/mcp/proxy.go:1912-1932 | Outside the lock the cache never holds more than its limit. |
| ToolCache.StepKeeps | internal/mcp/proxy.go:1856-1932 | Lookup, execution, storing with trimming, waking and giving up keep the invariant. |
| ToolCache.Oldest | internal/mcp/proxy.go:1917-1926 | The inner loop finds an oldest entry, whatever the map order. |
| ToolCache.SharedToolCoordinator.constructor | internal/mcp/proxy.go:1856-1858 | An empty cache and no execution, and the invariant. |
| ToolCache.SharedToolCoordinator.Enter | internal/mcp/proxy.go:1866-1893 | A fresh entry is returned and kept; otherwise it is dropped, and the caller waits on the running execution or becomes one. Keeps the invariant. |
| ToolCache.SharedToolCoordinator.Leave | internal/mcp/proxy.go:1897-1907 | The key is no longer in flight, and a successful result is stored and trimmed to the limit. Keeps the invariant. |
| ToolCache.SharedToolCoordinator.TrimCacheLocked | internal/mcp/proxy.go:1912-1932 | Terminates, evicts oldest entries only, and exactly as many as exceed the limit. |
| Reachability.StateInClosedForm | internal/reachability/reachability.go:131-243 | After any history the streak of a depth is the number of failures since its last success; it is unreachable exactly if that is at least 3 or one of them was definitive, else reachable if it ever succeeded, else unprobed if it ever failed, else unknown. |
| Reachability.OutstandingInClosedForm | internal/reachability/reachability.go:131-166 | The probes outstanding at a depth are the largest surplus of starts over completions in any final stretch of the history. |
| Reachability.ErasureProvesTheSame | internal/reachability/reachability.go:170-185 | Erasing every start and inconclusive attempt from any history leaves every completed outcome, time, error, streak and depth state unchanged. |
| Reachability.OnlySuccessClears | internal/reachability/reachability.go:186-209 | An unreachable depth stays unreachable through every event except a success at that depth. |
| Reachability.StateShowsOutcome | internal/reachability/reachability.go:186-243 | An unreachable or unprobed depth has a failure as its last completed outcome, and a depth has a state exactly if something completed. |
| Reachability.SafeError | internal/reachability/reachability.go:345-358 | One line of at most 1024 characters without control characters. |
| Reachability.Aggregate | internal/reachability/reachability.go:280-321 | stateFor in any map order: unreachable wins, then a probe under way, then the deepest completed depth. |
| Reachability.Store.StartProbe | internal/reachability/reachability.go:131-147 | The server's record is the replay of its history with this start, and its value is returned. |
| Reachability.Store.RecordProbe | internal/reachability/reachability.go:154-209 | The same for a completed or inconclusive attempt. |
| Reachability.Store.RecordDefinitiveFailure | internal/reachability/reachability.go:215-243 | The same for a definitive failure, which leaves the server unreachable. |
| Reachability.Store.Get | internal/reachability/reachability.go:247-255 | The value of the replayed history; unprobed for an unknown server. |
| Reachability.Store.Remove | internal/reachability/reachability.go:258-262 | The history is forgotten. |
| Lifecycle.SelectProbeEvidence | internal/admin/lifecycle.go:147-164 | The selected evidence is the same for every iteration order of the map; which one that is, is stated on the history by Lifecycle.ProjectedExactlyWhen. |
| Lifecycle.ProjectReachability | internal/admin/lifecycle.go:130-145 | What is projected from the store's answer is the projection of the replayed history; stored values are always well keyed. |
| Lifecycle.SelectedIsBest | internal/admin/lifecycle.go:166-180 | The selection is a completed entry preferred to every other completed one; ProjectedExactlyWhen says what preferred means on the history. |
| Lifecycle.BestIsUnique | internal/admin/lifecycle.go:166-180 | There is only one such entry. |
| Lifecycle.ProjectionIgnoresIncompleteAttempts | internal/admin/lifecycle.go:130-145 | Everything shown about the last probe is the same with starts and inconclusive attempts erased from the history. |
| Lifecycle.RunningExactlyWhen | internal/admin/lifecycle.go:66-120 | A probeable server is running exactly when its process runs, its backend is unset or ready, no depth is unreachable, no probe is outstanding, and the deepest completed depth is reachable. |
| Lifecycle.ErrorExactlyWhen | internal/admin/lifecycle.go:66-120 | It is an error exactly when the process failed or is unknown, or runs with a backend neither ready nor on its way, or is ready with an unreachable depth or without evidence after the grace period; and every error has a reason. |
| Lifecycle.UnreachableDeepDepthIsProbed | internal/reachability/probe.go:306-320 | From the moment the end-to-end depth is unreachable no deep probe is skipped, through any further events, until a deep probe succeeds or the record is deleted. |
| Lifecycle.EndedDeepFailureIsCovered | internal/reachability/probe.go:306-320 | Either of the two ends it: the next fresh session success covers the deep depth. |
| Lifecycle.RunEndToEndProbe | internal/reachability/probe.go:306-353 | One opportunity records one start and its completion, or, when skipped, nothing. |
| ProbeManager.OneWorkerPerServer | internal/reachability/probe.go:160-190 | However starts, stops and closes interleave, no server has two workers that can write. |
| ProbeManager.EvidenceExactlyWhen | internal/reachability/probe.go:200-230 | The store has a record of a server exactly if somebody, a probe worker or another writer of the daemon's store, wrote one since the last completed removal. |
| ProbeManager.RemovedEvidenceReturnsExactlyWhen | internal/reachability/probe.go:202-210 | Remove deletes the evidence after its worker was joined: afterwards the store has a record exactly if, since the last removal, a worker started later or a foreign writer wrote one; a worker that existed then never does. |
| ProbeManager.RemovedEvidenceCanReturn | internal/mcp/proxy.go:2317-2335 | So the evidence of a stopped server can return without a start: a session probe, a shared health check or a listener report after the removal writes it. |
| ProbeManager.Manager.TakeOut | internal/reachability/probe.go:218-228 | The registered worker, if any, is taken out and waited for. Keeps the invariant. |
| ProbeManager.Manager.Register | internal/reachability/probe.go:176-188 | After the wait a fresh worker is registered. Keeps the invariant. |
| ProbeManager.Manager.Finished | internal/reachability/probe.go:192-198 | A worker removes only its own registration. Keeps the invariant. |
| GroupVerification.VerifyGroup | internal/ownership/proc.go:57-129 | The loop answers the verdict, which the first objecting member decides. |
| GroupVerification.OwnedExactlyWhen | internal/ownership/proc.go:57-129 | Owned exactly when everything could be read and agrees: boot, configuration, the leader if it is alive, and every member down to its token; and a leader that is alive is one of the members. |
| GroupVerification.DeadExactlyWhen | internal/ownership/proc.go:93-102 | Dead exactly when this boot's process table has neither leader nor members, under the right lease and configuration. |
| GroupVerification.ForeignMemberIsNeverOwned | internal/ownership/proc.go:104-124 | One member that does not prove itself makes the group neither owned nor dead. |
| Reconciler.Reconcile | internal/ownership/reconcile.go:70-224 | One result per listed record, in order; every signal directly follows an owned verification of the same lease and identity; a KILL follows a delivered TERM; a lease file goes only after a dead verification and an unchanged read-back; a result says removed or reclaimed exactly if its part of the trace removed the file, and the answers of the outside fix every result. |
| Reconciler.ReconcileRecord | internal/ownership/reconcile.go:80-222 | One record through all its exits: the answers of the outside, in order, fix the status of each, the removal and both signals, in both directions; at most one TERM and one KILL, only to its own lease, only after two owned verifications. |
| Reconciler.Reclaim | internal/ownership/reconcile.go:128-180 | From the second verification: TERM, wait, release, or on to KILL; the answers fix the status, and that the TERM is sent; reclaimed exactly if the file was removed. |
| Reconciler.AwaitTerm | internal/ownership/reconcile.go:148-183 | From the wait for a delivered TERM: on dead the file is released if unchanged, and only a group still owned and not cancelled goes on to at most one KILL; the answers fix status and reason of each exit; reclaimed exactly if the file was removed. |
| Reconciler.KillAndRelease | internal/ownership/reconcile.go:181-221 | From the verification before KILL: the answers fix the status of each exit, and that the KILL is sent; reclaimed exactly if the group died and the file was removed. |
| Reconciler.Wait | internal/ownership/reconcile.go:25-50 | The default waiter ends with its last verdict or cancelled, acts on nothing, and asks at most once per tick; the answers fix which verdict it gives, when, and whether it is cancelled. |
| Reconciler.ReleaseDead | internal/ownership/reconcile.go:258-267 | The file is removed only with a live context, an unchanged lease, and the store's consent, and with all three it is. |
| Reconciler.Send | internal/ownership/reconcile.go:144-148 | A signal is only possible right after an owned verification and a live context. |
| Reconciler.SignalledGroupIsOwned | internal/ownership/reconcile.go:128-148 | In every safe trace the process table, asked two steps before a signal, showed exactly the leased group. |
| Reconciler.RemovedLeaseIsDead | internal/ownership/reconcile.go:170-179 | In every safe trace the group of a removed lease had neither leader nor members when last looked at. |
| TokenBucket.GrantsInWindow | internal/mcp/hardening.go:160-196 | In any run the calls made between s and e are granted at most burst + floor((e-s)/interval) times. |
| TokenBucket.RefusedExactlyAtTheBound | internal/mcp/hardening.go:178-196 | A call is refused exactly when granting it would break that bound for some window ending with it. |
| TokenBucket.PacedCallIsGranted | internal/mcp/hardening.go:178-196 | The first call, and every call at least one interval after the previous one, is granted. |
| TokenBucket.Limiter.AllowAt | internal/mcp/hardening.go:178-196 | The refill, the discarded idle credit and the decision, on the fields. |
| TokenBucket.TruncDiv | internal/mcp/hardening.go:182 | Division as Go does it: the quotient has the sign of the dividend or is zero, and the rest is smaller than the divisor and has the same sign. |
| RestartTracker.RestartsAreSpaced | internal/supervisor/restart_policy.go:72-103 | Any limit+1 consecutive committed restarts span at least five minutes, whatever mix of starts, cancelled sleeps and counts occurs. |
| RestartTracker.RefusedExactlyAtTheLimit | internal/supervisor/restart_policy.go:91-95 | A start is refused exactly when the window already holds the limit of committed restarts. |
| RestartTracker.Backoff | internal/supervisor/restart_policy.go:105-120 | Each delay is exactly min(base*2^n, maxDelay), zero if either is not positive, with no int64 overflow and no intermediate value above maxDelay when base is at most maxDelay. |
| RestartTracker.RestartTracker.Prune | internal/supervisor/restart_policy.go:72-80 | Exactly the attempts that have left the window are dropped. |
| RestartTracker.RestartTracker.BeforeStart | internal/supervisor/restart_policy.go:85-103 | The initial launch is free; later ones are refused at the limit, wait the exact delay, and commit only after the wait. |
| RestartTracker.RestartTracker.Count | internal/supervisor/restart_policy.go:122-127 | Exactly the number of commits younger than the window. |
| SharedSessionOutcomes.StartupResultExactlyWhen | internal/session/shared.go:271-345 | Over every run, whoever waited for a startup is told that it succeeded exactly if it connected a process, the process was published, and the manager was open in the final section. |
| SharedSessionOutcomes.PublishedStartupAdmits | internal/session/shared.go:160-208 | From every reachable state with a published startup in an open manager, its end tells the waiter so and his session ends up admitted in the table. |
| SharedSessionOutcomes.FailedStartupRefuses | internal/session/shared.go:160-208 | The waiter of a failed startup hears that, and his session leaves the table exactly if nobody was admitted on it and nobody else waits. |
| SharedSessionOutcomes.WaiterCanBeAdmitted | internal/session/shared.go:160-345 | From every reachable state in which somebody waits for a startup that has not failed, some continuation admits him: the drained requests return, the goroutine goes through its sections. |
| SharedSessionOutcomes.AdmittedExactlyWhen | internal/session/shared.go:160-189 | Exactly an open manager admits: a known session always, a new one as long as there is room. |
| SharedSessionOutcomes.RequestEntersExactlyWhen | internal/session/shared.go:494-506 | A request enters exactly in an open manager on a tracked session that is not expiring. |
| SharedSessionOutcomes.DispatchedExactlyWhen | internal/session/shared.go:528-563 | One pass dispatches a request exactly if nothing is being replaced, no spawn has failed, the process has not been seen to end, and the session is still there and not expiring. |
| SharedSessionOutcomes.NewcomerIsServed | internal/session/shared.go:160-564 | With a process up and room in the table a new session is admitted, its request dispatched, and its release takes back what it took. |
| SharedSessionOutcomes.LookupReplacesDeadProcess | internal/session/shared.go:210-231 | Whoever looks up a process that has been seen to end, or none, gets a startup to wait for that replaces it without a drain. |
| SharedSessionOutcomes.FailedSpawnIsRetried | internal/session/shared.go:528-563 | A request that finds a failed spawn behind it starts the next one and waits for it. |
| SharedSessionOutcomes.SpawnErrorFollowsConnect | internal/session/shared.go:305-323 | A failed connect is remembered as an error, a published process clears it. |
| SharedSessionOutcomes.ThirdFailureReplaces | internal/session/shared.go:818-888 | A process that has answered is replaced by the third failed probe in a row and by no earlier one; the replacement drains exactly if requests are dispatched. |
| SharedSessionOutcomes.ClosedConnectionReplacesAtOnce | internal/session/shared.go:818-888 | A process known to have lost its connection is replaced by the first probe, without a drain. |
| SharedSessionOutcomes.IdleProcessIsClosed | internal/session/shared.go:635-682 | The timer of an unreferenced process, once it fires, closes the process and leaves the table alone. |
| SharedSessionOutcomes.LastRemovalArmsTheTimer | internal/session/shared.go:439-470 | Removing the last session arms a pending timer exactly if idle reaping is on. |
| SharedSessionOutcomes.ExpiryMarksExactly | internal/session/shared.go:604-622 | A tracked session is marked exactly if it holds no request and has been idle longer than the timeout; a touch starts the idle time anew. |
| SharedSessionOutcomes.ShutdownCompletes | internal/session/shared.go:685-730 | From every reachable state some continuation brings CloseAll to its end, wherever the startup goroutine is. |
| ProxyOutcomes.LivePointerIsLastNotified | internal/mcp/proxy.go:1277-1284 | Over every run, a live shared proxy points at the process of the last respawn notification since its startup stored the pointer, or at the process startup got if there was none. |
| ProxyOutcomes.StartupConnects | internal/mcp/proxy.go:971-1141 | A startup whose calls all succeed ends with a live proxy on its own process and, in stateful mode, a session the manager tracks. |
| ProxyOutcomes.FailedStartupCleansUp | internal/mcp/proxy.go:971-1141 | A startup that gets no process leaves no slot and no index entry; one that cannot list its tools goes on to close what it opened. |
| ProxyOutcomes.InitializationCounts | internal/mcp/proxy.go:929-966 | An initialized live session is counted once and found under both identifiers. |
| ProxyOutcomes.CheckDecides | internal/mcp/proxy.go:929-966 | The credit is taken exactly for a live session; a dead shared one goes on to close itself, a dead stateful one is only indexed. |
| ProxyOutcomes.DeadGenerationIsClosedAgain | internal/mcp/proxy.go:929-966 | A generation that died while it was published is closed by its publisher, and exactly such a one. |
| ProxyOutcomes.LiveGenerationIsNotRespawned | internal/mcp/proxy.go:1948-1990 | A call on a live session respawns nothing and changes nothing. |
| ProxyOutcomes.RespawnRevives | internal/mcp/proxy.go:1948-2128 | A dead stateful session gets a fresh generation: tracked by the manager, in the index instead of the old one, live, with a fresh closeOnce, and counted exactly if a client initialized it. |
| ProxyOutcomes.LostGenerationIsDropped | internal/mcp/proxy.go:2050-2128 | A generation the manager no longer holds is not published: the proxy stays dead and the index forgets it. |
| ProxyOutcomes.FailedRespawnLeavesNothing | internal/mcp/proxy.go:1948-2128 | A respawn that fails at its spawn or at tools/list leaves neither slot nor index entry of its own. |
| ProxyOutcomes.RemovalCloses | internal/mcp/proxy.go:2156-2252 | When the manager drops the generation of a proxy in the index, the callback leaves the proxy closed, uncredited and unindexed. |
| ProxyOutcomes.ExpiryCloses | internal/mcp/proxy.go:2156-2252 | When the lease of an indexed shared proxy expires, the callback leaves the proxy closed, uncredited and unindexed. |
| GatewayOutcomes.AdmittedExactlyWhen | internal/mcp/lease.go:150-159 | An initialize is admitted exactly while leases and reservations do not use up the maximum; it then holds a reservation of its own. |
| GatewayOutcomes.AnswerOpensSession | internal/mcp/managed_gateway.go:404-441 | For every reached state and every undecided token of the epoch, a good answer with a new identifier leaves an active unused lease, the token spent, gauge and commits one higher and the other leases untouched; the next POST is admitted. |
| GatewayOutcomes.OtherAnswersOpenNothing | internal/mcp/managed_gateway.go:404-441 | Without a header, for an older epoch, or for an identifier still leased, the initialize becomes ambiguous and table and gauge stay as they are. |
| GatewayOutcomes.RefusalFreesTheSlot | internal/mcp/managed_gateway.go:404-441 | A refused initialize gives exactly its own reservation back. |
| GatewayOutcomes.AmbiguousInitializeHoldsItsSlot | internal/mcp/managed_gateway.go:443-457 | An initialize whose outcome nobody knows holds its slot in every continuation without an InvalidateAll. |
| GatewayOutcomes.PostAdmittedExactlyWhen | internal/mcp/lease.go:201-237 | A POST is admitted exactly on an active lease; application activity starts the idle time anew and moves a running disconnect deadline to a full grace period. |
| GatewayOutcomes.PostEnds | internal/mcp/lease.go:201-237 | The end of a POST takes its own count back and is activity again if it was before. |
| GatewayOutcomes.StreamCancelsTheDeadline | internal/mcp/lease.go:240-249 | A stream opens exactly on an active lease, is counted, and cancels a running deadline. |
| GatewayOutcomes.LastStreamStartsTheDeadline | internal/mcp/lease.go:252-261 | The end of the last stream, and of no other, starts the grace period if there is one. |
| GatewayOutcomes.DeleteClaimsExactly | internal/mcp/lease.go:306-318 | A client DELETE claims exactly an active lease without requests. |
| GatewayOutcomes.ClientDeleteCloses | internal/mcp/managed_gateway.go:168-280 | A claimed lease whose cleanup is answered is gone with one row under its reason, one count less, and one DELETE sent; the others stay. |
| GatewayOutcomes.RefusedCleanupRestores | internal/mcp/lease.go:336-346 | A cleanup the backend gate refuses leaves the lease as it was, without a reason. |
| GatewayOutcomes.UncertainCleanupQuarantines | internal/mcp/lease.go:321-332 | A cleanup with an unknown outcome quarantines the lease for exactly the bound and keeps its count. |
| GatewayOutcomes.QuarantineEndsExactlyWhen | internal/mcp/lease.go:524-545 | A quarantine ends exactly when its bound has passed, and no other lease is touched. |
| GatewayOutcomes.DisconnectedLeaseIsReclaimed | internal/mcp/managed_gateway.go:314-347 | A lease nobody uses is claimed as disconnected once the grace period after its last stream is over. |
| GatewayOutcomes.IdleLeaseIsReclaimedExactlyWhen | internal/mcp/managed_gateway.go:314-347 | A lease nobody touches is claimed exactly when the idle timeout has passed, or the shorter bound of a lease that never saw application activity. |
| GatewayOutcomes.InvalidationClosesEverything | internal/mcp/lease.go:363-382 | InvalidateAll leaves no lease and no reservation, lowers the gauge by the leases, and records each lease in the order given with its age, idle time and counts. |
| SessionTable.SpawnedExactlyWhen | internal/session/manager.go:118-209 | A session is spawned exactly if its identifier is free and the limit is not reached; it has a connection of its own and the others are as before. |
| SessionTable.FailedSpawnChangesNothing | internal/session/manager.go:118-209 | A connection that cannot be had leaves the table as it was. |
| SessionTable.ReapedExactlyWhen | internal/session/manager.go:301-349 | The reaper takes a session exactly if it has been idle longer than the one limit or has lived longer than the other; a touch moves only the first. |
| SessionTable.RemovedIsHandedOut | internal/session/manager.go:220-237 | Removing a session hands its connection out and leaves the others. |
| SessionTable.CloseAllHandsOutEverything | internal/session/manager.go:352-381 | CloseAll empties the table and hands every connection in it out. |
| Backend.AdmittedExactlyWhen | internal/supervisor/backend.go:70-96 | A request is admitted exactly while the backend is ready, and then counts. |
| Backend.DrainRunsThrough | internal/supervisor/backend.go:107-148 | A drain of a ready backend admits nobody, waits for exactly the requests under way, recycles, and leaves the backend probing or restarting by the result. |
| ManagedBackend.GateDecides | internal/mcp/managed_gateway.go:282-299 | Whatever comes to the gate is admitted exactly while the backend is ready; what is refused gives back its reservation, its guard or its claim. |
| ManagedBackend.CompletionIsCounted | internal/supervisor/backend.go:70-96 | A request that completes is no longer counted. |
| ToolCache.LookupExactlyWhen | internal/mcp/proxy.go:1856-1890 | A fresh entry is returned; without one a caller waits exactly if its key is being executed and otherwise starts the only execution. |
| ToolCache.SuccessIsServedAgain | internal/mcp/proxy.go:1856-1910 | A success with room for it is served, without another execution, to whoever asks within the ttl, and to nobody later. |
| ToolCache.OthersAreNotServedAgain | internal/mcp/proxy.go:1856-1910 | A failure, a nil result, or any result without a ttl is not kept: the next caller executes anew. |
| ToolCache.WaiterGetsTheOutcome | internal/mcp/proxy.go:1856-1910 | Whoever waits for an execution, and whoever runs it, is given what it came to. |
| Reachability.SafeErrorKeepsTheText | internal/reachability/reachability.go:345-358 | What survives of an error text: it loses the blanks and control characters at both ends and what exceeds 1024 characters, and inside each control character becomes a space. |
| Reachability.EvidenceInClosedForm | internal/reachability/reachability.go:154-201 | What is kept of a depth is its last completed outcome over any history: its time, whether it succeeded, and its error. |
| Lifecycle.ProjectedExactlyWhen | internal/admin/lifecycle.go:130-180 | Over every history, the depth shown is exactly the one that comes first: three failures in a row before fewer, the later outcome before the earlier, the deeper at equal times; with the time, outcome, error and streak of its last completed outcome. |
| Lifecycle.LatestOutcomeIsShown | internal/admin/lifecycle.go:166-180 | As long as no depth has failed three times in a row the latest completed outcome of all depths is shown, otherwise the latest of those that have; at equal times the deepest. |
| Lifecycle.StoppedAndStartingExactlyWhen | internal/admin/lifecycle.go:66-120 | Stopped and starting exactly under the stated conditions on process, backend and history. |
| Lifecycle.UnprobeableExactlyWhen | internal/admin/lifecycle.go:62-120 | A server that cannot be probed is running or in error exactly by its process and its backend. |
| Lifecycle.ReasonIsShown | internal/admin/lifecycle.go:66-120 | Which reason is given: what the process reported, the backend state, the missing evidence, or the error of the evidence shown. |
| ProbeManager.StartRegistersAWorker | internal/reachability/probe.go:160-190 | A running worker is replaced by a registered running one that can write, and not before it has left; a first worker is registered at once. |
| ProbeManager.RemoveDeletesTheEvidence | internal/reachability/probe.go:202-232 | Remove takes the worker out and deletes the evidence once the worker has left. |
| ProbeManager.CloseEndsExactlyWhen | internal/reachability/probe.go:234-252 | Close is over exactly when every worker it took out has left. |
| GroupVerification.ConflictExactlyWhen | internal/ownership/proc.go:57-129 | A group is somebody else's exactly when this boot shows another configuration, leader or executable, a foreign member before any that could not be read, or a live leader outside its group. |
| Reconciler.WaitEndsOnce | internal/ownership/reconcile.go:25-50 | The answers of the outside fix the verdict of a wait and the moment it comes. |
| RestartTracker.CommittedExactlyWhen | internal/supervisor/restart_policy.go:85-103 | A later start is committed exactly if its sleep was not cut short and fewer than the limit were committed in the last five minutes; the initial launch is never counted. |
| SharedSessionOutcomes.EnsureReadyStartsExactlyWhen | internal/session/shared.go:241-244 | EnsureReady starts a process exactly if there is none that is up and none on its way. |
| ProxyOutcomes.CallerCloses | internal/mcp/proxy.go:2156-2252 | Whoever calls closeDownstream and gets the lock leaves the proxy closed, uncredited and unindexed. |
| GatewayOutcomes.SettledGaugeIsTheLeases | internal/mcp/managed_gateway.go:349-360 | The decrements owed for released quarantines bring the gauge down to exactly the number of leases. |
| ToolCache.WaiterGivesUp | internal/mcp/proxy.go:1878-1884 | A waiter whose context ends leaves alone; the execution and the other waiters stay. |
| Lifecycle.ReachabilityShownExactlyWhen | internal/admin/lifecycle.go:122-145 | Over every history: unreachable if any depth is, else probing if any probe is outstanding, else reachable or unprobed by the deepest completed depth. |
| Lifecycle.LowerExactlyWhen | internal/admin/lifecycle.go:83 | Which spellings of a backend state count as it. |
| Lifecycle.SkippedExactlyWhen | internal/reachability/probe.go:306-320 | On the history, a deep probe is skipped exactly if an outcome completed at the session depth is recent enough and the deep depth did not last fail. |
| ProxyRemovals.CallsExactlyWhen | internal/mcp/proxy.go:1948-2128 | Which sections call RemoveSession and with which identifier: a failed tools/list, the end of a respawn, and DELETE on an initialized session; no other. |
| ProxyRemovals.CallRemoves | internal/session/manager.go:220-237 | A call takes the slot out, calls back for a session that was there, and dereferences nil exactly if the slot was only reserved. |
| ProxyLease.StartupTakesTheLease | internal/mcp/proxy.go:1146-1324 | An admitted startup takes the lease at once, keeps it with a process, and gives it back without one; a refused one takes none. |
| ProxyLease.CloserReturnsTheLease | internal/mcp/proxy.go:2156-2252 | In every reachable state, whoever closes a live shared proxy returns its lease before the generation is marked closed. |
| ProxyLease.ExpiryReturnsTheLease | internal/session/shared.go:604-632 | The reaper starts one callback for a held lease; its end returns the lease even if the proxy was closed before. |
| ManagedBackend.PostPassesThrough | internal/mcp/managed_gateway.go:168-280 | A POST on an active lease of a ready backend is in flight between its admission and its completion and leaves no trace in what is counted. |
| SharedSessionOutcomes.WaiterIsToldExactly | internal/session/shared.go:191-268 | A waiter is told success exactly with a live process in an open manager, failure when the manager is closed or his context has ended, and otherwise what his startup came to. |
| SharedSessionOutcomes.RequestIsToldExactly | internal/session/shared.go:528-563 | A request that waits for a startup goes on if it succeeded and is refused if it failed or the context has ended. |
| SharedSessionOutcomes.RefusedRequestTakesBack | internal/session/shared.go:509-522 | A refused request takes back its own count and no dispatched one. |
| SharedSessionOutcomes.TimerIsStoppedOrFires | internal/session/shared.go:180-189 | An admission stops the pending idle timer; a timer that fires is pending no longer. |
| SharedSessionOutcomes.DeathIsSeen | internal/session/shared.go:305-323 | A process whose transport has died is seen to have ended once its wait returns, and not before; a probe given up changes nothing. |
| ManagedBackend.InitializePassesThrough | internal/mcp/managed_gateway.go:168-280 | An undecided initialize is admitted by a ready backend once, its answer reaches the gateway, and once decided its completion takes the count back. |

## Left out

- HTTP and MCP transport, subprocesses, the proc filesystem, lease files, JSON and YAML: replaced by parameters and environment actions.
- JSON-RPC classification (`classifyMCPMember`, `isMCPRequestID`, `classifyJSONRPCMessage`) and tools/call counting: finite case analysis over parsed JSON; whether a POST is application activity is a parameter.
- The slot-group selector, its observer callbacks and its capacity: the stateful proxy is modelled with one manager.
- One gauge for many proxies: the gauge of the proxy model is the share of one proxy session, which it raises and lowers by at most one.
- Identity of Go pointers: a completion guard compares lease pointers; the model names leases by session identifiers, which are not reused.
- Record identity in the lease table: lease records are values in a map, so the update of a record in place and aliasing are not captured.
- LeaseTable.DeriveBounds: durations are int64, but clock readings and their differences are unbounded integers.
- ProxySessionClass.ProxySession.CloseDownstream: the whole operation is stated for a run of its sections without interference; interleavings are covered by the machine.
- ProxySessionClass.ProxySession.PublishRespawned: stated for the section without a removal between the survival check and the store; ProxySessionProofs.PublishedGenerationIsTracked covers every interleaving.
- LeaseManagerClass.LeaseManager.CompleteRequest: the code also compares the lease pointer it began on; the model compares the session identifier, which is not reused.
- ManagedGatewayClass.ManagedHTTPGateway.ObserveInitialize: a backend that hands a retired session identifier out again is excluded, because backend identifiers are assumed not to be reused.
- ManagedGatewayClass.ManagedHTTPGateway.CloseExpiredQuarantines: stated for a run in which nobody looks between the locks and the gauge; GatewayProofs.GaugeCountsLeases covers every interleaving.
- ManagedGatewayClass.ManagedHTTPGateway.CleanAll: stated for an undisturbed loop; interleavings are covered by GatewayProofs.
- ManagedGatewayClass.ManagedHTTPGateway.PruneIdle: stated for a run without interference; interleavings are covered by GatewayProofs.
- ManagedGatewayClass.ManagedHTTPGateway.InvalidateAll: reap counters by reason are not modelled.
- Backend.BackendCoordinator.StartDraining: a context with a deadline, which the code refuses before it does anything, is not modelled.
- GatewayOutcomes.AnswerOpensSession: stated for an identifier the backend has not handed out before; OtherAnswersOpenNothing covers one that is still leased.
- ToolCache.SuccessIsServedAgain: stated for a cache with room; in a full one the trim may evict any of the oldest entries.
- Reconciler.Wait: only the default waiter; other implementations of the interface are not modelled.
- Reconciler.Reconcile: the store's own file handling and its second generation check are one answer; ReconcileOne, which calls Reconcile with one expected name, is not modelled.
- GroupVerification.VerifyGroup: SHA-256 and the parsing of stat and environ records are answers of the reader; the parser itself is left out.
- Lifecycle.RunningExactlyWhen: secret scrubbing and the wording of reasons are not modelled; a reason is a value that names its source.
- Lifecycle.RunEndToEndProbe: stated for an opportunity during which nobody else writes the record; the probe timeout and logging are not modelled.
- ProbeManager.OneWorkerPerServer: ticker cadence and first-tick spreading are not modelled.
- SharedSessionProofs.UnreferencedProcessIsReaped: the delay is not modelled; an old fired callback may still run early, as in the code.
- Subscriptions and notification fan-out of the shared manager, process environment and command building, catalog refresh, circuit breaker, disconnect tracker.
- TokenBucket.GrantsInWindow: the middleware around the bucket and the defaults of its configuration are not modelled.
- RestartTracker.RestartsAreSpaced: the sleep is an answer, completed or cancelled, with a later clock reading.
