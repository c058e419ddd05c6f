# A verified model of memo-graph's stateful core

memo-graph keeps governed memories and hands them to an agent. This project models
the parts of it whose correctness does not show in any one function, and proves what
they promise.

**Confirmed operator actions.** An action with an effect outside the system is
confirmed once, executed at most once and answered always the same way, although the
process may die between any two file operations and several processes may try at
once. `LedgerProtocol` has one step per file operation and per call into the outside
world; `LedgerSafety` and `LedgerTheorems` prove what every run keeps;
`OperatorActionLedger` holds the ledger as an object and the whole action as a
procedure, proved to be a run of those steps; `LedgerLocks` follows locks that no call
holds any more.

**The graph child-process supervisor.** Startup, answers, timeouts, failed sends,
exits and closing come in any order. `HostProtocol` is the state machine,
`HostStartup` and `HostRequests` its invariants, `HostTheorems` what holds over every
run, `HostProgress` what happens when nothing fails, `RestartLimiter` the sliding
window, and `GraphProcessHost` the object itself.

**The hook spool.** `SpoolCapacity` interleaves the system calls of many processes;
`HookSpool` is a single process with crashes in its flush; `AutomaticMemoryHookSpool`
is the object.

**The layered context compiler.** `HardFilters`, `ConflictResolver` (with
`ConflictTheorems`), `TokenPacker` (with `PackingOrder`), `LayeredCompiler` (with
`LayeredTheorems`, `LayeredOrder` and `LayeredRejection`) and `ContextCompiler`.
`EvidenceCompiler` is the older compiler of raw evidence and memories, `EvidenceReceipt`
what its receipt says.

**Canonical form and graph recall.** `JsonText`, `CanonicalJson` and `CanonicalText`
cover the canonical text of values, `CanonicalAcceptance` which values there are and what
some texts are; `GraphSnapshot` what is built on it; `GraphPathQuery` the path query over
the native engine; `GraphRetriever` the revalidation of what that query found,
`GraphRevalidation` the same field by field; `GraphRecall` the two together;
`GraphScopeStore` the scopes that the adapter keeps.

**Hook configuration.** `HookCommand`, `HookConfig` and `HookInstallation`.

`Ordering` holds stable sorting and what is needed about it, `JoinedIdentifiers` what a
colon between identifiers tells. Procedures of the source that update state are methods
or classes here, each proved equal to a specification function; the lemmas are about
those functions.

`dafny verify dfyconfig.toml` verifies everything.

## What the source does not do

Some properties one would expect do not hold of the code. Each comes with an example and
with the condition under which the code does meet it.

- `RefusedCallStrandsItsLock`: `withLock` throws before `.finally` is attached, so a
  contended operation lock leaves the outer confirmation lock held
  (`SecondConfirmationIsStranded` is a run). It stays until its process dies
  (`StrandedUntilItsProcessDies`, `StrandedRemovedExactly`).
- `DeathAfterCreateIsForEver` and `DeathAfterOperationCreateIsForEver`: a process that dies
  between creating a lock file and writing its owner leaves a lock that recovery refuses
  and every later call runs into. Any lock that names an owner can be recovered
  (`StrandedRemovedExactly`, `StrandedOperationRemovedExactly`).
- `UnprovenExactlyAfterLateReady` and `LeftoverExactlyAfterFailedFork`: the startup timer
  leaves its waiter in place. When the next fork() throws, the late ready message of the
  old child raises `#ready` for a generation that never presented its identity
  (`LateReadyAfterFailedFork`). Without a throwing fork() it cannot happen
  (`ReadyMeansIdentified`).
- `CrashAfterCreateExceedsLimit`: processes that die between creating their entry and
  rechecking can leave the spool over its limits. Without the files they left it is always
  within (`IdleSpoolWithoutLeftoversIsWithinLimits`).
- `RejectedExactlyForGraphPaths`: a relation_graph candidate that is excluded before
  ranking makes the receipt schema reject the whole compilation (`SecretGraphPathRejects`,
  `TwoPathsToOneRelationReject`).
- `CanonicalTextUnambiguous` and `NormalizeTwice`: an own member named `__proto__` is
  dropped from the canonical text (`ProtoMemberVanishes`), and if it holds an array or an
  object the normalized value is not accepted a second time.
- `ReceiptHonestExactly`: compileContext looks decisions up by `memory_id:revision_id`. A
  memory that has taken the identity of a piece of evidence can make the receipt call a
  shown candidate excluded (`ForgedMemoryMisreports`).
- `EvidenceDecidedExactly` and `JoinedIdsCollideExactly`: compileContext drops evidence that
  a refused memory cites (`RevokedMemoryHidesEvidence`), and a memory whose joined
  identifiers coincide with those of a better ranked one (`AmbiguousMemoryVanishes`),
  without a receipt line.
- `ExcludedCountExactly` and `ExcludedCountForEveryBudget`: excluded_count counts keys, not
  receipt lines (`RepeatedExclusionCountsOnce`).
- `KeysSharedExactly`: scope keys of the native graph collide when a principal's identifier
  contains a colon, which identifiers may. Storing or deleting one of two such scopes then
  replaces or removes the other (`ScopesAreApartExactly`, `SharedKeyOverwrites`).
- `RefusedExactlyWhenBlocked` and `NeverRefusesExactly`: node keys collide when a revision
  contains a colon and a scope's key goes on after another's. The node key is a primary
  key, so one of two such scopes cannot be stored beside the other, even for one principal
  without a colon (`ColonFreePrincipals`, `SharedNodeKeyRefuses`).
- `WrongTypesAreAccepted`: the types that a path reports are compared with the pattern, but
  not with the types of the canonical edges it is made of. They agree when the path comes
  from a query over the projected snapshot (`CandidatesFollowThePattern`).
- `RemoveUndoesMergeExactly`: merging accepts documents without hooks, with null hooks or
  with a null managed event; removing throws on them, but not once they have been merged
  into (`RemoveThrowsUnlessMerged`).

## Model

| member | source | states |
|---|---|---|
| `LedgerSafety.StepKeepsInvariant` | apps/operator-cli/src/operator-action-ledger.ts:588-767 | one file operation, callback, crash or recovery by any process keeps: locks are exclusive and held by live owners, records are shaped and backed by a matching consumption record, and what a call in progress relies on is still on disk |
| `LedgerSafety.RunKeepsInvariant` | apps/operator-cli/src/operator-action-ledger.ts:588-767 | the same over every interleaving of calls, crashes and retries |
| `LedgerTheorems.DurableStateIsAppendOnly` | apps/operator-cli/src/operator-action-ledger.ts:315-354 | over every run and every continuation of it, confirmations stay bound to one operation and intent, and a record only moves on by one state with digest, result and receipt written once |
| `LedgerTheorems.EffectAtMostOnce` | apps/operator-cli/src/operator-action-ledger.ts:689-710 | over every run an operation has at most one executed effect, and has one exactly when the outside world says it is done |
| `LedgerTheorems.EffectNeedsAuthority` | apps/operator-cli/src/operator-action-ledger.ts:608-710 | the step that executes an effect belongs to a verified, unexpired call whose digest is already durable in state effect_prepared |
| `LedgerTheorems.EffectNeedsSignature` | apps/operator-cli/src/operator-action-ledger.ts:608-710 | in fields: its confirmation binds intent and command, is signed under the pinned, unrevoked key, outlives neither intent nor the longest time allowed, and both are in force |
| `LedgerTheorems.VerifiedExactly` | packages/contracts/src/operations.ts:1074-1125 | when a confirmation counts, said of every field: exactly when it counts at its issue and is in force |
| `LedgerTheorems.AllAnswersAgree` | apps/operator-cli/src/operator-action-ledger.ts:751-767 | any two calls that return for one operation return the same result, the one of the executed effect and of the record on disk |
| `LedgerTheorems.StaleConsumptionNeverBlocks` | apps/operator-cli/src/operator-action-ledger.ts:315-354 | after the confirmation lock, a temporary file left by a crash cannot make binding fail |
| `LedgerTheorems.StaleRecordNeverBlocks` | apps/operator-cli/src/operator-action-ledger.ts:468-528 | after the operation lock, a temporary file left by a crash cannot make a record write fail |
| `LedgerTheorems.RunKeepsReceipts` | apps/operator-cli/src/operator-action-ledger.ts:711-750 | over every run each receipt copy handed out is one of the receipts that were recorded for that action |
| `LedgerTheorems.ReceiptCopiesAgree` | apps/operator-cli/src/operator-action-ledger.ts:711-750 | any two recorded copies of an operation's receipt agree on everything but the completion time |
| `LedgerTheorems.AnsweredOperationsHaveReceipts` | apps/operator-cli/src/operator-action-ledger.ts:711-750 | over every run a record on disk that is receipt_committed or responded holds a receipt that was handed out |
| `LedgerTheorems.RecordsInFields` | apps/operator-cli/src/operator-action-ledger.ts:92-125 | over every run a record on disk carries the number of its state, and effect digest, result with its digest, and its own receipt exactly from the states on that have them |
| `LedgerTheorems.ReceiptInFields` | apps/operator-cli/src/operator-action-ledger.ts:711-743 | a receipt is handed out exactly when the clock has not gone back behind the intent, and names action, confirmation, key, effect, result and times |
| `OperatorActionLedger.Ledger.constructor` | apps/operator-cli/src/operator-action-ledger.ts:239-247 | a new ledger directory is empty |
| `OperatorActionLedger.Ledger.AcquireConfirmationLock` | apps/operator-cli/src/operator-action-ledger.ts:269-306 | fails on an existing lock and changes nothing; otherwise names its owner and clears the stale temporary file |
| `OperatorActionLedger.Ledger.AcquireOperationLock` | apps/operator-cli/src/operator-action-ledger.ts:356-387 | fails on an existing lock and changes nothing; otherwise names its owner and clears all five stale temporary files of the operation only |
| `OperatorActionLedger.Ledger.RemoveOperationTemporaryFiles` | apps/operator-cli/src/operator-action-ledger.ts:510-518 | the loop removes exactly the operation's temporary files with sequence 1 to 5 |
| `OperatorActionLedger.Ledger.ReleaseOperationLock` | apps/operator-cli/src/operator-action-ledger.ts:389-393 | only the one lock file goes |
| `OperatorActionLedger.Ledger.ReleaseConfirmationLock` | apps/operator-cli/src/operator-action-ledger.ts:308-312 | only the one lock file goes |
| `OperatorActionLedger.Ledger.RecoverStaleLock` | apps/operator-cli/src/operator-action-ledger.ts:396-427 | is the recovery step of the protocol, so all run theorems cover it: the lock goes with its stale temporary files exactly when it is old enough, names the expected process, and that process is dead |
| `OperatorActionLedger.Ledger.RecoverStaleConfirmationLock` | apps/operator-cli/src/operator-action-ledger.ts:429-466 | is the recovery step for a confirmation lock, under the same conditions |
| `OperatorActionLedger.Ledger.BindConfirmation` | apps/operator-cli/src/operator-action-ledger.ts:315-354 | exclusive creation of the temporary file, then rename; nothing else changes |
| `OperatorActionLedger.Ledger.Write` | apps/operator-cli/src/operator-action-ledger.ts:468-491 | exclusive creation of the numbered temporary file, then rename over the record; nothing else changes |
| `OperatorActionLedger.Commit` | apps/operator-cli/src/operator-action-ledger.ts:468-491 | writing a next record is two protocol steps of the call and leaves that record on disk |
| `OperatorActionLedger.Authorize` | apps/operator-cli/src/operator-action-ledger.ts:608-675 | is a run of the call that goes on exactly when it may proceed: with the record found, or with a first one, its confirmation bound |
| `OperatorActionLedger.InspectExactly` | apps/operator-cli/src/operator-action-ledger.ts:608-656 | the checks let a call through exactly when record and consumption are its own and its confirmation is valid now, or for a record on disk was when issued |
| `OperatorActionLedger.Prepare` | apps/operator-cli/src/operator-action-ledger.ts:676-688 | is a run of the call that takes an authorized record to effect_prepared or fails, and executes nothing |
| `OperatorActionLedger.StartEffectOnce` | apps/operator-cli/src/operator-action-ledger.ts:691-698 | executes exactly when the confirmation still verifies, the state validates and the effect succeeds, and then logs one effect; otherwise nothing outside changes |
| `OperatorActionLedger.Resolve` | apps/operator-cli/src/operator-action-ledger.ts:689-698 | an effect that is done is reconciled to its own result and not started again; an unverified call starts none |
| `OperatorActionLedger.RunOnce` | apps/operator-cli/src/operator-action-ledger.ts:689-710 | is a run of the call that takes a prepared record to effect_committed or fails, and starts no effect that is done |
| `OperatorActionLedger.SettleReceipt` | apps/operator-cli/src/operator-action-ledger.ts:711-750 | is a run of the call that takes a committed record to receipt_committed; it cannot fail when the receipt is accepted |
| `OperatorActionLedger.SettleResponse` | apps/operator-cli/src/operator-action-ledger.ts:751-760 | is a run of the call that takes a record with a receipt to responded; it cannot fail |
| `OperatorActionLedger.ReachCommitted` | apps/operator-cli/src/operator-action-ledger.ts:676-710 | reaches a committed record exactly when the effect is done or nothing stops it; it then runs once, and otherwise not at all |
| `OperatorActionLedger.ReachResponded` | apps/operator-cli/src/operator-action-ledger.ts:711-760 | reaches responded exactly when the receipt is settled or accepted; nothing is executed |
| `OperatorActionLedger.Reply` | apps/operator-cli/src/operator-action-ledger.ts:711-767 | from a committed record to the answer: it concludes the call exactly as it succeeds or not, and executes nothing |
| `OperatorActionLedger.Callback` | apps/operator-cli/src/operator-action-ledger.ts:607-767 | the whole callback is a run of the call's own protocol steps; a retry of a done effect runs nothing, and an unverified call starts nothing |
| `OperatorActionLedger.ReleaseLocks` | apps/operator-cli/src/operator-action-ledger.ts:390-394 | the `finally` blocks remove both lock files and are two steps of the call |
| `OperatorActionLedger.WithLock` | apps/operator-cli/src/operator-action-ledger.ts:356-394 | a contended operation lock fails the call and leaves the outer confirmation lock held; otherwise both locks are gone at the end |
| `LedgerLocks.RefusedCallStrandsItsLock` | apps/operator-cli/src/operator-action-ledger.ts:269-313 | every call that finds its confirmation lock free and its operation lock taken ends failed and leaves the confirmation lock with no call to release it |
| `LedgerLocks.SecondConfirmationIsStranded` | apps/operator-cli/src/operator-action-ledger.ts:386-394 | a reachable world of one live process with two calls and two confirmations in which the second has ended and its confirmation lock is still held |
| `LedgerLocks.StrandedUntilItsProcessDies` | apps/operator-cli/src/operator-action-ledger.ts:356-394 | over every run in which the process does not die a stranded lock stays as it is, and no call with that confirmation ever gets to work |
| `LedgerLocks.StrandedRemovedExactly` | apps/operator-cli/src/operator-action-ledger.ts:356-466 | of all steps of all calls and processes exactly a recovery that expects the owner the lock names, when it is old enough and that owner is dead, removes a stranded lock; every other step leaves it stranded |
| `LedgerLocks.PartialConfirmationLockStays` | apps/operator-cli/src/operator-action-ledger.ts:429-466 | a stranded lock without an owner stays over every run, and no call with that confirmation gets to work |
| `LedgerLocks.StrandedOperationRemovedExactly` | apps/operator-cli/src/operator-action-ledger.ts:356-427 | the same as for confirmations of the lock of an operation |
| `LedgerLocks.PartialOperationLockStays` | apps/operator-cli/src/operator-action-ledger.ts:396-427 | an operation lock without an owner stays over every run, and no call passes it |
| `LedgerLocks.DeathAfterCreateIsForEver` | apps/operator-cli/src/operator-action-ledger.ts:269-306 | a process that dies right after it has created its confirmation lock leaves such a lock in every continuation of every run |
| `LedgerLocks.DeathAfterOperationCreateIsForEver` | apps/operator-cli/src/operator-action-ledger.ts:356-387 | the same of an operation lock |
| `LedgerLocks.ConfirmationLockFailureExactly` | apps/operator-cli/src/operator-action-ledger.ts:269-306 | a call that cannot complete the confirmation lock it has created fails, and the lock goes exactly when it can be unlinked |
| `LedgerLocks.OperationLockFailureExactly` | apps/operator-cli/src/operator-action-ledger.ts:356-387 | the same of an operation lock |
| `LedgerLocks.OperationReleaseExactly` | apps/operator-cli/src/operator-action-ledger.ts:389-394 | releasing removes the lock exactly when it can be unlinked, and otherwise fails the call whatever it had come to |
| `LedgerLocks.ConfirmationReleaseExactly` | apps/operator-cli/src/operator-action-ledger.ts:308-313 | the same of the confirmation lock |
| `LedgerLocks.CrashExactly` | apps/operator-cli/src/operator-action-ledger.ts:588-767 | a process that dies takes exactly its own unfinished calls with it and leaves the disk as it is |
| `LedgerLocks.OperationRecoveredExactly` | apps/operator-cli/src/operator-action-ledger.ts:396-427 | a recovery removes an operation lock, with its temporary files, exactly when it names the expected dead owner and has the asked age; else nothing changes |
| `LedgerLocks.ConfirmationRecoveredExactly` | apps/operator-cli/src/operator-action-ledger.ts:429-466 | the same of a confirmation lock |
| `OperatorActionLedger.ExecuteConfirmedOperatorAction` | apps/operator-cli/src/operator-action-ledger.ts:588-767 | a whole call is a run of protocol steps; with both locks free it returns exactly when it succeeds, with the result of the effect, done before or run once now, and leaves consumption and responded record on disk; otherwise it fails; exactly when locks are left behind |
| `OperatorActionLedger.SucceedsByState` | apps/operator-cli/src/operator-action-ledger.ts:643-767 | when a call succeeds and when it starts the effect, for no record, a consumption alone, and a record in each of its five states |
| `OperatorActionLedger.FirstCallInFields` | apps/operator-cli/src/operator-action-ledger.ts:643-767 | a first call starts the effect exactly when its confirmation is signed under the pinned key for this action and in force and the callbacks agree; it returns exactly when the receipt is accepted too |
| `RestartLimiter.Expired` | packages/graph-projection/src/process-host.ts:642-651 | how much the trimming loop shifts: everything older than the window at the front, and nothing else |
| `RestartLimiter.AskAllKeeps` | packages/graph-projection/src/process-host.ts:642-662 | over every run with a clock that does not go back, the queue is the suffix of the admission history that can still matter, and admissions stay spaced |
| `RestartLimiter.WindowNeverExceeded` | packages/graph-projection/src/process-host.ts:642-662 | over every such run no closed interval of the window's length holds more admissions than the policy allows |
| `RestartLimiter.RefusedExactlyWhenFull` | packages/graph-projection/src/process-host.ts:642-662 | a restart is admitted exactly when the window that ends now is not full |
| `HostStartup.StepKeepsStartup` | packages/graph-projection/src/process-host.ts:494-640 | every step keeps: an open start attempt is the single-flight one, with its waiter, of the current generation; the waiter and `#ready` belong to a child whose exit was not handled |
| `HostRequests.StepKeepsPending` | packages/graph-projection/src/process-host.ts:664-806 | every step keeps: a registered request is pending or settled exactly once, and none is pending for an exited child |
| `HostRequests.StepKeepsCalls` | packages/graph-projection/src/process-host.ts:664-806 | every step keeps the in-flight counter equal to the active calls, within the cap |
| `HostTheorems.UnsettledWaiterIsCurrent` | packages/graph-projection/src/process-host.ts:513-640 | in every reachable state an unsettled attempt is the shared one with a waiter of the current generation, and no step replaces its waiter before it settles |
| `HostTheorems.ReadyMeansNotExited` | packages/graph-projection/src/process-host.ts:935-951 | in every reachable state `#ready`, the waiter and the current child belong to a generation whose exit was not handled |
| `HostTheorems.StartupTimerSettles` | packages/graph-projection/src/process-host.ts:621-632 | the startup timer ends the attempt for everybody and leaves the waiter in place |
| `HostTheorems.FaultDropsReadiness` | packages/graph-projection/src/process-host.ts:1007-1020 | after a malformed or wrong startup message, a timeout, a failed send, too much stderr or an exit of the current generation the host is not ready |
| `HostTheorems.OpenCircuitStartsNothing` | packages/graph-projection/src/process-host.ts:494-511 | while the circuit is open no number of requests starts a child |
| `HostTheorems.FullWindowBlocksForCooldown` | packages/graph-projection/src/process-host.ts:494-525 | once a restart is asked for while its window is full, no child is started for the whole cooldown, however many requests come |
| `HostTheorems.EveryRequestSettledOnce` | packages/graph-projection/src/process-host.ts:664-806 | over every run a registered request is settled at most once, is pending exactly while unsettled, and once settled stays so for ever |
| `HostTheorems.NothingPendingAfterExit` | packages/graph-projection/src/process-host.ts:935-951 | after a generation's exit was handled none of its requests is pending, then or later |
| `HostTheorems.InFlightIsActiveCalls` | packages/graph-projection/src/process-host.ts:676-700 | in every reachable state the counter is the number of active calls, between zero and the cap |
| `HostTheorems.OnlyTheMatchingResponseResolves` | packages/graph-projection/src/process-host.ts:876-933 | a step resolves a pending request exactly when it is a valid answer with its id from its generation for its operation |
| `HostTheorems.TimerAlwaysSettles` | packages/graph-projection/src/process-host.ts:756-775 | after a request's timer the request is settled exactly once, by the deadline if it was pending |
| `HostTheorems.UnprovenExactlyAfterLateReady` | packages/graph-projection/src/process-host.ts:841-874 | `#ready` is raised for a generation that never presented its identity exactly when a waiter was left behind and its late ready message comes |
| `HostTheorems.LeftoverExactlyAfterFailedFork` | packages/graph-projection/src/process-host.ts:527-640 | a waiter of an older generation is left behind exactly when one is in place, the step is one that launches a child past single flight and limiter, and fork() throws |
| `HostTheorems.ReadyMeansIdentified` | packages/graph-projection/src/process-host.ts:841-874 | over every run in which fork() does not throw, `#ready` means that the current generation presented the expected identity and has not exited |
| `HostTheorems.LateReadyAfterFailedFork` | packages/graph-projection/src/process-host.ts:570-632 | the run in which it does throw and `#ready` is raised without an identity |
| `HostProgress.ChildStartedExactly` | packages/graph-projection/src/process-host.ts:494-640 | a step starts a child, of the next generation and not ready, exactly when it asks for one past single flight and limiter and fork() does not throw |
| `HostProgress.AdmittedExactly` | packages/graph-projection/src/process-host.ts:664-706 | a new call is turned away by a full host; else it takes a place, and waits unless the host is closed, closing or behind an open circuit |
| `HostProgress.RegisteredExactly` | packages/graph-projection/src/process-host.ts:707-790 | a request becomes pending under the current generation, and its call registered, exactly when the call may go on and the host is ready, connected, not closing and in time; else the call throws |
| `HostProgress.RejectedExactly` | packages/graph-projection/src/process-host.ts:707-1042 | which pending requests an exit, a failed send, a timer and closing reject, and with which code |
| `HostProgress.RequestIsAnswered` | packages/graph-projection/src/process-host.ts:664-806 | the run from open over ready, request and response to a resolved promise and a free place |
| `HostProgress.RequestRestarts` | packages/graph-projection/src/process-host.ts:494-640 | after a child has died a call starts the next one, waits for it and is sent to it |
| `HostProgress.CloseIsAnswered` | packages/graph-projection/src/process-host.ts:443-477 | closing a ready host asks the child, gets its answer and leaves nothing |
| `HostTheorems.RunAsks` | packages/graph-projection/src/process-host.ts:642-662 | the host's queue and restart count are the limiter's for the clock readings at which the host asked |
| `HostTheorems.RestartsNeverExceedWindow` | packages/graph-projection/src/process-host.ts:642-662 | over every run of the host no closed window holds more restarts than the policy admits |
| `GraphProcessHost.Supervisor.constructor` | packages/graph-projection/src/process-host.ts:236-268 | a new host has done nothing |
| `GraphProcessHost.Supervisor.SettleRequest` | packages/graph-projection/src/process-host.ts:907-933 | one promise gets one settlement and leaves the map |
| `GraphProcessHost.Supervisor.RejectGeneration` | packages/graph-projection/src/process-host.ts:1022-1034 | the loop rejects and removes exactly the pending requests of the generation |
| `GraphProcessHost.Supervisor.RejectEachPending` | packages/graph-projection/src/process-host.ts:1036-1041 | the loop rejects every pending request once |
| `GraphProcessHost.Supervisor.RejectAll` | packages/graph-projection/src/process-host.ts:1036-1042 | every pending request is rejected once and the map is empty |
| `GraphProcessHost.Supervisor.RejectStartup` | packages/graph-projection/src/process-host.ts:994-1005 | rejects and clears the waiter only of that generation |
| `GraphProcessHost.Supervisor.Quarantine` | packages/graph-projection/src/process-host.ts:1007-1020 | marks only the current generation |
| `GraphProcessHost.Supervisor.AdmitRestart` | packages/graph-projection/src/process-host.ts:642-662 | the trimming loop and the decision are the limiter's, with the circuit opened on refusal |
| `GraphProcessHost.Supervisor.ForkChild` | packages/graph-projection/src/process-host.ts:564-640 | the state after a fork and after a fork that throws |
| `GraphProcessHost.Supervisor.LaunchChild` | packages/graph-projection/src/process-host.ts:527-640 | admission, then the fork; a refused start is a rejected attempt |
| `GraphProcessHost.Supervisor.StartChild` | packages/graph-projection/src/process-host.ts:513-525 | single flight: an attempt in place is shared |
| `GraphProcessHost.Supervisor.EnsureReady` | packages/graph-projection/src/process-host.ts:494-511 | the status in which it leaves a call, and when it starts a child |
| `GraphProcessHost.Supervisor.BeginRequest` | packages/graph-projection/src/process-host.ts:664-710 | admission against the cap, counting, and readiness |
| `GraphProcessHost.Supervisor.ContinueRequest` | packages/graph-projection/src/process-host.ts:711-806 | registers the request under the current generation, or throws |
| `GraphProcessHost.Supervisor.FinishRequest` | packages/graph-projection/src/process-host.ts:801-805 | the finally block gives the place in the cap back |
| `GraphProcessHost.Supervisor.ResolveStartup` | packages/graph-projection/src/process-host.ts:861-873 | a good ready message settles the waiter and raises `#ready` |
| `GraphProcessHost.Supervisor.HandleReady` | packages/graph-projection/src/process-host.ts:841-874 | the three outcomes of a ready message |
| `GraphProcessHost.Supervisor.HandleResponse` | packages/graph-projection/src/process-host.ts:876-933 | the outcomes of a response: unknown, foreign, failed, valid, invalid |
| `GraphProcessHost.Supervisor.HandleMessage` | packages/graph-projection/src/process-host.ts:808-933 | dispatch over all kinds of message |
| `GraphProcessHost.Supervisor.HandleExit` | packages/graph-projection/src/process-host.ts:935-951 | an exit rejects its waiter and requests and clears the current child |
| `GraphProcessHost.Supervisor.FireStartupTimer` | packages/graph-projection/src/process-host.ts:621-632 | the startup timer |
| `GraphProcessHost.Supervisor.FailRequest` | packages/graph-projection/src/process-host.ts:756-800 | a request timer or a failed send settles a request that is still pending |
| `GraphProcessHost.Supervisor.FinishClose` | packages/graph-projection/src/process-host.ts:473-477 | the end of close |
| `GraphProcessHost.Supervisor.AskClose` | packages/graph-projection/src/process-host.ts:451-462 | the close request goes past cap and readiness |
| `GraphProcessHost.Supervisor.Take` | packages/graph-projection/src/process-host.ts:664-1042 | every callback, timer and caller's step on the object is a step of the protocol, so the run theorems hold of it |
| `GraphProcessHost.Supervisor.Open` | packages/graph-projection/src/process-host.ts:270-299 | open() starts the first child without counting a restart |
| `SpoolCapacity.StepKeeps` | apps/codex-bootstrap/src/hook-spool.ts:76-138 | every system call of every process keeps: a complete file that no call answers for any more is, with all that was complete before it, within both limits |
| `SpoolCapacity.RecheckPasses` | apps/codex-bootstrap/src/hook-spool.ts:114-125 | a recheck that passes proves the limits for everything complete up to its own write |
| `SpoolCapacity.IdleSpoolWithoutLeftoversIsWithinLimits` | apps/codex-bootstrap/src/hook-spool.ts:76-138 | over every interleaving of enqueues with distinct keys, crashes anywhere and flushes, whenever no enqueue is at work the files that no dead process left behind are within both limits |
| `SpoolCapacity.IdleSpoolIsWithinLimits` | apps/codex-bootstrap/src/hook-spool.ts:76-138 | with no crash between create and recheck that is the whole spool |
| `SpoolCapacity.SettledFilesAreWithinLimits` | apps/codex-bootstrap/src/hook-spool.ts:76-138 | the same at any moment for the files up to a settled one |
| `SpoolCapacity.CrashAfterCreateExceedsLimit` | apps/codex-bootstrap/src/hook-spool.ts:104-137 | a run with two such crashes whose leftovers exceed the limit |
| `SpoolCapacity.DecidedExactly` | apps/codex-bootstrap/src/hook-spool.ts:96-125 | a call creates exactly when its count left room, and keeps its file exactly when its recheck found no limit exceeded |
| `SpoolCapacity.UndisturbedOutcome` | apps/codex-bootstrap/src/hook-spool.ts:76-138 | what a call that nobody disturbs comes to, whatever is in the spool: too large, same, conflict, stored exactly when it fits beside all files, or full; only storing changes the spool |
| `SpoolCapacity.VanishedFileFails` | apps/codex-bootstrap/src/hook-spool.ts:96-137 | a call that meets a file that a flush has taken fails, and its own file goes if it had created one |
| `SpoolCapacity.FailedWriteLeavesNothing` | apps/codex-bootstrap/src/hook-spool.ts:107-137 | a write that fails half-way leaves no file |
| `SpoolCapacity.FlushMakesRoom` | apps/codex-bootstrap/src/hook-spool.ts:76-163 | after a flush has taken a file away a call stores an entry that fits in its place |
| `HookSpool.AloneStoredExactlyWhenItFits` | apps/codex-bootstrap/src/hook-spool.ts:76-138 | with no other process an entry is stored exactly when it fits, the limits hold afterwards, and enqueuing the same bytes again changes nothing |
| `HookSpool.UsedNameExactly` | apps/codex-bootstrap/src/hook-spool.ts:82-95 | under a used name equal bytes are the same entry, other bytes a conflict, and nothing changes |
| `HookSpool.FlushFollowsOrder` | apps/codex-bootstrap/src/hook-spool.ts:140-164 | over every flush exactly the entries before the first stop are gone, delivered in (mtime, name) order or quarantined; the stopping entry and all later ones are untouched |
| `HookSpool.FlushedInOrder` | apps/codex-bootstrap/src/hook-spool.ts:140-175 | in numbers: a flush never takes an entry while one with an earlier mtime, or the same and a smaller name, stays |
| `HookSpool.FlushWithoutFaults` | apps/codex-bootstrap/src/hook-spool.ts:140-175 | a flush that nothing disturbs takes every entry, delivers every request that can be read, and acknowledges what it delivered |
| `HookSpool.StopsExactly` | apps/codex-bootstrap/src/hook-spool.ts:140-175 | a flush stops only at an entry that is gone, where its process dies, or whose readable request fails to be sent |
| `HookSpool.TrimKeepsNewest` | apps/codex-bootstrap/src/hook-spool.ts:192-208 | trimming keeps everything up to 64 files, else exactly the 64 newest |
| `HookSpool.Keeps64Newest` | apps/codex-bootstrap/src/hook-spool.ts:190-209 | in numbers: at most 64 files stay, and every one that goes has an earlier mtime, or the same and a smaller name, than every one that stays |
| `HookSpool.NothingIsLost` | apps/codex-bootstrap/src/hook-spool.ts:76-209 | over every run with crashes anywhere in a flush, a file is still there unchanged, or its request was delivered, or it was unreadable and quarantined |
| `HookSpool.StoredIsKeptOrDelivered` | apps/codex-bootstrap/src/hook-spool.ts:76-209 | what an enqueue stored is later still there with its bytes or was delivered at least once; it is never quarantined |
| `AutomaticMemoryHookSpool.Spool.Entries` | apps/codex-bootstrap/src/hook-spool.ts:181-190 | lists every file once, by modification time and name |
| `AutomaticMemoryHookSpool.Spool.PendingCount` | apps/codex-bootstrap/src/hook-spool.ts:72-74 | the number of entries |
| `AutomaticMemoryHookSpool.Spool.SumOfSizes` | apps/codex-bootstrap/src/hook-spool.ts:94-97 | the fold over the sizes is the total of the directory |
| `AutomaticMemoryHookSpool.Spool.Measure` | apps/codex-bootstrap/src/hook-spool.ts:93-97 | count and bytes of the directory |
| `AutomaticMemoryHookSpool.Spool.Enqueue` | apps/codex-bootstrap/src/hook-spool.ts:76-138 | all outcomes and the directory after each |
| `AutomaticMemoryHookSpool.Spool.StoreAndRecheck` | apps/codex-bootstrap/src/hook-spool.ts:104-137 | store, recheck, and undo when too much |
| `AutomaticMemoryHookSpool.Spool.Read` | apps/codex-bootstrap/src/hook-spool.ts:166-179 | the request of a readable entry |
| `AutomaticMemoryHookSpool.Spool.QuarantineEntry` | apps/codex-bootstrap/src/hook-spool.ts:192-208 | moves the entry and trims |
| `AutomaticMemoryHookSpool.Spool.Trim` | apps/codex-bootstrap/src/hook-spool.ts:197-208 | the newest stay |
| `AutomaticMemoryHookSpool.Spool.UnlinkOldest` | apps/codex-bootstrap/src/hook-spool.ts:203-208 | the loop unlinks from the oldest until 64 are left |
| `AutomaticMemoryHookSpool.Spool.FlushEntry` | apps/codex-bootstrap/src/hook-spool.ts:146-162 | one entry: delivered and unlinked, quarantined, or the stop |
| `AutomaticMemoryHookSpool.Spool.Flush` | apps/codex-bootstrap/src/hook-spool.ts:140-164 | the loop is the flush that the lemmas are about |
| `HardFilters.HardFilterLayeredCandidates` | packages/context-compiler/src/hard-filters.ts:183-344 | the loop and the two sorts |
| `HardFilters.EligibleExactlyAdmissible` | packages/context-compiler/src/hard-filters.ts:193-344 | a candidate is eligible exactly when it is revalidated, in scope, active, valid, inline, not hidden and of the current frontier; else it gets an exclusion |
| `HardFilters.EligibleInFields` | packages/context-compiler/src/hard-filters.ts:193-344 | the same said of every field: scope, activity, validity, sensitivity, content, lane, abstraction and frontier |
| `HardFilters.ReasonExactly` | packages/context-compiler/src/hard-filters.ts:197-304 | an excluded candidate names the first of its faults in the order of the checks, which differs for memories and projections |
| `HardFilters.FilteredInOrder` | packages/context-compiler/src/hard-filters.ts:332-344 | eligible candidates by lane and revision, exclusions by lane, reason and revision |
| `HardFilters.EligibleWereCandidates` | packages/context-compiler/src/hard-filters.ts:193-344 | nothing eligible is made up |
| `HardFilters.FilterForgetsOrder` | packages/context-compiler/src/hard-filters.ts:332-344 | with distinct (lane, revision) both results are the same for every arrangement of the candidates |
| `ConflictResolver.GroupByRevision` | packages/context-compiler/src/conflict-resolver.ts:49-54 | of several sets with a revision the last one gives the group |
| `ConflictResolver.DropDuplicates` | packages/context-compiler/src/conflict-resolver.ts:61-79 | the seen-set loop keeps the first of each revision and reports the rest |
| `ConflictResolver.DropRedundant` | packages/context-compiler/src/conflict-resolver.ts:88-123 | a dropping pass keeps and reports complementary parts |
| `ConflictResolver.ResolveConflictsAndDedupe` | packages/context-compiler/src/conflict-resolver.ts:40-134 | the procedure is the function that the theorems are about |
| `ConflictTheorems.OneCandidatePerRevision` | packages/context-compiler/src/conflict-resolver.ts:61-79 | every revision keeps exactly one candidate, a non-vector one if it has any |
| `ConflictTheorems.VectorsYield` | packages/context-compiler/src/conflict-resolver.ts:62-77 | of one revision a semantic_vector candidate is kept only if there is no other |
| `ConflictTheorems.DroppedExactlyWhenReplaced` | packages/context-compiler/src/conflict-resolver.ts:81-123 | a unique candidate is dropped exactly when it is in no conflict and a retained core has its sources (topic) or a retained non-relation projection has it as a source (memory) |
| `ConflictTheorems.DroppedInFields` | packages/context-compiler/src/conflict-resolver.ts:78-134 | the same said of payloads, sources and conflict sets |
| `ConflictTheorems.ExclusionsInOrder` | packages/context-compiler/src/conflict-resolver.ts:125-133 | exclusions for a higher abstraction before duplicates, and both by revision |
| `ConflictTheorems.ConflictSetsResolve` | packages/context-compiler/src/conflict-resolver.ts:124-134 | every set with a retained member is kept, and a retained candidate's group is among the kept sets |
| `ConflictTheorems.ResolveIdempotent` | packages/context-compiler/src/conflict-resolver.ts:40-134 | resolving the result again changes nothing, with all sets or with the retained ones |
| `ConflictTheorems.ResolveConserves` | packages/context-compiler/src/conflict-resolver.ts:40-134 | every candidate is retained or excluded, once |
| `TokenPacker.PackInOrder` | packages/context-compiler/src/token-packer.ts:86-108 | the loop is the greedy choice |
| `TokenPacker.PackContextItems` | packages/context-compiler/src/token-packer.ts:56-109 | rejects budgets outside 1 to 32000, else packs |
| `TokenPacker.PackingFitsAndIsMaximal` | packages/context-compiler/src/token-packer.ts:86-108 | the budget holds and nothing left out would still fit |
| `TokenPacker.EveryCandidateDecidedOnce` | packages/context-compiler/src/token-packer.ts:68-85 | with unique keys and no negative priority every candidate is decided once |
| `TokenPacker.MinimumsAreBest` | packages/context-compiler/src/token-packer.ts:74-80 | the lane minimums are exactly the best optional candidate of each lane |
| `PackingOrder.MinimumsInNumbers` | packages/context-compiler/src/token-packer.ts:66-82 | the lane minimums are the optional items with the greatest score of their lane, at equal scores the lower key |
| `TokenPacker.RequiredIgnoreOptional` | packages/context-compiler/src/token-packer.ts:68-85 | constraint items are decided first and as if there were no optional ones |
| `TokenPacker.BestOfLaneFirst` | packages/context-compiler/src/token-packer.ts:74-85 | the best optional item of a lane is tried before any optional item that is not the best of its lane |
| `PackingOrder.DecidedInOrder` | packages/context-compiler/src/token-packer.ts:41-90 | in numbers: priority never rises; constraint items, optional items of one lane, and optional items behind the lane minimums are decided by priority, score and key |
| `PackingOrder.BetterIsIncludedFirst` | packages/context-compiler/src/token-packer.ts:56-109 | the worse of two constraint items, or of two optional ones of a lane, is never included while the better one, if it needs no more tokens, is left out |
| `TokenPacker.PackingForgetsOrder` | packages/context-compiler/src/token-packer.ts:56-109 | with unique keys the arrangement of the candidates does not matter |
| `ContextCompiler.RankLayeredCandidates` | packages/context-compiler/src/ranking-policy.ts:87-132 | the ranking is the stable sort of the scored candidates |
| `ContextCompiler.DecidePacked` | packages/context-compiler/src/index.ts:790-829 | one decision per packed candidate, found again by its revision |
| `ContextCompiler.RecomputeTokens` | packages/context-compiler/src/receipt-builder.ts:109-112 | the fold over the included items |
| `ContextCompiler.BuildLayeredArtifacts` | packages/context-compiler/src/receipt-builder.ts:68-156 | the slice holds exactly the included decisions and their token sum |
| `ContextCompiler.CompileLayeredContext` | packages/context-compiler/src/index.ts:708-888 | the procedure is the compilation that the theorems are about |
| `EvidenceCompiler.DropRepeats` | packages/context-compiler/src/index.ts:359-371 | the filter with its seen-set keeps the first candidate of each identity |
| `EvidenceCompiler.FillBudget` | packages/context-compiler/src/index.ts:387-411 | the loop yields the shown candidates in order, the last recorded reason per key, and the tokens used |
| `EvidenceCompiler.PushSupplied` | packages/context-compiler/src/index.ts:477-490 | supplied exclusions are recorded after the decided ones and get a receipt line each |
| `EvidenceCompiler.CompileContext` | packages/context-compiler/src/index.ts:357-519 | the procedure is the compilation that the theorems are about; the slice schema's budget check never fails on it |
| `EvidenceCompiler.CandidatesArePartitioned` | packages/context-compiler/src/index.ts:358-383 | every candidate is decided once, or repeats an identity, or is evidence that a memory stands for |
| `EvidenceCompiler.BestOfEachIdentity` | packages/context-compiler/src/index.ts:191-216 | every identity is represented once, by the best-ordered of its candidates |
| `EvidenceCompiler.DecidedByRankAndRecency` | packages/context-compiler/src/index.ts:191-216 | candidates are decided by rank, at equal rank the more recent first, then by identifier |
| `EvidenceCompiler.EvidenceDecidedExactly` | packages/context-compiler/src/index.ts:372-383 | evidence is decided exactly when no memory left after deduplication cites it |
| `EvidenceCompiler.RevokedMemoryHidesEvidence` | packages/context-compiler/src/index.ts:372-383 | a refused memory still hides the evidence it cites: with it nothing is shown, without it the evidence is |
| `EvidenceCompiler.ShownExactlyWhenItFits` | packages/context-compiler/src/index.ts:387-411 | an eligible candidate is shown exactly when it fits beside the shown ones before it, and one left out does not fit in what remains |
| `EvidenceCompiler.WithinBudget` | packages/context-compiler/src/index.ts:387-411 | the tokens used are the sum over the shown items and within the budget |
| `EvidenceCompiler.SliceShowsOnlyAdmissible` | packages/context-compiler/src/index.ts:357-519 | whatever the slice shows is an admissible input candidate in the request's scopes and no governed evidence |
| `EvidenceCompiler.ReceiptHonestExactly` | packages/context-compiler/src/index.ts:357-519 | for every budget that a request may have the receipt of the result calls included exactly what its slice holds, if and only if no decided memory and decided evidence share a key while one of them has a least budget within the schema's maximum |
| `EvidenceCompiler.LeastBudgetIsLeast` | packages/context-compiler/src/index.ts:387-411 | the least budget of an eligible candidate shows it and is used up by it, and no smaller one shows it |
| `EvidenceCompiler.ShowableExactly` | packages/context-compiler/src/index.ts:387-411 | a candidate is shown under some budget from 1 to the schema's maximum exactly when nothing refuses it and its least budget is within that maximum |
| `EvidenceCompiler.LeastBudgetPassesOver` | packages/context-compiler/src/index.ts:387-411 | candidates before it that are too large are passed over, so the least budget can be far below the sum of what is eligible before it |
| `EvidenceCompiler.ForgedMemoryMisreports` | packages/context-compiler/src/index.ts:357-519 | a compilation whose slice holds the evidence while its receipt calls it excluded |
| `EvidenceCompiler.CollidingPairsAreMixed` | packages/context-compiler/src/index.ts:178-189 | two decided candidates share a key only when one is evidence and the other a memory |
| `JoinedIdentifiers.JoinedIdsCollideExactly` | packages/context-compiler/src/index.ts:361-365 | two pairs of identifiers join to one text exactly when they are equal or one is the other regrouped at a colon inside |
| `EvidenceCompiler.AmbiguousMemoryVanishes` | packages/context-compiler/src/index.ts:357-519 | of two different memories whose joined identifiers coincide the lower ranked one leaves no receipt line, although it would be shown on its own |
| `EvidenceCompiler.ExcludedCountExactly` | packages/context-compiler/src/index.ts:477-519 | excluded_count is the number of excluded receipt lines exactly when the supplied exclusions have different keys, none of them that of a refused candidate, and no refused candidate shares its key with another decided one; otherwise it is smaller |
| `EvidenceCompiler.ExcludedCountForEveryBudget` | packages/context-compiler/src/index.ts:357-519 | for every budget that a request may have it is that number exactly when supplied exclusions have different keys, decided candidates too, and an exclusion shares its key only with a candidate that every budget shows |
| `EvidenceCompiler.AlwaysShownExactly` | packages/context-compiler/src/index.ts:387-411 | every budget shows a candidate exactly when nothing refuses it, it costs one token, and every eligible one before it costs more than the maximum |
| `EvidenceCompiler.RepeatedExclusionCountsOnce` | packages/context-compiler/src/index.ts:477-519 | one exclusion supplied twice makes two excluded lines and an excluded_count of one |
| `EvidenceCompiler.StatusMeaning` | packages/context-compiler/src/index.ts:444-451 | the status in terms of slice and receipt alone |
| `EvidenceReceipt.RefusedForFirstFault` | packages/context-compiler/src/index.ts:238-329 | a candidate is refused exactly for the first of its faults in the order lifecycle, time, sensitivity, content |
| `EvidenceReceipt.LineExactly` | packages/context-compiler/src/index.ts:386-476 | what the receipt line of a decided candidate says, in fields: its identity, its own reasons when shown, else its first fault or, without one, the budget |
| `EvidenceReceipt.SuppliedLines` | packages/context-compiler/src/index.ts:477-490 | supplied exclusions are repeated after all of them |
| `EvidenceReceipt.ReasonCodesExactly` | packages/context-compiler/src/index.ts:477-518 | every reason code is the reason of a line left out; all of those are named when supplied exclusions are apart from the candidates and agree with each other |
| `EvidenceReceipt.RejectedExactly` | packages/context-compiler/src/index.ts:116-150 | a call is rejected exactly for a budget outside 1 to 32000, a candidate out of scope, or a line of a lane that needs evidence |
| `EvidenceCompiler.CompileForgetsOrder` | packages/context-compiler/src/index.ts:357-519 | every arrangement of candidates that the order tells apart gives the same result |
| `LayeredTheorems.CompileForgetsOrder` | packages/context-compiler/src/index.ts:708-888 | with distinct (lane, revision) every arrangement of the candidates gives the same slice, receipt, counts and status |
| `LayeredTheorems.EveryInputDecidedOnce` | packages/context-compiler/src/index.ts:708-846 | every candidate and every supplied exclusion gets exactly one decision |
| `LayeredTheorems.TokenUsedIsThePackers` | packages/context-compiler/src/receipt-builder.ts:88-113 | the recomputed token count is the packer's and within the budget |
| `LayeredTheorems.SliceShowsOnlyAdmissible` | packages/context-compiler/src/index.ts:708-888 | whatever the slice shows is an input candidate that passed every hard check |
| `LayeredTheorems.RankConserves` | packages/context-compiler/src/ranking-policy.ts:87-132 | ranking neither loses nor adds a candidate |
| `LayeredTheorems.SliceIsOk` | packages/contracts/src/mcp.ts:655-708 | the slice's budget and conflict reference checks never fail |
| `LayeredOrder.PreferredIsShown` | packages/context-compiler/src/index.ts:708-888 | of two retained candidates of which the first is preferred, by constraint kind, then score, then revision order, and needs no more tokens, the second is never shown without the first, if that is a constraint or both are of one lane |
| `LayeredOrder.RankedInOrder` | packages/context-compiler/src/ranking-policy.ts:123-131 | the ranking goes by constraint kind, score, lane name and revision |
| `LayeredOrder.ShownExactlyWhenPacked` | packages/context-compiler/src/index.ts:790-829 | a retained candidate is shown exactly when the packer includes its item |
| `LayeredOrder.ReceiptInOrder` | packages/context-compiler/src/index.ts:835-846 | included lines first, then by lane, then by revision |
| `LayeredOrder.ReceiptReasons` | packages/context-compiler/src/index.ts:687-829 | an included line says so, one left out by the packer names the budget, every other one is an exclusion with its reason |
| `LayeredOrder.StatusMeaning` | packages/context-compiler/src/index.ts:847-888 | the status in terms of slice and receipt; shown and excluded lines make up the receipt |
| `LayeredRejection.RejectedExactlyForGraphPaths` | packages/contracts/src/receipts.ts:53-108 | an admitted call is rejected exactly when a relation_graph exclusion is supplied, a relation_graph candidate is not admissible, or another admissible candidate of its revision is of relation_graph, core or recent_l1 |
| `LayeredRejection.SecretGraphPathRejects` | packages/context-compiler/src/index.ts:687-706 | one secret relation on a graph path rejects whatever else there is |
| `LayeredRejection.TwoPathsToOneRelationReject` | packages/context-compiler/src/conflict-resolver.ts:60-80 | two admissible graph paths to one relation are rejected together although each alone is compiled |
| `CanonicalJson.NormalizeArray` | packages/contracts/src/canonical-json.ts:32-41 | the loop accepts exactly arrays without holes whose items normalize |
| `CanonicalJson.NormalizeMembers` | packages/contracts/src/canonical-json.ts:58-71 | the loop over the keys; it stops at the first refused property |
| `CanonicalJson.NormalizeObject` | packages/contracts/src/canonical-json.ts:43-73 | plain objects with enumerable data properties and no symbol keys |
| `CanonicalJson.NormalizeCanonicalValue` | packages/contracts/src/canonical-json.ts:75-95 | the recursion accepts exactly what the function says |
| `CanonicalJson.NormalizeTwice` | packages/contracts/src/canonical-json.ts:19-95 | normalizing twice is normalizing once exactly when no object that reaches the text has a `__proto__` member holding an array or object; otherwise the second pass rejects |
| `JsonText.StringRoundTrip` | packages/contracts/src/canonical-json.ts:97-99 | every string, with controls and lone surrogates, is read back from its JSON text |
| `JsonText.NumeralRoundTrip` | packages/contracts/src/canonical-json.ts:19-30 | every finite number is read back from its text in each of the five formats |
| `CanonicalText.RoundTrip` | packages/contracts/src/canonical-json.ts:97-99 | a reader undoes the printer for every normalized value |
| `CanonicalText.CanonicalTextUnambiguous` | packages/contracts/src/canonical-json.ts:97-99 | two acceptable values print the same exactly when they are equal up to key order and to members named `__proto__` |
| `CanonicalText.SameTextSameValue` | packages/contracts/src/canonical-json.ts:97-99 | without such members, exactly when they are equal up to key order |
| `CanonicalText.ProtoMemberVanishes` | packages/contracts/src/canonical-json.ts:53-71 | two different values with the same text |
| `CanonicalText.OmittingIsOmission` | packages/contracts/src/canonical-json.ts:106-127 | the digest with keys omitted is that of the object without them |
| `CanonicalText.OmittingUnambiguous` | packages/contracts/src/canonical-json.ts:106-127 | it depends on the other members and on nothing else |
| `CanonicalAcceptance.AcceptedExactly` | packages/contracts/src/canonical-json.ts:19-95 | a value is accepted exactly when it is made of literals, strings, finite numbers but negative zero with whole ones below 2^53, arrays without holes and plain objects without symbols, accessors or hidden properties |
| `CanonicalAcceptance.SafeRange` | packages/contracts/src/canonical-json.ts:19-30 | 2^53 - 1 is accepted and 2^53 is not |
| `CanonicalAcceptance.UnitTexts` | packages/contracts/src/canonical-json.ts:97-99 | what stands for itself in a string, and quote and backslash |
| `CanonicalAcceptance.LetterTexts` | packages/contracts/src/canonical-json.ts:97-99 | the five controls with a letter |
| `CanonicalAcceptance.CodeTexts` | packages/contracts/src/canonical-json.ts:97-99 | other controls and lone surrogates |
| `CanonicalAcceptance.LargeNumberText` | packages/contracts/src/canonical-json.ts:97-99 | 1e+21 in exponent form |
| `CanonicalAcceptance.SmallNumberText` | packages/contracts/src/canonical-json.ts:97-99 | 0.0000012 in decimal form |
| `CanonicalAcceptance.ArrayText` | packages/contracts/src/canonical-json.ts:97-99 | an array is its items between brackets, separated by a comma |
| `CanonicalAcceptance.ObjectText` | packages/contracts/src/canonical-json.ts:97-99 | an object is key, colon and value between braces |
| `GraphPathQuery.UniquePaths` | packages/graph-projection/src/ladybug-adapter.ts:541-571 | the loop collects the matching paths once each, or throws on a repeated node or relation |
| `GraphPathQuery.OrderPaths` | packages/graph-projection/src/ladybug-adapter.ts:572-585 | by depth and hash, from the greatest hash down in shortest_path mode |
| `GraphPathQuery.QueryPathsOnce` | packages/graph-projection/src/ladybug-adapter.ts:504-655 | the procedure is the function that the theorems are about |
| `GraphPathQuery.CompleteExactly` | packages/graph-projection/src/ladybug-adapter.ts:586-603 | an answer is complete exactly when the engine returned fewer rows than the LIMIT |
| `GraphPathQuery.CompleteInNumbers` | packages/graph-projection/src/ladybug-adapter.ts:519-603 | an answer is complete exactly when there are no more rows than maxPaths, than maxFanout for each start, and in typed_path mode than maxResults |
| `GraphPathQuery.FewWalksAreComplete` | packages/graph-projection/src/ladybug-adapter.ts:519-603 | a graph with no more walks than that always gets a complete answer |
| `GraphPathQuery.AnswerInNumbers` | packages/graph-projection/src/ladybug-adapter.ts:572-603 | the paths are within both limits and ordered by hash, up in typed_path and down in shortest_path mode |
| `GraphPathQuery.TypedCompleteIsExact` | packages/graph-projection/src/ladybug-adapter.ts:517-603 | a complete typed_path answer is exactly the set of wanted walks, whatever rows the LIMIT picks |
| `GraphPathQuery.ShortestOmitsOnlyTieLosers` | packages/graph-projection/src/ladybug-adapter.ts:577-603 | a complete shortest_path answer omits only walks that lose the hash tie-break to every retained one, and only when full |
| `GraphPathQuery.CompleteAnswersAgree` | packages/graph-projection/src/ladybug-adapter.ts:517-603 | two complete answers to one query are the same |
| `GraphPathQuery.ThrowsExactly` | packages/graph-projection/src/ladybug-adapter.ts:541-655 | a query throws exactly on a matching row with a repeated node or relation, or when it would be complete after its deadline |
| `GraphPathQuery.AnswersAreWanted` | packages/graph-projection/src/ladybug-adapter.ts:517-603 | complete or not, an answer holds only walks that the query asks for |
| `GraphScopeStore.Adapter.CreateNodes` | packages/graph-projection/src/ladybug-adapter.ts:377-406 | creates one row for each node, or stops at a node key that is taken |
| `GraphScopeStore.Adapter.CreateLinks` | packages/graph-projection/src/ladybug-adapter.ts:407-442 | creates one link between the rows of both ends for each edge |
| `GraphScopeStore.Adapter.ReplaceScope` | packages/graph-projection/src/ladybug-adapter.ts:334-465 | replaces everything under the scope's key by the snapshot and reads it back, or is refused for a taken node key and leaves everything as before; the rows stay exactly those of the stored snapshots |
| `GraphScopeStore.Adapter.DeleteScope` | packages/graph-projection/src/ladybug-adapter.ts:467-492 | removes everything under the scope's key, and the rows stay exactly those of the stored snapshots |
| `GraphScopeStore.KeysSharedExactly` | packages/graph-projection/src/ladybug-adapter.ts:124-129 | two scopes have one key exactly when they are equal or the principal of one has taken in principal and kind of the other, whose identifier gives the rest |
| `GraphScopeStore.ScopesAreApartExactly` | packages/graph-projection/src/ladybug-adapter.ts:334-492 | storing or deleting a scope changes nothing that another one sees, in every store, exactly when neither absorbs the other |
| `GraphScopeStore.NodeKeysSharedExactly` | packages/graph-projection/src/ladybug-adapter.ts:116-122 | two nodes have one node key exactly when scope key and revision are equal or one pair is the other regrouped at a colon |
| `GraphScopeStore.RefusedExactlyWhenBlocked` | packages/graph-projection/src/ladybug-adapter.ts:334-465 | storing a sound snapshot is refused exactly when a stored scope with another key has a node whose scope key and revision regroup to those of a node of the snapshot |
| `GraphScopeStore.NeverRefusesExactly` | packages/graph-projection/src/ladybug-adapter.ts:334-465 | whatever is stored of one scope the other can be stored too, exactly when neither scope key goes on after the other and a colon |
| `GraphScopeStore.ColonFreePrincipals` | packages/graph-projection/src/ladybug-adapter.ts:334-492 | while principals hold no colon no scope changes what another sees, and two can refuse each other exactly when they have one principal and kind and the identifier of one goes on after that of the other and a colon |
| `GraphScopeStore.SharedKeyOverwrites` | packages/graph-projection/src/ladybug-adapter.ts:334-492 | two principals of whom one's snapshot replaces the other's and whose deletion empties the other |
| `GraphScopeStore.SharedNodeKeyRefuses` | packages/graph-projection/src/ladybug-adapter.ts:334-465 | two scopes of one principal that can each be stored alone and not beside each other |
| `GraphSnapshot.BuildExactly` | packages/contracts/src/graph.ts:254-318 | a snapshot is built exactly when the input is sound; the order and digest checks never fail on the result |
| `GraphSnapshot.BuiltInFields` | packages/contracts/src/graph.ts:254-466 | a snapshot is built exactly from well-formed nodes and edges, said of every field; it holds the same ones, ordered by their texts, and the digest of that |
| `GraphSnapshot.BuildForgetsOrder` | packages/contracts/src/graph.ts:413-466 | every arrangement of the same nodes and edges gives one snapshot, or none |
| `GraphSnapshot.NormalizeFixesSnapshots` | packages/graph-projection/src/logical-digest.ts:9-24 | a snapshot that passes the schema is its own normal form |
| `GraphSnapshot.NormalizeIdempotent` | packages/graph-projection/src/logical-digest.ts:9-24 | normalizing is idempotent |
| `GraphSnapshot.TextArrayInjective` | packages/contracts/src/graph.ts:269-318 | the sort keys of nodes and edges are unambiguous |
| `GraphSnapshot.GlobalDigestForgetsOrder` | packages/graph-projection/src/logical-digest.ts:32-78 | the global digest, and whether there is one, does not depend on the order of the scopes |
| `GraphSnapshot.GlobalDigestIdentifies` | packages/graph-projection/src/logical-digest.ts:32-78 | with injective digests, equal global digests mean equal snapshots |
| `GraphRetriever.DistinctSorted` | packages/graph-projection/src/graph-retriever.ts:377-381 | the observed allowlist, each identity once and in order |
| `GraphRetriever.CheckEdges` | packages/graph-projection/src/graph-retriever.ts:593-619 | the loop over a path's relations |
| `GraphRetriever.CheckNodes` | packages/graph-projection/src/graph-retriever.ts:620-646 | the loop over a path's nodes |
| `GraphRetriever.RevalidatePath` | packages/graph-projection/src/graph-retriever.ts:582-660 | a path becomes a candidate exactly when all its checks hold |
| `GraphRetriever.RevalidatePaths` | packages/graph-projection/src/graph-retriever.ts:580-661 | the loop splits the paths |
| `GraphRetriever.Conclude` | packages/graph-projection/src/graph-retriever.ts:492-733 | from the answer of the query to the result |
| `GraphRetriever.RetrieveOnce` | packages/graph-projection/src/graph-retriever.ts:254-734 | the procedure is the function that the theorems are about |
| `GraphRetriever.CandidatesAreCanonicalWalks` | packages/graph-projection/src/graph-retriever.ts:436-733 | even if storage changes between reads, a candidate is a current, in-scope, valid walk in the one snapshot that was canonical before, during and after the query |
| `GraphRevalidation.CandidateExactly` | packages/graph-projection/src/graph-retriever.ts:268-733 | a path is a candidate exactly when the reads can be trusted, the graph returned it, and, said of every field, its nodes, edges and projections are active, in scope, valid, consistent and at the frontier, its relations allowed, depth and types as asked |
| `GraphRevalidation.CandidateFields` | packages/graph-projection/src/graph-retriever.ts:647-660 | a candidate carries the projection of its last relation and ranks by depth and place |
| `GraphRevalidation.TrustedExactly` | packages/graph-projection/src/graph-retriever.ts:260-594 | reads are trusted exactly when nothing stands in the way, from the starts to the checkpoint after the query |
| `GraphRevalidation.RefusedInOrder` | packages/graph-projection/src/graph-retriever.ts:260-594 | otherwise there are no candidates, and the reason is the first obstacle in the order of the reads |
| `GraphRevalidation.TrustedCodes` | packages/graph-projection/src/graph-retriever.ts:701-733 | a trusted result gives exactly the reasons that apply and is truncated exactly when it gives one |
| `GraphRevalidation.AllowedInNumbers` | packages/graph-projection/src/graph-retriever.ts:377-390 | the allowlist is the smallest hits in order, up to its limit |
| `GraphRetriever.PathsArePartitioned` | packages/graph-projection/src/graph-retriever.ts:559-733 | candidates and exclusions partition the returned paths |
| `GraphRetriever.NotTruncatedMeansWhole` | packages/graph-projection/src/graph-retriever.ts:663-733 | a result that is not truncated hit no limit and dropped nothing |
| `GraphRetriever.WrongTypesAreAccepted` | packages/graph-projection/src/graph-retriever.ts:582-619 | reads for which reported types follow the pattern and the edges' types do not, and the path is still a candidate |
| `GraphRecall.CandidatesFollowThePattern` | packages/graph-projection/src/graph-retriever.ts:476-733 | when the result is an answer over the projected snapshot, every candidate is a walk of the whole pattern whose canonical edges have the pattern's types, each at its place |
| `GraphRecall.NotTruncatedFindsAllWalks` | packages/graph-projection/src/graph-retriever.ts:436-733 | a typed_path recall that is not truncated has as candidates exactly the pattern's walks from the starts over the prefiltered relations in the canonical snapshot, each once |
| `GraphRecall.NotTruncatedOmitsOnlyTieLosers` | packages/graph-projection/src/graph-retriever.ts:436-733 | a shortest_path recall that is not truncated holds only such walks, and omits only, when full, those that lose the hash tie-break to every candidate |
| `HookCommand.RequotedIsUndone` | apps/codex-bootstrap/src/hook-config.ts:31-33 | requoting is undone inside single quotes, for every string |
| `HookCommand.QuotedIsOneWord` | apps/codex-bootstrap/src/hook-config.ts:31-33 | a quoted value is one shell word, whatever it contains |
| `HookCommand.ShellSplitsCommand` | apps/codex-bootstrap/src/hook-config.ts:35-56 | a POSIX shell splits the built command into exactly the intended arguments |
| `HookCommand.ParseArguments` | apps/codex-bootstrap/src/hook-command.ts:34-65 | the loop accepts exactly pairs of distinct known flags with both absolute paths, and returns those paths |
| `HookCommand.CommandTailIsAccepted` | apps/codex-bootstrap/src/hook-command.ts:34-65 | the split command's tail is accepted as exactly the paths that were put in |
| `HookConfig.StripGroups` | apps/codex-bootstrap/src/hook-config.ts:111-119 | the flatMap over an event's groups, or its error |
| `HookConfig.MergeEvents` | apps/codex-bootstrap/src/hook-config.ts:106-121 | the loop over the managed events |
| `HookConfig.MergeHooksJsonDocument` | apps/codex-bootstrap/src/hook-config.ts:94-125 | the procedure is the function that the theorems are about |
| `HookConfig.RemoveEvents` | apps/codex-bootstrap/src/hook-config.ts:136-154 | the loop over all events |
| `HookConfig.RemoveManagedHooksJsonDocument` | apps/codex-bootstrap/src/hook-config.ts:127-156 | the procedure is the function that the theorems are about |
| `HookConfig.MergeReplaces` | apps/codex-bootstrap/src/hook-config.ts:94-125 | merging a second command gives what merging it alone gives |
| `HookConfig.RemoveUndoesMergeExactly` | apps/codex-bootstrap/src/hook-config.ts:94-156 | for every document that can be merged into, removing after a merge comes to what removing alone does exactly when the document has hooks and no managed event is null, or another event is malformed and both throw |
| `HookConfig.RemoveThrowsUnlessMerged` | apps/codex-bootstrap/src/hook-config.ts:94-142 | three documents (no hooks, null hooks, a null event) on which removal throws, and does not after a merge |
| `HookConfig.RemoveIdempotent` | apps/codex-bootstrap/src/hook-config.ts:127-156 | removing twice is removing once |
| `HookConfig.MergeKeepsOthers` | apps/codex-bootstrap/src/hook-config.ts:94-125 | every event's unmanaged handlers survive a merge in order, with their groups' other fields |
| `HookConfig.RemoveKeepsOthers` | apps/codex-bootstrap/src/hook-config.ts:127-156 | they survive a removal |
| `HookConfig.MergeLeavesOneManaged` | apps/codex-bootstrap/src/hook-config.ts:106-121 | after a merge the last group of each managed event holds the command and no other handler is managed |
| `HookInstallation.MergeInstalls` | apps/codex-bootstrap/src/hook-config.ts:58-125 | after a merge the last group of each of the four events holds one handler with type, the given command, timeout and limit, and a matcher exactly for SessionStart; everything else stays |
| `HookInstallation.RemoveLeavesNone` | apps/codex-bootstrap/src/hook-config.ts:127-156 | after a removal no handler runs a managed command and no event or group is empty |
| `HookInstallation.CommandInWords` | apps/codex-bootstrap/src/hook-config.ts:31-56 | a command is built exactly for absolute paths and splits into the eight words |
| `HookConfig.BuiltCommandsAreManaged` | apps/codex-bootstrap/src/hook-config.ts:35-92 | every built command is recognized as a managed one |

## Left out

- Cryptography and hashing: digests are injective functions or the values themselves, and `verifyPinnedOperatorConfirmation` is a predicate over times, bindings and a set of signed confirmations.
- File modes, owners, symbolic links, `fsync`, power loss and the integrity hash inside a ledger record: a file operation is atomic, and what was written is what is read.
- Ledger file names are separate maps per kind of file, so an operation identifier that begins with `confirmation.` does not collide with a confirmation's files.
- Stale-lock recovery reads the owner, clears the temporary files and removes the lock in one step.
- OperatorActionLedger.ExecuteConfirmedOperatorAction: models a call that no other call disturbs; interleaved calls are covered by the protocol's run theorems, of which this call is one run.
- HostProtocol steps are a superset of what the runtime can schedule: a queued restart may run more than once, a timer may fire at any moment while it is armed, and the kill signal is not modelled beside its exit event.
- Diagnostics, health reports, and the contents of startup and request messages of the graph host.
- SpoolCapacity: a directory listing is one step, enqueuers at work have distinct keys, and the flush is any removal of any file at any time.
- HookSpool.NothingIsLost: covers files other processes add, but not files they rewrite in place.
- Scores, term matching and token estimates are parameters: only the order of scores and the sum of estimates matter to what is proved.
- Identifiers, lanes' names and path hashes stand for their place in the order of `localeCompare`, which is taken to tell different ones apart; scopes stand for their keys and times for their milliseconds.
- EvidenceCompiler: provenance text and token estimates of items, and the digests behind the identity of evidence, are parameters.
- Lane telemetry, warnings, seals and identifiers of slice and receipt, in both compilers.
- Field syntax of the schemas (lengths, patterns, ranges): only checks across fields are modelled. LayeredRejection.RejectedExactlyForGraphPaths is about inputs that satisfy them.
- CanonicalJson: the path and wording of an error; accessors on arrays; the order of keys is any that depends on the set of keys only.
- JsonText: numbers are their shortest decimal digits; that a double has exactly one such representation is not proved.
- The native graph engine: it answers with any rows that the LIMIT allows, and a transaction that fails is rolled back whole; its query text, and failures other than a primary key that is taken.
- GraphPathQuery: the wall clock is a flag, and the per-boundary telemetry is left out.
- GraphRetriever: telemetry, durations, opening and closing the store; lists that the code sorts before comparing are multisets.
- GraphSnapshot: fields that no check reads are one value each.
- HookConfig: an event named `__proto__`, the order of keys in objects, the TOML document, and installing the files.
- HookCommand: NUL bytes, which no argument can hold; the splitter reports anything but plain words as not a word list.
- HTTP, web pages, command-line rendering, process spawning, the installer, environment and configuration loading: not part of this model.
