# Styx protocol models

Styx is a shared-memory RPC framework: a host process starts plugin processes, negotiates a
transport with each, routes unary calls and streams to them, and can replace a running plugin
by a successor without dropping calls. This project models the protocols its safety rests on
and proves what they keep over every run, every input and every interleaving.

Concurrent protocols are step systems. A state is a value, one step is one atomic access, one
critical section or the resolution of one blocking call, and a run is any sequence of steps.
Timeouts, failed sends, cancellation and crashes are steps that may always happen. Objects the
source updates in place are classes whose methods are tied to functions on values, and loops
are methods with loops; the theorems are about those functions and relations.

| file | protocol |
|---|---|
| `ReloadModel`, `ReloadControl`, `ReloadBarrier`, `ReloadTheorems`, `ReloadRollback`, `ReloadPromote`, `Admission` | the hot-reload transaction: host, running instance, successor, admission gate, callers and the pending-call table |
| `DrainDeadline` | the deadline arithmetic of the drain phase, in time |
| `Wakeup`, `WakeupLiveness` | spin-then-park against publish-and-signal and teardown |
| `Quiescence`, `QuiescenceLiveness`, `QuiescenceReach` | drain quiescence of the plugin's serve loop |
| `TaintGate`, `TaintAdmission` | its panic taint gate |
| `Arena`, `ArenaModel`, `ArenaTheorems` | the slab arena |
| `HostModel`, `HostTheorems`, `HostStop`, `HostWatch`, `HealthRecord` | Start, Stop, detached join watchers and worker release; the health record |
| `CallOutcome` | what an error from a unary call says about the handler |
| `Handshake`, `HandshakeWire`, `Utf8` | negotiation of the compatibility tuple and its acknowledgement |
| `QuotaWalk`, `CPUMaxText` | the cgroup CPU quota walk behind the spin budget, and what the files it reads say |
| `Endless` | endless runs as functions of time, for the fairness arguments |

Some promises hold only under a condition. The code is kept as it is, and the model says exactly
when the promise holds:

- An error that reads as retryable is documented to mean that no handler ran. A codec's own
  response-decoding error is passed through unchanged, so one that wraps a retryable sentinel
  breaks this. Retrying is safe exactly when no response or status-detail decoder returns such an
  error (`CallOutcome.RetryIsSafeExactlyWithHonestDecoders`).
- A rejection reply is documented never to carry an empty reason. A reason longer than the bound
  that does not open with a well-formed rune is cut to nothing and reads as success; every other
  reason is recognised (`HandshakeWire.RejectionIsRecognised`). The plugin's own handshake sends only
  reasons that state a failed axis, and those are always recognised
  (`HandshakeWire.NegotiatedReasonIsRecognised`).
- Negotiation is order-independent exactly when no service is advertised at two versions
  (`HandshakeWire.OrderMattersExactlyWhenVersionsClash`).
- The quiescence evaluation is not complete on its own: an open and a retire that both fall between
  its step (c) and its re-check (d) escape it. It is complete exactly when no frame may enter after
  step (a), which is what the cutoff provides; one frame is already too many
  (`Quiescence.CompleteExactlyBehindTheCutoff`).
- A reported missed-heartbeat count is one instance's own exactly when every instance's first beat
  is good or finds a count of zero (`HealthRecord.CountIsCoherentExactlyWhenTakeoversAreClean`).
- A drain acknowledgement is always heard before the host gives up exactly when delivery is faster
  than the margin (`DrainDeadline.AcksAreHeardExactlyWithinTheMargin`). The snapshot phase keeps no
  such margin (`ReloadRollback.LateSnapshotHappens`).
- A reload is documented to end crash-equivalent only when the old instance stopped answering. A
  live predecessor with a slow saver ends so too. At every point of a rollback it can still complete
  exactly when the predecessor is answerable: ResumeAck is next in its queue, or its queue is empty
  and it is neither gone, nor about to send another answer, nor left with a snapshot acknowledgement
  it will reject (`ReloadRollback.RollbackCompletesExactlyWhenAnswerable`).
- A reload promotes only along one course. At every point before the routing swap it can still end
  promoted exactly when the next answer the host will read can be the one that phase expects
  (`ReloadPromote.PromotesExactlyWhenPromotable`). In particular a receive treats any other message
  as a violation, so one heartbeat queued ahead of the drain acknowledgement already rules
  promotion out.
- A drain wait can still come out quiescent, with nothing more entering, exactly when the session is
  untainted, no open obligation has lost its reply, and no stopped reader leaves a frame unread
  (`QuiescenceReach.QuiescesExactlyWhenDrainable`).

## Model

| member | source | states |
|---|---|---|
| `Admission.AdmissionGate.constructor` | internal/lifecycle/reload.go:97-107 | the zero gate is closed, counts nobody and has nobody waiting |
| `Admission.AdmissionGate.Enter` | internal/lifecycle/reload.go:114-125 | a caller is admitted exactly when the gate is open, and only then counted |
| `Admission.AdmissionGate.Leave` | internal/lifecycle/reload.go:129-137 | one caller fewer; the one that empties the barrier wakes the waiting close, and no other does |
| `Admission.AdmissionGate.BeginClose` | internal/lifecycle/reload.go:155-166 | the gate closes; it is joined at once exactly when nobody is inside, and otherwise a fresh signal is awaited |
| `Admission.AdmissionGate.AbandonClose` | internal/lifecycle/reload.go:168-181 | an expired close drops only its own signal and leaves the gate closed |
| `Admission.AdmissionGate.Open` | internal/lifecycle/reload.go:186-190 | admission reopens with the count and any waiter untouched |
| `ReloadTheorems.Reachable` | internal/lifecycle/reload.go:271-338 | the control and barrier invariants hold in every reachable state of host, instances, queues, gate and callers |
| `ReloadTheorems.NextKeepsInv` | internal/lifecycle/reload.go:271-519 | each step of any party keeps both invariants |
| `ReloadTheorems.OpenAdmissionMeansRunningMutators` | internal/lifecycle/rollback.go:23-74 | whenever the gate is open, some instance is routed and every mutator of it is running |
| `ReloadTheorems.OutcomeOfRun` | internal/lifecycle/reload.go:271-338 | at the end admission is closed exactly for crash-equivalent; an unpromoted successor is gone; a rolled-back predecessor runs unfrozen; a promoted successor's restorer accepted exactly the bytes its predecessor saved, or there were none |
| `ReloadPromote.PromotesExactlyWhenPromotable` | internal/lifecycle/reload.go:271-338 | at every point of every transaction before the routing swap, some continuation ends promoted if and only if the transaction is promotable, by queues and program counters alone |
| `ReloadPromote.GivingUpIsFinal` | internal/lifecycle/rollback.go:23-74 | once the host gives up, no continuation of that transaction promotes |
| `ReloadPromote.SwapIsFinal` | internal/lifecycle/reload.go:314-338 | once routing has moved, every continuation that returns does so promoted |
| `ReloadPromote.PromotionHappens` | internal/lifecycle/reload.go:271-338 | a whole run that hands one byte of state over and ends promoted with no stragglers |
| `ReloadPromote.StragglersAreReal` | reload.go:66-89 | stragglers are reported only for calls that stood unanswered at the last look of the join, never while looks were left |
| `ReloadPromote.OnlySoundSnapshotsAreTaken` | internal/shm/snapshot.go:126-166 | whatever is sent, host and successor take only a sealed snapshot of its declared size within the bound |
| `ReloadPromote.AdmittedCallerPublishes` | clientconn.go:1129-1231 | an admitted caller with routing in place publishes on the routed generation by its own steps and leaves the barrier once |
| `ReloadTheorems.CutoffJoinsEveryPublisher` | internal/lifecycle/reload.go:139-181 | the gate counts exactly the callers inside; after a completed close nobody is inside until reopening; the close's signal is given exactly when the barrier empties; enters and leaves balance |
| `ReloadTheorems.NoPublicationBehindAPromotion` | clientconn.go:1129-1231 | no request is published, or being published, on a generation a reload promoted past |
| `ReloadTheorems.NoStragglersMeansNothingReaped` | reload.go:66-89 | a promotion reporting zero stragglers ended no unary call of the retired generation as outcome-unknown |
| `ReloadTheorems.RetiredTableShrinks` | reload.go:66-89 | published calls of a retired generation only ever end, so the count the join polls never rises |
| `ReloadTheorems.RunMakesProgress` | internal/lifecycle/reload.go:271-338 | every host step brings the transaction strictly closer to its return |
| `ReloadTheorems.HostNeverStuck` | internal/lifecycle/reload.go:271-338 | in every invariant state of a transaction the host has an enabled step |
| `ReloadTheorems.HostAloneFinishes` | internal/lifecycle/reload.go:271-338 | from every such state the host's own steps reach its return |
| `ReloadTheorems.EveryRunCanReturn` | internal/lifecycle/reload.go:260-338 | every run standing in a transaction has a continuation in which it returns as promised |
| `ReloadTheorems.HostChainsAreFinite` | internal/lifecycle/reload.go:271-338 | no endless chain of host steps stays in a transaction, from any state |
| `ReloadTheorems.EveryFairRunReturns` | internal/lifecycle/reload.go:260-338 | in every endless run that does not pass the host over forever, a transaction returns promoted, rolled back or crash-equivalent, each as promised |
| `ReloadRollback.RollbackCompletesExactlyWhenAnswerable` | internal/lifecycle/rollback.go:23-74 | at every point of every rollback, some continuation of the transaction returns rolled back if and only if the predecessor is answerable |
| `ReloadRollback.UnanswerableEndsCrashEquivalent` | internal/lifecycle/rollback.go:48-74 | otherwise every continuation that returns does so crash-equivalent with admission closed, whoever moves in between |
| `ReloadRollback.LateSnapshotEndsCrashEquivalent` | internal/lifecycle/plugin_reload.go:214-234 | in particular a snapshot queued, or about to be sent, after the host gave up on it |
| `ReloadRollback.LateSnapshotHappens` | internal/lifecycle/reload.go:434-443 | a run in which the host times out on a snapshot the plugin then sends, ending crash-equivalent with the predecessor alive |
| `ReloadTheorems.OthersLeaveRunWhereItIs` | internal/lifecycle/reload.go:271-338 | no other party's step moves the host, so the measure is the host's alone |
| `ReloadControl.CurKeepsControl` | internal/lifecycle/plugin_reload.go:134-330 | every step of the running instance, including failed hooks and crashes, keeps the control invariant |
| `ReloadControl.SuccKeepsControl` | internal/lifecycle/restore.go:38-104 | every step of the successor keeps it: readiness follows only an accepted snapshot |
| `ReloadControl.RollbackKeepsControl` | internal/lifecycle/rollback.go:23-74 | rollback reopens only after the predecessor confirmed it resumed |
| `ReloadBarrier.MoveKeepsBarrier` | clientconn.go:1145-1231 | every move of a unary or stream-opening caller keeps the publication barrier |
| `ReloadBarrier.RetireKeepsBarrier` | host.go:2169-2208 | the retirement's teardown keeps it, ending only calls of the generation it retires |
| `DrainDeadline.PlanOrdersTheDeadlines` | internal/lifecycle/reload.go:382-403 | no drain is sent exactly when the budget is under two nanoseconds; otherwise now < transmitted < host wait, the host wait being the earlier of its budget and the caller's deadline, with the full margin whenever it fits and half of what there is otherwise |
| `DrainDeadline.TimedInvHolds` | internal/lifecycle/reload.go:340-430 | with delivery faster than the margin, the timed invariant holds at every instant of every exchange |
| `DrainDeadline.AcksAreHeardExactlyWithinTheMargin` | internal/lifecycle/reload.go:340-356 | no late acknowledgement can meet the rollback if and only if delivery is faster than the margin |
| `Wakeup.Reachable` | internal/event/spin.go:226-300 | park word, teardown and wake invariants hold in every interleaving of single accesses |
| `Wakeup.NoLostWakeup` | internal/event/spin.go:226-300 | a consumer asleep on an empty eventfd over unseen work is owed a wake by a producer still signalling or a teardown still running; asleep through a shutdown it is owed that teardown's write |
| `Wakeup.TheProducerPaysTheWakeup` | internal/event/parkstate.go:49-74 | with no teardown the debt is the producer's, and finishing its signal makes the counter positive |
| `Wakeup.ReturnsAreClean` | internal/event/spin.go:226-337 | every return leaves the park word awake; work is returned only for a new tail and after this pass read shutdown clear; shutdown and cancellation only if they happened |
| `Wakeup.ReturnedWorkWasTheTail` | internal/event/spin.go:226-337 | the value returned as work was the tail at a moment of the same call, loaded right behind a read that found shutdown clear, for each of the three places that return work |
| `Wakeup.AwakeConsumerCostsNoWake` | internal/event/parkstate.go:64-74 | while nobody is parked and nothing tears down, the eventfd is not written, however often the tail moves |
| `WakeupLiveness.WaitReturns` | internal/event/spin.go:226-337 | in every fair endless run a Wait over unseen work returns, wherever it stands |
| `WakeupLiveness.CancelledWaitReturns` | internal/event/spin.go:226-337 | a Wait whose context is cancelled returns, with or without work, wherever it stands |
| `WakeupLiveness.BlockedConsumerWakes` | internal/event/spin.go:226-300 | in every endless run fair to the producer, each teardown and the read, a consumer asleep over unseen work or through a shutdown leaves its sleep |
| `Quiescence.Reachable` | drain_quiescence.go:26-109 | custody, reservation, taint, evaluation and wake invariants hold in every interleaving |
| `Quiescence.QuiescedCertifiesEarlierFrames` | drain_quiescence.go:91-109 | a true evaluation means every frame that had entered at step (a) is disposed, its obligation closed and its handler not panicked |
| `Quiescence.QuiescedAfterCutoffIsComplete` | drain_quiescence.go:91-109 | with nothing entering after step (a) nothing is unread, in hand or owed, the session is untainted and every frame is disposed |
| `Quiescence.CompleteExactlyBehindTheCutoff` | drain_quiescence.go:85-109 | a true evaluation is complete in every run with at most k frames entering after step (a) if and only if k is 0 |
| `Quiescence.LateOpenEscapesTheRecheck` | drain_quiescence.go:86-109 | a run in which the evaluation is true with an obligation open, one frame having entered after step (a) |
| `Quiescence.WaiterIsNeverStranded` | drain_quiescence.go:44-83 | a waiter parked on a quiet session has a token, or an actor that still owes it a poke |
| `QuiescenceLiveness.QuietSessionIsAnswered` | drain_quiescence.go:70-83 | in every fair endless run, a waiter on a session that is quiet from some moment on is told so |
| `QuiescenceReach.QuiescesExactlyWhenDrainable` | drain_quiescence.go:70-109 | with nothing more entering, the wait can still come out quiescent if and only if the session is drainable |
| `TaintGate.Reachable` | panic_policy.go:145-226 | gate, writer, ordering and release invariants hold in every interleaving |
| `TaintGate.NoEntryFromALaterAdmission` | panic_policy.go:153-178 | no handler is entered or launched for an admission that begins after a stream panic's taint store returned |
| `TaintGate.AdmissionsResolveBeforeTheStore` | panic_policy.go:196-226 | whatever is entered is entered before the store, and every admission that passed the check is released before it |
| `TaintGate.ReadSideReleasedExactlyOnce` | pluginserver.go:1829-1917 | each admission drops the read side exactly once, after entry, and never holds it while a handler runs or a reply is sent |
| `TaintGate.TaintPrecedesTheTerminal` | stream.go:1212-1240 | a panic terminal is queued, and termination signalled, only after the taint store returned |
| `TaintAdmission.CheckDecides` | panic_policy.go:203-215 | the taint check admits exactly while no taint is stored, to the dispatch its kind calls for |
| `TaintAdmission.EntersExactlyWhileOpen` | panic_policy.go:203-226 | a begun admission, unary or stream, can still reach its handler if and only if no taint is stored and no panic holds the write side |
| `TaintAdmission.PanicIsTold` | stream.go:1212-1240 | only a reader in its section holds a panic back: from the lock on, the stream's own five steps store the taint, queue the terminal and signal termination |
| `ArenaModel.SlabInside` | internal/arena/arena.go:398-408 | every usable slab lies inside the memory and none starts at offset 0 |
| `ArenaModel.SlabsDisjoint` | internal/arena/arena.go:137-172 | two different slabs share no byte |
| `ArenaModel.ServingClassIsUnique` | internal/arena/sizeclass.go:24-32 | one class serves a size |
| `ArenaTheorems.Reachable` | internal/arena/arena.go:182-276 | the arena invariant holds after every sequence of Alloc and Free |
| `ArenaTheorems.FreeListsAndLiveSlabsPartition` | internal/arena/arena.go:182-276 | each class's slabs split exactly into a duplicate-free free list and the live slabs, and occupancy is the live bytes |
| `ArenaTheorems.LiveSlabsAreSeparate` | internal/arena/arena.go:182-229 | live byte ranges are disjoint, inside the memory and never at offset 0 |
| `ArenaTheorems.FreeSucceedsExactlyOnOutstandingHandles` | internal/arena/arena.go:240-276 | over runs of fewer than 2^64 allocations, Free succeeds exactly on what was minted and not freed since, for any handle passed; a refusal changes nothing |
| `ArenaTheorems.NoDoubleFree` | internal/arena/arena.go:240-276 | a handle once freed never frees again, however often its slab is reused |
| `ArenaTheorems.AllocRefusesExactly` | internal/arena/arena.go:182-205 | zero, too large and exhausted each exactly when they should be, with the state unchanged |
| `ArenaTheorems.AllocGrantsAFreshSlab` | internal/arena/arena.go:205-229 | a grant is a slab of the smallest fitting class that was not live, under a handle the arena accepts |
| `ArenaTheorems.IdentitiesDiffer` | internal/arena/arena.go:26-32 | arenas of one process have distinct non-zero identities |
| `ArenaTheorems.TwinHandlesAreRefused` | internal/arena/arena.go:240-250 | a handle from a twin arena with equal geometry and generation is refused and changes nothing |
| `Arena.SelectClass` | internal/arena/sizeclass.go:24-32 | the first class that fits, or none fits |
| `Arena.MaxSlabExtent` | internal/arena/arena.go:398-408 | the greatest extent of any class |
| `Arena.NewClassState` | internal/arena/arena.go:381-393 | every slab free, lowest index on top, slab 0 of class 0 kept back |
| `Arena.MintArenaID` | internal/arena/arena.go:26-32 | the next identity, never 0 |
| `Arena.Slabs.constructor` | internal/arena/arena.go:137-172 | the arena starts at sequence 1 with nothing occupied, and valid when its pools are shaped by its classes |
| `Arena.Slabs.NextAllocSeq` | internal/arena/arena.go:365-375 | the current sequence, the counter wrapping past 0 |
| `Arena.Slabs.Alloc` | internal/arena/arena.go:182-229 | the in-place operation has exactly the effect and result of the one the theorems are about, and keeps the object valid |
| `Arena.Slabs.Free` | internal/arena/arena.go:240-276 | likewise for Free, including every refusal; the object stays valid |
| `Arena.Slabs.Validate` | internal/arena/arena.go:318-344 | it accepts exactly the handles Free would |
| `Arena.New` | internal/arena/arena.go:137-172 | refused exactly for an empty table, an empty class or too little memory; otherwise the invariant holds on contiguous geometry |
| `HostTheorems.Reachable` | host.go:1318-1593 | the registry, turn and worker invariants hold in every interleaving of Start, Stops and watchers |
| `HostTheorems.NextKeepsInv` | host.go:721-944 | each lock-granular step keeps them |
| `HostTheorems.OneRuntimePerNameTornOnce` | host.go:721-944 | at most one runtime per name is not torn, and each is torn down at most once |
| `HostTheorems.WorkersGoLast` | host.go:1550-1593 | workers are released only after a Stop was requested and every admitted runtime is torn; nothing is admitted or un-released after |
| `HostTheorems.AdmissionsStop` | host.go:1385-1427 | once a Stop is requested no step admits a runtime |
| `HostTheorems.NothingGatedMeansAllTorn` | host.go:1550-1575 | after a Stop request, no name is gated if and only if every runtime is torn |
| `HostTheorems.StopReturnsNilOnlyWhenDone` | host.go:1318-1356 | a Stop returning nil means everything is torn and the workers were released and finished |
| `HostStop.StopReturnsNilExactlyWithoutFault` | host.go:1318-1356 | a Stop that returned did so with nil if and only if it never gave up its turn, a supervisor or the wait for the release |
| `HostStop.TurnEnds` | host.go:1318-1356 | in every fair run whose supervisors join, every turn ends and is handed on, in nil when it made no fault |
| `HostStop.PatientStopReturnsNil` | host.go:1318-1438 | and a Stop whose budget does not end returns nil, however many Stops run beside it |
| `HostStop.CleanLifeHappens` | host.go:721-944 | a run that starts a plugin, stops it, tears it down, releases the workers and returns nil |
| `HostTheorems.NoRuntimeIsOrphaned` | host.go:1465-1508 | after a Stop request every runtime not torn is held by the owning Stop, listed for the next one, or watched |
| `HostWatch.WatcherBringsItHome` | host.go:1488-1508 | whenever no Start holds the host, a watcher at work can tear its runtime down with nobody else moving, and the last one behind a Stop releases the workers |
| `HostWatch.WatcherOutlastsTheRelease` | host.go:1550-1562 | a watcher that ends behind a claimed release ends only once that release finished |
| `HealthRecord.Health.constructor` | host.go:1992-2004 | a blank record and no origin issued |
| `HealthRecord.Health.NextOrigin` | host.go:1992-2004 | origins ascend by one and leave the record alone |
| `HealthRecord.Health.RecordEvent` | host.go:2051-2073 | the in-place update is the transition the theorems fold |
| `HealthRecord.Health.RecordHeartbeat` | host.go:2085-2117 | likewise for a heartbeat hook |
| `HealthRecord.Health.CoherentMissed` | host.go:1967-1974 | the count reported beside the state |
| `HealthRecord.RecordAscends` | host.go:2051-2073 | key and revision only grow, and only together |
| `HealthRecord.RetainedIsGreatest` | host.go:2051-2073 | in any arrival order the retained transition has the greatest key |
| `HealthRecord.OrderDoesNotMatter` | host.go:2051-2073 | two orders of the same inputs retain the same transition |
| `HealthRecord.RevisionsFollowKeys` | types.go:196-243 | revisions are ordered as the keys are |
| `HealthRecord.RevisionsAreDense` | types.go:196-243 | every number up to the record's revision was given to exactly one arrival |
| `HealthRecord.FoldEndsAtTheHighest` | types.go:196-243 | folding by strictly greater revision ends at the highest delivered |
| `HealthRecord.ConsumerSeesTheNewestDelivered` | types.go:196-243 | a consumer seeded from any snapshot and fed any selection in any order ends at the newest it was given |
| `HealthRecord.CountIsCoherentExactlyWhenTakeoversAreClean` | host.go:2085-2117 | the stored count is one instance's own run if and only if every takeover is clean |
| `HealthRecord.ReportedCountIsNeverAnOlderInstances` | host.go:1967-1974 | with clean takeovers, a reported count is never an older instance's |
| `HealthRecord.ReportIsTheNewestInstancesRun` | host.go:1967-1974 | with clean takeovers, the reported count is exactly the newest instance's trailing run of misses, and zero when it has not beaten yet |
| `HealthRecord.MissedFirstBeatInherits` | host.go:2085-2117 | a first beat that is a miss inherits its predecessor's count |
| `CallOutcome.Reachable` | internal/rpcruntime/table.go:293-524 | the per-call invariants hold in every interleaving of callers, table, transport, plugin and teardown |
| `CallOutcome.HandlerEnteredAtMostOnce` | pluginserver.go:2439-2480 | a call's handler is entered at most once, given that the transport delivers a frame at most once |
| `CallOutcome.FirstTerminalWins` | internal/rpcruntime/table.go:502-524 | a delivered result is never replaced |
| `CallOutcome.RetryableMeansNeverRan` | errors.go:456-475 | with decoders that return no retryable error, an error that reads as retryable means the handler did not run before and never runs after |
| `CallOutcome.DecoderErrorEscapes` | clientconn.go:146-156 | a decoding error wrapping a retryable sentinel reads as retryable after the handler ran |
| `CallOutcome.RetryIsSafeExactlyWithHonestDecoders` | clientconn.go:171-281 | retrying is safe in every run if and only if no decoder returns an error that reads as retryable |
| `CallOutcome.RefusalsReadRetryable` | errors.go:456-475 | a call refused for lack of routing, by a closed gate, by teardown before publication or by the plugin reads as retryable |
| `CallOutcome.UnknownOutcomesReadFinal` | clientconn.go:1306-1361 | a send of unclear outcome, a teardown after publication and an abandoned wait do not, whatever else the error wraps |
| `CallOutcome.SendFailuresAreTold` | clientconn.go:1389-1402 | a send that provably never left is retryable exactly for backpressure; deadline, cancellation and oversize are told exactly when they are the cause |
| `CallOutcome.StatusesAreTold` | clientconn.go:171-281 | an unknown service or method is told as such and no handler ran; a panic or internal fault carries no sentinel |
| `CallOutcome.SucceedsExactlyWhenHopeful` | clientconn.go:1125-1250 | at every point of every run, a call can still succeed if and only if its answer is delivered, queued or can still be given |
| `CallOutcome.WaitCanEnd` | clientconn.go:1233-1243 | a waiting caller's deadline or context always ends its wait, with what was delivered or with its own cause |
| `CallOutcome.ReturnedLeavesNothingBehind` | internal/rpcruntime/table.go:293-524 | behind a caller that returned, its table entry is terminal or was never made |
| `Handshake.ChooseCommon` | internal/control/handshake.go:328-345 | the bytewise first common entry, or nothing is common |
| `Handshake.ChooseLayout` | internal/control/handshake.go:251-264 | the highest common layout version, or none is common |
| `Handshake.UnmetNeed` | internal/control/handshake.go:271-284 | a required flag the other side does not offer, or every need is met |
| `Handshake.ResolveFeatures` | internal/control/handshake.go:286-297 | every offered flag, true exactly when both sides offer it |
| `Handshake.CheckServices` | internal/control/handshake.go:306-324 | a requirement that is absent or out of range, or all are met |
| `Handshake.Negotiate` | internal/control/handshake.go:187-244 | either the best common choice on every axis with no need unmet, or the first axis that fails |
| `Handshake.FirstDuplicate` | internal/control/handshake.go:575-585 | a repeated service name exactly when there is one |
| `HandshakeWire.OfferToHello` | internal/control/handshake.go:406-427 | an offer put on the wire is the offer read off it |
| `HandshakeWire.HelloToOffer` | internal/control/handshake.go:432-452 | the offer carried, whatever the supported bits say |
| `HandshakeWire.TupleToHelloAck` | internal/control/handshake.go:460-487 | the acknowledgement carries the tuple, the flags once each in ascending order, the offer and the adverts |
| `HandshakeWire.HelloAckToTuple` | internal/control/handshake.go:492-505 | the tuple an acknowledgement spells, a later flag replacing an earlier one |
| `HandshakeWire.SpellingReadsBack` | internal/control/handshake.go:492-505 | reading back a spelled resolution gives that resolution |
| `HandshakeWire.SpellingIsUnique` | internal/control/handshake.go:475-483 | one resolution has one spelling, so map order never shows |
| `HandshakeWire.ValidateAcknowledgedTuple` | internal/control/handshake.go:517-559 | accepted if and only if no service repeats and the acknowledged tuple is the agreement of the host's offer with the echoed one; each refusal says which failed |
| `HandshakeWire.AgreementIsUnique` | internal/control/handshake.go:187-244 | two offers admit at most one agreement |
| `HandshakeWire.AgreementRulesOutFailure` | internal/control/handshake.go:187-244 | where there is an agreement no axis fails |
| `HandshakeWire.HonestAckIsAccepted` | internal/control/handshake.go:460-559 | an honest acknowledgement says the agreed tuple and is accepted if and only if no service is advertised twice |
| `HandshakeWire.AcceptedIsTheHostsOwn` | internal/control/handshake.go:517-569 | whatever a peer sends, an accepted tuple is the host's own agreement and no other |
| `HandshakeWire.OrderOfOffersDoesNotMatter` | internal/control/handshake.go:187-355 | the agreement does not depend on the order of any offered list |
| `HandshakeWire.OrderMattersExactlyWhenVersionsClash` | internal/control/handshake.go:306-324 | reordering the adverts leaves every verdict alone if and only if no service has two versions |
| `HandshakeWire.IncompatibleToHelloAck` | internal/control/handshake.go:625-641 | a rejection carries the bounded reason, the offer and the adverts |
| `HandshakeWire.HelloAckIncompatible` | internal/control/handshake.go:664-678 | rejected exactly when the reason is not empty, with the plugin's offer and pinned versions |
| `HandshakeWire.RejectionIsRecognised` | internal/control/handshake.go:625-678 | a rejection is recognised if and only if its reason fits the bound or opens with a whole rune |
| `HandshakeWire.NegotiatedReasonIsRecognised` | pluginserver.go:606-616 | a refusal stating any failed axis is recognised, whatever names and versions follow |
| `HandshakeWire.WellFormedReasonArrives` | internal/control/handshake.go:646-657 | a well-formed reason arrives whole, or well-formed and within three bytes of the bound |
| `HandshakeWire.StrayByteSilencesARefusal` | internal/control/handshake.go:646-657 | a long reason of stray continuation bytes is cut to nothing |
| `Utf8.Truncate` | internal/control/handshake.go:646-657 | the longest well-formed prefix within the bound, or the text itself when it fits |
| `Utf8.BoundaryNearCut` | internal/control/handshake.go:646-657 | in well-formed text a rune boundary lies at most three bytes before any cut |
| `Utf8.TruncatedToNothing` | internal/control/handshake.go:646-657 | the cut leaves nothing exactly for empty text or overlong text not opening with a whole rune |
| `QuotaWalk.FinitePairIsRead` | internal/event/cgroup.go:411-450 | a finite pair as the kernel writes it is read back as that pair |
| `QuotaWalk.KeywordIsRead` | internal/event/cgroup.go:398-409 | the keyword form with any period is read as unlimited |
| `CPUMaxText.UnlimitedExactly` | internal/event/cgroup.go:398-409 | a text is read as unlimited if and only if it is the keyword and a positive 64-bit period between white space |
| `CPUMaxText.FiniteExactly` | internal/event/cgroup.go:411-450 | it is read as a finite pair if and only if it is those two positive 64-bit integers |
| `CPUMaxText.MalformedOtherwise` | internal/event/cgroup.go:382-391 | every other text is malformed |
| `QuotaWalk.FirstUnifiedLineDecides` | internal/event/cgroup.go:296-311 | the first unified-hierarchy line decides, whatever the others say |
| `QuotaWalk.ParseOwnCgroupPath` | internal/event/cgroup.go:296-311 | the loop finds that line's path, a blank one, or none |
| `QuotaWalk.OwnCgroupPath` | internal/event/cgroup.go:234-250 | where the walk starts and whether it starts tainted |
| `CPUMaxText.StartExactly` | internal/event/cgroup.go:234-250 | the walk starts at the trimmed path of the first unified line, tainted exactly when that is blank; at the untainted root without one; tainted when the file cannot be read |
| `CPUMaxText.LinesRejoin` | internal/event/cgroup.go:296-311 | the lines joined by newlines are the text, and no line holds one |
| `CPUMaxText.LevelsHaveTheirOwnFiles` | internal/event/cgroup.go:145-195 | each level is read from a file of its own below the cgroup root |
| `QuotaWalk.ParentIsShorter` | internal/event/cgroup.go:316-324 | a path that is not the root gets strictly shorter, so the walk ends |
| `QuotaWalk.LevelsAreTheAncestors` | internal/event/cgroup.go:145-195 | on a path of n parts the walk reads exactly the n + 1 prefixes up to the root |
| `QuotaWalk.ResolveCPUQuota` | internal/event/cgroup.go:145-195 | exact if and only if every level was understood; limited with the minimum ratio, unknown or unlimited accordingly |
| `QuotaWalk.QuotaIsDetermined` | internal/event/cgroup.go:145-195 | what the files hold determines the answer |
| `QuotaWalk.CgroupCPUQuota` | internal/event/cgroup.go:82-86 | a ratio is certified if and only if every level was understood and one is finite, and is then the true minimum |
| `QuotaWalk.CgroupCPUUnconstrained` | internal/event/cgroup.go:111-115 | certified free if and only if every level is provably unlimited or absent |
| `QuotaWalk.UnlimitedExactlyWhenProved` | internal/event/cgroup.go:182-195 | unlimited if and only if the own path is known and every level is unlimited or absent |
| `QuotaWalk.BudgetFailsClosed` | internal/event/spin.go:193-206 | the full non-zero budget if and only if more than one processor and provably unlimited; otherwise at most a thirty-second |
| `CPUMaxText.FullBudgetOnlyOverProof` | internal/event/spin.go:193-206 | over file contents: the full budget if and only if there are several processors, the own path was understood and every level's file is absent or says unlimited |
| `CPUMaxText.OtherContentShrinksTheBudget` | internal/event/spin.go:193-206 | one level with any other content, unreadable included, leaves at most a thirty-second |
| `CPUMaxText.UnprovedBudgetExactly` | internal/event/spin.go:193-206 | without that proof the budget is a thirty-second, or nothing exactly when some level's file grants less than one CPU |
| `QuotaWalk.StarvedProcessNeverSpins` | internal/event/spin.go:193-206 | a finite level below one CPU anywhere leaves no budget |

## Left out

- Sockets, descriptor passing, eventfd and memfd calls, and interrupted-call retries: queues that may fail, a draining counter and a reader that may fail stand for them.
- The shared-memory ring, the transports and the supervisor's restart policy: only what their callers rely on is modelled; in `CallOutcome` a send error that proves a frame unpublished is taken as such.
- Stream credit flow, chunk reassembly, the lease and wedge trackers and heartbeat spacing.
- The control-message legality tables in internal/control/legal.go: a receive accepts the one kind its phase expects and treats any other as a violation.
- A teardown error after promotion: the transaction has promoted, and the model does not carry the error it also returns.
- Binary identity pinning, the nonce check and plugin identity in the handshake.
- A reason that is not well-formed but fits the bound is passed on; that the protobuf runtime may refuse to encode it is not modelled.
- The text of status details and error messages; an error is the set of sentinels it wraps and the flag of the first crash error in it.
- Floating-point rounding in quota ratios, which are exact here, and wall clock against monotonic time: `DrainDeadline` has one clock.
- Metrics, logging, stdio forwarding, code generation and codecs: forwarding or text emission that would only add easy members.
- Test hooks and failpoint seams, which production leaves unset.
- The eventfd write of a teardown is taken to succeed: the source ignores its failure, and a consumer asleep through one that failed would be owed nothing. A producer's failed write is modelled.
- CallOutcome.HandlerEnteredAtMostOnce: single delivery of a request frame is the transport's promise and is built into the model; the host hands each call's frame over at most once, and a transport that redelivered it is outside every theorem of that module.
- TaintGate.AdmissionsResolveBeforeTheStore: handler entry is the release of the read side at the top of the handler frame; the application handler's first instruction may run after the store.
- ArenaTheorems.FreeSucceedsExactlyOnOutstandingHandles: assumes contiguous class geometry in ascending slab size with extent below 2^32, since offsets are computed in 32 bits, and fewer than 2^64 allocations, after which sequences repeat.
- HostStop.PatientStopReturnsNil: assumes that no further Stop keeps arriving and that the mutex passes nobody over for ever; with endless arrivals one Stop may be overtaken for ever.
- QuiescenceLiveness.QuietSessionIsAnswered: assumes that the session stays quiet and that the budget does not end; when it can be quiescent at all is `QuiescenceReach.QuiescesExactlyWhenDrainable`.
