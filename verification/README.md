# signal-hermes-router: a verified model

The router serializes chat turns onto shared subprocesses, reloads its configuration while turns are in flight,
deduplicates events durably, and deletes old media. This project models the concurrent core of that router and proves
what its comments promise, for all inputs and all runs.

| module | what it models |
|---|---|
| `TurnGate`, `TurnGateInvariant`, `TurnGateTheorems`, `TurnGateOutcomes`, `TurnGateResumes`, `TurnGateCrowd`, `TurnGateSpin`, `TurnGateProgress`, `TurnGateRuntime` | the order route lock, profile lock, global permit of a turn, over `asyncio.Lock` and `asyncio.Semaphore` of Python 3.12 written out with their FIFO queues and wake transients |
| `DispatchBuffer` | the consumer of Signal events with its count and byte bounds |
| `Circuit`, `Breaker`, `BreakerMasks`, `BreakerRuntime` | the failure window, the maintenance mask it trips, and live reload |
| `Reaper`, `ReaperSteps`, `ReapChain` | the cleanup after a reload: what one pass may evict, and how passes follow each other |
| `DedupeStore`, `DedupeClaims`, `DedupeOwnership`, `DedupePrompts`, `DedupeFates`, `DeferredClose` | the table of claims, the turns and executor jobs that use it, and the close that the last worker performs |
| `Utf8`, `Chunker`, `ChunkMarkers` | splitting a reply into marked messages by UTF-8 size |
| `MediaGroups`, `MediaPlan`, `MediaSelection`, `MediaPlanRuntime`, `MediaSweep` | sidecar pairing, the age, size and orphan passes, deletion, and the sweep beside turns that store files |
| `TokenBucket` | the prompt rate cap |
| `Sessions`, `SessionsRuntime` | the session cache with rotation and resumption |
| `Options`, `Sums` | a missing value, and sums over finite maps |

Concurrent parts are state machines on values: a step is what one coroutine does between two awaits, or one thread
between two points where it may wait, and theorems quantify over all runs. Objects that the source updates in place are
classes whose methods, with the source's loops, are proved against the functions of those machines.

`dafny verify dfyconfig.toml` checks everything.

## Where the code and its documentation disagree

- The docstring of `_run_signal_turn_gated` (`src/signal_hermes_router/router.py:1383-1403`) says that the gate's loop
  cannot livelock. It can: with all permits but one held by long turns and three turns of one profile around the last
  one, the tasks, resumed in the order of the event loop's own queue, hand the permit and the profile lock round without a
  turn running (`TurnGateSpin.GateCanSpin`). It takes `max_concurrent_turns` + 2 inbound routes and a profile that some of
  them share; with at most `max_concurrent_turns` + 1, or with profiles of their own, every such stretch is bounded
  (`TurnGateProgress.IdleRunsAreBounded`). Routes are counted because the route lock lets one turn per route into the
  gate.
- The comments of `_reap_after_drain` (`src/signal_hermes_router/router.py:3085-3094`) argue that evicting only drained
  keys spares the turns that the pass did not wait for. While the pass is suspended on the lock of another key, though,
  one reload can activate a drained key, a turn start on it, and the next reload retire the key again; the pass then
  evicts that turn's session (`Reaper.FlipFlopTruncates`). `Reaper.EvictionExactly` is the exact condition for a turn in
  flight to lose its session.
- The comments on the forced cleanup (`src/signal_hermes_router/router.py:3065-3076`, `3140-3151`) say that it completes
  only keys that the chain already failed to drain in an earlier pass. What a pass carries over also holds the keys that a
  reload retired while it was under way and for which it did not wait, so the next pass, the first to wait for such a key,
  can force it (`ReapChain.ForcedAfterOneWait`). `ReapChain.ForcedWasWaitedForBefore` says exactly when the pass before had
  waited for it.

## Model

| member | source | states |
|---|---|---|
| TurnGateInvariant.StepKeepsGood | src/signal_hermes_router/router.py:1377-1448 | every stretch of every coroutine (inbound, synthetic, probe, drain), with cancellation at any await, keeps lock exclusion, exact FIFO queues, the wake transient, permit conservation and the shape of what a suspended task may hold |
| TurnGateInvariant.ReleasePermitKeeps | src/signal_hermes_router/router.py:1432-1448 | a semaphore release hands the permit to the first waiter whose future is not done, and free + handed + held permits stay `max` |
| TurnGateInvariant.ResumeAcquireKeeps | src/signal_hermes_router/router.py:225-240 | a woken head waiter takes the lock unconditionally, which stays exclusive only because nobody claims past a waiter that is not cancelled |
| TurnGateInvariant.CancelKeeps | src/signal_hermes_router/router.py:1377-1448 | cancelling any await leaves every lock and permit accounted for |
| TurnGateTheorems.PermitsConserved | src/signal_hermes_router/router.py:1408-1448 | in every reachable state, free permits plus the tasks that hold or were handed one equal max_concurrent_turns, raw counter writes included |
| TurnGateTheorems.LocksAreExclusive | src/signal_hermes_router/router.py:225-240 | in every reachable state at most one task holds a lock, and the lock reads locked exactly if one does |
| TurnGateTheorems.NoHoldAndWait | src/signal_hermes_router/router.py:1388-1398 | no task waits on its profile lock while it holds a permit, nor for a permit while it holds its profile lock |
| TurnGateTheorems.NoPermitLiesIdle | src/signal_hermes_router/router.py:1399-1403 | a free permit and a waiter that nobody woke never coexist |
| TurnGateTheorems.SomeTaskCanStep | src/signal_hermes_router/router.py:1377-1448 | deadlock freedom: while some task is unfinished, some task can be resumed, or one is running, for any number of routes, profiles and permits |
| TurnGateOutcomes.StartOutcomes | src/signal_hermes_router/router.py:3205-3218 | where the first stretch of a task ends, for every kind: a job with zero lock timeout and a probe are refused by a locked lock and leave no trace, everyone else is last in the queue of the lock that is locked or spoken for, with the route lock held at the profile; otherwise it runs, or waits last for a permit with the profile lock as free as before; nobody else is touched |
| TurnGateResumes.ResumeOnLockOutcomes | src/signal_hermes_router/router.py:1405-1434 | a woken waiter is the head of the queue and takes the lock, with those behind it in their order; from the route lock it goes on to the profile as a newcomer does, from the profile lock it runs, or lets it go and waits for a permit |
| TurnGateResumes.ResumeInterruptedOnLock | src/signal_hermes_router/router.py:3211-3218 | a waiter whose cancellation is delivered leaves the queue in its order, wakes the next one if the lock is free, and ends |
| TurnGateResumes.ResumeOnPermitOutcomes | src/signal_hermes_router/router.py:1422-1434 | a turn that was handed a permit runs exactly if the profile lock is unlocked and no live waiter is queued, and otherwise passes the permit on and queues for the profile; a cancelled one ends and passes on what it was handed |
| TurnGateResumes.FinishOutcomes | src/signal_hermes_router/router.py:1444-1448 | an ending task lets go exactly what it holds: its permit goes to the first pending waiter or the counter, and the head of each of its locks is woken |
| TurnGateResumes.CancelOutcomes | src/signal_hermes_router/router.py:1422-1422 | a cancellation changes nothing but its own delivery, and makes the task resumable |
| TurnGateSpin.SpinsForEver | src/signal_hermes_router/router.py:1409-1434 | from a state with three turns of one profile around one permit, resumptions alone can go on for any length without a turn running |
| TurnGateSpin.ReachSpin | src/signal_hermes_router/router.py:1399-1403 | such a state is reachable for every number of permits, with at most `max` + 2 inbound routes |
| TurnGateSpin.GateCanSpin | src/signal_hermes_router/router.py:1399-1403 | so the gate can livelock: for every `max` >= 1 there is a reachable state with at most `max` + 2 inbound routes from which resumptions in the first-in-first-out order of the event loop go on for any length without a turn running |
| TurnGateSpin.SpinIsFifo | src/signal_hermes_router/router.py:1409-1434 | the rotation resumes the tasks in the order in which they became ready |
| TurnGateProgress.IdleRunsAreBounded | src/signal_hermes_router/router.py:1399-1403 | and cannot with at most `max` + 1 inbound routes, nor with any number of them that share no profile: idle resumptions, in whatever order, are then bounded by a measure of the state |
| TurnGateRuntime.Gate.TryClaimUncontended | src/signal_hermes_router/router.py:225-240 | claims the lock exactly if it is unlocked and every queued waiter is cancelled, and changes nothing else |
| TurnGateSpin.WaiterCheckIsNeeded | src/signal_hermes_router/router.py:225-240 | for every `max` >= 1 a run from the idle router brings a turn with a permit to its claim of an unlocked profile lock whose woken head waiter, were the lock claimed for being unlocked, would take it as well |
| TurnGateRuntime.Gate.SemaphoreResume | src/signal_hermes_router/router.py:1422-1422 | the end of a capacity wait, with a handed permit given back on cancellation, is the state machine's step |
| TurnGateRuntime.Gate.GateStretch | src/signal_hermes_router/router.py:1405-1434 | the gate's loop, from its start or from the end of a capacity wait to where the turn runs or is suspended, is the state machine's step |
| DispatchBuffer.StepKeeps | src/signal_hermes_router/router.py:605-685 | every stretch of the consumer and every settled turn keeps the count and byte accounting |
| DispatchBuffer.BufferIsBounded | src/signal_hermes_router/router.py:632-679 | unfinished dispatched turns never exceed the buffer size, the byte counter is the sum of the charged sizes, and it stays below the limit plus one event's charge |
| DispatchBuffer.NoLostWakeUp | src/signal_hermes_router/router.py:637-641 | a consumer parked on the byte budget that nobody woke means that the bytes are really at the limit |
| DispatchBuffer.SettleWakes | src/signal_hermes_router/router.py:950-981 | a turn that settles below the limit wakes the parked consumer |
| DispatchBuffer.FrameOutcome | src/signal_hermes_router/router.py:653-679 | a dispatched frame is charged its own size under its own task, and the consumer parks on the bytes, parks for a place, or reads, in that order of its checks |
| DispatchBuffer.SettleOutcome | src/signal_hermes_router/router.py:950-981 | a settled turn gives back its own charge and its place, which a consumer parked for one gets in hand, and wakes one parked on the bytes exactly if there were any |
| DispatchBuffer.ResumeOutcome | src/signal_hermes_router/router.py:632-652 | a resumed consumer reads with the place it was handed or looks at both budgets anew; a cancelled one ends and gives back such a place |
| DispatchBuffer.Buffer.SettleSignalTurnTask | src/signal_hermes_router/router.py:950-981 | gives back exactly the charge of the settled turn |
| DispatchBuffer.Buffer.DispatchFrame | src/signal_hermes_router/router.py:653-679 | charges the event and tracks its task in one stretch |
| Circuit.DropOldIsWindow | src/signal_hermes_router/circuit.py:29-30 | popping old failures from the left leaves exactly those inside the window |
| Circuit.CircuitBreaker.RecordFailure | src/signal_hermes_router/circuit.py:24-33 | for any readings, appends, drops the leading failures before the window and trips exactly if the threshold is reached; while readings do not go back these are exactly the failures since the last success inside the window |
| Circuit.CircuitBreaker.FailureCount | src/signal_hermes_router/circuit.py:35-43 | counts what such a drop leaves, and records nothing; while readings do not go back, the failures since the last success inside the window |
| Breaker.StepKeeps | src/signal_hermes_router/router.py:2490-2528 | trip, recovery and reload keep: the override and both trip-time maps have one domain, and every masked key is ACTIVE in the current configuration |
| Breaker.RunKeeps | src/signal_hermes_router/router.py:2802-2870 | the invariant holds in every state of every run |
| BreakerMasks.TripMasks | src/signal_hermes_router/router.py:2490-2513 | a trip puts a route that the current configuration lists as ACTIVE into maintenance with its two trip times, and changes nothing else and no other route |
| BreakerMasks.RecoveryLifts | src/signal_hermes_router/router.py:3792-3812 | a recovery check lifts the mask of its key exactly if the recovery time has passed since the trip |
| BreakerMasks.ReloadSwaps | src/signal_hermes_router/router.py:2802-2870 | a reload swaps the configuration and leaves exactly the masks of routes that are still ACTIVE, with their trip times; one that moves a key to another profile does nothing |
| BreakerMasks.ReloadRecords | src/signal_hermes_router/router.py:2846-2865 | it records exactly the masks that it lifts, under its own generation, and the profile of every key that it lists |
| BreakerMasks.MaskIsHistory | src/signal_hermes_router/router.py:2490-2528 | over any run a key is masked exactly if a trip found its route ACTIVE and since the last such trip neither a recovery check came late enough after it nor a reload took the route out of the ACTIVE ones |
| Breaker.OneProfilePerKey | src/signal_hermes_router/router.py:2765-2775 | a route key has one profile for the whole run, also across removal and return |
| Breaker.RecordIsHistory | src/signal_hermes_router/router.py:2846-2865 | the reload-clear record is newer than a generation exactly if some reload since then lifted the mask of the key |
| Breaker.MaskedTurnsPassOnlyAfterRecovery | src/signal_hermes_router/router.py:1628-1660 | a turn admitted in maintenance is let through if and only if its route is ACTIVE in what it was admitted under and in the current configuration, the mask is gone, and no reload after its admission lifted the mask |
| Breaker.UnmaskedTurnsSeeTheMask | src/signal_hermes_router/router.py:1647-1660 | a turn admitted unmasked acts on the current mask, or on its own route state without one |
| BreakerRuntime.Router.DoReloadConfig | src/signal_hermes_router/router.py:2802-2870 | the loops of the swap compute the state machine's reload |
| BreakerRuntime.Router.ReloadConfig | src/signal_hermes_router/router.py:2765-2777 | a candidate that gives a known key another profile is rejected and changes nothing |
| BreakerRuntime.Router.HandleHermesFailure | src/signal_hermes_router/router.py:2490-2528 | puts the route into maintenance, with both trip times, exactly if the failure trips the breaker and the current configuration lists the route as ACTIVE, and leaves every other field alone |
| BreakerRuntime.Router.MaybeClearBreakerOverride | src/signal_hermes_router/router.py:3792-3804 | lifts a mask exactly if its recovery time has passed, and clears the failures of the route |
| BreakerRuntime.Router.EffectiveTurnState | src/signal_hermes_router/router.py:1628-1660 | performs the recovery check and returns the state the turn acts on |
| Reaper.StepKeeps | src/signal_hermes_router/router.py:2977-3043 | every step of a pass, of turns and of reloads keeps: turns older than the pass on a key of the pass are waited for or contest the key, and younger ones have the current route unless a reload changed it |
| ReaperSteps.BeginOutcome | src/signal_hermes_router/router.py:2977-3006 | a pass drains the tombstoned keys that are not live and those it was given, and waits for the turns on them and those whose key does not show yet |
| ReaperSteps.WaitOverOutcome | src/signal_hermes_router/router.py:3014-3022 | the turns it waited for that are still there contest their keys, and every key of the pass while one of them does not show its key |
| ReaperSteps.EvictOutcome | src/signal_hermes_router/router.py:3095-3106 | an eviction takes exactly the sessions of drained and forced keys that are not live, or live under another policy than theirs |
| ReaperSteps.RetireOutcomes | src/signal_hermes_router/router.py:3112-3139 | a profile is chosen only if it is cached, no ACTIVE route uses it and every key that ever had it is drained or forced, and retired only if no ACTIVE route uses it then |
| Reaper.EvictionExactly | src/signal_hermes_router/router.py:3095-3106 | over every run, the eviction takes the session of a turn in flight if and only if the key of the turn is drained or forced and the current configuration does not have it ACTIVE under the policy of the turn |
| Reaper.EvictionSparesTurns | src/signal_hermes_router/router.py:3085-3094 | so an unforced pass spares every turn whose route no reload changed while the pass was under way |
| Reaper.RetirementSparesTurns | src/signal_hermes_router/router.py:3112-3139 | a profile is retired under an active turn in flight only if the turn's key is forced or a reload during the pass changed its route, whatever comes between the scope check and the recheck under the acquisition lock |
| Reaper.FlipFlopTruncates | src/signal_hermes_router/router.py:3023-3106 | without that proviso it fails: while the pass is suspended on the lock of one key, two reloads that activate and retire a key it has already drained cost the turn admitted between them its session |
| ReapChain.CollectContested | src/signal_hermes_router/router.py:3014-3022 | the loop over the unfinished tasks collects their keys, and every key for a task without one |
| ReapChain.DrainLocks | src/signal_hermes_router/router.py:3023-3039 | the loop drains exactly the uncontested keys whose locks come free in time |
| ReapChain.PassExactly | src/signal_hermes_router/router.py:3053-3084 | key by key: a pass leaves what it did not drain and is retired, or was given and is live; it forces what it leaves, waited for and got as left before, from the third follow-up on; and it has a follow-up exactly if it leaves something, forces nothing and the router is not closing |
| ReapChain.ChainForgetsNothing | src/signal_hermes_router/router.py:3152-3166 | for every pass of a chain, over what it met: what it drained and left, and that the next pass is given exactly the live keys it was given and did not drain, with exactly what it left as forcible |
| ReapChain.ForcedWereLeftBefore | src/signal_hermes_router/router.py:3053-3094 | an unforced pass acts only on what it drained; a forced key was waited for in vain by this pass and left by the one before, and is forced only from the third follow-up on |
| ReapChain.ForcedWasWaitedForBefore | src/signal_hermes_router/router.py:3065-3077 | the pass before waited for a forced key, in vain, if and only if the key was retired when that pass began or was given to it; otherwise it was retired while that pass was under way |
| ReapChain.ForcedAfterOneWait | src/signal_hermes_router/router.py:3140-3151 | that happens: a chain forces a key in its fourth pass that none of its first three waited for |
| ReapChain.ReloadChainEnds | src/signal_hermes_router/router.py:3140-3166 | with no further reload and no new turn on a retired route a chain has at most REAP_MAX_FOLLOWUP_ATTEMPTS + 1 passes, its last one drained or forced every key it was left with, and every retired key and every live key that it was given was drained or forced by some pass |
| ReapChain.TurnsEndTheChain | src/signal_hermes_router/router.py:3004-3022 | the same from the turns: it is enough that those that can touch a retired key only finish or show their key from one pass to the next |
| ReapChain.ChainCanGoOn | src/signal_hermes_router/router.py:3070-3076 | with new turns it need not end: two keys that turns hold in alternation give chains of any length that force nothing |
| DedupeStore.DedupeStore.Claim | src/signal_hermes_router/dedupe.py:228-241 | true exactly if there was no row, and then a processing row is there; refused once a close was requested |
| DedupeStore.DedupeStore.MarkHandled | src/signal_hermes_router/dedupe.py:267-278 | the row is handled with the current retention clock, whatever was there |
| DedupeStore.DedupeStore.Release | src/signal_hermes_router/dedupe.py:280-289 | removes the row only if it is processing |
| DedupeStore.DedupeStore.constructor | src/signal_hermes_router/dedupe.py:210-220 | opening a store keeps exactly the handled rows of the last process |
| DedupeStore.DedupeStore.PruneHandledBefore | src/signal_hermes_router/dedupe.py:291-316 | whatever other threads do between the chunks, each chunk is handled rows older than the cutoff, as many as one statement takes, and all are counted once; at the end none is left, unless a close came in between |
| DedupeStore.ChunkPruned | src/signal_hermes_router/dedupe.py:307-316 | one chunk makes what can be pruned smaller and is empty only when nothing is left |
| DedupeStore.PrunedAlone | src/signal_hermes_router/dedupe.py:291-316 | without other threads the sweep removes exactly the handled rows older than the cutoff |
| DedupeOwnership.StepKeeps | src/signal_hermes_router/router.py:2031-2087 | every step of turns and executor jobs, with cancellation at any await, crash and prune, keeps the ownership law |
| DedupeOwnership.ExactlyOneOwner | src/signal_hermes_router/router.py:2031-2087 | a row is processing if and only if exactly one running turn or pending job answers for it, for turns with one or two identities |
| DedupeOwnership.NothingStaysProcessing | src/signal_hermes_router/router.py:2062-2087 | once all turns and jobs are done no processing row remains |
| DedupeOwnership.FinalizersTouchOwnClaims | src/signal_hermes_router/router.py:2048-2060 | a mark or release that is about to run meets a processing row that its own turn claimed |
| DedupeOwnership.HandledRowsStay | src/signal_hermes_router/dedupe.py:210-316 | no claim, mark, release, crash or restart removes a handled row; only a prune with a later cutoff does |
| DedupeFates.FateOfClaims | src/signal_hermes_router/router.py:2062-2080 | for every run, every turn that ends and every identity it claimed: the row stays processing until its finalizer is committed, which leaves it handled for shed, recorded and answered turns of either origin, handled for Signal and free for a synthetic job after a failure with a notice, and free after a refused attachment, a cancellation or an escape |
| DedupeFates.SettledTurnsAreNotRepeated | src/signal_hermes_router/router.py:1933-1942 | so an answered, shed or recorded identity, of a synthetic job as well, is not prompted again until a crash comes before its row is handled or a later prune removes it |
| DedupeFates.ClaimAnswers | src/signal_hermes_router/dedupe.py:228-241 | a committed claim inserts its row exactly if there was none, and answers so |
| DedupeFates.WonClaimGoesOn | src/signal_hermes_router/router.py:1676-1687 | a turn that won its claim goes on to the next identity, and runs when it has them all |
| DedupeFates.LostClaimEnds | src/signal_hermes_router/router.py:1676-1686 | a turn that lost a claim is finished without a prompt, and exactly the identities it had claimed before are released |
| DedupeFates.CancelledClaimEnds | src/signal_hermes_router/router.py:2031-2046 | a turn that is cancelled at a claim is finished, what it had claimed is released, and the claim it does not wait for is marked abandoned |
| DedupeFates.AbandonedClaimIsReleased | src/signal_hermes_router/router.py:2048-2060 | an abandoned claim that was committed is released, and one that was lost is not |
| DedupePrompts.ConsumedStays | src/signal_hermes_router/router.py:1662-1987 | from its prompt on, an identity stays handled or on its way there, unless something loses it |
| DedupePrompts.AtMostOnePrompt | src/signal_hermes_router/router.py:1662-1987 | over any stretch of any run a Signal identity is prompted at most once, unless a turn is cancelled or lets an exception escape after its prompt started, the process crashes in that time, or a later prune removes the handled row |
| DedupePrompts.AtMostOnePromptEver | src/signal_hermes_router/dedupe.py:210-316 | in particular from the start of the process on, over any table |
| DedupePrompts.CancelledPromptRepeats | src/signal_hermes_router/router.py:1978-1987 | the exception is real: a cancellation after the prompt started releases the identity, and its redelivery is prompted again, from any state in which the identity is free |
| DeferredClose.StepKeeps | src/signal_hermes_router/dedupe.py:341-404 | every step of any number of threads keeps the lock and counter invariant |
| DeferredClose.NoStatementOnClosedConnection | src/signal_hermes_router/dedupe.py:374-387 | a statement runs only on an open connection and alone, and the connection is closed at most once |
| DeferredClose.NoOperationStartsAfterRequest | src/signal_hermes_router/dedupe.py:357-372 | from a close request on, the set of operations in flight only shrinks |
| DeferredClose.DeferredCloseIsCompleted | src/signal_hermes_router/dedupe.py:374-387 | a close that was put off is done when the last operation is |
| DeferredClose.CloseAnswersTruly | src/signal_hermes_router/dedupe.py:388-404 | close() answers true exactly if the connection is closed on return |
| DeferredClose.StateHolderNeverWaits | src/signal_hermes_router/dedupe.py:377-386 | whoever holds the state lock can go on: the finalizer always finds the statement lock free, so close() never waits for a statement |
| DeferredClose.NoDeadlock | src/signal_hermes_router/dedupe.py:341-404 | while a thread is inside the store, some thread inside it can step |
| DeferredClose.OperationsBegin | src/signal_hermes_router/dedupe.py:357-372 | an operation begins exactly when no close was requested or done |
| DeferredClose.OperationsRun | src/signal_hermes_router/dedupe.py:291-316 | a turn runs one statement; a sweep runs one exactly after each look that found no request, while it has more to do |
| DeferredClose.SweepStopsAtRequest | src/signal_hermes_router/dedupe.py:302-305 | a sweep whose look found a request runs no further statement, however the other threads go on |
| DeferredClose.EndsInOrder | src/signal_hermes_router/dedupe.py:374-387 | the operation that ends last after a request closes the connection under both locks, and every other end leaves the store at once |
| DeferredClose.FlagsChange | src/signal_hermes_router/dedupe.py:374-404 | only a close() that finds an operation in flight requests, and only one that finds none and the finalizer close |
| Utf8.EncodedDecodes | src/signal_hermes_router/outbound.py:73-77 | decoding an encoded code point gives it back, with its length, whatever follows |
| Utf8.CutOffDecodesToNothing | src/signal_hermes_router/outbound.py:73-77 | self-synchronization: a cut-off encoding decodes to nothing, from whatever byte one starts |
| Utf8.BytePrefixIsLongest | src/signal_hermes_router/outbound.py:73-77 | cutting the bytes and decoding with errors ignored gives the longest code-point prefix that fits, for every text and budget |
| Utf8.DecodeInvertsEncode | src/signal_hermes_router/outbound.py:73-77 | encoding loses nothing |
| Chunker.CutIsPreferred | src/signal_hermes_router/outbound.py:84-103 | each cut is the last paragraph break that leaves a body, else the last line break, else the last blank, else the whole window |
| Chunker.EveryCutIsPreferred | src/signal_hermes_router/outbound.py:80-107 | every piece of a split is cut so from the longest fitting prefix of what is left, and the last one is what is left |
| Chunker.PiecesRebuild | src/signal_hermes_router/outbound.py:80-107 | bodies are non-empty and fit, and interleaved with separators from nothing, two newlines, newline, blank and tab they rebuild the text up to code points larger than a whole chunk |
| Chunker.HardPiecesRebuild | src/signal_hermes_router/outbound.py:110-120 | the hard cut concatenates to the text up to such code points |
| Chunker.DecimalWidthIsMonotone | src/signal_hermes_router/outbound.py:50-50 | a larger number is not narrower in decimal |
| Chunker.SettleIsFixpoint | src/signal_hermes_router/outbound.py:36-48 | what the marker loop settles on is a split for exactly the room that its own markers leave |
| Chunker.ChunksFit | src/signal_hermes_router/outbound.py:27-50 | every chunk, marker included, is at most max_bytes of UTF-8, for every message and budget |
| Chunker.SettledIsSeveral | src/signal_hermes_router/outbound.py:31-43 | marked chunks are at least two |
| Chunker.ChunksRebuild | src/signal_hermes_router/outbound.py:27-50 | the chunks are the bodies of one splitting of the message, unmarked and with nothing swallowed unless there is only one, or each marked with its place and the true number of chunks |
| ChunkMarkers.DecimalIsNumeral | src/signal_hermes_router/outbound.py:50-50 | the numbers of a marker are written in digits, without a leading zero, and read as what they stand for |
| ChunkMarkers.NumeralIsUnique | src/signal_hermes_router/outbound.py:50-50 | no two numbers are written the same way, nor one in two ways |
| ChunkMarkers.MarkersAreTrue | src/signal_hermes_router/outbound.py:45-50 | whenever a message goes out in marked chunks, each reads [place/count], a blank and its text, with its true place from one on and the true number of chunks |
| Chunker.NothingIsLost | src/signal_hermes_router/outbound.py:27-50 | for budgets of at least four bytes the splitting rebuilds the message exactly |
| Chunker.SplitGreedyBytes | src/signal_hermes_router/outbound.py:80-107 | the loop computes that split |
| Chunker.HardByteCut | src/signal_hermes_router/outbound.py:110-120 | the loop computes that hard cut |
| Chunker.ChunkForSignalBytes | src/signal_hermes_router/outbound.py:27-50 | the marker loop with its fallbacks computes those chunks |
| MediaGroups.GroupDirectoryEntries | src/signal_hermes_router/media.py:313-342 | the two loops compute the grouping |
| MediaGroups.PrincipalsAreNoSidecars | src/signal_hermes_router/media.py:316-324 | a file with a sidecar is never a sidecar itself, so chains of suffixes break into pairs |
| MediaGroups.EveryGroupIsWellPaired | src/signal_hermes_router/media.py:313-342 | every group is one principal with at most one sidecar, named after it and without one of its own, and is as old as its newest member |
| MediaGroups.GroupsCover | src/signal_hermes_router/media.py:331-342 | no file is left out |
| MediaGroups.GroupsAreDisjoint | src/signal_hermes_router/media.py:331-342 | no file is in two groups |
| MediaPlan.BelowCutoffIsOlder | src/signal_hermes_router/media.py:290-291 | what is below a truncated cutoff is really older than the age |
| MediaPlan.CutoffIsExact | src/signal_hermes_router/media.py:290-291 | and exactly: by a nanosecond at least, unless the age reaches back beyond the epoch |
| MediaPlan.ArchiveLayout | src/signal_hermes_router/media.py:294-301 | the archive is what lies at or below platform, year of four digits, month of two digits, for any platform but the staging directory |
| MediaSelection.NoArchiveFileIsMissed | src/signal_hermes_router/media.py:174-199 | every file of an archive directory is in an archive group |
| MediaSelection.OutboundEntriesAre | src/signal_hermes_router/media.py:180-199 | the outbound files are those at or below the staging directory |
| MediaSelection.BytesOfGroup | src/signal_hermes_router/media.py:216-225 | a group is as large as its one or two files |
| MediaSelection.PlanWithoutSizeLimit | src/signal_hermes_router/media.py:203-229 | without a size limit exactly the outbound files older than a day are planned, and the archive groups older than the age limit and the grace floor |
| MediaSelection.PlanWithSizeLimit | src/signal_hermes_router/media.py:214-225 | a size limit adds exactly the victims of its pass |
| MediaPlan.PassesConserve | src/signal_hermes_router/media.py:201-234 | every archive group is taken by exactly one pass or kept, nothing but orphans is planned besides, and the plan is oldest first |
| MediaPlan.PlanRespectsGrace | src/signal_hermes_router/media.py:203-229 | no archive group with a member inside the grace floor and no outbound file younger than a day is planned, whatever the limits |
| MediaPlan.AgePassIsComplete | src/signal_hermes_router/media.py:204-210 | every archive group older than the age limit and the grace floor is planned |
| MediaPlan.SizePassIsMinimal | src/signal_hermes_router/media.py:214-225 | size victims are an oldest-first prefix; what is kept is within the limit or wholly inside the grace floor; with one victim fewer it would be above the limit |
| MediaPlan.NoFileIsPlannedTwice | src/signal_hermes_router/media.py:168-234 | over any listing no file is in two planned groups |
| MediaPlanRuntime.PlanMediaSweep | src/signal_hermes_router/media.py:153-237 | the loops of the planner compute that plan |
| MediaPlanRuntime.SizePassLoop | src/signal_hermes_router/media.py:214-225 | the running total stops where the declarative size pass does |
| MediaPlanRuntime.MediaArchive.ExecuteSweepGroups | src/signal_hermes_router/media.py:240-272 | the deletion loop computes the declarative sweep and counts what it removed |
| MediaPlanRuntime.MediaArchive.ExecuteSweepPlan | src/signal_hermes_router/router.py:1235-1261 | the batch loop computes and counts the sweep in batches, each against the live paths and files it finds, up to the first that finds media I/O in flight or the router closing |
| MediaPlanRuntime.SweptAlone | src/signal_hermes_router/router.py:1235-1261 | when nothing happens in between, deleting in batches is deleting at once what is reached |
| MediaPlanRuntime.KeptThroughBatches | src/signal_hermes_router/router.py:1242-1261 | a file that is live whenever a batch looks, or newer than it was planned, is there after the whole sweep, whatever happens between the batches short of its removal |
| MediaPlanRuntime.SweptOnlyAsPlanned | src/signal_hermes_router/media.py:251-265 | a file goes only with a planned group of which no member was live, missing or written since the plan; everything else is unchanged |
| MediaPlanRuntime.SweptGroupsGoWhole | src/signal_hermes_router/media.py:253-269 | a planned group that nothing keeps goes completely |
| MediaSweep.StepKeeps | src/signal_hermes_router/router.py:1235-1290 | every step of turns, write workers, planner, deletion batch and clock keeps the sweep invariant |
| MediaSweep.RegisterCounts | src/signal_hermes_router/router.py:1279-1280 | registering adds one per manifest |
| MediaSweep.ReleaseCounts | src/signal_hermes_router/router.py:1282-1287 | releasing takes one per manifest and drops a path only at zero |
| MediaSweep.PassedIsFree | src/signal_hermes_router/media.py:253-265 | what passes the live check and the recheck is in no turn's hands |
| MediaSweep.SweepIsSafe | src/signal_hermes_router/router.py:1235-1258 | no sweep step unlinks a file that a turn in flight stored and did not release, for any interleaving, given a monotone clock and registration within the grace |
| MediaSweep.RefreshMeetsItsFile | src/signal_hermes_router/media.py:91-103 | no sweep comes between a write worker's look at an existing target and its refresh, so the target is never made anew and empty |
| MediaSweep.GuardIsNeeded | src/signal_hermes_router/router.py:1095-1108 | without the in-flight I/O guard there is a run that does |
| MediaSweep.RecheckIsNeeded | src/signal_hermes_router/media.py:257-265 | without the modification time recheck there is a run that does |
| MediaSweep.LiveCountsAreNeeded | src/signal_hermes_router/router.py:1279-1290 | without the live counts there is a run that does |
| MediaSweep.PromptRegistrationIsNeeded | src/signal_hermes_router/router.py:1748-1757 | and with all three but no bound on the time to registration there is one too |
| MediaSweep.LiveMedia.ReleaseManifests | src/signal_hermes_router/router.py:1282-1287 | the release loop computes the released counts |
| TokenBucket.TokenBucket.TryAcquire | src/signal_hermes_router/ratelimit.py:23-29 | refills, and grants exactly if a whole token is there |
| TokenBucket.TokenBucket.Create | src/signal_hermes_router/ratelimit.py:13-17 | a capacity below one or a rate that is not positive is an error, everything else gives a full bucket |
| TokenBucket.GrantsExactly | src/signal_hermes_router/ratelimit.py:23-29 | a call is granted exactly if the stored tokens and what came in since the last refill make one, and takes one; the rest stays up to the capacity, and a clock that does not advance brings nothing |
| TokenBucket.BurstIsGranted | src/signal_hermes_router/ratelimit.py:23-29 | as many calls as there are whole tokens are all granted, so a full bucket grants its capacity at once |
| TokenBucket.RefundsExactly | src/signal_hermes_router/ratelimit.py:31-33 | a refund brings one token back, up to the capacity |
| TokenBucket.GrantsAreCovered | src/signal_hermes_router/ratelimit.py:23-47 | for any clock readings, stalled or backward, tokens stay between zero and the capacity, and grants minus refunds are covered by the tokens spent and the advance of the running-maximum clock |
| TokenBucket.GrantsAreBounded | src/signal_hermes_router/ratelimit.py:23-47 | so between any two calls they are at most capacity + rate x advance |
| TokenBucket.TurnsAreGrants | src/signal_hermes_router/router.py:1981-1986 | a token is refunded exactly when its turn ends without a prompt, so the tokens out are the turns that hold one and those that prompted |
| TokenBucket.PromptsAreBounded | src/signal_hermes_router/router.py:1730-1746 | prompts that start in any stretch are at most the turns that held a token at its start + capacity + rate x advance |
| TokenBucket.PromptsSinceCreation | src/signal_hermes_router/router.py:1730-1746 | prompts since a bucket was made are at most capacity + rate x advance |
| TokenBucket.RateLimiter.Reserve | src/signal_hermes_router/router.py:2296-2313 | takes the token from the bucket object under the key, made full if it was missing, and hands out that object |
| TokenBucket.RateLimiter.RefundAfterReplacement | src/signal_hermes_router/router.py:1722-1725 | a refund into a bucket that a reload replaced reaches the old object and mints nothing in the new one |
| Sessions.CompleteKeeps | src/signal_hermes_router/sessions.py:289-326 | a completed get keeps: one domain, counts equal to the turns served, no context known under two keys, and no ephemeral session cached |
| Sessions.NoContextServesMore | src/signal_hermes_router/sessions.py:289-380 | over any run of get, resume, recreate, replace and drop no session context serves more than session_max_turns turns, ephemeral sessions are never cached, and the two maps have one domain |
| Sessions.ContextIsKept | src/signal_hermes_router/sessions.py:298-307 | a context below its budget and younger than its limit is handed out again, with its age and one turn more, also when its profile process was replaced and it resumes |
| Sessions.SpentContextGoes | src/signal_hermes_router/sessions.py:328-363 | one whose turns are used up or that is as old as it may get is not, and does not stay cached |
| Sessions.NewContext | src/signal_hermes_router/sessions.py:308-326 | without a context to go on with a new session is asked for, counts its first turn, and is cached exactly if the route is not ephemeral |
| Sessions.LostContext | src/signal_hermes_router/sessions.py:466-510 | a context that does not resume after its process was replaced: raised unless the route recreates, otherwise a new one in its place with a budget of its own |
| Sessions.ReplacedContext | src/signal_hermes_router/sessions.py:365-380 | a replacement after a restart does the same and counts no turn |
| Sessions.BeginThenComplete | src/signal_hermes_router/sessions.py:289-326 | the two halves of a turn's get, with nothing of its key in between, are a get, and count one served turn |
| Sessions.EvictsExactly | src/signal_hermes_router/sessions.py:414-452 | each eviction removes exactly what is in its scope and not live, or of another policy than its route has now |
| Sessions.EvictionsLeaveUsable | src/signal_hermes_router/sessions.py:414-452 | after both evictions exactly the sessions of live routes with the policy of their route are cached |
| SessionsRuntime.SessionRegistry.Get | src/signal_hermes_router/sessions.py:289-326 | the method on session objects, whose turn count is updated in place, computes that get |
| SessionsRuntime.SessionRegistry.ReplaceAfterRestart | src/signal_hermes_router/sessions.py:365-380 | computes that replacement |
| SessionsRuntime.SessionRegistry.DropSessionsMatching | src/signal_hermes_router/sessions.py:454-464 | evicts exactly the matching sessions, releases each once and returns their number |

## Left out

- Signal and Hermes I/O: sending, typing indicators, busy notices and the subprocess protocol; a prompt starts, succeeds, fails or is cancelled.
- SQLite: statements are atomic and succeed, and the table survives a crash as last committed; migration, backup, WAL and vacuum are not modelled.
- Executor shutdown: dispatching a job while the process shuts down can fail; the claims model covers an open store.
- Real time: deadlines are nondeterministic choices, and reals stand for floats.
- Configuration parsing and validation; unique route keys are assumed, as `parse_routes` enforces them, and so are a rate limit and `session_max_turns` of at least one.
- Preflight reports, permissions, redaction, control sockets and the command line.
- The cleanup of empty sweep directories, and `remove_empty_sweep_dirs`: easy facts about a list.
- Bytes removed by a sweep are not counted in `MediaPlanRuntime`, files are.
- Unicode decimal digits other than ASCII, which Python's `\d` also accepts in archive directory names.
- Lone surrogates in a reply, on which Python's encoder raises.
- Prompts of a synthetic job that fail: they are released so that the job is retried, so the at-most-once theorem over a whole run is about Signal identities; answered jobs are in `DedupeFates.SettledTurnsAreNotRepeated`.
- Preflight probes in the reaper: `_preflight_probes_inflight` only makes fewer profiles retirable.
- Reaper.StepKeeps: the theorems over runs let other parts of the router act at any point, also where the pass does not yield, and any uncontested key be drained at any time; the run of `Reaper.FlipFlopTruncates` uses only steps that the event loop offers.
- Several reap passes at once: one pass is modelled step by step, and what others take away is a step of its own.
- `ProfileSupervisor` beyond the two checks of a retirement, before and under its acquisition lock; the lock itself is a point where others act.
- Session keys are opaque; that different routes and senders have different ones is assumed.
- MediaSweep.SweepIsSafe: is about the stored file itself; its manifest is protected with it while the two are paired, but a manifest that owns a sidecar of its own is a principal in its own right and is protected by its age alone, as in the source.
- TurnGateProgress.IdleRunsAreBounded: bounds resumptions of idle tasks, not time; which distributions of more than `max` + 1 routes over shared profiles can spin is not settled beyond the one of `TurnGateSpin.GateCanSpin`.
- DedupeStore.DedupeStore.PruneHandledBefore: other threads add no row that the sweep would have to delete, as rows handled meanwhile carry the current clock; were the clock to go back behind the cutoff the loop would go on deleting.
- BreakerRuntime.Router.HandleHermesFailure: stops where the failure reply and the subprocess recovery begin.
