# Reconcile: a verified model of its recovery and bounded-investigation core

Reconcile decides, after an interrupted operation, whether the operation's effects were
committed. It investigates with bounded reads, records everything it does under a lease, and
must survive crashes, takeovers, cancellations and clock jumps without repeating an irreversible
effect. This project models that core in Dafny and proves what it keeps, over every run.

| file | what it models |
|---|---|
| `LeaseFence.dfy` | the lease row of a durable run and the in-process authority that writes through it |
| `Journal.dfy` | the append-only journal, the canonical journal of a report, resumable projection |
| `DurableRun.dfy` | the durable investigation: any number of workers, one await at a time |
| `DurableRecovery.dfy` | how first, resumed and finishing runs of a durable investigation get to the one canonical journal |
| `ElapsedMeter.dfy` | the elapsed-time floor joined from a wall clock and a monotonic clock |
| `ProviderCalls.dfy` | concurrent metered provider calls, sealing an outcome, the metered planner |
| `Reads.dfy` | charged, checkpointed, authorised and audited external reads, and their restoration |
| `Scenario.dfy` | the scenario work item: mutate once, investigate, clean up once, repair a workspace |
| `LaneRoute.dfy` | which investigation lanes the incarnations of an adaptive scenario open |
| `OperatorJournal.dfy` | the operator's journal, its snapshot, its replayed counters, its terminal event |
| `OperatorRegistry.dfy` | the operator's bounded two-index registry |
| `MemoryService.dfy` | one investigation of the in-memory service, with a cancellation after any effect |
| `Shutdown.dfy` | the in-memory service as a whole: its tasks, its readers, and a shutdown that may be cancelled |
| `Selection.dfy` | choosing one proposal, independently of the order of arrival |
| `AdaptiveLoop.dfy` | the adaptive investigation loop and its sealed result |
| `FixedPlan.dfy` | the fixed-plan loop and its sealed result |
| `Progress.dfy` | the bounded progress dispatcher |
| `Wrappers.dfy` | `Option`, `Result`, `Max`, `Min` |

Protocols are total step functions over a system of workers. A worker's phase is the await it is
about to perform, so a crash, a takeover, a lost or unacknowledged renewal and any clock reading
can fall between any two awaits. Invariants are proved step by step and lifted to every sequence
of actions. Code that is one uninterrupted piece in the source (the lease authority, the elapsed
meter, terminal projection, journal appends, eviction, the two investigation loops, proposal
selection, shutdown, the dispatcher) is a class or a method with loops, tied to a specification
function or to the property it promises.

## Where the code does less than one might expect

These are results about the code, each with its exact condition or a concrete run.

- Holding a lease clamps an early clock reading only for its own checks; a caller that writes at
  the unclamped reading is refused exactly when it lies before the last renewal
  (`LeaseFence.HoldThenWrite`).
- A read checkpoint and its controller audit are recorded by two store transactions. A crash
  between them leaves a recorded read that recovery cannot restore: restoration succeeds if and
  only if the audit log has that audit (`Reads.RestoredExactly`), which always holds when no worker
  stopped between the two writes (`Reads.UntornReadIsRestored`), and `Reads.TornReadIsNotRestored`
  gives a run where it fails.
- A caller cancelled inside the reservation lock can leave a stored receipt nobody read back
  (`ProviderCalls.OrphanedReceiptIsReachable` is a run of four steps). The stored receipts equal the
  context's list, and a sealed outcome is accepted, if and only if that never happened
  (`StoredReceiptsAreTheList`, `SealedOutcomeIsAccepted`); once it has, no call of that context is
  charged again and no outcome it seals is accepted (`UnreadReceiptIsFatal`).
- Shutdown marks the service closed before it has finished anything. A later call of `aclose`
  returns at once, whatever the first one has got to (`Shutdown.ConcurrentCloseReturnsEarly`), and if
  the first one is cancelled, investigations whose task was cut short stay incomplete
  (`Shutdown.CancelledCloseStrands`), for good unless their report was already established
  (`StrandedForGood`, `ReaderCompletes`). Only a first call that returns guarantees that everything
  owned is complete (`FirstCloseCompletesEverything`); `IncompleteExactlyIfAbandoned` and
  `LaterCloseChecksNothing` say exactly what is left otherwise.
- The scenario workspace is recreated outside the fence. An owner's repair implies that no
  mutation was ever authorised; a fenced-off worker's may come after one
  (`Scenario.StaleRepairFollowsMutation`). Whoever repairs, nothing was authorised if and only if a
  fresh read of the record would still show the mutation stage the worker loaded
  (`RepairIsPristineIffUnchanged`).
- A first incarnation that crashes after creating the fixed lane's file but before its run strands
  the scenario: recovery escalates (`LaneRoute.StrandedFileEscalates`).
- Only the terminal event's own journal slot is reserved. With an advisory turn open and the
  journal otherwise full, a run can neither go on nor end; one workflow call alone can never get
  there (`OperatorJournal.TerminalStepAccepted`, `StuckRunStaysStuck`, `StuckRunIsReachable`,
  `OneCallCanAlwaysEnd`).
- A worker authorised to read, fenced off and overtaken dispatches a read its successor has recorded
  (`Reads.StaleReadOverlaps`); nobody else ever does (`RecordedReadIsNotRepeated`).
- The operator can write a terminal journal its own store then refuses to read: exactly when the run
  ends before it was marked as running (`OperatorJournal.ReaderAcceptsTheJournal`,
  `UnmarkedFailureIsRefused`).
- A run state that a launch or a lookup rebuilds from the store starts with zero counters. It is
  coherent exactly when the journal has no request and no advisory event
  (`OperatorJournal.RebuiltIsCoherent`). Otherwise exactly a second first request and a second first
  turn make the journal one that replay rejects (`RebuiltStepBreaksReplay`), and a turn that was open
  is never closed, so the run cannot end with a journal the store's reader accepts
  (`RebuiltRunNeverEndsWell`).
- `finish` can return normally although queued progress was discarded: after an abort, and when it
  is called again after it was cancelled in mid-flush (`Progress.CancelledFinishThenFinish`). It has
  delivered everything if and only if neither ever happened while an event was queued
  (`Progress.NormalFinishDeliveredAll`).

## Model

| member | source | states |
|---|---|---|
| LeaseFence.AcceptedWritesAreFenced | reconcile/persistence/sqlite_runtime.py:653-812 | over any interleaving of acquisitions, renewals, releases and writes with any tokens and clock readings, accepted writes never return to an earlier fence and one fence has one owner |
| LeaseFence.WritesFollowTheRow | reconcile/persistence/sqlite_runtime.py:684-726 | everything accepted from a lease row on carries its fence or a later one, and the fence already issued works only for its holder |
| LeaseFence.HoldThenWrite | reconcile/durable_application.py:235-249 | a write made after a successful hold is accepted exactly when the store still has the token and the caller's reading is not before the last renewal; clamping the reading removes the second condition |
| LeaseFence.HoldKeepsIdentity | reconcile/durable_application.py:235-249 | holding keeps owner and fence, only moves the renewal time forward, and fails exactly when released, expired, or due for renewal and fenced off |
| LeaseFence.LeaseAuthority.Hold | reconcile/durable_application.py:235-249 | the method's new token, the stored row and the outcome are those of the specification |
| LeaseFence.LeaseAuthority.Renew | reconcile/durable_application.py:251-260 | the heartbeat renews exactly when due, not released and still the stored holder, and fails exactly when due and fenced off |
| LeaseFence.LeaseAuthority.Release | reconcile/durable_application.py:262-273 | release is final and frees the row exactly when this authority still owns an unexpired lease |
| Journal.CanonicalShape | reconcile/durable_application.py:1634-1672 | a report's canonical journal is numbered 1..n within capacity, ends terminal and is terminal nowhere else |
| Journal.CanonicalStep | reconcile/persistence/sqlite_runtime.py:1379-1447 | from any strict prefix of a canonical journal both journals accept the next canonical event |
| Journal.StoredJournal.Append | reconcile/persistence/sqlite_runtime.py:1379-1447 | appends the next event, accepts an exact replay without change, and refuses the rest by reason |
| Journal.StoredJournal.ProjectTerminal | reconcile/durable_application.py:1675-1713 | a journal that disagrees with the report is left alone; otherwise exactly the missing events are appended in order until the lease is lost |
| Journal.ResumedProjection | reconcile/durable_application.py:1675-1713 | however often it is interrupted, projection moves along the one canonical journal and needs exactly the remaining events next time |
| Journal.JournalDeterminesReport | reconcile/durable_application.py:1634-1672 | no two reports project to the same journal |
| DurableRun.ReachableInv | reconcile/durable_application.py:1277-1447 | the run, journal, worker and history invariants survive every step of every worker |
| DurableRun.JournalIsCanonicalPrefix | reconcile/durable_application.py:1205-1250 | in every reachable state the journal is a prefix of CREATED, INVESTIGATING and the events of the one established report, with at most one event while CREATED, one or two while ACTIVE and at least two once TERMINAL |
| DurableRecovery.SteadyRunCompletes | reconcile/durable_application.py:1277-1447 | a worker that keeps its lease brings the journal from wherever it is to the canonical one of its report in a stated number of own steps, whatever anybody else does in between, and the journal then stays |
| DurableRecovery.UninterruptedRunCompletes | reconcile/durable_application.py:1360-1412 | the task of the call that created a run, driven from the creation, ends with the canonical journal of what its executor reports |
| DurableRecovery.RecoveredRunCompletes | reconcile/durable_application.py:1205-1250 | from any reachable state that is created or active under a fixed strategy, or reported, a restarted worker that keeps the lease ends with the canonical journal |
| DurableRecovery.RecoveredEndsAsUninterrupted | reconcile/durable_application.py:1316-1344 | a recovered run ends with exactly the journal of an uninterrupted one that was created and activated at the same times and reported the same |
| DurableRecovery.RecoveredRunIsComplete | reconcile/durable_application.py:1403-1412 | such recovered runs exist: restarted once the lease is free and proceeding at one clock reading, with the report stamped within the lease |
| DurableRecovery.UninterruptedRunIsComplete | reconcile/durable_application.py:1360-1412 | so do uninterrupted ones, from the creation in twice as many steps as the report has events, and ten |
| DurableRun.ExecutorRunsAtMostOnce | reconcile/durable_application.py:1360-1402 | a planner-driven executor is called at most once per investigation over all incarnations |
| DurableRun.CleanupIsDispatchedAtMostOnce | reconcile/durable_application.py:1715-1782 | external cleanup is dispatched at most once, never before its intent is stored, and only behind a complete journal |
| DurableRun.PendingCleanupIsNeverRetried | reconcile/durable_application.py:1715-1782 | once the intent is stored and whoever was to carry it out is gone, cleanup is never dispatched over any further run, and all that is ever recorded is a failure |
| DurableRun.PendingCleanupIsRecordedFailed | reconcile/durable_application.py:1755-1782 | recovery that finds the intent stored records FAILED and dispatches nothing |
| DurableRun.OwnerNeverDrifts | reconcile/durable_application.py:1675-1700 | a worker that still owns the lease never finds a journal that disagrees with its run |
| DurableRun.NothingStoredIsTakenBack | reconcile/persistence/sqlite_runtime.py:1493-1607 | over any run the journal only grows and an established report and a final cleanup status stay |
| ElapsedMeter.ElapsedClock.constructor | reconcile/durable_application.py:303-313 | the meter starts at the wall clock's elapsed time, capped by the budget |
| ElapsedMeter.ElapsedClock.EffectiveElapsedMs | reconcile/durable_application.py:330-351 | result and new state are those of one step of the meter |
| ElapsedMeter.ElapsedClock.RemainingElapsedMs | reconcile/durable_application.py:353-355 | what the effective elapsed time leaves of the budget |
| ElapsedMeter.NeverDecreases | reconcile/durable_application.py:330-351 | however both clocks jump, results never fall and never pass the budget, so they stay at it |
| ElapsedMeter.RemembersEveryReading | reconcile/durable_application.py:330-351 | with a nondecreasing monotonic clock the base-and-anchor meter answers exactly as one that remembers every reading: the best any reading supports, capped by the budget |
| ElapsedMeter.NeverBehindAnyReading | reconcile/durable_application.py:330-351 | every earlier reading plus the truncated monotonic time since is a lower bound, up to the budget |
| ProviderCalls.InvokedNeverOutnumberCharged | reconcile/durable_application.py:571-668 | for every interleaving of concurrent calls, invoked operations never outnumber charged receipts, no identifier is charged or invoked twice, and nothing uncharged is invoked |
| ProviderCalls.StoredReceiptsAreTheList | reconcile/durable_application.py:588-614 | the context's list is a prefix of the stored receipts, and whenever the lock is free it equals them if and only if no call cut off inside the lock ever stored a reservation |
| ProviderCalls.CompleteMeansSettled | reconcile/durable_application.py:684-705 | an outcome can be sealed exactly when the lock is free, no call of the run ever met the deadline or was cut off while its caller awaited it, and every provider call is over with its caller told; a caller cancelled inside the reservation lock does not prevent it |
| ProviderCalls.AcceptedOutcomeCoversEveryCall | reconcile/durable_application.py:1570-1580 | an accepted outcome has a receipt for every operation ever invoked, and all of them are over |
| ProviderCalls.SealedOutcomeIsAccepted | reconcile/durable_application.py:1570-1580 | a sealed outcome passes the receipt check if and only if no call cut off inside the lock ever stored a reservation |
| ProviderCalls.UnreadReceiptIsFatal | reconcile/durable_application.py:602-613 | after a stored receipt nobody read back, no call is charged again and no sealed outcome is accepted |
| ProviderCalls.OrphanedReceiptIsReachable | reconcile/durable_application.py:588-614 | a caller cancelled between storing its reservation and reading it back leaves an idle context whose sealed outcome is refused |
| ProviderCalls.DurableAdvisoryPlanner.Plan | reconcile/durable_planner.py:60-83 | every call gets a fresh identifier, a turn is returned exactly when it is bound to its input, and a closed window is remembered |
| Reads.ReadsNeverOutnumberCharges | reconcile/durable_application.py:404-486 | over every crashing run, dispatched reads and checkpoints never outnumber the probe charges, and each read has a charge of its own for the same step |
| Reads.RecordedReadIsFinal | reconcile/persistence/sqlite_runtime.py:1038-1126 | a recorded read keeps its result and is never charged again, over any further run |
| Reads.RecordedReadIsNotRepeated | reconcile/durable_application.py:530-569 | over any run nobody is authorised to repeat a recorded read, and only a worker that was authorised before it was recorded and has lost the lease dispatches it again |
| Reads.StaleReadOverlaps | reconcile/durable_application.py:553-562 | a run in which a fenced-off worker reads once more what its successor has recorded |
| Reads.CheckpointsIncrease | reconcile/persistence/sqlite_runtime.py:966-981 | over any run checkpoints stay, and each one created later comes after all that were there before |
| Reads.RestoredExactly | reconcile/durable_application.py:437-450 | an owner restores exactly the stored audit and observation, writing and charging nothing, if and only if the audit log has that audit at that step; otherwise it stops with drift |
| Reads.UntornReadIsRestored | reconcile/durable_application.py:437-450 | as long as no worker stopped between its two writes, every recorded read an owner finds is restored |
| Reads.OwnerTrailIsStored | reconcile/controller/executor.py:346-468 | an owner's own audit trail is what the stored audit log begins with |
| Reads.TornReadIsNotRestored | reconcile/controller/executor.py:489-510 | a crash between recording a read and recording its audit makes recovery stop with drift |
| Scenario.ScenarioAuthority.Hold | reconcile/durable_scenarios.py:151-164 | a held token keeps its fence and has more than the margin left, and holding fails exactly when released, expired, or due and fenced off |
| Scenario.EffectsRunAtMostOnce | reconcile/durable_scenarios.py:740-785 | mutation and cleanup are each executed at most once, never before they were authorised, and every stored stage presupposes the ones before it |
| Scenario.StagesOnlyAdvance | reconcile/persistence/sqlite_scenarios.py:630-963 | over any run no stage goes back, what is recorded stays, and an escalated work item is final |
| Scenario.AbandonedMutationIsNeverRepeated | reconcile/durable_scenarios.py:732-734 | a mutation found STARTED without its worker is never executed again and never investigated |
| Scenario.StartedMutationIsEscalated | reconcile/durable_scenarios.py:531-584 | an owner that finds a STARTED mutation escalates it, on the workflow and on the audit path |
| Scenario.AbandonedCleanupIsNeverRetried | reconcile/durable_scenarios.py:1296-1358 | a requested cleanup that nobody is about to execute is never executed again |
| Scenario.PendingCleanupIsRecordedFailed | reconcile/durable_scenarios.py:1303-1312 | a pending cleanup that an owner finds is recorded as failed without being executed, on both paths |
| Scenario.OwnerRepairsOnlyPristineWork | reconcile/durable_scenarios.py:829-937 | a worker that still owns the lease recreates the workspace only if no mutation was ever authorised |
| Scenario.RepairIsPristineIffUnchanged | reconcile/durable_scenarios.py:829-937 | any worker about to recreate the workspace, owner or not, does so before any mutation was authorised if and only if the record still shows the mutation stage it loaded |
| Scenario.StaleRepairFollowsMutation | reconcile/durable_scenarios.py:863-875 | a fenced-off worker may recreate it after another worker authorised the mutation |
| LaneRoute.LanesFollowTheRoute | reconcile/durable_scenarios.py:939-1131 | the fixed lane is bound to the pre-provider executor exactly when no adaptive lane exists, the post-provider one is used only behind a recorded fallback report, and no incarnation finds a lane of another kind |
| LaneRoute.RecoveryNeverCreatesAnAdaptiveLane | reconcile/durable_scenarios.py:1201-1229 | only the first incarnation ever creates the adaptive lane's file or run |
| LaneRoute.RecoveryResumesTheRoute | reconcile/durable_scenarios.py:1008-1025 | on undisturbed lanes recovery resumes the fixed lane with the pre-provider executor exactly when that lane's run exists and the first incarnation fell back before a provider lane; with no run it escalates |
| LaneRoute.RecoveryResumesAmongOthers | reconcile/durable_scenarios.py:1008-1025 | whatever other incarnations do between its steps, recovery of a fixed route resumes it with the pre-provider executor exactly if the run exists when it inspects the lane, and otherwise escalates |
| LaneRoute.StrandedFileEscalates | reconcile/durable_scenarios.py:1008-1025 | a first incarnation that crashes between the fixed lane's file and its run leaves a lane the next one escalates |
| LaneRoute.InterruptedAdaptiveRunEscalates | reconcile/durable_application.py:1375-1384 | an adaptive run interrupted before its report is never continued by another incarnation |
| OperatorJournal.JournalCounters | reconcile/operator.py:525-561 | the replay loop computes exactly the replay of the journal, and rejects what it rejects |
| OperatorJournal.ReplayGivesTheCounters | reconcile/operator.py:1301-1354 | after any steps, each cut short anywhere, replay gives exactly the maintained counters, cursors and times are in order, the terminal event is unique and last with no turn open, and the journal is within its bound |
| OperatorJournal.TimesNeverDecrease | reconcile/operator.py:1320-1323 | a sorted journal's times never decrease between any two positions |
| OperatorJournal.TerminalStepAccepted | reconcile/operator.py:1708-1823 | ending an unfinished run succeeds exactly when no advisory turn is open or there is room for the event that closes it |
| OperatorJournal.StuckRunStaysStuck | reconcile/operator.py:1315-1319 | with a turn open and the journal full up to the reserved slot, no step changes the run any more |
| OperatorJournal.StuckRunIsReachable | reconcile/operator.py:1315-1319 | such a run exists |
| OperatorJournal.OneCallCanAlwaysEnd | reconcile/operator.py:1421-1547 | a run that projects one workflow call, whose loops emit no more than the fixed and the adaptive loop are proved to, can always be ended |
| OperatorJournal.ReaderAcceptsTheJournal | reconcile/persistence/sqlite_scenarios.py:1080-1205 | the store's reader accepts the journal these steps wrote if and only if the run has not ended before a step marked it as running |
| OperatorJournal.UnmarkedFailureIsRefused | reconcile/operator.py:1557-1607 | a run that fails before it is marked as running leaves a terminal journal the reader refuses |
| OperatorJournal.RebuiltIsCoherent | reconcile/operator.py:738-768 | a state rebuilt with zero counters is coherent exactly when its journal has no request and no advisory event |
| OperatorJournal.RebuiltStepBreaksReplay | reconcile/operator.py:1056-1066 | a rebuilt run's next step makes a journal that replay rejects if and only if it numbers a first request or starts a first turn where the journal already has one |
| OperatorJournal.RebuiltTurnStaysOpen | reconcile/operator.py:1442-1474 | over any steps, a turn that was open when the run was rebuilt stays open in every journal replay still accepts |
| OperatorJournal.RebuiltRunNeverEndsWell | reconcile/persistence/sqlite_scenarios.py:1080-1205 | so such a run never ends with a journal the store's reader accepts |
| OperatorJournal.ScenarioRun.AppendTransition | reconcile/operator.py:1301-1354 | one event and the snapshot that goes with it, or nothing, with the terminal slot reserved |
| OperatorJournal.ScenarioRun.ProjectTurn | reconcile/operator.py:1421-1496 | an advisory event, its counters, and then one numbered request per proposal until cut |
| OperatorJournal.ScenarioRun.Finish | reconcile/operator.py:1708-1823 | closing the open turn and the terminal event, as specified |
| OperatorRegistry.IndexesCorrespond | reconcile/operator.py:563-651 | over any mix of launches, lookups, restarts, evictions and ending runs, the two indexes hold the same runs one to one, at most 64 |
| OperatorRegistry.MakeRoomEvictsOldestEnded | reconcile/operator.py:471-495 | making room evicts at most the oldest ended run without task or pending notifier, only with a store, and fails exactly when there is none |
| OperatorRegistry.OnlyEndedRunsAreEvicted | reconcile/operator.py:471-490 | whatever leaves the registry had ended, had no task and no pending notifier, and can be replayed |
| OperatorRegistry.BindingIsForever | reconcile/operator.py:677-788 | a launch identity is never rebound to other bytes, evictions and restorations included |
| OperatorRegistry.OtherBytesAreRefused | reconcile/operator.py:691-704 | launching a bound identity with other bytes is refused |
| OperatorRegistry.RelaunchIsIdempotent | reconcile/operator.py:778-788 | launching a retained identity again with the same bytes creates nothing and leaves both indexes alone |
| OperatorRegistry.RegistryIndexes.EvictOldestTerminal | reconcile/operator.py:471-490 | the scan evicts exactly the oldest evictable entry from both indexes |
| OperatorRegistry.RegistryIndexes.EnsureCapacity | reconcile/operator.py:492-495 | the eviction loop makes room with at most one eviction or reports that it cannot |
| MemoryService.CumulativeChecksAgree | reconcile/application.py:482-517 | checking the maximum of a counter and checking only its last value accept the same audits |
| MemoryService.CountersWithin | reconcile/application.py:482-517 | the loop accepts exactly nondecreasing counters within their limit |
| MemoryService.CutSectionsStayOnTheCanon | reconcile/application.py:141-224 | however sections are cut, revisions only advance 0, 1, 2, the journal stays a prefix of the canonical one, and nothing stored is taken back |
| MemoryService.CompletedReportsAreComplete | reconcile/application.py:238-249 | no caller is handed a completed report before its journal is complete |
| MemoryService.FinishCompletes | reconcile/application.py:531-555 | one uninterrupted finish completes an owned investigation from wherever its sections were cut |
| Shutdown.FirstCloseCompletesEverything | reconcile/application.py:286-305 | over every run of creations, readers, tasks and a shutdown that may be cancelled: before the shutdown an owned investigation without a task is complete, and once the first call has returned every owned one is |
| Shutdown.IncompleteExactlyIfAbandoned | reconcile/application.py:318-333 | an owned investigation whose task is over is incomplete exactly if that task was cancelled before its body or inside its last finish and neither the shutdown nor a reader completed it since |
| Shutdown.LaterCloseChecksNothing | reconcile/application.py:289-292 | every later call returns at once and finds everything complete exactly if nothing is abandoned and what still has a task is complete already |
| Shutdown.StrandedForGood | reconcile/application.py:299-305 | after a cancelled shutdown an abandoned investigation without an established report never changes again |
| Shutdown.ReaderCompletes | reconcile/application.py:238-249 | one with an established report is completed by the next reader that is not cancelled |
| Shutdown.ConcurrentCloseReturnsEarly | reconcile/application.py:289-292 | a second call that comes while the first one joins returns with nothing complete |
| Shutdown.CancelledCloseStrands | reconcile/application.py:299-305 | a first call cancelled while it joins leaves an investigation incomplete whose task never entered its body, and every further call returns at once |
| Shutdown.InvestigationService.CreateInvestigation | reconcile/application.py:141-185 | the method is the specified step: refused after a shutdown began, and at most one task at a time |
| Shutdown.InvestigationService.BeginClose | reconcile/application.py:286-298 | only the first call closes the service and cancels its tasks |
| Shutdown.InvestigationService.FinishOwned | reconcile/application.py:299-305 | the closing loop returns with every owned investigation complete, or is cut off, which only a cancelled caller can be |
| Selection.SelectProposal | reconcile/adaptive.py:1208-1288 | the passes compute the specified selection and verdicts |
| Selection.RepresentsIffLeast | reconcile/adaptive.py:1222-1233 | a proposal represents its digest exactly when it is the first copy of the request with the least canonical bytes |
| Selection.VerdictsIgnoreOrder | reconcile/adaptive.py:1208-1288 | any two orders of the same proposals yield the same bag of requests with dispositions |
| Selection.SelectionIgnoresOrder | reconcile/adaptive.py:1208-1288 | the selected request is the same for any order of arrival |
| Selection.AtMostOneSelected | reconcile/adaptive.py:1166-1205 | at most one proposal is selected, never a digest executed before, and only within catalog, budget, effects and arguments |
| AdaptiveLoop.NoSequenceIsReused | reconcile/adaptive.py:2099-2138 | while the loop runs, the controller never answers with a sequence already processed |
| AdaptiveLoop.Turn | reconcile/adaptive.py:1896-2246 | one turn keeps the loop's invariant and adds at most one turn record, one probe and five events |
| AdaptiveLoop.Bootstrap | reconcile/adaptive.py:1783-1895 | the bootstrap probe keeps the loop's invariant and adds one attempt and three events |
| AdaptiveLoop.Investigate | reconcile/adaptive.py:1744-2395 | the whole loop ends with its invariants, a transcript of acquisitions and at most one explanation, and a bounded number of attempts and events |
| AdaptiveLoop.SealIsAccepted | reconcile/adaptive.py:2402-2478 | the result constructor's consistency conditions hold of whatever the loop produced |
| AdaptiveLoop.ExecuteAdaptive | reconcile/adaptive.py:1640-2503 | distinct digests, selections within each limit, at most one attempt per turn plus the bootstrap, no three idle probes in a row, sufficient stop exactly when the final classification is sufficient, an accepted result, bounded progress |
| FixedPlan.ExecuteFixedPlan | reconcile/baseline.py:440-748 | the plan runs to the first stop rule that applies, its findings are exactly the sequences the rules name, sufficiency agrees with the classification, the result is accepted and progress is three events a step plus two |
| FixedPlan.NoteStep | reconcile/baseline.py:641-661 | after each step every finding set holds exactly the sequences its rule names, and the progress map the evidence after each digest's last use |
| Progress.QueueIsNeverFull | reconcile/progress.py:26-32 | with no more events than one workflow call emits, the queue always has room for the next one and for the sentinel, even if the consumer stalls |
| Progress.DeliveryIsAPrefix | reconcile/progress.py:388-408 | what the callback received is always a prefix of what was emitted |
| Progress.NormalFinishDeliveredAll | reconcile/progress.py:426-459 | whenever a finish returns normally, everything emitted was delivered, once each, in order, if and only if no abort and no cancelled finish ever came while an event was queued |
| Progress.CancelledFinishThenFinish | reconcile/progress.py:426-446 | a finish called again after it was cancelled in mid-flush returns normally though the queued event is gone |
| Progress.FinishAfterAbort | reconcile/progress.py:461-466 | after an abort finish returns normally, and everything was delivered exactly if nothing was left queued |
| Progress.ProgressDispatcher.Emit | reconcile/progress.py:377-386 | an event is queued, or failure is noted, and nothing is ever raised |
| Progress.ProgressDispatcher.Finish | reconcile/progress.py:426-459 | with a worker that keeps up, it succeeds exactly when nothing had failed and the callback accepts every queued event |

## Left out

- The stores themselves: SQL, file-system and Firestore work. A store operation is one atomic
  transaction with the checks the code makes in it; corrupt rows and database errors are not modelled.
- Provenance digests, dependency drift of a service's own configuration and permission records:
  equal-or-not checks that would only add easy members. `Scenario` keeps one drift input.
- Telemetry records: idempotent appends beside the modelled writes.
- A write whose caller was cancelled while it ran in another thread may land later. Modelled for
  provider reservations and the first event of the in-memory service; not for the other stores.
- Two tasks of one service instance for the same run under the same owner name: a worker index is
  an owner, and one service keeps one task per run.
- `createdAt`, deadlines and budgets of a reservation appear as accepted-or-refused inputs; the
  ledger's totals per dimension are not added up.
- Reads.ReadsNeverOutnumberCharges: counts charges and reads, not their byte and cost amounts,
  because the reservation amounts are constants of the capability.
- DurableRecovery.RecoveredRunIsComplete: exhibits runs that end within one lease; longer ones renew it,
  which `SteadyRunCompletes` covers.
- Reads.RecordedReadIsNotRepeated: a worker that lost its lease after being authorised may still
  dispatch once; the code documents that overlap, so at-most-once is claimed for owners only.
- ProviderCalls.CompleteMeansSettled: an operation that ignores cancellation may still be running
  after its caller left; sealing is then refused until it ends.
- ElapsedMeter.RemembersEveryReading: floating-point seconds are modelled as reals, so rounding
  below a millisecond in the float product is not captured.
- OperatorJournal.ReplayGivesTheCounters: one writer and atomic appends; a store append that
  commits after its caller was cancelled, and the periodic refresh from the store, are not modelled.
- OperatorJournal.ReaderAcceptsTheJournal: the summary fields of a terminal event are not modelled,
  so the reader's comparison of them with the snapshot is left out.
- OperatorRegistry.IndexesCorrespond: a lookup's two store reads are one step with the registration
  that follows; the limit of four active runs is checked for new launches, as in the code, and is
  not an invariant because a relaunch restarts a task without it.
- LaneRoute.LanesFollowTheRoute: heterogeneous adaptive scenarios only; the fixed, fixed-authoritative
  and comparison modes open their lanes unconditionally.
- LaneRoute.RecoveryResumesTheRoute: an unreadable path or a file with the wrong permissions, which
  escalates, is not modelled.
- Selection.VerdictsIgnoreOrder: needs distinct requests to have distinct canonical bytes; the digest
  is an arbitrary function and may collide. JSON schema validation is a predicate on requests.
- AdaptiveLoop.ExecuteAdaptive: planner inputs are always constructible, what is left of each budget
  is an input of every turn, and the text of an explanation is not modelled.
- Progress.NormalFinishDeliveredAll: a callback that swallows its own cancellation, two concurrent
  `finish` calls, and a second cancellation while the worker is being joined are not modelled.
- Shutdown.FirstCloseCompletesEverything: tasks are only cancelled by the shutdown itself, and a
  finish fails only where the code of the service makes it fail, not in the store or the engine.
- Hosted adapters, public evidence records, the command line, rendering and sanitizing projections:
  presentation and field-by-field checks that would only add easy members.
