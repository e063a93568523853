# Telemetry capture and delivery: a verified model

This project models how the companion app captures telemetry, keeps it, and delivers it, and how the
proxy filters what arrives. Four parts of the repository are modelled.

**The native outbox and its flush protocol** (`NativeTelemetrySync`, `TelemetrySyncJobService`). Every
block under FLUSH_LOCK and every SQLite transaction is one atomic step. `FlushRuns` holds the lock state
and the blocks, as functions on values and as methods on heap objects that are proved to agree.
`FlushFlow` is the machine in which callers, cancellers, retry timers and the one network worker
interleave. `Outbox`, `BatchReader` and `FlushPass` are the tables, one batch, and one call of
flushInternal with captures arriving in between. `Delivery` puts them together. Events of a history happen
at increasing times, so that "before" and "after" can be said of registrations, passes and rows. Answers
of targets, failures of transactions, failing commits, the backoff clock, the firing of timers and the
death of the process are free. Main results: no lost flush, every listener told exactly once, rest after a
bounded number of steps, no silent loss, delivery in order, quarantine only for a reason of one's own,
what the quarantine table keeps, success told exactly when the last pass drained, failure only for a cause,
nothing sent after a cancellation, exactly when a retry is armed, and a bound on batch reads.

**The capture index** (`captureIndex`). Month shards behind a manifest with counts are one flat list,
sorted by time and capped. Appending, evicting with arbitrary counts, reading, and a migration that can be
stopped after any write are proved against that list.

**The usage queue of the app** (`usage`, `flush`, `triageQueue`). Recorders, the flush and any number of
triage passes interleave; reading and writing inside the lock are separate steps, peeking is not locked,
and the app may be restarted at any time.

**The proxy and the SMS pager** (`surprisal`, the fingerprint set of `server`, `smsBackfill`, `SmsPlugin`).
`EndToEnd` feeds the bodies that the native pipeline gets acknowledged to the fingerprint set.

Files build on each other in this order: `Commons`; `FlushRuns`, `FlushFlow`, `FlushFlowProofs`, `ListenerProofs`,
`FreshnessProofs`, `FlushHistories`, `SuccessProofs`, `AnswerProofs`, `LateListeners`, `RetryProofs`, `RetryArming`,
`FlushScenarios`; `Outbox`, `BatchReader`, `FlushPass`,
`FifoProofs`, `QuarantineProofs`, `CoverageProofs`, `FlushBound`, `FlushCoverage`, `FlushWorker`; `Delivery`,
`DeliveryProofs`, `DeliveryResults`, `DeliveryAnswers`, `DropCount`, `QuarantineTable`, `RefusalProofs`,
`CancelProofs`; `JobService`, `JobDelivery`; `IndexOrder`, `IndexStore`, `IndexMigration`,
`IndexEviction`, `IndexAppend`, `CaptureIndex`; `UsageQueue`, `UsageActors`, `UsageOrder`,
`UsageCoverage`, `UsageResults`, `SummaryProofs`, `SummaryText`; `TextNormal`, `Surprisal`, `NoveltyRuns`,
`NoveltyProofs`; `UsageReport`,
`EndToEnd`; `SmsBackfill`.
`dafny verify dfyconfig.toml` checks everything.

Where a natural statement is false of the code, the exact condition is part of a theorem and a lemma
shows what happens without it:

- events sharing an id (`SharedIdLoses`; what is displaced is part of `NoSilentLoss`), or an id or a type and
  timestamp (`SharedNameLoses`);
- success for a listener that joined after the pass began (`CancelledRunReportsSuccess`; exactly when:
  `UncoveredExactly`);
- a failure without a live retry (`OneCancelLosesRetry`, `SecondCancelLosesRetry`, `EarlyFireLosesRetry`;
  exactly when: `RetryArmedIff` and `FailureArmsRetry`);
- the count of dropped events after a restart (`RestartForgets`) and after a commit that failed on a full
  outbox (`FailedCommitCountsTwo`, `OvercountReached`; exactly when it is right: `CountExactly`);
- a summary replaced by raw text (`SummaryOverwritten`; excluded by `SummaryStays`);
- more than MAX_INDEX entries left by understated counts (`UnderstatedHides`; at most: `EvictionBound`; exactly
  when: `CapHoldsExactly`);
- an index entry that cannot be read after a stop (`StoppedAppend`, `NextOfMonth`);
- thresholds above one (`HashDisagrees`), fingerprints without ids (`FingerprintBlind`, `FingerprintBar`;
  exactly when: `FingerprintByFields`), a failing append (`FailedAppendLoses`), a resent batch that was not
  all new (`ResentAddsOld`);
- messages of equal date at the end of a page (`SameDateSkipped`; exactly when: `PageSkipsNothing`).

Three places where the code differs from its own comments: `captureIndex.ts` calls the manifest counts
authoritative, while eviction corrects them and reading ignores them; the model follows the code.
`server.ts` describes the fingerprint set as preventing replayed batches from being logged again, which
holds only within the window stated by `ResentAddsNothing`. `NativeTelemetrySync.java` promises
that pruned and overload drops are tracked by getDroppedCount; the count starts over with the process, and
counts rows that a failed commit has brought back (`CountExactly`).

## Model

| member | source | states |
|---|---|---|
| `FlushRuns.Queued` | apps/mobile/android/app/src/main/java/com/pieces/android/companion/NativeTelemetrySync.java:729-741 | queueing behind a cancelled run always leaves a pending run and a well-formed state |
| `FlushRuns.TelemetrySync.constructor` | apps/mobile/android/app/src/main/java/com/pieces/android/companion/NativeTelemetrySync.java:171-174 | no run active or pending, run ids and epoch start at 1 |
| `FlushRuns.FlushRun.Add` | apps/mobile/android/app/src/main/java/com/pieces/android/companion/NativeTelemetrySync.java:734-737 | a joining caller adds its listener, if any, and can only turn `force` on |
| `FlushRuns.TelemetrySync.RevokeRetry` | apps/mobile/android/app/src/main/java/com/pieces/android/companion/NativeTelemetrySync.java:473-476 | cancels and forgets the armed retry and changes nothing else |
| `FlushRuns.TelemetrySync.NewFlushRun` | apps/mobile/android/app/src/main/java/com/pieces/android/companion/NativeTelemetrySync.java:732 | a new run gets the next id and the current epoch, the other runs are untouched |
| `FlushRuns.TelemetrySync.JoinActive` | apps/mobile/android/app/src/main/java/com/pieces/android/companion/NativeTelemetrySync.java:742-752 | joining a live run sets drainRequested on exactly that run and returns its id |
| `FlushRuns.TelemetrySync.QueueBehindCancelled` | apps/mobile/android/app/src/main/java/com/pieces/android/companion/NativeTelemetrySync.java:729-741 | one pending run at most is created behind a cancelled active run; later callers share it |
| `FlushRuns.TelemetrySync.ClearTimer` | apps/mobile/android/app/src/main/java/com/pieces/android/companion/NativeTelemetrySync.java:757-763 | only an explicit start moves the epoch; opening a run always disarms the retry |
| `FlushRuns.TelemetrySync.OpenRun` | apps/mobile/android/app/src/main/java/com/pieces/android/companion/NativeTelemetrySync.java:764-771 | the new run is the active one, with the current epoch and the caller as its only listener |
| `FlushRuns.TelemetrySync.JoinOrOpen` | apps/mobile/android/app/src/main/java/com/pieces/android/companion/NativeTelemetrySync.java:728-772 | the three-way decision join, queue or open, with the whole resulting lock state |
| `FlushRuns.TelemetrySync.FlushInternalStart` | apps/mobile/android/app/src/main/java/com/pieces/android/companion/NativeTelemetrySync.java:716-772 | the FLUSH_LOCK block on heap objects does what the state function Start says: stale epochs abort, a retry clears its slot, otherwise join, queue or open |
| `FlushRuns.TelemetrySync.CancelActiveRun` | apps/mobile/android/app/src/main/java/com/pieces/android/companion/NativeTelemetrySync.java:467-470 | marks exactly the active run cancelled |
| `FlushRuns.TelemetrySync.CancelPendingRun` | apps/mobile/android/app/src/main/java/com/pieces/android/companion/NativeTelemetrySync.java:471-476 | drops the pending run and hands out all its listeners |
| `FlushRuns.TelemetrySync.CancelOneRun` | apps/mobile/android/app/src/main/java/com/pieces/android/companion/NativeTelemetrySync.java:455-465 | a targeted cancel touches the epoch only if it hits the active run |
| `FlushRuns.TelemetrySync.CancelAllRuns` | apps/mobile/android/app/src/main/java/com/pieces/android/companion/NativeTelemetrySync.java:466-483 | a global cancel moves the epoch, cancels both runs and disarms the retry |
| `FlushRuns.TelemetrySync.RequestCancelFlush` | apps/mobile/android/app/src/main/java/com/pieces/android/companion/NativeTelemetrySync.java:453-493 | both forms of cancellation, and exactly which listeners are to be told false afterwards |
| `FlushRuns.TelemetrySync.ScheduleRetryFor` | apps/mobile/android/app/src/main/java/com/pieces/android/companion/NativeTelemetrySync.java:1130-1145 | a retry is armed with the current epoch unless the run is cancelled, stale, or one is already armed |
| `FlushRuns.TelemetrySync.PromotePending` | apps/mobile/android/app/src/main/java/com/pieces/android/companion/NativeTelemetrySync.java:799-803 | the pending run becomes active |
| `FlushRuns.TelemetrySync.HandOverIfDrained` | apps/mobile/android/app/src/main/java/com/pieces/android/companion/NativeTelemetrySync.java:792-805 | after a drained pass: one more round if a caller joined, else hand over |
| `FlushRuns.TelemetrySync.FinishRun` | apps/mobile/android/app/src/main/java/com/pieces/android/companion/NativeTelemetrySync.java:826-837 | the finally block copies the listeners and hands over if that has not happened |
| `FlushFlowProofs.StartHasEffect` | apps/mobile/android/app/src/main/java/com/pieces/android/companion/NativeTelemetrySync.java:716-772 | what starting does to the places of runs: joining changes none, queueing adds at most one pending run behind a cancelled active one, opening needs a free slot and makes the new run the newest |
| `FlushFlowProofs.StartKeepsRuns` | apps/mobile/android/app/src/main/java/com/pieces/android/companion/NativeTelemetrySync.java:716-772 | what starting does to earlier runs: the one the caller joins gets its listener, force and possibly drainRequested, every other run is exactly as it was; the epoch never goes back |
| `FlushFlowProofs.CancelHasEffect` | apps/mobile/android/app/src/main/java/com/pieces/android/companion/NativeTelemetrySync.java:453-483 | cancelling never resurrects or removes a run, and never touches who is active |
| `FlushFlowProofs.LaunchStep` | apps/mobile/android/app/src/main/java/com/pieces/android/companion/NativeTelemetrySync.java:702-850 | every step keeps: runs become active in order, exactly one duty per active run, a pending run only behind a cancelled active one |
| `ListenerProofs.ListenerStep` | apps/mobile/android/app/src/main/java/com/pieces/android/companion/NativeTelemetrySync.java:453-493 | every step keeps each registered listener in exactly one place: active run, pending run, finishing worker, owed by a canceller, or told |
| `ListenerProofs.EnteredJoins` | apps/mobile/android/app/src/main/java/com/pieces/android/companion/NativeTelemetrySync.java:728-772 | a start gives the listener to exactly one run and takes none from any |
| `ListenerProofs.CancelMovesListeners` | apps/mobile/android/app/src/main/java/com/pieces/android/companion/NativeTelemetrySync.java:453-493 | cancellation moves the listeners of the dropped pending run to the canceller and no others |
| `FreshnessProofs.FreshStep` | apps/mobile/android/app/src/main/java/com/pieces/android/companion/NativeTelemetrySync.java:743-849 | every step keeps: an uncancelled run only reports success to listeners that registered before its last pass began |
| `FlushHistories.Invariants` | apps/mobile/android/app/src/main/java/com/pieces/android/companion/NativeTelemetrySync.java:702-850 | all protocol invariants hold after every possible history |
| `FlushHistories.ToldAtMostOnce` | apps/mobile/android/app/src/main/java/com/pieces/android/companion/NativeTelemetrySync.java:839-843 | no listener is ever told twice |
| `FlushHistories.RestMeansAllTold` | apps/mobile/android/app/src/main/java/com/pieces/android/companion/NativeTelemetrySync.java:826-849 | when everything is at rest every registered listener was told exactly once and no run is left |
| `FlushHistories.LaunchedOnce` | apps/mobile/android/app/src/main/java/com/pieces/android/companion/NativeTelemetrySync.java:764-778 | runs are handed to the executor once each, in the order in which they become active |
| `FlushHistories.NeverStuck` | apps/mobile/android/app/src/main/java/com/pieces/android/companion/NativeTelemetrySync.java:781-850 | unless everything is at rest somebody can move, and that brings the system nearer to rest |
| `FlushHistories.InternalLowers` | apps/mobile/android/app/src/main/java/com/pieces/android/companion/NativeTelemetrySync.java:781-850 | every step that is not a caller, a canceller or a timer brings the system nearer to rest, unless it starts a failed pass again |
| `FlushHistories.AnotherPass` | apps/mobile/android/app/src/main/java/com/pieces/android/companion/NativeTelemetrySync.java:784-822 | after a pass the run makes another one exactly if the pass failed and the last failure lies some time back, or it drained and a caller has joined an uncancelled run since; otherwise it ends |
| `FlushHistories.ComesToRest` | apps/mobile/android/app/src/main/java/com/pieces/android/companion/NativeTelemetrySync.java:781-850 | left alone, whatever happens in whatever order, the system makes at most ToRest steps, and three more for each failed pass that is started again |
| `FlushHistories.RestReachable` | apps/mobile/android/app/src/main/java/com/pieces/android/companion/NativeTelemetrySync.java:781-850 | from every reachable state, rest can be reached within ToRest steps |
| `SuccessProofs.DrainedHistory` | apps/mobile/android/app/src/main/java/com/pieces/android/companion/NativeTelemetrySync.java:784-849 | every success ever told, by a cancelled run too, follows a pass that saw the outbox empty after it began |
| `AnswerProofs.AnswerIsLastPass` | apps/mobile/android/app/src/main/java/com/pieces/android/companion/NativeTelemetrySync.java:826-843 | over all histories: what the worker tells a listener in the name of a run is success if and only if the last pass of that run in the history returned DRAINED, as opposed to another outcome or an exception |
| `AnswerProofs.JoinedStep` | apps/mobile/android/app/src/main/java/com/pieces/android/companion/NativeTelemetrySync.java:728-772 | every step keeps a listener with the run it joined: only this run tells it anything, unless it was dropped before it became active, and then the listener is told failure |
| `AnswerProofs.AnswerOfJoinedRun` | apps/mobile/android/app/src/main/java/com/pieces/android/companion/NativeTelemetrySync.java:826-843 | a listener is told success if and only if the last pass of the run it joined returned DRAINED |
| `LateListeners.UncoveredExactly` | apps/mobile/android/app/src/main/java/com/pieces/android/companion/NativeTelemetrySync.java:784-805 | exactly which listeners are told success although the last pass began before they joined: those whose run was cancelled after they joined and before the worker came back to the head of the loop |
| `RetryProofs.StepAges` | apps/mobile/android/app/src/main/java/com/pieces/android/companion/NativeTelemetrySync.java:716-763 | epochs and timers only grow older; a cancellation of the active run or an explicit opening moves the epoch |
| `RetryProofs.RetryStartsUndisturbed` | apps/mobile/android/app/src/main/java/com/pieces/android/companion/NativeTelemetrySync.java:716-726 | a timer starts a run only if nothing cancelled the active run, cancelled globally, or explicitly opened a run since it was armed |
| `RetryProofs.RetryRunsOnce` | apps/mobile/android/app/src/main/java/com/pieces/android/companion/NativeTelemetrySync.java:1141-1143 | a timer reaches its lock block at most once |
| `RetryProofs.OneRetryArmed` | apps/mobile/android/app/src/main/java/com/pieces/android/companion/NativeTelemetrySync.java:1130-1145 | however often passes fail, at most one timer can still start a run |
| `RetryProofs.DisarmsAll` | apps/mobile/android/app/src/main/java/com/pieces/android/companion/NativeTelemetrySync.java:466-483 | a global cancellation leaves no timer that can start a run, and neither does an explicit flush that opens one |
| `RetryArming.ScheduleArmsIff` | apps/mobile/android/app/src/main/java/com/pieces/android/companion/NativeTelemetrySync.java:1130-1145 | scheduleRetry leaves a live retry of the current epoch exactly if the run is neither cancelled nor stale and the slot is empty, done, or already of the current epoch |
| `RetryArming.OtherStep` | apps/mobile/android/app/src/main/java/com/pieces/android/companion/NativeTelemetrySync.java:453-483 | no other step arms a retry; an armed one is lost exactly by a cancellation of the active run, a global one, an explicit opening, or its own lock block |
| `RetryArming.RetryArmedIff` | apps/mobile/android/app/src/main/java/com/pieces/android/companion/NativeTelemetrySync.java:1130-1145 | over all histories: a live retry is armed exactly if the last call of scheduleRetry armed one and nothing disturbed it since |
| `RetryArming.FailureArmsRetry` | apps/mobile/android/app/src/main/java/com/pieces/android/companion/NativeTelemetrySync.java:1130-1145 | whatever happened before: idle after a run failed, a live retry is armed exactly if nobody cancelled that run, it was the last to ask, it asked in time (current epoch, slot empty, done or current), and nothing disturbed the retry since |
| `FlushScenarios.CancelledRunReportsSuccess` | apps/mobile/android/app/src/main/java/com/pieces/android/companion/NativeTelemetrySync.java:795-804 | a reachable state: a run cancelled after it drained tells success to a listener that came after its pass began |
| `FlushScenarios.OneCancelLosesRetry` | apps/mobile/android/app/src/main/java/com/pieces/android/companion/NativeTelemetrySync.java:455-459 | a reachable state: one targeted cancel leaves a stale timer behind, with which the failure of the next run coalesces, and no live retry is armed |
| `FlushScenarios.SecondCancelLosesRetry` | apps/mobile/android/app/src/main/java/com/pieces/android/companion/NativeTelemetrySync.java:455-459 | a reachable state: a second targeted cancel leaves a failed run behind with no retry armed |
| `FlushScenarios.EarlyFireLosesRetry` | apps/mobile/android/app/src/main/java/com/pieces/android/companion/NativeTelemetrySync.java:1136-1143 | a reachable state: a retry that fires before its run has left the active slot is lost |
| `Outbox.Without` | apps/mobile/android/app/src/main/java/com/pieces/android/companion/NativeTelemetrySync.java:1205 | deletion by id removes exactly the rows with these ids |
| `Outbox.CapAfterAppend` | apps/mobile/android/app/src/main/java/com/pieces/android/companion/NativeTelemetrySync.java:601-608 | after every committed append the cap holds and the new event is in the outbox |
| `Outbox.OutboxDb.AppendEvent` | apps/mobile/android/app/src/main/java/com/pieces/android/companion/NativeTelemetrySync.java:571-617 | the trimmed id or, for a blank one, the random id; insert-or-replace, prune and count in one transaction; every way of failing and what it counts |
| `Outbox.TrimmedMiddle` | apps/mobile/android/app/src/main/java/com/pieces/android/companion/NativeTelemetrySync.java:572 | trimming an id cuts off blanks at its ends and nothing else |
| `Outbox.Named` | apps/mobile/android/app/src/main/java/com/pieces/android/companion/NativeTelemetrySync.java:571-577 | an event gets the random id if and only if its own is blank, and then its text holds the random one, too |
| `Outbox.OutboxDb.QuarantineAndRemoveEvent` | apps/mobile/android/app/src/main/java/com/pieces/android/companion/NativeTelemetrySync.java:1151-1186 | in one transaction, that either happens or fails, the event leaves the outbox, its id, text and reason become the newest row of the quarantine table in place of an older one with that id, and the table is cut to its cap |
| `Outbox.OutboxDb.PurgeSentEventsById` | apps/mobile/android/app/src/main/java/com/pieces/android/companion/NativeTelemetrySync.java:1191-1215 | all rows with sent ids go, or nothing changes |
| `BatchReader.ReadBatch` | apps/mobile/android/app/src/main/java/com/pieces/android/companion/NativeTelemetrySync.java:887-929 | the cursor loop with its running total and its check for cancellation computes the scan function on the rows before the cancellation |
| `BatchReader.ReadIsPrefix` | apps/mobile/android/app/src/main/java/com/pieces/android/companion/NativeTelemetrySync.java:889-929 | the rows taken into the batch or into quarantine are exactly a prefix of the window, and the scan stops only before a row that would overflow |
| `BatchReader.EmptyScanMeansEmptyWindow` | apps/mobile/android/app/src/main/java/com/pieces/android/companion/NativeTelemetrySync.java:947-951 | nothing taken and nothing bad means the window was empty |
| `BatchReader.BuildBody` | apps/mobile/android/app/src/main/java/com/pieces/android/companion/NativeTelemetrySync.java:984-990 | the StringBuilder loop builds the envelope around the comma-joined entries |
| `BatchReader.JoinedParts` | apps/mobile/android/app/src/main/java/com/pieces/android/companion/NativeTelemetrySync.java:984-990 | a comma goes between any two neighbouring entries, and they stay in order |
| `BatchReader.LeavesNoRoom` | apps/mobile/android/app/src/main/java/com/pieces/android/companion/NativeTelemetrySync.java:910-924 | a row is oversized exactly if the body with it alone is too long, and is left for the next batch exactly if the body with it would be |
| `BatchReader.BodyFits` | apps/mobile/android/app/src/main/java/com/pieces/android/companion/NativeTelemetrySync.java:911-929 | running total plus envelope is the exact length of the body, at most MAX_BATCH_BYTES, so the shrink guard at lines 993-996 never fires |
| `FifoProofs.FifoStep` | apps/mobile/android/app/src/main/java/com/pieces/android/companion/NativeTelemetrySync.java:886-929 | every step of a pass, with captures in between, keeps first acknowledgements in outbox order |
| `FifoProofs.FirstAcksAreTheAcknowledged` | apps/mobile/android/app/src/main/java/com/pieces/android/companion/NativeTelemetrySync.java:1031-1036 | the list of first acknowledgements holds exactly the rows of bodies answered 2xx |
| `QuarantineProofs.QuarantineStep` | apps/mobile/android/app/src/main/java/com/pieces/android/companion/NativeTelemetrySync.java:894-919 | every step keeps each quarantined row justified by its own content or by refusals of a request that carried it alone |
| `QuarantineProofs.RefusedBySettling` | apps/mobile/android/app/src/main/java/com/pieces/android/companion/NativeTelemetrySync.java:1098-1119 | a full count of refusals means every target refused the batch in that way |
| `QuarantineTable.TableIsLatest` | apps/mobile/android/app/src/main/java/com/pieces/android/companion/NativeTelemetrySync.java:1161-1175 | over all histories the quarantine table holds exactly the newest MAX_QUARANTINE_EVENTS isolated events, the latest of each id, in order of isolation and of number, each with its id, its reason, and its raw or its serialized text |
| `QuarantineTable.KeptExactly` | apps/mobile/android/app/src/main/java/com/pieces/android/companion/NativeTelemetrySync.java:1161-1175 | an isolated event is in the table if and only if no later one bears its id and fewer than MAX_QUARANTINE_EVENTS distinct ids were isolated after it |
| `RefusalProofs.SettledByAnswers` | apps/mobile/android/app/src/main/java/com/pieces/android/companion/NativeTelemetrySync.java:1081-1124 | unless cancelled, a batch that no target took is halved if and only if it has more than one row and some target answered 413 or all answered 400/422, quarantined if and only if it has one row and all answered 413 or all 400/422, and fails the pass otherwise; said on the recorded requests |
| `RefusalProofs.AnswersDecide` | apps/mobile/android/app/src/main/java/com/pieces/android/companion/NativeTelemetrySync.java:1081-1124 | the same in every reachable state of the pipeline |
| `RefusalProofs.FailureHasCause` | apps/mobile/android/app/src/main/java/com/pieces/android/companion/NativeTelemetrySync.java:962-1128 | over all histories a pass returns FAILED only if a read or a transaction failed in it, or its last round sent one batch to all targets, none took it, and the answers call neither for a smaller batch nor for quarantine; if a read or a transaction failed it returns FAILED or CANCELLED |
| `RefusalProofs.SmallWindowHasCause` | apps/mobile/android/app/src/main/java/com/pieces/android/companion/NativeTelemetrySync.java:1031-1093 | over all histories a pass reads fewer than 50 rows at a time only if, since it began or a target last took a batch, some round of its requests called for a smaller batch |
| `FlushCoverage.SettledOrThere` | apps/mobile/android/app/src/main/java/com/pieces/android/companion/NativeTelemetrySync.java:956-1128 | at every step of a pass with no captures in between, each row found at its start is still in the outbox, or was in a body answered 2xx or quarantined since |
| `CoverageProofs.CoverStep` | apps/mobile/android/app/src/main/java/com/pieces/android/companion/NativeTelemetrySync.java:571-617 | every step of capture, pruning, sending, purging and quarantine keeps an event accounted for or displaced, and displaces only an event whose id another one bears |
| `CoverageProofs.CountStep` | apps/mobile/android/app/src/main/java/com/pieces/android/companion/NativeTelemetrySync.java:601-614 | what a step adds to droppedEventsCount is what it loses, plus the rows it pruned in a commit that failed |
| `CoverageProofs.SettledSticks` | apps/mobile/android/app/src/main/java/com/pieces/android/companion/NativeTelemetrySync.java:1191-1215 | events delivered, quarantined, lost or displaced stay so |
| `FlushBound.BoundStep` | apps/mobile/android/app/src/main/java/com/pieces/android/companion/NativeTelemetrySync.java:962-996 | each read is paid for by a removed row or a halving of the window |
| `FlushBound.AtMostSixReadsPerRow` | apps/mobile/android/app/src/main/java/com/pieces/android/companion/NativeTelemetrySync.java:962-1124 | a pass on n rows, cancelled at any step or not, with no captures in between reads at most 6n+1 batches, for all answers and transaction failures |
| `FlushWorker.FlushInternal.ReadBatch` | apps/mobile/android/app/src/main/java/com/pieces/android/companion/NativeTelemetrySync.java:876-954 | readBatch with its quarantine transactions, cut short by a cancellation or not, on the tables; uncancelled, the batch is what the scan takes from the first maxCount rows, and it reports an error only if something failed |
| `FlushWorker.FlushInternal.IsolateAll` | apps/mobile/android/app/src/main/java/com/pieces/android/companion/NativeTelemetrySync.java:939-945 | stops at the first quarantine that fails and counts the others |
| `FlushWorker.FlushInternal.Send` | apps/mobile/android/app/src/main/java/com/pieces/android/companion/NativeTelemetrySync.java:1004-1065 | the target loop: which target accepts, otherwise whether any and whether all answered 413 or 400/422, and the check for cancellation before each target |
| `FlushWorker.FlushInternal.Round` | apps/mobile/android/app/src/main/java/com/pieces/android/companion/NativeTelemetrySync.java:964-996 | one turn of the loop with its checks for cancellation does the steps of the pass machine and uses up at least one read |
| `FlushWorker.FlushInternal.Refused` | apps/mobile/android/app/src/main/java/com/pieces/android/companion/NativeTelemetrySync.java:1081-1124 | return CANCELLED, halve, quarantine or give up, as the cancellation and the counts say; it gives up only if a transaction fails, or the answers of the targets neither call for a smaller batch nor rule its only row out |
| `FlushWorker.FlushInternal.PurgeBatch` | apps/mobile/android/app/src/main/java/com/pieces/android/companion/NativeTelemetrySync.java:1067-1079 | purge after acknowledgement, failing the pass if the purge fails; a cancellation is looked at only afterwards |
| `FlushWorker.FlushInternal.RejectEvent` | apps/mobile/android/app/src/main/java/com/pieces/android/companion/NativeTelemetrySync.java:1098-1119 | quarantine of an event every target refused |
| `FlushWorker.FlushInternal.Flush` | apps/mobile/android/app/src/main/java/com/pieces/android/companion/NativeTelemetrySync.java:956-1128 | the imperative flushInternal refines the pass machine under cancellation at any step, ends, reads at most 6n+1 times, returns CANCELLED only if cancelled and DRAINED only with an empty outbox; it does return DRAINED if nothing fails, nobody cancels and the answers to every batch decide about it, and every row it found is then in a body answered 2xx or quarantined |
| `DeliveryProofs.Projects` | apps/mobile/android/app/src/main/java/com/pieces/android/companion/NativeTelemetrySync.java:781-850 | every history of the whole pipeline contains, since the last restart of the process, a possible history of the flush-run protocol |
| `DeliveryProofs.BoxHistory` | apps/mobile/android/app/src/main/java/com/pieces/android/companion/NativeTelemetrySync.java:571-617 | order, quarantine and coverage invariants hold over every history of the pipeline, over any number of restarts |
| `DeliveryResults.NoSilentLoss` | apps/mobile/android/app/src/main/java/com/pieces/android/companion/NativeTelemetrySync.java:571-617 | over any number of restarts, every captured event is in the outbox, was in a body answered 2xx, was quarantined, never got into the outbox, was cut off by the cap, or was displaced; only an event whose id another one bears is ever displaced |
| `DropCount.CountExactly` | apps/mobile/android/app/src/main/java/com/pieces/android/companion/NativeTelemetrySync.java:601-614 | droppedEventsCount exceeds the events lost since the process started by exactly the rows pruned in commits that failed: it is right about them if and only if no append failed at its commit on a full outbox since; exactly when it is right about all events lost ever, and about displaced ones |
| `DropCount.CountOfGone` | apps/mobile/android/app/src/main/java/com/pieces/android/companion/NativeTelemetrySync.java:601-614 | if no two different events share an id nothing is ever displaced, and the count is the number of events gone since the process started if and only if no append failed at its commit on a full outbox since |
| `DropCount.FailedCommitCountsTwo` | apps/mobile/android/app/src/main/java/com/pieces/android/companion/NativeTelemetrySync.java:605-614 | on any full outbox, an append that fails at its commit loses one event and counts two |
| `DropCount.OvercountReached` | apps/mobile/android/app/src/main/java/com/pieces/android/companion/NativeTelemetrySync.java:605-614 | that is reached without a restart, by 500 captures and one whose commit fails |
| `DropCount.RestartForgets` | apps/mobile/android/app/src/main/java/com/pieces/android/companion/NativeTelemetrySync.java:98 | any event can be lost and, after a restart, not counted |
| `DeliveryResults.SharedIdLoses` | apps/mobile/android/app/src/main/java/com/pieces/android/companion/NativeTelemetrySync.java:596 | displacing happens: for any two different events with one id there is a history in which the first vanishes uncounted |
| `DeliveryResults.OutboxBounded` | apps/mobile/android/app/src/main/java/com/pieces/android/companion/NativeTelemetrySync.java:601-608 | the outbox never exceeds 500 rows |
| `DeliveryResults.RowIdsUnique` | apps/mobile/android/app/src/main/java/com/pieces/android/companion/NativeTelemetrySync.java:596 | no two rows ever share an id |
| `DeliveryResults.AcknowledgedInOrder` | apps/mobile/android/app/src/main/java/com/pieces/android/companion/NativeTelemetrySync.java:886-888 | first acknowledgements happen in strictly increasing outbox order, over all histories |
| `DeliveryResults.QuarantineSound` | apps/mobile/android/app/src/main/java/com/pieces/android/companion/NativeTelemetrySync.java:1098-1119 | an event is quarantined only if malformed, too large alone, or sent alone and refused by every target with 413, or by every one with 400/422 |
| `DeliveryResults.NoLostFlush` | apps/mobile/android/app/src/main/java/com/pieces/android/companion/NativeTelemetrySync.java:743-753 | every success told, by a cancelled run too: a cursor opened in its last pass found the outbox empty, and all rows now present are younger; the pass began after the listener registered unless, and only unless, the run was cut short |
| `DeliveryResults.ListenersToldOnce` | apps/mobile/android/app/src/main/java/com/pieces/android/companion/NativeTelemetrySync.java:839-843 | in the whole pipeline a listener is told at most once, and exactly once at rest |
| `DeliveryResults.BornWhenAppended` | apps/mobile/android/app/src/main/java/com/pieces/android/companion/NativeTelemetrySync.java:596-609 | a row was committed by the append event at its time of birth |
| `DeliveryResults.YoungerThanEmpty` | apps/mobile/android/app/src/main/java/com/pieces/android/companion/NativeTelemetrySync.java:977-982 | once the outbox was seen empty it holds only younger rows |
| `DeliveryResults.SuccessSettles` | apps/mobile/android/app/src/main/java/com/pieces/android/companion/NativeTelemetrySync.java:784-849 | after any success, every event appended before the outbox was seen empty was delivered, quarantined or lost, or displaced if another event bears its id |
| `DeliveryResults.SuccessMeansDelivered` | apps/mobile/android/app/src/main/java/com/pieces/android/companion/NativeTelemetrySync.java:784-849 | unless its run was cut short, success means to a listener that every event appended before it registered was delivered, quarantined or lost, or displaced if another event bears its id |
| `DeliveryAnswers.AnswerIsLastPass` | apps/mobile/android/app/src/main/java/com/pieces/android/companion/NativeTelemetrySync.java:826-843 | in the whole pipeline a call is success if and only if it is made for a run whose last pass returned DRAINED |
| `DeliveryAnswers.AnswerOfJoinedRun` | apps/mobile/android/app/src/main/java/com/pieces/android/companion/NativeTelemetrySync.java:826-843 | a listener that registered with a flush is told success if and only if the last pass of the run it joined returned DRAINED |
| `CancelProofs.CancelHits` | apps/mobile/android/app/src/main/java/com/pieces/android/companion/NativeTelemetrySync.java:453-483 | a targeted cancellation cancels its target, if active, or drops it with its listeners, if pending, and touches no other run; a global one hits both |
| `CancelProofs.CancelledSendsNothing` | apps/mobile/android/app/src/main/java/com/pieces/android/companion/NativeTelemetrySync.java:1005-1008 | over all histories, once its run is cancelled the worker sends nothing more for it; only the answer to a request under way is still recorded |
| `JobService.JobStep` | apps/mobile/android/app/src/main/java/com/pieces/android/companion/TelemetrySyncJobService.java:22-50 | every step keeps: completions posted exactly for job listeners, finished generations increasing and past |
| `JobService.FinishedAtMostOnce` | apps/mobile/android/app/src/main/java/com/pieces/android/companion/TelemetrySyncJobService.java:29-35 | jobFinished is called at most once per generation, in order of start |
| `JobService.NeverFinishedAfter` | apps/mobile/android/app/src/main/java/com/pieces/android/companion/TelemetrySyncJobService.java:42-44 | a generation stopped or superseded before it finished never finishes |
| `JobService.PastGeneration` | apps/mobile/android/app/src/main/java/com/pieces/android/companion/TelemetrySyncJobService.java:24 | every generation started earlier is at most the current one |
| `JobService.FinishedExactlyOnce` | apps/mobile/android/app/src/main/java/com/pieces/android/companion/TelemetrySyncJobService.java:27-37 | left alone, at rest and with the looper idle, a job was finished exactly once, rescheduling if and only if the last pass of the run it waited for did not return DRAINED |
| `JobService.ToldTheLastPass` | apps/mobile/android/app/src/main/java/com/pieces/android/companion/TelemetrySyncJobService.java:27-37 | whatever the callback of a job is told, it is success if and only if the last pass of the run that onStartJob joined returned DRAINED |
| `JobService.StopCancels` | apps/mobile/android/app/src/main/java/com/pieces/android/companion/TelemetrySyncJobService.java:42-50 | once the system has stopped the job, the run that onStartJob joined is not pending and, if active, cancelled |
| `JobService.TelemetrySyncJobService.OnStartJob` | apps/mobile/android/app/src/main/java/com/pieces/android/companion/TelemetrySyncJobService.java:23-39 | new generation, forced flush with the callback as listener, and the id of the run it joined |
| `JobService.TelemetrySyncJobService.OnStopJob` | apps/mobile/android/app/src/main/java/com/pieces/android/companion/TelemetrySyncJobService.java:42-50 | the generation is invalidated and exactly the remembered run is cancelled |
| `JobService.TelemetrySyncJobService.Complete` | apps/mobile/android/app/src/main/java/com/pieces/android/companion/TelemetrySyncJobService.java:28-36 | only the current generation is finished, and it is over then |
| `JobDelivery.JointRun` | apps/mobile/android/app/src/main/java/com/pieces/android/companion/TelemetrySyncJobService.java:22-50 | over all moves of the job service and the pipeline together, restarts included, both run the same protocol, and each generation waits for the listener that joined when it started |
| `JobDelivery.NothingBlocked` | apps/mobile/android/app/src/main/java/com/pieces/android/companion/TelemetrySyncJobService.java:22-50 | putting the two together rules out no step of the pipeline |
| `JobDelivery.FinishedMeansDelivered` | apps/mobile/android/app/src/main/java/com/pieces/android/companion/TelemetrySyncJobService.java:27-37 | a job finished without asking to be rescheduled means that every event appended before its onStartJob was delivered, quarantined or lost, or displaced, unless the run it waited for was cut short |
| `JobDelivery.RescheduledUnlessDrained` | apps/mobile/android/app/src/main/java/com/pieces/android/companion/TelemetrySyncJobService.java:27-37 | in the whole pipeline, a finished job asked to be rescheduled if and only if the last pass of the run that its onStartJob joined did not return DRAINED |
| `IndexOrder.SliceOrder` | apps/mobile/src/lib/captureIndex.ts:53 | order of months implies order of timestamps |
| `IndexOrder.InsertMiddle` | apps/mobile/src/lib/captureIndex.ts:172 | insertion by time into the middle part touches neither what is before nor what is after |
| `IndexOrder.SortSorts` | apps/mobile/src/lib/captureIndex.ts:172 | the sort is sorted and a permutation |
| `IndexOrder.SortPushed` | apps/mobile/src/lib/captureIndex.ts:168-172 | push and sort on a sorted shard is insertion by time |
| `IndexOrder.SortSwaps` | apps/mobile/src/lib/captureIndex.ts:201 | sorting moves a run that was collected too late to the front |
| `IndexStore.FlatSorted` | apps/mobile/src/lib/captureIndex.ts:23-29 | the shards in manifest order form one list sorted by time |
| `IndexStore.ShardDedupIsGlobal` | apps/mobile/src/lib/captureIndex.ts:167 | when ids fix the month, looking for the id in one shard is looking for it everywhere |
| `IndexStore.LocalIdsFixMonth` | apps/mobile/src/lib/captureIndex.ts:43 | ids of the form local:timestamp do fix the month |
| `IndexStore.AppendTwice` | apps/mobile/src/lib/captureIndex.ts:167 | appending the same entry twice is appending it once, even if it was evicted at once |
| `IndexStore.EvictedAtOnce` | apps/mobile/src/lib/captureIndex.ts:169-171 | an entry that does not survive its own insertion leaves the index as it was |
| `IndexMigration.MergeTwice` | apps/mobile/src/lib/captureIndex.ts:116-120 | merging the same legacy entries again changes nothing |
| `IndexMigration.Restartable` | apps/mobile/src/lib/captureIndex.ts:93-127 | stopping the migration after any write and starting over gives exactly what an uninterrupted run gives |
| `IndexMigration.MigratedShards` | apps/mobile/src/lib/captureIndex.ts:115-123 | all shards after a migration, whatever the order of the months |
| `IndexMigration.MergedShard` | apps/mobile/src/lib/captureIndex.ts:116-121 | a merged shard is month-pure, sorted, has each id once, keeps what it held and takes nothing from elsewhere |
| `IndexMigration.MergedIds` | apps/mobile/src/lib/captureIndex.ts:105-119 | its ids are exactly those it held and those of the legacy entries of its month |
| `IndexMigration.LegacyKept` | apps/mobile/src/lib/captureIndex.ts:105-123 | every legacy entry is in the shard of its month afterwards |
| `IndexMigration.MigratedSound` | apps/mobile/src/lib/captureIndex.ts:113-126 | a well-formed index is well formed after the migration, with the manifest exact and complete |
| `IndexEviction.EvictionDropsOldest` | apps/mobile/src/lib/captureIndex.ts:132-158 | for arbitrary counts eviction only removes a prefix of the time-ordered list |
| `IndexEviction.EvictionBound` | apps/mobile/src/lib/captureIndex.ts:132-158 | for arbitrary counts the entries left exceed MAX_INDEX by at most the sum of what the counts understate |
| `IndexEviction.EvictedSize` | apps/mobile/src/lib/captureIndex.ts:132-158 | for arbitrary counts: the counts in the new manifest add up to at most MAX_INDEX, and the entries left differ from them by exactly what the counts of the months eviction did not read are off |
| `IndexEviction.CapHoldsExactly` | apps/mobile/src/lib/captureIndex.ts:132-158 | at most MAX_INDEX entries are left if and only if the unread months hold more than their counts say by no more than the room left |
| `IndexEviction.EvictionReachesCap` | apps/mobile/src/lib/captureIndex.ts:133-144 | in particular if no count is too small |
| `IndexEviction.UnderstatedHides` | apps/mobile/src/lib/captureIndex.ts:133 | the bound is met: one count that is too small lets any number of entries stay |
| `IndexEviction.EvictionIsExact` | apps/mobile/src/lib/captureIndex.ts:145-156 | with exact counts exactly the surplus is removed |
| `IndexEviction.EvictionKeepsForm` | apps/mobile/src/lib/captureIndex.ts:132-158 | eviction leaves order, counts and shards well formed |
| `IndexAppend.PushedContent` | apps/mobile/src/lib/captureIndex.ts:168-181 | pushing into the month shard and listing the month is inserting by time into the flat list |
| `IndexAppend.PushedGood` | apps/mobile/src/lib/captureIndex.ts:168-181 | the index stays well formed |
| `IndexAppend.AppendRefinesFlat` | apps/mobile/src/lib/captureIndex.ts:163-183 | appendEntry is: ignore a known id, insert by time, drop the oldest down to MAX_INDEX; counts and shards stay exact |
| `IndexAppend.StoppedAppend` | apps/mobile/src/lib/captureIndex.ts:166-173 | if appendEntry stops after writing the shard, the entry can be read exactly if its month was listed before, and appending it again does not help |
| `IndexAppend.NextOfMonth` | apps/mobile/src/lib/captureIndex.ts:166-183 | the next capture of that month makes up for it: from there on the index is what it would have been |
| `IndexAppend.SortNewestFirst` | apps/mobile/src/lib/captureIndex.ts:194-201 | sorting the shards collected newest first gives the flat list |
| `IndexAppend.EnoughMonths` | apps/mobile/src/lib/captureIndex.ts:195-202 | stopping once enough entries are collected still yields the newest MAX_INDEX of all |
| `CaptureIndex.CaptureIndex.MigrateLegacyIfPresent` | apps/mobile/src/lib/captureIndex.ts:93-127 | the loops perform exactly the modelled writes |
| `CaptureIndex.CaptureIndex.ByMonth` | apps/mobile/src/lib/captureIndex.ts:105-111 | buckets hold the first entry of each id per month, months in order of appearance |
| `CaptureIndex.CaptureIndex.MergeInto` | apps/mobile/src/lib/captureIndex.ts:116-120 | adds what is missing and sorts |
| `CaptureIndex.CaptureIndex.Evict` | apps/mobile/src/lib/captureIndex.ts:132-158 | the loop with its running total computes the eviction function and ends for all counts |
| `CaptureIndex.CaptureIndex.AppendEntry` | apps/mobile/src/lib/captureIndex.ts:160-184 | the stored index becomes the appended one, migration included |
| `CaptureIndex.CaptureIndex.Collect` | apps/mobile/src/lib/captureIndex.ts:194-199 | the early stop loses none of the newest MAX_INDEX entries |
| `CaptureIndex.CaptureIndex.ReadIndex` | apps/mobile/src/lib/captureIndex.ts:186-203 | for arbitrary counts returns exactly the newest MAX_INDEX of all listed entries, and migrates only an empty index |
| `CaptureIndex.CaptureIndex.ClearIndex` | apps/mobile/src/lib/captureIndex.ts:205-212 | removes all listed shards, the manifest and the legacy blob |
| `CaptureIndex.AppendEntryRefines` | apps/mobile/src/lib/captureIndex.ts:160-184 | from any well-formed state, with or without a legacy blob, appendEntry refines appending to the flat sorted list |
| `CaptureIndex.ClearedIsEmpty` | apps/mobile/src/lib/captureIndex.ts:205-212 | nothing is left of a well-formed index |
| `UsageQueue.Pushed` | apps/mobile/src/lib/usage.ts:91-92 | recording appends and trims the oldest down to the cap, nothing else |
| `UsageQueue.Patched` | apps/mobile/src/lib/usage.ts:114-121 | a patch keeps length, places and ids |
| `UsageQueue.Cleared` | apps/mobile/src/lib/usage.ts:163-167 | clearing keeps exactly the events without a sent id or type:timestamp |
| `UsageQueue.ReadyPrefix` | apps/mobile/src/lib/flush.ts:33-43 | what is sent is the longest prefix without an untriaged background capture |
| `UsageQueue.Rewritten` | apps/mobile/src/lib/triageQueue.ts:28-53 | triage always leaves a verdict; without a summary it changes nothing else, with one only the text |
| `UsageQueue.RawTextGone` | apps/mobile/src/lib/triageQueue.ts:30-34 | a summary does not depend on the raw text it replaces, and holds the package, the summary and the category |
| `UsageQueue.Queue.RecordEvent` | apps/mobile/src/lib/usage.ts:84-95 | push and splice |
| `UsageQueue.Queue.PatchTriagedEvents` | apps/mobile/src/lib/usage.ts:105-124 | the map-building and patching loops replace exactly the events with an updated id |
| `UsageQueue.Queue.ClearSentEvents` | apps/mobile/src/lib/usage.ts:134-171 | the set-building and filtering loops |
| `UsageQueue.Queue.SendCount` | apps/mobile/src/lib/flush.ts:33-41 | the loop finds the ready prefix |
| `UsageQueue.Queue.TryTargets` | apps/mobile/src/lib/flush.ts:48-76 | accepted if and only if some target answers 2xx and all before it do not answer, or answer 401, 403 or a server error |
| `UsageQueue.Queue.FlushUsageEvents` | apps/mobile/src/lib/flush.ts:25-83 | without interference: what is sent, when, and what is cleared; the flag is released on every path |
| `UsageQueue.Queue.TriageQueue` | apps/mobile/src/lib/triageQueue.ts:18-58 | without interference: exactly the raw captures are rewritten |
| `UsageQueue.TriagedIsReady` | apps/mobile/src/lib/triageQueue.ts:22-58 | after such a pass only captures whose text begins with SMS are still raw |
| `UsageActors.LockStep` | apps/mobile/src/lib/usage.ts:39-51 | the holder of the lock always works on the stored queue |
| `UsageActors.FlusherReaches` | apps/mobile/src/lib/flush.ts:48-76 | the interleaved flush, too, gets its body accepted if and only if some target answers 2xx and all before it are worth failing over from |
| `UsageOrder.OrderStep` | apps/mobile/src/lib/usage.ts:39-51 | every interleaved step keeps what is sent and acknowledged in recording order |
| `UsageOrder.AcknowledgedInOrder` | apps/mobile/src/lib/flush.ts:30-67 | events are first acknowledged in recording order, over all interleavings, failed clears included |
| `UsageCoverage.CoverStep` | apps/mobile/src/lib/usage.ts:84-171 | every interleaved step keeps an event accounted for |
| `UsageCoverage.ClearedOnlySent` | apps/mobile/src/lib/usage.ts:146-167 | an event with names of its own is removed only by clearing a body it was in |
| `UsageCoverage.NothingLost` | apps/mobile/src/lib/usage.ts:84-171 | every recorded event whose id and type:timestamp are its own is queued, was in an acknowledged body, or was trimmed by the cap |
| `UsageResults.SharedNameLoses` | apps/mobile/src/lib/usage.ts:150-165 | the condition is needed, both halves: any two events that share the id, or the type and timestamp, can be interleaved so that the second is removed unsent, unless the first is an SMS capture that stays raw |
| `UsageResults.RawNeverSent` | apps/mobile/src/lib/flush.ts:33-43 | no body ever sent holds an untriaged background capture |
| `UsageResults.GoneForGood` | apps/mobile/src/lib/usage.ts:105-124 | an event that left the queue never comes back, in particular not through a patch |
| `UsageResults.TriagedForGood` | apps/mobile/src/lib/usage.ts:105-124 | triaged is never unset |
| `UsageResults.SectionsAreAtomic` | apps/mobile/src/lib/usage.ts:39-51 | no update is lost and the cap holds in every reachable state |
| `SummaryProofs.SummaryStays` | apps/mobile/src/lib/triageQueue.ts:18-58 | over all histories in which a triage pass starts only when no other is under way, an event once triaged, its id its own, stays exactly as it is while queued; a summary is never replaced by raw text |
| `SummaryProofs.SummaryOverwritten` | apps/mobile/src/lib/triageQueue.ts:18-58 | the condition is needed: after any history that leaves a capture waiting for triage, two overlapping passes can summarize it and then put the raw text back, ready to be sent |
| `SummaryText.SentAsTold` | apps/mobile/src/lib/triageQueue.ts:22-53 | over all histories, a capture that was recorded raw is sent only as the model had it rewritten: as a summary in which nothing depends on the raw text, or as it was if the model had nothing to say; the model was asked about this capture, if its id is its own, and never about an SMS |
| `SummaryText.RawMessageNeverSent` | apps/mobile/src/lib/triageQueue.ts:26 | so an SMS that was recorded raw, with an id of its own, is never sent |
| `TextNormal.SqueezeEqual` | apps/proxy/src/surprisal.ts:47 | two lines squeeze to the same line exactly if they have the same words |
| `TextNormal.NormalizeEqual` | apps/proxy/src/surprisal.ts:44-51 | two texts normalize equally exactly if they have the same squeezed non-empty lines, in any order |
| `Surprisal.Similarity` | apps/proxy/src/surprisal.ts:61-72 | times the size of the union it is the size of the intersection; between 0 and 1, and 1 exactly for equal sets |
| `Surprisal.SimilaritySymmetric` | apps/proxy/src/surprisal.ts:61-72 | the order of the two sets does not matter |
| `Surprisal.JaccardSimilarity` | apps/proxy/src/surprisal.ts:61-72 | counting over the smaller set computes the size of the intersection over the size of the union, 1 for two empty sets |
| `Surprisal.SurprisalGate.IsNearDuplicate` | apps/proxy/src/surprisal.ts:75-79 | prunes, then looks for the hash |
| `Surprisal.SurprisalGate.RecordHistory` | apps/proxy/src/surprisal.ts:81-86 | the shift loop keeps the last HISTORY_PER_PACKAGE entries |
| `Surprisal.SurprisalGate.ShouldSeed` | apps/proxy/src/surprisal.ts:92-115 | the answer and the history of that package afterwards; other packages are untouched |
| `NoveltyProofs.RunHolds` | apps/proxy/src/surprisal.ts:57-86 | over any run with a clock that does not go back a package holds its last accepted captures |
| `NoveltyRuns.RunRanked` | apps/proxy/src/surprisal.ts:57-86 | over any run on any clock the entries a package holds are some of those accepted, in order, and one that is missing had left the window when a later capture of the package came, or has at least 15 accepted ones behind it |
| `NoveltyProofs.SameTextTwice` | apps/proxy/src/surprisal.ts:92-115 | on any clock: two captures of equal normalized text are both accepted only if the first had left the 15 minute window when the second or one of the package in between came, or at least 15 others of the package were accepted in between |
| `NoveltyProofs.HeldApart` | apps/proxy/src/surprisal.ts:106-113 | any two entries held together have fewer tokens in common than the threshold times the number of tokens of both |
| `NoveltyProofs.AcceptedExactly` | apps/proxy/src/surprisal.ts:92-115 | a capture is accepted if and only if the threshold is positive and no entry its package holds in the window has its hash, or at least the threshold of their tokens in common with it, said in numbers of tokens |
| `NoveltyProofs.AlikeIsSimilar` | apps/proxy/src/surprisal.ts:61-72 | two sets reach a similarity exactly if they have that share of their tokens in common |
| `NoveltyProofs.HashAgrees` | apps/proxy/src/surprisal.ts:97-110 | with a threshold of at most 1, and no earlier capture of the package whose text differs and has the same hash, the hash check does not change the answer |
| `NoveltyProofs.HashDisagrees` | apps/proxy/src/surprisal.ts:97-110 | with a threshold above 1 it does |
| `UsageReport.FingerprintById` | apps/proxy/src/server.ts:100-104 | events with ids are told apart exactly by their ids |
| `UsageReport.FingerprintByFields` | apps/proxy/src/server.ts:102-103 | without ids, and as long as no field contains the separator, two fingerprints are equal exactly if the lists of fields that are there are equal |
| `UsageReport.FingerprintBlind` | apps/proxy/src/server.ts:102-103 | so different events can get one fingerprint if they miss different fields |
| `UsageReport.FingerprintBar` | apps/proxy/src/server.ts:102-103 | or if a field contains the separator |
| `UsageReport.UsageLog.constructor` | apps/proxy/src/server.ts:106-125 | preloading collects the fingerprints of the last lines |
| `UsageReport.UsageLog.ReportUsage` | apps/proxy/src/server.ts:310-338 | the dedup loop with eviction, the append, and the status |
| `UsageReport.ReportsInStep` | apps/proxy/src/server.ts:321-338 | while appends work the set is always the fingerprints of the last 10000 log entries, and equal entries are farther apart than that |
| `UsageReport.RestartKeepsSet` | apps/proxy/src/server.ts:106-125 | preloading after a restart recovers the set exactly |
| `UsageReport.AllLogged` | apps/proxy/src/server.ts:321-338 | every reported event has its fingerprint in the log afterwards |
| `UsageReport.AddsNothing` | apps/proxy/src/server.ts:323-333 | a batch adds nothing exactly if all its events are among the last 10000 entries |
| `UsageReport.ResentAddsNothing` | apps/proxy/src/server.ts:321-338 | a batch that was new adds nothing when sent again within the window, whatever was reported in between |
| `UsageReport.ResentAddsOld` | apps/proxy/src/server.ts:327-330 | a batch that was not all new can add to the log when sent again at once |
| `UsageReport.FailedAppendLoses` | apps/proxy/src/server.ts:326-338 | if the append fails the events count as seen without being logged, and sending again does not help |
| `EndToEnd.AcknowledgedLogged` | apps/proxy/src/server.ts:321-338 | whatever else the proxy receives and in whatever order, every event in a body it acknowledged has its fingerprint in the log |
| `EndToEnd.LoggedOnce` | apps/proxy/src/server.ts:321-338 | for any series of bodies within the window, resends included, the log gains each row once, in the order of first occurrence |
| `EndToEnd.LoggedOnceInOrder` | apps/mobile/android/app/src/main/java/com/pieces/android/companion/NativeTelemetrySync.java:1031-1079 | over any run of the phone, restarts and failed purges included, with committed ids of their own and within the window: the log gains each acknowledged event exactly once, in the order in which the events were committed |
| `SmsBackfill.NormalizeTwice` | apps/mobile/android/app/src/main/java/com/pieces/android/companion/SmsPlugin.java:317-322 | normalizing a number again changes nothing, so stored numbers match |
| `SmsBackfill.DigitsKept` | apps/mobile/android/app/src/main/java/com/pieces/android/companion/SmsPlugin.java:317-322 | all digits of a number are kept, in order, and nothing else |
| `SmsBackfill.SameNumber` | apps/mobile/android/app/src/main/java/com/pieces/android/companion/SmsPlugin.java:314-322 | two numbers are taken for the same if and only if they have the same digits, but for a 1 in front of ten others |
| `SmsBackfill.Backfill` | apps/mobile/android/app/src/main/java/com/pieces/android/companion/SmsPlugin.java:214-287 | the cursor loop: a prefix of the rows after the mark, filtered, with scan cap, limit, hasMore and last date |
| `SmsBackfill.PageSkipsNothing` | apps/mobile/android/app/src/main/java/com/pieces/android/companion/SmsPlugin.java:235-243 | resuming after the last date skips nothing exactly if no later row has that date |
| `SmsBackfill.RecentlyReceived` | apps/mobile/src/lib/smsBackfill.ts:80-87 | a first run looks at exactly the messages received less than 30 days before the newest one |
| `SmsBackfill.SameDateSkipped` | apps/mobile/android/app/src/main/java/com/pieces/android/companion/SmsPlugin.java:235-243 | a row of that date behind the end of the page is never looked at again |
| `SmsBackfill.PageRecords` | apps/mobile/android/app/src/main/java/com/pieces/android/companion/SmsPlugin.java:239-277 | with distinct dates a page returns exactly the allowlisted messages between the marks |
| `SmsBackfill.DoneMeansNothingLeft` | apps/mobile/src/lib/smsBackfill.ts:144 | done means no message is newer than the mark |
| `SmsBackfill.BetweenJoins` | apps/mobile/src/lib/smsBackfill.ts:138-141 | consecutive stretches add up without gap or overlap |
| `SmsBackfill.SmsBackfill.Run` | apps/mobile/src/lib/smsBackfill.ts:94-149 | a run ends, moves the mark only forward, stops at the cap or with nothing left, and with distinct dates records exactly the allowlisted messages between its marks, in date order |
| `SmsBackfill.SmsBackfill.RunUntilDone` | apps/mobile/src/lib/smsBackfill.ts:94-149 | runs repeated until one is done come to an end, and with distinct dates record together every allowlisted message after the first mark, once, in date order |
| `SmsBackfill.SmsBackfill.RecordAll` | apps/mobile/src/lib/smsBackfill.ts:122-140 | all messages of a page are recorded and the mark becomes the last date scanned |

## Left out

- Integer widths: run ids, epochs, counters, generations and byte counts are unbounded; wrap-around of `long` and of AtomicInteger is not modelled.
- JSON parsing is a validity flag and a serialized text, one char per UTF-8 byte; HTTP, SQLite, Preferences, JobScheduler and the executors are atomic steps, maps, sequences and free answers.
- A batch query that fails in the middle of the cursor is the same step as one that fails at once, because nothing was written before.
- The clock comparison with lastFailureElapsed is a free choice in `FlushFlow` (events Skip and Decide), so retry delays are not modelled.
- flushAsync throwing after a successful append, which makes the caller count the event a second time, is left out.
- The flag `force` of a run is carried along; nothing in the code reads it.
- Which of the codes 400 and 422 is named in the reason of a quarantined event is not modelled, nor when it was quarantined.
- What exactly of a capture's text is handed to the on-device model, and the model itself: its verdicts are free.
- Interrupting a request by disconnecting it is one of the free answers, not a separate step.
- The legacy JSONL migration and the schema upgrade of the native outbox: not modelled.
- The id backfill when the usage queue is read, patches for events without ids, replaceQueue and clearing by count: legacy paths; stored events are taken to have ids and timestamps.
- Damaged usage-queue JSON reads as an empty queue in the code; the model keeps the queue intact.
- A manifest count that is not an integer is not modelled.
- appendEntry stopped inside eviction, after shards were dropped and before the manifest is written: not modelled; a stop before that is (`StoppedAppend`).
- Two appendEntry calls at a time: the code has no lock there, the model takes one operation at a time, except that a migration may be cut short anywhere.
- FlushWorker.FlushInternal.Flush: stated for a pass during which nothing is captured, because the tables then belong to the worker alone; the pass interleaved with captures is the machine of `FlushPass`.
- When the process dies, captures still waiting for the disk executor are lost without being counted; the model takes them as never handed over.
- UsageQueue.Queue.PatchTriagedEvents: the path by type and timestamp for updates without ids is not modelled, since stored events have ids.
- UsageQueue.Queue.ClearSentEvents: the fallbacks that clear by count or by a string are not modelled, since no caller in the app uses them.
- UsageQueue.Queue.FlushUsageEvents: without interference and with a clear that works; interference and failing clears are in `UsageActors`.
- UsageQueue.Queue.TriageQueue: the append of each summary to the capture index and the flush at the end are not part of it; they are operations of their own.
- Tokenizing and hashing in the novelty gate are parameters; the regular expressions that strip clock times, percentages and dates are not part of this model.
- Text is compared by Unicode scalar values where JavaScript compares UTF-16 code units.
- A threshold that is not a number is not modelled.
- Reports on the proxy are handled one after the other; the order in which concurrent appends reach the log, and unparseable log lines, are not modelled. Preloading is taken to be complete before the first report.
- The seed queue of the proxy, seeding and summaries after the dedup loop: not modelled.
- recordEvent failing in the middle of an SMS page, and a store or an allowlist that changes during the backfill: not modelled.
- Direction, contact name and the truncation of long SMS bodies are carried along unread and not modelled.
- Search ranking, gateway routing, pages, notification capture, embedding and the remaining plugins: not modelled.
