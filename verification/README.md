# Scan execution, refresh tokens and findings: a Dafny model

This project models three parts of the backend and states what they promise.

**The scan execution protocol.** API requests create, cancel and retry scans; outbox
dispatchers turn committed outbox rows into queue messages; an at-least-once queue
duplicates, delays and reorders them; any number of workers run the orchestrator.  The
only coordination is compare-and-set on database rows.  There are two layers:

- `Protocol` is a step relation.  One `Slice` is one scan: its row, its outbox rows, its
  messages, the worker runs with their in-memory scan, the cancel requests and the
  dispatchers working on it, its event log and a few history variables.  A label names who
  moves and resolves everything left open: clock readings, what a plugin raises, whether
  the timeout expires, whether an insert or a send fails, whether a worker knows the
  scanner, who dies.  `ProtocolInvariant`, `ProtocolRuns` and `ProtocolSlices` prove an
  inductive invariant by rely and guarantee; `ProtocolTheorems` and `ProtocolOutcomes` say
  what it means, `ProtocolStory` what a run has said and done by each point and
  `ProtocolCauses` why, `ProtocolLedger` the same theorems counted over histories instead of
  read off history variables, `ProtocolFutures` and `ProtocolProgress` what can still become
  of a scan; `ProtocolWitnesses` builds reachable histories, and `ProtocolStamps` uses them for the
  one order of stamps that fails and for the writes that check no attempt; `ScanSystem`
  puts any number of scans together.
- `Persistence`, `Events`, `Orchestrator`, `ScanService` and `Dispatcher` are the classes
  of the code: a session with flushed and committed rows, repositories, the state machine,
  the orchestrator with its nested handlers, the request methods, the dispatch loop.
  `ScanOrchestrator` carries a ghost `past`: each awaited call is shown to be one step of
  the step relation, and between any two of them other actors may take any steps their
  guarantee allows.  `ExecuteScan` therefore ends in a lawful history (`RunHistory`), and
  the theorems about the step relation hold of it.  Conversely every run of every reachable
  slice has such a history (`RunHistory.EveryRunHasAPast`).

**Refresh-token families and the credential epoch.** `RefreshTokens` has the table and the
shape of families, `AuthModel` what each request does to the durable state, `AuthRequests`
when each of its replies is given and what is durable then, column by column,
`AuthHistories` the theorems over every sequence of requests, `AuthService` the repositories,
the service methods and the request boundary, shown to compute `AuthModel.Serve`.

**The finding pipeline.** `Findings` has the look-up-then-upsert loop over row objects and
the fold it computes; `Fingerprint` says when the deduplication key identifies a finding.

Where the code and its documentation differ, the model follows the code:

- `docs/orchestrator.md:37-39` and the comment at `backend/app/scan_engine/state_machine.py:32-35`
  say that a failure in PROCESSING goes straight to FAILED.  A retryable error there leaves
  `run` as an InvalidScanTransitionError with the row still PROCESSING, and so does a timeout
  (`ProtocolWitnesses.TransientStrands`, `TimeoutStrands`); `RunHistory.StuckExactly` says
  exactly when.
- `backend/app/workers/tasks/scan_tasks.py:11-19` says that `run` lets no error of the scan's
  execution out.  `RunHistory.RaisesExactly` says exactly when it does: with one of the three
  exceptions of `StuckExactly`; when the timeout expires after SUCCEEDED is committed and before
  scan.completed is published (`ProtocolWitnesses.SuccessEscapes`,
  `ProtocolOutcomes.SuccessNeverAnnounced`); when the scanner's factory raises
  (`ProtocolProgress.NoPluginNoEnd`); and when a transition to FAILED that is not guarded, after
  a config error or by a worker that does not know the scanner, finds the row changed
  (`ConfigFaultEscapes`, `UnregisteredEscapes`) or is refused by a CHECK
  (`ProtocolStamps.UnregisteredExactly`).
- `docs/decisions/0008-transaction-and-concurrency-model.md:264-280` says that a duplicate
  delivery is always a no-op.  Where workers know different scanners it is not: the update at
  `backend/app/scan_engine/orchestrator.py:115-123` checks the status and not the attempt, so a
  duplicate that such a worker has read can fail a later attempt (`ProtocolStamps.UnregisteredHits`,
  `UnregisteredExactly`).
- `docs/orchestrator.md:31-32` speaks of a last cancellation check before findings are
  finalized; the code checks before the transition to PROCESSING and not after it.  So a scan
  can be cancelled and its findings saved after that (`ProtocolWitnesses.CancelledButSaved`);
  `ProtocolFutures.LateFindingsExactly` and `CancelledInTime` say exactly when.
- `backend/app/scan_engine/pipeline/fingerprint.py:20-22` says that any difference gives a
  different fingerprint.  That holds exactly for separator-free components
  (`Fingerprint.UniqueIffSeparatorFree`, with `CollidingPair` as an instance).
- A cancel's stamp can lie before `started_at`, because the clock is read before the update
  reaches the row (`ProtocolStamps.CancelCanPrecedeStart`).  No CHECK compares the two;
  `CancelOrderExactly` says for which reads it can happen.

## Model

| member | source | states |
|---|---|---|
| ScanModel.TransitionEffect | backend/app/scan_engine/state_machine.py:89-139 | a transition moves exactly a row still in the status the caller believes, along an edge of the table, raises for a target off the table whatever the row, and is refused exactly where what it writes violates a CHECK; every stamp it adds is the clock reading it was given, it writes neither the attempt nor a stamp that is already there, and lowers the measure |
| ScanModel.EdgesByTarget | backend/app/scan_engine/state_machine.py:36-74 | for every target, the statuses it can be reached from, each named: the whole table |
| Retry.DelayGrowsToCap | backend/app/scan_engine/retry.py:37-45 | the first delay is the base or the cap; delays never shrink from one attempt to the next, double until capped, are what is returned where there is no jitter, and stay in [0, cap] whatever the jitter draws |
| Retry.TotalDelayBound | backend/app/scan_engine/retry.py:37-45 | the first k delays add up to at most base*(2^k - 1) and at most k*cap |
| ProtocolInvariant.OthersOnlyCancel | backend/app/repositories/scan_repository.py:110-140 | while a run owns the current attempt, the only change anybody else can make to the row is to cancel it |
| ProtocolInvariant.OthersKeepRun | backend/app/repositories/scan_repository.py:110-176 | rely: what a run may assume at its program point survives every step of every other actor |
| ProtocolRuns.RunStepKeeps | backend/app/scan_engine/orchestrator.py:93-407 | guarantee: every step of a worker run, whatever the plugin does and wherever the timeout lands, keeps the global invariant and changes the row only within what other runs rely on |
| ProtocolSlices.StepOk | backend/app/scan_engine/orchestrator.py:93-407 | the inductive invariant: kept by every step of every worker, cancel request, dispatcher, queue and clock, including deaths |
| ProtocolSlices.CreatedOk | backend/app/services/scan_service.py:106-132 | the creation transaction establishes the invariant |
| ProtocolSlices.HistoryOk | backend/app/scan_engine/orchestrator.py:93-407 | every history of a scan, of any length and interleaving, stays inside the invariant |
| ProtocolTheorems.ExclusiveOwnership | backend/app/repositories/scan_repository.py:142-176 | in every reachable state at most one live run can still write the status; it is the one that claimed the current attempt, and its in-memory scan is the row unless the row is CANCELLED |
| ProtocolTheorems.WritesOwnAttemptOnly | backend/app/scan_engine/orchestrator.py:225-262 | no ABA: when a claimed run changes the row, the row was at the attempt this run claimed and equal to its in-memory scan, although the update checks the status only |
| ProtocolTheorems.ClaimedOnce | backend/app/repositories/scan_repository.py:159-174 | an attempt stays with the one run that claimed it, in every continuation |
| ProtocolTheorems.StaleMeansCancelled | backend/app/scan_engine/orchestrator.py:215-221 | whenever a transition of an owning run is stale the row is CANCELLED, and then no transition at all of that run can match, so the follow-up FAILED attempt is stale too |
| ProtocolTheorems.LostRaceIsNeverOverwritten | backend/app/scan_engine/orchestrator.py:184-223 | cancel a scan under its owner and continue in any way: the row stays the cancelled row, and the run never makes a status its own |
| ProtocolTheorems.LoserIsReconciled | backend/app/scan_engine/orchestrator.py:184-223 | after a stale transition inside the guarded block or its handlers, in every continuation: the scan is CANCELLED and stays as it is, every further transition of the run is stale too, and unless it is killed the run passes through _handle_stale_state and returns without raising |
| ProtocolTheorems.GrantedCancelsAreSaid | backend/app/services/scan_service.py:157-190 | a cancel request that is answered with success leaves, in every reachable slice, a CANCELLED scan with scan.cancelled in the log |
| ProtocolTheorems.TerminalForever | backend/app/scan_engine/state_machine.py:69-74 | a terminal row never changes again, in any column |
| ProtocolTheorems.CooperativeCancellation | backend/app/scan_engine/orchestrator.py:277-280 | after a cancel, in every continuation: the row is fixed, at most one further plugin stage begins over all runs of the scan together, and a run that entered the guarded block and ended has called cleanup exactly once |
| ProtocolLedger.OneLateStage | backend/app/scan_engine/orchestrator.py:277-280 | counted over the labels of any history of a scan, from its creation: plugin code is begun at most once after a cancel, by all its runs together |
| ProtocolTheorems.NoLostWakeUp | backend/app/services/scan_service.py:253-281 | unless a delivery was lost before its claim (its worker died, or could not make the plugin), a QUEUED scan has its row unpublished and its message still to be sent, a message queued, or a run that will take it out of QUEUED if nobody does so before |
| ProtocolLedger.LossesAreRecorded | backend/app/scan_engine/orchestrator.py:93-143 | a delivery counts as lost exactly if, in some step of the history, a worker died between taking its message and claiming, failing or leaving the scan, or the factory of the scanner raised |
| ProtocolLedger.NothingLostNoWaiting | backend/app/services/scan_service.py:253-281 | in every history without such a step a QUEUED scan is waiting for a dispatcher, on the queue, or in the hands of a run that can take it out of QUEUED |
| ProtocolTheorems.EveryStepDescends | backend/app/scan_engine/state_machine.py:36-74 | each step changes the status at most once, along an edge, and lowers the measure |
| ProtocolTheorems.BoundedLife | backend/app/repositories/scan_repository.py:159-174 | attempt equals the number of claims and never exceeds max_attempts; QUEUED implies attempts are left; at most 4*max_attempts + 2 status changes however many messages arrive |
| ProtocolTheorems.OutboxIsAPrefix | backend/app/models/scan_job_outbox.py:65-67 | the outbox rows of a scan are a gap-free prefix of its attempts ({0..a} when QUEUED, {0..a-1} when active, SUCCEEDED or TIMED_OUT, one of the two when FAILED or CANCELLED), and the unique constraint never fires |
| ProtocolTheorems.RequeueAddsOneRow | backend/app/scan_engine/orchestrator.py:310-332 | a requeue commits the QUEUED row and exactly one new unpublished outbox row, delayed as the policy may draw, together, or neither |
| ProtocolOutcomes.RunsEnd | backend/app/scan_engine/orchestrator.py:93-223 | every delivered message costs its worker at most 32 steps |
| ProtocolOutcomes.RunNeverBlocked | backend/app/scan_engine/orchestrator.py:93-223 | a run that is neither done nor dead can always take its next step |
| ProtocolOutcomes.ExactOutcome | backend/app/scan_engine/orchestrator.py:93-223 | a claimed run that was not killed has made the scan terminal itself, or lost it to a cancel, or requeued it with its outbox row; the only exceptions leave it in PROCESSING or PREPARING, raise, and (for the retryable error) have no outbox row |
| ProtocolOutcomes.ExceptionsExactly | backend/app/scan_engine/state_machine.py:66-68 | step by step: a run is bound to end with one of those exceptions if and only if it was before, or this step is a timeout in PROCESSING, a retryable error of plugin code in PROCESSING with attempts left, or an error of validate_config other than ScanConfigError |
| ProtocolOutcomes.StrandedForGood | backend/app/scan_engine/state_machine.py:66-68 | a scan left active by a finished run stays exactly as it is in every continuation, unless it is cancelled |
| ProtocolWitnesses.TimeoutStrands | backend/app/scan_engine/orchestrator.py:188-196 | for any limit and any attempt: a reachable history in which the timeout expires in PROCESSING and the finished run leaves the row there |
| ProtocolWitnesses.TransientStrands | backend/app/scan_engine/orchestrator.py:306-332 | for any limit and any attempt but the last: the same for a retryable error in PROCESSING |
| ProtocolWitnesses.ValidationStrands | backend/app/scan_engine/orchestrator.py:171-182 | for any limit and any attempt: the same for an unexpected error of validate_config, in PREPARING |
| ProtocolOutcomes.SuccessNeverAnnounced | backend/app/scan_engine/orchestrator.py:254-262 | a timeout between the commit of SUCCEEDED and its announcement: in every continuation the scan is SUCCEEDED, scan.completed is never published, and the run raises unless it is killed |
| ProtocolWitnesses.SuccessEscapes | backend/app/scan_engine/orchestrator.py:188-196 | for any limit and any attempt: a reachable history in which the worker task fails, its clean-up done, and its scan has SUCCEEDED |
| ProtocolWitnesses.ConfigFaultEscapes | backend/app/scan_engine/orchestrator.py:171-182 | for any limit and any attempt: a cancel between a ScanConfigError and the transition to FAILED, and StaleScanStateError leaves run |
| ProtocolWitnesses.UnregisteredEscapes | backend/app/scan_engine/orchestrator.py:115-123 | two workers that do not know the scanner and one duplicate: one fails the scan, and StaleScanStateError leaves the run of the other |
| ProtocolFutures.LateFindingsExactly | backend/app/scan_engine/orchestrator.py:248-256 | a run can still save the findings of a CANCELLED scan, in some continuation, if and only if it has made the transition to PROCESSING and its pipeline has not returned; it was PROCESSING that was cancelled then |
| ProtocolFutures.CancelledInTime | backend/app/scan_engine/orchestrator.py:277-280 | a cancel that finds the scan in any status but PROCESSING comes before all findings: no run saves any after it |
| ProtocolFutures.BoundarySeesCancel | backend/app/scan_engine/orchestrator.py:277-280 | a cancel that comes before a boundary check is seen by it: the run begins no further plugin call |
| ProtocolWitnesses.CancelledButSaved | backend/app/scan_engine/orchestrator.py:248-256 | for any limit and any attempt: a reachable history in which a scan is CANCELLED and its findings are saved after that |
| ProtocolProgress.FinishesExactly | backend/app/scan_engine/state_machine.py:36-74 | a scan can be brought to a terminal status without a cancel and without a death if and only if, QUEUED, it has an outbox row still to be sent, a message, or a run that can still claim or fail it, or, active, its claimant is alive and not bound to one of the three exceptions; and then also with nothing going wrong |
| ProtocolProgress.QueuedMayFinish | backend/app/services/scan_service.py:253-281 | a QUEUED scan can always be finished unless a delivery was lost before its claim |
| ProtocolProgress.NoPluginNoEnd | backend/app/scan_engine/orchestrator.py:125-125 | a reachable history, for any limit, in which the factory of the scanner raises: the worker task fails with the scan QUEUED, and without a cancel no continuation free of deaths ever ends it |
| ProtocolOutcomes.TruthfulLog | backend/app/scan_engine/orchestrator.py:188-212 | at most one of scan.completed, scan.failed, scan.timed_out is ever published, each the row's own status; scan.cancelled only for a CANCELLED row; at most one dead letter, only for FAILED |
| ProtocolOutcomes.ChecksFailExactly | backend/app/models/scan.py:69-95 | of all transitions any worker or cancel request asks for in any history, a CHECK refuses exactly one kind: FAILED by a worker that does not know the scanner, on a scan QUEUED and started after the stamp it writes |
| ProtocolOutcomes.StampsAreConsistent | backend/app/models/scan.py:69-95 | every row satisfies the timestamp CHECKs, each inequality spelled out; exactly the matching terminal stamp is set, if and only if the status is terminal |
| ProtocolOutcomes.StampsAreWriteOnce | backend/app/scan_engine/state_machine.py:124-127 | queued_at and started_at are written once, across all retries |
| ProtocolOutcomes.SendsAreConserved | backend/app/workers/tasks/outbox_dispatcher.py:54-105 | no outbox row is held by two dispatchers; a published row was sent; the sends for a row are at most 1 plus the dispatchers that died between its send and its commit |
| ProtocolLedger.MessagesAreConserved | backend/app/workers/tasks/outbox_dispatcher.py:54-105 | over every history: messages sent and duplicated are those on the queue, delivered and revoked, and there is one run for each delivery |
| ProtocolLedger.RowIsRecorded | backend/app/repositories/scan_outbox_repository.py:63-84 | what every step of every actor does to an outbox row: only dispatchers write it, sends, attempts, publication and deaths each in the step that is theirs |
| ProtocolOutcomes.PublishedForGood | backend/app/repositories/scan_outbox_repository.py:63-70 | published_at is never cleared, in any history |
| ProtocolOutcomes.BackoffOfALife | backend/app/scan_engine/orchestrator.py:306-330 | all countdowns of a scan's outbox rows add up to at most min(base*(2^(m-1) - 1), (m-1)*cap), m being max_attempts |
| ProtocolStamps.CancelKeepsOrder | backend/app/services/scan_service.py:157-171 | whatever happens between a request's read and its update, a scan read in a state it cannot come back to gets cancelled_at no earlier than started_at |
| ProtocolStamps.CancelOrderExactly | backend/app/scan_engine/state_machine.py:118-139 | for every row that can be read: some history lets a cancel that read it put cancelled_at before started_at if and only if it was read before its first start, QUEUED with an attempt left after the next one or PREPARING with an attempt left |
| ProtocolStamps.OnlyRequestsBreak | backend/app/scan_engine/orchestrator.py:197-210 | no step of a worker, dispatcher or queue ever breaks that order; only a cancel request's update can |
| ProtocolStamps.CancelHits | backend/app/services/scan_service.py:157-171 | the update of a cancel that read the scan QUEUED matches exactly a QUEUED row: the row it read, or the row of a later attempt |
| ProtocolStamps.UnregisteredHits | backend/app/scan_engine/orchestrator.py:115-123 | so does the FAILED of a worker that does not know the scanner, whose update checks the status only; but if the scan was started after the stamp, a CHECK refuses it, and whenever it moves nothing the worker task fails |
| ProtocolStamps.UnregisteredExactly | backend/app/scan_engine/orchestrator.py:115-123 | such a worker can fail a later attempt than the one it read, and can be refused by a CHECK, each if and only if an attempt is left after the next one |
| ProtocolStamps.CancelCanPrecedeStart | backend/app/scan_engine/state_machine.py:118-139 | a concrete reachable history, starting with creation, that ends with cancelled_at before started_at |
| ScanSystem.EveryScanIsReachable | backend/app/services/scan_service.py:106-216 | with any number of scans created, retried and worked on, every scan is a reachable slice, every retry points to a scan that ended without success and has the same limit, and no ended scan is changed by a retry or otherwise |
| ScanSystem.TracedExactly | backend/app/services/scan_service.py:192-216 | a scan is known as a retry of another exactly if it was created as one |
| ScanSystem.FromNothing | backend/app/services/scan_service.py:106-216 | so the theorems above hold of every scan of every deployment that starts empty |
| RunHistory.PastOk | backend/app/scan_engine/orchestrator.py:93-223 | every state a worker reaches by its own steps and other actors' guaranteed ones satisfies the invariant |
| RunHistory.SliceStepIsLawful | backend/app/scan_engine/orchestrator.py:93-223 | the runs of the step relation live exactly such histories, so both views of a run agree |
| RunHistory.FewSteps | backend/app/scan_engine/orchestrator.py:93-223 | at most 32 own steps in a worker's history |
| RunHistory.FinishedRun | backend/app/workers/tasks/scan_tasks.py:63-69 | what a finished worker task leaves: the scan over, or requeued with its row, or stuck with the worker task raising; scan.started in the log, and, if it ended the scan or lost it to a cancel and returned, scan.completed, scan.failed, scan.timed_out, scan.cancelled each exactly for its status; a FAILED one with its dead letter tried, and queued exactly if the send worked; its outbox row exactly if it flushed it and did not raise; cleanup exactly once or never, and when; at most one late stage, by the claimant of the last attempt; it has raised, so that its transaction is rolled back, exactly if an error arose in a step of its own that run does not handle |
| RunHistory.SaysExactly | backend/app/scan_engine/orchestrator.py:225-262 | all a finished run has published, event by event and in order: scan.started, the stages it opened, and then scan.completed, scan.failed, scan.timed_out or scan.cancelled as the row says, scan.cancelled for a run that lost to a cancel, the QUEUED progress for one that requeued, and nothing more for one that raises |
| RunHistory.DeadLetterExactly | backend/app/scan_engine/orchestrator.py:356-400 | a run that has failed its scan and returned has tried to queue the dead letter, and there is one exactly if that send worked |
| RunHistory.FlushedExactly | backend/app/scan_engine/orchestrator.py:310-332 | the outbox row of a finished run is durable if and only if the run has flushed it and has not raised |
| RunHistory.WhyItEnded | backend/app/scan_engine/orchestrator.py:184-223 | why a run that returned ended as it did: SUCCEEDED exactly if nothing was raised and the timeout did not expire, with all four plugin calls made in order and the findings saved; TIMED_OUT exactly if it expired; CANCELLED by itself exactly for the cancellation error; requeued only for a retryable error, and FAILED for one only at the last attempt; FAILED for every other error |
| RunHistory.EveryRunHasAPast | backend/app/scan_engine/orchestrator.py:93-223 | every run of every reachable slice that was not killed has a lawful history that ends in its state, so what is proved of histories holds of it |
| RunHistory.EndsAreAnnounced | backend/app/scan_engine/orchestrator.py:225-262 | in every reachable slice: a claimed run that went on has said scan.started, and one that ended its scan and returned has its status announced, and no other |
| RunHistory.RaisesExactly | backend/app/workers/tasks/scan_tasks.py:11-19 | over a whole run: an error leaves run if and only if, in some step of its own, one of the three exceptions was triggered, or the timeout came after SUCCEEDED was committed and before scan.completed was out, or the plugin could not be made, or a transition to FAILED outside the guarded block found the row changed or was stamped before its start |
| RunHistory.StuckExactly | backend/app/scan_engine/orchestrator.py:93-223 | over a whole run: it ends stuck with one of the three exceptions if and only if, in some step of its own, the timeout or plugin error of that exception came |
| Persistence.Session.Commit | backend/app/scan_engine/state_machine.py:138-139 | one commit makes row, outbox row and status change durable together |
| Persistence.ScanRepository.GetById | backend/app/repositories/scan_repository.py:41-56 | refreshes the session's one in-memory scan from the row, and finds nothing for another tenant |
| Persistence.ScanRepository.ConditionalUpdate | backend/app/repositories/scan_repository.py:110-140 | the status-guarded update is all or nothing, and raises exactly where the row it would write violates a CHECK |
| Persistence.ScanRepository.ClaimForExecution | backend/app/repositories/scan_repository.py:142-176 | the claim matches on status and attempt, and is the only writer of the attempt |
| Persistence.ScanOutboxRepository.Create | backend/app/repositories/scan_outbox_repository.py:26-37 | an outbox row is flushed unless the attempt already has one |
| Persistence.ScanStateMachine.Transition | backend/app/scan_engine/state_machine.py:95-139 | commits the decided move with everything flushed, or raises and changes nothing |
| Events.InMemoryEventBus.Publish | backend/app/scan_engine/events.py:118-128 | every subscriber is called once, in order, whichever raise; the session is committed exactly when a persisting one was called and did not raise |
| Events.InMemoryEventBus.WireSubscribers | backend/app/scan_engine/bootstrap.py:109-140 | each of the nine kinds of event gets the persister, the counter and the log, in this order |
| Orchestrator.TransitionIsStep | backend/app/scan_engine/state_machine.py:95-139 | the state machine's commit and its two errors are one step of the protocol |
| Orchestrator.RequeueIsFree | backend/app/scan_engine/orchestrator.py:310-331 | the outbox insert of a retry never violates the unique constraint |
| Orchestrator.NextDelaySeconds | backend/app/scan_engine/retry.py:37-45 | returns a delay the policy allows |
| Orchestrator.ScanOrchestrator.AssertNotCancelled | backend/app/scan_engine/orchestrator.py:277-280 | raises exactly if the refreshed scan is CANCELLED |
| Orchestrator.ScanOrchestrator.Transition | backend/app/scan_engine/state_machine.py:95-139 | each transition of the worker is a protocol step, with others acting between the clock reading and the update |
| Orchestrator.ScanOrchestrator.RunStage | backend/app/scan_engine/orchestrator.py:235-256 | boundary check, transition, progress event and plugin call end at the next stage or at the except clause for what was raised |
| Orchestrator.ScanOrchestrator.RunStages | backend/app/scan_engine/orchestrator.py:225-262 | the four stages, the pipeline and SUCCEEDED with scan.completed in the log, or the right except clause |
| Orchestrator.ScanOrchestrator.HandleFailure | backend/app/scan_engine/orchestrator.py:302-354 | classification decides between requeue and FAILED; a stale or invalid transition leaves by the right door |
| Orchestrator.ScanOrchestrator.Requeue | backend/app/scan_engine/orchestrator.py:306-346 | outbox row first, QUEUED transition second, both committed by it, and then the QUEUED progress in the log |
| Orchestrator.ScanOrchestrator.FinalizeFailed | backend/app/scan_engine/orchestrator.py:356-400 | FAILED, scan.failed in the log and a best-effort dead letter; raises what the transition raises |
| Orchestrator.ScanOrchestrator.HandleStaleState | backend/app/scan_engine/orchestrator.py:282-300 | reconciles with a cancel, with scan.cancelled in the log; the other branch is unreachable |
| Orchestrator.ScanOrchestrator.CleanUp | backend/app/scan_engine/orchestrator.py:402-407 | cleanup runs, whatever it raises |
| Orchestrator.ScanOrchestrator.RunGuarded | backend/app/scan_engine/orchestrator.py:184-223 | the nested try, except and finally end with the session as the protocol says |
| Orchestrator.ScanOrchestrator.ClaimAttempt | backend/app/scan_engine/orchestrator.py:136-143 | claims the attempt that was read, or leaves everything alone |
| Orchestrator.ScanOrchestrator.Run | backend/app/scan_engine/orchestrator.py:93-223 | executing run from delivery to its end is a history of the protocol; for another tenant's scan it takes no step, so the tables are as others left them |
| Orchestrator.ExecuteScan | backend/app/workers/tasks/scan_tasks.py:43-72 | the worker task with its final commit or rollback is a lawful history from the tables it found to the tables it leaves, for every plugin and every interference; having claimed and returned it leaves scan.started in the log and the event of the scan's end exactly for its status; it fails exactly if an error arose in a step of its own that run does not handle; for another tenant's scan a history without any step of its own |
| ScanService.CreateScan | backend/app/services/scan_service.py:106-132 | a scan with a limit of at least 1, as the request schema demands, is created QUEUED with outbox row 0 in one commit, or refused with nothing created; each refusal with its exact condition, the first that applies |
| ScanService.RetryScan | backend/app/services/scan_service.py:192-216 | a retry is a new scan with the same limit, possible exactly from FAILED, CANCELLED or TIMED_OUT; each refusal with its condition; the original is not written |
| ScanService.Enqueue | backend/app/services/scan_service.py:253-281 | the outbox row and the QUEUED row become durable together |
| ScanService.CancelScan | backend/app/services/scan_service.py:157-190 | a cancel request is the protocol's cancel step at the moment its update lands; it is granted exactly if that update matched; then the row is and stays CANCELLED, scan.cancelled is in the log, and after that at most one message is taken off the queue, if the row read had a job id |
| Dispatcher.OutboxDispatcher.DispatchOne | backend/app/workers/tasks/outbox_dispatcher.py:54-105 | exactly the oldest pending row is tried, and marked published only if the message went out, with that row's scan id and countdown; its scan gets the message's job id and never another status or attempt |
| Dispatcher.OutboxDispatcher.Publish | backend/app/workers/tasks/outbox_dispatcher.py:66-104 | every column of the row, the queue and the job id after an attempt that worked and after one that did not |
| Dispatcher.OutboxDispatcher.RunBatch | backend/app/workers/tasks/outbox_dispatcher.py:108-130 | at most n attempts, equal to the growth of attempt_count; fewer only when nothing is pending; publications in order of creation, each with one message, for the scan and with the countdown of its row |
| Dispatcher.BatchDrains | backend/app/workers/tasks/outbox_dispatcher.py:108-130 | for every pattern of queue failures, what a batch publishes is a prefix of what was pending, for good, with one message per publication |
| Dispatcher.MessagesMatchRows | backend/app/workers/tasks/outbox_dispatcher.py:66-73 | the i-th message sent has the scan id and the countdown of the i-th row published |
| Dispatcher.QueuedBackoff | backend/app/workers/tasks/outbox_dispatcher.py:66-73 | the delays of the messages that dispatching queues for a scan add up to at most the two closed forms of BackoffOfALife |
| Dispatcher.TryIsSendAndRecord | backend/app/workers/tasks/outbox_dispatcher.py:54-105 | one attempt of the loop is the protocol's send followed by its recording, its message delayed as the protocol's outbox row says, and leaves the scan row alone |
| Dispatcher.ScanOutboxRepository.ClaimNextPending | backend/app/repositories/scan_outbox_repository.py:39-61 | returns the oldest pending row, if any |
| Dispatcher.ScanOutboxRepository.MarkPublished | backend/app/repositories/scan_outbox_repository.py:63-70 | one row is marked published, in place |
| Dispatcher.ScanOutboxRepository.MarkFailedAttempt | backend/app/repositories/scan_outbox_repository.py:72-84 | one row records a failed attempt and stays pending |
| RefreshTokens.CreateKeeps | backend/app/repositories/refresh_token_repository.py:25-37 | a new family keeps the shape of all families |
| RefreshTokens.RotateKeeps | backend/app/repositories/refresh_token_repository.py:49-68 | rotating an ACTIVE token keeps the shape of all families |
| RefreshTokens.RevokeKeeps | backend/app/repositories/refresh_token_repository.py:76-104 | revoking a family or a user keeps the shape of all families |
| RefreshTokens.RevocableCounts | backend/app/repositories/refresh_token_repository.py:76-104 | a revocation changes exactly the tokens in scope that are not REVOKED yet, and the number it reports is how many they are |
| RefreshTokens.ChainReachesNewest | backend/app/models/refresh_token.py:56-59 | following replaced_by_id from any token visits the rest of its family and ends at its newest token |
| RefreshTokens.ChainIsLinear | backend/app/repositories/refresh_token_repository.py:65-66 | no two tokens are replaced by the same one |
| RefreshTokens.OneSessionPerFamily | backend/app/repositories/refresh_token_repository.py:106-117 | a family that is not revoked has exactly one ACTIVE token, its newest; all others are ROTATED |
| AuthHistories.HistoryKeeps | backend/app/services/auth_service.py:165-480 | families keep their shape, and at most one reuse is recorded for each, under every sequence of requests |
| AuthHistories.FamilyCountsRefreshes | backend/app/services/auth_service.py:270-276 | a family gains exactly one token per successful refresh of it |
| AuthHistories.FamiliesInEveryHistory | backend/app/services/auth_service.py:230-282 | from an empty table: chain length is 1 plus the successful refreshes, and a reuse is recorded at most once, only for a dead family |
| AuthHistories.ReplayKillsFamily | backend/app/services/auth_service.py:235-257 | replaying a ROTATED token leaves, after the rollback of the failed request, its whole family REVOKED plus one audit event, and nothing else changed |
| AuthHistories.DeadForGood | backend/app/services/auth_service.py:259-260 | whatever is requested later, a dead family stays dead, its reuse is not recorded again, and none of its secrets ever succeeds |
| AuthHistories.RejectionsLeaveNothing | backend/app/db/session.py:80-86 | a rejected request leaves the durable state exactly as it was, but for a replay, a failed login and a failed reset, whose records the code commits itself; a refused refresh never leaves anything else |
| AuthHistories.RevokedForGood | backend/app/services/auth_service.py:259-260 | a revoked token is never written again and is refused without effect for ever |
| AuthHistories.VersionCountsBumps | backend/app/repositories/user_repository.py:36-61 | token_version grows by exactly the epoch-ending requests that succeeded |
| AuthHistories.AcceptedWithinItsEpoch | backend/app/api/deps.py:94-112 | an access token is accepted later if and only if the user is active and no request since its issue ended the epoch |
| AuthHistories.BumpCutsOff | backend/app/services/auth_service.py:331-340 | after a password change, a password reset or a global logout, no access or refresh token issued earlier is ever accepted again |
| AuthHistories.EarlierIsOld | backend/app/services/auth_service.py:530-540 | whatever was issued earlier in a history carries no later epoch, as BumpCutsOff asks |
| AuthHistories.IssuedOnlyIfEntitled | backend/app/services/auth_service.py:165-282 | tokens are issued only to an active member, for the password, an active unexpired refresh token, or a current access token, and only for the tenant asked for (the only membership, where a login names none) |
| AuthHistories.OnlyOwnTokens | backend/app/services/auth_service.py:284-289 | a user's request never changes another user's tokens, whichever secret or token id it names |
| AuthHistories.SessionEndsForGood | backend/app/services/auth_service.py:469-473 | after a logout with one of one's own tokens, or the revocation of one of one's own sessions, no secret of that family is ever accepted again |
| AuthHistories.NewPasswordTakesOver | backend/app/repositories/user_repository.py:36-48 | from a password change or reset up to the next one, whatever else is requested, a login is refused for its credentials if and only if it does not use the new password |
| AuthHistories.OldLinksNeverWork | backend/app/repositories/verification_token_repository.py:29-65 | a reset link that was used, or superseded by the user's next request for one, is refused in every continuation |
| AuthRequests.LoginExactly | backend/app/services/auth_service.py:165-228 | each reply of a login with its exact condition on password, status and memberships; a refusal leaves at most the record of the failed login |
| AuthRequests.LoginIssues | backend/app/services/auth_service.py:207-228 | the access and the refresh token of a login are of the user, and for the tenant asked for or else the only membership |
| AuthRequests.SwitchExactly | backend/app/services/auth_service.py:304-325 | tokens are issued exactly to a member with a current access token, and both are for the tenant asked for; each refusal with its condition |
| AuthRequests.RefreshExactly | backend/app/services/auth_service.py:230-282 | a refresh succeeds exactly for an ACTIVE, unexpired token of an active member; the old token is ROTATED and points to a new one of the same family, user and tenant with a time to live of its own; each refusal with its condition |
| AuthRequests.UnknownSecret | backend/app/services/auth_service.py:230-234 | a secret no token has is refused, and nothing changes |
| AuthRequests.ReplayExactly | backend/app/services/auth_service.py:235-257 | a replay revokes exactly the family, stamps the tokens it changes, and records the reuse |
| AuthRequests.LogoutExactly | backend/app/services/auth_service.py:284-302 | a logout succeeds exactly with a current access token, and changes no token for a secret that is not of the caller |
| AuthRequests.LogoutRevokes | backend/app/services/auth_service.py:284-302 | with one of the caller's own tokens, exactly its family is revoked |
| AuthRequests.ChangePasswordExactly | backend/app/services/auth_service.py:331-350 | done exactly with a current access token, the stored password and an acceptable new one, each failing part with its error; then the new password, a new epoch and all tokens of the user REVOKED, and otherwise nothing |
| AuthRequests.RequestResetExactly | backend/app/services/auth_service.py:352-376 | an active user's request uses up the user's unexpired links and adds one with its expiry; any other changes nothing, with the same reply |
| AuthRequests.ConfirmResetExactly | backend/app/services/auth_service.py:378-414 | done exactly for a link that exists, is unused and unexpired, with an acceptable password and a user; each refusal with its condition and its record |
| AuthRequests.ConfirmResetEffect | backend/app/services/auth_service.py:396-414 | the password, the epoch, the tokens and the link after a reset |
| AuthRequests.RevokeSessionExactly | backend/app/services/auth_service.py:469-473 | a session's family is revoked exactly for its owner with a current access token |
| AuthRequests.RevokeAllExactly | backend/app/services/auth_service.py:475-480 | the epoch ends and all tokens of the user are REVOKED; the password stays |
| AuthService.RefreshTokenRepository.Rotate | backend/app/repositories/refresh_token_repository.py:49-68 | the replacement is added and the old token points to it |
| AuthService.RefreshTokenRepository.RevokeWhere | backend/app/repositories/refresh_token_repository.py:76-104 | the loop revokes exactly the tokens selected that are not revoked yet, and returns how many they were |
| AuthService.RefreshTokenRepository.ListActiveSessions | backend/app/repositories/refresh_token_repository.py:106-117 | the user's ACTIVE tokens, newest first, each once, no two of one family |
| AuthService.RefreshTokenRepository.GetByHashedToken | backend/app/repositories/refresh_token_repository.py:39-41 | finds the token with the secret, if there is one |
| AuthService.UserRepository.SetPassword | backend/app/repositories/user_repository.py:36-48 | sets the password, and ends the epoch only when asked to |
| AuthService.UserRepository.BumpTokenVersion | backend/app/repositories/user_repository.py:55-61 | ends the epoch |
| AuthService.AuthService.GetCurrentUser | backend/app/api/deps.py:94-112 | accepts exactly an active user's token of the current epoch |
| AuthService.AuthService.Login | backend/app/services/auth_service.py:165-228 | serves the request as specified; the record of a failed login is committed by itself |
| AuthService.AuthService.Refresh | backend/app/services/auth_service.py:230-282 | serves the request as specified; the revocation of a replayed family is committed by itself |
| AuthService.AuthService.Logout | backend/app/services/auth_service.py:284-302 | serves the request as specified: only the caller's own family dies |
| AuthService.AuthService.SwitchTenant | backend/app/services/auth_service.py:304-325 | serves the request as specified, so as AuthRequests.SwitchExactly says |
| AuthService.AuthService.ChangePassword | backend/app/services/auth_service.py:331-350 | serves the request as specified, so as AuthRequests.ChangePasswordExactly says: new password, new epoch, all families dead |
| AuthService.AuthService.RequestPasswordReset | backend/app/services/auth_service.py:352-376 | serves the request as specified: the new link invalidates earlier ones |
| AuthService.AuthService.ConfirmPasswordReset | backend/app/services/auth_service.py:378-414 | serves the request as specified: an invalid link is recorded by itself, a valid one is consumed |
| AuthService.AuthService.RevokeSession | backend/app/services/auth_service.py:469-473 | serves the request as specified: the family of one of the caller's own tokens dies |
| AuthService.AuthService.RevokeAllSessions | backend/app/services/auth_service.py:475-480 | serves the request as specified: all families dead and a new epoch |
| AuthService.GetDb | backend/app/db/session.py:80-86 | for every request, what is durable after commit or rollback is what the specification says |
| Fingerprint.UniqueIffSeparatorFree | backend/app/scan_engine/pipeline/fingerprint.py:19-24 | a fingerprint identifies a finding if and only if none of its four components contains the separator |
| Fingerprint.SeparatorFreeIsUnique | backend/app/scan_engine/pipeline/fingerprint.py:12-16 | a separator-free quadruple shares its key with no other quadruple |
| Fingerprint.CollidingPair | backend/app/scan_engine/pipeline/fingerprint.py:19-24 | two concrete different findings of one scanner with the same fingerprint |
| Findings.FoldInParts | backend/app/scan_engine/pipeline/pipeline.py:51-110 | processing xs + ys leaves the table that processing xs and then ys leaves |
| Findings.EventsInParts | backend/app/scan_engine/pipeline/pipeline.py:97-108 | and publishes the events of the one followed by those of the other |
| Findings.FoldByKey | backend/app/repositories/finding_repository.py:40-64 | exactly the listed keys are added; a known row keeps everything, first_seen_at included, but scan_id and last_seen_at; every other key is untouched |
| Findings.CreatedAtFirstOccurrence | backend/app/scan_engine/pipeline/pipeline.py:64-108 | an item publishes FindingCreated if and only if its key was neither in the table nor earlier in the list, and the event names the row that is in the table |
| Findings.BornAtFirstOccurrence | backend/app/repositories/finding_repository.py:48-64 | a new key's row has the project, description and other columns its first occurrence in the list reported, with its id and its first_seen_at |
| Findings.SeenAtLastOccurrence | backend/app/repositories/finding_repository.py:42-46 | last_seen_at is the time of the key's last occurrence in the list |
| Findings.SeenInOrderKept | backend/app/models/finding.py:68-68 | with a monotone clock first_seen_at never exceeds last_seen_at |
| Findings.FindingRepository.RecordDetection | backend/app/repositories/finding_repository.py:40-64 | the look-up and insert-or-update computes the upsert |
| Findings.KeySpelledOut | backend/app/scan_engine/pipeline/pipeline.py:57-62 | the key is the tenant, the asset, and scanner type, rule id, locator and description or nothing, joined by the separator |
| Findings.KeyIdentifies | backend/app/scan_engine/pipeline/pipeline.py:57-62 | a finding whose components are free of the separator has the key of another if and only if tenant, asset, scanner type, rule id, locator and description-or-empty are the same |
| Findings.FindingPipeline.Process | backend/app/scan_engine/pipeline/pipeline.py:51-110 | the loop computes the fold and its events, and returns for every item the one row object of its key: two separator-free items get the same object if and only if they are the same finding in all those fields |

## Left out

- SQL, the ORM and the broker: a conditional update is an atomic compare-and-set, SKIP LOCKED an atomic claim of an unlocked row, a send adds a message or fails, each awaited repository call is atomic together with the commit that follows it, and a failed event insert leaves the session usable.
- Failures of the database and the broker other than those named (a lost connection, a deadlock): a worker task that meets one is a death.
- Death of the whole worker process is modelled as losing the run and its flushed rows; the reaper that would resume such scans does not exist in the code.
- Timeouts land between awaited calls and inside plugin calls, not inside a repository call.
- ProtocolTheorems.NoLostWakeUp: says nothing after a worker has died or got no plugin between delivery and claim, where the code does lose the message (`ProtocolProgress.NoPluginNoEnd`).
- ProtocolOutcomes.StampsAreConsistent: orders `cancelled_at` after `queued_at` only; after `started_at` it does not always lie, and `ProtocolStamps.CancelOrderExactly` has the condition.
- Orchestrator.ScanOrchestrator.Process: the finding pipeline counts as one plugin-like step here; findings it has committed before a failure are not rolled back, and `Findings` does not model the session.
- Persistence.ScanRepository.Create: project, asset, scanner type, config, correlation id and error text of a scan are not kept; they steer nothing in the protocol.
- The event log of a scan holds the events of its own protocol; `scan.queued`, `finding.created` and `finding.updated` have their subscribers in `Events` but are not in it.
- Scan.job_id: in `Dispatcher` alone, which writes it before its commit; in `ScanService` a cancel request reads any value, and a revoke takes away any one message.
- The order of progress events across attempts: a requeuing worker's 0% event can follow the next claimant's first event, so no order holds.
- Dispatcher.OutboxDispatcher.RunBatch: one dispatcher alone, each row in its own transaction; several dispatchers, their locks and their deaths are in `Protocol`.
- AuthModel.Accepts: signature, expiry and the logout denylist of access tokens, and the tenant and role checks behind `get_current_principal`; all of them only refuse more.
- AuthModel.Serve: requests are served one after another, secrets and family ids are fresh, the hash is injective; concurrent refreshes of one token, email verification, registration and password rehash on login are not modelled.
- `RefreshTokenRepository.revoke` (one token): no service path calls it, and it would break the family shape.
- Findings.FindingPipeline.Process: no concurrent writer on the asset; audit records follow the same branch as the events and are not kept separately.
- Retry.DelayGrowsToCap: assumes a base and a cap that are not negative, as the defaults are; the settings do not enforce it, and a negative delay would fail the outbox table's CHECK on the countdown.
- Float overflow and the distribution of the jitter: delays are reals, a draw is any value in [0, delay].
- Roles and scopes, API keys, rate limiting, error sanitization, artifact storage, progress estimates, plain CRUD, migrations and the frontend: finite tables, regular expressions, I/O or easy members.
