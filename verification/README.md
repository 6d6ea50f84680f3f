# Portex services: a verified model

This project models the parts of the Portex backend whose correctness rests on
many pieces of state moving together, and proves what they are for:

- the execution coordinator with its session store: queues, workers, futures,
  cancellation, session recovery and the bounded cache of results, over every
  interleaving of its asynchronous steps;
- terminal sessions: their life between attach, detach, reconnect timers and
  bridge events, what an attached client receives, and the byte-bounded
  output history;
- the search over that history: the matcher, snippets, tag classifiers, sort
  orders, the merged timeline and paging;
- the output frame between the agent runner and its backend;
- the task scheduler with its log, and the usage and audit views.

`dafny verify dfyconfig.toml` checks everything.

## How the model is built

asyncio switches tasks only at awaits that suspend, so the code between two
such awaits is one atomic step. Each component that changes state over time
comes in three layers: step functions on a value (`CoordinatorSteps`,
`TerminalLife`, `TerminalRegistry`, `TaskScheduling`, `TaskExecution`),
invariants and theorems over all runs of those steps, and classes with the
source's fields whose methods are proved to do exactly those steps in place
(`ExecutionCoordinator`, `WorkspaceLifecycle`, `TerminalService`,
`TaskScheduler`, `TaskLogs`, `TaskExecution`). What the source leaves to the
outside becomes a parameter: run and session ids, id factories, the selection
policy, backend outcomes, clocks, the id a uuid would give, lower-casing, and
the next time of a cron expression.

Assumptions: run ids and drawn session ids are distinct; `max_completed_runs`
is not negative; backends return well-formed outcomes and do not raise
`CancelledError` on their own; a terminal bridge has one reader, which awaits
each output's handler before it reads on, as `DockerExecTerminalBridge` does
(services/terminal_bridge.py:186-195); `upsert_task` is given new task objects,
as `create_task` does (services/task_service.py:85-97). Two results,
`RetryIdIsNew` and `OneSessionPerSlot`, also assume that a backend that builds
the whole result reports the session id it was given (`Echoes`).

Where the code does less than one might expect, the model follows the code and
states exactly when the property holds:

- A run waits in the queue forever if the task awaiting `wait_for_run` is
  cancelled before the worker reaches it and nobody cancels the run itself
  afterwards: awaiting the bare future cancels it, and the worker passes over
  futures that are done (services/execution_coordinator.py:222-227, 282-284).
  A scheduled task or a message dispatch that is cancelled while it waits does
  this (services/task_service.py:210, services/message_dispatch.py:129); the
  WebSocket route does not, since it first cancels the run through the
  coordinator. See `QuiescentGroup`, `MonitorCountsQueued` and
  `WaiterCanStrandARun`.
- Session continuity holds exactly when no two requests of different groups
  share a key, which slot ids without `#` guarantee; see `ContinuityExactly`,
  `SharedKeyDisturbs` and `KeysCollideExactlyWhen`.
- A client that attaches again while a close is still shutting the bridge down
  can miss an output that was recorded for it, exactly when that close cancels
  the reader while it holds the output (`QueueCompleteExactly`,
  `CloseRaceLosesOutput`); and a session reopened after its bridge closed stays
  silent for good, as exactly the dropped sessions and those whose reader has
  stopped do (`SilentExactly`).
- A recovered session has no reconnect deadline until something uses it, so it
  does not time out (services/terminal_sessions.py:2759-2763); see
  `NoDeadlineExactly`.
- Overlapping calls of `run_pending` can run a stale due task twice, because
  `_execute_task` does not look at the task's status or planned time again; see
  `RepeatsExactly`, `SucceedsAgainExactly` and `SuccessMovesExactly` for when
  that matters, `OverlapRunsOnceTwice` and `OverlapStandsStill` for runs.
- A payload that contains a marker, or outer whitespace, does not survive the
  output frame; see `FrameRoundTrip`.

## Model

| member | source | states |
|---|---|---|
| Execution.SelectBackendTable | services/execution_policy.py:8-25 | the whole table: which modes name which backend, and that every other mode raises with its own name |
| CoordinatorPreservation.StepInv | services/execution_coordinator.py:143-374 | every step, in any interleaving, keeps the twelve dictionaries, queues and sets mutually consistent (`Inv`): submit, worker turn, task start, each backend outcome, unwinding, worker resume, cancel, cancelled waiter |
| CoordinatorInvariant.SubmitInv | services/execution_coordinator.py:143-166 | submitting a new run id keeps that invariant and gives the group a worker |
| CoordinatorInvariant.StoreStep | services/execution_coordinator.py:585-599 | storing a terminal result for a live run keeps it |
| CoordinatorInvariant.EvictsAtMostOne | services/execution_coordinator.py:590-594 | the eviction loop drops exactly the oldest of the four tables' rows, and only when one is over the cap |
| CoordinatorPreservation.TurnInv | services/execution_coordinator.py:278-302 | a worker turn keeps it, through any number of skipped, dropped and rejected entries |
| CoordinatorPreservation.StartInv | services/execution_coordinator.py:337-357 | starting the head of a queue keeps it: one task for the group, the other tables filled in step |
| CoordinatorPreservation.RejectInv | services/execution_coordinator.py:304-333 | a run whose backend selection fails, or names no backend, ends as failed and keeps it |
| CoordinatorPreservation.CallEndInv | services/execution_coordinator.py:376-445 | every backend outcome keeps it, recovery included |
| CoordinatorPreservation.FinishInv | services/execution_coordinator.py:361-374 | the worker's clean-up keeps it, whether or not a cancel landed after the task finished |
| CoordinatorPreservation.CancelQueuedInv | services/execution_coordinator.py:233-247 | cancelling a queued run keeps it |
| CoordinatorPreservation.CancelRunningInv | services/execution_coordinator.py:248-270 | cancelling a running run keeps it |
| CoordinatorPreservation.CancelAlwaysPossible | services/execution_coordinator.py:229-253 | a run shown as queued or running always has the request, backend and task that `cancel` reads, so it never falls through or raises |
| CoordinatorHistory.StatusMovesForward | services/execution_coordinator.py:143-271 | over any run, a run id's stage only moves absent, queued, running, ended, or queued straight to ended; and an ended run keeps its result |
| CoordinatorHistory.StatusShowsStage | services/execution_coordinator.py:168-169 | what `get_status` and `get_run_snapshot` show is the stage, with the request, backend and first session id of a live run, or every field of the retained result |
| CoordinatorHistory.CompletesExactlyOnce | services/execution_coordinator.py:585-599 | a run is stored as terminal at most once, and its future is set to exactly that result unless its waiter had been cancelled |
| CoordinatorResults.ResultExplained | services/execution_coordinator.py:229-502 | a step of the run ended it, and the result is the report of its last backend call, unless that step was a cancel through the coordinator or a rejection; each of the three says exactly what is reported, session id included |
| CoordinatorResults.UncancelledEndsWithLastCall | services/execution_coordinator.py:376-502 | a run that started and that nobody cancelled while it was queued or in progress ends with exactly what its last call reported: status, output, error and timeout of a result, a timeout with the request's limit, or a failure with the message raised |
| CoordinatorResults.CancelReported | services/execution_coordinator.py:229-271 | a cancelled run reports its identity and nothing else: the backend selected for it, and the id of its last call, or the id it would have been given |
| CoordinatorSubmissions.SubmittedIs | services/execution_coordinator.py:143-166 | what a group has taken in is exactly what was submitted to it, in that order |
| CoordinatorSubmissions.RecoveryTold | services/execution_coordinator.py:571-583 | a snapshot shows a recovery if and only if its run called the backend a second time, with the resume failure it was raised for, and how that second call came back |
| CoordinatorProgress.OneTaskPerGroup | services/execution_coordinator.py:278-302 | no two execution tasks of one group are ever live, also while a cancelled one unwinds |
| CoordinatorProgress.StartsFollowSubmissions | services/execution_coordinator.py:278-357 | the starts of a group are its submissions in order at the positions `StartedAt` lists, leaving out exactly the entries cancelled while queued, dropped with their waiter, or rejected |
| CoordinatorProgress.NeverStuck | services/execution_coordinator.py:273-302 | a nonempty queue has a live worker, and while work is left some step of the group is possible |
| CoordinatorProgress.OwnStepDecreases | services/execution_coordinator.py:278-374 | each step of a group's worker or task strictly decreases the group's work, a bound on the steps it can still take |
| CoordinatorProgress.OtherStepsKeepWork | services/execution_coordinator.py:143-374 | no other step, cancels and other groups included, adds to it, except a submission to the group |
| CoordinatorProgress.WorkRunsOut | services/execution_coordinator.py:278-374 | so without new submissions a group takes no more steps than its work, over any interleaving |
| CoordinatorStranding.QuiescentGroup | services/execution_coordinator.py:222-302 | with no work left the group's transient tables are empty, and a run of it has not ended if and only if its waiter was cancelled while it was queued and no cancel of the run came after that |
| CoordinatorStranding.StepKeepsStuck | services/execution_coordinator.py:278-284 | a queued run whose waiter was cancelled stays as it is under every step except a cancel of that run |
| CoordinatorProgress.IdleGroup | services/execution_coordinator.py:278-302 | with no work left only a run that the worker passed over can be left |
| CoordinatorReports.WaiterCanStrandARun | services/execution_coordinator.py:278-284 | the shortest such run: submit, cancel the waiter, one worker turn; the run stays queued with nothing left to do |
| CoordinatorReports.CacheRefinesLog | services/execution_coordinator.py:585-599 | the completed cache is exactly the last min(n, max) results of the whole completion log, in order |
| CoordinatorReports.OlderResultsAreGone | services/execution_coordinator.py:590-594 | every older result has left the cache, the statuses and the snapshots |
| CoordinatorReports.TablesAreLivePlusCached | services/execution_coordinator.py:143-166 | statuses and snapshots have exactly the live and the retained run ids, which are disjoint |
| CoordinatorReports.WaitMissesExactly | services/execution_coordinator.py:222-227 | `wait_for_run` raises exactly for ids never submitted and results already evicted, returns a retained result exactly, and awaits the future exactly of runs that have not ended |
| CoordinatorReports.CancelEnds | services/execution_coordinator.py:229-271 | `cancel` succeeds exactly for queued and running runs, ends them as cancelled at once, and otherwise changes nothing |
| CoordinatorReports.SecondCallNeedsResumeFailure | services/execution_coordinator.py:376-427 | a run calls its backend at most twice, the second time only after a session-resume failure of a non-fresh openai run |
| CoordinatorReports.MonitorShowsOneRunning | services/execution_coordinator.py:177-209 | at most one running run per group is counted, the one the group's worker awaits |
| CoordinatorReports.MonitorCountsQueued | services/execution_coordinator.py:177-209 | the queued count is the uncancelled queue entries plus the runs stranded by a cancelled waiter |
| CoordinatorSessions.SessionUndisturbed | services/execution_coordinator.py:337-357 | as long as no two known requests clash (equal keys, different groups, both executable, one of them keeping a session), from resolving its session id to its own commit or invalidate no step changes the store entry of a run's (group, slot) |
| CoordinatorSessions.KeysApart | services/execution_coordinator.py:504-505 | a live task that keeps a session then shares its workspace key with no other |
| CoordinatorCollision.SharedKeyDisturbs | services/workspace_lifecycle.py:31-32 | for any two clashing requests it fails: a reachable state in which one run's commit replaced the entry the other had resolved |
| CoordinatorCollision.ContinuityExactly | services/execution_coordinator.py:337-357 | whatever requests callers may submit, continuity holds in every reachable state if and only if no two of them clash |
| CoordinatorCollision.CleanSlotsAreContinuous | services/conversation_slot_service.py:12 | slot ids the slot service accepts never clash |
| CoordinatorCollision.HashCanClash | services/workspace_lifecycle.py:31-32 | with `#` in a slot id two requests can |
| CoordinatorSessions.RetryIdIsNew | services/execution_coordinator.py:400-406 | if backends report the id they were given and the factory never repeats itself, the retry id differs from every id the store ever held for that key and from every id a task of that key was ever given |
| CoordinatorSessions.OneSessionPerSlot | services/execution_coordinator.py:507-524 | if backends report the id they were given, with no fresh requests and no resume failures every openai call of a slot gets the slot's bare key |
| CoordinatorFreshIds.FreshIdIsNew | services/execution_coordinator.py:507-524 | if drawn ids never repeat, a fresh run on a backend that keeps no sessions gets an id that no such run of its key has had before, nor ever the bare key |
| CoordinatorFreshIds.PlainUsesKey | services/execution_coordinator.py:507-524 | without a fresh session such a backend is always given the slot's bare key |
| ExecutionCoordinator.Coordinator.constructor | services/execution_coordinator.py:116-141 | the empty tables satisfy the invariant |
| ExecutionCoordinator.Coordinator.SubmitExecution | services/execution_coordinator.py:143-166 | in place: exactly the step `Submit`, invariant kept; the run waits at the end of its group's queue |
| ExecutionCoordinator.Coordinator.EvictStaleRuns | services/execution_coordinator.py:590-594 | in place: the eviction loop over the four tables |
| ExecutionCoordinator.Coordinator.StoreTerminalResult | services/execution_coordinator.py:585-612 | in place: record, mark the snapshot, evict, resolve the future, forget the request |
| ExecutionCoordinator.Coordinator.ResolveSessionId | services/execution_coordinator.py:507-524 | in place: the id and the store after the preview |
| ExecutionCoordinator.Coordinator.RunGroupQueue | services/execution_coordinator.py:278-302 | in place: the worker loop up to its next suspension is exactly `Turn`, invariant kept |
| ExecutionCoordinator.Coordinator.ExecuteNext | services/execution_coordinator.py:280-357 | in place: one iteration skips, drops, rejects or starts |
| ExecutionCoordinator.Coordinator.ResumeWorker | services/execution_coordinator.py:361-374 | in place: clean-up, store unless cancelled, then the next turn |
| ExecutionCoordinator.Coordinator.StartCall | services/execution_coordinator.py:386-393 | in place: the task enters its first backend call |
| ExecutionCoordinator.Coordinator.Unwind | services/execution_coordinator.py:256-258 | in place: a requested cancellation reaches the task |
| ExecutionCoordinator.Coordinator.HandleOutcome | services/execution_coordinator.py:387-445 | in place: from one backend outcome to the next call or the end; a retry exactly for a resume failure of a non-fresh openai run, which invalidates its key, else a result that reports exactly the outcome, and a commit exactly for a completed openai run |
| ExecutionCoordinator.Coordinator.CancelRun | services/execution_coordinator.py:229-271 | in place: exactly `Cancel`; true if and only if the run was queued or running, and then it has ended as cancelled and reports what it should |
| ExecutionCoordinator.Coordinator.AbandonWaiter | services/execution_coordinator.py:222-227 | in place: the awaited future is cancelled and stays in the dictionary |
| ExecutionCoordinator.Coordinator.WaitForRun | services/execution_coordinator.py:222-227 | a miss exactly for unknown ids and evicted results, else the run's result if it has ended, else its future |
| ExecutionCoordinator.Coordinator.MonitorQueueSnapshot | services/execution_coordinator.py:177-209 | one row per group with live runs, counting exactly its queued and its running runs, and naming a run, with the backend it runs on, if and only if it is running |
| WorkspaceLifecycle.KeysCollideExactlyWhen | services/workspace_lifecycle.py:31-32 | two (group, slot) pairs share a key if and only if they are equal or one group swallows the other's separator |
| WorkspaceLifecycle.KeysInjectiveWithoutHash | services/conversation_slot_service.py:12 | keys are injective for slot ids the slot service accepts |
| WorkspaceLifecycle.PreviewsInvisible | services/workspace_lifecycle.py:46-82 | previews never change what `get_state` reports |
| WorkspaceLifecycle.CommittedForever | services/workspace_lifecycle.py:60-71 | once committed or invalidated a key stays so |
| WorkspaceLifecycle.BareKeyNeverReissued | services/workspace_lifecycle.py:46-71 | after that the bare key is issued again only when it is the committed id itself, or by the factory |
| CoordinatorBareKeys.SettledBy | services/execution_coordinator.py:400-445 | an openai run that completes commits its key and one that retries invalidates it; either way the key is settled |
| CoordinatorBareKeys.BareKeyStaysRetired | services/execution_coordinator.py:337-427 | from then on in any run of the coordinator, a task started later, a retry or a peek gets the bare key only if it is the committed id and the request is not fresh |
| WorkspaceLifecycle.WorkspaceSessionStore.Preview | services/workspace_lifecycle.py:46-58 | in place: the id and the store of `PreviewSessionId` |
| WorkspaceLifecycle.WorkspaceSessionStore.Commit | services/workspace_lifecycle.py:60-64 | in place: the committed entry |
| WorkspaceLifecycle.WorkspaceSessionStore.Drop | services/workspace_lifecycle.py:66-71 | in place: the invalidated entry |
| TerminalLife.MoveOk | services/terminal_sessions.py:589-890 | every step of one session keeps its invariant: status implications, timers, reader, history and delivery |
| TerminalLife.AttachOk | services/terminal_sessions.py:600-625 | a new queue starts with the history of exactly that moment |
| TerminalLife.HearOutputOk | services/terminal_sessions.py:810-814 | recording an output makes it due to the current queue, held by its handler until put |
| TerminalLife.PutOutputOk | services/terminal_sessions.py:833-835 | the second half hands exactly that output to the captured queue, even after a detach and re-attach |
| TerminalRegistry.ApplyInv | services/terminal_sessions.py:278-756 | every entry point, timer and bridge event keeps all sessions' invariants and the agreement of the two maps |
| TerminalRegistry.RecoverInv | services/terminal_sessions.py:2752-2776 | a recovered service satisfies it, whatever snapshots were found |
| TerminalRegistry.ReachableShape | services/terminal_sessions.py:278-756 | in every reachable state: a deadline implies detached, attached implies a queue, a queue implies attached or exited, and both maps hold the same sessions, one per workspace |
| TerminalRegistry.EventIsMove | services/terminal_sessions.py:278-756 | an event steps a session by at most one of its moves, or creates it |
| TerminalOwners.OnlyTheOwnerChanges | services/terminal_sessions.py:589-783 | over any run a session is changed only by an attach, detach or close of its owner, a force close of its workspace, its replacement once it is over, its own timers and its bridge |
| TerminalOwners.EveryStepShows | services/terminal_sessions.py:589-890 | at every step of every run, what the record and the bridge then are: status, deadline, attach time, queue and timer after each entry point, timer and bridge event, and unchanged otherwise |
| TerminalOwners.RecoversExactly | services/terminal_sessions.py:2752-2776 | a restart recovers exactly the active snapshots that come first for their workspace and id, each detached, under its own names, with its stored output and without a deadline |
| TerminalRuns.TimerClosesOnlyUndisturbed | services/terminal_sessions.py:864-883 | with a strictly increasing clock a timer closes its session only if nothing used the session since the detach that made it, even if cancelled timers could wake up |
| TerminalRuns.ArmedTimerClosesOnlyUndisturbed | services/terminal_sessions.py:781-785 | without any assumption on the clock the same holds for a timer whose cancellation was never requested |
| TerminalRuns.DeadlineWillClose | services/terminal_sessions.py:662-671 | a session has a deadline if and only if it has an armed timer that will close it |
| TerminalRuns.NoDeadlineExactly | services/terminal_sessions.py:2759-2763 | a detached session has no deadline, and so never times out, if and only if it was recovered and nothing has used it since |
| TerminalRuns.DeliveredExactlyOnce | services/terminal_sessions.py:589-626 | a queue receives the history retained at its attach followed by every later output, in order and exactly once, until replaced or cleared; only the last may be with a suspended handler or lost, and lost only to a close |
| TerminalRuns.OutputLostExactly | services/terminal_bridge.py:160-180 | the helper behind the next row: the model notes a handler as lost if and only if a close cancelled the reader while that handler held its output |
| TerminalRuns.QueueCompleteExactly | services/terminal_sessions.py:589-626 | at any later point of a run at which no handler holds an output for it, a queue has received everything it is due if and only if no close has cancelled the reader while its handler held an output for that queue |
| TerminalRuns.CloseRaceLosesOutput | services/terminal_bridge.py:160-180 | the close that loses one: re-attaching while the bridge is still closing, a recorded output never reaches the current queue |
| TerminalRuns.StoppedForGood | services/terminal_sessions.py:597-625 | the single step behind the next row: no move brings a dead session (dropped, or with a bridge whose reader has stopped) back, or records an output for it |
| TerminalRuns.SilentExactly | services/terminal_sessions.py:597-625 | after any run a session never records another output, however the run goes on, if and only if it has been dropped or has a bridge whose reader has stopped; every other session has a continuation that records one |
| TerminalRuns.HistoryNeverMisses | services/terminal_sessions.py:843-862 | in every reachable state the history is the longest fitting suffix of all outputs, the counter its UTF-8 length, and `truncated` exact |
| TerminalNotices.ReportsArrive | services/terminal_sessions.py:805-841 | the output log that delivery and history are measured against is what the bridge reported, in order; and a queue has received exactly the errors reported while it was current |
| TerminalNotices.ExitsDeliveredExactlyOnce | services/terminal_sessions.py:815-838 | for every queue and exit code, the exits received, those held by suspended handlers and those dropped with a cancelled reader are exactly the exits reported while the queue was current |
| TerminalNotices.ExitMissingExactly | services/terminal_sessions.py:815-838 | so a queue lacks an exit if and only if a handler still holds it or a close cancelled the reader while one held it |
| TerminalService.ManagedSession.AppendOutputHistory | services/terminal_sessions.py:843-862 | in place: the append and its eviction loop |
| TerminalService.ManagedSession.Attach | services/terminal_sessions.py:600-626 | in place: the lock section of `attach_session` |
| TerminalService.ManagedSession.Detach | services/terminal_sessions.py:662-672 | in place: the lock section of `detach_session` |
| TerminalService.ManagedSession.Close | services/terminal_sessions.py:744-752 | in place: the lock section of `close_session` |
| TerminalService.ManagedSession.Expire | services/terminal_sessions.py:866-880 | in place: a timer after its sleep |
| TerminalService.ManagedSession.HearOutput | services/terminal_sessions.py:810-814 | in place: the lock section for an output |
| TerminalService.ManagedSession.HearExit | services/terminal_sessions.py:815-823 | in place: the lock section for an exit |
| TerminalService.TerminalSessionService.CreateSession | services/terminal_sessions.py:268-307 | in place: refused for the modes that are not served and for a session of another owner that is not over; reused for one's own; else a new one under both maps, replacing the one that is over |
| TerminalService.TerminalSessionService.Recovered | services/terminal_sessions.py:2752-2776 | in place: the recovery loop |
| TerminalService.TerminalSessionService.AttachSession | services/terminal_sessions.py:589-626 | in place: not found exactly for an id that is not in the map, not the owner exactly for a session of another owner, and both leave everything as it was; else exactly the attach; the caller has to start a bridge exactly if there was none |
| TerminalService.TerminalSessionService.DetachSession | services/terminal_sessions.py:652-675 | in place: not found exactly for an id that is not in the map, not the owner exactly for a session of another owner, and both leave everything as it was; else exactly the detach |
| TerminalService.TerminalSessionService.CloseSession | services/terminal_sessions.py:735-756 | in place: not found exactly for an id that is not in the map, not the owner exactly for a session of another owner, and both leave everything as it was; else exactly the close |
| TerminalService.TerminalSessionService.CloseSessionByGroup | services/terminal_sessions.py:703-714 | in place: likewise through the by-group map |
| TerminalService.TerminalSessionService.ForceCloseSessionByGroup | services/terminal_sessions.py:716-733 | in place: close without the owner check |
| TerminalService.TerminalSessionService.ExpireDetached | services/terminal_sessions.py:864-883 | in place: a timer may find its session gone |
| TerminalService.TerminalSessionService.FailStart | services/terminal_sessions.py:631-643 | in place: the clean-up of an attach whose bridge did not start |
| TerminalService.TerminalSessionService.HandleOutput | services/terminal_sessions.py:805-814 | in place: an output of a session that is gone is ignored |
| TerminalService.TerminalSessionService.HandleExit | services/terminal_sessions.py:805-823 | in place: an exit cancels the timer and the deadline |
| OutputHistory.EncodePoint | services/terminal_sessions.py:848-850 | at most four bytes, and none exactly for surrogates (section 3 of RFC 3629, errors ignored) |
| OutputHistory.EncodingReadsBack | services/terminal_sessions.py:848-850 | read by lead bytes the encoding gives back the text, but for the surrogates it ignores |
| OutputHistory.AppendRefines | services/terminal_sessions.py:843-860 | appending chunk by chunk gives the longest suffix of the whole log that fits, its size, and the truncation mark |
| OutputHistory.FittingIsLongest | services/terminal_sessions.py:857-860 | that suffix fits, and no longer one does |
| OutputHistory.CounterIsOutputSize | services/terminal_sessions.py:885-893 | the counter is the UTF-8 length of the joined output; truncated if and only if a chunk was dropped, for a positive cap; nothing is kept for a cap of zero |
| OutputHistory.ClampIsDead | services/terminal_sessions.py:861-862 | the clamp of a negative counter never applies |
| OutputHistory.OversizedChunkEmpties | services/terminal_sessions.py:857-860 | a chunk larger than the cap leaves the history empty and marked |
| SearchMatcher.FindMatchOffsets | services/terminal_sessions.py:2681-2695 | the offsets are true matches, in order, none overlapping, and every other match overlaps a listed one from the right |
| SearchMatcher.ScanIsUnique | services/terminal_sessions.py:2681-2695 | only one list meets that description |
| SearchMatcher.MatchCountIsMaximum | services/terminal_sessions.py:2681-2695 | no set of pairwise non-overlapping matches is larger |
| SearchMatcher.BuildSearchSnippets | services/terminal_sessions.py:2697-2722 | each snippet is exactly the text without what lies further than the context from its match, with an ellipsis for each side that was cut; and shows its match at offset minus start, after the ellipsis if there is one |
| TagClassifiers.ScanForPayload | services/terminal_sessions.py:2302-2307 | the cursor loop finds out whether anything but whitespace follows on the line |
| TagClassifiers.ClassifiersAre | services/terminal_sessions.py:2172-2550 | all classifiers as one table: a bracketed word is an exact tag if and only if its bracket starts a line and what follows is of some class, and each classifier finds exactly the tags of its class |
| TagClassifiers.TagsAreBracketed | services/terminal_sessions.py:2172-2209 | and nothing else is an exact tag |
| TagClassifiers.WordsAre | services/terminal_sessions.py:2128-2170 | the classifiers of plain words, by what stands before and after the word |
| TagClassifiers.TagPartition | services/terminal_sessions.py:2188-2484 | every exact tag is a colon marker, a dash marker, or of exactly one of the six plain classes |
| TagClassifiers.MarkerSplit | services/terminal_sessions.py:2211-2238 | a marker has exactly one of the two kinds, and markers and plain tags split the exact tags |
| TagClassifiers.PlainSplit | services/terminal_sessions.py:2266-2484 | the five classes other than single-space split the non-single-space tags |
| TagClassifiers.BracketPartition | services/terminal_sessions.py:2240-2550 | every exact tag has exactly one bracket kind, as a marker or plain |
| TagClassifiers.CountsAddUp | services/terminal_sessions.py:1596-2126 | for any text and offsets the class counts add up to the exact-tag count |
| TagClassifiers.BracketCountsAddUp | services/terminal_sessions.py:1691-2066 | and so do the counts per bracket |
| TagClassifiers.DifferencesNonNegative | services/terminal_sessions.py:1521-1533 | the differences the candidate is built from are never negative, so clamping changes nothing |
| TagClassifiers.FirstIsLeast | services/terminal_sessions.py:1596-1605 | the reported first offset is the least hit |
| Timeline.DedupeTimeline | services/terminal_sessions.py:1076-1093 | one entry per session id, the newest, ties going to the earlier source; no session is missing |
| Timeline.TimelineDescends | services/terminal_sessions.py:1095-1118 | the merged timeline strictly descends in time and then id, whatever order the merge listed it in |
| Timeline.FilterHistorySnapshots | services/terminal_sessions.py:1120-1163 | crossing bounds are refused; otherwise the filtered list |
| Timeline.FilteredIs | services/terminal_sessions.py:1120-1163 | filtering keeps exactly the entries with the given status, owner, id prefix and time bounds, in order |
| Timeline.SearchOrderCanonical | services/terminal_sessions.py:2594-2679 | each search order is a permutation that does not depend on the input's order: by relevance key, by latest or by earliest time, with more matches before fewer, and by id at last |
| Sorting.SortIsCanonical | services/terminal_sessions.py:1113-1117 | the stable sort by a strict order gives the only sorted arrangement |
| Timeline.PagesReproduceList | services/terminal_sessions.py:443-451 | following `has_more` reproduces the list, each entry once and in order, and it is set exactly while something is left |
| RunnerFrame.WriteOutput | container/agent-runner/src/runner.py:58-72 | in place: the stream gains the frame around the payload, or the payload and a newline |
| RunnerFrame.FrameRoundTrip | services/execution_backends.py:64-70 | for any output before, and any after without a start marker, extraction gives back the payload if and only if it contains neither marker and has no outer whitespace |
| RunnerFrame.UnframedRoundTrip | services/execution_backends.py:72-75 | without a frame, if and only if it is nonempty, trimmed, and does not contain both markers |
| Strings.StripIs | services/execution_backends.py:70 | stripping removes exactly the outer whitespace |
| Strings.NonBlankIs | services/usage_audit.py:118-122 | a blank string counts as none, and any other as its trimmed core |
| TaskScheduling.CatchUpClosedForm | services/scheduler.py:116-123 | the catch-up loop gives the anchor if it lies ahead, else anchor + ((now - anchor) div interval + 1) * interval, the least time after now on the anchor's lattice |
| TaskScheduling.StepInv | services/scheduler.py:59-111 | every step of any overlapping passes keeps: running ids are those in flight, executions are accounted for, planned times stay on phase |
| TaskRuns.NeverInFlightTwice | services/scheduler.py:91-103 | no task id is in flight twice, and the running set is exactly the ids in flight |
| TaskRuns.BegunAreAccountedFor | services/scheduler.py:91-103 | every execution that began has ended or is in flight |
| TaskRuns.OnlySuccessChanges | services/scheduler.py:91-111 | a task object is changed by nothing but the return of its own execution |
| TaskRuns.FailureChangesNothing | services/scheduler.py:96-103 | a failed or cancelled execution leaves every task as it was, and its id is neither running nor in flight any more |
| TaskRuns.IntervalNeverDrifts | services/scheduler.py:105-123 | over its whole life an interval task's planned time stays on its first phase and never moves back |
| TaskRuns.SuccessMovesExactly | services/scheduler.py:105-123 | in any run a success moves an interval task strictly forward, to the least lattice time after now, if and only if its planned time has come; otherwise it stays |
| TaskRuns.SuccessMovesForward | services/scheduler.py:105-123 | with passes that do not overlap and a clock that does not run backwards, that is every success |
| TaskRuns.SuccessAdvances | services/scheduler.py:105-132 | in any run, what a success makes of its task: a once task is done without a planned time, an interval task is at the least lattice time after now, a cron task at the time its expression gives after the planned one |
| TaskRuns.CronFollowsSuccesses | services/scheduler.py:105-132 | over any run a cron task's planned time is the one its expression gives as many times on as the task has succeeded, and nothing else about it changes |
| TaskRuns.CronMovesForward | services/scheduler.py:125-127 | so with an expression that always gives a later time, the planned time moves forward if and only if the task has succeeded |
| TaskRuns.OverlapStandsStill | services/scheduler.py:59-69 | a run of overlapping passes in which a success does not advance an interval task |
| TaskRuns.RepeatsExactly | services/scheduler.py:91-109 | in any run a once task being executed has already succeeded if and only if it is no longer active |
| TaskRuns.SucceedsAgainExactly | services/scheduler.py:91-109 | a once task succeeds more than once if and only if some execution of it returned while it was no longer active |
| TaskRuns.OnceSucceedsAtMostOnce | services/scheduler.py:105-109 | with passes that do not overlap it succeeds at most once, and is then completed |
| TaskRuns.OverlapRunsOnceTwice | services/scheduler.py:59-69 | a run of overlapping passes in which a once task succeeds twice |
| TaskExecution.OneLogPerAttempt | services/task_service.py:159-192 | over any interleaving the log of each task holds exactly one entry for each of its executions that returned or raised, in order, with ids never used twice, and the success logs are the schedule advances |
| TaskExecution.AttemptTells | services/task_service.py:159-192 | an executor that ends adds one attempt: of the task its pass took up at some earlier step, with the time of that step, the duration measured, and what it returned or raised |
| TaskExecution.OnlyExecutorsAttempt | services/task_service.py:159-192 | and nothing else adds an attempt or a log |
| TaskExecution.TaskService.ExecuteTask | services/task_service.py:159-192 | in place: one log with exactly what the executor returned or raised, then a return or the exception again; a cancellation passes through unlogged |
| TaskExecution.CoercedOutcome | services/task_service.py:218-225 | a scheduled run's result counts as a success exactly when it completed, and its log then has the output; otherwise its log has the error, or a default for its status, and the status timeout or error |
| TaskExecution.SchedulerRuns | services/scheduler.py:91-103 | with the wrapper as executor the scheduler's runs are runs of the scheduler alone |
| TaskScheduler.Scheduler.ComputeNextRun | services/scheduler.py:113-132 | in place: the catch-up loop by its closed form for an interval, the expression's next time after the planned one for cron, none for once |
| TaskScheduler.Scheduler.MarkTaskAfterSuccess | services/scheduler.py:105-111 | in place: a once task is completed; any other keeps its status and is planned again, by the same rules |
| TaskScheduler.Scheduler.UpsertTask | services/scheduler.py:41-45 | in place: exactly the step; refused untouched exactly for an interval that is not positive or a once task without a time, else planned unless it has a time, and entered |
| TaskScheduler.Scheduler.RemoveTask | services/scheduler.py:47-48 | in place: exactly the step, true if the id was there |
| TaskScheduler.Scheduler.StartPass | services/scheduler.py:59-66 | in place: exactly the step; the list holds exactly the active tasks that are not running and whose time has come, by time and then id |
| TaskScheduler.Scheduler.BeginTask | services/scheduler.py:91-95 | in place: exactly the step, starting only a task not in flight |
| TaskScheduler.Scheduler.FinishTask | services/scheduler.py:96-103 | in place: exactly the step, advancing only on a return and releasing the id, and no other, always |
| TaskScheduler.Scheduler.EndPass | services/scheduler.py:68-69 | in place: a pass that has no due task left ends, and nothing else changes |
| TaskLogs.RecordIsNew | services/task_log_service.py:17-38 | recording adds one entry with an id no entry has and touches no other task's log |
| TaskLogs.ListingIsNewest | services/task_log_service.py:40-47 | a listing is strictly newest first, each entry once, as many as asked for, and all it leaves out is older |
| TaskLogs.TaskLogService.RecordLog | services/task_log_service.py:17-38 | in place: exactly the step `Record`; the entry as given, with a new id, at the end of its task's log |
| TaskLogs.TaskLogService.ListLogs | services/task_log_service.py:40-47 | the newest entries of that task only, by time and then id, as many as asked for |
| TaskLogs.TaskLogService.Reset | services/task_log_service.py:49-51 | in place: empty, ids start over |
| UsageAudit.NormalizeDays | services/usage_audit.py:92-93 | between 1 and 365, unchanged within, the nearer bound outside |
| UsageAudit.NormalizeLimit | services/usage_audit.py:96-97 | between 1 and 200, unchanged within, the nearer bound outside |
| UsageAudit.GroupIs | services/usage_audit.py:136-143 | a named folder wins; else a web chat is its name without the prefix, and any other chat is itself |
| UsageAudit.ChannelIs | services/usage_audit.py:125-133 | a known channel that is named wins, else the chat's prefix decides |
| UsageAudit.DayIs | services/usage_audit.py:187-190 | a message falls on the day whose seconds it lies in |
| UsageAudit.Aggregate | services/usage_audit.py:175-208 | the counting loop: every bucket describes exactly the messages of its day or channel |
| UsageAudit.GetUsageStats | services/usage_audit.py:175-241 | one row per day and per channel that has messages, with the numbers of its messages, of its distinct runs, and of those from and from outside the assistant; days ascending, channels busiest first and then by name |
| UsageAudit.CountsAre | services/usage_audit.py:193-206 | the user and assistant counts are the numbers of messages not from and from the assistant, and the run set is that of the nonblank run ids |
| UsageAudit.UnderIs | services/usage_audit.py:187-208 | the messages under a day or a channel are those that have it, each as often as there is one |
| UsageAudit.SumsAreTotals | services/usage_audit.py:187-208 | over all values of any key the sums are the totals, and the union of the run sets is the run set |
| UsageAudit.DailyConserves | services/usage_audit.py:210-239 | daily counts sum to the totals, user plus assistant make up every row and the summary, and total runs is the size of the union of the daily run sets |
| UsageAudit.ChannelsConserve | services/usage_audit.py:221-239 | channel counts sum to the total, and their run sets unite to all runs |
| UsageAudit.AtMostThreeChannels | services/usage_audit.py:125-133 | every message falls under one of the three known channels |
| UsageAudit.ListAuditMessages | services/usage_audit.py:249-291 | the pushed-down limit and the early break give the items and `has_more` of filtering everything and then cutting off |
| UsageAudit.MatchingIs | services/usage_audit.py:262-275 | the matching messages are those of the group, each as often as the table has it |

## Left out

- Timestamps of run snapshots, and so the order of `list_run_snapshots`
  (services/execution_coordinator.py:211-214): a sort by creation time over the modelled snapshots.
- The monitor's rows are a map from group to row; the source lists the same rows sorted by group.
- The guard around `_execute_request` (services/execution_coordinator.py:287-301): unreachable under the
  assumptions on backends above, and so is a worker that dies of an exception.
- `_best_effort_backend_cancel` and the backends' own processes and containers: they touch no coordinator state.
- Run ids reused by a caller: the coordinator would overwrite its tables, which the model excludes by assumption.
- Persistence of terminal snapshots and their JSON form: snapshots that were read back are given lists, and writing is a suspension without effect on memory.
- `send_input` and `resize` of terminal sessions: they only pass data to the bridge.
- Output queues, timers and bridge readers of terminal sessions are numbered parts of a session's surroundings, not objects of their own; what a client takes off a queue is not removed from the model's record of it.
- The second half of `_handle_bridge_event` (services/terminal_sessions.py:827-841) and its error events are steps of the model but not methods of the service class, since they touch no field of the service.
- The order and sign of the roughly sixty numeric parts of the relevance key (services/terminal_sessions.py:2602-2660): one list of integers per hit, compared in turn, followed by the session id.
- Match density as a floating-point number: a component of that list.
- The search entry point's argument checks and `get_history_snapshot_by_group`: single branches over the modelled lists.
- Parsing of the runner's JSON payload (services/execution_backends.py:78-127), of schedule values and the normalizing of request fields in `create_task`: library parsers with a table of cases around them.
- Cron expressions: an uninterpreted function of expression and anchor.
- The start, sleep and stop loop of the scheduler (services/scheduler.py:71-86): repeated calls of `run_pending`; passes may begin at any time in the model.
- `TaskService.reset` while a task is in flight (services/task_service.py:117-120): the old scheduler's passes end on their own and log to the cleared log.
- The time window and the order of the usage query (services/usage_audit.py:159-173, 254-259): done by the database, the messages are given as it returns them.
- Attachment JSON of messages: given parsed.
- HTTP and WebSocket routes, permissions, settings, skills, memory, channels and the web front end.
