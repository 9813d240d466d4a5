# A verified model of the server's control plane

The server lets several Agents work in shared Projects, alone or as an orchestrated team. This project models
the parts of it whose correctness depends on order: who may write to a Project and when, how a session of a team
is started, stopped, continued and recovered, how the engine dispatches its participants, how a prompt is fitted
into its limit, how a run is cleaned up, and how the Permit directory and its one-time approvals are kept in line
with the repository. Each main result holds for every input, every run, or every interleaving of the actors.

How the model is laid out:

- `Store` is the JSON store: a queue of mutations, each on a copy of the committed data, written, renamed and then
  published. Every protocol below takes its atomic steps from it.
- `Leases`, `LeaseCoordinator` and `WriterProtocol` are the single-writer protocol of Projects. A step of the
  machine is a stretch of code without an `await`; a mutation that awaits an authorization is two steps, and the
  write of its result is a third. `ProjectExecution` is the bracket around one turn, run against a store on which
  the others are at work; what they may do to it is proved in `WriterProtocol`. `MoveOutcomes` and `WriterRuns` say what
  an archive, a deletion, a rollback, an acquire and a release come to. `ProjectRollback` is the purge of a
  deletion and the compensation of a failed archive or deletion, over all collections.
- `Journal`, `Lifecycle` and `SessionRecords` are the sessions: what each mutation makes of a session and its
  journal, the runs of all sessions with their runners and restarts, and the same mutations as they update the
  records in place. `SessionOutcomes` says what each mutation comes to on stored data, and `FullJournal` is one run that
  fills a journal.
- `StopHandshake` is the race between a stop and a run that is just being accepted; `StopRuns` is the runner from end
  to end.
- `Roster` and `Engine` choose and dispatch participants.
- `Text`, `Escaping`, `Handoff`, `PromptRendering` and `PromptFitting` build the prompt of the next
  participant; `PromptReading` and `PromptFields` read it back.
- `LineSplitter` is the parser of a child process's output.
- `RunCoordinator` is one execution of a run, with fallback, cancellation and cleanup.
- `Directory` and `Reconciler` bring the Permit directory in line; `Approvals` are the one-time approvals, and
  `ApprovalHistory` is what a granted one went through.

Where the code does not do what one would expect, the model follows the code and says exactly when:

- A cancellation that is registered after a run has thrown, but before its terminal record is written, is lost: the
  run ends as failed (`RunCoordinator.CancelCountsIffInTime`).
- The recovery at boot fails as a whole when one active session has a full journal
  (`Lifecycle.BootFailsIffAJournalIsFull`), such a session can be reached (`FullJournal.JournalFills`), and nothing
  ever ends or deletes it (`Lifecycle.StuckForever`).
- The rollback of a failed archive drops the sessions created since its snapshot but keeps their turns, events and
  prompts (`ProjectRollback.RestoreLeavesNoOrphansIff`, with an input in `ProjectRollback.LateSessionLeavesOrphan`);
  behind a purge those are lost instead (`ProjectRollback.RestoreForgetsPurgeIff`).
- A listing that names a correct assignment twice makes the reconciler take it away
  (`Directory.ConvergesIffNothingExpectedRepeats`).
- More than one turn of the shared conversation can be cut. What cutting the newest turn that does not fit leaves of
  the budget is offered to the older ones, and something is left exactly when the budget is one character more than
  the marker, or larger and the cut ends with a space (`Handoff.NothingLeftIff`, `Handoff.AtMostOneCutIff`,
  `Handoff.AtMostOneCutAlwaysIff`, with an input in `Handoff.TwoTurnsAreCut`).
- A task full of special characters can be clipped with room to spare, since it is measured before it is escaped
  (`PromptFitting.EscapingCanForceClipping`).
- A completed run makes its Agent ready even if the Agent was marked as stopped meanwhile, and no other outcome does
  (`RunCoordinator.StoppedAgentStaysIff`, with an input in `RunCoordinator.CompletionRevivesAgent`).
- A consume of an operation for which no approval is known returns true, and so it does again when a spent approval
  was purged (`Approvals.UnclaimedIff`, with an input in `Approvals.PurgeAllowsAnotherTrue`).

## Model

| member | source | states |
|---|---|---|
| WriterProtocol.OneWriterPerProject | apps/server/src/projects/project-execution.ts:64-110 | over every interleaving of acquires, releases, archives, deletions, rollbacks, crashes and restarts: at most one lease per Project, and two turns that hold a lease on the same Project are the same turn, whose lease is the one in the store |
| WriterProtocol.ArchivedProjectHasNoWriter | apps/server/src/projects/project-service.ts:334-347 | in every reachable state a Project that is archived or deleted has no lease, and no turn holds one on it; that an archive makes it so is MoveOutcomes.MovesChangeStatus |
| WriterProtocol.MovesTouchNoLease | apps/server/src/projects/project-service.ts:306-364 | what an archive, a deletion or the rollback of either commits has exactly the leases that were there: the defensive filter drops nothing and the rollback never erases the lease of a live turn |
| WriterProtocol.NoGrantWhileMoving | apps/server/src/projects/project-service.ts:327-331 | as long as a move may still be rolled back no lease of its Project is committed, and none can be granted |
| WriterProtocol.NoLeaseOutlivesItsTurn | apps/server/src/projects/project-write-lease-coordinator.ts:147-169 | in every reachable state each lease in the store is that of a turn which holds it, or whose release could not be written: a run that waits, has ended or was never heard of has none |
| WriterProtocol.OthersKeepRunLeasesThroughout | apps/server/src/projects/project-write-lease-coordinator.ts:102-169 | however much the others do between two steps of a turn, the leases of its run stay as they are and no Project gets a second one |
| WriterProtocol.WithoutBarrierTwoWriters | apps/server/src/orchestration/orchestration-service.ts:552-564 | the trailing mutation of stopping the conversations is needed: without it an explicit run ends with two live turns on one Project, the lease of the first erased by the rollback |
| WriterProtocol.StepKeeps | apps/server/src/projects/project-write-lease-coordinator.ts:102-169 | every step of every actor keeps the invariant: one lease per Project, leased Projects active, holders recorded, the copy in flight equal to the committed data and its change, moves past the barrier safe from grants |
| WriterProtocol.PersistedKeeps | apps/server/src/store.ts:235-241 | a mutation that is written, or that fails to be, keeps the invariant, whatever it was for |
| MoveOutcomes.MovesChangeStatus | apps/server/src/projects/project-service.ts:334-347 | in every reachable state: behind its mutation an archive has the Project archived, and a deletion has it gone unless it was created anew meanwhile; the snapshot has the Project with the status it has when the move is written |
| MoveOutcomes.MovesWriteStatus | apps/server/src/projects/project-service.ts:334-364 | what an archive writes has the Project archived, what a deletion writes does not have it, what a rollback writes gives it the status of the snapshot, and none of them changes the status of another Project |
| MoveOutcomes.ArchivedForGood | apps/server/src/projects/project-service.ts:345-347 | behind an archive that came through the Project is never active, leased or held by a turn again, however the run goes on, unless it is deleted and created anew |
| MoveOutcomes.MovedIs | apps/server/src/projects/project-service.ts:334-347 | the database of a move: archived or gone, and every other Project as it was |
| MoveOutcomes.RestoredIs | apps/server/src/projects/project-service.ts:1009-1035 | the database of a rollback: the Project as in the snapshot, and every other Project as it was |
| WriterRuns.AcquireOutcome | apps/server/src/projects/project-write-lease-coordinator.ts:102-145 | an acquire that is allowed, saved and not disturbed is granted exactly if its Project is active, not being moved and not leased, and adds exactly its lease; behind another lease it waits on, and otherwise it is turned away |
| WriterRuns.FailedAcquireOutcome | apps/server/src/projects/project-write-lease-coordinator.ts:102-145 | a turn whose acquire is refused, not allowed or not saved, or that gives up, is over and has changed nothing |
| WriterRuns.FailedTurnOutcome | apps/server/src/projects/project-execution.ts:73-95 | a turn that cannot begin goes on to give its lease back; a release that is not saved leaves it |
| WriterRuns.ReleaseOutcome | apps/server/src/projects/project-write-lease-coordinator.ts:147-158 | a release that is saved ends the turn and leaves exactly the leases of the other runs |
| WriterRuns.TurnOutcome | apps/server/src/projects/project-execution.ts:64-110 | a whole turn, asked for, granted, begun, ended and released, leaves the database as it was |
| WriterRuns.MoveOutcome | apps/server/src/projects/project-service.ts:306-364 | an archive or deletion of a Project without a lease, from its first check to its end: the Project is archived or gone, and nothing else is changed |
| WriterRuns.BeginOutcome | apps/server/src/projects/project-service.ts:306-331 | a move begins exactly if the Project exists, is not leased and not being moved |
| WriterRuns.EarlyFailureOutcome | apps/server/src/projects/project-service.ts:306-333 | a move that fails before it is written is over and has changed nothing |
| WriterRuns.RefusedMoveOutcome | apps/server/src/projects/project-service.ts:334-350 | a move that is refused goes on to its rollback |
| WriterRuns.UnwrittenMoveOutcome | apps/server/src/projects/project-service.ts:334-350 | so does one that cannot be written |
| WriterRuns.UnwrittenRollbackOutcome | apps/server/src/projects/project-service.ts:348-364 | a rollback that cannot be written leaves the Project as the move has it, and the move is over |
| WriterRuns.RollbackOutcome | apps/server/src/projects/project-service.ts:348-364 | a move whose last step fails, with its rollback, leaves everything as it was |
| WriterRuns.CreationOutcome | apps/server/src/projects/project-service.ts:194-212 | a Project that does not exist is created active, and nothing else is changed |
| WriterRuns.FailedWriteOutcome | apps/server/src/store.ts:235-243 | a write that fails changes nothing that is committed |
| WriterRuns.RestartOutcome | apps/server/src/projects/project-write-lease-coordinator.ts:58-64 | a restart keeps the Projects that are committed, or those being written if the file was already renamed; no lease, turn or move survives it |
| Leases.ReleaseTakesOnlyItsOwn | apps/server/src/projects/project-write-lease-coordinator.ts:154-156 | after a release of a Project by a run exactly the other leases are left |
| Leases.RestoreTakesNoLease | apps/server/src/projects/project-service.ts:1029-1035 | the rollback leaves the leases as they are, in order, when neither the database nor the snapshot has one of the Project |
| LeaseCoordinator.Coordinator.Initialize | apps/server/src/projects/project-write-lease-coordinator.ts:58-64 | the boot drops every lease it finds, and reports them, or leaves all as they are when that cannot be saved |
| LeaseCoordinator.Coordinator.BeginArchive | apps/server/src/projects/project-write-lease-coordinator.ts:77-81 | busy exactly when a lease is held or a move is under way; otherwise the Project is marked, and nothing else changes |
| LeaseCoordinator.Coordinator.EndArchive | apps/server/src/projects/project-write-lease-coordinator.ts:84-86 | the Project is no longer marked, and nothing else changes |
| LeaseCoordinator.Coordinator.WriteLeaseHolder | apps/server/src/projects/project-write-lease-coordinator.ts:171-176 | names a lease of the Project exactly when there is one |
| LeaseCoordinator.Coordinator.TryAcquire | apps/server/src/projects/project-write-lease-coordinator.ts:114-130 | one attempt: refused, unsaved, busy or held, each under its exact condition, and the lease is added only when held; at most one lease per Project stays true |
| LeaseCoordinator.Coordinator.Release | apps/server/src/projects/project-write-lease-coordinator.ts:148-158 | removes exactly the lease of this Project and run, is idempotent, and leaves the data unchanged when it cannot be saved |
| LeaseCoordinator.ReleaseUndoesAcquire | apps/server/src/projects/project-write-lease-coordinator.ts:114-158 | releasing a lease that was just granted gives back the database |
| ProjectRollback.RestoreIsExactAndFramed | apps/server/src/projects/project-service.ts:1005-1093 | for any database and any snapshot the rollback gives the Project, in all eleven collections, exactly the rows of the snapshot, and leaves every other row in place and in order; a session under the id of one of the snapshot counts as the Project's |
| ProjectRollback.RestoreForgetsPurgeIff | apps/server/src/projects/project-service.ts:414-475 | a rollback behind the purge comes to the same database as without the purge if and only if the sessions the Project got since the snapshot had no turn, event or prompt and shared no id with a session of another Project |
| ProjectRollback.PurgeThenRestoreIsIdentityIff | apps/server/src/projects/project-service.ts:434-475 | a purge that is rolled back at once leaves the same rows in every collection if and only if no session of another Project shares an id with one of the Project |
| ProjectRollback.PurgeIsExactAndFramed | apps/server/src/projects/project-service.ts:416-465 | the purge takes every row of the Project and of its sessions and leaves every other row in place and in order |
| ProjectRollback.PurgeLeavesNoOrphans | apps/server/src/projects/project-service.ts:441-453 | behind a purge every turn, event and prompt still has its session |
| ProjectRollback.RestoreLeavesNoOrphansIff | apps/server/src/projects/project-service.ts:1036-1063 | the rollback leaves no turn, event or prompt without its session if and only if no session the Project got after the snapshot has one |
| ProjectRollback.LateSessionLeavesOrphan | apps/server/src/projects/project-service.ts:1036-1056 | whatever the snapshot, one session created after it, with the event every session begins with, makes the rollback leave an orphan |
| ProjectRollback.Draft.RestoreProjectSnapshot | apps/server/src/projects/project-service.ts:1009-1092 | the eleven assignments in place are the rollback that is proved exact and framed |
| ProjectRollback.Draft.Purge | apps/server/src/projects/project-service.ts:414-466 | throws exactly while a lease of the Project is held or one of the sessions, looked up one by one, is active, which with unique ids is any of them; otherwise it is the purge that is proved exact and framed |
| Store.CommittedIsSequential | apps/server/src/store.ts:233-244 | in every reachable state, crashes included, the committed data is what the mutations that succeeded make of the initial data, in the order they were asked for |
| Store.CrashIsAtomic | apps/server/src/store.ts:246-253 | a crash reloads the committed data, or what the mutation under way makes of it, the latter exactly when its file was already renamed |
| Store.HeadOfQueueSettles | apps/server/src/store.ts:235-243 | a mutation that throws or cannot be written changes nothing and leaves the store idle for the next one |
| Store.JsonStore.Mutate | apps/server/src/store.ts:233-244 | succeeds exactly when the callback returns and the file is written; data and file agree afterwards, and are unchanged otherwise |
| Lifecycle.SessionsMoveByTheRules | apps/server/src/orchestration/orchestration-service.ts:305-1326 | over every interleaving each session moves only along the lifecycle: a draft is left only by a start, a terminal status only by a continuation, a session asked to stop never completes; mode and budget stay, the step index never decreases, and a round-robin session never completes at its ceiling |
| Lifecycle.CyclesAreAccounted | apps/server/src/orchestration/orchestration-service.ts:1142-1326 | in every reachable state the cycles a session has begun minus those it has ended, by its journal, are one if it is active and zero otherwise; only an active session names a run; a deleted session leaves nothing behind |
| Lifecycle.JournalIsNumbered | apps/server/src/orchestration/orchestration-journal.ts:129-161 | in every reachable state the events of a session carry 0, 1, 2, ... in array order and are at most 10 000, whatever other sessions write between them |
| Lifecycle.StepsAreGlobal | apps/server/src/orchestration/orchestration-service.ts:472-514 | across all cycles the step indexes of the turns of a session strictly increase in the order of their creation |
| Lifecycle.BootFailsIffAJournalIsFull | apps/server/src/orchestration/orchestration-journal.ts:236-257 | the recovery at boot throws, and with it the boot, if and only if some active session has a full journal |
| Lifecycle.StuckForever | apps/server/src/orchestration/orchestration-journal.ts:135-140 | an active session with a full journal stays so in every run: no stop, end, deletion or restart takes it out, and no restart succeeds again |
| FullJournal.JournalFills | apps/server/src/orchestration/graph.ts:256-463 | a run of the code that gets there, from an empty store: a round-robin session that goes through three cycles of 1 000 steps and 332 steps of a fourth, each step handing on the last result, accepting a run and completing it |
| FullJournal.CyclesHappen | apps/server/src/orchestration/orchestration-service.ts:403-523 | each of these cycles is started or continued, runs over all its steps, ends for want of steps, and leaves its events, its step index and its turns as counted |
| Lifecycle.OverlappingCyclesShareSteps | apps/server/src/orchestration/orchestration-service.ts:418-422 | the guard against overlapping cycles is needed: with two runners of one session two turns carry the same step index |
| Lifecycle.InterruptSessions | apps/server/src/orchestration/orchestration-journal.ts:238-256 | a recovery that succeeds interrupts exactly the active sessions and changes no other |
| Lifecycle.MutationsAreFramed | apps/server/src/orchestration/orchestration-service.ts:617-656 | no mutation of one session touches the record, the events or the turns of another, though all share the arrays |
| Lifecycle.PlanBalances | apps/server/src/orchestration/orchestration-service.ts:1146-1240 | every mutation that begins or ends a cycle appends exactly one event that says so, and no other mutation does |
| SessionOutcomes.FinishExecutionOutcome | apps/server/src/orchestration/orchestration-service.ts:1142-1242 | the end of a cycle on stored data: stopped exactly if aborted, already stopping or reported as stopped; otherwise completed exactly if so reported, in round-robin mode below the ceiling and in supervisor mode with the signal of the supervisor; otherwise failed; with the event of that status, and the step index raised only by a completion |
| SessionOutcomes.CreateOutcome | apps/server/src/orchestration/orchestration-service.ts:194-262 | a session is created as a draft at step zero, with its first event |
| SessionOutcomes.StartOutcome | apps/server/src/orchestration/orchestration-service.ts:329-392 | exactly a draft is started, and is then queued at step zero with its event |
| SessionOutcomes.ContinueOutcome | apps/server/src/orchestration/orchestration-service.ts:431-515 | exactly a terminal session is continued, at the least step index that lies above those of all its turns and is not below their number or its own |
| SessionOutcomes.NextIndexIsLeast | apps/server/src/orchestration/orchestration-service.ts:475-483 | the offset of a new cycle is the number of turns or the successor of the step index of one of them |
| SessionOutcomes.MarkRunningOutcome | apps/server/src/orchestration/orchestration-service.ts:1078-1085 | a queued session becomes a running one, without an event; any other is left alone |
| SessionOutcomes.RequestStopOutcome | apps/server/src/orchestration/orchestration-service.ts:666-677 | a stop is noted once, for a session that has not ended |
| SessionOutcomes.HandoffOutcome | apps/server/src/orchestration/orchestration-execution-hooks.ts:123-138 | a result that is handed on is noted for a session that has not ended, and changes nothing else |
| SessionOutcomes.DecisionOutcome | apps/server/src/orchestration/orchestration-execution-hooks.ts:60-103 | a decision of the supervisor is noted, and refused for a session asked to stop |
| SessionOutcomes.AcceptOutcome | apps/server/src/orchestration/orchestration-execution-hooks.ts:144-178 | an accepted run is named, noted and recorded as a turn once, and ignored by a session that has ended |
| SessionOutcomes.CompleteOutcome | apps/server/src/orchestration/orchestration-execution-hooks.ts:187-227 | a completed run is no longer named, its step counts, and the event is appended; a session that has ended ignores it |
| SessionOutcomes.FailOutcome | apps/server/src/orchestration/orchestration-execution-hooks.ts:234-281 | a failed participant is noted, behind the note of the cancel if its run was cancelled |
| SessionOutcomes.FinishFailedOutcome | apps/server/src/orchestration/orchestration-service.ts:1289-1305 | a session that has not ended has failed, with its event |
| SessionOutcomes.FinishStoppedOutcome | apps/server/src/orchestration/orchestration-service.ts:1308-1326 | a session that has not ended is stopped, with its event |
| SessionOutcomes.DeleteOutcome | apps/server/src/orchestration/orchestration-service.ts:623-654 | exactly a session that is not active is deleted, and no record, event or turn of it is left |
| SessionOutcomes.MissingOutcome | apps/server/src/orchestration/orchestration-service.ts:305-327 | of a session that is not stored the end of a run or cycle is ignored, and everything else but its creation refused |
| SessionOutcomes.InterruptOutcome | apps/server/src/orchestration/orchestration-journal.ts:238-256 | a restart ends an active session, with its event, and leaves any other alone |
| SessionOutcomes.RequestsArePerformed | apps/server/src/orchestration/orchestration-service.ts:305-699 | every request that may be made is performed, and what it comes to is stored if it can be saved |
| SessionOutcomes.SeenAndForgotten | apps/server/src/orchestration/orchestration-service.ts:658-665 | a stop sees exactly the active sessions; a restart forgets runners and requests and stores what the recovery makes, if it works |
| Lifecycle.NextIndex | apps/server/src/orchestration/orchestration-service.ts:475-483 | the offset of a new cycle lies above every step index used and is at least the number of turns |
| Journal.AppendAllView | apps/server/src/orchestration/orchestration-journal.ts:129-161 | appending fails exactly when the limit would be passed, and otherwise adds the next numbers in order |
| Journal.MaxOfNumbered | apps/server/src/orchestration/orchestration-journal.ts:115-126 | in a numbered journal the largest sequence is one less than the number of events |
| Journal.MaxEventSequence | apps/server/src/orchestration/orchestration-journal.ts:115-126 | the scan finds the largest sequence of the session, or -1 |
| SessionRecords.Records.AppendEvent | apps/server/src/orchestration/orchestration-journal.ts:129-161 | throws exactly at the limit and otherwise appends the one event |
| SessionRecords.Records.StartSession | apps/server/src/orchestration/orchestration-service.ts:329-392 | the update in place is the planned one: queued, counted from zero, with its event |
| SessionRecords.Records.ContinueSession | apps/server/src/orchestration/orchestration-service.ts:431-515 | the update in place is the planned one: queued at the offset above all turns, with its event |
| SessionRecords.Records.RequestStop | apps/server/src/orchestration/orchestration-service.ts:666-677 | the update in place is the planned one; terminal and stopping sessions are left alone |
| SessionRecords.Records.OnRunAccepted | apps/server/src/orchestration/orchestration-execution-hooks.ts:144-178 | the run is named, its turn recorded once, and the event appended, or nothing of it |
| SessionRecords.Records.OnRunCompleted | apps/server/src/orchestration/orchestration-execution-hooks.ts:187-227 | the run is forgotten, the step index raised and the event appended, or nothing of it |
| SessionRecords.Records.OnParticipantFailed | apps/server/src/orchestration/orchestration-execution-hooks.ts:234-281 | one event, or two for a cancelled run, or nothing of it when the journal has no room |
| SessionRecords.Records.FinalizeExecution | apps/server/src/orchestration/orchestration-service.ts:1142-1242 | the update in place is the planned one, whose exact outcome is SessionOutcomes.FinishExecutionOutcome |
| SessionRecords.Records.FinalizeFailure | apps/server/src/orchestration/orchestration-service.ts:1289-1305 | an active session fails with its event; a terminal or missing one is left alone |
| SessionRecords.Records.FinalizeStopped | apps/server/src/orchestration/orchestration-service.ts:1308-1326 | an active session is stopped with its event; a terminal or missing one is left alone |
| SessionRecords.Records.DeleteSession | apps/server/src/orchestration/orchestration-service.ts:623-654 | refused exactly for an active or missing session; otherwise its record, events and turns are gone |
| SessionRecords.Records.Initialize | apps/server/src/orchestration/orchestration-journal.ts:238-256 | the pass over all sessions interrupts the active ones or throws as a whole |
| StopHandshake.NoCancelIsLost | apps/server/src/orchestration/orchestration-execution-hooks.ts:140-183 | in every interleaving of the runner with any number of stops, each run accepted and unfinished at an abort, or accepted after one, has been cancelled, unless the runner is about to |
| StopHandshake.EndedRunnerHasCancelled | apps/server/src/orchestration/orchestration-service.ts:686-699 | once the runner has ended every such run was cancelled, and no run is named any more |
| StopHandshake.PendingIsBrief | apps/server/src/orchestration/orchestration-execution-hooks.ts:179-182 | a pending cancel is sent within three steps of the runner, however they end |
| StopHandshake.CancelledAtMostOnce | apps/server/src/orchestration/orchestration-service.ts:1034-1048 | however many stops there are each run is cancelled through the context at most once, and only after it was accepted |
| StopHandshake.NoRunIsForgotten | apps/server/src/orchestration/platform-agent-invoker.ts:46-70 | a run the runner is no longer busy with has finished or was cancelled |
| StopHandshake.OwedIsHistory | apps/server/src/orchestration/orchestration-service.ts:175-192 | the record of owed cancels is exactly the accepted, unfinished runs at each abort and those accepted after one |
| StopHandshake.AtMostOneRunAfterStop | apps/server/src/orchestration/orchestration-execution-hooks.ts:106-121 | once a stop is persisted or the session aborted, however the run goes on, at most one more run is accepted, and that only if its message was already on its way |
| StopHandshake.StepKeeps | apps/server/src/orchestration/orchestration-execution-hooks.ts:140-183 | every step of either side keeps what the context says of the runner |
| StopHandshake.ActiveSession.CancelRun | apps/server/src/orchestration/orchestration-service.ts:1034-1048 | the platform is asked once per run, and the guard stays right |
| StopHandshake.ActiveSession.StopNow | apps/server/src/orchestration/orchestration-service.ts:686-690 | aborts and cancels the named run in one stretch |
| StopHandshake.ActiveSession.AfterRunRecorded | apps/server/src/orchestration/orchestration-execution-hooks.ts:179-182 | throws exactly when the session was aborted, and then the run is cancelled |
| StopRuns.DispatchOutcome | apps/server/src/orchestration/orchestration-execution-hooks.ts:106-227 | a dispatch that nobody stops and whose result is valid and saved: its run is accepted, named, recorded, waited for and finished; afterwards no run is named, nothing was cancelled, and the runner goes on or ends with the last one |
| StopRuns.StopOutcome | apps/server/src/orchestration/orchestration-service.ts:658-699 | a stop while a run is waited for: persisted, aborted and the run cancelled in one stretch; then the adapter cancels the run it gives up, and the runner ends with no run named |
| StopRuns.FailedResultOutcome | apps/server/src/orchestration/orchestration-execution-hooks.ts:187-281 | a run that fails, or whose result is not valid or cannot be saved, ends the cycle without being cancelled |
| StopRuns.RefusedOutcome | apps/server/src/orchestration/orchestration-execution-hooks.ts:106-121 | a participant that is refused, or a message that is not accepted, ends the cycle with nothing started |
| StopRuns.UnrecordedOutcome | apps/server/src/orchestration/platform-agent-invoker.ts:46-70 | an accepted run whose turn cannot be recorded is cancelled, and the cycle ends |
| StopRuns.TimeLimitOutcome | apps/server/src/orchestration/platform-agent-invoker.ts:46-70 | a run that is given up is cancelled, and the cycle ends |
| StopRuns.StartOutcome | apps/server/src/orchestration/orchestration-service.ts:1078-1092 | a cycle begins unless its session was stopped before |
| StopRuns.AbortedRunnerWindsUp | apps/server/src/orchestration/orchestration-service.ts:686-699 | behind an abort the runner makes at most seven more moves, in every interleaving |
| StopRuns.RunnerIsNeverStuck | apps/server/src/orchestration/orchestration-service.ts:1060-1133 | wherever the runner is before its end, some answer moves it on |
| StopRuns.NoCancelWithoutReason | apps/server/src/orchestration/orchestration-service.ts:1034-1048 | in every interleaving no run is cancelled, by either side, but behind an abort, a turn that could not be recorded, or a wait that was given up |
| StopRuns.OnlyBusyRunIsCancelled | apps/server/src/orchestration/orchestration-service.ts:1034-1048 | whatever cancels a run, it is the one the runner is busy with |
| Engine.RunOrchestrationGraph | apps/server/src/orchestration/graph.ts:256-521 | for every request, seeded ones included, and every environment: a request with a step to do dispatches participants along its plan up to the first attempt that is not good and no further, with one turn per good attempt and the exact outcome; any other is answered at once as its first failing check says; node executions stay within the remaining budget and the recursion limit; round-robin dispatches are fair |
| Engine.PlanIsFair | apps/server/src/orchestration/sequence.ts:139-141 | over any stretch of a round-robin plan no participant is dispatched more than once more than another |
| Engine.PlanIs | apps/server/src/orchestration/sequence.ts:81-147 | a plan without naming the sort: everyone in it is of the request, step k is for the participant with exactly k smaller positions, in a round robin k modulo the roster, and the plan is as long as the budget, or the roster, allows |
| Engine.GoodIff | apps/server/src/orchestration/graph.ts:392-398 | output is usable exactly if it and the id of its run have a character that is not a space |
| Engine.FirstBadIsFirst | apps/server/src/orchestration/graph.ts:256-463 | every attempt before the one that a run ends at was good |
| Engine.SelectorFollowsPlan | apps/server/src/orchestration/sequence.ts:123-147 | the selector walks the closed-form plan (the ordered roster, or the k-th modulo its length) and ends exactly behind it, naturally only for a sequential roster within the budget |
| Roster.AdvanceIgnoresOrder | apps/server/src/orchestration/sequence.ts:81-147 | the order of the participants in the request changes no decision |
| Roster.WhoIsNext | apps/server/src/orchestration/sequence.ts:98-147 | somebody is next exactly while the steps last, and without a round robin the roster too, and who it is by rank of position; the two ends of a valid request have their exact conditions |
| Roster.PlaceIsRank | apps/server/src/orchestration/sequence.ts:95 | in the ordered roster everybody stands behind exactly those with a smaller position |
| Roster.ValidRosterIff | apps/server/src/orchestration/sequence.ts:81-96 | a roster is valid exactly if it is not empty, every id, Agent and role has a character that is not a space, no position is negative, and no id or position is given twice |
| Roster.RoundsInClosedForm | apps/server/src/orchestration/sequence.ts:139-141 | how often each place of the roster has come up after any number of round-robin steps, in closed form |
| Roster.AscendingIsUnique | apps/server/src/orchestration/sequence.ts:95 | there is only one ordering of distinct positions |
| Roster.CheckRoster | apps/server/src/orchestration/sequence.ts:81-96 | the pass that fills the sets of ids and positions accepts exactly the valid rosters |
| PromptFitting.FitPrompt | apps/server/src/orchestration/handoff.ts:334-450 | for all inputs the loop ends, what the prompt shows is fitted stage by stage (PromptFitting.FittedOnlyOnce), and the text is its rendering, cut to the limit only if that is too long |
| PromptFitting.FittedOnlyOnce | apps/server/src/orchestration/handoff.ts:349-443 | the stages come to exactly one layout: of a prompt over its limit the previous output is whole if the rest leaves it room, and else its beginning without spaces at the end, a line feed and the marker, filling that room; then as many of the newest turns as fit together; if not even the newest does, that one cut to its room, once, or none; and only if the limit is still passed, the task cut to its room |
| PromptFitting.ReducedEnvelopeIsFitted | apps/server/src/orchestration/handoff.ts:355-375 | the previous output fills the room that the rest of the prompt leaves, and is marked as cut exactly if that is not all of it |
| PromptFitting.ShrunkTurnsAreFitted | apps/server/src/orchestration/handoff.ts:384-419 | of the shared turns the largest newest end that fits is kept, whole; if none fits, the newest turn fills its room or goes |
| PromptFitting.ReducedTaskIsFitted | apps/server/src/orchestration/handoff.ts:426-439 | the task fills the room that the rest leaves, and the rest of the request stays |
| PromptFitting.ClippedIffNoRoom | apps/server/src/orchestration/handoff.ts:424-449 | for a task without XML-special characters the text is clipped if and only if the rendering with no task, no turns and the reduced previous output is over the limit |
| PromptFitting.UnclippedKeepsContract | apps/server/src/orchestration/handoff.ts:322-331 | an unclipped prompt ends with the whole safety contract and has exactly the structure of what it shows |
| PromptFitting.ShrinkingKeepsNewest | apps/server/src/orchestration/handoff.ts:384-419 | what is kept of the shared turns is their newest end; a single kept turn is the newest one, whole or cut once to its room and marked; older ones go only when one more would not fit |
| PromptFitting.FittingKeepsEnvelope | apps/server/src/orchestration/handoff.ts:349-375 | the previous output is cut only when the prompt does not fit with it |
| PromptFitting.EscapingCanForceClipping | apps/server/src/orchestration/handoff.ts:424-449 | the condition on the task is needed: thirty ampersands are clipped with room to spare for everything else |
| PromptFitting.BuildHandoffPrompt | apps/server/src/orchestration/handoff.ts:457-508 | for every request and every limits the prompt respects the limit and is the rendering of what is fitted of the redacted task, role and previous result, each cut to its own limit, and of the allocated newest turns; it is cut only if that is too long |
| PromptFitting.HandoffIsPrepared | apps/server/src/orchestration/handoff.ts:461-486 | task, role and previous output are the redacted ones, each filling its limit, with safe identifiers and a position that is not negative |
| PromptRendering.ContentForgesNoMarkup | apps/server/src/orchestration/handoff.ts:266-332 | for all contents a rendered prompt has exactly 7 + 4 per turn + 2 with a previous result opening brackets |
| PromptReading.ReadingRecoversContents | apps/server/src/orchestration/handoff.ts:266-332 | a round trip for all contents: a reader that splits the prompt at its opening brackets gets back the task, the number of turns and the output of each, and the previous result |
| PromptReading.RenderingIsInjective | apps/server/src/orchestration/handoff.ts:266-332 | two prompts for the same participant are the same only if they show the same contents, so no content passes for another |
| PromptFields.TurnFieldsAreRead | apps/server/src/orchestration/handoff.ts:295 | a reader that splits a tag at its quotation marks gets back, for every turn, participant, Agent, position, step and whether it was cut, whatever the identifiers are |
| PromptFields.SourceFieldsAreRead | apps/server/src/orchestration/handoff.ts:279 | and participant, Agent and run of the previous result |
| PromptFields.CutIsRead | apps/server/src/orchestration/handoff.ts:282-284 | and whether the previous result was cut |
| PromptFields.ParticipantIsNamed | apps/server/src/orchestration/handoff.ts:305-308 | before the task the prompt names the participant, its Agent, its role and its position, redacted, bounded and escaped |
| PromptFields.DigitsGiveNumber | apps/server/src/orchestration/handoff.ts:295 | a position can be told from its digits |
| PromptReading.SplitJoins | apps/server/src/orchestration/handoff.ts:266-332 | how the pieces of a text between separators come from those of its parts |
| Escaping.EscapeXmlIsCharacterwise | apps/server/src/orchestration/handoff.ts:175-182 | the five replacement passes are one map of single characters |
| Escaping.UnescapeInverts | apps/server/src/orchestration/handoff.ts:175-182 | resolving the five predefined entities (section 4.6 of XML 1.0) gives back the text |
| Escaping.EscapedShape | apps/server/src/orchestration/handoff.ts:175-182 | escaped text has no opening or closing bracket and no quote, and is at least as long |
| Escaping.PlainIsUnchanged | apps/server/src/orchestration/handoff.ts:175-182 | text without special characters is not changed |
| Escaping.TruncateText | apps/server/src/orchestration/handoff.ts:132-145 | a truncated text is within its limit and said to be truncated exactly when it was over it |
| Escaping.TruncationFillsRoom | apps/server/src/orchestration/handoff.ts:132-145 | what is shown of a text: all of it if it fits, else its beginning without spaces at the end, a line feed and the marker, and without room for that the beginning of the marker |
| Escaping.FillsRoomOnlyOnce | apps/server/src/orchestration/handoff.ts:132-145 | no other text fits that description |
| Handoff.EnvelopeIsBounded | apps/server/src/orchestration/handoff.ts:156-173 | the content of an envelope is the redacted output, filling its limit and marked as cut exactly when it was cut here or before; participant, Agent and run are those it comes from |
| Handoff.IdentifiersAreBounded | apps/server/src/orchestration/handoff.ts:147-150 | an identifier that crosses a handoff has between 1 and 160 characters |
| Handoff.IdentifierIs | apps/server/src/orchestration/handoff.ts:147-150 | an identifier is the redacted text without the spaces around it, cut to 160 characters, or `unknown` if nothing is left |
| Handoff.CandidatesAreNewest | apps/server/src/orchestration/handoff.ts:225-242 | the candidates are the newest turns in order, each with its own identity, place and step, and its redacted output filling the limit and marked exactly when cut |
| Handoff.AllocationIs | apps/server/src/orchestration/handoff.ts:244-263 | each kept turn, from the newest back, shows its output as far as the newer ones leave room for it, marked exactly if that is not all, and older turns are left out only when the budget is used up |
| Handoff.AllocateWithinBudget | apps/server/src/orchestration/handoff.ts:244-262 | the outputs kept are within the budget in all |
| Handoff.AllocateIsNewest | apps/server/src/orchestration/handoff.ts:244-263 | the turns kept are the newest, in order, each unchanged or marked as cut |
| Handoff.AllocateKeepsNewestWhole | apps/server/src/orchestration/handoff.ts:244-263 | newest turns that fit together are kept whole, and exactly what they leave goes to the older ones |
| Handoff.NothingIsCutIff | apps/server/src/orchestration/handoff.ts:248-262 | no turn is cut if and only if the outputs, from the newest back, fill the budget exactly or all fit |
| Handoff.AtMostOneCutIff | apps/server/src/orchestration/handoff.ts:248-262 | at most one turn is cut if and only if what cutting the newest one that does not fit leaves is filled exactly by the turns before it, or holds them all |
| Handoff.AtMostOneCutAlwaysIff | apps/server/src/orchestration/handoff.ts:248-262 | at most one turn is cut, whatever was said before, if and only if cutting the newest one that does not fit uses up the budget |
| Handoff.NothingLeftIff | apps/server/src/orchestration/handoff.ts:132-145 | cutting uses up the budget if and only if the budget is at most the marker, or beyond one more than it and the cut ends with a character that is no space |
| Handoff.TwoTurnsAreCut | apps/server/src/orchestration/handoff.ts:251-261 | a budget of 24 and two turns of 40 characters: the newer becomes the marker and the older its first character |
| Handoff.CreateSharedConversationProjection | apps/server/src/orchestration/handoff.ts:207-264 | the projection is the allocation of the newest candidates (Handoff.AllocationIs), within both limits |
| Handoff.SpendBudget | apps/server/src/orchestration/handoff.ts:246-263 | the loop from the newest turn back computes the allocation |
| LineSplitter.ReportedLinesAreWholeLines | apps/server/src/child-process-execution.ts:113-136 | for every chunking the lines reported are, in order, whole lines of the stream; one that is dropped was over the limit with its carriage return, and the retained text never exceeds the limit |
| LineSplitter.UntruncatedReportsEverything | apps/server/src/child-process-execution.ts:113-164 | a run that is not marked as truncated reports exactly what splitting the whole output gives |
| LineSplitter.ChunkingDoesNotMatterIffLinesFit | apps/server/src/child-process-execution.ts:113-136 | no chunking of an output is truncated if and only if every line of it fits the limit, and then all chunkings report the same |
| LineSplitter.OutputIs | apps/server/src/child-process-execution.ts:113-164 | exactly what is reported, for every stream and every chunking: all terminated lines in order but those of which, at the end of some chunk, more than the limit was pending, and the trimmed rest unless it is over the limit or blank |
| LineSplitter.TruncatedIff | apps/server/src/child-process-execution.ts:130-136 | a run is marked as truncated exactly when at the end of some chunk more than the limit was pending |
| Text.AsciiByteLength | apps/server/src/child-process-execution.ts:130-136 | of text in ASCII the size is the number of characters |
| LineSplitter.FeedTracks | apps/server/src/child-process-execution.ts:113-136 | after every chunk the state stands in the right relation to the stream received so far |
| LineSplitter.RegexSplitIsCut | apps/server/src/child-process-execution.ts:118 | splitting at optional carriage return and line feed is cutting at line feeds and stripping one carriage return |
| LineSplitter.StdoutConsumer.OnData | apps/server/src/child-process-execution.ts:113-136 | the handler with its loop and flags is the step of the splitter |
| LineSplitter.StdoutConsumer.OnClose | apps/server/src/child-process-execution.ts:154-157 | what is left is reported trimmed, unless it is blank or the tail of a dropped line |
| LineSplitter.StdoutConsumer.Run | apps/server/src/child-process-execution.ts:113-164 | a whole stream, chunk by chunk, reports exactly what LineSplitter.OutputIs describes; when every line fits, the report is that of the whole output |
| ProjectExecution.ExecutionScope.Acquire | apps/server/src/projects/project-write-lease-coordinator.ts:102-145 | the lease is held exactly if some try before the deadline is allowed, saved and finds the Project free, and all before it found it busy; without it no lease of the run is stored |
| ProjectExecution.ExecutionScope.BeginTurn | apps/server/src/projects/project-execution.ts:64-95 | begins exactly if the policy allows it, the lease is obtained and the workspace prepared; on every failure no lease of the run is stored, unless its release could not be written |
| ProjectExecution.ExecutionScope.EndTurn | apps/server/src/projects/project-execution.ts:97-110 | whatever recording the thread comes to, no lease of the run is stored afterwards, unless its release could not be written |
| RunCoordinator.Execution.ExecuteRun | apps/server/src/agent-run-coordinator.ts:281-537 | on every path, with the others at work on the store: one terminal status, an assistant message exactly if it is completed, no lease of the run in the store unless its release could not be written, no token more than before; without a cancellation it completes exactly if its turn begins, the set-up is done and some model answers behind unavailable ones, and exactly the models up to the last attempt are called; cancelled at once it touches nothing; and the Agent status that goes with the outcome |
| RunCoordinator.UncancelledCompletesIff | apps/server/src/agent-run-coordinator.ts:305-408 | a run that nobody cancels completes if and only if its turn begins, its set-up is done, and some model answers behind models that were all unavailable |
| RunCoordinator.UncancelledOutcome | apps/server/src/agent-run-coordinator.ts:305-524 | the outcome of such a run and the calls of the runner by its last attempt; none without a turn or a set-up |
| RunCoordinator.CancelledAtOnce | apps/server/src/agent-run-coordinator.ts:305-320 | a run that is cancelled before it begins ends as cancelled without a call |
| RunCoordinator.QuietTurnBeginsIff | apps/server/src/projects/project-execution.ts:64-95 | when nobody else changes the store the turn of a run with a Project begins exactly if the policy allows it, the Project is neither being moved nor leased, the lease can be saved and the workspace is prepared; without a Project it always begins |
| RunCoordinator.Execution.Attempts | apps/server/src/agent-run-coordinator.ts:305-407 | the guarded part holds exactly one stored lease of the run when it holds a turn, and none otherwise; a token that was minted is new; the runner is called along the fallback order, as often as RunCoordinator.UncancelledOutcome says when nothing is cancelled |
| RunCoordinator.StandingCancelCancels | apps/server/src/agent-run-coordinator.ts:496-524 | a cancellation that stands when the outcome is decided ends the run as cancelled |
| RunCoordinator.CancelCountsIffInTime | apps/server/src/agent-run-coordinator.ts:496-524 | a cancellation that is not withdrawn ends the run as cancelled if and only if it is registered by the moment at which the outcome would be decided without it, or the runner then reports a cancellation by itself |
| RunCoordinator.LateCancelEndsFailed | apps/server/src/agent-run-coordinator.ts:498-514 | a run that ends as failed although a cancellation stood before its terminal record was written |
| RunCoordinator.StoppedAgentStaysIff | apps/server/src/agent-run-coordinator.ts:461-523 | an Agent marked as stopped meanwhile stays so if and only if its run does not complete |
| RunCoordinator.CompletionRevivesAgent | apps/server/src/agent-run-coordinator.ts:461 | a run that completes and makes an Agent ready that is stopped throughout |
| RunCoordinator.NoAttemptAfterCancel | apps/server/src/agent-run-coordinator.ts:359-362 | once a cancellation stands the runner is not called again |
| RunCoordinator.FallbackOnlyWhenUnavailable | apps/server/src/agent-run-coordinator.ts:391-403 | attempt k + 1 happens only behind k attempts that ended with the model unavailable |
| RunCoordinator.CompletesIffSomeModelAnswers | apps/server/src/agent-run-coordinator.ts:355-408 | with nothing cancelled the attempts succeed if and only if some model answers and all before it were unavailable |
| Reconciler.ReconcileNow | apps/server/src/access/permit-directory-reconciler.ts:190-272 | a pass succeeds if and only if it is configured, no call it makes fails, every owner is known and every listing is below the limit; then every user was synchronized and every instance ensured, in order; the gate is open exactly then, and every Project has exactly its expected membership roles; whether or not it succeeds, and at every single write, only stale assignments go and only missing ones come |
| Reconciler.CorrectAssignmentsStay | apps/server/src/access/permit-directory-reconciler.ts:236-250 | no correct assignment is ever taken away, and nothing but membership roles of the Projects at hand is touched |
| Reconciler.SecondPassWritesNothing | apps/server/src/access/permit-directory-reconciler.ts:235-255 | over a directory that is in sync a pass writes nothing |
| Reconciler.SyncProject | apps/server/src/access/permit-directory-reconciler.ts:214-256 | one Project, whose instance is ensured first: it succeeds exactly when no call fails, the owner is known and the listing can be read, and then it has converged; all changes are right and all writes needed in any case |
| Reconciler.TakeAway | apps/server/src/access/permit-directory-reconciler.ts:235-250 | the loop over the listing succeeds exactly when every call works, and then has taken away exactly the surplus and knows whose assignments it kept |
| Reconciler.Give | apps/server/src/access/permit-directory-reconciler.ts:251-255 | the loop over the expected assignments succeeds exactly when every call works, and then has added exactly those not kept |
| Reconciler.Client.List | apps/server/src/access/permit-directory-reconciler.ts:349-396 | a listing succeeds exactly when every page call works and the directory has fewer than ten thousand assignments, and then it is complete |
| Directory.ExpectedIs | apps/server/src/access/permit-directory-reconciler.ts:104-128 | what is expected: nothing of an archived Project; of an active one its owner as owner and its Agents in their roles, editor by default; undetermined exactly for an active Project whose owner is not known |
| Directory.ConvergesIffNothingExpectedRepeats | apps/server/src/access/permit-directory-reconciler.ts:235-255 | whatever is listed, a pass converges if and only if no expected assignment is listed twice |
| Directory.RepeatedListingLosesAssignment | apps/server/src/access/permit-directory-reconciler.ts:244-248 | listed twice, a correct assignment is taken away and not put back |
| Directory.OthersAreUntouched | apps/server/src/access/permit-directory-reconciler.ts:237-241 | other Projects, other tenants and roles managed by Permit are never touched |
| Directory.ListRoleAssignments | apps/server/src/access/permit-directory-reconciler.ts:349-396 | asks page after page while they come full, and succeeds exactly when a short one comes; a failing call, an overlong page and a full last page fail it |
| Directory.ListingIsCompleteOrFails | apps/server/src/access/permit-directory-reconciler.ts:389-391 | of a directory the listing is complete or fails, and it succeeds exactly below ten thousand assignments |
| Approvals.ConsumedAtMostOnce | apps/server/src/access/permit-operation-approval-workflow.ts:124-138 | over all interleavings of requests, consumes, refreshes, revocations, purges, rollbacks that open no spent approval, and restarts, at most one consume returns true by claiming an approval; that it was approved is ApprovalHistory.GrantedWasApproved |
| ApprovalHistory.GrantedWasApproved | apps/server/src/access/permit-operation-approval-workflow.ts:239-257 | over all interleavings a granted approval went through one claim in which Permit answered that it is approved, then its role was taken away, then the mark was saved and then the audit was written |
| ApprovalHistory.LookDecides | apps/server/src/access/permit-operation-approval-workflow.ts:239-245 | behind the answer of Permit a claim goes on if and only if the answer is approved and the approval was not known as closed; it is let go without an answer, and refreshed with any other |
| ApprovalHistory.ConsumeClaimsIff | apps/server/src/access/permit-operation-approval-workflow.ts:119-138 | a consume that knows an approval of its operation claims the latest exactly if that is open and not in flight |
| ApprovalHistory.ConsumeSucceeds | apps/server/src/access/permit-operation-approval-workflow.ts:239-257 | when Permit says approved and every step works, an open approval that is not in flight is granted, marked as consumed, and nothing else changes |
| ApprovalHistory.FailureLetsGo | apps/server/src/access/permit-operation-approval-workflow.ts:124-138 | a step of a consume that fails lets the approval go and changes nothing else |
| ApprovalHistory.RefusalIsNoted | apps/server/src/access/permit-operation-approval-workflow.ts:239-245 | a consume that is refused ends with what Permit said stored, if it can be saved |
| Approvals.UnclaimedIff | apps/server/src/access/permit-operation-approval-workflow.ts:119-123 | a consume returns true without a claim if and only if no approval of its operation is known, and nothing else does |
| Approvals.TrueMeansClaimed | apps/server/src/access/permit-operation-approval-workflow.ts:119-138 | once an operation has an approval, and while none is purged or rolled back, every consume of it that returns true has claimed one |
| Approvals.NoMoreTrueThanApprovals | apps/server/src/access/permit-operation-approval-workflow.ts:119-138 | from then on the consumes of an operation return true at most as often as it gets approvals |
| Approvals.PurgeAllowsAnotherTrue | apps/server/src/access/permit-operation-approval-workflow.ts:123 | the condition is needed: behind a purge a consume of an operation whose approval was spent returns true again |
| Approvals.RollbackGrantsTwice | apps/server/src/projects/project-service.ts:1085-1091 | the condition on rollbacks is needed: one that puts an approved row in the place of the consumed one makes the approval be granted twice |
| Approvals.GrantedIsSpent | apps/server/src/access/permit-operation-approval-workflow.ts:119-126 | an approval once granted is closed, and a consume that finds it claims nothing |
| Approvals.ClosedIsAbsorbing | apps/server/src/access/permit-approval-projection.ts:81-124 | consumed and revoked are absorbing under refresh, mark and purge |
| Approvals.ReusedIdReopens | apps/server/src/access/permit-approval-projection.ts:70-76 | the freshness of ids is needed: adding under a consumed id opens it again |
| Approvals.FindLatest | apps/server/src/access/permit-approval-projection.ts:43-56 | the row of the key that was updated last, or none |
| ApprovalHistory.LatestIsFirst | apps/server/src/access/permit-approval-projection.ts:51-55 | of several rows of the key with the same latest update it is the first |
| ApprovalHistory.RefreshIs | apps/server/src/access/permit-approval-projection.ts:81-104 | a refresh sets the status of that approval to what Permit says, unless it is closed, and changes no other |
| ApprovalHistory.MarkIs | apps/server/src/access/permit-approval-projection.ts:106-124 | a mark fails exactly if the approval is not known, and otherwise sets its status and changes no other |
| ApprovalHistory.AddIs | apps/server/src/access/permit-approval-projection.ts:58-78 | a new approval comes behind the others, and one with the id of another takes its place |
| ApprovalHistory.CreateIs | apps/server/src/access/permit-operation-approval-workflow.ts:192-229 | a request comes in under a new id |
| ApprovalHistory.RevokeIs | apps/server/src/access/permit-operation-approval-workflow.ts:164-171 | a revocation closes the approval it names and no other |
| ApprovalHistory.PurgeIs | apps/server/src/projects/project-service.ts:463-465 | a purge keeps exactly the rows it is told to, and a restart forgets who was consuming |
| ApprovalHistory.RollbackIs | apps/server/src/projects/project-service.ts:1079-1091 | a rollback that is possible has the rows it keeps and the saved ones |
| Approvals.StepKeeps | apps/server/src/access/permit-operation-approval-workflow.ts:239-257 | every step keeps that what is granted is closed and not in flight, and what is about to be granted is closed |
| Approvals.Projection.Add | apps/server/src/access/permit-approval-projection.ts:58-78 | added or overwritten by id, ids stay unique |
| Approvals.Projection.Sync | apps/server/src/access/permit-approval-projection.ts:81-104 | a refresh keeps a closed status and reports it |
| Approvals.Projection.Mark | apps/server/src/access/permit-approval-projection.ts:106-124 | closes the row for good, or throws when it is gone |

## Left out

- Writers of a Project's record that put back an older copy without a check of their own (the rollbacks of update, binding, attaching, detaching and role changes in `apps/server/src/projects/project-service.ts`, and of Agent deletion in `apps/server/src/agent-service.ts`): they can undo an archive or bring a lease back, so the writer protocol is stated without them. The removal of a deleted Agent's leases, after its turns have settled, is left out with them.
- Authorization by Permit inside the acquire callback, which would wait for the store it holds; a callback is taken never to ask for another mutation. What a policy decides is an arbitrary answer.
- The waiters of a lease and its deadlines: an acquire may be tried again or given up at any time, so waking it early or late makes no difference to what is proved.
- Conversations and previews of a Project, as far as an archive looks at them: each such check may refuse at any time. That stopping them waits for their runners is used only through the barrier.
- Cycles of one session that overlap: a continuation is taken to begin when no runner of the session is left, which the source checks before its mutation and not in it (`Lifecycle.OverlappingCyclesShareSteps` shows what happens otherwise). For the same reason a start and the launch of its runner are one step.
- A rollback is not a step of the lifecycle of sessions; it is treated in `ProjectRollback`. Deleting all sessions of a Project at once is deleting them one by one. For approvals it is a step, under the hypothesis that no approval of the Project is spent between the snapshot and the rollback (`Approvals.RollbackGrantsTwice` shows what happens otherwise).
- The status, output and errors of a turn, the messages, names and timestamps of sessions and events, continuation prompts and their limit, and legacy turns without a step index.
- Sessions and approvals have unique ids, as the source creates them; where a result needs it, it says so.
- The redaction of secrets is an arbitrary function on strings; only lengths and escaping behind it matter. Numbers that are not integers, and values that are not strings, are not represented.
- Strings are sequences of characters: cutting inside a surrogate pair, and a UTF-8 character split across two chunks of output, do not occur. Sizes in bytes are those of the UTF-8 encoding of the characters.
- Stderr, timeouts and the stopping of a child process.
- The supervisor mode of the engine and its provider: such a request is refused by this engine. Its decisions appear in the journal only, any number of them before a dispatch.
- A run starts under a new id, so that no lease of it is stored yet. Its record and its Agent's exist throughout, no other writer ends it, and the write of its terminal record succeeds.
- In the bracket around a turn the mark of a Project that is being moved does not change while the acquire is tried again; a refusal of a try, for whatever reason, stands for it.
- What ends a wait for a run, beyond the run's end, is a step that may come at any time; so are time limits and polling.
- Users and resource instances in Permit are calls that may fail, with a log but no state; making sure of an instance is one call. An answer with a malformed entry is a call that fails. Keys of users and instances are taken to be distinct for distinct Agents and Projects, a Project has each Agent once, and the order in which Projects and Agents are visited, which changes only the order of the calls, is that of the input. The queue of reconciliations is that they run one at a time.
- Approvals get fresh ids from Permit. The sharing of one request by callers of the same operation, and the audit of approvals beyond its success or failure, are left out.
- Project and access roles, tools, skills, models, usage, telemetry, HTTP routes, containers, the file system and the web client.
