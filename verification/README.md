# Verified model of clt

clt schedules coding agents over shared task boards and survives crashes of any
of its processes. This project models the parts of it whose promises span many
functions, many processes or whole runs, and proves those promises.

| file | what it models |
|---|---|
| `board_status.dfy`, `dependency_graph.dfy`, `overlap.dfy`, `admission.dfy`, `coordination_update.dfy` | the four task lists, and admission of tasks: dependency check with its shared memo, overlap verdict, wait lists, metadata updates |
| `git_history.dfy`, `manifest_range.dfy`, `git_journal.dfy`, `journal_runs.dfy` | Git finalization: commits as immutable records, the search for the finishing commit, the audit of commits made before sealing, the compare-and-set journal, the six-round reconcile loop, runs of all writers together |
| `task_board.dfy`, `provisional_done.dfy` | the board's lists, the move to Done, the repair of crash duplicates, and the interplay of board and journal under crashes |
| `task_text.dfy`, `board_lines.dfy` | one-line tasks as characters: markers, the copy a Markdown list makes of a line, and which lines survive an interrupted move |
| `process_group.dfy`, `session_ownership.dfy` | stopping a process group without hitting a recycled number, panics of the stopping loop included; gated launch, registration, guardians and stale recovery as one interleaved step system |
| `scheduler_pass.dfy`, `lease_renewal.dfy`, `holder_names.dfy`, `schema_migrations.dfy` | leases and capacity over one pass with every error exit, renewal arithmetic, holder names, concurrent schema migration |

`dafny verify dfyconfig.toml` checks everything.

## How the source is represented

- Text readings (symbols, session markers, completed notes, identities, the
  rendering a review is stamped with) are function values in a record, so every
  result holds for any reading. For one-line tasks `task_text.dfy` gives the
  source's own reading of markers and its own copy, character by character, and
  `board_lines.dfy` instantiates the board's results with them.
- Git is a sequence of commits whose parents come earlier; history only grows.
  A branch name is the commit it resolves to at the moment it is read.
- The store is its guarded updates. A journal row is one `Journal`, changed only
  through `Store`; a session's control row is one `Row`, changed only by the
  events of `SessionOwnership`.
- Other processes appear as scripts, event sequences or nondeterministic worlds
  that all results quantify over. A crash is a run that simply stops, a writer
  with no writes left (`lives`), or a stage after which nothing follows.

## Findings

These are places where the expected property does not hold of the code as it is;
each has an exact condition or a concrete run.

- **A stopped run's late clean-up can forget a live guardian child.** The
  automated clean-ups compare the run token, which stays in the row after the
  run ended, but not the guardian's launch token
  (`src/agent/repositories/sessions_runs.rs:2238-2274`, `:1451-1494`). Opened
  again interactively and then asked to stop, the row matches them. A run
  without a worker record passes the remaining guard of the stop completion.
  `SessionOwnership.TwoLeadersExactly`: after any run in which nobody was
  forgotten, the next step makes two released leaders possible if and only if it
  is such a clean-up and the registered child is still alive.
  `AtMostOneLeader` holds for all runs without such a step, `CleanupFindsNobody`
  shows that an empty launch token in the row is a sufficient guard, and
  `LateCompletionAllowsTwoLeaders` gives a run ending with two released leaders.
- **The supervisor can signal a group number it no longer owns.** A panic inside
  the monitored shutdown loop is caught and the loop entered again with the
  leader's status forgotten (`src/runner.rs:1371-1421`, `:1534-1594`), although
  the leader may have been reaped. `ProcessGroup.Relapse` computes, from the
  schedule of the system's turns and the panicking reports alone, at which moment
  the loop is entered again. `ProcessGroup.Kernel.SuperviseStop`: a signal follows
  the reaping if and only if the leader is reaped at that moment and somebody
  answers under its number, and a stranger is signalled if and only if one answers.
  `StrangerIsHit` gives such schedules, one for every patience.
- **A fresh conversation executes before it is registered**
  (`src/runner.rs:2374-2390`), so a refused registration comes after the fact.
  `RefusedExecutesOnlyFresh`: a refused child can have executed exactly for such
  launches, never for known sessions or guardians.
- **Recovery may retire a journal outside the transition table.** The missing-Git
  recovery cancels Tracking and CommitPending rows
  (`src/agent/repositories/git_journals.rs:163-277`). `JournalMovesForward` states
  this as the only exception, and `SealedJournalRetired` gives a run that takes it.
- **A version-one journal without a manifest accepts its commit with no tree or
  parent proof** (`src/managed_git.rs:2641-2649`). `SealIsCertain` characterises
  the baselines for which the seal is certain.
- **Two idle rounds exhaust the reconcile loop** although the journal may have
  completed meanwhile: a lost race is idle, and so is the repair of a commit that
  missed its seal by board order only. `TwoLossesCanExhaust` and
  `LossAndRepairCanExhaust` are such calls. `ExhaustionNeedsIdleRounds` is the bound:
  two from Working, three from Tracking, four from CommitPending, five from PushPending.
- **Provisional Done is not always recoverable.** `ProvisionalDone.CrashSafe` is an
  equivalence: every crash is undone exactly for moves out of Todo or Doing whose
  copy keeps the text, with no second entry in the way. Three kinds of input fail.
  A task in Backlog is accepted for completion but never moved by recovery
  (`src/managed_git.rs:4017-4027`): `BoardLines.BacklogIsStuck`. A Markdown list
  rewrites a line whose text has blanks around it other than one before its marker,
  ends in a stop marker, or starts with a bullet, bare or under heading marks
  (`src/task.rs:1021-1040`, `:1545-1551`; a heading mark alone is kept);
  no repair finishes an interrupted move of such a line: `TaskText.CopyKeepsLine`
  says exactly which lines are kept, `BoardLines.RewrittenLineIsStuck` gives the boards for two blanks and
  `OrdinaryLineIsStuck` one of them. Another entry
  of the session outside Done is mistaken for the task
  (`src/managed_git.rs:4080-4093`): `ProvisionalDone.RivalIsStuck`.
- **A one-second lease timeout can be seen expired**: `NeverExpiredFromTwoSeconds`
  is an equivalence.
- **Guardian names of the former read-only kind yield a disposition but no PID**
  (`src/session_control.rs:124-162`), so such a guardian is never proven dead by
  its name: `LegacyGuardianHasNoPid`.

## Model

| member | source | states |
|---|---|---|
| DependencyGraph.Referenced | src/coordination.rs:264-275 | an ID resolves exactly when it is not empty and exactly one task carries it; otherwise the error names it |
| DependencyGraph.Visit | src/coordination.rs:277-304 | the depth-first step: everything memoised is sound, success proves everything reachable and gives the path back, failure names a reachable unresolved ID or a real cycle |
| DependencyGraph.Check | src/coordination.rs:313-315 | started with empty path and memo the visit succeeds exactly when every reachable reference is unique and no cycle is reachable |
| DependencyGraph.WitnessRefutes | src/coordination.rs:283-290 | a reported error really rules out a sound dependency graph below the task |
| DependencyGraph.SearchDependency | src/coordination.rs:350-358 | the pruned search keeps its seen set closed under edges that avoid the wanted ID |
| DependencyGraph.DependsOn | src/coordination.rs:350-358 | the search finds an ID exactly when a path of dependencies leads to it, cycles and shared subgraphs included |
| ScopePaths.OverlapIsComponentPrefix | src/coordination.rs:485-491 | two paths overlap exactly when one normalised component list is a prefix of the other |
| ScopePaths.JoinedComponents | src/coordination.rs:485-491 | the component list loses nothing: joining it gives the path back |
| TaskOverlap.EvidenceSymmetric | src/coordination.rs:473-483 | the review stamp does not depend on which of the two tasks comes first |
| TaskOverlap.EvidenceGoesStale | src/coordination.rs:473-483 | a stamp survives an edit of one task exactly when its rendering is unchanged |
| TaskOverlap.OverlapsSymmetric | src/coordination.rs:512-603 | the verdict is the same from either side, reviews and their staleness included |
| TaskOverlap.ReportedIffMeeting | src/coordination.rs:546-602 | the collected concerns are empty exactly when the two scopes and texts share nothing |
| TaskOverlap.ConflictingBehavior | src/coordination.rs:513-522 | a conflict is returned exactly when some behaviour key has two different values |
| TaskOverlap.ReviewVerdict | src/coordination.rs:523-545 | a rejecting current review on either side wins, otherwise any current one settles the pair |
| TaskOverlap.Overlap | src/coordination.rs:512-603 | a reason is returned exactly for overlapping tasks, and conflicts come before possible overlaps |
| Admission.Waits | src/coordination.rs:306-348 | the wait list is empty exactly for admissible tasks and otherwise lists every incomplete prerequisite and every blocking task, nothing else |
| Admission.Selected | src/coordination.rs:256-262 | a position addresses the first task with exactly that board, list and index, never an index of zero, and nothing only if no task lies there |
| Admission.EnsureAdmitted | src/coordination.rs:631-637 | the guard passes exactly for an existing, admissible task |
| Admission.SomeUnfinishedTaskIsAdmitted | src/coordination.rs:306-358 | declared order never deadlocks: with overlaps resolved by dependencies some unfinished task waits for nothing |
| Admission.LowestUnfinished | src/coordination.rs:350-358 | below every unfinished task there is one that depends on no unfinished task |
| Admission.StepKeepsSafe | src/application.rs:1900-1910 | one admitted move keeps all active pairs compatible and all Doing prerequisites complete |
| Admission.RunsStaySafe | src/coordination.rs:631-637 | the same over every run of admitted moves from an idle board |
| CoordinationUpdate.Revise | src/coordination.rs:694-717 | a revision succeeds exactly when metadata is readable, every added reference is another existing task and the edited task is sound; only dependencies, scope and a missing ID change |
| CoordinationUpdate.RevisionKeepsTheRest | src/coordination.rs:694-708 | a dependency is in the revised list exactly when it was there or was added, and was not removed |
| CoordinationUpdate.Assess | src/coordination.rs:718-732 | a review is recorded exactly with a reason and another existing task, and replaces earlier reviews of that task |
| CoordinationUpdate.ApplyUpdate | src/coordination.rs:672-743 | success exactly for an existing position, no provisional task, a Done one only by an ID, and an acceptable revision and review; it rewrites that task only, failure changes nothing |
| CoordinationUpdate.UpdateIsEdit | src/coordination.rs:672-743 | every successful update is an edit of one task that is sound in the new graph |
| CoordinationUpdate.EditedTaskSuffices | src/coordination.rs:709-717 | checking the edited task alone keeps the whole graph unique, resolved and acyclic, also when it receives a fresh ID |
| CoordinationUpdate.UpdatesKeepGraphWellFormed | src/coordination.rs:672-743 | the same over any sequence of updates |
| CoordinationUpdate.WellFormedMeansTaskSound | src/coordination.rs:313-315 | in such a graph no task's check ever fails |
| CoordinationUpdate.RecordedReviewIsRead | src/coordination.rs:718-732 | the review just recorded is the one the overlap verdict reads back |
| GitHistory.CompletedIdentity | src/managed_git.rs:3186-3215 | the identity returned is exactly that of the one finished entry, provided the whole tree marks the session once |
| GitHistory.CompletesIsUnique | src/managed_git.rs:3186-3215 | one session completes at most one identity per tree |
| GitHistory.RangeIsAbove | src/managed_git.rs:3402-3407 | with the start on the first-parent line the listed range is exactly the part of the line above it |
| GitHistory.CollectCandidates | src/managed_git.rs:3408-3444 | only the first commit above the start can qualify, and the session's commits are counted exactly |
| GitHistory.FindTaskCommit | src/managed_git.rs:3377-3458 | the search returns c exactly when start and tip evidence hold, the tip did not move, c is first, qualifies and alone names the session |
| GitHistory.GrowthKeepsAnswer | src/managed_git.rs:3377-3458 | commits added anywhere leave the answer for an old tip unchanged |
| GitHistory.AdvancedTipKeepsAnswer | src/managed_git.rs:3445-3450 | a tip advanced by commits that do not name the session and keep the tip evidence gives the same answer |
| GitHistory.AppendedCommitsKeepAnswer | src/managed_git.rs:3445-3450 | both at once |
| GitHistory.FoundCommitIsOnBranch | src/managed_git.rs:3377-3458 | the commit found lies on the branch, directly above the frozen parent |
| GitHistory.IsRetained | src/managed_git.rs:3955-3991 | retention holds exactly when the frozen branch is checked out and did not move, the files and its tip show this task completed with no active copy, and the commit is below the tip |
| GitHistory.FoundCommitIsRetained | src/managed_git.rs:4264-4325 | a commit found at that tip is retained exactly when the checkout is settled and the tip has no active copy, which the legacy search already guarantees |
| GitHistory.CommitMatchesManifest | src/managed_git.rs:2632-2672 | the manifest check accepts exactly sealed parent, sealed tree and completion evidence, or any commit for an unsealed version-one baseline |
| ManifestRange.IsCompatibleWork | src/managed_git.rs:2517-2585 | concurrent work is accepted exactly when it claims and completes nothing, has one parent, and is not the agent's beyond a board checkpoint |
| ManifestRange.IsProvenOther | src/managed_git.rs:2587-2630 | another session's commit is accepted exactly with its own completed, sealed journal naming it |
| ManifestRange.RangeIsSafe | src/managed_git.rs:2481-2515 | the audit accepts exactly a first-parent range of such commits |
| ManifestRange.SafeCommitClaimsNothing | src/managed_git.rs:2481-2630 | nothing the audit accepts names the current session |
| ManifestRange.OneCommitSinceLaunch | src/managed_git.rs:2481-2515 | audit and search together: one commit since launch names the session, the one found |
| ManifestRange.UnauditedRangeMayClaim | src/managed_git.rs:2481-2515 | without the audit an earlier commit may name it too |
| GitJournal.Store.CompareAndSet | src/agent/repositories/git_journals.rs:1653-1880 | the row changes exactly when generation, owner fence and every rule hold, to exactly one new row; otherwise the first broken rule is reported |
| GitJournal.WritersMoveOn | src/agent/repositories/git_journals.rs:129-290 | whatever the other writers do, ranks never rise and equal generations mean equal rows |
| GitJournal.RoundMakesProgress | src/managed_git.rs:4157-4461 | a round that continues either lowered the rank or was idle: it lost a race or repaired the board order |
| GitJournal.ExhaustionNeedsIdleRounds | src/managed_git.rs:4157-4467 | a call that reports too many changes had at least six idle rounds less the rank of the state it started from, so never fewer than two, in either mode |
| GitJournal.TwoLossesCanExhaust | src/managed_git.rs:4464-4467 | the bound is tight: two lost races exhaust the call although its own last write completed the journal |
| GitJournal.LossAndRepairCanExhaust | src/managed_git.rs:4300-4308 | one lost race and one board-order repair do the same |
| GitJournal.Reconcile | src/managed_git.rs:4149-4468 | the loop over a shared store ends as its rounds say, and gives up only after that many idle rounds |
| JournalRuns.ApplyKeepsSound | src/agent/repositories/git_journals.rs:1706-1712 | the generation fence lets a proof touch only the row it was made for |
| JournalRuns.StepKeepsInv | src/managed_git.rs:4149-4468 | every step of every actor keeps the system invariant |
| JournalRuns.JournalMovesForward | src/agent.rs:377-388 | in every run each change raises the generation by one and follows the transition table, recovery of a non-Working journal being the only exception |
| JournalRuns.SealedJournalRetired | src/agent/repositories/git_journals.rs:163-277 | a run that registers, tracks, seals and is then cancelled |
| JournalRuns.CommitNeedsProof | src/managed_git.rs:4264-4353 | a commit is recorded only out of CommitPending with search, manifest and retention proved for that very row |
| JournalRuns.CommitIsFrozen | src/agent/repositories/git_journals.rs:1763-1767 | a recorded commit and its manifest never change |
| JournalRuns.PushModeCompletesAfterPush | src/managed_git.rs:4354-4452 | with commit-and-push, Completed comes only from PushPending with an upstream tip descending from the commit |
| JournalRuns.ProvenCommitIsSealed | src/managed_git.rs:2632-2672 | a proven commit has the sealed tree and parent whenever a manifest was sealed, always for version two |
| JournalRuns.UnsealedCommitIsAccepted | src/managed_git.rs:2641-2649 | every unsealed version-one baseline has a proven commit that is not the sealed one |
| JournalRuns.SealIsCertain | src/managed_git.rs:2632-2672 | exactly which baselines make the seal certain |
| TaskBoard.RepairIsExactlyOnce | src/managed_git.rs:4009-4078 | a repaired board holds the finished entry once, in Done, all others untouched in order, exactly unless a moved copy stopped reading as it |
| TaskBoard.FaithfulMoveKeepsMatch | src/task.rs:2213-2249 | a move that keeps the trimmed text keeps the match |
| TaskBoard.RepairTwice | src/managed_git.rs:4009-4078 | repairing again changes nothing |
| TaskBoard.InterruptedMove | src/task.rs:2213-2249 | stopped between copy and removal, the next repair finishes the move exactly when the copy is faithful |
| TaskText.CopyKeepsLine | src/task.rs:1545-1551 | the copy of a marked line reads as the line exactly when its text is empty, or tidy with one blank behind it: no blanks around it, no bullet at its start or behind heading marks, no stop marker at its end |
| TaskText.KeptMeansCopyReturns | src/task.rs:1021-1040 | for any text that condition is equivalent to trimming and unlisting giving the text back |
| TaskText.HeadingIsKept | src/task.rs:1025-1036 | a heading mark in front of a tidy text is kept |
| TaskText.PlainLine | src/task.rs:1021-1040 | one blank or two before the marker of an ordinary text: the copy writes one |
| BoardLines.RewrittenTexts | src/task.rs:1021-1040 | texts ending in two blanks and texts that are list items are never kept, headings are |
| BoardLines.InterruptedLineMove | src/task.rs:2242-2247 | a marked line moved between Markdown lists survives an interruption exactly when its text is kept |
| BoardLines.RewrittenLineStaysTwice | src/managed_git.rs:4043-4056 | every ordinary line with two blanks before its marker, interrupted, is refused by the repair and stays in both lists |
| BoardLines.LineIsCrashSafe | src/application.rs:1572-1671 | for marked lines all crashes are recovered exactly for kept texts without rivals out of Todo or Doing |
| BoardLines.RewrittenLineIsStuck | src/managed_git.rs:4221-4263 | no recovery round changes what such an interrupted completion left |
| BoardLines.OrdinaryLineIsStuck | src/managed_git.rs:4221-4263 | one such line, given in full |
| BoardLines.BacklogIsStuck | src/managed_git.rs:4017-4027 | no recovery round moves a tracked completion out of Backlog, faithful copies included |
| TaskBoard.MidwayRepairsTheSame | src/managed_git.rs:4061-4076 | stopped between any two removals, the next repair ends on the same board |
| TaskBoard.BoardFiles.MoveToDone | src/task.rs:2213-2249 | the moved entry is put in front of Done before the original goes; a folder entry into a Markdown list is refused unchanged |
| TaskBoard.BoardFiles.Repair | src/managed_git.rs:4009-4078 | the removal loops compute the repaired board and verdict, or stop on a board that repairs to the same |
| ProvisionalDone.CompleteTask | src/application.rs:1572-1671 | every state left behind by a crash or a lost fence is the start, or one of the protocol's stages |
| ProvisionalDone.RecoverUnmoved | src/managed_git.rs:4221-4263 | without rivals, recovery after a crash before the move reaches the uninterrupted result exactly outside Backlog and when the moved board shows the task done |
| ProvisionalDone.RecoverHalfMoved | src/managed_git.rs:4221-4263 | for a crash in the middle of the move, exactly outside Backlog with a faithful copy |
| ProvisionalDone.RecoverMoved | src/managed_git.rs:4221-4263 | for a crash before the journal's last step, exactly when the moved entry still reads as the task |
| ProvisionalDone.RivalIsStuck | src/managed_git.rs:4080-4093 | with the task finished twice, or another entry of the session outside Done, recovery of an unmoved task misses the uninterrupted result |
| ProvisionalDone.CrashSafe | src/application.rs:1572-1671 | all stages recover to the same board and journal exactly for moves out of Todo or Doing with a faithful copy and no rival |
| ProvisionalDone.DoneImpliesTracked | src/application.rs:1606-1670 | without rivals, at every stage a finished entry in Done has a journal at Tracking or later, and at CommitPending the board holds the task exactly once if and only if the moved entry still reads as it |
| ProcessGroup.Kernel.StopChild | src/platform.rs:1898-1952 | an attempt ends as its schedule says; a signal follows the reaping exactly when the leader was reaped on entry and somebody answers, a stranger is signalled exactly when one answers, and success means a group seen absent after reaping |
| ProcessGroup.Kernel.RecoverRejectedSignal | src/platform.rs:1872-1895 | a rejected signal is accepted only for a reaped leader with an absent group |
| ProcessGroup.Kernel.StopUntilReaped | src/runner.rs:1534-1594 | the same for the whole loop, however it ends: entered with an unreaped leader it never signals a recycled group, and it stops only after proven absence |
| ProcessGroup.Kernel.SuperviseStop | src/runner.rs:1371-1421 | with a panic caught and the loop entered again, a signal follows the reaping exactly when the schedule puts the second entry behind the reaping and somebody answers then; likewise for strangers |
| ProcessGroup.RelapseNeedsReport | src/runner.rs:1534-1594 | the loop is entered again only after a panicking report of its first pass |
| ProcessGroup.ClingingMemberRelapses | src/runner.rs:1411-1421 | whenever one member outlives the kill signal and the watching, the report panics and the number is then recycled, the second entry is behind the reaping and meets a stranger |
| ProcessGroup.StrangerIsHit | src/runner.rs:1411-1421 | schedules in which the second entry signals a stranger's group |
| ProcessGroup.AbsenceIsFinal | src/runner.rs:1554-1557 | once reaped and empty, no member of the group ever appears again |
| ProcessGroup.StrangerIffReaped | src/platform.rs:1917-1920 | the group number can pass to a stranger exactly when the leader has been reaped |
| SessionOwnership.StepKeepsInv | src/session_control.rs:1174-1295 | every event keeps all registered live children owned by the row, unless a clean-up empties the row of a live one |
| SessionOwnership.CleanupFindsNobody | src/agent/repositories/sessions_runs.rs:1451-1494 | on a row without a launch token, whoever an automated clean-up unlinks is gone |
| SessionOwnership.StaleGuardianFindsNobody | src/agent/repositories/sessions_runs.rs:2137-2236 | when stale guardian recovery matches the row, every registered child is gone |
| SessionOwnership.RecoveredGuardianNeverExecutes | src/agent/repositories/sessions_runs.rs:2137-2236 | in every later state of the run the recovered guardian's children, never registered or not yet started ones included, are gone or still gated |
| SessionOwnership.RegistrationKeepsInv | src/agent/repositories/sessions_runs.rs:2754-2864 | registration succeeds only where no registered child is alive |
| SessionOwnership.AtMostOneLeader | src/scheduler.rs:1691-1948 | in every interleaving in which no clean-up forgets a live child at most one released leader is not yet gone |
| SessionOwnership.HitForgetsLiveChild | src/agent/repositories/sessions_runs.rs:2238-2274 | a clean-up on a guardian's row, which is then asked to stop, loses its child exactly when that child is still alive |
| SessionOwnership.ForgottenChildAllowsTwoLeaders | src/agent/repositories/sessions_runs.rs:2238-2274 | from every reachable state, a clean-up that forgets a live child has a continuation with two released leaders |
| SessionOwnership.TwoLeadersExactly | src/agent/repositories/sessions_runs.rs:2238-2274 | after any run that forgot nobody, the next step makes two released leaders possible exactly when it forgets a live child |
| SessionOwnership.LateCompletionAllowsTwoLeaders | src/agent/repositories/sessions_runs.rs:2238-2274 | a run with such a late completion in which two leaders are released |
| SessionOwnership.RefusedNeverExecutes | src/runner.rs:2221-2333 | a refused child whose launch knows its session never executes, before or after |
| SessionOwnership.RefusedExecutesOnlyFresh | src/runner.rs:2374-2390 | exactly the fresh launches can execute although refused |
| SchedulerPass.LeaseStore.AcquireJob | src/scheduler.rs:167-295 | an acquired job holds the lease unless another process took it meanwhile; every other exit gives it back unless the release call fails |
| SchedulerPass.LeaseStore.VisitProject | src/scheduler.rs:961-1661 | one project moves only its own lease, starts only within capacity, enabled and not busy, and counts a held lease as skipped only for ordinary work or journals |
| SchedulerPass.RunPass | src/scheduler.rs:875-1665 | success: new leases are exactly the jobs' but for those others took, distinct, not busy, counted, within capacity, and deferral means full capacity; error: no new lease survives; projects whose release call fails are exempt |
| LeaseRenewal.RunOwner | src/runner.rs:2353-2373 | at every poll the renewal in force is less than an interval old, and it changes only to a poll an interval after the last one |
| LeaseRenewal.NeverExpiredFromTwoSeconds | src/scheduler.rs:2724-2729 | the renewed lease is never seen expired, exactly for timeouts of at least two seconds |
| HolderNames.GuardianRoundTrip | src/session_control.rs:120-164 | a guardian's printed name reads back as its disposition and PID, for every 32-bit PID |
| HolderNames.RequesterRoundTrip | src/scheduler.rs:2334-2355 | a requester's printed name reads back as no guardian but the right PID |
| HolderNames.DecimalParses | src/session_control.rs:157-163 | a printed number reads back exactly below the 32-bit limit |
| HolderNames.LegacyGuardianHasNoPid | src/session_control.rs:132-142 | a read-only guardian's name reads back as a disposition without a PID |
| SchemaMigrations.Database.Transact | src/agent.rs:1979-2030 | one transaction applies the next version, finds it applied, defers it or rolls back |
| SchemaMigrations.Database.ApplyMigrations | src/agent.rs:1962-2034 | with openers and workers interleaved: None means all are applied, Some(v) means all below v are, v is not, is beyond the shared schema, and a worker was active |
| SchemaMigrations.EverythingBelowApplied | src/agent.rs:1979-2033 | an applied prefix holds exactly the smaller versions |
| SchemaMigrations.EachRunsOnce | src/agent.rs:1979-2033 | no migration runs twice |

## Left out

- GitJournal.Reconcile: whether the repair of a commit's board order applies is an observation; the amended commit appears as growth of the history.
- GitJournal.Store.CompareAndSet: does not model timestamps, acknowledgement fields or the resume-token rows moved along with the generation.
- JournalRuns.StepKeepsInv: a row is created anew only while no call holds a snapshot of a former one, as project leases demand; calls that outlive the removal of their project are not modelled.
- GitHistory.FindTaskCommit: failing Git commands are not modelled; every commit named exists.
- ProvisionalDone.CrashSafe: leaves tasks nested in directories aside.
- JournalRuns.SealedJournalRetired: recovery's guards on an idle project are not part of its step.
- TaskText.CopyKeepsLine: is about lines with one marker at their end; texts of several lines, whose copy joins them, are left to the general `TaskBoard.InterruptedMove`.
- ProcessGroup.Kernel.StopUntilReaped: takes the number of rounds as a parameter where the source loops until done, and `StopChild` the number of probes that fit its five seconds; lease renewal inside the interactive loop is not modelled.
- SessionOwnership.StepKeepsInv: project leases only decide whether a registration is refused; clearing a row with no run token and exclusive database recovery are not modelled.
- SchedulerPass.RunPass: what each branch decides about a project is given by its findings.
- LeaseRenewal.RunOwner: polls cost no time of their own.
- Metadata parsing, task identities, dated notes and symbol extraction: given as function values.
- The Turso engine, its locking and recovery, SQL text.
- Git subprocesses, remotes, temporary indexes and hashing; a review stamp is the sorted pair of renderings.
- The repair of links of Working journals: it branches over the same moves and removals as the board repair.
- Terminal handling, file descriptors, non-Unix variants.
- The terminal interface, command line, configuration, skills, services and manual sessions.
- Liveness that depends on the clock or on remotes.
