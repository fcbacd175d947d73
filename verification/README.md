# Verified model of Keeper's durable protocols

Keeper runs coding agents over durable state: an Executive database, an Authority service with
its own store, a task engine and a workflow coordinator. This project models the hand-written
protocols between them and proves what holds over whole runs: with crashes, replays, retries,
stale copies, pauses and interleaved requests.

| file | what it models |
|---|---|
| `ExecutiveTables.dfy`, `SafetyLedger.dfy`, `LedgerLaws.dfy` | rows of the Executive database; reading the live safety ledger and merging it row by row into a staged backup |
| `Reconciliation.dfy` | walking the attempts that Authority fenced, after the merge |
| `ExecutionClaims.dfy` | claiming an execution, which consumes its approval, and releasing a claim that never reached the launch |
| `Restore.dfy`, `RestoreRuns.dfy` | the restore protocol transaction by transaction, and its runs among guarded writes, claims, releases, crashes and stale recoveries |
| `ReleaseRuns.dfy`, `RestoreExamples.dfy` | when an approval can be given back over whole runs with restores in between; concrete inputs and runs on the other side |
| `TaskMachine.dfy`, `Review.dfy`, `RunLifecycle.dfy`, `RunLaws.dfy`, `RunCourses.dfy` | the task status table, review acceptance, the run record with its stages, and the courses of closed runs |
| `Orchestrator.dfy`, `Workflow.dfy` | `Keeper.run_task` driving a task and, through the observer, the run record; the coordinator that starts, retries, stops and delivers runs |
| `AuthorityStore.dfy`, `AuthorityService.dfy`, `AuthorityLaws.dfy`, `AuthorityRuns.dfy`, `AuthorityProvenance.dfy` | Authority's tables and transactions; its request handlers split into read and commit steps; invariants and theorems over every interleaving; who asked for each change |
| `HostEnrollment.dfy` | Provider Host enrollment with a process death between any two steps |
| `EvidenceInput.dfy` | provider inputs, their digests and the reviewer's declaration |
| `Verification.dfy`, `TaskQueue.dfy` | the verification verdict; the task queue and its start loop |
| `ByteCodec.dfy`, `Framing.dfy`, `EntriesDigest.dfy`, `RateWindow.dfy` | frames over partial reads and writes, the provenance digest's bytes, the sliding request window |

Conventions. Identifiers, digests of opaque things and canonical texts are natural numbers that
are only compared. A digest of a structure is a datatype constructor, that is, an injective
function. One SQL transaction is one method of a store class and one step of a run. Methods of a
class are proved against specification functions of the old state, and the runs are runs of those
functions. Failures of external calls (agents, the file system, process inspection, Authority as
seen from Executive) are parameters, so every statement is for all of them.

## Main results

- Restore: a one-time approval that was consumed stays consumed, with its project, charter, action
  and task, through every restore of an arbitrary artifact, every failure, crash and stale recovery,
  exactly as long as no release frees it (`RestoreRuns.HeldIffNeverFreed`). One authorization
  replaces the live database at most once although restoring an old backup forgets which
  authorizations were spent. Budgets are conserved per account. Reconciliation succeeds exactly when
  every entry of the receipt fits the rows before the walk and no attempt is ended in two ways, and
  then every column of every row is determined by those rows and the receipt
  (`Reconciliation.WalkDoesExactly`, `Reconciliation.WalkedToOne`).
- Task and run: for every call of `run_task`, every status change is in the task table, and the call
  raises a forbidden stage exactly when some observer call found a record that does not permit it,
  which is exactly when requests of other threads stopped the run at one of the observer's own steps.
  A call that the observer does not stop ends exactly as its agents and checks decide, with the
  status, the stage and the checkpoints of that end; it completes the task exactly when all of an
  explicit list of gates pass. A completed task's checkpoints show an independent review, exactly one
  resolution by a third party for each Critical or High finding and a passing final verification; so
  does every run that ever commits, over any sequence of retries, pauses, cancellations, failing
  deliveries and restarts.
- Run records: history is one chain, stage-attempt ids are unique, and with stops erased every
  record has walked a path of the forward table. A closed run's path is exactly one of the courses of
  `RunCourses.PathToClosedIffCourse`.
- Authority: with handlers interleaved step by step and restarts anywhere, an attempt only moves
  forward, is claimed at most once and only under an active launch generation, and its completion
  repeats what was reserved, bound, claimed and started. Every attempt and every change of it goes
  back to a request of the client that reserved it (`AuthorityProvenance.ChangeWasAsked`), and every
  reservation to a launch authorization that was active when it was asked for. An active restore
  fence freezes its scope.
- Enrollment: a written revocation fence is never undone and nothing fenced is activated again.
- Verification: a passing verdict has, for every required category, a command of that category that
  was started and exited zero, or a waiver that is honoured (`Verification.Verify`).

Where a stated property does not hold of the code as it is, the exact condition is proved, with an
input that is on the other side:

- A consumed approval does not stay consumed for good: `release_prelaunch_execution_claim`
  (keeper/executive/repository.py:1248) deletes the consumption. A step takes a consumption away
  exactly when it is an accepted release whose guard holds: task and attempt in LAUNCH_CLAIMED at the
  expected revision, the consumption made by that task and action, the hold still RESERVED
  (`RestoreRuns.LossIffRelease`). A released claim can be made again exactly when its action costs
  nothing (`ReleaseRuns.ClaimableAgainIff`). Then a run spends the approval, releases it and spends it
  again (`ReleaseRuns.SpentTwiceInARun`, `RestoreExamples.SecondSpendIsReachable`). An action that
  costs money keeps its one hold through every run, restores included, and is claimed at most once
  (`ReleaseRuns.ActionIsHeldOnce`, `ReleaseRuns.PaidActionIsClaimedOnce`).
- A claim whose hold was crossed is never released, whatever is restored
  (`ReleaseRuns.CrossedClaimIsNeverReleased`). An approval whose attempts have all left
  LAUNCH_CLAIMED stays out of reach of releases exactly as long as no restore brings one of the
  claims back (`ReleaseRuns.ClosedIffNeverReopened`), because the backup's row of an attempt wins the
  merge. `ReleaseRuns.RestoreReopensIff` and `ReleaseRuns.RestoreMakesReleasableIff` give the
  condition on the backup, the captured ledger and the receipt;
  `RestoreExamples.StartedAttemptIsReleasable` is a run in which an attempt has started, an older
  backup is restored and the approval is given back.
- The final evidence need not be of the reviewed tree. `run_task` compares the workspace with the
  reviewed tree and `_verify` reads it again afterwards (keeper/orchestrator.py:608-615): a completed
  task's evidence is of the reviewed tree exactly when nothing edits the workspace between the two
  (`Orchestrator.Engine.RunTask`; `Workflow.CompletesOnUnreviewedTree` is a call that completes on
  another tree).
- A task that is BLOCKED and fails its pre-checks again makes the move BLOCKED to BLOCKED, which the
  table forbids (keeper/orchestrator.py:411-413). `Orchestrator.Engine.RunTask` states for which
  calls, and only for which, a forbidden status change is attempted.
- The observer checks the pause and the cancellation and moves the run afterwards
  (keeper/app/workflow.py:2030-2057), so a request can fall in between. The stage that is asked for is
  then forbidden although the table allows it, exactly when the run is stopped at one of the
  observer's steps and not in the very stage it is asked for (`Orchestrator.ForbiddenIffStopped`); one
  pause is enough (`Orchestrator.PauseInsideForbids`). Unless it is resumed before the
  handler of the failure blocks it (`Workflow.Coordinator.Guard`), such a run ends BLOCKED from
  INTERRUPTED and stays there for good (`Workflow.PauseInsideCallIsFinal`).
- Retrying a run that is active and paused moves its record out of INTERRUPTED and leaves the pause
  standing; the resumption is then refused, and only a cancellation or the end of the process lets
  the run's thread go (`Orchestrator.Engine.RetryWhilePaused`).
- A start reported by a client for an unclaimed attempt (`record_provider_start`) is not checked
  against the launch again. It happens under an active generation exactly when the generation was
  still active when the reservation was stored (`AuthorityRuns.ReportedStartIsAuthorizedIffReservedInTime`);
  the other side is reachable (`AuthorityRuns.LateReservationIsReachable`).
- A run blocked or cancelled while it was interrupted remembers the interruption as the stage it
  stopped in and can never be retried (`RunLaws.StoppedRunMovesIffRetryable`,
  `RunLaws.StoppedWhileInterruptedIsFinal`). That is exactly a run whose last move left INTERRUPTED
  (`RunLaws.StuckIffStoppedFromInterrupted`), and every unfinished run can get there
  (`RunLaws.InterruptThenStop`, `RunLaws.StuckRunIsReachable`).
- `_verify` gives a verdict or raises. Besides the checks that are meant to raise, it raises when a
  required command fails while another one still has to run, because the results run out
  (keeper/orchestrator.py:306), and when the verifier itself raises on a command whose turn comes;
  `Verification.Verify` states exactly when. Some specifications that the bindings accept are always
  refused by the verifier, among them every one for the security and packaging validators under
  their own commands (`Verification.BoundSpecRunsIff`); unless it is waived, such a specification
  leaves the task without a verdict (`Verification.RefusedSpecGivesNoVerdict`).
- The comment at keeper/authority_service/provider_host_enrollment.py:418-420 says that an
  interrupted revocation is completed by the same authorized operation. The replay check finds the
  pending record itself: a revocation that dies is completed by its own capability exactly when it
  died before it committed the fence, and otherwise by one that was never used
  (`HostEnrollment.Enrollments.RevokeAcrossDeath`, `HostEnrollment.RepeatedRevocationIsRefused`).
- A restore is refused whenever the fence lists an attempt in a state outside the seven that the
  protocol names, for example INPUT_BOUND or UNCERTAIN (`Reconciliation.UnlistedStateIsRefused`, part
  of the exact condition `Reconciliation.WalkSucceedsIff`). `RestoreExamples.InputBoundBlocksRestore`
  is a backup that stages while its attempt is RESERVED and is refused while it is INPUT_BOUND.
- The rate window is exact only for requests that reach the lock in the order of their times, which
  are read before the lock (keeper/authority_service/ipc_server.py:213). Without overtaking, a request
  is accepted exactly when fewer than the limit were accepted in the last 60 seconds, and the queue is
  that window. When requests overtake each other by some delay, an accepted one has fewer than the
  limit in the window shortened by the delay, a refused one has the limit in the window lengthened by
  it, and no interval shorter than the window by the delay holds more than the limit
  (`RateWindow.Serve`). Both sides of the whole window then fail: it can hold more than the limit
  (`RateWindow.OvertakenExceedsLimit`), and a request can be refused although it holds fewer
  (`RateWindow.OvertakenIsRefused`).

## Model

| member | source | states |
|---|---|---|
| `SafetyLedger.StagedDatabase.ReadSafetyLedger` | keeper/app/restore_runtime.py:677-775 | reading succeeds exactly when every consumption and budget in scope is backed by its approval, and returns exactly the rows in scope |
| `SafetyLedger.StagedDatabase.MergeApprovals` | keeper/app/restore_runtime.py:915-960 | accepted exactly when every live approval fits; the result joins the monotonic fields of both sides |
| `SafetyLedger.StagedDatabase.MergeConsumptions` | keeper/app/restore_runtime.py:801-836 | accepted exactly when bindings agree, references exist and no action is used twice; the result is both sides' rows |
| `SafetyLedger.StagedDatabase.MergeBudgets` | keeper/app/restore_runtime.py:963-1000 | accepted exactly when terms agree and keys stay unique; a budget crossed on either side is crossed |
| `SafetyLedger.StagedDatabase.MergeAttempts` | keeper/app/restore_runtime.py:841-889 | accepted exactly when bindings agree and inserted rows have their parents; staged rows win |
| `SafetyLedger.StagedDatabase.MergeLiveSafetyLedger` | keeper/app/restore_runtime.py:777-912 | succeeds exactly when the rows fit and the merged tables read back unambiguously; a refusal leaves the tables as they were |
| `LedgerLaws.MergeKeepsBothSides` | keeper/app/restore_runtime.py:777-912 | every use, mark and attempt binding of either side survives the merge and the schema's keys hold again |
| `LedgerLaws.MergeIsIdempotent` | keeper/app/restore_runtime.py:777-912 | merging the same ledger again is accepted and changes nothing |
| `LedgerLaws.CapturedLedgerMergesIffRowsFit` | keeper/app/restore_runtime.py:777-912 | for a captured ledger, agreement of the rows alone decides the merge: reading back adds no refusal |
| `LedgerLaws.MergeConservesBudgets` | keeper/app/restore_runtime.py:963-1000 | per account, committed money is at least the live amount and spent money at least either side's |
| `LedgerLaws.TotalTakesOneOut` | keeper/app/restore_runtime.py:963-1000 | an account's total does not depend on the order of the rows |
| `LedgerLaws.TotalIsMonotone` | keeper/app/restore_runtime.py:963-1000 | a table that keeps every counted reservation has at least the total |
| `Reconciliation.IndexLaunches` | keeper/app/restore_runtime.py:1128-1152 | succeeds exactly for rows in scope, well formed and unrepeated, and finds each row by its id |
| `Reconciliation.ReconcileAttempt` | keeper/app/restore_runtime.py:1024-1119 | one turn of the loop: when it refuses, and the whole new tables otherwise |
| `Reconciliation.WalkAttempts` | keeper/app/restore_runtime.py:1024-1119 | the loop succeeds exactly when the fold over the attempts does, with its result |
| `Reconciliation.ReconcileStaged` | keeper/app/restore_runtime.py:1003-1125 | exactly when reconciliation returns, in terms of the rows and the receipt, the whole tables it leaves then, and that a refusal leaves nothing behind |
| `Reconciliation.RefusalIsFinal` | keeper/app/restore_runtime.py:1024-1119 | one refused attempt refuses the whole restore |
| `Reconciliation.StepKeepsSettled` | keeper/app/restore_runtime.py:1154-1233 | a later turn never undoes what an earlier one established |
| `Reconciliation.EveryAttemptIsSettled` | keeper/app/restore_runtime.py:1003-1125 | every fenced attempt exists with equal bindings, terminal ones carry exactly Authority's digest, budgets past launch are crossed, and rows only move forward |
| `Reconciliation.WalkDoesExactly` | keeper/app/restore_runtime.py:1024-1119 | the whole tables after a successful walk: an attempt that the receipt ends and that carried no completion gets the digest, the end and the time of the first entry that ends it and keeps what it is bound to; its waiting task becomes UNCERTAIN with the next revision and that time; holds of attempts past launch are crossed; nothing else changes |
| `Reconciliation.WalkedToOne` | keeper/app/restore_runtime.py:1024-1119 | the rows before the walk and the receipt leave room for one result only |
| `Reconciliation.WalkSucceedsIff` | keeper/app/restore_runtime.py:1024-1119 | the walk succeeds exactly when every entry finds its launch authorization, its attempt bound and launched alike, its approval spent on this very action, its reservation and for an ended attempt its digest or its waiting task in the rows before the walk, and no attempt is ended in two ways |
| `Reconciliation.UnlistedStateIsRefused` | keeper/app/restore_runtime.py:1031-1046 | an attempt in any other state refuses the restore |
| `Reconciliation.ReconcileConservesBudgets` | keeper/app/restore_runtime.py:1184-1208 | reconciliation keeps every commitment and only adds spending |
| `ExecutionClaims.ClaimMovesOn` | keeper/executive/repository.py:1068-1191 | a claim keeps the schema's keys, takes no row back and consumes exactly its one-time approval |
| `ExecutionClaims.ReleaseUndoesClaim` | keeper/executive/repository.py:1248-1355 | releasing a claim at once restores approvals and consumptions and readies the task, while attempt and hold stay as released |
| `ExecutionClaims.ReleaseKeepsWellFormed` | keeper/executive/repository.py:1248-1355 | a release keeps the schema's keys |
| `ExecutionClaims.ClosedIsNotFreeable` | keeper/executive/repository.py:1262-1305 | no release frees an approval whose attempts have all left LAUNCH_CLAIMED or whose holds are past RESERVED |
| `ExecutionClaims.MovesOnKeepsClosed` | keeper/executive/repository.py:1193-1246 | no other write of the repository opens such an approval again |
| `Restore.ExecutiveStore.ClaimExecution` | keeper/executive/repository.py:1068-1191 | exactly when a claim is accepted, and the whole new database; one that is accepted is for a task that waits, costs nothing or has an approval of the same project and charter that is neither revoked nor consumed |
| `Restore.ExecutiveStore.ReleaseClaim` | keeper/executive/repository.py:1248-1355 | exactly when a release is accepted, and the whole new database |
| `Restore.PauseProjects` | keeper/app/storage.py:1041-1080 | every project but the terminal ones is paused, and no other is touched |
| `Restore.StageBackup` | keeper/app/restore_runtime.py:213-341 | staging succeeds exactly for an intact authorized artifact that reconciles and has not spent the authorization; the identity rises by one epoch and one generation |
| `Restore.ExecutiveStore.AcquireLease` | keeper/app/restore_runtime.py:171-209 | the lease is granted exactly when identity matches, the authorization is unspent, no lease is active and the ledger reads; only the lease row changes |
| `Restore.ExecutiveStore.BindFence` | keeper/app/restore_runtime.py:232-244 | the fence is bound exactly at the live boundary |
| `Restore.ExecutiveStore.RecoverStale` | keeper/app/restore_runtime.py:109-135 | releases exactly an active lease of that operation whose generation is still current |
| `Restore.ExecutiveStore.MarkFailed` | keeper/app/restore_runtime.py:1360-1368 | changes the lease row of that operation and nothing else |
| `Restore.ExecutiveStore.GuardedWrite` | keeper/app/storage.py:94-140 | a write is refused exactly under an active lease and otherwise raises the generation |
| `Restore.ExecutiveStore.Prepare` | keeper/app/restore_runtime.py:210-345 | exactly how the part between lease and replacement ends, and that only the lease's fence changes |
| `Restore.ExecutiveStore.RestoreBackup` | keeper/app/restore_runtime.py:138-381 | the outcome for every failure script; a failed restore changes only the lease row, exactly as stated; a successful one leaves the staged database, which honours the authorization in every field |
| `Restore.StagedHonours` | keeper/app/restore_runtime.py:171-341 | what replaces the live database comes from the artifact with the authorized hash and identity, both databases being production and under no lease, is merged and walked with the live ledger and the receipt, pauses every project that has not ended, spends the authorization and rises by one epoch and one generation |
| `RestoreRuns.ReplacementKeepsUses` | keeper/app/restore_runtime.py:138-381 | whatever the artifact, the replacement holds every live consumption with its binding |
| `RestoreRuns.RunsKeepInv` | keeper/app/restore_runtime.py:138-381 | an active lease pins the generation, current requests cover every project and a running restore owns the live database |
| `RestoreRuns.LossIffRelease` | keeper/executive/repository.py:1262-1312 | a step takes a consumption away exactly when it is an accepted release of it whose guard holds |
| `RestoreRuns.HeldIffNeverFreed` | keeper/app/restore_runtime.py:677-912 | a consumption held at any point of a run, from its start or a write or a restore, is held from there on exactly as long as no release frees it |
| `RestoreRuns.SpentStaysSpent` | keeper/app/restore_runtime.py:677-912 | a consumption stays until a release frees it, through every run |
| `RestoreRuns.NeverSpentTwice` | keeper/app/restore_runtime.py:801-836 | between two consumptions of an approval there is an accepted release that frees it |
| `RestoreRuns.ActionNeverSpentTwice` | keeper/app/storage.py:432-440 | nor is one action paid for by two approvals |
| `RestoreRuns.IdentityOverRuns` | keeper/app/restore_runtime.py:292-316 | the database id is constant, the epoch counts the successful restores, the generation never falls below the first |
| `RestoreRuns.GenerationNeverFalls` | keeper/app/storage.py:94-128 | the generation never falls between any two points of a run |
| `RestoreRuns.StaleRequestNeverMatches` | keeper/app/restore_runtime.py:171-180 | a request whose generation has passed is never granted a lease again |
| `RestoreRuns.EachAuthorizationSucceedsOnce` | keeper/app/restore_runtime.py:171-316 | two successful restores of a run never had the same request |
| `RestoreRuns.LeaseExcludes` | keeper/app/storage.py:129-140 | under an active lease no write and no second lease is accepted |
| `RestoreRuns.InterruptedLeaseIsReleasable` | keeper/app/restore_runtime.py:109-135 | an interrupted lease can always be released by its operation, and only the lease row changes |
| `RestoreRuns.RestoreHoldsTheLiveDatabase` | keeper/app/restore_runtime.py:344-372 | while a restore runs the live tables are those captured, and a failure changes only the lease row |
| `RestoreRuns.RestoreKeepsMarksAndMoney` | keeper/app/restore_runtime.py:777-1000 | a successful restore keeps consumption and revocation marks and never lowers committed or spent totals |
| `RestoreRuns.RestoreBackupIsARun` | keeper/app/restore_runtime.py:138-381 | the transactions of a successful restore form an accepted run with exactly that method's result |
| `RestoreRuns.UnfinishedRestoreIsARun` | keeper/app/restore_runtime.py:344-381 | the transactions of a failed or interrupted restore form runs that end in the failure or the crash with exactly the databases that method allows |
| `ReleaseRuns.ClaimIsAStep` | keeper/executive/repository.py:1068-1191 | a claim is an accepted step of a run with exactly that method's result |
| `ReleaseRuns.ClaimableAgainIff` | keeper/executive/repository.py:3072-3156 | a released claim of an action can be made again exactly when it takes no hold |
| `ReleaseRuns.ReleasedIsSpentAgain` | keeper/executive/repository.py:1248-1355 | any claim of a one-time approval for an action that costs nothing can be released, and the same action then spends the approval again |
| `ReleaseRuns.SpentTwiceInARun` | keeper/executive/repository.py:1068-1355 | from every initial state in which a one-time approval can be claimed for an action that costs nothing, a run spends it, gives it back and spends it again |
| `ReleaseRuns.ReplacementKeepsHold` | keeper/app/restore_runtime.py:963-1000 | a restore of any backup keeps every hold with its terms |
| `ReleaseRuns.ActionIsHeldOnce` | keeper/app/storage.py:442-452 | once an action has a hold, it has that hold and no other through every run, restores included |
| `ReleaseRuns.PaidActionIsClaimedOnce` | keeper/executive/repository.py:3072-3156 | after the claim of an action that costs money no claim of it is accepted, whatever is released or restored |
| `ReleaseRuns.HoldStaysGone` | keeper/app/restore_runtime.py:963-1000 | a hold that was crossed or given back is never reserved again, whatever is restored |
| `ReleaseRuns.CrossedClaimIsNeverReleased` | keeper/executive/repository.py:1262-1305 | no release goes through a claim whose hold was once crossed or given back |
| `ReleaseRuns.WriteKeepsClosed` | keeper/executive/repository.py:1193-1355 | no step but a restore makes an approval releasable whose attempts are all past the claim |
| `ReleaseRuns.RestoreReopensIff` | keeper/app/restore_runtime.py:841-889 | a restore opens such an approval exactly when the backup's row of an attempt is still claimed, the receipt does not end it and nothing crossed its hold |
| `ReleaseRuns.OpenedIffReopened` | keeper/app/restore_runtime.py:841-889 | any step opens it exactly when it is such a restore |
| `ReleaseRuns.ClosedIffNeverReopened` | keeper/app/restore_runtime.py:841-889 | over whole runs it stays closed exactly as long as there is no such restore |
| `ReleaseRuns.ClosedIsNeverReleased` | keeper/executive/repository.py:1248-1355 | before such a restore no release frees it |
| `ReleaseRuns.RestoreMakesReleasableIff` | keeper/app/restore_runtime.py:841-889 | exactly when some task can release the consumption after the restore |
| `RestoreExamples.SecondSpendIsReachable` | keeper/executive/repository.py:1068-1355 | a concrete run that spends one approval twice |
| `RestoreExamples.InputBoundBlocksRestore` | keeper/app/restore_runtime.py:1031-1046 | a concrete backup that stages for a RESERVED attempt and is refused for an INPUT_BOUND one |
| `RestoreExamples.StartedAttemptIsReleasable` | keeper/app/restore_runtime.py:841-889 | a concrete run that starts an attempt, restores an older backup and gives the approval back |
| `RunLifecycle.Lifecycle.Create` | keeper/app/lifecycle.py:88-104 | a record is created once, and an id bound to another task is refused |
| `RunLifecycle.Lifecycle.Transition` | keeper/app/lifecycle.py:106-151 | exactly when a transition is accepted, and the record it stores |
| `RunLifecycle.Lifecycle.RetryStage` | keeper/app/lifecycle.py:153-225 | exactly when a retry is accepted, and the record it stores |
| `RunLaws.ReachableRecordsAreSound` | keeper/app/lifecycle.py:106-225 | sequence counts history, history is one chain from intake, retries return to the stage stopped in, and the stages worked on form a path of the forward table |
| `RunLaws.StageAttemptIdsAreUnique` | keeper/app/lifecycle.py:128-189 | no stage-attempt id is issued twice |
| `RunLaws.ActiveAttemptIsNewest` | keeper/app/lifecycle.py:128-189 | the active id is the newest one issued |
| `RunLaws.StopWasCounted` | keeper/app/lifecycle.py:186-189 | a stage that can be retried has been counted, so the default count is never used |
| `RunLaws.CommitFollowsReview` | keeper/app/lifecycle.py:48-71 | a commit comes directly after audit, final validation and approval decision |
| `RunCourses.PathToClosedIffCourse` | keeper/app/lifecycle.py:48-71 | the forward table leaves a run that reaches CLOSED the opening up to the audit, any number of repairs that return to the audit, and a closing with no commit, a commit, or a commit and a push; these and no other paths |
| `RunCourses.ClosedRunTookACourse` | keeper/app/lifecycle.py:106-225 | whatever stopped and resumed it, a closed run has gone through one of these |
| `RunCourses.EveryCourseIsTaken` | keeper/app/lifecycle.py:106-151 | and each of them is some run's |
| `TaskMachine.LedFrom` | keeper/state_machine.py:20-58 | the task table read the other way: what leads to each status |
| `RunLaws.VisitedStageIsOnTrunk` | keeper/app/lifecycle.py:106-225 | every stage worked on is on that path |
| `RunLaws.ClosedIsFinal` | keeper/app/lifecycle.py:106-225 | nothing moves a closed run |
| `RunLaws.StoppedRunMovesIffRetryable` | keeper/app/lifecycle.py:111-185 | a stopped run can be moved exactly when the stage it stopped in may be retried |
| `RunLaws.StoppedWhileInterruptedIsFinal` | keeper/app/lifecycle.py:111-185 | a run stopped while it was interrupted never moves again |
| `RunLaws.InterruptThenStop` | keeper/app/lifecycle.py:111-118 | interrupting any unfinished run and then stopping it leads there |
| `RunLaws.StuckIffStoppedFromInterrupted` | keeper/app/lifecycle.py:111-118 | a stopped run is there exactly when its last move left INTERRUPTED |
| `RunLaws.StuckRunIsReachable` | keeper/app/lifecycle.py:48-118 | a concrete run cancelled there while it stood at a stage that can be retried |
| `RunLaws.RetryKeepsPosition` | keeper/app/lifecycle.py:153-225 | a retry puts the run back where it stood |
| `Review.Blocking` | keeper/reviewer.py:21-22 | the blocking findings are exactly those of severity Critical or High, each as often as it is reported |
| `Review.AddressedCount` | keeper/reviewer.py:25-46 | comparing the sizes of the set and the list decides that no finding is disposed of twice |
| `Review.AcceptsIffEachResolvedOnce` | keeper/reviewer.py:25-46 | a post-repair review is accepted exactly when each blocker is resolved once, nothing else is disposed of and no new blocker appears |
| `Review.OccursOnceIff` | keeper/reviewer.py:36-43 | counting one disposition of a finding is having exactly one place where it is resolved |
| `Review.AcceptsIffSettles` | keeper/reviewer.py:11-46 | a post-repair review is accepted exactly when every Critical or High finding of the first review has exactly one disposition, resolved, every disposition belongs to one, and the second review reports neither severity |
| `Orchestrator.Engine.Meet` | keeper/app/workflow.py:472-663 | the exact effect of a pause, a resumption, the two steps of a cancellation or a retry on the record and on the two events the observer sees, and that the run keeps its position |
| `Orchestrator.MetKeepsPosition` | keeper/app/workflow.py:472-663 | no request of another thread changes the stage the run stands at |
| `Orchestrator.Engine.Await` | keeper/app/workflow.py:2030-2036 | exactly when the observer is cancelled, and that it passes only with no request standing and the run at its stage |
| `Orchestrator.Engine.Transit` | keeper/app/workflow.py:2037-2057 | exactly where the observer's transitions leave the run with any requests between its steps |
| `Orchestrator.ForbiddenIffStopped` | keeper/app/workflow.py:2037-2057 | an allowed stage is forbidden exactly when requests behind the checks have stopped the run at one of the observer's steps |
| `Orchestrator.MovedToIff` | keeper/app/lifecycle.py:106-151 | one transition behind any requests is refused exactly when they leave the run stopped elsewhere than in the stage asked for |
| `Orchestrator.PauseInsideForbids` | keeper/app/workflow.py:649-663 | one pause behind the checks forbids every next stage and leaves the run interrupted |
| `Orchestrator.Engine.Observe` | keeper/app/workflow.py:2030-2057 | exactly what the call answers and leaves for any requests around its steps, and that it notes a refusal exactly when the folded record does not permit the detour or the stage |
| `Orchestrator.Engine.RetryWhilePaused` | keeper/app/workflow.py:472-515 | a run retried while it is active and paused waits for good unless it is cancelled |
| `Orchestrator.Engine.SetStatus` | keeper/orchestrator.py:101-109 | a status changes exactly along the table, and the observer is told |
| `Orchestrator.Engine.Build` | keeper/orchestrator.py:427-439 | how the author's stage ends: flow, status, stage and checkpoints of every outcome that the observer does not stop |
| `Orchestrator.Engine.SelfVerify` | keeper/orchestrator.py:441-449 | how self-verification ends, for each of its three outcomes |
| `Orchestrator.Engine.Audit` | keeper/orchestrator.py:451-504 | how the audit ends, and that one that continues had an independent reviewer and recorded its report, its blockers and the tree |
| `Orchestrator.Engine.Repair` | keeper/orchestrator.py:506-532 | how a repair ends: it continues exactly when it succeeded and changed the commit or the tree, and blocks the task otherwise |
| `Orchestrator.Engine.ReviewRepairs` | keeper/orchestrator.py:533-590 | how the post-repair review ends, and that one that continues settled every blocker by an independent reviewer |
| `Orchestrator.Engine.Finish` | keeper/orchestrator.py:601-627 | how the final stage ends: completed exactly when the workspace is still the one last reviewed and the final verification passes, and which evidence is recorded |
| `Orchestrator.Engine.FromReview` | keeper/orchestrator.py:506-627 | how the part after the audit ends from each starting stage |
| `Orchestrator.Engine.RunTask` | keeper/orchestrator.py:367-627 | all status changes are in the table, a forbidden stage is raised exactly when an observer call refused, exactly which calls attempt a forbidden status change; a call that the observer does not stop ends with exactly the flow, status, stage, checkpoints and attempts that its agents and checks decide; a fresh call completes the task only when, and undisturbed exactly when, they say so in their own words; and the evidence is of the reviewed tree exactly when nothing edited it in between |
| `Orchestrator.CallCompletesIffGates` | keeper/orchestrator.py:367-627 | the end of a call is COMPLETED exactly when every gate from its starting stage on passes, and then records the reviewed tree, the evidence and the reports as they were made |
| `Orchestrator.FreshGates` | keeper/orchestrator.py:427-627 | for a fresh call the gates are: builder, checks and reviewer succeed, the reviewer is another instance and independent of a Qwen builder, and nothing Critical or High is found on an unchanged tree, or it is repaired and settled by a third instance |
| `Orchestrator.CertifiedIsVouched` | keeper/orchestrator.py:457-599 | a certified task was reviewed by somebody other than its builder, and every Critical or High finding of that review was settled by somebody other than builder and repairer |
| `Workflow.Coordinator.Go` | keeper/app/lifecycle.py:106-151 | a stage change by the coordinator keeps the certificate of a run past validation |
| `Workflow.Coordinator.ApplyAll` | keeper/app/workflow.py:637-663 | pauses, resumptions, cancellations and retries of an active run keep it |
| `Workflow.Coordinator.Recover` | keeper/app/workflow.py:152-470 | a restart interrupts every run that is not at an end and keeps it |
| `Workflow.Coordinator.RetryStage` | keeper/app/workflow.py:472-518 | a retry does nothing unless the lifecycle permits it, moves an active run's record and starts nothing, and executes the run otherwise |
| `Workflow.Coordinator.Execute` | keeper/app/workflow.py:735-892 | when the engine is called at all and what is left otherwise; an undisturbed execution comes to await the approval decision exactly when all gates pass and otherwise is blocked where the engine's call ended, with its status and checkpoints; one pause inside its first observer call leaves it stuck; and which trees a completed task's evidence shows |
| `Workflow.Coordinator.Settle` | keeper/app/workflow.py:690-892 | exactly when the run comes to await the decision, and the whole record and status left otherwise |
| `Workflow.Coordinator.Guard` | keeper/app/workflow.py:707-732 | exactly the record that the handler around a failed execution leaves |
| `Workflow.Coordinator.DeliverRun` | keeper/app/workflow.py:925-1034 | exactly where a delivery leaves the run, for a step that raises anywhere and requests anywhere; undisturbed it adds a commit and a push exactly when they are asked for, up to the step that raises |
| `Workflow.RouteWalked` | keeper/app/workflow.py:925-1034 | an undisturbed walk along the table adds its stages in order, and BLOCKED where it raises |
| `Workflow.Coordinator.Drive` | keeper/app/workflow.py:472-1034 | every call of any sequence does what its operation does; a completed task and a run that ever committed are certified and vouched for by their checkpoints, and a stuck run's record never changes |
| `Workflow.Coordinator.Prepare` | keeper/app/workflow.py:735-892 | exactly how far the preparation comes for a step that raises and requests before any step |
| `Workflow.StuckStays` | keeper/app/lifecycle.py:111-185 | no call moves a stuck run |
| `Workflow.CompletesOnUnreviewedTree` | keeper/orchestrator.py:608-615 | a call that completes although its evidence is of a tree that nobody reviewed |
| `Workflow.PauseInsideCallIsFinal` | keeper/app/workflow.py:649-732 | a new run paused inside its first observer call ends BLOCKED from INTERRUPTED and no calls move it again |
| `Workflow.StuckMeetsAll` | keeper/app/lifecycle.py:111-185 | no requests change the record of a stuck run |
| `Workflow.PastStaysPast` | keeper/app/lifecycle.py:48-71 | a path that passed the approval decision stays past it |
| `Workflow.CommittedIsPast` | keeper/app/lifecycle.py:48-71 | a run that ever committed stands past validation |
| `AuthorityStore.Store.IsUnfenced` | keeper/authority_service/store.py:1160-1173 | true exactly when no active fence covers any of the projects |
| `AuthorityStore.Store.Insert` | keeper/authority_service/store.py:334-415 | stores exactly a fresh attempt in an unfenced project |
| `AuthorityStore.Store.Transition` | keeper/authority_service/store.py:442-496 | compare-and-swap of state and payload in an unfenced project |
| `AuthorityStore.Store.Claim` | keeper/authority_service/store.py:888-944 | the claim is taken exactly when launch, lease, usage and attempt state allow it, and usage exhaustion is told apart |
| `AuthorityStore.Store.Newest` | keeper/authority_service/store.py:770-793 | finds the newest generation of a project |
| `AuthorityStore.Store.CreateLaunch` | keeper/authority_service/store.py:731-841 | creates exactly the first generation, or the next one of a revoked newest, with a capability that clashes with no spent one on any unique key; an equal request is answered again |
| `AuthorityStore.Store.RevokeLaunch` | keeper/authority_service/store.py:843-886 | revokes and cancels exactly the launch's waiting and claimed attempts, at once |
| `AuthorityStore.Store.BeginFence` | keeper/authority_service/store.py:946-992 | a fence begins exactly over an unfenced scope and records its rows |
| `AuthorityStore.Store.ConfirmFence` | keeper/authority_service/store.py:994-1024 | confirms exactly an active unexpired fence whose scope is unchanged |
| `AuthorityStore.Store.EndFence` | keeper/authority_service/store.py:1026-1081 | when a fence may be completed, aborted or expired |
| `AuthorityService.Service.CommitRequest` | keeper/authority_service/core.py:1139-2578 | what the transaction of a request does to the tables and to the request |
| `AuthorityService.Service.ClaimLaunch` | keeper/authority_service/core.py:1799-1842 | a claim, a refusal or a wait for usage, and what the request does next |
| `AuthorityService.Service.Perform` | keeper/authority_service/core.py:538-2578 | one step of the service is one step of the model |
| `AuthorityService.Service.Ask` | keeper/authority_service/core.py:1582-2578 | what each request makes of an attempt in progress of its own client, or nothing |
| `AuthorityService.Service.Finish` | keeper/authority_service/core.py:2166-2268 | the completion record repeats the attempt, and its state is the one the outcome names |
| `AuthorityService.Service.Serve` | keeper/authority_service/core.py:538-2578 | the service on any events is the run of the model, so every theorem about runs is about it |
| `AuthorityLaws.ReadSound` | keeper/authority_service/core.py:1582-2164 | what each handler computes from a read extends the attempt by its own part only |
| `AuthorityLaws.PendingKept` | keeper/authority_service/core.py:1711-2025 | no other request makes a pending copy stale while the attempt is where it was read |
| `AuthorityLaws.ReportSound` | keeper/authority_service/core.py:1843-1985 | what the start callback, the exception handler and the finish compute extends the attempt likewise |
| `AuthorityLaws.SwapAdvances` | keeper/authority_service/store.py:442-496 | a transition a handler asks for stores a sound row one step further on |
| `AuthorityLaws.FencesKept` | keeper/authority_service/store.py:1160-1173 | no write shows in the scope of an active fence |
| `AuthorityLaws.CreateFollows` | keeper/authority_service/store.py:770-807 | creating a launch keeps generations consecutive and older ones revoked |
| `AuthorityLaws.RevokeBacked` | keeper/authority_service/store.py:843-886 | a revocation leaves no claimed attempt behind |
| `AuthorityLaws.StepKeepsInv` | keeper/authority_service/core.py:1139-2578 | every step of every handler keeps the invariant and moves attempts forward |
| `AuthorityRuns.ReachableIsSound` | keeper/authority_service/core.py:1139-2578 | the invariant holds in every reachable state |
| `AuthorityRuns.RunsMoveForward` | keeper/authority_service/core.py:1139-2578 | attempts only move forward, recorded parts never change, launches and fences only end |
| `AuthorityRuns.FinalStatesAreFinal` | keeper/authority_service/core.py:1711-2578 | no step leaves a final state |
| `AuthorityRuns.NeverWaitsAgain` | keeper/authority_service/core.py:1711-2164 | an attempt never returns to RESERVED or INPUT_BOUND |
| `AuthorityRuns.ClaimedAtMostOnce` | keeper/authority_service/core.py:1799-1820 | an attempt is claimed for launch at most once |
| `AuthorityRuns.EnteredAtMostOnce` | keeper/authority_service/core.py:1711-2578 | every state but running and paused is entered at most once |
| `AuthorityRuns.CompletionRepeatsTheAttempt` | keeper/authority_service/core.py:2166-2268 | a completion repeats the reserved launch, generation and terms, the bound digests, the claim and the process of every earlier record |
| `AuthorityRuns.RecordedInputWasBound` | keeper/authority_service/core.py:1582-1709 | a recorded input was bound in INPUT_BOUND and never replaced |
| `AuthorityRuns.RequiredInputWasBound` | keeper/authority_service/core.py:1753-1766 | a launched attempt that requires an input went through INPUT_BOUND with that input |
| `AuthorityRuns.ClaimedMeansActive` | keeper/authority_service/store.py:843-944 | while an attempt is claimed its generation is active |
| `AuthorityRuns.ObservedStartIsAuthorized` | keeper/authority_service/core.py:1849-1896 | a start observed after a claim happens under an active generation |
| `AuthorityRuns.ReportedStartIsAuthorizedIffReservedInTime` | keeper/authority_service/core.py:2057-2121 | a start reported for an unclaimed attempt happens under an active generation exactly when the reservation was stored under one |
| `AuthorityRuns.LateReservationIsReachable` | keeper/authority_service/core.py:1139-1495 | the other case is reachable by a revocation between the two steps of a reservation |
| `AuthorityRuns.OlderGenerationIsRevoked` | keeper/authority_service/store.py:770-807 | every generation but the newest is revoked and was issued to the same client |
| `AuthorityRuns.GenerationsHaveNoGaps` | keeper/authority_service/store.py:770-807 | generations are consecutive from one |
| `AuthorityRuns.OneActiveGeneration` | keeper/authority_service/core.py:538-672 | one active generation per project, no two launches with clashing capabilities, and no revoked generation comes back |
| `AuthorityRuns.FenceFreezesItsScope` | keeper/authority_service/store.py:946-1024 | while a fence is active its scope is what it recorded, so a confirmation never finds a change |
| `AuthorityProvenance.AttemptWasReserved` | keeper/authority_service/core.py:1139-1495 | every stored attempt was asked for by an event of the run, under a launch authorization that was then in the table, active and held by the client that asked |
| `AuthorityProvenance.ChangeWasAsked` | keeper/authority_service/core.py:1582-2578 | every step that changes an attempt carries out an earlier request of the client that reserved it, made while the attempt was where it may be made and with the input, claim, start or result that is stored; the only other change is the revocation of its launch before it started |
| `AuthorityProvenance.RequestWasOpened` | keeper/authority_service/core.py:1139-2578 | every request in progress was opened by an event of the run and stands for no more than that event asked |
| `AuthorityProvenance.ContinuedOwes` | keeper/authority_service/core.py:1822-2055 | no later step of a request goes beyond what it was opened for |
| `HostEnrollment.Enrollments.Admissible` | keeper/authority_service/store.py:608-650 | a new enrollment is admitted exactly when none is unresolved, its generation is higher and nothing is replayed |
| `HostEnrollment.Enrollments.BeginEnrollment` | keeper/authority_service/provider_host_enrollment.py:103-215 | exactly when an enrollment begins or is answered once more, and the whole record stored |
| `HostEnrollment.Enrollments.CompleteEnrollment` | keeper/authority_service/provider_host_enrollment.py:217-308 | the whole outcome for every proof, state, activation and death: the proof is durable before the activation, and a failed activation leaves doubt |
| `HostEnrollment.Enrollments.ReconcileEnrollment` | keeper/authority_service/provider_host_enrollment.py:310-357 | the whole outcome for every state: an expired grant expires, a live one is completed, an active or doubtful activation is repeated, and a fenced enrollment is never touched |
| `HostEnrollment.Enrollments.RevokeEnrollment` | keeper/authority_service/provider_host_enrollment.py:359-435 | the whole outcome for every capability, state, deactivation and death: the fence is durable first and stays when the deactivation fails, and REVOKED implies that the gateway is down |
| `HostEnrollment.Enrollments.Fence` | keeper/authority_service/provider_host_enrollment.py:396-435 | what a revocation that passed its checks writes, in order |
| `HostEnrollment.Enrollments.RevokedStaysDown` | keeper/authority_service/provider_host_enrollment.py:359-440 | a revocation that passed its checks and wrote its fence keeps the enrollment from every later activation, whatever becomes of the rest of it and whatever is called afterwards |
| `HostEnrollment.Enrollments.RevokeAcrossDeath` | keeper/authority_service/provider_host_enrollment.py:359-435 | a revocation that dies is finished by its own capability exactly when it died before its fence was written, and otherwise by an unused one |
| `HostEnrollment.RepeatedRevocationIsRefused` | keeper/authority_service/provider_host_enrollment.py:386-420 | from an empty store, a revocation that dies behind its fence and whose repetition is refused |
| `HostEnrollment.Enrollments.IsReplayed` | keeper/authority_service/provider_host_enrollment.py:386-388 | true exactly when some record carries the capability |
| `HostEnrollment.Enrollments.RestartProcess` | keeper/authority_service/provider_host_enrollment.py:437-440 | a new process activates the active enrollment and nothing else |
| `HostEnrollment.Enrollments.Drive` | keeper/authority_service/provider_host_enrollment.py:103-440 | over any calls with deaths anywhere, every call does what its operation does, fences stand and nothing fenced is activated |
| `EvidenceInput.ValidateCommon` | keeper/evidence_input.py:339-389 | accepts exactly references that repeat the scope, with distinct ids |
| `EvidenceInput.ValidateInput` | keeper/evidence_input.py:146-165 | accepts exactly a valid base whose delivered digest is that of its material |
| `EvidenceInput.Finalize` | keeper/evidence_input.py:107-143 | succeeds exactly for valid parts, and what it makes validates with the digests it returns |
| `EvidenceInput.ValidateDeclaration` | keeper/evidence_input.py:225-250 | accepts exactly declarations that repeat the scope, the reviewer, the transport, the digests, the disposition and every reference of a valid input |
| `EvidenceInput.DeclarationFitsOneInput` | keeper/evidence_input.py:185-250 | an accepted declaration fits one input, digest and disposition |
| `Verification.ValidateBindings` | keeper/app/verification_policy.py:46-214 | accepts exactly distinct commands that fit their category's validator and its registration, with live waivers, that cover the required categories |
| `Verification.CategoryDecidesCommand` | keeper/app/verification_policy.py:35-43 | read by category: the one validator and the command that the bindings accept for each |
| `Verification.WaivedIffHonoured` | keeper/app/verification_policy.py:62-109 | a specification is waived exactly when the last waiver of its id is for this task and category, justified, not revoked and not expired |
| `Verification.RunCommands` | keeper/verifier.py:51-135 | raises exactly when a command whose turn comes raises, and otherwise gives the results up to and including the first required failure |
| `Verification.BoundSpecRunsIff` | keeper/verifier.py:137-290 | exactly which specifications that the bindings accept the verifier starts |
| `Verification.RefusedSpecGivesNoVerdict` | keeper/verifier.py:290 | a specification that the verifier refuses leaves the task without a verdict in every world |
| `Verification.BreaksIffSpecRaises` | keeper/verifier.py:55-90 | the verifier raises exactly when a specification whose turn comes makes it raise |
| `Verification.VerifySpecs` | keeper/orchestrator.py:184-344 | exactly when it raises; each evidence item belongs to its own specification; passed means every executable specification exited zero and every required category rests on a command that fits it or on an honoured waiver |
| `Verification.VerifyPlain` | keeper/orchestrator.py:250-345 | exactly when it raises; passed means every command compared a file and exited zero; the first failure ends the evidence |
| `Verification.Verify` | keeper/orchestrator.py:174-345 | for every task, stage and workspace, exactly when it raises and what a passing verdict means: for every required category its command was started and exited zero, or a waiver for this task and category that is justified, not revoked and not expired was honoured |
| `Verification.StoppedBefore` | keeper/orchestrator.py:304-307 | results run out only behind a required failure |
| `Verification.NotStopped` | keeper/orchestrator.py:304-307 | and they do run out behind one that is not last |
| `Verification.PassedMeansVerified` | keeper/orchestrator.py:338-345 | what a passing verdict rests on, in the fields of the specifications and the waivers |
| `TaskQueue.EligibleTasks` | keeper/task_queue.py:27-38 | the sorted permutation of the tasks that wait, have their dependencies completed and attempts left |
| `TaskQueue.Queue.Next` | keeper/task_queue.py:40-43 | the eligible task that no other overtakes by phase, sequence, priority and identifier, or none when there is none |
| `TaskQueue.Queue.RunNext` | keeper/orchestrator.py:647-649 | one attempt is used, and completed dependencies stay completed |
| `TaskQueue.Queue.Start` | keeper/cli.py:324-329 | the loop ends within the attempts left, every started task was the least eligible with its dependencies completed, each queue it was chosen from is the one before with the task just run updated, and a loop that was not stopped leaves nothing eligible |
| `TaskQueue.ChainedStep` | keeper/cli.py:324-329 | one more task run continues the chain of queues |
| `TaskQueue.AttemptIsUsed` | keeper/orchestrator.py:385-393 | a started task lowers the sum of remaining attempts by one |
| `TaskQueue.CompletedStay` | keeper/state_machine.py:52-56 | running another task leaves completed tasks completed |
| `ByteCodec.BigRoundTrip` | keeper/authority_service/provenance.py:1055-1057 | a fixed-width big-endian number is read back |
| `ByteCodec.LittleRoundTrip` | keeper/authority_service/protocol.py:116-126 | a fixed-width little-endian number is read back |
| `Framing.FrameRoundTrip` | keeper/authority_service/protocol.py:116-136 | decoding undoes encoding, whatever follows |
| `Framing.FramesRoundTrip` | keeper/authority_service/protocol.py:116-136 | a conversation is read back in order with every byte used |
| `Framing.FramesAreUnambiguous` | keeper/authority_service/protocol.py:116-136 | different conversations are different bytes |
| `Framing.CutFrame` | keeper/authority_service/protocol.py:178-187 | a cut frame is the end of the stream |
| `Framing.CutGivesCompleteMessages` | keeper/authority_service/protocol.py:125-187 | a conversation cut at any byte gives exactly the complete messages before the cut |
| `Framing.Write` | keeper/authority_service/ipc_server.py:280-297 | exactly the bytes that successive calls take are written; everything, or a proper prefix when a write fails or stalls |
| `Framing.ReadExact` | keeper/authority_service/protocol.py:178-187 | returns exactly the next bytes, or the end of the stream |
| `Framing.DecodeFrame` | keeper/authority_service/protocol.py:125-136 | reads one frame and uses exactly its bytes |
| `Framing.ReadAll` | keeper/authority_service/protocol.py:125-136 | reads the messages of the stream up to its end |
| `Framing.Converse` | keeper/authority_service/ipc_server.py:267-297 | with pieces of any size both ways, what was sent completely is received, in order |
| `EntriesDigest.FeedEntries` | keeper/authority_service/provenance.py:1051-1059 | feeds exactly the stream of the entries, unless a length does not fit |
| `EntriesDigest.FirstEntryIsDetermined` | keeper/authority_service/provenance.py:1051-1059 | the first entry and the rest can be read off the bytes |
| `EntriesDigest.StreamDeterminesEntries` | keeper/authority_service/provenance.py:1051-1059 | equal bytes come from equal lists |
| `RateWindow.RateLimiter.RateLimit` | keeper/authority_service/ipc_server.py:212-220 | for any times, a request is accepted exactly when fewer than the limit are in the queue after pruning, and the queue is the end of the accepted history |
| `RateWindow.ExtendedIsWindowed` | keeper/authority_service/ipc_server.py:216-220 | pruning drops only what has left the window, so the request that is the limit-th before an accepted one had left it |
| `RateWindow.WindowHoldsAtMostLimit` | keeper/authority_service/ipc_server.py:212-220 | no closed interval shorter than 60 seconds by the client's delay holds more accepted requests than the limit |
| `RateWindow.QueueCounts` | keeper/authority_service/ipc_server.py:216-218 | the pruned queue is at least as long as the accepted times of the window shortened by the delay and at most as long as those of the window lengthened by it |
| `RateWindow.QueueIsWindow` | keeper/authority_service/ipc_server.py:216-220 | for a client in order the queue is exactly its accepted times of the last 60 seconds |
| `RateWindow.ServedInOrder` | keeper/authority_service/ipc_server.py:212-220 | for a client in order a request is accepted exactly when fewer than the limit were accepted in its window |
| `RateWindow.Serve` | keeper/authority_service/ipc_server.py:212-220 | for any requests at any times: every decision is that of its client's queue, accepted times and queues are exactly those of the client's own requests, what an acceptance and a refusal mean for every delay, and at most the limit in every interval shorter than the window by the delay |
| `RateWindow.OvertakenExceedsLimit` | keeper/authority_service/ipc_server.py:212-220 | requests that overtake each other and put three accepted ones into a window with the limit two |
| `RateWindow.OvertakenIsRefused` | keeper/authority_service/ipc_server.py:212-220 | requests that overtake each other and a refusal with one accepted time in the window and the limit two |

## Left out

- SQLite, WAL, fsync, file locks and named pipes: a transaction is one step, the restore's file lock
  is the presence of a running restore, a pipe is a byte sequence whose pieces are chosen outside.
- SHA-256, HMAC, signatures, JSON encoding and Founder authentication: injective constructors and
  validity parameters. Long field-by-field comparisons are one equality of a record.
- Times other than expiries, stamps that restores write and the rate window; audit logs; reports.
- A guarded transaction that changes no row leaves the generation alone and is no step of a run.
- `build_restore_request` (keeper/app/restore.py:108): any request that names the live identity and
  covers the live projects may be authorized; the union with the backup's projects is one of these.
- Database schema migration and integrity hashes of rows; rows are well typed and intact.
- Reservation checks other than the launch authorization (provider registration, roles, effort,
  models, prompts), and the checks of a bound input against its attempt: a request that fails them
  does nothing.
- Handlers of Authority: what one computes between a read and a write is a function of the row read;
  its local variables are the stored next step.
- `EvidenceInput.ValidateCommon`: checks on single fields (texts, numbers, digests, remote
  identities) are a flag of the reference or of the base.
- `EvidenceInput.ValidateInput`: the text and number checks of the transport fields are a flag.
- `Orchestrator.Engine.Observe`: one transition of the run record is atomic; its read and its write
  are separate in the code.
- `Orchestrator.Engine.Meet`: a pause sets its event and moves the run in one step, and so does a
  resumption; the second step of a cancellation does not outlive a retry of the run.
- `Orchestrator.Engine.RunTask`: a process death inside a call is covered where the call can raise,
  not between saving a status and telling the observer about it; the workspace identities read after
  a review and around a repair are read without failing.
- `Workflow.Coordinator.Drive`: routing and reroute authorizations are steps that may raise; the
  process inspection of recovery is its outcome.
- `HostEnrollment.Enrollments.Drive`: one operation at a time, as the coordinator is used.
- `TaskQueue.Queue.RunNext`: the status a run leaves is a parameter; what a run does is
  `Orchestrator.Engine.RunTask`.
- `Verification.Verify`: reading the stored specifications and writing the evidence files; the digest,
  launcher and module checks of a registered validator are a flag, and the verifier may raise anyway.
- Charter, capability and cumulative limit checks of a claim, and the tables that restore does not
  read: a claim is accepted as far as the modelled tables and the price of its action decide it.
- Provider discovery and routing, the desktop, CLI parsing, notifications, Windows process and ACL
  handling, subprocess and git calls, the lineage journal: external, or single branches only.
