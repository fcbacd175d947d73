/** Concrete inputs and runs on the other side of what the release and the restore promise. */
module RestoreExamples {
  import opened Common
  import opened ExecutiveTables
  import opened ExecutionClaims
  import opened SafetyLedger
  import opened Reconciliation
  import opened Restore
  import opened RestoreRuns
  import opened ReleaseRuns

  const PROJECT: Id := 1
  const CHARTER: Id := 2
  const APPROVAL: Id := 3
  const TASK: Id := 4
  const ACTION: Id := 5

  function PlainPlan(attempt: Id): Plan {
    Plan(attempt, SafetyBinding(PROJECT, CHARTER, 1, TASK, ACTION, Some(APPROVAL), None, Some(attempt)),
         LaunchBinding(0, 0, 0, 0, 0, 0, 1), Price(false, Some(0), 0))
  }

  /** One project, charter, ready task and unspent one-time approval. */
  function FirstTables(): Tables {
    Tables(
      map[PROJECT := ProjectOpen(0)], {CHARTER}, map[TASK := ExecutiveTask(TaskOpen(ReadyTask), 0, None, 0)],
      map[APPROVAL := Approval(ApprovalTerms(1, 0, PROJECT, CHARTER, 1, true, 0), None, None)], map[], map[], map[])
  }

  function FirstSystem(): System {
    System(Database(Identity(0, 0, 0, true), FirstTables(), None, map[]), {}, None)
  }

  lemma FirstIsReady()
    ensures var s := FirstSystem();
      && Initial(s) && Claimable(s.live.tables, TASK, PlainPlan(6))
      && SpendsOnce(s.live.tables, PlainPlan(6)) && TriesAgain(PlainPlan(6), PlainPlan(7))
      && PlainPlan(7).attempt !in s.live.tables.attempts
  {
  }

  /** A run that consumes an approval, gives it back and consumes it again. */
  lemma SecondSpendIsReachable()
    ensures exists s, events, use ::
      && Initial(s) && |events| == 3
      && SpendsAt(s, events, 0, APPROVAL, use) && ReleasesAt(s, events, 1, APPROVAL) && SpendsAt(s, events, 2, APPROVAL, use)
  {
    FirstIsReady();
    hide Initial, Claimable, TriesAgain, FirstSystem, SpendsOnce, SpendsAt, ReleasesAt;
    var events := SpentTwiceInARun(FirstSystem(), TASK, PlainPlan(6), PlainPlan(7), 1, 2);
  }

  // --------------------------------- an older backup and a started attempt

  function Attempted(state: AttemptState): Tables {
    var plan := PlainPlan(6);
    FirstTables().(
      tasks := map[TASK := ExecutiveTask(TaskOpen(ClaimedTask), 1, Some(6), 1)],
      approvals := map[APPROVAL := Approval(ApprovalTerms(1, 0, PROJECT, CHARTER, 1, true, 0), Some(1), None)],
      consumptions := map[APPROVAL := Consumption(UseOf(plan.binding), 1)],
      attempts := map[6 := ExecutiveAttempt(plan.binding, plan.launch, state, None, None, None)])
  }

  /** The database right after the claim, and after the provider started. */
  function ClaimedTables(): Tables { Attempted(CLAIMED) }
  function StartedTables(): Tables { Attempted(AttemptIn(StartedPhase)) }

  function OldBackup(): Artifact {
    Artifact(9, Database(Identity(0, 0, 1, true), ClaimedTables(), None, map[]))
  }

  function OldRequest(): Request {
    Request(8, 9, Identity(0, 0, 1, true), Identity(0, 0, 2, true), {PROJECT})
  }

  /** Authority's account of the attempt. */
  function ReceiptIn(state: ServiceState): Receipt {
    Receipt([FencedAttempt(AuthorityRecord(6, PROJECT, CHARTER, 1, TASK, PlainPlan(6).launch, 0), state)],
            [LaunchRow(0, PROJECT, 1, true)], 5)
  }

  function StartedReceipt(): Receipt { ReceiptIn(ExecutionStarted) }

  function OldCopy(): Copy { Copy(OldBackup(), StartedReceipt(), 10, 6) }

  function OldAuthorization(): Authorization { Authorization(OldRequest(), 0) }

  function WholeLedger(t: Tables): Ledger {
    Ledger({PROJECT}, t.approvals, t.consumptions, t.budgets, t.attempts)
  }

  lemma LedgerIsWhole(state: AttemptState)
    ensures LedgerOf(Attempted(state), {PROJECT}) == WholeLedger(Attempted(state))
    ensures Unambiguous(WholeLedger(Attempted(state)))
  {
    var t := Attempted(state);
    assert ScopedConsumptions(t, {PROJECT}) == t.consumptions && ScopedBudgets(t, {PROJECT}) == t.budgets;
    assert APPROVAL in RequiredApprovals(t, {PROJECT});
    assert ScopedApprovals(t, {PROJECT}) == t.approvals;
    assert ScopedAttempts(t, {PROJECT}) == t.attempts;
  }

  lemma MergeChangesNothing()
    ensures Merged(ClaimedTables(), WholeLedger(StartedTables())) == ClaimedTables()
    ensures Fits(ClaimedTables(), WholeLedger(StartedTables()))
  {
    var t, live := ClaimedTables(), WholeLedger(StartedTables());
    assert MergedApprovals(t.approvals, live.approvals) == t.approvals;
    assert t.consumptions + live.consumptions == t.consumptions;
    assert MergedBudgets(t.budgets, live.budgets) == map[];
    assert live.attempts + t.attempts == t.attempts;
  }

  lemma WalkChangesNothing(state: ServiceState)
    requires state in {ReservedAttempt, ExecutionStarted}
    ensures var r := ReceiptIn(state);
      Reconcile(ClaimedTables(), {PROJECT}, IndexOf(r.launches, 1), r.attempts, r.issuedAt) == Some(ClaimedTables())
  {
    var r := ReceiptIn(state);
    assert r.attempts[..0] == [];
    assert Admissible(ClaimedTables(), {PROJECT}, IndexOf(r.launches, 1), r.attempts[0]);
  }

  lemma OldBackupStages(state: ServiceState)
    requires state in {ReservedAttempt, ExecutionStarted}
    ensures CanStage(OldAuthorization(), OldBackup(), ReceiptIn(state), LedgerOf(StartedTables(), {PROJECT}))
    ensures Reconciled(ClaimedTables(), {PROJECT}, ReceiptIn(state), LedgerOf(StartedTables(), {PROJECT}))
      == Some(ClaimedTables())
  {
    LedgerIsWhole(CLAIMED);
    LedgerIsWhole(AttemptIn(StartedPhase));
    MergeChangesNothing();
    WalkChangesNothing(state);
    hide Merged, Fits, Reconcile, IndexOf, LedgerOf;
  }

  /** A backup that stages while the fenced attempt is RESERVED is refused when the same attempt
      is INPUT_BOUND, with nothing else changed. */
  lemma InputBoundBlocksRestore()
    ensures var live := LedgerOf(StartedTables(), {PROJECT});
      && CanStage(OldAuthorization(), OldBackup(), ReceiptIn(ReservedAttempt), live)
      && !CanStage(OldAuthorization(), OldBackup(), ReceiptIn(InputBound), live)
  {
    OldBackupStages(ReservedAttempt);
    var r, live := ReceiptIn(InputBound), LedgerOf(StartedTables(), {PROJECT});
    UnlistedStateIsRefused(Merged(ClaimedTables(), live), {PROJECT}, IndexOf(r.launches, 1), r.attempts, r.issuedAt, 0);
    hide Merged, Mergeable, Reconcile, IndexOf, LedgerOf;
  }

  // ------------------------------------------------- the run of that backup

  function At(generation: nat, t: Tables): Database {
    Database(Identity(0, 0, generation, true), t, None, map[])
  }

  function ClaimFirst(): Event {
    Spend(APPROVAL, Consumption(UseOf(PlainPlan(6).binding), 1), ClaimedTables())
  }

  lemma ClaimStarts()
    ensures var s := FirstSystem();
      && Accepted(s, ClaimFirst()) && Next(s, ClaimFirst()) == System(At(1, ClaimedTables()), {}, None)
  {
    FirstIsReady();
    assert AfterClaim(FirstTables(), TASK, PlainPlan(6), 1) == ClaimedTables();
    ClaimMovesOn(FirstTables(), TASK, PlainPlan(6), 1);
  }

  lemma ProviderStarts()
    ensures var s := System(At(1, ClaimedTables()), {}, None);
      var e := OtherWrite(StartedTables());
      && Accepted(s, e) && Next(s, e) == System(At(2, StartedTables()), {}, None)
  {
  }

  lemma BackupIsRequested()
    ensures var s := System(At(2, StartedTables()), {}, None);
      var e := BuildRequest(OldRequest());
      var requested := System(At(2, StartedTables()), {OldRequest()}, None);
      Accepted(s, e) && Next(s, e) == requested && CanAcquire(requested.live, OldAuthorization())
  {
    LedgerIsWhole(AttemptIn(StartedPhase));
    hide LedgerOf, Unambiguous;
  }

  function Replaced(): Tables {
    ClaimedTables().(projects := map[PROJECT := ProjectPausedForRestore(6)])
  }

  lemma StagedIsReplaced()
    requires CanStage(OldAuthorization(), OldBackup(), StartedReceipt(), LedgerOf(StartedTables(), {PROJECT}))
    ensures var d := Staged(OldAuthorization(), OldBackup(), StartedReceipt(), LedgerOf(StartedTables(), {PROJECT}), 10, 6);
      d.tables == Replaced() && !UnderLease(d)
  {
    assert PausedProjects(ClaimedTables().projects, 6) == map[PROJECT := ProjectPausedForRestore(6)];
    hide CanStage, Reconciled, LedgerOf, ClaimedTables, StartedTables, PausedProjects, FirstTables, PlainPlan;
    OldBackupStages(ExecutionStarted);
  }

  lemma BackupReplaces()
    ensures var s := System(At(2, StartedTables()), {OldRequest()}, None);
      var staged := Next(Next(Next(s, Acquire(OldAuthorization())), BindFenceTo(10)), Stage(OldCopy()));
      && Accepted(staged, Replace) && Next(staged, Replace).running.None?
      && Next(staged, Replace).live.tables == Replaced()
      && !UnderLease(Next(staged, Replace).live)
  {
    var s := System(At(2, StartedTables()), {OldRequest()}, None);
    OldBackupStages(ExecutionStarted);
    BackupIsRequested();
    StagedIsReplaced();
    hide Next, Accepted, CanStage, CanAcquire, Staged, LedgerOf, StartedTables, Replaced, UnderLease;
    RestoreBackupIsARun(s, OldAuthorization(), OldCopy());
  }

  lemma ReplacedIsReleasable()
    ensures ReleaseGuard(Replaced(), TASK, 1) && Frees(Replaced(), TASK, APPROVAL)
  {
  }

  lemma ReleaseAccepted()
    ensures forall s: System :: s.running.None? && s.live.tables == Replaced() && !UnderLease(s.live) ==>
      Accepted(s, Release(TASK, 1, 7))
  {
    ReplacedIsReleasable();
  }

  lemma StartedIsClosed()
    ensures SpentAndClosed(System(At(2, StartedTables()), {}, None), APPROVAL)
  {
  }

  lemma EightSteps(s: System, e: seq<Event>)
    requires |e| == 8
    ensures Run(s, e[..0]) == s && Run(s, e[..2]) == Next(Next(s, e[0]), e[1])
    ensures Run(s, e[..6]) == Next(Next(Next(Next(Run(s, e[..2]), e[2]), e[3]), e[4]), e[5])
    ensures Run(s, e[..7]) == Next(Run(s, e[..6]), e[6])
  {
    hide Next;
    forall k | 0 <= k < 7
      ensures Run(s, e[..k + 1]) == Next(Run(s, e[..k]), e[k])
    {
      assert e[..k + 1][..k] == e[..k];
    }
    hide Run;
    assert Run(s, e[..1]) == Next(s, e[0]);
    assert Run(s, e[..3]) == Next(Run(s, e[..2]), e[2]);
    assert Run(s, e[..4]) == Next(Run(s, e[..3]), e[3]);
    assert Run(s, e[..5]) == Next(Run(s, e[..4]), e[4]);
  }

  ghost function Reopening(): seq<Event> {
    [ClaimFirst(), OtherWrite(StartedTables()), BuildRequest(OldRequest()), Acquire(OldAuthorization()),
     BindFenceTo(10), Stage(OldCopy()), Replace, Release(TASK, 1, 7)]
  }

  lemma ReopeningStarts()
    ensures var s, e := FirstSystem(), Reopening();
      SpendsAt(s, e, 0, APPROVAL, UseOf(PlainPlan(6).binding)) && Run(s, e[..2]) == System(At(2, StartedTables()), {}, None)
  {
    ClaimStarts();
    ProviderStarts();
    EightSteps(FirstSystem(), Reopening());
    hide Next, Run, FirstSystem, ClaimedTables, StartedTables, OldRequest, OldCopy, OldAuthorization, PlainPlan, Accepted;
  }

  lemma ReopeningEnds()
    ensures var s, e := FirstSystem(), Reopening();
      ReplacesAt(s, e, 6) && ReleasesAt(s, e, 7, APPROVAL)
  {
    ReopeningStarts();
    BackupIsRequested();
    BackupReplaces();
    ReplacedIsReleasable();
    ReleaseAccepted();
    hide Next, Run, SpendsAt, FirstSystem, ClaimFirst, ClaimedTables, StartedTables, Replaced, CanAcquire, Frees;
    hide OldRequest, OldCopy, OldAuthorization, PlainPlan, Accepted, ReleaseGuard;
    EightSteps(FirstSystem(), Reopening());
  }

  /** A run that spends an approval, starts the attempt, so that no release can give the approval
      back, restores the backup taken between the two, and then gives the approval back. */
  lemma StartedAttemptIsReleasable()
    ensures exists s, events, use ::
      && Initial(s) && |events| == 8
      && SpendsAt(s, events, 0, APPROVAL, use)
      && Run(s, events[..2]).live.tables == StartedTables() && ClosedAt(s, events, 2, APPROVAL)
      && ReplacesAt(s, events, 6) && ReleasesAt(s, events, 7, APPROVAL)
  {
    FirstIsReady();
    ReopeningStarts();
    ReopeningEnds();
    StartedIsClosed();
    hide Initial, Run, SpendsAt, ReplacesAt, ReleasesAt, SpentAndClosed;
    hide FirstSystem, StartedTables, Claimable, SpendsOnce, TriesAgain;
    assert |Reopening()| == 8;
  }
}
