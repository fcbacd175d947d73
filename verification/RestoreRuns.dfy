/** Whole runs of the Executive database: guarded writes, restores of arbitrary artifacts,
    failures, crashes and stale recoveries, interleaved one transaction at a time. */
module RestoreRuns {
  import opened Common
  import opened ExecutiveTables
  import opened ExecutionClaims
  import opened SafetyLedger
  import opened LedgerLaws
  import opened Reconciliation
  import opened Restore

  /** The inputs from which the replacement was staged. */
  datatype Copy = Copy(artifact: Artifact, receipt: Receipt, fence: Id, at: Stamp)

  /** A restore in progress: it holds the exclusive file lock. */
  datatype Running = Running(a: Authorization, captured: Database, copy: Option<Copy>)

  datatype System = System(live: Database, issued: set<Request>, running: Option<Running>)

  datatype Event =
    | BuildRequest(r: Request)
    | Spend(approval: Id, row: Consumption, spendTables: Tables)
    | Release(task: Id, revision: int, at: Stamp)
    | OtherWrite(writtenTables: Tables)
    | Acquire(a: Authorization)
    | BindFenceTo(fence: Id)
    | Stage(copy: Copy)
    | Replace
    | Fail
    | Crash
    | Recover(operation: Id)

  function Captured(run: Running): Ledger {
    Ledger(run.a.request.scope, ScopedApprovals(run.captured.tables, run.a.request.scope),
           ScopedConsumptions(run.captured.tables, run.a.request.scope),
           ScopedBudgets(run.captured.tables, run.a.request.scope),
           ScopedAttempts(run.captured.tables, run.a.request.scope))
  }

  ghost predicate Stageable(run: Running, c: Copy) {
    CanStage(run.a, c.artifact, c.receipt, Captured(run))
  }

  /** A write needs the shared lock and no ACTIVE lease. */
  predicate MayWrite(s: System) {
    s.running.None? && !UnderLease(s.live)
  }

  ghost predicate Accepted(s: System, e: Event) {
    match e
    case BuildRequest(r) => r.target == s.live.identity && s.live.tables.projects.Keys <= r.scope
    case Spend(approval, row, t) =>
      && MayWrite(s) && WellFormed(t)
      && approval !in s.live.tables.consumptions
      && t.consumptions == s.live.tables.consumptions[approval := row]
      && MovesOn(s.live.tables, t)
    case Release(task, revision, _) => MayWrite(s) && ReleaseGuard(s.live.tables, task, revision)
    case OtherWrite(t) =>
      && MayWrite(s) && WellFormed(t)
      && t.consumptions == s.live.tables.consumptions && MovesOn(s.live.tables, t)
    case Acquire(a) => s.running.None? && a.request in s.issued && CanAcquire(s.live, a)
    case BindFenceTo(f) => s.running.Some? && AtBoundary(s.live, s.running.value.a.request)
    case Stage(c) => s.running.Some? && Stageable(s.running.value, c)
    case Replace => s.running.Some? && s.running.value.copy.Some? && Stageable(s.running.value, s.running.value.copy.value)
                    && AtBoundary(s.live, s.running.value.a.request)
    case Fail => s.running.Some?
    case Crash => s.running.Some?
    case Recover(operation) => s.running.None? && CanRecover(s.live, operation)
  }

  ghost function Replacement(run: Running): Database
    requires run.copy.Some? && Stageable(run, run.copy.value)
  {
    var c := run.copy.value;
    Staged(run.a, c.artifact, c.receipt, Captured(run), c.fence, c.at)
  }

  /** A refused event changes nothing. */
  ghost function Next(s: System, e: Event): System {
    if !Accepted(s, e) then s else
    match e
    case BuildRequest(r) => s.(issued := s.issued + {r})
    case Spend(_, _, t) => s.(live := Written(s.live, t))
    case Release(task, _, at) => s.(live := Written(s.live, AfterRelease(s.live.tables, task, at)))
    case OtherWrite(t) => s.(live := Written(s.live, t))
    case Acquire(a) => s.(live := Leased(s.live, a.request), running := Some(Running(a, s.live, None)))
    case BindFenceTo(f) => s.(live := FenceBound(s.live, f))
    case Stage(c) => s.(running := Some(s.running.value.(copy := Some(c))))
    case Replace => s.(live := Replacement(s.running.value), running := None)
    case Fail => s.(live := MarkedFailed(s.live, s.running.value.a.request.operation), running := None)
    case Crash => s.(running := None)
    case Recover(operation) => s.(live := MarkedFailed(s.live, operation))
  }

  ghost function Run(s: System, events: seq<Event>): System {
    if events == [] then s else Next(Run(s, events[..|events| - 1]), events[|events| - 1])
  }

  ghost predicate Initial(s: System) {
    WellFormed(s.live.tables) && !UnderLease(s.live) && s.issued == {} && s.running.None?
  }

  // -------------------------------------------------------------- invariant

  /** An ACTIVE lease pins the generation it was granted at. */
  ghost predicate LeasePinsGeneration(s: System) {
    UnderLease(s.live) ==> s.live.lease.value.expectedGeneration == s.live.identity.generation
  }

  /** A request that still matches the live generation covers every live project. */
  ghost predicate RequestsCover(s: System) {
    forall r :: r in s.issued ==>
      && r.target.generation <= s.live.identity.generation
      && (r.target.generation == s.live.identity.generation ==> s.live.tables.projects.Keys <= r.scope)
  }

  /** While a restore runs, the live database is what it captured, up to the lease row. */
  ghost predicate RunningOwnsLive(s: System) {
    s.running.Some? ==>
      var run := s.running.value;
      && s.live == run.captured.(lease := s.live.lease)
      && AtBoundary(s.live, run.a.request)
      && s.live.tables.projects.Keys <= run.a.request.scope
      && (run.copy.Some? ==> Stageable(run, run.copy.value))
  }

  ghost predicate Inv(s: System) {
    WellFormed(s.live.tables) && LeasePinsGeneration(s) && RequestsCover(s) && RunningOwnsLive(s)
  }

  lemma ForwardStaysWellFormed(start: Tables, t: Tables)
    requires WellFormed(start) && OnlyForward(start, t)
    ensures WellFormed(t)
  {
    assert forall i :: i in t.budgets ==> t.budgets[i].terms == start.budgets[i].terms;
  }

  lemma WholeScope(t: Tables, scope: set<Id>)
    requires WellFormed(t) && t.projects.Keys <= scope
    ensures ScopedConsumptions(t, scope) == t.consumptions
    ensures ScopedBudgets(t, scope) == t.budgets
  {
  }

  /** The staged tables are the merged ones moved forward. */
  lemma StagedTables(a: Authorization, artifact: Artifact, receipt: Receipt, ledger: Ledger, fence: Id, at: Stamp)
    requires CanStage(a, artifact, receipt, ledger)
    ensures var t := artifact.content.tables;
      var d := Staged(a, artifact, receipt, ledger, fence, at);
      && Fits(t, ledger) && WellFormed(t)
      && OnlyForward(Merged(t, ledger), Reconciled(t, a.request.scope, receipt, ledger).value)
      && d.tables == Reconciled(t, a.request.scope, receipt, ledger).value.(projects := d.tables.projects)
      && d.tables.projects.Keys == t.projects.Keys <= a.request.scope
      && WellFormed(d.tables)
  {
    var t := artifact.content.tables;
    var index := IndexOf(receipt.launches, |receipt.launches|);
    EveryAttemptIsSettled(Merged(t, ledger), a.request.scope, index, receipt.attempts, receipt.issuedAt);
    MergeKeepsBothSides(t, ledger);
    ForwardStaysWellFormed(Merged(t, ledger), Reconciled(t, a.request.scope, receipt, ledger).value);
  }

  /** The heart of the protocol: whatever the artifact, the database that replaces the live one
      still holds every live consumption with its binding. */
  lemma ReplacementKeepsUses(run: Running)
    requires run.copy.Some? && Stageable(run, run.copy.value)
    requires WellFormed(run.captured.tables) && run.captured.tables.projects.Keys <= run.a.request.scope
    ensures KeepsUses(run.captured.tables.consumptions, Replacement(run).tables.consumptions)
    ensures WellFormed(Replacement(run).tables)
    ensures Replacement(run).tables.projects.Keys <= run.a.request.scope
  {
    var c := run.copy.value;
    StagedTables(run.a, c.artifact, c.receipt, Captured(run), c.fence, c.at);
    WholeScope(run.captured.tables, run.a.request.scope);
    MergeKeepsBothSides(c.artifact.content.tables, Captured(run));
  }

  lemma StepKeepsInv(s: System, e: Event)
    requires Inv(s)
    ensures Inv(Next(s, e))
  {
    if Accepted(s, e) && e.Replace? {
      ReplacementKeepsUses(s.running.value);
    } else if Accepted(s, e) && e.Release? {
      ReleaseKeepsWellFormed(s.live.tables, e.task, e.at);
    }
  }

  lemma {:induction false} RunsKeepInv(s: System, events: seq<Event>)
    requires Initial(s)
    ensures Inv(Run(s, events))
  {
    if events != [] {
      RunsKeepInv(s, events[..|events| - 1]);
      StepKeepsInv(Run(s, events[..|events| - 1]), events[|events| - 1]);
    }
  }

  // -------------------------------------------- one-time approvals stay spent

  ghost predicate SpendsAt(s: System, events: seq<Event>, k: nat, approval: Id, use: Use)
    requires k < |events|
  {
    var e := events[k];
    e.Spend? && e.approval == approval && e.row.use == use && Accepted(Run(s, events[..k]), e)
  }

  ghost predicate ReleasesAt(s: System, events: seq<Event>, k: nat, approval: Id)
    requires k < |events|
  {
    && events[k].Release? && Accepted(Run(s, events[..k]), events[k])
    && Frees(Run(s, events[..k]).live.tables, events[k].task, approval)
  }

  ghost predicate HoldsUse(s: System, approval: Id, use: Use) {
    approval in s.live.tables.consumptions && s.live.tables.consumptions[approval].use == use
  }

  /** A step takes a held consumption away exactly when it is an accepted release whose guard
      holds for the task and action that made it. */
  lemma LossIffRelease(s: System, e: Event, approval: Id, use: Use)
    requires Inv(s) && HoldsUse(s, approval, use)
    ensures !HoldsUse(Next(s, e), approval, use) <==>
      e.Release? && Accepted(s, e) && Frees(s.live.tables, e.task, approval)
  {
    if Accepted(s, e) && e.Replace? {
      ReplacementKeepsUses(s.running.value);
    }
  }

  /** A consumption held at one point of a run, from whichever write or restore it came, is held
      at every later point exactly as long as no release frees it. */
  lemma {:induction false} HeldIffNeverFreed(s: System, events: seq<Event>, i: nat, j: nat, approval: Id, use: Use)
    requires Initial(s) && i <= j <= |events| && HoldsUse(Run(s, events[..i]), approval, use)
    ensures (forall m :: i <= m <= j ==> HoldsUse(Run(s, events[..m]), approval, use)) <==>
      (forall k :: i <= k < j ==> !ReleasesAt(s, events, k, approval))
    decreases j
  {
    if i < j {
      HeldIffNeverFreed(s, events, i, j - 1, approval, use);
      RunsKeepInv(s, events[..j - 1]);
      assert events[..j][..j - 1] == events[..j - 1];
      if HoldsUse(Run(s, events[..j - 1]), approval, use) {
        LossIffRelease(Run(s, events[..j - 1]), events[j - 1], approval, use);
        assert ReleasesAt(s, events, j - 1, approval) <==> !HoldsUse(Run(s, events[..j]), approval, use);
      }
    }
  }

  /** A consumption stays in the live database, with the project, charter, action and task it
      was spent on, through every restore, failure, crash and recovery until it is released. */
  lemma SpentStaysSpent(s: System, events: seq<Event>, i: nat, j: nat, approval: Id, use: Use)
    requires Initial(s) && i < j <= |events| && SpendsAt(s, events, i, approval, use)
    requires forall k :: i < k < j ==> !ReleasesAt(s, events, k, approval)
    ensures HoldsUse(Run(s, events[..j]), approval, use)
  {
    assert events[..i + 1][..i] == events[..i];
    HeldIffNeverFreed(s, events, i + 1, j, approval, use);
  }

  /** No one-time approval is consumed twice: between two accepted consumptions of one approval
      there is a release of it. */
  lemma NeverSpentTwice(s: System, events: seq<Event>, i: nat, j: nat, approval: Id, first: Use, second: Use)
    requires Initial(s) && i < j < |events|
    requires SpendsAt(s, events, i, approval, first) && SpendsAt(s, events, j, approval, second)
    ensures exists k :: i < k < j && ReleasesAt(s, events, k, approval)
  {
    if forall k :: i < k < j ==> !ReleasesAt(s, events, k, approval) {
      SpentStaysSpent(s, events, i, j, approval, first);
      assert false;
    }
  }

  lemma SpendIsFresh(s: System, e: Event, p: Id, use: Use)
    requires e.Spend? && Accepted(s, e) && HoldsUse(s, p, use)
    ensures p != e.approval && use.action != e.row.use.action
  {
    var rows := e.spendTables.consumptions;
    assert rows[p] == s.live.tables.consumptions[p];
    assert rows[e.approval] == e.row;
  }

  /** Nor is one action paid for by two approvals while the first is unreleased. */
  lemma ActionNeverSpentTwice(s: System, events: seq<Event>, i: nat, j: nat, p: Id, q: Id, first: Use, second: Use)
    requires Initial(s) && i < j < |events| && p != q && first.action == second.action
    requires SpendsAt(s, events, i, p, first) && SpendsAt(s, events, j, q, second)
    ensures exists k :: i < k < j && ReleasesAt(s, events, k, p)
  {
    if forall k :: i < k < j ==> !ReleasesAt(s, events, k, p) {
      SpentStaysSpent(s, events, i, j, p, first);
      SpendIsFresh(Run(s, events[..j]), events[j], p, first);
    }
  }

  // ---------------------------------------- one success for each authorization

  ghost predicate ReplacesAt(s: System, events: seq<Event>, k: nat)
    requires k < |events|
  {
    events[k].Replace? && Accepted(Run(s, events[..k]), events[k])
  }

  ghost function RequestAt(s: System, events: seq<Event>, k: nat): Request
    requires k < |events| && ReplacesAt(s, events, k)
  {
    Run(s, events[..k]).running.value.a.request
  }

  ghost function Replacements(s: System, events: seq<Event>): nat {
    if events == [] then 0
    else Replacements(s, events[..|events| - 1]) + (if ReplacesAt(s, events, |events| - 1) then 1 else 0)
  }

  /** The database keeps its id, its epoch counts the successful restores and its generation
      never falls, even though each restore puts an arbitrary older database in place. */
  lemma {:induction false} IdentityOverRuns(s: System, events: seq<Event>)
    requires Initial(s)
    ensures Run(s, events).live.identity.databaseId == s.live.identity.databaseId
    ensures Run(s, events).live.identity.epoch == s.live.identity.epoch + Replacements(s, events)
    ensures Run(s, events).live.identity.generation >= s.live.identity.generation
  {
    if events != [] {
      IdentityOverRuns(s, events[..|events| - 1]);
      RunsKeepInv(s, events[..|events| - 1]);
    }
  }

  lemma {:induction false} GenerationNeverFalls(s: System, events: seq<Event>, i: nat, j: nat)
    requires Initial(s) && i <= j <= |events|
    ensures Run(s, events[..i]).live.identity.generation <= Run(s, events[..j]).live.identity.generation
    decreases j
  {
    hide Stageable, WellFormed, MovesOn, ReleaseGuard, CanAcquire, CanRecover, AfterRelease;
    if i < j {
      GenerationNeverFalls(s, events, i, j - 1);
      assert events[..j][..j - 1] == events[..j - 1];
      RunsKeepInv(s, events[..j - 1]);
    }
  }

  /** Once an authorization has replaced the live database, or any write has passed its request
      by, no later lease is ever granted to it. */
  lemma StaleRequestNeverMatches(s: System, events: seq<Event>, i: nat, j: nat, a: Authorization)
    requires Initial(s) && i <= j <= |events|
    requires a.request.target.generation < Run(s, events[..i]).live.identity.generation
    ensures !CanAcquire(Run(s, events[..j]).live, a)
  {
    GenerationNeverFalls(s, events, i, j);
  }

  lemma ReplacementRaisesGeneration(s: System, events: seq<Event>, i: nat)
    requires Initial(s) && i < |events| && ReplacesAt(s, events, i)
    ensures RequestAt(s, events, i).target.generation == Run(s, events[..i]).live.identity.generation
    ensures Run(s, events[..i + 1]).live.identity.generation == RequestAt(s, events, i).target.generation + 1
  {
    RunsKeepInv(s, events[..i]);
    assert events[..i + 1][..i] == events[..i];
  }

  /** Two successful restores of a run never used the same request, so no authorization
      succeeds twice, although restoring an old backup forgets which ones were spent. */
  lemma EachAuthorizationSucceedsOnce(s: System, events: seq<Event>, i: nat, j: nat)
    requires Initial(s) && i < j < |events| && ReplacesAt(s, events, i) && ReplacesAt(s, events, j)
    ensures RequestAt(s, events, i) != RequestAt(s, events, j)
  {
    ReplacementRaisesGeneration(s, events, i);
    ReplacementRaisesGeneration(s, events, j);
    GenerationNeverFalls(s, events, i + 1, j);
  }

  // --------------------------------------------------- what a lease protects

  /** Under an ACTIVE lease no write and no second restore is accepted, and an interrupted
      lease, and only that one, is released by naming its operation. */
  lemma LeaseExcludes(s: System, events: seq<Event>, e: Event)
    requires Initial(s) && UnderLease(Run(s, events).live) && Accepted(Run(s, events), e)
    ensures !e.Spend? && !e.Release? && !e.OtherWrite? && !e.Acquire?
    ensures Run(s, events).running.None? ==>
      e.BuildRequest? || e == Recover(Run(s, events).live.lease.value.operation)
  {
  }

  lemma InterruptedLeaseIsReleasable(s: System, events: seq<Event>, operation: Id)
    requires Initial(s) && UnderLease(Run(s, events).live) && Run(s, events).running.None?
    ensures Accepted(Run(s, events), Recover(operation)) <==> Run(s, events).live.lease.value.operation == operation
    ensures var after := Next(Run(s, events), Recover(Run(s, events).live.lease.value.operation));
      && MayWrite(after)
      && after.live == Run(s, events).live.(lease := after.live.lease)
  {
    RunsKeepInv(s, events);
  }

  /** While a restore runs, everything but the lease row is what it captured; so a failed one
      changes only the lease row, and the tables it replaces are the tables it captured. */
  lemma RestoreHoldsTheLiveDatabase(s: System, events: seq<Event>)
    requires Initial(s) && Run(s, events).running.Some?
    ensures var now := Run(s, events);
      && now.live == now.running.value.captured.(lease := now.live.lease)
      && Captured(now.running.value) == LedgerOf(now.live.tables, now.running.value.a.request.scope)
      && Next(now, Fail).live == now.running.value.captured.(lease := Next(now, Fail).live.lease)
      && Next(now, Fail).live.lease.Some? && Next(now, Fail).live.lease.value.state == LeaseFailed
  {
    RunsKeepInv(s, events);
  }

  /** A successful restore keeps every consumption and revocation mark of a live approval in
      scope, commits at least what was committed and spends at least what either side spent. */
  lemma RestoreKeepsMarksAndMoney(s: System, events: seq<Event>, i: nat, account: Account)
    requires Initial(s) && i < |events| && ReplacesAt(s, events, i)
    requires var run := Run(s, events[..i]).running.value;
      NonNegative(run.captured.tables.budgets) && NonNegative(run.copy.value.artifact.content.tables.budgets)
    ensures var run := Run(s, events[..i]).running.value;
      var before, backup := run.captured.tables, run.copy.value.artifact.content.tables;
      var after := Run(s, events[..i + 1]).live.tables;
      && KeepsMarks(ScopedApprovals(before, run.a.request.scope), after.approvals)
      && Total(after.budgets, account, COMMITTED) >= Total(before.budgets, account, COMMITTED)
      && Total(after.budgets, account, SPENT) >= Total(before.budgets, account, SPENT)
      && Total(after.budgets, account, SPENT) >= Total(backup.budgets, account, SPENT)
  {
    RunsKeepInv(s, events[..i]);
    assert events[..i + 1][..i] == events[..i];
    var run := Run(s, events[..i]).running.value;
    var c := run.copy.value;
    var t := c.artifact.content.tables;
    StagedTables(run.a, c.artifact, c.receipt, Captured(run), c.fence, c.at);
    WholeScope(run.captured.tables, run.a.request.scope);
    MergeKeepsBothSides(t, Captured(run));
    MergeConservesBudgets(t, Captured(run), account);
    MergedNonNegative(t.budgets, Captured(run).budgets);
    ReconcileConservesBudgets(
      Merged(t, Captured(run)), Reconciled(t, run.a.request.scope, c.receipt, Captured(run)).value, account);
  }

  lemma MergedNonNegative(staged: map<Id, Budget>, live: map<Id, Budget>)
    requires NonNegative(staged) && NonNegative(live)
    ensures NonNegative(MergedBudgets(staged, live))
  {
  }

  /** The transactions of a successful `RestoreBackup`, taken as a run, are all accepted and
      leave the database that method ensures. */
  lemma RestoreBackupIsARun(s: System, a: Authorization, c: Copy)
    requires s.running.None? && a.request in s.issued && CanAcquire(s.live, a)
    requires CanStage(a, c.artifact, c.receipt, LedgerOf(s.live.tables, a.request.scope))
    ensures Accepted(s, Acquire(a)) && Accepted(Next(s, Acquire(a)), BindFenceTo(c.fence))
    ensures Accepted(Next(Next(s, Acquire(a)), BindFenceTo(c.fence)), Stage(c))
    ensures var staged := Next(Next(Next(s, Acquire(a)), BindFenceTo(c.fence)), Stage(c));
      var end := Next(staged, Replace);
      && Accepted(staged, Replace)
      && end.live == Staged(a, c.artifact, c.receipt, LedgerOf(s.live.tables, a.request.scope), c.fence, c.at)
      && end.running.None? && end.issued == s.issued
  {
    hide CanStage, Staged, LedgerOf, Unambiguous, WellFormed;
    var acquired := Next(s, Acquire(a));
    assert acquired.running == Some(Running(a, s.live, None)) && acquired.live == Leased(s.live, a.request);
    var bound := Next(acquired, BindFenceTo(c.fence));
    assert bound.running == acquired.running && AtBoundary(bound.live, a.request);
    CapturedIsLedger(bound.running.value);
    var staged := Next(bound, Stage(c));
    assert staged.live == bound.live && staged.running == Some(Running(a, s.live, Some(c)));
    CapturedIsLedger(staged.running.value);
  }

  /** So are the transactions of one that fails or is interrupted: they end in Fail or Crash and
      leave exactly the databases that method allows. */
  lemma UnfinishedRestoreIsARun(s: System, a: Authorization, fence: Id)
    requires s.running.None? && a.request in s.issued && CanAcquire(s.live, a)
    ensures var acquired := Next(s, Acquire(a));
      var bound := Next(acquired, BindFenceTo(fence));
      && {Next(acquired, Crash).live, Next(bound, Crash).live} == UnderWay(s.live, a.request, fence)
      && Next(acquired, Fail).live == MarkedFailed(Leased(s.live, a.request), a.request.operation)
      && Next(bound, Fail).live == MarkedFailed(FenceBound(Leased(s.live, a.request), fence), a.request.operation)
      && Accepted(acquired, Fail) && Accepted(acquired, Crash) && Accepted(bound, Fail) && Accepted(bound, Crash)
      && Next(bound, Fail).running.None? && Next(bound, Crash).running.None?
  {
    hide LedgerOf, Unambiguous, WellFormed;
    var acquired := Next(s, Acquire(a));
    assert acquired.running == Some(Running(a, s.live, None)) && acquired.live == Leased(s.live, a.request);
    var bound := Next(acquired, BindFenceTo(fence));
    assert bound.running == acquired.running && bound.live == FenceBound(acquired.live, fence);
  }

  lemma CapturedIsLedger(run: Running)
    ensures Captured(run) == LedgerOf(run.captured.tables, run.a.request.scope)
  {
  }
}
