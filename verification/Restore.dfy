/** The Executive restore protocol over the live database, one SQL transaction per method. */
module Restore {
  import opened Common
  import opened ExecutiveTables
  import opened ExecutionClaims
  import opened SafetyLedger
  import opened Reconciliation

  datatype Identity = Identity(databaseId: Id, epoch: nat, generation: nat, production: bool)

  datatype LeaseState = LeaseActive | LeaseFailed | LeaseCompleted

  /** The singleton row of executive_restore_maintenance. */
  datatype Lease = Lease(
    operation: Id, state: LeaseState, sourceHash: Id, expectedGeneration: nat, fence: Option<Id>)

  datatype Request = Request(
    operation: Id, backupHash: Id, source: Identity, target: Identity, scope: set<Id>)

  datatype Authorization = Authorization(request: Request, confirmation: Id)

  /** SHA-256 of an authorization, taken as injective. */
  datatype AuthorizationDigest = DigestOfAuthorization(authorization: Authorization)

  datatype Database = Database(
    identity: Identity, tables: Tables, lease: Option<Lease>, spent: map<Id, AuthorizationDigest>)

  datatype Artifact = Artifact(hash: Id, content: Database)

  predicate UnderLease(db: Database) {
    db.lease.Some? && db.lease.value.state == LeaseActive
  }

  /** When the first transaction of `_restore` grants the lease. */
  ghost predicate CanAcquire(db: Database, a: Authorization) {
    && db.identity == a.request.target && db.identity.production
    && a.request.operation !in db.spent
    && DigestOfAuthorization(a) !in db.spent.Values
    && !UnderLease(db)
    && Unambiguous(LedgerOf(db.tables, a.request.scope))
  }

  function NewLease(r: Request): Lease {
    Lease(r.operation, LeaseActive, r.backupHash, r.target.generation, None)
  }

  function Leased(db: Database, r: Request): Database {
    db.(lease := Some(NewLease(r)))
  }

  predicate AtBoundary(db: Database, r: Request) {
    && db.identity == r.target && db.identity.production
    && UnderLease(db)
    && db.lease.value.operation == r.operation
    && db.lease.value.sourceHash == r.backupHash
    && db.lease.value.expectedGeneration == r.target.generation
  }

  function FenceBound(db: Database, fence: Id): Database {
    if UnderLease(db) then db.(lease := Some(db.lease.value.(fence := Some(fence)))) else db
  }

  /** The live database between the lease and the replacement. */
  function UnderWay(db: Database, r: Request, fence: Id): set<Database> {
    {Leased(db, r), FenceBound(Leased(db, r), fence)}
  }

  /** `_mark_restore_failed`: a no-op unless this operation still holds the lease. */
  function MarkedFailed(db: Database, operation: Id): Database {
    if UnderLease(db) && db.lease.value.operation == operation
    then db.(lease := Some(db.lease.value.(state := LeaseFailed)))
    else db
  }

  /** When `recover_stale_restore` releases an interrupted lease. */
  predicate CanRecover(db: Database, operation: Id) {
    && UnderLease(db)
    && db.lease.value.operation == operation
    && db.lease.value.expectedGeneration == db.identity.generation
  }

  function PausedProjects(projects: map<Id, ProjectState>, at: Stamp): map<Id, ProjectState> {
    map i | i in projects :: if projects[i].ProjectTerminal? then projects[i] else ProjectPausedForRestore(at)
  }

  /** The backup is the one that was authorized, is intact and is not itself mid-restore. */
  predicate Presentable(artifact: Artifact, r: Request) {
    && artifact.hash == r.backupHash
    && artifact.content.identity == r.source && r.source.production
    && !UnderLease(artifact.content)
    && WellFormed(artifact.content.tables)
  }

  ghost predicate CanStage(a: Authorization, artifact: Artifact, receipt: Receipt, ledger: Ledger) {
    var r := a.request;
    && Presentable(artifact, r)
    && Reconcilable(artifact.content.tables, r.scope, receipt, ledger)
    && r.operation !in artifact.content.spent
    && DigestOfAuthorization(a) !in artifact.content.spent.Values
  }

  /** The database that replaces the live one. */
  ghost function Staged(a: Authorization, artifact: Artifact, receipt: Receipt, ledger: Ledger, fence: Id, at: Stamp): Database
    requires CanStage(a, artifact, receipt, ledger)
  {
    var r := a.request;
    var tables := Reconciled(artifact.content.tables, r.scope, receipt, ledger).value;
    Database(
      Identity(r.target.databaseId, r.target.epoch + 1, r.target.generation + 1, true),
      tables.(projects := PausedProjects(tables.projects, at)),
      Some(Lease(r.operation, LeaseCompleted, r.backupHash, r.target.generation, Some(fence))),
      artifact.content.spent[r.operation := DigestOfAuthorization(a)])
  }

  /** What the replaced database owes the authorization, in the fields of both: it was made from the
      artifact with the authorized hash and identity, while the live database was the authorized
      target; the artifact's rows are merged with the live ledger and walked with the receipt; every
      project that had not ended is paused; and the authorization is spent. */
  ghost predicate Honours(
    before: Database, a: Authorization, artifact: Artifact, receipt: Receipt, fence: Id, at: Stamp, after: Database) {
    var r, backup := a.request, artifact.content;
    && artifact.hash == r.backupHash && backup.identity == r.source && before.identity == r.target
    && r.source.production && r.target.production
    && (forall db :: db in {before, backup} ==>
          && (db.lease.Some? ==> db.lease.value.state in {LeaseFailed, LeaseCompleted})
          && r.operation !in db.spent && forall o :: o in db.spent ==> db.spent[o] != DigestOfAuthorization(a))
    && after.identity == Identity(
         databaseId := before.identity.databaseId, epoch := before.identity.epoch + 1,
         generation := before.identity.generation + 1, production := true)
    && after.lease == Some(Lease(
         operation := r.operation, state := LeaseCompleted, sourceHash := artifact.hash,
         expectedGeneration := before.identity.generation, fence := Some(fence)))
    && after.spent == backup.spent + map[r.operation := DigestOfAuthorization(a)]
    && after.tables.projects.Keys == backup.tables.projects.Keys <= r.scope
    && (forall p :: p in backup.tables.projects ==>
          if backup.tables.projects[p].ProjectTerminal? then after.tables.projects[p] == backup.tables.projects[p]
          else after.tables.projects[p] == ProjectPausedForRestore(at))
    && WalkedTo(Merged(backup.tables, LedgerOf(before.tables, r.scope)), receipt.attempts, receipt.issuedAt,
                after.tables.(projects := backup.tables.projects))
  }

  lemma StagedHonours(before: Database, a: Authorization, artifact: Artifact, receipt: Receipt, fence: Id, at: Stamp)
    requires CanAcquire(before, a) && CanStage(a, artifact, receipt, LedgerOf(before.tables, a.request.scope))
    ensures Honours(before, a, artifact, receipt, fence, at,
                    Staged(a, artifact, receipt, LedgerOf(before.tables, a.request.scope), fence, at))
  {
    hide WalkedTo, Merged, Reconcile, Mergeable, LaunchRowsValid, WellFormed, LedgerOf, Unambiguous, IndexOf;
    var live := LedgerOf(before.tables, a.request.scope);
    var merged := Merged(artifact.content.tables, live);
    WalkDoesExactly(merged, a.request.scope, IndexOf(receipt.launches, |receipt.launches|), receipt.attempts, receipt.issuedAt);
    MergedKeepsProjects(artifact.content.tables, live);
    WalkedKeepsProjects(merged, receipt.attempts, receipt.issuedAt,
                        Reconciled(artifact.content.tables, a.request.scope, receipt, live).value);
  }

  lemma MergedKeepsProjects(backup: Tables, live: Ledger)
    ensures Merged(backup, live).projects == backup.projects
  {
  }

  lemma WalkedKeepsProjects(start: Tables, attempts: seq<FencedAttempt>, at: Stamp, t: Tables)
    requires WalkedTo(start, attempts, at, t)
    ensures t.projects == start.projects
  {
  }

  /** `_pause_projects_for_restore`. */
  method PauseProjects(projects: map<Id, ProjectState>, at: Stamp) returns (paused: map<Id, ProjectState>)
    ensures paused == PausedProjects(projects, at)
  {
    paused := projects;
    var todo := projects.Keys;
    while todo != {}
      invariant todo <= projects.Keys
      invariant paused.Keys == projects.Keys
      invariant forall i :: i in todo ==> paused[i] == projects[i]
      invariant forall i :: i in projects && i !in todo ==> paused[i] == PausedProjects(projects, at)[i]
      decreases todo
    {
      var id := LeastId(todo);
      if !paused[id].ProjectTerminal? {
        paused := paused[id := ProjectPausedForRestore(at)];
      }
      todo := todo - {id};
    }
  }

  /** Staging: copy, check, reconcile, pause, spend the authorization, raise the identity. */
  method StageBackup(a: Authorization, artifact: Artifact, receipt: Receipt, ledger: Ledger, fence: Id, at: Stamp)
    returns (staged: Option<Database>)
    ensures staged.Some? <==> CanStage(a, artifact, receipt, ledger)
    ensures staged.Some? ==> staged.value == Staged(a, artifact, receipt, ledger, fence, at)
  {
    var r := a.request;
    if !Presentable(artifact, r) {
      return None;
    }
    var db := new StagedDatabase(artifact.content.tables);
    var ok := ReconcileStaged(db, r.scope, receipt, ledger);
    if !ok || r.operation in artifact.content.spent || DigestOfAuthorization(a) in artifact.content.spent.Values {
      return None;
    }
    var tables := db.Value();
    var paused := PauseProjects(tables.projects, at);
    var identity := Identity(r.target.databaseId, r.target.epoch + 1, r.target.generation + 1, true);
    var lease := Lease(r.operation, LeaseCompleted, r.backupHash, r.target.generation, Some(fence));
    staged := Some(Database(
      identity, tables.(projects := paused), Some(lease),
      artifact.content.spent[r.operation := DigestOfAuthorization(a)]));
  }

  /** What an external call inside `_restore` does. */
  datatype Weather = Fine | Raises | Crashes

  /** The calls into Authority, the file system and the hooks, in program order. */
  datatype Script = Script(
    shape: bool, afterLease: Weather, beginFence: Weather, confirmFence: Weather,
    beforeReplacement: Weather, afterReplacement: Weather, cleanup: Weather)

  predicate Calm(s: Script) {
    s.afterLease.Fine? && s.beginFence.Fine? && s.confirmFence.Fine? && s.beforeReplacement.Fine?
  }

  /** How the part between the lease and the replacement ends: the first external call that does not
      succeed, or one of the checks in between. */
  ghost function WeatherOf(s: Script, presentable: bool, stageable: bool): Weather {
    if !s.afterLease.Fine? then s.afterLease
    else if !presentable then Raises
    else if !s.beginFence.Fine? then s.beginFence
    else if !stageable then Raises
    else if !s.confirmFence.Fine? then s.confirmFence
    else s.beforeReplacement
  }

  datatype Outcome =
    | Refused
    | FailedRestore
    | Interrupted
    | Restored(epoch: nat)
    | RestoredUnconfirmed

  class ExecutiveStore {
    var identity: Identity
    var tables: Tables
    var lease: Option<Lease>
    var spent: map<Id, AuthorizationDigest>

    function Value(): Database
      reads this
    {
      Database(identity, tables, lease, spent)
    }

    /** First transaction: checks, capture of the safety ledger, then the ACTIVE lease. */
    method AcquireLease(a: Authorization) returns (r: Option<Ledger>)
      modifies this`lease
      ensures r.Some? <==> CanAcquire(old(Value()), a)
      ensures r.Some? ==> r.value == LedgerOf(old(tables), a.request.scope)
      ensures Value() == if r.Some? then Leased(old(Value()), a.request) else old(Value())
    {
      if identity != a.request.target || !identity.production {
        return None;
      }
      if a.request.operation in spent || DigestOfAuthorization(a) in spent.Values {
        return None;
      }
      if lease.Some? && lease.value.state == LeaseActive {
        return None;
      }
      var view := new StagedDatabase(tables);
      r := view.ReadSafetyLedger(a.request.scope);
      if r.Some? {
        lease := Some(Lease(a.request.operation, LeaseActive, a.request.backupHash, a.request.target.generation, None));
      }
    }

    method BindFence(r: Request, fence: Id) returns (ok: bool)
      modifies this`lease
      ensures ok <==> AtBoundary(old(Value()), r)
      ensures Value() == if ok then FenceBound(old(Value()), fence) else old(Value())
    {
      ok := identity == r.target && identity.production && lease.Some? && lease.value.state == LeaseActive
            && lease.value.operation == r.operation && lease.value.sourceHash == r.backupHash
            && lease.value.expectedGeneration == r.target.generation;
      if ok {
        lease := Some(lease.value.(fence := Some(fence)));
      }
    }

    method ReplaceLive(staged: Database)
      modifies this
      ensures Value() == staged
    {
      identity, tables, lease, spent := staged.identity, staged.tables, staged.lease, staged.spent;
    }

    method MarkFailed(operation: Id)
      modifies this`lease
      ensures Value() == MarkedFailed(old(Value()), operation)
    {
      if lease.Some? && lease.value.operation == operation && lease.value.state == LeaseActive {
        lease := Some(lease.value.(state := LeaseFailed));
      }
    }

    /** `recover_stale_restore`. */
    method RecoverStale(operation: Id) returns (ok: bool)
      modifies this`lease
      ensures ok <==> CanRecover(old(Value()), operation)
      ensures Value() == if ok then MarkedFailed(old(Value()), operation) else old(Value())
    {
      ok := lease.Some? && lease.value.state == LeaseActive && lease.value.operation == operation
            && lease.value.expectedGeneration == identity.generation;
      if ok {
        lease := Some(lease.value.(state := LeaseFailed));
      }
    }

    /** A transaction through `KeeperStore.connect`: refused under a lease, else it commits
        its changes and raises the generation. */
    method GuardedWrite(changed: Tables) returns (ok: bool)
      modifies this
      ensures ok <==> !UnderLease(old(Value()))
      ensures Value() == if ok then Written(old(Value()), changed) else old(Value())
    {
      ok := lease.None? || lease.value.state != LeaseActive;
      if ok {
        tables := changed;
        identity := identity.(generation := identity.generation + 1);
      }
    }

    /** `claim_execution`, one guarded transaction. It is granted to a task that waits, without an
        approval only when it costs nothing, and otherwise under an approval of this project and
        charter that is neither revoked nor consumed. */
    method ClaimExecution(task: Id, revision: int, plan: Plan, at: Stamp) returns (ok: bool)
      modifies this
      ensures ok <==> !UnderLease(old(Value())) && ClaimGuard(old(tables), task, revision, plan)
      ensures Value() == if ok then Written(old(Value()), AfterClaim(old(tables), task, plan, at)) else old(Value())
      ensures ok ==>
        && task in old(tables).tasks
        && old(tables).tasks[task].status in {TaskOpen(ReadyTask), TaskOpen(RepairTask)}
        && old(tables).tasks[task] == ExecutiveTask(
             old(tables).tasks[task].status, revision, None, old(tables).tasks[task].updatedAt)
      ensures ok && plan.binding.approval == None ==>
        plan.binding.reservation == None && !plan.price.spending
        && plan.price.costMinor.Some? && plan.price.costMinor.value <= 0
      ensures ok && plan.binding.approval.Some? ==>
        && plan.binding.approval.value in old(tables).approvals
        && var approval := old(tables).approvals[plan.binding.approval.value];
           && approval.consumedAt == None && approval.revokedAt == None
           && approval.terms.project == plan.binding.project && approval.terms.charter == plan.binding.charter
           && approval.terms.charterRevision == plan.binding.charterRevision
    {
      var b, t := plan.binding, tables;
      if task !in t.tasks || t.tasks[task].revision != revision || t.tasks[task].authorityAttempt.Some?
         || t.tasks[task].status !in {TaskOpen(ReadyTask), TaskOpen(RepairTask)}
         || b.task != task || b.project !in t.projects || b.authorityAttempt != Some(plan.attempt) {
        return false;
      }
      var spends := plan.price.spending || plan.price.costMinor.None? || plan.price.costMinor.value > 0;
      if spends && (b.approval.None? || plan.price.costMinor.None? || plan.price.costMinor.value <= 0) {
        return false;
      }
      if b.reservation.Some? != spends || plan.attempt in t.attempts {
        return false;
      }
      var approvals, consumptions, budgets := t.approvals, t.consumptions, t.budgets;
      if b.approval.Some? {
        var p := b.approval.value;
        if p !in approvals || approvals[p].revokedAt.Some? || approvals[p].consumedAt.Some?
           || approvals[p].terms.project != b.project || approvals[p].terms.charter != b.charter
           || approvals[p].terms.charterRevision != b.charterRevision {
          return false;
        }
        if approvals[p].terms.oneTime {
          if p in consumptions || exists i :: i in consumptions && consumptions[i].use.action == b.action {
            return false;
          }
          approvals := approvals[p := approvals[p].(consumedAt := Some(at))];
          consumptions := consumptions[
            p := Consumption(Use(b.project, b.charter, b.charterRevision, b.action, Some(task)), at)];
        }
        if b.reservation.Some? {
          var h := b.reservation.value;
          if h in budgets || exists i :: i in budgets && budgets[i].terms.action == b.action {
            return false;
          }
          var terms := BudgetTerms(b.project, b.charter, b.charterRevision, p, b.action, Some(task),
                                   plan.price.costMinor.value, plan.price.currency, at);
          budgets := budgets[h := Budget(terms, BudgetState.Reserved)];
        }
      }
      var attempts := t.attempts[plan.attempt := ExecutiveAttempt(b, plan.launch, CLAIMED, None, None, None)];
      var claimed := ExecutiveTask(TaskOpen(ClaimedTask), revision + 1, Some(plan.attempt), at);
      ok := GuardedWrite(t.(approvals := approvals, consumptions := consumptions, budgets := budgets,
                            attempts := attempts, tasks := t.tasks[task := claimed]));
    }

    /** `release_prelaunch_execution_claim`: the one transaction that deletes a consumption. */
    method ReleaseClaim(task: Id, revision: int, at: Stamp) returns (ok: bool)
      modifies this
      ensures ok <==> !UnderLease(old(Value())) && ReleaseGuard(old(tables), task, revision)
      ensures Value() == if ok then Written(old(Value()), AfterRelease(old(tables), task, at)) else old(Value())
    {
      if task !in tables.tasks || tables.tasks[task].revision != revision
         || tables.tasks[task].status != TaskOpen(ClaimedTask) || tables.tasks[task].authorityAttempt.None? {
        return false;
      }
      var a := tables.tasks[task].authorityAttempt.value;
      if a !in tables.attempts || tables.attempts[a].state != CLAIMED {
        return false;
      }
      var b := tables.attempts[a].binding;
      var approvals, consumptions, budgets := tables.approvals, tables.consumptions, tables.budgets;
      if b.reservation.Some? {
        var h := b.reservation.value;
        if h !in budgets || budgets[h].state != Reserved {
          return false;
        }
        budgets := budgets[h := budgets[h].(state := BudgetState.Released)];
      }
      if b.approval.Some? {
        var p := b.approval.value;
        if p !in approvals {
          return false;
        }
        if approvals[p].terms.oneTime {
          if p !in consumptions || consumptions[p].use.task != Some(task) || consumptions[p].use.action != b.action {
            return false;
          }
          consumptions := consumptions - {p};
          approvals := approvals[p := approvals[p].(consumedAt := None)];
        }
      }
      var attempts := tables.attempts[a := tables.attempts[a].(state := AttemptIn(ReleasedPhase))];
      var ready := ExecutiveTask(TaskOpen(ReadyTask), revision + 1, None, at);
      ok := GuardedWrite(tables.(approvals := approvals, consumptions := consumptions, budgets := budgets,
                                 attempts := attempts, tasks := tables.tasks[task := ready]));
    }

    /** Everything between the lease and the replacement. Only the lease's fence changes. */
    method Prepare(a: Authorization, artifact: Artifact, receipt: Receipt, ledger: Ledger, fence: Id, at: Stamp, script: Script)
      returns (weather: Weather, staged: Option<Database>)
      requires Value() == Leased(Value(), a.request) && identity == a.request.target && identity.production
      modifies this`lease
      ensures weather.Fine? <==> Calm(script) && CanStage(a, artifact, receipt, ledger)
      ensures weather.Fine? ==> staged == Some(Staged(a, artifact, receipt, ledger, fence, at))
      ensures weather == WeatherOf(script, Presentable(artifact, a.request), CanStage(a, artifact, receipt, ledger))
      ensures Value() ==
        if script.afterLease.Fine? && Presentable(artifact, a.request) && script.beginFence.Fine?
        then FenceBound(old(Value()), fence) else old(Value())
    {
      staged := None;
      if !script.afterLease.Fine? {
        return script.afterLease, None;
      }
      if !Presentable(artifact, a.request) {
        return Raises, None;
      }
      if !script.beginFence.Fine? {
        return script.beginFence, None;
      }
      var bound := BindFence(a.request, fence);
      if !bound {
        return Raises, None;
      }
      staged := StageBackup(a, artifact, receipt, ledger, fence, at);
      if staged.None? {
        return Raises, None;
      }
      if !script.confirmFence.Fine? {
        return script.confirmFence, None;
      }
      if !AtBoundary(Value(), a.request) {
        return Raises, None;
      }
      return script.beforeReplacement, staged;
    }

    /** `_restore`, for every combination of failures and a crash at any external call. */
    method RestoreBackup(a: Authorization, artifact: Artifact, receipt: Receipt, fence: Id, at: Stamp, script: Script)
      returns (outcome: Outcome)
      modifies this
      ensures outcome.Refused? <==> !(script.shape && CanAcquire(old(Value()), a))
      ensures outcome.Refused? ==> Value() == old(Value())
      ensures script.shape && CanAcquire(old(Value()), a) ==>
        match WeatherOf(script, Presentable(artifact, a.request),
                        CanStage(a, artifact, receipt, LedgerOf(old(tables), a.request.scope)))
        case Fine => outcome == if script.afterReplacement.Fine? then Restored(old(identity).epoch + 1) else RestoredUnconfirmed
        case Raises => outcome == if script.cleanup.Fine? then FailedRestore else Interrupted
        case Crashes => outcome == Interrupted
      ensures outcome.Restored? || outcome.RestoredUnconfirmed? <==>
        script.shape && CanAcquire(old(Value()), a) && Calm(script)
        && CanStage(a, artifact, receipt, LedgerOf(old(tables), a.request.scope))
      ensures outcome.Restored? || outcome.RestoredUnconfirmed? ==>
        Value() == Staged(a, artifact, receipt, LedgerOf(old(tables), a.request.scope), fence, at)
      ensures outcome.Restored? || outcome.RestoredUnconfirmed? ==>
        Honours(old(Value()), a, artifact, receipt, fence, at, Value())
      ensures outcome.Restored? ==> outcome.epoch == identity.epoch == old(identity).epoch + 1
      ensures outcome.FailedRestore? || outcome.Interrupted? ==>
        Value() == old(Value()).(lease := lease) && lease.Some? && lease.value.operation == a.request.operation
      ensures outcome.Interrupted? ==> Value() in UnderWay(old(Value()), a.request, fence)
      ensures outcome.FailedRestore? ==>
        Value() in {MarkedFailed(Leased(old(Value()), a.request), a.request.operation),
                    MarkedFailed(FenceBound(Leased(old(Value()), a.request), fence), a.request.operation)}
      ensures outcome.FailedRestore? || outcome.Interrupted? ==>
        lease.value == Lease(
          operation := a.request.operation, state := if outcome.FailedRestore? then LeaseFailed else LeaseActive,
          sourceHash := a.request.backupHash, expectedGeneration := old(identity).generation,
          fence := if script.afterLease.Fine? && Presentable(artifact, a.request) && script.beginFence.Fine?
                   then Some(fence) else None)
      ensures outcome.FailedRestore? ==> lease.value.state == LeaseFailed
      ensures outcome.Interrupted? ==> AtBoundary(Value(), a.request) && CanRecover(Value(), a.request.operation)
    {
      hide Honours, CanStage, Reconciled, PausedProjects;
      if !script.shape {
        return Refused;
      }
      ghost var before := Value();
      var ledger := AcquireLease(a);
      if ledger.None? {
        return Refused;
      }
      var weather, staged := Prepare(a, artifact, receipt, ledger.value, fence, at, script);
      if weather.Fine? {
        StagedHonours(before, a, artifact, receipt, fence, at);
        ReplaceLive(staged.value);
        return if script.afterReplacement.Fine? then Restored(a.request.target.epoch + 1) else RestoredUnconfirmed;
      }
      if weather.Raises? && script.cleanup.Fine? {
        MarkFailed(a.request.operation);
        return FailedRestore;
      }
      return Interrupted;
    }
  }

  function Written(db: Database, changed: Tables): Database {
    db.(tables := changed, identity := db.identity.(generation := db.identity.generation + 1))
  }
}
