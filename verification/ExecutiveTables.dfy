/** The rows of the Executive database that the restore protocol reads and writes. */
module ExecutiveTables {
  import opened Common

  datatype BudgetState = Reserved | Crossed | Released

  /** Everything in an approval row except its two monotonic fields. */
  datatype ApprovalTerms = ApprovalTerms(
    schemaVersion: nat, createdAt: Stamp, project: Id, charter: Id,
    charterRevision: int, oneTime: bool, otherFields: Id)

  datatype Approval = Approval(
    terms: ApprovalTerms, consumedAt: Option<Stamp>, revokedAt: Option<Stamp>)

  /** What a one-time approval was spent on: the five compared columns. */
  datatype Use = Use(
    project: Id, charter: Id, charterRevision: int, action: Id, task: Option<Id>)

  datatype Consumption = Consumption(use: Use, consumedAt: Stamp)

  datatype BudgetTerms = BudgetTerms(
    project: Id, charter: Id, charterRevision: int, approval: Id, action: Id,
    task: Option<Id>, amountMinor: int, currency: Id, reservedAt: Stamp)

  datatype Budget = Budget(terms: BudgetTerms, state: BudgetState)

  datatype SafetyBinding = SafetyBinding(
    project: Id, charter: Id, charterRevision: int, task: Id, action: Id,
    approval: Option<Id>, reservation: Option<Id>, authorityAttempt: Option<Id>)

  datatype LaunchBinding = LaunchBinding(
    stage: Id, role: Id, registration: Id, providerRun: Id, providerInstance: Id,
    launchAuthorization: Id, generation: int)

  /** Authority's record of an attempt, without its service state. */
  datatype AuthorityRecord = AuthorityRecord(
    id: Id, project: Id, charter: Id, charterRevision: int, task: Id,
    launch: LaunchBinding, otherFields: Id)

  /** SHA-256 of the canonical record, taken as injective. */
  datatype CompletionDigest = DigestOf(record: AuthorityRecord)

  datatype ServiceState =
    | ReservedAttempt | InputBound | LaunchClaimed | ExecutionStarted | Paused
    | CompletedAttempt | FailedAttempt | CancelledAttempt | OtherServiceState

  /** The states that the claim, the release and the launch of an execution write. */
  datatype AttemptPhase = ClaimedPhase | ReservedPhase | StartedPhase | ReleasedPhase | OtherPhase(phase: Id)

  datatype AttemptState = AttemptUncertain | AttemptIn(phase: AttemptPhase)

  datatype ExecutiveAttempt = ExecutiveAttempt(
    binding: SafetyBinding, launch: LaunchBinding, state: AttemptState,
    completion: Option<CompletionDigest>, authorityTerminal: Option<ServiceState>,
    reconciledAt: Option<Stamp>)

  datatype TaskPhase = ReadyTask | RepairTask | ClaimedTask | OtherTask(phase: Id)

  datatype TaskStatus = TaskDone(status: Id) | TaskUncertain | TaskOpen(phase: TaskPhase)

  datatype ExecutiveTask = ExecutiveTask(
    status: TaskStatus, revision: int, authorityAttempt: Option<Id>, updatedAt: Stamp)

  datatype ProjectState = ProjectTerminal(terminal: Id) | ProjectPausedForRestore(at: Stamp) | ProjectOpen(open: Id)

  datatype Tables = Tables(
    projects: map<Id, ProjectState>,
    charters: set<Id>,
    tasks: map<Id, ExecutiveTask>,
    approvals: map<Id, Approval>,
    consumptions: map<Id, Consumption>,
    budgets: map<Id, Budget>,
    attempts: map<Id, ExecutiveAttempt>)

  /** UNIQUE(action_id) on executive_approval_consumptions. */
  predicate UniqueUses(rows: map<Id, Consumption>) {
    forall i, j :: i in rows && j in rows && rows[i].use.action == rows[j].use.action ==> i == j
  }

  /** UNIQUE(action_id) on executive_budget_reservations. */
  predicate UniqueReservations(rows: map<Id, Budget>) {
    forall i, j :: i in rows && j in rows && rows[i].terms.action == rows[j].terms.action ==> i == j
  }

  predicate UsesReferToRows(t: Tables) {
    forall i :: i in t.consumptions ==> i in t.approvals && t.consumptions[i].use.project in t.projects
  }

  predicate BudgetsReferToRows(t: Tables) {
    forall i :: i in t.budgets ==>
      t.budgets[i].terms.approval in t.approvals && t.budgets[i].terms.project in t.projects
  }

  /** What the schema's keys and `PRAGMA foreign_key_check` guarantee. */
  predicate WellFormed(t: Tables) {
    && UniqueUses(t.consumptions)
    && UniqueReservations(t.budgets)
    && UsesReferToRows(t)
    && BudgetsReferToRows(t)
  }
}
