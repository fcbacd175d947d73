/** Claiming an execution, which consumes its approval, and releasing a claim that never
    reached the launch, which gives the approval back. */
module ExecutionClaims {
  import opened Common
  import opened ExecutiveTables

  const CLAIMED := AttemptIn(ClaimedPhase)

  // ---------------------------------------------------------------- release

  /** A held budget can be given back only while nothing has crossed the boundary. */
  predicate HoldReleasable(budgets: map<Id, Budget>, b: SafetyBinding) {
    b.reservation.Some? ==> b.reservation.value in budgets && budgets[b.reservation.value].state == Reserved
  }

  /** A one-time approval can be given back only by the task and action that consumed it. */
  predicate UseReleasable(approvals: map<Id, Approval>, uses: map<Id, Consumption>, task: Id, b: SafetyBinding) {
    b.approval.Some? ==>
      var p := b.approval.value;
      && p in approvals
      && (approvals[p].terms.oneTime ==> p in uses && uses[p].use.task == Some(task) && uses[p].use.action == b.action)
  }

  predicate AttemptReleasable(t: Tables, task: Id, a: Id) {
    && a in t.attempts && t.attempts[a].state == CLAIMED
    && HoldReleasable(t.budgets, t.attempts[a].binding)
    && UseReleasable(t.approvals, t.consumptions, task, t.attempts[a].binding)
  }

  /** The claim that a task holds can be undone: neither the task nor its attempt has left
      LAUNCH_CLAIMED. */
  predicate ClaimReleasable(t: Tables, task: Id) {
    && task in t.tasks && t.tasks[task].status == TaskOpen(ClaimedTask) && t.tasks[task].authorityAttempt.Some?
    && AttemptReleasable(t, task, t.tasks[task].authorityAttempt.value)
  }

  /** When `release_prelaunch_execution_claim` does not refuse. */
  predicate ReleaseGuard(t: Tables, task: Id, revision: int) {
    ClaimReleasable(t, task) && t.tasks[task].revision == revision
  }

  function ClaimOf(t: Tables, task: Id): SafetyBinding
    requires ClaimReleasable(t, task)
  {
    t.attempts[t.tasks[task].authorityAttempt.value].binding
  }

  /** The one-time approval whose consumption a release deletes. */
  function FreedApproval(t: Tables, task: Id): Option<Id>
    requires ClaimReleasable(t, task)
  {
    var approval := ClaimOf(t, task).approval;
    if approval.Some? && t.approvals[approval.value].terms.oneTime then approval else None
  }

  /** Releasing the task's claim would delete the consumption of the approval. */
  predicate Frees(t: Tables, task: Id, approval: Id) {
    ClaimReleasable(t, task) && FreedApproval(t, task) == Some(approval)
  }

  /** Some task's claim could be released now and would delete the consumption. */
  ghost predicate Freeable(t: Tables, approval: Id) {
    exists task :: Frees(t, task, approval)
  }

  function GivenBack(budgets: map<Id, Budget>, hold: Option<Id>): map<Id, Budget> {
    if hold.Some? && hold.value in budgets then budgets[hold.value := budgets[hold.value].(state := BudgetState.Released)]
    else budgets
  }

  function MarkedConsumed(approvals: map<Id, Approval>, approval: Option<Id>, at: Option<Stamp>): map<Id, Approval> {
    if approval.Some? && approval.value in approvals
    then approvals[approval.value := approvals[approval.value].(consumedAt := at)]
    else approvals
  }

  function AfterRelease(t: Tables, task: Id, at: Stamp): Tables
    requires ClaimReleasable(t, task)
  {
    var a := t.tasks[task].authorityAttempt.value;
    var b := t.attempts[a].binding;
    var freed := FreedApproval(t, task);
    t.(
      budgets := GivenBack(t.budgets, b.reservation),
      consumptions := if freed.Some? then t.consumptions - {freed.value} else t.consumptions,
      approvals := MarkedConsumed(t.approvals, freed, None),
      attempts := t.attempts[a := t.attempts[a].(state := AttemptIn(ReleasedPhase))],
      tasks := t.tasks[task := ExecutiveTask(TaskOpen(ReadyTask), t.tasks[task].revision + 1, None, at)])
  }

  // ------------------------------------------------------------------ claim

  /** What an action costs, in minor units; the cost is absent when it is unknown. */
  datatype Price = Price(spending: bool, costMinor: Option<int>, currency: Id)

  /** What one claim brings: a fresh attempt, its bindings and the price of its action. */
  datatype Plan = Plan(attempt: Id, binding: SafetyBinding, launch: LaunchBinding, price: Price)

  /** Whether an action has to hold a budget: an unknown cost counts as spending. */
  predicate Spends(p: Price) {
    p.spending || p.costMinor.None? || p.costMinor.value > 0
  }

  /** A claim holds a budget exactly when its action spends; it then needs a known positive cost. */
  predicate HoldFollowsPrice(plan: Plan) {
    && (plan.binding.reservation.Some? <==> Spends(plan.price))
    && (Spends(plan.price) ==> plan.price.costMinor.Some? && plan.price.costMinor.value > 0)
  }

  predicate ActionUnused(t: Tables, action: Id) {
    forall i :: i in t.consumptions ==> t.consumptions[i].use.action != action
  }

  predicate ActionUnreserved(t: Tables, action: Id) {
    forall i :: i in t.budgets ==> t.budgets[i].terms.action != action
  }

  predicate ApprovalUsable(t: Tables, b: SafetyBinding) {
    if b.approval.None? then b.reservation.None?
    else
      var p := b.approval.value;
      && p in t.approvals && t.approvals[p].consumedAt.None? && t.approvals[p].revokedAt.None?
      && t.approvals[p].terms.project == b.project && t.approvals[p].terms.charterRevision == b.charterRevision
      && t.approvals[p].terms.charter == b.charter
      && (t.approvals[p].terms.oneTime ==> p !in t.consumptions && ActionUnused(t, b.action))
      && (b.reservation.Some? ==> b.reservation.value !in t.budgets && ActionUnreserved(t, b.action))
  }

  /** When `claim_execution` does not refuse, as far as these tables decide it. */
  predicate ClaimGuard(t: Tables, task: Id, revision: int, plan: Plan) {
    Claimable(t, task, plan) && t.tasks[task].revision == revision
  }

  predicate Claimable(t: Tables, task: Id, plan: Plan) {
    && task in t.tasks
    && t.tasks[task].status in {TaskOpen(ReadyTask), TaskOpen(RepairTask)} && t.tasks[task].authorityAttempt.None?
    && plan.binding.task == task && plan.binding.project in t.projects && plan.binding.authorityAttempt == Some(plan.attempt)
    && plan.attempt !in t.attempts
    && HoldFollowsPrice(plan) && ApprovalUsable(t, plan.binding)
  }

  function UseOf(b: SafetyBinding): Use {
    Use(b.project, b.charter, b.charterRevision, b.action, Some(b.task))
  }

  function AfterClaim(t: Tables, task: Id, plan: Plan, at: Stamp): Tables
    requires Claimable(t, task, plan)
  {
    var b := plan.binding;
    var spent := if b.approval.Some? && t.approvals[b.approval.value].terms.oneTime then b.approval else None;
    t.(
      approvals := MarkedConsumed(t.approvals, spent, Some(at)),
      consumptions := if spent.Some? then t.consumptions[spent.value := Consumption(UseOf(b), at)] else t.consumptions,
      budgets := if b.reservation.Some? then t.budgets[b.reservation.value := HoldOf(plan, at)] else t.budgets,
      attempts := t.attempts[plan.attempt := ExecutiveAttempt(b, plan.launch, CLAIMED, None, None, None)],
      tasks := t.tasks[task := ExecutiveTask(TaskOpen(ClaimedTask), t.tasks[task].revision + 1, Some(plan.attempt), at)])
  }

  function HoldOf(plan: Plan, at: Stamp): Budget
    requires plan.binding.approval.Some? && plan.price.costMinor.Some?
  {
    var b := plan.binding;
    Budget(BudgetTerms(b.project, b.charter, b.charterRevision, b.approval.value, b.action, Some(b.task),
                       plan.price.costMinor.value, plan.price.currency, at), Reserved)
  }

  // -------------------------------------------------------- ordinary writes

  /** What every transaction of the repository but a release keeps: rows are not deleted, their
      bindings do not change, no attempt goes back to LAUNCH_CLAIMED and no hold to RESERVED,
      and only a claim that consumes an approval adds an attempt for it. */
  ghost predicate MovesOn(t: Tables, t': Tables) {
    && (forall a :: a in t.attempts ==>
          && a in t'.attempts && t'.attempts[a].binding == t.attempts[a].binding
          && (t'.attempts[a].state == CLAIMED ==> t.attempts[a].state == CLAIMED))
    && (forall a :: a in t'.attempts && a !in t.attempts ==>
          forall p :: t'.attempts[a].binding.approval == Some(p) && p in t.approvals && t.approvals[p].terms.oneTime ==>
            p !in t.consumptions)
    && (forall h :: h in t.budgets ==>
          && h in t'.budgets && t'.budgets[h].terms == t.budgets[h].terms
          && (t'.budgets[h].state == Reserved ==> t.budgets[h].state == Reserved))
    && (forall p :: p in t.approvals ==> p in t'.approvals && t'.approvals[p].terms == t.approvals[p].terms)
  }

  /** A claim is such a write, and consumes exactly its one-time approval. */
  lemma ClaimMovesOn(t: Tables, task: Id, plan: Plan, at: Stamp)
    requires WellFormed(t) && Claimable(t, task, plan)
    ensures var t' := AfterClaim(t, task, plan, at);
      && MovesOn(t, t') && WellFormed(t')
      && (if plan.binding.approval.Some? && t.approvals[plan.binding.approval.value].terms.oneTime
          then t'.consumptions == t.consumptions[plan.binding.approval.value := Consumption(UseOf(plan.binding), at)]
               && plan.binding.approval.value !in t.consumptions
          else t'.consumptions == t.consumptions)
  {
  }

  lemma ReleaseKeepsWellFormed(t: Tables, task: Id, at: Stamp)
    requires WellFormed(t) && ClaimReleasable(t, task)
    ensures WellFormed(AfterRelease(t, task, at))
  {
    var t' := AfterRelease(t, task, at);
    assert forall i :: i in t'.budgets ==> t'.budgets[i].terms == t.budgets[i].terms;
  }

  /** A release undoes a claim: the approval is unconsumed again and the task is ready, while
      the attempt and the hold stay behind as released. */
  lemma ReleaseUndoesClaim(t: Tables, task: Id, plan: Plan, at: Stamp, later: Stamp)
    requires WellFormed(t) && Claimable(t, task, plan)
    ensures var claimed := AfterClaim(t, task, plan, at);
      && ReleaseGuard(claimed, task, t.tasks[task].revision + 1)
      && var back := AfterRelease(claimed, task, later);
         && back.consumptions == t.consumptions && back.approvals == t.approvals
         && back.tasks[task].status == TaskOpen(ReadyTask) && back.tasks[task].authorityAttempt.None?
         && back.attempts[plan.attempt].state == AttemptIn(ReleasedPhase)
         && (plan.binding.reservation.Some? ==> back.budgets[plan.binding.reservation.value].state == BudgetState.Released)
  {
    var claimed := AfterClaim(t, task, plan, at);
    var back := AfterRelease(claimed, task, later);
    assert back.consumptions == t.consumptions;
    assert back.approvals == t.approvals;
  }

  // ------------------------------------------------------- closed attempts

  /** No release can go through this attempt any more: it has left LAUNCH_CLAIMED, or its hold
      is no longer only reserved. */
  predicate AttemptClosed(t: Tables, a: Id)
    requires a in t.attempts
  {
    var hold := t.attempts[a].binding.reservation;
    t.attempts[a].state != CLAIMED || (hold.Some? && hold.value in t.budgets && t.budgets[hold.value].state != Reserved)
  }

  /** Every attempt made under the approval is closed. */
  ghost predicate Closed(t: Tables, approval: Id) {
    forall a :: a in t.attempts && t.attempts[a].binding.approval == Some(approval) ==> AttemptClosed(t, a)
  }

  lemma ClosedIsNotFreeable(t: Tables, approval: Id)
    requires Closed(t, approval)
    ensures !Freeable(t, approval)
  {
    forall task | ClaimReleasable(t, task)
      ensures !AttemptClosed(t, t.tasks[task].authorityAttempt.value)
    {
    }
  }

  lemma MovesOnKeepsClosed(t: Tables, t': Tables, approval: Id)
    requires MovesOn(t, t') && Closed(t, approval) && UsesReferToRows(t) && BudgetsReferToRows(t)
    requires approval in t.consumptions && t.approvals[approval].terms.oneTime
    ensures Closed(t', approval)
  {
    forall a | a in t'.attempts && t'.attempts[a].binding.approval == Some(approval)
      ensures AttemptClosed(t', a)
    {
      assert a in t.attempts && AttemptClosed(t, a);
    }
  }
}
