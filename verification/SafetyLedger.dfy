/** Reading the live safety ledger and merging it into a staged backup. */
module SafetyLedger {
  import opened Common
  import opened ExecutiveTables

  datatype Ledger = Ledger(
    scope: set<Id>,
    approvals: map<Id, Approval>,
    consumptions: map<Id, Consumption>,
    budgets: map<Id, Budget>,
    attempts: map<Id, ExecutiveAttempt>)

  // ---------------------------------------------------------------- reading

  function ScopedConsumptions(t: Tables, scope: set<Id>): map<Id, Consumption> {
    map i | i in t.consumptions && t.consumptions[i].use.project in scope :: t.consumptions[i]
  }

  function ScopedBudgets(t: Tables, scope: set<Id>): map<Id, Budget> {
    map i | i in t.budgets && t.budgets[i].terms.project in scope :: t.budgets[i]
  }

  function RequiredApprovals(t: Tables, scope: set<Id>): set<Id> {
    var uses := ScopedConsumptions(t, scope);
    var budgets := ScopedBudgets(t, scope);
    uses.Keys + (set i | i in budgets :: budgets[i].terms.approval)
  }

  function ScopedApprovals(t: Tables, scope: set<Id>): map<Id, Approval> {
    var required := RequiredApprovals(t, scope);
    map i | i in t.approvals && t.approvals[i].terms.project in scope
            && (i in required || t.approvals[i].consumedAt.Some? || t.approvals[i].revokedAt.Some?)
      :: t.approvals[i]
  }

  function ScopedAttempts(t: Tables, scope: set<Id>): map<Id, ExecutiveAttempt> {
    var required := RequiredApprovals(t, scope);
    var held := ScopedBudgets(t, scope).Keys;
    map i | i in t.attempts && t.attempts[i].binding.project in scope
            && ((t.attempts[i].binding.approval.Some? && t.attempts[i].binding.approval.value in required)
                || (t.attempts[i].binding.reservation.Some? && t.attempts[i].binding.reservation.value in held))
      :: t.attempts[i]
  }

  predicate UseIsBacked(approvals: map<Id, Approval>, id: Id, use: Use) {
    && id in approvals
    && approvals[id].terms.oneTime
    && approvals[id].consumedAt.Some?
    && approvals[id].terms.project == use.project
    && approvals[id].terms.charter == use.charter
    && approvals[id].terms.charterRevision == use.charterRevision
  }

  predicate BudgetIsBacked(approvals: map<Id, Approval>, b: BudgetTerms) {
    && b.approval in approvals
    && approvals[b.approval].terms.project == b.project
    && approvals[b.approval].terms.charter == b.charter
    && approvals[b.approval].terms.charterRevision == b.charterRevision
  }

  ghost predicate Unambiguous(l: Ledger) {
    && (forall i :: i in l.consumptions ==> UseIsBacked(l.approvals, i, l.consumptions[i].use))
    && (forall i :: i in l.budgets ==> BudgetIsBacked(l.approvals, l.budgets[i].terms))
  }

  ghost function LedgerOf(t: Tables, scope: set<Id>): Ledger {
    Ledger(scope, ScopedApprovals(t, scope), ScopedConsumptions(t, scope),
           ScopedBudgets(t, scope), ScopedAttempts(t, scope))
  }

  // ---------------------------------------------------------------- merging

  function Later(staged: Option<Stamp>, live: Option<Stamp>): Option<Stamp> {
    if live.Some? then live else staged
  }

  function JoinApproval(staged: Approval, live: Approval): Approval {
    Approval(staged.terms, Later(staged.consumedAt, live.consumedAt), Later(staged.revokedAt, live.revokedAt))
  }

  function JoinBudgetState(staged: BudgetState, live: BudgetState): BudgetState {
    if staged == Crossed || live == Crossed then Crossed else live
  }

  function JoinBudget(staged: Budget, live: Budget): Budget {
    Budget(staged.terms, JoinBudgetState(staged.state, live.state))
  }

  ghost function MergedApprovals(staged: map<Id, Approval>, live: map<Id, Approval>): map<Id, Approval> {
    map i | i in staged.Keys + live.Keys ::
      if i !in live then staged[i] else if i !in staged then live[i] else JoinApproval(staged[i], live[i])
  }

  ghost function MergedBudgets(staged: map<Id, Budget>, live: map<Id, Budget>): map<Id, Budget> {
    map i | i in staged.Keys + live.Keys ::
      if i !in live then staged[i] else if i !in staged then live[i] else JoinBudget(staged[i], live[i])
  }

  predicate ApprovalFits(t: Tables, id: Id, live: Approval) {
    && live.terms.project in t.projects
    && live.terms.charter in t.charters
    && (id in t.approvals ==> t.approvals[id].terms == live.terms)
  }

  predicate AttemptFits(
    projects: set<Id>, charters: set<Id>, tasks: set<Id>,
    staged: map<Id, ExecutiveAttempt>, id: Id, live: ExecutiveAttempt)
  {
    if id in staged then staged[id].binding == live.binding
    else live.binding.project in projects && live.binding.charter in charters && live.binding.task in tasks
  }

  /** The binding of every live row that also exists in staging agrees with it, and every
      live row that does not can be inserted. */
  ghost predicate Fits(t: Tables, live: Ledger) {
    GrantsFit(t, live) && AttemptsFit(t, live.attempts)
  }

  ghost predicate GrantsFit(t: Tables, live: Ledger) {
    var approvals := MergedApprovals(t.approvals, live.approvals);
    && ApprovalsFit(t, live.approvals)
    && ConsumptionsFit(t.projects, approvals, t.consumptions, live.consumptions)
    && BudgetsFit(t.projects, approvals, t.budgets, live.budgets)
  }

  ghost predicate ApprovalsFit(t: Tables, live: map<Id, Approval>) {
    forall i :: i in live ==> ApprovalFits(t, i, live[i])
  }

  ghost predicate AttemptsFit(t: Tables, live: map<Id, ExecutiveAttempt>) {
    forall i :: i in live ==> AttemptFits(t.projects.Keys, t.charters, t.tasks.Keys, t.attempts, i, live[i])
  }

  ghost predicate ConsumptionsFit(
    projects: map<Id, ProjectState>, approvals: map<Id, Approval>,
    staged: map<Id, Consumption>, live: map<Id, Consumption>)
  {
    && (forall i :: i in live && i in staged ==> staged[i].use == live[i].use)
    && (forall i :: i in live && i !in staged ==> i in approvals && live[i].use.project in projects)
    && UniqueUses(staged + live)
  }

  ghost predicate BudgetsFit(
    projects: map<Id, ProjectState>, approvals: map<Id, Approval>,
    staged: map<Id, Budget>, live: map<Id, Budget>)
  {
    && (forall i :: i in live && i in staged ==> staged[i].terms == live[i].terms)
    && (forall i :: i in live && i !in staged ==>
          live[i].terms.approval in approvals && live[i].terms.project in projects)
    && UniqueReservations(MergedBudgets(staged, live))
  }

  ghost function MergedGrants(t: Tables, live: Ledger): Tables {
    t.(approvals := MergedApprovals(t.approvals, live.approvals),
       consumptions := t.consumptions + live.consumptions,
       budgets := MergedBudgets(t.budgets, live.budgets))
  }

  ghost function Merged(t: Tables, live: Ledger): Tables {
    MergedGrants(t, live).(attempts := live.attempts + t.attempts)
  }

  /** Exactly when `_merge_live_safety_ledger` returns rather than raising. */
  ghost predicate Mergeable(t: Tables, live: Ledger) {
    Fits(t, live) && Unambiguous(LedgerOf(Merged(t, live), live.scope))
  }

  /** The staged copy of a backup, updated row by row inside one transaction. */
  class StagedDatabase {
    var projects: map<Id, ProjectState>
    var charters: set<Id>
    var tasks: map<Id, ExecutiveTask>
    var approvals: map<Id, Approval>
    var consumptions: map<Id, Consumption>
    var budgets: map<Id, Budget>
    var attempts: map<Id, ExecutiveAttempt>

    constructor (t: Tables)
      ensures Value() == t
    {
      projects, charters, tasks := t.projects, t.charters, t.tasks;
      approvals, consumptions, budgets, attempts := t.approvals, t.consumptions, t.budgets, t.attempts;
    }

    function Value(): Tables
      reads this
    {
      Tables(projects, charters, tasks, approvals, consumptions, budgets, attempts)
    }

    /** Undo of an uncommitted transaction. */
    method Rollback(t: Tables)
      modifies this
      ensures Value() == t
    {
      projects, charters, tasks := t.projects, t.charters, t.tasks;
      approvals, consumptions, budgets, attempts := t.approvals, t.consumptions, t.budgets, t.attempts;
    }

    /** `_read_safety_ledger`: refuses a ledger whose rows are not backed by their approvals. */
    method ReadSafetyLedger(scope: set<Id>) returns (r: Option<Ledger>)
      ensures r.Some? <==> Unambiguous(LedgerOf(Value(), scope))
      ensures r.Some? ==> r.value == LedgerOf(Value(), scope)
    {
      var scopedUses := map i | i in consumptions && consumptions[i].use.project in scope :: consumptions[i];
      var scopedBudgets := map i | i in budgets && budgets[i].terms.project in scope :: budgets[i];
      var required := scopedUses.Keys + set i | i in scopedBudgets :: scopedBudgets[i].terms.approval;
      var backing := map i | i in approvals && approvals[i].terms.project in scope
                             && (i in required || approvals[i].consumedAt != None || approvals[i].revokedAt != None)
                       :: approvals[i];
      assert scopedUses == ScopedConsumptions(Value(), scope) && scopedBudgets == ScopedBudgets(Value(), scope);
      assert required == RequiredApprovals(Value(), scope) && backing == ScopedApprovals(Value(), scope);
      var todo := scopedUses.Keys;
      while todo != {}
        invariant todo <= scopedUses.Keys
        invariant forall i :: i in scopedUses && i !in todo ==> UseIsBacked(backing, i, scopedUses[i].use)
        decreases todo
      {
        var id := LeastId(todo);
        var use := scopedUses[id].use;
        if id !in backing || !backing[id].terms.oneTime || backing[id].consumedAt.None?
           || backing[id].terms.project != use.project || backing[id].terms.charter != use.charter
           || backing[id].terms.charterRevision != use.charterRevision {
          return None;
        }
        todo := todo - {id};
      }
      todo := scopedBudgets.Keys;
      while todo != {}
        invariant todo <= scopedBudgets.Keys
        invariant forall i :: i in scopedBudgets && i !in todo ==> BudgetIsBacked(backing, scopedBudgets[i].terms)
        decreases todo
      {
        var id := LeastId(todo);
        var held := scopedBudgets[id].terms;
        if held.approval !in backing || backing[held.approval].terms.project != held.project
           || backing[held.approval].terms.charter != held.charter
           || backing[held.approval].terms.charterRevision != held.charterRevision {
          return None;
        }
        todo := todo - {id};
      }
      var bound := map i | i in attempts && attempts[i].binding.project in scope
                           && ((attempts[i].binding.approval.Some? && attempts[i].binding.approval.value in required)
                               || (attempts[i].binding.reservation.Some?
                                   && attempts[i].binding.reservation.value in scopedBudgets))
                     :: attempts[i];
      assert bound == ScopedAttempts(Value(), scope);
      r := Some(Ledger(scope, backing, scopedUses, scopedBudgets, bound));
    }

    method MergeApprovals(live: map<Id, Approval>) returns (ok: bool)
      modifies this`approvals
      ensures ok <==> ApprovalsFit(old(Value()), live)
      ensures ok ==> approvals == MergedApprovals(old(approvals), live)
    {
      ghost var before := Value();
      var todo := live.Keys;
      while todo != {}
        invariant todo <= live.Keys
        invariant forall i :: i in live && i !in todo ==> ApprovalFits(before, i, live[i])
        invariant approvals == MergedApprovals(before.approvals, live - todo)
        decreases todo
      {
        var id := LeastId(todo);
        if live[id].terms.project !in projects || live[id].terms.charter !in charters {
          return false;
        }
        if id !in approvals {
          approvals := approvals[id := live[id]];
        } else {
          if approvals[id].terms != live[id].terms {
            return false;
          }
          var consumed := if live[id].consumedAt.Some? then live[id].consumedAt else approvals[id].consumedAt;
          var revoked := if live[id].revokedAt.Some? then live[id].revokedAt else approvals[id].revokedAt;
          approvals := approvals[id := Approval(live[id].terms, consumed, revoked)];
        }
        todo := todo - {id};
      }
      assert live - todo == live;
      ok := true;
    }

    method MergeConsumptions(live: map<Id, Consumption>) returns (ok: bool)
      requires UniqueUses(consumptions)
      modifies this`consumptions
      ensures ok <==> ConsumptionsFit(projects, approvals, old(consumptions), live)
      ensures ok ==> consumptions == old(consumptions) + live
    {
      ghost var before := consumptions;
      var todo := live.Keys;
      while todo != {}
        invariant todo <= live.Keys
        invariant consumptions == before + (live - todo)
        invariant ConsumptionsFit(projects, approvals, before, live - todo)
        decreases todo
      {
        var id := LeastId(todo);
        if id !in consumptions {
          if id !in approvals || live[id].use.project !in projects || TakenUse(consumptions, live[id].use.action) {
            RefusedUse(projects, approvals, before, live, todo, id);
            return false;
          }
          consumptions := consumptions[id := live[id]];
        } else {
          if consumptions[id].use != live[id].use {
            return false;
          }
          if consumptions[id].consumedAt != live[id].consumedAt {
            consumptions := consumptions[id := Consumption(consumptions[id].use, live[id].consumedAt)];
          }
        }
        AcceptedUse(projects, approvals, before, live, todo, id);
        todo := todo - {id};
      }
      assert live - todo == live;
      ok := true;
    }

    method MergeBudgets(live: map<Id, Budget>) returns (ok: bool)
      requires UniqueReservations(budgets)
      modifies this`budgets
      ensures ok <==> BudgetsFit(projects, approvals, old(budgets), live)
      ensures ok ==> budgets == MergedBudgets(old(budgets), live)
    {
      ghost var before := budgets;
      var todo := live.Keys;
      assert MergedBudgets(before, live - todo) == before;
      while todo != {}
        invariant todo <= live.Keys
        invariant budgets == MergedBudgets(before, live - todo)
        invariant BudgetsFit(projects, approvals, before, live - todo)
        decreases todo
      {
        var id := LeastId(todo);
        if id !in budgets {
          if live[id].terms.approval !in approvals || live[id].terms.project !in projects
             || TakenReservation(budgets, live[id].terms.action) {
            RefusedBudget(projects, approvals, before, live, todo, id);
            return false;
          }
          budgets := budgets[id := live[id]];
        } else {
          if budgets[id].terms != live[id].terms {
            return false;
          }
          var state := if Crossed in {budgets[id].state, live[id].state} then Crossed else live[id].state;
          budgets := budgets[id := budgets[id].(state := state)];
        }
        AcceptedBudget(projects, approvals, before, live, todo, id);
        todo := todo - {id};
      }
      assert live - todo == live;
      ok := true;
    }

    method MergeAttempts(live: map<Id, ExecutiveAttempt>) returns (ok: bool)
      modifies this`attempts
      ensures ok <==> AttemptsFit(old(Value()), live)
      ensures ok ==> attempts == live + old(attempts)
    {
      ghost var before := Value();
      var todo := live.Keys;
      while todo != {}
        invariant todo <= live.Keys
        invariant AttemptsFit(before, live - todo)
        invariant attempts == (live - todo) + before.attempts
        decreases todo
      {
        var id := LeastId(todo);
        if id !in attempts {
          if live[id].binding.project !in projects || live[id].binding.charter !in charters
             || live[id].binding.task !in tasks {
            return false;
          }
          attempts := attempts[id := live[id]];
        }
        if attempts[id].binding != live[id].binding {
          return false;
        }
        AcceptedAttempt(before.attempts, live, todo, id);
        todo := todo - {id};
      }
      assert live - todo == live;
      ok := true;
    }

    /** Approvals, their consumptions and the budgets held under them, in that order. */
    method MergeGrants(live: Ledger) returns (ok: bool)
      requires UniqueUses(consumptions) && UniqueReservations(budgets)
      modifies this`approvals, this`consumptions, this`budgets
      ensures ok <==> GrantsFit(old(Value()), live)
      ensures ok ==> Value() == MergedGrants(old(Value()), live)
    {
      ok := MergeApprovals(live.approvals);
      if ok {
        ok := MergeConsumptions(live.consumptions);
        if ok {
          ok := MergeBudgets(live.budgets);
        }
      }
    }

    /** The row-by-row part of the merge; a refusal leaves an uncommitted transaction behind. */
    method MergeRows(live: Ledger) returns (ok: bool)
      requires UniqueUses(consumptions) && UniqueReservations(budgets)
      modifies this
      ensures ok <==> Fits(old(Value()), live)
      ensures ok ==> Value() == Merged(old(Value()), live)
    {
      ok := MergeGrants(live);
      if ok {
        ok := MergeAttempts(live.attempts);
      }
    }

    /** `_merge_live_safety_ledger`: merges every captured row, then reads the result back.
        A refusal undoes the whole transaction. */
    method MergeLiveSafetyLedger(live: Ledger) returns (ok: bool)
      requires UniqueUses(consumptions) && UniqueReservations(budgets)
      modifies this
      ensures ok <==> Mergeable(old(Value()), live)
      ensures Value() == if ok then Merged(old(Value()), live) else old(Value())
    {
      var before := Value();
      ok := MergeRows(live);
      if ok {
        var merged := ReadSafetyLedger(live.scope);
        ok := merged.Some?;
      }
      if !ok {
        Rollback(before);
      }
    }
  }

  predicate TakenUse(rows: map<Id, Consumption>, action: Id) {
    exists i :: i in rows && rows[i].use.action == action
  }

  predicate TakenReservation(rows: map<Id, Budget>, action: Id) {
    exists i :: i in rows && rows[i].terms.action == action
  }

  /** A row that cannot be inserted now cannot be part of any complete merge. */
  lemma RefusedUse(
    projects: map<Id, ProjectState>, approvals: map<Id, Approval>, staged: map<Id, Consumption>,
    live: map<Id, Consumption>, todo: set<Id>, id: Id)
    requires id in todo && todo <= live.Keys && id !in staged
    requires id !in approvals || live[id].use.project !in projects
      || TakenUse(staged + (live - todo), live[id].use.action)
    ensures !ConsumptionsFit(projects, approvals, staged, live)
  {
    if id in approvals && live[id].use.project in projects
       && forall i :: i in live && i in staged ==> staged[i].use == live[i].use {
      var current, union := staged + (live - todo), staged + live;
      var i :| i in current && current[i].use.action == live[id].use.action;
      assert i in union && union[i].use == current[i].use;
      assert union[id] == live[id];
    }
  }

  lemma AcceptedUse(
    projects: map<Id, ProjectState>, approvals: map<Id, Approval>, staged: map<Id, Consumption>,
    live: map<Id, Consumption>, todo: set<Id>, id: Id)
    requires id in todo && todo <= live.Keys
    requires ConsumptionsFit(projects, approvals, staged, live - todo)
    requires if id in staged then staged[id].use == live[id].use
      else id in approvals && live[id].use.project in projects && !TakenUse(staged + (live - todo), live[id].use.action)
    ensures staged + (live - (todo - {id})) == (staged + (live - todo))[id := live[id]]
    ensures ConsumptionsFit(projects, approvals, staged, live - (todo - {id}))
  {
    var current, next := staged + (live - todo), staged + (live - (todo - {id}));
    assert next == current[id := live[id]];
    assert forall i :: i in current ==> next[i].use == current[i].use;
  }

  lemma AcceptedAttempt(
    staged: map<Id, ExecutiveAttempt>, live: map<Id, ExecutiveAttempt>, todo: set<Id>, id: Id)
    requires id in todo && todo <= live.Keys
    ensures live - (todo - {id}) == (live - todo)[id := live[id]]
    ensures (live - (todo - {id})) + staged ==
      if id in staged then (live - todo) + staged else ((live - todo) + staged)[id := live[id]]
  {
  }

  lemma RefusedBudget(
    projects: map<Id, ProjectState>, approvals: map<Id, Approval>, staged: map<Id, Budget>,
    live: map<Id, Budget>, todo: set<Id>, id: Id)
    requires id in todo && todo <= live.Keys && id !in staged
    requires live[id].terms.approval !in approvals || live[id].terms.project !in projects
      || TakenReservation(MergedBudgets(staged, live - todo), live[id].terms.action)
    ensures !BudgetsFit(projects, approvals, staged, live)
  {
    if live[id].terms.approval in approvals && live[id].terms.project in projects
       && forall i :: i in live && i in staged ==> staged[i].terms == live[i].terms {
      var current, union := MergedBudgets(staged, live - todo), MergedBudgets(staged, live);
      var i :| i in current && current[i].terms.action == live[id].terms.action;
      assert i in union && union[i].terms == current[i].terms;
      assert union[id] == live[id];
    }
  }

  lemma AcceptedBudget(
    projects: map<Id, ProjectState>, approvals: map<Id, Approval>, staged: map<Id, Budget>,
    live: map<Id, Budget>, todo: set<Id>, id: Id)
    requires id in todo && todo <= live.Keys
    requires BudgetsFit(projects, approvals, staged, live - todo)
    requires if id in staged then staged[id].terms == live[id].terms
      else live[id].terms.approval in approvals && live[id].terms.project in projects
           && !TakenReservation(MergedBudgets(staged, live - todo), live[id].terms.action)
    ensures MergedBudgets(staged, live - (todo - {id})) ==
      MergedBudgets(staged, live - todo)[id := if id in staged then JoinBudget(staged[id], live[id]) else live[id]]
    ensures BudgetsFit(projects, approvals, staged, live - (todo - {id}))
  {
    var current, next := MergedBudgets(staged, live - todo), MergedBudgets(staged, live - (todo - {id}));
    assert next == current[id := if id in staged then JoinBudget(staged[id], live[id]) else live[id]];
    assert forall i :: i in current ==> next[i].terms == current[i].terms;
  }
}
