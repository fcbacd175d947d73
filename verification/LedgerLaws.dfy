/** What a successful merge of a captured ledger into a backup guarantees. */
module LedgerLaws {
  import opened Common
  import opened ExecutiveTables
  import opened SafetyLedger

  /** No approval ever loses its consumption or its revocation, on either side. */
  ghost predicate KeepsMarks(before: map<Id, Approval>, after: map<Id, Approval>) {
    forall i :: i in before ==>
      && i in after
      && after[i].terms == before[i].terms
      && (before[i].consumedAt.Some? ==> after[i].consumedAt.Some?)
      && (before[i].revokedAt.Some? ==> after[i].revokedAt.Some?)
  }

  ghost predicate KeepsUses(before: map<Id, Consumption>, after: map<Id, Consumption>) {
    forall i :: i in before ==> i in after && after[i].use == before[i].use
  }

  ghost predicate KeepsBindings(before: map<Id, ExecutiveAttempt>, after: map<Id, ExecutiveAttempt>) {
    forall i :: i in before ==> i in after && after[i].binding == before[i].binding
  }

  lemma ApprovalsKept(t: Tables, live: map<Id, Approval>)
    requires ApprovalsFit(t, live)
    ensures KeepsMarks(t.approvals, MergedApprovals(t.approvals, live))
    ensures KeepsMarks(live, MergedApprovals(t.approvals, live))
  {
    assert forall i :: i in live ==> ApprovalFits(t, i, live[i]);
  }

  lemma AttemptsKept(t: Tables, live: map<Id, ExecutiveAttempt>)
    requires AttemptsFit(t, live)
    ensures KeepsBindings(t.attempts, live + t.attempts)
    ensures KeepsBindings(live, live + t.attempts)
  {
    forall i | i in live
      ensures (live + t.attempts)[i].binding == live[i].binding
    {
      assert AttemptFits(t.projects.Keys, t.charters, t.tasks.Keys, t.attempts, i, live[i]);
    }
  }

  /** Every consumption, mark and attempt binding known to the backup or to the live database
      survives the merge, and the result again satisfies the schema's keys. */
  lemma MergeKeepsBothSides(t: Tables, live: Ledger)
    requires WellFormed(t) && Fits(t, live)
    ensures KeepsUses(t.consumptions, Merged(t, live).consumptions)
    ensures KeepsUses(live.consumptions, Merged(t, live).consumptions)
    ensures KeepsMarks(t.approvals, Merged(t, live).approvals)
    ensures KeepsMarks(live.approvals, Merged(t, live).approvals)
    ensures KeepsBindings(t.attempts, Merged(t, live).attempts)
    ensures KeepsBindings(live.attempts, Merged(t, live).attempts)
    ensures WellFormed(Merged(t, live))
  {
    ApprovalsKept(t, live.approvals);
    AttemptsKept(t, live.attempts);
    MergedRowsRefer(t, live);
  }

  lemma MergedRowsRefer(t: Tables, live: Ledger)
    requires UsesReferToRows(t) && BudgetsReferToRows(t) && GrantsFit(t, live)
    ensures UsesReferToRows(Merged(t, live)) && BudgetsReferToRows(Merged(t, live))
  {
    var m := Merged(t, live);
    assert t.approvals.Keys <= m.approvals.Keys;
    forall i | i in m.budgets
      ensures m.budgets[i].terms.approval in m.approvals && m.budgets[i].terms.project in m.projects
    {
      if i in t.budgets {
        assert m.budgets[i].terms == t.budgets[i].terms;
      }
    }
  }

  lemma ApprovalsMergeOnce(t: Tables, live: map<Id, Approval>)
    requires ApprovalsFit(t, live)
    ensures MergedApprovals(MergedApprovals(t.approvals, live), live) == MergedApprovals(t.approvals, live)
    ensures ApprovalsFit(t.(approvals := MergedApprovals(t.approvals, live)), live)
  {
    assert forall i :: i in live ==> ApprovalFits(t, i, live[i]);
  }

  lemma UsesMergeOnce(
    projects: map<Id, ProjectState>, approvals: map<Id, Approval>, staged: map<Id, Consumption>, live: map<Id, Consumption>)
    requires ConsumptionsFit(projects, approvals, staged, live)
    ensures staged + live + live == staged + live
    ensures ConsumptionsFit(projects, approvals, staged + live, live)
  {
    assert staged + live + live == staged + live;
  }

  lemma BudgetsMergeOnce(
    projects: map<Id, ProjectState>, approvals: map<Id, Approval>, staged: map<Id, Budget>, live: map<Id, Budget>)
    requires BudgetsFit(projects, approvals, staged, live)
    ensures MergedBudgets(MergedBudgets(staged, live), live) == MergedBudgets(staged, live)
    ensures BudgetsFit(projects, approvals, MergedBudgets(staged, live), live)
  {
    assert MergedBudgets(MergedBudgets(staged, live), live) == MergedBudgets(staged, live);
  }

  /** Merging the same ledger a second time is accepted and changes nothing. */
  lemma MergeIsIdempotent(t: Tables, live: Ledger)
    requires Mergeable(t, live)
    ensures Merged(Merged(t, live), live) == Merged(t, live)
    ensures Mergeable(Merged(t, live), live)
  {
    var approvals := MergedApprovals(t.approvals, live.approvals);
    ApprovalsMergeOnce(t, live.approvals);
    UsesMergeOnce(t.projects, approvals, t.consumptions, live.consumptions);
    BudgetsMergeOnce(t.projects, approvals, t.budgets, live.budgets);
    AttemptsKept(t, live.attempts);
    var m := Merged(t, live);
    assert live.attempts + m.attempts == m.attempts;
    assert ApprovalsFit(m, live.approvals) by {
      assert forall i :: i in live.approvals ==>
        ApprovalFits(t.(approvals := approvals), i, live.approvals[i]);
    }
    assert AttemptsFit(m, live.attempts);
    assert Fits(m, live);
  }

  lemma MergedUsesBacked(t: Tables, source: Tables, scope: set<Id>)
    requires Unambiguous(LedgerOf(source, scope)) && Unambiguous(LedgerOf(t, scope))
    requires ApprovalsFit(t, ScopedApprovals(source, scope))
    ensures var m := Merged(t, LedgerOf(source, scope));
      var rows := ScopedConsumptions(m, scope);
      forall i :: i in rows ==> UseIsBacked(ScopedApprovals(m, scope), i, rows[i].use)
  {
    var live, own := LedgerOf(source, scope), LedgerOf(t, scope);
    var m := Merged(t, live);
    ApprovalsKept(t, live.approvals);
    var rows := ScopedConsumptions(m, scope);
    forall i | i in rows
      ensures UseIsBacked(ScopedApprovals(m, scope), i, rows[i].use)
    {
      if i in live.consumptions {
        assert UseIsBacked(live.approvals, i, live.consumptions[i].use);
      } else {
        assert i in own.consumptions && UseIsBacked(own.approvals, i, own.consumptions[i].use);
      }
    }
  }

  lemma MergedBudgetsBacked(t: Tables, source: Tables, scope: set<Id>)
    requires Unambiguous(LedgerOf(source, scope)) && Unambiguous(LedgerOf(t, scope))
    requires ApprovalsFit(t, ScopedApprovals(source, scope))
    ensures var m := Merged(t, LedgerOf(source, scope));
      var rows := ScopedBudgets(m, scope);
      forall i :: i in rows ==> BudgetIsBacked(ScopedApprovals(m, scope), rows[i].terms)
  {
    var live, own := LedgerOf(source, scope), LedgerOf(t, scope);
    var m := Merged(t, live);
    ApprovalsKept(t, live.approvals);
    var rows := ScopedBudgets(m, scope);
    forall i | i in rows
      ensures BudgetIsBacked(ScopedApprovals(m, scope), rows[i].terms)
    {
      var a := rows[i].terms.approval;
      assert a in RequiredApprovals(m, scope);
      if i in t.budgets {
        assert rows[i].terms == t.budgets[i].terms;
        assert i in own.budgets && BudgetIsBacked(own.approvals, own.budgets[i].terms);
        assert a in t.approvals;
      } else {
        assert i in live.budgets && BudgetIsBacked(live.approvals, live.budgets[i].terms);
        assert a in live.approvals;
      }
    }
  }

  /** Reading the merged tables back never finds an ambiguity that was in neither input:
      for a ledger captured from a database, agreement of the rows alone decides the merge. */
  lemma CapturedLedgerMergesIffRowsFit(t: Tables, source: Tables, scope: set<Id>)
    requires Unambiguous(LedgerOf(source, scope)) && Unambiguous(LedgerOf(t, scope))
    ensures Mergeable(t, LedgerOf(source, scope)) <==> Fits(t, LedgerOf(source, scope))
  {
    if Fits(t, LedgerOf(source, scope)) {
      MergedUsesBacked(t, source, scope);
      MergedBudgetsBacked(t, source, scope);
    }
  }

  // ---------------------------------------------------------- budget totals

  datatype Account = Account(project: Id, charter: Id, charterRevision: int, currency: Id)

  function AccountOf(b: Budget): Account {
    Account(b.terms.project, b.terms.charter, b.terms.charterRevision, b.terms.currency)
  }

  function Counted(b: Budget, account: Account, states: set<BudgetState>): int {
    if AccountOf(b) == account && b.state in states then b.terms.amountMinor else 0
  }

  /** SUM(amount_minor) over the account's reservations in the given states. */
  function Total(rows: map<Id, Budget>, account: Account, states: set<BudgetState>): int
    decreases |rows|
  {
    if rows.Keys == {} then 0
    else
      var id := LeastId(rows.Keys);
      Counted(rows[id], account, states) + Total(rows - {id}, account, states)
  }

  const COMMITTED := {Reserved, Crossed}
  const SPENT := {Crossed}

  lemma {:induction false} TotalTakesOneOut(rows: map<Id, Budget>, account: Account, states: set<BudgetState>, id: Id)
    requires id in rows
    ensures Total(rows, account, states) ==
      Counted(rows[id], account, states) + Total(rows - {id}, account, states)
    decreases |rows|
  {
    var least := LeastId(rows.Keys);
    if id != least {
      var rest := rows - {least};
      TotalTakesOneOut(rest, account, states, id);
      TotalTakesOneOut(rows - {id}, account, states, least);
      assert rest - {id} == rows - {id} - {least};
    }
  }

  ghost predicate NonNegative(rows: map<Id, Budget>) {
    forall i :: i in rows ==> rows[i].terms.amountMinor >= 0
  }

  /** A table that keeps every counted reservation of another has at least its total. */
  lemma {:induction false} TotalIsMonotone(
    smaller: map<Id, Budget>, larger: map<Id, Budget>, account: Account, states: set<BudgetState>)
    requires NonNegative(larger)
    requires forall i :: i in smaller ==>
      i in larger && Counted(smaller[i], account, states) <= Counted(larger[i], account, states)
    ensures Total(smaller, account, states) <= Total(larger, account, states)
    decreases |smaller|, |larger|
  {
    if smaller.Keys != {} {
      var id := LeastId(smaller.Keys);
      TotalTakesOneOut(larger, account, states, id);
      TotalIsMonotone(smaller - {id}, larger - {id}, account, states);
    } else if larger.Keys != {} {
      var id := LeastId(larger.Keys);
      TotalIsMonotone(smaller, larger - {id}, account, states);
    }
  }

  lemma MergedBudgetsDominate(staged: map<Id, Budget>, live: map<Id, Budget>, account: Account)
    requires forall i :: i in live && i in staged ==> staged[i].terms == live[i].terms
    requires NonNegative(staged) && NonNegative(live)
    ensures var m := MergedBudgets(staged, live);
      && NonNegative(m)
      && (forall i :: i in live ==> Counted(live[i], account, COMMITTED) <= Counted(m[i], account, COMMITTED))
      && (forall i :: i in live ==> Counted(live[i], account, SPENT) <= Counted(m[i], account, SPENT))
      && (forall i :: i in staged ==> Counted(staged[i], account, SPENT) <= Counted(m[i], account, SPENT))
  {
  }

  /** Money is never uncommitted or unspent by a merge: what the live database had committed
      stays committed, and what either side had spent stays spent. */
  lemma MergeConservesBudgets(t: Tables, live: Ledger, account: Account)
    requires Fits(t, live)
    requires NonNegative(t.budgets) && NonNegative(live.budgets)
    ensures Total(Merged(t, live).budgets, account, COMMITTED) >= Total(live.budgets, account, COMMITTED)
    ensures Total(Merged(t, live).budgets, account, SPENT) >= Total(live.budgets, account, SPENT)
    ensures Total(Merged(t, live).budgets, account, SPENT) >= Total(t.budgets, account, SPENT)
  {
    var m := MergedBudgets(t.budgets, live.budgets);
    MergedBudgetsDominate(t.budgets, live.budgets, account);
    TotalIsMonotone(live.budgets, m, account, COMMITTED);
    TotalIsMonotone(live.budgets, m, account, SPENT);
    TotalIsMonotone(t.budgets, m, account, SPENT);
  }
}
