/** Reconciling a staged backup with the attempts that Authority fenced. */
module Reconciliation {
  import opened Common
  import opened ExecutiveTables
  import opened SafetyLedger
  import opened LedgerLaws

  datatype FencedAttempt = FencedAttempt(record: AuthorityRecord, serviceState: ServiceState)

  datatype LaunchRow = LaunchRow(id: Id, project: Id, generation: int, knownState: bool)

  datatype Receipt = Receipt(attempts: seq<FencedAttempt>, launches: seq<LaunchRow>, issuedAt: Stamp)

  predicate Terminal(s: ServiceState) {
    s in {CompletedAttempt, FailedAttempt, CancelledAttempt}
  }

  predicate AcceptedState(s: ServiceState) {
    s in {ReservedAttempt, LaunchClaimed, ExecutionStarted, Paused, CompletedAttempt, FailedAttempt, CancelledAttempt}
  }

  /** Beyond the external boundary: the provider may have spent the budget. */
  predicate PastLaunch(s: ServiceState) {
    s !in {ReservedAttempt, LaunchClaimed}
  }

  /** The first rows of the receipt are in scope, well formed and not repeated. */
  ghost predicate LaunchRowsValid(rows: seq<LaunchRow>, n: nat, scope: set<Id>)
    requires n <= |rows|
  {
    && (forall k :: 0 <= k < n ==> rows[k].project in scope && rows[k].generation > 0 && rows[k].knownState)
    && (forall j, k :: 0 <= j < k < n ==> rows[j].id != rows[k].id)
  }

  /** The first rows by their id. */
  ghost function IndexOf(rows: seq<LaunchRow>, n: nat): map<Id, LaunchRow>
    requires n <= |rows|
  {
    if n == 0 then map[] else IndexOf(rows, n - 1)[rows[n - 1].id := rows[n - 1]]
  }

  /** `_authority_launch_authorizations`: an index that refuses duplicates and foreign rows. */
  method IndexLaunches(rows: seq<LaunchRow>, scope: set<Id>) returns (r: Option<map<Id, LaunchRow>>)
    ensures r.Some? <==> LaunchRowsValid(rows, |rows|, scope)
    ensures r.Some? ==> r.value == IndexOf(rows, |rows|)
    ensures r.Some? ==> forall k :: 0 <= k < |rows| ==> rows[k].id in r.value && r.value[rows[k].id] == rows[k]
  {
    var index: map<Id, LaunchRow> := map[];
    for k := 0 to |rows|
      invariant LaunchRowsValid(rows, k, scope)
      invariant index == IndexOf(rows, k)
      invariant forall j :: 0 <= j < k ==> rows[j].id in index && index[rows[j].id] == rows[j]
      invariant forall id :: id in index ==> exists j :: 0 <= j < k && rows[j].id == id
    {
      var row := rows[k];
      if row.id in index || row.project !in scope || row.generation <= 0 || !row.knownState {
        return None;
      }
      index := index[row.id := row];
    }
    r := Some(index);
  }

  predicate BoundTo(e: ExecutiveAttempt, r: AuthorityRecord) {
    && e.binding.project == r.project
    && e.binding.charter == r.charter
    && e.binding.charterRevision == r.charterRevision
    && e.binding.task == r.task
    && e.launch == r.launch
  }

  predicate Authorized(launches: map<Id, LaunchRow>, r: AuthorityRecord) {
    var id := r.launch.launchAuthorization;
    id in launches && launches[id].project == r.project && launches[id].generation == r.launch.generation
  }

  predicate ApprovalIntact(approvals: map<Id, Approval>, consumptions: map<Id, Consumption>, b: SafetyBinding) {
    b.approval.Some? ==>
      var id := b.approval.value;
      && id in approvals
      && (approvals[id].terms.oneTime ==>
            && approvals[id].consumedAt.Some?
            && id in consumptions
            && consumptions[id].use.project == b.project
            && consumptions[id].use.action == b.action
            && consumptions[id].use.task == Some(b.task))
  }

  predicate ReservationIntact(budgets: map<Id, Budget>, b: SafetyBinding) {
    b.reservation.Some? ==>
      var id := b.reservation.value;
      && id in budgets
      && budgets[id].terms.project == b.project
      && Some(budgets[id].terms.approval) == b.approval
      && budgets[id].terms.action == b.action
      && budgets[id].terms.task == Some(b.task)
      && budgets[id].state != Released
  }

  predicate TaskBound(tasks: map<Id, ExecutiveTask>, task: Id, attempt: Id) {
    task in tasks && tasks[task].authorityAttempt == Some(attempt)
  }

  predicate Admissible(t: Tables, scope: set<Id>, launches: map<Id, LaunchRow>, a: FencedAttempt) {
    var r := a.record;
    && AcceptedState(a.serviceState)
    && r.project in scope
    && Authorized(launches, r)
    && r.id in t.attempts
    && BoundTo(t.attempts[r.id], r)
    && ApprovalIntact(t.approvals, t.consumptions, t.attempts[r.id].binding)
    && ReservationIntact(t.budgets, t.attempts[r.id].binding)
    && (Terminal(a.serviceState) ==>
          && t.attempts[r.id].completion in {None, Some(DigestOf(r))}
          && (t.attempts[r.id].completion.None? ==> TaskBound(t.tasks, r.task, r.id)))
  }

  function CrossedBudgets(budgets: map<Id, Budget>, reservation: Option<Id>): map<Id, Budget> {
    if reservation.Some? && reservation.value in budgets && budgets[reservation.value].state == Reserved
    then budgets[reservation.value := budgets[reservation.value].(state := Crossed)]
    else budgets
  }

  function UncertainTask(task: ExecutiveTask, at: Stamp): ExecutiveTask {
    if task.status.TaskDone? then task
    else task.(status := TaskUncertain, revision := task.revision + 1, updatedAt := at)
  }

  function Stamped(e: ExecutiveAttempt, a: FencedAttempt, at: Stamp): ExecutiveAttempt {
    e.(state := AttemptUncertain, completion := Some(DigestOf(a.record)),
       authorityTerminal := Some(a.serviceState), reconciledAt := Some(at))
  }

  function AfterAttempt(t: Tables, a: FencedAttempt, at: Stamp): Tables
    requires a.record.id in t.attempts
    requires Terminal(a.serviceState) && t.attempts[a.record.id].completion.None? ==> a.record.task in t.tasks
  {
    var r := a.record;
    var e := t.attempts[r.id];
    var crossed :=
      if PastLaunch(a.serviceState) then t.(budgets := CrossedBudgets(t.budgets, e.binding.reservation)) else t;
    if Terminal(a.serviceState) && e.completion.None? then
      crossed.(attempts := t.attempts[r.id := Stamped(e, a, at)],
               tasks := t.tasks[r.task := UncertainTask(t.tasks[r.task], at)])
    else crossed
  }

  /** The staged tables after the fenced attempts, in order, or None when one is refused. */
  function Reconcile(
    t: Tables, scope: set<Id>, launches: map<Id, LaunchRow>, attempts: seq<FencedAttempt>,
    at: Stamp): Option<Tables> {
    if attempts == [] then Some(t)
    else
      var before := Reconcile(t, scope, launches, attempts[..|attempts| - 1], at);
      var last := attempts[|attempts| - 1];
      if before.None? || !Admissible(before.value, scope, launches, last) then None
      else Some(AfterAttempt(before.value, last, at))
  }

  /** One turn of the loop in `_reconcile_staged`. */
  method ReconcileAttempt(db: StagedDatabase, scope: set<Id>, launches: map<Id, LaunchRow>, a: FencedAttempt, at: Stamp)
    returns (ok: bool)
    modifies db
    ensures ok <==> Admissible(old(db.Value()), scope, launches, a)
    ensures ok ==> db.Value() == AfterAttempt(old(db.Value()), a, at)
  {
    var r := a.record;
    if !AcceptedState(a.serviceState) || r.project !in scope || !Authorized(launches, r) {
      return false;
    }
    if r.id !in db.attempts || !BoundTo(db.attempts[r.id], r) {
      return false;
    }
    var executive := db.attempts[r.id];
    if !ApprovalIntact(db.approvals, db.consumptions, executive.binding)
       || !ReservationIntact(db.budgets, executive.binding) {
      return false;
    }
    if executive.binding.reservation.Some? && PastLaunch(a.serviceState) {
      var held := executive.binding.reservation.value;
      if db.budgets[held].state == Reserved {
        db.budgets := db.budgets[held := db.budgets[held].(state := Crossed)];
      }
    }
    if Terminal(a.serviceState) {
      if executive.completion != None && executive.completion != Some(DigestOf(r)) {
        return false;
      }
      if executive.completion.None? {
        db.attempts := db.attempts[r.id := Stamped(executive, a, at)];
        if !TaskBound(db.tasks, r.task, r.id) {
          return false;
        }
        if !db.tasks[r.task].status.TaskDone? {
          db.tasks := db.tasks[r.task := UncertainTask(db.tasks[r.task], at)];
        } else {
          assert db.tasks == db.tasks[r.task := db.tasks[r.task]];
        }
      }
    }
    ok := true;
  }

  /** When `_reconcile_staged` returns, and with which staged tables. */
  ghost predicate Reconcilable(t: Tables, scope: set<Id>, receipt: Receipt, live: Ledger) {
    && t.projects.Keys <= scope
    && Mergeable(t, live)
    && LaunchRowsValid(receipt.launches, |receipt.launches|, scope)
    && Reconciled(t, scope, receipt, live).Some?
  }

  /** The staged tables after a successful reconciliation. */
  ghost function Reconciled(t: Tables, scope: set<Id>, receipt: Receipt, live: Ledger): Option<Tables> {
    Reconcile(Merged(t, live), scope, IndexOf(receipt.launches, |receipt.launches|), receipt.attempts, receipt.issuedAt)
  }

  /** `_reconcile_staged`: merge the captured ledger, then walk the fenced attempts. */
  method ReconcileStaged(db: StagedDatabase, scope: set<Id>, receipt: Receipt, live: Ledger)
    returns (ok: bool)
    requires UniqueUses(db.consumptions) && UniqueReservations(db.budgets)
    modifies db
    ensures ok <==> Reconcilable(old(db.Value()), scope, receipt, live)
    ensures ok ==>
      Some(db.Value()) == Reconciled(old(db.Value()), scope, receipt, live)
    ensures ok ==> WalkedTo(Merged(old(db.Value()), live), receipt.attempts, receipt.issuedAt, db.Value())
    ensures ok <==>
      && old(db.projects).Keys <= scope && Mergeable(old(db.Value()), live)
      && LaunchRowsValid(receipt.launches, |receipt.launches|, scope)
      && Walkable(Merged(old(db.Value()), live), scope, IndexOf(receipt.launches, |receipt.launches|), receipt.attempts)
    ensures !ok ==> db.Value() == old(db.Value())
  {
    hide Walkable, WalkedTo;
    var before := db.Value();
    ghost var index := IndexOf(receipt.launches, |receipt.launches|);
    WalkSucceedsIff(Merged(before, live), scope, index, receipt.attempts, receipt.issuedAt);
    if Reconcile(Merged(before, live), scope, index, receipt.attempts, receipt.issuedAt).Some? {
      WalkDoesExactly(Merged(before, live), scope, index, receipt.attempts, receipt.issuedAt);
    }
    if !(db.projects.Keys <= scope) {
      return false;
    }
    ok := db.MergeLiveSafetyLedger(live);
    if !ok {
      return false;
    }
    var launches := IndexLaunches(receipt.launches, scope);
    if launches.None? {
      db.Rollback(before);
      return false;
    }
    ok := WalkAttempts(db, scope, launches.value, receipt.attempts, receipt.issuedAt);
    if !ok {
      db.Rollback(before);
    }
  }

  method WalkAttempts(db: StagedDatabase, scope: set<Id>, launches: map<Id, LaunchRow>, attempts: seq<FencedAttempt>, at: Stamp)
    returns (ok: bool)
    modifies db
    ensures ok <==> Reconcile(old(db.Value()), scope, launches, attempts, at).Some?
    ensures ok ==> Some(db.Value()) == Reconcile(old(db.Value()), scope, launches, attempts, at)
  {
    ghost var start := db.Value();
    for k := 0 to |attempts|
      invariant Reconcile(start, scope, launches, attempts[..k], at) == Some(db.Value())
    {
      var admitted := ReconcileAttempt(db, scope, launches, attempts[k], at);
      assert attempts[..k + 1][..k] == attempts[..k];
      if !admitted {
        RefusalIsFinal(start, scope, launches, attempts, at, k + 1);
        return false;
      }
    }
    assert attempts[..|attempts|] == attempts;
    ok := true;
  }

  lemma {:induction false} RefusalIsFinal(
    t: Tables, scope: set<Id>, launches: map<Id, LaunchRow>, attempts: seq<FencedAttempt>,
    at: Stamp, k: nat)
    requires k <= |attempts| && Reconcile(t, scope, launches, attempts[..k], at).None?
    ensures Reconcile(t, scope, launches, attempts, at).None?
    decreases |attempts|
  {
    if k == |attempts| {
      assert attempts[..k] == attempts;
    } else {
      var init := attempts[..|attempts| - 1];
      assert init[..k] == attempts[..k];
      RefusalIsFinal(t, scope, launches, init, at, k);
    }
  }

  // ------------------------------------------------------------------- laws

  /** What staging must say about a fenced attempt, given how it started out. */
  ghost predicate Settled(start: Tables, t: Tables, a: FencedAttempt) {
    var r := a.record;
    && r.id in t.attempts
    && BoundTo(t.attempts[r.id], r)
    && (Terminal(a.serviceState) ==> t.attempts[r.id].completion == Some(DigestOf(r)))
    && (PastLaunch(a.serviceState) && t.attempts[r.id].binding.reservation.Some? ==>
          var held := t.attempts[r.id].binding.reservation.value;
          held in t.budgets && t.budgets[held].state == Crossed)
    && (Terminal(a.serviceState) && r.id in start.attempts && start.attempts[r.id].completion.None? ==>
          r.task in t.tasks && !t.tasks[r.task].status.TaskOpen?)
  }

  /** Reconciliation only moves rows forward and leaves the merged grants alone. */
  ghost predicate OnlyForward(start: Tables, t: Tables) {
    && t.projects == start.projects && t.charters == start.charters
    && t.approvals == start.approvals && t.consumptions == start.consumptions
    && t.budgets.Keys == start.budgets.Keys
    && (forall i :: i in start.budgets ==>
          t.budgets[i] == start.budgets[i]
          || (start.budgets[i].state == Reserved && t.budgets[i] == start.budgets[i].(state := Crossed)))
    && t.attempts.Keys == start.attempts.Keys
    && (forall i :: i in start.attempts ==>
          && t.attempts[i].binding == start.attempts[i].binding
          && t.attempts[i].launch == start.attempts[i].launch
          && (start.attempts[i].completion.Some? ==> t.attempts[i] == start.attempts[i]))
    && t.tasks.Keys == start.tasks.Keys
    && (forall i :: i in start.tasks ==>
          t.tasks[i] == start.tasks[i] || (!start.tasks[i].status.TaskDone? && t.tasks[i].status.TaskUncertain?))
  }

  lemma StepMovesForward(start: Tables, t: Tables, scope: set<Id>, launches: map<Id, LaunchRow>, a: FencedAttempt, at: Stamp)
    requires OnlyForward(start, t) && Admissible(t, scope, launches, a)
    ensures OnlyForward(start, AfterAttempt(t, a, at))
  {
  }

  lemma StepSettles(start: Tables, t: Tables, scope: set<Id>, launches: map<Id, LaunchRow>, a: FencedAttempt, at: Stamp)
    requires OnlyForward(start, t) && Admissible(t, scope, launches, a)
    requires start.attempts[a.record.id].completion.None? && t.attempts[a.record.id].completion.Some? ==>
      a.record.task in t.tasks && !t.tasks[a.record.task].status.TaskOpen?
    ensures Settled(start, AfterAttempt(t, a, at), a)
  {
  }

  lemma StepKeepsSettled(
    start: Tables, t: Tables, scope: set<Id>, launches: map<Id, LaunchRow>, a: FencedAttempt, next: FencedAttempt,
    at: Stamp)
    requires Settled(start, t, a) && Admissible(t, scope, launches, next)
    ensures Settled(start, AfterAttempt(t, next, at), a)
  {
  }

  /** A completion that reconciliation wrote always came with its task's uncertainty. */
  ghost predicate StampsMarkTasks(start: Tables, t: Tables) {
    forall i :: i in start.attempts && i in t.attempts ==>
      (start.attempts[i].completion.None? && t.attempts[i].completion.Some? ==>
         var task := t.attempts[i].binding.task;
         task in t.tasks && !t.tasks[task].status.TaskOpen?)
  }

  lemma StepMarksTask(start: Tables, t: Tables, scope: set<Id>, launches: map<Id, LaunchRow>, a: FencedAttempt, at: Stamp)
    requires OnlyForward(start, t) && StampsMarkTasks(start, t) && Admissible(t, scope, launches, a)
    ensures StampsMarkTasks(start, AfterAttempt(t, a, at))
  {
  }

  /** Every fenced attempt is settled at the end of a successful walk: no later turn of the
      loop undoes an earlier one, whatever the order and whether or not ids repeat. */
  lemma {:induction false} EveryAttemptIsSettled(
    t: Tables, scope: set<Id>, launches: map<Id, LaunchRow>, attempts: seq<FencedAttempt>,
    at: Stamp)
    requires Reconcile(t, scope, launches, attempts, at).Some?
    ensures var final := Reconcile(t, scope, launches, attempts, at).value;
      && OnlyForward(t, final)
      && StampsMarkTasks(t, final)
      && (forall k :: 0 <= k < |attempts| ==> Settled(t, final, attempts[k]))
  {
    if attempts != [] {
      var init, last := attempts[..|attempts| - 1], attempts[|attempts| - 1];
      EveryAttemptIsSettled(t, scope, launches, init, at);
      var before := Reconcile(t, scope, launches, init, at).value;
      StepMovesForward(t, before, scope, launches, last, at);
      StepMarksTask(t, before, scope, launches, last, at);
      StepSettles(t, before, scope, launches, last, at);
      forall k | 0 <= k < |attempts| - 1
        ensures Settled(t, AfterAttempt(before, last, at), attempts[k])
      {
        assert init[k] == attempts[k];
        StepKeepsSettled(t, before, scope, launches, attempts[k], last, at);
      }
    }
  }

  // ------------------------------------------------- exactly what a walk does

  /** A terminal entry for the attempt is in the receipt. */
  predicate Ends(attempts: seq<FencedAttempt>, i: Id) {
    exists j :: 0 <= j < |attempts| && attempts[j].record.id == i
      && attempts[j].serviceState in {CompletedAttempt, FailedAttempt, CancelledAttempt}
  }

  /** An entry past launch holds this reservation. */
  predicate Crosses(start: Tables, attempts: seq<FencedAttempt>, h: Id) {
    exists j ::
      && 0 <= j < |attempts| && attempts[j].serviceState !in {ReservedAttempt, LaunchClaimed}
      && attempts[j].record.id in start.attempts
      && start.attempts[attempts[j].record.id].binding.reservation == Some(h)
  }

  predicate Stamps(start: Tables, attempts: seq<FencedAttempt>, i: Id) {
    i in start.attempts && start.attempts[i].completion.None? && Ends(attempts, i)
  }

  function CrossedState(start: Tables, attempts: seq<FencedAttempt>, h: Id): BudgetState
    requires h in start.budgets
  {
    if start.budgets[h].state == Reserved && Crosses(start, attempts, h) then Crossed else start.budgets[h].state
  }

  /** The row that the receipt's first ending of the attempt leaves: what it was bound to and launched
      with stays, and the digest, the end and the time are those of that entry. */
  ghost predicate MarkedRow(e: ExecutiveAttempt, attempts: seq<FencedAttempt>, i: Id, at: Stamp, e': ExecutiveAttempt) {
    exists j ::
      && 0 <= j < |attempts| && attempts[j].record.id == i
      && attempts[j].serviceState in {CompletedAttempt, FailedAttempt, CancelledAttempt}
      && !Ends(attempts[..j], i)
      && e' == ExecutiveAttempt(
                 binding := e.binding, launch := e.launch, state := AttemptUncertain,
                 completion := Some(DigestOf(attempts[j].record)),
                 authorityTerminal := Some(attempts[j].serviceState), reconciledAt := Some(at))
  }

  ghost predicate AttemptsTo(start: Tables, attempts: seq<FencedAttempt>, at: Stamp, t: Tables) {
    && t.attempts.Keys == start.attempts.Keys
    && (forall i :: i in start.attempts ==>
          if Stamps(start, attempts, i) then MarkedRow(start.attempts[i], attempts, i, at, t.attempts[i])
          else t.attempts[i] == start.attempts[i])
  }

  ghost predicate HoldsTo(start: Tables, attempts: seq<FencedAttempt>, t: Tables) {
    && t.budgets.Keys == start.budgets.Keys
    && (forall h :: h in start.budgets ==>
          t.budgets[h] == Budget(terms := start.budgets[h].terms, state := CrossedState(start, attempts, h)))
  }

  /** The task is the one that a marked attempt was for, and is bound to that attempt. */
  predicate Loses(start: Tables, attempts: seq<FencedAttempt>, k: Id)
    requires k in start.tasks
  {
    && !start.tasks[k].status.TaskDone? && start.tasks[k].authorityAttempt.Some?
    && var i := start.tasks[k].authorityAttempt.value;
       Stamps(start, attempts, i) && start.attempts[i].binding.task == k
  }

  ghost predicate TasksTo(start: Tables, attempts: seq<FencedAttempt>, at: Stamp, t: Tables) {
    && t.tasks.Keys == start.tasks.Keys
    && (forall k :: k in start.tasks ==>
          if Loses(start, attempts, k) then
            t.tasks[k] == ExecutiveTask(
                            status := TaskUncertain, revision := start.tasks[k].revision + 1,
                            authorityAttempt := start.tasks[k].authorityAttempt, updatedAt := at)
          else t.tasks[k] == start.tasks[k])
  }

  /** The rows after a walk, row by row, from the rows before it and the receipt alone. */
  ghost predicate WalkedTo(start: Tables, attempts: seq<FencedAttempt>, at: Stamp, t: Tables) {
    && AttemptsTo(start, attempts, at, t) && HoldsTo(start, attempts, t) && TasksTo(start, attempts, at, t)
    && t.projects == start.projects && t.charters == start.charters
    && t.approvals == start.approvals && t.consumptions == start.consumptions
  }

  /** They are all there is to know of it. */
  lemma WalkedToOne(start: Tables, attempts: seq<FencedAttempt>, at: Stamp, t: Tables, u: Tables)
    requires WalkedTo(start, attempts, at, t) && WalkedTo(start, attempts, at, u)
    ensures t == u
  {
    hide Ends, Crosses, Loses;
    forall i | i in start.attempts && Stamps(start, attempts, i)
      ensures t.attempts[i] == u.attempts[i]
    {
      EndedOnceFirst(start.attempts[i], attempts, i, at, t.attempts[i], u.attempts[i]);
    }
    assert t.attempts == u.attempts;
    assert t.budgets == u.budgets;
    assert t.tasks == u.tasks;
  }

  lemma EndedOnceFirst(
    e: ExecutiveAttempt, attempts: seq<FencedAttempt>, i: Id, at: Stamp, e': ExecutiveAttempt, e'': ExecutiveAttempt)
    requires MarkedRow(e, attempts, i, at, e') && MarkedRow(e, attempts, i, at, e'')
    ensures e' == e''
  {
    forall j, k | 0 <= j < k < |attempts| && attempts[j].record.id == i
                  && attempts[j].serviceState in {CompletedAttempt, FailedAttempt, CancelledAttempt}
      ensures Ends(attempts[..k], i)
    {
      assert attempts[..k][j] == attempts[j];
    }
  }

  lemma EndsStep(attempts: seq<FencedAttempt>, i: Id)
    requires attempts != []
    ensures var last := attempts[|attempts| - 1];
      Ends(attempts, i) <==> Ends(attempts[..|attempts| - 1], i) || (last.record.id == i && Terminal(last.serviceState))
  {
    var init := attempts[..|attempts| - 1];
    if Ends(init, i) {
      var j :| 0 <= j < |init| && init[j].record.id == i && Terminal(init[j].serviceState);
      assert attempts[j] == init[j];
    }
    if Ends(attempts, i) {
      var j :| 0 <= j < |attempts| && attempts[j].record.id == i && Terminal(attempts[j].serviceState);
      assert j < |init| ==> init[j] == attempts[j];
    }
  }

  lemma CrossesStep(start: Tables, attempts: seq<FencedAttempt>, h: Id)
    requires attempts != []
    ensures var last := attempts[|attempts| - 1];
      Crosses(start, attempts, h) <==>
        || Crosses(start, attempts[..|attempts| - 1], h)
        || (PastLaunch(last.serviceState) && last.record.id in start.attempts
            && start.attempts[last.record.id].binding.reservation == Some(h))
  {
    var init := attempts[..|attempts| - 1];
    if Crosses(start, init, h) {
      var j :| 0 <= j < |init| && PastLaunch(init[j].serviceState) && init[j].record.id in start.attempts
        && start.attempts[init[j].record.id].binding.reservation == Some(h);
      assert attempts[j] == init[j];
    }
    if Crosses(start, attempts, h) {
      var j :| 0 <= j < |attempts| && PastLaunch(attempts[j].serviceState) && attempts[j].record.id in start.attempts
        && start.attempts[attempts[j].record.id].binding.reservation == Some(h);
      assert j < |init| ==> init[j] == attempts[j];
    }
  }

  lemma MarkedStays(e: ExecutiveAttempt, attempts: seq<FencedAttempt>, i: Id, at: Stamp, e': ExecutiveAttempt)
    requires attempts != [] && MarkedRow(e, attempts[..|attempts| - 1], i, at, e')
    ensures MarkedRow(e, attempts, i, at, e')
  {
    var init := attempts[..|attempts| - 1];
    var j :| 0 <= j < |init| && init[j].record.id == i
      && init[j].serviceState in {CompletedAttempt, FailedAttempt, CancelledAttempt} && !Ends(init[..j], i)
      && e' == ExecutiveAttempt(
                 binding := e.binding, launch := e.launch, state := AttemptUncertain,
                 completion := Some(DigestOf(init[j].record)),
                 authorityTerminal := Some(init[j].serviceState), reconciledAt := Some(at));
    assert attempts[j] == init[j] && attempts[..j] == init[..j];
  }

  lemma MarkedNow(e: ExecutiveAttempt, attempts: seq<FencedAttempt>, at: Stamp)
    requires attempts != [] && Terminal(attempts[|attempts| - 1].serviceState)
    requires !Ends(attempts[..|attempts| - 1], attempts[|attempts| - 1].record.id)
    ensures var last := attempts[|attempts| - 1]; MarkedRow(e, attempts, last.record.id, at, Stamped(e, last, at))
  {
  }

  lemma AttemptsWalked(
    start: Tables, before: Tables, scope: set<Id>, launches: map<Id, LaunchRow>, attempts: seq<FencedAttempt>, at: Stamp)
    requires attempts != [] && OnlyForward(start, before) && WalkedTo(start, attempts[..|attempts| - 1], at, before)
    requires Admissible(before, scope, launches, attempts[|attempts| - 1])
    ensures AttemptsTo(start, attempts, at, AfterAttempt(before, attempts[|attempts| - 1], at))
  {
    hide Ends, HoldsTo, TasksTo, MarkedRow, Stamped;
    var init, last := attempts[..|attempts| - 1], attempts[|attempts| - 1];
    forall i: Id | i in start.attempts
      ensures Ends(attempts, i) <==> Ends(init, i) || (last.record.id == i && Terminal(last.serviceState))
      ensures Stamps(start, init, i) ==> MarkedRow(start.attempts[i], attempts, i, at, before.attempts[i])
    {
      EndsStep(attempts, i);
      if Stamps(start, init, i) {
        MarkedStays(start.attempts[i], attempts, i, at, before.attempts[i]);
      }
    }
    if Terminal(last.serviceState) && !Ends(init, last.record.id) {
      MarkedNow(start.attempts[last.record.id], attempts, at);
    }
    MarkedHaveCompletion(start, init, at, before);
  }

  lemma MarkedHaveCompletion(start: Tables, attempts: seq<FencedAttempt>, at: Stamp, t: Tables)
    requires AttemptsTo(start, attempts, at, t)
    ensures forall i :: i in start.attempts ==>
      (t.attempts[i].completion.Some? <==> start.attempts[i].completion.Some? || Ends(attempts, i))
  {
  }

  lemma TasksWalked(
    start: Tables, before: Tables, scope: set<Id>, launches: map<Id, LaunchRow>, attempts: seq<FencedAttempt>, at: Stamp)
    requires attempts != [] && OnlyForward(start, before) && WalkedTo(start, attempts[..|attempts| - 1], at, before)
    requires Admissible(before, scope, launches, attempts[|attempts| - 1])
    ensures TasksTo(start, attempts, at, AfterAttempt(before, attempts[|attempts| - 1], at))
  {
    hide Ends, HoldsTo;
    forall i: Id
      ensures var last := attempts[|attempts| - 1];
        Ends(attempts, i) <==> Ends(attempts[..|attempts| - 1], i) || (last.record.id == i && Terminal(last.serviceState))
    {
      EndsStep(attempts, i);
    }
  }

  lemma HoldsWalked(
    start: Tables, before: Tables, scope: set<Id>, launches: map<Id, LaunchRow>, attempts: seq<FencedAttempt>, at: Stamp)
    requires attempts != [] && OnlyForward(start, before) && WalkedTo(start, attempts[..|attempts| - 1], at, before)
    requires Admissible(before, scope, launches, attempts[|attempts| - 1])
    ensures HoldsTo(start, attempts, AfterAttempt(before, attempts[|attempts| - 1], at))
  {
    hide Ends, Crosses, AttemptsTo, TasksTo;
    forall h: Id | h in start.budgets
      ensures AfterAttempt(before, attempts[|attempts| - 1], at).budgets[h].state == CrossedState(start, attempts, h)
    {
      CrossesStep(start, attempts, h);
    }
  }

  /** A successful walk marks exactly the attempts that the receipt ends and that carried no
      completion, crosses exactly the holds of attempts past launch, and touches no other row. */
  lemma {:induction false} WalkDoesExactly(
    t: Tables, scope: set<Id>, launches: map<Id, LaunchRow>, attempts: seq<FencedAttempt>, at: Stamp)
    requires Reconcile(t, scope, launches, attempts, at).Some?
    ensures WalkedTo(t, attempts, at, Reconcile(t, scope, launches, attempts, at).value)
  {
    if attempts != [] {
      var init := attempts[..|attempts| - 1];
      WalkDoesExactly(t, scope, launches, init, at);
      EveryAttemptIsSettled(t, scope, launches, init, at);
      hide AttemptsTo, HoldsTo, TasksTo, OnlyForward, Admissible, StampsMarkTasks, Settled;
      var before := Reconcile(t, scope, launches, init, at).value;
      AttemptsWalked(t, before, scope, launches, attempts, at);
      HoldsWalked(t, before, scope, launches, attempts, at);
      TasksWalked(t, before, scope, launches, attempts, at);
    }
  }

  predicate Agree(a: FencedAttempt, b: FencedAttempt) {
    a.record.id == b.record.id
    && a.serviceState in {CompletedAttempt, FailedAttempt, CancelledAttempt}
    && b.serviceState in {CompletedAttempt, FailedAttempt, CancelledAttempt} ==>
      a.record == b.record
  }

  /** Two entries that end one attempt say the same of it. */
  predicate EndingsAgree(attempts: seq<FencedAttempt>) {
    forall j, k :: 0 <= j < k < |attempts| ==> Agree(attempts[j], attempts[k])
  }

  lemma AdmissibleLater(
    start: Tables, before: Tables, scope: set<Id>, launches: map<Id, LaunchRow>, init: seq<FencedAttempt>,
    last: FencedAttempt, at: Stamp)
    requires OnlyForward(start, before) && WalkedTo(start, init, at, before)
    requires forall k :: 0 <= k < |init| ==> Settled(start, before, init[k])
    requires forall k :: 0 <= k < |init| ==> Admissible(start, scope, launches, init[k])
    ensures Admissible(before, scope, launches, last) <==>
      && Admissible(start, scope, launches, last)
      && (forall k :: 0 <= k < |init| ==> Agree(init[k], last))
  {
    var id := last.record.id;
    if id in start.attempts && Terminal(last.serviceState) {
      if Stamps(start, init, id) {
        var j :| 0 <= j < |init| && init[j].record.id == id && Terminal(init[j].serviceState);
        assert Settled(start, before, init[j]);
        assert before.attempts[id].completion == Some(DigestOf(init[j].record));
        assert forall k :: 0 <= k < |init| && Terminal(init[k].serviceState) && init[k].record.id == id ==>
          Settled(start, before, init[k]) && init[k].record == init[j].record;
        assert Admissible(start, scope, launches, init[j]);
      } else {
        assert before.attempts[id] == start.attempts[id];
        forall k | 0 <= k < |init| && Terminal(init[k].serviceState) && init[k].record.id == id
          ensures start.attempts[id].completion == Some(DigestOf(init[k].record))
        {
          assert Ends(init, id);
          assert Settled(start, before, init[k]);
        }
      }
    }
  }

  ghost predicate BoundAlike(e: ExecutiveAttempt, r: AuthorityRecord) {
    e == e.(binding := e.binding.(project := r.project, charter := r.charter,
                                  charterRevision := r.charterRevision, task := r.task),
            launch := r.launch)
  }

  /** The binding's approval, spent on this very action when it can be spent once. */
  ghost predicate ApprovedFor(t: Tables, b: SafetyBinding, approval: Id) {
    && approval in t.approvals
    && (t.approvals[approval].terms.oneTime ==>
          && t.approvals[approval].consumedAt != None && approval in t.consumptions
          && exists charter, revision ::
               t.consumptions[approval].use == Use(b.project, charter, revision, b.action, Some(b.task)))
  }

  /** The binding's reservation, made for this action and not given back. */
  ghost predicate HeldFor(t: Tables, b: SafetyBinding, held: Id) {
    && held in t.budgets && t.budgets[held].state in {Reserved, Crossed}
    && b.approval.Some?
    && t.budgets[held].terms ==
       t.budgets[held].terms.(project := b.project, approval := b.approval.value, action := b.action, task := Some(b.task))
  }

  /** What a receipt's entry must find in the rows: its launch authorization of the same project and
      generation; the attempt, bound and launched as Authority says, with its approval and its
      reservation; and for an ended attempt its digest, or none yet and the task that waits for it. */
  ghost predicate Vetted(t: Tables, scope: set<Id>, launches: map<Id, LaunchRow>, a: FencedAttempt) {
    var r := a.record;
    && !a.serviceState.InputBound? && !a.serviceState.OtherServiceState? && r.project in scope
    && r.launch.launchAuthorization in launches
    && launches[r.launch.launchAuthorization].project == r.project
    && launches[r.launch.launchAuthorization].generation == r.launch.generation
    && r.id in t.attempts
    && (var e := t.attempts[r.id];
        && BoundAlike(e, r)
        && (e.binding.approval.Some? ==> ApprovedFor(t, e.binding, e.binding.approval.value))
        && (e.binding.reservation.Some? ==> HeldFor(t, e.binding, e.binding.reservation.value))
        && (a.serviceState in {CompletedAttempt, FailedAttempt, CancelledAttempt} && e.completion != Some(DigestOf(r)) ==>
              e.completion == None && r.task in t.tasks && t.tasks[r.task].authorityAttempt == Some(r.id)))
  }

  lemma AdmissibleIffVetted(t: Tables, scope: set<Id>, launches: map<Id, LaunchRow>, a: FencedAttempt)
    ensures Admissible(t, scope, launches, a) <==> Vetted(t, scope, launches, a)
  {
    if a.record.id in t.attempts {
      var b := t.attempts[a.record.id].binding;
      if b.approval.Some? {
        ApprovalIntactIff(t, b, b.approval.value);
      }
    }
    hide ApprovalIntact, ApprovedFor;
  }

  lemma ApprovalIntactIff(t: Tables, b: SafetyBinding, approval: Id)
    requires b.approval == Some(approval)
    ensures ApprovalIntact(t.approvals, t.consumptions, b) <==> ApprovedFor(t, b, approval)
  {
    if approval in t.consumptions {
      var use := t.consumptions[approval].use;
      assert use == Use(use.project, use.charter, use.charterRevision, use.action, use.task);
    }
  }

  /** A condition on the receipt and on the rows before the walk. */
  ghost predicate Walkable(t: Tables, scope: set<Id>, launches: map<Id, LaunchRow>, attempts: seq<FencedAttempt>) {
    (forall k :: 0 <= k < |attempts| ==> Vetted(t, scope, launches, attempts[k])) && EndingsAgree(attempts)
  }

  lemma WalkableStep(t: Tables, scope: set<Id>, launches: map<Id, LaunchRow>, attempts: seq<FencedAttempt>)
    requires attempts != []
    ensures var init, last := attempts[..|attempts| - 1], attempts[|attempts| - 1];
      Walkable(t, scope, launches, attempts) <==>
        && Walkable(t, scope, launches, init) && Vetted(t, scope, launches, last)
        && (forall k :: 0 <= k < |init| ==> Agree(init[k], last))
  {
    hide Vetted, Agree;
    var init := attempts[..|attempts| - 1];
    assert forall k :: 0 <= k < |init| ==> attempts[k] == init[k];
    if Walkable(t, scope, launches, attempts) {
      assert forall k :: 0 <= k < |init| ==> Vetted(t, scope, launches, attempts[k]);
      assert forall k :: 0 <= k < |init| ==> Agree(attempts[k], attempts[|init|]);
    }
  }

  /** The walk succeeds exactly when every entry is admissible against the rows as they were
      before the walk, and no attempt is ended in two different ways. */
  lemma {:induction false} WalkSucceedsIff(
    t: Tables, scope: set<Id>, launches: map<Id, LaunchRow>, attempts: seq<FencedAttempt>, at: Stamp)
    ensures Reconcile(t, scope, launches, attempts, at).Some? <==> Walkable(t, scope, launches, attempts)
  {
    if attempts != [] {
      var init, last := attempts[..|attempts| - 1], attempts[|attempts| - 1];
      WalkSucceedsIff(t, scope, launches, init, at);
      WalkableStep(t, scope, launches, attempts);
      if Reconcile(t, scope, launches, init, at).Some? {
        var before := Reconcile(t, scope, launches, init, at).value;
        WalkDoesExactly(t, scope, launches, init, at);
        EveryAttemptIsSettled(t, scope, launches, init, at);
        hide Admissible, Vetted, Settled, WalkedTo, OnlyForward, StampsMarkTasks, Agree;
        forall a
          ensures Admissible(t, scope, launches, a) <==> Vetted(t, scope, launches, a)
        {
          AdmissibleIffVetted(t, scope, launches, a);
        }
        AdmissibleLater(t, before, scope, launches, init, last, at);
      }
    }
  }

  /** One fenced attempt in a state the protocol does not list blocks every restore. */
  lemma UnlistedStateIsRefused(
    t: Tables, scope: set<Id>, launches: map<Id, LaunchRow>, attempts: seq<FencedAttempt>, at: Stamp, k: nat)
    requires k < |attempts| && attempts[k].serviceState in {InputBound, OtherServiceState}
    ensures Reconcile(t, scope, launches, attempts, at).None?
  {
    WalkSucceedsIff(t, scope, launches, attempts, at);
  }

  /** Reconciliation keeps every commitment of the merged ledger and only adds spending. */
  lemma ReconcileConservesBudgets(start: Tables, t: Tables, account: Account)
    requires OnlyForward(start, t) && NonNegative(start.budgets)
    ensures Total(t.budgets, account, COMMITTED) == Total(start.budgets, account, COMMITTED)
    ensures Total(t.budgets, account, SPENT) >= Total(start.budgets, account, SPENT)
  {
    TotalIsMonotone(t.budgets, start.budgets, account, COMMITTED);
    TotalIsMonotone(start.budgets, t.budgets, account, COMMITTED);
    TotalIsMonotone(start.budgets, t.budgets, account, SPENT);
  }
}
