/** When a one-time approval can be given back, over whole runs with restores in between. */
module ReleaseRuns {
  import opened Common
  import opened ExecutiveTables
  import opened ExecutionClaims
  import opened SafetyLedger
  import opened LedgerLaws
  import opened Reconciliation
  import opened Restore
  import opened RestoreRuns

  /** The event of one claim: a spend when it consumes a one-time approval. */
  function ClaimStep(t: Tables, task: Id, plan: Plan, at: Stamp): Event
    requires Claimable(t, task, plan)
  {
    var after, b := AfterClaim(t, task, plan, at), plan.binding;
    if b.approval.Some? && t.approvals[b.approval.value].terms.oneTime
    then Spend(b.approval.value, Consumption(UseOf(b), at), after)
    else OtherWrite(after)
  }

  /** Claims are steps of a run and leave the database that `ClaimExecution` ensures. */
  lemma ClaimIsAStep(s: System, task: Id, plan: Plan, at: Stamp)
    requires Inv(s) && MayWrite(s) && Claimable(s.live.tables, task, plan)
    ensures var e := ClaimStep(s.live.tables, task, plan, at);
      Accepted(s, e) && Next(s, e) == s.(live := Written(s.live, AfterClaim(s.live.tables, task, plan, at)))
  {
    ClaimMovesOn(s.live.tables, task, plan, at);
  }

  // ------------------------------------------------------- spending again

  predicate SpendsOnce(t: Tables, plan: Plan) {
    plan.binding.approval.Some? && plan.binding.approval.value in t.approvals
    && t.approvals[plan.binding.approval.value].terms.oneTime
  }

  /** The same action at the same price under the same approval, tried by another attempt. */
  predicate TriesAgain(plan: Plan, again: Plan) {
    && again.attempt != plan.attempt && again.price == plan.price && HoldFollowsPrice(again)
    && again.binding == plan.binding.(authorityAttempt := Some(again.attempt), reservation := again.binding.reservation)
  }

  /** A claim that was released can be made again exactly when it takes no hold: the released hold
      keeps the action's place among the reservations. */
  lemma ClaimableAgainIff(t: Tables, task: Id, plan: Plan, again: Plan, at: Stamp, later: Stamp)
    requires WellFormed(t) && Claimable(t, task, plan)
    requires TriesAgain(plan, again) && again.attempt !in t.attempts
    ensures ReleaseGuard(AfterClaim(t, task, plan, at), task, t.tasks[task].revision + 1)
    ensures var back := AfterRelease(AfterClaim(t, task, plan, at), task, later);
      Claimable(back, task, again) <==> plan.binding.reservation.None?
  {
    ReleaseUndoesClaim(t, task, plan, at, later);
    var back := AfterRelease(AfterClaim(t, task, plan, at), task, later);
    assert back.consumptions == t.consumptions && back.approvals == t.approvals;
    assert back.attempts.Keys == t.attempts.Keys + {plan.attempt};
    var hold := plan.binding.reservation;
    if hold.Some? {
      assert hold.value in back.budgets && back.budgets[hold.value].terms.action == again.binding.action;
    }
  }

  lemma FreesAndSpendsOnce(t: Tables, task: Id, plan: Plan, again: Plan, at: Stamp, later: Stamp)
    requires WellFormed(t) && Claimable(t, task, plan) && SpendsOnce(t, plan) && TriesAgain(plan, again)
    ensures var claimed := AfterClaim(t, task, plan, at);
      && ReleaseGuard(claimed, task, t.tasks[task].revision + 1)
      && FreedApproval(claimed, task) == plan.binding.approval
      && SpendsOnce(AfterRelease(claimed, task, later), again)
  {
    ReleaseUndoesClaim(t, task, plan, at, later);
  }

  /** Any claim of a one-time approval that takes no hold can be released at once, and the same
      action then spends the same approval again: such an approval is consumed as often as claims
      are released. */
  lemma ReleasedIsSpentAgain(s: System, task: Id, plan: Plan, again: Plan, at: Stamp, later: Stamp)
    requires Inv(s) && MayWrite(s)
    requires Claimable(s.live.tables, task, plan) && SpendsOnce(s.live.tables, plan) && !Spends(plan.price)
    requires TriesAgain(plan, again) && again.attempt !in s.live.tables.attempts
    ensures var p := plan.binding.approval.value;
      var claimed := Next(s, ClaimStep(s.live.tables, task, plan, at));
      var release := Release(task, s.live.tables.tasks[task].revision + 1, later);
      var released := Next(claimed, release);
      && HoldsUse(claimed, p, UseOf(plan.binding))
      && Accepted(claimed, release) && Frees(claimed.live.tables, task, p)
      && !HoldsUse(released, p, UseOf(plan.binding))
      && Claimable(released.live.tables, task, again)
      && var second := ClaimStep(released.live.tables, task, again, later);
         Accepted(released, second) && second.Spend? && second.approval == p && second.row.use == UseOf(plan.binding)
  {
    ClaimIsAStep(s, task, plan, at);
    StepKeepsInv(s, ClaimStep(s.live.tables, task, plan, at));
    ClaimableAgainIff(s.live.tables, task, plan, again, at, later);
    FreesAndSpendsOnce(s.live.tables, task, plan, again, at, later);
    ClaimMovesOn(s.live.tables, task, plan, at);
    hide Claimable, ClaimReleasable, AfterClaim, AfterRelease, Inv, MovesOn, WellFormed;
    var claimed := Next(s, ClaimStep(s.live.tables, task, plan, at));
    var release := Release(task, s.live.tables.tasks[task].revision + 1, later);
    assert Accepted(claimed, release);
    LossIffRelease(claimed, release, plan.binding.approval.value, UseOf(plan.binding));
    StepKeepsInv(claimed, release);
    ClaimIsAStep(Next(claimed, release), task, again, later);
  }

  lemma ThreeSteps(s: System, a: Event, b: Event, c: Event)
    ensures Run(s, [a, b, c][..0]) == s && Run(s, [a, b, c][..1]) == Next(s, a)
    ensures Run(s, [a, b, c][..2]) == Next(Next(s, a), b)
  {
    hide Next;
    assert [a, b, c][..1] == [a] && [a][..0] == [] && [a, b, c][..2] == [a, b] && [a, b][..1] == [a];
  }

  /** From every initial state in which a one-time approval can be spent on an action that costs
      nothing, a run spends it, gives it back and spends it again. */
  lemma SpentTwiceInARun(s: System, task: Id, plan: Plan, again: Plan, at: Stamp, later: Stamp) returns (events: seq<Event>)
    requires Initial(s) && Claimable(s.live.tables, task, plan) && SpendsOnce(s.live.tables, plan) && !Spends(plan.price)
    requires TriesAgain(plan, again) && again.attempt !in s.live.tables.attempts
    ensures var p, use := plan.binding.approval.value, UseOf(plan.binding);
      && |events| == 3
      && SpendsAt(s, events, 0, p, use) && ReleasesAt(s, events, 1, p) && SpendsAt(s, events, 2, p, use)
  {
    RunsKeepInv(s, []);
    assert Inv(s) && MayWrite(s);
    hide Run, Initial, Inv, Next, Accepted, Claimable, AfterClaim, Frees, TriesAgain;
    ReleasedIsSpentAgain(s, task, plan, again, at, later);
    ClaimIsAStep(s, task, plan, at);
    var first := ClaimStep(s.live.tables, task, plan, at);
    var release := Release(task, s.live.tables.tasks[task].revision + 1, later);
    var second := ClaimStep(Next(Next(s, first), release).live.tables, task, again, later);
    ThreeSteps(s, first, release, second);
    events := [first, release, second];
  }

  // ------------------------------------------------------------ paid actions

  /** The hold of an action: by the unique key there is one reservation for it. */
  ghost predicate HoldsAction(s: System, h: Id, action: Id) {
    && h in s.live.tables.budgets && s.live.tables.budgets[h].terms.action == action
    && forall i :: i in s.live.tables.budgets && s.live.tables.budgets[i].terms.action == action ==> i == h
  }

  /** The row of a hold is in the replacement too, with its terms. */
  lemma ReplacementKeepsHold(run: Running, h: Id)
    requires Ready(run) && h in run.captured.tables.budgets
    ensures h in Replacement(run).tables.budgets
    ensures Replacement(run).tables.budgets[h].terms == run.captured.tables.budgets[h].terms
  {
    var c := run.copy.value;
    ReplacementRows(run);
    WholeScope(run.captured.tables, run.a.request.scope);
    var merged := MergedBudgets(c.artifact.content.tables.budgets, Captured(run).budgets);
    assert h in merged && merged[h].terms == run.captured.tables.budgets[h].terms;
    hide Stageable, WalkedTo, WellFormed;
  }

  lemma StepKeepsHold(s: System, e: Event, h: Id)
    requires Inv(s) && h in s.live.tables.budgets
    ensures h in Next(s, e).live.tables.budgets
    ensures Next(s, e).live.tables.budgets[h].terms == s.live.tables.budgets[h].terms
  {
    if Accepted(s, e) && e.Replace? {
      ReplacementKeepsHold(s.running.value, h);
    }
  }

  lemma HoldsActionStep(s: System, e: Event, h: Id, action: Id)
    requires Inv(s) && HoldsAction(s, h, action)
    ensures HoldsAction(Next(s, e), h, action)
  {
    StepKeepsInv(s, e);
    StepKeepsHold(s, e, h);
    hide Next, RunningOwnsLive, RequestsCover, LeasePinsGeneration, UsesReferToRows, BudgetsReferToRows, UniqueUses;
  }

  /** Once an action has a hold, it has that hold and no other ever after: no write, no release and
      no restore of any backup deletes the row or adds a second one. */
  lemma {:induction false} ActionIsHeldOnce(s: System, events: seq<Event>, i: nat, j: nat, h: Id, action: Id)
    requires Initial(s) && i <= j <= |events| && HoldsAction(Run(s, events[..i]), h, action)
    ensures HoldsAction(Run(s, events[..j]), h, action)
    decreases j
  {
    if i < j {
      ActionIsHeldOnce(s, events, i, j - 1, h, action);
      RunsKeepInv(s, events[..j - 1]);
      assert events[..j][..j - 1] == events[..j - 1];
      HoldsActionStep(Run(s, events[..j - 1]), events[j - 1], h, action);
    }
  }

  /** So an action that costs money is claimed at most once, whatever is released or restored: after
      its claim no claim of it is accepted, for any task, attempt or approval. */
  lemma PaidActionIsClaimedOnce(
    s: System, events: seq<Event>, i: nat, j: nat, task: Id, plan: Plan, at: Stamp, other: Id, again: Plan)
    requires Initial(s) && i < j <= |events| && MayWrite(Run(s, events[..i]))
    requires Claimable(Run(s, events[..i]).live.tables, task, plan)
    requires events[i] == ClaimStep(Run(s, events[..i]).live.tables, task, plan, at)
    requires Spends(plan.price) && again.binding.action == plan.binding.action && Spends(again.price)
    ensures !Claimable(Run(s, events[..j]).live.tables, other, again)
  {
    var before, h := Run(s, events[..i]), plan.binding.reservation.value;
    RunsKeepInv(s, events[..i]);
    ClaimIsAStep(before, task, plan, at);
    assert events[..i + 1][..i] == events[..i];
    assert HoldsAction(Run(s, events[..i + 1]), h, plan.binding.action);
    ActionIsHeldOnce(s, events, i + 1, j, h, plan.binding.action);
  }

  // -------------------------------------------------------------- crossed holds

  ghost predicate HoldGone(s: System, h: Id) {
    h in s.live.tables.budgets && s.live.tables.budgets[h].state != Reserved
  }

  lemma HoldGoneStep(s: System, e: Event, h: Id)
    requires Inv(s) && HoldGone(s, h)
    ensures HoldGone(Next(s, e), h)
  {
    if Accepted(s, e) && e.Replace? {
      var run := s.running.value;
      var c := run.copy.value;
      StagedTables(run.a, c.artifact, c.receipt, Captured(run), c.fence, c.at);
      WholeScope(run.captured.tables, run.a.request.scope);
      assert MergedBudgets(c.artifact.content.tables.budgets, Captured(run).budgets)[h].state != Reserved;
    }
  }

  /** A hold that was crossed or given back is never reserved again, whatever is restored. */
  lemma {:induction false} HoldStaysGone(s: System, events: seq<Event>, i: nat, j: nat, h: Id)
    requires Initial(s) && i <= j <= |events| && HoldGone(Run(s, events[..i]), h)
    ensures HoldGone(Run(s, events[..j]), h)
    decreases j
  {
    if i < j {
      HoldStaysGone(s, events, i, j - 1, h);
      RunsKeepInv(s, events[..j - 1]);
      assert events[..j][..j - 1] == events[..j - 1];
      HoldGoneStep(Run(s, events[..j - 1]), events[j - 1], h);
    }
  }

  /** So no claim whose hold was once crossed is ever released, and its approval never given
      back through it. */
  lemma CrossedClaimIsNeverReleased(s: System, events: seq<Event>, i: nat, k: nat, h: Id)
    requires Initial(s) && i <= k < |events| && HoldGone(Run(s, events[..i]), h)
    requires events[k].Release? && Accepted(Run(s, events[..k]), events[k])
    ensures ClaimOf(Run(s, events[..k]).live.tables, events[k].task).reservation != Some(h)
  {
    HoldStaysGone(s, events, i, k, h);
  }

  // ------------------------------------------------------- closed approvals

  /** The approval is spent, one-time, and no attempt under it can be released. */
  ghost predicate SpentAndClosed(s: System, p: Id) {
    && p in s.live.tables.consumptions && p in s.live.tables.approvals && s.live.tables.approvals[p].terms.oneTime
    && Closed(s.live.tables, p)
  }

  lemma ReleaseKeepsClosed(t: Tables, task: Id, at: Stamp, p: Id)
    requires ClaimReleasable(t, task) && Closed(t, p)
    ensures Closed(AfterRelease(t, task, at), p)
  {
    var t' := AfterRelease(t, task, at);
    forall a | a in t'.attempts && t'.attempts[a].binding.approval == Some(p)
      ensures AttemptClosed(t', a)
    {
      assert a in t.attempts && AttemptClosed(t, a);
    }
  }

  lemma WriteKeepsClosed(s: System, e: Event, p: Id)
    requires Inv(s) && SpentAndClosed(s, p) && !(e.Replace? && Accepted(s, e))
    ensures SpentAndClosed(Next(s, e), p)
  {
    if Accepted(s, e) {
      if e.Release? {
        ClosedIsNotFreeable(s.live.tables, p);
        assert !Frees(s.live.tables, e.task, p);
        ReleaseKeepsClosed(s.live.tables, e.task, e.at, p);
      } else if e.Spend? {
        MovesOnKeepsClosed(s.live.tables, e.spendTables, p);
      } else if e.OtherWrite? {
        MovesOnKeepsClosed(s.live.tables, e.writtenTables, p);
      }
    }
  }

  // ------------------------------------------------ what a restore reopens

  /** The backup's own row of an attempt is still claimed and the receipt does not end it. */
  predicate BackupClaims(backup: Tables, receipt: Receipt, a: Id, p: Id) {
    && a in backup.attempts && backup.attempts[a].state == CLAIMED && backup.attempts[a].binding.approval == Some(p)
    && (backup.attempts[a].completion.Some? || !Ends(receipt.attempts, a))
  }

  /** After merge and walk nothing has crossed the attempt's hold: it is only reserved on the live
      side, or on the backup's where live has none, the backup has not crossed it, and no entry of
      the receipt that holds it is past launch. */
  ghost predicate HoldOnlyReserved(backup: Tables, live: Ledger, receipt: Receipt, h: Id) {
    && (h in backup.budgets || h in live.budgets)
    && (h in live.budgets ==> live.budgets[h].state == Reserved && (h in backup.budgets ==> backup.budgets[h].state != Crossed))
    && (h !in live.budgets ==> backup.budgets[h].state == Reserved)
    && !Crosses(Merged(backup, live), receipt.attempts, h)
  }

  /** The backup brings back a claim under the approval that a release could use. */
  ghost predicate Reopens(backup: Tables, live: Ledger, receipt: Receipt, a: Id, p: Id) {
    && BackupClaims(backup, receipt, a, p)
    && var hold := backup.attempts[a].binding.reservation;
       (hold.Some? && (hold.value in backup.budgets || hold.value in live.budgets) ==>
          HoldOnlyReserved(backup, live, receipt, hold.value))
  }

  /** What a running restore has captured and staged. */
  ghost predicate Ready(run: Running) {
    && run.copy.Some? && Stageable(run, run.copy.value)
    && WellFormed(run.captured.tables) && run.captured.tables.projects.Keys <= run.a.request.scope
  }

  ghost predicate CapturedClosed(run: Running, p: Id) {
    var t := run.captured.tables;
    p in t.consumptions && p in t.approvals && t.approvals[p].terms.oneTime && Closed(t, p)
  }

  ghost predicate RestoreReopens(run: Running, p: Id)
    requires run.copy.Some?
  {
    exists a :: Reopens(run.copy.value.artifact.content.tables, Captured(run), run.copy.value.receipt, a, p)
  }

  lemma MergedHold(backup: Tables, live: Ledger, receipt: Receipt, h: Id)
    requires h in backup.budgets || h in live.budgets
    ensures h in Merged(backup, live).budgets
    ensures CrossedState(Merged(backup, live), receipt.attempts, h) == Reserved <==> HoldOnlyReserved(backup, live, receipt, h)
  {
  }

  /** The replacement's attempts and holds, from the staged inputs. */
  lemma ReplacementRows(run: Running)
    requires Ready(run)
    ensures var c := run.copy.value;
      var merged := Merged(c.artifact.content.tables, Captured(run));
      && WalkedTo(merged, c.receipt.attempts, c.receipt.issuedAt, Replacement(run).tables.(projects := merged.projects))
      && OnlyForward(merged, Replacement(run).tables.(projects := merged.projects))
      && Fits(c.artifact.content.tables, Captured(run))
  {
    var c := run.copy.value;
    StagedTables(run.a, c.artifact, c.receipt, Captured(run), c.fence, c.at);
    WalkDoesExactly(Merged(c.artifact.content.tables, Captured(run)), run.a.request.scope,
                    IndexOf(c.receipt.launches, |c.receipt.launches|), c.receipt.attempts, c.receipt.issuedAt);
  }

  /** The attempt was made under the approval and a release could still use it. */
  predicate OpenUnder(t: Tables, a: Id, p: Id) {
    a in t.attempts && t.attempts[a].binding.approval == Some(p) && !AttemptClosed(t, a)
  }

  /** The attempt's row after the restore, from its row in the merged ledger. */
  lemma AttemptAfterRestore(run: Running, a: Id)
    requires Ready(run)
    ensures var c := run.copy.value;
      var merged, after := Merged(c.artifact.content.tables, Captured(run)), Replacement(run).tables;
      && (a in after.attempts <==> a in merged.attempts)
      && (a in merged.attempts ==>
            && after.attempts[a].binding == merged.attempts[a].binding
            && (after.attempts[a].state == CLAIMED <==>
                  merged.attempts[a].state == CLAIMED && !Stamps(merged, c.receipt.attempts, a)))
  {
    ReplacementRows(run);
    hide Stageable, TasksTo, HoldsTo, Fits, WellFormed, Merged, Stamps;
  }

  lemma HoldAfterRestore(run: Running, h: Id)
    requires Ready(run)
    ensures var c := run.copy.value;
      var backup, live, after := c.artifact.content.tables, Captured(run), Replacement(run).tables;
      && (h in after.budgets <==> h in backup.budgets || h in live.budgets)
      && (h in after.budgets ==>
            (after.budgets[h].state == Reserved <==> HoldOnlyReserved(backup, live, c.receipt, h)))
  {
    var c := run.copy.value;
    ReplacementRows(run);
    if h in c.artifact.content.tables.budgets || h in Captured(run).budgets {
      MergedHold(c.artifact.content.tables, Captured(run), c.receipt, h);
    }
    hide Stageable, TasksTo, AttemptsTo, Fits, WellFormed, HoldOnlyReserved, CrossedState;
  }

  /** An attempt that only the live database has stays closed. */
  lemma LiveOnlyStaysClosed(run: Running, a: Id, p: Id)
    requires Ready(run) && CapturedClosed(run, p) && a !in run.copy.value.artifact.content.tables.attempts
    ensures !OpenUnder(Replacement(run).tables, a, p)
  {
    AttemptAfterRestore(run, a);
    WholeScope(run.captured.tables, run.a.request.scope);
    var t := run.captured.tables;
    if a in t.attempts && t.attempts[a].binding.reservation.Some? {
      HoldAfterRestore(run, t.attempts[a].binding.reservation.value);
    }
    assert a in t.attempts && t.attempts[a].binding.approval == Some(p) ==> AttemptClosed(t, a);
    hide Stageable, Replacement, Stamps, WellFormed;
  }

  lemma AttemptReopens(run: Running, a: Id, p: Id)
    requires Ready(run) && CapturedClosed(run, p)
    ensures OpenUnder(Replacement(run).tables, a, p) <==>
      Reopens(run.copy.value.artifact.content.tables, Captured(run), run.copy.value.receipt, a, p)
  {
    var backup := run.copy.value.artifact.content.tables;
    if a !in backup.attempts {
      LiveOnlyStaysClosed(run, a, p);
    } else {
      AttemptAfterRestore(run, a);
      var hold := backup.attempts[a].binding.reservation;
      if hold.Some? {
        HoldAfterRestore(run, hold.value);
      }
      hide Stageable, Ready, CapturedClosed, Replacement, Captured, HoldOnlyReserved, Ends;
    }
  }

  lemma ClosedIffNoneOpen(t: Tables, p: Id)
    ensures Closed(t, p) <==> forall a: Id :: !OpenUnder(t, a, p)
  {
    assert Closed(t, p) ==> forall a :: a in t.attempts && t.attempts[a].binding.approval == Some(p) ==> AttemptClosed(t, a);
    assert forall a :: OpenUnder(t, a, p) ==> a in t.attempts && !AttemptClosed(t, a);
    assert forall a ::
      a in t.attempts && t.attempts[a].binding.approval == Some(p) && !AttemptClosed(t, a) ==> OpenUnder(t, a, p);
  }

  /** A restore makes a closed approval releasable through some attempt exactly when the backup
      brings such a claim back. The condition is on the backup, the live database and the receipt. */
  lemma RestoreReopensIff(run: Running, p: Id)
    requires Ready(run) && CapturedClosed(run, p)
    ensures !Closed(Replacement(run).tables, p) <==> RestoreReopens(run, p)
  {
    ClosedIffNoneOpen(Replacement(run).tables, p);
    hide Stageable, CapturedClosed, Replacement, Reopens, Closed, OpenUnder, Captured, WellFormed;
    forall a: Id
      ensures OpenUnder(Replacement(run).tables, a, p) <==>
          Reopens(run.copy.value.artifact.content.tables, Captured(run), run.copy.value.receipt, a, p)
    {
      AttemptReopens(run, a, p);
    }
  }

  lemma SpentSurvives(run: Running, p: Id)
    requires Ready(run) && p in run.captured.tables.consumptions
    ensures var t := Replacement(run).tables;
      && p in t.consumptions && t.consumptions[p].use == run.captured.tables.consumptions[p].use
      && p in t.approvals && t.approvals[p].terms.oneTime
  {
    var c := run.copy.value;
    ReplacementKeepsUses(run);
    StagedTables(run.a, c.artifact, c.receipt, Captured(run), c.fence, c.at);
    var merged := Merged(c.artifact.content.tables, Captured(run));
    assert p in Captured(run).consumptions;
    assert p in LedgerOf(merged, run.a.request.scope).consumptions;
    assert UseIsBacked(LedgerOf(merged, run.a.request.scope).approvals, p, merged.consumptions[p].use);
  }

  /** A write keeps a spent approval closed; only a restore that brings a claim back opens it. */
  lemma OpenedIffReopened(s: System, e: Event, p: Id)
    requires Inv(s) && SpentAndClosed(s, p)
    ensures !SpentAndClosed(Next(s, e), p) <==> e.Replace? && Accepted(s, e) && RestoreReopens(s.running.value, p)
  {
    if e.Replace? && Accepted(s, e) {
      var run := s.running.value;
      assert Ready(run) && CapturedClosed(run, p);
      SpentSurvives(run, p);
      RestoreReopensIff(run, p);
    } else {
      WriteKeepsClosed(s, e, p);
    }
  }

  ghost predicate ReopensAt(s: System, events: seq<Event>, k: nat, p: Id)
    requires k < |events|
  {
    ReplacesAt(s, events, k) && RestoreReopens(Run(s, events[..k]).running.value, p)
  }

  ghost predicate ClosedAt(s: System, events: seq<Event>, m: nat, p: Id)
    requires m <= |events|
  {
    SpentAndClosed(Run(s, events[..m]), p)
  }

  lemma OpenedAt(s: System, events: seq<Event>, k: nat, p: Id)
    requires Initial(s) && k < |events| && ClosedAt(s, events, k, p)
    ensures ReopensAt(s, events, k, p) <==> !ClosedAt(s, events, k + 1, p)
  {
    RunsKeepInv(s, events[..k]);
    assert events[..k + 1][..k] == events[..k];
    hide SpentAndClosed, RestoreReopens, Inv, Accepted, Next;
    OpenedIffReopened(Run(s, events[..k]), events[k], p);
  }

  /** Over whole runs: a spent approval whose attempts are all past the claim stays so exactly as
      long as no accepted restore brings one of the claims back. */
  lemma {:induction false} ClosedIffNeverReopened(s: System, events: seq<Event>, i: nat, j: nat, p: Id)
    requires Initial(s) && i <= j <= |events| && ClosedAt(s, events, i, p)
    ensures (forall m :: i <= m <= j ==> ClosedAt(s, events, m, p)) <==>
      (forall k :: i <= k < j ==> !ReopensAt(s, events, k, p))
    decreases j
  {
    hide ClosedAt, ReopensAt, Initial;
    if i < j {
      ClosedIffNeverReopened(s, events, i, j - 1, p);
      if ClosedAt(s, events, j - 1, p) {
        OpenedAt(s, events, j - 1, p);
      }
    }
  }

  /** So an approval whose attempts are all past the claim is given back by no release before
      such a restore. */
  lemma ClosedIsNeverReleased(s: System, events: seq<Event>, i: nat, k: nat, p: Id)
    requires Initial(s) && i <= k < |events| && ClosedAt(s, events, i, p)
    requires forall m :: i <= m < k ==> !ReopensAt(s, events, m, p)
    ensures !ReleasesAt(s, events, k, p)
  {
    ClosedIffNeverReopened(s, events, i, k, p);
    assert ClosedAt(s, events, k, p);
    ClosedIsNotFreeable(Run(s, events[..k]).live.tables, p);
  }

  /** The backup's task still holds a reopened claim, made by the task and action that spent the
      approval in the live database, and the hold of the claim exists. */
  ghost predicate MakesReleasable(run: Running, task: Id, a: Id, p: Id)
    requires run.copy.Some? && p in run.captured.tables.consumptions
  {
    var backup, live := run.copy.value.artifact.content.tables, Captured(run);
    && task in backup.tasks && backup.tasks[task].status == TaskOpen(ClaimedTask)
    && backup.tasks[task].authorityAttempt == Some(a)
    && Reopens(backup, live, run.copy.value.receipt, a, p)
    && var b, use := backup.attempts[a].binding, run.captured.tables.consumptions[p].use;
       && use.task == Some(task) && use.action == b.action
       && (b.reservation.Some? ==> b.reservation.value in backup.budgets || b.reservation.value in live.budgets)
  }

  lemma TaskAfterRestore(run: Running, task: Id)
    requires Ready(run)
    ensures var c := run.copy.value;
      var backup, after := c.artifact.content.tables, Replacement(run).tables;
      && (task in after.tasks && after.tasks[task].status == TaskOpen(ClaimedTask) ==>
            task in backup.tasks && backup.tasks[task] == after.tasks[task])
      && (task in backup.tasks && backup.tasks[task].authorityAttempt.Some?
          && !Stamps(Merged(backup, Captured(run)), c.receipt.attempts, backup.tasks[task].authorityAttempt.value) ==>
            task in after.tasks && after.tasks[task] == backup.tasks[task])
  {
    ReplacementRows(run);
    hide Stageable, AttemptsTo, HoldsTo, Stamps, Fits, WellFormed;
  }

  lemma BackupBindingKept(run: Running, a: Id)
    requires Ready(run)
    ensures var backup, after := run.copy.value.artifact.content.tables, Replacement(run).tables;
      a in backup.attempts ==> a in after.attempts && after.attempts[a].binding == backup.attempts[a].binding
  {
    ReplacementRows(run);
    hide Stageable, WalkedTo, Fits, WellFormed;
  }

  /** What a release through the attempt needs, in terms of the rows it reads. */
  lemma FreesIff(t: Tables, task: Id, a: Id, p: Id)
    requires p in t.consumptions && p in t.approvals && t.approvals[p].terms.oneTime
    ensures Frees(t, task, p) && t.tasks[task].authorityAttempt == Some(a) <==>
      && task in t.tasks && t.tasks[task].status == TaskOpen(ClaimedTask) && t.tasks[task].authorityAttempt == Some(a)
      && OpenUnder(t, a, p)
      && t.consumptions[p].use.task == Some(task) && t.consumptions[p].use.action == t.attempts[a].binding.action
      && (t.attempts[a].binding.reservation.Some? ==> t.attempts[a].binding.reservation.value in t.budgets)
  {
  }

  lemma ReopenedIsUnstamped(run: Running, a: Id, p: Id)
    requires run.copy.Some?
    ensures var c := run.copy.value;
      Reopens(c.artifact.content.tables, Captured(run), c.receipt, a, p) ==>
        && a in c.artifact.content.tables.attempts
        && !Stamps(Merged(c.artifact.content.tables, Captured(run)), c.receipt.attempts, a)
  {
  }

  lemma FreesAfterRestore(run: Running, task: Id, a: Id, p: Id)
    requires Ready(run) && CapturedClosed(run, p)
    ensures var t := Replacement(run).tables;
      Frees(t, task, p) && t.tasks[task].authorityAttempt == Some(a) <==> MakesReleasable(run, task, a, p)
  {
    var backup, t := run.copy.value.artifact.content.tables, Replacement(run).tables;
    SpentSurvives(run, p);
    FreesIff(t, task, a, p);
    AttemptReopens(run, a, p);
    TaskAfterRestore(run, task);
    BackupBindingKept(run, a);
    ReopenedIsUnstamped(run, a, p);
    if a in backup.attempts && backup.attempts[a].binding.reservation.Some? {
      HoldAfterRestore(run, backup.attempts[a].binding.reservation.value);
    }
    hide Ready, CapturedClosed, Replacement, Frees, AttemptClosed, Reopens, Captured, Stamps, Merged;
  }

  /** Exactly when a restore makes a consumption releasable that no release could touch before:
      a condition on the backup's rows, the captured ledger and the receipt. */
  lemma RestoreMakesReleasableIff(run: Running, p: Id)
    requires Ready(run) && CapturedClosed(run, p)
    ensures Freeable(Replacement(run).tables, p) <==> exists task: Id, a: Id :: MakesReleasable(run, task, a, p)
  {
    var t := Replacement(run).tables;
    forall task: Id, a: Id
      ensures Frees(t, task, p) && t.tasks[task].authorityAttempt == Some(a) <==> MakesReleasable(run, task, a, p)
    {
      FreesAfterRestore(run, task, a, p);
    }
    hide MakesReleasable, Ready, CapturedClosed, Replacement;
    if Freeable(t, p) {
      var task :| Frees(t, task, p);
      assert MakesReleasable(run, task, t.tasks[task].authorityAttempt.value, p);
    }
  }
}
