/** What every reachable run record satisfies. */
module RunLaws {
  import opened Common
  import opened RunLifecycle

  datatype Op = Move(target: Stage) | Retry(retried: Stage) | Note(recovery: Recovery)

  function Step(r: Record, op: Op): Record {
    match op
    case Move(t) => if Permitted(r, t) then Moved(r, t) else r
    case Retry(t) => if RetryPermitted(r, t) then Retried(r, t) else r
    case Note(n) => r.(recovery := Some(n))
  }

  function After(ops: seq<Op>): Record {
    if ops == [] then NEW_RECORD else Step(After(ops[..|ops| - 1]), ops[|ops| - 1])
  }

  // ------------------------------------------------------ history is a chain

  ghost predicate Chained(r: Record) {
    && r.sequence == |r.history|
    && (forall k :: 0 <= k < |r.history| ==> r.history[k].sequence == k + 1)
    && (forall k :: 0 < k < |r.history| ==> r.history[k].from == r.history[k - 1].to)
    && (if r.history == [] then r.stage == Intake
        else r.history[0].from == Intake && r.history[|r.history| - 1].to == r.stage)
  }

  /** A stop remembers the stage it was entered from. */
  ghost predicate StopsRemember(r: Record) {
    && (!Working(r.stage) ==> r.history != [] && StoppedAt(r) == Some(r.history[|r.history| - 1].from))
    && (r.stage.Interrupted? ==> Working(StoppedAt(r).value) && !StoppedAt(r).value.Closed?)
    && (r.stage.Blocked? || r.stage.Cancelled? ==> !TerminalStage(StoppedAt(r).value))
    && (Working(r.stage) ==> r.interruptedFrom.None?)
    && ((r.stage.Blocked? || r.stage.Cancelled?) && StoppedAt(r).value.Interrupted? ==>
          r.interruptedFrom.Some? && Working(r.interruptedFrom.value))
  }

  /** A retry goes back to the stage the run was stopped in. */
  ghost predicate RetriesReturn(r: Record) {
    forall k :: 0 <= k < |r.history| && r.history[k].retry ==>
      k > 0 && r.history[k].to == r.history[k - 1].from && !Working(r.history[k - 1].to)
  }

  // ------------------------------------------------------- stage attempt ids

  function Entered(history: seq<Entry>, s: Stage): nat {
    if history == [] then 0
    else Entered(history[..|history| - 1], s) + (if history[|history| - 1].to == s then 1 else 0)
  }

  /** The stage-attempt ids issued along a history, oldest first. */
  function Issued(history: seq<Entry>): seq<StageAttempt> {
    if history == [] then []
    else
      var last := history[|history| - 1].to;
      Issued(history[..|history| - 1]) + (if Retryable(last) then [StageAttempt(last, Entered(history, last))] else [])
  }

  ghost predicate CountsAgree(r: Record) {
    && (forall s :: s in r.counts ==> Retryable(s))
    && (forall s :: Retryable(s) ==> CountOf(r.counts, s, 0) == Entered(r.history, s))
    && (forall s :: s in r.counts ==> r.counts[s] > 0)
    && r.activeAttempt == (if Issued(r.history) == [] then None else Some(Issued(r.history)[|Issued(r.history)| - 1]))
  }

  // --------------------------------------------------------- the working path

  /** The working stages visited, with the stops and the returns from them erased. */
  function Trunk(history: seq<Entry>): (path: seq<Stage>)
    ensures path != []
  {
    if history == [] then [Intake]
    else
      var path := Trunk(history[..|history| - 1]);
      var last := history[|history| - 1].to;
      if Working(last) && last != path[|path| - 1] then path + [last] else path
  }

  ghost predicate ForwardPath(path: seq<Stage>) {
    && path != [] && path[0] == Intake
    && forall k :: 0 < k < |path| ==> Forward(path[k - 1], path[k])
  }

  /** Where the run stands, looking through stops. */
  function Position(r: Record): Stage {
    if Working(r.stage) then r.stage
    else if StoppedAt(r).Some? && Working(StoppedAt(r).value) then StoppedAt(r).value
    else if r.interruptedFrom.Some? then r.interruptedFrom.value
    else Intake
  }

  ghost predicate OnTrunk(r: Record) {
    var path := Trunk(r.history);
    ForwardPath(path) && path[|path| - 1] == Position(r)
  }

  ghost predicate Inv(r: Record) {
    Chained(r) && StopsRemember(r) && RetriesReturn(r) && CountsAgree(r) && OnTrunk(r)
  }

  // ------------------------------------------------------------------ proofs

  lemma AppendedHistory(r: Record, e: Entry)
    ensures (r.history + [e])[..|r.history + [e]| - 1] == r.history
    ensures (r.history + [e])[|r.history + [e]| - 1] == e
  {
  }

  lemma CountsStep(r: Record, r': Record, e: Entry, count: nat)
    requires CountsAgree(r) && r'.history == r.history + [e]
    requires if Retryable(e.to)
      then count == CountOf(r.counts, e.to, 0) + 1 && r'.counts == r.counts[e.to := count]
           && r'.activeAttempt == Some(StageAttempt(e.to, count))
      else r'.counts == r.counts && r'.activeAttempt == r.activeAttempt
    ensures CountsAgree(r')
  {
    AppendedHistory(r, e);
    assert forall s :: Entered(r'.history, s) == Entered(r.history, s) + (if e.to == s then 1 else 0);
  }

  /** What a move and a retry have in common. */
  ghost predicate Appends(r: Record, r': Record, e: Entry) {
    && r'.history == r.history + [e]
    && e.sequence == r'.sequence == r.sequence + 1
    && e.from == r.stage && e.to == r'.stage
  }

  lemma ChainStep(r: Record, r': Record, e: Entry)
    requires Chained(r) && Appends(r, r', e)
    ensures Chained(r')
  {
  }

  lemma RetriesStep(r: Record, r': Record, e: Entry)
    requires Chained(r) && StopsRemember(r) && RetriesReturn(r) && Appends(r, r', e)
    requires e.retry ==> !Working(r.stage) && StoppedAt(r) == Some(e.to)
    ensures RetriesReturn(r')
  {
    assert forall k :: 0 <= k < |r.history| ==> r'.history[k] == r.history[k];
  }

  lemma TrunkStep(r: Record, r': Record, e: Entry)
    requires OnTrunk(r) && Appends(r, r', e)
    requires Working(e.to) ==> e.to == Position(r) || Forward(Position(r), e.to)
    requires Position(r') == if Working(e.to) then e.to else Position(r)
    ensures OnTrunk(r')
  {
    AppendedHistory(r, e);
  }

  lemma MovePosition(r: Record, target: Stage)
    requires StopsRemember(r) && Permitted(r, target) && r.stage != target
    ensures StopsRemember(Moved(r, target))
    ensures Position(Moved(r, target)) == if Working(target) then target else Position(r)
    ensures Working(target) ==> target == Position(r) || Forward(Position(r), target)
  {
  }

  lemma MoveKeepsInv(r: Record, target: Stage)
    requires Inv(r) && Permitted(r, target) && r.stage != target
    ensures Inv(Moved(r, target))
  {
    var e := Entry(r.sequence + 1, r.stage, target, false);
    var r' := Moved(r, target);
    ChainStep(r, r', e);
    RetriesStep(r, r', e);
    CountsStep(r, r', e, CountOf(r.counts, target, 0) + 1);
    MovePosition(r, target);
    TrunkStep(r, r', e);
  }

  lemma RetryKeepsInv(r: Record, target: Stage)
    requires Inv(r) && RetryPermitted(r, target)
    ensures Inv(Retried(r, target))
  {
    var e := Entry(r.sequence + 1, r.stage, target, true);
    var r' := Retried(r, target);
    StopWasCounted(r, target);
    ChainStep(r, r', e);
    RetriesStep(r, r', e);
    CountsStep(r, r', e, CountOf(r.counts, target, 1) + 1);
    TrunkStep(r, r', e);
  }

  lemma NoteKeepsInv(r: Record, recovery: Recovery)
    requires Inv(r)
    ensures Inv(r.(recovery := Some(recovery)))
  {
    var r' := r.(recovery := Some(recovery));
    assert Position(r') == Position(r);
  }

  /** The default of one in `retry_stage` is never used: a stage the run stopped in was entered. */
  lemma StopWasCounted(r: Record, target: Stage)
    requires Inv(r) && RetryPermitted(r, target)
    ensures target in r.counts
  {
    var n := |r.history|;
    assert r.history[n - 1].from == target && n > 1;
    EnteredAt(r.history, n - 2);
  }

  lemma {:induction false} EnteredAt(history: seq<Entry>, k: nat)
    requires k < |history|
    ensures Entered(history, history[k].to) > 0
  {
    if k < |history| - 1 {
      EnteredAt(history[..|history| - 1], k);
    }
  }

  /** Every record reachable by any sequence of accepted and refused operations: its sequence
      number counts its history, the history is one chain from intake to the current stage, a
      retry returns to the stage stopped in, and the stages worked on, with the stops erased,
      form a path of the forward table that ends where the run stands. */
  lemma {:induction false} ReachableRecordsAreSound(ops: seq<Op>)
    ensures Inv(After(ops))
  {
    if ops != [] {
      var before, op := After(ops[..|ops| - 1]), ops[|ops| - 1];
      ReachableRecordsAreSound(ops[..|ops| - 1]);
      match op
      case Move(t) =>
        if Permitted(before, t) && before.stage != t {
          MoveKeepsInv(before, t);
        }
      case Retry(t) =>
        if RetryPermitted(before, t) {
          RetryKeepsInv(before, t);
        }
      case Note(n) =>
        NoteKeepsInv(before, n);
    }
  }

  lemma {:induction false} IssuedAreBounded(history: seq<Entry>)
    ensures forall k :: 0 <= k < |Issued(history)| ==>
      1 <= Issued(history)[k].count <= Entered(history, Issued(history)[k].stage)
  {
    if history != [] {
      IssuedAreBounded(history[..|history| - 1]);
    }
  }

  /** No stage-attempt id is issued twice for a run. */
  lemma {:induction false} StageAttemptIdsAreUnique(history: seq<Entry>)
    ensures forall j, k :: 0 <= j < k < |Issued(history)| ==> Issued(history)[j] != Issued(history)[k]
  {
    if history != [] {
      StageAttemptIdsAreUnique(history[..|history| - 1]);
      IssuedAreBounded(history[..|history| - 1]);
    }
  }

  /** Every id a reachable record shows as active is the newest one issued. */
  lemma ActiveAttemptIsNewest(ops: seq<Op>)
    ensures var r := After(ops);
      r.activeAttempt.Some? ==>
        Issued(r.history) != [] && r.activeAttempt.value == Issued(r.history)[|Issued(r.history)| - 1]
        && forall k :: 0 <= k < |Issued(r.history)| - 1 ==> Issued(r.history)[k] != r.activeAttempt.value
  {
    ReachableRecordsAreSound(ops);
    StageAttemptIdsAreUnique(After(ops).history);
  }

  /** A run that ever commits was audited, then validated, then approved, immediately before,
      whatever stops and retries happened in between. */
  lemma CommitFollowsReview(ops: seq<Op>, m: nat)
    requires m < |Trunk(After(ops).history)| && Trunk(After(ops).history)[m] == AuthorizedCommit
    ensures m > 3
    ensures Trunk(After(ops).history)[m - 3..m] == [IndependentAudit, FinalValidation, ApprovalDecision]
  {
    ReachableRecordsAreSound(ops);
    BeforeCommit(Trunk(After(ops).history), m);
  }

  lemma BeforeCommit(path: seq<Stage>, m: nat)
    requires ForwardPath(path) && m < |path| && path[m] == AuthorizedCommit
    ensures m > 3 && path[m - 3..m] == [IndependentAudit, FinalValidation, ApprovalDecision]
  {
    assert Forward(path[m - 1], path[m]);
    assert Forward(path[m - 2], path[m - 1]);
    assert Forward(path[m - 3], path[m - 2]);
    assert Forward(path[m - 4], path[m - 3]);
  }

  /** A stage once worked on stays on the trunk, so a committed run is covered by the above. */
  lemma {:induction false} VisitedStageIsOnTrunk(history: seq<Entry>, k: nat)
    requires k < |history| && Working(history[k].to)
    ensures history[k].to in Trunk(history)
  {
    if k < |history| - 1 {
      VisitedStageIsOnTrunk(history[..|history| - 1], k);
      assert history[..|history| - 1][k] == history[k];
    }
  }

  lemma {:induction false} ClosedIsFinal(ops: seq<Op>, more: seq<Op>)
    requires After(ops).stage == Closed
    ensures After(ops + more).stage == Closed && After(ops + more).history == After(ops).history
  {
    if more == [] {
      assert ops + more == ops;
    } else {
      ClosedIsFinal(ops, more[..|more| - 1]);
      assert (ops + more)[..|ops + more| - 1] == ops + more[..|more| - 1];
    }
  }

  /** A blocked or cancelled run can be moved again exactly by a retry of the stage it was
      stopped in; one that was stopped while it was interrupted can never be moved. */
  lemma StoppedRunMovesIffRetryable(ops: seq<Op>)
    requires After(ops).stage.Blocked? || After(ops).stage.Cancelled?
    ensures (exists op: Op :: !op.Note? && Step(After(ops), op) != After(ops)) <==> StopIsRetryable(After(ops))
  {
    ReachableRecordsAreSound(ops);
    StopMovesIffRetryable(After(ops));
  }

  predicate StopIsRetryable(r: Record) {
    && r.stoppedFrom.Some? && Retryable(r.stoppedFrom.value)
    && (r.recovery.Some? ==> r.recovery.value.retrySafe && !r.recovery.value.processRunning)
  }

  lemma StopMovesIffRetryable(r: Record)
    requires StopsRemember(r) && (r.stage.Blocked? || r.stage.Cancelled?)
    ensures (exists op: Op :: !op.Note? && Step(r, op) != r) <==> StopIsRetryable(r)
  {
    if StopIsRetryable(r) {
      var retry := Retry(r.stoppedFrom.value);
      assert Step(r, retry).stage == r.stoppedFrom.value;
      assert !retry.Note? && Step(r, retry) != r;
    }
    forall op: Op | !op.Note? && Step(r, op) != r
      ensures StopIsRetryable(r)
    {
      assert op.Retry? && RetryPermitted(r, op.retried);
    }
  }

  /** Blocked or cancelled while it was interrupted. */
  predicate Stuck(r: Record) {
    (r.stage.Blocked? || r.stage.Cancelled?) && r.stoppedFrom == Some(Interrupted)
  }

  lemma {:induction false} StoppedWhileInterruptedIsFinal(ops: seq<Op>, more: seq<Op>)
    requires Stuck(After(ops))
    ensures After(ops + more).history == After(ops).history && Stuck(After(ops + more))
    ensures After(ops + more).stage == After(ops).stage
  {
    if more == [] {
      assert ops + more == ops;
    } else {
      var init, last := more[..|more| - 1], more[|more| - 1];
      StoppedWhileInterruptedIsFinal(ops, init);
      assert (ops + more)[..|ops + more| - 1] == ops + init;
      StuckStep(After(ops + init), last);
    }
  }

  lemma StuckStep(r: Record, op: Op)
    requires Stuck(r)
    ensures Step(r, op).(recovery := None) == r.(recovery := None)
  {
  }

  lemma OneMore(ops: seq<Op>, op: Op)
    ensures After(ops + [op]) == Step(After(ops), op)
  {
    assert (ops + [op])[..|ops + [op]| - 1] == ops;
  }

  /** Interrupting any unfinished run and then stopping it leaves it stuck. */
  lemma InterruptThenStop(ops: seq<Op>, stop: Stage)
    requires Working(After(ops).stage) && !After(ops).stage.Closed? && (stop.Cancelled? || stop.Blocked?)
    ensures var r := After(ops + [Move(Interrupted)] + [Move(stop)]);
      r.stage == stop && r.stoppedFrom == Some(Interrupted) && Position(r) == After(ops).stage
  {
    OneMore(ops, Move(Interrupted));
    OneMore(ops + [Move(Interrupted)], Move(stop));
    hide After;
  }

  /** And only that does: a stopped run is stuck like this exactly when its last move left
      INTERRUPTED. */
  lemma StuckIffStoppedFromInterrupted(ops: seq<Op>)
    requires After(ops).stage.Blocked? || After(ops).stage.Cancelled?
    ensures After(ops).stoppedFrom == Some(Interrupted) <==>
      After(ops).history != [] && After(ops).history[|After(ops).history| - 1].from == Interrupted
  {
    ReachableRecordsAreSound(ops);
  }

  lemma Advance(ops: seq<Op>, target: Stage) returns (more: seq<Op>)
    requires Working(After(ops).stage) && Working(target) && Forward(After(ops).stage, target)
    ensures After(more).stage == target
  {
    more := ops + [Move(target)];
    OneMore(ops, Move(target));
  }

  /** A run cancelled while its author stage, which can be retried, was interrupted. */
  lemma StuckRunIsReachable()
    ensures exists ops ::
      && After(ops).stage.Cancelled? && After(ops).stoppedFrom == Some(Interrupted) && Retryable(Position(After(ops)))
  {
    var ops: seq<Op> := [];
    assert After(ops).stage == Intake;
    hide After;
    ops := Advance(ops, ScopeValidation);
    ops := Advance(ops, RiskClassification);
    ops := Advance(ops, AuthorizationResolution);
    ops := Advance(ops, ProviderSelection);
    ops := Advance(ops, WorktreePreparation);
    ops := Advance(ops, AuthorExecution);
    InterruptThenStop(ops, Cancelled);
  }

  /** A retry does not move the run: it puts it back to work where it stood. */
  lemma RetryKeepsPosition(ops: seq<Op>, target: Stage)
    requires RetryPermitted(After(ops), target)
    ensures Position(After(ops)) == target == Position(Retried(After(ops), target))
  {
    ReachableRecordsAreSound(ops);
  }
}
