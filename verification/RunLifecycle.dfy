/** The durable run record and the operations that move its stage. */
module RunLifecycle {
  import opened Common

  datatype Stage =
    | Intake | ScopeValidation | RiskClassification | AuthorizationResolution
    | ProviderSelection | WorktreePreparation
    | AuthorExecution | AuthorSelfVerification | IndependentAudit
    | RepairExecution | PostRepairVerification | FinalValidation
    | ApprovalDecision | AuthorizedCommit | AuthorizedPush | EvidenceFinalization
    | Closed | Interrupted | Cancelled | Blocked

  predicate TerminalStage(s: Stage) {
    s.Closed? || s.Cancelled? || s.Blocked?
  }

  predicate Retryable(s: Stage) {
    s.AuthorExecution? || s.AuthorSelfVerification? || s.IndependentAudit?
    || s.RepairExecution? || s.PostRepairVerification? || s.FinalValidation?
  }

  /** A stage in which the run makes progress; the other three are stops. */
  predicate Working(s: Stage) {
    !s.Interrupted? && !s.Cancelled? && !s.Blocked?
  }

  /** The `_FORWARD` table. */
  predicate Forward(s: Stage, t: Stage) {
    match s
    case Intake => t.ScopeValidation?
    case ScopeValidation => t.RiskClassification?
    case RiskClassification => t.AuthorizationResolution?
    case AuthorizationResolution => t.ProviderSelection?
    case ProviderSelection => t.WorktreePreparation?
    case WorktreePreparation => t.AuthorExecution?
    case AuthorExecution => t.AuthorSelfVerification?
    case AuthorSelfVerification => t.IndependentAudit?
    case IndependentAudit => t.RepairExecution? || t.FinalValidation?
    case RepairExecution => t.PostRepairVerification?
    case PostRepairVerification => t.IndependentAudit?
    case FinalValidation => t.ApprovalDecision?
    case ApprovalDecision => t.AuthorizedCommit? || t.EvidenceFinalization?
    case AuthorizedCommit => t.AuthorizedPush? || t.EvidenceFinalization?
    case AuthorizedPush => t.EvidenceFinalization?
    case EvidenceFinalization => t.Closed?
    case Closed => false
    case Interrupted => false
    case Cancelled => false
    case Blocked => false
  }

  datatype Entry = Entry(sequence: nat, from: Stage, to: Stage, retry: bool)

  /** `f"{run_id}:{stage}:{count}"` within one run. */
  datatype StageAttempt = StageAttempt(stage: Stage, count: nat)

  datatype Recovery = Recovery(retrySafe: bool, processRunning: bool)

  datatype RunStatus = RunRunning | RunCompleted | RunStopped(stopped: Stage)

  datatype Record = Record(
    stage: Stage, sequence: nat, history: seq<Entry>, status: RunStatus,
    interruptedFrom: Option<Stage>, stoppedFrom: Option<Stage>,
    counts: map<Stage, nat>, activeAttempt: Option<StageAttempt>, recovery: Option<Recovery>)

  const NEW_RECORD := Record(Intake, 0, [], RunRunning, None, None, map[], None, None)

  // --------------------------------------------------------- specifications

  /** Which requests `RunLifecycle.transition` does not refuse. */
  predicate Permitted(r: Record, target: Stage) {
    r.stage == target
    || (if target.Interrupted? || target.Cancelled? || target.Blocked? then !TerminalStage(r.stage)
        else if r.stage.Interrupted? then r.interruptedFrom == Some(target)
        else Forward(r.stage, target))
  }

  function CountOf(counts: map<Stage, nat>, s: Stage, default: nat): nat {
    if s in counts then counts[s] else default
  }

  function StatusAt(s: Stage): RunStatus {
    if s.Closed? then RunCompleted else if TerminalStage(s) then RunStopped(s) else RunRunning
  }

  function Moved(r: Record, target: Stage): Record {
    if r.stage == target then r else
    var marked :=
      if target.Interrupted? then r.(interruptedFrom := Some(r.stage))
      else if target.Cancelled? || target.Blocked? then r.(stoppedFrom := Some(r.stage))
      else if r.stage.Interrupted? then r.(interruptedFrom := None)
      else r;
    var counted :=
      if Retryable(target) then
        var count := CountOf(r.counts, target, 0) + 1;
        marked.(counts := r.counts[target := count], activeAttempt := Some(StageAttempt(target, count)))
      else marked;
    counted.(stage := target, sequence := r.sequence + 1,
             history := r.history + [Entry(r.sequence + 1, r.stage, target, false)],
             status := StatusAt(target))
  }

  function StoppedAt(r: Record): Option<Stage> {
    if r.stage.Interrupted? then r.interruptedFrom else r.stoppedFrom
  }

  /** When `RunLifecycle.retry_stage` does not refuse, for a non-empty reason and authorizer. */
  predicate RetryPermitted(r: Record, target: Stage) {
    && Retryable(target)
    && (r.stage.Interrupted? || r.stage.Blocked? || r.stage.Cancelled?)
    && StoppedAt(r) == Some(target)
    && (r.recovery.Some? ==> r.recovery.value.retrySafe && !r.recovery.value.processRunning)
  }

  function Retried(r: Record, target: Stage): Record {
    var count := CountOf(r.counts, target, 1) + 1;
    r.(stage := target, sequence := r.sequence + 1, status := RunRunning,
       history := r.history + [Entry(r.sequence + 1, r.stage, target, true)],
       interruptedFrom := None, stoppedFrom := None,
       counts := r.counts[target := count], activeAttempt := Some(StageAttempt(target, count)))
  }

  /** The controller over the stored runs. */
  class Lifecycle {
    var runs: map<Id, Record>
    // the task each run was created for
    var tasks: map<Id, Id>

    constructor ()
      ensures runs == map[] && tasks == map[]
    {
      runs, tasks := map[], map[];
    }

    method Create(run: Id, task: Id) returns (ok: bool)
      requires tasks.Keys == runs.Keys
      modifies this
      ensures tasks.Keys == runs.Keys
      ensures ok <==> run !in old(runs) || old(tasks)[run] == task
      ensures runs == if run in old(runs) then old(runs) else old(runs)[run := NEW_RECORD]
      ensures tasks == if run in old(runs) then old(tasks) else old(tasks)[run := task]
    {
      if run in runs {
        return tasks[run] == task;
      }
      runs, tasks := runs[run := NEW_RECORD], tasks[run := task];
      ok := true;
    }

    /** `transition`: ok is false where the source raises, and then nothing is stored. */
    method Transition(run: Id, target: Stage) returns (ok: bool)
      modifies this`runs
      ensures ok <==> run in old(runs) && Permitted(old(runs)[run], target)
      ensures runs == if ok then old(runs)[run := Moved(old(runs)[run], target)] else old(runs)
    {
      if run !in runs {
        return false;
      }
      var record := runs[run];
      var previous := record.stage;
      if previous == target {
        assert runs[run := record] == runs;
        return true;
      }
      if target.Interrupted? {
        if TerminalStage(previous) {
          return false;
        }
        record := record.(interruptedFrom := Some(previous));
      } else if target.Cancelled? || target.Blocked? {
        if TerminalStage(previous) {
          return false;
        }
        record := record.(stoppedFrom := Some(previous));
      } else if previous.Interrupted? {
        if record.interruptedFrom != Some(target) {
          return false;
        }
        record := record.(interruptedFrom := None);
      } else if !Forward(previous, target) {
        return false;
      }
      var sequence := record.sequence + 1;
      var history := record.history + [Entry(sequence, previous, target, false)];
      if Retryable(target) {
        var count := CountOf(record.counts, target, 0) + 1;
        record := record.(counts := record.counts[target := count],
                          activeAttempt := Some(StageAttempt(target, count)));
      }
      record := record.(stage := target, sequence := sequence, history := history, status := StatusAt(target));
      runs := runs[run := record];
      ok := true;
    }

    /** `retry_stage`. */
    method RetryStage(run: Id, target: Stage, justified: bool) returns (ok: bool)
      modifies this`runs
      ensures ok <==> justified && run in old(runs) && RetryPermitted(old(runs)[run], target)
      ensures runs == if ok then old(runs)[run := Retried(old(runs)[run], target)] else old(runs)
    {
      if !Retryable(target) || !justified || run !in runs {
        return false;
      }
      var record := runs[run];
      if !record.stage.Interrupted? && !record.stage.Blocked? && !record.stage.Cancelled? {
        return false;
      }
      var expected := if record.stage.Interrupted? then record.interruptedFrom else record.stoppedFrom;
      if expected != Some(target) {
        return false;
      }
      if record.recovery.Some? && (!record.recovery.value.retrySafe || record.recovery.value.processRunning) {
        return false;
      }
      var count := CountOf(record.counts, target, 1) + 1;
      var sequence := record.sequence + 1;
      record := record.(stage := target, sequence := sequence,
                        history := record.history + [Entry(sequence, record.stage, target, true)],
                        status := RunRunning, interruptedFrom := None, stoppedFrom := None,
                        counts := record.counts[target := count],
                        activeAttempt := Some(StageAttempt(target, count)));
      runs := runs[run := record];
      ok := true;
    }

    /** Recovery notes are stored on the record by the workflow after a stop. */
    method NoteRecovery(run: Id, recovery: Recovery)
      modifies this`runs
      ensures runs == if run in old(runs) then old(runs)[run := old(runs)[run].(recovery := Some(recovery))] else old(runs)
    {
      if run in runs {
        runs := runs[run := runs[run].(recovery := Some(recovery))];
      }
    }
  }
}
