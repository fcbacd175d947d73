/** The workflow coordinator around the engine: starting, retrying, stopping and delivering a
    run, over any number of calls, interruptions and crashes. */
module Workflow {
  import opened Common
  import opened TaskMachine
  import opened RunLifecycle
  import opened RunLaws
  import opened Orchestrator
  import opened Review

  /** What surrounds one call of the engine: the events before each preparation step, the step that
      raises if any, the moments of the call, events after it, and whether the process dies. */
  datatype Circumstances = Circumstances(
    early: seq<seq<Outside>>, raisesAt: Option<nat>, during: seq<Moment>, late: seq<Outside>, crashes: bool)

  /** How an approved run is delivered: the decision when one is asked for, what is requested, the
      transition before which git, an authorization or the report raises, and other threads. */
  datatype Delivery = Delivery(
    manual: bool, approved: bool, commit: bool, push: bool,
    raisesAt: Option<nat>, waiting: seq<Outside>, during: seq<seq<Outside>>)

  datatype Call =
    | Start(startIn: Circumstances, startScript: Script)
    | RetryRun(stage: Stage, retryIn: Circumstances, retryScript: Script)
    | Elsewhere(event: Outside)
    | Deliver(delivery: Delivery)
    | Restart(found: Recovery)

  const PREPARATION := [ScopeValidation, RiskClassification, AuthorizationResolution, ProviderSelection, WorktreePreparation]

  function RecoveryFor(stoppedFrom: Option<Stage>): Recovery {
    Recovery(stoppedFrom !in {Some(AuthorizedCommit), Some(AuthorizedPush), Some(EvidenceFinalization)}, false)
  }

  /** The record after the handler around a failed execution. */
  function Guarded(r: Record): Record {
    if r.stage.Closed? then r
    else
      var stopped := if r.stage.Cancelled? || r.stage.Blocked? then r else Moved(r, Blocked);
      stopped.(recovery := Some(RecoveryFor(stopped.stoppedFrom)))
  }

  /** Whatever is requested of a stuck run, its record stays. */
  lemma {:induction false} StuckMeetsAll(r: Record, o: Others, events: seq<Outside>)
    requires Stuck(r)
    ensures MetAll(r, o, events).0 == r
  {
    if events != [] {
      StuckMeetsAll(r, o, events[..|events| - 1]);
    }
  }

  predicate UndisturbedStart(c: Circumstances) {
    c.early == [] && c.raisesAt.None?
  }

  predicate Calm(c: Circumstances) {
    UndisturbedStart(c) && c.during == [] && c.late == [] && !c.crashes
  }

  /** Nothing but a pause inside the first call of the observer. */
  predicate PausedInside(c: Circumstances) {
    UndisturbedStart(c) && c.during == [Moment([], [], [], [Pause])] && c.late == [] && !c.crashes
  }

  /** Nothing is requested while the run is delivered; git, an authorization or the report may raise. */
  predicate Undisturbed(d: Delivery) {
    d.waiting == [] && d.during == []
  }

  /** The stages of a walk that raises before its k-th transition and is blocked there. */
  function WalkedStages(path: seq<Stage>, raisesAt: Option<nat>): seq<Stage> {
    if raisesAt.Some? && raisesAt.value < |path| then path[..raisesAt.value] + [Blocked] else path
  }

  function DeliveredStages(d: Delivery): seq<Stage> {
    if d.manual && !d.approved then [Blocked] else WalkedStages(PathOf(d), d.raisesAt)
  }

  function Slot(events: seq<seq<Outside>>, k: nat): seq<Outside> {
    if k < |events| then events[k] else []
  }

  function PathOf(d: Delivery): seq<Stage> {
    if d.manual && !d.approved then [Blocked]
    else
      (if d.commit && d.push then [AuthorizedCommit, AuthorizedPush] else if d.commit then [AuthorizedCommit] else [])
      + [EvidenceFinalization, Closed]
  }

  function StagesOf(history: seq<Entry>): seq<Stage> {
    seq(|history|, k requires 0 <= k < |history| => history[k].to)
  }

  function StageBefore(start: Stage, path: seq<Stage>, k: nat): Stage
    requires k <= |path|
  {
    if k == 0 then start else path[k - 1]
  }

  ghost predicate IsRoute(start: Stage, path: seq<Stage>) {
    forall k :: 0 <= k < |path| ==> Forward(StageBefore(start, path, k), path[k])
  }

  lemma MovedStages(r: Record, target: Stage)
    requires r.stage != target
    ensures StagesOf(Moved(r, target).history) == StagesOf(r.history) + [target]
  {
  }

  lemma GuardedStages(r: Record, next: Stage)
    requires Forward(r.stage, next)
    ensures StagesOf(Guarded(r).history) == StagesOf(r.history) + [Blocked]
  {
    MovedStages(r, Blocked);
  }

  /** A run that is past validation was certified, and its checkpoints still say so. */
  ghost predicate Sound(e: Engine)
    reads e
  {
    && e.Valid() && e.MovesLegal()
    && (PastValidation(Position(e.record)) ==> Certified(e.latest))
  }

  lemma {:induction false} PastStaysPast(path: seq<Stage>, m: nat, k: nat)
    requires ForwardPath(path) && m <= k < |path| && PastValidation(path[m])
    ensures PastValidation(path[k])
  {
    if m < k {
      PastStaysPast(path, m, k - 1);
      assert Forward(path[k - 1], path[k]);
    }
  }

  /** A run that ever committed stands past validation. */
  lemma CommittedIsPast(ops: seq<Op>)
    requires AuthorizedCommit in Trunk(After(ops).history)
    ensures PastValidation(Position(After(ops)))
  {
    ReachableRecordsAreSound(ops);
    var path := Trunk(After(ops).history);
    var m :| 0 <= m < |path| && path[m] == AuthorizedCommit;
    PastStaysPast(path, m, |path| - 1);
  }

  // ---------------------------------------------------- before the engine

  /** One transition of the preparation, or the handler where it raises or is not permitted. */
  function Advanced(r: Record, o: Others, c: Circumstances, k: nat): (bool, Record, Others)
    requires k < 5
  {
    if c.raisesAt == Some(k) || !Permitted(r, PREPARATION[k]) then (false, Guarded(r), o)
    else (true, Moved(r, PREPARATION[k]), o)
  }

  /** One step of the preparation behind what is requested before it; the last one first looks for a
      cancellation. */
  function Stepped(r: Record, o: Others, c: Circumstances, k: nat): (bool, Record, Others)
    requires k < 5
  {
    var (r1, o1) := MetAll(r, o, Slot(c.early, k));
    if k < 4 then Advanced(r1, o1, c, k)
    else if o1.cancelRequested then (false, r1, o1)
    else
      var (r2, o2) := MetAll(r1, o1, Slot(c.early, 5));
      Advanced(r2, o2, c, k)
  }

  function Prepared(r: Record, o: Others, c: Circumstances, k: nat): (bool, Record, Others)
    requires k <= 5
  {
    if k == 0 then (true, r, o)
    else
      var (ok, r1, o1) := Prepared(r, o, c, k - 1);
      if ok then Stepped(r1, o1, c, k - 1) else (ok, r1, o1)
  }

  /** Whether the engine is called at all, and the record and the requests that it finds or that are
      left without it. */
  function EngineReached(r: Record, o: Others, retry: Option<Stage>, c: Circumstances): (bool, Record, Others) {
    if retry.None? then
      var (ok, r1, o1) := Prepared(r, o, c, 5);
      if ok && c.raisesAt == Some(5) then (false, Guarded(r1), o1) else (ok, r1, o1)
    else if c.raisesAt.Some? then (false, Guarded(r), o)
    else
      var (r1, o1) := MetAll(r, o, Slot(c.early, 0));
      (r1.stage == retry.value && !o1.cancelRequested, r1, o1)
  }

  // ----------------------------------------------------------- the delivery

  /** The delivery's transitions up to the k-th, each behind what is requested before it, and the handler
      where one raises or is not permitted. */
  function Walked(r: Record, o: Others, path: seq<Stage>, raisesAt: Option<nat>, events: seq<seq<Outside>>, k: nat)
    : (bool, Record, Others)
    requires k <= |path|
  {
    if k == 0 then (true, r, o)
    else
      var (ok, r1, o1) := Walked(r, o, path, raisesAt, events, k - 1);
      if !ok then (ok, r1, o1)
      else if raisesAt == Some(k - 1) then (false, Guarded(r1), o1)
      else
        var (r2, o2) := MetAll(r1, o1, Slot(events, k - 1));
        if Permitted(r2, path[k - 1]) then (true, Moved(r2, path[k - 1]), o2) else (false, Guarded(r2), o2)
  }

  function WalkEnds(r: Record, o: Others, path: seq<Stage>, raisesAt: Option<nat>, events: seq<seq<Outside>>): (Record, Others) {
    var (ok, r1, o1) := Walked(r, o, path, raisesAt, events, |path|);
    if ok && raisesAt == Some(|path|) then (Guarded(r1), o1) else (r1, o1)
  }

  /** What a delivery leaves: a decision is awaited and taken first when one is asked for. */
  function DeliveryEnds(r: Record, o: Others, d: Delivery): (Record, Others) {
    if !d.manual then WalkEnds(r, o, PathOf(d), d.raisesAt, d.during)
    else
      var (r1, o1) := MetAll(r, o, d.waiting);
      if o1.cancelRequested then (r1, o1)
      else if !d.approved then (if Permitted(r1, Blocked) then Moved(r1, Blocked) else Guarded(r1), o1)
      else WalkEnds(r1, o1, PathOf(d), d.raisesAt, d.during)
  }

  /** Undisturbed, a walk along the table adds its stages up to where it raises. */
  lemma {:induction false} RouteWalked(r: Record, o: Others, path: seq<Stage>, raisesAt: Option<nat>, k: nat)
    requires k <= |path| && IsRoute(r.stage, path)
    ensures var (ok, r1, _) := Walked(r, o, path, raisesAt, [], k);
      && (ok <==> raisesAt.None? || k <= raisesAt.value)
      && (ok ==> r1.stage == StageBefore(r.stage, path, k))
      && StagesOf(r1.history) == StagesOf(r.history) + if ok then path[..k] else path[..raisesAt.value] + [Blocked]
  {
    hide StagesOf, Forward, Guarded;
    if k == 0 {
      assert path[..0] == [];
    } else {
      RouteWalked(r, o, path, raisesAt, k - 1);
      var (ok, r1, o1) := Walked(r, o, path, raisesAt, [], k - 1);
      assert Forward(StageBefore(r.stage, path, k - 1), path[k - 1]);
      ForwardMoves(StageBefore(r.stage, path, k - 1), path[k - 1]);
      NoRequests(r1, o1);
      if ok && raisesAt == Some(k - 1) {
        GuardedStages(r1, path[k - 1]);
      } else if ok {
        MovedStages(r1, path[k - 1]);
        assert path[..k] == path[..k - 1] + [path[k - 1]];
      }
    }
  }

  lemma ForwardMoves(s: Stage, t: Stage)
    requires Forward(s, t)
    ensures s != t && forall r: Record :: r.stage == s ==> Permitted(r, t) && Moved(r, t).stage == t
  {
  }

  lemma {:induction false} WalkStays(
    r: Record, o: Others, path: seq<Stage>, raisesAt: Option<nat>, events: seq<seq<Outside>>, k: nat, n: nat)
    requires k <= n <= |path| && !Walked(r, o, path, raisesAt, events, k).0
    ensures Walked(r, o, path, raisesAt, events, n) == Walked(r, o, path, raisesAt, events, k)
  {
    if k < n {
      WalkStays(r, o, path, raisesAt, events, k, n - 1);
    }
  }

  lemma DeliveryIsRoute(r: Record, o: Others, d: Delivery)
    requires Undisturbed(d) && r.stage.ApprovalDecision? && !(d.manual && !d.approved)
    ensures StagesOf(WalkEnds(r, o, PathOf(d), d.raisesAt, d.during).0.history) == StagesOf(r.history) + DeliveredStages(d)
  {
    hide StagesOf;
    var path := PathOf(d);
    RouteWalked(r, o, path, d.raisesAt, |path|);
    assert path[..|path|] == path;
  }

  // --------------------------------------------------- what each call does

  /** What the calls see of a run and of its task. */
  datatype Scene = Scene(
    record: Record, others: Others, status: TaskStatus, attempts: nat, maximumAttempts: nat,
    latest: map<Role, AgentRun>, newestReview: Role, active: bool)

  /** Where the engine finds the run and its task. */
  function AtWork(a: Scene, retry: Option<Stage>): Ended {
    Ended(Continue, a.status, if retry.None? then WorktreePreparation else retry.value, a.latest, a.newestReview)
  }

  /** An execution that was started or resumed at a stage. It awaits the decision only with a completed
      task that its checkpoints vouch for; undisturbed it does exactly when every gate passes; and with
      one pause inside its first observer call it is stuck. Undisturbed and not awaiting a decision, the
      run is blocked where the engine's call ended, with the status and the checkpoints of that end. */
  ghost predicate Executes(a: Scene, retry: Option<Stage>, c: Circumstances, script: Script, b: Scene) {
    var starts := StartsAgent(retry, a.status, a.attempts, a.maximumAttempts, script);
    var passes := starts && (if retry.None? then FreshCallPasses(script)
                             else AllGatesPass(StartOf(retry), script, a.latest, a.newestReview));
    && b.maximumAttempts == a.maximumAttempts
    && (b.attempts == a.attempts || (retry.None? && a.attempts < a.maximumAttempts && b.attempts == a.attempts + 1))
    && (b.active ==> b.record.stage == ApprovalDecision && b.status == Completed && Vouched(b.latest))
    && (b.active && a.status != Completed ==>
          passes && RecordsTrees(b.latest, script) && (OnReviewedTree(b.latest) <==> script.evidenceTree == script.finalTree))
    && (Calm(c) && a.status != Completed ==> (b.active <==> passes))
    && (var (ready, r, o) := EngineReached(a.record, QUIET, retry, c);
        !ready ==> b == a.(record := r, others := o, active := false))
    && (Calm(c) && !StartsIllegally(retry, a.status, a.attempts >= a.maximumAttempts, script) ==>
          var end := TaskEnds(retry, script, a.attempts >= a.maximumAttempts, AtWork(a, retry));
          && (b.status, b.latest, b.newestReview) == (end.status, end.latest, end.newestReview)
          && (!b.active ==> b.record.stage == Blocked && b.record.stoppedFrom == Some(end.stage)))
    && (PausedInside(c) && retry.None? && a.status !in {Backlog, Failed, Completed} && starts ==>
          !b.active && Stuck(b.record))
  }

  /** A call whose precondition in the source does not hold is refused there and does nothing here. A
      cancellation asks for the stage even after the run's thread has ended. */
  ghost predicate Does(a: Scene, call: Call, b: Scene) {
    match call
    case Start(c, script) =>
      if a.record.stage.Intake? && !a.active then Executes(a, None, c, script, b) else b == a
    case RetryRun(stage, c, script) =>
      if !RetryPermitted(a.record, stage) then b == a
      else if a.active then b == a.(record := Retried(a.record, stage))
      else Executes(a.(record := Retried(a.record, stage)), Some(stage), c, script, b)
    case Elsewhere(event) =>
      if a.active || event.FinishCancel? then
        var (r, o) := MetAll(a.record, a.others, [event]);
        b == a.(record := r, others := o)
      else b == a
    case Deliver(d) =>
      if a.active && a.record.stage.ApprovalDecision? then
        && (var (r, o) := DeliveryEnds(a.record, a.others, d);
            b == a.(record := r, others := o, active := false))
        && (Undisturbed(d) && !a.others.cancelRequested ==>
              StagesOf(b.record.history) == StagesOf(a.record.history) + DeliveredStages(d))
        && (TerminalStage(b.record.stage) || b.others.cancelRequested)
      else b == a.(active := a.active && !a.others.cancelRequested)
    case Restart(found) =>
      b == a.(
        record := if TerminalStage(a.record.stage) then a.record else Moved(a.record, Interrupted).(recovery := Some(found)),
        others := QUIET, active := false)
  }

  ghost predicate IsRun(scenes: seq<Scene>, calls: seq<Call>) {
    |scenes| == |calls| + 1 && forall k :: 0 <= k < |calls| ==> Does(scenes[k], calls[k], scenes[k + 1])
  }

  class Coordinator {
    const engine: Engine
    // the run has a live thread: it is executing, or awaiting the approval decision
    var active: bool

    constructor (status: TaskStatus, maximumAttempts: nat)
      requires status != Completed
      ensures fresh(engine) && Sound(engine) && !active
      ensures engine.record == NEW_RECORD && engine.status == status && engine.maximumAttempts == maximumAttempts
      ensures engine.attempts == 0
    {
      engine := new Engine(status, maximumAttempts);
      active := false;
    }

    ghost function Now(): Scene
      reads this, engine
    {
      Scene(engine.record, engine.others, engine.status, engine.attempts, engine.maximumAttempts,
            engine.latest, engine.newestReview, active)
    }

    /** One lifecycle transition; ok is false where the lifecycle raises. */
    method Go(target: Stage) returns (ok: bool)
      requires Sound(engine)
      requires Working(target) && target != Position(engine.record) ==>
        && Checkpointed(target, engine.latest, engine.newestReview)
        && (PastValidation(target) ==> Certified(engine.latest))
      modifies engine`record, engine`ops
      ensures Sound(engine)
      ensures ok <==> Permitted(old(engine.record), target)
      ensures engine.record == if ok then Moved(old(engine.record), target) else old(engine.record)
      ensures engine.record.stage == if ok then target else old(engine.record).stage
    {
      hide After, AllLegal, ResolvesEachOnce;
      ReachableRecordsAreSound(engine.ops);
      if Permitted(engine.record, target) && engine.record.stage != target {
        MovePosition(engine.record, target);
      }
      ok := engine.Advance(target);
    }

    /** Events of other threads while the run is active. */
    method ApplyAll(events: seq<Outside>)
      requires Sound(engine)
      modifies engine`record, engine`ops, engine`others
      ensures Sound(engine)
      ensures (engine.record, engine.others) == MetAll(old(engine.record), old(engine.others), events)
      ensures engine.others.cancelRequested <==> old(engine.others).cancelRequested || RequestCancel in events
      ensures old(Stuck(engine.record)) ==> engine.record == old(engine.record)
      ensures events == [] ==> engine.record == old(engine.record) && engine.others == old(engine.others)
    {
      hide After, AllLegal, Certified, Checkpointed, MetAll;
      NoRequests(engine.record, engine.others);
      if Stuck(engine.record) {
        StuckMeetsAll(engine.record, engine.others, events);
      }
      engine.MeetAll(events);
    }

    /** The handler around an execution that raised: the run is blocked, not lost. A closed run makes
        the handler raise itself. */
    method Guard()
      requires Sound(engine)
      modifies engine`record, engine`ops
      ensures Sound(engine)
      ensures engine.record == Guarded(old(engine.record))
      ensures old(engine.record).stage.Interrupted? ==> Stuck(engine.record)
      ensures TerminalStage(engine.record.stage)
    {
      hide After, AllLegal, ResolvesEachOnce;
      if !engine.record.stage.Cancelled? && !engine.record.stage.Blocked? {
        var stopped := Go(Blocked);
        if !stopped {
          return;
        }
      }
      AddRecovery();
    }

    /** `_add_recovery`: a run stopped while it was being delivered is not safe to retry. */
    method AddRecovery()
      requires Sound(engine)
      modifies engine`record, engine`ops
      ensures Sound(engine)
      ensures engine.record == old(engine.record).(recovery := Some(RecoveryFor(old(engine.record).stoppedFrom)))
    {
      hide AllLegal, ResolvesEachOnce, After;
      var delivering := engine.record.stoppedFrom in {Some(AuthorizedCommit), Some(AuthorizedPush), Some(EvidenceFinalization)};
      engine.NoteRecovery(Recovery(!delivering, false));
    }

    /** Intake to worktree preparation. A cancellation is looked for once, before the last step. */
    method Prepare(c: Circumstances) returns (ok: bool)
      requires Sound(engine)
      modifies engine`record, engine`ops, engine`others
      ensures Sound(engine)
      ensures (ok, engine.record, engine.others) == EngineReached(old(engine.record), old(engine.others), None, c)
      ensures ok ==> engine.record.stage == WorktreePreparation
      ensures UndisturbedStart(c) && !old(engine.others).cancelRequested && old(engine.record).stage.Intake? ==>
        ok && engine.others == old(engine.others)
    {
      hide After, AllLegal, Sound, Audited, RepairsReviewed, Certified, Guarded, Stepped;
      for k := 0 to 5
        invariant Sound(engine)
        invariant (true, engine.record, engine.others) == Prepared(old(engine.record), old(engine.others), c, k)
        invariant UndisturbedStart(c) && !old(engine.others).cancelRequested && old(engine.record).stage.Intake? ==>
          && engine.record.stage == (if k == 0 then Intake else PREPARATION[k - 1])
          && engine.others == old(engine.others)
        invariant k == 5 ==> engine.record.stage == WorktreePreparation
      {
        ok := PrepareStep(c, k);
        if !ok {
          StaysUnprepared(old(engine.record), old(engine.others), c, k + 1, 5);
          return;
        }
      }
      if c.raisesAt == Some(5) {
        Guard();
        return false;
      }
      ok := true;
    }

    method PrepareStep(c: Circumstances, k: nat) returns (ok: bool)
      requires Sound(engine) && k < 5
      modifies engine`record, engine`ops, engine`others
      ensures Sound(engine)
      ensures (ok, engine.record, engine.others) == Stepped(old(engine.record), old(engine.others), c, k)
      ensures ok ==> engine.record.stage == PREPARATION[k]
      ensures UndisturbedStart(c) && !old(engine.others).cancelRequested && Forward(old(engine.record).stage, PREPARATION[k]) ==>
        ok && engine.others == old(engine.others)
    {
      hide After, AllLegal, Sound, Audited, RepairsReviewed, Certified, Guarded, MetAll;
      ApplyAll(if k < |c.early| then c.early[k] else []);
      if k == 4 {
        if engine.others.cancelRequested {
          return false;
        }
        ApplyAll(if 5 < |c.early| then c.early[5] else []);
      }
      ok := c.raisesAt != Some(k);
      if ok {
        ok := Go(PREPARATION[k]);
      }
      if !ok {
        Guard();
      }
    }

    /** The part of `_execute` before the engine is called. */
    method BeforeEngine(retry: Option<Stage>, c: Circumstances) returns (ready: bool)
      requires Sound(engine)
      requires retry.Some? ==> Retryable(retry.value) && engine.record.stage == retry.value
      modifies engine`record, engine`ops, engine`others
      ensures Sound(engine)
      ensures (ready, engine.record, engine.others) == EngineReached(old(engine.record), old(engine.others), retry, c)
      ensures ready ==> engine.record.stage == if retry.None? then WorktreePreparation else retry.value
      ensures (
        && UndisturbedStart(c) && !old(engine.others).cancelRequested
        && (retry.None? ==> old(engine.record).stage.Intake?)) ==>
        ready && engine.others == old(engine.others)
    {
      hide After, AllLegal, Sound, MetAll, Guarded, Prepared;
      if retry.None? {
        ready := Prepare(c);
      } else if c.raisesAt.Some? {
        Guard();
        ready := false;
      } else {
        // Cancelled before the engine is called, or paused until the process ends; a pause that
        // ends sooner belongs to the first moment of the call.
        ApplyAll(if c.early != [] then c.early[0] else []);
        ready := engine.record.stage == retry.value && !engine.others.cancelRequested;
      }
    }

    /** The engine's call and what becomes of its outcome. */
    method RunEngine(retry: Option<Stage>, c: Circumstances, script: Script)
      requires Sound(engine)
      requires engine.record.stage == if retry.None? then WorktreePreparation else retry.value
      requires retry.Some? ==> Retryable(retry.value)
      modifies this`active, engine
      ensures Sound(engine) && engine.maximumAttempts == old(engine.maximumAttempts)
      ensures engine.attempts == old(engine.attempts)
        || (retry.None? && old(engine.attempts) < engine.maximumAttempts && engine.attempts == old(engine.attempts) + 1)
      ensures active ==> engine.record.stage == ApprovalDecision && engine.status == Completed
      ensures Calm(c) && old(engine.others) == QUIET && old(engine.status) != Completed ==>
        (active <==>
           && StartsAgent(retry, old(engine.status), old(engine.attempts), old(engine.maximumAttempts), script)
           && if retry.None? then FreshCallPasses(script)
              else AllGatesPass(StartOf(retry), script, old(engine.latest), old(engine.newestReview)))
      ensures (
        && Calm(c) && old(engine.others) == QUIET
        && !StartsIllegally(retry, old(engine.status), old(engine.attempts) >= engine.maximumAttempts, script)) ==>
        var end := TaskEnds(retry, script, old(engine.attempts) >= engine.maximumAttempts, old(AtWork(Now(), retry)));
        && engine.status == end.status && engine.latest == end.latest && engine.newestReview == end.newestReview
        && (!active ==> engine.record.stage == Blocked && engine.record.stoppedFrom == Some(end.stage))
      ensures (
        && PausedInside(c) && old(engine.others) == QUIET && retry.None?
        && old(engine.status) !in {Backlog, Failed, Completed}
        && StartsAgent(retry, old(engine.status), old(engine.attempts), old(engine.maximumAttempts), script)) ==>
        !active && Stuck(engine.record)
      ensures active ==> Vouched(engine.latest)
      ensures active && old(engine.status) != Completed ==>
        && StartsAgent(retry, old(engine.status), old(engine.attempts), old(engine.maximumAttempts), script)
        && (if retry.None? then FreshCallPasses(script)
            else AllGatesPass(StartOf(retry), script, old(engine.latest), old(engine.newestReview)))
        && RecordsTrees(engine.latest, script) && (OnReviewedTree(engine.latest) <==> script.evidenceTree == script.finalTree)
    {
      hide After, AllLegal, Audited, RepairsReviewed, Certified, Checkpointed, AllGatesPass, Observed, Gentle, MetAll;
      hide Vouched, FreshCallPasses, RecordsTrees, OnReviewedTree, RecordsReports, Permitted;
      hide TaskEnds, StartsIllegally, StartsAgent, Guarded, Stuck;
      active := false;
      EndsAtWork(retry, script, engine.attempts >= engine.maximumAttempts, AtWork(Now(), retry));
      engine.others := engine.others.(moments := c.during);
      if PausedInside(c) && retry.None? {
        PauseInsideForbids(engine.record, StatusSignal(Building));
      }
      var flow := engine.RunTask(retry, script);
      Afterwards(flow, c);
    }

    /** Whatever is still requested after the engine's call, and unless the process dies, what the
        coordinator makes of the outcome. */
    method Afterwards(flow: Flow, c: Circumstances)
      requires Sound(engine) && !flow.Continue? && !active
      modifies this`active, engine`record, engine`ops, engine`others, engine`status, engine`moves
      ensures Sound(engine)
      ensures active ==> engine.record.stage == ApprovalDecision && engine.status == old(engine.status) == Completed
      ensures c.late == [] && !c.crashes && !old(engine.others).cancelRequested ==>
        && engine.status == old(engine.status)
        && (active <==> flow.Return? && engine.status == Completed && old(engine.record).stage.FinalValidation?)
        && (!active && flow != Raise(PausedForGood) && Working(old(engine.record).stage) && !old(engine.record).stage.Closed? ==>
              engine.record.stage == Blocked && engine.record.stoppedFrom == Some(old(engine.record).stage))
      ensures c.crashes ==>
        !active && engine.status == old(engine.status)
        && (engine.record, engine.others) == MetAll(old(engine.record), old(engine.others), c.late)
      ensures c.late == [] && !c.crashes && flow == Raise(ForbiddenStage) && old(engine.record).stage.Interrupted? ==>
        !active && Stuck(engine.record)
    {
      hide After, AllLegal, Audited, RepairsReviewed, Certified, Checkpointed, MetAll;
      ApplyAll(c.late);
      if !c.crashes {
        active := Settle(flow);
      }
    }

    /** `_execute` inside `_execute_guarded`, up to the approval decision. */
    method Execute(retry: Option<Stage>, c: Circumstances, script: Script)
      requires Sound(engine)
      requires if retry.None? then engine.record.stage.Intake? else Retryable(retry.value) && engine.record.stage == retry.value
      modifies this`active, engine
      ensures Sound(engine)
      ensures Executes(old(Now()), retry, c, script, Now())
    {
      hide After, AllLegal, Audited, RepairsReviewed, Certified, Checkpointed, AllGatesPass, StartsAgent, RecordsTrees;
      hide Vouched, FreshCallPasses, Stuck, OnReviewedTree, TaskEnds, StartsIllegally;
      engine.others := QUIET;
      active := false;
      var ready := BeforeEngine(retry, c);
      if ready {
        RunEngine(retry, c, script);
      }
    }

    /** What the coordinator does with the engine's outcome; awaiting the decision or at an end. */
    method Settle(flow: Flow) returns (awaiting: bool)
      requires Sound(engine) && !flow.Continue?
      modifies engine`record, engine`ops, engine`status, engine`moves
      ensures Sound(engine) && engine.others == old(engine.others) && engine.latest == old(engine.latest)
      ensures engine.record ==
        if awaiting then Moved(old(engine.record), ApprovalDecision)
        else if (flow.Return? && engine.others.cancelRequested) || flow == Raise(PausedForGood) then old(engine.record)
        else Guarded(old(engine.record))
      ensures awaiting <==>
        flow.Return? && !engine.others.cancelRequested && engine.status == Completed && old(engine.record).stage.FinalValidation?
      ensures awaiting ==> engine.record.stage == ApprovalDecision
      ensures engine.status ==
        if flow.Raise? && flow != Raise(PausedForGood) && engine.others.cancelRequested
           && old(engine.status) in {Building, SelfVerifying, IndependentAuditing, Repairing, FinalVerify}
        then Failed else old(engine.status)
    {
      hide After, AllLegal, ResolvesEachOnce;
      awaiting := false;
      if flow == Raise(PausedForGood) {
        return;
      }
      var cancelled := engine.others.cancelRequested;
      if flow.Raise? {
        if cancelled && engine.status in {Building, SelfVerifying, IndependentAuditing, Repairing, FinalVerify} {
          engine.NoteMove(engine.status, Failed);
          engine.status := Failed;
        }
        Guard();
        return;
      }
      if cancelled {
        return;
      }
      if engine.status != Completed || !engine.record.stage.FinalValidation? {
        Guard();
        return;
      }
      awaiting := Go(ApprovalDecision);
    }

    /** The rest of `_execute`, once the run stands at the approval decision. */
    method DeliverRun(d: Delivery)
      requires Sound(engine) && engine.record.stage.ApprovalDecision?
      modifies engine`record, engine`ops, engine`others
      ensures Sound(engine)
      ensures Undisturbed(d) && !old(engine.others).cancelRequested ==>
        StagesOf(engine.record.history) == StagesOf(old(engine.record).history) + DeliveredStages(d)
      ensures TerminalStage(engine.record.stage) || engine.others.cancelRequested
      ensures (engine.record, engine.others) == DeliveryEnds(old(engine.record), old(engine.others), d)
    {
      hide After, AllLegal, MetAll, StagesOf, Guarded, WalkedStages, Certified, Checkpointed, Moved, WalkEnds;
      if d.manual {
        ApplyAll(d.waiting);
        if engine.others.cancelRequested {
          return;
        }
        if !d.approved {
          ghost var before := engine.record;
          var rejected := Go(Blocked);
          if before.stage != Blocked {
            MovedStages(before, Blocked);
          }
          if !rejected {
            Guard();
          }
          return;
        }
      }
      var path: seq<Stage> := [];
      if d.commit {
        path := if d.push then [AuthorizedCommit, AuthorizedPush] else [AuthorizedCommit];
      }
      if Undisturbed(d) {
        DeliveryIsRoute(engine.record, engine.others, d);
      }
      WalkPath(path + [EvidenceFinalization, Closed], d.raisesAt, d.during);
    }

    /** One step of the delivery, after the events of other threads. */
    method StepTo(target: Stage, events: seq<Outside>) returns (ok: bool)
      requires Sound(engine) && Certified(engine.latest) && PastValidation(target)
      modifies engine`record, engine`ops, engine`others
      ensures Sound(engine)
      ensures ok ==> engine.record.stage == target
      ensures var (r, o) := MetAll(old(engine.record), old(engine.others), events);
        && ok == Permitted(r, target)
        && engine.record == (if ok then Moved(r, target) else r) && engine.others == o
    {
      hide After, AllLegal, Certified;
      ApplyAll(events);
      ok := Go(target);
    }

    method WalkPath(path: seq<Stage>, raisesAt: Option<nat>, events: seq<seq<Outside>>)
      requires Sound(engine) && Certified(engine.latest)
      requires path != [] && path[|path| - 1] == Closed && forall k :: 0 <= k < |path| ==> PastValidation(path[k])
      modifies engine`record, engine`ops, engine`others
      ensures Sound(engine)
      ensures (engine.record, engine.others) == WalkEnds(old(engine.record), old(engine.others), path, raisesAt, events)
      ensures TerminalStage(engine.record.stage)
    {
      hide After, AllLegal, Certified, StagesOf, Sound, PastValidation, Forward, MetAll, Moved;
      for k := 0 to |path|
        invariant Sound(engine)
        invariant k == |path| ==> engine.record.stage == Closed
        invariant (true, engine.record, engine.others) ==
          Walked(old(engine.record), old(engine.others), path, raisesAt, events, k)
      {
        var moved := raisesAt != Some(k);
        if moved {
          moved := StepTo(path[k], if k < |events| then events[k] else []);
        }
        if !moved {
          Guard();
          WalkStays(old(engine.record), old(engine.others), path, raisesAt, events, k + 1, |path|);
          return;
        }
      }
      if raisesAt == Some(|path|) {
        // The handler raises itself: a closed run is not blocked.
        Guard();
      }
    }

    /** `recover_interrupted_runs` in a new process, with what it found out about the old one. */
    method Recover(found: Recovery)
      requires Sound(engine)
      modifies this`active, engine`record, engine`ops, engine`others
      ensures Sound(engine) && !active && engine.others == QUIET
      ensures engine.record ==
        if TerminalStage(old(engine.record).stage) then old(engine.record)
        else Moved(old(engine.record), Interrupted).(recovery := Some(found))
    {
      hide After, AllLegal, ResolvesEachOnce;
      active, engine.others := false, QUIET;
      if TerminalStage(engine.record.stage) {
        return;
      }
      var stopped := Go(Interrupted);
      engine.NoteRecovery(found);
    }

    /** `retry`: the lifecycle decides whether the run may return to the stage it stopped in, and
        moves it before the coordinator finds that the run is active already. */
    method RetryStage(stage: Stage, c: Circumstances, script: Script)
      requires Sound(engine)
      modifies this`active, engine
      ensures Sound(engine)
      ensures Does(old(Now()), RetryRun(stage, c, script), Now())
    {
      hide After, AllLegal, ResolvesEachOnce, Executes, Certified, Checkpointed;
      if RetryPermitted(engine.record, stage) {
        RetryKeepsPosition(engine.ops, stage);
      }
      var ok := engine.Retry(stage);
      if ok && !active {
        Execute(Some(stage), c, script);
      }
    }

    /** One call. */
    method Perform(call: Call)
      requires Sound(engine)
      modifies this`active, engine
      ensures Sound(engine)
      ensures Does(old(Now()), call, Now())
    {
      hide AllLegal, Certified, Checkpointed, MetAll, Vouched, Executes;
      match call
      case Start(c, script) =>
        if engine.record.stage.Intake? && !active {
          Execute(None, c, script);
        }
      case RetryRun(stage, c, script) =>
        RetryStage(stage, c, script);
      case Elsewhere(event) =>
        if active || event.FinishCancel? {
          ApplyAll([event]);
        }
      case Deliver(delivery) =>
        if active && engine.record.stage.ApprovalDecision? {
          DeliverRun(delivery);
          active := false;
        } else if engine.others.cancelRequested {
          active := false;
        }
      case Restart(found) =>
        Recover(found);
    }

    /** Any sequence of calls. */
    method Drive(calls: seq<Call>) returns (ghost scenes: seq<Scene>)
      requires Sound(engine)
      modifies this`active, engine
      ensures Sound(engine)
      ensures IsRun(scenes, calls) && scenes[0] == old(Now()) && scenes[|calls|] == Now()
      ensures engine.status == Completed ==> Certified(engine.latest) && Vouched(engine.latest)
      ensures AuthorizedCommit in Trunk(engine.record.history) ==> Certified(engine.latest) && Vouched(engine.latest)
      ensures old(Stuck(engine.record)) ==> engine.record == old(engine.record)
    {
      hide AllLegal, Certified, Checkpointed, MetAll, Vouched, Does, Stuck;
      scenes := [Now()];
      for k := 0 to |calls|
        invariant Sound(engine)
        invariant IsRun(scenes, calls[..k]) && scenes[0] == old(Now()) && scenes[k] == Now()
        invariant old(Stuck(engine.record)) ==> engine.record == old(engine.record)
      {
        ghost var before := Now();
        Perform(calls[k]);
        if Stuck(before.record) {
          StuckStays(before, calls[k], Now());
        }
        assert calls[..k + 1] == calls[..k] + [calls[k]];
        scenes := scenes + [Now()];
      }
      assert calls[..|calls|] == calls;
      if AuthorizedCommit in Trunk(engine.record.history) {
        CommittedIsPast(engine.ops);
      }
      if Certified(engine.latest) {
        CertifiedIsVouched(engine.latest);
      }
    }
  }

  lemma {:induction false} StaysUnprepared(r: Record, o: Others, c: Circumstances, k: nat, n: nat)
    requires k <= n <= 5 && !Prepared(r, o, c, k).0
    ensures Prepared(r, o, c, n) == Prepared(r, o, c, k)
  {
    if k < n {
      StaysUnprepared(r, o, c, k, n - 1);
    }
  }

  /** No call moves a stuck run. */
  lemma StuckStays(a: Scene, call: Call, b: Scene)
    requires Stuck(a.record) && Does(a, call, b)
    ensures b.record == a.record
  {
    if call.Elsewhere? {
      StuckMeetsAll(a.record, a.others, [call.event]);
    }
    hide MetAll, Executes;
  }

  const AGENT_OUTPUT := ReviewOutput([], [])
  const UNTOUCHED := Workspace(0, 0)

  /** Every gate passes on the reviewed tree 1; the final evidence is collected on another one. */
  const EDITED_IN_BETWEEN := Script(
    true, true, false,
    Reply(true, 1, 1, false, AGENT_OUTPUT), true, Passes,
    Reply(true, 2, 2, false, AGENT_OUTPUT), 1,
    UNTOUCHED, Reply(true, 3, 3, false, AGENT_OUTPUT), UNTOUCHED,
    Reply(true, 4, 4, false, AGENT_OUTPUT), 1,
    true, 1, Passes, 2)

  /** An edit between the comparison with the reviewed tree and the final verification goes
      unnoticed: the task completes on evidence from a tree that nobody reviewed. */
  method CompletesOnUnreviewedTree() returns (c: Coordinator)
    ensures fresh(c) && c.active && c.engine.status == Completed && Certified(c.engine.latest)
    ensures !OnReviewedTree(c.engine.latest)
  {
    c := new Coordinator(Ready, 1);
    c.Execute(None, Circumstances([], None, [], [], false), EDITED_IN_BETWEEN);
  }

  /** A pause inside the first observer call of a run is never overcome: the stage that is asked for is
      forbidden, the run ends BLOCKED from INTERRUPTED, and no sequence of calls moves it again. */
  method PauseInsideCallIsFinal(script: Script, calls: seq<Call>) returns (c: Coordinator)
    requires script.preChecks && script.workspace
    ensures fresh(c) && Stuck(c.engine.record)
  {
    c := new Coordinator(Ready, 1);
    c.Execute(None, Circumstances([], None, [Moment([], [], [], [Pause])], [], false), script);
    ghost var scenes := c.Drive(calls);
  }
}
