/** `Keeper.run_task` driving a task and, through the lifecycle observer, the run record. */
module Orchestrator {
  import opened Common
  import opened TaskMachine
  import opened Review
  import opened RunLifecycle
  import opened RunLaws

  datatype Role = Builder | Reviewer | Repairer | PostRepairReviewer

  /** A provider checkpoint: one run.json. */
  datatype AgentRun = AgentRun(
    instance: Id, provider: Id, qwen: bool,
    findings: seq<Finding>, accepted: seq<Finding>, dispositions: seq<Disposition>,
    reviewTree: Option<Id>, finalVerdict: Option<Verification>)

  /** Final verification evidence: its verdict and the tree it was collected on. */
  datatype Verification = Verification(passed: bool, tree: Id)

  // ------------------------------------------------- what the outside decides

  datatype Output = Unreadable | ReviewOutput(findings: seq<Finding>, dispositions: seq<Disposition>)

  /** One call of an agent. */
  datatype Reply =
    | AgentRaises(lostInstance: Id)
    | Reply(succeeded: bool, instance: Id, provider: Id, qwen: bool, output: Output)

  /** `_workspace_identity`: the commit and the digest of everything changed since. */
  datatype Workspace = Workspace(head: Id, tree: Id)

  datatype Verdict = VerificationRaises | Passes | DoesNotPass

  /** Agents, checks and every reading of the workspace, which anything may edit in between. */
  datatype Script = Script(
    preChecks: bool, workspace: bool, highRisk: bool,
    builder: Reply, buildInScope: bool, selfVerification: Verdict,
    reviewer: Reply, auditTree: Id,
    beforeRepair: Workspace, repairer: Reply, afterRepair: Workspace,
    postReviewer: Reply, postReviewTree: Id,
    finalInScope: bool, finalTree: Id, finalVerification: Verdict, evidenceTree: Id)

  /** What another thread does to an active run. A cancellation first sets the event and asks for the
      stage afterwards. */
  datatype Outside = Pause | Resume | RequestCancel | FinishCancel | RetryActive(stage: Stage)

  /** The events around one observer call: before its checks of the two requests let it pass,
      before it reads the stage, before the detour and before the transition. */
  datatype Moment = Moment(before: seq<Outside>, read: seq<Outside>, detour: seq<Outside>, move: seq<Outside>)

  /** The other threads: what they still do, and the two events through which they are heard. */
  datatype Others = Others(moments: seq<Moment>, cancelRequested: bool, pauseRequested: bool)

  const QUIET := Others([], false, false)

  /** Nothing happens between an observer's checks and its transition. */
  ghost predicate Gentle(o: Others) {
    forall k :: 0 <= k < |o.moments| ==> o.moments[k].read == [] && o.moments[k].detour == [] && o.moments[k].move == []
  }

  // ----------------------------------------------------------- the observer

  /** The values passed to the lifecycle observer. */
  datatype Signal = StatusSignal(status: TaskStatus) | ReviewingSignal | PostRepairReviewingSignal | FinalVerifyingSignal

  function StageFor(v: Signal): Option<Stage> {
    match v
    case StatusSignal(Building) => Some(AuthorExecution)
    case StatusSignal(SelfVerifying) => Some(AuthorSelfVerification)
    case StatusSignal(IndependentAuditing) => Some(IndependentAudit)
    case StatusSignal(Repairing) => Some(RepairExecution)
    case PostRepairReviewingSignal => Some(PostRepairVerification)
    case StatusSignal(FinalVerify) => Some(FinalValidation)
    case _ => None
  }

  /** The stages that a signal can take the run to. */
  predicate Reaches(stage: Stage, target: Stage) {
    target == stage || (target.FinalValidation? && stage.PostRepairVerification?) || Forward(stage, target)
  }

  /** Where a delivered signal leaves the run, or None where the lifecycle forbids it. */
  function Delivered(stage: Stage, v: Signal): Option<Stage> {
    var target := StageFor(v);
    if target.None? then Some(stage) else if Reaches(stage, target.value) then target else None
  }

  datatype Heard = Accepted | RunCancelled | RunWaits | StageForbidden | StatusIllegal

  datatype Flow = Continue | Return | Raise(error: Error)

  /** PausedForGood is no exception: the observer waits until the process ends. */
  datatype Error = CancellationRequested | PausedForGood | ForbiddenStage | IllegalStatus | RetryRefused | ExternalError

  function FlowOf(h: Heard): Flow {
    match h
    case Accepted => Continue
    case RunCancelled => Raise(CancellationRequested)
    case RunWaits => Raise(PausedForGood)
    case StageForbidden => Raise(ForbiddenStage)
    case StatusIllegal => Raise(IllegalStatus)
  }

  /** Where a signal that was not accepted leaves the run: where it stood, or at the audit that the
      way from the second review to the final validation passes. */
  predicate HeldAt(before: Stage, now: Stage) {
    now == before || (before.PostRepairVerification? && now.IndependentAudit?)
  }

  // ------------------------------------------------------------ checkpoints

  /** A request of another thread: the event that the observer sees is set even where the lifecycle
      then refuses, and a retry moves the run without clearing the pause. */
  function Met(r: Record, o: Others, event: Outside): (Record, Others) {
    match event
    case Pause =>
      if o.pauseRequested then (r, o)
      else (if Permitted(r, Interrupted) then Moved(r, Interrupted) else r, o.(pauseRequested := true))
    case Resume =>
      if r.interruptedFrom.Some? && Permitted(r, r.interruptedFrom.value)
      then (Moved(r, r.interruptedFrom.value), o.(pauseRequested := false))
      else (r, o)
    case RequestCancel => (r, o.(cancelRequested := true))
    case FinishCancel => (if o.cancelRequested && Permitted(r, Cancelled) then Moved(r, Cancelled) else r, o)
    case RetryActive(stage) => (if RetryPermitted(r, stage) then Retried(r, stage) else r, o)
  }

  /** The record and the events after any requests, in order. */
  function MetAll(r: Record, o: Others, events: seq<Outside>): (Record, Others) {
    if events == [] then (r, o)
    else
      var (before, others) := MetAll(r, o, events[..|events| - 1]);
      Met(before, others, events[|events| - 1])
  }

  lemma NoRequests(r: Record, o: Others)
    ensures MetAll(r, o, []) == (r, o)
  {
  }

  /** The observer's last step: whatever is requested before it, then the transition itself. */
  function MovedTo(r: Record, o: Others, target: Stage, events: seq<Outside>): (Heard, Record, Others) {
    var (r', o') := MetAll(r, o, events);
    if Permitted(r', target) then (Accepted, Moved(r', target), o') else (StageForbidden, r', o')
  }

  /** The observer's steps behind its checks: it reads the stage, makes the detour if it has to, and
      moves the run, each behind the requests that come before it. */
  function Transited(r: Record, o: Others, target: Stage, m: Moment): (Heard, Record, Others) {
    var (r1, o1) := MetAll(r, o, m.read);
    if target.FinalValidation? && r1.stage.PostRepairVerification? then
      var (h, r2, o2) := MovedTo(r1, o1, IndependentAudit, m.detour);
      if h.Accepted? then MovedTo(r2, o2, target, m.move) else (h, r2, o2)
    else MovedTo(r1, o1, target, m.move)
  }

  function FirstMoment(o: Others): Moment {
    if o.moments == [] then Moment([], [], [], []) else o.moments[0]
  }

  function NextMoments(o: Others): Others {
    if o.moments == [] then o else o.(moments := o.moments[1..])
  }

  /** A whole observer call: what it answers and what it leaves. */
  function Observed(r: Record, o: Others, v: Signal): (Heard, Record, Others) {
    var m := FirstMoment(o);
    var (r', o') := MetAll(r, NextMoments(o), m.before);
    if o'.cancelRequested then (RunCancelled, r', o')
    else if o'.pauseRequested then (RunWaits, r', o')
    else if StageFor(v).None? then (Accepted, r', o')
    else Transited(r', o', StageFor(v).value, m)
  }

  /** The call passes the observer's checks and then finds a record that does not permit the detour
      or the stage that is asked for. */
  predicate Forbids(r: Record, o: Others, v: Signal) {
    Observed(r, o, v).0.StageForbidden?
  }

  predicate Stands(r: Record, o: Others, base: Stage) {
    && Position(r) == base && Working(base) && !base.Closed? && !r.stage.Blocked?
    && (Working(r.stage) ==> r.stage == base)
    && (r.stage.Interrupted? ==> o.pauseRequested && r.interruptedFrom == Some(base))
    && (r.stage.Cancelled? ==> o.cancelRequested)
  }

  /** No request changes where a run stands. */
  lemma MetKeepsPosition(ops: seq<Op>, o: Others, event: Outside)
    ensures Position(Met(After(ops), o, event).0) == Position(After(ops))
  {
    var r := After(ops);
    ReachableRecordsAreSound(ops);
    hide After, Chained, RetriesReturn, CountsAgree, OnTrunk;
    match event
    case Pause =>
      if Permitted(r, Interrupted) && !r.stage.Interrupted? {
        MovePosition(r, Interrupted);
      }
    case RequestCancel =>
    case FinishCancel =>
      if Permitted(r, Cancelled) && !r.stage.Cancelled? {
        MovePosition(r, Cancelled);
      }
    case Resume =>
      if r.stage.Interrupted? {
        MovePosition(r, r.interruptedFrom.value);
      }
    case RetryActive(stage) =>
      if RetryPermitted(r, stage) {
        RetryKeepsPosition(ops, stage);
      }
  }

  lemma MetKeepsStanding(ops: seq<Op>, o: Others, event: Outside, base: Stage)
    requires Stands(After(ops), o, base)
    ensures var (r', o') := Met(After(ops), o, event); Stands(r', o', base)
  {
    MetKeepsPosition(ops, o, event);
    ReachableRecordsAreSound(ops);
    hide After, Chained, RetriesReturn, CountsAgree, OnTrunk;
  }

  lemma MetIsReachable(ops: seq<Op>, o: Others, event: Outside) returns (more: seq<Op>)
    ensures After(more) == Met(After(ops), o, event).0
  {
    var r := After(ops);
    OneMore(ops, Move(Interrupted));
    OneMore(ops, Move(Cancelled));
    if r.interruptedFrom.Some? {
      OneMore(ops, Move(r.interruptedFrom.value));
    }
    if event.RetryActive? {
      OneMore(ops, Op.Retry(event.stage));
    }
    hide After;
    more :=
      match event
      case Pause => if o.pauseRequested then ops else ops + [Move(Interrupted)]
      case Resume => if r.interruptedFrom.Some? then ops + [Move(r.interruptedFrom.value)] else ops
      case RequestCancel => ops
      case FinishCancel => if o.cancelRequested then ops + [Move(Cancelled)] else ops
      case RetryActive(stage) => ops + [Op.Retry(stage)];
  }

  lemma {:induction false} MetAllStands(ops: seq<Op>, o: Others, events: seq<Outside>, base: Stage) returns (more: seq<Op>)
    requires Stands(After(ops), o, base)
    ensures After(more) == MetAll(After(ops), o, events).0
    ensures var (r', o') := MetAll(After(ops), o, events); Stands(r', o', base)
  {
    hide After, Stands, Met;
    more := ops;
    if events != [] {
      var init := events[..|events| - 1];
      more := MetAllStands(ops, o, init, base);
      var others := MetAll(After(ops), o, init).1;
      MetKeepsStanding(more, others, events[|events| - 1], base);
      more := MetIsReachable(more, others, events[|events| - 1]);
    }
  }

  /** The run is stopped, and not in the very stage that is asked for. */
  predicate StoppedFor(r: Record, target: Stage) {
    r.stage.Cancelled? || (r.stage.Interrupted? && r.interruptedFrom != Some(target))
  }

  lemma PermittedIffNotStopped(r: Record, o: Others, base: Stage, target: Stage)
    requires Stands(r, o, base) && Retryable(target) && (target == base || Forward(base, target))
    ensures Permitted(r, target) <==> !StoppedFor(r, target)
  {
  }

  lemma MoveStands(ops: seq<Op>, o: Others, base: Stage, target: Stage) returns (more: seq<Op>)
    requires Stands(After(ops), o, base) && Retryable(target) && Permitted(After(ops), target)
    ensures After(more) == Moved(After(ops), target) && Stands(After(more), o, target)
  {
    OneMore(ops, Move(target));
    more := ops + [Move(target)];
    ReachableRecordsAreSound(more);
    hide After, CountsAgree, OnTrunk, Chained, RetriesReturn;
  }

  lemma MovedToIff(ops: seq<Op>, o: Others, base: Stage, target: Stage, events: seq<Outside>) returns (more: seq<Op>)
    requires Stands(After(ops), o, base) && Retryable(target) && (target == base || Forward(base, target))
    ensures var (h, r, o') := MovedTo(After(ops), o, target, events);
      && (h.StageForbidden? <==> StoppedFor(MetAll(After(ops), o, events).0, target))
      && (h.Accepted? ==> After(more) == r && Stands(r, o', target) && r.stage == target)
  {
    hide After, MetAll, Stands, StoppedFor, Permitted, Forward;
    more := MetAllStands(ops, o, events, base);
    var (r', o') := MetAll(After(ops), o, events);
    PermittedIffNotStopped(r', o', base, target);
    if Permitted(r', target) {
      more := MoveStands(more, o', base, target);
    }
  }

  /** Exactly when an observer call forbids a stage that the table allows: requests behind its checks
      have stopped the run at one of its own steps. */
  lemma ForbiddenIffStopped(ops: seq<Op>, o: Others, target: Stage, m: Moment)
    requires Stands(After(ops), o, After(ops).stage) && Retryable(target) && Reaches(After(ops).stage, target)
    ensures var r := After(ops);
      var (r1, o1) := MetAll(r, o, m.read);
      Transited(r, o, target, m).0.StageForbidden? <==>
        if target.FinalValidation? && r.stage.PostRepairVerification? then
          || !Working(r1.stage)
          || StoppedFor(MetAll(r1, o1, m.detour).0, IndependentAudit)
          || (var (_, r2, o2) := MovedTo(r1, o1, IndependentAudit, m.detour); StoppedFor(MetAll(r2, o2, m.move).0, target))
        else StoppedFor(MetAll(r1, o1, m.move).0, target)
  {
    var base := After(ops).stage;
    var read := MetAllStands(ops, o, m.read, base);
    var (r1, o1) := MetAll(After(ops), o, m.read);
    if target.FinalValidation? && base.PostRepairVerification? {
      if Working(r1.stage) {
        DetourIff(read, o1, m);
      } else {
        NoDetourForbids(read, o1, m);
      }
    } else {
      hide After, MetAll, MovedTo;
      var moved := MovedToIff(read, o1, base, target, m.move);
    }
  }

  /** The way from the second review to the final validation. */
  lemma DetourIff(ops: seq<Op>, o: Others, m: Moment)
    requires Stands(After(ops), o, PostRepairVerification) && Working(After(ops).stage)
    ensures var r := After(ops);
      var (h, r2, o2) := MovedTo(r, o, IndependentAudit, m.detour);
      && (h.StageForbidden? <==> StoppedFor(MetAll(r, o, m.detour).0, IndependentAudit))
      && (h.Accepted? ==>
            (MovedTo(r2, o2, FinalValidation, m.move).0.StageForbidden? <==>
               StoppedFor(MetAll(r2, o2, m.move).0, FinalValidation)))
  {
    hide After, MetAll, Stands;
    var more := MovedToIff(ops, o, PostRepairVerification, IndependentAudit, m.detour);
    var (h, r2, o2) := MovedTo(After(ops), o, IndependentAudit, m.detour);
    hide MovedTo;
    if h.Accepted? {
      var last := MovedToIff(more, o2, IndependentAudit, FinalValidation, m.move);
    }
  }

  /** A run that is stopped before the observer reads its stage makes no detour, and gets no further. */
  lemma NoDetourForbids(ops: seq<Op>, o: Others, m: Moment)
    requires Stands(After(ops), o, PostRepairVerification) && !Working(After(ops).stage)
    ensures MovedTo(After(ops), o, FinalValidation, m.move).0.StageForbidden?
  {
    hide After, MetAll;
    var more := MetAllStands(ops, o, m.move, PostRepairVerification);
  }

  /** One pause behind the checks is enough: the stage is forbidden and the run left interrupted. */
  lemma PauseInsideForbids(r: Record, v: Signal)
    requires Working(r.stage) && !r.stage.Closed? && StageFor(v).Some? && StageFor(v).value != r.stage
    requires !(r.stage.PostRepairVerification? && StageFor(v).value.FinalValidation?)
    ensures var o := Others([Moment([], [], [], [Pause])], false, false);
      Observed(r, o, v) == (StageForbidden, Moved(r, Interrupted), Others([], false, true))
  {
    var o := Others([], false, false);
    assert [Moment([], [], [], [Pause])][1..] == [];
    assert MetAll(r, o, []) == (r, o);
    assert [Pause][..0] == [];
    assert MetAll(r, o, [Pause]) == Met(r, o, Pause);
  }

  /** The observer stopped the engine for another thread. */
  predicate Held(flow: Flow) {
    flow == Raise(CancellationRequested) || flow == Raise(PausedForGood)
  }

  /** The independence test between builder and reviewer. */
  predicate Independent(builder: AgentRun, reviewer: AgentRun, highRisk: bool) {
    && reviewer.instance != builder.instance
    && !(builder.qwen && reviewer.provider == builder.provider)
    && !(builder.qwen && highRisk && reviewer.qwen)
  }

  ghost predicate Audited(latest: map<Role, AgentRun>) {
    && Builder in latest && Reviewer in latest
    && latest[Reviewer].instance != latest[Builder].instance
    && !(latest[Builder].qwen && latest[Reviewer].provider == latest[Builder].provider)
    && latest[Reviewer].accepted == Blocking(latest[Reviewer].findings)
    && latest[Reviewer].reviewTree.Some?
  }

  ghost predicate RepairsReviewed(latest: map<Role, AgentRun>) {
    && Builder in latest && Repairer in latest && Reviewer in latest && PostRepairReviewer in latest
    && latest[PostRepairReviewer].instance != latest[Builder].instance
    && latest[PostRepairReviewer].instance != latest[Repairer].instance
    && ResolvesEachOnce(latest[PostRepairReviewer].findings, latest[PostRepairReviewer].dispositions, latest[Reviewer].accepted)
    && latest[PostRepairReviewer].reviewTree.Some?
  }

  /** What the durable checkpoints hold once the run stands at a stage. */
  ghost predicate Checkpointed(p: Stage, latest: map<Role, AgentRun>, newestReview: Role) {
    && (p.AuthorSelfVerification? || p.IndependentAudit? ==> Builder in latest)
    && (p.RepairExecution? || p.PostRepairVerification? || p.FinalValidation? ==> Audited(latest))
    && (p.RepairExecution? || p.PostRepairVerification? ==> latest[Reviewer].accepted != [])
    && (p.PostRepairVerification? ==> Repairer in latest)
    && (p.FinalValidation? ==>
          if latest[Reviewer].accepted == [] then newestReview == Reviewer else RepairsReviewed(latest))
  }

  predicate PastValidation(p: Stage) {
    p.ApprovalDecision? || p.AuthorizedCommit? || p.AuthorizedPush? || p.EvidenceFinalization? || p.Closed?
  }

  function LastReview(latest: map<Role, AgentRun>): Role {
    if Reviewer in latest && latest[Reviewer].accepted == [] then Reviewer else PostRepairReviewer
  }

  /** What COMPLETED means: independent review, every blocker resolved after an independent second
      one, and a passing final verification recorded with the deciding review. */
  ghost predicate Certified(latest: map<Role, AgentRun>) {
    && Audited(latest)
    && (latest[Reviewer].accepted != [] ==> RepairsReviewed(latest))
    && var last := latest[LastReview(latest)];
       last.reviewTree.Some? && last.finalVerdict.Some? && last.finalVerdict.value.passed
  }

  predicate VerdictPassed(run: AgentRun) {
    run.reviewTree.Some? && run.finalVerdict.Some? && run.finalVerdict.value.passed
  }

  /** What stands behind a completed task, in the words of its checkpoints: somebody other than the
      builder reviewed its work, and when that review found anything Critical or High, somebody other
      than builder and repairer settled every such finding. */
  ghost predicate Vouched(latest: map<Role, AgentRun>) {
    && Builder in latest && Reviewer in latest
    && var builder, review := latest[Builder], latest[Reviewer];
       && review.instance != builder.instance
       && (builder.qwen ==> review.provider != builder.provider)
       && if forall f :: f in review.findings ==> f.severity in {Medium, Low, Minor} then VerdictPassed(review)
          else
            && Repairer in latest && PostRepairReviewer in latest
            && var post := latest[PostRepairReviewer];
               && post.instance !in {builder.instance, latest[Repairer].instance}
               && Settles(review.findings, post.findings, post.dispositions)
               && VerdictPassed(post)
  }

  lemma CertifiedIsVouched(latest: map<Role, AgentRun>)
    requires Certified(latest)
    ensures Vouched(latest)
  {
    hide Blocking, Settles, ResolvesEachOnce, Accepts;
    var found := latest[Reviewer].findings;
    if PostRepairReviewer in latest {
      var post := latest[PostRepairReviewer];
      AcceptsIffSettles(found, post.findings, post.dispositions);
      AcceptsIffEachResolvedOnce(post.findings, post.dispositions, Blocking(found));
    }
    NothingSeriousIff(found);
  }

  lemma NothingSeriousIff(findings: seq<Finding>)
    ensures Blocking(findings) == [] <==> forall f :: f in findings ==> f.severity in {Medium, Low, Minor}
  {
    if Blocking(findings) != [] {
      assert Blocking(findings)[0] in Blocking(findings);
    }
  }

  /** The final evidence was collected on the very tree that was reviewed. */
  predicate OnReviewedTree(latest: map<Role, AgentRun>) {
    LastReview(latest) in latest &&
    var last := latest[LastReview(latest)];
    last.finalVerdict.Some? && last.reviewTree == Some(last.finalVerdict.value.tree)
  }

  /** What the checkpoints say of the trees after a call that completed. */
  predicate RecordsTrees(latest: map<Role, AgentRun>, s: Script) {
    LastReview(latest) in latest &&
    var last := latest[LastReview(latest)];
    last.reviewTree == Some(s.finalTree) && last.finalVerdict == Some(Verification(true, s.evidenceTree))
  }

  function OutputOf(reply: Reply): Output {
    if reply.Reply? then reply.output else Unreadable
  }

  predicate RecordsReview(latest: map<Role, AgentRun>, output: Output) {
    Reviewer in latest && output.ReviewOutput? && latest[Reviewer].findings == output.findings
  }

  predicate RecordsPostReview(latest: map<Role, AgentRun>, output: Output) {
    && PostRepairReviewer in latest && output.ReviewOutput?
    && latest[PostRepairReviewer].findings == output.findings
    && latest[PostRepairReviewer].dispositions == output.dispositions
  }

  /** The reviews that a completed call made stand in the checkpoints as they were reported. */
  predicate RecordsReports(start: nat, latest: map<Role, AgentRun>, s: Script) {
    && (start <= 2 ==> RecordsReview(latest, OutputOf(s.reviewer)))
    && (start <= 4 && Reviewer in latest && latest[Reviewer].accepted != [] ==>
          RecordsPostReview(latest, OutputOf(s.postReviewer)))
  }

  function Ordinal(s: Stage): nat {
    match s
    case AuthorExecution => 0
    case AuthorSelfVerification => 1
    case IndependentAudit => 2
    case RepairExecution => 3
    case PostRepairVerification => 4
    case _ => 5
  }

  /** The checkpoint the agent runner writes; review and verification fields come later. */
  function FreshRun(reply: Reply): AgentRun {
    if reply.Reply? then AgentRun(reply.instance, reply.provider, reply.qwen, [], [], [], None, None)
    else AgentRun(reply.lostInstance, reply.lostInstance, false, [], [], [], None, None)
  }

  predicate Succeeds(reply: Reply) {
    reply.Reply? && reply.succeeded
  }

  // ------------------------------------------------- the gates of one call

  predicate BuildPasses(s: Script) {
    Succeeds(s.builder) && s.buildInScope
  }

  predicate AuditPasses(s: Script, builder: AgentRun) {
    Succeeds(s.reviewer) && Independent(builder, FreshRun(s.reviewer), s.highRisk) && s.reviewer.output.ReviewOutput?
  }

  predicate RepairPasses(s: Script) {
    Succeeds(s.repairer) && s.afterRepair != s.beforeRepair
  }

  predicate PostReviewHolds(post: AgentRun, output: Output, builder: AgentRun, repairer: AgentRun, blockers: seq<Finding>) {
    && post.instance != builder.instance && post.instance != repairer.instance
    && output.ReviewOutput? && Accepts(output.findings, output.dispositions, blockers)
  }

  predicate PostReviewPasses(s: Script, builder: AgentRun, repairer: AgentRun, blockers: seq<Finding>) {
    Succeeds(s.postReviewer)
    && PostReviewHolds(FreshRun(s.postReviewer), s.postReviewer.output, builder, repairer, blockers)
  }

  predicate FinalPasses(s: Script, reviewTree: Option<Id>) {
    s.finalInScope && reviewTree in {None, Some(s.finalTree)} && s.finalVerification.Passes?
  }

  /** The gates that follow a reviewer's checkpoint, which recorded the given tree. */
  predicate ReviewGatesPass(start: nat, s: Script, builder: AgentRun, blockers: seq<Finding>,
                            repairer: AgentRun, reviewTree: Option<Id>) {
    if blockers == [] then
      start !in {3, 4} && FinalPasses(s, reviewTree)
    else
      && (start <= 3 ==> RepairPasses(s))
      && (start <= 4 ==> PostReviewPasses(s, builder, if start <= 3 then FreshRun(s.repairer) else repairer, blockers))
      && FinalPasses(s, if start <= 4 then Some(s.postReviewTree) else reviewTree)
  }

  const NO_RUN := AgentRun(0, 0, false, [], [], [], None, None)

  function RunOf(latest: map<Role, AgentRun>, role: Role): AgentRun {
    if role in latest then latest[role] else NO_RUN
  }

  function BuilderOf(start: nat, s: Script, latest: map<Role, AgentRun>): AgentRun {
    if start <= 0 then FreshRun(s.builder) else RunOf(latest, Builder)
  }

  /** The gates of the author and of the reviewer. */
  predicate AuthorGatesPass(start: nat, s: Script, builder: AgentRun) {
    (start <= 0 ==> BuildPasses(s)) && (start <= 1 ==> s.selfVerification.Passes?) && AuditPasses(s, builder)
  }

  /** The durable review gates of a call that starts after the audit. */
  predicate DurableReviewGatesPass(start: nat, s: Script, latest: map<Role, AgentRun>, newestReview: Role) {
    var blockers := RunOf(latest, Reviewer).accepted;
    var last := if blockers == [] then newestReview else PostRepairReviewer;
    ReviewGatesPass(start, s, RunOf(latest, Builder), blockers, RunOf(latest, Repairer), RunOf(latest, last).reviewTree)
  }

  /** Every gate from the starting stage on: what it takes to complete. */
  predicate AllGatesPass(start: nat, s: Script, latest: map<Role, AgentRun>, newestReview: Role) {
    if start <= 2 then
      var builder := BuilderOf(start, s, latest);
      && AuthorGatesPass(start, s, builder)
      && ReviewGatesPass(start, s, builder, Blocking(s.reviewer.output.findings), NO_RUN, Some(s.auditTree))
    else
      DurableReviewGatesPass(start, s, latest, newestReview)
  }

  /** What it takes to complete a fresh call, in the words of its agents and its checks. */
  ghost predicate FreshCallPasses(s: Script) {
    && s.builder.Reply? && s.builder.succeeded && s.buildInScope && s.selfVerification == Passes
    && s.reviewer.Reply? && s.reviewer.succeeded && s.reviewer.output.ReviewOutput?
    && s.reviewer.instance != s.builder.instance
    && (s.builder.qwen ==> s.reviewer.provider != s.builder.provider && !(s.highRisk && s.reviewer.qwen))
    && s.finalInScope && s.finalVerification == Passes
    && var found := s.reviewer.output.findings;
       if forall f :: f in found ==> f.severity in {Medium, Low, Minor} then s.finalTree == s.auditTree
       else
         && s.repairer.Reply? && s.repairer.succeeded && s.afterRepair != s.beforeRepair
         && s.postReviewer.Reply? && s.postReviewer.succeeded && s.postReviewer.output.ReviewOutput?
         && s.postReviewer.instance !in {s.builder.instance, s.repairer.instance}
         && Settles(found, s.postReviewer.output.findings, s.postReviewer.output.dispositions)
         && s.finalTree == s.postReviewTree
  }

  /** The list of gates, read for a call that starts afresh: nothing durable takes part in it. */
  lemma FreshGates(s: Script, latest: map<Role, AgentRun>, newestReview: Role)
    ensures AllGatesPass(0, s, latest, newestReview) <==> FreshCallPasses(s)
  {
    hide Accepts, Blocking, Settles;
    if s.reviewer.Reply? && s.reviewer.output.ReviewOutput? {
      var found := s.reviewer.output.findings;
      NothingSeriousIff(found);
      if s.postReviewer.Reply? && s.postReviewer.output.ReviewOutput? {
        AcceptsIffSettles(found, s.postReviewer.output.findings, s.postReviewer.output.dispositions);
      }
    }
  }

  lemma EntryIsBeforeApproval(stage: Stage, v: Signal)
    requires StageFor(v).Some? && Delivered(stage, v).Some? && Retryable(Delivered(stage, v).value)
    ensures !PastValidation(stage)
  {
  }

  lemma HeldIsCheckpointed(before: Stage, now: Stage, latest: map<Role, AgentRun>, newestReview: Role)
    requires Checkpointed(before, latest, newestReview) && HeldAt(before, now)
    ensures Checkpointed(now, latest, newestReview) && (PastValidation(now) ==> PastValidation(before))
  {
  }

  lemma VerdictKeepsReviews(latest: map<Role, AgentRun>, last: Role, verdict: Verification)
    requires Audited(latest) && (latest[Reviewer].accepted != [] ==> RepairsReviewed(latest))
    requires last == if latest[Reviewer].accepted == [] then Reviewer else PostRepairReviewer
    ensures var stamped := latest[last := latest[last].(finalVerdict := Some(verdict))];
      && Checkpointed(FinalValidation, stamped, last)
      && (latest[Reviewer].accepted != [] ==> forall newest :: Checkpointed(FinalValidation, stamped, newest))
      && LastReview(stamped) == last
      && (verdict.passed && latest[last].reviewTree.Some? ==> Certified(stamped))
  {
  }

  /** Which trees a completed call records decides whether its evidence is of the reviewed one. */
  lemma TreesAgree(latest: map<Role, AgentRun>, s: Script)
    requires RecordsTrees(latest, s)
    ensures OnReviewedTree(latest) <==> s.evidenceTree == s.finalTree
  {
  }

  // ----------------------------------------------- how an unstopped call ends

  /** What a phase or a call leaves: its flow, the task's status, the run's stage and the checkpoints. */
  datatype Ended = Ended(flow: Flow, status: TaskStatus, stage: Stage, latest: map<Role, AgentRun>, newestReview: Role)

  /** The observer let a status or a stage through no more, or the status table forbade the move. */
  predicate Stops(flow: Flow) {
    Held(flow) || flow == Raise(ForbiddenStage) || flow == Raise(IllegalStatus)
  }

  function Built(s: Script, latest: map<Role, AgentRun>, newest: Role): Ended {
    var saved := latest[Builder := FreshRun(s.builder)];
    if s.builder.Reply? && !s.builder.succeeded then Ended(Return, Failed, AuthorExecution, saved, newest)
    else if s.builder.Reply? && s.buildInScope then Ended(Continue, Building, AuthorExecution, saved, newest)
    else Ended(Raise(ExternalError), Building, AuthorExecution, saved, newest)
  }

  function SelfVerified(s: Script, latest: map<Role, AgentRun>, newest: Role): Ended {
    match s.selfVerification
    case VerificationRaises => Ended(Raise(ExternalError), SelfVerifying, AuthorSelfVerification, latest, newest)
    case DoesNotPass => Ended(Return, Failed, AuthorSelfVerification, latest, newest)
    case Passes => Ended(Continue, SelfVerifying, AuthorSelfVerification, latest, newest)
  }

  function Reviewed(s: Script, latest: map<Role, AgentRun>): Ended {
    var ran := FreshRun(s.reviewer);
    var saved := latest[Reviewer := ran];
    if s.reviewer.AgentRaises? then Ended(Raise(ExternalError), IndependentAuditing, IndependentAudit, saved, Reviewer)
    else if !s.reviewer.succeeded then Ended(Return, Failed, IndependentAudit, saved, Reviewer)
    else ReviewJudged(ran, s, s.reviewer.output, saved)
  }

  function ReviewJudged(ran: AgentRun, s: Script, output: Output, latest: map<Role, AgentRun>): Ended {
    if !Independent(RunOf(latest, Builder), ran, s.highRisk) then
      Ended(Return, BlockedTask, IndependentAudit, latest, Reviewer)
    else
      match output
      case Unreadable => Ended(Return, Failed, IndependentAudit, latest, Reviewer)
      case ReviewOutput(findings, _) =>
        var review := ran.(findings := findings, accepted := Blocking(findings), reviewTree := Some(s.auditTree));
        Ended(Continue, IndependentAuditing, IndependentAudit, latest[Reviewer := review], Reviewer)
  }

  function Repaired(s: Script, latest: map<Role, AgentRun>, newest: Role): Ended {
    var saved := latest[Repairer := FreshRun(s.repairer)];
    if s.repairer.AgentRaises? then Ended(Raise(ExternalError), Repairing, RepairExecution, saved, newest)
    else if !s.repairer.succeeded || s.afterRepair == s.beforeRepair then
      Ended(Return, BlockedTask, RepairExecution, saved, newest)
    else Ended(Continue, Repairing, RepairExecution, saved, Reviewer)
  }

  function PostReviewed(s: Script, latest: map<Role, AgentRun>): Ended {
    var ran := FreshRun(s.postReviewer);
    var saved := latest[PostRepairReviewer := ran];
    if s.postReviewer.AgentRaises? then
      Ended(Raise(ExternalError), Repairing, PostRepairVerification, saved, PostRepairReviewer)
    else if !s.postReviewer.succeeded then Ended(Return, Failed, PostRepairVerification, saved, PostRepairReviewer)
    else PostJudged(ran, s.postReviewer.output, s.postReviewTree, saved)
  }

  function PostJudged(ran: AgentRun, output: Output, tree: Id, latest: map<Role, AgentRun>): Ended {
    if ran.instance in {RunOf(latest, Builder).instance, RunOf(latest, Repairer).instance} then
      Ended(Return, BlockedTask, PostRepairVerification, latest, PostRepairReviewer)
    else if output.Unreadable? || !Accepts(output.findings, output.dispositions, RunOf(latest, Reviewer).accepted) then
      Ended(Return, Failed, PostRepairVerification, latest, PostRepairReviewer)
    else
      var review := ran.(findings := output.findings, dispositions := output.dispositions, reviewTree := Some(tree));
      Ended(Continue, Repairing, PostRepairVerification, latest[PostRepairReviewer := review], PostRepairReviewer)
  }

  function Finished(s: Script, latest: map<Role, AgentRun>, newest: Role, last: Role): Ended {
    var reviewed := RunOf(latest, last).reviewTree;
    if !s.finalInScope then Ended(Raise(ExternalError), FinalVerify, FinalValidation, latest, newest)
    else if reviewed != None && reviewed != Some(s.finalTree) then
      Ended(Return, BlockedTask, FinalValidation, latest, newest)
    else if s.finalVerification.VerificationRaises? then
      Ended(Raise(ExternalError), FinalVerify, FinalValidation, latest, newest)
    else
      var passed := s.finalVerification.Passes?;
      var evidenced := RunOf(latest, last).(finalVerdict := Some(Verification(passed, s.evidenceTree)));
      Ended(Return, if passed then Completed else Failed, FinalValidation, latest[last := evidenced], last)
  }

  /** The author's stages and the audit, from the stage the call starts at. */
  function AuthorEnds(start: nat, s: Script, latest: map<Role, AgentRun>, newest: Role): Ended {
    if start == 0 then
      var built := Built(s, latest, newest);
      if built.flow.Continue? then SelfEnds(s, built.latest, built.newestReview) else built
    else if start == 1 then SelfEnds(s, latest, newest)
    else Reviewed(s, latest)
  }

  function SelfEnds(s: Script, latest: map<Role, AgentRun>, newest: Role): Ended {
    var verified := SelfVerified(s, latest, newest);
    if verified.flow.Continue? then Reviewed(s, latest) else verified
  }

  /** What follows the audit; a repair stage without blockers is refused where the run stands. */
  function ReviewEnds(start: nat, s: Script, here: Ended): Ended {
    if RunOf(here.latest, Reviewer).accepted == [] then
      if start == 3 || start == 4 then here.(flow := Raise(RetryRefused))
      else Finished(s, here.latest, here.newestReview, if start <= 2 then Reviewer else here.newestReview)
    else if start <= 4 then
      var reviewed := RepairEnds(start, s, here.latest, here.newestReview);
      if reviewed.flow.Continue? then Finished(s, reviewed.latest, reviewed.newestReview, PostRepairReviewer) else reviewed
    else Finished(s, here.latest, here.newestReview, PostRepairReviewer)
  }

  function RepairEnds(start: nat, s: Script, latest: map<Role, AgentRun>, newest: Role): Ended {
    if start == 4 then PostReviewed(s, latest)
    else
      var repaired := Repaired(s, latest, newest);
      if repaired.flow.Continue? then PostReviewed(s, repaired.latest) else repaired
  }

  /** A whole call behind its pre-checks. */
  function CallEnds(start: nat, s: Script, here: Ended): Ended {
    if start <= 2 then
      var audited := AuthorEnds(start, s, here.latest, here.newestReview);
      if audited.flow.Continue? then ReviewEnds(start, s, audited) else audited
    else ReviewEnds(start, s, here)
  }

  /** What the checkpoints must hold for a call that starts behind the audit. */
  ghost predicate Durable(start: nat, here: Ended) {
    && (start > 2 ==> Audited(here.latest))
    && (start == 5 ==>
          if here.latest[Reviewer].accepted == [] then here.newestReview == Reviewer else RepairsReviewed(here.latest))
  }

  /** A call that nothing stops ends at a stage that a stop can be made from. */
  lemma EndsAtWork(retry: Option<Stage>, s: Script, exhausted: bool, here: Ended)
    requires Working(here.stage) && !here.stage.Closed?
    ensures var stage := TaskEnds(retry, s, exhausted, here).stage; Working(stage) && !stage.Closed?
  {
    var start := StartOf(retry);
    ReviewEndsAtWork(start, s, here);
    if start <= 2 {
      ReviewEndsAtWork(start, s, AuthorEnds(start, s, here.latest, here.newestReview));
    }
    hide ReviewEnds, Accepts, Blocking, Independent;
  }

  lemma ReviewEndsAtWork(start: nat, s: Script, here: Ended)
    ensures var end := ReviewEnds(start, s, here); end.stage == here.stage || Retryable(end.stage)
  {
    hide Accepts;
  }

  /** What a fresh call ends with does not depend on the status it finds. */
  lemma FreshCallEnds(s: Script, here: Ended, status: TaskStatus)
    ensures CallEnds(0, s, here.(status := status)) == CallEnds(0, s, here)
  {
    hide AuthorEnds, ReviewEnds;
  }

  lemma StartedTaskEnds(retry: Option<Stage>, s: Script, attempts: nat, maximum: nat, here: Ended)
    ensures StartsAgent(retry, here.status, attempts, maximum, s) ==>
      && !StartsIllegally(retry, here.status, attempts >= maximum, s)
      && TaskEnds(retry, s, attempts >= maximum, here) == CallEnds(StartOf(retry), s, here)
  {
  }

  lemma CheckpointsAreDurable(retry: Option<Stage>, here: Ended)
    requires Checkpointed(here.stage, here.latest, here.newestReview)
    requires retry.Some? ==> here.stage == retry.value && Retryable(retry.value)
    ensures StartOf(retry) <= 5 && Durable(StartOf(retry), here)
  {
    hide Audited, RepairsReviewed;
    if retry.Some? && StartOf(retry) > 2 {
      assert Audited(here.latest);
    }
  }

  lemma BuiltIffGate(s: Script, latest: map<Role, AgentRun>, newest: Role)
    ensures var end := Built(s, latest, newest);
      && (end.flow.Continue? <==> BuildPasses(s)) && end.status != Completed
      && RunOf(end.latest, Builder) == FreshRun(s.builder)
  {
  }

  lemma ReviewedIffGate(s: Script, latest: map<Role, AgentRun>)
    ensures var end := Reviewed(s, latest);
      && (end.flow.Continue? <==> AuditPasses(s, RunOf(latest, Builder))) && end.status != Completed
      && (end.flow.Continue? ==>
            && RunOf(end.latest, Builder) == RunOf(latest, Builder) && end.newestReview == Reviewer && Reviewer in end.latest
            && end.latest[Reviewer].findings == s.reviewer.output.findings
            && end.latest[Reviewer].accepted == Blocking(s.reviewer.output.findings)
            && end.latest[Reviewer].reviewTree == Some(s.auditTree))
  {
    hide Independent, Blocking;
  }

  lemma AuthorContinuesIffGates(start: nat, s: Script, latest: map<Role, AgentRun>, newest: Role)
    requires start <= 2
    ensures var builder, end := BuilderOf(start, s, latest), AuthorEnds(start, s, latest, newest);
      && (end.flow.Continue? <==> AuthorGatesPass(start, s, builder)) && end.status != Completed
      && (end.flow.Continue? ==>
            && RunOf(end.latest, Builder) == builder && end.newestReview == Reviewer && Reviewer in end.latest
            && end.latest[Reviewer].findings == s.reviewer.output.findings
            && end.latest[Reviewer].accepted == Blocking(s.reviewer.output.findings)
            && end.latest[Reviewer].reviewTree == Some(s.auditTree))
  {
    var built := Built(s, latest, newest);
    BuiltIffGate(s, latest, newest);
    ReviewedIffGate(s, built.latest);
    ReviewedIffGate(s, latest);
    hide Built, Reviewed, BuildPasses, AuditPasses, RunOf, FreshRun, Blocking;
  }

  lemma ReviewCompletesIffGates(start: nat, s: Script, here: Ended)
    requires start <= 5 && here.status != Completed
    ensures var last := if RunOf(here.latest, Reviewer).accepted == []
                        then if start <= 2 then Reviewer else here.newestReview else PostRepairReviewer;
      ReviewEnds(start, s, here).status == Completed <==>
        ReviewGatesPass(start, s, RunOf(here.latest, Builder), RunOf(here.latest, Reviewer).accepted,
                        RunOf(here.latest, Repairer), RunOf(here.latest, last).reviewTree)
  {
    hide Accepts;
  }

  /** What a completed end records: the final evidence with the review that decided, and the reviews
      of this call as they were reported. */
  lemma CompletedEndRecords(start: nat, s: Script, here: Ended)
    requires start <= 5 && here.status != Completed && Reviewer in here.latest && Durable(start, here)
    requires start <= 2 ==> RecordsReview(here.latest, OutputOf(s.reviewer)) && here.latest[Reviewer].reviewTree.Some?
    requires ReviewEnds(start, s, here).status == Completed
    ensures var end := ReviewEnds(start, s, here);
      && end.flow.Return? && end.stage == FinalValidation
      && RecordsTrees(end.latest, s) && RecordsReports(start, end.latest, s)
  {
    hide Accepts, Blocking, ResolvesEachOnce;
  }

  /** A call that nothing stops completes the task exactly when all gates pass. */
  lemma CallCompletesIffGates(start: nat, s: Script, here: Ended)
    requires start <= 5 && here.status != Completed && Durable(start, here)
    ensures var end := CallEnds(start, s, here);
      && (end.status == Completed <==> AllGatesPass(start, s, here.latest, here.newestReview))
      && (end.status == Completed ==>
            end.flow.Return? && end.stage == FinalValidation
            && RecordsTrees(end.latest, s) && RecordsReports(start, end.latest, s))
  {
    var from := here;
    if start <= 2 {
      AuthorContinuesIffGates(start, s, here.latest, here.newestReview);
      from := AuthorEnds(start, s, here.latest, here.newestReview);
    }
    ReviewCompletesIffGates(start, s, from);
    if CallEnds(start, s, here).status == Completed {
      CompletedEndRecords(start, s, from);
    }
    hide AuthorEnds, ReviewEnds, ReviewGatesPass, AuthorGatesPass, RecordsTrees, RecordsReports, Blocking;
  }

  /** What comes before: attempts that are used up, a retry of a task that did not stop, failed
      pre-checks, or no workspace. */
  function NotBegun(retry: Option<Stage>, s: Script, exhausted: bool, here: Ended): Option<Ended> {
    if retry.None? && exhausted then
      Some(here.(flow := Return, status := if here.status == Failed then BlockedTask else here.status))
    else if retry.Some? && here.status !in {Failed, BlockedTask} then Some(here.(flow := Raise(RetryRefused)))
    else if !s.preChecks then Some(here.(flow := Return, status := BlockedTask))
    else if !s.workspace then
      var status := if retry.None? && here.status in {Backlog, Failed} then Ready else here.status;
      Some(here.(flow := Raise(ExternalError), status := status))
    else None
  }

  function TaskEnds(retry: Option<Stage>, s: Script, exhausted: bool, here: Ended): Ended {
    var early := NotBegun(retry, s, exhausted, here);
    if early.Some? then early.value else CallEnds(StartOf(retry), s, here)
  }

  ghost predicate AllLegal(moves: seq<(TaskStatus, TaskStatus)>) {
    moves == [] || (var n := |moves| - 1; AllLegal(moves[..n]) && Legal(moves[n].0, moves[n].1))
  }

  class Engine {
    // the task, and every status change made to it
    var status: TaskStatus
    ghost var moves: seq<(TaskStatus, TaskStatus)>
    var attempts: nat
    var maximumAttempts: nat
    // the run
    var record: Record
    ghost var ops: seq<Op>
    // durable checkpoints
    var latest: map<Role, AgentRun>
    var newestReview: Role
    var others: Others
    // some observer call found a record that did not permit what it asked for
    ghost var refused: bool

    constructor (status: TaskStatus, maximumAttempts: nat)
      requires status != Completed
      ensures Valid() && MovesLegal() && record == NEW_RECORD && this.status == status
      ensures attempts == 0 && this.maximumAttempts == maximumAttempts
    {
      this.status, moves, attempts, this.maximumAttempts := status, [], 0, maximumAttempts;
      record, ops := NEW_RECORD, [];
      latest, newestReview, others, refused := map[], Reviewer, QUIET, false;
    }

    /** The record is the outcome of lifecycle operations and the checkpoints fit its position. */
    ghost predicate Valid()
      reads this
    {
      && record == After(ops) && Checkpointed(Position(record), latest, newestReview)
      && (status == Completed ==> Certified(latest))
    }

    /** Where a phase or a call has come to. */
    ghost function Here(flow: Flow): Ended
      reads this
    {
      Ended(flow, status, record.stage, latest, newestReview)
    }

    /** The task is completed with the checkpoints of an end that was not stopped, even where the
        observer holds the very announcement of it. */
    ghost predicate Completes(end: Ended)
      reads this
    {
      status == Completed && end == Ended(Return, Completed, FinalValidation, latest, newestReview)
    }

    /** Every status change so far is in the task table. */
    ghost predicate MovesLegal()
      reads this`moves
    {
      AllLegal(moves)
    }

    // ------------------------------------------------------ lifecycle calls

    method Advance(target: Stage) returns (ok: bool)
      requires record == After(ops)
      modifies this`record, this`ops
      ensures record == After(ops)
      ensures ok <==> Permitted(old(record), target)
      ensures record == if ok then Moved(old(record), target) else old(record)
    {
      ok := Permitted(record, target);
      assert (ops + [Move(target)])[..|ops|] == ops;
      ops := ops + [Move(target)];
      if ok {
        record := Moved(record, target);
      }
    }

    method Retry(stage: Stage) returns (ok: bool)
      requires record == After(ops)
      modifies this`record, this`ops
      ensures record == After(ops)
      ensures ok <==> RetryPermitted(old(record), stage)
      ensures record == if ok then Retried(old(record), stage) else old(record)
    {
      ok := RetryPermitted(record, stage);
      assert (ops + [Op.Retry(stage)])[..|ops|] == ops;
      ops := ops + [Op.Retry(stage)];
      if ok {
        record := Retried(record, stage);
      }
    }

    method NoteRecovery(recovery: Recovery)
      requires record == After(ops)
      modifies this`record, this`ops
      ensures record == After(ops) && record == old(record).(recovery := Some(recovery))
    {
      assert (ops + [Note(recovery)])[..|ops|] == ops;
      ops := ops + [Note(recovery)];
      record := record.(recovery := Some(recovery));
    }

    // -------------------------------------------------------- other threads

    /** The run stands at the stage, perhaps stopped there by a request that is still standing. */
    ghost predicate Around(base: Stage)
      reads this
    {
      record == After(ops) && Stands(record, others, base)
    }

    /** One request of another thread. `retry` moves the run before it finds it active. */
    method Meet(event: Outside)
      requires record == After(ops)
      modifies this`record, this`ops, this`others
      ensures record == After(ops) && Position(record) == old(Position(record))
      ensures (record, others) == Met(old(record), old(others), event)
      ensures others.moments == old(others).moments
      ensures others.cancelRequested <==> old(others).cancelRequested || event.RequestCancel?
      ensures forall base :: old(Around(base)) ==> Around(base)
      ensures Working(old(record).stage) && old(others).pauseRequested && !others.cancelRequested ==>
        record == old(record) && others == old(others)
    {
      MetKeepsPosition(ops, others, event);
      ReachableRecordsAreSound(ops);
      forall base | Stands(record, others, base)
        ensures var (r', o') := Met(record, others, event); Stands(r', o', base)
      {
        MetKeepsStanding(ops, others, event, base);
      }
      hide After, Stands, Position, CountsAgree, OnTrunk;
      var done: bool;
      match event
      case Pause =>
        if !others.pauseRequested {
          others := others.(pauseRequested := true);
          done := Advance(Interrupted);
        }
      case Resume =>
        if record.interruptedFrom.Some? {
          done := Advance(record.interruptedFrom.value);
          if done {
            others := others.(pauseRequested := false);
          }
        }
      case RequestCancel =>
        others := others.(cancelRequested := true);
      case FinishCancel =>
        if others.cancelRequested {
          done := Advance(Cancelled);
        }
      case RetryActive(stage) =>
        done := Retry(stage);
    }

    method MeetAll(events: seq<Outside>)
      requires record == After(ops)
      modifies this`record, this`ops, this`others
      ensures record == After(ops) && Position(record) == old(Position(record))
      ensures (record, others) == MetAll(old(record), old(others), events)
      ensures others.moments == old(others).moments
      ensures others.cancelRequested <==> old(others).cancelRequested || RequestCancel in events
      ensures forall base :: old(Around(base)) ==> Around(base)
      ensures Working(old(record).stage) && old(others).pauseRequested && !others.cancelRequested ==>
        record == old(record) && others == old(others)
    {
      hide After, Around, Position, Met;
      for k := 0 to |events|
        invariant record == After(ops) && Position(record) == old(Position(record))
        invariant (record, others) == MetAll(old(record), old(others), events[..k])
        invariant others.moments == old(others).moments
        invariant others.cancelRequested <==> old(others).cancelRequested || RequestCancel in events[..k]
        invariant forall base :: old(Around(base)) ==> Around(base)
        invariant Working(old(record).stage) && old(others).pauseRequested && !others.cancelRequested ==>
          record == old(record) && others == old(others)
      {
        assert events[..k + 1] == events[..k] + [events[k]];
        assert events[..k + 1][..k] == events[..k];
        Meet(events[k]);
      }
      assert events[..|events|] == events;
    }

    /** The observer's loop on the two requests: it passes, is cancelled, or waits for good. A run
        that is retried while it is paused waits for good unless it is cancelled. */
    method Await(events: seq<Outside>) returns (h: Heard)
      requires record == After(ops) && Working(record.stage) && !TerminalStage(record.stage)
      modifies this`record, this`ops, this`others
      ensures Around(old(record).stage) && others.moments == old(others).moments
      ensures (record, others) == MetAll(old(record), old(others), events)
      ensures h == if others.cancelRequested then RunCancelled else if others.pauseRequested then RunWaits else Accepted
      ensures h.RunCancelled? <==> old(others).cancelRequested || RequestCancel in events
      ensures h.Accepted? ==> record.stage == old(record).stage && !others.cancelRequested && !others.pauseRequested
      ensures old(others).pauseRequested ==> !h.Accepted? && (h.RunWaits? ==> record == old(record) && others == old(others))
      ensures events == [] && !old(others).pauseRequested && !old(others).cancelRequested ==>
        h.Accepted? && others == old(others)
    {
      hide After;
      assert Around(record.stage);
      MeetAll(events);
      return if others.cancelRequested then RunCancelled else if others.pauseRequested then RunWaits else Accepted;
    }

    /** Retrying an active run that is paused clears the stop in its record and not the pause: from
        then on nothing but a cancellation lets the observer go, whatever else is requested. */
    method RetryWhilePaused(stage: Stage, more: seq<Outside>) returns (h: Heard)
      requires record == After(ops) && record.stage == stage && Retryable(stage)
      requires record.recovery.Some? ==> record.recovery.value.retrySafe && !record.recovery.value.processRunning
      requires !others.pauseRequested && !others.cancelRequested
      modifies this`record, this`ops, this`others
      ensures h == if RequestCancel in more then RunCancelled else RunWaits
      ensures RequestCancel !in more ==> record.stage == stage && others.pauseRequested
      ensures RequestCancel !in more ==> record == Retried(Moved(old(record), Interrupted), stage)
    {
      hide After;
      Meet(Pause);
      Meet(RetryActive(stage));
      ghost var retried := record;
      h := Await(more);
    }

    /** The moment of the next observer call. */
    method NextMoment() returns (m: Moment)
      modifies this`others
      ensures m == FirstMoment(old(others)) && others == NextMoments(old(others))
      ensures Gentle(old(others)) ==> Gentle(others) && m.read == m.detour == m.move == []
    {
      m := Moment([], [], [], []);
      if others.moments != [] {
        m := others.moments[0];
        others := others.(moments := others.moments[1..]);
      }
    }

    /** `_LifecycleObserver.__call__`. */
    method Observe(v: Signal) returns (h: Heard)
      requires record == After(ops) && Working(record.stage) && !TerminalStage(record.stage)
      modifies this`record, this`ops, this`others, this`refused
      ensures record == After(ops) && !h.StatusIllegal?
      ensures (h, record, others) == Observed(old(record), old(others), v)
      ensures refused == (old(refused) || Forbids(old(record), old(others), v))
      ensures refused == (old(refused) || h.StageForbidden?)
      ensures h.Accepted? ==> Delivered(old(record).stage, v) == Some(record.stage)
      ensures !h.Accepted? ==> HeldAt(old(record).stage, Position(record))
      ensures h.StageForbidden? && Gentle(old(others)) ==> Delivered(old(record).stage, v).None?
      ensures StageFor(v).None? ==> !h.StageForbidden? && Position(record) == old(record).stage
      ensures Gentle(old(others)) ==> Gentle(others)
      ensures old(others).pauseRequested ==> h.RunCancelled? || h.RunWaits?
      ensures old(others) == QUIET ==>
        !h.RunCancelled? && !h.RunWaits? && others == QUIET && (h.StageForbidden? ==> Delivered(old(record).stage, v).None?)
    {
      hide After, MetAll, Transited;
      var moment := NextMoment();
      h := Await(moment.before);
      var target := StageFor(v);
      if h.Accepted? && target.Some? {
        h := Transit(target.value, moment);
      }
      refused := refused || h.StageForbidden?;
    }

    /** The observer's transitions, with whatever happens between its checks and each of them. */
    method Transit(target: Stage, moment: Moment) returns (h: Heard)
      requires Around(record.stage) && Retryable(target)
      modifies this`record, this`ops, this`others
      ensures record == After(ops) && others.moments == old(others).moments
      ensures (h, record, others) == Transited(old(record), old(others), target, moment)
      ensures h in {Accepted, StageForbidden}
      ensures h.Accepted? ==> record.stage == target && Reaches(old(record).stage, target)
      ensures h.StageForbidden? ==> HeldAt(old(record).stage, Position(record))
      ensures moment.read == moment.detour == moment.move == [] ==>
        others == old(others) && (h.Accepted? <==> Reaches(old(record).stage, target))
    {
      hide After, MetAll, MovedTo;
      ghost var base := old(record).stage;
      MeetAll(moment.read);
      NoRequests(old(record), old(others));
      hide Around;
      if target.FinalValidation? && record.stage.PostRepairVerification? {
        AroundIsPosition(base);
        h := MoveTo(IndependentAudit, moment.detour, base);
        if !h.Accepted? {
          return;
        }
        h := MoveTo(target, moment.move, IndependentAudit);
      } else {
        h := MoveTo(target, moment.move, base);
      }
    }

    ghost method AroundIsPosition(base: Stage)
      requires Around(base)
      ensures Working(record.stage) ==> record.stage == base
    {
    }

    method MoveTo(target: Stage, events: seq<Outside>, ghost base: Stage) returns (h: Heard)
      requires Around(base) && Retryable(target)
      modifies this`record, this`ops, this`others
      ensures record == After(ops) && others.moments == old(others).moments
      ensures (h, record, others) == MovedTo(old(record), old(others), target, events)
      ensures h.Accepted? ==> record.stage == target && (target == base || Forward(base, target)) && Around(target)
      ensures !h.Accepted? ==> h.StageForbidden? && Position(record) == base
      ensures events == [] && old(record).stage == base ==> (h.Accepted? <==> target == base || Forward(base, target))
      ensures events == [] ==> others == old(others)
    {
      hide After, MetAll;
      MeetAll(events);
      NoRequests(old(record), old(others));
      var moved := Advance(target);
      return if moved then Accepted else StageForbidden;
    }

    // ---------------------------------------------------------- task calls

    ghost method NoteMove(from: TaskStatus, to: TaskStatus)
      modifies this`moves
      ensures moves == old(moves) + [(from, to)]
      ensures old(MovesLegal()) && Legal(from, to) ==> MovesLegal()
    {
      moves := moves + [(from, to)];
      assert moves[..|moves| - 1] == old(moves);
    }

    method SetStatus(target: TaskStatus) returns (h: Heard)
      requires record == After(ops) && Working(record.stage) && !TerminalStage(record.stage)
      modifies this`status, this`moves, this`record, this`ops, this`others, this`refused
      ensures old(MovesLegal()) ==> MovesLegal()
      ensures record == After(ops)
      ensures h.StatusIllegal? <==> !Legal(old(status), target)
      ensures h.StatusIllegal? ==> status == old(status) && moves == old(moves) && record == old(record)
      ensures refused == (old(refused) || h.StageForbidden?)
      ensures !h.StatusIllegal? ==> (h, record, others) == Observed(old(record), old(others), StatusSignal(target))
      ensures !h.StatusIllegal? ==> status == target && moves == old(moves) + [(old(status), target)]
      ensures h.Accepted? ==> Delivered(old(record).stage, StatusSignal(target)) == Some(record.stage)
      ensures !h.Accepted? ==> HeldAt(old(record).stage, Position(record))
      ensures h.StageForbidden? && Gentle(old(others)) ==> Delivered(old(record).stage, StatusSignal(target)).None?
      ensures Gentle(old(others)) ==> Gentle(others)
      ensures StageFor(StatusSignal(target)).None? ==> !h.StageForbidden? && Position(record) == old(record).stage
      ensures old(others) == QUIET ==>
        && !h.RunCancelled? && !h.RunWaits? && others == QUIET
        && (h.StageForbidden? ==> Delivered(old(record).stage, StatusSignal(target)).None?)
    {
      hide After, AllLegal;
      if !Legal(status, target) {
        return StatusIllegal;
      }
      NoteMove(status, target);
      status := target;
      h := Observe(StatusSignal(target));
    }

    method SaveRun(role: Role, run: AgentRun)
      modifies this`latest, this`newestReview
      ensures latest == old(latest)[role := run]
      ensures newestReview == if role.Reviewer? || role.PostRepairReviewer? then role else old(newestReview)
    {
      latest := latest[role := run];
      if role.Reviewer? || role.PostRepairReviewer? {
        newestReview := role;
      }
    }

    /** `_run_agent`: the runner saves a checkpoint before and after the agent's process. */
    method RunAgent(role: Role, reply: Reply) returns (run: AgentRun)
      modifies this`latest, this`newestReview
      ensures run == FreshRun(reply)
      ensures latest == old(latest)[role := run]
      ensures newestReview == if role.Reviewer? || role.PostRepairReviewer? then role else old(newestReview)
    {
      run := FreshRun(reply);
      SaveRun(role, run);
    }

    // --------------------------------------------------------------- phases

    /** The run is at a working stage that a phase may leave. */
    ghost predicate AtStage(p: Stage)
      reads this
    {
      record == After(ops) && record.stage == p && Retryable(p)
    }

    /** What every phase leaves behind, whether it continues, returns or raises. */
    ghost predicate Kept()
      reads this
    {
      && record == After(ops)
      && Checkpointed(Position(record), latest, newestReview)
      && !PastValidation(Position(record))
      && MovesLegal()
    }

    /** A status change that the run lifecycle does not follow. */
    method Announce(target: TaskStatus) returns (flow: Flow)
      requires Retryable(record.stage) && Kept() && Legal(status, target)
      requires StageFor(StatusSignal(target)).None?
      modifies this`status, this`moves, this`record, this`ops, this`others, this`refused
      ensures refused == (old(refused) || flow == Raise(ForbiddenStage))
      ensures Kept() && status == target
      ensures flow.Continue? || Held(flow)
      ensures Gentle(old(others)) ==> Gentle(others)
      ensures flow.Continue? ==> record.stage == old(record).stage
      ensures old(others) == QUIET ==> flow.Continue? && others == QUIET
    {
      hide After, AllLegal, Audited, RepairsReviewed, Gentle, Observed;
      var heard := SetStatus(target);
      return FlowOf(heard);
    }

    /** A final status of this call, from a status that allows it. */
    method Stop(target: TaskStatus) returns (flow: Flow)
      requires Retryable(record.stage) && Kept() && Legal(status, target)
      requires StageFor(StatusSignal(target)).None?
      modifies this`status, this`moves, this`record, this`ops, this`others, this`refused
      ensures refused == (old(refused) || flow == Raise(ForbiddenStage))
      ensures Kept() && status == target
      ensures flow.Return? || Held(flow)
      ensures Gentle(old(others)) ==> Gentle(others)
      ensures flow.Return? ==> record.stage == old(record).stage
      ensures old(others) == QUIET ==> flow.Return? && others == QUIET
    {
      hide After, AllLegal, Audited, RepairsReviewed, Gentle, Observed;
      flow := Announce(target);
      return if flow.Continue? then Return else flow;
    }

    /** Status change, then the matching stage signal. */
    method Enter(target: TaskStatus, v: Signal) returns (flow: Flow)
      requires record == After(ops) && Working(record.stage) && !TerminalStage(record.stage)
      requires Checkpointed(Position(record), latest, newestReview) && MovesLegal()
      requires var p := Delivered(record.stage, StatusSignal(target));
        && StageFor(StatusSignal(target)).Some?
        && p.Some? && Retryable(p.value) && Delivered(p.value, v) == p && Checkpointed(p.value, latest, newestReview)
      modifies this`status, this`moves, this`record, this`ops, this`others, this`refused
      ensures refused == (old(refused) || flow == Raise(ForbiddenStage))
      ensures Kept()
      ensures flow.Continue? || Held(flow) || flow in {Raise(IllegalStatus), Raise(ForbiddenStage)}
      ensures flow == Raise(ForbiddenStage) ==> !Gentle(old(others))
      ensures Gentle(old(others)) ==> Gentle(others)
      ensures flow == Raise(IllegalStatus) <==> !Legal(old(status), target)
      ensures Legal(old(status), target) && Forbids(old(record), old(others), StatusSignal(target)) ==>
        flow == Raise(ForbiddenStage) && record == Observed(old(record), old(others), StatusSignal(target)).1
      ensures flow == Raise(IllegalStatus) ==> status == old(status)
      ensures flow != Raise(IllegalStatus) ==> status == target
      ensures flow.Continue? ==> Delivered(old(record).stage, StatusSignal(target)) == Some(record.stage)
      ensures old(others) == QUIET ==> others == QUIET && (flow.Continue? <==> Legal(old(status), target))
    {
      hide After, AllLegal, Checkpointed, Gentle, Observed, Delivered, Reaches, StageFor;
      EntryIsBeforeApproval(record.stage, StatusSignal(target));
      ghost var stage := record.stage;
      var heard := SetStatus(target);
      if heard.Accepted? {
        stage := record.stage;
        heard := Observe(v);
      }
      if !heard.Accepted? && !heard.StatusIllegal? {
        HeldIsCheckpointed(stage, Position(record), latest, newestReview);
      }
      flow := FlowOf(heard);
    }

    method Build(script: Script) returns (flow: Flow)
      requires record == After(ops) && (record.stage.WorktreePreparation? || record.stage.AuthorExecution?) && MovesLegal()
      modifies this`status, this`moves, this`record, this`ops, this`others, this`refused, this`latest, this`newestReview
      ensures refused == (old(refused) || flow == Raise(ForbiddenStage))
      ensures Kept()
      ensures flow == Raise(ForbiddenStage) ==> !Gentle(old(others))
      ensures Gentle(old(others)) ==> Gentle(others)
      ensures Legal(old(status), Building) && Forbids(old(record), old(others), StatusSignal(Building)) ==>
        flow == Raise(ForbiddenStage) && record == Observed(old(record), old(others), StatusSignal(Building)).1
      ensures flow == Raise(IllegalStatus) <==> !Legal(old(status), Building)
      ensures flow == Raise(IllegalStatus) ==> status == old(status) && latest == old(latest)
      ensures flow != Raise(IllegalStatus) ==> status in {Building, Failed}
      ensures flow.Continue? ==> AtStage(AuthorExecution) && status == Building && Builder in latest
      ensures Stops(flow) || Here(flow) == Built(script, old(latest), old(newestReview))
      ensures old(others) == QUIET ==> others == QUIET && (flow == Raise(IllegalStatus) || !Stops(flow))
    {
      hide After, AllLegal, RepairsReviewed, Gentle, Observed;
      flow := Enter(Building, StatusSignal(Building));
      if !flow.Continue? {
        return;
      }
      var run := RunAgent(Builder, script.builder);
      if script.builder.AgentRaises? {
        return Raise(ExternalError);
      }
      if !script.builder.succeeded {
        flow := Stop(Failed);
        return;
      }
      return if script.buildInScope then Continue else Raise(ExternalError);
    }

    method SelfVerify(script: Script) returns (flow: Flow)
      requires Kept() && Builder in latest
      requires AtStage(AuthorExecution) || AtStage(AuthorSelfVerification)
      requires Legal(status, SelfVerifying)
      modifies this`status, this`moves, this`record, this`ops, this`others, this`refused
      ensures refused == (old(refused) || flow == Raise(ForbiddenStage))
      ensures Kept()
      ensures flow != Raise(IllegalStatus)
      ensures flow == Raise(ForbiddenStage) ==> !Gentle(old(others))
      ensures Gentle(old(others)) ==> Gentle(others)
      ensures status in {SelfVerifying, Failed}
      ensures flow.Continue? ==> AtStage(AuthorSelfVerification) && status == SelfVerifying
      ensures Stops(flow) || Here(flow) == SelfVerified(script, latest, newestReview)
      ensures old(others) == QUIET ==> others == QUIET && !Stops(flow)
    {
      hide After, AllLegal, RepairsReviewed, Gentle, Observed;
      flow := Enter(SelfVerifying, StatusSignal(SelfVerifying));
      if !flow.Continue? {
        return;
      }
      match script.selfVerification
      case VerificationRaises => return Raise(ExternalError);
      case DoesNotPass => flow := Stop(Failed);
      case Passes => return Continue;
    }

    method Audit(script: Script) returns (flow: Flow)
      requires Kept() && Builder in latest
      requires AtStage(AuthorSelfVerification) || AtStage(IndependentAudit)
      requires Legal(status, IndependentAuditing)
      modifies this`status, this`moves, this`record, this`ops, this`others, this`refused, this`latest, this`newestReview
      ensures refused == (old(refused) || flow == Raise(ForbiddenStage))
      ensures Kept()
      ensures flow != Raise(IllegalStatus)
      ensures flow == Raise(ForbiddenStage) ==> !Gentle(old(others))
      ensures Gentle(old(others)) ==> Gentle(others)
      ensures status in {IndependentAuditing, Failed, BlockedTask}
      ensures flow.Continue? ==> AtStage(IndependentAudit) && status == IndependentAuditing
      ensures flow.Continue? ==> Audited(latest) && newestReview == Reviewer
      ensures Stops(flow) || Here(flow) == Reviewed(script, old(latest))
      ensures old(others) == QUIET ==> others == QUIET && !Stops(flow)
    {
      hide After, AllLegal, ResolvesEachOnce, Gentle, Observed;
      var run := latest[Builder];
      flow := Enter(IndependentAuditing, ReviewingSignal);
      if !flow.Continue? {
        return;
      }
      var review := RunAgent(Reviewer, script.reviewer);
      if script.reviewer.AgentRaises? {
        return Raise(ExternalError);
      }
      if !script.reviewer.succeeded {
        flow := Stop(Failed);
        return;
      }
      flow := JudgeReview(run, review, script);
    }

    /** Independence and findings of the review just run. */
    method JudgeReview(run: AgentRun, ran: AgentRun, script: Script) returns (flow: Flow)
      requires Kept() && Builder in latest && Reviewer in latest && run == latest[Builder]
      requires ran == FreshRun(script.reviewer) && Succeeds(script.reviewer) && newestReview == Reviewer
      requires AtStage(IndependentAudit) && status == IndependentAuditing
      modifies this`status, this`moves, this`record, this`ops, this`others, this`refused, this`latest, this`newestReview
      ensures refused == (old(refused) || flow == Raise(ForbiddenStage))
      ensures Kept()
      ensures flow != Raise(IllegalStatus) && flow != Raise(ForbiddenStage)
      ensures Gentle(old(others)) ==> Gentle(others)
      ensures status in {IndependentAuditing, Failed, BlockedTask}
      ensures flow.Continue? ==> AtStage(IndependentAudit) && status == IndependentAuditing
      ensures flow.Continue? ==> Audited(latest) && newestReview == Reviewer
      ensures Stops(flow) || Here(flow) == ReviewJudged(ran, script, script.reviewer.output, old(latest))
      ensures old(others) == QUIET ==> others == QUIET && !Stops(flow)
    {
      hide After, AllLegal, ResolvesEachOnce, Gentle, Observed;
      if !Independent(run, ran, script.highRisk) {
        flow := Stop(BlockedTask);
        return;
      }
      if script.reviewer.output.Unreadable? {
        flow := Stop(Failed);
        return;
      }
      var findings := script.reviewer.output.findings;
      var review := ran.(findings := findings, accepted := Blocking(findings), reviewTree := Some(script.auditTree));
      SaveRun(Reviewer, review);
      return Continue;
    }

    method Repair(script: Script) returns (flow: Flow)
      requires Kept() && Audited(latest) && latest[Reviewer].accepted != []
      requires AtStage(IndependentAudit) || AtStage(RepairExecution)
      requires Legal(status, Repairing)
      modifies this`status, this`moves, this`record, this`ops, this`others, this`refused, this`latest, this`newestReview
      ensures refused == (old(refused) || flow == Raise(ForbiddenStage))
      ensures Kept()
      ensures flow != Raise(IllegalStatus)
      ensures flow == Raise(ForbiddenStage) ==> !Gentle(old(others))
      ensures Gentle(old(others)) ==> Gentle(others)
      ensures status in {Repairing, BlockedTask}
      ensures flow.Continue? ==> AtStage(RepairExecution) && status == Repairing
      ensures flow.Continue? ==> Audited(latest) && Repairer in latest && latest[Reviewer] == old(latest)[Reviewer]
      ensures Stops(flow) || Here(flow) == Repaired(script, old(latest), old(newestReview))
      ensures old(others) == QUIET ==> others == QUIET && !Stops(flow)
    {
      hide After, AllLegal, RepairsReviewed, Certified, Gentle, Observed, Blocking;
      var review := latest[Reviewer];
      flow := Enter(Repairing, StatusSignal(Repairing));
      if !flow.Continue? {
        return;
      }
      var repair := RunAgent(Repairer, script.repairer);
      flow := JudgeRepair(review, script);
    }

    /** The repairer has to succeed and to change the workspace. */
    method JudgeRepair(review: AgentRun, script: Script) returns (flow: Flow)
      requires Kept() && Audited(latest) && latest[Reviewer] == review && Repairer in latest && review.accepted != []
      requires AtStage(RepairExecution) && status == Repairing
      modifies this`status, this`moves, this`record, this`ops, this`others, this`refused, this`latest, this`newestReview
      ensures refused == (old(refused) || flow == Raise(ForbiddenStage))
      ensures Kept()
      ensures flow != Raise(IllegalStatus) && flow != Raise(ForbiddenStage)
      ensures Gentle(old(others)) ==> Gentle(others)
      ensures status in {Repairing, BlockedTask}
      ensures flow.Continue? ==> AtStage(RepairExecution) && status == Repairing
      ensures latest == old(latest)
      ensures Stops(flow) || Here(flow) ==
        if script.repairer.AgentRaises? then old(Here(Raise(ExternalError)))
        else if !script.repairer.succeeded || script.afterRepair == script.beforeRepair then
          Ended(Return, BlockedTask, RepairExecution, latest, old(newestReview))
        else Ended(Continue, Repairing, RepairExecution, latest, Reviewer)
      ensures old(others) == QUIET ==> others == QUIET && !Stops(flow)
    {
      hide After, AllLegal, RepairsReviewed, Gentle, Observed, Blocking;
      if script.repairer.AgentRaises? {
        return Raise(ExternalError);
      }
      if !script.repairer.succeeded || script.afterRepair == script.beforeRepair {
        flow := Stop(BlockedTask);
        return;
      }
      SaveRun(Reviewer, review);
      assert latest == old(latest);
      return Continue;
    }

    /** The second review has no status of its own. */
    method EnterPostReview(retriedHere: bool) returns (flow: Flow)
      requires Kept() && Audited(latest) && latest[Reviewer].accepted != [] && Repairer in latest
      requires if retriedHere then AtStage(PostRepairVerification) else AtStage(RepairExecution)
      requires if retriedHere then Legal(status, Repairing) else status == Repairing
      modifies this`status, this`moves, this`record, this`ops, this`others, this`refused
      ensures refused == (old(refused) || flow == Raise(ForbiddenStage))
      ensures Kept() && status == Repairing
      ensures flow.Continue? || Held(flow) || flow == Raise(ForbiddenStage)
      ensures flow == Raise(ForbiddenStage) ==> !Gentle(old(others))
      ensures Gentle(old(others)) ==> Gentle(others)
      ensures flow.Continue? ==> AtStage(PostRepairVerification)
      ensures old(others) == QUIET ==> others == QUIET && flow.Continue?
    {
      hide After, AllLegal, ResolvesEachOnce, Certified, Gentle, Observed;
      if retriedHere {
        // Assigned directly: announcing it would ask the run to go back to repair_execution.
        NoteMove(status, Repairing);
        status := Repairing;
      }
      var heard := Observe(PostRepairReviewingSignal);
      flow := FlowOf(heard);
    }

    method ReviewRepairs(script: Script, retriedHere: bool) returns (flow: Flow)
      requires Kept() && Audited(latest) && Repairer in latest && latest[Reviewer].accepted != []
      requires if retriedHere then AtStage(PostRepairVerification) else AtStage(RepairExecution)
      requires if retriedHere then Legal(status, Repairing) else status == Repairing
      modifies this`status, this`moves, this`record, this`ops, this`others, this`refused, this`latest, this`newestReview
      ensures refused == (old(refused) || flow == Raise(ForbiddenStage))
      ensures Kept()
      ensures flow != Raise(IllegalStatus)
      ensures flow == Raise(ForbiddenStage) ==> !Gentle(old(others))
      ensures Gentle(old(others)) ==> Gentle(others)
      ensures status in {Repairing, Failed, BlockedTask}
      ensures flow.Continue? ==> AtStage(PostRepairVerification) && status == Repairing
      ensures flow.Continue? ==> Audited(latest) && RepairsReviewed(latest) && latest[Reviewer] == old(latest)[Reviewer]
      ensures Stops(flow) || Here(flow) == PostReviewed(script, old(latest))
      ensures old(others) == QUIET ==> others == QUIET && !Stops(flow)
    {
      hide After, AllLegal, ResolvesEachOnce, Certified, Accepts, Gentle, Observed;
      flow := EnterPostReview(retriedHere);
      if !flow.Continue? {
        return;
      }
      var post := RunAgent(PostRepairReviewer, script.postReviewer);
      if script.postReviewer.AgentRaises? {
        return Raise(ExternalError);
      }
      if !script.postReviewer.succeeded {
        flow := Stop(Failed);
        return;
      }
      flow := JudgePostReview(post, script.postReviewer.output, script.postReviewTree);
    }

    /** Acceptance of the post-repair review just run. */
    method JudgePostReview(post: AgentRun, output: Output, tree: Id) returns (flow: Flow)
      requires Kept() && Audited(latest) && Repairer in latest && latest[Reviewer].accepted != []
      requires AtStage(PostRepairVerification) && status == Repairing && newestReview == PostRepairReviewer
      modifies this`status, this`moves, this`record, this`ops, this`others, this`refused, this`latest, this`newestReview
      ensures refused == (old(refused) || flow == Raise(ForbiddenStage))
      ensures Kept()
      ensures flow != Raise(IllegalStatus)
      ensures flow == Raise(ForbiddenStage) ==> !Gentle(old(others))
      ensures Gentle(old(others)) ==> Gentle(others)
      ensures status in {Repairing, Failed, BlockedTask}
      ensures flow.Continue? ==> AtStage(PostRepairVerification) && status == Repairing
      ensures flow.Continue? ==> Audited(latest) && RepairsReviewed(latest) && latest[Reviewer] == old(latest)[Reviewer]
      ensures Stops(flow) || Here(flow) == PostJudged(post, output, tree, old(latest))
      ensures old(others) == QUIET ==> others == QUIET && !Stops(flow)
    {
      hide After, AllLegal, ResolvesEachOnce, Gentle, Observed, Accepts, Blocking;
      if post.instance in {latest[Builder].instance, latest[Repairer].instance} {
        flow := Stop(BlockedTask);
        return;
      }
      if output.Unreadable? || !Accepts(output.findings, output.dispositions, latest[Reviewer].accepted) {
        flow := Stop(Failed);
        return;
      }
      AcceptsIffEachResolvedOnce(output.findings, output.dispositions, latest[Reviewer].accepted);
      SaveRun(PostRepairReviewer,
              post.(findings := output.findings, dispositions := output.dispositions, reviewTree := Some(tree)));
      return Continue;
    }

    method Finish(script: Script, last: Role) returns (flow: Flow)
      requires Kept() && Audited(latest)
      requires if latest[Reviewer].accepted == [] then last == newestReview == Reviewer
               else last == PostRepairReviewer && RepairsReviewed(latest)
      requires AtStage(IndependentAudit) || AtStage(PostRepairVerification) || AtStage(FinalValidation)
      requires Legal(status, FinalVerify)
      modifies this`status, this`moves, this`record, this`ops, this`others, this`refused, this`latest, this`newestReview
      ensures refused == (old(refused) || flow == Raise(ForbiddenStage))
      ensures Kept()
      ensures flow != Raise(IllegalStatus) && !flow.Continue?
      ensures flow == Raise(ForbiddenStage) ==> !Gentle(old(others))
      ensures Gentle(old(others)) ==> Gentle(others)
      ensures status == Completed ==> Certified(latest)
      ensures status == Completed ==> Completes(Finished(script, old(latest), old(newestReview), last))
      ensures Stops(flow) || Here(flow) == Finished(script, old(latest), old(newestReview), last)
      ensures old(others) == QUIET ==> others == QUIET && !Stops(flow)
    {
      hide After, AllLegal, ResolvesEachOnce, Gentle, Observed, Certified, Blocking;
      flow := Enter(FinalVerify, FinalVerifyingSignal);
      if !flow.Continue? {
        return;
      }
      if !script.finalInScope {
        return Raise(ExternalError);
      }
      var review := latest[last];
      if review.reviewTree != None && Some(script.finalTree) != review.reviewTree {
        flow := Stop(BlockedTask);
        return;
      }
      if script.finalVerification.VerificationRaises? {
        return Raise(ExternalError);
      }
      flow := Conclude(last, review, script.finalVerification.Passes?, script.evidenceTree);
    }

    /** Records the final evidence and either fails the task or approves and completes it. */
    method Conclude(last: Role, review: AgentRun, passed: bool, tree: Id) returns (flow: Flow)
      requires Kept() && Audited(latest) && AtStage(FinalValidation) && status == FinalVerify
      requires last == if latest[Reviewer].accepted == [] then Reviewer else PostRepairReviewer
      requires latest[Reviewer].accepted != [] ==> RepairsReviewed(latest)
      requires latest[last] == review && review.reviewTree.Some?
      modifies this`status, this`moves, this`record, this`ops, this`others, this`refused, this`latest, this`newestReview
      ensures refused == (old(refused) || flow == Raise(ForbiddenStage))
      ensures Kept()
      ensures flow.Return? || Held(flow)
      ensures Gentle(old(others)) ==> Gentle(others)
      ensures status in {Approved, Completed, Failed}
      ensures latest == old(latest)[last := review.(finalVerdict := Some(Verification(passed, tree)))]
      ensures Stops(flow) || Here(flow) == Ended(Return, if passed then Completed else Failed, FinalValidation, latest, last)
      ensures status == Completed ==> passed && newestReview == last
      ensures old(others) == QUIET ==> others == QUIET && !Stops(flow)
      ensures status == Completed ==> Certified(latest)
    {
      hide After, AllLegal, ResolvesEachOnce, Gentle, Observed;
      var evidenced := review.(finalVerdict := Some(Verification(passed, tree)));
      VerdictKeepsReviews(latest, last, Verification(passed, tree));
      SaveRun(last, evidenced);
      if !passed {
        flow := Stop(Failed);
        return;
      }
      flow := Announce(Approved);
      if !flow.Continue? {
        return;
      }
      assert latest[last := evidenced] == latest;
      SaveRun(last, evidenced);
      flow := Stop(Completed);
    }

    /** Everything in `run_task` before the workspace is used. */
    method Begin(retry: Option<Stage>, script: Script) returns (flow: Flow)
      requires Kept() && Working(record.stage) && !TerminalStage(record.stage)
      modifies this`status, this`moves, this`attempts, this`record, this`ops, this`others, this`refused
      ensures refused == (old(refused) || flow == Raise(ForbiddenStage))
      ensures Kept() && maximumAttempts == old(maximumAttempts)
      ensures attempts == old(attempts)
        || (retry.None? && old(attempts) < maximumAttempts && attempts == old(attempts) + 1)
      ensures flow.Continue? && retry.None? ==> attempts == old(attempts) + 1
      ensures flow != Raise(ForbiddenStage) && (Gentle(old(others)) ==> Gentle(others))
      ensures flow == Raise(IllegalStatus) <==>
        !RefusedAtOnce(retry, old(status), old(attempts), maximumAttempts)
        && !script.preChecks && old(status) in UnblockableStarts(retry)
      ensures status == Completed ==> old(status) == Completed
      ensures (old(others) == QUIET || retry.Some? || old(status) !in {Backlog, Failed}) ==>
        (flow.Continue? <==>
           !RefusedAtOnce(retry, old(status), old(attempts), maximumAttempts) && script.preChecks && script.workspace)
      ensures Stops(flow) || flow.Continue? ||
        Some(Here(flow)) == NotBegun(retry, script, old(attempts) >= maximumAttempts, old(Here(Continue)))
      ensures flow.Continue? ==> NotBegun(retry, script, old(attempts) >= maximumAttempts, old(Here(Continue))).None?
      ensures !Stops(flow) ==> attempts == old(attempts) + if retry.None? && old(attempts) < maximumAttempts then 1 else 0
      ensures old(others) == QUIET ==> others == QUIET && (flow == Raise(IllegalStatus) || !Stops(flow))
      ensures flow.Continue? && (retry.Some? || old(status) !in {Backlog, Failed}) ==>
        record == old(record) && others == old(others)
      ensures flow.Continue? ==>
        && script.preChecks && script.workspace && record.stage == old(record).stage
        && !RefusedAtOnce(retry, old(status), old(attempts), maximumAttempts)
        && (retry.Some? ==> status == old(status) && status in {Failed, BlockedTask})
        && (retry.None? ==> status == (if old(status) in {Backlog, Failed} then Ready else old(status)))
    {
      hide After, AllLegal, Audited, RepairsReviewed, Certified, Gentle, Observed;
      if retry.None? {
        if attempts >= maximumAttempts {
          if status == Failed {
            var heard := SetStatus(BlockedTask);
            return if heard.Accepted? then Return else FlowOf(heard);
          }
          return Return;
        }
        if status in {Backlog, Failed} {
          var heard := SetStatus(Ready);
          if !heard.Accepted? {
            return FlowOf(heard);
          }
        }
        attempts := attempts + 1;
      } else if status !in {Failed, BlockedTask} {
        return Raise(RetryRefused);
      }
      if !script.preChecks {
        var heard := SetStatus(BlockedTask);
        return if heard.Accepted? then Return else FlowOf(heard);
      }
      return if script.workspace then Continue else Raise(ExternalError);
    }

    /** `run_task`, fresh or from a retried stage, whatever the agents, the verifier and the
        other threads do. */
    method RunTask(retry: Option<Stage>, script: Script) returns (flow: Flow)
      requires Valid() && MovesLegal()
      requires if retry.None? then record.stage == WorktreePreparation
               else record.stage == retry.value && Retryable(retry.value)
      modifies this
      ensures Valid() && Kept()
      ensures !flow.Continue?
      ensures maximumAttempts == old(maximumAttempts)
      ensures attempts == old(attempts)
        || (retry.None? && old(attempts) < maximumAttempts && attempts == old(attempts) + 1)
      ensures !Stops(flow) ==>
        && Here(flow) == TaskEnds(retry, script, old(attempts) >= maximumAttempts, old(Here(Continue)))
        && attempts == old(attempts) + if retry.None? && old(attempts) < maximumAttempts then 1 else 0
      ensures flow == Raise(ForbiddenStage) <==> refused
      ensures flow == Raise(ForbiddenStage) ==> !Gentle(old(others))
      ensures (
        && retry.None? && old(status) !in {Backlog, Failed}
        && StartsAgent(retry, old(status), old(attempts), old(maximumAttempts), script)
        && Forbids(old(record), old(others), StatusSignal(Building))) ==>
        flow == Raise(ForbiddenStage) && record == Observed(old(record), old(others), StatusSignal(Building)).1
      ensures flow == Raise(IllegalStatus) <==>
        StartsIllegally(retry, old(status), old(attempts) >= old(maximumAttempts), script)
      ensures status == Completed && old(status) != Completed && flow.Return? ==> record.stage == FinalValidation
      ensures status == Completed && old(status) != Completed ==>
        RecordsTrees(latest, script) && (OnReviewedTree(latest) <==> script.evidenceTree == script.finalTree)
      ensures status == Completed ==> Vouched(latest)
      ensures status == Completed && old(status) != Completed ==>
        && StartsAgent(retry, old(status), old(attempts), old(maximumAttempts), script)
        && AllGatesPass(StartOf(retry), script, old(latest), old(newestReview))
        && (retry.None? ==> FreshCallPasses(script)) && RecordsReports(StartOf(retry), latest, script)
      ensures old(others) == QUIET && old(status) != Completed ==>
        (status == Completed <==>
           && StartsAgent(retry, old(status), old(attempts), old(maximumAttempts), script)
           && if retry.None? then FreshCallPasses(script)
              else AllGatesPass(StartOf(retry), script, old(latest), old(newestReview)))
      ensures old(others) == QUIET && old(status) != Completed && status == Completed ==> flow.Return?
      ensures old(others) == QUIET ==> others == QUIET && (flow == Raise(IllegalStatus) || !Stops(flow))
    {
      hide After, AllLegal, Audited, RepairsReviewed, Certified, Gentle, Observed, Forbids, AllGatesPass, RecordsTrees;
      hide Vouched, FreshCallPasses, RecordsReports, Durable, Checkpointed, CallEnds, NotBegun, Kept, MovesLegal, OnReviewedTree;
      ghost var here := Here(Continue);
      CheckpointsAreDurable(retry, here);
      if status != Completed {
        CallCompletesIffGates(StartOf(retry), script, here);
        StartedTaskEnds(retry, script, attempts, maximumAttempts, here);
      }
      FreshGates(script, latest, newestReview);
      hide StartsAgent, StartsIllegally, StartOf, TaskEnds;
      flow := Attempt(retry, script);
      if status == Completed {
        CertifiedIsVouched(latest);
        if old(status) != Completed {
          TreesAgree(latest, script);
        }
      }
    }

    /** The call itself. */
    method Attempt(retry: Option<Stage>, script: Script) returns (flow: Flow)
      requires Valid() && MovesLegal()
      requires if retry.None? then record.stage == WorktreePreparation
               else record.stage == retry.value && Retryable(retry.value)
      modifies this
      ensures Valid() && Kept()
      ensures !flow.Continue?
      ensures maximumAttempts == old(maximumAttempts)
      ensures attempts == old(attempts)
        || (retry.None? && old(attempts) < maximumAttempts && attempts == old(attempts) + 1)
      ensures !Stops(flow) ==>
        && Here(flow) == TaskEnds(retry, script, old(attempts) >= maximumAttempts, old(Here(Continue)))
        && attempts == old(attempts) + if retry.None? && old(attempts) < maximumAttempts then 1 else 0
      ensures flow == Raise(ForbiddenStage) <==> refused
      ensures flow == Raise(ForbiddenStage) ==> !Gentle(old(others))
      ensures (
        && retry.None? && old(status) !in {Backlog, Failed}
        && StartsAgent(retry, old(status), old(attempts), old(maximumAttempts), script)
        && Forbids(old(record), old(others), StatusSignal(Building))) ==>
        flow == Raise(ForbiddenStage) && record == Observed(old(record), old(others), StatusSignal(Building)).1
      ensures flow == Raise(IllegalStatus) <==>
        StartsIllegally(retry, old(status), old(attempts) >= old(maximumAttempts), script)
      ensures status == Completed && old(status) != Completed ==>
        && StartsAgent(retry, old(status), old(attempts), old(maximumAttempts), script)
        && Completes(CallEnds(StartOf(retry), script, old(Here(Continue))))
      ensures old(others) == QUIET ==> others == QUIET && (flow == Raise(IllegalStatus) || !Stops(flow))
    {
      hide After, AllLegal, Audited, RepairsReviewed, Certified, Gentle, Observed, Forbids, AuthorEnds, ReviewEnds, NotBegun;
      hide CallEnds, Checkpointed, MovesLegal, Completes;
      refused := false;
      flow := Begin(retry, script);
      if !flow.Continue? {
        return;
      }
      FreshCallEnds(script, old(Here(Continue)), status);
      flow := Work(StartOf(retry), script);
    }

    /** `run_task` behind its pre-checks. */
    method Work(start: nat, script: Script) returns (flow: Flow)
      requires Kept() && start <= 5
      requires if start == 0 then record.stage.WorktreePreparation? || record.stage.AuthorExecution?
               else Ordinal(record.stage) == start && Retryable(record.stage) && status in {Failed, BlockedTask}
      modifies this`status, this`moves, this`record, this`ops, this`others, this`refused, this`latest, this`newestReview
      ensures Kept() && !flow.Continue?
      ensures refused == (old(refused) || flow == Raise(ForbiddenStage))
      ensures flow == Raise(ForbiddenStage) ==> !Gentle(old(others))
      ensures start == 0 && Legal(old(status), Building) && Forbids(old(record), old(others), StatusSignal(Building)) ==>
        flow == Raise(ForbiddenStage) && record == Observed(old(record), old(others), StatusSignal(Building)).1
      ensures flow == Raise(IllegalStatus) <==> start == 0 && !Legal(old(status), Building)
      ensures status == Completed && old(status) == Completed && latest != old(latest) ==> Certified(latest)
      ensures status == Completed && old(status) != Completed ==>
        && Certified(latest) && (start == 0 ==> Legal(old(status), Building))
        && Completes(CallEnds(start, script, old(Here(Continue))))
      ensures Stops(flow) || Here(flow) == CallEnds(start, script, old(Here(Continue)))
      ensures old(others) == QUIET ==> others == QUIET && (flow == Raise(IllegalStatus) || !Stops(flow))
    {
      hide After, AllLegal, RepairsReviewed, Certified, Gentle, Observed, Forbids, Delivered, Reaches, Blocking;
      hide AuthorEnds, ReviewEnds, Completes;
      if start <= 2 {
        flow := ThroughAudit(start, script);
        if !flow.Continue? {
          return;
        }
      }
      flow := FromReview(start, script);
    }

    /** The author's stages and the audit. */
    method ThroughAudit(start: nat, script: Script) returns (flow: Flow)
      requires Kept() && start <= 2
      requires if start == 0 then record.stage.WorktreePreparation? || record.stage.AuthorExecution?
               else Ordinal(record.stage) == start && status in {Failed, BlockedTask}
      modifies this`status, this`moves, this`record, this`ops, this`others, this`refused, this`latest, this`newestReview
      ensures refused == (old(refused) || flow == Raise(ForbiddenStage))
      ensures Kept()
      ensures flow == Raise(ForbiddenStage) ==> !Gentle(old(others))
      ensures Gentle(old(others)) ==> Gentle(others)
      ensures (status == Completed ==> old(status) == Completed && latest == old(latest))
      ensures start == 0 && Legal(old(status), Building) && Forbids(old(record), old(others), StatusSignal(Building)) ==>
        flow == Raise(ForbiddenStage) && record == Observed(old(record), old(others), StatusSignal(Building)).1
      ensures flow == Raise(IllegalStatus) <==> start == 0 && !Legal(old(status), Building)
      ensures flow.Continue? ==> AtStage(IndependentAudit) && status == IndependentAuditing
      ensures flow.Continue? ==> Audited(latest) && newestReview == Reviewer
      ensures Stops(flow) || Here(flow) == AuthorEnds(start, script, old(latest), old(newestReview))
      ensures old(others) == QUIET ==> others == QUIET && (flow == Raise(IllegalStatus) || !Stops(flow))
    {
      hide After, AllLegal, RepairsReviewed, Gentle, Observed, Built, SelfVerified, Reviewed;
      if start <= 0 {
        flow := Build(script);
        if !flow.Continue? {
          return;
        }
      }
      if start <= 1 {
        flow := SelfVerify(script);
        if !flow.Continue? {
          return;
        }
      }
      flow := Audit(script);
    }

    /** The repair and the second review, from the one the call starts at. */
    method RepairAndReview(start: nat, script: Script) returns (flow: Flow)
      requires Kept() && start <= 4 && Audited(latest) && latest[Reviewer].accepted != []
      requires if start <= 2 then AtStage(IndependentAudit) && status == IndependentAuditing
               else Ordinal(record.stage) == start && Retryable(record.stage) && status in {Failed, BlockedTask}
      modifies this`status, this`moves, this`record, this`ops, this`others, this`refused, this`latest, this`newestReview
      ensures refused == (old(refused) || flow == Raise(ForbiddenStage))
      ensures Kept()
      ensures flow != Raise(IllegalStatus)
      ensures flow == Raise(ForbiddenStage) ==> !Gentle(old(others))
      ensures Gentle(old(others)) ==> Gentle(others)
      ensures status in {Repairing, Failed, BlockedTask}
      ensures flow.Continue? ==> AtStage(PostRepairVerification) && status == Repairing
      ensures flow.Continue? ==> Audited(latest) && RepairsReviewed(latest) && latest[Reviewer] == old(latest)[Reviewer]
      ensures Stops(flow) || Here(flow) == RepairEnds(start, script, old(latest), old(newestReview))
      ensures old(others) == QUIET ==> others == QUIET && !Stops(flow)
    {
      hide After, AllLegal, ResolvesEachOnce, Gentle, Observed, Repaired, PostReviewed;
      hide Reaches, Delivered, Blocking, StageFor, Certified;
      if start <= 3 {
        flow := Repair(script);
        if !flow.Continue? {
          return;
        }
      }
      flow := ReviewRepairs(script, start == 4);
    }

    /** The part of `run_task` that depends on the reviewer's checkpoint. */
    method FromReview(start: nat, script: Script) returns (flow: Flow)
      requires Kept() && start <= 5 && Audited(latest)
      requires if start <= 2 then AtStage(IndependentAudit) && status == IndependentAuditing && newestReview == Reviewer
               else Ordinal(record.stage) == start && Retryable(record.stage) && status in {Failed, BlockedTask}
      modifies this`status, this`moves, this`record, this`ops, this`others, this`refused, this`latest, this`newestReview
      ensures refused == (old(refused) || flow == Raise(ForbiddenStage))
      ensures Kept()
      ensures !flow.Continue?
      ensures flow != Raise(IllegalStatus)
      ensures flow == Raise(ForbiddenStage) ==> !Gentle(old(others))
      ensures Gentle(old(others)) ==> Gentle(others)
      ensures status == Completed ==> Certified(latest) && Completes(ReviewEnds(start, script, old(Here(Continue))))
      ensures Stops(flow) || Here(flow) == ReviewEnds(start, script, old(Here(Continue)))
      ensures old(others) == QUIET ==> others == QUIET && !Stops(flow)
    {
      hide After, AllLegal, ResolvesEachOnce, Gentle, Observed, RepairEnds, Finished, Completes;
      hide Reaches, Delivered, Blocking, StageFor, Certified;
      var last := Reviewer;
      if latest[Reviewer].accepted != [] {
        if start <= 4 {
          flow := RepairAndReview(start, script);
          if !flow.Continue? {
            return;
          }
        }
        last := PostRepairReviewer;
      } else if start == 3 || start == 4 {
        return Raise(RetryRefused);
      } else if start > 2 {
        last := newestReview;
      }
      flow := Finish(script, last);
    }
  }

  function StartOf(retry: Option<Stage>): nat {
    if retry.None? then 0 else Ordinal(retry.value)
  }

  /** Returned or refused before any pre-check. */
  predicate RefusedAtOnce(retry: Option<Stage>, status: TaskStatus, attempts: nat, maximum: nat) {
    if retry.None? then attempts >= maximum else status !in {Failed, BlockedTask}
  }

  /** When `run_task` gets as far as an agent or a verifier. */
  predicate StartsAgent(retry: Option<Stage>, status: TaskStatus, attempts: nat, maximum: nat, script: Script) {
    && !RefusedAtOnce(retry, status, attempts, maximum)
    && script.preChecks && script.workspace
    && (retry.None? ==> status in {Backlog, Ready, Failed, PausedTask, BlockedTask})
  }

  /** Starting statuses from which a failed pre-check has no legal move to BLOCKED. */
  function UnblockableStarts(retry: Option<Stage>): set<TaskStatus> {
    if retry.None? then {Approved, BlockedTask, Completed, CancelledTask} else {BlockedTask}
  }

  /** When `run_task` makes a status change that the table forbids. */
  predicate StartsIllegally(retry: Option<Stage>, status: TaskStatus, exhausted: bool, script: Script) {
    if retry.Some? then status == BlockedTask && !script.preChecks
    else
      && !exhausted
      && if !script.preChecks then status in {Approved, BlockedTask, Completed, CancelledTask}
         else script.workspace && status !in {Backlog, Ready, Failed, PausedTask, BlockedTask}
  }
}
