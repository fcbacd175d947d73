/** The whole course of a closed run, with its stops and returns erased. */
module RunCourses {
  import opened RunLifecycle
  import opened RunLaws

  const OPENING := [
    Intake, ScopeValidation, RiskClassification, AuthorizationResolution, ProviderSelection, WorktreePreparation,
    AuthorExecution, AuthorSelfVerification, IndependentAudit]

  /** A repair leaves the audit and comes back to it. */
  function Repairs(n: nat): seq<Stage> {
    if n == 0 then [] else [RepairExecution, PostRepairVerification, IndependentAudit] + Repairs(n - 1)
  }

  datatype Handover = EvidenceOnly | CommitOnly | CommitAndPush

  function Closing(h: Handover): seq<Stage> {
    match h
    case EvidenceOnly => [FinalValidation, ApprovalDecision, EvidenceFinalization, Closed]
    case CommitOnly => [FinalValidation, ApprovalDecision, AuthorizedCommit, EvidenceFinalization, Closed]
    case CommitAndPush =>
      [FinalValidation, ApprovalDecision, AuthorizedCommit, AuthorizedPush, EvidenceFinalization, Closed]
  }

  function Course(n: nat, h: Handover): seq<Stage> {
    OPENING + Repairs(n) + Closing(h)
  }

  predicate Linked(path: seq<Stage>) {
    forall k :: 0 < k < |path| ==> Forward(path[k - 1], path[k])
  }

  lemma LinkedAppend(a: seq<Stage>, b: seq<Stage>)
    requires Linked(a) && Linked(b) && (a != [] && b != [] ==> Forward(a[|a| - 1], b[0]))
    ensures Linked(a + b)
  {
    var ab := a + b;
    forall k | 0 < k < |ab|
      ensures Forward(ab[k - 1], ab[k])
    {
      assert k > |a| ==> Forward(b[k - |a| - 1], b[k - |a|]);
    }
  }

  /** After any number of repairs the run is at the audit again. */
  lemma {:induction false} AuditIsLinked(n: nat, h: Handover)
    ensures Linked([IndependentAudit] + Repairs(n) + Closing(h))
  {
    if n == 0 {
      assert [IndependentAudit] + Repairs(0) + Closing(h) == [IndependentAudit] + Closing(h);
    } else {
      AuditIsLinked(n - 1, h);
      LinkedAppend([IndependentAudit, RepairExecution, PostRepairVerification], [IndependentAudit] + Repairs(n - 1) + Closing(h));
      assert [IndependentAudit] + Repairs(n) + Closing(h) ==
        [IndependentAudit, RepairExecution, PostRepairVerification] + ([IndependentAudit] + Repairs(n - 1) + Closing(h));
    }
  }

  lemma CourseIsPath(n: nat, h: Handover)
    ensures ForwardPath(Course(n, h)) && Course(n, h)[|Course(n, h)| - 1] == Closed
  {
    AuditIsLinked(n, h);
    LinkedAppend(OPENING[..8], [IndependentAudit] + Repairs(n) + Closing(h));
    assert Course(n, h) == OPENING[..8] + ([IndependentAudit] + Repairs(n) + Closing(h));
  }

  /** From the audit on: repairs, then the closing stages. */
  lemma {:induction false} TailIsCourse(tail: seq<Stage>) returns (n: nat, h: Handover)
    requires tail != [] && tail[0] == IndependentAudit && Linked(tail) && tail[|tail| - 1] == Closed
    ensures tail == [IndependentAudit] + Repairs(n) + Closing(h)
    decreases |tail|
  {
    assert Forward(tail[0], tail[1]);
    assert Forward(tail[1], tail[2]);
    assert Forward(tail[2], tail[3]);
    if tail[1] == RepairExecution {
      var m;
      m, h := TailIsCourse(tail[3..]);
      n := m + 1;
      assert tail == tail[..3] + tail[3..];
    } else {
      n := 0;
      assert Forward(tail[3], tail[4]);
      h := if tail[3] == EvidenceFinalization then EvidenceOnly
           else if tail[4] == EvidenceFinalization then CommitOnly else CommitAndPush;
      assert tail[4] != Closed ==> Forward(tail[4], tail[5]);
      assert tail[4] == Closed && |tail| > 5 ==> Forward(tail[4], tail[5]);
      assert |tail| > 6 ==> Forward(tail[5], tail[6]);
      assert |tail| > 7 ==> Forward(tail[6], tail[7]);
    }
  }

  lemma OpeningIsForced(path: seq<Stage>, k: nat)
    requires ForwardPath(path) && path[|path| - 1] == Closed && k < 9
    ensures k < |path| && path[k] == OPENING[k]
  {
    if k > 0 {
      OpeningIsForced(path, k - 1);
      assert Forward(path[k - 1], path[k]);
    }
  }

  /** The forward table leaves a run that reaches CLOSED these courses and no others: the opening up to
      the audit, any number of repairs, the closing with one of three ways of handing the work over. */
  lemma PathToClosedIffCourse(path: seq<Stage>)
    ensures path != [] && ForwardPath(path) && path[|path| - 1] == Closed <==> exists n, h :: path == Course(n, h)
  {
    if path != [] && ForwardPath(path) && path[|path| - 1] == Closed {
      forall k | 0 <= k < 9
        ensures k < |path| && path[k] == OPENING[k]
      {
        OpeningIsForced(path, k);
      }
      var n, h := TailIsCourse(path[8..]);
      assert path == OPENING[..8] + path[8..];
      assert path == Course(n, h);
    }
    forall n, h | path == Course(n, h)
      ensures path != [] && ForwardPath(path) && path[|path| - 1] == Closed
    {
      CourseIsPath(n, h);
    }
  }

  /** Whatever stopped and resumed it, a closed run has gone through one of these courses. */
  lemma ClosedRunTookACourse(ops: seq<Op>)
    requires After(ops).stage == Closed
    ensures exists n, h :: Trunk(After(ops).history) == Course(n, h)
  {
    ReachableRecordsAreSound(ops);
    PathToClosedIffCourse(Trunk(After(ops).history));
  }

  lemma {:induction false} Walk(path: seq<Stage>) returns (ops: seq<Op>)
    requires ForwardPath(path) && forall k :: 0 <= k < |path| ==> Working(path[k])
    ensures After(ops).stage == path[|path| - 1] && Trunk(After(ops).history) == path
  {
    ops := [];
    if |path| > 1 {
      var init, last := path[..|path| - 1], path[|path| - 1];
      var before := Walk(init);
      assert Forward(path[|path| - 2], last);
      ops := before + [Move(last)];
      OneMore(before, Move(last));
      var r := After(before);
      AppendedHistory(r, Entry(r.sequence + 1, r.stage, last, false));
      assert path == init + [last];
    }
  }

  /** And each of them is some run's. */
  lemma EveryCourseIsTaken(n: nat, h: Handover)
    ensures exists ops :: After(ops).stage == Closed && Trunk(After(ops).history) == Course(n, h)
  {
    CourseIsPath(n, h);
    RepairsWork(n);
    var ops := Walk(Course(n, h));
  }

  lemma {:induction false} RepairsWork(n: nat)
    ensures forall k :: 0 <= k < |Repairs(n)| ==> Working(Repairs(n)[k])
  {
    if n > 0 {
      RepairsWork(n - 1);
    }
  }
}
