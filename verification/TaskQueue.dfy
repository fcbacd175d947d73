/** The task queue and the loop that starts tasks until none is eligible or one stops. */
module TaskQueue {
  import opened Common
  import opened TaskMachine

  datatype Task = Task(
    id: Id, phase: int, sequence: int, priority: int, status: TaskStatus,
    dependencies: set<Id>, attempts: nat, maximumAttempts: nat)

  /** The sort key (phase, sequence, priority, id). */
  predicate Before(a: Task, b: Task) {
    a.phase < b.phase
    || (a.phase == b.phase
        && (a.sequence < b.sequence
            || (a.sequence == b.sequence
                && (a.priority < b.priority || (a.priority == b.priority && a.id <= b.id)))))
  }

  /** No later phase goes first, within a phase no higher sequence, within that no higher priority
      number, and an identifier decides between the rest. */
  ghost predicate NotOvertaken(first: Task, t: Task) {
    && first.phase <= t.phase
    && (t.phase == first.phase ==>
          && first.sequence <= t.sequence
          && (t.sequence == first.sequence ==>
                && first.priority <= t.priority && (t.priority == first.priority ==> first.id <= t.id)))
  }

  predicate Sorted(tasks: seq<Task>) {
    forall j, k :: 0 <= j < k < |tasks| ==> Before(tasks[j], tasks[k])
  }

  predicate DistinctIds(tasks: seq<Task>) {
    forall j, k :: 0 <= j < k < |tasks| ==> tasks[j].id != tasks[k].id
  }

  predicate IsCompleted(tasks: seq<Task>, id: Id) {
    exists k :: 0 <= k < |tasks| && tasks[k].id == id && tasks[k].status == Completed
  }

  predicate Eligible(tasks: seq<Task>, t: Task) {
    && t.status in {Backlog, Ready, Failed}
    && (forall d :: d in t.dependencies ==> IsCompleted(tasks, d))
    && t.attempts < t.maximumAttempts
  }

  function EligibleOf(all: seq<Task>, tasks: seq<Task>): seq<Task> {
    if tasks == [] then []
    else
      var last := tasks[|tasks| - 1];
      EligibleOf(all, tasks[..|tasks| - 1]) + (if Eligible(all, last) then [last] else [])
  }

  lemma {:induction false} EligibleOfMembers(all: seq<Task>, tasks: seq<Task>)
    ensures forall t :: t in EligibleOf(all, tasks) <==> t in tasks && Eligible(all, t)
  {
    if tasks != [] {
      EligibleOfMembers(all, tasks[..|tasks| - 1]);
      assert tasks == tasks[..|tasks| - 1] + [tasks[|tasks| - 1]];
    }
  }

  /** `eligible`, sorted by insertion. */
  method EligibleTasks(tasks: seq<Task>) returns (r: seq<Task>)
    ensures Sorted(r) && multiset(r) == multiset(EligibleOf(tasks, tasks))
    ensures forall t :: t in r <==> t in tasks && Eligible(tasks, t)
  {
    hide Sorted, Eligible;
    r := [];
    EmptyIsSorted();
    var completed := set t | t in tasks && t.status == Completed :: t.id;
    for k := 0 to |tasks|
      invariant Sorted(r) && multiset(r) == multiset(EligibleOf(tasks, tasks[..k]))
    {
      assert tasks[..k + 1][..k] == tasks[..k];
      var t := tasks[k];
      var waits := t.status in {Backlog, Ready, Failed} && t.dependencies <= completed && t.attempts < t.maximumAttempts;
      EligibleIffWaits(tasks, t, completed);
      if waits {
        r := Insert(r, tasks[k]);
      }
    }
    assert tasks[..|tasks|] == tasks;
    EligibleOfMembers(tasks, tasks);
    assert forall t :: t in r <==> t in multiset(r);
    assert forall t :: t in EligibleOf(tasks, tasks) <==> t in multiset(EligibleOf(tasks, tasks));
  }

  lemma EligibleIffWaits(tasks: seq<Task>, t: Task, completed: set<Id>)
    requires completed == set t | t in tasks && t.status == Completed :: t.id
    ensures Eligible(tasks, t) <==>
      t.status in {Backlog, Ready, Failed} && t.dependencies <= completed && t.attempts < t.maximumAttempts
  {
    forall d
      ensures d in completed <==> IsCompleted(tasks, d)
    {
    }
  }

  lemma EmptyIsSorted()
    ensures Sorted([])
  {
  }

  method Insert(sorted: seq<Task>, t: Task) returns (r: seq<Task>)
    requires Sorted(sorted)
    ensures Sorted(r) && multiset(r) == multiset(sorted) + multiset{t}
    ensures forall x :: x in r <==> x in sorted || x == t
  {
    hide Sorted;
    var n := |sorted|;
    while n > 0 && !Before(sorted[n - 1], t)
      invariant 0 <= n <= |sorted|
      invariant forall k :: n <= k < |sorted| ==> Before(t, sorted[k])
    {
      n := n - 1;
    }
    assert sorted == sorted[..n] + sorted[n..];
    r := sorted[..n] + [t] + sorted[n..];
    InsertedIsSorted(sorted, n, t);
  }

  lemma InsertedIsSorted(sorted: seq<Task>, n: nat, t: Task)
    requires Sorted(sorted) && n <= |sorted|
    requires n > 0 ==> Before(sorted[n - 1], t)
    requires forall k :: n <= k < |sorted| ==> Before(t, sorted[k])
    ensures Sorted(sorted[..n] + [t] + sorted[n..])
  {
    var r := sorted[..n] + [t] + sorted[n..];
    forall j, k | 0 <= j < k < |r|
      ensures Before(r[j], r[k])
    {
      if k == n {
        assert r[j] == sorted[j] && (j < n - 1 ==> Before(sorted[j], sorted[n - 1]));
      }
    }
  }

  /** What one call of `run_task` does to the task it was given. */
  datatype Outcome = Returns(status: TaskStatus) | RaisesIn(status: TaskStatus)

  /** The loop does not end with this run. */
  predicate GoesOn(o: Outcome) {
    o.Returns? && o.status != BlockedTask && o.status != Failed
  }

  lemma EndsIff(o: Outcome)
    ensures GoesOn(o) <==> !o.RaisesIn? && o.status !in {BlockedTask, Failed}
  {
  }

  function Remaining(tasks: seq<Task>): nat {
    if tasks == [] then 0
    else
      var t := tasks[|tasks| - 1];
      Remaining(tasks[..|tasks| - 1]) + (if t.attempts < t.maximumAttempts then t.maximumAttempts - t.attempts else 0)
  }

  lemma {:induction false} AttemptIsUsed(tasks: seq<Task>, i: nat, t: Task)
    requires i < |tasks| && tasks[i].attempts < tasks[i].maximumAttempts
    requires t.maximumAttempts == tasks[i].maximumAttempts && t.attempts == tasks[i].attempts + 1
    ensures Remaining(tasks[i := t]) == Remaining(tasks) - 1
  {
    var n := |tasks| - 1;
    if i == n {
      assert tasks[i := t][..n] == tasks[..n];
    } else {
      AttemptIsUsed(tasks[..n], i, t);
      assert tasks[i := t][..n] == tasks[..n][i := t];
    }
  }

  /** The queue after one of its tasks was run with this outcome. */
  predicate Ran(before: seq<Task>, t: Task, outcome: Outcome, after: seq<Task>) {
    exists i :: 0 <= i < |before| && before[i] == t
      && after == before[i := t.(status := outcome.status, attempts := t.attempts + 1)]
  }

  /** Where the queue stood when its k-th task was chosen, or at the end. */
  function Snapshot(started: seq<(Task, seq<Task>)>, tasks: seq<Task>, k: nat): seq<Task>
    requires k <= |started|
  {
    if k < |started| then started[k].1 else tasks
  }

  /** The k-th task was run on its queue, which then became the next one. */
  predicate Linked(started: seq<(Task, seq<Task>)>, outcomes: nat -> Outcome, tasks: seq<Task>, k: nat)
    requires k < |started|
  {
    Ran(started[k].1, started[k].0, outcomes(k), Snapshot(started, tasks, k + 1))
  }

  /** Every task was run on the queue that the one before it left. */
  ghost predicate Chained(before: seq<Task>, started: seq<(Task, seq<Task>)>, outcomes: nat -> Outcome, tasks: seq<Task>) {
    && Snapshot(started, tasks, 0) == before
    && forall k :: 0 <= k < |started| ==> Linked(started, outcomes, tasks, k)
  }

  lemma ChainedStep(before: seq<Task>, started: seq<(Task, seq<Task>)>, outcomes: nat -> Outcome, tasks: seq<Task>,
                    t: Task, after: seq<Task>)
    requires Chained(before, started, outcomes, tasks) && Ran(tasks, t, outcomes(|started|), after)
    ensures Chained(before, started + [(t, tasks)], outcomes, after)
  {
    hide Ran;
    var more := started + [(t, tasks)];
    forall k | 0 <= k < |more|
      ensures Linked(more, outcomes, after, k)
    {
      if k < |started| {
        assert Linked(started, outcomes, tasks, k);
        assert more[k] == started[k] && Snapshot(more, after, k + 1) == Snapshot(started, tasks, k + 1);
      }
    }
  }

  class Queue {
    var tasks: seq<Task>
    // every task started, with the state of the queue it was chosen from
    ghost var started: seq<(Task, seq<Task>)>

    constructor (tasks: seq<Task>)
      requires DistinctIds(tasks)
      ensures this.tasks == tasks && started == []
    {
      this.tasks, started := tasks, [];
    }

    /** `next`: the first of the eligible tasks. */
    method Next() returns (i: Option<nat>)
      requires DistinctIds(tasks)
      ensures i.None? <==> forall t :: t in tasks ==> !Eligible(tasks, t)
      ensures i.Some? ==>
        && i.value < |tasks| && Eligible(tasks, tasks[i.value])
        && forall t :: t in tasks && Eligible(tasks, t) ==> t == tasks[i.value] || Before(tasks[i.value], t)
      ensures i.Some? ==> forall t :: t in tasks && Eligible(tasks, t) ==> NotOvertaken(tasks[i.value], t)
    {
      var eligible := EligibleTasks(tasks);
      if eligible == [] {
        return None;
      }
      assert eligible[0] in eligible;
      var k :| 0 <= k < |tasks| && tasks[k] == eligible[0];
      i := Some(k);
    }

    /** Every started task was the least eligible one when it was chosen, and its dependencies,
        completed then, are completed still. */
    ghost predicate WellStarted()
      reads this
    {
      forall k :: 0 <= k < |started| ==>
        && started[k].0 in started[k].1 && Eligible(started[k].1, started[k].0)
        && (forall t :: t in started[k].1 && Eligible(started[k].1, t) ==> t == started[k].0 || Before(started[k].0, t))
        && (forall d :: d in started[k].0.dependencies ==> IsCompleted(tasks, d))
    }

    /** One `run_next`. The outcome's status is one the task can reach in a run. */
    method RunNext(outcome: Outcome) returns (i: Option<nat>)
      requires DistinctIds(tasks) && WellStarted()
      modifies this
      ensures DistinctIds(tasks) && WellStarted() && |tasks| == |old(tasks)|
      ensures i.None? ==> tasks == old(tasks) && started == old(started) && forall t :: t in tasks ==> !Eligible(tasks, t)
      ensures i.Some? ==>
        && i.value < |tasks| && old(tasks)[i.value].attempts < old(tasks)[i.value].maximumAttempts
        && tasks == old(tasks)[
             i.value := old(tasks)[i.value].(status := outcome.status, attempts := old(tasks)[i.value].attempts + 1)]
        && started == old(started) + [(old(tasks)[i.value], old(tasks))]
        && Remaining(tasks) == Remaining(old(tasks)) - 1
        && Ran(old(tasks), old(tasks)[i.value], outcome, tasks)
    {
      i := Next();
      if i.Some? {
        var t := tasks[i.value];
        AttemptIsUsed(tasks, i.value, t.(status := outcome.status, attempts := t.attempts + 1));
        CompletedStay(tasks, i.value, t.(status := outcome.status, attempts := t.attempts + 1));
        started := started + [(t, tasks)];
        tasks := tasks[i.value := t.(status := outcome.status, attempts := t.attempts + 1)];
      }
    }

    /** One turn of the `start` loop. */
    method Turn(outcomes: nat -> Outcome, runs: nat, ghost before: seq<Task>) returns (ran: bool)
      requires DistinctIds(tasks) && WellStarted()
      requires runs == |started| && Chained(before, started, outcomes, tasks)
      modifies this
      ensures DistinctIds(tasks) && WellStarted() && Chained(before, started, outcomes, tasks)
      ensures if ran then |started| == runs + 1 && Remaining(tasks) == Remaining(old(tasks)) - 1
              else tasks == old(tasks) && started == old(started) && forall t :: t in tasks ==> !Eligible(tasks, t)
    {
      hide *;
      var i := RunNext(outcomes(runs));
      if i.Some? {
        ChainedStep(before, old(started), outcomes, old(tasks), old(tasks)[i.value], tasks);
      }
      ran := i.Some?;
    }

    /** The `start` loop: it ends by itself, whatever the runs return, within the attempts that
        were left. */
    method Start(outcomes: nat -> Outcome) returns (runs: nat)
      requires DistinctIds(tasks) && started == []
      modifies this
      ensures DistinctIds(tasks) && WellStarted()
      ensures runs == |started| && runs + Remaining(tasks) == Remaining(old(tasks))
      ensures Chained(old(tasks), started, outcomes, tasks)
      ensures forall k :: 0 <= k < runs - 1 ==> GoesOn(outcomes(k))
      ensures runs == 0 || GoesOn(outcomes(runs - 1)) ==> forall t :: t in tasks ==> !Eligible(tasks, t)
    {
      runs := 0;
      assert Chained(old(tasks), started, outcomes, tasks) && WellStarted();
      hide *;
      while true
        invariant DistinctIds(tasks) && WellStarted()
        invariant runs == |started| && runs + Remaining(tasks) == Remaining(old(tasks))
        invariant Chained(old(tasks), started, outcomes, tasks)
        invariant forall k :: 0 <= k < runs ==> GoesOn(outcomes(k))
        decreases Remaining(tasks)
      {
        var ran := Turn(outcomes, runs, old(tasks));
        if !ran {
          return;
        }
        runs := runs + 1;
        var last := outcomes(runs - 1);
        EndsIff(last);
        if last.RaisesIn? || last.status in {BlockedTask, Failed} {
          return;
        }
      }
    }
  }

  /** A task that is not completed is replaced: what was completed stays so. */
  lemma CompletedStay(tasks: seq<Task>, i: nat, t: Task)
    requires i < |tasks| && tasks[i].status != Completed && t.id == tasks[i].id
    ensures forall id :: IsCompleted(tasks, id) ==> IsCompleted(tasks[i := t], id)
  {
    forall id | IsCompleted(tasks, id)
      ensures IsCompleted(tasks[i := t], id)
    {
      var k :| 0 <= k < |tasks| && tasks[k].id == id && tasks[k].status == Completed;
      assert tasks[i := t][k] == tasks[k];
    }
  }
}
