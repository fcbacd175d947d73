/** What holds over whole runs of the Authority service, with requests interleaved step by step
    and the service restarted at any point. */
module AuthorityRuns {
  import opened Common
  import opened AuthorityStore
  import opened AuthorityService
  import opened AuthorityLaws

  ghost function At(events: seq<Event>): System {
    Run(EMPTY, events)
  }

  lemma {:induction false} ReachableIsSound(events: seq<Event>)
    ensures Inv(At(events))
  {
    if events != [] {
      var before, e := events[..|events| - 1], events[|events| - 1];
      ReachableIsSound(before);
      hide Inv, AllAdvanced;
      StepKeepsInv(At(before), e);
    }
  }

  lemma LastStep(events: seq<Event>, e: Event)
    ensures At(events + [e]) == Next(At(events), e)
  {
    assert (events + [e])[..|events + [e]| - 1] == events;
  }

  lemma AdvancedIsTransitive(a: Row, ha: Progress, b: Row, hb: Progress, c: Row, hc: Progress)
    requires Advanced(a, ha, b, hb) && Advanced(b, hb, c, hc)
    ensures Advanced(a, ha, c, hc)
  {
  }

  /** What one run state owes an earlier one. */
  ghost predicate Later(a: System, b: System) {
    && a.t.attempts.Keys <= b.t.attempts.Keys
    && a.history.Keys == a.t.attempts.Keys && b.history.Keys == b.t.attempts.Keys
    && (forall id :: id in a.t.attempts ==> Advanced(a.t.attempts[id], a.history[id], b.t.attempts[id], b.history[id]))
    && (forall l :: l in a.t.launches ==>
          l in b.t.launches && b.t.launches[l] in {a.t.launches[l], a.t.launches[l].(active := false)})
    && (forall f :: f in a.t.fences ==>
          f in b.t.fences && b.t.fences[f] in {a.t.fences[f], a.t.fences[f].(active := false)})
  }

  /** Attempts only move forward, and launches and fences only end. */
  lemma {:induction false} RunsMoveForward(events: seq<Event>, more: seq<Event>)
    ensures Later(At(events), At(events + more))
  {
    ReachableIsSound(events);
    if more == [] {
      assert events + more == events;
    } else {
      var init, e := more[..|more| - 1], more[|more| - 1];
      assert events + more == (events + init) + [e];
      RunsMoveForward(events, init);
      LastStep(events + init, e);
      ReachableIsSound(events + init);
      StepKeepsInv(At(events + init), e);
      hide Next, AllAdvanced, Later, RequestsSound, LaunchesBackAttempts, FencesHold;
      LaterStep(At(events), At(events + init), At(events + more));
    }
  }

  lemma LaterStep(a: System, b: System, c: System)
    requires Later(a, b) && AllAdvanced(b, c) && c.history.Keys == c.t.attempts.Keys
    ensures Later(a, c)
  {
    hide Advanced;
    forall id | id in a.t.attempts
      ensures Advanced(a.t.attempts[id], a.history[id], c.t.attempts[id], c.history[id])
    {
      assert Stepped(b.t.attempts[id], b.history[id], c.t.attempts[id], c.history[id]);
      AdvancedIsTransitive(a.t.attempts[id], a.history[id], b.t.attempts[id], b.history[id], c.t.attempts[id], c.history[id]);
    }
  }

  // --------------------------------------------------------------- attempts

  /** No step leaves a final state, whatever requests are still in progress. */
  lemma FinalStatesAreFinal(events: seq<Event>, more: seq<Event>, id: Id)
    requires id in At(events).t.attempts && Final(At(events).t.attempts[id].state)
    ensures id in At(events + more).t.attempts && At(events + more).t.attempts[id] == At(events).t.attempts[id]
  {
    RunsMoveForward(events, more);
  }

  /** An attempt that has been claimed or started never waits to be launched again. */
  lemma NeverWaitsAgain(events: seq<Event>, more: seq<Event>, id: Id)
    requires id in At(events).t.attempts && At(events).t.attempts[id].state !in {Reserved, InputBound}
    ensures id in At(events + more).t.attempts && At(events + more).t.attempts[id].state !in {Reserved, InputBound}
  {
    RunsMoveForward(events, more);
  }

  ghost predicate Enters(s: System, e: Event, id: Id, target: State) {
    && id in Next(s, e).t.attempts && Next(s, e).t.attempts[id].state == target
    && !(id in s.t.attempts && s.t.attempts[id].state == target)
  }

  /** An attempt is claimed for launch at most once. */
  lemma ClaimedAtMostOnce(events: seq<Event>, e: Event, more: seq<Event>, again: Event, id: Id)
    requires Enters(At(events), e, id, LaunchClaimed)
    ensures !Enters(At(events + [e] + more), again, id, LaunchClaimed)
  {
    LastStep(events, e);
    RunsMoveForward(events + [e], more);
    LastStep(events + [e] + more, again);
    RunsMoveForward(events + [e] + more, [again]);
    hide Next;
    assert Rank(At(events + [e] + more).t.attempts[id].state) >= 2;
  }

  /** The same for every state but the pair that pausing and resuming alternates between. */
  lemma EnteredAtMostOnce(events: seq<Event>, e: Event, more: seq<Event>, again: Event, id: Id, target: State)
    requires target !in {Started, Paused}
    requires Enters(At(events), e, id, target)
    ensures !Enters(At(events + [e] + more), again, id, target)
  {
    LastStep(events, e);
    RunsMoveForward(events + [e], more);
    LastStep(events + [e] + more, again);
    RunsMoveForward(events + [e] + more, [again]);
    hide Next;
    assert Rank(At(events + [e] + more).t.attempts[id].state) >= Rank(target);
  }

  /** Whatever a completion repeats, it repeats as any earlier record of the attempt had it: the
      launch generation, the client and the terms it was reserved with, the digests of the bound
      input, the claim and the started process. */
  lemma CompletionRepeatsTheAttempt(events: seq<Event>, more: seq<Event>, id: Id)
    requires id in At(events).t.attempts && At(events).t.attempts[id].payload.InProgress?
    requires id in At(events + more).t.attempts && At(events + more).t.attempts[id].payload.Finished?
    ensures
      var p, c := At(events).t.attempts[id].payload.progress, At(events + more).t.attempts[id].payload.completion;
      && c.launch == p.reservation.launch && c.client == p.reservation.client && c.terms == p.reservation.terms
      && (p.input.Some? ==> c.input == p.input)
      && (p.claim.Some? ==> c.claim == p.claim)
      && (p.start.Some? ==> c.start == p.start)
      && c.start.Some?
      && (p.reservation.inputRequired ==> c.input.Some?)
      && At(events + more).t.attempts[id].state == StateOf(c.outcome)
  {
    RunsMoveForward(events, more);
    ReachableIsSound(events);
    ReachableIsSound(events + more);
    hide Run;
    assert RowSound(At(events).t.attempts[id], At(events).history[id]);
    assert RowSound(At(events + more).t.attempts[id], At(events + more).history[id]);
  }

  ghost predicate BoundAt(events: seq<Event>, k: nat, id: Id, input: Input)
    requires k <= |events|
  {
    && id in At(events[..k]).t.attempts && At(events[..k]).t.attempts[id].state.InputBound?
    && At(events[..k]).t.attempts[id].payload.InProgress?
    && At(events[..k]).t.attempts[id].payload.progress.input == Some(input)
  }

  /** Only binding an input records one. */
  lemma InputComesFromBinding(s: System, e: Event, id: Id)
    requires Inv(s) && id in Next(s, e).history && Next(s, e).history[id].input.Some?
    requires id in s.history ==> Next(s, e).history[id].input != s.history[id].input
    ensures id in Next(s, e).t.attempts && Next(s, e).t.attempts[id].state.InputBound?
    ensures Next(s, e).t.attempts[id].payload == InProgress(Next(s, e).history[id])
  {
    var s' := Next(s, e);
    StepKeepsInv(s, e);
    if id !in s.history {
      NewAttemptHasNoInput(s, e, id);
    }
    hide Next, PendingSound, SnapshotOf;
    assert Stepped(s.t.attempts[id], s.history[id], s'.t.attempts[id], s'.history[id]);
    assert RowSound(s'.t.attempts[id], s'.history[id]);
  }

  /** An input recorded for an attempt was bound to it in INPUT_BOUND, and never replaced. */
  lemma {:induction false} RecordedInputWasBound(events: seq<Event>, id: Id)
    requires id in At(events).history && At(events).history[id].input.Some?
    ensures exists k :: 0 <= k <= |events| && BoundAt(events, k, id, At(events).history[id].input.value)
  {
    assert events != [];
    var init, e := events[..|events| - 1], events[|events| - 1];
    var input := At(events).history[id].input;
    ReachableIsSound(init);
    hide Inv;
    assert events[..|events|] == events;
    if id in At(init).history && At(init).history[id].input == input {
      RecordedInputWasBound(init, id);
      var k :| 0 <= k <= |init| && BoundAt(init, k, id, input.value);
      assert events[..k] == init[..k];
      assert BoundAt(events, k, id, input.value);
    } else {
      InputComesFromBinding(At(init), e, id);
      assert BoundAt(events, |events|, id, input.value);
    }
  }

  /** A row appears only as a reservation. */
  lemma NewAttemptHasNoInput(s: System, e: Event, id: Id)
    requires Inv(s) && id !in s.history && id in Next(s, e).history
    ensures Next(s, e).history[id].input.None?
    ensures e.Commit? && e.req in s.pending && s.pending[e.req].Inserting? && s.pending[e.req].id == id
    ensures id in Next(s, e).late <==> !IsActive(s.t.launches, Next(s, e).history[id].reservation.launch)
  {
    forall req | req in s.pending && (s.pending[req].Claiming? || s.pending[req].Swapping?)
      ensures s.pending[req].id in s.history
    {
      assert PendingSound(s, s.pending[req]);
    }
    hide PendingSound, SnapshotOf;
  }

  /** An attempt that requires an input and was launched went through INPUT_BOUND with the very
      input its record carries. */
  lemma RequiredInputWasBound(events: seq<Event>, id: Id)
    requires id in At(events).t.attempts
    requires var h := At(events).history; id in h && h[id].reservation.inputRequired && (h[id].claim.Some? || h[id].start.Some?)
    ensures At(events).history[id].input.Some?
    ensures exists k :: 0 <= k <= |events| && BoundAt(events, k, id, At(events).history[id].input.value)
  {
    ReachableIsSound(events);
    assert RowSound(At(events).t.attempts[id], At(events).history[id]);
    RecordedInputWasBound(events, id);
  }

  // --------------------------------------------------------------- launches

  /** While an attempt is claimed, its launch generation is active: a revocation takes the
      claim away in the same transaction. */
  lemma ClaimedMeansActive(events: seq<Event>, id: Id)
    requires id in At(events).t.attempts && At(events).t.attempts[id].state.LaunchClaimed?
    ensures IsActive(At(events).t.launches, LaunchOf(At(events).t.attempts[id].payload))
  {
    ReachableIsSound(events);
    hide Run, RowSound, PendingSound;
  }

  lemma StartsLeaveLaunches(s: System, e: Event, id: Id)
    requires Inv(s) && id in s.t.attempts && id in Next(s, e).t.attempts
    requires Next(s, e).t.attempts[id].state.Started? && !s.t.attempts[id].state.Started?
    ensures Next(s, e).t.launches == s.t.launches && Next(s, e).late == s.late
  {
    hide Inv;
    if e.Commit? && e.req in s.pending {
      assert !s.pending[e.req].Inserting?;
    }
  }

  /** A start observed after a claim happens under an active generation, even when a revocation
      races it. */
  lemma ObservedStartIsAuthorized(events: seq<Event>, e: Event, id: Id)
    requires id in At(events).t.attempts && At(events).t.attempts[id].state.LaunchClaimed?
    requires Enters(At(events), e, id, Started)
    ensures IsActive(Next(At(events), e).t.launches, LaunchOf(At(events).t.attempts[id].payload))
  {
    ClaimedMeansActive(events, id);
    ReachableIsSound(events);
    StartsLeaveLaunches(At(events), e, id);
  }

  ghost predicate StoredAt(events: seq<Event>, k: nat, id: Id)
    requires k < |events|
  {
    id !in At(events[..k]).t.attempts && id in At(events[..k + 1]).t.attempts
  }

  lemma {:induction false} WasStored(events: seq<Event>, n: nat, id: Id) returns (k: nat)
    requires n <= |events| && id in At(events[..n]).t.attempts
    ensures id in At(events[..n]).history
    ensures k < n && StoredAt(events, k, id)
    ensures id in At(events[..n]).late <==> !IsActive(At(events[..k]).t.launches, At(events[..n]).history[id].reservation.launch)
  {
    assert n > 0;
    var before, e := events[..n - 1], events[n - 1];
    assert events[..n] == before + [e];
    LastStep(before, e);
    ReachableIsSound(before);
    hide Inv, Next, Run;
    if id in At(before).t.attempts {
      k := WasStored(events, n - 1, id);
      LateIsSettled(At(before), e, id);
    } else {
      StoredAlone(At(before), e, id);
      NewAttemptHasNoInput(At(before), e, id);
      k := n - 1;
    }
  }

  lemma StoredAlone(s: System, e: Event, id: Id)
    requires Inv(s) && id !in s.t.attempts && id in Next(s, e).t.attempts
    ensures id !in s.history && id in Next(s, e).history
  {
    StepKeepsInv(s, e);
    hide Next, RowSound, RequestsSound, LaunchesBackAttempts, FencesHold;
  }

  lemma LateIsSettled(s: System, e: Event, id: Id)
    requires Inv(s) && id in s.t.attempts
    ensures id in Next(s, e).late <==> id in s.late
    ensures id in s.history && id in Next(s, e).history
    ensures Next(s, e).history[id].reservation == s.history[id].reservation
  {
    StepKeepsInv(s, e);
    LateGrowsByInsertion(s, e);
    hide Next, PendingSound, SnapshotOf, FencesHold, RequestsSound, LaunchesBackAttempts;
    assert Stepped(s.t.attempts[id], s.history[id], Next(s, e).t.attempts[id], Next(s, e).history[id]);
  }

  lemma LateGrowsByInsertion(s: System, e: Event)
    ensures forall id :: id in s.t.attempts ==> (id in Next(s, e).late <==> id in s.late)
  {
  }

  /** A start that a client reports for an attempt nobody claimed is checked against the launch
      only when the reservation is made. It happens under an active generation exactly when the
      generation was still active at the moment the reservation was stored. */
  lemma ReportedStartIsAuthorizedIffReservedInTime(events: seq<Event>, e: Event, id: Id)
    requires id in At(events).t.attempts && At(events).t.attempts[id].state in {Reserved, InputBound}
    requires Enters(At(events), e, id, Started)
    ensures exists k ::
      && 0 <= k < |events| && StoredAt(events, k, id)
      && (IsActive(Next(At(events), e).t.launches, LaunchOf(At(events).t.attempts[id].payload))
          <==> IsActive(At(events[..k]).t.launches, LaunchOf(At(events).t.attempts[id].payload)))
  {
    ReachableIsSound(events);
    StartsLeaveLaunches(At(events), e, id);
    assert events[..|events|] == events;
    var k := WasStored(events, |events|, id);
    hide Next, Run, PendingSound, SnapshotOf, FencesHold;
    assert RowSound(At(events).t.attempts[id], At(events).history[id]);
  }

  const FIRST_CAPABILITY := Capability(7, 7, 7, 7, 7, 7, 7, 7, 7, 7, 7)

  /** The other side of that condition is reachable: a revocation between the two steps of one
      reservation. */
  lemma LateReservationIsReachable(launch: LaunchId, client: Id, id: Id)
    requires launch.generation == 1
    ensures exists events, e ::
      && Enters(At(events), e, id, Started)
      && LaunchOf(Next(At(events), e).t.attempts[id].payload) == launch
      && !IsActive(Next(At(events), e).t.launches, launch)
  {
    var r := Reservation(launch, client, false, 0);
    var made := [CreateLaunch(launch, client, FIRST_CAPABILITY, 100), ReserveRead(1, id, r), RevokeLaunch(launch, client)];
    RevokedBeforeStored(launch, client, id, made);
    var stored, report := made + [Commit(1)], RecordStartRead(2, id, client, Start(5, 6));
    LastStep(made, Commit(1));
    LastStep(stored, report);
    hide Run, Next;
    StoredThenReported(At(made), launch, client, id);
    assert Enters(At(stored + [report]), Commit(2), id, Started);
  }

  lemma StoredThenReported(s: System, launch: LaunchId, client: Id, id: Id)
    requires s.t.attempts == map[] && s.t.fences == map[]
    requires launch in s.t.launches && !s.t.launches[launch].active
    requires s.pending == map[1 := Inserting(id, Reservation(launch, client, false, 0))]
    ensures
      var reported := Next(Next(s, Commit(1)), RecordStartRead(2, id, client, Start(5, 6)));
      && Enters(reported, Commit(2), id, Started)
      && LaunchOf(Next(reported, Commit(2)).t.attempts[id].payload) == launch
      && !IsActive(Next(reported, Commit(2)).t.launches, launch)
  {
    var p := Progress(Reservation(launch, client, false, 0), None, None, None);
    var stored := Next(s, Commit(1));
    assert stored.t.attempts == map[id := Row(Reserved, InProgress(p))];
    assert stored.pending == map[];
    var reported := Next(stored, RecordStartRead(2, id, client, Start(5, 6)));
    assert reported.pending[2] == Swapping(id, Reserved, Started, InProgress(p.(start := Some(Start(5, 6)))), None, None);
  }

  lemma RevokedBeforeStored(launch: LaunchId, client: Id, id: Id, made: seq<Event>)
    requires launch.generation == 1
    requires made == [CreateLaunch(launch, client, FIRST_CAPABILITY, 100),
                      ReserveRead(1, id, Reservation(launch, client, false, 0)),
                      RevokeLaunch(launch, client)]
    ensures At(made).t.attempts == map[] && At(made).t.fences == map[]
    ensures launch in At(made).t.launches && !At(made).t.launches[launch].active
    ensures At(made).pending == map[1 := Inserting(id, Reservation(launch, client, false, 0))]
  {
    LastStep([], made[0]);
    LastStep([] + [made[0]], made[1]);
    LastStep([] + [made[0]] + [made[1]], made[2]);
    assert made == [] + [made[0]] + [made[1]] + [made[2]];
    assert At([]) == EMPTY;
    hide Run;
    assert At([] + [made[0]]).t.launches == map[launch := Launch(true, client, FIRST_CAPABILITY, 100)];
  }

  lemma {:induction false} OlderGenerationIsRevoked(launches: map<LaunchId, Launch>, older: LaunchId, newer: LaunchId)
    requires LaunchesSound(launches) && older in launches && newer in launches
    requires older.project == newer.project && older.generation < newer.generation
    ensures !launches[older].active && launches[older].client == launches[newer].client
    decreases newer.generation
  {
    var before := LaunchId(newer.project, newer.generation - 1);
    assert before in launches;
    if before != older {
      OlderGenerationIsRevoked(launches, older, before);
    }
  }

  lemma {:induction false} GenerationsHaveNoGaps(launches: map<LaunchId, Launch>, newest: LaunchId, generation: int)
    requires LaunchesSound(launches) && newest in launches && 1 <= generation <= newest.generation
    ensures LaunchId(newest.project, generation) in launches
    decreases newest.generation
  {
    if generation < newest.generation {
      GenerationsHaveNoGaps(launches, LaunchId(newest.project, newest.generation - 1), generation);
    }
  }

  /** A project has at most one active launch generation, its newest; all generations from one
      up to it were issued to the same client, each for its own capability; and none that was
      revoked comes back. */
  lemma OneActiveGeneration(events: seq<Event>, more: seq<Event>, j: LaunchId, k: LaunchId)
    requires j in At(events).t.launches && k in At(events).t.launches && j.project == k.project
    ensures At(events).t.launches[j].active && At(events).t.launches[k].active ==> j == k
    ensures j != k ==> !Clash(At(events).t.launches[j].capability, At(events).t.launches[k].capability)
    ensures At(events).t.launches[j].client == At(events).t.launches[k].client
    ensures forall g :: 1 <= g <= j.generation ==> LaunchId(j.project, g) in At(events).t.launches
    ensures j in At(events + more).t.launches
    ensures !At(events).t.launches[j].active ==> !At(events + more).t.launches[j].active
  {
    ReachableIsSound(events);
    RunsMoveForward(events, more);
    var launches := At(events).t.launches;
    if j.generation < k.generation {
      OlderGenerationIsRevoked(launches, j, k);
    } else if k.generation < j.generation {
      OlderGenerationIsRevoked(launches, k, j);
    }
    forall g | 1 <= g <= j.generation
      ensures LaunchId(j.project, g) in launches
    {
      GenerationsHaveNoGaps(launches, j, g);
    }
  }

  // ----------------------------------------------------------------- fences

  /** While a restore fence is active, every attempt and launch in its scope is what the fence
      recorded, at every point in between: a confirmation can only fail by expiry. */
  lemma FenceFreezesItsScope(events: seq<Event>, more: seq<Event>, f: Id)
    requires f in At(events).t.fences
    requires f in At(events + more).t.fences && At(events + more).t.fences[f].active
    ensures At(events + more).t.fences[f] == At(events).t.fences[f]
    ensures SnapshotOf(At(events + more).t, At(events).t.fences[f].scope) == At(events).t.fences[f].snapshot
      == SnapshotOf(At(events).t, At(events).t.fences[f].scope)
  {
    RunsMoveForward(events, more);
    ReachableIsSound(events);
    ReachableIsSound(events + more);
  }
}
