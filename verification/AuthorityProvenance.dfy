/** Who asked: every change of an attempt over a run of the Authority service goes back to a request
    of the client that reserved it, made while the attempt was where that request may be made. */
module AuthorityProvenance {
  import opened Common
  import opened AuthorityStore
  import opened AuthorityService
  import opened AuthorityLaws
  import opened AuthorityRuns

  /** The attempt is in progress in one of the states, and the client is the one that reserved it. */
  predicate Holds(s: System, id: Id, client: Id, states: set<State>) {
    && id in s.t.attempts && s.t.attempts[id].state in states
    && s.t.attempts[id].payload.InProgress? && s.t.attempts[id].payload.progress.reservation.client == client
  }

  /** A reservation under a launch authorization that is active and held by the reserving client. */
  predicate AsksToReserve(s: System, q: Event, id: Id, r: Reservation) {
    && q.ReserveRead? && q.id == id && q.reservation == r
    && r.launch in s.t.launches && s.t.launches[r.launch].active && s.t.launches[r.launch].client == r.client
  }

  /** A launch of a reserved attempt, with its input bound when it requires one. */
  predicate AsksToRun(s: System, q: Event, id: Id) {
    && q.ExecuteRead? && q.id == id && Holds(s, id, q.client, {Reserved, InputBound})
    && (s.t.attempts[id].state.Reserved? ==> !s.t.attempts[id].payload.progress.reservation.inputRequired)
  }

  /** A final result of a started attempt, as the client reports it. */
  predicate AsksToFinish(s: System, q: Event, id: Id, c: Completion) {
    && q.FinalizeRead? && q.id == id && Holds(s, id, q.client, {Started})
    && c.outcome == q.outcome && c.evidence == q.evidence
  }

  predicate AsksToCancel(s: System, q: Event, id: Id) {
    q.CancelRead? && q.id == id && Holds(s, id, q.client, {Reserved, InputBound, LaunchClaimed, Started, Paused})
  }

  /** The request may take the attempt to the state, with this record. */
  predicate Asks(s: System, q: Event, id: Id, target: State, payload: Payload) {
    match payload
    case Finished(c) =>
      && (AsksToFinish(s, q, id, c) || AsksToRun(s, q, id))
      && (match c.outcome
          case CompletedOutcome => target.Completed?
          case FailedOutcome => target.Failed?
          case TimedOutOutcome => target.TimedOut?
          case CancelledOutcome => target.Cancelled?
          case WaitingOutcome => target.WaitingForReset?)
    case InProgress(p) =>
      match target
      case InputBound => q.BindRead? && q.id == id && Holds(s, id, q.client, {Reserved}) && p.input == Some(q.input)
      case LaunchClaimed => AsksToRun(s, q, id) && p.claim == Some(q.claim)
      case Started =>
        || AsksToRun(s, q, id)
        || (q.ResumeRead? && q.id == id && Holds(s, id, q.client, {Paused}))
        || (q.RecordStartRead? && q.id == id && Holds(s, id, q.client, {Reserved, InputBound})
            && !s.t.attempts[id].payload.progress.reservation.inputRequired && p.start == Some(q.start))
      case Paused => q.PauseRead? && q.id == id && Holds(s, id, q.client, {Started})
      case CancellationClaimed => AsksToCancel(s, q, id)
      case Cancelled => AsksToCancel(s, q, id)
      case WaitingForReset => AsksToRun(s, q, id)
      case Uncertain => AsksToRun(s, q, id)
      case _ => false
  }

  /** What a request in progress owes the event that opened it. */
  predicate Owes(s: System, q: Event, p: Pending) {
    match p
    case Inserting(id, r) => AsksToReserve(s, q, id, r)
    case Claiming(id, _, _, claim) => AsksToRun(s, q, id) && claim == q.claim
    case Observing(id, claimed) => AsksToRun(s, q, id)
    case Executing(id, started) => AsksToRun(s, q, id)
    case Swapping(id, _, target, payload, onSuccess, onRefusal) =>
      && Asks(s, q, id, target, payload)
      && (onSuccess.Some? ==> Owes(s, q, onSuccess.value))
      && (onRefusal.Some? ==> Owes(s, q, onRefusal.value))
  }

  /** A first step opens only what it owes. */
  lemma OpenedOwes(s: System, e: Event)
    requires IsRead(e) && e.req !in s.pending && e.req in Next(s, e).pending
    ensures Owes(s, e, Next(s, e).pending[e.req])
  {
  }

  /** A later step of a request stays within what the request was opened for. */
  lemma ContinuedOwes(s: System, e: Event, req: Id, s0: System, q: Event)
    requires RowsSound(s)
    requires req in s.pending && req in Next(s, e).pending && Owes(s0, q, s.pending[req])
    ensures Owes(s0, q, Next(s, e).pending[req])
  {
    var p := s.pending[req];
    if (p.Claiming? || p.Observing? || p.Executing?) && AsksToRun(s0, q, p.id) {
      RunningOwes(s0, q, p, e);
      if p.id in s.t.attempts && p.id in s.history {
        assert RowSound(s.t.attempts[p.id], s.history[p.id]);
      }
    }
    hide Asks, AsksToRun, Finishing, Starting, Transitioned, Inserted, Claimed, RowSound;
  }

  /** A request to run stands for a start, a wait, an uncertain end and a result. */
  lemma RunningOwes(s0: System, q: Event, p: Pending, e: Event)
    requires (p.Claiming? || p.Observing? || p.Executing?) && AsksToRun(s0, q, p.id)
    ensures p.Claiming? ==> Owes(s0, q, Swapping(p.id, p.expected, WaitingForReset, InProgress(p.read), None, None))
    ensures p.Observing? && e.ReportStart? ==> Owes(s0, q, Starting(p.id, p.claimed, e.start))
    ensures p.Executing? && e.Observed? ==> Owes(s0, q, Finishing(p.id, p.started, e.outcome, e.evidence))
    ensures forall payload: Payload :: payload.InProgress? ==>
      Owes(s0, q, Swapping(p.id, LaunchClaimed, Uncertain, payload, None, None))
  {
    hide AsksToRun;
    if e.Observed? {
      match e.outcome
      case _ =>
    }
  }

  ghost predicate OpenedAt(events: seq<Event>, k: nat, req: Id, p: Pending)
    requires k < |events|
  {
    IsRead(events[k]) && events[k].req == req && Owes(At(events[..k]), events[k], p)
  }

  /** Every request in progress was opened by an event of the run, and stands for what that asked. */
  lemma {:induction false} RequestWasOpened(events: seq<Event>, req: Id) returns (k: nat)
    requires req in At(events).pending
    ensures k < |events| && OpenedAt(events, k, req, At(events).pending[req])
  {
    assert events != [];
    var init, e := events[..|events| - 1], events[|events| - 1];
    hide Owes, Next, RowSound;
    if req in At(init).pending {
      k := RequestWasOpened(init, req);
      assert events[..k] == init[..k];
      ReachableIsSound(init);
      ContinuedOwes(At(init), e, req, At(init[..k]), init[k]);
    } else {
      OnlyReadsOpen(At(init), e, req);
      k := |init|;
      OpenedOwes(At(init), e);
    }
  }

  lemma OnlyReadsOpen(s: System, e: Event, req: Id)
    requires req !in s.pending && req in Next(s, e).pending
    ensures IsRead(e) && e.req == req
  {
  }

  /** The launch of the attempt is revoked by the client that holds it, before the attempt started. */
  predicate Revokes(s: System, e: Event, id: Id)
    requires id in s.t.attempts
  {
    var row := s.t.attempts[id];
    && e.RevokeLaunch? && e.launch == LaunchOf(row.payload) && row.state in {Reserved, InputBound, LaunchClaimed}
    && e.launch in s.t.launches && s.t.launches[e.launch].active && s.t.launches[e.launch].client == e.client
  }

  ghost predicate ReservedAt(events: seq<Event>, k: nat, id: Id, r: Reservation)
    requires k < |events|
  {
    AsksToReserve(At(events[..k]), events[k], id, r)
  }

  ghost predicate AskedAt(events: seq<Event>, k: nat, id: Id, row: Row)
    requires k < |events|
  {
    Asks(At(events[..k]), events[k], id, row.state, row.payload)
  }

  /** What one step changes of an attempt is what the request it commits stands for. */
  lemma ChangeIsOwed(s: System, e: Event, id: Id)
    requires id in s.t.attempts && id in Next(s, e).t.attempts && Next(s, e).t.attempts[id] != s.t.attempts[id]
    ensures var row' := Next(s, e).t.attempts[id];
      || (Revokes(s, e, id) && row' == s.t.attempts[id].(state := Cancelled))
      || ((e.Commit? || e.Claim?) && e.req in s.pending
          && forall s0, q :: Owes(s0, q, s.pending[e.req]) ==> Asks(s0, q, id, row'.state, row'.payload))
  {
  }

  lemma AppearsAsReserved(s: System, e: Event, id: Id)
    requires id !in s.t.attempts && id in Next(s, e).t.attempts
    ensures e.Commit? && e.req in s.pending && s.pending[e.req].Inserting? && s.pending[e.req].id == id
    ensures Next(s, e).t.attempts[id] == Row(Reserved, InProgress(Progress(s.pending[e.req].reservation, None, None, None)))
    ensures id in Next(s, e).history && Next(s, e).history[id].reservation == s.pending[e.req].reservation
  {
  }

  /** Every step that changes an attempt carries out a request of the client that reserved it, made
      earlier in the run where the attempt was in a state from which it may be made; the only other
      change is the revocation of its launch before it started. */
  lemma ChangeWasAsked(events: seq<Event>, e: Event, id: Id)
    requires id in At(events).t.attempts && id in At(events + [e]).t.attempts
    requires At(events + [e]).t.attempts[id] != At(events).t.attempts[id]
    ensures
      || (Revokes(At(events), e, id) && At(events + [e]).t.attempts[id] == At(events).t.attempts[id].(state := Cancelled))
      || exists k :: 0 <= k < |events| && AskedAt(events, k, id, At(events + [e]).t.attempts[id])
  {
    LastStep(events, e);
    hide Next, Run, Owes, Asks, Revokes;
    ChangeIsOwed(At(events), e, id);
    var row, row' := At(events).t.attempts[id], At(events + [e]).t.attempts[id];
    if !(Revokes(At(events), e, id) && row' == row.(state := Cancelled)) {
      var k := RequestWasOpened(events, e.req);
      assert AskedAt(events, k, id, row');
    }
  }

  lemma RecordNamesLaunch(events: seq<Event>, id: Id)
    requires id in At(events).t.attempts
    ensures id in At(events).history
    ensures LaunchOf(At(events).t.attempts[id].payload) == At(events).history[id].reservation.launch
  {
    ReachableIsSound(events);
    assert RowSound(At(events).t.attempts[id], At(events).history[id]);
  }

  /** Every stored attempt was asked for under a launch authorization that was active then and held
      by the client that asked. */
  lemma {:induction false} AttemptWasReserved(events: seq<Event>, id: Id) returns (k: nat, r: Reservation)
    requires id in At(events).t.attempts
    ensures k < |events| && ReservedAt(events, k, id, r)
    ensures r.launch == LaunchOf(At(events).t.attempts[id].payload)
    ensures id in At(events).history && r == At(events).history[id].reservation
  {
    assert events != [];
    var init, e := events[..|events| - 1], events[|events| - 1];
    ReachableIsSound(init);
    RecordNamesLaunch(events, id);
    hide Inv, Next, Asks;
    if id in At(init).t.attempts {
      k, r := AttemptWasReserved(init, id);
      assert events[..k] == init[..k];
      LateIsSettled(At(init), e, id);
    } else {
      AppearsAsReserved(At(init), e, id);
      k := RequestWasOpened(init, e.req);
      assert events[..k] == init[..k];
      r := At(init).pending[e.req].reservation;
    }
  }
}
