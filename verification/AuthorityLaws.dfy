/** What every reachable state of the Authority service satisfies, however requests interleave. */
module AuthorityLaws {
  import opened Common
  import opened AuthorityStore
  import opened AuthorityService

  // ------------------------------------------------------------- one attempt

  /** How far an attempt has come. Only a running and a paused attempt share a rank. */
  function Rank(s: State): nat {
    match s
    case Reserved => 0
    case InputBound => 1
    case LaunchClaimed => 2
    case Started => 3
    case Paused => 3
    case CancellationClaimed => 4
    case _ => 5
  }

  predicate Final(s: State) {
    Rank(s) == 5
  }

  /** A stored row agrees with the progress made and holds what its state promises. */
  ghost predicate RowSound(row: Row, h: Progress) {
    && (match row.payload
        case InProgress(p) => p == h
        case Finished(c) => c == CompletionOf(h, c.outcome, c.evidence) && row.state == StateOf(c.outcome) && h.start.Some?)
    && (Rank(row.state) <= 4 || row.state.Uncertain? ==> row.payload.InProgress?)
    && (row.state in {Completed, Failed, TimedOut} ==> row.payload.Finished?)
    && (row.state.Reserved? ==> h.input.None?)
    && (row.state.InputBound? ==> h.input.Some?)
    && (Rank(row.state) <= 1 ==> h.claim.None? && h.start.None?)
    && (row.state.LaunchClaimed? ==> h.claim.Some? && h.start.None?)
    && (Rank(row.state) == 3 ==> h.start.Some?)
    && (h.claim.Some? || h.start.Some? ==> h.reservation.inputRequired ==> h.input.Some?)
  }

  /** What a step may do to an attempt. */
  ghost predicate Advanced(row: Row, h: Progress, row': Row, h': Progress) {
    && h'.reservation == h.reservation
    && (h.input.Some? ==> h'.input == h.input)
    && (h.claim.Some? ==> h'.claim == h.claim)
    && (h.start.Some? ==> h'.start == h.start)
    && ((row' == row && h' == h)
        || Rank(row.state) < Rank(row'.state)
        || (Rank(row.state) == 3 == Rank(row'.state) && row'.payload == row.payload && h' == h))
  }

  /** Each part of an attempt's progress is added by one kind of step. */
  ghost predicate Stepped(row: Row, h: Progress, row': Row, h': Progress) {
    && Advanced(row, h, row', h')
    && (h'.input != h.input ==> row'.state.InputBound?)
    && (h'.claim != h.claim ==> row'.state.LaunchClaimed?)
    && (h'.start != h.start ==> row'.state.Started?)
  }

  // ---------------------------------------------------------------- requests

  /** The transitions handlers ask for, as pairs of states. */
  predicate Edge(expected: State, target: State) {
    match expected
    case Reserved => target in {InputBound, Started, WaitingForReset, CancellationClaimed}
    case InputBound => target in {Started, WaitingForReset, CancellationClaimed}
    case LaunchClaimed => target in {Started, Uncertain, CancellationClaimed}
    case Started => target in {Paused, CancellationClaimed, Completed, Failed, TimedOut, Cancelled, WaitingForReset}
    case Paused => target in {Started, CancellationClaimed}
    case CancellationClaimed => target == Cancelled
    case _ => false
  }

  /** The payload a request means to store is the attempt's progress with the part its own step
      adds, so no part stored by another request is lost or replaced. */
  ghost predicate Extends(h: Progress, expected: State, target: State, payload: Payload) {
    match payload
    case InProgress(p) =>
      if target.InputBound? then p == h.(input := p.input) && p.input.Some?
      else if target.Started? && !expected.Paused? then
        p == h.(start := p.start) && p.start.Some? && (h.claim.None? ==> !h.reservation.inputRequired)
      else p == h && target !in {Completed, Failed, TimedOut}
    case Finished(c) => expected.Started? && c == CompletionOf(h, c.outcome, c.evidence) && target == StateOf(c.outcome)
  }

  /** While the attempt is where the request last saw it, the request's copy is up to date. */
  ghost predicate PendingSound(s: System, p: Pending) {
    match p
    case Inserting(id, r) => r.launch in s.t.launches
    case Claiming(id, expected, read, claim) =>
      && id in s.t.attempts && id in s.history
      && expected in {Reserved, InputBound} && Rank(expected) <= Rank(s.t.attempts[id].state)
      && read.reservation == s.history[id].reservation
      && (read.reservation.inputRequired ==> expected.InputBound?)
      && (Rank(s.t.attempts[id].state) == Rank(expected) ==> read == s.history[id])
    case Observing(id, claimed) =>
      && id in s.t.attempts && id in s.history && 2 <= Rank(s.t.attempts[id].state)
      && claimed.claim.Some? && claimed.reservation == s.history[id].reservation
      && (Rank(s.t.attempts[id].state) == 2 ==> claimed == s.history[id])
    case Executing(id, started) =>
      && id in s.t.attempts && id in s.history && 3 <= Rank(s.t.attempts[id].state)
      && started.reservation == s.history[id].reservation
      && (Rank(s.t.attempts[id].state) == 3 ==> started == s.history[id])
    case Swapping(id, expected, target, payload, onSuccess, onRefusal) =>
      && id in s.t.attempts && id in s.history
      && Edge(expected, target) && Rank(expected) <= Rank(s.t.attempts[id].state)
      && LaunchOf(payload) == s.history[id].reservation.launch
      && (Rank(s.t.attempts[id].state) == Rank(expected) ==> Extends(s.history[id], expected, target, payload))
      && (onSuccess.Some? ==> Continues(id, target, payload, onSuccess.value))
      && (onRefusal.Some? ==> onRefusal.value.Observing? && PendingSound(s, onRefusal.value))
  }

  predicate Continues(id: Id, target: State, payload: Payload, p: Pending) {
    payload.InProgress?
    && if target.Started? then p == Executing(id, payload.progress)
       else target == CancellationClaimed && p == Swapping(id, CancellationClaimed, Cancelled, payload, None, None)
  }

  // ------------------------------------------------------- launches and fences

  /** A project's generations are consecutive from one, and only the newest can be active. */
  ghost predicate LaunchesSound(launches: map<LaunchId, Launch>) {
    forall l :: l in launches ==>
      && 1 <= l.generation
      && (1 < l.generation ==>
            var before := LaunchId(l.project, l.generation - 1);
            before in launches && !launches[before].active && launches[before].client == launches[l].client)
  }

  /** Every launch has its own consumption, and no two of them share a unique key. */
  ghost predicate CapabilitiesSound(t: Tables) {
    && (forall l :: l in t.launches ==> t.launches[l].capability in t.capabilities)
    && (forall j, k ::
          j in t.launches && k in t.launches && Clash(t.launches[j].capability, t.launches[k].capability) ==> j == k)
  }

  predicate IsActive(launches: map<LaunchId, Launch>, l: LaunchId) {
    l in launches && launches[l].active
  }

  /** A claimed attempt's launch is active; a waiting attempt's is, unless it was reserved late. */
  ghost predicate LaunchesBackAttempts(s: System) {
    forall id :: id in s.t.attempts ==>
      var launch := LaunchOf(s.t.attempts[id].payload);
      && launch in s.t.launches
      && (s.t.attempts[id].state.LaunchClaimed? ==> IsActive(s.t.launches, launch))
      && (Rank(s.t.attempts[id].state) <= 1 ==> (id in s.late <==> !IsActive(s.t.launches, launch)))
  }

  /** Nothing in the scope of an active fence differs from what the fence recorded. */
  ghost predicate FencesHold(t: Tables) {
    forall f :: f in t.fences && t.fences[f].active ==> t.fences[f].snapshot == SnapshotOf(t, t.fences[f].scope)
  }

  ghost predicate RowsSound(s: System) {
    && s.history.Keys == s.t.attempts.Keys
    && s.late <= s.t.attempts.Keys
    && (forall id :: id in s.t.attempts ==> RowSound(s.t.attempts[id], s.history[id]))
  }

  ghost predicate RequestsSound(s: System) {
    forall req :: req in s.pending ==> PendingSound(s, s.pending[req])
  }

  ghost predicate Inv(s: System) {
    && RowsSound(s) && RequestsSound(s)
    && LaunchesSound(s.t.launches) && CapabilitiesSound(s.t)
    && LaunchesBackAttempts(s) && FencesHold(s.t)
  }

  ghost predicate AllAdvanced(s: System, s': System) {
    && s.t.attempts.Keys <= s'.t.attempts.Keys && s.history.Keys <= s'.history.Keys
    && s.history.Keys == s.t.attempts.Keys
    && (forall l :: l in s.t.launches ==>
          l in s'.t.launches && s'.t.launches[l] in {s.t.launches[l], s.t.launches[l].(active := false)})
    && (forall f :: f in s.t.fences ==>
          f in s'.t.fences && s'.t.fences[f] in {s.t.fences[f], s.t.fences[f].(active := false)})
    && (forall id :: id in s.t.attempts ==>
          Stepped(s.t.attempts[id], s.history[id], s'.t.attempts[id], s'.history[id]))
  }

  // ------------------------------------------------------------------ proofs

  /** Progress by any request leaves every other request's copy as good as it was. */
  lemma PendingKept(s: System, s': System, p: Pending)
    requires AllAdvanced(s, s') && PendingSound(s, p)
    ensures PendingSound(s', p)
    decreases p
  {
    match p
    case Swapping(id, expected, target, payload, onSuccess, onRefusal) =>
      if onRefusal.Some? {
        PendingKept(s, s', onRefusal.value);
      }
      assert Stepped(s.t.attempts[id], s.history[id], s'.t.attempts[id], s'.history[id]);
    case Inserting(_, _) =>
    case _ =>
      assert Stepped(s.t.attempts[p.id], s.history[p.id], s'.t.attempts[p.id], s'.history[p.id]);
  }

  /** Requests stay sound when the tables advance and one request is replaced or dropped. */
  lemma RequestsKept(s: System, s': System, req: Id, next: Option<Pending>)
    requires RequestsSound(s) && AllAdvanced(s, s')
    requires s'.pending == With(s.pending, req, next)
    requires next.Some? ==> PendingSound(s', next.value)
    ensures RequestsSound(s')
  {
    forall r | r in s'.pending
      ensures PendingSound(s', s'.pending[r])
    {
      if r != req || next.None? {
        PendingKept(s, s', s.pending[r]);
      }
    }
  }

  lemma RequestsUntouched(s: System, s': System)
    requires RequestsSound(s) && AllAdvanced(s, s') && s'.pending == s.pending
    ensures RequestsSound(s')
  {
    hide PendingSound, Stepped;
    forall req | req in s'.pending
      ensures PendingSound(s', s'.pending[req])
    {
      PendingKept(s, s', s.pending[req]);
    }
  }

  /** A handler's first step computes a sound request from what it reads. */
  lemma ReadSound(s: System, e: Event)
    requires RowsSound(s) && LaunchesBackAttempts(s)
    ensures e.ReserveRead? ==>
      var p := AfterReserveRead(s.t.launches, e.id, e.reservation); p.Some? ==> PendingSound(s, p.value)
    ensures e.BindRead? && e.id in s.t.attempts ==>
      var p := AfterBindRead(s.t.attempts[e.id], e.id, e.input, e.client); p.Some? ==> PendingSound(s, p.value)
    ensures e.ExecuteRead? && e.id in s.t.attempts ==>
      var p := AfterExecuteRead(s.t.attempts[e.id], e.id, e.client, e.claim); p.Some? ==> PendingSound(s, p.value)
    ensures e.RecordStartRead? && e.id in s.t.attempts ==>
      var p := AfterRecordStartRead(s.t.attempts[e.id], e.id, e.client, e.start); p.Some? ==> PendingSound(s, p.value)
    ensures e.FinalizeRead? && e.id in s.t.attempts ==>
      var p := AfterFinalizeRead(s.t.attempts[e.id], e.id, e.client, e.outcome, e.evidence); p.Some? ==> PendingSound(s, p.value)
    ensures e.CancelRead? && e.id in s.t.attempts ==>
      var p := AfterCancelRead(s.t.attempts[e.id], e.id, e.client); p.Some? ==> PendingSound(s, p.value)
    ensures e.PauseRead? && e.id in s.t.attempts ==>
      var p := AfterToggleRead(s.t.attempts[e.id], e.id, e.client, Started, Paused); p.Some? ==> PendingSound(s, p.value)
    ensures e.ResumeRead? && e.id in s.t.attempts ==>
      var p := AfterToggleRead(s.t.attempts[e.id], e.id, e.client, Paused, Started); p.Some? ==> PendingSound(s, p.value)
  {
  }

  /** The tables agree outside one project. */
  ghost predicate OnlyTouches(t: Tables, t': Tables, project: Id) {
    && t'.fences == t.fences
    && (forall id :: id in t.attempts && ProjectOf(t.attempts[id].payload) != project ==>
          id in t'.attempts && t'.attempts[id] == t.attempts[id])
    && (forall id :: id in t'.attempts && ProjectOf(t'.attempts[id].payload) != project ==>
          id in t.attempts && t.attempts[id] == t'.attempts[id])
    && (forall l :: l in t.launches && l.project != project ==> l in t'.launches && t'.launches[l] == t.launches[l])
    && (forall l :: l in t'.launches && l.project != project ==> l in t.launches)
    && (forall p :: p != project ==>
          (p in t.versions <==> p in t'.versions) && (p in t.versions ==> t'.versions[p] == t.versions[p]))
  }

  /** Every writer refuses a fenced project, so no write shows in an active fence's scope. */
  lemma FencesKept(t: Tables, t': Tables, project: Id)
    requires FencesHold(t) && Unfenced(t.fences, project) && OnlyTouches(t, t', project)
    ensures FencesHold(t')
  {
    forall f | f in t.fences && t.fences[f].active
      ensures SnapshotOf(t, t.fences[f].scope) == SnapshotOf(t', t.fences[f].scope)
    {
    }
  }

  /** What a step does to the tables, and what it keeps, apart from the requests. */
  ghost predicate TablesKept(s: System, s': System) {
    && RowsSound(s') && AllAdvanced(s, s')
    && LaunchesSound(s'.t.launches) && CapabilitiesSound(s'.t)
    && LaunchesBackAttempts(s') && FencesHold(s'.t)
  }

  lemma TablesUntouched(s: System, s': System)
    requires Inv(s) && s'.t == s.t && s'.history == s.history && s'.late == s.late
    ensures TablesKept(s, s')
  {
    hide RowSound, SnapshotOf, PendingSound;
  }

  // ............................................... a write to one attempt

  ghost predicate WritesRow(s: System, s': System, id: Id, row': Row, h': Progress) {
    && id in s.t.attempts && id in s.history
    && s'.t.attempts == s.t.attempts[id := row']
    && s'.t.launches == s.t.launches && s'.t.capabilities == s.t.capabilities && s'.t.fences == s.t.fences
    && s'.t.versions == Bumped(s.t.versions, ProjectOf(row'.payload))
    && s'.history == s.history[id := h'] && s'.late == s.late
    && LaunchOf(row'.payload) == LaunchOf(s.t.attempts[id].payload)
  }

  lemma WriteAdvances(s: System, s': System, id: Id, row': Row, h': Progress)
    requires RowsSound(s) && WritesRow(s, s', id, row', h')
    requires Stepped(s.t.attempts[id], s.history[id], row', h') && RowSound(row', h')
    ensures RowsSound(s') && AllAdvanced(s, s')
  {
    hide RowSound;
  }

  lemma WriteBacked(s: System, s': System, id: Id, row': Row, h': Progress)
    requires LaunchesBackAttempts(s) && WritesRow(s, s', id, row', h')
    requires Stepped(s.t.attempts[id], s.history[id], row', h')
    requires row'.state.LaunchClaimed? ==> IsActive(s.t.launches, LaunchOf(row'.payload))
    ensures LaunchesBackAttempts(s')
  {
  }

  lemma WriteKeeps(s: System, s': System, id: Id, row': Row, h': Progress)
    requires Inv(s) && WritesRow(s, s', id, row', h') && Unfenced(s.t.fences, ProjectOf(row'.payload))
    requires Stepped(s.t.attempts[id], s.history[id], row', h') && RowSound(row', h')
    requires row'.state.LaunchClaimed? ==> IsActive(s.t.launches, LaunchOf(row'.payload))
    ensures TablesKept(s, s')
  {
    hide RowSound, Stepped, SnapshotOf, FencesHold, PendingSound, LaunchesSound, LaunchesBackAttempts;
    WriteAdvances(s, s', id, row', h');
    WriteBacked(s, s', id, row', h');
    FencesKept(s.t, s'.t, ProjectOf(row'.payload));
  }

  /** A transition asked for by a sound request stores a sound row. */
  lemma SwapAdvances(row: Row, h: Progress, expected: State, target: State, payload: Payload)
    requires RowSound(row, h) && row.state == expected && Edge(expected, target)
    requires Extends(h, expected, target, payload)
    ensures var h' := if payload.InProgress? then payload.progress else h;
      Stepped(row, h, Row(target, payload), h') && RowSound(Row(target, payload), h')
      && LaunchOf(payload) == LaunchOf(row.payload)
    ensures !target.LaunchClaimed?
  {
  }

  lemma SwapKeepsTables(s: System, s': System, p: Pending)
    requires Inv(s) && p.Swapping? && PendingSound(s, p)
    requires Transitioned(s.t, p.id, p.expected, p.target, p.payload) == Some(s'.t)
    requires s'.history == Recorded(s.history, p.id, p.payload) && s'.late == s.late
    ensures TablesKept(s, s')
  {
    hide RowSound, Stepped, SnapshotOf, FencesHold, LaunchesSound, Edge, Extends;
    var h := s.history[p.id];
    var h' := if p.payload.InProgress? then p.payload.progress else h;
    SwapAdvances(s.t.attempts[p.id], h, p.expected, p.target, p.payload);
    assert s'.history == s.history[p.id := h'];
    WriteKeeps(s, s', p.id, Row(p.target, p.payload), h');
  }

  lemma ContinuationSound(s: System, s': System, p: Pending)
    requires p.Swapping? && PendingSound(s, p)
    requires Transitioned(s.t, p.id, p.expected, p.target, p.payload) == Some(s'.t)
    requires s'.history == Recorded(s.history, p.id, p.payload)
    ensures p.onSuccess.Some? ==> PendingSound(s', p.onSuccess.value)
  {
  }

  lemma RefusalSound(s: System, s': System, p: Pending)
    requires p.Swapping? && PendingSound(s, p) && s'.t == s.t && s'.history == s.history
    ensures p.onRefusal.Some? ==> PendingSound(s', p.onRefusal.value)
  {
  }

  lemma SwapKeepsInv(s: System, req: Id)
    requires Inv(s) && req in s.pending && s.pending[req].Swapping?
    ensures Inv(Committed(s, req)) && AllAdvanced(s, Committed(s, req))
  {
    hide RowSound, Stepped, SnapshotOf, FencesHold, LaunchesBackAttempts, LaunchesSound, PendingSound, Transitioned, AllAdvanced;
    var s', p := Committed(s, req), s.pending[req];
    var stored := Transitioned(s.t, p.id, p.expected, p.target, p.payload);
    if stored.None? {
      TablesUntouched(s, s');
      RefusalSound(s, s', p);
      RequestsKept(s, s', req, p.onRefusal);
    } else {
      SwapKeepsTables(s, s', p);
      ContinuationSound(s, s', p);
      RequestsKept(s, s', req, p.onSuccess);
    }
  }

  // ............................................................. claims

  lemma ClaimKeepsTables(s: System, s': System, p: Pending, claimed: Progress, now: Stamp)
    requires Inv(s) && p.Claiming? && PendingSound(s, p) && claimed == p.read.(claim := Some(p.claim))
    requires Claimed(s.t, p.id, p.read.reservation.client, p.expected, claimed, now, true) == ClaimTaken(s'.t)
    requires s'.history == s.history[p.id := claimed] && s'.late == s.late
    ensures TablesKept(s, s') && PendingSound(s', Observing(p.id, claimed))
  {
    hide SnapshotOf, FencesHold, LaunchesSound, LaunchesBackAttempts;
    assert RowSound(s.t.attempts[p.id], s.history[p.id]);
    WriteKeeps(s, s', p.id, Row(LaunchClaimed, InProgress(claimed)), claimed);
  }

  lemma WaitSound(s: System, s': System, p: Pending)
    requires RowsSound(s) && p.Claiming? && PendingSound(s, p) && s'.t == s.t && s'.history == s.history
    ensures PendingSound(s', Swapping(p.id, p.expected, WaitingForReset, InProgress(p.read), None, None))
  {
  }

  lemma ClaimKeepsInv(s: System, req: Id, now: Stamp, usable: bool)
    requires Inv(s) && req in s.pending && s.pending[req].Claiming?
    ensures Inv(AfterClaim(s, req, now, usable)) && AllAdvanced(s, AfterClaim(s, req, now, usable))
  {
    hide RowSound, Stepped, SnapshotOf, FencesHold, LaunchesBackAttempts, LaunchesSound, PendingSound, Claimed, AllAdvanced;
    var s', p := AfterClaim(s, req, now, usable), s.pending[req];
    var claimed := p.read.(claim := Some(p.claim));
    match Claimed(s.t, p.id, p.read.reservation.client, p.expected, claimed, now, usable)
    case ClaimRefused =>
      TablesUntouched(s, s');
      RequestsKept(s, s', req, None);
    case UsageExhausted =>
      TablesUntouched(s, s');
      WaitSound(s, s', p);
      RequestsKept(s, s', req, Some(s'.pending[req]));
    case ClaimTaken(after) =>
      TakenMeansUsable(s.t, p.id, p.read.reservation.client, p.expected, claimed, now, usable);
      ClaimKeepsTables(s, s', p, claimed, now);
      RequestsKept(s, s', req, Some(s'.pending[req]));
  }

  lemma TakenMeansUsable(t: Tables, id: Id, client: Id, expected: State, claim: Progress, now: Stamp, usable: bool)
    requires Claimed(t, id, client, expected, claim, now, usable).ClaimTaken?
    ensures usable && LaunchUsable(t.launches, claim.reservation.launch, client, now)
  {
  }

  // ....................................................... reservations

  lemma InsertAdvances(s: System, s': System, id: Id, r: Reservation)
    requires RowsSound(s) && Inserted(s.t, id, r) == Some(s'.t)
    requires s'.history == s.history[id := Progress(r, None, None, None)]
    requires s.late <= s'.late <= s.late + {id}
    ensures RowsSound(s') && AllAdvanced(s, s')
  {
    assert RowSound(s'.t.attempts[id], s'.history[id]);
    hide RowSound;
  }

  lemma InsertTouches(t: Tables, t': Tables, id: Id, r: Reservation)
    requires Inserted(t, id, r) == Some(t')
    ensures OnlyTouches(t, t', r.launch.project)
  {
  }

  lemma InsertBacked(s: System, s': System, id: Id, r: Reservation)
    requires LaunchesBackAttempts(s) && s.late <= s.t.attempts.Keys && r.launch in s.t.launches
    requires Inserted(s.t, id, r) == Some(s'.t)
    requires s'.late == if IsActive(s.t.launches, r.launch) then s.late else s.late + {id}
    ensures LaunchesBackAttempts(s')
  {
  }

  lemma InsertKeepsTables(s: System, s': System, id: Id, r: Reservation)
    requires Inv(s) && r.launch in s.t.launches
    requires Inserted(s.t, id, r) == Some(s'.t)
    requires s'.history == s.history[id := Progress(r, None, None, None)]
    requires s'.late == if IsActive(s.t.launches, r.launch) then s.late else s.late + {id}
    ensures TablesKept(s, s')
  {
    hide SnapshotOf, FencesHold, PendingSound, LaunchesSound, RequestsSound, RowSound, Stepped, LaunchesBackAttempts;
    hide OnlyTouches;
    InsertAdvances(s, s', id, r);
    InsertBacked(s, s', id, r);
    InsertTouches(s.t, s'.t, id, r);
    FencesKept(s.t, s'.t, r.launch.project);
  }

  lemma InsertKeepsInv(s: System, req: Id)
    requires Inv(s) && req in s.pending && s.pending[req].Inserting?
    ensures Inv(Committed(s, req)) && AllAdvanced(s, Committed(s, req))
  {
    hide RowSound, Stepped, SnapshotOf, FencesHold, LaunchesBackAttempts, LaunchesSound, Inserted, AllAdvanced;
    var s', p := Committed(s, req), s.pending[req];
    assert PendingSound(s, p);
    if Inserted(s.t, p.id, p.reservation).Some? {
      InsertKeepsTables(s, s', p.id, p.reservation);
    } else {
      TablesUntouched(s, s');
    }
    RequestsKept(s, s', req, None);
  }

  // ........................................................... launches

  lemma CancelAdvances(row: Row, h: Progress, launch: LaunchId)
    requires RowSound(row, h)
    ensures Stepped(row, h, CancelledBy(row, launch), h) && RowSound(CancelledBy(row, launch), h)
    ensures LaunchOf(CancelledBy(row, launch).payload) == LaunchOf(row.payload)
    ensures CancelledBy(row, launch) == row || (CancelledBy(row, launch).state.Cancelled? && LaunchOf(row.payload) == launch)
    ensures Rank(CancelledBy(row, launch).state) <= 2 ==> LaunchOf(row.payload) != launch
  {
  }

  lemma RevokeAdvances(s: System, s': System, launch: LaunchId, client: Id)
    requires RowsSound(s) && LaunchRevoked(s.t, launch, client) == Some(s'.t)
    requires s'.history == s.history && s'.late == s.late
    ensures RowsSound(s') && AllAdvanced(s, s')
  {
    hide RowSound, Stepped, CancelledBy;
    forall id | id in s.t.attempts
      ensures RowSound(s'.t.attempts[id], s'.history[id])
      ensures Stepped(s.t.attempts[id], s.history[id], s'.t.attempts[id], s'.history[id])
    {
      CancelAdvances(s.t.attempts[id], s.history[id], launch);
    }
  }

  lemma RevokeBacked(s: System, s': System, launch: LaunchId, client: Id)
    requires RowsSound(s) && LaunchesBackAttempts(s) && LaunchRevoked(s.t, launch, client) == Some(s'.t)
    requires s'.late == s.late
    ensures LaunchesBackAttempts(s')
  {
    hide RowSound, Stepped, CancelledBy;
    forall id | id in s.t.attempts
      ensures LaunchOf(s'.t.attempts[id].payload) == LaunchOf(s.t.attempts[id].payload)
      ensures s'.t.attempts[id] == s.t.attempts[id] || s'.t.attempts[id].state.Cancelled?
      ensures Rank(s'.t.attempts[id].state) <= 2 ==> LaunchOf(s'.t.attempts[id].payload) != launch
    {
      CancelAdvances(s.t.attempts[id], s.history[id], launch);
    }
  }

  lemma RevokeKeepsTables(s: System, s': System, launch: LaunchId, client: Id)
    requires Inv(s) && LaunchRevoked(s.t, launch, client) == Some(s'.t)
    requires s'.history == s.history && s'.late == s.late
    ensures TablesKept(s, s')
  {
    hide SnapshotOf, FencesHold, PendingSound, RequestsSound, RowSound, Stepped, LaunchesBackAttempts, OnlyTouches, CancelledBy;
    RevokeAdvances(s, s', launch, client);
    RevokeBacked(s, s', launch, client);
    RevokeTouches(s.t, s'.t, launch, client);
    FencesKept(s.t, s'.t, launch.project);
  }

  lemma RevokeTouches(t: Tables, t': Tables, launch: LaunchId, client: Id)
    requires LaunchRevoked(t, launch, client) == Some(t')
    ensures OnlyTouches(t, t', launch.project)
  {
  }

  lemma CreateKeepsTables(s: System, s': System, launch: LaunchId, l: Launch)
    requires Inv(s) && l.active && LaunchCreated(s.t, launch, l) == Some(s'.t)
    requires s'.history == s.history && s'.late == s.late
    ensures TablesKept(s, s')
  {
    hide SnapshotOf, FencesHold, PendingSound, RequestsSound, RowSound, Follows, LaunchesSound, CapabilitiesSound;
    hide OnlyTouches, LaunchesBackAttempts;
    CreateFollows(s.t, s'.t, launch, l);
    CreateSpends(s.t, s'.t, launch, l);
    CreateBacked(s, s', launch, l);
    CreateTouches(s.t, s'.t, launch, l);
    FencesKept(s.t, s'.t, launch.project);
  }

  lemma CreateFollows(t: Tables, t': Tables, launch: LaunchId, l: Launch)
    requires LaunchesSound(t.launches) && LaunchCreated(t, launch, l) == Some(t')
    ensures LaunchesSound(t'.launches)
  {
    forall k | k in t.launches && 1 < k.generation
      ensures LaunchId(k.project, k.generation - 1) != launch
    {
      var before := LaunchId(k.project, k.generation - 1);
      assert before in t.launches;
    }
  }

  lemma CreateTouches(t: Tables, t': Tables, launch: LaunchId, l: Launch)
    requires LaunchCreated(t, launch, l) == Some(t')
    ensures OnlyTouches(t, t', launch.project)
  {
    hide Follows;
  }

  lemma CreateBacked(s: System, s': System, launch: LaunchId, l: Launch)
    requires LaunchesBackAttempts(s) && LaunchCreated(s.t, launch, l) == Some(s'.t) && s'.late == s.late
    ensures LaunchesBackAttempts(s')
  {
    hide Follows;
  }

  lemma CreateSpends(t: Tables, t': Tables, launch: LaunchId, l: Launch)
    requires CapabilitiesSound(t) && LaunchCreated(t, launch, l) == Some(t')
    ensures CapabilitiesSound(t')
  {
    hide Follows;
  }

  lemma LaunchKeepsInv(s: System, e: Event)
    requires Inv(s) && (e.CreateLaunch? || e.RevokeLaunch?)
    ensures Inv(Next(s, e)) && AllAdvanced(s, Next(s, e))
  {
    hide RowSound, Stepped, SnapshotOf, FencesHold, LaunchesBackAttempts, LaunchesSound, PendingSound, AllAdvanced;
    hide LaunchRevoked, LaunchCreated, CapabilitiesSound;
    var s' := Next(s, e);
    var stored := if e.RevokeLaunch? then LaunchRevoked(s.t, e.launch, e.client)
      else LaunchCreated(s.t, e.launch, Launch(true, e.client, e.capability, e.expiresAt));
    if stored.None? {
      TablesUntouched(s, s');
    } else if e.RevokeLaunch? {
      RevokeKeepsTables(s, s', e.launch, e.client);
    } else {
      CreateKeepsTables(s, s', e.launch, Launch(true, e.client, e.capability, e.expiresAt));
    }
    RequestsUntouched(s, s');
  }

  // ............................................................. fences

  lemma SnapshotIgnoresFences(t: Tables, t': Tables, scope: set<Id>)
    requires t' == t.(fences := t'.fences)
    ensures SnapshotOf(t', scope) == SnapshotOf(t, scope)
  {
  }

  lemma FenceKeepsTables(s: System, s': System)
    requires Inv(s)
    requires s' == s.(t := s.t.(fences := s'.t.fences))
    requires forall f :: f in s.t.fences ==>
      f in s'.t.fences && s'.t.fences[f] in {s.t.fences[f], s.t.fences[f].(active := false)}
    requires forall f :: f in s'.t.fences && s'.t.fences[f].active ==>
      (f in s.t.fences && s'.t.fences[f] == s.t.fences[f])
      || s'.t.fences[f].snapshot == SnapshotOf(s.t, s'.t.fences[f].scope)
    ensures TablesKept(s, s')
  {
    hide PendingSound, RowSound, LaunchesSound, SnapshotOf, RequestsSound;
    forall f | f in s'.t.fences && s'.t.fences[f].active
      ensures s'.t.fences[f].snapshot == SnapshotOf(s'.t, s'.t.fences[f].scope)
    {
      SnapshotIgnoresFences(s.t, s'.t, s'.t.fences[f].scope);
    }
  }

  lemma FenceKeepsInv(s: System, e: Event)
    requires Inv(s) && (e.BeginFence? || e.EndFence?)
    ensures Inv(Next(s, e)) && AllAdvanced(s, Next(s, e))
  {
    hide RowSound, Stepped, SnapshotOf, FencesHold, LaunchesBackAttempts, LaunchesSound, PendingSound, AllAdvanced;
    var s' := Next(s, e);
    FenceKeepsTables(s, s');
    RequestsUntouched(s, s');
  }

  // ...................................................... reads and reports

  lemma RequestChanges(s: System, s': System, req: Id, next: Option<Pending>)
    requires Inv(s) && s' == s.(pending := With(s.pending, req, next))
    requires next.Some? ==> PendingSound(s, next.value)
    ensures Inv(s') && AllAdvanced(s, s')
  {
    hide RowSound, Stepped, SnapshotOf, FencesHold, LaunchesBackAttempts, LaunchesSound, CapabilitiesSound;
    hide PendingSound, AllAdvanced;
    TablesUntouched(s, s');
    if next.Some? {
      PendingKept(s, s', next.value);
    }
    RequestsKept(s, s', req, next);
  }

  predicate IsRead(e: Event) {
    e.ReserveRead? || e.BindRead? || e.ExecuteRead? || e.RecordStartRead? || e.FinalizeRead?
    || e.CancelRead? || e.PauseRead? || e.ResumeRead?
  }

  lemma ReadKeepsInv(s: System, e: Event)
    requires Inv(s) && IsRead(e)
    ensures Inv(Next(s, e)) && AllAdvanced(s, Next(s, e))
  {
    hide RowSound, Stepped, SnapshotOf, FencesHold, LaunchesBackAttempts, LaunchesSound, CapabilitiesSound;
    hide PendingSound, AllAdvanced;
    var s' := Next(s, e);
    if s' == s {
      TablesUntouched(s, s');
    } else {
      ReadSound(s, e);
      RequestChanges(s, s', e.req,
        match e
        case ReserveRead(req, id, r) => AfterReserveRead(s.t.launches, id, r)
        case BindRead(req, id, input, client) => AfterBindRead(s.t.attempts[id], id, input, client)
        case ExecuteRead(req, id, client, claim) => AfterExecuteRead(s.t.attempts[id], id, client, claim)
        case RecordStartRead(req, id, client, start) => AfterRecordStartRead(s.t.attempts[id], id, client, start)
        case FinalizeRead(req, id, client, o, evidence) => AfterFinalizeRead(s.t.attempts[id], id, client, o, evidence)
        case CancelRead(req, id, client) => AfterCancelRead(s.t.attempts[id], id, client)
        case PauseRead(req, id, client) => AfterToggleRead(s.t.attempts[id], id, client, Started, Paused)
        case ResumeRead(req, id, client) => AfterToggleRead(s.t.attempts[id], id, client, Paused, Started)
        case _ => None);
    }
  }

  /** What the observer reports is turned into a sound request. */
  lemma ReportSound(s: System, p: Pending, e: Event)
    requires RowsSound(s) && PendingSound(s, p)
    ensures p.Observing? && e.ReportStart? ==> PendingSound(s, Starting(p.id, p.claimed, e.start))
    ensures p.Observing? || p.Executing? ==>
      var q := AfterObserverFails(s.t.attempts[p.id], p.id); q.Some? ==> PendingSound(s, q.value)
    ensures p.Executing? && e.Observed? ==>
      var q := AfterObserved(s.t.attempts[p.id], p.id, p.started, e.outcome, e.evidence); q.Some? ==> PendingSound(s, q.value)
  {
    if p.Observing? || p.Executing? {
      assert RowSound(s.t.attempts[p.id], s.history[p.id]);
    }
  }

  lemma ReportKeepsInv(s: System, e: Event)
    requires Inv(s) && (e.ReportStart? || e.ObserverFails? || e.Observed?)
    ensures Inv(Next(s, e)) && AllAdvanced(s, Next(s, e))
  {
    hide RowSound, Stepped, SnapshotOf, FencesHold, LaunchesBackAttempts, LaunchesSound, CapabilitiesSound;
    hide PendingSound, AllAdvanced;
    var s' := Next(s, e);
    if e.req in s.pending {
      var p := s.pending[e.req];
      ReportSound(s, p, e);
      if e.ReportStart? && p.Observing? {
        RequestChanges(s, s', e.req, Some(Starting(p.id, p.claimed, e.start)));
      } else if e.ObserverFails? && (p.Observing? || p.Executing?) && p.id in s.t.attempts {
        RequestChanges(s, s', e.req, AfterObserverFails(s.t.attempts[p.id], p.id));
      } else if e.Observed? && p.Executing? && p.id in s.t.attempts {
        RequestChanges(s, s', e.req, AfterObserved(s.t.attempts[p.id], p.id, p.started, e.outcome, e.evidence));
      } else {
        TablesUntouched(s, s');
      }
    } else {
      TablesUntouched(s, s');
    }
  }

  lemma StepKeepsInv(s: System, e: Event)
    requires Inv(s)
    ensures Inv(Next(s, e)) && AllAdvanced(s, Next(s, e))
  {
    hide RowSound, Stepped, SnapshotOf, FencesHold, LaunchesBackAttempts, LaunchesSound, CapabilitiesSound;
    hide PendingSound, AllAdvanced;
    if IsRead(e) {
      ReadKeepsInv(s, e);
    } else if e.ReportStart? || e.ObserverFails? || e.Observed? {
      ReportKeepsInv(s, e);
    } else if e.CreateLaunch? || e.RevokeLaunch? {
      LaunchKeepsInv(s, e);
    } else if e.BeginFence? || e.EndFence? {
      FenceKeepsInv(s, e);
    } else if e.Commit? && e.req in s.pending && s.pending[e.req].Swapping? {
      SwapKeepsInv(s, e.req);
    } else if e.Commit? && e.req in s.pending && s.pending[e.req].Inserting? {
      InsertKeepsInv(s, e.req);
    } else if e.Claim? && e.req in s.pending && s.pending[e.req].Claiming? {
      ClaimKeepsInv(s, e.req, e.now, e.usable);
    } else {
      TablesUntouched(s, Next(s, e));
    }
  }
}
