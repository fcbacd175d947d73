/** The Authority service's tables and the transactions that change them. */
module AuthorityStore {
  import opened Common

  datatype State =
    | Reserved | InputBound | LaunchClaimed | Started | Paused | CancellationClaimed
    | Completed | Failed | TimedOut | Cancelled | WaitingForReset | Uncertain

  datatype Outcome = CompletedOutcome | FailedOutcome | TimedOutOutcome | CancelledOutcome | WaitingOutcome

  /** `normalized_result.upper()`. */
  function StateOf(o: Outcome): State {
    match o
    case CompletedOutcome => Completed
    case FailedOutcome => Failed
    case TimedOutOutcome => TimedOut
    case CancelledOutcome => Cancelled
    case WaitingOutcome => WaitingForReset
  }

  /** A project's launch authorization is named by its project and generation. */
  datatype LaunchId = LaunchId(project: Id, generation: int)

  /** One row of founder_capability_consumptions: what a Founder's approval was spent with. */
  datatype Capability = Capability(
    id: Id, digest: Id, signature: Id, authorization: Id, project: Id, approvalRecord: Id, approvalEvent: Id,
    session: Id, challenge: Id, approvalDigest: Id, proofDigest: Id)

  datatype Launch = Launch(active: bool, client: Id, capability: Capability, expiresAt: Stamp)

  /** Two rows that one of the table's ten unique keys forbids together. */
  predicate Clash(a: Capability, b: Capability) {
    || a.id == b.id || a.digest == b.digest || a.signature == b.signature || a.authorization == b.authorization
    || (a.project == b.project
        && (a.approvalRecord == b.approvalRecord || a.approvalEvent == b.approvalEvent || a.session == b.session
            || a.challenge == b.challenge || a.approvalDigest == b.approvalDigest || a.proofDigest == b.proofDigest))
  }

  predicate Spendable(spent: set<Capability>, c: Capability) {
    forall s :: s in spent ==> !Clash(s, c)
  }

  /** What an attempt was reserved for. The terms stand for the fields that are only copied. */
  datatype Reservation = Reservation(launch: LaunchId, client: Id, inputRequired: bool, terms: Id)

  /** The four digests of a bound provider input. */
  datatype Input = Input(providerInput: Id, delivered: Id, manifest: Id, receipt: Id)

  datatype Start = Start(process: Id, challenge: Id)

  /** An attempt's record before it is finished; each step adds a part and keeps the others. */
  datatype Progress = Progress(
    reservation: Reservation, input: Option<Input>, claim: Option<Id>, start: Option<Start>)

  /** `_completion_record`: a fresh record that repeats parts of the attempt. */
  datatype Completion = Completion(
    launch: LaunchId, client: Id, terms: Id, input: Option<Input>, claim: Option<Id>,
    start: Option<Start>, outcome: Outcome, evidence: Id)

  datatype Payload = InProgress(progress: Progress) | Finished(completion: Completion)

  datatype Row = Row(state: State, payload: Payload)

  datatype Snapshot = Snapshot(attempts: map<Id, Row>, launches: map<LaunchId, Launch>, versions: map<Id, nat>)

  datatype Fence = Fence(active: bool, client: Id, scope: set<Id>, expiresAt: Stamp, snapshot: Snapshot)

  /** Fences are named by their restore operation. */
  datatype Tables = Tables(
    attempts: map<Id, Row>, launches: map<LaunchId, Launch>, capabilities: set<Capability>,
    fences: map<Id, Fence>, versions: map<Id, nat>)

  function LaunchOf(p: Payload): LaunchId {
    match p
    case InProgress(progress) => progress.reservation.launch
    case Finished(completion) => completion.launch
  }

  function ProjectOf(p: Payload): Id {
    LaunchOf(p).project
  }

  function CompletionOf(p: Progress, outcome: Outcome, evidence: Id): Completion {
    Completion(p.reservation.launch, p.reservation.client, p.reservation.terms, p.input, p.claim, p.start, outcome, evidence)
  }

  predicate Unfenced(fences: map<Id, Fence>, project: Id) {
    forall f :: f in fences && fences[f].active ==> project !in fences[f].scope
  }

  function Bumped(versions: map<Id, nat>, project: Id): map<Id, nat> {
    versions[project := if project in versions then versions[project] + 1 else 1]
  }

  // --------------------------------------------------------- transactions

  /** `insert` of a reserved attempt: a fresh key in an unfenced project. */
  function Inserted(t: Tables, id: Id, r: Reservation): Option<Tables> {
    if id in t.attempts || !Unfenced(t.fences, r.launch.project) then None
    else Some(t.(attempts := t.attempts[id := Row(Reserved, InProgress(Progress(r, None, None, None)))],
                 versions := Bumped(t.versions, r.launch.project)))
  }

  /** `transition`: compare the state and swap state and payload. */
  function Transitioned(t: Tables, id: Id, expected: State, target: State, payload: Payload): Option<Tables> {
    if id !in t.attempts || ProjectOf(payload) != ProjectOf(t.attempts[id].payload)
       || !Unfenced(t.fences, ProjectOf(payload)) || t.attempts[id].state != expected
    then None
    else Some(t.(attempts := t.attempts[id := Row(target, payload)], versions := Bumped(t.versions, ProjectOf(payload))))
  }

  predicate LaunchUsable(launches: map<LaunchId, Launch>, launch: LaunchId, client: Id, now: Stamp) {
    launch in launches && launches[launch].active && launches[launch].client == client && now < launches[launch].expiresAt
  }

  datatype ClaimResult = ClaimRefused | UsageExhausted | ClaimTaken(after: Tables)

  /** `claim_attempt_with_launch_authority`: the launch generation, its lease, the provider's
      usage and the attempt's state, checked in that order in one transaction. */
  function Claimed(t: Tables, id: Id, client: Id, expected: State, claim: Progress, now: Stamp, usable: bool): ClaimResult {
    var launch := claim.reservation.launch;
    if !Unfenced(t.fences, launch.project) || !LaunchUsable(t.launches, launch, client, now) then ClaimRefused
    else if !usable then UsageExhausted
    else if id !in t.attempts || t.attempts[id].state != expected then ClaimRefused
    else ClaimTaken(t.(attempts := t.attempts[id := Row(LaunchClaimed, InProgress(claim))],
                       versions := Bumped(t.versions, launch.project)))
  }

  ghost predicate NewestGeneration(launches: map<LaunchId, Launch>, launch: LaunchId) {
    && launch in launches
    && forall k :: k in launches && k.project == launch.project ==> k.generation <= launch.generation
  }

  /** Whether a new generation may follow the stored ones: the first is one, and a higher one
      succeeds a revoked newest generation held by the same client. */
  ghost predicate Follows(launches: map<LaunchId, Launch>, launch: LaunchId, client: Id) {
    var before := LaunchId(launch.project, launch.generation - 1);
    if exists k :: k in launches && k.project == launch.project
    then NewestGeneration(launches, before) && !launches[before].active && launches[before].client == client
    else launch.generation == 1
  }

  /** `create_launch_authorization`, when it changes anything. */
  ghost function LaunchCreated(t: Tables, launch: LaunchId, l: Launch): Option<Tables> {
    if !Unfenced(t.fences, launch.project) || launch in t.launches
       || !Follows(t.launches, launch, l.client) || !Spendable(t.capabilities, l.capability)
    then None
    else Some(t.(launches := t.launches[launch := l], capabilities := t.capabilities + {l.capability},
                 versions := Bumped(t.versions, launch.project)))
  }

  predicate Revocable(row: Row, launch: LaunchId) {
    row.state in {Reserved, InputBound, LaunchClaimed} && LaunchOf(row.payload) == launch
  }

  function CancelledBy(row: Row, launch: LaunchId): Row {
    if Revocable(row, launch) then row.(state := Cancelled) else row
  }

  /** `revoke_launch_authorization`: one transaction with the cancellation of its attempts. */
  function LaunchRevoked(t: Tables, launch: LaunchId, client: Id): Option<Tables> {
    if !Unfenced(t.fences, launch.project) || launch !in t.launches
       || !t.launches[launch].active || t.launches[launch].client != client
    then None
    else Some(t.(launches := t.launches[launch := t.launches[launch].(active := false)],
                 attempts := map id | id in t.attempts :: CancelledBy(t.attempts[id], launch),
                 versions := Bumped(t.versions, launch.project)))
  }

  /** `_restore_snapshot`. */
  ghost function SnapshotOf(t: Tables, scope: set<Id>): Snapshot {
    Snapshot(
      map id | id in t.attempts && ProjectOf(t.attempts[id].payload) in scope :: t.attempts[id],
      map l | l in t.launches && l.project in scope :: t.launches[l],
      map p | p in scope :: if p in t.versions then t.versions[p] else 0)
  }

  ghost function FenceBegun(t: Tables, operation: Id, client: Id, scope: set<Id>, expiresAt: Stamp): Option<Tables> {
    if (exists p :: p in scope && !Unfenced(t.fences, p)) || operation in t.fences then None
    else Some(t.(fences := t.fences[operation := Fence(true, client, scope, expiresAt, SnapshotOf(t, scope))]))
  }

  datatype FenceEnd = CompleteFence | AbortFence | ExpireFence

  predicate FenceMayEnd(f: Fence, client: Id, end: FenceEnd, now: Stamp) {
    f.active && f.client == client
    && match end
       case CompleteFence => now < f.expiresAt
       case AbortFence => true
       case ExpireFence => f.expiresAt <= now
  }

  function FenceFinished(t: Tables, operation: Id, client: Id, end: FenceEnd, now: Stamp): Option<Tables> {
    if operation !in t.fences || !FenceMayEnd(t.fences[operation], client, end, now) then None
    else Some(t.(fences := t.fences[operation := t.fences[operation].(active := false)]))
  }

  ghost function Or(r: Option<Tables>, t: Tables): Tables {
    if r.Some? then r.value else t
  }

  // ------------------------------------------------------------- the store

  class Store {
    var attempts: map<Id, Row>
    var launches: map<LaunchId, Launch>
    var capabilities: set<Capability>
    var fences: map<Id, Fence>
    var versions: map<Id, nat>

    constructor ()
      ensures Value() == Tables(map[], map[], {}, map[], map[])
    {
      attempts, launches, capabilities, fences, versions := map[], map[], {}, map[], map[];
    }

    ghost function Value(): Tables
      reads this
    {
      Tables(attempts, launches, capabilities, fences, versions)
    }

    /** `_assert_projects_unfenced`. */
    method IsUnfenced(projects: set<Id>) returns (ok: bool)
      ensures ok <==> forall p :: p in projects ==> Unfenced(fences, p)
    {
      var todo := fences.Keys;
      while todo != {}
        invariant todo <= fences.Keys
        invariant forall p, f :: p in projects && f in fences && f !in todo && fences[f].active ==>
          p !in fences[f].scope
        decreases todo
      {
        var f := LeastId(todo);
        assert forall p :: p in projects * fences[f].scope <==> p in projects && p in fences[f].scope;
        if fences[f].active && projects * fences[f].scope != {} {
          var p :| p in projects * fences[f].scope;
          assert !Unfenced(fences, p);
          return false;
        }
        todo := todo - {f};
      }
      ok := true;
    }

    method Bump(project: Id)
      modifies this`versions
      ensures versions == Bumped(old(versions), project)
    {
      versions := versions[project := if project in versions then versions[project] + 1 else 1];
    }

    method Insert(id: Id, r: Reservation) returns (ok: bool)
      modifies this
      ensures ok <==> Inserted(old(Value()), id, r).Some?
      ensures Value() == Or(Inserted(old(Value()), id, r), old(Value()))
    {
      var unfenced := IsUnfenced({r.launch.project});
      if !unfenced || id in attempts {
        return false;
      }
      attempts := attempts[id := Row(Reserved, InProgress(Progress(r, None, None, None)))];
      Bump(r.launch.project);
      ok := true;
    }

    method Transition(id: Id, expected: State, target: State, payload: Payload) returns (ok: bool)
      modifies this
      ensures ok <==> Transitioned(old(Value()), id, expected, target, payload).Some?
      ensures Value() == Or(Transitioned(old(Value()), id, expected, target, payload), old(Value()))
    {
      if id !in attempts || ProjectOf(payload) != ProjectOf(attempts[id].payload) {
        return false;
      }
      var unfenced := IsUnfenced({ProjectOf(payload)});
      if !unfenced || attempts[id].state != expected {
        return false;
      }
      attempts := attempts[id := Row(target, payload)];
      Bump(ProjectOf(payload));
      ok := true;
    }

    method Claim(id: Id, client: Id, expected: State, claim: Progress, now: Stamp, usable: bool)
      returns (taken: bool, exhausted: bool)
      modifies this
      ensures var r := Claimed(old(Value()), id, client, expected, claim, now, usable);
        taken == r.ClaimTaken? && exhausted == r.UsageExhausted?
        && Value() == if r.ClaimTaken? then r.after else old(Value())
    {
      var launch := claim.reservation.launch;
      var unfenced := IsUnfenced({launch.project});
      if !unfenced || launch !in launches || !launches[launch].active || launches[launch].client != client {
        return false, false;
      }
      if launches[launch].expiresAt <= now {
        return false, false;
      }
      if !usable {
        return false, true;
      }
      if id !in attempts || attempts[id].state != expected {
        return false, false;
      }
      attempts := attempts[id := Row(LaunchClaimed, InProgress(claim))];
      Bump(launch.project);
      taken, exhausted := true, false;
    }

    /** The newest stored generation of a project. */
    method Newest(project: Id) returns (newest: Option<LaunchId>)
      ensures newest.None? <==> forall k :: k in launches ==> k.project != project
      ensures newest.Some? ==> newest.value.project == project && NewestGeneration(launches, newest.value)
    {
      newest := None;
      var todo := launches.Keys;
      while todo != {}
        invariant todo <= launches.Keys
        invariant newest.None? <==> forall k :: k in launches && k !in todo ==> k.project != project
        invariant newest.Some? ==> newest.value in launches && newest.value.project == project
        invariant newest.Some? ==> forall k :: k in launches && k !in todo && k.project == project ==>
          k.generation <= newest.value.generation
        decreases todo
      {
        var k :| k in todo;
        if k.project == project && (newest.None? || newest.value.generation < k.generation) {
          newest := Some(k);
        }
        todo := todo - {k};
      }
    }

    method CreateLaunch(launch: LaunchId, l: Launch) returns (ok: bool)
      requires l.active
      modifies this
      ensures ok <==>
        || LaunchCreated(old(Value()), launch, l).Some?
        || (Unfenced(old(fences), launch.project) && launch in old(launches) && old(launches)[launch] == l)
      ensures Value() == Or(LaunchCreated(old(Value()), launch, l), old(Value()))
    {
      var unfenced := IsUnfenced({launch.project});
      if !unfenced {
        return false;
      }
      if launch in launches {
        return launches[launch] == l;
      }
      var newest := Newest(launch.project);
      if newest.Some? {
        if launch.generation != newest.value.generation + 1 || launches[newest.value].active
           || launches[newest.value].client != l.client {
          return false;
        }
        assert newest.value == LaunchId(launch.project, launch.generation - 1);
      } else if launch.generation != 1 {
        return false;
      }
      var c := l.capability;
      if exists s :: s in capabilities && (s.id == c.id || s.digest == c.digest || s.signature == c.signature
                                           || s.authorization == c.authorization) {
        return false;
      }
      if exists s :: s in capabilities && s.project == c.project
                     && (s.approvalRecord == c.approvalRecord || s.approvalEvent == c.approvalEvent
                         || s.session == c.session || s.challenge == c.challenge
                         || s.approvalDigest == c.approvalDigest || s.proofDigest == c.proofDigest) {
        return false;
      }
      capabilities := capabilities + {l.capability};
      launches := launches[launch := l];
      Bump(launch.project);
      ok := true;
    }

    method RevokeLaunch(launch: LaunchId, client: Id) returns (ok: bool)
      modifies this
      ensures ok <==> LaunchRevoked(old(Value()), launch, client).Some?
      ensures Value() == Or(LaunchRevoked(old(Value()), launch, client), old(Value()))
    {
      var unfenced := IsUnfenced({launch.project});
      if !unfenced || launch !in launches || !launches[launch].active || launches[launch].client != client {
        return false;
      }
      launches := launches[launch := launches[launch].(active := false)];
      CancelAttempts(launch);
      Bump(launch.project);
      ok := true;
    }

    method CancelAttempts(launch: LaunchId)
      modifies this`attempts
      ensures attempts == map id | id in old(attempts) :: CancelledBy(old(attempts)[id], launch)
    {
      ghost var before := attempts;
      var todo := set id | id in attempts && attempts[id].state in {Reserved, InputBound, LaunchClaimed};
      while todo != {}
        invariant todo <= before.Keys && attempts.Keys == before.Keys
        invariant forall id :: id in before ==>
          attempts[id] == if id in todo then before[id] else CancelledBy(before[id], launch)
        decreases todo
      {
        var id := LeastId(todo);
        if LaunchOf(attempts[id].payload) == launch {
          attempts := attempts[id := attempts[id].(state := Cancelled)];
        }
        todo := todo - {id};
      }
    }

    method BeginFence(operation: Id, client: Id, scope: set<Id>, expiresAt: Stamp) returns (ok: bool)
      modifies this`fences
      ensures ok <==> FenceBegun(old(Value()), operation, client, scope, expiresAt).Some?
      ensures Value() == Or(FenceBegun(old(Value()), operation, client, scope, expiresAt), old(Value()))
    {
      var unfenced := IsUnfenced(scope);
      if !unfenced || operation in fences {
        return false;
      }
      var snapshot := TakeSnapshot(scope);
      fences := fences[operation := Fence(true, client, scope, expiresAt, snapshot)];
      ok := true;
    }

    method TakeSnapshot(scope: set<Id>) returns (s: Snapshot)
      ensures s == SnapshotOf(Value(), scope)
    {
      s := Snapshot(
        map id | id in attempts && ProjectOf(attempts[id].payload) in scope :: attempts[id],
        map l | l in launches && l.project in scope :: launches[l],
        map p | p in scope :: if p in versions then versions[p] else 0);
    }

    /** `confirm_restore_fence`: refuses when anything fenced has changed. */
    method ConfirmFence(operation: Id, client: Id, now: Stamp) returns (ok: bool)
      ensures ok <==>
        && operation in fences && FenceMayEnd(fences[operation], client, CompleteFence, now)
        && SnapshotOf(Value(), fences[operation].scope) == fences[operation].snapshot
    {
      if operation !in fences || !fences[operation].active || fences[operation].client != client
         || fences[operation].expiresAt <= now {
        return false;
      }
      var current := TakeSnapshot(fences[operation].scope);
      ok := current == fences[operation].snapshot;
    }

    method EndFence(operation: Id, client: Id, end: FenceEnd, now: Stamp) returns (ok: bool)
      modifies this`fences
      ensures ok <==> FenceFinished(old(Value()), operation, client, end, now).Some?
      ensures Value() == Or(FenceFinished(old(Value()), operation, client, end, now), old(Value()))
    {
      if operation !in fences || !fences[operation].active || fences[operation].client != client {
        return false;
      }
      var expired := fences[operation].expiresAt <= now;
      if (end.CompleteFence? && expired) || (end.ExpireFence? && !expired) {
        return false;
      }
      fences := fences[operation := fences[operation].(active := false)];
      ok := true;
    }
  }
}
