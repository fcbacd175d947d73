/** The Authority request handlers, split where other requests can come between: a handler reads
    a record, and later asks the store for one transaction computed from what it read. */
module AuthorityService {
  import opened Common
  import opened AuthorityStore

  /** What a request in progress will do next. */
  datatype Pending =
    | Inserting(id: Id, reservation: Reservation)
    | Swapping(id: Id, expected: State, target: State, payload: Payload,
               onSuccess: Option<Pending>, onRefusal: Option<Pending>)
    | Claiming(id: Id, expected: State, read: Progress, claim: Id)
    | Observing(id: Id, claimed: Progress)
    | Executing(id: Id, started: Progress)

  /** A handler's first step names the request; later steps of the same request refer to it. */
  datatype Event =
    | ReserveRead(req: Id, id: Id, reservation: Reservation)
    | BindRead(req: Id, id: Id, input: Input, client: Id)
    | ExecuteRead(req: Id, id: Id, client: Id, claim: Id)
    | RecordStartRead(req: Id, id: Id, client: Id, start: Start)
    | FinalizeRead(req: Id, id: Id, client: Id, outcome: Outcome, evidence: Id)
    | CancelRead(req: Id, id: Id, client: Id)
    | PauseRead(req: Id, id: Id, client: Id)
    | ResumeRead(req: Id, id: Id, client: Id)
    | Claim(req: Id, now: Stamp, usable: bool)
    | ReportStart(req: Id, start: Start)
    | ObserverFails(req: Id)
    | Observed(req: Id, outcome: Outcome, evidence: Id)
    | Commit(req: Id)
    | CreateLaunch(launch: LaunchId, client: Id, capability: Capability, expiresAt: Stamp)
    | RevokeLaunch(launch: LaunchId, client: Id)
    | BeginFence(operation: Id, client: Id, scope: set<Id>, expiresAt: Stamp)
    | EndFence(operation: Id, client: Id, end: FenceEnd, now: Stamp)
    | Restart

  // ---------------------------------------- what each handler makes of a read

  function AfterReserveRead(launches: map<LaunchId, Launch>, id: Id, r: Reservation): Option<Pending> {
    if r.launch in launches && launches[r.launch].active && launches[r.launch].client == r.client
    then Some(Inserting(id, r)) else None
  }

  predicate Owned(row: Row, client: Id) {
    row.payload.InProgress? && row.payload.progress.reservation.client == client
  }

  function AfterBindRead(row: Row, id: Id, input: Input, client: Id): Option<Pending> {
    if row.state.Reserved? && Owned(row, client)
    then Some(Swapping(id, Reserved, InputBound, InProgress(row.payload.progress.(input := Some(input))), None, None))
    else None
  }

  function AfterExecuteRead(row: Row, id: Id, client: Id, claim: Id): Option<Pending> {
    if row.state in {Reserved, InputBound} && Owned(row, client)
       && (row.payload.progress.reservation.inputRequired ==> row.state.InputBound?)
    then Some(Claiming(id, row.state, row.payload.progress, claim))
    else None
  }

  /** `record_provider_start`: for attempts that need no bound input. */
  function AfterRecordStartRead(row: Row, id: Id, client: Id, start: Start): Option<Pending> {
    if row.state in {Reserved, InputBound} && Owned(row, client) && !row.payload.progress.reservation.inputRequired
    then Some(Swapping(id, row.state, Started, InProgress(row.payload.progress.(start := Some(start))), None, None))
    else None
  }

  function AfterFinalizeRead(row: Row, id: Id, client: Id, outcome: Outcome, evidence: Id): Option<Pending> {
    if row.state.Started? && Owned(row, client) then Some(Finishing(id, row.payload.progress, outcome, evidence)) else None
  }

  function Finishing(id: Id, p: Progress, outcome: Outcome, evidence: Id): Pending {
    Swapping(id, Started, StateOf(outcome), Finished(CompletionOf(p, outcome, evidence)), None, None)
  }

  function AfterCancelRead(row: Row, id: Id, client: Id): Option<Pending> {
    if row.state in {Reserved, InputBound, LaunchClaimed, Started, Paused} && Owned(row, client)
    then Some(Swapping(id, row.state, CancellationClaimed, row.payload,
                       Some(Swapping(id, CancellationClaimed, Cancelled, row.payload, None, None)), None))
    else None
  }

  /** `_transition_attempt`: pause and resume. */
  function AfterToggleRead(row: Row, id: Id, client: Id, expected: State, target: State): Option<Pending> {
    if row.state == expected && Owned(row, client) then Some(Swapping(id, expected, target, row.payload, None, None)) else None
  }

  /** The start callback; when its transition is refused the observer is still running. */
  function Starting(id: Id, claimed: Progress, start: Start): Pending {
    var started := claimed.(start := Some(start));
    Swapping(id, LaunchClaimed, Started, InProgress(started), Some(Executing(id, started)), Some(Observing(id, claimed)))
  }

  /** The exception handler around the observer. */
  function AfterObserverFails(row: Row, id: Id): Option<Pending> {
    if row.state.LaunchClaimed? then Some(Swapping(id, LaunchClaimed, Uncertain, row.payload, None, None)) else None
  }

  function AfterObserved(row: Row, id: Id, started: Progress, outcome: Outcome, evidence: Id): Option<Pending> {
    if row.state.Cancelled? then None else Some(Finishing(id, started, outcome, evidence))
  }

  // --------------------------------------------------------------- the system

  /** The tables and the requests in progress; for each attempt the fullest progress ever
      stored, and the attempts whose reservation was stored after their launch was revoked. */
  datatype System = System(t: Tables, pending: map<Id, Pending>, history: map<Id, Progress>, late: set<Id>)

  const EMPTY := System(Tables(map[], map[], {}, map[], map[]), map[], map[], {})

  function With(pending: map<Id, Pending>, req: Id, next: Option<Pending>): map<Id, Pending> {
    if next.Some? then pending[req := next.value] else pending - {req}
  }

  function Read(s: System, req: Id, id: Id, next: Row -> Option<Pending>): System {
    if req in s.pending || id !in s.t.attempts then s
    else s.(pending := With(s.pending, req, next(s.t.attempts[id])))
  }

  function Recorded(history: map<Id, Progress>, id: Id, payload: Payload): map<Id, Progress> {
    if payload.InProgress? then history[id := payload.progress] else history
  }

  function Committed(s: System, req: Id): System
    requires req in s.pending
  {
    match s.pending[req]
    case Inserting(id, r) =>
      var stored := Inserted(s.t, id, r);
      var dropped := s.pending - {req};
      if stored.None? then s.(pending := dropped)
      else
        System(stored.value, dropped, s.history[id := Progress(r, None, None, None)],
               if r.launch in s.t.launches && s.t.launches[r.launch].active then s.late else s.late + {id})
    case Swapping(id, expected, target, payload, onSuccess, onRefusal) =>
      var stored := Transitioned(s.t, id, expected, target, payload);
      if stored.None? then s.(pending := With(s.pending, req, onRefusal))
      else s.(t := stored.value, pending := With(s.pending, req, onSuccess), history := Recorded(s.history, id, payload))
    case _ => s
  }

  function AfterClaim(s: System, req: Id, now: Stamp, usable: bool): System
    requires req in s.pending && s.pending[req].Claiming?
  {
    var p := s.pending[req];
    var claimed := p.read.(claim := Some(p.claim));
    match Claimed(s.t, p.id, p.read.reservation.client, p.expected, claimed, now, usable)
    case ClaimRefused => s.(pending := s.pending - {req})
    case UsageExhausted =>
      s.(pending := s.pending[req := Swapping(p.id, p.expected, WaitingForReset, InProgress(p.read), None, None)])
    case ClaimTaken(after) =>
      System(after, s.pending[req := Observing(p.id, claimed)], s.history[p.id := claimed], s.late)
  }

  ghost function Next(s: System, e: Event): System {
    match e
    case ReserveRead(req, id, r) =>
      if req in s.pending then s else s.(pending := With(s.pending, req, AfterReserveRead(s.t.launches, id, r)))
    case BindRead(req, id, input, client) => Read(s, req, id, row => AfterBindRead(row, id, input, client))
    case ExecuteRead(req, id, client, claim) => Read(s, req, id, row => AfterExecuteRead(row, id, client, claim))
    case RecordStartRead(req, id, client, start) => Read(s, req, id, row => AfterRecordStartRead(row, id, client, start))
    case FinalizeRead(req, id, client, o, evidence) => Read(s, req, id, row => AfterFinalizeRead(row, id, client, o, evidence))
    case CancelRead(req, id, client) => Read(s, req, id, row => AfterCancelRead(row, id, client))
    case PauseRead(req, id, client) => Read(s, req, id, row => AfterToggleRead(row, id, client, Started, Paused))
    case ResumeRead(req, id, client) => Read(s, req, id, row => AfterToggleRead(row, id, client, Paused, Started))
    case Claim(req, now, usable) =>
      if req in s.pending && s.pending[req].Claiming? then AfterClaim(s, req, now, usable) else s
    case ReportStart(req, start) =>
      if req in s.pending && s.pending[req].Observing?
      then s.(pending := s.pending[req := Starting(s.pending[req].id, s.pending[req].claimed, start)]) else s
    case ObserverFails(req) =>
      if req in s.pending && (s.pending[req].Observing? || s.pending[req].Executing?) && s.pending[req].id in s.t.attempts
      then s.(pending := With(s.pending, req, AfterObserverFails(s.t.attempts[s.pending[req].id], s.pending[req].id))) else s
    case Observed(req, outcome, evidence) =>
      if req in s.pending && s.pending[req].Executing? && s.pending[req].id in s.t.attempts
      then
        var p := s.pending[req];
        s.(pending := With(s.pending, req, AfterObserved(s.t.attempts[p.id], p.id, p.started, outcome, evidence)))
      else s
    case Commit(req) => if req in s.pending then Committed(s, req) else s
    case CreateLaunch(launch, client, capability, expiresAt) =>
      s.(t := Or(LaunchCreated(s.t, launch, Launch(true, client, capability, expiresAt)), s.t))
    case RevokeLaunch(launch, client) => s.(t := Or(LaunchRevoked(s.t, launch, client), s.t))
    case BeginFence(operation, client, scope, expiresAt) => s.(t := Or(FenceBegun(s.t, operation, client, scope, expiresAt), s.t))
    case EndFence(operation, client, end, now) => s.(t := Or(FenceFinished(s.t, operation, client, end, now), s.t))
    case Restart => s.(pending := map[])
  }

  ghost function Run(s: System, events: seq<Event>): System {
    if events == [] then s else Next(Run(s, events[..|events| - 1]), events[|events| - 1])
  }

  // ------------------------------------------------------------- the service

  /** The service: its store and the requests in progress. One call of `Perform` is one step. */
  class Service {
    const store: Store
    var pending: map<Id, Pending>
    ghost var history: map<Id, Progress>
    ghost var late: set<Id>

    constructor ()
      ensures Value() == EMPTY && fresh(store)
    {
      store := new Store();
      pending, history, late := map[], map[], {};
    }

    ghost function Value(): System
      reads this, store
    {
      System(store.Value(), pending, history, late)
    }

    method Keep(req: Id, next: Option<Pending>)
      modifies this`pending
      ensures pending == With(old(pending), req, next)
    {
      if next.Some? {
        pending := pending[req := next.value];
      } else {
        pending := pending - {req};
      }
    }

    /** The transaction a request is about to make. */
    method CommitRequest(req: Id)
      requires req in pending
      modifies this, store
      ensures Value() == Committed(old(Value()), req)
    {
      match pending[req]
      case Inserting(id, r) =>
        ghost var active := r.launch in store.launches && store.launches[r.launch].active;
        var stored := store.Insert(id, r);
        Keep(req, None);
        if stored {
          history := history[id := Progress(r, None, None, None)];
          late := if active then late else late + {id};
        }
      case Swapping(id, expected, target, payload, onSuccess, onRefusal) =>
        var swapped := store.Transition(id, expected, target, payload);
        if swapped {
          Keep(req, onSuccess);
          history := if payload.InProgress? then history[id := payload.progress] else history;
        } else {
          Keep(req, onRefusal);
        }
      case _ =>
    }

    method ClaimLaunch(req: Id, now: Stamp, usable: bool)
      requires req in pending && pending[req].Claiming?
      modifies this, store
      ensures Value() == AfterClaim(old(Value()), req, now, usable)
    {
      var p := pending[req];
      var claimed := p.read.(claim := Some(p.claim));
      var taken, exhausted := store.Claim(p.id, p.read.reservation.client, p.expected, claimed, now, usable);
      if taken {
        Keep(req, Some(Observing(p.id, claimed)));
        history := history[p.id := claimed];
      } else if exhausted {
        Keep(req, Some(Swapping(p.id, p.expected, WaitingForReset, InProgress(p.read), None, None)));
      } else {
        Keep(req, None);
      }
    }

    /** `_completion_record` and the state that the outcome names. */
    method Finish(id: Id, p: Progress, outcome: Outcome, evidence: Id) returns (next: Pending)
      ensures next == Finishing(id, p, outcome, evidence)
    {
      var r := p.reservation;
      var completion := Completion(r.launch, r.client, r.terms, p.input, p.claim, p.start, outcome, evidence);
      var state :=
        match outcome
        case CompletedOutcome => Completed
        case FailedOutcome => Failed
        case TimedOutOutcome => TimedOut
        case CancelledOutcome => Cancelled
        case WaitingOutcome => WaitingForReset;
      next := Swapping(id, Started, state, Finished(completion), None, None);
    }

    /** What a client asks of an attempt in progress that it reserved, or nothing where the handler
        refuses: inputs are bound before launch, starts only without a required input, and only a
        started attempt finishes or pauses. */
    method Ask(e: Event, state: State, p: Progress) returns (next: Option<Pending>)
      requires e.BindRead? || e.ExecuteRead? || e.RecordStartRead? || e.FinalizeRead?
        || e.CancelRead? || e.PauseRead? || e.ResumeRead?
      ensures var row := Row(state, InProgress(p));
        p.reservation.client == e.client ==>
          match e
          case BindRead(_, id, input, client) => next == AfterBindRead(row, id, input, client)
          case ExecuteRead(_, id, client, claim) => next == AfterExecuteRead(row, id, client, claim)
          case RecordStartRead(_, id, client, start) => next == AfterRecordStartRead(row, id, client, start)
          case FinalizeRead(_, id, client, o, evidence) => next == AfterFinalizeRead(row, id, client, o, evidence)
          case CancelRead(_, id, client) => next == AfterCancelRead(row, id, client)
          case PauseRead(_, id, client) => next == AfterToggleRead(row, id, client, Started, Paused)
          case _ => next == AfterToggleRead(row, e.id, e.client, Paused, Started)
    {
      next := None;
      var bindable, waiting, running := state.Reserved?, state.Reserved? || state.InputBound?, state.Started? || state.Paused?;
      match e {
        case BindRead(_, id, input, _) =>
          if bindable {
            next := Some(Swapping(id, state, InputBound, InProgress(p.(input := Some(input))), None, None));
          }
        case ExecuteRead(_, id, _, claim) =>
          if state.InputBound? || (bindable && !p.reservation.inputRequired) {
            next := Some(Claiming(id, state, p, claim));
          }
        case RecordStartRead(_, id, _, start) =>
          if waiting && !p.reservation.inputRequired {
            next := Some(Swapping(id, state, Started, InProgress(p.(start := Some(start))), None, None));
          }
        case FinalizeRead(_, id, _, outcome, evidence) =>
          if state.Started? {
            var finished := Finish(id, p, outcome, evidence);
            next := Some(finished);
          }
        case CancelRead(_, id, _) =>
          if waiting || running || state.LaunchClaimed? {
            var confirmed := Swapping(id, CancellationClaimed, Cancelled, InProgress(p), None, None);
            next := Some(Swapping(id, state, CancellationClaimed, InProgress(p), Some(confirmed), None));
          }
        case PauseRead(_, id, _) =>
          if state.Started? {
            next := Some(Swapping(id, Started, Paused, InProgress(p), None, None));
          }
        case ResumeRead(_, id, _) =>
          if state.Paused? {
            next := Some(Swapping(id, Paused, Started, InProgress(p), None, None));
          }
      }
    }

    /** The read steps: a request is named once, and reads the attempt it is about. */
    method ReadStep(e: Event)
      requires e.BindRead? || e.ExecuteRead? || e.RecordStartRead? || e.FinalizeRead?
        || e.CancelRead? || e.PauseRead? || e.ResumeRead?
      modifies this`pending
      ensures Value() == Next(old(Value()), e)
    {
      if e.req in pending || e.id !in store.attempts {
        return;
      }
      var row := store.attempts[e.id];
      var next: Option<Pending> := None;
      if row.payload.InProgress? && row.payload.progress.reservation.client == e.client {
        next := Ask(e, row.state, row.payload.progress);
      }
      Keep(e.req, next);
    }

    /** The steps an executing request takes between its transactions. */
    method ReportStep(e: Event)
      requires e.ReportStart? || e.ObserverFails? || e.Observed?
      modifies this`pending
      ensures Value() == Next(old(Value()), e)
    {
      if e.req !in pending {
        return;
      }
      var p := pending[e.req];
      if e.ReportStart? {
        if p.Observing? {
          var started := p.claimed.(start := Some(e.start));
          Keep(e.req, Some(Swapping(p.id, LaunchClaimed, Started, InProgress(started),
                                    Some(Executing(p.id, started)), Some(p))));
        }
      } else if p.id in store.attempts && (p.Executing? || (p.Observing? && e.ObserverFails?)) {
        var row := store.attempts[p.id];
        if e.Observed? && !row.state.Cancelled? {
          var finished := Finish(p.id, p.started, e.outcome, e.evidence);
          Keep(e.req, Some(finished));
        } else if e.ObserverFails? && row.state.LaunchClaimed? {
          Keep(e.req, Some(Swapping(p.id, LaunchClaimed, Uncertain, row.payload, None, None)));
        } else {
          Keep(e.req, None);
        }
      }
    }

    /** Any one step of the service. */
    method Perform(e: Event)
      modifies this, store
      ensures Value() == Next(old(Value()), e)
    {
      match e
      case ReserveRead(req, id, r) =>
        if req !in pending {
          var l := r.launch;
          var usable := l in store.launches && store.launches[l].active && store.launches[l].client == r.client;
          Keep(req, if usable then Some(Inserting(id, r)) else None);
        }
      case ReportStart(_, _) => ReportStep(e);
      case ObserverFails(_) => ReportStep(e);
      case Observed(_, _, _) => ReportStep(e);
      case Claim(req, now, usable) =>
        if req in pending && pending[req].Claiming? {
          ClaimLaunch(req, now, usable);
        }
      case Commit(req) =>
        if req in pending {
          CommitRequest(req);
        }
      case CreateLaunch(launch, client, capability, expiresAt) =>
        var created := store.CreateLaunch(launch, Launch(true, client, capability, expiresAt));
      case RevokeLaunch(launch, client) =>
        var revoked := store.RevokeLaunch(launch, client);
      case BeginFence(operation, client, scope, expiresAt) =>
        var begun := store.BeginFence(operation, client, scope, expiresAt);
      case EndFence(operation, client, end, now) =>
        var ended := store.EndFence(operation, client, end, now);
      case Restart =>
        pending := map[];
      case _ => ReadStep(e);
    }

    /** The service run on any events is the run of the model. */
    method Serve(events: seq<Event>)
      requires Value() == EMPTY
      modifies this, store
      ensures Value() == Run(EMPTY, events)
    {
      for k := 0 to |events|
        invariant Value() == Run(EMPTY, events[..k])
      {
        assert events[..k + 1][..k] == events[..k];
        Perform(events[k]);
      }
      assert events[..|events|] == events;
    }
  }
}
