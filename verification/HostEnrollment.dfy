/** Enrollment of the Provider Host: durable records, the live gateway they allow, and process
    deaths between any two steps of an operation. */
module HostEnrollment {
  import opened Common

  datatype EnrollmentState = Pending | Active | Uncertain | Revoked | Expired

  datatype Doubt = ActivationDoubt | RevocationDoubt

  datatype Record = Record(
    state: EnrollmentState, generation: int, capability: Id, proposal: Id, client: Id,
    grantExpires: Stamp, proof: Option<Id>, doubt: Option<Doubt>, revocation: Option<Id>)

  predicate Unresolved(r: Record) {
    r.state.Pending? || r.state.Active? || r.state.Uncertain?
  }

  /** The revocation fence is written: the enrollment may no longer execute. */
  predicate Fenced(r: Record) {
    r.state.Revoked? || (r.state.Uncertain? && r.doubt == Some(RevocationDoubt))
  }

  /** How an operation ends. A refused one raised; a dead one took the process with it. */
  datatype Ending = Done | Refused | Died

  /** The number of steps an operation takes before the process dies, if it does. */
  datatype Life = Survives | DiesAfter(steps: nat)

  predicate Dies(life: Life, steps: nat) {
    life == DiesAfter(steps)
  }

  datatype Call =
    | Begin(id: Id, generation: int, capability: Id, proposal: Id, client: Id, grantExpires: Stamp)
    | Complete(id: Id, client: Id, proof: Id, proofValid: bool, activates: bool, life: Life)
    | Reconcile(id: Id, client: Id, proof: Id, proofValid: bool, activates: bool, now: Stamp, life: Life)
    | Revoke(id: Id, capability: Id, authorized: bool, deactivates: bool, life: Life)
    | Restart(activates: bool)

  ghost predicate OneUnresolved(records: map<Id, Record>) {
    forall j, k :: j in records && k in records && Unresolved(records[j]) && Unresolved(records[k]) ==> j == k
  }

  ghost predicate GenerationsDiffer(records: map<Id, Record>) {
    forall j, k :: j in records && k in records && records[j].generation == records[k].generation ==> j == k
  }

  /** Resolved enrollments and revocation fences are never undone. */
  ghost predicate FencesStand(before: map<Id, Record>, after: map<Id, Record>) {
    forall id :: id in before ==>
      && id in after
      && (Fenced(before[id]) ==> Fenced(after[id]))
      && (!Unresolved(before[id]) ==> after[id] == before[id])
  }

  /** Nothing that was fenced is among the activations that followed. */
  ghost predicate NoneRevived(before: map<Id, Record>, activations: seq<Id>) {
    forall id :: id in before && Fenced(before[id]) ==> id !in activations
  }

  /** Changing one record without reopening it keeps the keys. */
  lemma ChangeKeeps(records: map<Id, Record>, id: Id, r: Record)
    requires id in records && OneUnresolved(records) && GenerationsDiffer(records)
    requires r.generation == records[id].generation && (Unresolved(r) ==> Unresolved(records[id]))
    ensures OneUnresolved(records[id := r]) && GenerationsDiffer(records[id := r])
  {
  }

  lemma RunsCompose(first: map<Id, Record>, second: map<Id, Record>, third: map<Id, Record>, a: seq<Id>, b: seq<Id>)
    requires FencesStand(first, second) && FencesStand(second, third)
    requires NoneRevived(first, a) && NoneRevived(second, b)
    ensures FencesStand(first, third) && NoneRevived(first, a + b)
  {
  }

  /** A pending record after its proof: active, or in doubt when the gateway did not come up. */
  function Proved(records: map<Id, Record>, id: Id, proof: Id, activated: bool): map<Id, Record>
    requires id in records
  {
    var r := records[id].(proof := Some(proof));
    records[id := if activated then r.(state := Active) else r.(state := Uncertain, doubt := Some(ActivationDoubt))]
  }

  /** What a completion may be about: a pending enrollment, or an active one with the same proof. */
  ghost predicate Completable(records: map<Id, Record>, id: Id, client: Id, proof: Id, proofValid: bool) {
    && id in records && records[id].client == client && proofValid
    && (records[id].state.Pending? || (records[id].state.Active? && records[id].proof == Some(proof)))
  }

  /** An activation that is done again: the record already carries the proof. */
  ghost predicate Repeatable(records: map<Id, Record>, id: Id, client: Id, proof: Id) {
    && id in records && records[id].client == client && records[id].proof == Some(proof)
    && (records[id].state.Active? || (records[id].state.Uncertain? && records[id].doubt == Some(ActivationDoubt)))
  }

  ghost predicate Expires(records: map<Id, Record>, id: Id, client: Id, now: Stamp) {
    id in records && records[id].client == client && records[id].state.Pending? && records[id].grantExpires <= now
  }

  /** What a revocation goes through with. */
  ghost predicate Revocable(records: map<Id, Record>, id: Id, capability: Id, authorized: bool) {
    && authorized && id in records && (records[id].state.Active? || records[id].state.Uncertain?)
    && !Replayed(records, capability)
  }

  ghost function EndOf(life: Life, ok: bool): Ending {
    if life.DiesAfter? then Died else if ok then Done else Refused
  }

  /** The live gateway after an attempt to activate: none in a dead process. */
  ghost function GatewayOf(life: Life, id: Id, activates: bool, before: Option<Id>): Option<Id> {
    if life.DiesAfter? then None else if activates then Some(id) else before
  }

  ghost predicate Reaches(life: Life, steps: nat) {
    life.Survives? || life.steps >= steps
  }

  /** The capability has already been named by a revocation, finished or not. */
  ghost predicate Replayed(records: map<Id, Record>, capability: Id) {
    exists k :: k in records && records[k].revocation == Some(capability)
  }

  /** The records once a revocation's fence is committed and before it is confirmed. */
  function FenceWritten(records: map<Id, Record>, id: Id, capability: Id): map<Id, Record>
    requires id in records
  {
    records[id := records[id].(state := Uncertain, doubt := Some(RevocationDoubt), revocation := Some(capability))]
  }

  // ------------------------------------------------- what each call does

  /** The durable records, the live gateway and the activations so far. */
  datatype Host = Host(records: map<Id, Record>, gateway: Option<Id>, activations: seq<Id>)

  /** `begin`: the pending enrollment once more, or a new one beside enrollments that are all resolved,
      of lower generations and made with other capabilities and proposals. */
  ghost predicate Begins(h: Host, c: Call, e: Ending, h': Host)
    requires c.Begin?
  {
    && !e.Died? && h'.gateway == h.gateway && h'.activations == h.activations
    && (e.Done? <==>
          if c.id in h.records then
            var r := h.records[c.id];
            r.state.Pending? && r.proposal == c.proposal && r.capability == c.capability && r.client == c.client
          else
            && c.generation > 0
            && forall k :: k in h.records ==>
                 && h.records[k].generation < c.generation && !Unresolved(h.records[k])
                 && h.records[k].capability != c.capability && h.records[k].proposal != c.proposal)
    && h'.records ==
       if e.Refused? || c.id in h.records then h.records
       else
         h.records[c.id := Record(
           state := Pending, generation := c.generation, capability := c.capability, proposal := c.proposal,
           client := c.client, grantExpires := c.grantExpires, proof := None, doubt := None, revocation := None)]
  }

  ghost predicate Untouched(h: Host, e: Ending, h': Host) {
    e == Refused && h' == h
  }

  /** A pending enrollment whose proof is accepted: the proof is durable before the activation, and a
      failed activation leaves doubt behind. */
  ghost predicate Proves(h: Host, id: Id, proof: Id, activates: bool, life: Life, e: Ending, h': Host)
    requires id in h.records
  {
    && e == EndOf(life, activates) && h'.gateway == GatewayOf(life, id, activates, h.gateway)
    && h'.records == (if !Reaches(life, 1) then h.records else Proved(h.records, id, proof, activates || life.DiesAfter?))
    && h'.activations == h.activations + (if activates && Reaches(life, 2) then [id] else [])
  }

  /** An activation done again; it settles a doubt when it succeeds. */
  ghost predicate Repeats(h: Host, id: Id, activates: bool, life: Life, e: Ending, h': Host)
    requires id in h.records
  {
    && e == EndOf(life, activates) && h'.gateway == GatewayOf(life, id, activates, h.gateway)
    && h'.records == (if life.DiesAfter? || !activates then h.records
                      else h.records[id := h.records[id].(state := Active)])
    && h'.activations == h.activations + (if activates && Reaches(life, 1) then [id] else [])
  }

  ghost predicate Completes(h: Host, c: Call, e: Ending, h': Host)
    requires c.Complete?
  {
    if !Completable(h.records, c.id, c.client, c.proof, c.proofValid) then Untouched(h, e, h')
    else if h.records[c.id].state.Pending? then Proves(h, c.id, c.proof, c.activates, c.life, e, h')
    else Repeats(h, c.id, c.activates, c.life, e, h')
  }

  ghost predicate Reconciles(h: Host, c: Call, e: Ending, h': Host)
    requires c.Reconcile?
  {
    if Expires(h.records, c.id, c.client, c.now) then
      && e == EndOf(c.life, true) && h'.activations == h.activations
      && h'.gateway == (if c.life.DiesAfter? then None else h.gateway)
      && h'.records == (if c.life.DiesAfter? then h.records else h.records[c.id := h.records[c.id].(state := Expired)])
    else if Repeatable(h.records, c.id, c.client, c.proof) then Repeats(h, c.id, c.activates, c.life, e, h')
    else if Completable(h.records, c.id, c.client, c.proof, c.proofValid) then
      Proves(h, c.id, c.proof, c.activates, c.life, e, h')
    else Untouched(h, e, h')
  }

  /** `revoke`: the fence is durable before the gateway is taken down, and stays when that fails. */
  ghost predicate Revokes(h: Host, c: Call, e: Ending, h': Host)
    requires c.Revoke?
  {
    && h'.activations == h.activations
    && if !Revocable(h.records, c.id, c.capability, c.authorized) then
         && e == (if c.authorized && c.id in h.records && h.records[c.id].state.Revoked? then Done else Refused)
         && h' == h
       else
         && e == (if Reaches(c.life, 2) && !c.deactivates then Refused else EndOf(c.life, true))
         && h'.gateway == (if Reaches(c.life, 2) && !c.deactivates then h.gateway else None)
         && h'.records == (
              if !Reaches(c.life, 1) then h.records
              else if c.life.Survives? && c.deactivates then
                h.records[c.id := h.records[c.id].(state := Revoked, revocation := Some(c.capability))]
              else FenceWritten(h.records, c.id, c.capability))
  }

  /** A new process: the active enrollment is activated, if there is one. */
  ghost predicate Restarts(h: Host, c: Call, h': Host)
    requires c.Restart?
  {
    && h'.records == h.records
    && if exists id :: id in h.records && h.records[id].state.Active? then
         exists id :: id in h.records && h.records[id].state.Active?
           && h'.gateway == (if c.activates then Some(id) else None)
           && h'.activations == h.activations + (if c.activates then [id] else [])
       else h'.gateway == None && h'.activations == h.activations
  }

  ghost predicate Does(h: Host, c: Call, e: Ending, h': Host) {
    match c
    case Begin(_, _, _, _, _, _) => Begins(h, c, e, h')
    case Complete(_, _, _, _, _, _) => Completes(h, c, e, h')
    case Reconcile(_, _, _, _, _, _, _) => Reconciles(h, c, e, h')
    case Revoke(_, _, _, _, _) => Revokes(h, c, e, h')
    case Restart(_) => e.Done? && Restarts(h, c, h')
  }

  /** A run of calls, one at a time. */
  ghost predicate IsRun(hosts: seq<Host>, calls: seq<Call>, endings: seq<Ending>) {
    && |hosts| == |calls| + 1 && |endings| == |calls|
    && forall k :: 0 <= k < |calls| ==> Does(hosts[k], calls[k], endings[k], hosts[k + 1])
  }

  class Enrollments {
    var records: map<Id, Record>
    // the live gateway, by the enrollment it was activated for
    var gateway: Option<Id>
    ghost var activations: seq<Id>

    constructor ()
      ensures Valid() && records == map[] && gateway == None
    {
      records, gateway, activations := map[], None, [];
    }

    /** One enrollment at a time is unresolved, and the live gateway belongs to it: it is active,
        or its fence is written and the gateway is about to go. */
    ghost predicate Valid()
      reads this
    {
      && OneUnresolved(records) && GenerationsDiffer(records)
      && (gateway.Some? ==>
            && gateway.value in records
            && (records[gateway.value].state.Active?
                || (records[gateway.value].state.Uncertain? && Fenced(records[gateway.value]))))
      && (forall id :: id in records && records[id].state.Active? ==> records[id].proof.Some?)
    }

    ghost function Now(): Host
      reads this
    {
      Host(records, gateway, activations)
    }

    /** What every operation keeps, from any earlier point of the same run. */
    ghost predicate Follows(before: map<Id, Record>, soFar: seq<Id>)
      reads this
    {
      Valid() && FencesStand(before, records) && soFar <= activations && NoneRevived(before, activations[|soFar|..])
    }

    method Activate(id: Id, ok: bool)
      modifies this`gateway, this`activations
      ensures gateway == if ok then Some(id) else old(gateway)
      ensures activations == if ok then old(activations) + [id] else old(activations)
    {
      if ok {
        gateway := Some(id);
        activations := activations + [id];
      }
    }

    /** The process is gone: what it kept in memory is lost. */
    method Die()
      modifies this`gateway
      ensures gateway == None
    {
      gateway := None;
    }

    /** Whether a new enrollment may be stored beside the existing ones. */
    method Admissible(generation: int, capability: Id, proposal: Id) returns (ok: bool)
      ensures ok <==> generation > 0 && forall k :: k in records ==>
        && records[k].generation < generation && !Unresolved(records[k])
        && records[k].capability != capability && records[k].proposal != proposal
    {
      var maximum := 0;
      var todo := records.Keys;
      while todo != {}
        invariant todo <= records.Keys && 0 <= maximum
        invariant forall k :: k in records && k !in todo ==>
          && records[k].generation <= maximum && !Unresolved(records[k])
          && records[k].capability != capability && records[k].proposal != proposal
        invariant maximum == 0 || exists k :: k in records && records[k].generation == maximum
        decreases todo
      {
        var k := LeastId(todo);
        if records[k].capability == capability || records[k].proposal == proposal || Unresolved(records[k]) {
          return false;
        }
        if maximum < records[k].generation {
          maximum := records[k].generation;
        }
        todo := todo - {k};
      }
      ok := maximum < generation;
    }

    method BeginEnrollment(id: Id, generation: int, capability: Id, proposal: Id, client: Id, grantExpires: Stamp)
      returns (e: Ending)
      requires Valid()
      modifies this`records
      ensures Follows(old(records), old(activations))
      ensures Begins(old(Now()), Begin(id, generation, capability, proposal, client, grantExpires), e, Now())
    {
      if id in records {
        var r := records[id];
        var same := r.state.Pending? && r.proposal == proposal && r.capability == capability && r.client == client;
        return if same then Done else Refused;
      }
      var ok := Admissible(generation, capability, proposal);
      if !ok {
        return Refused;
      }
      records := records[id := Record(Pending, generation, capability, proposal, client, grantExpires, None, None, None)];
      e := Done;
    }

    /** `complete`: commit the proof, then activate; a failed activation is recorded as doubt. */
    method CompleteEnrollment(id: Id, client: Id, proof: Id, proofValid: bool, activates: bool, life: Life)
      returns (e: Ending)
      requires Valid()
      modifies this
      ensures Follows(old(records), old(activations))
      ensures Completes(old(Now()), Complete(id, client, proof, proofValid, activates, life), e, Now())
      ensures e.Done? ==> records[id].state.Active? && records[id].proof == Some(proof) && gateway == Some(id)
    {
      hide OneUnresolved, GenerationsDiffer;
      ghost var before := records;
      if id !in records || records[id].client != client || !proofValid {
        return Refused;
      }
      if records[id].state.Active? {
        if records[id].proof != Some(proof) {
          return Refused;
        }
        if Dies(life, 0) {
          Die();
          return Died;
        }
        Activate(id, activates);
        if life.DiesAfter? {
          Die();
          return Died;
        }
        return if activates then Done else Refused;
      }
      if !records[id].state.Pending? {
        return Refused;
      }
      if Dies(life, 0) {
        Die();
        return Died;
      }
      records := records[id := records[id].(state := Active, proof := Some(proof))];
      ChangeKeeps(before, id, records[id]);
      if Dies(life, 1) {
        Die();
        return Died;
      }
      Activate(id, activates);
      if life.DiesAfter? {
        Die();
        return Died;
      }
      if !activates {
        records := records[id := records[id].(state := Uncertain, doubt := Some(ActivationDoubt))];
        assert records == before[id := records[id]];
        ChangeKeeps(before, id, records[id]);
        return Refused;
      }
      e := Done;
    }

    /** `reconcile`: finish what an interrupted or doubtful activation left behind. */
    method ReconcileEnrollment(id: Id, client: Id, proof: Id, proofValid: bool, activates: bool, now: Stamp, life: Life)
      returns (e: Ending)
      requires Valid()
      modifies this
      ensures Follows(old(records), old(activations))
      ensures Reconciles(old(Now()), Reconcile(id, client, proof, proofValid, activates, now, life), e, Now())
      ensures id in old(records) && Fenced(old(records)[id]) ==>
        e == Refused && records == old(records) && gateway == old(gateway)
    {
      hide OneUnresolved, GenerationsDiffer;
      ghost var before := records;
      if id !in records || records[id].client != client {
        return Refused;
      }
      if records[id].state.Pending? {
        if records[id].grantExpires <= now {
          if life.DiesAfter? {
            Die();
            return Died;
          }
          records := records[id := records[id].(state := Expired)];
          ChangeKeeps(before, id, records[id]);
          return Done;
        }
        e := CompleteEnrollment(id, client, proof, proofValid, activates, life);
        return;
      }
      if records[id].proof != Some(proof) {
        return Refused;
      }
      if !records[id].state.Active? && !(records[id].state.Uncertain? && records[id].doubt == Some(ActivationDoubt)) {
        return Refused;
      }
      if Dies(life, 0) {
        Die();
        return Died;
      }
      Activate(id, activates);
      if life.DiesAfter? {
        Die();
        return Died;
      }
      if activates && records[id].state.Uncertain? {
        records := records[id := records[id].(state := Active)];
        ChangeKeeps(before, id, records[id]);
      }
      e := if activates then Done else Refused;
    }

    /** `revoke`: fence the record, take the gateway down, and only then say REVOKED. */
    method RevokeEnrollment(id: Id, capability: Id, authorized: bool, deactivates: bool, life: Life)
      returns (e: Ending)
      requires Valid()
      modifies this
      ensures Follows(old(records), old(activations)) && activations == old(activations)
      ensures Revokes(old(Now()), Revoke(id, capability, authorized, deactivates, life), e, Now())
      ensures e.Done? ==> id in records && records[id].state.Revoked? && gateway != Some(id)
      ensures !e.Refused? && life != DiesAfter(0) ==> id in records && Fenced(records[id])
    {
      hide OneUnresolved, GenerationsDiffer;
      if id !in records || records[id].state.Pending? || records[id].state.Expired? || !authorized {
        return Refused;
      }
      if records[id].state.Revoked? {
        return Done;
      }
      var replayed := IsReplayed(capability);
      if replayed {
        return Refused;
      }
      if Dies(life, 0) {
        Die();
        return Died;
      }
      e := Fence(id, capability, deactivates, life);
    }

    /** The rest of a revocation that goes through: the durable fence first. */
    method Fence(id: Id, capability: Id, deactivates: bool, life: Life) returns (e: Ending)
      requires Valid() && id in records && (records[id].state.Active? || records[id].state.Uncertain?) && Reaches(life, 1)
      modifies this`records, this`gateway
      ensures Follows(old(records), activations)
      ensures e == if Reaches(life, 2) && !deactivates then Refused else EndOf(life, true)
      ensures gateway == if Reaches(life, 2) && !deactivates then old(gateway) else None
      ensures records ==
        if life.Survives? && deactivates then
          old(records)[id := old(records)[id].(state := Revoked, revocation := Some(capability))]
        else FenceWritten(old(records), id, capability)
    {
      hide OneUnresolved, GenerationsDiffer;
      ghost var before := records;
      var doubt := records[id].doubt;
      records := records[id := records[id].(state := Uncertain, doubt := Some(RevocationDoubt), revocation := Some(capability))];
      ChangeKeeps(before, id, records[id]);
      if Dies(life, 1) {
        Die();
        return Died;
      }
      if !deactivates {
        return Refused;
      }
      gateway := None;
      if life.DiesAfter? {
        Die();
        return Died;
      }
      records := records[id := records[id].(state := Revoked, doubt := doubt)];
      assert records == before[id := records[id]];
      ChangeKeeps(before, id, records[id]);
      e := Done;
    }

    /** A revocation that dies, the process starting again, and the same revocation repeated: it
        goes through exactly when the first one had not committed its fence yet, and otherwise
        needs a capability that was never used. */
    method RevokeAcrossDeath(id: Id, capability: Id, unused: Id, steps: nat) returns (first: Ending, again: Ending, last: Ending)
      requires Valid() && id in records && (records[id].state.Active? || records[id].state.Uncertain?)
      requires !Replayed(records, capability) && !Replayed(records, unused) && unused != capability
      modifies this
      ensures first.Died? && (again.Done? <==> steps == 0) && (again.Refused? <==> steps > 0) && last.Done?
      ensures Follows(old(records), old(activations)) && records[id].state.Revoked?
      ensures records[id].revocation == Some(if steps == 0 then capability else unused)
    {
      hide OneUnresolved, GenerationsDiffer;
      ghost var before, soFar := records, activations;
      first := RevokeEnrollment(id, capability, true, true, DiesAfter(steps));
      ghost var dead := records;
      assert steps > 0 ==> records[id].revocation == Some(capability) && Replayed(records, capability);
      RestartProcess(true);
      RunsCompose(before, dead, records, [], activations[|soFar|..]);
      assert !Replayed(records, unused);
      ghost var restarted, meanwhile := records, activations;
      again := RevokeEnrollment(id, capability, true, true, Survives);
      RunsCompose(before, restarted, records, activations[|soFar|..], []);
      ghost var repeated := records;
      last := RevokeEnrollment(id, unused, true, true, Survives);
      RunsCompose(before, repeated, records, activations[|soFar|..], []);
    }

    /** Once a revocation has passed its checks and committed its fence, whatever becomes of the rest
        of it and whatever is called afterwards, the enrollment is never activated again. */
    method RevokedStaysDown(id: Id, capability: Id, deactivates: bool, life: Life, more: seq<Call>) returns (e: Ending)
      requires Valid() && id in records && (records[id].state.Active? || records[id].state.Uncertain?)
      requires forall k :: k in records ==> records[k].revocation != Some(capability)
      modifies this
      ensures Follows(old(records), old(activations))
      ensures life != DiesAfter(0) ==> id in records && Fenced(records[id]) && id !in activations[|old(activations)|..]
    {
      ghost var before := records;
      e := RevokeEnrollment(id, capability, true, deactivates, life);
      ghost var fenced := records;
      var endings, hosts := Drive(more);
      RunsCompose(before, fenced, records, [], activations[|old(activations)|..]);
    }

    method IsReplayed(capability: Id) returns (replayed: bool)
      ensures replayed <==> Replayed(records, capability)
    {
      var todo := records.Keys;
      while todo != {}
        invariant todo <= records.Keys
        invariant forall k :: k in records && k !in todo ==> records[k].revocation != Some(capability)
        decreases todo
      {
        var k := LeastId(todo);
        if records[k].revocation == Some(capability) {
          return true;
        }
        todo := todo - {k};
      }
      replayed := false;
    }

    /** A new process: `activate_current` brings up the gateway of an active enrollment only. */
    method RestartProcess(activates: bool)
      requires Valid()
      modifies this`gateway, this`activations
      ensures Follows(old(records), old(activations))
      ensures Restarts(old(Now()), Restart(activates), Now())
      ensures forall id :: id in records && records[id].state.Active? ==> gateway == if activates then Some(id) else None
      ensures (forall id :: id in records ==> !records[id].state.Active?) ==> gateway == None
    {
      gateway := None;
      if id :| id in records && records[id].state.Active? {
        Activate(id, activates);
      }
    }

    /** Any sequence of calls from any point of a run. */
    method Drive(calls: seq<Call>) returns (endings: seq<Ending>, ghost hosts: seq<Host>)
      requires Valid()
      modifies this
      ensures Follows(old(records), old(activations))
      ensures IsRun(hosts, calls, endings) && hosts[0] == old(Now()) && hosts[|calls|] == Now()
    {
      hide OneUnresolved, GenerationsDiffer, FencesStand, NoneRevived, Does;
      ghost var before, soFar := records, activations;
      endings, hosts := [], [Now()];
      FollowsAtOnce();
      for k := 0 to |calls|
        invariant Follows(before, soFar)
        invariant IsRun(hosts, calls[..k], endings) && hosts[0] == old(Now()) && hosts[k] == Now()
      {
        ghost var between, meanwhile := records, activations;
        var e := Perform(calls[k]);
        assert activations[|soFar|..|meanwhile|] == meanwhile[|soFar|..];
        RunsCompose(before, between, records, activations[|soFar|..|meanwhile|], activations[|meanwhile|..]);
        assert activations[|soFar|..] == activations[|soFar|..|meanwhile|] + activations[|meanwhile|..];
        assert calls[..k + 1] == calls[..k] + [calls[k]];
        endings, hosts := endings + [e], hosts + [Now()];
      }
      assert calls[..|calls|] == calls;
    }

    ghost method FollowsAtOnce()
      requires Valid()
      ensures Follows(records, activations)
    {
    }

    /** One call. */
    method Perform(c: Call) returns (e: Ending)
      requires Valid()
      modifies this
      ensures Follows(old(records), old(activations))
      ensures Does(old(Now()), c, e, Now())
    {
      hide Begins, Completes, Reconciles, Revokes, Restarts, OneUnresolved, GenerationsDiffer, FencesStand, NoneRevived;
      match c
      case Begin(id, generation, capability, proposal, client, expires) =>
        e := BeginEnrollment(id, generation, capability, proposal, client, expires);
      case Complete(id, client, proof, valid, activates, life) =>
        e := CompleteEnrollment(id, client, proof, valid, activates, life);
      case Reconcile(id, client, proof, valid, activates, now, life) =>
        e := ReconcileEnrollment(id, client, proof, valid, activates, now, life);
      case Revoke(id, capability, authorized, deactivates, life) =>
        e := RevokeEnrollment(id, capability, authorized, deactivates, life);
      case Restart(activates) =>
        RestartProcess(activates);
        e := Done;
    }
  }

  /** From an empty store: enroll, die while revoking with the fence just written, repeat. */
  method RepeatedRevocationIsRefused() returns (first: Ending, again: Ending, last: Ending)
    ensures first.Died? && again.Refused? && last.Done?
  {
    var host := new Enrollments();
    var begun := host.BeginEnrollment(1, 1, 2, 3, 4, 5);
    var completed := host.CompleteEnrollment(1, 4, 6, true, true, Survives);
    first, again, last := host.RevokeAcrossDeath(1, 7, 8, 1);
  }
}
