/** The vessel service's capacity ledger: per-vessel counters in two dimensions and an
    operation log that is unique on (reservation, operation). */
module VesselLedger {
  import opened Types

  datatype OpKind = Reserve | Release | Confirm
  datatype OpKey = OpKey(reservation: ReservationId, kind: OpKind)

  datatype Vessel = Vessel(
    capacity: int, maxWeight: int,
    reservedWeight: int, usedWeight: int,
    reservedCapacity: int, usedCapacity: int)

  /** The two collections: vessels by id, and the log as the map its unique index makes it. */
  datatype Ledger = Ledger(vessels: map<VesselId, Vessel>, ops: map<OpKey, VesselId>)

  datatype Specification = Specification(reservation: ReservationId, weight: int, containers: int)
  datatype CapacityRequest = CapacityRequest(
    reservation: ReservationId, vessel: VesselId, weight: int, containers: int)

  /** A request as it reaches the repository. `found` is the vessel the store's
      find-and-update matched, if it matched any. */
  datatype Call =
    | ReserveCall(spec: Specification, found: Option<VesselId>)
    | ReleaseCall(req: CapacityRequest)
    | ConfirmCall(req: CapacityRequest)

  /** The database step at which a transaction fails, if it fails. */
  datatype Fault = NoFault | Session | Begin | Find | Insert | Refetch | Update | Commit

  datatype Reply = Ok(vessel: VesselId) | NoVessel | NotFound | Failed

  datatype Attempt = Attempt(call: Call, fault: Fault)

  /** What one committed transaction did. */
  datatype Entry = Entry(
    kind: OpKind, reservation: ReservationId, vessel: VesselId, weight: int, containers: int)

  // ---------- one transaction ----------

  function EntryKey(e: Entry): OpKey {
    OpKey(e.reservation, e.kind)
  }

  function CallKey(c: Call): OpKey {
    match c
    case ReserveCall(spec, _) => OpKey(spec.reservation, Reserve)
    case ReleaseCall(req) => OpKey(req.reservation, Release)
    case ConfirmCall(req) => OpKey(req.reservation, Confirm)
  }

  function EntryOf(c: Call): Entry
    requires c.ReserveCall? ==> c.found.Some?
  {
    match c
    case ReserveCall(s, found) => Entry(Reserve, s.reservation, found.value, s.weight, s.containers)
    case ReleaseCall(r) => Entry(Release, r.reservation, r.vessel, r.weight, r.containers)
    case ConfirmCall(r) => Entry(Confirm, r.reservation, r.vessel, r.weight, r.containers)
  }

  /** available = limit - reserved - used, in both dimensions. */
  predicate HasRoom(v: Vessel, weight: int, containers: int) {
    && v.capacity - v.reservedCapacity - v.usedCapacity >= containers
    && v.maxWeight - v.reservedWeight - v.usedWeight >= weight
  }

  /** What the store may answer to the find: a vessel with room, or nothing if none has room. */
  predicate Finds(l: Ledger, spec: Specification, found: Option<VesselId>) {
    match found
    case Some(v) => v in l.vessels && HasRoom(l.vessels[v], spec.weight, spec.containers)
    case None => forall v :: v in l.vessels ==> !HasRoom(l.vessels[v], spec.weight, spec.containers)
  }

  /** The counter increments of one entry. */
  function Post(v: Vessel, e: Entry): Vessel {
    match e.kind
    case Reserve => v.(reservedWeight := v.reservedWeight + e.weight,
                       reservedCapacity := v.reservedCapacity + e.containers)
    case Release => v.(reservedWeight := v.reservedWeight - e.weight,
                       reservedCapacity := v.reservedCapacity - e.containers)
    case Confirm => v.(reservedWeight := v.reservedWeight - e.weight,
                       reservedCapacity := v.reservedCapacity - e.containers,
                       usedWeight := v.usedWeight + e.weight,
                       usedCapacity := v.usedCapacity + e.containers)
  }

  function Record(l: Ledger, e: Entry): Ledger
    requires e.vessel in l.vessels
  {
    Ledger(l.vessels[e.vessel := Post(l.vessels[e.vessel], e)], l.ops[EntryKey(e) := e.vessel])
  }

  /** The reply of the repository to one attempt. */
  function Answer(l: Ledger, a: Attempt): Reply {
    if a.fault == Session || a.fault == Begin then Failed
    else if a.call.ReserveCall? then
      if a.fault == Find then Failed
      else if a.call.found.None? || a.call.found.value !in l.vessels then NoVessel
      else if a.fault == Insert then Failed
      else if CallKey(a.call) in l.ops then
        (if a.fault == Refetch || l.ops[CallKey(a.call)] !in l.vessels then Failed
         else Ok(l.ops[CallKey(a.call)]))
      else if a.fault == Commit then Failed
      else Ok(a.call.found.value)
    else
      if a.fault == Insert then Failed
      else if CallKey(a.call) in l.ops then Ok(a.call.req.vessel)
      else if a.fault == Update then Failed
      else if a.call.req.vessel !in l.vessels then NotFound
      else if a.fault == Commit then Failed
      else Ok(a.call.req.vessel)
  }

  /** The ledger after one attempt: only an answer Ok under a fresh key changes it. */
  function Exec(l: Ledger, a: Attempt): Ledger {
    if Answer(l, a).Ok? && CallKey(a.call) !in l.ops then Record(l, EntryOf(a.call)) else l
  }

  // ---------- the repository ----------

  /** `MongoRepository`: each method is one transaction over the two collections. A
      transaction works on the collections in place and an abort puts the snapshot back. */
  class MongoRepository {
    var vessels: map<VesselId, Vessel>
    var capacityOps: map<OpKey, VesselId>

    function Contents(): Ledger
      reads this
    {
      Ledger(vessels, capacityOps)
    }

    constructor ()
      ensures Contents() == Ledger(map[], map[])
    {
      vessels, capacityOps := map[], map[];
    }

    /** `found` is the answer of the store's find; the caller of the model supplies any
        answer the store is allowed to give. */
    method ReserveCapacity(spec: Specification, found: Option<VesselId>, fault: Fault)
      returns (reply: Reply)
      requires Finds(Contents(), spec, found)
      modifies this
      ensures reply == Answer(old(Contents()), Attempt(ReserveCall(spec, found), fault))
      ensures Contents() == Exec(old(Contents()), Attempt(ReserveCall(spec, found), fault))
      ensures reply.Ok? ==> OpKey(spec.reservation, Reserve) in capacityOps
                            && capacityOps[OpKey(spec.reservation, Reserve)] == reply.vessel
      ensures OpKey(spec.reservation, Reserve) in old(capacityOps)
              && old(capacityOps)[OpKey(spec.reservation, Reserve)] in vessels && found.Some? && fault.NoFault? ==>
                reply == Ok(old(capacityOps)[OpKey(spec.reservation, Reserve)])
    {
      if fault == Session || fault == Begin {
        return Failed;
      }
      var savedVessels, savedOps := vessels, capacityOps;
      if fault == Find {
        return Failed;
      }
      if found.None? {
        return NoVessel;
      }
      var id := found.value;
      var v := vessels[id];
      vessels := vessels[id := v.(reservedWeight := v.reservedWeight + spec.weight,
                                  reservedCapacity := v.reservedCapacity + spec.containers)];
      var key := OpKey(spec.reservation, Reserve);
      if fault == Insert {
        vessels, capacityOps := savedVessels, savedOps;
        return Failed;
      }
      if key in capacityOps {
        vessels, capacityOps := savedVessels, savedOps;
        if fault == Refetch || capacityOps[key] !in vessels {
          return Failed;
        }
        return Ok(capacityOps[key]);
      }
      capacityOps := capacityOps[key := id];
      if fault == Commit {
        vessels, capacityOps := savedVessels, savedOps;
        return Failed;
      }
      return Ok(id);
    }

    method ReleaseCapacity(req: CapacityRequest, fault: Fault) returns (reply: Reply)
      modifies this
      ensures reply == Answer(old(Contents()), Attempt(ReleaseCall(req), fault))
      ensures Contents() == Exec(old(Contents()), Attempt(ReleaseCall(req), fault))
      ensures reply.Ok? ==> OpKey(req.reservation, Release) in capacityOps
      ensures OpKey(req.reservation, Release) in old(capacityOps) && fault.NoFault? ==>
                reply == Ok(req.vessel) && vessels == old(vessels)
    {
      if fault == Session || fault == Begin {
        return Failed;
      }
      var savedVessels, savedOps := vessels, capacityOps;
      var key := OpKey(req.reservation, Release);
      if fault == Insert {
        return Failed;
      }
      if key in capacityOps {
        return Ok(req.vessel);
      }
      capacityOps := capacityOps[key := req.vessel];
      if fault == Update {
        vessels, capacityOps := savedVessels, savedOps;
        return Failed;
      }
      if req.vessel !in vessels {
        vessels, capacityOps := savedVessels, savedOps;
        return NotFound;
      }
      var v := vessels[req.vessel];
      vessels := vessels[req.vessel := v.(reservedWeight := v.reservedWeight - req.weight,
                                          reservedCapacity := v.reservedCapacity - req.containers)];
      if fault == Commit {
        vessels, capacityOps := savedVessels, savedOps;
        return Failed;
      }
      return Ok(req.vessel);
    }

    method ConfirmCapacity(req: CapacityRequest, fault: Fault) returns (reply: Reply)
      modifies this
      ensures reply == Answer(old(Contents()), Attempt(ConfirmCall(req), fault))
      ensures Contents() == Exec(old(Contents()), Attempt(ConfirmCall(req), fault))
      ensures reply.Ok? ==> OpKey(req.reservation, Confirm) in capacityOps
      ensures OpKey(req.reservation, Confirm) in old(capacityOps) && fault.NoFault? ==>
                reply == Ok(req.vessel) && vessels == old(vessels)
    {
      if fault == Session || fault == Begin {
        return Failed;
      }
      var savedVessels, savedOps := vessels, capacityOps;
      var key := OpKey(req.reservation, Confirm);
      if fault == Insert {
        return Failed;
      }
      if key in capacityOps {
        return Ok(req.vessel);
      }
      capacityOps := capacityOps[key := req.vessel];
      if fault == Update {
        vessels, capacityOps := savedVessels, savedOps;
        return Failed;
      }
      if req.vessel !in vessels {
        vessels, capacityOps := savedVessels, savedOps;
        return NotFound;
      }
      var v := vessels[req.vessel];
      vessels := vessels[req.vessel := v.(reservedWeight := v.reservedWeight - req.weight,
                                          reservedCapacity := v.reservedCapacity - req.containers,
                                          usedWeight := v.usedWeight + req.weight,
                                          usedCapacity := v.usedCapacity + req.containers)];
      if fault == Commit {
        vessels, capacityOps := savedVessels, savedOps;
        return Failed;
      }
      return Ok(req.vessel);
    }
  }

  // ---------- histories ----------

  function Run(l: Ledger, h: seq<Attempt>): Ledger
    decreases h
  {
    if h == [] then l else Run(Exec(l, h[0]), h[1..])
  }

  function Answers(l: Ledger, h: seq<Attempt>): seq<Reply>
    decreases h
  {
    if h == [] then [] else [Answer(l, h[0])] + Answers(Exec(l, h[0]), h[1..])
  }

  /** The history that keeps, per (reservation, operation), only the first call answered Ok.
      It is computed from the calls and their answers alone, not from any ledger. */
  function FirstSuccesses(h: seq<Attempt>, answers: seq<Reply>, seen: set<OpKey>): seq<Attempt>
    requires |h| == |answers|
  {
    if h == [] then []
    else if answers[0].Ok? && CallKey(h[0].call) !in seen then
      [h[0]] + FirstSuccesses(h[1..], answers[1..], seen + {CallKey(h[0].call)})
    else FirstSuccesses(h[1..], answers[1..], seen)
  }

  lemma {:induction false} AnswersLength(l: Ledger, h: seq<Attempt>)
    ensures |Answers(l, h)| == |h|
    decreases h
  {
    if h != [] {
      AnswersLength(Exec(l, h[0]), h[1..]);
    }
  }

  function Kept(l: Ledger, h: seq<Attempt>): seq<Attempt> {
    AnswersLength(l, h);
    FirstSuccesses(h, Answers(l, h), l.ops.Keys)
  }

  lemma KeptStep(l: Ledger, h: seq<Attempt>)
    requires h != []
    ensures Kept(l, h) ==
            (if Answer(l, h[0]).Ok? && CallKey(h[0].call) !in l.ops then [h[0]] else [])
            + Kept(Exec(l, h[0]), h[1..])
  {
    var l1 := Exec(l, h[0]);
    AnswersLength(l, h);
    AnswersLength(l1, h[1..]);
    assert Answers(l, h)[1..] == Answers(l1, h[1..]);
    if Answer(l, h[0]).Ok? && CallKey(h[0].call) !in l.ops {
      assert l1.ops.Keys == l.ops.Keys + {CallKey(h[0].call)};
    }
  }

  /** Exactly once: any history of calls, with any repeats and aborts, leaves the ledger
      that the history of first successful calls leaves. */
  lemma {:induction false} ExactlyOnce(l: Ledger, h: seq<Attempt>)
    ensures Run(l, h) == Run(l, Kept(l, h))
    decreases h
  {
    if h != [] {
      var l1 := Exec(l, h[0]);
      KeptStep(l, h);
      ExactlyOnce(l1, h[1..]);
      var rest := Kept(l1, h[1..]);
      if Answer(l, h[0]).Ok? && CallKey(h[0].call) !in l.ops {
        assert ([h[0]] + rest)[1..] == rest;
      } else {
        assert [] + rest == rest;
      }
    }
  }

  // ---------- conservation ----------

  datatype Dim = Weight | Containers

  function Size(e: Entry, d: Dim): int {
    if d.Weight? then e.weight else e.containers
  }

  function Reserved(v: Vessel, d: Dim): int {
    if d.Weight? then v.reservedWeight else v.reservedCapacity
  }

  function Used(v: Vessel, d: Dim): int {
    if d.Weight? then v.usedWeight else v.usedCapacity
  }

  function Limit(v: Vessel, d: Dim): int {
    if d.Weight? then v.maxWeight else v.capacity
  }

  /** The sum of one dimension over the entries of one kind on one vessel. */
  function Sum(es: seq<Entry>, kind: OpKind, v: VesselId, d: Dim): int {
    if es == [] then 0
    else Sum(es[..|es| - 1], kind, v, d)
         + (if es[|es| - 1].kind == kind && es[|es| - 1].vessel == v then Size(es[|es| - 1], d) else 0)
  }

  lemma {:induction false} SumAppend(a: seq<Entry>, b: seq<Entry>, kind: OpKind, v: VesselId, d: Dim)
    ensures Sum(a + b, kind, v, d) == Sum(a, kind, v, d) + Sum(b, kind, v, d)
  {
    if b == [] {
      assert a + b == a;
    } else {
      var n := |b| - 1;
      assert (a + b)[..|a + b| - 1] == a + b[..n];
      SumAppend(a, b[..n], kind, v, d);
    }
  }

  function Entries(l: Ledger, h: seq<Attempt>): seq<Entry>
    decreases h
  {
    if h == [] then []
    else (if Answer(l, h[0]).Ok? && CallKey(h[0].call) !in l.ops then [EntryOf(h[0].call)] else [])
         + Entries(Exec(l, h[0]), h[1..])
  }

  /** `Entries` are the effects of the kept calls, one for one. */
  lemma {:induction false} EntriesAreKept(l: Ledger, h: seq<Attempt>)
    ensures |Entries(l, h)| == |Kept(l, h)|
    ensures forall i :: 0 <= i < |Entries(l, h)| ==>
              && (Kept(l, h)[i].call.ReserveCall? ==> Kept(l, h)[i].call.found.Some?)
              && Entries(l, h)[i] == EntryOf(Kept(l, h)[i].call)
    decreases h
  {
    if h != [] {
      KeptStep(l, h);
      EntriesAreKept(Exec(l, h[0]), h[1..]);
    }
  }

  /** `now` is `was` plus the logged entries: the reserved counters gain the reserves and
      lose the releases and confirms, the used counters gain the confirms. */
  ghost predicate Balances(was: Ledger, now: Ledger, es: seq<Entry>) {
    && now.vessels.Keys == was.vessels.Keys
    && forall v, d :: v in was.vessels ==>
         && Reserved(now.vessels[v], d) == Reserved(was.vessels[v], d)
              + Sum(es, Reserve, v, d) - Sum(es, Release, v, d) - Sum(es, Confirm, v, d)
         && Used(now.vessels[v], d) == Used(was.vessels[v], d) + Sum(es, Confirm, v, d)
         && Limit(now.vessels[v], d) == Limit(was.vessels[v], d)
  }

  lemma RecordBalances(l: Ledger, e: Entry)
    requires e.vessel in l.vessels
    ensures Balances(l, Record(l, e), [e])
  {
    assert [e][..0] == [];
    forall k, v, d
      ensures Sum([e], k, v, d) == if e.kind == k && e.vessel == v then Size(e, d) else 0
    {
      assert Sum([e][..0], k, v, d) == 0;
    }
  }

  lemma BalancesCompose(l0: Ledger, l1: Ledger, l2: Ledger, a: seq<Entry>, b: seq<Entry>)
    requires Balances(l0, l1, a) && Balances(l1, l2, b)
    ensures Balances(l0, l2, a + b)
  {
    forall v, d | v in l0.vessels
      ensures
        && Reserved(l2.vessels[v], d) == Reserved(l0.vessels[v], d)
             + Sum(a + b, Reserve, v, d) - Sum(a + b, Release, v, d) - Sum(a + b, Confirm, v, d)
        && Used(l2.vessels[v], d) == Used(l0.vessels[v], d) + Sum(a + b, Confirm, v, d)
        && Limit(l2.vessels[v], d) == Limit(l0.vessels[v], d)
    {
      assert v in l1.vessels;
      SumAppend(a, b, Reserve, v, d);
      SumAppend(a, b, Release, v, d);
      SumAppend(a, b, Confirm, v, d);
    }
  }

  lemma KeysOfMore(keys: set<OpKey>, e: Entry, rest: seq<Entry>)
    ensures keys + (set x | x in [e] + rest :: EntryKey(x))
            == keys + {EntryKey(e)} + (set x | x in rest :: EntryKey(x))
  {
    assert e in [e] + rest;
    assert forall x :: x in [e] + rest <==> x == e || x in rest;
  }

  /** Conservation: after any history every counter is its starting value plus the logged
      entries, and the log holds exactly the keys of those entries, each once. */
  lemma {:induction false} Conservation(l: Ledger, h: seq<Attempt>)
    ensures Balances(l, Run(l, h), Entries(l, h))
    ensures Run(l, h).ops.Keys == l.ops.Keys + (set e | e in Entries(l, h) :: EntryKey(e))
    ensures forall i, j :: 0 <= i < j < |Entries(l, h)| ==>
              EntryKey(Entries(l, h)[i]) != EntryKey(Entries(l, h)[j])
    ensures forall e :: e in Entries(l, h) ==>
              EntryKey(e) !in l.ops && Run(l, h).ops[EntryKey(e)] == e.vessel
    decreases h
  {
    if h == [] {
    } else {
      var l1 := Exec(l, h[0]);
      Conservation(l1, h[1..]);
      var rest := Entries(l1, h[1..]);
      if Answer(l, h[0]).Ok? && CallKey(h[0].call) !in l.ops {
        var e := EntryOf(h[0].call);
        assert l1 == Record(l, e);
        RecordBalances(l, e);
        BalancesCompose(l, l1, Run(l, h), [e], rest);
        assert EntryKey(e) in l1.ops;
        OpsKept(l1, h[1..], EntryKey(e));
        assert Entries(l, h) == [e] + rest;
        KeysOfMore(l.ops.Keys, e, rest);
      } else {
        assert Entries(l, h) == rest;
      }
    }
  }

  /** A logged row is never overwritten. */
  lemma {:induction false} OpsKept(l: Ledger, h: seq<Attempt>, k: OpKey)
    requires k in l.ops
    ensures k in Run(l, h).ops && Run(l, h).ops[k] == l.ops[k]
    decreases h
  {
    if h != [] {
      OpsKept(Exec(l, h[0]), h[1..], k);
    }
  }

  // ---------- what a repeat is told ----------

  /** The failing steps that end an attempt before the log shows whether it is a repeat. */
  predicate EndsEarly(c: Call, f: Fault) {
    f == Session || f == Begin || f == Insert || (c.ReserveCall? && f == Find)
  }

  /** The failing steps that end an attempt under a key that is not logged, whatever it finds. */
  predicate EndsFresh(c: Call, f: Fault) {
    EndsEarly(c, f) || f == Commit || (!c.ReserveCall? && f == Update)
  }

  /** The vessel a call is about: the one its find matched, or the one it names. */
  function Target(c: Call): Option<VesselId> {
    match c
    case ReserveCall(_, found) => found
    case ReleaseCall(r) => Some(r.vessel)
    case ConfirmCall(r) => Some(r.vessel)
  }

  /** The first success under a key takes effect and is logged at its target. */
  lemma FirstIsLogged(l: Ledger, a: Attempt)
    requires CallKey(a.call) !in l.ops
    ensures Answer(l, a).Ok? <==> Target(a.call).Some? && Target(a.call).value in l.vessels && !EndsFresh(a.call, a.fault)
    ensures Answer(l, a).Ok? ==>
              && Answer(l, a).vessel == Target(a.call).value
              && Exec(l, a) == Record(l, EntryOf(a.call))
    ensures !Answer(l, a).Ok? ==> Exec(l, a) == l
  {
  }

  lemma {:induction false} VesselsStay(l: Ledger, h: seq<Attempt>)
    ensures Run(l, h).vessels.Keys == l.vessels.Keys
    decreases h
  {
    if h != [] {
      VesselsStay(Exec(l, h[0]), h[1..]);
    }
  }

  /** A success is in the log from then on, under a vessel that is listed. */
  lemma {:induction false} SuccessIsLogged(l: Ledger, h: seq<Attempt>, i: nat)
    requires i < |h| == |Answers(l, h)| && Answers(l, h)[i].Ok?
    requires CallKey(h[i].call) !in l.ops
    ensures var k, t := CallKey(h[i].call), Run(l, h);
            && k in t.ops && t.ops[k] in t.vessels
            && (k.kind == Reserve ==> t.ops[k] == Answers(l, h)[i].vessel)
    decreases h
  {
    var l1 := Exec(l, h[0]);
    if CallKey(h[i].call) in l1.ops {
      VesselsStay(l1, h[1..]);
      OpsKept(l1, h[1..], CallKey(h[i].call));
      if i > 0 && CallKey(h[i].call).kind == Reserve {
        RepeatNames(l1, h[1..], i - 1);
      }
    } else {
      assert i > 0 && Answers(l, h)[1..] == Answers(l1, h[1..]);
      SuccessIsLogged(l1, h[1..], i - 1);
    }
  }

  /** Once a reserve is logged, whatever success a repeat of it has names the logged vessel. */
  lemma {:induction false} RepeatNames(l: Ledger, h: seq<Attempt>, i: nat)
    requires i < |h| == |Answers(l, h)| && Answers(l, h)[i].Ok?
    requires h[i].call.ReserveCall? && CallKey(h[i].call) in l.ops
    ensures Answers(l, h)[i] == Ok(l.ops[CallKey(h[i].call)])
    decreases h
  {
    if i > 0 {
      assert Answers(l, h)[1..] == Answers(Exec(l, h[0]), h[1..]);
      RepeatNames(Exec(l, h[0]), h[1..], i - 1);
    }
  }

  /** A caller that did not hear may ask again. After any history in which a call succeeded, a
      repeat of it changes nothing, and it is told of the success exactly if no step fails it
      and, for a reserve, its find still meets a vessel with room: a reserve then hears of the
      vessel first reserved, any other call of the vessel it names. */
  lemma RepeatIsTold(l: Ledger, h: seq<Attempt>, i: nat, a: Attempt)
    requires i < |h| == |Answers(l, h)| && Answers(l, h)[i].Ok?
    requires CallKey(h[i].call) == CallKey(a.call) && CallKey(a.call) !in l.ops
    requires a.call.ReserveCall? ==> Finds(Run(l, h), a.call.spec, a.call.found)
    ensures Exec(Run(l, h), a) == Run(l, h)
    ensures Answer(Run(l, h), a).Ok? <==>
              !EndsEarly(a.call, a.fault) && Target(a.call).Some? && (a.call.ReserveCall? ==> a.fault != Refetch)
    ensures Answer(Run(l, h), a).Ok? ==>
              Answer(Run(l, h), a).vessel ==
              if a.call.ReserveCall? then Answers(l, h)[i].vessel else Target(a.call).value
  {
    SuccessIsLogged(l, h, i);
  }

  // ---------- order independence ----------

  /** A release or confirm of an existing vessel whose transaction does not fail. */
  predicate Settles(l: Ledger, a: Attempt) {
    a.fault == NoFault && !a.call.ReserveCall? && a.call.req.vessel in l.vessels
  }

  /** Repeats of one (reservation, operation) carry one payload. */
  ghost predicate Agree(h: seq<Attempt>) {
    forall a, b :: a in h && b in h && CallKey(a.call) == CallKey(b.call) ==> a == b
  }

  lemma SettledExec(l: Ledger, a: Attempt)
    requires Settles(l, a)
    ensures Exec(l, a) == if CallKey(a.call) in l.ops then l else Record(l, EntryOf(a.call))
  {
  }

  lemma RecordsCommute(l: Ledger, e: Entry, f: Entry)
    requires e.vessel in l.vessels && f.vessel in l.vessels
    requires EntryKey(e) != EntryKey(f)
    ensures Record(Record(l, e), f) == Record(Record(l, f), e)
  {
    var ef, fe := Record(Record(l, e), f), Record(Record(l, f), e);
    if e.vessel == f.vessel {
      assert Post(Post(l.vessels[e.vessel], e), f) == Post(Post(l.vessels[e.vessel], f), e);
    }
    assert ef.vessels == fe.vessels;
    assert ef.ops == fe.ops;
  }

  lemma SwapTwo(l: Ledger, a: Attempt, b: Attempt)
    requires Settles(l, a) && Settles(l, b)
    requires CallKey(a.call) == CallKey(b.call) ==> a == b
    ensures Exec(Exec(l, a), b) == Exec(Exec(l, b), a)
  {
    if a != b {
      SettledExec(l, a);
      SettledExec(l, b);
      SettledExec(Exec(l, a), b);
      SettledExec(Exec(l, b), a);
      RecordsCommute(l, EntryOf(a.call), EntryOf(b.call));
    }
  }

  lemma RunCons(l: Ledger, a: Attempt, rest: seq<Attempt>)
    ensures Run(l, [a] + rest) == Run(Exec(l, a), rest)
  {
    assert ([a] + rest)[1..] == rest;
  }

  lemma SettlesStays(l: Ledger, a: Attempt, b: Attempt)
    requires Settles(l, b)
    ensures Settles(Exec(l, a), b)
  {
  }

  lemma HeadOf<T>(before: seq<T>, a: T, after: seq<T>)
    requires before != []
    ensures before + [a] + after == [before[0]] + (before[1..] + [a] + after)
    ensures before + after == [before[0]] + (before[1..] + after)
  {
  }

  lemma {:induction false} MoveToFront(l: Ledger, before: seq<Attempt>, a: Attempt, after: seq<Attempt>)
    requires Settles(l, a)
    requires forall b :: b in before ==> Settles(l, b) && (CallKey(b.call) == CallKey(a.call) ==> b == a)
    ensures Run(l, before + [a] + after) == Run(Exec(l, a), before + after)
    decreases before
  {
    if before == [] {
      assert before + [a] + after == [a] + after && before + after == after;
      RunCons(l, a, after);
    } else {
      var b, rest := before[0], before[1..];
      HeadOf(before, a, after);
      SettlesStays(l, b, a);
      forall x | x in rest ensures Settles(Exec(l, b), x) && (CallKey(x.call) == CallKey(a.call) ==> x == a) {
        SettlesStays(l, b, x);
      }
      MoveToFront(Exec(l, b), rest, a, after);
      SwapTwo(l, b, a);
      RunCons(l, b, rest + [a] + after);
      RunCons(Exec(l, a), b, rest + after);
    }
  }

  lemma SameTail(g: seq<Attempt>, h: seq<Attempt>) returns (k: nat)
    requires multiset(g) == multiset(h) && g != []
    ensures k < |h| && h[k] == g[0]
    ensures multiset(g[1..]) == multiset(h[..k] + h[k + 1..])
  {
    assert g[0] in multiset(h);
    k :| 0 <= k < |h| && h[k] == g[0];
    assert h == h[..k] + [h[k]] + h[k + 1..];
    assert g == [g[0]] + g[1..];
    assert multiset(g[1..]) == multiset(g) - multiset{g[0]};
  }

  lemma SameMembers(g: seq<Attempt>, h: seq<Attempt>)
    requires multiset(g) == multiset(h)
    ensures forall a :: a in g <==> a in h
  {
    forall a ensures a in g <==> a in h {
      assert a in g <==> a in multiset(g);
      assert a in h <==> a in multiset(h);
    }
  }

  /** Any permutation of a batch of settling releases and confirms leaves the same counters
      and the same log. */
  lemma {:induction false} OrderIndependence(l: Ledger, g: seq<Attempt>, h: seq<Attempt>)
    requires multiset(g) == multiset(h)
    requires forall a :: a in g ==> Settles(l, a)
    requires Agree(g)
    ensures Run(l, g) == Run(l, h)
    decreases g
  {
    SameMembers(g, h);
    if g == [] {
      assert |h| == |multiset(h)| == |multiset(g)|;
    } else {
      var k := SameTail(g, h);
      var rest := h[..k] + h[k + 1..];
      assert h == h[..k] + [g[0]] + h[k + 1..];
      MoveToFront(l, h[..k], g[0], h[k + 1..]);
      assert forall a :: a in g[1..] ==> a in g;
      OrderIndependence(Exec(l, g[0]), g[1..], rest);
    }
  }

  // ---------- a log whose rows expire ----------

  /** What happens to a ledger over months: calls, and the store dropping log rows that have
      reached their age. */
  datatype Event = Called(attempt: Attempt) | Aged(key: OpKey)

  function After(l: Ledger, e: Event): Ledger {
    match e
    case Called(a) => Exec(l, a)
    case Aged(k) => l.(ops := l.ops - {k})
  }

  function RunAging(l: Ledger, h: seq<Event>): Ledger
    decreases h
  {
    if h == [] then l else After(RunAging(l, h[..|h| - 1]), h[|h| - 1])
  }

  /** The i-th event is a call for `k` that was answered Ok. */
  predicate Succeeds(l: Ledger, h: seq<Event>, i: nat, k: OpKey)
    requires i < |h|
  {
    h[i].Called? && CallKey(h[i].attempt.call) == k && Answer(RunAging(l, h[..i]), h[i].attempt).Ok?
  }

  /** `k` succeeded, or was logged from the start, and has not aged since. */
  ghost predicate Fresh(l: Ledger, h: seq<Event>, k: OpKey) {
    || (k in l.ops && Aged(k) !in h)
    || (exists i: nat :: i < |h| && Succeeds(l, h, i, k) && Aged(k) !in h[i..])
  }

  /** One more event, seen from the calls' answers alone. */
  lemma FreshStep(l: Ledger, h: seq<Event>, e: Event, k: OpKey)
    ensures Fresh(l, h + [e], k) <==>
            e != Aged(k) && (Fresh(l, h, k) || (e.Called? && CallKey(e.attempt.call) == k
                                                && Answer(RunAging(l, h), e.attempt).Ok?))
  {
    var g := h + [e];
    assert g[..|h|] == h && g[|h|..] == [e];
    forall i: nat | i < |h| ensures g[..i] == h[..i] && g[i..] == h[i..] + [e] {
    }
    if Fresh(l, g, k) && !(k in l.ops && Aged(k) !in g) {
      var i: nat :| i < |g| && Succeeds(l, g, i, k) && Aged(k) !in g[i..];
      assert e in g[i..];
      if i < |h| {
        assert Succeeds(l, h, i, k) && Aged(k) !in h[i..];
      }
    } else if e != Aged(k) {
      if i: nat :| i < |h| && Succeeds(l, h, i, k) && Aged(k) !in h[i..] {
        assert Succeeds(l, g, i, k) && Aged(k) !in g[i..];
      } else if e.Called? && CallKey(e.attempt.call) == k && Answer(RunAging(l, h), e.attempt).Ok? {
        assert Succeeds(l, g, |h|, k) && Aged(k) !in g[|h|..];
      }
    }
  }

  /** The log holds exactly the operations that have succeeded since they last aged. */
  lemma {:induction false} LoggedIsFresh(l: Ledger, h: seq<Event>, k: OpKey)
    ensures k in RunAging(l, h).ops <==> Fresh(l, h, k)
    decreases h
  {
    if h != [] {
      var n := |h| - 1;
      LoggedIsFresh(l, h[..n], k);
      FreshStep(l, h[..n], h[n], k);
      assert h[..n] + [h[n]] == h;
    }
  }

  /** A repeat is harmless only while its row is kept: after any history with expiring rows, a
      settling release or confirm leaves every counter alone exactly if the operation has
      succeeded since its row last aged, or it moves nothing. */
  lemma RepeatNeedsItsRow(l: Ledger, h: seq<Event>, a: Attempt)
    requires Settles(RunAging(l, h), a)
    ensures RunAging(l, h + [Called(a)]).vessels == RunAging(l, h).vessels
            <==> Fresh(l, h, CallKey(a.call)) || (a.call.req.weight == 0 && a.call.req.containers == 0)
  {
    var l1 := RunAging(l, h);
    assert (h + [Called(a)])[..|h|] == h;
    LoggedIsFresh(l, h, CallKey(a.call));
    SettledExec(l1, a);
    var v := a.call.req.vessel;
    assert Exec(l1, a).vessels == l1.vessels ==> Exec(l1, a).vessels[v] == l1.vessels[v];
  }

  function CallsOf(h: seq<Event>): seq<Attempt> {
    if h == [] then []
    else CallsOf(h[..|h| - 1]) + (if h[|h| - 1].Called? then [h[|h| - 1].attempt] else [])
  }

  function AgedKeys(h: seq<Event>): set<OpKey> {
    set e | e in h && e.Aged? :: e.key
  }

  /** No operation is called again once its row has aged. */
  ghost predicate CalledInTime(h: seq<Event>) {
    forall i, j :: 0 <= i < j < |h| && h[i].Aged? && h[j].Called? ==> CallKey(h[j].attempt.call) != h[i].key
  }

  lemma {:induction false} RunSnoc(l: Ledger, h: seq<Attempt>, a: Attempt)
    ensures Run(l, h + [a]) == Exec(Run(l, h), a)
    decreases h
  {
    if h == [] {
      assert Run(Exec(l, a), []) == Exec(l, a);
    } else {
      assert (h + [a])[1..] == h[1..] + [a];
      RunSnoc(Exec(l, h[0]), h[1..], a);
    }
  }

  /** A call whose own row has not aged does the same with and without the aged rows. */
  lemma AgedCall(now: Ledger, plain: Ledger, aged: set<OpKey>, a: Attempt)
    requires now.vessels == plain.vessels && now.ops == plain.ops - aged && CallKey(a.call) !in aged
    ensures Exec(now, a).vessels == Exec(plain, a).vessels
    ensures Exec(now, a).ops == Exec(plain, a).ops - aged
  {
    assert CallKey(a.call) in now.ops <==> CallKey(a.call) in plain.ops;
    assert Answer(now, a) == Answer(plain, a);
  }

  /** Expiry is harmless while every operation's calls come before its row ages: the counters
      are those of the calls alone, and the log is theirs but for what has aged. */
  lemma {:induction false} AgingIsHarmless(l: Ledger, h: seq<Event>)
    requires CalledInTime(h)
    ensures RunAging(l, h).vessels == Run(l, CallsOf(h)).vessels
    ensures RunAging(l, h).ops == Run(l, CallsOf(h)).ops - AgedKeys(h)
    decreases h
  {
    if h == [] {
      assert AgedKeys(h) == {};
    } else {
      var n := |h| - 1;
      AgingIsHarmless(l, h[..n]);
      AgedStep(h);
      if h[n].Called? {
        RunSnoc(l, CallsOf(h[..n]), h[n].attempt);
        AgedCall(RunAging(l, h[..n]), Run(l, CallsOf(h[..n])), AgedKeys(h[..n]), h[n].attempt);
      } else {
        assert CallsOf(h) == CallsOf(h[..n]);
      }
    }
  }

  lemma AgedStep(h: seq<Event>)
    requires h != []
    ensures AgedKeys(h) == AgedKeys(h[..|h| - 1]) + if h[|h| - 1].Aged? then {h[|h| - 1].key} else {}
  {
    var n := |h| - 1;
    assert h == h[..n] + [h[n]];
    assert forall e :: e in h <==> e in h[..n] || e == h[n];
  }
}
