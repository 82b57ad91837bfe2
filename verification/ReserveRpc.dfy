/** The reservation service's RPCs: a reserve call with its in-process retries, the cache
    write, and the release that compensates a failed cache write. */
module ReserveRpc {
  import opened Types
  import opened Events
  import L = VesselLedger
  import C = ReservationCache
  import M = CapacityManager

  /** One attempt of the vessel call: the fate of its message and of its transaction, and
      the vessel the store finds. */
  datatype Try = Try(net: Net, found: Option<VesselId>, fault: L.Fault)

  /** What the RPC works on. */
  datatype Shared = Shared(ledger: L.Ledger, keys: C.Keys)

  datatype Request = Request(reservation: ReservationId, consignment: ConsignmentId, weight: int, containers: int)

  datatype Env = Env(tries: seq<Try>, store: C.StoreFault, releases: seq<M.Rpc>)

  function SpecOf(q: Request): L.Specification {
    L.Specification(q.reservation, q.weight, q.containers)
  }

  function AttemptOf(q: Request, t: Try): L.Attempt {
    L.Attempt(L.ReserveCall(SpecOf(q), t.found), t.fault)
  }

  function AfterTry(l: L.Ledger, q: Request, t: Try): L.Ledger {
    if t.net.Dropped? then l else L.Exec(l, AttemptOf(q, t))
  }

  /** The call is over: it succeeded, or no vessel has room, which is not retried. */
  predicate Stops(l: L.Ledger, q: Request, t: Try) {
    t.net.Answered? && (L.Answer(l, AttemptOf(q, t)).Ok? || L.Answer(l, AttemptOf(q, t)).NoVessel?)
  }

  function AfterTries(l: L.Ledger, q: Request, tries: seq<Try>): L.Ledger
    decreases tries
  {
    if tries == [] then l
    else if Stops(l, q, tries[0]) then AfterTry(l, q, tries[0])
    else AfterTries(AfterTry(l, q, tries[0]), q, tries[1..])
  }

  /** The vessel in the answer, None if there was no room or every attempt failed. */
  function Heard(l: L.Ledger, q: Request, tries: seq<Try>): Option<VesselId>
    decreases tries
  {
    if tries == [] then None
    else if Stops(l, q, tries[0]) then
      (if L.Answer(l, AttemptOf(q, tries[0])).Ok? then Some(L.Answer(l, AttemptOf(q, tries[0])).vessel) else None)
    else Heard(AfterTry(l, q, tries[0]), q, tries[1..])
  }

  /** Every attempt that runs finds what the store may find. */
  predicate Legal(l: L.Ledger, q: Request, tries: seq<Try>)
    decreases tries
  {
    tries == [] ||
    ((!tries[0].net.Dropped? ==> L.Finds(l, SpecOf(q), tries[0].found))
     && (!Stops(l, q, tries[0]) ==> Legal(AfterTry(l, q, tries[0]), q, tries[1..])))
  }

  function InfoOf(q: Request, v: VesselId): ReservationInfo {
    ReservationInfo(q.reservation, v, q.consignment, q.containers, q.weight)
  }

  function ReleaseOf(q: Request, v: VesselId): L.Call {
    L.ReleaseCall(M.RequestOf(InfoOf(q, v)))
  }

  /** The state after the whole RPC. */
  function Served(s: Shared, q: Request, ttl: C.Ttl, now: int, env: Env): Shared {
    var l := AfterTries(s.ledger, q, env.tries);
    match Heard(s.ledger, q, env.tries)
    case None => s.(ledger := l)
    case Some(v) =>
      Shared(if env.store.StoreOk? then l else M.AfterCalls(l, ReleaseOf(q, v), env.releases),
             C.StoreIn(s.keys, ttl, InfoOf(q, v), now, env.store))
  }

  function Reply(s: Shared, q: Request, env: Env): Option<VesselId> {
    if env.store.StoreOk? then Heard(s.ledger, q, env.tries) else None
  }

  datatype RefreshReply = Refreshed | NotFound | Internal

  class GRPCHandler {
    const vessel: L.MongoRepository
    const cache: C.Cache

    constructor (vessel: L.MongoRepository, cache: C.Cache)
      ensures this.vessel == vessel && this.cache == cache
    {
      this.vessel, this.cache := vessel, cache;
    }

    function State(): Shared
      reads this, vessel, cache
    {
      Shared(vessel.Contents(), cache.Contents())
    }

    method CallReserve(q: Request, tries: seq<Try>) returns (res: Option<VesselId>)
      requires Legal(vessel.Contents(), q, tries)
      modifies vessel
      ensures res == Heard(old(vessel.Contents()), q, tries)
      ensures vessel.Contents() == AfterTries(old(vessel.Contents()), q, tries)
    {
      ghost var was := vessel.Contents();
      var i := 0;
      while i < |tries|
        invariant 0 <= i <= |tries|
        invariant Legal(vessel.Contents(), q, tries[i..])
        invariant Heard(was, q, tries) == Heard(vessel.Contents(), q, tries[i..])
        invariant AfterTries(was, q, tries) == AfterTries(vessel.Contents(), q, tries[i..])
      {
        assert tries[i..][1..] == tries[i + 1..];
        var t := tries[i];
        if !t.net.Dropped? {
          var reply := vessel.ReserveCapacity(SpecOf(q), t.found, t.fault);
          if t.net.Answered? {
            if reply.Ok? {
              return Some(reply.vessel);
            }
            if reply.NoVessel? {
              return None;
            }
          }
        }
        i := i + 1;
      }
      return None;
    }

    method Compensate(q: Request, v: VesselId, releases: seq<M.Rpc>)
      modifies vessel
      ensures vessel.Contents() == M.AfterCalls(old(vessel.Contents()), ReleaseOf(q, v), releases)
    {
      ghost var was := vessel.Contents();
      var i := 0;
      while i < |releases|
        invariant 0 <= i <= |releases|
        invariant M.AfterCalls(was, ReleaseOf(q, v), releases)
                  == M.AfterCalls(vessel.Contents(), ReleaseOf(q, v), releases[i..])
      {
        assert releases[i..][1..] == releases[i + 1..];
        if !releases[i].net.Dropped? {
          var reply := vessel.ReleaseCapacity(M.RequestOf(InfoOf(q, v)), releases[i].fault);
          if releases[i].net.Answered? && reply.Ok? {
            return;
          }
        }
        i := i + 1;
      }
    }

    /** `q.reservation` is the fresh id the call draws. */
    method ReserveCapacity(q: Request, now: int, env: Env) returns (reply: Option<VesselId>)
      requires Legal(vessel.Contents(), q, env.tries)
      modifies vessel, cache
      ensures State() == Served(old(State()), q, cache.ttl, now, env)
      ensures reply == Reply(old(State()), q, env)
    {
      var res := CallReserve(q, env.tries);
      if res.None? {
        return None;
      }
      var stored := cache.Store(InfoOf(q, res.value), now, env.store);
      if !stored {
        Compensate(q, res.value, env.releases);
        return None;
      }
      return res;
    }

    /** A failed refresh is reported as an error, whether or not it extended the key. */
    method RefreshReservation(r: ReservationId, now: int, fault: C.RefreshFault) returns (reply: RefreshReply)
      modifies cache
      ensures reply == if fault.RefreshFails? then Internal else if r in old(cache.ids) then Refreshed else NotFound
      ensures cache.Contents() == if fault == C.RefreshFails(false) then old(cache.Contents())
                                  else C.RefreshIn(old(cache.Contents()), cache.ttl, r, now)
    {
      var refreshed := cache.Refresh(r, now, fault);
      if refreshed.None? {
        return Internal;
      }
      return if refreshed.value then Refreshed else NotFound;
    }
  }

  // ---------- what the retry loop hears ----------

  function ReserveKey(q: Request): L.OpKey {
    L.OpKey(q.reservation, L.Reserve)
  }

  /** An attempt that reserves if it is made and nothing is reserved yet. */
  predicate Commits(t: Try) {
    !t.net.Dropped? && t.found.Some?
    && t.fault != L.Session && t.fault != L.Begin && t.fault != L.Find && t.fault != L.Insert && t.fault != L.Commit
  }

  predicate TellsNoVessel(t: Try) {
    t.net.Answered? && t.found.None? && t.fault != L.Session && t.fault != L.Begin && t.fault != L.Find
  }

  /** The i-th attempt tells of a vessel: its own, or the one an earlier attempt reserved. */
  ghost predicate TellsVessel(tries: seq<Try>, i: nat, logged: bool)
    requires i < |tries|
  {
    var t := tries[i];
    && t.net.Answered? && t.found.Some?
    && t.fault != L.Session && t.fault != L.Begin && t.fault != L.Find && t.fault != L.Insert
    && (if logged || exists j: nat :: j < i && Commits(tries[j]) then t.fault != L.Refetch else t.fault != L.Commit)
  }

  /** The attempts before the i-th go on: none is told that there is no vessel. */
  predicate GoesOn(tries: seq<Try>, i: nat)
    requires i <= |tries|
  {
    forall j: nat :: j < i ==> !TellsNoVessel(tries[j])
  }

  lemma TellsLater(tries: seq<Try>, i: nat, logged: bool)
    requires 0 < i < |tries|
    ensures TellsVessel(tries, i, logged) <==> TellsVessel(tries[1..], i - 1, logged || Commits(tries[0]))
    ensures GoesOn(tries, i) <==> !TellsNoVessel(tries[0]) && GoesOn(tries[1..], i - 1)
  {
    var rest := tries[1..];
    if j: nat :| j < i && Commits(tries[j]) {
      assert j > 0 ==> Commits(rest[j - 1]);
    }
    if j: nat :| j < i - 1 && Commits(rest[j]) {
      assert Commits(tries[j + 1]);
    }
    if GoesOn(tries, i) {
      forall j: nat | j < i - 1 ensures !TellsNoVessel(rest[j]) {
        assert !TellsNoVessel(tries[j + 1]);
      }
    }
    if !TellsNoVessel(tries[0]) && GoesOn(rest, i - 1) {
      forall j: nat | j < i ensures !TellsNoVessel(tries[j]) {
        assert j > 0 ==> !TellsNoVessel(rest[j - 1]);
      }
    }
  }

  ghost predicate IsTold(tries: seq<Try>, logged: bool) {
    exists i: nat :: i < |tries| && TellsVessel(tries, i, logged) && GoesOn(tries, i)
  }

  ghost predicate SomeCommit(tries: seq<Try>) {
    exists i: nat :: i < |tries| && Commits(tries[i]) && GoesOn(tries, i)
  }

  lemma ToldStep(tries: seq<Try>, logged: bool)
    requires tries != []
    ensures IsTold(tries, logged) <==>
              || TellsVessel(tries, 0, logged)
              || (!TellsNoVessel(tries[0]) && IsTold(tries[1..], logged || Commits(tries[0])))
    ensures SomeCommit(tries) <==> Commits(tries[0]) || (!TellsNoVessel(tries[0]) && SomeCommit(tries[1..]))
  {
    var rest := tries[1..];
    forall i: nat | 0 < i < |tries| {
      TellsLater(tries, i, logged);
    }
    if i: nat :| i < |rest| && TellsVessel(rest, i, logged || Commits(tries[0])) && GoesOn(rest, i) && !TellsNoVessel(tries[0]) {
      assert TellsVessel(tries, i + 1, logged) && GoesOn(tries, i + 1);
    }
    if i: nat :| i < |rest| && Commits(rest[i]) && GoesOn(rest, i) && !TellsNoVessel(tries[0]) {
      assert Commits(tries[i + 1]) && GoesOn(tries, i + 1);
    }
    if i: nat :| i < |tries| && Commits(tries[i]) && GoesOn(tries, i) {
      assert i > 0 ==> Commits(rest[i - 1]) && GoesOn(rest, i - 1);
    }
  }

  /** What the loop hears, read off the attempts alone: it hears of a vessel exactly if some
      attempt tells of one before any tells that there is none, and the vessel is the one that
      is reserved. The reservation is logged exactly if it was or some attempt made commits. */
  lemma {:induction false} HeardExactly(l: L.Ledger, q: Request, tries: seq<Try>)
    requires Legal(l, q, tries)
    requires ReserveKey(q) in l.ops ==> l.ops[ReserveKey(q)] in l.vessels
    ensures var t, k := AfterTries(l, q, tries), ReserveKey(q);
            && (Heard(l, q, tries).Some? <==> IsTold(tries, k in l.ops))
            && (Heard(l, q, tries).Some? ==> k in t.ops && Heard(l, q, tries) == Some(t.ops[k]))
            && (k in t.ops <==> k in l.ops || SomeCommit(tries))
            && (k in l.ops ==> t == l)
    decreases tries
  {
    if tries != [] {
      var l1 := AfterTry(l, q, tries[0]);
      ToldStep(tries, ReserveKey(q) in l.ops);
      assert ReserveKey(q) in l1.ops <==> ReserveKey(q) in l.ops || Commits(tries[0]);
      assert Stops(l, q, tries[0]) <==>
             TellsVessel(tries, 0, ReserveKey(q) in l.ops) || TellsNoVessel(tries[0]);
      if !Stops(l, q, tries[0]) {
        HeardExactly(l1, q, tries[1..]);
      }
    }
  }

  // ---------- all or nothing ----------

  function ReserveEntry(q: Request, v: VesselId): L.Entry {
    L.Entry(L.Reserve, q.reservation, v, q.weight, q.containers)
  }

  function ReleaseEntry(q: Request, v: VesselId): L.Entry {
    L.Entry(L.Release, q.reservation, v, q.weight, q.containers)
  }

  /** Some attempt committed, counting answers from the ledger as it was before any did. */
  predicate Took(l: L.Ledger, q: Request, tries: seq<Try>)
    decreases tries
  {
    tries != []
    && ((!tries[0].net.Dropped? && L.Answer(l, AttemptOf(q, tries[0])).Ok?)
        || (!Stops(l, q, tries[0]) && Took(l, q, tries[1..])))
  }

  /** Once reserved, further attempts change nothing, and any success names the same vessel. */
  lemma {:induction false} TriesAfter(l: L.Ledger, q: Request, tries: seq<Try>)
    requires ReserveKey(q) in l.ops
    ensures AfterTries(l, q, tries) == l
    ensures Heard(l, q, tries).Some? ==> Heard(l, q, tries).value == l.ops[ReserveKey(q)]
    decreases tries
  {
    if tries != [] && !Stops(l, q, tries[0]) {
      TriesAfter(l, q, tries[1..]);
    }
  }

  /** Whatever is lost and resent, the call reserves at most once; it does exactly if some
      attempt committed, and an answer names the vessel that was reserved. */
  lemma {:induction false} ReservesOnce(l: L.Ledger, q: Request, tries: seq<Try>)
    requires ReserveKey(q) !in l.ops && Legal(l, q, tries)
    ensures var t := AfterTries(l, q, tries);
            if Took(l, q, tries) then
              ReserveKey(q) in t.ops
              && (var v := t.ops[ReserveKey(q)];
                  && v in l.vessels && L.HasRoom(l.vessels[v], q.weight, q.containers)
                  && t == L.Record(l, ReserveEntry(q, v))
                  && (Heard(l, q, tries).Some? ==> Heard(l, q, tries).value == v))
            else t == l && Heard(l, q, tries) == None
    decreases tries
  {
    if tries != [] {
      var l1 := AfterTry(l, q, tries[0]);
      if !tries[0].net.Dropped? && L.Answer(l, AttemptOf(q, tries[0])).Ok? {
        var v := tries[0].found.value;
        assert L.Answer(l, AttemptOf(q, tries[0])) == L.Ok(v);
        assert l1 == L.Record(l, ReserveEntry(q, v)) && l1.ops[ReserveKey(q)] == v;
        TriesAfter(l1, q, tries[1..]);
      } else if !Stops(l, q, tries[0]) {
        ReservesOnce(l1, q, tries[1..]);
      }
    }
  }

  /** A release of a known vessel happens once if it happens, and it did if it was answered. */
  lemma {:induction false} ReleasesOnce(l: L.Ledger, q: Request, v: VesselId, calls: seq<M.Rpc>)
    requires v in l.vessels
    ensures var t, k := M.AfterCalls(l, ReleaseOf(q, v), calls), L.OpKey(q.reservation, L.Release);
            && (k in l.ops ==> t == l)
            && (k !in l.ops ==> t == l || t == L.Record(l, ReleaseEntry(q, v)))
            && (M.CallsOk(l, ReleaseOf(q, v), calls) ==> k in t.ops)
    decreases calls
  {
    if calls != [] && !M.RpcOk(l, ReleaseOf(q, v), calls[0]) {
      ReleasesOnce(M.AfterRpc(l, ReleaseOf(q, v), calls[0]), q, v, calls[1..]);
    }
  }

  lemma UndoneReserve(l: L.Ledger, q: Request, v: VesselId)
    requires v in l.vessels && v in L.Record(l, ReserveEntry(q, v)).vessels
    ensures L.Record(L.Record(l, ReserveEntry(q, v)), ReleaseEntry(q, v)).vessels == l.vessels
  {
  }

  /** The whole RPC under any losses and resends: a reply means one reserve of the replied
      vessel and its data cached; a failed cache write whose release is answered leaves every
      counter as it was. */
  lemma ReserveIsAllOrNothing(s: Shared, q: Request, ttl: C.Ttl, now: int, env: Env)
    requires ReserveKey(q) !in s.ledger.ops && L.OpKey(q.reservation, L.Release) !in s.ledger.ops
    requires Legal(s.ledger, q, env.tries)
    ensures var t, h := Served(s, q, ttl, now, env), Heard(s.ledger, q, env.tries);
            && (Reply(s, q, env).Some? ==>
                  var v := Reply(s, q, env).value;
                  && v in s.ledger.vessels && L.HasRoom(s.ledger.vessels[v], q.weight, q.containers)
                  && t.ledger == L.Record(s.ledger, ReserveEntry(q, v))
                  && q.reservation in t.keys.ids && q.reservation in t.keys.data
                  && t.keys.data[q.reservation].info == InfoOf(q, v))
            && (h.Some? && !env.store.StoreOk?
                && M.CallsOk(AfterTries(s.ledger, q, env.tries), ReleaseOf(q, h.value), env.releases) ==>
                  && t.ledger.vessels == s.ledger.vessels
                  && t.ledger.ops.Keys == s.ledger.ops.Keys + {ReserveKey(q), L.OpKey(q.reservation, L.Release)})
  {
    var l := AfterTries(s.ledger, q, env.tries);
    var h := Heard(s.ledger, q, env.tries);
    ReservesOnce(s.ledger, q, env.tries);
    if h.Some? {
      ReleasesOnce(l, q, h.value, env.releases);
      UndoneReserve(s.ledger, q, h.value);
    }
  }

  lemma HeldReserve(l: L.Ledger, q: Request, v: VesselId)
    requires v in l.vessels
    ensures L.Record(l, ReserveEntry(q, v)).vessels == l.vessels <==> q.weight == 0 && q.containers == 0
  {
    var w := L.Record(l, ReserveEntry(q, v)).vessels[v];
    assert w == L.Post(l.vessels[v], ReserveEntry(q, v));
    if q.weight == 0 && q.containers == 0 {
      assert w == l.vessels[v];
    } else {
      assert w.reservedWeight != l.vessels[v].reservedWeight || w.reservedCapacity != l.vessels[v].reservedCapacity;
    }
  }

  /** The caller has a vessel exactly if the loop was told of one and the cache write worked. If
      it was told and the cache write failed, the capacity is given back exactly if some release
      takes effect, heard or not. */
  lemma RepliesExactly(s: Shared, q: Request, ttl: C.Ttl, now: int, env: Env)
    requires ReserveKey(q) !in s.ledger.ops && L.OpKey(q.reservation, L.Release) !in s.ledger.ops
    requires Legal(s.ledger, q, env.tries)
    ensures Reply(s, q, env).Some? <==> env.store.StoreOk? && IsTold(env.tries, false)
    ensures var t, h := Served(s, q, ttl, now, env), Heard(s.ledger, q, env.tries);
            h.Some? && !env.store.StoreOk? ==>
              (t.ledger.vessels == s.ledger.vessels <==>
                 M.SomeCommit(s.ledger, ReleaseOf(q, h.value), env.releases, |env.releases|)
                 || (q.weight == 0 && q.containers == 0))
  {
    HeardExactly(s.ledger, q, env.tries);
    ReservesOnce(s.ledger, q, env.tries);
    var h := Heard(s.ledger, q, env.tries);
    if h.Some? {
      var l := AfterTries(s.ledger, q, env.tries);
      M.CallsExactly(l, ReleaseOf(q, h.value), env.releases);
      assert l.vessels.Keys == s.ledger.vessels.Keys;
      assert M.SomeCommit(l, ReleaseOf(q, h.value), env.releases, |env.releases|)
             <==> M.SomeCommit(s.ledger, ReleaseOf(q, h.value), env.releases, |env.releases|);
      UndoneReserve(s.ledger, q, h.value);
      HeldReserve(s.ledger, q, h.value);
    }
  }

  /** A call that hears of no vessel leaves the ledger untouched exactly if no attempt
      committed: a committed attempt whose answer was lost is kept, and never compensated. */
  lemma UnheardReserveLeaks(s: Shared, q: Request, ttl: C.Ttl, now: int, env: Env)
    requires ReserveKey(q) !in s.ledger.ops && Legal(s.ledger, q, env.tries)
    requires Heard(s.ledger, q, env.tries).None?
    ensures Reply(s, q, env) == None
    ensures Served(s, q, ttl, now, env).ledger == s.ledger <==> !Took(s.ledger, q, env.tries)
  {
    ReservesOnce(s.ledger, q, env.tries);
  }

  /** It does happen: the answer of the reserve that fills the fleet is lost, and the resend
      is told, for good, that no vessel has room. */
  lemma LostAnswerThenFull(q: Request, v: VesselId)
    requires 0 < q.weight
    ensures var fleet := L.Ledger(map[v := L.Vessel(q.containers, q.weight, 0, 0, 0, 0)], map[]);
            var tries := [Try(Lost, Some(v), L.NoFault), Try(Answered, None, L.NoFault)];
            && Legal(fleet, q, tries)
            && Heard(fleet, q, tries) == None
            && ReserveKey(q) in AfterTries(fleet, q, tries).ops
  {
    var fleet := L.Ledger(map[v := L.Vessel(q.containers, q.weight, 0, 0, 0, 0)], map[]);
    var t0, t1 := Try(Lost, Some(v), L.NoFault), Try(Answered, None, L.NoFault);
    var full := AfterTry(fleet, q, t0);
    assert full == L.Record(fleet, ReserveEntry(q, v));
    assert Stops(full, q, t1) && Legal(full, q, [t1]);
    assert [t0, t1][1..] == [t1];
  }
}
