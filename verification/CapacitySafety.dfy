/** Every run without the three extra faults keeps the vessels within their limits and never
    both confirms and releases a reservation. */
module CapacitySafety {
  import opened Types
  import opened Events
  import L = VesselLedger
  import S = LedgerSafety
  import C = ReservationCache
  import M = CapacityManager
  import N = Consignments
  import opened CapacitySystem

  // ---------- the invariant: the ledger ----------

  ghost predicate LogOk(w: World) {
    && S.Orderly(w.log)
    && L.Balances(w.base, w.rs.ledger, w.log)
    && (forall e :: e in w.log ==>
          && L.EntryKey(e) in w.rs.ledger.ops && w.rs.ledger.ops[L.EntryKey(e)] == e.vessel
          && e.vessel in w.rs.ledger.vessels)
    && (forall k :: k in w.rs.ledger.ops ==> S.Logged(w.log, k))
    && S.NonNegative(w.base)
    && S.WithinLimits(w.rs.ledger)
  }

  // ---------- the invariant: who knows what about a reservation ----------

  /** The reservation was reserved with exactly this vessel and these amounts. */
  predicate Reserved(w: World, r: ReservationId, v: VesselId, weight: int, containers: int) {
    L.Entry(L.Reserve, r, v, weight, containers) in w.log
  }

  /** Its RPC has got past the Store, with or without success. */
  predicate IsStored(w: World, r: ReservationId) {
    r in w.rpcs && (w.rpcs[r].phase.Granted? || w.rpcs[r].phase.Compensating?)
  }

  predicate InfoOk(w: World, info: ReservationInfo) {
    Reserved(w, info.id, info.vessel, info.weight, info.containers) && IsStored(w, info.id)
  }

  predicate IsGranted(w: World, r: ReservationId) {
    r in w.rpcs && w.rpcs[r].phase.Granted?
  }

  ghost predicate RpcsOk(w: World) {
    && (forall r :: r in w.rpcs && !w.rpcs[r].phase.Reserving? ==>
          Reserved(w, r, w.rpcs[r].phase.vessel, w.rpcs[r].weight, w.rpcs[r].containers))
    && (forall e :: e in w.log ==>
          e.reservation in w.rpcs && e.weight == w.rpcs[e.reservation].weight
          && e.containers == w.rpcs[e.reservation].containers)
    && (forall id :: id in w.records ==>
          var c := w.records[id];
          IsGranted(w, c.reservation) && Reserved(w, c.reservation, c.vessel, c.weight, c.containers))
    && (forall p :: p in w.captured ==> InfoOk(w, p.info) && IsGranted(w, p.info.id))
    && (forall info :: info in w.seen ==> InfoOk(w, info))
    && (forall r :: r in w.rs.keys.data ==>
          w.rs.keys.data[r].info.id == r && InfoOk(w, w.rs.keys.data[r].info))
  }

  predicate EventOk(w: World, e: CapacityEvent) {
    InfoOk(w, e.info) && (e.action.ConfirmAction? ==> IsGranted(w, e.info.id))
  }

  predicate RowOk(w: World, row: Row) {
    && (row.payload.Capacity? ==>
          && EventOk(w, row.payload.capacity)
          && (row.payload.capacity.action.ConfirmAction? && row.payload.capacity.cacheCleared ==>
                row.topic.ConfirmCapacityTopic? || row.topic.CapacityFailedTopic?))
    && (row.payload.Expired? ==> InfoOk(w, row.payload.expired))
  }

  predicate ThreadOk(w: World, th: Thread) {
    && EventOk(w, th.event)
    && (th.pc.Gating? ==> !th.event.cacheCleared)
    && (th.pc.Calling? || th.pc.Applied? || th.pc.Idle? || th.token ==> th.event.cacheCleared)
    && (th.pc.Idle? ==> th.token)
    && (th.token ==> th.event.action.ConfirmAction?)
  }

  ghost predicate MessagesOk(w: World) {
    && (forall row :: row in w.rs.outbox ==> RowOk(w, row))
    && (forall t :: t in w.threads ==> ThreadOk(w, w.threads[t]))
  }

  // ---------- the invariant: the gate as a linear token ----------

  /** Thread `t` may still confirm `r`. */
  predicate HoldsGate(w: World, t: nat, r: ReservationId) {
    t in w.threads && w.threads[t].event.info.id == r && w.threads[t].event.action.ConfirmAction?
    && w.threads[t].event.cacheCleared && !w.threads[t].pc.Applied?
  }

  predicate UndoThread(w: World, t: nat, r: ReservationId) {
    t in w.threads && w.threads[t].event.info.id == r && w.threads[t].event.action.ReleaseAction?
    && w.threads[t].event.cacheCleared
  }

  /** A cache-cleared message that can only lead to a release. */
  predicate UndoRow(row: Row, r: ReservationId) {
    row.payload.Capacity? && row.payload.capacity.info.id == r && row.payload.capacity.cacheCleared
    && (row.payload.capacity.action.ReleaseAction? || row.topic.CapacityFailedTopic?)
  }

  ghost predicate Held(w: World, r: ReservationId) {
    exists t: nat :: HoldsGate(w, t, r)
  }

  ghost predicate Undone(w: World, r: ReservationId) {
    (exists t: nat :: UndoThread(w, t, r)) || (exists row :: row in w.rs.outbox && UndoRow(row, r))
  }

  predicate Cached(w: World, r: ReservationId) {
    r in w.rs.keys.data
  }

  /** The cached data, one live confirm, its release-only successors and an applied
      operation exclude one another. */
  ghost predicate GateOk(w: World, r: ReservationId) {
    && (Held(w, r) ==> !Cached(w, r) && !Undone(w, r) && !IsConfirmed(w, r) && !IsReleased(w, r))
    && (Cached(w, r) ==> !Undone(w, r) && !IsConfirmed(w, r) && (IsGranted(w, r) ==> !IsReleased(w, r)))
    && (Undone(w, r) ==> !IsConfirmed(w, r))
    && (IsConfirmed(w, r) ==> IsGranted(w, r) && !IsReleased(w, r))
    && (IsReleased(w, r) ==> IsStored(w, r))
  }

  ghost predicate OneHolder(w: World) {
    forall t: nat, u: nat, r :: HoldsGate(w, t, r) && HoldsGate(w, u, r) ==> t == u
  }

  ghost predicate GatesOk(w: World) {
    OneHolder(w) && forall r :: GateOk(w, r)
  }

  ghost predicate Inv(w: World) {
    LogOk(w) && RpcsOk(w) && MessagesOk(w) && GatesOk(w)
  }

  // ---------- frames ----------

  /** From w to x the log and the grants only grew and the events stayed well founded. */
  ghost predicate Grows(w: World, x: World) {
    && w.log <= x.log
    && (forall r :: IsGranted(w, r) ==> IsGranted(x, r))
    && (forall r :: IsStored(w, r) ==> IsStored(x, r))
  }

  lemma GrowsInfo(w: World, x: World, e: CapacityEvent)
    requires Grows(w, x)
    ensures EventOk(w, e) ==> EventOk(x, e)
    ensures InfoOk(w, e.info) ==> InfoOk(x, e.info)
  {
  }

  lemma GrowsMessages(w: World, x: World)
    requires Grows(w, x) && MessagesOk(w)
    ensures forall row :: row in w.rs.outbox ==> RowOk(x, row)
    ensures forall t :: t in w.threads ==> ThreadOk(x, w.threads[t])
  {
    forall row | row in w.rs.outbox ensures RowOk(x, row) {
      assert RowOk(w, row);
    }
    forall t | t in w.threads ensures ThreadOk(x, w.threads[t]) {
      assert ThreadOk(w, w.threads[t]);
    }
  }

  // ---------- a call that reaches the vessel service ----------

  lemma {:induction false} SumAbsent(es: seq<L.Entry>, k: L.OpKind, v: VesselId, d: L.Dim)
    requires forall e :: e in es ==> e.vessel != v
    ensures L.Sum(es, k, v, d) == 0
  {
    if es != [] {
      SumAbsent(es[..|es| - 1], k, v, d);
    }
  }

  /** The ledger after one more committed entry that the log allows. */
  lemma RecordKeepsLog(w: World, x: World, e: L.Entry)
    requires LogOk(w) && S.Allowed(w.log, e) && e.vessel in w.rs.ledger.vessels
    requires e.kind.Reserve? ==> L.HasRoom(w.rs.ledger.vessels[e.vessel], e.weight, e.containers)
    requires x.base == w.base && x.log == w.log + [e] && x.rs.ledger == L.Record(w.rs.ledger, e)
    ensures LogOk(x)
  {
    assert x.log[..|x.log| - 1] == w.log;
    L.RecordBalances(w.rs.ledger, e);
    L.BalancesCompose(w.base, w.rs.ledger, x.rs.ledger, w.log, [e]);
    forall k | k in x.rs.ledger.ops ensures S.Logged(x.log, k) {
      if k == L.EntryKey(e) {
        assert e in x.log;
      } else {
        var y :| y in w.log && L.EntryKey(y) == k;
        assert y in x.log;
      }
    }
    forall y | y in x.log
      ensures L.EntryKey(y) in x.rs.ledger.ops && x.rs.ledger.ops[L.EntryKey(y)] == y.vessel
      ensures y.vessel in x.rs.ledger.vessels
    {
      if y in w.log {
        S.KeyFresh(w.log, L.EntryKey(e), y);
      }
    }
    WithinLimitsAfter(w.rs.ledger, e);
  }

  lemma WithinLimitsAfter(l: L.Ledger, e: L.Entry)
    requires S.WithinLimits(l) && e.vessel in l.vessels && 0 <= e.weight && 0 <= e.containers
    requires e.kind.Reserve? ==> L.HasRoom(l.vessels[e.vessel], e.weight, e.containers)
    ensures S.WithinLimits(L.Record(l, e))
  {
    var x := L.Record(l, e);
    forall v, d | v in x.vessels
      ensures L.Reserved(x.vessels[v], d) + L.Used(x.vessels[v], d) <= L.Limit(x.vessels[v], d)
    {
      assert L.Reserved(l.vessels[v], d) + L.Used(l.vessels[v], d) <= L.Limit(l.vessels[v], d);
    }
  }

  /** The log rows of a key that is not in the store's log are not in history either. */
  lemma NotLogged(w: World, k: L.OpKey)
    requires LogOk(w) && k !in w.rs.ledger.ops
    ensures !S.Logged(w.log, k)
  {
  }

  /** Rpcs, records, messages and cached data stay as described when one entry of a known
      reservation is logged. */
  lemma AppendKeepsRpcs(w: World, x: World, e: L.Entry)
    requires RpcsOk(w) && MessagesOk(w)
    requires x == w.(log := w.log + [e], rs := w.rs.(ledger := x.rs.ledger))
    requires e.reservation in w.rpcs && e.weight == w.rpcs[e.reservation].weight
    requires e.containers == w.rpcs[e.reservation].containers
    ensures RpcsOk(x) && MessagesOk(x)
  {
    assert forall y :: y in w.log ==> y in x.log;
    GrowsMessages(w, x);
  }

  lemma SettleFacts(w: World, a: L.Attempt, e: L.Entry)
    requires !a.call.ReserveCall? && e == L.EntryOf(a.call)
    requires L.Answer(w.rs.ledger, a).Ok? && L.CallKey(a.call) !in w.rs.ledger.ops
    ensures Arrive(w, a) == w.(log := w.log + [e], rs := w.rs.(ledger := L.Record(w.rs.ledger, e)))
    ensures e.vessel in w.rs.ledger.vessels && !e.kind.Reserve? && L.EntryKey(e) == L.CallKey(a.call)
  {
  }

  /** A release or confirm of a reservation nobody has released or confirmed. */
  lemma SettleKeepsLog(w: World, a: L.Attempt, info: ReservationInfo)
    requires LogOk(w) && RpcsOk(w) && MessagesOk(w)
    requires a.call == L.ReleaseCall(M.RequestOf(info)) || a.call == L.ConfirmCall(M.RequestOf(info))
    requires InfoOk(w, info) && !IsConfirmed(w, info.id)
    requires a.call.ConfirmCall? ==> !IsReleased(w, info.id)
    ensures var x := Arrive(w, a); LogOk(x) && RpcsOk(x) && MessagesOk(x)
  {
    var x := Arrive(w, a);
    if L.Answer(w.rs.ledger, a).Ok? && L.CallKey(a.call) !in w.rs.ledger.ops {
      var e := L.EntryOf(a.call);
      SettleFacts(w, a, e);
      var f := L.Entry(L.Reserve, info.id, info.vessel, info.weight, info.containers);
      assert f == e.(kind := L.Reserve) && f in w.log;
      OrderlyAmounts(w.log, f);
      NotLogged(w, L.OpKey(info.id, L.Release));
      NotLogged(w, L.OpKey(info.id, L.Confirm));
      RecordKeepsLog(w, x, e);
      AppendKeepsRpcs(w, x, e);
    }
  }

  lemma {:induction false} OrderlyAmounts(es: seq<L.Entry>, e: L.Entry)
    requires S.Orderly(es) && e in es
    ensures 0 <= e.weight && 0 <= e.containers
  {
    if e != es[|es| - 1] {
      OrderlyAmounts(es[..|es| - 1], e);
    }
  }

  // ---------- reserving ----------

  lemma ReserveKeepsLog(w: World, r: ReservationId, found: Option<VesselId>, fault: L.Fault)
    requires LogOk(w) && RpcsOk(w) && MessagesOk(w) && r in w.rpcs
    requires L.Finds(w.rs.ledger, L.Specification(r, w.rpcs[r].weight, w.rpcs[r].containers), found)
    ensures var x := Arrive(w, ReserveAttempt(r, w.rpcs[r], found, fault));
            LogOk(x) && RpcsOk(x) && MessagesOk(x)
  {
    var a := ReserveAttempt(r, w.rpcs[r], found, fault);
    var x := Arrive(w, a);
    if L.Answer(w.rs.ledger, a).Ok? && L.CallKey(a.call) !in w.rs.ledger.ops {
      var e := L.EntryOf(a.call);
      assert x == w.(log := w.log + [e], rs := w.rs.(ledger := L.Record(w.rs.ledger, e)));
      NotLogged(w, L.EntryKey(e));
      RecordKeepsLog(w, x, e);
      AppendKeepsRpcs(w, x, e);
    }
  }

  /** The vessel in the answer is the one the reservation was first logged with. */
  lemma ReserveAnswer(w: World, r: ReservationId, found: Option<VesselId>, fault: L.Fault)
    requires LogOk(w) && RpcsOk(w) && r in w.rpcs
    requires L.Answer(w.rs.ledger, ReserveAttempt(r, w.rpcs[r], found, fault)).Ok?
    ensures var a := ReserveAttempt(r, w.rpcs[r], found, fault);
            Reserved(Arrive(w, a), r, L.Answer(w.rs.ledger, a).vessel, w.rpcs[r].weight, w.rpcs[r].containers)
  {
    var a := ReserveAttempt(r, w.rpcs[r], found, fault);
    var key := L.OpKey(r, L.Reserve);
    if key in w.rs.ledger.ops {
      assert S.Logged(w.log, key);
      var e :| e in w.log && L.EntryKey(e) == key;
      assert e == L.Entry(L.Reserve, r, L.Answer(w.rs.ledger, a).vessel, w.rpcs[r].weight, w.rpcs[r].containers);
    }
  }

  /** The gates depend on threads, rows, cached data, log keys and grants only. */
  lemma SameGates(w: World, x: World)
    requires GatesOk(w)
    requires x.threads == w.threads && x.rs.outbox == w.rs.outbox
    requires forall r :: Cached(x, r) ==> Cached(w, r)
    requires forall r :: IsConfirmed(x, r) == IsConfirmed(w, r) && IsReleased(x, r) == IsReleased(w, r)
    requires forall r :: IsGranted(x, r) == IsGranted(w, r) && (IsStored(w, r) ==> IsStored(x, r))
    ensures GatesOk(x)
  {
    forall r ensures GateOk(x, r) {
      assert GateOk(w, r);
      SameHolders(w, x, r);
    }
    forall t: nat, u: nat, r | HoldsGate(x, t, r) && HoldsGate(x, u, r) ensures t == u {
      assert HoldsGate(w, t, r) && HoldsGate(w, u, r);
    }
  }

  lemma SameHolders(w: World, x: World, r: ReservationId)
    requires x.threads == w.threads && x.rs.outbox == w.rs.outbox
    ensures Held(x, r) == Held(w, r) && Undone(x, r) == Undone(w, r)
  {
    assert forall t: nat :: HoldsGate(x, t, r) == HoldsGate(w, t, r);
    assert forall t: nat :: UndoThread(x, t, r) == UndoThread(w, t, r);
  }

  lemma ReserveOpsOnly(w: World, r: ReservationId, found: Option<VesselId>, fault: L.Fault)
    requires r in w.rpcs
    ensures var x := Arrive(w, ReserveAttempt(r, w.rpcs[r], found, fault));
            forall q :: IsConfirmed(x, q) == IsConfirmed(w, q) && IsReleased(x, q) == IsReleased(w, q)
  {
  }

  /** The ledger and its history have not changed. */
  lemma SameLog(w: World, x: World)
    requires LogOk(w) && x.base == w.base && x.log == w.log && x.rs.ledger == w.rs.ledger
    ensures LogOk(x)
  {
  }

  lemma HeardRpcs(y: World, x: World, r: ReservationId, v: VesselId)
    requires RpcsOk(y)
    requires r in y.rpcs && y.rpcs[r].phase.Reserving?
    requires Reserved(y, r, v, y.rpcs[r].weight, y.rpcs[r].containers)
    requires x == y.(rpcs := y.rpcs[r := y.rpcs[r].(phase := Storing(v))])
    ensures RpcsOk(x)
    ensures forall q :: IsGranted(y, q) == IsGranted(x, q) && IsStored(y, q) == IsStored(x, q)
  {
    assert forall q :: IsGranted(y, q) == IsGranted(x, q) && IsStored(y, q) == IsStored(x, q);
  }

  lemma HeardKeeps(y: World, r: ReservationId, v: VesselId)
    requires LogOk(y) && RpcsOk(y) && MessagesOk(y)
    requires r in y.rpcs && y.rpcs[r].phase.Reserving?
    requires Reserved(y, r, v, y.rpcs[r].weight, y.rpcs[r].containers)
    ensures var x := y.(rpcs := y.rpcs[r := y.rpcs[r].(phase := Storing(v))]);
            LogOk(x) && RpcsOk(x) && MessagesOk(x)
  {
    var x := y.(rpcs := y.rpcs[r := y.rpcs[r].(phase := Storing(v))]);
    SameLog(y, x);
    HeardRpcs(y, x, r, v);
    GrowsMessages(y, x);
  }

  lemma ReserveKeeps(w: World, r: ReservationId, found: Option<VesselId>, fault: L.Fault, heard: bool)
    requires Inv(w) && Enabled(NO_REPLAYS, w, ReserveArrives(r, found, fault, heard))
    ensures Inv(ApplyReserve(w, r, found, fault, heard))
  {
    var x := ApplyReserve(w, r, found, fault, heard);
    var a := ReserveAttempt(r, w.rpcs[r], found, fault);
    var y := Arrive(w, a);
    ReserveKeepsLog(w, r, found, fault);
    ReserveOpsOnly(w, r, found, fault);
    SameGates(w, y);
    if heard {
      ReserveAnswer(w, r, found, fault);
      HeardKeeps(y, r, L.Answer(w.rs.ledger, a).vessel);
      SameGates(y, x);
    }
  }

  /** Before its Store a reservation is known to nobody but its RPC. */
  lemma UnknownBeforeStore(w: World, r: ReservationId)
    requires MessagesOk(w) && GateOk(w, r) && !IsStored(w, r)
    ensures !Held(w, r) && !Undone(w, r) && !IsConfirmed(w, r) && !IsReleased(w, r)
  {
    forall t: nat ensures !HoldsGate(w, t, r) && !UndoThread(w, t, r) {
      if t in w.threads {
        assert ThreadOk(w, w.threads[t]);
      }
    }
    forall row | row in w.rs.outbox ensures !UndoRow(row, r) {
      assert RowOk(w, row);
    }
  }

  lemma StoreKeepsRpcs(w: World, r: ReservationId, ttl: C.Ttl, now: int, fault: C.StoreFault)
    requires RpcsOk(w) && MessagesOk(w) && r in w.rpcs && w.rpcs[r].phase.Storing?
    ensures var x := ApplyStore(w, r, ttl, now, fault); RpcsOk(x) && MessagesOk(x)
  {
    var x := ApplyStore(w, r, ttl, now, fault);
    assert Grows(w, x);
    GrowsMessages(w, x);
    assert InfoOk(x, InfoOfRpc(r, w.rpcs[r]));
  }

  lemma StoreKeeps(w: World, r: ReservationId, ttl: C.Ttl, now: int, fault: C.StoreFault)
    requires Inv(w) && r in w.rpcs && w.rpcs[r].phase.Storing?
    ensures Inv(ApplyStore(w, r, ttl, now, fault))
  {
    var x := ApplyStore(w, r, ttl, now, fault);
    StoreKeepsRpcs(w, r, ttl, now, fault);
    assert GateOk(w, r);
    UnknownBeforeStore(w, r);
    forall q ensures GateOk(x, q) {
      assert GateOk(w, q);
      SameHolders(w, x, q);
    }
    SameOneHolder(w, x);
  }

  lemma SameOneHolder(w: World, x: World)
    requires OneHolder(w)
    requires forall t: nat, r :: HoldsGate(x, t, r) ==> HoldsGate(w, t, r)
    ensures OneHolder(x)
  {
  }

  /** A thread that holds the gate belongs to a granted reservation. */
  lemma HeldIsGranted(w: World, r: ReservationId)
    requires MessagesOk(w) && Held(w, r)
    ensures IsGranted(w, r)
  {
    var t: nat :| HoldsGate(w, t, r);
    assert ThreadOk(w, w.threads[t]);
  }

  /** What one arriving release or confirm changes in the log's keys. */
  lemma SettleOps(w: World, a: L.Attempt)
    requires !a.call.ReserveCall?
    ensures var x := Arrive(w, a);
            forall k :: k in x.rs.ledger.ops <==>
              k in w.rs.ledger.ops || (k == L.CallKey(a.call) && L.Answer(w.rs.ledger, a).Ok?)
  {
    if L.Answer(w.rs.ledger, a).Ok? && L.CallKey(a.call) !in w.rs.ledger.ops {
      SettleFacts(w, a, L.EntryOf(a.call));
    }
  }

  lemma CompensateKeeps(w: World, r: ReservationId, fault: L.Fault)
    requires Inv(w) && r in w.rpcs && w.rpcs[r].phase.Compensating?
    ensures Inv(ApplyCompensate(w, r, fault))
  {
    var info := InfoOfRpc(r, w.rpcs[r]);
    var a := L.Attempt(L.ReleaseCall(M.RequestOf(info)), fault);
    assert GateOk(w, r);
    SettleKeepsLog(w, a, info);
    SettleOps(w, a);
    var x := ApplyCompensate(w, r, fault);
    forall q ensures GateOk(x, q) {
      assert GateOk(w, q);
      SameHolders(w, x, q);
      if Held(w, q) {
        HeldIsGranted(w, q);
      }
    }
    SameOneHolder(w, x);
  }

  // ---------- handler steps ----------

  /** From w to x no gate gained a holder, an undoing message, cached data or a logged
      operation. */
  ghost predicate Smaller(w: World, x: World) {
    && (forall t: nat, r :: HoldsGate(x, t, r) ==> HoldsGate(w, t, r))
    && (forall t: nat, r :: UndoThread(x, t, r) ==> Undone(w, r))
    && (forall row, r :: row in x.rs.outbox && UndoRow(row, r) ==> Undone(w, r))
    && (forall r :: Cached(x, r) ==> Cached(w, r))
    && x.rs.ledger.ops == w.rs.ledger.ops
    && (forall r :: IsGranted(x, r) == IsGranted(w, r) && (IsStored(w, r) ==> IsStored(x, r)))
  }

  lemma SmallerGates(w: World, x: World)
    requires GatesOk(w) && Smaller(w, x)
    ensures GatesOk(x)
  {
    forall r ensures GateOk(x, r) {
      assert GateOk(w, r);
      if Held(x, r) {
        var t: nat :| HoldsGate(x, t, r);
        assert HoldsGate(w, t, r);
      }
    }
    SameOneHolder(w, x);
  }

  /** Steps that touch neither the ledger, the log, the RPCs nor what consignments know. */
  ghost predicate SameBooks(w: World, x: World) {
    && x.base == w.base && x.log == w.log && x.rs.ledger == w.rs.ledger
    && x.rpcs == w.rpcs && x.records == w.records && x.captured == w.captured && x.seen == w.seen
    && forall r :: r in x.rs.keys.data ==> r in w.rs.keys.data && x.rs.keys.data[r] == w.rs.keys.data[r]
  }

  lemma SameBooksKeep(w: World, x: World)
    requires LogOk(w) && RpcsOk(w) && MessagesOk(w) && SameBooks(w, x)
    ensures LogOk(x) && RpcsOk(x)
    ensures forall row :: row in w.rs.outbox ==> RowOk(x, row)
    ensures forall t :: t in w.threads ==> ThreadOk(x, w.threads[t])
  {
    SameLog(w, x);
    SameRpcs(w, x);
    GrowsMessages(w, x);
  }

  lemma SameRpcs(w: World, x: World)
    requires RpcsOk(w) && SameBooks(w, x)
    ensures RpcsOk(x)
  {
  }

  lemma UndoThreadUndoes(w: World, t: nat, r: ReservationId)
    requires UndoThread(w, t, r)
    ensures Undone(w, r)
  {
  }

  lemma UndoRowUndoes(w: World, row: Row, r: ReservationId)
    requires row in w.rs.outbox && UndoRow(row, r)
    ensures Undone(w, r)
  {
  }

  /** Steps that change one thread, or drop it, without letting it hold or undo anything new. */
  lemma OneThreadKeeps(w: World, x: World, t: nat)
    requires Inv(w) && SameBooks(w, x)
    requires x.rs.outbox == w.rs.outbox
    requires forall u :: u in x.threads && u != t ==> u in w.threads && x.threads[u] == w.threads[u]
    requires t in x.threads ==> ThreadOk(x, x.threads[t])
    requires forall r :: HoldsGate(x, t, r) ==> HoldsGate(w, t, r)
    requires forall r :: UndoThread(x, t, r) ==> Undone(w, r)
    ensures Inv(x)
  {
    SameBooksKeep(w, x);
    forall u: nat, r | UndoThread(x, u, r) ensures Undone(w, r) {
      if u != t {
        UndoThreadUndoes(w, u, r);
      }
    }
    forall row, r | row in x.rs.outbox && UndoRow(row, r) ensures Undone(w, r) {
      UndoRowUndoes(w, row, r);
    }
    SmallerGates(w, x);
  }

  lemma DeliverKeeps(w: World, t: nat, e: CapacityEvent)
    requires Inv(w) && t !in w.threads && EventOk(w, e)
    requires e.cacheCleared ==> e.action.ReleaseAction? && Undone(w, e.info.id)
    ensures Inv(SetThread(w, t, NewThread(e)))
  {
    OneThreadKeeps(w, SetThread(w, t, NewThread(e)), t);
  }

  lemma DeliverRowKeeps(w: World, t: nat, row: nat)
    requires Inv(w) && Enabled(NO_REPLAYS, w, DeliverRow(t, row))
    ensures Inv(SetThread(w, t, NewThread(EventOfRow(w.rs.outbox[row]).value)))
  {
    var r := w.rs.outbox[row];
    assert r in w.rs.outbox && RowOk(w, r);
    var e := EventOfRow(r).value;
    if e.cacheCleared {
      UndoRowUndoes(w, r, e.info.id);
    }
    DeliverKeeps(w, t, e);
  }

  /** Whoever won the gate is its one holder. */
  lemma WinGateGates(w: World, t: nat)
    requires GatesOk(w) && At(w, t, Gating) && ThreadOk(w, w.threads[t]) && Cached(w, w.threads[t].event.info.id)
    ensures GatesOk(ApplyGate(w, t, C.DeleteOk))
  {
    var x := ApplyGate(w, t, C.DeleteOk);
    assert GateOk(w, w.threads[t].event.info.id);
    forall q ensures GateOk(x, q) {
      assert GateOk(w, q);
      OthersAtGate(w, x, t, q);
    }
    forall u: nat, v: nat, q | HoldsGate(x, u, q) && HoldsGate(x, v, q) ensures u == v {
      if u != t { assert HoldsGate(w, u, q); }
      if v != t { assert HoldsGate(w, v, q); }
    }
  }

  lemma WinGateKeeps(w: World, t: nat)
    requires Inv(w) && At(w, t, Gating) && Cached(w, w.threads[t].event.info.id)
    ensures Inv(ApplyGate(w, t, C.DeleteOk))
  {
    assert ThreadOk(w, w.threads[t]);
    SameBooksKeep(w, ApplyGate(w, t, C.DeleteOk));
    WinGateGates(w, t);
  }

  /** After a won gate: the winner aside, nobody holds or undoes what they did not before. */
  lemma OthersAtGate(w: World, x: World, t: nat, q: ReservationId)
    requires t in w.threads && t in x.threads && x.rs.outbox == w.rs.outbox
    requires x.threads == w.threads[t := x.threads[t]]
    ensures Held(x, q) ==> Held(w, q) || HoldsGate(x, t, q)
    ensures Undone(x, q) ==> Undone(w, q) || UndoThread(x, t, q)
  {
    if Held(x, q) {
      var u: nat :| HoldsGate(x, u, q);
      assert u == t || HoldsGate(w, u, q);
    }
    forall u: nat | UndoThread(x, u, q) ensures u == t || UndoThread(w, u, q) {
    }
  }

  lemma GateFailsKeeps(w: World, t: nat, applied: bool)
    requires Inv(w) && At(w, t, Gating)
    ensures Inv(ApplyGate(w, t, C.DeleteFails(applied)))
  {
    assert ThreadOk(w, w.threads[t]);
    var x := ApplyGate(w, t, C.DeleteFails(applied));
    assert !x.threads[t].event.cacheCleared;
    OneThreadKeeps(w, x, t);
  }

  lemma GateLostKeeps(w: World, t: nat)
    requires Inv(w) && At(w, t, Gating) && !Cached(w, w.threads[t].event.info.id)
    ensures Inv(ApplyGate(w, t, C.DeleteOk))
  {
    OneThreadKeeps(w, ApplyGate(w, t, C.DeleteOk), t);
  }

  lemma GateKeeps(w: World, t: nat, delete: C.DeleteFault)
    requires Inv(w) && At(w, t, Gating)
    ensures Inv(ApplyGate(w, t, delete))
  {
    if delete.DeleteFails? {
      GateFailsKeeps(w, t, delete.applied);
    } else if Cached(w, w.threads[t].event.info.id) {
      WinGateKeeps(w, t);
    } else {
      GateLostKeeps(w, t);
    }
  }

  /** What one answered call of a handler changes. */
  lemma CallFacts(w: World, t: nat, rpc: M.Rpc)
    requires t in w.threads
    ensures var th := w.threads[t];
            var a := L.Attempt(M.CallOf(th.event), rpc.fault);
            var y := if rpc.net.Dropped? then w else Arrive(w, a);
            var x := ApplyCall(w, t, rpc);
            && x == y.(threads := x.threads) && y.threads == w.threads && y.rpcs == w.rpcs
            && y.rs.outbox == w.rs.outbox && y.rs.keys == w.rs.keys
            && x.threads == w.threads[t := x.threads[t]]
            && x.threads[t] == (if M.RpcOk(w.rs.ledger, a.call, rpc) then th.(pc := Applied)
                                else th.(tries := th.tries + 1))
            && forall k :: k in x.rs.ledger.ops <==>
                 k in w.rs.ledger.ops
                 || (k == L.CallKey(a.call) && !rpc.net.Dropped? && L.Answer(w.rs.ledger, a).Ok?)
  {
    SettleOps(w, L.Attempt(M.CallOf(w.threads[t].event), rpc.fault));
  }

  lemma ThreadsOnlyKeepBooks(y: World, x: World, t: nat)
    requires LogOk(y) && RpcsOk(y) && MessagesOk(y)
    requires x == y.(threads := x.threads) && t in x.threads && x.threads == y.threads[t := x.threads[t]]
    requires ThreadOk(y, x.threads[t])
    ensures LogOk(x) && RpcsOk(x) && MessagesOk(x)
  {
    SameBooksKeep(y, x);
    GrowsInfo(y, x, x.threads[t].event);
  }

  lemma CallKeepsBooks(w: World, t: nat, rpc: M.Rpc)
    requires LogOk(w) && RpcsOk(w) && MessagesOk(w) && At(w, t, Calling)
    requires !IsConfirmed(w, w.threads[t].event.info.id)
    requires w.threads[t].event.action.ConfirmAction? ==> !IsReleased(w, w.threads[t].event.info.id)
    ensures var x := ApplyCall(w, t, rpc); LogOk(x) && RpcsOk(x) && MessagesOk(x)
  {
    var th := w.threads[t];
    var a := L.Attempt(M.CallOf(th.event), rpc.fault);
    var y := if rpc.net.Dropped? then w else Arrive(w, a);
    assert ThreadOk(w, th);
    SettleKeepsLog(w, a, th.event.info);
    CallFacts(w, t, rpc);
    assert ThreadOk(y, y.threads[t]);
    ThreadsOnlyKeepBooks(y, ApplyCall(w, t, rpc), t);
  }

  /** The gates after thread `t` called the vessel service for `r`. */
  lemma ConfirmGates(w: World, x: World, t: nat, r: ReservationId)
    requires GatesOk(w) && HoldsGate(w, t, r) && IsGranted(w, r)
    requires x.rs.outbox == w.rs.outbox && x.rs.keys == w.rs.keys && x.rpcs == w.rpcs
    requires t in x.threads && x.threads == w.threads[t := x.threads[t]]
    requires x.threads[t].event == w.threads[t].event
    requires forall k :: k in x.rs.ledger.ops ==>
               k in w.rs.ledger.ops || (k == L.OpKey(r, L.Confirm) && x.threads[t].pc.Applied?)
    requires forall k :: k in w.rs.ledger.ops ==> k in x.rs.ledger.ops
    ensures GatesOk(x)
  {
    assert GateOk(w, r);
    assert forall u: nat, q :: HoldsGate(x, u, q) ==> HoldsGate(w, u, q);
    if x.threads[t].pc.Applied? {
      forall u: nat ensures !HoldsGate(x, u, r) {
        assert HoldsGate(x, u, r) ==> HoldsGate(w, u, r);
      }
    }
    forall q ensures GateOk(x, q) {
      assert GateOk(w, q);
      OthersAtGate(w, x, t, q);
    }
    SameOneHolder(w, x);
  }

  lemma ReleaseGates(w: World, x: World, t: nat, r: ReservationId)
    requires GatesOk(w) && UndoThread(w, t, r) && IsStored(w, r)
    requires x.rs.outbox == w.rs.outbox && x.rs.keys == w.rs.keys && x.rpcs == w.rpcs
    requires t in x.threads && x.threads == w.threads[t := x.threads[t]]
    requires x.threads[t].event == w.threads[t].event
    requires forall k :: k in x.rs.ledger.ops ==> k in w.rs.ledger.ops || k == L.OpKey(r, L.Release)
    requires forall k :: k in w.rs.ledger.ops ==> k in x.rs.ledger.ops
    ensures GatesOk(x)
  {
    assert GateOk(w, r);
    UndoThreadUndoes(w, t, r);
    assert forall u: nat, q :: HoldsGate(x, u, q) ==> HoldsGate(w, u, q);
    forall q ensures GateOk(x, q) {
      assert GateOk(w, q);
      OthersAtGate(w, x, t, q);
    }
    SameOneHolder(w, x);
  }

  /** A confirm by the holder of the gate. */
  lemma ConfirmCallGates(w: World, t: nat, rpc: M.Rpc)
    requires GatesOk(w) && At(w, t, Calling) && ThreadOk(w, w.threads[t])
    requires w.threads[t].event.action.ConfirmAction? && !rpc.net.Lost?
    ensures GatesOk(ApplyCall(w, t, rpc))
    ensures !IsConfirmed(w, w.threads[t].event.info.id) && !IsReleased(w, w.threads[t].event.info.id)
  {
    var r := w.threads[t].event.info.id;
    assert HoldsGate(w, t, r) && GateOk(w, r);
    CallFacts(w, t, rpc);
    ConfirmGates(w, ApplyCall(w, t, rpc), t, r);
  }

  lemma ConfirmKeeps(w: World, t: nat, rpc: M.Rpc)
    requires Inv(w) && At(w, t, Calling) && w.threads[t].event.action.ConfirmAction? && !rpc.net.Lost?
    ensures Inv(ApplyCall(w, t, rpc))
  {
    assert ThreadOk(w, w.threads[t]);
    ConfirmCallGates(w, t, rpc);
    CallKeepsBooks(w, t, rpc);
  }

  lemma ReleaseKeeps(w: World, t: nat, rpc: M.Rpc)
    requires Inv(w) && At(w, t, Calling) && w.threads[t].event.action.ReleaseAction?
    ensures Inv(ApplyCall(w, t, rpc))
  {
    var r := w.threads[t].event.info.id;
    assert ThreadOk(w, w.threads[t]);
    UndoThreadUndoes(w, t, r);
    assert GateOk(w, r);
    CallFacts(w, t, rpc);
    CallKeepsBooks(w, t, rpc);
    ReleaseGates(w, ApplyCall(w, t, rpc), t, r);
  }

  lemma CallKeeps(w: World, t: nat, rpc: M.Rpc)
    requires Inv(w) && Enabled(NO_REPLAYS, w, Call(t, rpc))
    ensures Inv(ApplyCall(w, t, rpc))
  {
    if w.threads[t].event.action.ConfirmAction? {
      ConfirmKeeps(w, t, rpc);
    } else {
      ReleaseKeeps(w, t, rpc);
    }
  }

  /** A row that undoes nothing new. */
  lemma AddRowKeeps(w: World, row: Row, fails: bool)
    requires Inv(w) && RowOk(w, row)
    requires forall r :: UndoRow(row, r) ==> Undone(w, r)
    ensures Inv(AddRow(w, row, fails))
  {
    var x := AddRow(w, row, fails);
    SameBooksKeep(w, x);
    forall y | y in x.rs.outbox ensures RowOk(x, y) {
      assert y == row || y in w.rs.outbox;
    }
    forall u: nat, r | UndoThread(x, u, r) ensures Undone(w, r) {
      UndoThreadUndoes(w, u, r);
    }
    forall y, r | y in x.rs.outbox && UndoRow(y, r) ensures Undone(w, r) {
      if y in w.rs.outbox {
        UndoRowUndoes(w, y, r);
      }
    }
    SmallerGates(w, x);
  }

  lemma DropKeeps(w: World, t: nat)
    requires Inv(w)
    ensures Inv(Drop(w, t))
  {
    OneThreadKeeps(w, Drop(w, t), t);
  }

  /** A handler that holds no gate schedules its successor. */
  lemma ScheduleOtherKeeps(w: World, t: nat, next: nat)
    requires Inv(w) && At(w, t, GivenUp) && next !in w.threads
    requires !HoldsGate(w, t, w.threads[t].event.info.id)
    ensures Inv(ApplySchedule(w, t, false, next, false))
  {
    var e := w.threads[t].event;
    assert ThreadOk(w, w.threads[t]);
    if e.cacheCleared {
      UndoThreadUndoes(w, t, e.info.id);
    }
    AddRowKeeps(w, M.RetryRow(e), false);
    DropKeeps(AddRow(w, M.RetryRow(e), false), t);
  }

  /** The holder schedules a retry: the gate passes to the one message that is its successor. */
  lemma ScheduleTokenKeeps(w: World, t: nat, next: nat)
    requires Inv(w) && At(w, t, GivenUp) && next !in w.threads
    requires HoldsGate(w, t, w.threads[t].event.info.id)
    requires TokenRow(M.RetryRow(w.threads[t].event))
    ensures Inv(ApplySchedule(w, t, false, next, false))
  {
    var e := w.threads[t].event;
    var r := e.info.id;
    var row := M.RetryRow(e);
    assert ThreadOk(w, w.threads[t]) && GateOk(w, r);
    var added := AddRow(w, row, false);
    AddRowKeeps(w, row, false);
    var y := Drop(added, t);
    DropKeeps(added, t);
    var x := ApplySchedule(w, t, false, next, false);
    if |added.rs.outbox| > |w.rs.outbox| {
      GateOpen(w, added, y, t, r);
      assert ThreadOk(y, Thread(M.NextTry(e), Idle, 0, true));
      NewTokenKeeps(y, next, M.NextTry(e));
    }
  }

  /** A token for a gate nobody holds and nothing has passed. */
  lemma NewTokenKeeps(y: World, next: nat, e: CapacityEvent)
    requires Inv(y) && next !in y.threads && ThreadOk(y, Thread(e, Idle, 0, true))
    requires !Held(y, e.info.id) && !Cached(y, e.info.id) && !Undone(y, e.info.id)
    requires !IsConfirmed(y, e.info.id) && !IsReleased(y, e.info.id)
    ensures Inv(SetThread(y, next, Thread(e, Idle, 0, true)))
  {
    var x := SetThread(y, next, Thread(e, Idle, 0, true));
    SameBooksKeep(y, x);
    NewTokenGates(y, next, e);
  }

  lemma NewTokenGates(y: World, next: nat, e: CapacityEvent)
    requires GatesOk(y) && next !in y.threads && e.action.ConfirmAction? && e.cacheCleared
    requires !Held(y, e.info.id) && !Cached(y, e.info.id) && !Undone(y, e.info.id)
    requires !IsConfirmed(y, e.info.id) && !IsReleased(y, e.info.id)
    ensures GatesOk(SetThread(y, next, Thread(e, Idle, 0, true)))
  {
    var x := SetThread(y, next, Thread(e, Idle, 0, true));
    forall q ensures GateOk(x, q) {
      assert GateOk(y, q);
      NewHolder(y, x, next, q);
    }
    forall u: nat, v: nat, q | HoldsGate(x, u, q) && HoldsGate(x, v, q) ensures u == v {
      assert u == next || HoldsGate(y, u, q);
      assert v == next || HoldsGate(y, v, q);
    }
  }

  /** Dropping the holder leaves its gate free of everything else. */
  lemma GateOpen(w: World, added: World, y: World, t: nat, r: ReservationId)
    requires OneHolder(w) && HoldsGate(w, t, r) && GateOk(w, r)
    requires added == AddRow(w, M.RetryRow(w.threads[t].event), false) && y == Drop(added, t)
    requires TokenRow(M.RetryRow(w.threads[t].event))
    ensures !Held(y, r) && !Cached(y, r) && !Undone(y, r) && !IsConfirmed(y, r) && !IsReleased(y, r)
  {
    forall u: nat ensures !HoldsGate(y, u, r) {
      if HoldsGate(y, u, r) {
        assert HoldsGate(w, u, r);
      }
    }
    forall u: nat ensures !UndoThread(y, u, r) {
      if UndoThread(y, u, r) {
        UndoThreadUndoes(w, u, r);
      }
    }
    forall row | row in y.rs.outbox ensures !UndoRow(row, r) {
      if row in w.rs.outbox && UndoRow(row, r) {
        UndoRowUndoes(w, row, r);
      }
    }
  }

  lemma NewHolder(y: World, x: World, next: nat, q: ReservationId)
    requires next !in y.threads && x.rs.outbox == y.rs.outbox
    requires next in x.threads && x.threads == y.threads[next := x.threads[next]]
    requires x.threads[next].event.action.ConfirmAction?
    ensures Held(x, q) ==> Held(y, q) || HoldsGate(x, next, q)
    ensures Undone(x, q) ==> Undone(y, q)
  {
    if Held(x, q) {
      var u: nat :| HoldsGate(x, u, q);
      assert u == next || HoldsGate(y, u, q);
    }
    forall u: nat | UndoThread(x, u, q) ensures UndoThread(y, u, q) {
    }
  }

  lemma DeadLetter(w: World, x: World, t: nat, q: ReservationId)
    requires OneHolder(w) && t in w.threads && HoldsGate(w, t, w.threads[t].event.info.id)
    requires x == Drop(AddRow(w, M.RetryRow(w.threads[t].event), false), t)
    ensures Held(x, q) ==> Held(w, q) && q != w.threads[t].event.info.id
    ensures Undone(x, q) ==> Undone(w, q) || q == w.threads[t].event.info.id
  {
    if Held(x, q) {
      var u: nat :| HoldsGate(x, u, q);
      assert HoldsGate(w, u, q);
    }
    forall u: nat | UndoThread(x, u, q) ensures UndoThread(w, u, q) {
    }
  }

  /** The holder runs out of retries: its dead letter can only release. */
  lemma DeadLetterGates(w: World, x: World, t: nat)
    requires GatesOk(w) && t in w.threads && HoldsGate(w, t, w.threads[t].event.info.id)
    requires IsGranted(w, w.threads[t].event.info.id)
    requires x == Drop(AddRow(w, M.RetryRow(w.threads[t].event), false), t)
    ensures GatesOk(x)
  {
    assert GateOk(w, w.threads[t].event.info.id);
    forall q ensures GateOk(x, q) {
      assert GateOk(w, q);
      DeadLetter(w, x, t, q);
    }
    SameOneHolder(w, x);
  }

  lemma ScheduleDeadKeeps(w: World, t: nat, next: nat)
    requires Inv(w) && At(w, t, GivenUp) && next !in w.threads
    requires HoldsGate(w, t, w.threads[t].event.info.id)
    requires !TokenRow(M.RetryRow(w.threads[t].event))
    ensures Inv(ApplySchedule(w, t, false, next, false))
  {
    var row := M.RetryRow(w.threads[t].event);
    assert ThreadOk(w, w.threads[t]);
    var x := Drop(AddRow(w, row, false), t);
    SameBooksKeep(w, x);
    forall y | y in x.rs.outbox ensures RowOk(x, y) {
      assert y == row || y in w.rs.outbox;
    }
    DeadLetterGates(w, x, t);
  }

  lemma ScheduleKeeps(w: World, t: nat, fails: bool, next: nat)
    requires Inv(w) && At(w, t, GivenUp) && next !in w.threads
    ensures Inv(ApplySchedule(w, t, fails, next, false))
  {
    assert ThreadOk(w, w.threads[t]);
    if fails {
      OneThreadKeeps(w, ApplySchedule(w, t, fails, next, false), t);
    } else if !HoldsGate(w, t, w.threads[t].event.info.id) {
      ScheduleOtherKeeps(w, t, next);
    } else if TokenRow(M.RetryRow(w.threads[t].event)) {
      ScheduleTokenKeeps(w, t, next);
    } else {
      ScheduleDeadKeeps(w, t, next);
    }
  }

  lemma FinishKeeps(w: World, t: nat, deleteId: C.DeleteFault, writeFails: bool)
    requires Inv(w) && At(w, t, Applied)
    ensures Inv(ApplyFinish(w, t, deleteId, writeFails))
  {
    var e := w.threads[t].event;
    var w1 := SetKeys(w, C.AfterDeleteID(w.rs.keys, e.info.id, deleteId));
    assert ThreadOk(w, w.threads[t]);
    forall r | UndoThread(w1, t, r) ensures Undone(w, r) {
      UndoThreadUndoes(w, t, r);
    }
    OneThreadKeeps(w, w1, t);
    if e.action.ConfirmAction? {
      AddRowKeeps(w1, M.ConfirmedRow(e), writeFails);
      DropKeeps(AddRow(w1, M.ConfirmedRow(e), writeFails), t);
    } else {
      DropKeeps(w1, t);
    }
  }

  lemma CrashKeeps(w: World, t: nat, redeliver: bool)
    requires Inv(w) && Enabled(NO_REPLAYS, w, Crash(t, redeliver))
    ensures Inv(if redeliver then Requeue(w, t) else Drop(w, t))
  {
    assert ThreadOk(w, w.threads[t]);
    OneThreadKeeps(w, if redeliver then Requeue(w, t) else Drop(w, t), t);
  }

  // ---------- the remaining steps ----------

  function WithVessel(w: World, v: VesselId, vessel: L.Vessel): World {
    w.(base := w.base.(vessels := w.base.vessels[v := vessel]),
       rs := w.rs.(ledger := w.rs.ledger.(vessels := w.rs.ledger.vessels[v := vessel])))
  }

  lemma AddVesselBalances(w: World, v: VesselId, vessel: L.Vessel)
    requires LogOk(w) && v !in w.base.vessels
    ensures var x := WithVessel(w, v, vessel); L.Balances(x.base, x.rs.ledger, w.log)
  {
    assert forall e :: e in w.log ==> e.vessel != v;
    forall d
      ensures L.Sum(w.log, L.Reserve, v, d) == L.Sum(w.log, L.Release, v, d) == L.Sum(w.log, L.Confirm, v, d) == 0
    {
      SumAbsent(w.log, L.Reserve, v, d);
      SumAbsent(w.log, L.Release, v, d);
      SumAbsent(w.log, L.Confirm, v, d);
    }
  }

  lemma AddVesselLog(w: World, v: VesselId, vessel: L.Vessel)
    requires LogOk(w) && v !in w.base.vessels
    requires forall d :: 0 <= L.Reserved(vessel, d) && 0 <= L.Used(vessel, d)
                         && L.Reserved(vessel, d) + L.Used(vessel, d) <= L.Limit(vessel, d)
    ensures LogOk(WithVessel(w, v, vessel))
  {
    AddVesselBalances(w, v, vessel);
  }

  lemma AddVesselRpcs(w: World, v: VesselId, vessel: L.Vessel)
    requires RpcsOk(w)
    ensures RpcsOk(WithVessel(w, v, vessel))
  {
    var x := WithVessel(w, v, vessel);
    assert x.log == w.log && x.rpcs == w.rpcs && x.records == w.records;
    assert x.captured == w.captured && x.seen == w.seen && x.rs.keys == w.rs.keys;
  }

  lemma AddVesselKeeps(w: World, v: VesselId, vessel: L.Vessel)
    requires Inv(w) && v !in w.base.vessels
    requires forall d :: 0 <= L.Reserved(vessel, d) && 0 <= L.Used(vessel, d)
                         && L.Reserved(vessel, d) + L.Used(vessel, d) <= L.Limit(vessel, d)
    ensures Inv(WithVessel(w, v, vessel))
  {
    var x := WithVessel(w, v, vessel);
    AddVesselLog(w, v, vessel);
    AddVesselRpcs(w, v, vessel);
    GrowsMessages(w, x);
    SameGates(w, x);
  }

  lemma BeginReserveRpcs(w: World, x: World, r: ReservationId, rpc: Rpc)
    requires RpcsOk(w) && r !in w.rpcs && rpc.phase.Reserving? && x == w.(rpcs := w.rpcs[r := rpc])
    ensures RpcsOk(x)
    ensures forall q :: IsGranted(x, q) == IsGranted(w, q) && IsStored(x, q) == IsStored(w, q)
  {
    assert forall q :: IsGranted(x, q) == IsGranted(w, q) && IsStored(x, q) == IsStored(w, q);
  }

  lemma BeginReserveKeeps(w: World, r: ReservationId, rpc: Rpc)
    requires Inv(w) && r !in w.rpcs && rpc.phase.Reserving?
    ensures Inv(w.(rpcs := w.rpcs[r := rpc]))
  {
    var x := w.(rpcs := w.rpcs[r := rpc]);
    SameLog(w, x);
    BeginReserveRpcs(w, x, r, rpc);
    GrowsMessages(w, x);
    SameGates(w, x);
  }

  /** Steps that only take cache keys away or extend id keys. */
  lemma KeysShrinkKeeps(w: World, k: C.Keys)
    requires Inv(w) && forall r :: r in k.data ==> r in w.rs.keys.data && k.data[r] == w.rs.keys.data[r]
    ensures Inv(SetKeys(w, k))
  {
    var x := SetKeys(w, k);
    SameBooksKeep(w, x);
    SameGates(w, x);
  }

  lemma RecordRpcs(w: World, r: ReservationId, id: ConsignmentId, c: N.Consignment)
    requires RpcsOk(w) && IsGranted(w, r)
    requires c == N.NewConsignment(r, w.rpcs[r].phase.vessel, w.rpcs[r].weight, w.rpcs[r].containers)
    ensures RpcsOk(w.(records := w.records[id := c]))
  {
    assert Reserved(w, r, c.vessel, c.weight, c.containers);
  }

  /** What a consignment is told about its reservation is what the vessel service logged. */
  lemma RecordKeeps(w: World, r: ReservationId, id: ConsignmentId, c: N.Consignment)
    requires Inv(w) && IsGranted(w, r)
    requires c == N.NewConsignment(r, w.rpcs[r].phase.vessel, w.rpcs[r].weight, w.rpcs[r].containers)
    ensures Inv(w.(records := w.records[id := c]))
  {
    var x := w.(records := w.records[id := c]);
    RecordRpcs(w, r, id, c);
    GrowsMessages(w, x);
    SameGates(w, x);
  }

  lemma PublishRpcs(w: World, x: World, p: PaymentCapturedEvent)
    requires RpcsOk(w) && InfoOk(w, p.info) && IsGranted(w, p.info.id) && x == w.(captured := w.captured + {p})
    ensures RpcsOk(x)
  {
  }

  lemma PublishKeeps(w: World, id: ConsignmentId, auth: AuthId, payment: PaymentId)
    requires Inv(w) && id in w.records
    ensures Inv(Apply(NO_REPLAYS, w, PublishCaptured(id, auth, payment)))
  {
    var p := N.CapturedOf(N.AuthorisedOf(id, w.records[id], auth).(payment := payment));
    var x := w.(captured := w.captured + {p});
    assert x == Apply(NO_REPLAYS, w, PublishCaptured(id, auth, payment));
    SameLog(w, x);
    PublishRpcs(w, x, p);
    GrowsMessages(w, x);
    SameGates(w, x);
  }

  lemma MarkKeeps(w: World, row: nat)
    requires Inv(w) && row < |w.rs.outbox|
    ensures Inv(Apply(NO_REPLAYS, w, MarkPublished(row)))
  {
    var x := Apply(NO_REPLAYS, w, MarkPublished(row));
    SameBooksKeep(w, x);
    forall y | y in x.rs.outbox ensures RowOk(x, y) {
      var i :| 0 <= i < |x.rs.outbox| && x.rs.outbox[i] == y;
      assert w.rs.outbox[i] in w.rs.outbox;
    }
    forall u: nat, r | UndoThread(x, u, r) ensures Undone(w, r) {
      UndoThreadUndoes(w, u, r);
    }
    forall y, r | y in x.rs.outbox && UndoRow(y, r) ensures Undone(w, r) {
      var i :| 0 <= i < |x.rs.outbox| && x.rs.outbox[i] == y;
      assert w.rs.outbox[i] in w.rs.outbox;
      UndoRowUndoes(w, w.rs.outbox[i], r);
    }
    SmallerGates(w, x);
  }

  lemma SeenRpcs(w: World, x: World, info: ReservationInfo)
    requires RpcsOk(w) && InfoOk(w, info) && x == w.(seen := w.seen + {info})
    ensures RpcsOk(x)
  {
  }

  lemma PassReadsKeeps(w: World, r: ReservationId)
    requires Inv(w) && r in w.rs.keys.data
    ensures Inv(w.(seen := w.seen + {w.rs.keys.data[r].info}))
  {
    var x := w.(seen := w.seen + {w.rs.keys.data[r].info});
    SameLog(w, x);
    SeenRpcs(w, x, w.rs.keys.data[r].info);
    GrowsMessages(w, x);
    SameGates(w, x);
  }

  lemma PcKeeps(w: World, t: nat, pc: Pc)
    requires Inv(w) && t in w.threads && ThreadOk(w, w.threads[t].(pc := pc)) && !w.threads[t].pc.Applied?
    ensures Inv(SetThread(w, t, w.threads[t].(pc := pc)))
  {
    var x := SetThread(w, t, w.threads[t].(pc := pc));
    forall r | UndoThread(x, t, r) ensures Undone(w, r) {
      assert UndoThread(w, t, r);
      UndoThreadUndoes(w, t, r);
    }
    OneThreadKeeps(w, x, t);
  }

  predicate OfHandler(l: Label) {
    l.Start? || l.Gate? || l.Call? || l.GiveUp? || l.Schedule? || l.Finish? || l.Crash?
  }

  predicate OfReserve(l: Label) {
    l.AddVessel? || l.BeginReserve? || l.ReserveArrives? || l.Store? || l.CompensateArrives? || l.CreateRecord?
    || l.PublishCaptured?
  }

  lemma HandlerStepKeeps(w: World, l: Label)
    requires Inv(w) && Enabled(NO_REPLAYS, w, l) && OfHandler(l)
    ensures Inv(Apply(NO_REPLAYS, w, l))
  {
    match l
    case Start(t) => assert ThreadOk(w, w.threads[t]); PcKeeps(w, t, Calling);
    case Gate(t, delete) => GateKeeps(w, t, delete);
    case Call(t, rpc) => CallKeeps(w, t, rpc);
    case GiveUp(t) => assert ThreadOk(w, w.threads[t]); PcKeeps(w, t, GivenUp);
    case Schedule(t, fails, next, replay) => ScheduleKeeps(w, t, fails, next);
    case Finish(t, deleteId, writeFails) => FinishKeeps(w, t, deleteId, writeFails);
    case Crash(t, redeliver) => CrashKeeps(w, t, redeliver);
  }

  lemma ReserveStepKeeps(w: World, l: Label)
    requires Inv(w) && Enabled(NO_REPLAYS, w, l) && OfReserve(l)
    ensures Inv(Apply(NO_REPLAYS, w, l))
  {
    match l
    case AddVessel(v, vessel) => AddVesselKeeps(w, v, vessel);
    case BeginReserve(r, c, weight, containers) => BeginReserveKeeps(w, r, Rpc(c, weight, containers, Reserving));
    case ReserveArrives(r, found, fault, heard) => ReserveKeeps(w, r, found, fault, heard);
    case Store(r, ttl, now, fault) => StoreKeeps(w, r, ttl, now, fault);
    case CompensateArrives(r, fault) => CompensateKeeps(w, r, fault);
    case CreateRecord(r) =>
      var rpc := w.rpcs[r];
      RecordKeeps(w, r, rpc.consignment, N.NewConsignment(r, rpc.phase.vessel, rpc.weight, rpc.containers));
    case PublishCaptured(id, auth, payment) => PublishKeeps(w, id, auth, payment);
  }

  lemma StoreStepKeeps(w: World, l: Label)
    requires Inv(w) && Enabled(NO_REPLAYS, w, l) && !OfHandler(l) && !OfReserve(l)
    ensures Inv(Apply(NO_REPLAYS, w, l))
  {
    match l
    case ExpireId(r) => KeysShrinkKeeps(w, C.DropId(w.rs.keys, r));
    case ExpireData(r) => KeysShrinkKeeps(w, C.DropData(w.rs.keys, r));
    case Refresh(r, ttl, now) => KeysShrinkKeeps(w, C.RefreshIn(w.rs.keys, ttl, r, now));
    case PassReads(r) => PassReadsKeeps(w, r);
    case PassWrites(info) => AddRowKeeps(w, M.ExpiredRow(info), false);
    case MarkPublished(row) => MarkKeeps(w, row);
    case DeliverCaptured(t, p) => DeliverKeeps(w, t, M.EventOfCaptured(p));
    case DeliverRow(t, row) => DeliverRowKeeps(w, t, row);
    case Announce(row) => AddRowKeeps(w, M.FailedRow(w.rs.outbox[row].payload.capacity), false);
  }

  lemma StepKeeps(w: World, l: Label)
    requires Inv(w) && Enabled(NO_REPLAYS, w, l)
    ensures Inv(Apply(NO_REPLAYS, w, l))
  {
    if OfHandler(l) {
      HandlerStepKeeps(w, l);
    } else if OfReserve(l) {
      ReserveStepKeeps(w, l);
    } else {
      StoreStepKeeps(w, l);
    }
  }

  lemma {:induction false} RunsKeepInv(ls: seq<Label>)
    requires Execute(NO_REPLAYS, INIT, ls).Some?
    ensures Inv(Execute(NO_REPLAYS, INIT, ls).value)
  {
    if ls == [] {
      InitInv();
    } else {
      var n := |ls| - 1;
      RunsKeepInv(ls[..n]);
      StepKeeps(Execute(NO_REPLAYS, INIT, ls[..n]).value, ls[n]);
    }
  }

  lemma InitInv()
    ensures Inv(INIT)
  {
    assert L.Balances(INIT.base, INIT.rs.ledger, INIT.log);
  }

  // ---------- the main results ----------

  /** In every state reachable with any duplication, reordering, loss and crashes, every
      vessel's reserved and used counters are non-negative and together within its limits,
      for weight and for containers. */
  lemma NoOverbooking(ls: seq<Label>)
    requires Execute(NO_REPLAYS, INIT, ls).Some?
    ensures NotOverbooked(Execute(NO_REPLAYS, INIT, ls).value)
  {
    RunsKeepInv(ls);
    var w := Execute(NO_REPLAYS, INIT, ls).value;
    S.OrderlyNonNegative(w.base, w.rs.ledger, w.log);
  }

  /** And no reservation ever has both a confirm and a release applied at its vessel. */
  lemma NeverBoth(ls: seq<Label>)
    requires Execute(NO_REPLAYS, INIT, ls).Some?
    ensures Exclusive(Execute(NO_REPLAYS, INIT, ls).value)
  {
    RunsKeepInv(ls);
    var w := Execute(NO_REPLAYS, INIT, ls).value;
    forall r ensures !(IsConfirmed(w, r) && IsReleased(w, r)) {
      assert GateOk(w, r);
    }
  }

  /** Every confirm and release moved exactly what its reservation had reserved. */
  lemma AppliedAsReserved(ls: seq<Label>, e: L.Entry)
    requires Execute(NO_REPLAYS, INIT, ls).Some? && e in Execute(NO_REPLAYS, INIT, ls).value.log
    requires !e.kind.Reserve?
    ensures var w := Execute(NO_REPLAYS, INIT, ls).value;
            Reserved(w, e.reservation, e.vessel, e.weight, e.containers)
  {
    RunsKeepInv(ls);
    S.HasReserve(Execute(NO_REPLAYS, INIT, ls).value.log, e);
  }

  /** A ReserveCapacity RPC whose Store failed and whose release reached the vessel service
      contributes nothing to any counter, whatever else went on: the counters are those of
      the log without this reservation. */
  lemma CompensatedReserveIsNeutral(ls: seq<Label>, r: ReservationId)
    requires Execute(NO_REPLAYS, INIT, ls).Some? && IsReleased(Execute(NO_REPLAYS, INIT, ls).value, r)
    ensures var w := Execute(NO_REPLAYS, INIT, ls).value;
            L.Balances(w.base, w.rs.ledger, S.Without(w.log, r))
  {
    RunsKeepInv(ls);
    var w := Execute(NO_REPLAYS, INIT, ls).value;
    var e :| e in w.log && L.EntryKey(e) == L.OpKey(r, L.Release);
    S.ReleasedIsNeutral(w.base, w.rs.ledger, w.log, e);
  }
}
