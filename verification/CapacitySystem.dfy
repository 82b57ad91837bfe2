/** Capacity under concurrency: every reserve call, every handler run of any number of
    service instances and every store command as one labelled step, with duplicated,
    reordered and lost messages and crashes between steps. */
module CapacitySystem {
  import opened Types
  import opened Events
  import L = VesselLedger
  import S = LedgerSafety
  import C = ReservationCache
  import M = CapacityManager
  import N = Consignments

  // ---------- states ----------

  /** Faults beyond duplication, reordering, loss and crashes:
      - replayScheduled: a cache-cleared confirm message runs again after it scheduled its successor;
      - replayApplied: such a message runs again after its confirm was applied;
      - confirmMayApply: a confirm call that reports an error may have been applied. */
  datatype Faults = Faults(replayScheduled: bool, replayApplied: bool, confirmMayApply: bool)

  /** How far a ReserveCapacity RPC has got. */
  datatype Phase = Reserving | Storing(vessel: VesselId) | Compensating(vessel: VesselId) | Granted(vessel: VesselId)

  datatype Rpc = Rpc(consignment: ConsignmentId, weight: nat, containers: nat, phase: Phase)

  datatype Pc = Idle | Gating | Calling | GivenUp | Applied

  /** A running handler, or a cache-cleared confirm message (a `token`) waiting to run. Such
      a message is one instance, delivered to one handler at a time; every other message can
      be delivered to any number of handlers any number of times. */
  datatype Thread = Thread(event: CapacityEvent, pc: Pc, tries: nat, token: bool)

  /** `captured` is every captured event written, and `seen` every cached entry that some
      cleanup pass has fetched. `base` is the fleet as created and `log` every committed
      transaction, in order: both are history, no step's outcome depends on them. */
  datatype World = World(
    base: L.Ledger, log: seq<L.Entry>,
    rs: M.Rs,
    rpcs: map<ReservationId, Rpc>,
    records: map<ConsignmentId, N.Consignment>,
    captured: set<PaymentCapturedEvent>,
    seen: set<ReservationInfo>,
    threads: map<nat, Thread>)

  const INIT := World(
    L.Ledger(map[], map[]), [], M.Rs(L.Ledger(map[], map[]), C.Keys(map[], map[]), []),
    map[], map[], {}, {}, map[])

  datatype Label =
    | AddVessel(v: VesselId, vessel: L.Vessel)
    | BeginReserve(r: ReservationId, consignment: ConsignmentId, weight: nat, containers: nat)
    | ReserveArrives(r: ReservationId, found: Option<VesselId>, fault: L.Fault, heard: bool)
    | Store(r: ReservationId, ttl: C.Ttl, now: int, storeFault: C.StoreFault)
    | CompensateArrives(r: ReservationId, fault: L.Fault)
    | CreateRecord(r: ReservationId)
    | PublishCaptured(id: ConsignmentId, auth: AuthId, payment: PaymentId)
    | ExpireId(r: ReservationId)
    | ExpireData(r: ReservationId)
    | Refresh(r: ReservationId, ttl: C.Ttl, now: int)
    | PassReads(r: ReservationId)
    | PassWrites(info: ReservationInfo)
    | MarkPublished(row: nat)
    | DeliverCaptured(t: nat, p: PaymentCapturedEvent)
    | DeliverRow(t: nat, row: nat)
    | Announce(row: nat)
    | Start(t: nat)
    | Gate(t: nat, delete: C.DeleteFault)
    | Call(t: nat, rpc: M.Rpc)
    | GiveUp(t: nat)
    | Schedule(t: nat, fails: bool, next: nat, replay: bool)
    | Finish(t: nat, deleteId: C.DeleteFault, writeFails: bool)
    | Crash(t: nat, redeliver: bool)

  // ---------- steps ----------

  /** The row of a cache-cleared confirm retry. */
  predicate TokenRow(row: Row) {
    row.topic.ConfirmCapacityTopic? && row.payload.Capacity?
    && row.payload.capacity.action.ConfirmAction? && row.payload.capacity.cacheCleared
  }

  /** The event a delivered row makes its handler process, if it processes one. */
  function EventOfRow(row: Row): Option<CapacityEvent> {
    match row.payload
    case Expired(info) => Some(M.EventOfExpired(info))
    case Capacity(e) =>
      if row.topic.CapacityFailedTopic? then
        if e.action.ConfirmAction? then Some(M.Reversal(e)) else None
      else Some(e)
    case _ => None
  }

  function NewThread(e: CapacityEvent): Thread {
    Thread(e, if e.cacheCleared then Calling else Gating, 0, false)
  }

  function ReserveAttempt(r: ReservationId, rpc: Rpc, found: Option<VesselId>, fault: L.Fault): L.Attempt {
    L.Attempt(L.ReserveCall(L.Specification(r, rpc.weight, rpc.containers), found), fault)
  }

  predicate At(w: World, t: nat, pc: Pc) {
    t in w.threads && w.threads[t].pc == pc
  }

  predicate Enabled(f: Faults, w: World, l: Label) {
    match l
    case AddVessel(v, vessel) =>
      && v !in w.base.vessels
      && forall d :: 0 <= L.Reserved(vessel, d) && 0 <= L.Used(vessel, d)
                     && L.Reserved(vessel, d) + L.Used(vessel, d) <= L.Limit(vessel, d)
    case BeginReserve(r, _, _, _) => r !in w.rpcs
    case ReserveArrives(r, found, fault, heard) =>
      && r in w.rpcs
      && L.Finds(w.rs.ledger, L.Specification(r, w.rpcs[r].weight, w.rpcs[r].containers), found)
      && (heard ==> w.rpcs[r].phase.Reserving?
                    && L.Answer(w.rs.ledger, ReserveAttempt(r, w.rpcs[r], found, fault)).Ok?)
    case Store(r, _, _, _) => r in w.rpcs && w.rpcs[r].phase.Storing?
    case CompensateArrives(r, _) => r in w.rpcs && w.rpcs[r].phase.Compensating?
    case CreateRecord(r) => r in w.rpcs && w.rpcs[r].phase.Granted? && w.rpcs[r].consignment !in w.records
    case PublishCaptured(id, _, _) => id in w.records
    case ExpireId(r) => r in w.rs.keys.ids
    case ExpireData(r) => r in w.rs.keys.data
    case Refresh(r, _, _) => r in w.rs.keys.ids
    case PassReads(r) => r in w.rs.keys.data
    case PassWrites(info) => info in w.seen
    case MarkPublished(row) => row < |w.rs.outbox|
    case DeliverCaptured(t, p) => t !in w.threads && p in w.captured
    case DeliverRow(t, row) =>
      && t !in w.threads && row < |w.rs.outbox|
      && !TokenRow(w.rs.outbox[row]) && EventOfRow(w.rs.outbox[row]).Some?
    case Announce(row) =>
      && row < |w.rs.outbox| && w.rs.outbox[row].topic.CapacityFailedTopic?
      && w.rs.outbox[row].payload.Capacity? && w.rs.outbox[row].payload.capacity.action.ConfirmAction?
    case Start(t) => At(w, t, Idle)
    case Gate(t, _) => At(w, t, Gating)
    case Call(t, rpc) =>
      && At(w, t, Calling) && w.threads[t].tries <= M.MAX_RETRIES
      && (w.threads[t].event.action.ConfirmAction? && rpc.net.Lost? ==> f.confirmMayApply)
    case GiveUp(t) => At(w, t, Calling) && 0 < w.threads[t].tries
    case Schedule(t, _, next, replay) =>
      At(w, t, GivenUp) && next !in w.threads && (replay ==> f.replayScheduled && w.threads[t].token)
    case Finish(t, _, _) => At(w, t, Applied)
    case Crash(t, redeliver) =>
      && t in w.threads
      && (redeliver ==> w.threads[t].token && (w.threads[t].pc.Applied? ==> f.replayApplied))
  }

  /** A call reaches the vessel service: the ledger moves, and history records what committed. */
  function Arrive(w: World, a: L.Attempt): World {
    w.(rs := w.rs.(ledger := L.Exec(w.rs.ledger, a)),
       log := if L.Answer(w.rs.ledger, a).Ok? && L.CallKey(a.call) !in w.rs.ledger.ops
              then w.log + [L.EntryOf(a.call)] else w.log)
  }

  function SetThread(w: World, t: nat, th: Thread): World {
    w.(threads := w.threads[t := th])
  }

  function Drop(w: World, t: nat): World {
    w.(threads := w.threads - {t})
  }

  function SetKeys(w: World, k: C.Keys): World {
    w.(rs := w.rs.(keys := k))
  }

  function AddRow(w: World, row: Row, fails: bool): World {
    w.(rs := M.Write(w.rs, row, fails))
  }

  /** The message is delivered again. */
  function Requeue(w: World, t: nat): World
    requires t in w.threads
  {
    SetThread(w, t, w.threads[t].(pc := Idle, tries := 0))
  }

  function ApplyReserve(w: World, r: ReservationId, found: Option<VesselId>, fault: L.Fault, heard: bool): World
    requires r in w.rpcs
    requires heard ==> L.Answer(w.rs.ledger, ReserveAttempt(r, w.rpcs[r], found, fault)).Ok?
  {
    var a := ReserveAttempt(r, w.rpcs[r], found, fault);
    var w1 := Arrive(w, a);
    if heard then w1.(rpcs := w.rpcs[r := w.rpcs[r].(phase := Storing(L.Answer(w.rs.ledger, a).vessel))]) else w1
  }

  /** What the RPC knows of its reservation once the vessel service has answered. */
  function InfoOfRpc(r: ReservationId, rpc: Rpc): ReservationInfo
    requires !rpc.phase.Reserving?
  {
    ReservationInfo(r, rpc.phase.vessel, rpc.consignment, rpc.containers, rpc.weight)
  }

  function ApplyStore(w: World, r: ReservationId, ttl: C.Ttl, now: int, fault: C.StoreFault): World
    requires r in w.rpcs && w.rpcs[r].phase.Storing?
  {
    var rpc := w.rpcs[r];
    SetKeys(w, C.StoreIn(w.rs.keys, ttl, InfoOfRpc(r, rpc), now, fault)).(
      rpcs := w.rpcs[r := rpc.(phase :=
        if fault.StoreOk? then Granted(rpc.phase.vessel) else Compensating(rpc.phase.vessel))])
  }

  function ApplyCompensate(w: World, r: ReservationId, fault: L.Fault): World
    requires r in w.rpcs && w.rpcs[r].phase.Compensating?
  {
    Arrive(w, L.Attempt(L.ReleaseCall(M.RequestOf(InfoOfRpc(r, w.rpcs[r]))), fault))
  }

  function ApplyGate(w: World, t: nat, delete: C.DeleteFault): World
    requires t in w.threads
  {
    var th := w.threads[t];
    var r := th.event.info.id;
    var gone := if delete == C.DeleteFails(false) then w else SetKeys(w, C.DropData(w.rs.keys, r));
    if delete.DeleteFails? then SetThread(gone, t, th.(pc := GivenUp))
    else if r !in w.rs.keys.data then Drop(gone, t)
    else SetThread(gone, t, th.(event := th.event.(cacheCleared := true), pc := Calling, tries := 0))
  }

  function ApplyCall(w: World, t: nat, rpc: M.Rpc): World
    requires t in w.threads
  {
    var th := w.threads[t];
    var call := M.CallOf(th.event);
    var arrived := if rpc.net.Dropped? then w else Arrive(w, L.Attempt(call, rpc.fault));
    SetThread(arrived, t,
      if M.RpcOk(w.rs.ledger, call, rpc) then th.(pc := Applied) else th.(tries := th.tries + 1))
  }

  function ApplySchedule(w: World, t: nat, fails: bool, next: nat, replay: bool): World
    requires t in w.threads
  {
    var th := w.threads[t];
    if fails then (if th.token then Requeue(w, t) else Drop(w, t))
    else
      var row := M.RetryRow(th.event);
      var added := AddRow(w, row, false);
      var left := if replay then Requeue(added, t) else Drop(added, t);
      if TokenRow(row) && |added.rs.outbox| > |w.rs.outbox|
      then SetThread(left, next, Thread(M.NextTry(th.event), Idle, 0, true)) else left
  }

  function ApplyFinish(w: World, t: nat, deleteId: C.DeleteFault, writeFails: bool): World
    requires t in w.threads
  {
    var e := w.threads[t].event;
    var w1 := SetKeys(w, C.AfterDeleteID(w.rs.keys, e.info.id, deleteId));
    var w2 := if e.action.ConfirmAction? then AddRow(w1, M.ConfirmedRow(e), writeFails) else w1;
    Drop(w2, t)
  }

  function Apply(f: Faults, w: World, l: Label): World
    requires Enabled(f, w, l)
  {
    match l
    case AddVessel(v, vessel) =>
      w.(base := w.base.(vessels := w.base.vessels[v := vessel]),
         rs := w.rs.(ledger := w.rs.ledger.(vessels := w.rs.ledger.vessels[v := vessel])))
    case BeginReserve(r, c, weight, containers) =>
      w.(rpcs := w.rpcs[r := Rpc(c, weight, containers, Reserving)])
    case ReserveArrives(r, found, fault, heard) => ApplyReserve(w, r, found, fault, heard)
    case Store(r, ttl, now, fault) => ApplyStore(w, r, ttl, now, fault)
    case CompensateArrives(r, fault) => ApplyCompensate(w, r, fault)
    case CreateRecord(r) =>
      var rpc := w.rpcs[r];
      w.(records := w.records[rpc.consignment := N.NewConsignment(r, rpc.phase.vessel, rpc.weight, rpc.containers)])
    case PublishCaptured(id, auth, payment) =>
      w.(captured := w.captured + {N.CapturedOf(N.AuthorisedOf(id, w.records[id], auth).(payment := payment))})
    case ExpireId(r) => SetKeys(w, C.DropId(w.rs.keys, r))
    case ExpireData(r) => SetKeys(w, C.DropData(w.rs.keys, r))
    case Refresh(r, ttl, now) => SetKeys(w, C.RefreshIn(w.rs.keys, ttl, r, now))
    case PassReads(r) => w.(seen := w.seen + {w.rs.keys.data[r].info})
    case PassWrites(info) => AddRow(w, M.ExpiredRow(info), false)
    case MarkPublished(row) =>
      w.(rs := w.rs.(outbox := w.rs.outbox[row := w.rs.outbox[row].(published := true)]))
    case DeliverCaptured(t, p) => SetThread(w, t, NewThread(M.EventOfCaptured(p)))
    case DeliverRow(t, row) => SetThread(w, t, NewThread(EventOfRow(w.rs.outbox[row]).value))
    case Announce(row) => AddRow(w, M.FailedRow(w.rs.outbox[row].payload.capacity), false)
    case Start(t) => SetThread(w, t, w.threads[t].(pc := Calling))
    case Gate(t, delete) => ApplyGate(w, t, delete)
    case Call(t, rpc) => ApplyCall(w, t, rpc)
    case GiveUp(t) => SetThread(w, t, w.threads[t].(pc := GivenUp))
    case Schedule(t, fails, next, replay) => ApplySchedule(w, t, fails, next, replay)
    case Finish(t, deleteId, writeFails) => ApplyFinish(w, t, deleteId, writeFails)
    case Crash(t, redeliver) => if redeliver then Requeue(w, t) else Drop(w, t)
  }

  function Execute(f: Faults, w: World, ls: seq<Label>): Option<World> {
    if ls == [] then Some(w)
    else
      var n := |ls| - 1;
      var r := Execute(f, w, ls[..n]);
      if r.Some? && Enabled(f, r.value, ls[n]) then Some(Apply(f, r.value, ls[n])) else None
  }

  // ---------- what must hold ----------

  predicate IsConfirmed(w: World, r: ReservationId) {
    L.OpKey(r, L.Confirm) in w.rs.ledger.ops
  }

  predicate IsReleased(w: World, r: ReservationId) {
    L.OpKey(r, L.Release) in w.rs.ledger.ops
  }

  /** No reservation is both confirmed and released at the vessel. */
  ghost predicate Exclusive(w: World) {
    forall r :: !(IsConfirmed(w, r) && IsReleased(w, r))
  }

  /** Every vessel's counters are non-negative and within its limits, in both dimensions. */
  ghost predicate NotOverbooked(w: World) {
    S.NonNegative(w.rs.ledger) && S.WithinLimits(w.rs.ledger)
  }

  const NO_REPLAYS := Faults(false, false, false)
}
