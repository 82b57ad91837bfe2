/** The whole confirmation saga: the consignment, payment, reservation and vessel services
    as one labelled transition system whose handler steps are the services' own handlers. */
module SagaSystem {
  import opened Types
  import opened Events
  import L = VesselLedger
  import C = ReservationCache
  import P = Payments
  import M = CapacityManager
  import N = Consignments

  /** How far the one ConfirmConsignment call of a consignment has got: payment authorised;
      authorised event written; event not written, so cancelling and voiding; or payment refused. */
  datatype Asked = Paying(auth: AuthId) | Announced(auth: AuthId) | Undoing(auth: AuthId) | Refused

  datatype Grant = Grant(consignment: ConsignmentId, vessel: VesselId, weight: nat, containers: nat)

  /** `csDone` and `rsDone` are the rows of the two outboxes whose consumer has returned
      without error. `seen` is every cached entry that some cleanup pass has fetched. */
  datatype World = World(
    cs: N.Cs, rs: M.Rs,
    granted: map<ReservationId, Grant>,
    asked: map<ConsignmentId, Asked>,
    csDone: set<nat>, rsDone: set<nat>,
    seen: set<ReservationInfo>)

  const INIT := World(
    N.Cs(map[], map[], []), M.Rs(L.Ledger(map[], map[]), C.Keys(map[], map[]), []), map[], map[], {}, {}, {})

  /** What may go wrong around a capture:
      - rescheduleMayFail: the write that reschedules a failed capture run fails;
      - captureMayApply: a capture call that reports an error was applied;
      - captureMayCrash: the handler stops after its capture calls, before it writes anything;
      and which rows may be handled again after their consumer returned without error:
      - replayAuthorised, replayCaptured: authorised rows and captured rows;
      - replayConfirm, replayDead: rows of the confirm topic and of the dead letters. */
  datatype Faults = Faults(
    rescheduleMayFail: bool, captureMayApply: bool, captureMayCrash: bool,
    replayAuthorised: bool, replayCaptured: bool, replayConfirm: bool, replayDead: bool)

  /** What is known of a capture is true, and a capture is not run again. */
  predicate CapturesSound(f: Faults) {
    !f.rescheduleMayFail && !f.captureMayApply && !f.captureMayCrash && !f.replayAuthorised
  }

  /** No row that can lead to a confirm is handled again. */
  predicate ConfirmsOnce(f: Faults) {
    !f.replayAuthorised && !f.replayCaptured && !f.replayConfirm
  }

  datatype Label =
    | AddVessel(v: VesselId, vessel: L.Vessel)
    | GrantReservation(r: ReservationId, grant: Grant, ttl: C.Ttl, now: int)
    | CreateRecord(r: ReservationId)
    | AuthorisePayment(id: ConsignmentId, auth: AuthId)
    | PaymentRefused(id: ConsignmentId, cancelFails: bool)
    | AnnounceAuthorised(id: ConsignmentId)
    | AnnounceFails(id: ConsignmentId)
    | ServerCancels(id: ConsignmentId)
    | ServerVoids(id: ConsignmentId)
    | Refresh(r: ReservationId, ttl: C.Ttl, now: int)
    | ExpireId(r: ReservationId)
    | ExpireData(r: ReservationId)
    | PassReads(r: ReservationId)
    | PassWrites(info: ReservationInfo)
    | MarkCs(row: nat)
    | MarkRs(row: nat)
    | HandleAuthorised(row: nat, csEnv: N.Env)
    | CaptureCrashes(row: nat, calls: seq<N.PayRpc>)
    | HandleCaptured(row: nat, env: M.Env)
    | HandleConfirm(row: nat, env: M.Env)
    | HandleDead(row: nat, env: M.Env, announceFails: bool)
    | HandleRelease(row: nat, env: M.Env)
    | HandleExpiredRs(row: nat, env: M.Env)
    | HandleExpiredCs(row: nat, getFails: bool, calls: seq<N.PayRpc>, updateFails: bool)
    | HandleFailed(fromRs: bool, row: nat, calls: seq<N.PayRpc>, updateFails: bool)
    | HandleConfirmed(row: nat, updateFails: bool)

  // ---------- steps ----------

  /** A call that reports an error had no effect. */
  predicate RsEnv(env: M.Env) {
    && M.EnvOk(env)
    && (forall i :: 0 <= i < |env.calls| ==> !env.calls[i].net.Lost?)
    && env.delete != C.DeleteFails(true)
  }

  predicate PayCalls(w: World, calls: seq<N.PayRpc>) {
    && 1 <= |calls| <= N.BACKOFF_ATTEMPTS + 1
    && forall i :: 0 <= i < |calls| ==> P.Covers(w.cs.payments, calls[i].order)
  }

  /** A capture call that reports an error had no effect. */
  predicate NoneLost(calls: seq<N.PayRpc>) {
    forall i :: 0 <= i < |calls| ==> !calls[i].net.Lost?
  }

  predicate AuthorisedPending(f: Faults, w: World, row: nat) {
    && CsRowIs(w, row, PaymentAuthorisedTopic) && w.cs.outbox[row].payload.Authorised?
    && (row !in w.csDone || f.replayAuthorised)
  }

  predicate CsRowIs(w: World, row: nat, topic: Topic) {
    row < |w.cs.outbox| && w.cs.outbox[row].topic == topic
  }

  predicate RsRowIs(w: World, row: nat, topic: Topic) {
    row < |w.rs.outbox| && w.rs.outbox[row].topic == topic
  }

  predicate RsCapacityRow(w: World, row: nat, topic: Topic) {
    RsRowIs(w, row, topic) && w.rs.outbox[row].payload.Capacity?
  }

  function FoundVessel(r: ReservationId, g: Grant): L.Attempt {
    L.Attempt(L.ReserveCall(L.Specification(r, g.weight, g.containers), Some(g.vessel)), L.NoFault)
  }

  predicate Enabled(f: Faults, w: World, l: Label) {
    match l
    case AddVessel(v, _) => v !in w.rs.ledger.vessels
    case GrantReservation(r, g, _, _) =>
      && r !in w.granted && g.consignment != ""
      && (forall q :: q in w.granted ==> w.granted[q].consignment != g.consignment)
      && L.Finds(w.rs.ledger, L.Specification(r, g.weight, g.containers), Some(g.vessel))
    case CreateRecord(r) => r in w.granted
    case AuthorisePayment(id, auth) =>
      id in w.cs.consignments && id !in w.asked && auth !in w.cs.payments
    case PaymentRefused(id, _) => id in w.cs.consignments && id !in w.asked
    case AnnounceAuthorised(id) => id in w.asked && w.asked[id].Paying? && id in w.cs.consignments
    case AnnounceFails(id) => id in w.asked && w.asked[id].Paying?
    case ServerCancels(id) => id in w.asked && w.asked[id].Undoing?
    case ServerVoids(id) => id in w.asked && w.asked[id].Undoing?
    case Refresh(r, _, _) => r in w.rs.keys.ids
    case ExpireId(r) => r in w.rs.keys.ids
    case ExpireData(r) => r in w.rs.keys.data
    case PassReads(r) => r in w.rs.keys.data
    case PassWrites(info) => info in w.seen
    case MarkCs(row) => row < |w.cs.outbox|
    case MarkRs(row) => row < |w.rs.outbox|
    case HandleAuthorised(row, env) =>
      && AuthorisedPending(f, w, row)
      && PayCalls(w, env.calls) && (NoneLost(env.calls) || f.captureMayApply)
      && (env.writeFails ==> f.rescheduleMayFail)
    case CaptureCrashes(row, calls) =>
      && f.captureMayCrash && AuthorisedPending(f, w, row)
      && |calls| <= N.BACKOFF_ATTEMPTS + 1 && (NoneLost(calls) || f.captureMayApply)
    case HandleCaptured(row, env) =>
      && CsRowIs(w, row, PaymentCapturedTopic) && w.cs.outbox[row].payload.Captured?
      && (row !in w.csDone || f.replayCaptured) && RsEnv(env)
    case HandleConfirm(row, env) =>
      RsCapacityRow(w, row, ConfirmCapacityTopic) && (row !in w.rsDone || f.replayConfirm) && RsEnv(env)
    case HandleDead(row, env, _) =>
      RsCapacityRow(w, row, CapacityFailedTopic) && (row !in w.rsDone || f.replayDead) && RsEnv(env)
    case HandleRelease(row, env) => RsCapacityRow(w, row, ReleaseCapacityTopic) && RsEnv(env)
    case HandleExpiredRs(row, env) =>
      RsRowIs(w, row, ReservationExpiredTopic) && w.rs.outbox[row].payload.Expired? && RsEnv(env)
    case HandleExpiredCs(row, _, calls, _) =>
      RsRowIs(w, row, ReservationExpiredTopic) && w.rs.outbox[row].payload.Expired? && PayCalls(w, calls)
    case HandleFailed(fromRs, row, calls, _) =>
      && PayCalls(w, calls)
      && (if fromRs then RsRowIs(w, row, ConfirmationFailedTopic) && w.rs.outbox[row].payload.ConfirmationFailed?
          else CsRowIs(w, row, ConfirmationFailedTopic) && w.cs.outbox[row].payload.ConfirmationFailed?)
    case HandleConfirmed(row, _) =>
      RsRowIs(w, row, ReservationConfirmedTopic) && w.rs.outbox[row].payload.Confirmed?
  }

  function InfoOf(r: ReservationId, g: Grant): ReservationInfo {
    ReservationInfo(r, g.vessel, g.consignment, g.containers, g.weight)
  }

  function DoGrant(w: World, r: ReservationId, g: Grant, ttl: C.Ttl, now: int): World {
    w.(granted := w.granted[r := g],
       rs := w.rs.(
         ledger := L.Exec(w.rs.ledger, FoundVessel(r, g)),
         keys := C.StoreIn(w.rs.keys, ttl, InfoOf(r, g), now, C.StoreOk)))
  }

  function DoAuthorised(w: World, row: nat, env: N.Env): World
    requires row < |w.cs.outbox| && w.cs.outbox[row].payload.Authorised?
  {
    var e := w.cs.outbox[row].payload.authorised;
    w.(cs := N.OnAuthorised(w.cs, e, env),
       csDone := if N.CompletesAuthorised(w.cs, e, env) then w.csDone + {row} else w.csDone)
  }

  /** The capture calls made so far, and nothing after them. */
  function DoCrash(w: World, row: nat, calls: seq<N.PayRpc>): World
    requires row < |w.cs.outbox| && w.cs.outbox[row].payload.Authorised?
  {
    var e := w.cs.outbox[row].payload.authorised;
    if e.paymentCaptured then w
    else w.(cs := w.cs.(payments := N.AfterCalls(w.cs.payments, N.CaptureAsk(e), calls)))
  }

  function DoCaptured(w: World, row: nat, env: M.Env): World
    requires row < |w.cs.outbox| && w.cs.outbox[row].payload.Captured?
  {
    var e := M.EventOfCaptured(w.cs.outbox[row].payload.captured);
    w.(rs := M.Process(w.rs, e, env),
       csDone := if M.Completes(w.rs, e, env) then w.csDone + {row} else w.csDone)
  }

  function DoConfirm(w: World, row: nat, env: M.Env): World
    requires row < |w.rs.outbox| && w.rs.outbox[row].payload.Capacity?
  {
    var e := w.rs.outbox[row].payload.capacity;
    w.(rs := M.Process(w.rs, e, env),
       rsDone := if M.Completes(w.rs, e, env) then w.rsDone + {row} else w.rsDone)
  }

  function DoDead(w: World, row: nat, env: M.Env, announceFails: bool): World
    requires row < |w.rs.outbox| && w.rs.outbox[row].payload.Capacity?
  {
    var e := w.rs.outbox[row].payload.capacity;
    w.(rs := M.ProcessDead(w.rs, e, env, announceFails),
       rsDone := if M.CompletesDead(e, announceFails) then w.rsDone + {row} else w.rsDone)
  }

  function FailedEvent(w: World, fromRs: bool, row: nat): ConfirmationFailedEvent
    requires if fromRs then row < |w.rs.outbox| && w.rs.outbox[row].payload.ConfirmationFailed?
             else row < |w.cs.outbox| && w.cs.outbox[row].payload.ConfirmationFailed?
  {
    if fromRs then w.rs.outbox[row].payload.failed else w.cs.outbox[row].payload.failed
  }

  function MarkRow(rows: seq<Row>, row: nat): seq<Row>
    requires row < |rows|
  {
    rows[row := rows[row].(published := true)]
  }

  function Apply(f: Faults, w: World, l: Label): World
    requires Enabled(f, w, l)
  {
    match l
    case AddVessel(v, vessel) =>
      w.(rs := w.rs.(ledger := w.rs.ledger.(vessels := w.rs.ledger.vessels[v := vessel])))
    case GrantReservation(r, g, ttl, now) => DoGrant(w, r, g, ttl, now)
    case CreateRecord(r) =>
      var g := w.granted[r];
      w.(cs := N.OnCreate(w.cs, g.consignment, N.Granted(r, g.vessel), g.weight, g.containers, false))
    case AuthorisePayment(id, auth) =>
      w.(cs := N.Authorise(w.cs, id, auth, Answered), asked := w.asked[id := Paying(auth)])
    case PaymentRefused(id, cancelFails) =>
      w.(cs := N.SetStatus(w.cs, id, N.Cancelled, cancelFails), asked := w.asked[id := Refused])
    case AnnounceAuthorised(id) =>
      var auth := w.asked[id].auth;
      w.(cs := N.Write(w.cs, N.AuthorisedRow(N.AuthorisedOf(id, w.cs.consignments[id], auth)), false),
         asked := w.asked[id := Announced(auth)])
    case AnnounceFails(id) => w.(asked := w.asked[id := Undoing(w.asked[id].auth)])
    case ServerCancels(id) => w.(cs := N.SetStatus(w.cs, id, N.Cancelled, false))
    case ServerVoids(id) => w.(cs := N.VoidOnce(w.cs, w.asked[id].auth, Answered))
    case Refresh(r, ttl, now) => w.(rs := w.rs.(keys := C.RefreshIn(w.rs.keys, ttl, r, now)))
    case ExpireId(r) => w.(rs := w.rs.(keys := C.DropId(w.rs.keys, r)))
    case ExpireData(r) => w.(rs := w.rs.(keys := C.DropData(w.rs.keys, r)))
    case PassReads(r) => w.(seen := w.seen + {w.rs.keys.data[r].info})
    case PassWrites(info) => w.(rs := M.Write(w.rs, M.ExpiredRow(info), false))
    case MarkCs(row) => w.(cs := w.cs.(outbox := MarkRow(w.cs.outbox, row)))
    case MarkRs(row) => w.(rs := w.rs.(outbox := MarkRow(w.rs.outbox, row)))
    case HandleAuthorised(row, env) => DoAuthorised(w, row, env)
    case CaptureCrashes(row, calls) => DoCrash(w, row, calls)
    case HandleCaptured(row, env) => DoCaptured(w, row, env)
    case HandleConfirm(row, env) => DoConfirm(w, row, env)
    case HandleDead(row, env, announceFails) => DoDead(w, row, env, announceFails)
    case HandleRelease(row, env) => w.(rs := M.Process(w.rs, w.rs.outbox[row].payload.capacity, env))
    case HandleExpiredRs(row, env) =>
      w.(rs := M.Process(w.rs, M.EventOfExpired(w.rs.outbox[row].payload.expired), env))
    case HandleExpiredCs(row, getFails, calls, updateFails) =>
      w.(cs := N.OnExpired(w.cs, w.rs.outbox[row].payload.expired.consignment, getFails, calls, updateFails))
    case HandleFailed(fromRs, row, calls, updateFails) =>
      w.(cs := N.OnFailed(w.cs, FailedEvent(w, fromRs, row), calls, updateFails))
    case HandleConfirmed(row, updateFails) =>
      w.(cs := N.OnConfirmed(w.cs, w.rs.outbox[row].payload.consignment, updateFails))
  }

  function Execute(f: Faults, w: World, ls: seq<Label>): Option<World> {
    if ls == [] then Some(w)
    else
      var n := |ls| - 1;
      var r := Execute(f, w, ls[..n]);
      if r.Some? && Enabled(f, r.value, ls[n]) then Some(Apply(f, r.value, ls[n])) else None
  }
}
