/** The invariant of the whole saga: what the messages say, the one live place of each
    consignment's saga, the gate, the payments and the statuses. Each part holds under the
    faults it can bear. */
module SagaInvariant {
  import opened Types
  import opened Events
  import L = VesselLedger
  import P = Payments
  import M = CapacityManager
  import N = Consignments
  import opened SagaSystem

  // ---------- what is known of a consignment ----------

  predicate GrantIs(w: World, r: ReservationId, v: VesselId, weight: int, containers: int) {
    r in w.granted && w.granted[r].vessel == v && w.granted[r].weight == weight
    && w.granted[r].containers == containers
  }

  predicate Owns(w: World, c: ConsignmentId, r: ReservationId) {
    r in w.granted && w.granted[r].consignment == c
  }

  /** The consignment's one authorisation. */
  predicate AuthIs(w: World, c: ConsignmentId, a: AuthId) {
    c in w.asked && !w.asked[c].Refused? && w.asked[c].auth == a
  }

  predicate IsAnnounced(w: World, c: ConsignmentId) {
    c in w.asked && w.asked[c].Announced?
  }

  predicate StatusIs(w: World, a: AuthId, s: P.Status) {
    a in w.cs.payments && w.cs.payments[a].status == s
  }

  predicate Taken(w: World, a: AuthId) {
    StatusIs(w, a, P.StatusCaptured) || StatusIs(w, a, P.StatusRefunded)
  }

  predicate IsConfirmed(w: World, r: ReservationId) {
    L.OpKey(r, L.Confirm) in w.rs.ledger.ops
  }

  predicate IsReleased(w: World, r: ReservationId) {
    L.OpKey(r, L.Release) in w.rs.ledger.ops
  }

  // ---------- the rows of a consignment's saga ----------

  predicate AuthorisedAt(w: World, i: nat, c: ConsignmentId) {
    i < |w.cs.outbox| && w.cs.outbox[i].payload.Authorised? && w.cs.outbox[i].payload.authorised.consignment == c
  }

  predicate CapturedAt(w: World, i: nat, c: ConsignmentId) {
    i < |w.cs.outbox| && w.cs.outbox[i].payload.Captured? && w.cs.outbox[i].payload.captured.consignment == c
  }

  predicate CsFailedAt(w: World, i: nat, c: ConsignmentId) {
    i < |w.cs.outbox| && w.cs.outbox[i].payload.ConfirmationFailed? && w.cs.outbox[i].payload.failed.consignment == c
  }

  predicate ConfirmAt(w: World, i: nat, c: ConsignmentId) {
    i < |w.rs.outbox| && w.rs.outbox[i].payload.Capacity? && w.rs.outbox[i].payload.capacity.action.ConfirmAction?
    && w.rs.outbox[i].payload.capacity.consignment == c
  }

  predicate RsFailedAt(w: World, i: nat, c: ConsignmentId) {
    i < |w.rs.outbox| && w.rs.outbox[i].payload.ConfirmationFailed? && w.rs.outbox[i].payload.failed.consignment == c
  }

  predicate ConfirmedAt(w: World, i: nat, c: ConsignmentId) {
    i < |w.rs.outbox| && w.rs.outbox[i].payload.Confirmed? && w.rs.outbox[i].payload.consignment == c
  }

  ghost predicate Committed(w: World, c: ConsignmentId) {
    exists i: nat :: CapturedAt(w, i, c)
  }

  ghost predicate CsFailed(w: World, c: ConsignmentId) {
    exists i: nat :: CsFailedAt(w, i, c)
  }

  ghost predicate RsFailed(w: World, c: ConsignmentId) {
    exists i: nat :: RsFailedAt(w, i, c)
  }

  ghost predicate ConfirmedRowOf(w: World, c: ConsignmentId) {
    exists i: nat :: ConfirmedAt(w, i, c)
  }

  // ---------- under any faults: what records, rows and payments say is true ----------

  predicate InfoOk(w: World, info: ReservationInfo) {
    GrantIs(w, info.id, info.vessel, info.weight, info.containers)
  }

  predicate CapacityOk(w: World, e: CapacityEvent) {
    InfoOk(w, e.info) && (e.action.ConfirmAction? ==> Owns(w, e.consignment, e.info.id) && e.payment == e.consignment)
  }

  predicate ExpiryOk(w: World, info: ReservationInfo) {
    InfoOk(w, info) && Owns(w, info.consignment, info.id)
  }

  predicate CsRowOk(w: World, row: Row) {
    match row.payload
    case Authorised(e) =>
      && GrantIs(w, e.reservation, e.vessel, e.weight, e.containers) && Owns(w, e.consignment, e.reservation)
      && AuthIs(w, e.consignment, e.auth) && IsAnnounced(w, e.consignment)
      && (e.paymentCaptured ==> e.payment == e.consignment && Taken(w, e.auth))
    case Captured(e) =>
      row.topic == PaymentCapturedTopic && CapacityOk(w, M.EventOfCaptured(e)) && IsAnnounced(w, e.consignment)
    case ConfirmationFailed(e) =>
      && AuthIs(w, e.consignment, e.auth) && IsAnnounced(w, e.consignment)
      && (e.paymentCaptured ==> e.payment == e.consignment && Taken(w, e.auth))
    case _ => false
  }

  /** Everything the reservation service writes of a confirm goes back to a captured row. */
  ghost predicate RsRowOk(w: World, row: Row) {
    && (row.topic == ConfirmationFailedTopic ==> row.payload.ConfirmationFailed?)
    && match row.payload
       case Capacity(e) =>
         && CapacityOk(w, e) && (e.action.ConfirmAction? ==> Committed(w, e.consignment))
         && (row.topic == ReleaseCapacityTopic || row.topic == ConfirmCapacityTopic || row.topic == CapacityFailedTopic)
         && (row.topic == ReleaseCapacityTopic ==> e.action.ReleaseAction?)
         && (row.topic == ConfirmCapacityTopic ==> e.action.ConfirmAction?)
       case Expired(info) => row.topic == ReservationExpiredTopic && ExpiryOk(w, info)
       case Confirmed(c, r) =>
         && row.topic == ReservationConfirmedTopic && row.key == Id(c)
         && Owns(w, c, r) && Committed(w, c) && IsConfirmed(w, r)
       case ConfirmationFailed(e) =>
         e.paymentCaptured && e.payment == e.consignment && Committed(w, e.consignment) && row.key == Id(e.consignment)
       case _ => false
  }

  predicate DeadAt(w: World, i: nat, c: ConsignmentId) {
    ConfirmAt(w, i, c) && w.rs.outbox[i].topic == CapacityFailedTopic
  }

  ghost predicate RowsOk(w: World) {
    && (forall i: nat :: i < |w.cs.outbox| ==> CsRowOk(w, w.cs.outbox[i]))
    && (forall i: nat :: i < |w.rs.outbox| ==> RsRowOk(w, w.rs.outbox[i]))
    && (forall i: nat :: i in w.csDone ==> i < |w.cs.outbox|)
    && (forall i: nat :: i in w.rsDone ==> i < |w.rs.outbox|)
    && (forall i: nat, c :: i in w.rsDone && DeadAt(w, i, c) ==> RsFailed(w, c))
  }

  ghost predicate RecordsOk(w: World) {
    && (forall r :: r in w.granted ==> w.granted[r].consignment != "")
    && (forall r, q ::
          r in w.granted && q in w.granted && w.granted[r].consignment == w.granted[q].consignment ==> r == q)
    && (forall id :: id in w.cs.consignments ==>
          var c := w.cs.consignments[id];
          GrantIs(w, c.reservation, c.vessel, c.weight, c.containers) && Owns(w, id, c.reservation))
    && (forall id :: id in w.asked ==> id in w.cs.consignments)
    && (forall r :: r in w.rs.keys.data ==> w.rs.keys.data[r].info.id == r && ExpiryOk(w, w.rs.keys.data[r].info))
    && (forall info :: info in w.seen ==> ExpiryOk(w, info))
    && (forall k :: k in w.rs.ledger.ops ==> k.reservation in w.granted)
  }

  ghost predicate TracesOk(w: World) {
    forall c, r :: Owns(w, c, r) && IsConfirmed(w, r) ==> Committed(w, c)
  }

  ghost predicate AccountsOk(w: World) {
    && (forall a :: a in w.cs.payments ==>
          && AuthIs(w, w.cs.payments[a].consignment, a)
          && w.cs.payments[a].captureId == if Taken(w, a) then w.cs.payments[a].consignment else "")
    && (forall c, a :: AuthIs(w, c, a) ==> a in w.cs.payments && w.cs.payments[a].consignment == c)
  }

  ghost predicate PaymentOk(w: World, c: ConsignmentId, a: AuthId)
    requires AuthIs(w, c, a)
  {
    && (Committed(w, c) ==> Taken(w, a))
    && (StatusIs(w, a, P.StatusRefunded) ==> CsFailed(w, c) || RsFailed(w, c))
    && (StatusIs(w, a, P.StatusVoided) ==> w.asked[c].Undoing? || CsFailed(w, c))
    && (w.asked[c].Paying? ==> StatusIs(w, a, P.StatusAuthorised))
  }

  ghost predicate PaymentsOk(w: World) {
    AccountsOk(w) && forall c, a :: AuthIs(w, c, a) ==> PaymentOk(w, c, a)
  }

  ghost predicate StatusOk(w: World, id: ConsignmentId)
    requires id in w.cs.consignments
  {
    var c := w.cs.consignments[id];
    && (c.status == N.Pending ==> c.payment == "" && !Committed(w, id))
    && (c.status == N.ConfirmedStatus ==> ConfirmedRowOf(w, id))
  }

  ghost predicate StatusesOk(w: World) {
    forall id :: id in w.cs.consignments ==> StatusOk(w, id)
  }

  ghost predicate Base(w: World) {
    RecordsOk(w) && RowsOk(w) && TracesOk(w) && PaymentsOk(w) && StatusesOk(w)
  }

  // ---------- where a consignment's saga is ----------

  /** With the server that has its authorisation, or in an outbox row still to be handled; a
      verdict row stays its place for good. */
  datatype Place = Server | CsRow(i: nat) | RsRow(i: nat)

  /** Before the capture is committed. */
  predicate EarlyAt(w: World, c: ConsignmentId, p: Place) {
    match p
    case Server => c in w.asked && w.asked[c].Paying?
    case CsRow(i) => (AuthorisedAt(w, i, c) && i !in w.csDone) || CsFailedAt(w, i, c)
    case RsRow(_) => false
  }

  /** From the committed capture on. */
  predicate LateAt(w: World, c: ConsignmentId, p: Place) {
    match p
    case Server => false
    case CsRow(i) => CapturedAt(w, i, c) && i !in w.csDone
    case RsRow(i) => (ConfirmAt(w, i, c) && i !in w.rsDone) || ConfirmedAt(w, i, c) || RsFailedAt(w, i, c)
  }

  predicate FailedRow(w: World, c: ConsignmentId, p: Place) {
    p.RsRow? && RsFailedAt(w, p.i, c)
  }

  // ---------- while authorised rows run once: one place up to the commit ----------

  ghost predicate EarlyOk(w: World) {
    && (forall c, p, q :: EarlyAt(w, c, p) && EarlyAt(w, c, q) ==> p == q)
    && (forall c, p :: EarlyAt(w, c, p) ==> !Committed(w, c))
  }

  // ---------- while captures are sound: an uncaptured event is right ----------

  /** The payment of an uncaptured event still to be handled is authorised. */
  predicate WaitingRowOk(w: World, i: nat)
    requires i < |w.cs.outbox| && w.cs.outbox[i].payload.Authorised?
  {
    var e := w.cs.outbox[i].payload.authorised;
    i in w.csDone || e.paymentCaptured || StatusIs(w, e.auth, P.StatusAuthorised)
  }

  /** The payment of a failure event that denies a capture was not captured. */
  predicate FailedRowOk(w: World, i: nat)
    requires i < |w.cs.outbox| && w.cs.outbox[i].payload.ConfirmationFailed?
  {
    var e := w.cs.outbox[i].payload.failed;
    e.paymentCaptured || !Taken(w, e.auth)
  }

  ghost predicate UncapturedOk(w: World) {
    && (forall i: nat :: i < |w.cs.outbox| && w.cs.outbox[i].payload.Authorised? ==> WaitingRowOk(w, i))
    && (forall i: nat :: i < |w.cs.outbox| && w.cs.outbox[i].payload.ConfirmationFailed? ==> FailedRowOk(w, i))
  }

  // ---------- while confirms run once: one place from the commit on, and the gate ----------

  /** Dead letters handled again can repeat a failure, and nothing else. */
  predicate OneOrFailed(f: Faults, w: World, c: ConsignmentId, p: Place, q: Place) {
    p == q || (f.replayDead && FailedRow(w, c, p) && FailedRow(w, c, q))
  }

  ghost predicate LateOk(f: Faults, w: World) {
    forall c, p, q :: LateAt(w, c, p) && LateAt(w, c, q) ==> OneOrFailed(f, w, c, p, q)
  }

  predicate Cached(w: World, r: ReservationId) {
    r in w.rs.keys.data
  }

  /** A cache-cleared confirm still to be handled. */
  predicate HeldRow(w: World, i: nat, r: ReservationId) {
    i < |w.rs.outbox| && i !in w.rsDone && w.rs.outbox[i].topic == ConfirmCapacityTopic
    && w.rs.outbox[i].payload.Capacity?
    && w.rs.outbox[i].payload.capacity.cacheCleared && w.rs.outbox[i].payload.capacity.info.id == r
  }

  /** A cache-cleared message that can only lead to a release. */
  predicate UndoRow(w: World, i: nat, r: ReservationId) {
    i < |w.rs.outbox| && w.rs.outbox[i].payload.Capacity?
    && w.rs.outbox[i].payload.capacity.cacheCleared && w.rs.outbox[i].payload.capacity.info.id == r
    && (w.rs.outbox[i].payload.capacity.action.ReleaseAction? || w.rs.outbox[i].topic == CapacityFailedTopic)
  }

  ghost predicate Held(w: World, r: ReservationId) {
    exists i: nat :: HeldRow(w, i, r)
  }

  ghost predicate Undone(w: World, r: ReservationId) {
    exists i: nat :: UndoRow(w, i, r)
  }

  ghost predicate GateOk(w: World, r: ReservationId) {
    && (Held(w, r) ==> !Cached(w, r) && !Undone(w, r) && !IsConfirmed(w, r) && !IsReleased(w, r))
    && (Cached(w, r) ==> !Undone(w, r) && !IsConfirmed(w, r) && !IsReleased(w, r))
    && (Undone(w, r) || IsReleased(w, r) ==> !IsConfirmed(w, r))
  }

  ghost predicate GatesOk(w: World) {
    forall r :: GateOk(w, r)
  }

  predicate IsVerdict(w: World, p: Place) {
    p.RsRow? && p.i < |w.rs.outbox| && w.rs.outbox[p.i].payload.Confirmed?
  }

  ghost predicate ConfirmsOk(w: World) {
    forall c, r, p :: Owns(w, c, r) && IsConfirmed(w, r) && LateAt(w, c, p) ==> IsVerdict(w, p)
  }

  ghost predicate CancelsOk(w: World) {
    forall id :: id in w.cs.consignments && w.cs.consignments[id].status == N.Cancelled && Committed(w, id) ==>
      RsFailed(w, id)
  }

  ghost predicate SagasOk(f: Faults, w: World) {
    LateOk(f, w) && GatesOk(w) && ConfirmsOk(w) && CancelsOk(w)
  }

  ghost predicate Inv(f: Faults, w: World) {
    && Base(w)
    && (!f.replayAuthorised ==> EarlyOk(w))
    && (CapturesSound(f) ==> UncapturedOk(w))
    && (ConfirmsOnce(f) ==> SagasOk(f, w))
  }

  // ---------- a saga that has ended without a verdict ----------

  /** Committed, and in no place: no row of its saga is left to be handled and none is a verdict. */
  ghost predicate Ended(w: World, c: ConsignmentId) {
    Committed(w, c) && forall p :: !LateAt(w, c, p)
  }

  ghost predicate Continues(w: World, x: World) {
    forall c :: Ended(w, c) ==> Ended(x, c)
  }

  /** From `w` to `x` the invariant was kept and no ended saga went on. */
  ghost predicate Kept(f: Faults, w: World, x: World) {
    Inv(f, x) && (ConfirmsOnce(f) ==> Continues(w, x))
  }
}
