/** The steps that start a saga and those of the stores keep the invariant, so every run does. */
module SagaRuns {
  import opened Types
  import opened Events
  import C = ReservationCache
  import P = Payments
  import M = CapacityManager
  import N = Consignments
  import opened SagaSystem
  import opened SagaInvariant
  import opened SagaFrames
  import opened SagaSafety
  import opened SagaCapture
  import opened SagaSteps

  // ---------- reservations and records ----------

  lemma GrantIsStill(w: World, r: ReservationId, g: Grant, ttl: C.Ttl, now: int)
    requires RecordsOk(w) && r !in w.granted
    ensures var x := DoGrant(w, r, g, ttl, now); Grows(w, x) && CsStill(w, x) && NoConfirms(w, x) && LateWithin(w, x)
    ensures forall q :: IsReleased(DoGrant(w, r, g, ttl, now), q) ==> IsReleased(w, q)
  {
    assert forall q :: IsConfirmed(w, q) ==> q in w.granted;
  }

  lemma GrantRows(w: World, r: ReservationId, g: Grant, ttl: C.Ttl, now: int)
    requires RecordsOk(w) && RowsOk(w) && r !in w.granted
    ensures RowsOk(DoGrant(w, r, g, ttl, now))
  {
    GrantIsStill(w, r, g, ttl, now);
    RowsKeep(w, DoGrant(w, r, g, ttl, now));
  }

  lemma GrantOps(w: World, r: ReservationId, g: Grant, ttl: C.Ttl, now: int)
    ensures forall k :: k in DoGrant(w, r, g, ttl, now).rs.ledger.ops ==>
              k in w.rs.ledger.ops || k.reservation == r
  {
  }

  lemma GrantRecords(w: World, r: ReservationId, g: Grant, ttl: C.Ttl, now: int)
    requires RecordsOk(w) && r !in w.granted && g.consignment != ""
    requires forall q :: q in w.granted ==> w.granted[q].consignment != g.consignment
    ensures RecordsOk(DoGrant(w, r, g, ttl, now))
  {
    GrantInfos(w, r, g, ttl, now);
    GrantOps(w, r, g, ttl, now);
  }

  lemma GrantInfos(w: World, r: ReservationId, g: Grant, ttl: C.Ttl, now: int)
    requires RecordsOk(w) && r !in w.granted
    ensures var x := DoGrant(w, r, g, ttl, now);
            && (forall q :: q in x.rs.keys.data ==>
                  x.rs.keys.data[q].info.id == q && ExpiryOk(x, x.rs.keys.data[q].info))
            && (forall info :: info in x.seen ==> ExpiryOk(x, info))
  {
    var x := DoGrant(w, r, g, ttl, now);
    forall q | q in x.rs.keys.data ensures x.rs.keys.data[q].info.id == q && ExpiryOk(x, x.rs.keys.data[q].info) {
      if q != r {
        assert ExpiryOk(w, w.rs.keys.data[q].info);
      }
    }
    forall info | info in x.seen ensures ExpiryOk(x, info) {
      assert ExpiryOk(w, info);
    }
  }

  lemma GrantGates(w: World, r: ReservationId, g: Grant, ttl: C.Ttl, now: int)
    requires RecordsOk(w) && RowsOk(w) && GatesOk(w) && r !in w.granted
    ensures GatesOk(DoGrant(w, r, g, ttl, now))
  {
    var x := DoGrant(w, r, g, ttl, now);
    forall q ensures GateOk(x, q) {
      assert GateOk(w, q);
      if i: nat :| HeldRow(x, i, q) {
        assert HeldRow(w, i, q) && RsRowOk(w, w.rs.outbox[i]);
      }
      if i: nat :| UndoRow(x, i, q) {
        assert UndoRow(w, i, q) && RsRowOk(w, w.rs.outbox[i]);
      }
      assert IsConfirmed(x, q) == IsConfirmed(w, q) && IsReleased(x, q) == IsReleased(w, q);
    }
  }

  lemma GrantRsSide(f: Faults, w: World, r: ReservationId, g: Grant, ttl: C.Ttl, now: int)
    requires RecordsOk(w) && RowsOk(w) && RsSideOk(f, w) && r !in w.granted
    ensures var x := DoGrant(w, r, g, ttl, now); RsSideOk(f, x) && (ConfirmsOnce(f) ==> Continues(w, x))
  {
    var x := DoGrant(w, r, g, ttl, now);
    GrantIsStill(w, r, g, ttl, now);
    TracesKeep(w, x);
    if ConfirmsOnce(f) {
      LateKeep(f, w, x);
      GrantGates(w, r, g, ttl, now);
      StillConfirms(w, x);
    }
  }

  lemma GrantKeeps(f: Faults, w: World, r: ReservationId, g: Grant, ttl: C.Ttl, now: int)
    requires Inv(f, w) && r !in w.granted && g.consignment != ""
    requires forall q :: q in w.granted ==> w.granted[q].consignment != g.consignment
    ensures Kept(f, w, DoGrant(w, r, g, ttl, now))
  {
    GrantRows(w, r, g, ttl, now);
    GrantRecords(w, r, g, ttl, now);
    GrantRsSide(f, w, r, g, ttl, now);
    GrantIsStill(w, r, g, ttl, now);
    CsSideKeeps(f, w, DoGrant(w, r, g, ttl, now));
  }

  function Created(w: World, r: ReservationId): World
    requires r in w.granted
  {
    var g := w.granted[r];
    w.(cs := N.OnCreate(w.cs, g.consignment, N.Granted(r, g.vessel), g.weight, g.containers, false))
  }

  lemma CreateRecords(w: World, r: ReservationId)
    requires RecordsOk(w) && r in w.granted
    ensures RecordsOk(Created(w, r))
  {
  }

  lemma CreateStatuses(w: World, r: ReservationId)
    requires RecordsOk(w) && RowsOk(w) && StatusesOk(w) && r in w.granted
    ensures StatusesOk(Created(w, r))
    ensures CancelsOk(w) ==> CancelsOk(Created(w, r))
  {
    var x := Created(w, r);
    RecordsOnlyIsStill(w, x);
    Stays(w, x);
    forall c | c in x.cs.consignments ensures StatusOk(x, c) {
      if c in w.cs.consignments {
        assert StatusOk(w, c);
      } else if Committed(w, c) {
        CommittedIsAnnounced(w, c);
      }
    }
  }

  lemma CreateKeeps(f: Faults, w: World, r: ReservationId)
    requires Inv(f, w) && r in w.granted
    ensures Kept(f, w, Created(w, r))
  {
    CreateRecords(w, r);
    CreateStatuses(w, r);
    RecordsOnlyKeeps(f, w, Created(w, r));
  }

  // ---------- the server ----------

  /** The call for `id` moves on, and on its first move a payment may be authorised. */
  ghost predicate AskedStep(w: World, x: World, id: ConsignmentId) {
    && id in w.cs.consignments && id in x.asked && x.asked == w.asked[id := x.asked[id]]
    && (id in w.asked ==> w.asked[id].Paying?)
    && (forall c, a :: AuthIs(w, c, a) ==> AuthIs(x, c, a))
    && (forall a :: Taken(x, a) <==> Taken(w, a))
    && (forall a :: StatusIs(w, a, P.StatusAuthorised) ==> StatusIs(x, a, P.StatusAuthorised))
    && x == w.(cs := w.cs.(payments := x.cs.payments), asked := x.asked)
  }

  lemma AskedIsStill(w: World, x: World, id: ConsignmentId)
    requires RowsOk(w) && AskedStep(w, x, id)
    ensures Grows(w, x) && RsStill(w, x) && !Committed(w, id)
    ensures forall c :: Committed(x, c) <==> Committed(w, c)
    ensures forall i: nat :: !AuthorisedAt(w, i, id) && !CsFailedAt(w, i, id)
  {
    assert !IsAnnounced(w, id);
    SameCommits(w, x);
    if Committed(w, id) {
      CommittedIsAnnounced(w, id);
    }
    forall i: nat ensures !AuthorisedAt(w, i, id) && !CsFailedAt(w, i, id) {
      assert i < |w.cs.outbox| ==> CsRowOk(w, w.cs.outbox[i]);
    }
  }

  lemma AskedRows(w: World, x: World, id: ConsignmentId)
    requires RowsOk(w) && AskedStep(w, x, id)
    ensures RowsOk(x)
  {
    AskedIsStill(w, x, id);
    RowsKeep(w, x);
  }

  lemma AskedEarly(w: World, x: World, id: ConsignmentId)
    requires EarlyOk(w) && RowsOk(w) && AskedStep(w, x, id)
    ensures EarlyOk(x)
    ensures forall p :: EarlyAt(x, id, p) ==> p == Server && x.asked[id].Paying?
  {
    AskedIsStill(w, x, id);
    forall p | EarlyAt(x, id, p) ensures p == Server && x.asked[id].Paying? {
      assert p.CsRow? ==> !AuthorisedAt(w, p.i, id) && !CsFailedAt(w, p.i, id);
    }
    forall c, p | EarlyAt(x, c, p) && c != id ensures EarlyAt(w, c, p) {
    }
  }

  lemma AskedUncaptured(w: World, x: World, id: ConsignmentId)
    requires UncapturedOk(w) && AskedStep(w, x, id)
    ensures UncapturedOk(x)
  {
    forall i: nat | i < |x.cs.outbox| && x.cs.outbox[i].payload.Authorised? ensures WaitingRowOk(x, i) {
      assert WaitingRowOk(w, i);
    }
    forall i: nat | i < |x.cs.outbox| && x.cs.outbox[i].payload.ConfirmationFailed? ensures FailedRowOk(x, i) {
      assert FailedRowOk(w, i);
    }
  }

  /** All of the invariant but the payments. */
  lemma AskedKeeps(f: Faults, w: World, x: World, id: ConsignmentId)
    requires Inv(f, w) && AskedStep(w, x, id) && PaymentsOk(x)
    ensures Kept(f, w, x) && Grows(w, x) && !Committed(x, id)
    ensures !f.replayAuthorised ==> forall p :: EarlyAt(x, id, p) ==> p == Server && x.asked[id].Paying?
  {
    RecordsKeep(w, x);
    AskedRows(w, x, id);
    AskedIsStill(w, x, id);
    StatusesKeep(w, x);
    RsSideKeeps(f, w, x);
    if !f.replayAuthorised {
      AskedEarly(w, x, id);
    }
    if CapturesSound(f) {
      AskedUncaptured(w, x, id);
    }
    if ConfirmsOnce(f) {
      CancelsKeep(w, x);
    }
  }

  /** The authorised payment of the call: new on the first move, the same afterwards. */
  ghost predicate AskedPayment(w: World, x: World, id: ConsignmentId, a: AuthId) {
    && AuthIs(x, id, a) && (id !in w.asked ==> x.asked[id].Paying?)
    && (if id in w.asked then AuthIs(w, id, a) && x.cs.payments == w.cs.payments
        else a !in w.cs.payments && x.cs.payments == w.cs.payments[a := P.Payment(id, P.StatusAuthorised, "")])
  }

  lemma AskedPayments(w: World, x: World, id: ConsignmentId, a: AuthId)
    requires PaymentsOk(w) && RowsOk(w) && AskedStep(w, x, id) && AskedPayment(w, x, id, a)
    ensures PaymentsOk(x)
  {
    AskedIsStill(w, x, id);
    Stays(w, x);
    if id in w.asked {
      assert PaymentOk(w, id, a);
    }
    forall c, b | AuthIs(x, c, b)
      ensures PaymentOk(x, c, b) && b in x.cs.payments && x.cs.payments[b].consignment == c
    {
      if c != id {
        assert AuthIs(w, c, b) && PaymentOk(w, c, b);
      }
    }
    forall b | b in x.cs.payments
      ensures AuthIs(x, x.cs.payments[b].consignment, b)
      ensures x.cs.payments[b].captureId == if Taken(x, b) then x.cs.payments[b].consignment else ""
    {
      if b in w.cs.payments {
        assert AuthIs(w, w.cs.payments[b].consignment, b);
      }
    }
  }

  lemma AuthoriseIs(w: World, x: World, id: ConsignmentId, a: AuthId)
    requires id in w.cs.consignments && id !in w.asked && a !in w.cs.payments
    requires x == w.(cs := N.Authorise(w.cs, id, a, Answered), asked := w.asked[id := Paying(a)])
    ensures AskedStep(w, x, id) && AskedPayment(w, x, id, a)
  {
  }

  lemma AuthoriseKeeps(f: Faults, w: World, id: ConsignmentId, a: AuthId)
    requires Inv(f, w) && id in w.cs.consignments && id !in w.asked && a !in w.cs.payments
    ensures Kept(f, w, w.(cs := N.Authorise(w.cs, id, a, Answered), asked := w.asked[id := Paying(a)]))
  {
    var x := w.(cs := N.Authorise(w.cs, id, a, Answered), asked := w.asked[id := Paying(a)]);
    AuthoriseIs(w, x, id, a);
    AskedPayments(w, x, id, a);
    AskedKeeps(f, w, x, id);
  }

  /** The call's answer: its event written, its payment to be voided, or nothing authorised. */
  lemma AnswerIs(w: World, x: World, id: ConsignmentId)
    requires id in w.cs.consignments && id in x.asked && x == w.(asked := w.asked[id := x.asked[id]])
    requires if id in w.asked then w.asked[id].Paying? && AuthIs(x, id, w.asked[id].auth) else x.asked[id].Refused?
    ensures AskedStep(w, x, id)
    ensures id in w.asked ==> AskedPayment(w, x, id, w.asked[id].auth)
  {
  }

  /** The call ends, with its event written or with its payment to be voided. */
  lemma AnswerKeeps(f: Faults, w: World, id: ConsignmentId, to: Asked)
    requires Inv(f, w) && id in w.asked && w.asked[id].Paying?
    requires to == Announced(w.asked[id].auth) || to == Undoing(w.asked[id].auth)
    ensures var x := w.(asked := w.asked[id := to]);
            && Kept(f, w, x) && Grows(w, x) && !Committed(x, id)
            && (!f.replayAuthorised ==> forall p :: !EarlyAt(x, id, p))
  {
    var x := w.(asked := w.asked[id := to]);
    AnswerIs(w, x, id);
    AskedPayments(w, x, id, w.asked[id].auth);
    AskedKeeps(f, w, x, id);
  }

  lemma RefusedKeeps(f: Faults, w: World, id: ConsignmentId, cancelFails: bool)
    requires Inv(f, w) && id in w.cs.consignments && id !in w.asked
    ensures Kept(f, w, w.(cs := N.SetStatus(w.cs, id, N.Cancelled, cancelFails), asked := w.asked[id := Refused]))
  {
    var y := w.(asked := w.asked[id := Refused]);
    AnswerIs(w, y, id);
    RefusedPayments(w, y, id);
    AskedKeeps(f, w, y, id);
    StatusKeeps(f, y, id, N.Cancelled, cancelFails);
  }

  lemma RefusedPayments(w: World, y: World, id: ConsignmentId)
    requires PaymentsOk(w) && RowsOk(w) && id !in w.asked && y == w.(asked := w.asked[id := Refused])
    ensures PaymentsOk(y)
  {
    assert Grows(w, y);
    SameCommits(w, y);
    Stays(w, y);
    forall c, b | AuthIs(y, c, b)
      ensures PaymentOk(y, c, b) && b in y.cs.payments && y.cs.payments[b].consignment == c
    {
      assert AuthIs(w, c, b) && PaymentOk(w, c, b);
    }
  }

  /** The authorised event of a call that is no longer with the server. */
  ghost predicate FirstRow(w: World, x: World, e: PaymentAuthorisedEvent) {
    && CsRowOk(w, N.AuthorisedRow(e)) && !e.paymentCaptured && StatusIs(w, e.auth, P.StatusAuthorised)
    && x == w.(cs := w.cs.(outbox := w.cs.outbox + [N.AuthorisedRow(e)]))
  }

  lemma FirstRowIsStill(w: World, x: World, e: PaymentAuthorisedEvent)
    requires FirstRow(w, x, e)
    ensures Grows(w, x) && RsStill(w, x)
  {
  }

  lemma FirstRowCommits(w: World, x: World, e: PaymentAuthorisedEvent)
    requires FirstRow(w, x, e)
    ensures forall c :: Committed(x, c) <==> Committed(w, c)
  {
    forall c ensures Committed(x, c) <==> Committed(w, c) {
      assert forall i: nat :: CapturedAt(x, i, c) <==> CapturedAt(w, i, c);
    }
  }

  lemma FirstRowRows(w: World, x: World, e: PaymentAuthorisedEvent)
    requires RowsOk(w) && FirstRow(w, x, e)
    ensures RowsOk(x)
  {
    FirstRowIsStill(w, x, e);
    RowsKeep(w, x);
  }

  lemma FirstRowCsSide(f: Faults, w: World, x: World, e: PaymentAuthorisedEvent)
    requires CsSideOk(f, w) && FirstRow(w, x, e) && Grows(w, x) && !Committed(w, e.consignment)
    requires !f.replayAuthorised ==> forall p :: !EarlyAt(w, e.consignment, p)
    requires forall c :: Committed(x, c) <==> Committed(w, c)
    ensures CsSideOk(f, x)
  {
    PaymentsKeep(w, x);
    StatusesKeep(w, x);
    if !f.replayAuthorised {
      FirstRowEarly(w, x, e);
    }
    if CapturesSound(f) {
      FirstRowUncaptured(w, x, e);
    }
    if ConfirmsOnce(f) {
      CancelsKeep(w, x);
    }
  }

  lemma FirstRowEarly(w: World, x: World, e: PaymentAuthorisedEvent)
    requires EarlyOk(w) && FirstRow(w, x, e) && !Committed(w, e.consignment)
    requires forall p :: !EarlyAt(w, e.consignment, p)
    requires forall c :: Committed(x, c) <==> Committed(w, c)
    ensures EarlyOk(x)
  {
    forall c, p | EarlyAt(x, c, p) ensures EarlyAt(w, c, p) || (c == e.consignment && p == CsRow(|w.cs.outbox|)) {
    }
  }

  lemma FirstRowUncaptured(w: World, x: World, e: PaymentAuthorisedEvent)
    requires UncapturedOk(w) && FirstRow(w, x, e)
    ensures UncapturedOk(x)
  {
    forall i: nat | i < |x.cs.outbox| && x.cs.outbox[i].payload.Authorised? ensures WaitingRowOk(x, i) {
      assert i < |w.cs.outbox| ==> WaitingRowOk(w, i);
    }
    forall i: nat | i < |x.cs.outbox| && x.cs.outbox[i].payload.ConfirmationFailed? ensures FailedRowOk(x, i) {
      assert FailedRowOk(w, i);
    }
  }

  lemma FirstRowKeeps(f: Faults, w: World, x: World, e: PaymentAuthorisedEvent)
    requires Inv(f, w) && FirstRow(w, x, e) && !Committed(w, e.consignment)
    requires !f.replayAuthorised ==> forall p :: !EarlyAt(w, e.consignment, p)
    ensures Kept(f, w, x)
  {
    RecordsKeep(w, x);
    FirstRowRows(w, x, e);
    FirstRowCommits(w, x, e);
    FirstRowIsStill(w, x, e);
    FirstRowCsSide(f, w, x, e);
    RsSideKeeps(f, w, x);
  }

  lemma AnnouncedKeeps(f: Faults, w: World, id: ConsignmentId)
    requires Inv(f, w) && id in w.asked && w.asked[id].Paying? && id in w.cs.consignments
    ensures Kept(f, w, w.(
              cs := N.Write(w.cs, N.AuthorisedRow(N.AuthorisedOf(id, w.cs.consignments[id], w.asked[id].auth)), false),
              asked := w.asked[id := Announced(w.asked[id].auth)]))
  {
    var a := w.asked[id].auth;
    var y := w.(asked := w.asked[id := Announced(a)]);
    assert AuthIs(w, id, a) && PaymentOk(w, id, a);
    AnswerKeeps(f, w, id, Announced(a));
    var e := N.AuthorisedOf(id, w.cs.consignments[id], a);
    FirstRowKeeps(f, y, y.(cs := y.cs.(outbox := y.cs.outbox + [N.AuthorisedRow(e)])), e);
  }

  lemma NotAnnounced(w: World, id: ConsignmentId)
    requires RowsOk(w) && !IsAnnounced(w, id)
    ensures !Committed(w, id) && forall i: nat :: !AuthorisedAt(w, i, id)
  {
    if Committed(w, id) {
      CommittedIsAnnounced(w, id);
    }
    forall i: nat ensures !AuthorisedAt(w, i, id) {
      assert i < |w.cs.outbox| ==> CsRowOk(w, w.cs.outbox[i]);
    }
  }

  lemma VoidsBack(w: World, x: World, id: ConsignmentId, a: AuthId)
    requires PaymentsOk(w) && id in w.asked && w.asked[id] == Undoing(a)
    requires x == w.(cs := N.VoidOnce(w.cs, a, Answered))
    ensures MayGoBack(w, x, id, a)
  {
    assert AuthIs(w, id, a) && PaymentOk(w, id, a);
  }

  lemma VoidsKeeps(f: Faults, w: World, id: ConsignmentId)
    requires Inv(f, w) && id in w.asked && w.asked[id].Undoing?
    ensures Kept(f, w, w.(cs := N.VoidOnce(w.cs, w.asked[id].auth, Answered)))
  {
    var a := w.asked[id].auth;
    var x := w.(cs := N.VoidOnce(w.cs, a, Answered));
    VoidsBack(w, x, id, a);
    NotAnnounced(w, id);
    BackKeeps(f, w, x, id, a);
  }

  lemma CancelsKeeps(f: Faults, w: World, id: ConsignmentId)
    requires Inv(f, w) && id in w.asked && w.asked[id].Undoing?
    ensures Kept(f, w, w.(cs := N.SetStatus(w.cs, id, N.Cancelled, false)))
  {
    NotAnnounced(w, id);
    StatusKeeps(f, w, id, N.Cancelled, false);
  }

  // ---------- the stores' own steps ----------

  /** Keys expire or are refreshed, rows are marked, expiry rows appear. */
  ghost predicate StoreStep(w: World, x: World) {
    && CsStill(w, x) && x.granted == w.granted && x.csDone == w.csDone && x.rsDone == w.rsDone
    && (forall i: nat :: |w.rs.outbox| <= i < |x.rs.outbox| ==>
          x.rs.outbox[i].topic == ReservationExpiredTopic
          && x.rs.outbox[i].payload.Expired? && ExpiryOk(w, x.rs.outbox[i].payload.expired))
    && SameInfos(w, x) && x.rs.ledger.ops == w.rs.ledger.ops
  }

  lemma StoreRows(w: World, x: World)
    requires RecordsOk(w) && RowsOk(w) && StoreStep(w, x)
    ensures RecordsOk(x) && RowsOk(x)
  {
    RecordsKeep(w, x);
    RowsKeep(w, x);
  }

  lemma StoreKeeps(f: Faults, w: World, x: World)
    requires Inv(f, w) && StoreStep(w, x)
    ensures Kept(f, w, x)
  {
    StoreRows(w, x);
    CsSideKeeps(f, w, x);
    StoreIsStill(w, x);
    RsSideKeeps(f, w, x);
  }

  lemma StoreIsStill(w: World, x: World)
    requires StoreStep(w, x)
    ensures RsStill(w, x)
  {
    forall c, p | LateAt(x, c, p) ensures LateAt(w, c, p) {
    }
  }

  lemma PassWritesStep(w: World, info: ReservationInfo)
    requires RecordsOk(w) && info in w.seen
    ensures StoreStep(w, w.(rs := M.Write(w.rs, M.ExpiredRow(info), false)))
  {
    assert ExpiryOk(w, info);
  }

  lemma MarkStep(w: World, cs: bool, row: nat)
    requires row < if cs then |w.cs.outbox| else |w.rs.outbox|
    ensures StoreStep(w, if cs then w.(cs := w.cs.(outbox := MarkRow(w.cs.outbox, row)))
                         else w.(rs := w.rs.(outbox := MarkRow(w.rs.outbox, row))))
  {
  }

  lemma KeysStep(f: Faults, w: World, l: Label)
    requires Enabled(f, w, l) && (l.AddVessel? || l.Refresh? || l.ExpireId? || l.ExpireData?)
    ensures StoreStep(w, Apply(f, w, l))
  {
  }

  lemma PassReadsStep(w: World, r: ReservationId)
    requires RecordsOk(w) && r in w.rs.keys.data
    ensures StoreStep(w, w.(seen := w.seen + {w.rs.keys.data[r].info}))
  {
  }

  predicate OfStore(l: Label) {
    l.AddVessel? || l.Refresh? || l.ExpireId? || l.ExpireData?
    || l.PassReads? || l.PassWrites? || l.MarkCs? || l.MarkRs?
  }

  lemma StoreLabelIs(f: Faults, w: World, l: Label)
    requires RecordsOk(w) && Enabled(f, w, l) && OfStore(l)
    ensures StoreStep(w, Apply(f, w, l))
  {
    if l.PassWrites? {
      PassWritesStep(w, l.info);
    } else if l.PassReads? {
      PassReadsStep(w, l.r);
    } else if l.MarkCs? {
      MarkStep(w, true, l.row);
    } else if l.MarkRs? {
      MarkStep(w, false, l.row);
    } else {
      KeysStep(f, w, l);
    }
  }

  lemma StoreLabelKeeps(f: Faults, w: World, l: Label)
    requires Inv(f, w) && Enabled(f, w, l) && OfStore(l)
    ensures Kept(f, w, Apply(f, w, l))
  {
    StoreLabelIs(f, w, l);
    StoreKeeps(f, w, Apply(f, w, l));
  }

  // ---------- every step, every run ----------

  predicate Confirming(l: Label) {
    l.HandleCaptured? || l.HandleConfirm? || l.HandleDead?
  }

  predicate Releasing(l: Label) {
    l.HandleRelease? || l.HandleExpiredRs?
  }

  predicate OfConsignments(l: Label) {
    l.HandleExpiredCs? || l.HandleFailed? || l.HandleConfirmed?
  }

  predicate Booking(l: Label) {
    l.GrantReservation? || l.CreateRecord? || l.AuthorisePayment? || l.PaymentRefused?
  }

  predicate Serving(l: Label) {
    l.AnnounceAuthorised? || l.AnnounceFails? || l.ServerCancels? || l.ServerVoids?
  }

  lemma ConfirmLabelKeeps(f: Faults, w: World, l: Label)
    requires Inv(f, w) && Enabled(f, w, l) && Confirming(l)
    ensures Kept(f, w, Apply(f, w, l))
  {
    match l
    case HandleCaptured(row, env) => CapturedKeeps(f, w, row, env);
    case HandleConfirm(row, env) => ConfirmKeeps(f, w, row, env);
    case HandleDead(row, env, announceFails) => DeadKeeps(f, w, row, env, announceFails);
  }

  lemma ReleaseLabelKeeps(f: Faults, w: World, l: Label)
    requires Inv(f, w) && Enabled(f, w, l) && Releasing(l)
    ensures Kept(f, w, Apply(f, w, l))
  {
    match l
    case HandleRelease(row, env) => ReleaseRowKeeps(f, w, row, env);
    case HandleExpiredRs(row, env) => ExpiredRowKeeps(f, w, row, env);
  }

  lemma CaptureLabelKeeps(f: Faults, w: World, l: Label)
    requires Inv(f, w) && Enabled(f, w, l) && (l.HandleAuthorised? || l.CaptureCrashes?)
    ensures Kept(f, w, Apply(f, w, l))
  {
    match l
    case HandleAuthorised(row, env) => AuthorisedKeeps(f, w, row, env);
    case CaptureCrashes(row, calls) => CrashKeeps(f, w, row, calls);
  }

  lemma CsLabelKeeps(f: Faults, w: World, l: Label)
    requires Inv(f, w) && Enabled(f, w, l) && OfConsignments(l)
    ensures Kept(f, w, Apply(f, w, l))
  {
    match l
    case HandleExpiredCs(row, getFails, calls, updateFails) =>
      ExpiredCsKeeps(f, w, w.rs.outbox[row].payload.expired.consignment, getFails, calls, updateFails);
    case HandleFailed(fromRs, row, calls, updateFails) =>
      FailedKeeps(f, w, fromRs, row, FailedEvent(w, fromRs, row), calls, updateFails);
    case HandleConfirmed(row, updateFails) => ConfirmedKeeps(f, w, row, updateFails);
  }

  lemma BookingLabelKeeps(f: Faults, w: World, l: Label)
    requires Inv(f, w) && Enabled(f, w, l) && Booking(l)
    ensures Kept(f, w, Apply(f, w, l))
  {
    match l
    case GrantReservation(r, g, ttl, now) => GrantKeeps(f, w, r, g, ttl, now);
    case CreateRecord(r) => CreateKeeps(f, w, r);
    case AuthorisePayment(id, auth) => AuthoriseKeeps(f, w, id, auth);
    case PaymentRefused(id, cancelFails) => RefusedKeeps(f, w, id, cancelFails);
  }

  lemma ServerLabelKeeps(f: Faults, w: World, l: Label)
    requires Inv(f, w) && Enabled(f, w, l) && Serving(l)
    ensures Kept(f, w, Apply(f, w, l))
  {
    match l
    case AnnounceAuthorised(id) => AnnouncedKeeps(f, w, id);
    case AnnounceFails(id) => AnswerKeeps(f, w, id, Undoing(w.asked[id].auth));
    case ServerCancels(id) => CancelsKeeps(f, w, id);
    case ServerVoids(id) => VoidsKeeps(f, w, id);
  }

  lemma StepKeeps(f: Faults, w: World, l: Label)
    requires Inv(f, w) && Enabled(f, w, l)
    ensures Kept(f, w, Apply(f, w, l))
  {
    if Confirming(l) {
      ConfirmLabelKeeps(f, w, l);
    } else if Releasing(l) {
      ReleaseLabelKeeps(f, w, l);
    } else if l.HandleAuthorised? || l.CaptureCrashes? {
      CaptureLabelKeeps(f, w, l);
    } else if OfConsignments(l) {
      CsLabelKeeps(f, w, l);
    } else if Booking(l) {
      BookingLabelKeeps(f, w, l);
    } else if Serving(l) {
      ServerLabelKeeps(f, w, l);
    } else {
      StoreLabelKeeps(f, w, l);
    }
  }

  lemma InitOk(f: Faults)
    ensures Inv(f, INIT)
  {
    assert forall c, p :: !EarlyAt(INIT, c, p) && !LateAt(INIT, c, p);
  }

  /** From a world that keeps the invariant, every run does, and no ended saga goes on. */
  lemma {:induction false} RunsKeep(f: Faults, w: World, ls: seq<Label>)
    requires Inv(f, w) && Execute(f, w, ls).Some?
    ensures Kept(f, w, Execute(f, w, ls).value)
    decreases ls
  {
    if ls != [] {
      var n := |ls| - 1;
      RunsKeep(f, w, ls[..n]);
      StepKeeps(f, Execute(f, w, ls[..n]).value, ls[n]);
    }
  }

  // ---------- what is reachable ----------

  ghost predicate Reachable(f: Faults, w: World) {
    exists ls :: Execute(f, INIT, ls) == Some(w)
  }

  lemma ReachableOk(f: Faults, w: World)
    requires Reachable(f, w)
    ensures Inv(f, w)
  {
    var ls :| Execute(f, INIT, ls) == Some(w);
    InitOk(f);
    RunsKeep(f, INIT, ls);
  }

  lemma StartReachable(f: Faults)
    ensures Reachable(f, INIT)
  {
    assert Execute(f, INIT, []) == Some(INIT);
  }

  lemma StepOn(f: Faults, w: World, l: Label)
    requires Reachable(f, w) && Enabled(f, w, l)
    ensures Reachable(f, Apply(f, w, l))
  {
    var ls :| Execute(f, INIT, ls) == Some(w);
    assert (ls + [l])[..|ls|] == ls;
    assert Execute(f, INIT, ls + [l]) == Some(Apply(f, w, l));
  }

  // ---------- one completed handler run ----------

  lemma AuthorisedRun(f: Faults, w: World, i: nat, e: PaymentAuthorisedEvent, env: N.Env) returns (x: World)
    requires Reachable(f, w) && AuthorisedPending(f, w, i) && w.cs.outbox[i].payload == Authorised(e)
    requires PayCalls(w, env.calls) && NoneLost(env.calls) && !env.writeFails
    ensures Reachable(f, x) && x == w.(cs := N.OnAuthorised(w.cs, e, env), csDone := w.csDone + {i})
  {
    StepOn(f, w, HandleAuthorised(i, env));
    x := DoAuthorised(w, i, env);
  }

  lemma CapturedRun(f: Faults, w: World, i: nat, p: PaymentCapturedEvent, env: M.Env) returns (x: World)
    requires Reachable(f, w) && CsRowIs(w, i, PaymentCapturedTopic) && w.cs.outbox[i].payload == Captured(p)
    requires (i !in w.csDone || f.replayCaptured) && RsEnv(env) && M.Completes(w.rs, M.EventOfCaptured(p), env)
    ensures Reachable(f, x)
    ensures x == w.(rs := M.Process(w.rs, M.EventOfCaptured(p), env), csDone := w.csDone + {i})
  {
    StepOn(f, w, HandleCaptured(i, env));
    x := DoCaptured(w, i, env);
  }

  lemma ConfirmRun(f: Faults, w: World, i: nat, e: CapacityEvent, env: M.Env) returns (x: World)
    requires Reachable(f, w) && RsRowIs(w, i, ConfirmCapacityTopic) && w.rs.outbox[i].payload == Capacity(e)
    requires (i !in w.rsDone || f.replayConfirm) && RsEnv(env) && M.Completes(w.rs, e, env)
    ensures Reachable(f, x) && x == w.(rs := M.Process(w.rs, e, env), rsDone := w.rsDone + {i})
  {
    StepOn(f, w, HandleConfirm(i, env));
    x := DoConfirm(w, i, env);
  }

  lemma DeadRun(f: Faults, w: World, i: nat, e: CapacityEvent, env: M.Env) returns (x: World)
    requires Reachable(f, w) && RsRowIs(w, i, CapacityFailedTopic) && w.rs.outbox[i].payload == Capacity(e)
    requires (i !in w.rsDone || f.replayDead) && RsEnv(env)
    ensures Reachable(f, x) && x == w.(rs := M.ProcessDead(w.rs, e, env, false), rsDone := w.rsDone + {i})
  {
    StepOn(f, w, HandleDead(i, env, false));
    x := DoDead(w, i, env, false);
  }
}
