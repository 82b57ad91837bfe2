/** What a step may leave alone, and which parts of the saga invariant then hold on. */
module SagaFrames {
  import opened Types
  import opened Events
  import opened SagaSystem
  import opened SagaInvariant

  // ---------- nothing is forgotten ----------

  predicate RowsGrow(s: seq<Row>, t: seq<Row>) {
    |s| <= |t| && forall i :: 0 <= i < |s| ==>
      t[i].topic == s[i].topic && t[i].key == s[i].key && t[i].payload == s[i].payload
  }

  /** Grants, authorisations, captures, logged operations and rows stay. */
  ghost predicate Grows(w: World, x: World) {
    && (forall r :: r in w.granted ==> r in x.granted && x.granted[r] == w.granted[r])
    && (forall c, a :: AuthIs(w, c, a) ==> AuthIs(x, c, a))
    && (forall c :: IsAnnounced(w, c) ==> IsAnnounced(x, c))
    && (forall a :: Taken(w, a) ==> Taken(x, a))
    && (forall k :: k in w.rs.ledger.ops ==> k in x.rs.ledger.ops)
    && RowsGrow(w.cs.outbox, x.cs.outbox) && RowsGrow(w.rs.outbox, x.rs.outbox)
    && w.csDone <= x.csDone && w.rsDone <= x.rsDone
  }

  lemma Stays(w: World, x: World)
    requires Grows(w, x)
    ensures forall c :: Committed(w, c) ==> Committed(x, c)
    ensures forall c :: CsFailed(w, c) ==> CsFailed(x, c)
    ensures forall c :: RsFailed(w, c) ==> RsFailed(x, c)
    ensures forall c :: ConfirmedRowOf(w, c) ==> ConfirmedRowOf(x, c)
  {
    forall c | Committed(w, c) ensures Committed(x, c) {
      var i: nat :| CapturedAt(w, i, c);
      assert CapturedAt(x, i, c);
    }
    forall c | CsFailed(w, c) ensures CsFailed(x, c) {
      var i: nat :| CsFailedAt(w, i, c);
      assert CsFailedAt(x, i, c);
    }
    forall c | RsFailed(w, c) ensures RsFailed(x, c) {
      var i: nat :| RsFailedAt(w, i, c);
      assert RsFailedAt(x, i, c);
    }
    forall c | ConfirmedRowOf(w, c) ensures ConfirmedRowOf(x, c) {
      var i: nat :| ConfirmedAt(w, i, c);
      assert ConfirmedAt(x, i, c);
    }
  }

  ghost predicate NewRowsOk(w: World, x: World) {
    && (forall i: nat :: |w.cs.outbox| <= i < |x.cs.outbox| ==> CsRowOk(x, x.cs.outbox[i]))
    && (forall i: nat :: |w.rs.outbox| <= i < |x.rs.outbox| ==> RsRowOk(x, x.rs.outbox[i]))
  }

  ghost predicate NewDoneOk(w: World, x: World) {
    && (forall i: nat :: i in x.csDone && i !in w.csDone ==> i < |w.cs.outbox|)
    && (forall i: nat :: i in x.rsDone && i !in w.rsDone ==> i < |w.rs.outbox|)
    && (forall i: nat, c :: i in x.rsDone && i !in w.rsDone && DeadAt(w, i, c) ==> RsFailed(x, c))
  }

  lemma RowsKeep(w: World, x: World)
    requires RowsOk(w) && Grows(w, x) && NewRowsOk(w, x) && NewDoneOk(w, x)
    ensures RowsOk(x)
  {
    Stays(w, x);
    forall i: nat | i < |x.cs.outbox| ensures CsRowOk(x, x.cs.outbox[i]) {
      if i < |w.cs.outbox| {
        assert CsRowOk(w, w.cs.outbox[i]);
      }
    }
    forall i: nat | i < |x.rs.outbox| ensures RsRowOk(x, x.rs.outbox[i]) {
      if i < |w.rs.outbox| {
        assert RsRowOk(w, w.rs.outbox[i]);
      }
    }
    forall i: nat, c | i in x.rsDone && DeadAt(x, i, c) ensures RsFailed(x, c) {
      assert i < |w.rs.outbox| && DeadAt(w, i, c);
    }
  }

  /** Every consignment keeps the reservation it was made from. */
  predicate SameBookings(w: World, x: World) {
    && w.cs.consignments.Keys == x.cs.consignments.Keys
    && forall id :: id in x.cs.consignments ==>
         && x.cs.consignments[id].reservation == w.cs.consignments[id].reservation
         && x.cs.consignments[id].vessel == w.cs.consignments[id].vessel
         && x.cs.consignments[id].weight == w.cs.consignments[id].weight
         && x.cs.consignments[id].containers == w.cs.consignments[id].containers
  }

  /** No reservation was cached, and what passes have seen was cached before. */
  ghost predicate SameInfos(w: World, x: World) {
    && (forall r :: r in x.rs.keys.data ==> r in w.rs.keys.data && x.rs.keys.data[r] == w.rs.keys.data[r])
    && (forall info :: info in x.seen ==> info in w.seen || ExpiryOk(w, info))
  }

  lemma InfosKeep(w: World, x: World)
    requires RecordsOk(w) && x.granted == w.granted && SameInfos(w, x)
    ensures forall r :: r in x.rs.keys.data ==>
              x.rs.keys.data[r].info.id == r && ExpiryOk(x, x.rs.keys.data[r].info)
    ensures forall info :: info in x.seen ==> ExpiryOk(x, info)
  {
    forall r | r in x.rs.keys.data ensures x.rs.keys.data[r].info.id == r && ExpiryOk(x, x.rs.keys.data[r].info) {
      assert ExpiryOk(w, w.rs.keys.data[r].info);
    }
    forall info | info in x.seen ensures ExpiryOk(x, info) {
      assert ExpiryOk(w, info);
    }
  }

  lemma RecordsKeep(w: World, x: World)
    requires RecordsOk(w) && x.granted == w.granted && SameBookings(w, x) && SameInfos(w, x)
    requires forall id :: id in x.asked ==> id in w.asked || id in w.cs.consignments
    requires forall k :: k in x.rs.ledger.ops ==> k in w.rs.ledger.ops || k.reservation in w.granted
    ensures RecordsOk(x)
  {
    InfosKeep(w, x);
  }

  // ---------- the consignment service has not moved ----------

  ghost predicate CsStill(w: World, x: World) {
    && Grows(w, x) && x.asked == w.asked && |x.cs.outbox| == |w.cs.outbox|
    && x.cs.consignments == w.cs.consignments && x.cs.payments == w.cs.payments
  }

  /** No row was added to the consignment service's outbox. */
  lemma SameCommits(w: World, x: World)
    requires Grows(w, x) && |x.cs.outbox| == |w.cs.outbox|
    ensures forall c :: Committed(x, c) <==> Committed(w, c)
  {
    forall c ensures Committed(x, c) <==> Committed(w, c) {
      assert forall i: nat :: CapturedAt(x, i, c) <==> CapturedAt(w, i, c);
    }
  }

  lemma PaymentsKeep(w: World, x: World)
    requires PaymentsOk(w) && Grows(w, x) && x.cs.payments == w.cs.payments && x.asked == w.asked
    requires forall c :: Committed(x, c) ==> Committed(w, c)
    ensures PaymentsOk(x)
  {
    Stays(w, x);
    forall c, a | AuthIs(x, c, a)
      ensures PaymentOk(x, c, a) && a in x.cs.payments && x.cs.payments[a].consignment == c
    {
      assert AuthIs(w, c, a) && PaymentOk(w, c, a);
    }
  }

  lemma StatusesKeep(w: World, x: World)
    requires StatusesOk(w) && Grows(w, x) && x.cs.consignments == w.cs.consignments
    requires forall c :: Committed(x, c) ==> Committed(w, c)
    ensures StatusesOk(x)
  {
    Stays(w, x);
    forall c | c in x.cs.consignments ensures StatusOk(x, c) {
      assert StatusOk(w, c);
    }
  }

  lemma EarlyKeep(w: World, x: World)
    requires EarlyOk(w) && (forall c, p :: EarlyAt(x, c, p) ==> EarlyAt(w, c, p))
    requires forall c :: Committed(x, c) ==> Committed(w, c)
    ensures EarlyOk(x)
  {
  }

  lemma UncapturedKeep(w: World, x: World)
    requires UncapturedOk(w) && Grows(w, x)
    requires |x.cs.outbox| == |w.cs.outbox| && x.cs.payments == w.cs.payments
    ensures UncapturedOk(x)
  {
    forall i: nat | i < |x.cs.outbox| && x.cs.outbox[i].payload.Authorised? ensures WaitingRowOk(x, i) {
      assert WaitingRowOk(w, i);
    }
    forall i: nat | i < |x.cs.outbox| && x.cs.outbox[i].payload.ConfirmationFailed? ensures FailedRowOk(x, i) {
      assert FailedRowOk(w, i);
    }
  }

  lemma CancelsKeep(w: World, x: World)
    requires CancelsOk(w) && Grows(w, x) && x.cs.consignments == w.cs.consignments
    requires forall c :: Committed(x, c) ==> Committed(w, c)
    ensures CancelsOk(x)
  {
    Stays(w, x);
  }

  ghost predicate CsSideOk(f: Faults, w: World) {
    && PaymentsOk(w) && StatusesOk(w)
    && (!f.replayAuthorised ==> EarlyOk(w)) && (CapturesSound(f) ==> UncapturedOk(w))
    && (ConfirmsOnce(f) ==> CancelsOk(w))
  }

  lemma CsSideKeeps(f: Faults, w: World, x: World)
    requires CsSideOk(f, w) && CsStill(w, x)
    ensures CsSideOk(f, x)
  {
    SameCommits(w, x);
    PaymentsKeep(w, x);
    StatusesKeep(w, x);
    if !f.replayAuthorised {
      StillEarly(w, x);
    }
    if CapturesSound(f) {
      UncapturedKeep(w, x);
    }
    if ConfirmsOnce(f) {
      CancelsKeep(w, x);
    }
  }

  lemma StillEarly(w: World, x: World)
    requires EarlyOk(w) && Grows(w, x) && x.asked == w.asked && |x.cs.outbox| == |w.cs.outbox|
    ensures EarlyOk(x)
  {
    SameCommits(w, x);
    forall c, p | EarlyAt(x, c, p) ensures EarlyAt(w, c, p) {
    }
    EarlyKeep(w, x);
  }

  // ---------- the places from the commit on ----------

  ghost predicate LateWithin(w: World, x: World) {
    forall c, p :: LateAt(x, c, p) ==> LateAt(w, c, p)
  }

  /** All late places are old ones, but for `to` of `c`. */
  ghost predicate LateBut(w: World, x: World, c: ConsignmentId, to: Place) {
    forall d, p :: LateAt(x, d, p) ==> LateAt(w, d, p) || (d == c && p == to)
  }

  lemma LateIsCommitted(w: World, c: ConsignmentId, p: Place)
    requires RowsOk(w) && LateAt(w, c, p)
    ensures Committed(w, c)
  {
    if p.CsRow? {
      assert CapturedAt(w, p.i, c);
    } else {
      assert RsRowOk(w, w.rs.outbox[p.i]);
    }
  }

  /** No saga has moved but to stop. */
  lemma LateKeep(f: Faults, w: World, x: World)
    requires LateOk(f, w) && Grows(w, x) && LateWithin(w, x)
    ensures LateOk(f, x) && Continues(w, x)
  {
    Stays(w, x);
    forall c, p, q | LateAt(x, c, p) && LateAt(x, c, q) ensures OneOrFailed(f, x, c, p, q) {
      assert LateAt(w, c, p) && LateAt(w, c, q);
    }
  }

  /** The saga of `c`, not ended, has places of its own; no other has moved but to stop. */
  lemma LateFor(f: Faults, w: World, x: World, c: ConsignmentId)
    requires LateOk(f, w) && Grows(w, x) && !Ended(w, c)
    requires forall d, p :: d != c && LateAt(x, d, p) ==> LateAt(w, d, p)
    requires forall p, q :: LateAt(x, c, p) && LateAt(x, c, q) ==> OneOrFailed(f, x, c, p, q)
    ensures LateOk(f, x) && Continues(w, x)
  {
    Stays(w, x);
    forall d, p, q | LateAt(x, d, p) && LateAt(x, d, q) ensures OneOrFailed(f, x, d, p, q) {
      if d != c {
        assert LateAt(w, d, p) && LateAt(w, d, q);
      }
    }
  }

  /** The saga of `c` has moved from `from` to `to`, or has stopped. */
  lemma LateMoves(f: Faults, w: World, x: World, c: ConsignmentId, from: Place, to: Place)
    requires LateOk(f, w) && Grows(w, x) && LateAt(w, c, from) && !FailedRow(w, c, from)
    requires LateBut(w, x, c, to) && !LateAt(x, c, from)
    ensures LateOk(f, x) && Continues(w, x)
    ensures forall p :: LateAt(x, c, p) ==> p == to
  {
    forall p | LateAt(x, c, p) ensures p == to {
      assert LateAt(w, c, p) || p == to;
    }
    LateFor(f, w, x, c);
  }

  /** A dead letter handled again has repeated a failure of `c`. */
  lemma LateRepeats(f: Faults, w: World, x: World, c: ConsignmentId, to: Place)
    requires LateOk(f, w) && Grows(w, x) && f.replayDead && RsFailed(w, c)
    requires LateBut(w, x, c, to) && (LateAt(x, c, to) ==> FailedRow(x, c, to))
    ensures LateOk(f, x) && Continues(w, x)
  {
    var i: nat :| RsFailedAt(w, i, c);
    assert LateAt(w, c, RsRow(i));
    forall p | LateAt(x, c, p) ensures FailedRow(x, c, p) {
      assert LateAt(w, c, p) || p == to;
    }
    LateFor(f, w, x, c);
  }

  /** The saga of `c` has just been committed. */
  lemma LateStarts(f: Faults, w: World, x: World, c: ConsignmentId, to: Place)
    requires LateOk(f, w) && RowsOk(w) && Grows(w, x) && !Committed(w, c) && LateBut(w, x, c, to)
    ensures LateOk(f, x) && Continues(w, x)
  {
    forall p | LateAt(w, c, p) ensures false {
      LateIsCommitted(w, c, p);
    }
    LateFor(f, w, x, c);
  }

  // ---------- no confirm was applied ----------

  ghost predicate NoConfirms(w: World, x: World) {
    && (forall r :: IsConfirmed(x, r) ==> IsConfirmed(w, r))
    && (forall c, r :: Owns(x, c, r) && IsConfirmed(x, r) ==> Owns(w, c, r))
  }

  lemma TracesKeep(w: World, x: World)
    requires TracesOk(w) && Grows(w, x) && NoConfirms(w, x)
    ensures TracesOk(x)
  {
    Stays(w, x);
  }

  /** The saga of `c`, if it has a new place, has no confirm applied. */
  lemma ConfirmsKeep(w: World, x: World, c: ConsignmentId, to: Place)
    requires ConfirmsOk(w) && Grows(w, x) && NoConfirms(w, x) && LateBut(w, x, c, to)
    requires LateAt(x, c, to) ==> forall r :: Owns(w, c, r) ==> !IsConfirmed(w, r)
    ensures ConfirmsOk(x)
  {
    forall d, r, p | Owns(x, d, r) && IsConfirmed(x, r) && LateAt(x, d, p) ensures IsVerdict(x, p) {
      assert Owns(w, d, r) && LateAt(w, d, p);
      assert IsVerdict(w, p);
    }
  }

  /** No gate was opened or closed but by keys vanishing. */
  lemma GatesKeep(w: World, x: World)
    requires GatesOk(w)
    requires forall r :: Held(x, r) ==> Held(w, r)
    requires forall r :: Undone(x, r) ==> Undone(w, r)
    requires x.rs.keys.data.Keys <= w.rs.keys.data.Keys && x.rs.ledger.ops.Keys == w.rs.ledger.ops.Keys
    ensures GatesOk(x)
  {
    forall r ensures GateOk(x, r) {
      assert GateOk(w, r);
    }
  }

  /** The reservation service's saga rows are as they were. */
  lemma SameGateRows(w: World, x: World)
    requires Grows(w, x)
    requires forall i: nat :: |w.rs.outbox| <= i < |x.rs.outbox| ==> !x.rs.outbox[i].payload.Capacity?
    ensures forall r :: Held(x, r) ==> Held(w, r)
    ensures forall r :: Undone(x, r) ==> Undone(w, r)
  {
    forall r | Held(x, r) ensures Held(w, r) {
      var i: nat :| HeldRow(x, i, r);
      assert HeldRow(w, i, r);
    }
    forall r | Undone(x, r) ensures Undone(w, r) {
      var i: nat :| UndoRow(x, i, r);
      assert UndoRow(w, i, r);
    }
  }

  /** The reservation service's side of the invariant. */
  ghost predicate RsSideOk(f: Faults, w: World) {
    TracesOk(w) && (ConfirmsOnce(f) ==> LateOk(f, w) && GatesOk(w) && ConfirmsOk(w))
  }

  /** No saga has moved but to stop, no operation was applied, and no gate row was added. */
  ghost predicate RsStill(w: World, x: World) {
    && Grows(w, x) && LateWithin(w, x) && NoConfirms(w, x)
    && (forall i: nat :: |w.rs.outbox| <= i < |x.rs.outbox| ==> !x.rs.outbox[i].payload.Capacity?)
    && x.rs.keys.data.Keys <= w.rs.keys.data.Keys && x.rs.ledger.ops.Keys == w.rs.ledger.ops.Keys
  }

  lemma RsSideKeeps(f: Faults, w: World, x: World)
    requires RsSideOk(f, w) && RsStill(w, x)
    ensures RsSideOk(f, x) && (ConfirmsOnce(f) ==> Continues(w, x))
  {
    TracesKeep(w, x);
    if ConfirmsOnce(f) {
      LateKeep(f, w, x);
      SameGateRows(w, x);
      GatesKeep(w, x);
      StillConfirms(w, x);
    }
  }

  lemma StillConfirms(w: World, x: World)
    requires ConfirmsOk(w) && Grows(w, x) && NoConfirms(w, x) && LateWithin(w, x)
    ensures ConfirmsOk(x)
  {
    forall d, r, p | Owns(x, d, r) && IsConfirmed(x, r) && LateAt(x, d, p) ensures IsVerdict(x, p) {
      assert Owns(w, d, r) && LateAt(w, d, p);
      assert IsVerdict(w, p);
    }
  }

  /** The invariant is its two sides, the records and the rows. */
  lemma Sides(f: Faults, w: World)
    ensures Inv(f, w) <==> RecordsOk(w) && RowsOk(w) && CsSideOk(f, w) && RsSideOk(f, w)
  {
  }
}
