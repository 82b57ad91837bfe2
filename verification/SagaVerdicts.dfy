/** Payment, capacity and status agree in every run of the saga that keeps to its assumptions. */
module SagaVerdicts {
  import opened Types
  import opened Events
  import P = Payments
  import N = Consignments
  import opened SagaSystem
  import opened SagaInvariant
  import opened SagaSteps
  import opened SagaRuns

  // ---------- verdicts ----------

  /** A verdict on a consignment: confirmed, or failed at either service. */
  predicate VerdictAt(w: World, c: ConsignmentId, p: Place) {
    match p
    case Server => false
    case CsRow(i) => CsFailedAt(w, i, c)
    case RsRow(i) => ConfirmedAt(w, i, c) || RsFailedAt(w, i, c)
  }

  /** At most one verdict was ever written for each consignment. Rows are never deleted, so two
      verdicts at any two times would be two rows now. */
  ghost predicate OneVerdict(w: World) {
    forall c, p, q :: VerdictAt(w, c, p) && VerdictAt(w, c, q) ==> p == q
  }

  /** A failure at the consignment service precludes the commit, and a verdict of the
      reservation service goes back to it. */
  lemma VerdictSides(w: World, c: ConsignmentId, p: Place)
    requires RowsOk(w) && EarlyOk(w) && VerdictAt(w, c, p)
    ensures if Committed(w, c) then LateAt(w, c, p) else EarlyAt(w, c, p)
  {
    if p.CsRow? {
      assert EarlyAt(w, c, p);
    } else {
      assert RsRowOk(w, w.rs.outbox[p.i]);
    }
  }

  lemma VerdictsMeet(f: Faults, w: World, c: ConsignmentId, p: Place, q: Place)
    requires RowsOk(w) && EarlyOk(w) && LateOk(f, w) && !f.replayDead && VerdictAt(w, c, p) && VerdictAt(w, c, q)
    ensures p == q
  {
    VerdictSides(w, c, p);
    VerdictSides(w, c, q);
    assert Committed(w, c) ==> OneOrFailed(f, w, c, p, q);
  }

  lemma VerdictUnique(f: Faults, w: World)
    requires Reachable(f, w) && ConfirmsOnce(f) && !f.replayDead
    ensures OneVerdict(w)
  {
    ReachableOk(f, w);
    forall c, p, q | VerdictAt(w, c, p) && VerdictAt(w, c, q) ensures p == q {
      VerdictsMeet(f, w, c, p, q);
    }
  }

  // ---------- confirmed and cancelled ----------

  /** Some payment of the consignment has this status. */
  predicate PaymentStands(w: World, c: ConsignmentId, s: P.Status) {
    exists a :: a in w.cs.payments && w.cs.payments[a].consignment == c && w.cs.payments[a].status == s
  }

  lemma SamePayments(w: World, x: World, c: ConsignmentId)
    requires x.cs.payments == w.cs.payments
    ensures forall s :: PaymentStands(x, c, s) <==> PaymentStands(w, c, s)
  {
  }

  lemma OnePayment(x: World, c: ConsignmentId, a: AuthId)
    requires AccountsOk(x) && a in x.cs.payments && x.cs.payments[a].consignment == c
    ensures forall s :: PaymentStands(x, c, s) <==> x.cs.payments[a].status == s
  {
    forall b | b in x.cs.payments && x.cs.payments[b].consignment == c ensures b == a {
      assert AuthIs(x, c, b) && AuthIs(x, c, a);
    }
  }

  /** The payment of a committed consignment stands captured unless its saga failed. */
  lemma CommittedPays(w: World, c: ConsignmentId)
    requires RowsOk(w) && PaymentsOk(w) && Committed(w, c) && !CsFailed(w, c) && !RsFailed(w, c)
    ensures forall s :: PaymentStands(w, c, s) <==> s == P.StatusCaptured
  {
    CommittedIsAnnounced(w, c);
    var a := w.asked[c].auth;
    assert AuthIs(w, c, a) && PaymentOk(w, c, a);
    OnePayment(w, c, a);
  }

  lemma CommittedNotCsFailed(w: World, c: ConsignmentId)
    requires EarlyOk(w) && Committed(w, c)
    ensures !CsFailed(w, c)
  {
    if i: nat :| CsFailedAt(w, i, c) {
      assert EarlyAt(w, c, CsRow(i));
    }
  }

  /** Confirmed status: the consignment is paid, its capacity is confirmed at the vessel and
      was not released. */
  ghost predicate ConfirmedAgree(w: World) {
    forall c :: c in w.cs.consignments && w.cs.consignments[c].status == N.ConfirmedStatus ==>
      && IsConfirmed(w, w.cs.consignments[c].reservation) && !IsReleased(w, w.cs.consignments[c].reservation)
      && PaymentStands(w, c, P.StatusCaptured)
  }

  lemma ConfirmedNotFailed(f: Faults, w: World, c: ConsignmentId, i: nat, j: nat)
    requires LateOk(f, w) && ConfirmedAt(w, i, c)
    ensures !RsFailedAt(w, j, c)
  {
    assert LateAt(w, c, RsRow(i)) && !FailedRow(w, c, RsRow(i));
    assert RsFailedAt(w, j, c) ==> LateAt(w, c, RsRow(j)) && OneOrFailed(f, w, c, RsRow(i), RsRow(j));
  }

  lemma ConfirmedVerdict(f: Faults, w: World, c: ConsignmentId)
    requires RowsOk(w) && EarlyOk(w) && LateOk(f, w) && ConfirmedRowOf(w, c)
    ensures Committed(w, c) && !CsFailed(w, c) && !RsFailed(w, c)
  {
    var i: nat :| ConfirmedAt(w, i, c);
    assert RsRowOk(w, w.rs.outbox[i]);
    CommittedNotCsFailed(w, c);
    forall j: nat ensures !RsFailedAt(w, j, c) {
      ConfirmedNotFailed(f, w, c, i, j);
    }
  }

  lemma ConfirmedAgrees(f: Faults, w: World)
    requires Reachable(f, w) && ConfirmsOnce(f)
    ensures ConfirmedAgree(w)
  {
    ReachableOk(f, w);
    forall c | c in w.cs.consignments && w.cs.consignments[c].status == N.ConfirmedStatus
      ensures IsConfirmed(w, w.cs.consignments[c].reservation) && !IsReleased(w, w.cs.consignments[c].reservation)
      ensures PaymentStands(w, c, P.StatusCaptured)
    {
      var r := w.cs.consignments[c].reservation;
      assert StatusOk(w, c) && Owns(w, c, r);
      var i: nat :| ConfirmedAt(w, i, c);
      assert RsRowOk(w, w.rs.outbox[i]);
      assert GateOk(w, r);
      ConfirmedVerdict(f, w, c);
      CommittedPays(w, c);
    }
  }

  /** Cancelled status, or a payment refunded or voided: no capacity is confirmed at the vessel. */
  ghost predicate CancelledAgree(w: World) {
    forall c :: c in w.cs.consignments && GivenBack(w, c) ==> !IsConfirmed(w, w.cs.consignments[c].reservation)
  }

  predicate GivenBack(w: World, c: ConsignmentId)
    requires c in w.cs.consignments
  {
    w.cs.consignments[c].status == N.Cancelled
    || PaymentStands(w, c, P.StatusRefunded) || PaymentStands(w, c, P.StatusVoided)
  }

  lemma CancelledAgrees(f: Faults, w: World)
    requires Reachable(f, w) && ConfirmsOnce(f)
    ensures CancelledAgree(w)
  {
    ReachableOk(f, w);
    forall c | c in w.cs.consignments && GivenBack(w, c)
      ensures !IsConfirmed(w, w.cs.consignments[c].reservation)
    {
      var r := w.cs.consignments[c].reservation;
      assert Owns(w, c, r);
      if Committed(w, c) {
        CommittedNotCsFailed(w, c);
        if !RsFailed(w, c) {
          CommittedPays(w, c);
        }
        var i: nat :| RsFailedAt(w, i, c);
        assert LateAt(w, c, RsRow(i)) && !IsVerdict(w, RsRow(i));
      }
    }
  }

  // ---------- compensation ----------

  /** A consignment's failure event says how its payment stands: captured, under the capture
      id it names, or not captured, under the authorisation it names. */
  ghost predicate CompensationMatches(w: World) {
    && (forall i: nat :: i < |w.cs.outbox| && w.cs.outbox[i].payload.ConfirmationFailed? ==>
          EventMatches(w, w.cs.outbox[i].payload.failed))
    && (forall i: nat :: i < |w.rs.outbox| && w.rs.outbox[i].payload.ConfirmationFailed? ==>
          EventMatches(w, w.rs.outbox[i].payload.failed))
  }

  ghost predicate EventMatches(w: World, e: ConfirmationFailedEvent) {
    exists a :: a in w.cs.payments && PaymentMatches(w, e, a)
  }

  predicate PaymentMatches(w: World, e: ConfirmationFailedEvent, a: AuthId)
    requires a in w.cs.payments
  {
    && w.cs.payments[a].consignment == e.consignment
    && (e.paymentCaptured <==> Taken(w, a))
    && (if e.paymentCaptured then w.cs.payments[a].captureId == e.payment else e.auth == a)
  }

  /** Whatever the faults, a failure event that claims a capture is right, and the only wrong
      one denies a capture that was made; it still names the right authorisation. */
  lemma OnlyDenials(f: Faults, w: World, fromRs: bool, i: nat, e: ConfirmationFailedEvent)
    requires Reachable(f, w) && FailedRowIs(w, fromRs, i, e)
    ensures EventMatches(w, e)
            || (!e.paymentCaptured && Taken(w, e.auth) && w.cs.payments[e.auth].consignment == e.consignment)
  {
    ReachableOk(f, w);
    var a := FailedIs(w, fromRs, i, e);
    if e.paymentCaptured || !Taken(w, a) {
      assert PaymentMatches(w, e, a);
    }
  }

  lemma SoundMatches(w: World, fromRs: bool, i: nat, e: ConfirmationFailedEvent)
    requires Base(w) && UncapturedOk(w) && FailedRowIs(w, fromRs, i, e)
    ensures EventMatches(w, e)
  {
    var a := FailedIs(w, fromRs, i, e);
    assert !fromRs ==> FailedRowOk(w, i);
    assert PaymentMatches(w, e, a);
  }

  lemma MatchesWithoutFaults(f: Faults, w: World)
    requires Reachable(f, w) && CapturesSound(f)
    ensures CompensationMatches(w)
  {
    ReachableOk(f, w);
    forall i: nat | i < |w.cs.outbox| && w.cs.outbox[i].payload.ConfirmationFailed?
      ensures EventMatches(w, w.cs.outbox[i].payload.failed)
    {
      SoundMatches(w, false, i, w.cs.outbox[i].payload.failed);
    }
    forall i: nat | i < |w.rs.outbox| && w.rs.outbox[i].payload.ConfirmationFailed?
      ensures EventMatches(w, w.rs.outbox[i].payload.failed)
    {
      SoundMatches(w, true, i, w.rs.outbox[i].payload.failed);
    }
  }

  /** Whether some attempt of the handler's payment call reaches the payment service. */
  predicate Reaches(calls: seq<N.PayRpc>) {
    exists i :: 0 <= i < |calls| && calls[i].net.Answered?
  }

  lemma UndoEnds(w: World, fromRs: bool, row: nat, e: ConfirmationFailedEvent, calls: seq<N.PayRpc>)
    requires Base(w) && UncapturedOk(w) && FailedRowIs(w, fromRs, row, e) && PayCalls(w, calls) && Reaches(calls)
    ensures var x := w.(cs := w.cs.(payments := N.AfterCalls(w.cs.payments, N.UndoAsk(e), calls)));
            && (PaymentStands(x, e.consignment, P.StatusRefunded) || PaymentStands(x, e.consignment, P.StatusVoided))
            && !PaymentStands(x, e.consignment, P.StatusCaptured)
            && !PaymentStands(x, e.consignment, P.StatusAuthorised)
  {
    var a := FailedIs(w, fromRs, row, e);
    assert !fromRs ==> FailedRowOk(w, row);
    UndoIs(w, e.consignment, a, N.UndoAsk(e), calls);
    var x := w.(cs := w.cs.(payments := N.AfterCalls(w.cs.payments, N.UndoAsk(e), calls)));
    BackAccounts(w, x, a);
    OnePayment(x, e.consignment, a);
  }

  lemma HandlingPays(f: Faults, w: World, fromRs: bool, row: nat, calls: seq<N.PayRpc>, updateFails: bool)
    requires Enabled(f, w, HandleFailed(fromRs, row, calls, updateFails))
    ensures FailedRowIs(w, fromRs, row, FailedEvent(w, fromRs, row)) && PayCalls(w, calls)
    ensures Apply(f, w, HandleFailed(fromRs, row, calls, updateFails)).cs.payments
            == N.AfterCalls(w.cs.payments, N.UndoAsk(FailedEvent(w, fromRs, row)), calls)
  {
  }

  /** Handling a failure event, with a payment call that reaches the payment service, leaves
      no payment of the consignment captured or authorised. */
  lemma CompensationEnds(f: Faults, w: World, fromRs: bool, row: nat, calls: seq<N.PayRpc>, updateFails: bool)
    requires Reachable(f, w) && CapturesSound(f) && Reaches(calls)
    requires Enabled(f, w, HandleFailed(fromRs, row, calls, updateFails))
    ensures var (x, c) := (Apply(f, w, HandleFailed(fromRs, row, calls, updateFails)),
        FailedEvent(w, fromRs, row).consignment);
            && (PaymentStands(x, c, P.StatusRefunded) || PaymentStands(x, c, P.StatusVoided))
            && !PaymentStands(x, c, P.StatusCaptured) && !PaymentStands(x, c, P.StatusAuthorised)
  {
    ReachableOk(f, w);
    HandlingPays(f, w, fromRs, row, calls, updateFails);
    var e := FailedEvent(w, fromRs, row);
    UndoEnds(w, fromRs, row, e, calls);
    SamePayments(w.(cs := w.cs.(payments := N.AfterCalls(w.cs.payments, N.UndoAsk(e), calls))),
                 Apply(f, w, HandleFailed(fromRs, row, calls, updateFails)), e.consignment);
  }
}
