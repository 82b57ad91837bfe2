/** The consignment service's other handlers keep the invariant: payments go back, statuses are set. */
module SagaSteps {
  import opened Types
  import opened Events
  import P = Payments
  import N = Consignments
  import opened SagaSystem
  import opened SagaHandlers
  import opened SagaInvariant
  import opened SagaFrames
  import opened SagaCapture

  // ---------- the undoing of a payment ----------

  /** The payment `a` went back: from captured to refunded, or from authorised to voided. */
  predicate GoesBack(w: World, x: World, a: AuthId) {
    || x.cs.payments == w.cs.payments
    || (StatusIs(w, a, P.StatusCaptured)
        && x.cs.payments == w.cs.payments[a := w.cs.payments[a].(status := P.StatusRefunded)])
    || (StatusIs(w, a, P.StatusAuthorised)
        && x.cs.payments == w.cs.payments[a := w.cs.payments[a].(status := P.StatusVoided)])
  }

  lemma BackAccounts(w: World, x: World, a: AuthId)
    requires AccountsOk(w) && GoesBack(w, x, a) && x.asked == w.asked
    ensures AccountsOk(x)
    ensures forall b :: Taken(x, b) <==> Taken(w, b)
  {
    forall b | b in x.cs.payments
      ensures AuthIs(x, x.cs.payments[b].consignment, b)
      ensures x.cs.payments[b].captureId == if Taken(x, b) then x.cs.payments[b].consignment else ""
    {
      assert b in w.cs.payments;
      assert AuthIs(w, w.cs.payments[b].consignment, b);
    }
    forall d, b | AuthIs(x, d, b) ensures b in x.cs.payments && x.cs.payments[b].consignment == d {
      assert AuthIs(w, d, b);
    }
  }

  /** A payment goes back only for a consignment whose saga has failed. */
  ghost predicate MayGoBack(w: World, x: World, c: ConsignmentId, a: AuthId) {
    && AuthIs(w, c, a) && GoesBack(w, x, a) && x == w.(cs := w.cs.(payments := x.cs.payments))
    && !w.asked[c].Paying?
    && (StatusIs(x, a, P.StatusRefunded) ==> CsFailed(w, c) || RsFailed(w, c))
    && (StatusIs(x, a, P.StatusVoided) ==> w.asked[c].Undoing? || CsFailed(w, c))
  }

  lemma BackPayments(w: World, x: World, c: ConsignmentId, a: AuthId)
    requires PaymentsOk(w) && MayGoBack(w, x, c, a)
    ensures PaymentsOk(x) && PaymentsOnly(w, x)
  {
    BackAccounts(w, x, a);
    PaymentsOnlyIsStill(w, x);
    SameCommits(w, x);
    Stays(w, x);
    forall d, b | AuthIs(x, d, b) ensures PaymentOk(x, d, b) {
      assert AuthIs(w, d, b) && PaymentOk(w, d, b);
      if b == a {
        OneOwner(w, c, d, a);
      }
    }
  }

  lemma BackUncaptured(w: World, x: World, c: ConsignmentId, a: AuthId)
    requires UncapturedOk(w) && AccountsOk(w) && RowsOk(w) && MayGoBack(w, x, c, a)
    requires forall i: nat :: AuthorisedAt(w, i, c) ==> i in w.csDone
    ensures UncapturedOk(x)
  {
    BackAccounts(w, x, a);
    forall i: nat | i < |x.cs.outbox| && x.cs.outbox[i].payload.Authorised? ensures WaitingRowOk(x, i) {
      var e := w.cs.outbox[i].payload.authorised;
      assert CsRowOk(w, w.cs.outbox[i]) && WaitingRowOk(w, i);
      assert AuthorisedAt(w, i, e.consignment);
      if e.auth == a {
        OneOwner(w, c, e.consignment, a);
      }
    }
    forall i: nat | i < |x.cs.outbox| && x.cs.outbox[i].payload.ConfirmationFailed? ensures FailedRowOk(x, i) {
      assert FailedRowOk(w, i);
    }
  }

  lemma BackKeeps(f: Faults, w: World, x: World, c: ConsignmentId, a: AuthId)
    requires Inv(f, w) && MayGoBack(w, x, c, a)
    requires !f.replayAuthorised ==> forall i: nat :: AuthorisedAt(w, i, c) ==> i in w.csDone
    ensures Kept(f, w, x) && Grows(w, x)
  {
    BackPayments(w, x, c, a);
    OnlyPayments(f, w, x);
    if CapturesSound(f) {
      BackUncaptured(w, x, c, a);
    }
  }

  /** The payments once an undo of `a` has taken effect. */
  function UndoneTable(w: World, a: AuthId, ask: N.Ask): P.Table {
    if ask.AskVoid? && StatusIs(w, a, P.StatusAuthorised) then
      w.cs.payments[a := w.cs.payments[a].(status := P.StatusVoided)]
    else if ask.AskRefund? && StatusIs(w, a, P.StatusCaptured) then
      w.cs.payments[a := w.cs.payments[a].(status := P.StatusRefunded)]
    else w.cs.payments
  }

  predicate UndoesIt(w: World, c: ConsignmentId, a: AuthId, ask: N.Ask) {
    ask == N.AskVoid(a) || (Taken(w, a) && ask == N.AskRefund(c, c))
  }

  /** A refund's scan, in any order, finds the consignment's own payment. */
  lemma RefundFinds(w: World, c: ConsignmentId, a: AuthId, order: seq<AuthId>)
    requires AccountsOk(w) && AuthIs(w, c, a) && c != "" && Taken(w, a) && P.Covers(w.cs.payments, order)
    ensures P.Scan(w.cs.payments, c, order) == Some(a)
  {
    var t := w.cs.payments;
    var found := P.Scan(t, c, order);
    assert P.Matches(t, c, a) && a in order;
    assert AuthIs(w, t[found.value].consignment, found.value);
  }

  lemma RefundSettles(w: World, c: ConsignmentId, a: AuthId, call: N.PayRpc)
    requires AccountsOk(w) && AuthIs(w, c, a) && c != "" && P.Covers(w.cs.payments, call.order) && Taken(w, a)
    ensures var ask := N.AskRefund(c, c);
            var t, u, p := w.cs.payments, UndoneTable(w, a, ask), N.CallOf(ask, call);
            Settles(t, u, p, c) && P.Answer(t, p).Done? && P.Answer(u, p).Done?
  {
    var ask := N.AskRefund(c, c);
    var x := w.(cs := w.cs.(payments := UndoneTable(w, a, ask)));
    assert GoesBack(w, x, a);
    BackAccounts(w, x, a);
    RefundFinds(w, c, a, call.order);
    RefundFinds(x, c, a, call.order);
    P.RefundIs(w.cs.payments, c, c, call.order, Some(a));
    P.RefundIs(x.cs.payments, c, c, call.order, Some(a));
  }

  lemma VoidSettles(w: World, c: ConsignmentId, a: AuthId, call: N.PayRpc)
    requires AccountsOk(w) && AuthIs(w, c, a)
    ensures var ask := N.AskVoid(a);
            var t, u, p := w.cs.payments, UndoneTable(w, a, ask), N.CallOf(ask, call);
            Settles(t, u, p, "") && (P.Answer(t, p).Done? <==> !Taken(w, a)) && (P.Answer(u, p).Done? <==> !Taken(w, a))
  {
  }

  lemma UndoSettles(w: World, c: ConsignmentId, a: AuthId, ask: N.Ask, call: N.PayRpc)
    requires AccountsOk(w) && AuthIs(w, c, a) && c != "" && P.Covers(w.cs.payments, call.order)
    requires UndoesIt(w, c, a, ask)
    ensures var t, u := w.cs.payments, UndoneTable(w, a, ask);
            && Settles(t, u, N.CallOf(ask, call), if ask.AskVoid? then "" else c)
            && (P.Answer(t, N.CallOf(ask, call)).Done? <==> ask.AskRefund? || !Taken(w, a))
            && (P.Answer(u, N.CallOf(ask, call)).Done? <==> ask.AskRefund? || !Taken(w, a))
  {
    if ask.AskRefund? {
      RefundSettles(w, c, a, call);
    } else {
      VoidSettles(w, c, a, call);
    }
  }

  /** A refund of the consignment's payment, or a void of its authorisation, moves that
      payment at most, whatever is lost, and does so if it succeeds or gets through at all. */
  lemma UndoIs(w: World, c: ConsignmentId, a: AuthId, ask: N.Ask, calls: seq<N.PayRpc>)
    requires AccountsOk(w) && AuthIs(w, c, a) && c != "" && PayCalls(w, calls) && UndoesIt(w, c, a, ask)
    ensures var x := w.(cs := w.cs.(payments := N.AfterCalls(w.cs.payments, ask, calls)));
            && GoesBack(w, x, a)
            && (ask.AskVoid? ==> StatusIs(x, a, P.StatusRefunded) ==> StatusIs(w, a, P.StatusRefunded))
            && (ask.AskRefund? ==> StatusIs(x, a, P.StatusVoided) ==> StatusIs(w, a, P.StatusVoided))
            && (N.CallsReply(w.cs.payments, ask, calls).Some? ==>
                  StatusIs(x, a, if ask.AskVoid? then P.StatusVoided else P.StatusRefunded))
            && ((ask.AskRefund? || !Taken(w, a)) && (exists i :: 0 <= i < |calls| && calls[i].net.Answered?) ==>
                  N.CallsReply(w.cs.payments, ask, calls).Some?)
  {
    var t, u := w.cs.payments, UndoneTable(w, a, ask);
    forall call | call in calls
      ensures Settles(t, u, N.CallOf(ask, call), if ask.AskVoid? then "" else c)
      ensures N.RpcOk(t, ask, call) <==> call.net.Answered? && (ask.AskRefund? || !Taken(w, a))
      ensures N.RpcOk(u, ask, call) <==> call.net.Answered? && (ask.AskRefund? || !Taken(w, a))
    {
      UndoSettles(w, c, a, ask, call);
    }
    PayCallsSettle(t, u, ask, calls, if ask.AskVoid? then "" else c);
  }

  // ---------- the statuses ----------

  /** Only records have changed. */
  ghost predicate RecordsOnly(w: World, x: World) {
    x == w.(cs := w.cs.(consignments := x.cs.consignments))
  }

  lemma RecordsOnlyIsStill(w: World, x: World)
    requires RecordsOnly(w, x)
    ensures Grows(w, x) && RsStill(w, x)
    ensures forall c :: Committed(x, c) <==> Committed(w, c)
  {
    SameCommits(w, x);
  }

  lemma RecordsOnlyRows(w: World, x: World)
    requires RowsOk(w) && RecordsOnly(w, x)
    ensures RowsOk(x)
  {
    RecordsOnlyIsStill(w, x);
    RowsKeep(w, x);
  }

  /** All of the invariant but the records and the statuses. */
  lemma RecordsOnlyKeeps(f: Faults, w: World, x: World)
    requires Inv(f, w) && RecordsOnly(w, x) && RecordsOk(x) && StatusesOk(x) && (ConfirmsOnce(f) ==> CancelsOk(x))
    ensures Kept(f, w, x)
  {
    RecordsOnlyRows(w, x);
    RecordsOnlyIsStill(w, x);
    RsSideKeeps(f, w, x);
    PaymentsKeep(w, x);
    if !f.replayAuthorised {
      StillEarly(w, x);
    }
    if CapturesSound(f) {
      UncapturedKeep(w, x);
    }
  }

  lemma StatusKeeps(f: Faults, w: World, id: ConsignmentId, status: N.Status, fails: bool)
    requires Inv(f, w) && (status == N.Cancelled || status == N.ConfirmedStatus)
    requires ConfirmsOnce(f) && status == N.Cancelled && Committed(w, id) ==> RsFailed(w, id)
    requires status == N.ConfirmedStatus ==> ConfirmedRowOf(w, id)
    ensures Kept(f, w, w.(cs := N.SetStatus(w.cs, id, status, fails)))
  {
    var x := w.(cs := N.SetStatus(w.cs, id, status, fails));
    StatusRecords(w, id, status, fails);
    StatusStatuses(w, id, status, fails);
    if ConfirmsOnce(f) {
      StatusCancels(w, id, status, fails);
    }
    RecordsOnlyKeeps(f, w, x);
  }

  lemma StatusRecords(w: World, id: ConsignmentId, status: N.Status, fails: bool)
    requires RecordsOk(w)
    ensures RecordsOk(w.(cs := N.SetStatus(w.cs, id, status, fails)))
  {
    RecordsKeep(w, w.(cs := N.SetStatus(w.cs, id, status, fails)));
  }

  lemma StatusStatuses(w: World, id: ConsignmentId, status: N.Status, fails: bool)
    requires StatusesOk(w) && (status == N.Cancelled || status == N.ConfirmedStatus)
    requires status == N.ConfirmedStatus ==> ConfirmedRowOf(w, id)
    ensures StatusesOk(w.(cs := N.SetStatus(w.cs, id, status, fails)))
  {
    var x := w.(cs := N.SetStatus(w.cs, id, status, fails));
    RecordsOnlyIsStill(w, x);
    Stays(w, x);
    forall c | c in x.cs.consignments ensures StatusOk(x, c) {
      assert StatusOk(w, c);
    }
  }

  lemma StatusCancels(w: World, id: ConsignmentId, status: N.Status, fails: bool)
    requires CancelsOk(w) && (status == N.Cancelled && Committed(w, id) ==> RsFailed(w, id))
    ensures CancelsOk(w.(cs := N.SetStatus(w.cs, id, status, fails)))
  {
    var x := w.(cs := N.SetStatus(w.cs, id, status, fails));
    RecordsOnlyIsStill(w, x);
    Stays(w, x);
  }

  // ---------- the handlers ----------

  lemma AskedIsNamed(w: World, c: ConsignmentId)
    requires RecordsOk(w) && c in w.asked
    ensures c != ""
  {
    assert Owns(w, c, w.cs.consignments[c].reservation);
  }

  lemma CommittedIsAnnounced(w: World, c: ConsignmentId)
    requires RowsOk(w) && Committed(w, c)
    ensures IsAnnounced(w, c)
  {
    var i: nat :| CapturedAt(w, i, c);
    assert CsRowOk(w, w.cs.outbox[i]);
  }

  predicate FailedRowIs(w: World, fromRs: bool, i: nat, e: ConfirmationFailedEvent) {
    if fromRs then i < |w.rs.outbox| && w.rs.outbox[i].payload == ConfirmationFailed(e)
    else i < |w.cs.outbox| && w.cs.outbox[i].payload == ConfirmationFailed(e)
  }

  /** The payment a failure event is about. */
  lemma FailedIs(w: World, fromRs: bool, i: nat, e: ConfirmationFailedEvent) returns (a: AuthId)
    requires RecordsOk(w) && RowsOk(w) && PaymentsOk(w) && FailedRowIs(w, fromRs, i, e)
    ensures AuthIs(w, e.consignment, a) && IsAnnounced(w, e.consignment) && e.consignment != ""
    ensures e.paymentCaptured ==> Taken(w, a) && e.payment == e.consignment
    ensures !e.paymentCaptured ==> e.auth == a && !fromRs
    ensures if fromRs then RsFailed(w, e.consignment) && Committed(w, e.consignment) else CsFailed(w, e.consignment)
  {
    var c := e.consignment;
    if fromRs {
      assert RsRowOk(w, w.rs.outbox[i]) && RsFailedAt(w, i, c);
      CommittedIsAnnounced(w, c);
    } else {
      assert CsRowOk(w, w.cs.outbox[i]) && CsFailedAt(w, i, c);
    }
    AskedIsNamed(w, c);
    a := w.asked[c].auth;
    assert AuthIs(w, c, a) && PaymentOk(w, c, a);
  }

  /** While authorised rows run once, the saga has left them all behind at its failure. */
  lemma FailedIsOver(w: World, fromRs: bool, i: nat, e: ConfirmationFailedEvent)
    requires RowsOk(w) && EarlyOk(w) && FailedRowIs(w, fromRs, i, e)
    ensures forall j: nat :: AuthorisedAt(w, j, e.consignment) ==> j in w.csDone
    ensures Committed(w, e.consignment) <==> fromRs
  {
    var c := e.consignment;
    if fromRs {
      assert RsRowOk(w, w.rs.outbox[i]);
    } else {
      assert EarlyAt(w, c, CsRow(i));
    }
    forall j: nat | AuthorisedAt(w, j, c) ensures j in w.csDone {
      assert j in w.csDone || EarlyAt(w, c, CsRow(j));
    }
  }

  lemma FailedKeeps(f: Faults, w: World, fromRs: bool, i: nat, e: ConfirmationFailedEvent, calls: seq<N.PayRpc>,
                    updateFails: bool)
    requires Inv(f, w) && PayCalls(w, calls) && FailedRowIs(w, fromRs, i, e)
    ensures Kept(f, w, w.(cs := N.OnFailed(w.cs, e, calls, updateFails)))
  {
    var c := e.consignment;
    var y := w.(cs := w.cs.(payments := N.AfterCalls(w.cs.payments, N.UndoAsk(e), calls)));
    var a := FailedGoesBack(w, y, fromRs, i, e, calls);
    if !f.replayAuthorised {
      FailedIsOver(w, fromRs, i, e);
    }
    BackKeeps(f, w, y, c, a);
    SameCommits(w, y);
    Stays(w, y);
    StatusKeeps(f, y, c, N.Cancelled, updateFails);
    assert w.(cs := N.OnFailed(w.cs, e, calls, updateFails))
      == y.(cs := N.SetStatus(y.cs, c, N.Cancelled, updateFails));
  }

  lemma FailedGoesBack(w: World, y: World, fromRs: bool, i: nat, e: ConfirmationFailedEvent, calls: seq<N.PayRpc>)
    returns (a: AuthId)
    requires RecordsOk(w) && RowsOk(w) && PaymentsOk(w) && PayCalls(w, calls) && FailedRowIs(w, fromRs, i, e)
    requires y == w.(cs := w.cs.(payments := N.AfterCalls(w.cs.payments, N.UndoAsk(e), calls)))
    ensures MayGoBack(w, y, e.consignment, a) && (fromRs ==> RsFailed(w, e.consignment))
  {
    a := FailedIs(w, fromRs, i, e);
    UndoIs(w, e.consignment, a, N.UndoAsk(e), calls);
    assert PaymentOk(w, e.consignment, a);
  }

  lemma ExpiredCsKeeps(f: Faults, w: World, id: ConsignmentId, getFails: bool, calls: seq<N.PayRpc>, updateFails: bool)
    requires Inv(f, w)
    ensures Kept(f, w, w.(cs := N.OnExpired(w.cs, id, getFails, calls, updateFails)))
  {
    if !getFails && id in w.cs.consignments && w.cs.consignments[id].status == N.Pending {
      assert StatusOk(w, id);
      StatusKeeps(f, w, id, N.Cancelled, updateFails);
    }
  }

  lemma ConfirmedKeeps(f: Faults, w: World, i: nat, updateFails: bool)
    requires Inv(f, w) && i < |w.rs.outbox| && w.rs.outbox[i].payload.Confirmed?
    ensures Kept(f, w, w.(cs := N.OnConfirmed(w.cs, w.rs.outbox[i].payload.consignment, updateFails)))
  {
    assert ConfirmedAt(w, i, w.rs.outbox[i].payload.consignment);
    StatusKeeps(f, w, w.rs.outbox[i].payload.consignment, N.ConfirmedStatus, updateFails);
  }
}
