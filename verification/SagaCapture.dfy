/** A run of the capture handler keeps the invariant. */
module SagaCapture {
  import opened Types
  import opened Events
  import P = Payments
  import N = Consignments
  import opened SagaSystem
  import opened SagaHandlers
  import opened SagaInvariant
  import opened SagaFrames

  // ---------- the payment ----------

  /** From w to x the payment `a` of `c` was captured, or nothing was. */
  predicate Pays(w: World, x: World, c: ConsignmentId, a: AuthId) {
    x.cs.payments == w.cs.payments
    || (StatusIs(w, a, P.StatusAuthorised) && x.cs.payments == w.cs.payments[a := P.Payment(c, P.StatusCaptured, c)])
  }

  /** The capture part of a run: it fails without effect, or the payment is captured under the
      consignment's id and the event says so. */
  lemma CaptureIs(w: World, e: PaymentAuthorisedEvent, env: N.Env)
    requires AccountsOk(w) && AuthIs(w, e.consignment, e.auth) && PayCalls(w, env.calls)
    requires e.paymentCaptured ==> Taken(w, e.auth) && e.payment == e.consignment
    ensures var t, o, c := N.PaymentsAfter(w.cs, e, env), N.AfterCapture(w.cs, e, env), e.consignment;
            && Pays(w, w.(cs := w.cs.(payments := t)), c, e.auth)
            && (o.None? ==> !e.paymentCaptured && (NoneLost(env.calls) ==> t == w.cs.payments))
            && (o.Some? ==>
                  && o.value == e.(payment := c, paymentCaptured := true)
                  && Taken(w.(cs := w.cs.(payments := t)), e.auth))
  {
    if !e.paymentCaptured {
      CaptureSettles(w, e, env.calls);
      if NoneLost(env.calls) {
        var rpc := PayCallsAreExact(w.cs.payments, N.CaptureAsk(e), env.calls);
      }
    }
  }

  /** What capture calls leave of the payment once they have taken effect. */
  function CapturedTable(w: World, c: ConsignmentId, a: AuthId): P.Table {
    if StatusIs(w, a, P.StatusAuthorised) then w.cs.payments[a := P.Payment(c, P.StatusCaptured, c)] else w.cs.payments
  }

  lemma CaptureSettles(w: World, e: PaymentAuthorisedEvent, calls: seq<N.PayRpc>)
    requires AccountsOk(w) && AuthIs(w, e.consignment, e.auth)
    ensures var t := N.AfterCalls(w.cs.payments, N.CaptureAsk(e), calls);
            var reply := N.CallsReply(w.cs.payments, N.CaptureAsk(e), calls);
            && Pays(w, w.(cs := w.cs.(payments := t)), e.consignment, e.auth)
            && (reply.Some? ==> reply.value == e.consignment && Taken(w.(cs := w.cs.(payments := t)), e.auth))
  {
    var t, u, ask, c := w.cs.payments, CapturedTable(w, e.consignment, e.auth), N.CaptureAsk(e), e.consignment;
    PayCallsSettle(t, u, ask, calls, c);
  }

  /** A payment belongs to one consignment. */
  lemma OneOwner(w: World, c: ConsignmentId, d: ConsignmentId, a: AuthId)
    requires AccountsOk(w) && AuthIs(w, c, a) && AuthIs(w, d, a)
    ensures c == d
  {
  }

  lemma PaysAccounts(w: World, x: World, c: ConsignmentId, a: AuthId)
    requires AccountsOk(w) && AuthIs(w, c, a) && Pays(w, x, c, a) && x.asked == w.asked
    ensures AccountsOk(x)
  {
    forall b | b in x.cs.payments
      ensures AuthIs(x, x.cs.payments[b].consignment, b)
      ensures x.cs.payments[b].captureId == if Taken(x, b) then x.cs.payments[b].consignment else ""
    {
      assert b in w.cs.payments;
      assert AuthIs(w, w.cs.payments[b].consignment, b);
    }
    forall d, b | AuthIs(x, d, b) ensures b in x.cs.payments && x.cs.payments[b].consignment == d {
      assert AuthIs(w, d, b);
    }
  }

  lemma PaysPayments(w: World, x: World, c: ConsignmentId, a: AuthId)
    requires PaymentsOk(w) && AuthIs(w, c, a) && Pays(w, x, c, a) && x.asked == w.asked && Grows(w, x)
    requires IsAnnounced(w, c)
    requires forall d :: d != c && Committed(x, d) ==> Committed(w, d)
    requires Committed(x, c) ==> Taken(x, a)
    ensures PaymentsOk(x)
  {
    PaysAccounts(w, x, c, a);
    Stays(w, x);
    forall d, b | AuthIs(x, d, b) ensures PaymentOk(x, d, b) {
      assert AuthIs(w, d, b) && PaymentOk(w, d, b);
      assert b in w.cs.payments;
      if b == a {
        OneOwner(w, c, d, a);
      }
    }
  }

  // ---------- a row takes the place of another ----------

  predicate OfConsignment(row: Row, c: ConsignmentId) {
    match row.payload
    case Authorised(e) => e.consignment == c
    case Captured(e) => e.consignment == c
    case ConfirmationFailed(e) => e.consignment == c
    case _ => false
  }

  /** The authorised row `i` of `c` is handled, its payment `a` may have been captured, and `row`
      takes its place. */
  ghost predicate CsMoves(w: World, x: World, i: nat, c: ConsignmentId, a: AuthId, row: Row) {
    && AuthorisedAt(w, i, c) && w.cs.outbox[i].payload.authorised.auth == a && Pays(w, x, c, a)
    && x.csDone == w.csDone + {i} && x.cs.outbox == w.cs.outbox + [row]
    && OfConsignment(row, c) && CsRowOk(x, row)
    && x.rs == w.rs && x.granted == w.granted && x.asked == w.asked && x.seen == w.seen && x.rsDone == w.rsDone
  }

  lemma MoveGrows(w: World, x: World, i: nat, c: ConsignmentId, a: AuthId, row: Row)
    requires CsMoves(w, x, i, c, a, row)
    ensures Grows(w, x) && NoConfirms(w, x)
    ensures forall d :: Committed(x, d) <==> Committed(w, d) || (d == c && row.payload.Captured?)
  {
    var n := |w.cs.outbox|;
    Stays(w, x);
    forall d ensures Committed(x, d) <==> Committed(w, d) || (d == c && row.payload.Captured?) {
      if j: nat :| CapturedAt(x, j, d) {
        assert CapturedAt(w, j, d) || (j == n && d == c && row.payload.Captured?);
      }
      if d == c && row.payload.Captured? {
        assert CapturedAt(x, n, c);
      }
    }
  }

  lemma MoveRows(w: World, x: World, i: nat, c: ConsignmentId, a: AuthId, row: Row)
    requires RowsOk(w) && CsMoves(w, x, i, c, a, row)
    ensures RowsOk(x) && AuthIs(w, c, a) && IsAnnounced(w, c)
  {
    MoveGrows(w, x, i, c, a, row);
    assert CsRowOk(w, w.cs.outbox[i]);
    RowsKeep(w, x);
  }

  lemma MovePayments(w: World, x: World, i: nat, c: ConsignmentId, a: AuthId, row: Row)
    requires PaymentsOk(w) && RowsOk(w) && CsMoves(w, x, i, c, a, row)
    requires row.payload.Captured? ==> Taken(x, a)
    ensures PaymentsOk(x)
  {
    MoveGrows(w, x, i, c, a, row);
    assert CsRowOk(w, w.cs.outbox[i]);
    assert Committed(w, c) ==> PaymentOk(w, c, a) && Taken(x, a);
    PaysPayments(w, x, c, a);
  }

  lemma MoveEarly(w: World, x: World, i: nat, c: ConsignmentId, a: AuthId, row: Row)
    requires EarlyOk(w) && CsMoves(w, x, i, c, a, row) && i !in w.csDone
    ensures EarlyOk(x) && !Committed(w, c)
  {
    MoveGrows(w, x, i, c, a, row);
    var n := |w.cs.outbox|;
    assert EarlyAt(w, c, CsRow(i));
    forall d, p | EarlyAt(x, d, p)
      ensures if d == c then p == CsRow(n) && !row.payload.Captured? else EarlyAt(w, d, p)
    {
      assert EarlyAt(w, d, p) || (d == c && p == CsRow(n));
    }
  }

  /** The payment of another consignment's row is not touched. */
  lemma OtherPayment(w: World, x: World, i: nat, c: ConsignmentId, a: AuthId, row: Row, d: ConsignmentId, b: AuthId)
    requires AccountsOk(w) && RowsOk(w) && CsMoves(w, x, i, c, a, row) && AuthIs(w, d, b) && d != c
    ensures b in w.cs.payments && b in x.cs.payments && x.cs.payments[b] == w.cs.payments[b]
  {
    assert CsRowOk(w, w.cs.outbox[i]);
    if b == a {
      OneOwner(w, c, d, a);
    }
  }

  /** An uncaptured row that takes the place of another leaves the payment alone. */
  lemma MoveUncaptured(w: World, x: World, i: nat, c: ConsignmentId, a: AuthId, row: Row)
    requires EarlyOk(w) && UncapturedOk(w) && AccountsOk(w) && RowsOk(w)
    requires CsMoves(w, x, i, c, a, row) && i !in w.csDone
    requires Denies(row) ==> x.cs.payments == w.cs.payments && StatusIs(w, a, P.StatusAuthorised)
    ensures UncapturedOk(x)
  {
    assert EarlyAt(w, c, CsRow(i));
    assert CsRowOk(w, w.cs.outbox[i]);
    forall j: nat | j < |x.cs.outbox| && x.cs.outbox[j].payload.Authorised? ensures WaitingRowOk(x, j) {
      if j < |w.cs.outbox| {
        var e := w.cs.outbox[j].payload.authorised;
        assert WaitingRowOk(w, j) && CsRowOk(w, w.cs.outbox[j]);
        if e.consignment != c {
          OtherPayment(w, x, i, c, a, row, e.consignment, e.auth);
        } else if j !in w.csDone {
          assert EarlyAt(w, c, CsRow(j));
        }
      }
    }
    forall j: nat | j < |x.cs.outbox| && x.cs.outbox[j].payload.ConfirmationFailed? ensures FailedRowOk(x, j) {
      if j < |w.cs.outbox| {
        var e := w.cs.outbox[j].payload.failed;
        assert FailedRowOk(w, j) && CsRowOk(w, w.cs.outbox[j]);
        assert e.consignment == c ==> EarlyAt(w, c, CsRow(j));
        OtherPayment(w, x, i, c, a, row, e.consignment, e.auth);
      }
    }
  }

  /** The row says its payment is not captured. */
  predicate Denies(row: Row) {
    match row.payload
    case Authorised(e) => !e.paymentCaptured
    case ConfirmationFailed(e) => !e.paymentCaptured
    case _ => false
  }

  // ---------- the commit ----------

  /** A run that commits: the row, the status and the payment id together. */
  ghost predicate Commits(w: World, x: World, i: nat, c: ConsignmentId, a: AuthId, row: Row) {
    && CsMoves(w, x, i, c, a, row) && row.payload.Captured? && Taken(x, a)
    && c in w.cs.consignments
    && exists p :: x.cs.consignments ==
         w.cs.consignments[c := w.cs.consignments[c].(status := N.ConfirmationPending, payment := p)]
  }

  lemma CommitRecords(w: World, x: World, i: nat, c: ConsignmentId, a: AuthId, row: Row)
    requires RecordsOk(w) && Commits(w, x, i, c, a, row)
    ensures RecordsOk(x)
  {
    RecordsKeep(w, x);
  }

  lemma CommitStatuses(w: World, x: World, i: nat, c: ConsignmentId, a: AuthId, row: Row)
    requires StatusesOk(w) && Commits(w, x, i, c, a, row)
    ensures StatusesOk(x)
  {
    MoveGrows(w, x, i, c, a, row);
    Stays(w, x);
    forall d | d in x.cs.consignments ensures StatusOk(x, d) {
      if d != c {
        assert StatusOk(w, d);
      }
    }
  }

  lemma CommitCancels(w: World, x: World, i: nat, c: ConsignmentId, a: AuthId, row: Row)
    requires CancelsOk(w) && Commits(w, x, i, c, a, row)
    ensures CancelsOk(x)
  {
    MoveGrows(w, x, i, c, a, row);
    Stays(w, x);
  }

  lemma CommitRsSide(f: Faults, w: World, x: World, i: nat, c: ConsignmentId, a: AuthId, row: Row)
    requires RsSideOk(f, w) && RowsOk(w) && CsMoves(w, x, i, c, a, row)
    requires ConfirmsOnce(f) ==> !Committed(w, c)
    ensures RsSideOk(f, x) && (ConfirmsOnce(f) ==> Continues(w, x))
  {
    MoveGrows(w, x, i, c, a, row);
    TracesKeep(w, x);
    if ConfirmsOnce(f) {
      var to := CsRow(|w.cs.outbox|);
      assert LateBut(w, x, c, to);
      LateStarts(f, w, x, c, to);
      ConfirmsKeep(w, x, c, to);
      SameGateRows(w, x);
      GatesKeep(w, x);
    }
  }

  lemma CommitKeeps(f: Faults, w: World, x: World, i: nat, c: ConsignmentId, a: AuthId, row: Row)
    requires Inv(f, w) && Commits(w, x, i, c, a, row) && (i !in w.csDone || f.replayAuthorised)
    ensures Kept(f, w, x)
  {
    CommitRecords(w, x, i, c, a, row);
    MoveRows(w, x, i, c, a, row);
    MovePayments(w, x, i, c, a, row);
    CommitStatuses(w, x, i, c, a, row);
    if !f.replayAuthorised {
      MoveEarly(w, x, i, c, a, row);
    }
    if CapturesSound(f) {
      MoveUncaptured(w, x, i, c, a, row);
    }
    if ConfirmsOnce(f) {
      CommitCancels(w, x, i, c, a, row);
    }
    CommitRsSide(f, w, x, i, c, a, row);
  }

  // ---------- the rescheduling ----------

  /** A run that reschedules the event, or gives it up to its failure event. */
  ghost predicate Reschedules(f: Faults, w: World, x: World, i: nat, c: ConsignmentId, a: AuthId, row: Row) {
    && CsMoves(w, x, i, c, a, row) && !row.payload.Captured? && x.cs.consignments == w.cs.consignments
    && (CapturesSound(f) && Denies(row) ==>
          x.cs.payments == w.cs.payments && !w.cs.outbox[i].payload.authorised.paymentCaptured)
  }

  lemma RescheduleKeeps(f: Faults, w: World, x: World, i: nat, c: ConsignmentId, a: AuthId, row: Row)
    requires Inv(f, w) && Reschedules(f, w, x, i, c, a, row) && (i !in w.csDone || f.replayAuthorised)
    ensures Kept(f, w, x)
  {
    RecordsKeep(w, x);
    MoveRows(w, x, i, c, a, row);
    RescheduleCsSide(f, w, x, i, c, a, row);
    RescheduleRsSide(f, w, x, i, c, a, row);
  }

  lemma RescheduleRsSide(f: Faults, w: World, x: World, i: nat, c: ConsignmentId, a: AuthId, row: Row)
    requires RsSideOk(f, w) && CsMoves(w, x, i, c, a, row) && !row.payload.Captured?
    ensures RsSideOk(f, x) && (ConfirmsOnce(f) ==> Continues(w, x))
  {
    MoveGrows(w, x, i, c, a, row);
    RsSideKeeps(f, w, x);
  }

  lemma RescheduleCsSide(f: Faults, w: World, x: World, i: nat, c: ConsignmentId, a: AuthId, row: Row)
    requires CsSideOk(f, w) && RowsOk(w) && Reschedules(f, w, x, i, c, a, row)
    requires i !in w.csDone || f.replayAuthorised
    ensures CsSideOk(f, x)
  {
    MoveGrows(w, x, i, c, a, row);
    MovePayments(w, x, i, c, a, row);
    StatusesKeep(w, x);
    if !f.replayAuthorised {
      MoveEarly(w, x, i, c, a, row);
    }
    if CapturesSound(f) {
      assert WaitingRowOk(w, i);
      MoveUncaptured(w, x, i, c, a, row);
    }
    if ConfirmsOnce(f) {
      CancelsKeep(w, x);
    }
  }

  // ---------- a capture and nothing else ----------

  /** The run captured the payment and nothing else: it stopped there, or neither its
      transaction nor its rescheduling was written. */
  lemma CapturedOnlyKeeps(f: Faults, w: World, x: World, i: nat, c: ConsignmentId, a: AuthId)
    requires Inv(f, w) && !CapturesSound(f) && AuthorisedAt(w, i, c) && w.cs.outbox[i].payload.authorised.auth == a
    requires Pays(w, x, c, a) && x == w.(cs := w.cs.(payments := x.cs.payments))
    ensures Kept(f, w, x)
  {
    assert CsRowOk(w, w.cs.outbox[i]);
    OnlyPayments(f, w, x);
    SameCommits(w, x);
    if Committed(w, c) {
      assert PaymentOk(w, c, a);
    }
    PaysPayments(w, x, c, a);
  }

  /** Nothing but payments has changed. */
  ghost predicate PaymentsOnly(w: World, x: World) {
    x == w.(cs := w.cs.(payments := x.cs.payments)) && forall a :: Taken(w, a) ==> Taken(x, a)
  }

  lemma PaymentsOnlyIsStill(w: World, x: World)
    requires PaymentsOnly(w, x)
    ensures Grows(w, x) && RsStill(w, x)
  {
  }

  lemma PaymentsOnlyRows(w: World, x: World)
    requires RecordsOk(w) && RowsOk(w) && PaymentsOnly(w, x)
    ensures RecordsOk(x) && RowsOk(x)
  {
    RecordsKeep(w, x);
    PaymentsOnlyIsStill(w, x);
    RowsKeep(w, x);
  }

  lemma OnlyPayments(f: Faults, w: World, x: World)
    requires Inv(f, w) && PaymentsOnly(w, x)
    ensures RecordsOk(x) && RowsOk(x) && StatusesOk(x) && RsSideOk(f, x) && Grows(w, x)
    ensures !f.replayAuthorised ==> EarlyOk(x)
    ensures ConfirmsOnce(f) ==> CancelsOk(x) && Continues(w, x)
  {
    PaymentsOnlyRows(w, x);
    PaymentsOnlyIsStill(w, x);
    SameCommits(w, x);
    StatusesKeep(w, x);
    RsSideKeeps(f, w, x);
    if !f.replayAuthorised {
      StillEarly(w, x);
    }
    if ConfirmsOnce(f) {
      CancelsKeep(w, x);
    }
  }

  // ---------- the whole run ----------

  function After(w: World, e: PaymentAuthorisedEvent, env: N.Env): PaymentAuthorisedEvent {
    var o := N.AfterCapture(w.cs, e, env);
    if o.Some? then o.value else e
  }

  /** The run on row `i` is one of the three steps above: a commit, */
  lemma CommitIs(w: World, i: nat, env: N.Env)
    requires i < |w.cs.outbox| && w.cs.outbox[i].payload.Authorised?
    requires AccountsOk(w) && CsRowOk(w, w.cs.outbox[i]) && PayCalls(w, env.calls)
    requires N.Commits(w.cs, w.cs.outbox[i].payload.authorised, env)
    ensures var e := w.cs.outbox[i].payload.authorised;
            Commits(w, DoAuthorised(w, i, env), i, e.consignment, e.auth, N.CapturedRow(After(w, e, env)))
  {
    CaptureIs(w, w.cs.outbox[i].payload.authorised, env);
  }

  /** a rescheduling, or a capture and nothing else. */
  lemma FailureIs(f: Faults, w: World, i: nat, env: N.Env)
    requires i < |w.cs.outbox| && w.cs.outbox[i].payload.Authorised?
    requires AccountsOk(w) && CsRowOk(w, w.cs.outbox[i]) && PayCalls(w, env.calls)
    requires NoneLost(env.calls) || f.captureMayApply
    requires !N.Commits(w.cs, w.cs.outbox[i].payload.authorised, env)
    ensures var e, x := w.cs.outbox[i].payload.authorised, DoAuthorised(w, i, env);
            if env.writeFails then
              Pays(w, x, e.consignment, e.auth) && x == w.(cs := w.cs.(payments := x.cs.payments))
            else Reschedules(f, w, x, i, e.consignment, e.auth, N.RescheduledRow(After(w, e, env)))
  {
    CaptureIs(w, w.cs.outbox[i].payload.authorised, env);
  }

  lemma AuthorisedKeeps(f: Faults, w: World, i: nat, env: N.Env)
    requires Inv(f, w) && i < |w.cs.outbox| && w.cs.outbox[i].payload.Authorised?
    requires i !in w.csDone || f.replayAuthorised
    requires PayCalls(w, env.calls) && (NoneLost(env.calls) || f.captureMayApply)
    requires env.writeFails ==> f.rescheduleMayFail
    ensures Kept(f, w, DoAuthorised(w, i, env))
  {
    var e := w.cs.outbox[i].payload.authorised;
    var x := DoAuthorised(w, i, env);
    assert CsRowOk(w, w.cs.outbox[i]);
    if N.Commits(w.cs, e, env) {
      CommitIs(w, i, env);
      CommitKeeps(f, w, x, i, e.consignment, e.auth, N.CapturedRow(After(w, e, env)));
    } else {
      FailureIs(f, w, i, env);
      if env.writeFails {
        CapturedOnlyKeeps(f, w, x, i, e.consignment, e.auth);
      } else {
        RescheduleKeeps(f, w, x, i, e.consignment, e.auth, N.RescheduledRow(After(w, e, env)));
      }
    }
  }

  lemma CrashKeeps(f: Faults, w: World, i: nat, calls: seq<N.PayRpc>)
    requires Inv(f, w) && f.captureMayCrash
    requires i < |w.cs.outbox| && w.cs.outbox[i].payload.Authorised?
    ensures Kept(f, w, DoCrash(w, i, calls))
  {
    var e := w.cs.outbox[i].payload.authorised;
    if !e.paymentCaptured {
      assert CsRowOk(w, w.cs.outbox[i]);
      CaptureSettles(w, e, calls);
      CapturedOnlyKeeps(f, w, DoCrash(w, i, calls), i, e.consignment, e.auth);
    }
  }
}
