/** Which rows must not be handled again once their consumer has returned: the exact assumption
    of each agreement between verdicts, payment, capacity and status, with a run for each kind
    of row whose second handling breaks it. */
module SagaReplays {
  import opened Types
  import opened Events
  import L = VesselLedger
  import C = ReservationCache
  import O = Outbox
  import P = Payments
  import M = CapacityManager
  import N = Consignments
  import opened SagaSystem
  import opened SagaInvariant
  import opened SagaRuns
  import opened SagaVerdicts
  import F = SagaFaults

  // ---------- a saga whose confirm has died ----------

  const INFO := ReservationInfo("r", "v", "", 1, 1)

  /** The confirm of "c" after n failed runs, none of which got to the gate. */
  function ConfirmEvent(n: nat): CapacityEvent {
    CapacityEvent(ConfirmAction, INFO, false, n, "c", "c")
  }

  /** The cache and the vessel answer. */
  const WORKING := M.Env(C.DeleteOk, [M.Rpc(Answered, L.NoFault)], C.DeleteOk, false)

  /** The cache does not answer. */
  const OUTAGE := M.Env(C.DeleteFails(false), [M.Rpc(Answered, L.NoFault)], C.DeleteOk, false)

  function RetryRows(n: nat): seq<Row> {
    if n == 0 then [] else RetryRows(n - 1) + [M.RetryRow(ConfirmEvent(n - 1))]
  }

  const PENDING := N.NewConsignment("r", "v", 1, 1).(status := N.ConfirmationPending, payment := "c")

  predicate CommittedCs(s: N.Cs) {
    && s.consignments == map["c" := PENDING] && s.payments == F.CAPTURED_TABLE
    && 2 <= |s.outbox| && s.outbox[0] == N.AuthorisedRow(F.EventAt(0)) && s.outbox[1] == F.CAPTURED_ROW
  }

  /** The reservation is cached, nothing was applied to it, and its confirm has failed n times. */
  predicate FailingRs(s: M.Rs, n: nat) {
    && s.outbox == RetryRows(n) && "r" in s.keys.data
    && "v" in s.ledger.vessels && s.ledger.ops.Keys == {L.OpKey("r", L.Reserve)}
  }

  /** "c" is committed, and its confirm has failed n times without getting to the gate. */
  predicate Failing(w: World, n: nat) {
    CommittedCs(w.cs) && FailingRs(w.rs, n)
  }

  /** The capture of "c" is committed. */
  lemma CommitsOnce(f: Faults) returns (w: World)
    ensures Reachable(f, w) && Failing(w, 0) && |w.cs.outbox| == 2 && w.csDone == {0} && w.rsDone == {}
    ensures F.Booked(w)
  {
    var w0 := F.Asking(f);
    var env := F.CaptureOnce(Answered, false, false);
    F.CaptureCommits(w0.cs);
    w := AuthorisedRun(f, w0, 0, F.EventAt(0), env);
  }

  lemma RetryRowsAre(n: nat)
    requires n <= 3
    ensures |RetryRows(n)| == n
    ensures forall i: nat :: i < n ==> RetryRows(n)[i] == M.RetryRow(ConfirmEvent(i))
  {
    if n > 0 {
      RetryRowsAre(n - 1);
    }
  }

  lemma OutageRetries(s: M.Rs, n: nat)
    requires n <= 2 && FailingRs(s, n)
    ensures FailingRs(M.Process(s, ConfirmEvent(n), OUTAGE), n + 1)
    ensures M.Completes(s, ConfirmEvent(n), OUTAGE)
  {
    RetryRowsAre(n);
  }

  lemma FirstFails(f: Faults, w: World) returns (x: World)
    requires Reachable(f, w) && Failing(w, 0) && w.csDone == {0} && w.rsDone == {}
    ensures Reachable(f, x) && Failing(x, 1) && |x.cs.outbox| == |w.cs.outbox| && x.csDone == {0, 1} && x.rsDone == {}
  {
    OutageRetries(w.rs, 0);
    x := CapturedRun(f, w, 1, F.CAPTURED_ROW.payload.captured, OUTAGE);
  }

  lemma LastRetryIs(s: M.Rs, n: nat)
    requires 1 <= n <= 2 && FailingRs(s, n)
    ensures |s.outbox| == n && s.outbox[n - 1].topic == ConfirmCapacityTopic
    ensures s.outbox[n - 1].payload == Capacity(ConfirmEvent(n))
  {
    RetryRowsAre(n);
  }

  lemma RetryFails(f: Faults, w: World, n: nat) returns (x: World)
    requires Reachable(f, w) && 1 <= n <= 2 && Failing(w, n) && n - 1 !in w.rsDone
    ensures Reachable(f, x) && Failing(x, n + 1) && |x.cs.outbox| == |w.cs.outbox|
    ensures x.csDone == w.csDone && x.rsDone == w.rsDone + {n - 1}
  {
    LastRetryIs(w.rs, n);
    OutageRetries(w.rs, n);
    x := ConfirmRun(f, w, n - 1, ConfirmEvent(n), OUTAGE);
  }

  /** Three runs of the confirm meet the cache outage, and its message dies. */
  lemma ConfirmDies(f: Faults) returns (w: World)
    ensures Reachable(f, w) && Failing(w, 3) && |w.cs.outbox| == 2 && w.csDone == {0, 1} && w.rsDone == {0, 1}
  {
    w := CommitsOnce(f);
    w := FirstFails(f, w);
    w := RetryFails(f, w, 1);
    w := RetryFails(f, w, 2);
  }

  // ---------- the dead letter of a saga that was confirmed after all ----------

  const CONFIRMED_ROW := M.ConfirmedRow(ConfirmEvent(0))
  const FAILED_ROW := M.FailedRow(ConfirmEvent(3))

  predicate ConfirmedRs(s: M.Rs) {
    && s.outbox == RetryRows(3) + [CONFIRMED_ROW] && "r" !in s.keys.data
    && L.OpKey("r", L.Confirm) in s.ledger.ops && "v" in s.ledger.vessels
  }

  /** Its confirm has died, and one of the rows it came from was handled again and was applied. */
  predicate LateConfirmed(w: World) {
    w.cs.consignments == map["c" := PENDING] && w.cs.payments == F.CAPTURED_TABLE && ConfirmedRs(w.rs) && 2 !in w.rsDone
  }

  lemma GateOpens(s: M.Rs, n: nat)
    requires FailingRs(s, 3)
    ensures ConfirmedRs(M.Process(s, ConfirmEvent(n), WORKING)) && M.Completes(s, ConfirmEvent(n), WORKING)
  {
    RetryRowsAre(3);
    assert L.OpKey("r", L.Confirm) !in s.ledger.ops.Keys;
  }

  /** The captured row is handled again, now with the cache back. */
  lemma CapturedAgain(f: Faults, w: World, row: nat) returns (x: World)
    requires Reachable(f, w) && Failing(w, 3) && w.rsDone == {0, 1}
    requires CsRowIs(w, row, PaymentCapturedTopic) && w.cs.outbox[row] == F.CAPTURED_ROW
    requires row !in w.csDone || f.replayCaptured
    ensures Reachable(f, x) && LateConfirmed(x)
  {
    GateOpens(w.rs, 0);
    x := CapturedRun(f, w, row, F.CAPTURED_ROW.payload.captured, WORKING);
  }

  lemma ConfirmAgain(f: Faults, w: World) returns (x: World)
    requires Reachable(f, w) && Failing(w, 3) && w.rsDone == {0, 1} && f.replayConfirm
    ensures Reachable(f, x) && LateConfirmed(x)
  {
    RetryRowsAre(3);
    GateOpens(w.rs, 1);
    x := ConfirmRun(f, w, 0, ConfirmEvent(1), WORKING);
  }

  /** The authorised row is handled again: the capture answers as before and is committed a
      second time, so there is a second captured row. */
  lemma AuthorisedAgain(f: Faults, w: World) returns (x: World)
    requires Reachable(f, w) && Failing(w, 3) && w.csDone == {0, 1} && w.rsDone == {0, 1} && f.replayAuthorised
    requires |w.cs.outbox| == 2
    ensures Reachable(f, x) && LateConfirmed(x)
  {
    var env := F.CaptureOnce(Answered, false, false);
    F.CaptureCommits(w.cs);
    var y := AuthorisedRun(f, w, 0, F.EventAt(0), env);
    assert y.cs.outbox == w.cs.outbox + [F.CAPTURED_ROW] && y.csDone == w.csDone + {0};
    x := CapturedAgain(f, y, 2);
  }

  lemma ConfirmsLate(f: Faults) returns (w: World)
    requires !ConfirmsOnce(f)
    ensures Reachable(f, w) && LateConfirmed(w)
  {
    var w0 := ConfirmDies(f);
    if f.replayCaptured {
      w := CapturedAgain(f, w0, 1);
    } else if f.replayConfirm {
      w := ConfirmAgain(f, w0);
    } else {
      w := AuthorisedAgain(f, w0);
    }
  }

  /** Reversing a confirm that never got to the gate writes no row of its own, so its failure is
      announced next, unless an announcement is pending. */
  lemma DeadIsAnnounced(s: M.Rs)
    requires "v" in s.ledger.vessels && !O.PendingSame(s.outbox, FAILED_ROW.topic, FAILED_ROW.key)
    ensures var t := M.ProcessDead(s, ConfirmEvent(3), WORKING, false);
            && t.outbox == s.outbox + [FAILED_ROW] && "v" in t.ledger.vessels
            && (L.OpKey("r", L.Confirm) in s.ledger.ops ==> L.OpKey("r", L.Confirm) in t.ledger.ops)
  {
  }

  predicate TwoVerdictsRs(s: M.Rs) {
    s.outbox == RetryRows(3) + [CONFIRMED_ROW, FAILED_ROW] && L.OpKey("r", L.Confirm) in s.ledger.ops
  }

  /** Confirmed at the vessel, with a verdict of each kind. */
  predicate TwoVerdicts(w: World) {
    w.cs.consignments == map["c" := PENDING] && w.cs.payments == F.CAPTURED_TABLE && TwoVerdictsRs(w.rs)
  }

  lemma ConfirmedIsAnnounced(s: M.Rs)
    requires ConfirmedRs(s)
    ensures TwoVerdictsRs(M.ProcessDead(s, ConfirmEvent(3), WORKING, false))
  {
    RetryRowsAre(3);
    DeadIsAnnounced(s);
  }

  lemma DeadAnnounced(f: Faults) returns (w: World)
    requires !ConfirmsOnce(f)
    ensures Reachable(f, w) && TwoVerdicts(w)
  {
    var w0 := ConfirmsLate(f);
    RetryRowsAre(3);
    ConfirmedIsAnnounced(w0.rs);
    w := DeadRun(f, w0, 2, ConfirmEvent(3), WORKING);
  }

  lemma TwoVerdictsDiffer(w: World)
    requires TwoVerdicts(w)
    ensures !OneVerdict(w)
  {
    RetryRowsAre(3);
    assert VerdictAt(w, "c", RsRow(3)) && VerdictAt(w, "c", RsRow(4));
  }

  // ---------- a dead letter handled again ----------

  predicate FailedRs(s: M.Rs, rows: seq<Row>) {
    s.outbox == RetryRows(3) + rows && "v" in s.ledger.vessels
  }

  lemma FailureIsAnnounced(s: M.Rs, rows: seq<Row>)
    requires FailedRs(s, rows) && forall row :: row in rows ==> row.published
    ensures FailedRs(M.ProcessDead(s, ConfirmEvent(3), WORKING, false), rows + [FAILED_ROW])
  {
    RetryRowsAre(3);
    forall i | 0 <= i < |s.outbox| && i >= 3 ensures s.outbox[i].published {
      assert s.outbox[i] == rows[i - 3];
    }
    DeadIsAnnounced(s);
    assert RetryRows(3) + rows + [FAILED_ROW] == RetryRows(3) + (rows + [FAILED_ROW]);
  }

  /** The failure of "c" is announced and published. */
  lemma FailsOnce(f: Faults) returns (w: World)
    ensures Reachable(f, w) && FailedRs(w.rs, [FAILED_ROW.(published := true)])
  {
    var w0 := ConfirmDies(f);
    RetryRowsAre(3);
    FailureIsAnnounced(w0.rs, []);
    var w1 := DeadRun(f, w0, 2, ConfirmEvent(3), WORKING);
    assert [] + [FAILED_ROW] == [FAILED_ROW];
    StepOn(f, w1, MarkRs(3));
    w := w1.(rs := w1.rs.(outbox := MarkRow(w1.rs.outbox, 3)));
  }

  /** And it is announced again: the index on pending rows no longer swallows it. */
  lemma FailsTwice(f: Faults) returns (w: World)
    requires f.replayDead
    ensures Reachable(f, w) && !OneVerdict(w)
  {
    var w0 := FailsOnce(f);
    var first := FAILED_ROW.(published := true);
    RetryRowsAre(3);
    FailureIsAnnounced(w0.rs, [first]);
    w := DeadRun(f, w0, 2, ConfirmEvent(3), WORKING);
    assert w.rs.outbox == RetryRows(3) + ([first] + [FAILED_ROW]);
    assert VerdictAt(w, "c", RsRow(3)) && VerdictAt(w, "c", RsRow(4));
  }

  // ---------- both verdicts are handled ----------

  const REACHED := [N.PayRpc(Answered, ["a"])]

  /** Both verdicts are there, and the confirmed one has been handled. */
  predicate ConfirmedFirst(w: World) {
    && w.cs.consignments == map["c" := PENDING.(status := N.ConfirmedStatus)]
    && w.cs.payments == F.CAPTURED_TABLE && TwoVerdictsRs(w.rs)
  }

  lemma ConfirmedHandled(f: Faults) returns (w: World)
    requires !ConfirmsOnce(f)
    ensures Reachable(f, w) && ConfirmedFirst(w)
  {
    var w0 := DeadAnnounced(f);
    RetryRowsAre(3);
    StepOn(f, w0, HandleConfirmed(3, false));
    w := w0.(cs := N.OnConfirmed(w0.cs, "c", false));
  }

  lemma RefundReaches()
    ensures N.AfterCalls(F.CAPTURED_TABLE, N.AskRefund("c", "c"), REACHED)
            == map["a" := P.Payment("c", P.StatusRefunded, "c")]
  {
    assert P.Scan(F.CAPTURED_TABLE, "c", ["a"]) == Some("a");
    assert N.RpcOk(F.CAPTURED_TABLE, N.AskRefund("c", "c"), REACHED[0]);
  }

  /** The failed one is handled too: the refund is made, and whether the record is cancelled
      depends on one more write. */
  predicate FailedNext(w: World, updateFails: bool) {
    && w.cs.consignments ==
       map["c" := PENDING.(status := if updateFails then N.ConfirmedStatus else N.Cancelled)]
    && w.cs.payments == map["a" := P.Payment("c", P.StatusRefunded, "c")] && TwoVerdictsRs(w.rs)
  }

  lemma FailedEnabled(f: Faults, w: World, updateFails: bool)
    requires ConfirmedFirst(w)
    ensures Enabled(f, w, HandleFailed(true, 4, REACHED, updateFails))
    ensures FailedEvent(w, true, 4) == ConfirmationFailedEvent("c", "c", "", true)
  {
    RetryRowsAre(3);
  }

  lemma FailedHandled(f: Faults, w: World, updateFails: bool) returns (x: World)
    requires Reachable(f, w) && ConfirmedFirst(w)
    ensures Enabled(f, w, HandleFailed(true, 4, REACHED, updateFails))
    ensures x == Apply(f, w, HandleFailed(true, 4, REACHED, updateFails)) && Reachable(f, x)
    ensures FailedNext(x, updateFails)
  {
    FailedEnabled(f, w, updateFails);
    StepOn(f, w, HandleFailed(true, 4, REACHED, updateFails));
    x := w.(cs := N.OnFailed(w.cs, ConfirmationFailedEvent("c", "c", "", true), REACHED, updateFails));
    RefundReaches();
  }

  /** Status confirmed, the payment refunded, and the capacity in use. */
  lemma Disagrees(f: Faults) returns (w: World)
    requires !ConfirmsOnce(f)
    ensures Reachable(f, w) && !ConfirmedAgree(w) && !CancelledAgree(w)
  {
    var w0 := ConfirmedHandled(f);
    w := FailedHandled(f, w0, true);
    assert w.cs.payments["a"] == P.Payment("c", P.StatusRefunded, "c");
    assert w.cs.consignments["c"].reservation == "r" && w.cs.consignments["c"].status == N.ConfirmedStatus;
    assert PaymentStands(w, "c", P.StatusRefunded) && !PaymentStands(w, "c", P.StatusCaptured);
  }

  // ---------- the exact assumptions ----------

  /** One verdict per consignment in every run, exactly if no row of a saga is handled again. */
  lemma VerdictsNeedOneHandling(f: Faults)
    ensures (forall w :: Reachable(f, w) ==> OneVerdict(w)) <==> ConfirmsOnce(f) && !f.replayDead
  {
    if ConfirmsOnce(f) && !f.replayDead {
      forall w | Reachable(f, w) ensures OneVerdict(w) {
        VerdictUnique(f, w);
      }
    } else if f.replayDead {
      var w := FailsTwice(f);
    } else {
      var w := DeadAnnounced(f);
      TwoVerdictsDiffer(w);
    }
  }

  /** Confirmed and cancelled consignments agree with payment and vessel in every run, exactly if
      no authorised, captured or confirm row is handled again; a second handling of dead
      letters does not matter to them. */
  lemma AgreementNeedsOneConfirm(f: Faults)
    ensures (forall w :: Reachable(f, w) ==> ConfirmedAgree(w)) <==> ConfirmsOnce(f)
    ensures (forall w :: Reachable(f, w) ==> CancelledAgree(w)) <==> ConfirmsOnce(f)
  {
    if ConfirmsOnce(f) {
      forall w | Reachable(f, w) ensures ConfirmedAgree(w) && CancelledAgree(w) {
        ConfirmedAgrees(f, w);
        CancelledAgrees(f, w);
      }
    } else {
      var w := Disagrees(f);
    }
  }
}
