/** Captured money without a verdict: a committed saga whose last row was handled without
    effect stays as it is for good, and it is the only kind that never gets a verdict. */
module SagaStranded {
  import opened Types
  import opened Events
  import L = VesselLedger
  import C = ReservationCache
  import O = Outbox
  import P = Payments
  import M = CapacityManager
  import N = Consignments
  import opened SagaSystem
  import opened SagaInvariant
  import opened SagaSteps
  import opened SagaRuns
  import opened SagaVerdicts
  import F = SagaFaults
  import R = SagaReplays

  // ---------- what has ended stays ended ----------

  ghost predicate HasVerdict(w: World, c: ConsignmentId) {
    exists p :: VerdictAt(w, c, p)
  }

  /** Nothing refunds or confirms it: no verdict, the payment captured, the status pending. */
  ghost predicate Stranded(w: World, c: ConsignmentId) {
    && !HasVerdict(w, c) && PaymentStands(w, c, P.StatusCaptured)
    && c in w.cs.consignments && w.cs.consignments[c].status == N.ConfirmationPending
  }

  lemma EndedHasNone(w: World, c: ConsignmentId)
    requires EarlyOk(w) && Ended(w, c)
    ensures !HasVerdict(w, c) && !CsFailed(w, c) && !RsFailed(w, c) && !ConfirmedRowOf(w, c)
  {
    CommittedNotCsFailed(w, c);
    forall i: nat ensures !RsFailedAt(w, i, c) && !ConfirmedAt(w, i, c) {
      assert !LateAt(w, c, RsRow(i));
    }
  }

  lemma EndedIsPending(w: World, c: ConsignmentId)
    requires RecordsOk(w) && RowsOk(w) && StatusesOk(w) && CancelsOk(w)
    requires Committed(w, c) && !RsFailed(w, c) && !ConfirmedRowOf(w, c)
    ensures c in w.cs.consignments && w.cs.consignments[c].status == N.ConfirmationPending
  {
    CommittedIsAnnounced(w, c);
    assert StatusOk(w, c);
  }

  lemma EndedIsStranded(f: Faults, w: World, c: ConsignmentId)
    requires Inv(f, w) && ConfirmsOnce(f) && Ended(w, c)
    ensures Stranded(w, c)
  {
    EndedHasNone(w, c);
    CommittedPays(w, c);
    EndedIsPending(w, c);
  }

  /** Once the saga of a committed consignment has ended without a verdict, every later world of
      every run finds it without one, with its payment captured. */
  lemma StrandedForever(f: Faults, w: World, c: ConsignmentId, ls: seq<Label>)
    requires Reachable(f, w) && ConfirmsOnce(f) && Ended(w, c) && Execute(f, w, ls).Some?
    ensures Ended(Execute(f, w, ls).value, c) && Stranded(Execute(f, w, ls).value, c)
  {
    ReachableOk(f, w);
    RunsKeep(f, w, ls);
    EndedIsStranded(f, Execute(f, w, ls).value, c);
  }

  // ---------- what has not ended can still fail ----------

  ghost predicate Leads(f: Faults, w: World, x: World) {
    exists ls :: Execute(f, w, ls) == Some(x)
  }

  lemma LeadsOn(f: Faults, w0: World, w: World, l: Label)
    requires Leads(f, w0, w) && Enabled(f, w, l)
    ensures Leads(f, w0, Apply(f, w, l))
  {
    var ls :| Execute(f, w0, ls) == Some(w);
    assert (ls + [l])[..|ls|] == ls;
    assert Execute(f, w0, ls + [l]) == Some(Apply(f, w, l));
  }

  /** The first n rows of the reservation service are marked, and nothing else is changed. */
  predicate Marked(w: World, x: World, n: nat) {
    && |x.rs.outbox| == |w.rs.outbox| && n <= |w.rs.outbox|
    && x == w.(rs := w.rs.(outbox := x.rs.outbox))
    && forall i :: 0 <= i < |w.rs.outbox| ==>
         && x.rs.outbox[i].topic == w.rs.outbox[i].topic && x.rs.outbox[i].payload == w.rs.outbox[i].payload
         && (i < n ==> x.rs.outbox[i].published)
  }

  lemma MarkAll(f: Faults, w0: World, w: World, n: nat) returns (x: World)
    requires Leads(f, w0, w) && n <= |w.rs.outbox|
    ensures Leads(f, w0, x) && Marked(w, x, n)
  {
    if n == 0 {
      x := w;
    } else {
      var y := MarkAll(f, w0, w, n - 1);
      LeadsOn(f, w0, y, MarkRs(n - 1));
      x := y.(rs := y.rs.(outbox := MarkRow(y.rs.outbox, n - 1)));
    }
  }

  /** Neither the cache nor the vessel service can be reached. */
  const STALLED := M.Env(C.DeleteFails(false), [M.Rpc(Dropped, L.NoFault)], C.DeleteOk, false)

  lemma StalledRetries(s: M.Rs, e: CapacityEvent)
    ensures M.Process(s, e, STALLED).outbox == O.Add(s.outbox, true, M.RetryRow(e)) && M.Completes(s, e, STALLED)
  {
    assert STALLED.calls[1..] == [];
  }

  predicate AllMarked(rows: seq<Row>) {
    forall i :: 0 <= i < |rows| ==> rows[i].published
  }

  /** A dead letter can always be announced. */
  lemma DeadFails(f: Faults, w0: World, w: World, i: nat, c: ConsignmentId) returns (x: World)
    requires Leads(f, w0, w) && DeadAt(w, i, c) && i !in w.rsDone && AllMarked(w.rs.outbox)
    ensures Leads(f, w0, x) && HasVerdict(x, c)
  {
    var e := w.rs.outbox[i].payload.capacity;
    LeadsOn(f, w0, w, HandleDead(i, STALLED, false));
    x := DoDead(w, i, STALLED, false);
    StalledRetries(w.rs, M.Reversal(e));
    var n := |x.rs.outbox| - 1;
    assert x.rs.outbox[n] == M.FailedRow(e);
    assert VerdictAt(x, c, RsRow(n));
  }

  /** A confirm that goes on failing dies, and its death can be announced. */
  lemma {:induction false} ConfirmFails(f: Faults, w0: World, w1: World, i: nat, c: ConsignmentId) returns (x: World)
    requires Leads(f, w0, w1) && ConfirmAt(w1, i, c) && i !in w1.rsDone
    requires w1.rs.outbox[i].topic == ConfirmCapacityTopic || w1.rs.outbox[i].topic == CapacityFailedTopic
    requires forall j: nat :: j in w1.rsDone ==> j < |w1.rs.outbox|
    ensures Leads(f, w0, x) && HasVerdict(x, c)
    decreases if w1.rs.outbox[i].topic == CapacityFailedTopic then 0 else 1,
              M.MAX_RETRIES - w1.rs.outbox[i].payload.capacity.retryCount
  {
    var w := MarkAll(f, w0, w1, |w1.rs.outbox|);
    var e := w.rs.outbox[i].payload.capacity;
    if w.rs.outbox[i].topic == CapacityFailedTopic {
      x := DeadFails(f, w0, w, i, c);
    } else {
      LeadsOn(f, w0, w, HandleConfirm(i, STALLED));
      var y := DoConfirm(w, i, STALLED);
      StalledRetries(w.rs, e);
      var n := |w.rs.outbox|;
      assert y.rs.outbox == w.rs.outbox + [M.RetryRow(e)] && ConfirmAt(y, n, c);
      x := ConfirmFails(f, w0, y, n, c);
    }
  }

  /** So can a captured row that still waits. */
  lemma CapturedFails(f: Faults, w0: World, w1: World, i: nat, c: ConsignmentId) returns (x: World)
    requires Leads(f, w0, w1) && CapturedAt(w1, i, c) && i !in w1.csDone
    requires w1.cs.outbox[i].topic == PaymentCapturedTopic
    requires forall j: nat :: j in w1.rsDone ==> j < |w1.rs.outbox|
    ensures Leads(f, w0, x) && HasVerdict(x, c)
  {
    var w := MarkAll(f, w0, w1, |w1.rs.outbox|);
    var e := M.EventOfCaptured(w.cs.outbox[i].payload.captured);
    LeadsOn(f, w0, w, HandleCaptured(i, STALLED));
    var y := DoCaptured(w, i, STALLED);
    StalledRetries(w.rs, e);
    var n := |w.rs.outbox|;
    assert y.rs.outbox == w.rs.outbox + [M.RetryRow(e)] && ConfirmAt(y, n, c);
    x := ConfirmFails(f, w0, y, n, c);
  }

  lemma LiveCanFail(f: Faults, w: World, c: ConsignmentId, p: Place) returns (x: World)
    requires Inv(f, w) && LateAt(w, c, p)
    ensures Leads(f, w, x) && HasVerdict(x, c)
  {
    assert Execute(f, w, []) == Some(w);
    if VerdictAt(w, c, p) {
      x := w;
    } else if p.CsRow? {
      assert CsRowOk(w, w.cs.outbox[p.i]);
      x := CapturedFails(f, w, w, p.i, c);
    } else {
      assert RsRowOk(w, w.rs.outbox[p.i]);
      x := ConfirmFails(f, w, w, p.i, c);
    }
  }

  /** Of a committed consignment no later world of any run has a verdict, exactly if its saga
      has ended: every captured and confirm row of it was handled and none is a verdict. */
  lemma StrandedExactly(f: Faults, w: World, c: ConsignmentId)
    requires Reachable(f, w) && ConfirmsOnce(f) && Committed(w, c)
    ensures (forall x :: Leads(f, w, x) ==> !HasVerdict(x, c)) <==> Ended(w, c)
  {
    if Ended(w, c) {
      forall x | Leads(f, w, x) ensures !HasVerdict(x, c) {
        var ls :| Execute(f, w, ls) == Some(x);
        StrandedForever(f, w, c, ls);
      }
    } else {
      ReachableOk(f, w);
      var p :| LateAt(w, c, p);
      var x := LiveCanFail(f, w, c, p);
    }
  }

  // ---------- it happens ----------

  const INFO := ReservationInfo("r", "v", "c", 1, 1)

  /** The expiry row is the reservation service's only one, and the captured row of "c" waits. */
  predicate Racing(w: World) {
    && w.rs.outbox == [M.ExpiredRow(INFO)] && "v" in w.rs.ledger.vessels
    && w.cs.outbox == [N.AuthorisedRow(F.EventAt(0)), F.CAPTURED_ROW] && w.csDone == {0}
  }

  /** The capture of "c" is committed, and before its captured event is handled the reservation
      expires and is reported. */
  lemma ExpiryReported(f: Faults) returns (w: World)
    ensures Reachable(f, w) && Racing(w) && "r" in w.rs.keys.data
  {
    var w0 := R.CommitsOnce(f);
    StepOn(f, w0, ExpireId("r"));
    var w1 := w0.(rs := w0.rs.(keys := C.DropId(w0.rs.keys, "r")));
    StepOn(f, w1, PassReads("r"));
    var w2 := w1.(seen := w1.seen + {INFO});
    StepOn(f, w2, PassWrites(INFO));
    w := w2.(rs := M.Write(w2.rs, M.ExpiredRow(INFO), false));
  }

  lemma GateIsWon(s: M.Rs)
    requires "r" in s.keys.data && "v" in s.ledger.vessels
    ensures var t := M.Process(s, M.EventOfExpired(INFO), R.WORKING);
            t.outbox == s.outbox && "r" !in t.keys.data && "v" in t.ledger.vessels
  {
  }

  /** The expiry wins the gate, and its release is answered. */
  lemma ExpiryWins(f: Faults) returns (w: World)
    ensures Reachable(f, w) && Racing(w) && "r" !in w.rs.keys.data
  {
    var w0 := ExpiryReported(f);
    GateIsWon(w0.rs);
    StepOn(f, w0, HandleExpiredRs(0, R.WORKING));
    w := w0.(rs := M.Process(w0.rs, M.EventOfExpired(INFO), R.WORKING));
  }

  lemma GateIsLost(s: M.Rs, e: CapacityEvent)
    requires !e.cacheCleared && e.info.id !in s.keys.data
    ensures M.Process(s, e, R.WORKING).outbox == s.outbox && M.Completes(s, e, R.WORKING)
  {
  }

  lemma RaceIsOver(w: World)
    requires w.rs.outbox == [M.ExpiredRow(INFO)] && w.csDone == {0, 1}
    requires w.cs.outbox == [N.AuthorisedRow(F.EventAt(0)), F.CAPTURED_ROW]
    ensures Ended(w, "c")
  {
    assert CapturedAt(w, 1, "c");
    forall p ensures !LateAt(w, "c", p) {
    }
  }

  /** The captured event then finds the cache empty and is done with. */
  lemma ExpiryStrands(f: Faults) returns (w: World)
    ensures Reachable(f, w) && Ended(w, "c")
  {
    var w0 := ExpiryWins(f);
    GateIsLost(w0.rs, M.EventOfCaptured(w0.cs.outbox[1].payload.captured));
    w := CapturedRun(f, w0, 1, w0.cs.outbox[1].payload.captured, R.WORKING);
    RaceIsOver(w);
  }
}
