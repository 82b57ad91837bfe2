/** The faults around a capture, and handling an authorised row again, are exactly what breaks
    compensation: each alone has a run whose failure event denies a capture that was made, and
    strands it. */
module SagaFaults {
  import opened Types
  import opened Events
  import L = VesselLedger
  import C = ReservationCache
  import P = Payments
  import M = CapacityManager
  import N = Consignments
  import opened SagaSystem
  import opened SagaRuns
  import opened SagaVerdicts

  const SHIP := L.Vessel(1, 1, 0, 0, 0, 0)
  const HELD := Grant("c", "v", 1, 1)

  function EventAt(n: nat): PaymentAuthorisedEvent {
    PaymentAuthorisedEvent("c", "r", "v", "a", 1, 1, n, false, "")
  }

  /** The saga of "c" waits in its n-th authorised row, the n before it handled. */
  predicate Waiting(w: World, n: nat, status: P.Status) {
    && |w.cs.outbox| == n + 1 && w.cs.outbox[0] == N.AuthorisedRow(EventAt(0))
    && w.cs.outbox[n].topic == PaymentAuthorisedTopic && w.cs.outbox[n].payload == Authorised(EventAt(n))
    && n !in w.csDone
    && "c" in w.cs.consignments
    && w.cs.payments == map["a" := P.Payment("c", status, if status == P.StatusCaptured then "c" else "")]
  }

  /** The reservation of "c" is cached and logged, and nothing more was done with it. */
  predicate Booked(w: World) {
    && "r" in w.rs.keys.ids && "r" in w.rs.keys.data
    && w.rs.keys.data["r"].info == ReservationInfo("r", "v", "c", 1, 1)
    && "v" in w.rs.ledger.vessels && w.rs.ledger.ops.Keys == {L.OpKey("r", L.Reserve)}
  }

  lemma GrantBooks(w: World)
    requires w.rs == M.Rs(L.Ledger(map["v" := SHIP], map[]), C.Keys(map[], map[]), [])
    ensures Booked(DoGrant(w, "r", HELD, C.Ttl(1, 1), 0))
    ensures DoGrant(w, "r", HELD, C.Ttl(1, 1), 0).rs.outbox == []
  {
  }

  /** Granted and recorded. */
  lemma Recorded(f: Faults) returns (w: World)
    ensures Reachable(f, w) && w.asked == map[] && w.csDone == {} && w.rsDone == {} && w.rs.outbox == []
    ensures w.cs == N.Cs(map["c" := N.NewConsignment("r", "v", 1, 1)], map[], [])
    ensures Booked(w)
  {
    StartReachable(f);
    StepOn(f, INIT, AddVessel("v", SHIP));
    var w1 := INIT.(rs := INIT.rs.(ledger := L.Ledger(map["v" := SHIP], map[])));
    assert Apply(f, INIT, AddVessel("v", SHIP)) == w1;
    assert L.Finds(w1.rs.ledger, L.Specification("r", 1, 1), Some("v"));
    StepOn(f, w1, GrantReservation("r", HELD, C.Ttl(1, 1), 0));
    var w2 := DoGrant(w1, "r", HELD, C.Ttl(1, 1), 0);
    GrantBooks(w1);
    StepOn(f, w2, CreateRecord("r"));
    w := w2.(cs := N.OnCreate(w2.cs, "c", N.Granted("r", "v"), 1, 1, false));
  }

  lemma Asking(f: Faults) returns (w: World)
    ensures Reachable(f, w) && Waiting(w, 0, P.StatusAuthorised)
    ensures w.rs.outbox == [] && w.csDone == {} && w.rsDone == {}
    ensures w.cs.consignments == map["c" := N.NewConsignment("r", "v", 1, 1)]
    ensures Booked(w)
  {
    var w3 := Recorded(f);
    StepOn(f, w3, AuthorisePayment("c", "a"));
    var w4 := w3.(cs := N.Authorise(w3.cs, "c", "a", Answered), asked := w3.asked["c" := Paying("a")]);
    StepOn(f, w4, AnnounceAuthorised("c"));
    w := w4.(cs := w4.cs.(outbox := [N.AuthorisedRow(EventAt(0))]), asked := w4.asked["c" := Announced("a")]);
    assert w == Apply(f, w4, AnnounceAuthorised("c"));
  }

  const CAPTURED_ROW := N.CapturedRow(EventAt(0).(paymentCaptured := true, payment := "c"))
  const CAPTURED_TABLE := map["a" := P.Payment("c", P.StatusCaptured, "c")]

  function CaptureOnce(net: Net, txFails: bool, writeFails: bool): N.Env {
    N.Env([N.PayRpc(net, ["a"])], txFails, writeFails)
  }

  /** The payment of "c" is authorised, or captured under its id. */
  predicate Capturable(t: P.Table) {
    t == map["a" := P.Payment("c", P.StatusAuthorised, "")] || t == CAPTURED_TABLE
  }

  lemma CaptureApplies(t: P.Table, net: Net)
    requires Capturable(t) && !net.Dropped?
    ensures N.AfterCalls(t, N.CaptureAsk(EventAt(0)), CaptureOnce(net, false, false).calls) == CAPTURED_TABLE
    ensures N.CallsReply(t, N.CaptureAsk(EventAt(0)), CaptureOnce(net, false, false).calls)
            == if net.Answered? then Some("c") else None
  {
    assert [N.PayRpc(net, ["a"])][1..] == [];
  }

  function AfterCommit(s: N.Cs): N.Cs
    requires "c" in s.consignments
  {
    N.Cs(s.consignments["c" := s.consignments["c"].(status := N.ConfirmationPending, payment := "c")],
         CAPTURED_TABLE, s.outbox + [CAPTURED_ROW])
  }

  /** A run in which everything works commits, also when the payment was captured before. */
  lemma CaptureCommits(s: N.Cs)
    requires Capturable(s.payments) && "c" in s.consignments
    ensures N.OnAuthorised(s, EventAt(0), CaptureOnce(Answered, false, false)) == AfterCommit(s)
    ensures N.CompletesAuthorised(s, EventAt(0), CaptureOnce(Answered, false, false))
  {
    CaptureApplies(s.payments, Answered);
  }

  /** The capture succeeds, the transaction fails and so does the rescheduling. */
  lemma CapturedUnrecorded(f: Faults, w: World) returns (x: World)
    requires f.rescheduleMayFail && Reachable(f, w) && Waiting(w, 0, P.StatusAuthorised)
    ensures Reachable(f, x) && Waiting(x, 0, P.StatusCaptured)
  {
    var env := CaptureOnce(Answered, true, true);
    StepOn(f, w, HandleAuthorised(0, env));
    x := DoAuthorised(w, 0, env);
    CaptureApplies(w.cs.payments, Answered);
  }

  /** The capture succeeds and the handler stops before it writes anything. */
  lemma CapturedAndStopped(f: Faults, w: World) returns (x: World)
    requires f.captureMayCrash && Reachable(f, w) && Waiting(w, 0, P.StatusAuthorised)
    ensures Reachable(f, x) && Waiting(x, 0, P.StatusCaptured)
  {
    var calls := [N.PayRpc(Answered, ["a"])];
    StepOn(f, w, CaptureCrashes(0, calls));
    x := DoCrash(w, 0, calls);
    CaptureApplies(w.cs.payments, Answered);
  }

  /** The capture succeeds, but its reply is lost; the event is rescheduled as uncaptured. */
  lemma CapturedUnheard(f: Faults, w: World) returns (x: World)
    requires f.captureMayApply && Reachable(f, w) && Waiting(w, 0, P.StatusAuthorised)
    ensures Reachable(f, x) && Waiting(x, 1, P.StatusCaptured)
  {
    var env := CaptureOnce(Net.Lost, false, false);
    assert RowsAreBounded(w) by { ReachableRows(f, w); }
    StepOn(f, w, HandleAuthorised(0, env));
    x := DoAuthorised(w, 0, env);
    CaptureApplies(w.cs.payments, Net.Lost);
  }

  ghost predicate RowsAreBounded(w: World) {
    forall i: nat :: i in w.csDone ==> i < |w.cs.outbox|
  }

  lemma ReachableRows(f: Faults, w: World)
    requires Reachable(f, w)
    ensures RowsAreBounded(w)
  {
    ReachableOk(f, w);
  }

  /** The saga of "c" has ended in a failure event that says its payment is not captured. */
  predicate GivenUp(w: World, status: P.Status) {
    && 4 < |w.cs.outbox| && w.cs.outbox[0] == N.AuthorisedRow(EventAt(0))
    && w.cs.outbox[4].topic == ConfirmationFailedTopic
    && w.cs.outbox[4].payload == ConfirmationFailed(ConfirmationFailedEvent("c", "", "a", false))
    && "c" in w.cs.consignments
    && w.cs.payments == map["a" := P.Payment("c", status, if status == P.StatusCaptured then "c" else "")]
  }

  predicate Denied(w: World) {
    GivenUp(w, P.StatusCaptured)
  }

  /** The message runs again and no capture attempt gets through: the event is rescheduled or
      given up. */
  lemma CaptureUnreached(f: Faults, w: World, n: nat, status: P.Status) returns (x: World)
    requires Reachable(f, w) && Waiting(w, n, status) && n <= N.MAX_RETRIES
    ensures Reachable(f, x)
    ensures if n < N.MAX_RETRIES then Waiting(x, n + 1, status) else GivenUp(x, status)
  {
    var env := CaptureOnce(Dropped, false, false);
    ReachableRows(f, w);
    x := AuthorisedRun(f, w, n, EventAt(n), env);
    var ask := N.CaptureAsk(EventAt(n));
    assert env.calls[1..] == [];
    assert N.CallsReply(w.cs.payments, ask, env.calls) == None;
    assert N.AfterCalls(w.cs.payments, ask, env.calls) == w.cs.payments;
  }

  /** An outage of the payment service from the n-th row on ends in a failure event. */
  lemma OutageGivesUp(f: Faults, w: World, n: nat, status: P.Status) returns (x: World)
    requires Reachable(f, w) && Waiting(w, n, status) && n <= N.MAX_RETRIES
    ensures Reachable(f, x) && GivenUp(x, status)
    decreases N.MAX_RETRIES - n
  {
    x := CaptureUnreached(f, w, n, status);
    if n < N.MAX_RETRIES {
      x := OutageGivesUp(f, x, n + 1, status);
    }
  }

  lemma UnrecordedDenies(f: Faults) returns (w: World)
    requires f.rescheduleMayFail
    ensures Reachable(f, w) && Denied(w)
  {
    w := Asking(f);
    w := CapturedUnrecorded(f, w);
    w := OutageGivesUp(f, w, 0, P.StatusCaptured);
  }

  lemma LostReplyDenies(f: Faults) returns (w: World)
    requires f.captureMayApply
    ensures Reachable(f, w) && Denied(w)
  {
    w := Asking(f);
    w := CapturedUnheard(f, w);
    w := OutageGivesUp(f, w, 1, P.StatusCaptured);
  }

  lemma CrashDenies(f: Faults) returns (w: World)
    requires f.captureMayCrash
    ensures Reachable(f, w) && Denied(w)
  {
    w := Asking(f);
    w := CapturedAndStopped(f, w);
    w := OutageGivesUp(f, w, 0, P.StatusCaptured);
  }

  /** The saga has given up, and its first authorised row is handled again: it is captured. */
  lemma ReplayDenies(f: Faults) returns (w: World)
    requires f.replayAuthorised
    ensures Reachable(f, w) && Denied(w)
  {
    var w0 := Asking(f);
    var w1 := OutageGivesUp(f, w0, 0, P.StatusAuthorised);
    var env := CaptureOnce(Answered, false, false);
    CaptureCommits(w1.cs);
    w := AuthorisedRun(f, w1, 0, EventAt(0), env);
  }

  lemma Denying(f: Faults) returns (w: World)
    requires !CapturesSound(f)
    ensures Reachable(f, w) && Denied(w)
  {
    if f.rescheduleMayFail {
      w := UnrecordedDenies(f);
    } else if f.captureMayApply {
      w := LostReplyDenies(f);
    } else if f.captureMayCrash {
      w := CrashDenies(f);
    } else {
      w := ReplayDenies(f);
    }
  }

  lemma DeniedMismatches(w: World)
    requires Denied(w)
    ensures !CompensationMatches(w)
  {
    var e := w.cs.outbox[4].payload.failed;
    forall a | a in w.cs.payments ensures !PaymentMatches(w, e, a) {
    }
    assert !EventMatches(w, e);
  }

  /** In every run every failure event matches its payment, exactly if none of the three faults
      around a capture can happen and no authorised row is handled again. */
  lemma CompensationNeedsNoFaults(f: Faults)
    ensures (forall w :: Reachable(f, w) ==> CompensationMatches(w)) <==> CapturesSound(f)
  {
    if !CapturesSound(f) {
      var w := Denying(f);
      DeniedMismatches(w);
    } else {
      forall w | Reachable(f, w) ensures CompensationMatches(w) {
        MatchesWithoutFaults(f, w);
      }
    }
  }

  /** Whatever failure event is handled next, with a payment call that gets through, its
      payment is no longer held. */
  ghost predicate CompensationReleases(f: Faults, w: World) {
    forall fromRs, row, calls, updateFails
      | Reaches(calls) && Enabled(f, w, HandleFailed(fromRs, row, calls, updateFails)) ::
      !PaymentStands(Apply(f, w, HandleFailed(fromRs, row, calls, updateFails)),
                     FailedEvent(w, fromRs, row).consignment, P.StatusCaptured)
  }

  /** No run strands captured money behind an answered compensation, on the same condition. */
  lemma NothingStranded(f: Faults)
    ensures (forall w :: Reachable(f, w) ==> CompensationReleases(f, w)) <==> CapturesSound(f)
  {
    if !CapturesSound(f) {
      var w := Denying(f);
      VoidLeavesCaptured(f, w);
    } else {
      forall w | Reachable(f, w) ensures CompensationReleases(f, w) {
        forall fromRs, row, calls, updateFails
          | Reaches(calls) && Enabled(f, w, HandleFailed(fromRs, row, calls, updateFails))
          ensures !PaymentStands(Apply(f, w, HandleFailed(fromRs, row, calls, updateFails)),
                                 FailedEvent(w, fromRs, row).consignment, P.StatusCaptured)
        {
          CompensationEnds(f, w, fromRs, row, calls, updateFails);
        }
      }
    }
  }

  lemma VoidLeavesCaptured(f: Faults, w: World)
    requires Denied(w)
    ensures !CompensationReleases(f, w)
  {
    var calls := [N.PayRpc(Answered, ["a"])];
    assert calls[0].net.Answered? && P.Covers(w.cs.payments, calls[0].order);
    assert Enabled(f, w, HandleFailed(false, 4, calls, false));
    var x := Apply(f, w, HandleFailed(false, 4, calls, false));
    assert calls[1..] == [];
    assert N.AfterCalls(w.cs.payments, N.AskVoid("a"), calls) == w.cs.payments;
    assert x.cs.payments == w.cs.payments;
    assert "a" in x.cs.payments;
    assert PaymentStands(x, "c", P.StatusCaptured);
  }
}
