/** The three extra faults are exactly the ones that break capacity safety: each of them
    alone has a run that confirms and releases one reservation and drives a counter negative. */
module CapacityFaults {
  import opened Types
  import opened Events
  import L = VesselLedger
  import C = ReservationCache
  import M = CapacityManager
  import N = Consignments
  import opened CapacitySystem
  import Safety = CapacitySafety

  /** Some run leads from w to x. */
  ghost predicate Leads(f: Faults, w: World, x: World) {
    exists ls :: Execute(f, w, ls) == Some(x)
  }

  lemma OneStep(f: Faults, w: World, l: Label)
    requires Enabled(f, w, l)
    ensures Leads(f, w, Apply(f, w, l))
  {
    assert [l][..0] == [];
    assert Execute(f, w, [l][..0]) == Some(w);
    assert Execute(f, w, [l]) == Some(Apply(f, w, l));
  }

  lemma {:induction false} ExecuteAppend(f: Faults, w: World, a: seq<Label>, b: seq<Label>)
    requires Execute(f, w, a).Some?
    ensures Execute(f, w, a + b) == Execute(f, Execute(f, w, a).value, b)
  {
    if b == [] {
      assert a + b == a;
    } else {
      var n := |b| - 1;
      ExecuteAppend(f, w, a, b[..n]);
      assert (a + b)[..|a + b| - 1] == a + b[..n];
    }
  }

  lemma LeadsOn(f: Faults, w: World, x: World, y: World)
    requires Leads(f, w, x) && Leads(f, x, y)
    ensures Leads(f, w, y)
  {
    var a :| Execute(f, w, a) == Some(x);
    var b :| Execute(f, x, b) == Some(y);
    ExecuteAppend(f, w, a, b);
  }

  lemma StepOn(f: Faults, w: World, x: World, l: Label)
    requires Leads(f, w, x) && Enabled(f, x, l)
    ensures Leads(f, w, Apply(f, x, l))
  {
    OneStep(f, x, l);
    LeadsOn(f, w, x, Apply(f, x, l));
  }

  // ---------- one failing confirm ----------

  const INFO := ReservationInfo("r", "v", "", 1, 1)

  /** The confirm of reservation "r", past the gate, at its n-th retry. */
  function ConfirmAt(n: nat): CapacityEvent {
    CapacityEvent(ConfirmAction, INFO, true, n, "c", "p")
  }

  /** Thread `t` runs that confirm, and no later retry of it has been written. */
  predicate Confirming(w: World, t: nat, n: nat, token: bool) {
    && t in w.threads && w.threads[t] == Thread(ConfirmAt(n), Calling, 0, token)
    && (forall row :: row in w.rs.outbox && row.key.Retry? && row.key.of == "r" ==> row.key.count <= n)
    && (forall u :: u in w.threads ==> u <= t)
    && "v" in w.rs.ledger.vessels
  }

  const NO_ANSWER := M.Rpc(Net.Dropped, L.NoFault)
  const ANSWER := M.Rpc(Net.Answered, L.NoFault)

  /** From a calling thread: the call fails and the handler gives up. */
  lemma CallFails(f: Faults, w: World, t: nat, n: nat, token: bool) returns (x: World)
    requires Confirming(w, t, n, token)
    ensures Leads(f, w, x) && x == SetThread(w, t, Thread(ConfirmAt(n), GivenUp, 1, token))
  {
    OneStep(f, w, Call(t, NO_ANSWER));
    var y := ApplyCall(w, t, NO_ANSWER);
    assert y == SetThread(w, t, Thread(ConfirmAt(n), Calling, 1, token));
    StepOn(f, w, y, GiveUp(t));
    x := SetThread(y, t, y.threads[t].(pc := GivenUp));
    assert x.threads == w.threads[t := Thread(ConfirmAt(n), GivenUp, 1, token)];
  }

  /** The retry is written: nothing pending swallows it. */
  lemma RetryWritten(w: World, n: nat)
    requires forall row :: row in w.rs.outbox && row.key.Retry? && row.key.of == "r" ==> row.key.count <= n
    ensures AddRow(w, M.RetryRow(ConfirmAt(n)), false).rs == w.rs.(outbox := w.rs.outbox + [M.RetryRow(ConfirmAt(n))])
  {
    var row := M.RetryRow(ConfirmAt(n));
    forall i | 0 <= i < |w.rs.outbox| ensures w.rs.outbox[i].key != row.key {
      assert w.rs.outbox[i] in w.rs.outbox;
    }
  }

  /** The call fails, the handler schedules the next try, and that starts: the ledger has not
      moved. With `replay` the old message is also delivered again. */
  lemma Retry(f: Faults, w: World, t: nat, n: nat, token: bool, replay: bool) returns (x: World)
    requires Confirming(w, t, n, token)
    requires n + 1 < M.MAX_RETRIES && (replay ==> f.replayScheduled && token)
    ensures Leads(f, w, x) && Confirming(x, t + 1, n + 1, true) && x.rs.ledger == w.rs.ledger
    ensures replay ==> t in x.threads && x.threads[t] == Thread(ConfirmAt(n), Idle, 0, true)
  {
    var y := CallFails(f, w, t, n, token);
    RetryWritten(y, n);
    var z := ApplySchedule(y, t, false, t + 1, replay);
    StepOn(f, w, y, Schedule(t, false, t + 1, replay));
    assert z.threads[t + 1] == Thread(ConfirmAt(n + 1), Idle, 0, true);
    StepOn(f, w, z, Start(t + 1));
    x := SetThread(z, t + 1, z.threads[t + 1].(pc := Calling));
  }

  /** The last try fails and leaves a dead letter. */
  lemma Die(f: Faults, w: World, t: nat) returns (x: World)
    requires Confirming(w, t, 2, true)
    ensures Leads(f, w, x) && x.rs.ledger == w.rs.ledger
    ensures x.rs.outbox == w.rs.outbox + [M.RetryRow(ConfirmAt(2))]
    ensures x.threads == w.threads - {t}
  {
    var y := CallFails(f, w, t, 2, true);
    RetryWritten(y, 2);
    x := ApplySchedule(y, t, false, t + 1, false);
    StepOn(f, w, y, Schedule(t, false, t + 1, false));
  }

  /** A release of the reservation is under way. */
  predicate Releasing(w: World, t: nat) {
    t in w.threads && w.threads[t] == Thread(M.Reversal(ConfirmAt(3)), Calling, 0, false)
  }

  lemma ReleaseAnswered(f: Faults, w: World, t: nat) returns (x: World)
    requires Releasing(w, t) && !IsReleased(w, "r") && "v" in w.rs.ledger.vessels
    ensures Leads(f, w, x) && x.rs.ledger == L.Record(w.rs.ledger, RELEASE_ENTRY)
    ensures forall u :: u in w.threads && u != t ==> u in x.threads && x.threads[u] == w.threads[u]
  {
    OneStep(f, w, Call(t, ANSWER));
    x := ApplyCall(w, t, ANSWER);
    assert L.Answer(w.rs.ledger, L.Attempt(M.CallOf(w.threads[t].event), L.NoFault)).Ok?;
  }

  /** Its dead letter releases; everything else in the ledger stays. */
  lemma DieAndRelease(f: Faults, w: World, t: nat) returns (x: World)
    requires Confirming(w, t, 2, true) && !IsReleased(w, "r")
    ensures Leads(f, w, x) && "v" in w.rs.ledger.vessels
    ensures x.rs.ledger == L.Record(w.rs.ledger, RELEASE_ENTRY)
    ensures forall u :: u in w.threads && u != t ==> u in x.threads && x.threads[u] == w.threads[u]
  {
    var y := Die(f, w, t);
    var n := |w.rs.outbox|;
    assert y.rs.outbox[n] == M.RetryRow(ConfirmAt(2));
    var z := SetThread(y, t + 1, NewThread(M.Reversal(ConfirmAt(3))));
    StepOn(f, w, y, DeliverRow(t + 1, n));
    x := ReleaseAnswered(f, z, t + 1);
    LeadsOn(f, w, z, x);
  }

  const CONFIRM_ENTRY := L.Entry(L.Confirm, "r", "v", 1, 1)
  const RELEASE_ENTRY := L.Entry(L.Release, "r", "v", 1, 1)

  /** A confirm call that is applied, answered or not. */
  lemma ConfirmApplies(f: Faults, w: World, t: nat, n: nat, net: Net) returns (x: World)
    requires Confirming(w, t, n, true) && !IsConfirmed(w, "r")
    requires net.Answered? || (net.Lost? && f.confirmMayApply)
    ensures Leads(f, w, x) && x.rs == w.rs.(ledger := L.Record(w.rs.ledger, CONFIRM_ENTRY))
    ensures x.threads == w.threads[t := if net.Answered? then Thread(ConfirmAt(n), Applied, 0, true)
                                        else Thread(ConfirmAt(n), Calling, 1, true)]
  {
    var rpc := M.Rpc(net, L.NoFault);
    var e := ConfirmAt(n);
    OneStep(f, w, Call(t, rpc));
    x := ApplyCall(w, t, rpc);
    assert M.CallOf(e) == L.ConfirmCall(L.CapacityRequest("r", "v", 1, 1));
    assert L.Answer(w.rs.ledger, L.Attempt(M.CallOf(e), L.NoFault)).Ok?;
  }

  // ---------- up to the first retry ----------

  const VESSEL := L.Vessel(1, 1, 0, 0, 0, 0)
  const HELD_LEDGER := L.Ledger(map["v" := VESSEL.(reservedWeight := 1, reservedCapacity := 1)],
                               map[L.OpKey("r", L.Reserve) := "v"])

  lemma Reserving(f: Faults) returns (x: World)
    ensures Leads(f, INIT, x)
    ensures x.rs == INIT.rs.(ledger := HELD_LEDGER) && x.threads == map[] && x.records == map[] && x.captured == {}
    ensures x.rpcs == map["r" := Rpc("c", 1, 1, Storing("v"))]
  {
    assert forall d :: L.Reserved(VESSEL, d) == 0 && L.Used(VESSEL, d) == 0 && L.Limit(VESSEL, d) == 1;
    OneStep(f, INIT, AddVessel("v", VESSEL));
    var w1 := Apply(f, INIT, AddVessel("v", VESSEL));
    StepOn(f, INIT, w1, BeginReserve("r", "c", 1, 1));
    var w2 := w1.(rpcs := w1.rpcs["r" := Rpc("c", 1, 1, CapacitySystem.Reserving)]);
    assert w2.rs.ledger == L.Ledger(map["v" := VESSEL], map[]);
    var a := ReserveAttempt("r", w2.rpcs["r"], Some("v"), L.NoFault);
    assert L.Finds(w2.rs.ledger, L.Specification("r", 1, 1), Some("v"));
    assert L.Answer(w2.rs.ledger, a) == L.Ok("v");
    StepOn(f, INIT, w2, ReserveArrives("r", Some("v"), L.NoFault, true));
    x := ApplyReserve(w2, "r", Some("v"), L.NoFault, true);
    assert L.Exec(w2.rs.ledger, a) == L.Record(w2.rs.ledger, L.Entry(L.Reserve, "r", "v", 1, 1));
    assert x.rs.ledger == HELD_LEDGER;
  }

  const CAPTURED := PaymentCapturedEvent(INFO, "c", "p")

  /** The consignment is made and its captured event published. */
  lemma Telling(f: Faults) returns (x: World)
    ensures Leads(f, INIT, x)
    ensures x.rs.ledger == HELD_LEDGER && x.rs.outbox == [] && "r" in x.rs.keys.data
    ensures x.threads == map[] && x.captured == {CAPTURED}
  {
    var w := Reserving(f);
    StepOn(f, INIT, w, Store("r", C.Ttl(1, 1), 0, C.StoreOk));
    var w1 := ApplyStore(w, "r", C.Ttl(1, 1), 0, C.StoreOk);
    assert w1.rpcs["r"] == Rpc("c", 1, 1, Granted("v"));
    StepOn(f, INIT, w1, CreateRecord("r"));
    var w2 := w1.(records := w1.records["c" := N.NewConsignment("r", "v", 1, 1)]);
    StepOn(f, INIT, w2, PublishCaptured("c", "a", "p"));
    x := Apply(f, w2, PublishCaptured("c", "a", "p"));
    assert x.captured == {CAPTURED};
  }

  /** The captured event wins the gate. */
  lemma GateWon(f: Faults) returns (x: World)
    ensures Leads(f, INIT, x) && Confirming(x, 0, 0, false) && x.rs.ledger == HELD_LEDGER
  {
    var w := Telling(f);
    StepOn(f, INIT, w, DeliverCaptured(0, CAPTURED));
    var w1 := SetThread(w, 0, NewThread(M.EventOfCaptured(CAPTURED)));
    StepOn(f, INIT, w1, Gate(0, C.DeleteOk));
    x := ApplyGate(w1, 0, C.DeleteOk);
    assert x.threads == map[0 := Thread(ConfirmAt(0), Calling, 0, false)];
  }

  /** Its first try fails, and the first retry is running: a cache-cleared confirm message. */
  lemma FirstRetry(f: Faults) returns (x: World)
    ensures Leads(f, INIT, x) && Confirming(x, 1, 1, true) && x.rs.ledger == HELD_LEDGER
  {
    var w := GateWon(f);
    x := Retry(f, w, 0, 0, false, false);
    LeadsOn(f, INIT, w, x);
  }

  // ---------- the three runs ----------

  ghost predicate Breaks(w: World) {
    !Exclusive(w) && !NotOverbooked(w)
  }

  /** A confirm and a release, in either order, on top of the one reserve. */
  lemma BothBreak(w: World)
    requires "v" in L.Record(HELD_LEDGER, CONFIRM_ENTRY).vessels && "v" in L.Record(HELD_LEDGER, RELEASE_ENTRY).vessels
    requires w.rs.ledger == L.Record(L.Record(HELD_LEDGER, CONFIRM_ENTRY), RELEASE_ENTRY)
             || w.rs.ledger == L.Record(L.Record(HELD_LEDGER, RELEASE_ENTRY), CONFIRM_ENTRY)
    ensures Breaks(w)
  {
    assert IsConfirmed(w, "r") && IsReleased(w, "r");
    assert L.Reserved(w.rs.ledger.vessels["v"], L.Weight) == -1;
  }

  /** A cache-cleared message whose confirm was applied, run again, failing and dying. */
  lemma AppliedAndRedelivered(f: Faults, w: World, x: World) returns (y: World)
    requires Confirming(w, 1, 1, true) && w.rs.ledger == HELD_LEDGER && Leads(f, INIT, w) && Leads(f, w, x)
    requires x.rs == w.rs.(ledger := L.Record(HELD_LEDGER, CONFIRM_ENTRY))
    requires x.threads.Keys == w.threads.Keys && Enabled(f, x, Crash(1, true)) && x.threads[1].event == ConfirmAt(1)
    requires x.threads[1].token
    ensures Leads(f, INIT, y) && Breaks(y)
  {
    LeadsOn(f, INIT, w, x);
    var z1 := Redelivered(f, x);
    var z2 := Retry(f, z1, 1, 1, true, false);
    LeadsOn(f, INIT, z1, z2);
    y := DieAndRelease(f, z2, 2);
    LeadsOn(f, INIT, z2, y);
    BothBreak(y);
  }

  lemma Redelivered(f: Faults, x: World) returns (z: World)
    requires Leads(f, INIT, x) && Enabled(f, x, Crash(1, true)) && x.threads[1].event == ConfirmAt(1)
    requires x.threads[1].token
    ensures Leads(f, INIT, z) && z.rs == x.rs
    ensures z == x.(threads := x.threads[1 := Thread(ConfirmAt(1), Calling, 0, true)])
  {
    StepOn(f, INIT, x, Crash(1, true));
    var y := Requeue(x, 1);
    StepOn(f, INIT, y, Start(1));
    z := SetThread(y, 1, y.threads[1].(pc := Calling));
  }

  /** A confirm that is applied although its call fails. */
  lemma LostConfirmBreaks(f: Faults) returns (y: World)
    requires f.confirmMayApply
    ensures Leads(f, INIT, y) && Breaks(y)
  {
    var w := FirstRetry(f);
    var x := ConfirmApplies(f, w, 1, 1, Net.Lost);
    y := AppliedAndRedelivered(f, w, x);
  }

  /** A confirm that succeeds, but whose message is delivered again. */
  lemma ReplayAppliedBreaks(f: Faults) returns (y: World)
    requires f.replayApplied
    ensures Leads(f, INIT, y) && Breaks(y)
  {
    var w := FirstRetry(f);
    var x := ConfirmApplies(f, w, 1, 1, Net.Answered);
    y := AppliedAndRedelivered(f, w, x);
  }

  /** A message that runs again after its successor has died and released. */
  lemma ReplayScheduledBreaks(f: Faults) returns (y: World)
    requires f.replayScheduled
    ensures Leads(f, INIT, y) && Breaks(y)
  {
    assert "v" in HELD_LEDGER.vessels;
    var a := FirstRetry(f);
    var b := Retry(f, a, 1, 1, true, true);
    LeadsOn(f, INIT, a, b);
    var c := DieAndRelease(f, b, 2);
    LeadsOn(f, INIT, b, c);
    y := LateConfirm(f, c);
  }

  lemma LateCall(d: World)
    requires "v" in HELD_LEDGER.vessels && d.rs.ledger == L.Record(HELD_LEDGER, RELEASE_ENTRY)
    requires 1 in d.threads && d.threads[1].event == ConfirmAt(1)
    ensures Breaks(ApplyCall(d, 1, ANSWER))
  {
    var y := ApplyCall(d, 1, ANSWER);
    var e := ConfirmAt(1);
    var a := L.Attempt(M.CallOf(e), L.NoFault);
    assert M.CallOf(e) == L.ConfirmCall(L.CapacityRequest("r", "v", 1, 1));
    assert L.Answer(d.rs.ledger, a).Ok?;
    assert y.rs.ledger == L.Exec(d.rs.ledger, a);
    BothBreak(y);
  }

  /** A confirm message that runs after the release. */
  lemma LateConfirm(f: Faults, c: World) returns (y: World)
    requires Leads(f, INIT, c) && "v" in HELD_LEDGER.vessels && c.rs.ledger == L.Record(HELD_LEDGER, RELEASE_ENTRY)
    requires 1 in c.threads && c.threads[1] == Thread(ConfirmAt(1), Idle, 0, true)
    ensures Leads(f, INIT, y) && Breaks(y)
  {
    StepOn(f, INIT, c, Start(1));
    var d := SetThread(c, 1, c.threads[1].(pc := Calling));
    StepOn(f, INIT, d, Call(1, ANSWER));
    y := ApplyCall(d, 1, ANSWER);
    LateCall(d);
  }

  /** Capacity safety holds over all runs exactly if none of the three faults can happen. */
  lemma SafetyNeedsNoReplays(f: Faults)
    ensures (forall w :: Leads(f, INIT, w) ==> Exclusive(w)) <==> f == NO_REPLAYS
    ensures (forall w :: Leads(f, INIT, w) ==> NotOverbooked(w)) <==> f == NO_REPLAYS
  {
    if f == NO_REPLAYS {
      forall w | Leads(f, INIT, w) ensures Exclusive(w) && NotOverbooked(w) {
        var ls :| Execute(f, INIT, ls) == Some(w);
        Safety.NeverBoth(ls);
        Safety.NoOverbooking(ls);
      }
    } else {
      var w: World;
      if f.confirmMayApply {
        w := LostConfirmBreaks(f);
      } else if f.replayApplied {
        w := ReplayAppliedBreaks(f);
      } else {
        w := ReplayScheduledBreaks(f);
      }
      assert Leads(f, INIT, w) && !Exclusive(w) && !NotOverbooked(w);
    }
  }
}
