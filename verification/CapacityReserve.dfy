/** The ReserveCapacity RPC, as its class method specifies it, takes steps of the capacity
    system and no others, so capacity safety covers it between any other steps. */
module CapacityReserve {
  import opened Types
  import L = VesselLedger
  import C = ReservationCache
  import M = CapacityManager
  import R = ReserveRpc
  import opened CapacitySystem
  import F = CapacityFaults

  /** The RPC for `q` is under way, in this phase. */
  predicate Serving(w: World, q: R.Request, phase: Phase) {
    && 0 <= q.weight && 0 <= q.containers
    && q.reservation in w.rpcs
    && w.rpcs[q.reservation] == Rpc(q.consignment, q.weight, q.containers, phase)
  }

  ghost predicate OnlyRpc(w: World, x: World, r: ReservationId) {
    && x == w.(log := x.log, rs := x.rs, rpcs := x.rpcs)
    && r in x.rpcs && x.rpcs == w.rpcs[r := x.rpcs[r]]
  }

  /** The retry loop of the vessel call. */
  lemma {:induction false} TriesRun(f: Faults, w: World, q: R.Request, tries: seq<R.Try>) returns (x: World)
    requires Serving(w, q, Reserving) && R.Legal(w.rs.ledger, q, tries)
    ensures F.Leads(f, w, x) && OnlyRpc(w, x, q.reservation)
    ensures x.rs == w.rs.(ledger := R.AfterTries(w.rs.ledger, q, tries))
    ensures var h := R.Heard(w.rs.ledger, q, tries);
            Serving(x, q, if h.Some? then Storing(h.value) else Reserving)
    decreases tries
  {
    var r := q.reservation;
    if tries == [] {
      x := w;
      assert Execute(f, w, []) == Some(w);
    } else if tries[0].net.Dropped? {
      x := TriesRun(f, w, q, tries[1..]);
    } else {
      var t := tries[0];
      var a := ReserveAttempt(r, w.rpcs[r], t.found, t.fault);
      assert a == R.AttemptOf(q, t);
      var heard := t.net.Answered? && L.Answer(w.rs.ledger, a).Ok?;
      F.OneStep(f, w, ReserveArrives(r, t.found, t.fault, heard));
      var y := ApplyReserve(w, r, t.found, t.fault, heard);
      if R.Stops(w.rs.ledger, q, t) {
        x := y;
      } else {
        x := TriesRun(f, y, q, tries[1..]);
        F.LeadsOn(f, w, y, x);
      }
    }
  }

  /** The retry loop of the compensating release. */
  lemma {:induction false} ReleasesRun(f: Faults, w: World, q: R.Request, v: VesselId, calls: seq<M.Rpc>)
    returns (x: World)
    requires Serving(w, q, Compensating(v))
    ensures F.Leads(f, w, x) && OnlyRpc(w, x, q.reservation) && x.rpcs == w.rpcs
    ensures x.rs == w.rs.(ledger := M.AfterCalls(w.rs.ledger, R.ReleaseOf(q, v), calls))
    decreases calls
  {
    var r := q.reservation;
    if calls == [] {
      x := w;
      assert Execute(f, w, []) == Some(w);
    } else if calls[0].net.Dropped? {
      x := ReleasesRun(f, w, q, v, calls[1..]);
    } else {
      F.OneStep(f, w, CompensateArrives(r, calls[0].fault));
      var y := ApplyCompensate(w, r, calls[0].fault);
      assert InfoOfRpc(r, w.rpcs[r]) == R.InfoOf(q, v);
      assert y.rs.ledger == M.AfterRpc(w.rs.ledger, R.ReleaseOf(q, v), calls[0]);
      if M.RpcOk(w.rs.ledger, R.ReleaseOf(q, v), calls[0]) {
        x := y;
      } else {
        x := ReleasesRun(f, y, q, v, calls[1..]);
        F.LeadsOn(f, w, y, x);
      }
    }
  }

  /** The whole RPC. */
  lemma ReserveRun(f: Faults, w: World, q: R.Request, ttl: C.Ttl, now: int, env: R.Env) returns (x: World)
    requires Serving(w, q, Reserving) && R.Legal(w.rs.ledger, q, env.tries)
    ensures F.Leads(f, w, x) && OnlyRpc(w, x, q.reservation)
    ensures var s, t := R.Shared(w.rs.ledger, w.rs.keys), R.Shared(x.rs.ledger, x.rs.keys);
            && t == R.Served(s, q, ttl, now, env) && x.rs.outbox == w.rs.outbox
            && (R.Reply(s, q, env).Some? <==> x.rpcs[q.reservation].phase.Granted?)
  {
    var r := q.reservation;
    x := TriesRun(f, w, q, env.tries);
    var h := R.Heard(w.rs.ledger, q, env.tries);
    if h.Some? {
      var y := x;
      F.StepOn(f, w, y, Store(r, ttl, now, env.store));
      x := ApplyStore(y, r, ttl, now, env.store);
      assert InfoOfRpc(r, y.rpcs[r]) == R.InfoOf(q, h.value);
      if !env.store.StoreOk? {
        var z := x;
        x := ReleasesRun(f, z, q, h.value, env.releases);
        F.LeadsOn(f, w, z, x);
      }
    }
  }
}
