/** The event handlers take steps of the capacity system and no others: an uninterrupted run
    of `processCapacityEvent`, as the service's methods specify it, is a run of its steps.
    So what holds in every reachable state holds between any handler runs. */
module CapacityHandlers {
  import opened Events
  import C = ReservationCache
  import M = CapacityManager
  import opened CapacitySystem
  import F = CapacityFaults

  /** Only the service state and the two threads may differ. */
  ghost predicate OnlyRs(w: World, x: World, t: nat, next: nat) {
    && x.base == w.base && x.rpcs == w.rpcs && x.records == w.records && x.captured == w.captured && x.seen == w.seen
    && forall u :: u != t && u != next ==>
         (u in x.threads <==> u in w.threads)
         && (u in w.threads ==> x.threads[u] == w.threads[u])
  }

  predicate CallsAllowed(f: Faults, e: CapacityEvent, calls: seq<M.Rpc>) {
    e.action.ConfirmAction? && !f.confirmMayApply ==> forall i :: 0 <= i < |calls| ==> !calls[i].net.Lost?
  }

  /** One call, seen by the loop that makes it. */
  lemma CallIs(w: World, t: nat, rpc: M.Rpc)
    requires At(w, t, Calling)
    ensures var th, y := w.threads[t], ApplyCall(w, t, rpc);
            && y.rs == w.rs.(ledger := M.AfterRpc(w.rs.ledger, M.CallOf(th.event), rpc))
            && OnlyRs(w, y, t, t) && y.threads.Keys == w.threads.Keys
            && y.threads[t] == if M.RpcOk(w.rs.ledger, M.CallOf(th.event), rpc) then th.(pc := Applied)
                               else th.(tries := th.tries + 1)
  {
  }

  /** The in-process retry loop, call by call. */
  lemma {:induction false} CallsRun(f: Faults, w: World, t: nat, calls: seq<M.Rpc>) returns (x: World)
    requires At(w, t, Calling) && calls != [] && w.threads[t].tries + |calls| <= M.MAX_RETRIES + 1
    requires CallsAllowed(f, w.threads[t].event, calls)
    ensures F.Leads(f, w, x)
    ensures var e := w.threads[t].event;
            var call := M.CallOf(e);
            && x.rs == w.rs.(ledger := M.AfterCalls(w.rs.ledger, call, calls))
            && OnlyRs(w, x, t, t) && x.threads.Keys == w.threads.Keys
            && x.threads[t].event == e && x.threads[t].token == w.threads[t].token
            && x.threads[t].pc == if M.CallsOk(w.rs.ledger, call, calls) then Applied else GivenUp
    decreases calls
  {
    var e := w.threads[t].event;
    var call := M.CallOf(e);
    F.OneStep(f, w, Call(t, calls[0]));
    var y := ApplyCall(w, t, calls[0]);
    CallIs(w, t, calls[0]);
    if M.RpcOk(w.rs.ledger, call, calls[0]) {
      x := y;
    } else if |calls| == 1 {
      assert M.AfterCalls(y.rs.ledger, call, calls[1..]) == y.rs.ledger;
      F.StepOn(f, w, y, GiveUp(t));
      x := SetThread(y, t, y.threads[t].(pc := GivenUp));
    } else {
      x := CallsRun(f, y, t, calls[1..]);
      F.LeadsOn(f, w, y, x);
    }
  }

  /** The retry a failed run schedules, seen from outside. */
  lemma ScheduleIs(w: World, t: nat, fails: bool, next: nat)
    requires t in w.threads && next !in w.threads
    ensures var x := ApplySchedule(w, t, fails, next, false);
            OnlyRs(w, x, t, next) && x.rs == M.Write(w.rs, M.RetryRow(w.threads[t].event), fails)
  {
  }

  lemma GateIs(w: World, t: nat, delete: C.DeleteFault)
    requires At(w, t, Gating) && !w.threads[t].event.cacheCleared
    ensures var e, y := w.threads[t].event, ApplyGate(w, t, delete);
            && OnlyRs(w, y, t, t)
            && y.rs == (if delete == C.DeleteFails(false) then w.rs
                        else w.rs.(keys := C.DropData(w.rs.keys, e.info.id)))
            && (delete.DeleteFails? ==> At(y, t, GivenUp) && y.threads[t].event == e)
            && (delete.DeleteOk? && e.info.id in w.rs.keys.data ==>
                  At(y, t, Calling) && y.threads[t].event == e.(cacheCleared := true) && y.threads[t].tries == 0)
            && y.threads.Keys <= w.threads.Keys
  {
  }

  /** From the vessel call to the end of the run. */
  lemma ServeRun(f: Faults, w: World, t: nat, next: nat, env: M.Env) returns (x: World)
    requires At(w, t, Calling) && w.threads[t].tries == 0 && next !in w.threads
    requires M.EnvOk(env) && CallsAllowed(f, w.threads[t].event, env.calls)
    ensures F.Leads(f, w, x) && OnlyRs(w, x, t, next)
    ensures x.rs == M.Serve(w.rs, w.threads[t].event, env)
  {
    var y := CallsRun(f, w, t, env.calls);
    if y.threads[t].pc.Applied? {
      F.StepOn(f, w, y, Finish(t, env.deleteId, env.writeFails));
      x := ApplyFinish(y, t, env.deleteId, env.writeFails);
    } else {
      F.StepOn(f, w, y, Schedule(t, env.writeFails, next, false));
      x := ApplySchedule(y, t, env.writeFails, next, false);
      ScheduleIs(y, t, env.writeFails, next);
    }
  }

  /** A run that has to pass the gate. */
  lemma GateRun(f: Faults, w: World, t: nat, next: nat, env: M.Env) returns (x: World)
    requires At(w, t, Gating) && w.threads[t].tries == 0 && next !in w.threads && !w.threads[t].event.cacheCleared
    requires M.EnvOk(env) && CallsAllowed(f, w.threads[t].event, env.calls)
    ensures F.Leads(f, w, x) && OnlyRs(w, x, t, next)
    ensures x.rs == M.Process(w.rs, w.threads[t].event, env)
  {
    var e := w.threads[t].event;
    F.OneStep(f, w, Gate(t, env.delete));
    var y := ApplyGate(w, t, env.delete);
    GateIs(w, t, env.delete);
    if env.delete.DeleteFails? {
      F.StepOn(f, w, y, Schedule(t, env.writeFails, next, false));
      x := ApplySchedule(y, t, env.writeFails, next, false);
      ScheduleIs(y, t, env.writeFails, next);
    } else if e.info.id !in w.rs.keys.data {
      x := y;
    } else {
      x := ServeRun(f, y, t, next, env);
      F.LeadsOn(f, w, y, x);
    }
  }

  /** One whole run of the handler. */
  lemma HandlerRun(f: Faults, w: World, t: nat, next: nat, env: M.Env) returns (x: World)
    requires t in w.threads && w.threads[t].tries == 0 && next !in w.threads
    requires w.threads[t].pc == if w.threads[t].event.cacheCleared then Calling else Gating
    requires M.EnvOk(env) && CallsAllowed(f, w.threads[t].event, env.calls)
    ensures F.Leads(f, w, x) && OnlyRs(w, x, t, next)
    ensures x.rs == M.Process(w.rs, w.threads[t].event, env)
  {
    if w.threads[t].event.cacheCleared {
      x := ServeRun(f, w, t, next, env);
    } else {
      x := GateRun(f, w, t, next, env);
    }
  }
}
