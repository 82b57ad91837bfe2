/** What one handler run does when calls that report an error had no effect. */
module SagaHandlers {
  import opened Types
  import opened Events
  import L = VesselLedger
  import P = Payments
  import M = CapacityManager
  import N = Consignments
  import opened SagaSystem

  // ---------- vessel calls ----------

  /** Either some attempt succeeds and the operation is logged, once, or nothing happened. */
  lemma {:induction false} CallsAreExact(l: L.Ledger, call: L.Call, calls: seq<M.Rpc>)
    requires forall i :: 0 <= i < |calls| ==> !calls[i].net.Lost?
    ensures var t := M.AfterCalls(l, call, calls);
            if M.CallsOk(l, call, calls) then t.ops.Keys == l.ops.Keys + {L.CallKey(call)}
            else t == l
    decreases calls
  {
    if calls != [] && !M.RpcOk(l, call, calls[0]) {
      CallsAreExact(M.AfterRpc(l, call, calls[0]), call, calls[1..]);
    }
  }

  /** How a run of `processCapacityEvent` ends: nothing written, a retry scheduled, or the
      operation applied. A run that went past the gate leaves a cleared event. */
  datatype Outcome = Nothing | Retried(event: CapacityEvent) | Applied(event: CapacityEvent)

  function OutcomeOf(s: M.Rs, e: CapacityEvent, env: M.Env): Outcome {
    if e.cacheCleared || (env.delete.DeleteOk? && e.info.id in s.keys.data) then
      var e1 := e.(cacheCleared := true);
      if M.CallsOk(s.ledger, M.CallOf(e), env.calls) then Applied(e1)
      else if env.writeFails then Nothing else Retried(e1)
    else if env.delete.DeleteFails? && !env.writeFails then Retried(e)
    else Nothing
  }

  /** `t` has the rows of `s`, and at most `row` besides. */
  predicate AddsAtMost(s: seq<Row>, t: seq<Row>, row: Row) {
    t == s || t == s + [row]
  }

  /** What a run on `e` that ends in `o` may do between `s` and `t`. */
  predicate EndsIn(s: M.Rs, t: M.Rs, e: CapacityEvent, o: Outcome) {
    && (t.keys.data == s.keys.data || t.keys.data == s.keys.data - {e.info.id})
    && (!o.Nothing? ==> o.event == e || o.event == e.(cacheCleared := true))
    && (!o.Nothing? && o.event != e ==> e.info.id in s.keys.data && e.info.id !in t.keys.data)
    && match o
       case Nothing => t.outbox == s.outbox && t.ledger == s.ledger
       case Retried(e1) => t.ledger == s.ledger && AddsAtMost(s.outbox, t.outbox, M.RetryRow(e1))
       case Applied(e1) =>
         && e1.cacheCleared
         && t.ledger.ops.Keys == s.ledger.ops.Keys + {L.CallKey(M.CallOf(e))}
         && (if e.action.ConfirmAction? then AddsAtMost(s.outbox, t.outbox, M.ConfirmedRow(e1))
             else t.outbox == s.outbox)
  }

  lemma ProcessIs(s: M.Rs, e: CapacityEvent, env: M.Env)
    requires RsEnv(env)
    ensures EndsIn(s, M.Process(s, e, env), e, OutcomeOf(s, e, env))
    ensures !OutcomeOf(s, e, env).Nothing? ==> M.Completes(s, e, env)
  {
    CallsAreExact(s.ledger, M.CallOf(e), env.calls);
  }

  // ---------- payment calls ----------

  /** Either an attempt is answered with success, and the call took effect as if made once,
      or nothing happened. */
  lemma {:induction false} PayCallsAreExact(t: P.Table, ask: N.Ask, calls: seq<N.PayRpc>) returns (rpc: N.PayRpc)
    requires forall i :: 0 <= i < |calls| ==> !calls[i].net.Lost?
    ensures var u := N.AfterCalls(t, ask, calls);
            if N.CallsReply(t, ask, calls).Some?
            then rpc in calls && N.RpcOk(t, ask, rpc) && u == P.Exec(t, N.CallOf(ask, rpc))
                 && N.CallsReply(t, ask, calls) == Some(P.Answer(t, N.CallOf(ask, rpc)).id)
            else u == t && (forall c :: c in calls ==> !N.RpcOk(t, ask, c))
    decreases calls
  {
    if calls == [] {
      rpc := N.PayRpc(Net.Dropped, []);
    } else if N.RpcOk(t, ask, calls[0]) {
      rpc := calls[0];
    } else {
      assert N.AfterRpc(t, ask, calls[0]) == t;
      rpc := PayCallsAreExact(t, ask, calls[1..]);
    }
  }

  /** From `t` the call leads to `u` if it is done at all, `u` is where repeats stay, and `id`
      is what success answers. */
  predicate Settles(t: P.Table, u: P.Table, call: P.Call, id: string) {
    && P.Exec(t, call) in {t, u} && P.Exec(u, call) == u
    && (P.Answer(t, call).Done? ==> P.Exec(t, call) == u && P.Answer(t, call).id == id)
    && (P.Answer(u, call).Done? ==> P.Answer(u, call).id == id)
  }

  /** Whatever is lost and resent, the calls together took effect once or not at all; a reply
      means once, and an attempt that gets through to a payment that allows it has a reply. */
  lemma {:induction false} PayCallsSettle(t: P.Table, u: P.Table, ask: N.Ask, calls: seq<N.PayRpc>, id: string)
    requires forall c :: c in calls ==> Settles(t, u, N.CallOf(ask, c), id)
    ensures N.AfterCalls(t, ask, calls) in {t, u}
    ensures N.CallsReply(t, ask, calls).Some? ==>
              && N.AfterCalls(t, ask, calls) == u && N.CallsReply(t, ask, calls).value == id
              && exists c :: c in calls && (N.RpcOk(t, ask, c) || N.RpcOk(u, ask, c))
    ensures (exists c :: c in calls && N.RpcOk(t, ask, c) && N.RpcOk(u, ask, c)) ==>
              N.CallsReply(t, ask, calls).Some?
    decreases calls
  {
    if calls != [] && !N.RpcOk(t, ask, calls[0]) {
      var t1 := N.AfterRpc(t, ask, calls[0]);
      assert t1 in {t, u};
      forall c | c in calls[1..] ensures Settles(t1, u, N.CallOf(ask, c), id) {
        assert Settles(t, u, N.CallOf(ask, c), id);
      }
      PayCallsSettle(t1, u, ask, calls[1..], id);
    }
  }
}
