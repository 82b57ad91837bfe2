/** The reservation service's event handlers: the gate on the cached reservation data, the
    vessel call with its in-process retries, the scheduled retries and the dead letters. */
module CapacityManager {
  import opened Types
  import opened Events
  import L = VesselLedger
  import C = ReservationCache
  import O = Outbox

  const MAX_RETRIES := 3

  /** What the handlers act on: the vessel ledger, the cache and the service's own outbox. */
  datatype Rs = Rs(ledger: L.Ledger, keys: C.Keys, outbox: seq<Row>)

  /** One attempt of a vessel call: the fate of the message and of the transaction. */
  datatype Rpc = Rpc(net: Net, fault: L.Fault)

  /** What the environment decides in one handler run. The in-process retry makes at most
      one attempt per element of `calls`; the outbox write that ends the run may fail. */
  datatype Env = Env(delete: C.DeleteFault, calls: seq<Rpc>, deleteId: C.DeleteFault, writeFails: bool)

  predicate EnvOk(env: Env) {
    1 <= |env.calls| <= MAX_RETRIES + 1
  }

  // ---------- the steps of a handler run ----------

  function RequestOf(info: ReservationInfo): L.CapacityRequest {
    L.CapacityRequest(info.id, info.vessel, info.weight, info.containers)
  }

  function CallOf(e: CapacityEvent): L.Call {
    if e.action.ConfirmAction? then L.ConfirmCall(RequestOf(e.info)) else L.ReleaseCall(RequestOf(e.info))
  }

  function AfterRpc(l: L.Ledger, call: L.Call, rpc: Rpc): L.Ledger {
    if rpc.net.Dropped? then l else L.Exec(l, L.Attempt(call, rpc.fault))
  }

  predicate RpcOk(l: L.Ledger, call: L.Call, rpc: Rpc) {
    rpc.net.Answered? && L.Answer(l, L.Attempt(call, rpc.fault)).Ok?
  }

  /** Attempts until one succeeds or they run out. */
  function AfterCalls(l: L.Ledger, call: L.Call, calls: seq<Rpc>): L.Ledger
    decreases calls
  {
    if calls == [] then l
    else if RpcOk(l, call, calls[0]) then AfterRpc(l, call, calls[0])
    else AfterCalls(AfterRpc(l, call, calls[0]), call, calls[1..])
  }

  predicate CallsOk(l: L.Ledger, call: L.Call, calls: seq<Rpc>)
    decreases calls
  {
    calls != [] && (RpcOk(l, call, calls[0]) || CallsOk(AfterRpc(l, call, calls[0]), call, calls[1..]))
  }

  function CallsMade(l: L.Ledger, call: L.Call, calls: seq<Rpc>): (n: nat)
    ensures n <= |calls|
    decreases calls
  {
    if calls == [] then 0
    else if RpcOk(l, call, calls[0]) then 1
    else 1 + CallsMade(AfterRpc(l, call, calls[0]), call, calls[1..])
  }

  function NextTry(e: CapacityEvent): CapacityEvent {
    e.(retryCount := e.retryCount + 1)
  }

  /** Under MaxRetries the retry goes back to its action's topic, from then on to the dead letters. */
  function RetryTopic(e: CapacityEvent): Topic {
    if e.retryCount >= MAX_RETRIES then CapacityFailedTopic
    else if e.action.ConfirmAction? then ConfirmCapacityTopic else ReleaseCapacityTopic
  }

  function RetryRow(e: CapacityEvent): Row {
    NewRow(RetryTopic(NextTry(e)), Retry(e.info.id, e.retryCount + 1), Capacity(NextTry(e)))
  }

  function ConfirmedRow(e: CapacityEvent): Row {
    NewRow(ReservationConfirmedTopic, Id(e.consignment), Confirmed(e.consignment, e.info.id))
  }

  function FailedRow(e: CapacityEvent): Row {
    NewRow(ConfirmationFailedTopic, Id(e.consignment),
           ConfirmationFailed(ConfirmationFailedEvent(e.consignment, e.payment, "", true)))
  }

  function ExpiredRow(info: ReservationInfo): Row {
    NewRow(ReservationExpiredTopic, Id(info.id), Expired(info))
  }

  function Write(s: Rs, row: Row, fails: bool): Rs {
    if fails then s else s.(outbox := O.Add(s.outbox, true, row))
  }

  /** From the vessel call on; the event holds the gate. */
  function Serve(s: Rs, e: CapacityEvent, env: Env): Rs {
    var s1 := s.(ledger := AfterCalls(s.ledger, CallOf(e), env.calls));
    if !CallsOk(s.ledger, CallOf(e), env.calls) then Write(s1, RetryRow(e), env.writeFails)
    else
      var s2 := s1.(keys := C.AfterDeleteID(s1.keys, e.info.id, env.deleteId));
      if e.action.ConfirmAction? then Write(s2, ConfirmedRow(e), env.writeFails) else s2
  }

  /** One run of `processCapacityEvent`. */
  function Process(s: Rs, e: CapacityEvent, env: Env): Rs {
    if e.cacheCleared then Serve(s, e, env)
    else
      var gone := if env.delete == C.DeleteFails(false) then s else s.(keys := C.DropData(s.keys, e.info.id));
      if env.delete.DeleteFails? then Write(gone, RetryRow(e), env.writeFails)
      else if e.info.id !in s.keys.data then gone
      else Serve(gone, e.(cacheCleared := true), env)
  }

  /** Whether the run returns no error, so that its message is done with. */
  predicate Completes(s: Rs, e: CapacityEvent, env: Env) {
    if e.cacheCleared || (env.delete.DeleteOk? && e.info.id in s.keys.data)
    then CallsOk(s.ledger, CallOf(e), env.calls) || !env.writeFails
    else env.delete.DeleteOk? || !env.writeFails
  }

  /** The release that a dead confirm turns into. */
  function Reversal(e: CapacityEvent): CapacityEvent {
    CapacityEvent(ReleaseAction, e.info, e.cacheCleared, 0, "", "")
  }

  /** One run of `handleFailedCapacityEvent`: a dead release is only reported; a dead confirm
      is reversed and its failure announced, whatever became of the reversal. */
  function ProcessDead(s: Rs, e: CapacityEvent, env: Env, announceFails: bool): Rs {
    if e.action.ReleaseAction? then s
    else Write(Process(s, Reversal(e), env), FailedRow(e), announceFails)
  }

  predicate CompletesDead(e: CapacityEvent, announceFails: bool) {
    e.action.ReleaseAction? || !announceFails
  }

  function EventOfExpired(info: ReservationInfo): CapacityEvent {
    CapacityEvent(ReleaseAction, info, false, 0, "", "")
  }

  function EventOfCaptured(p: PaymentCapturedEvent): CapacityEvent {
    CapacityEvent(ConfirmAction, p.info, false, 0, p.consignment, p.payment)
  }

  /** The outbox after a cleanup pass whose inserts fail at the given places. */
  function AfterPass(rows: seq<Row>, k: C.Keys, idBatches: seq<seq<ReservationId>>,
                     dataBatches: seq<seq<ReservationId>>, fault: C.QueryFault, failing: set<nat>): seq<Row> {
    match C.QueryAnswer(k, idBatches, dataBatches, fault)
    case None => rows
    case Some(reported) => O.Passes(rows, O.Written(reported, failing))
  }

  // ---------- the service ----------

  class ReservationManager {
    const vessel: L.MongoRepository
    const cache: C.Cache
    const table: O.OutboxTable

    constructor (vessel: L.MongoRepository, cache: C.Cache, table: O.OutboxTable)
      ensures this.vessel == vessel && this.cache == cache && this.table == table
    {
      this.vessel, this.cache, this.table := vessel, cache, table;
    }

    function State(): Rs
      reads this, vessel, cache, table
    {
      Rs(vessel.Contents(), cache.Contents(), table.rows)
    }

    /** The vessel call with its in-process retries. */
    method CallVessel(e: CapacityEvent, calls: seq<Rpc>) returns (ok: bool, made: nat)
      modifies vessel
      ensures ok == CallsOk(old(vessel.Contents()), CallOf(e), calls)
      ensures made == CallsMade(old(vessel.Contents()), CallOf(e), calls)
      ensures vessel.Contents() == AfterCalls(old(vessel.Contents()), CallOf(e), calls)
    {
      ghost var was, call := vessel.Contents(), CallOf(e);
      made := 0;
      ok := false;
      while made < |calls| && !ok
        invariant 0 <= made <= |calls|
        invariant ok ==>
                    CallsOk(was, call, calls) && made == CallsMade(was, call, calls)
                    && vessel.Contents() == AfterCalls(was, call, calls)
        invariant !ok ==>
                    && CallsOk(was, call, calls) == CallsOk(vessel.Contents(), call, calls[made..])
                    && CallsMade(was, call, calls) == made + CallsMade(vessel.Contents(), call, calls[made..])
                    && AfterCalls(was, call, calls) == AfterCalls(vessel.Contents(), call, calls[made..])
      {
        assert calls[made..][1..] == calls[made + 1..];
        if !calls[made].net.Dropped? {
          var reply: L.Reply;
          if e.action.ConfirmAction? {
            reply := vessel.ConfirmCapacity(RequestOf(e.info), calls[made].fault);
          } else {
            reply := vessel.ReleaseCapacity(RequestOf(e.info), calls[made].fault);
          }
          ok := calls[made].net.Answered? && reply.Ok?;
        }
        made := made + 1;
      }
    }

    method PublishRetryEvent(event: CapacityEvent, fails: bool) returns (ok: bool)
      requires table.unique
      modifies table
      ensures ok <==> !fails
      ensures State() == Write(old(State()), RetryRow(event), fails)
    {
      var e := event.(retryCount := event.retryCount + 1);
      var topic := CapacityFailedTopic;
      if e.retryCount < MAX_RETRIES {
        topic := if e.action.ConfirmAction? then ConfirmCapacityTopic else ReleaseCapacityTopic;
      }
      ok := table.CreateEvent(topic, Retry(e.info.id, e.retryCount), Capacity(e), fails);
    }

    method ProcessCapacityEvent(event: CapacityEvent, env: Env) returns (ok: bool)
      requires table.unique
      modifies vessel, cache, table
      ensures State() == Process(old(State()), event, env)
      ensures ok == Completes(old(State()), event, env)
    {
      var e := event;
      if !e.cacheCleared {
        var deleted := cache.DeleteData(e.info.id, env.delete);
        if deleted.None? {
          ok := PublishRetryEvent(e, env.writeFails);
          return;
        }
        if !deleted.value {
          return true;
        }
        e := e.(cacheCleared := true);
      }
      var served, _ := CallVessel(e, env.calls);
      if !served {
        ok := PublishRetryEvent(e, env.writeFails);
        return;
      }
      var _ := cache.DeleteID(e.info.id, env.deleteId);
      if e.action.ConfirmAction? {
        var _ := table.CreateEvent(ReservationConfirmedTopic, Id(e.consignment),
                                   Confirmed(e.consignment, e.info.id), env.writeFails);
      }
      return true;
    }

    method HandlePaymentCaptured(p: PaymentCapturedEvent, env: Env) returns (ok: bool)
      requires table.unique
      modifies vessel, cache, table
      ensures State() == Process(old(State()), EventOfCaptured(p), env)
      ensures ok == Completes(old(State()), EventOfCaptured(p), env)
    {
      ok := ProcessCapacityEvent(CapacityEvent(ConfirmAction, p.info, false, 0, p.consignment, p.payment), env);
    }

    method HandleReservationExpired(info: ReservationInfo, env: Env) returns (ok: bool)
      requires table.unique
      modifies vessel, cache, table
      ensures State() == Process(old(State()), EventOfExpired(info), env)
      ensures ok == Completes(old(State()), EventOfExpired(info), env)
    {
      ok := ProcessCapacityEvent(CapacityEvent(ReleaseAction, info, false, 0, "", ""), env);
    }

    method HandleFailedCapacityEvent(event: CapacityEvent, env: Env, announceFails: bool) returns (ok: bool)
      requires table.unique
      modifies vessel, cache, table
      ensures State() == ProcessDead(old(State()), event, env, announceFails)
      ensures ok == CompletesDead(event, announceFails)
      ensures event.action.ReleaseAction? ==> ok && State() == old(State())
      ensures event.action.ConfirmAction? ==> (ok <==> !announceFails)
      ensures event.action.ConfirmAction? && ok ==>
                O.PendingSame(table.rows, ConfirmationFailedTopic, Id(event.consignment))
    {
      if event.action.ReleaseAction? {
        return true;
      }
      var release := CapacityEvent(ReleaseAction, event.info, event.cacheCleared, 0, "", "");
      var _ := ProcessCapacityEvent(release, env);
      AddedIsPending(table.rows, FailedRow(event));
      ok := table.CreateEvent(
        ConfirmationFailedTopic, Id(event.consignment),
        ConfirmationFailed(ConfirmationFailedEvent(event.consignment, event.payment, "", true)), announceFails);
    }

    /** One cleanup pass: an expiry event for every reservation the query answers, but for the
        inserts that fail. */
    method ReleaseReservations(idBatches: seq<seq<ReservationId>>, dataBatches: seq<seq<ReservationId>>,
                               fault: C.QueryFault, failing: set<nat>) returns (ok: bool)
      requires table.unique
      modifies table
      ensures ok <==> C.QueryAnswer(cache.Contents(), idBatches, dataBatches, fault).Some?
      ensures table.rows == AfterPass(old(table.rows), cache.Contents(), idBatches, dataBatches, fault, failing)
      ensures fault.IdScanFails? || fault.DataScanFails? ==> !ok && table.rows == old(table.rows)
    {
      var answer := cache.GetExpired(idBatches, dataBatches, fault);
      if answer.None? {
        return false;
      }
      var expired := answer.value;
      var i := 0;
      while i < |expired|
        invariant 0 <= i <= |expired|
        invariant table.rows == O.Passes(old(table.rows), O.Written(expired[..i], failing))
      {
        O.PassStep(old(table.rows), expired, i, failing);
        var _ := table.CreateEvent(ReservationExpiredTopic, Id(expired[i].id), Expired(expired[i]), i in failing);
        i := i + 1;
      }
      assert expired[..i] == expired;
      return true;
    }
  }

  // ---------- what the retry loop comes to ----------

  /** An attempt that takes effect if it is made and nothing is logged yet. */
  predicate Commits(l: L.Ledger, call: L.Call, rpc: Rpc)
    requires !call.ReserveCall?
  {
    !rpc.net.Dropped? && !L.EndsFresh(call, rpc.fault) && call.req.vessel in l.vessels
  }

  ghost predicate SomeCommit(l: L.Ledger, call: L.Call, calls: seq<Rpc>, n: nat)
    requires !call.ReserveCall? && n <= |calls|
  {
    exists i: nat :: i < n && Commits(l, call, calls[i])
  }

  /** The i-th attempt is answered with success: by taking effect, or because the operation is
      logged by then. */
  ghost predicate Succeeds(l: L.Ledger, call: L.Call, calls: seq<Rpc>, i: nat)
    requires !call.ReserveCall? && i < |calls|
  {
    && calls[i].net.Answered?
    && (if L.CallKey(call) in l.ops || SomeCommit(l, call, calls, i) then !L.EndsEarly(call, calls[i].fault)
        else Commits(l, call, calls[i]))
  }

  ghost predicate SomeSuccess(l: L.Ledger, call: L.Call, calls: seq<Rpc>)
    requires !call.ReserveCall?
  {
    exists i: nat :: i < |calls| && Succeeds(l, call, calls, i)
  }

  lemma SucceedsLater(l: L.Ledger, call: L.Call, calls: seq<Rpc>, i: nat)
    requires !call.ReserveCall? && 0 < i < |calls|
    ensures var l1 := AfterRpc(l, call, calls[0]);
            && (SomeCommit(l, call, calls, i) <==> Commits(l, call, calls[0]) || SomeCommit(l1, call, calls[1..], i - 1))
            && (Succeeds(l, call, calls, i) <==> Succeeds(l1, call, calls[1..], i - 1))
  {
    var rest, l1 := calls[1..], AfterRpc(l, call, calls[0]);
    if j: nat :| j < i && Commits(l, call, calls[j]) {
      assert j > 0 ==> Commits(l1, call, rest[j - 1]);
    }
    if j: nat :| j < i - 1 && Commits(l1, call, rest[j]) {
      assert Commits(l, call, calls[j + 1]);
    }
  }

  lemma LoopStep(l: L.Ledger, call: L.Call, calls: seq<Rpc>)
    requires !call.ReserveCall? && calls != []
    ensures var l1 := AfterRpc(l, call, calls[0]);
            && (RpcOk(l, call, calls[0]) <==> Succeeds(l, call, calls, 0))
            && (SomeSuccess(l, call, calls) <==> Succeeds(l, call, calls, 0) || SomeSuccess(l1, call, calls[1..]))
            && (SomeCommit(l, call, calls, |calls|) <==>
                  Commits(l, call, calls[0]) || SomeCommit(l1, call, calls[1..], |calls| - 1))
  {
    var rest, l1 := calls[1..], AfterRpc(l, call, calls[0]);
    assert !SomeCommit(l, call, calls, 0);
    forall i: nat | 0 < i < |calls| {
      SucceedsLater(l, call, calls, i);
    }
    if i: nat :| i < |rest| && Succeeds(l1, call, rest, i) {
      assert Succeeds(l, call, calls, i + 1);
    }
    if i: nat :| i < |rest| && Commits(l1, call, rest[i]) {
      assert Commits(l, call, calls[i + 1]);
    }
    if i: nat :| i < |calls| && Commits(l, call, calls[i]) {
      assert i > 0 ==> Commits(l1, call, rest[i - 1]);
    }
  }

  /** The whole loop, read off the attempts alone: it succeeds exactly if some attempt does, it
      stops at the first that does and not before, and the operation happens once, exactly if
      it had not happened and some attempt takes effect. */
  lemma {:induction false} CallsExactly(l: L.Ledger, call: L.Call, calls: seq<Rpc>)
    requires !call.ReserveCall?
    ensures CallsOk(l, call, calls) <==> SomeSuccess(l, call, calls)
    ensures AfterCalls(l, call, calls) ==
            if L.CallKey(call) !in l.ops && SomeCommit(l, call, calls, |calls|) then L.Record(l, L.EntryOf(call)) else l
    ensures var n := CallsMade(l, call, calls);
            && (forall i: nat :: i + 1 < n ==> !Succeeds(l, call, calls, i))
            && (n < |calls| ==> 0 < n && Succeeds(l, call, calls, n - 1))
    decreases calls
  {
    if calls != [] {
      var rest, l1 := calls[1..], AfterRpc(l, call, calls[0]);
      LoopStep(l, call, calls);
      if !RpcOk(l, call, calls[0]) {
        CallsExactly(l1, call, rest);
        forall i: nat | 0 < i < |calls| {
          SucceedsLater(l, call, calls, i);
        }
      }
    }
  }

  lemma SuccessIsLogged(l: L.Ledger, call: L.Call, calls: seq<Rpc>)
    requires !call.ReserveCall? && SomeSuccess(l, call, calls)
    ensures L.CallKey(call) in AfterCalls(l, call, calls).ops
  {
    CallsExactly(l, call, calls);
    var i: nat :| i < |calls| && Succeeds(l, call, calls, i);
    assert L.CallKey(call) !in l.ops && !SomeCommit(l, call, calls, i) ==> Commits(l, call, calls[i]);
  }

  // ---------- what becomes of a message ----------

  /** The run finds the data gone: its message is a duplicate. */
  predicate LosesGate(s: Rs, e: CapacityEvent, env: Env) {
    !e.cacheCleared && env.delete.DeleteOk? && e.info.id !in s.keys.data
  }

  predicate PassesGate(s: Rs, e: CapacityEvent, env: Env) {
    e.cacheCleared || (env.delete.DeleteOk? && e.info.id in s.keys.data)
  }

  /** No message is lost track of, whatever fails. A run that returns no error was a duplicate
      and did nothing, or left its operation logged at the vessel, or left its retry pending; a
      run that returns an error wrote nothing, was answered by nobody, and was no duplicate. */
  lemma NoMessageIsLost(s: Rs, e: CapacityEvent, env: Env)
    ensures var t := Process(s, e, env);
            Completes(s, e, env) ==>
              || (LosesGate(s, e, env) && t == s)
              || L.CallKey(CallOf(e)) in t.ledger.ops
              || O.PendingSame(t.outbox, RetryTopic(NextTry(e)), Retry(e.info.id, e.retryCount + 1))
    ensures var t := Process(s, e, env);
            !Completes(s, e, env) ==>
              && env.writeFails && t.outbox == s.outbox && !LosesGate(s, e, env)
              && (PassesGate(s, e, env) ==> !SomeSuccess(s.ledger, CallOf(e), env.calls))
              && (!PassesGate(s, e, env) ==> t.ledger == s.ledger)
  {
    CallsExactly(s.ledger, CallOf(e), env.calls);
    var t := Process(s, e, env);
    if PassesGate(s, e, env) && SomeSuccess(s.ledger, CallOf(e), env.calls) {
      SuccessIsLogged(s.ledger, CallOf(e), env.calls);
    } else if !LosesGate(s, e, env) && !env.writeFails {
      var row := RetryRow(if PassesGate(s, e, env) then e.(cacheCleared := true) else e);
      assert t.outbox == O.Add(s.outbox, true, row);
      AddedIsPending(s.outbox, row);
    }
  }

  /** The run gets past the gate and some attempt of its call is answered with success. */
  ghost predicate Settles(s: Rs, e: CapacityEvent, env: Env) {
    PassesGate(s, e, env) && SomeSuccess(s.ledger, CallOf(e), env.calls)
  }

  lemma ServeKeys(s: Rs, e: CapacityEvent, env: Env)
    ensures var t := Serve(s, e, env);
            && t.keys.data == s.keys.data
            && t.keys.ids == if SomeSuccess(s.ledger, CallOf(e), env.calls) && env.deleteId != C.DeleteFails(false)
                             then s.keys.ids - {e.info.id} else s.keys.ids
  {
    CallsExactly(s.ledger, CallOf(e), env.calls);
  }

  /** A run touches the keys of its own reservation only. The data key is gone unless the delete
      failed without effect or was not made; the id key goes exactly with a settled run whose
      own delete does not fail. */
  lemma KeysLeft(s: Rs, e: CapacityEvent, env: Env)
    ensures var t := Process(s, e, env);
            && t.keys.ids == (if Settles(s, e, env) && env.deleteId != C.DeleteFails(false)
                              then s.keys.ids - {e.info.id} else s.keys.ids)
            && t.keys.data == (if e.cacheCleared || env.delete == C.DeleteFails(false)
                               then s.keys.data else s.keys.data - {e.info.id})
  {
    if e.cacheCleared {
      ServeKeys(s, e, env);
    } else if env.delete.DeleteOk? && e.info.id in s.keys.data {
      ServeKeys(s.(keys := C.DropData(s.keys, e.info.id)), e.(cacheCleared := true), env);
    }
  }

  /** A settled run leaves its verdict pending if it is a confirm, unless that write fails, and
      nothing else; any other run writes a retry or nothing. */
  lemma RowsLeft(s: Rs, e: CapacityEvent, env: Env)
    ensures var t := Process(s, e, env);
            if !Settles(s, e, env) then
              t.outbox == s.outbox || exists row: Row :: row.payload.Capacity? && t.outbox == s.outbox + [row]
            else if e.action.ConfirmAction? && !env.writeFails then
              && O.PendingSame(t.outbox, ReservationConfirmedTopic, Id(e.consignment))
              && (t.outbox == s.outbox || t.outbox == s.outbox + [ConfirmedRow(e)])
            else t.outbox == s.outbox
  {
    CallsExactly(s.ledger, CallOf(e), env.calls);
    var t := Process(s, e, env);
    if !Settles(s, e, env) {
      var row := RetryRow(if PassesGate(s, e, env) then e.(cacheCleared := true) else e);
      assert row.payload.Capacity?;
      assert t.outbox == s.outbox || t.outbox == s.outbox + [row];
    } else {
      AddedIsPending(s.outbox, ConfirmedRow(e));
    }
  }

  lemma AddedIsPending(rows: seq<Row>, row: Row)
    requires !row.published
    ensures O.PendingSame(O.Add(rows, true, row), row.topic, row.key)
  {
    var n := |O.Add(rows, true, row)| - 1;
    assert !O.PendingSame(rows, row.topic, row.key) ==> O.Add(rows, true, row)[n] == row;
  }

  // ---------- what a cleanup pass leaves ----------

  predicate InsertsWork(reported: seq<ReservationInfo>, r: ReservationId, failing: set<nat>) {
    forall i: nat :: i < |reported| && reported[i].id == r ==> i !in failing
  }

  /** A whole pass, whatever fails in it: every row it adds is the expiry of a reservation whose
      id key was not there throughout the id scan, and every reservation that has expired, was
      there to be met and whose insert does not fail has a pending expiry row afterwards. */
  lemma PassIsTrue(rows: seq<Row>, k: C.Keys, idBatches: seq<seq<ReservationId>>, dataBatches: seq<seq<ReservationId>>,
                   fault: C.QueryFault, failing: set<nat>, ids: C.Span, data: C.Span)
    requires C.WellKeyed(k) && C.ScansRan(idBatches, dataBatches, fault, ids, data)
    ensures var answer := C.QueryAnswer(k, idBatches, dataBatches, fault);
            var t := AfterPass(rows, k, idBatches, dataBatches, fault, failing);
            && rows <= t
            && (forall i :: |rows| <= i < |t| ==>
                  t[i].payload.Expired? && t[i] == ExpiredRow(t[i].payload.expired)
                  && t[i].payload.expired.id !in ids.always)
            && (answer.Some? ==>
                  forall r :: r in k.data && r in data.always && r !in ids.ever && InsertsWork(answer.value, r, failing) ==>
                    O.PendingSame(t, ReservationExpiredTopic, Id(r)))
  {
    C.AnswersAreTrue(k, idBatches, dataBatches, fault, ids, data);
    var answer := C.QueryAnswer(k, idBatches, dataBatches, fault);
    if answer.Some? {
      var written := O.Written(answer.value, failing);
      O.WrittenByPlace(answer.value, failing);
      O.PassesAdd(rows, written);
      forall r | r in k.data && r in data.always && r !in ids.ever && InsertsWork(answer.value, r, failing)
        ensures O.PendingSame(O.Passes(rows, written), ReservationExpiredTopic, Id(r))
      {
        var info := k.data[r].info;
        assert info in answer.value && info.id == r;
        assert info in written;
      }
    }
  }
}
