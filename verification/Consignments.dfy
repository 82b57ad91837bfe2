/** The consignment service: the consignment record, the RPCs that start the saga and the
    four event handlers that carry it through. */
module Consignments {
  import opened Types
  import opened Events
  import P = Payments
  import O = Outbox

  const MAX_RETRIES := 3
  const BACKOFF_ATTEMPTS := 3

  datatype Status = Pending | ConfirmationPending | ConfirmedStatus | Cancelled

  datatype Consignment = Consignment(
    reservation: ReservationId, vessel: VesselId, weight: int, containers: nat,
    status: Status, payment: PaymentId)

  datatype Cs = Cs(
    consignments: map<ConsignmentId, Consignment>, payments: P.Table, outbox: seq<Row>)

  // ---------- calls to the payment service ----------

  datatype Ask =
    | AskCapture(auth: AuthId, key: PaymentId)
    | AskRefund(payment: PaymentId, key: string)
    | AskVoid(auth: AuthId)

  /** One attempt of a payment call; `order` is the map order a refund's scan meets. */
  datatype PayRpc = PayRpc(net: Net, order: seq<AuthId>)

  function CallOf(ask: Ask, rpc: PayRpc): P.Call {
    match ask
    case AskCapture(auth, key) => P.CaptureCall(auth, key)
    case AskRefund(payment, key) => P.RefundCall(payment, key, rpc.order)
    case AskVoid(auth) => P.VoidCall(auth)
  }

  function AfterRpc(t: P.Table, ask: Ask, rpc: PayRpc): P.Table {
    if rpc.net.Dropped? then t else P.Exec(t, CallOf(ask, rpc))
  }

  predicate RpcOk(t: P.Table, ask: Ask, rpc: PayRpc) {
    rpc.net.Answered? && P.Answer(t, CallOf(ask, rpc)).Done?
  }

  /** Attempts until one succeeds or they run out. */
  function AfterCalls(t: P.Table, ask: Ask, calls: seq<PayRpc>): P.Table
    decreases calls
  {
    if calls == [] then t
    else if RpcOk(t, ask, calls[0]) then AfterRpc(t, ask, calls[0])
    else AfterCalls(AfterRpc(t, ask, calls[0]), ask, calls[1..])
  }

  /** The id in the answer of the attempt that succeeded. */
  function CallsReply(t: P.Table, ask: Ask, calls: seq<PayRpc>): Option<string>
    decreases calls
  {
    if calls == [] then None
    else if RpcOk(t, ask, calls[0]) then Some(P.Answer(t, CallOf(ask, calls[0])).id)
    else CallsReply(AfterRpc(t, ask, calls[0]), ask, calls[1..])
  }

  function CallsMade(t: P.Table, ask: Ask, calls: seq<PayRpc>): (n: nat)
    ensures n <= |calls|
    decreases calls
  {
    if calls == [] then 0
    else if RpcOk(t, ask, calls[0]) then 1
    else 1 + CallsMade(AfterRpc(t, ask, calls[0]), ask, calls[1..])
  }

  /** The loop makes its calls up to the first that succeeds and no other. */
  lemma {:induction false} CallsStop(t: P.Table, ask: Ask, calls: seq<PayRpc>)
    ensures var n, reply := CallsMade(t, ask, calls), CallsReply(t, ask, calls);
            && (reply.None? ==> n == |calls|)
            && (reply.Some? ==> 0 < n && CallsReply(t, ask, calls[..n - 1]).None?)
            && CallsReply(t, ask, calls[..n]) == reply
            && AfterCalls(t, ask, calls[..n]) == AfterCalls(t, ask, calls)
    decreases calls
  {
    if calls != [] {
      var n := CallsMade(t, ask, calls);
      assert calls[..n][1..] == calls[1..][..n - 1];
      if !RpcOk(t, ask, calls[0]) {
        CallsStop(AfterRpc(t, ask, calls[0]), ask, calls[1..]);
        assert n > 1 ==> calls[..n - 1][1..] == calls[1..][..n - 2];
      } else {
        assert calls[..0] == [];
      }
    }
  }

  // ---------- the records and events a consignment gives rise to ----------

  /** The record made from a successful reservation. */
  function NewConsignment(reservation: ReservationId, vessel: VesselId, weight: int, containers: nat): Consignment {
    Consignment(reservation, vessel, weight, containers, Pending, "")
  }

  function AuthorisedOf(id: ConsignmentId, c: Consignment, auth: AuthId): PaymentAuthorisedEvent {
    PaymentAuthorisedEvent(id, c.reservation, c.vessel, auth, c.weight, c.containers, 0, false, "")
  }

  /** The captured event carries the reservation without its consignment id. */
  function CapturedOf(e: PaymentAuthorisedEvent): PaymentCapturedEvent {
    PaymentCapturedEvent(
      ReservationInfo(e.reservation, e.vessel, "", e.containers, e.weight), e.consignment, e.payment)
  }

  function AuthorisedRow(e: PaymentAuthorisedEvent): Row {
    NewRow(PaymentAuthorisedTopic, if e.retryCount == 0 then Id(e.consignment) else Retry(e.consignment, e.retryCount),
           Authorised(e))
  }

  function CapturedRow(e: PaymentAuthorisedEvent): Row {
    NewRow(PaymentCapturedTopic, Id(e.consignment), Captured(CapturedOf(e)))
  }

  function DeadRow(e: PaymentAuthorisedEvent): Row {
    NewRow(ConfirmationFailedTopic, Id(e.consignment),
           ConfirmationFailed(ConfirmationFailedEvent(e.consignment, e.payment, e.auth, e.paymentCaptured)))
  }

  /** What `publishPaymentAuthorised` writes for an event whose run failed. */
  function RescheduledRow(e: PaymentAuthorisedEvent): Row {
    var next := e.(retryCount := e.retryCount + 1);
    if next.retryCount > MAX_RETRIES then DeadRow(next) else AuthorisedRow(next)
  }

  function Write(s: Cs, row: Row, fails: bool): Cs {
    if fails then s else s.(outbox := s.outbox + [row])
  }

  function SetStatus(s: Cs, id: ConsignmentId, status: Status, fails: bool): Cs {
    if fails || id !in s.consignments then s
    else s.(consignments := s.consignments[id := s.consignments[id].(status := status)])
  }

  // ---------- the handlers ----------

  datatype Env = Env(calls: seq<PayRpc>, txFails: bool, writeFails: bool)

  predicate EnvOk(env: Env) {
    1 <= |env.calls| <= BACKOFF_ATTEMPTS + 1
  }

  function CaptureAsk(e: PaymentAuthorisedEvent): Ask {
    AskCapture(e.auth, e.consignment)
  }

  /** The event once the capture part of the run is over, None if every attempt failed. */
  function AfterCapture(s: Cs, e: PaymentAuthorisedEvent, env: Env): Option<PaymentAuthorisedEvent> {
    if e.paymentCaptured then Some(e)
    else
      match CallsReply(s.payments, CaptureAsk(e), env.calls)
      case Some(id) => Some(e.(payment := id, paymentCaptured := true))
      case None => None
  }

  function PaymentsAfter(s: Cs, e: PaymentAuthorisedEvent, env: Env): P.Table {
    if e.paymentCaptured then s.payments else AfterCalls(s.payments, CaptureAsk(e), env.calls)
  }

  /** The transaction commits: outbox row, status and payment id together. */
  predicate Commits(s: Cs, e: PaymentAuthorisedEvent, env: Env) {
    AfterCapture(s, e, env).Some? && !env.txFails && e.consignment in s.consignments
  }

  function OnAuthorised(s: Cs, e: PaymentAuthorisedEvent, env: Env): Cs {
    var s1 := s.(payments := PaymentsAfter(s, e, env));
    match AfterCapture(s, e, env)
    case None => Write(s1, RescheduledRow(e), env.writeFails)
    case Some(e1) =>
      if Commits(s, e, env) then
        s1.(outbox := s1.outbox + [CapturedRow(e1)],
            consignments := s1.consignments[e.consignment :=
              s1.consignments[e.consignment].(status := ConfirmationPending, payment := e1.payment)])
      else Write(s1, RescheduledRow(e1), env.writeFails)
  }

  predicate CompletesAuthorised(s: Cs, e: PaymentAuthorisedEvent, env: Env) {
    Commits(s, e, env) || !env.writeFails
  }

  /** Undo the payment as the event says it stands, then cancel. */
  function UndoAsk(e: ConfirmationFailedEvent): Ask {
    if e.paymentCaptured then AskRefund(e.payment, e.consignment) else AskVoid(e.auth)
  }

  function OnFailed(s: Cs, e: ConfirmationFailedEvent, calls: seq<PayRpc>, updateFails: bool): Cs {
    SetStatus(s.(payments := AfterCalls(s.payments, UndoAsk(e), calls)), e.consignment, Cancelled, updateFails)
  }

  predicate CompletesUpdate(s: Cs, id: ConsignmentId, updateFails: bool) {
    !updateFails && id in s.consignments
  }

  function OnExpired(s: Cs, id: ConsignmentId, getFails: bool, calls: seq<PayRpc>, updateFails: bool): Cs {
    if getFails || id !in s.consignments || s.consignments[id].status != Pending then s
    else
      var c := s.consignments[id];
      var s1 := if c.payment == "" then s
                else s.(payments := AfterCalls(s.payments, AskRefund(c.payment, id), calls));
      SetStatus(s1, id, Cancelled, updateFails)
  }

  predicate CompletesExpired(s: Cs, id: ConsignmentId, getFails: bool, updateFails: bool) {
    !getFails && id in s.consignments && (s.consignments[id].status == Pending ==> !updateFails)
  }

  function OnConfirmed(s: Cs, id: ConsignmentId, updateFails: bool): Cs {
    SetStatus(s, id, ConfirmedStatus, updateFails)
  }

  // ---------- the RPCs that start the saga ----------

  datatype ReserveReply = Granted(reservation: ReservationId, vessel: VesselId) | Refused

  datatype RefreshReply = Refreshed | ReservationGone | RefreshError

  /** What the environment decides in one `ConfirmConsignment` call; a failed outbox write is
      compensated twice, once by the writer and once by its caller. */
  datatype ConfirmEnv = ConfirmEnv(
    getFails: bool, refresh: RefreshReply, authorise: Net, writeFails: bool,
    cancel1Fails: bool, void1: Net, cancel2Fails: bool, void2: Net)

  function OnCreate(s: Cs, id: ConsignmentId, reply: ReserveReply, weight: int, containers: nat, fails: bool): Cs {
    if reply.Refused? || fails || id in s.consignments then s
    else s.(consignments := s.consignments[id := NewConsignment(reply.reservation, reply.vessel, weight, containers)])
  }

  function Authorise(s: Cs, id: ConsignmentId, auth: AuthId, net: Net): Cs {
    if net.Dropped? then s else s.(payments := P.Exec(s.payments, P.AuthoriseCall(auth, id)))
  }

  function VoidOnce(s: Cs, auth: AuthId, net: Net): Cs {
    s.(payments := AfterRpc(s.payments, AskVoid(auth), PayRpc(net, [])))
  }

  function OnConfirmRequest(s: Cs, id: ConsignmentId, auth: AuthId, env: ConfirmEnv): Cs {
    if env.getFails || id !in s.consignments || !env.refresh.Refreshed? then s
    else
      var s1 := Authorise(s, id, auth, env.authorise);
      if !env.authorise.Answered? then SetStatus(s1, id, Cancelled, env.cancel1Fails)
      else if !env.writeFails then Write(s1, AuthorisedRow(AuthorisedOf(id, s.consignments[id], auth)), false)
      else
        VoidOnce(SetStatus(VoidOnce(SetStatus(s1, id, Cancelled, env.cancel1Fails), auth, env.void1),
                           id, Cancelled, env.cancel2Fails), auth, env.void2)
  }

  // ---------- the service ----------

  class ConsignmentRepository {
    var records: map<ConsignmentId, Consignment>

    constructor ()
      ensures records == map[]
    {
      records := map[];
    }

    method Create(id: ConsignmentId, c: Consignment, fails: bool) returns (ok: bool)
      modifies this
      ensures ok <==> !fails && id !in old(records)
      ensures records == if ok then old(records)[id := c.(status := Pending)] else old(records)
    {
      if fails || id in records {
        return false;
      }
      records := records[id := c.(status := Pending)];
      return true;
    }

    method UpdateStatus(id: ConsignmentId, status: Status, fails: bool) returns (ok: bool)
      modifies this
      ensures ok <==> !fails && id in old(records)
      ensures records == if ok then old(records)[id := old(records)[id].(status := status)] else old(records)
    {
      if fails || id !in records {
        return false;
      }
      records := records[id := records[id].(status := status)];
      return true;
    }

    method Update(id: ConsignmentId, status: Option<Status>, payment: Option<PaymentId>, fails: bool) returns (ok: bool)
      modifies this
      ensures ok <==> (status.None? && payment.None?) || (!fails && id in old(records))
      ensures !ok || (status.None? && payment.None?) ==> records == old(records)
      ensures ok && (status.Some? || payment.Some?) ==>
                var c := old(records)[id];
                records == old(records)[id :=
                  c.(status := if status.Some? then status.value else c.status,
                     payment := if payment.Some? then payment.value else c.payment)]
    {
      if status.None? && payment.None? {
        return true;
      }
      if fails || id !in records {
        return false;
      }
      var c := records[id];
      if status.Some? {
        c := c.(status := status.value);
      }
      if payment.Some? {
        c := c.(payment := payment.value);
      }
      records := records[id := c];
      return true;
    }
  }

  class ConsignmentManager {
    const repository: ConsignmentRepository
    const payment: P.PaymentHandler
    const table: O.OutboxTable

    constructor (repository: ConsignmentRepository, payment: P.PaymentHandler, table: O.OutboxTable)
      ensures this.repository == repository && this.payment == payment && this.table == table
    {
      this.repository, this.payment, this.table := repository, payment, table;
    }

    function State(): Cs
      reads this, repository, payment, table
    {
      Cs(repository.records, payment.payments, table.rows)
    }

    /** A payment call with its in-process retries. A refund's scan visits every payment. */
    method CallPayment(ask: Ask, calls: seq<PayRpc>) returns (reply: Option<string>, made: nat)
      requires forall i :: 0 <= i < |calls| && ask.AskRefund? ==> P.Covers(payment.payments, calls[i].order)
      modifies payment
      ensures reply == CallsReply(old(payment.payments), ask, calls)
      ensures made == CallsMade(old(payment.payments), ask, calls)
      ensures payment.payments == AfterCalls(old(payment.payments), ask, calls)
    {
      ghost var was := payment.payments;
      made := 0;
      reply := None;
      while made < |calls| && reply.None?
        invariant 0 <= made <= |calls|
        invariant payment.payments.Keys == was.Keys
        invariant reply.Some? ==>
                    reply == CallsReply(was, ask, calls) && made == CallsMade(was, ask, calls)
                    && payment.payments == AfterCalls(was, ask, calls)
        invariant reply.None? ==>
                    && CallsReply(was, ask, calls) == CallsReply(payment.payments, ask, calls[made..])
                    && CallsMade(was, ask, calls) == made + CallsMade(payment.payments, ask, calls[made..])
                    && AfterCalls(was, ask, calls) == AfterCalls(payment.payments, ask, calls[made..])
      {
        assert calls[made..][1..] == calls[made + 1..];
        if !calls[made].net.Dropped? {
          var r: P.Reply;
          match ask {
            case AskCapture(auth, key) => r := payment.Capture(auth, key);
            case AskRefund(id, key) => r := payment.Refund(id, key, calls[made].order);
            case AskVoid(auth) => r := payment.Void(auth);
          }
          if calls[made].net.Answered? && r.Done? {
            reply := Some(r.id);
          }
        }
        made := made + 1;
      }
    }

    method PublishPaymentAuthorised(e: PaymentAuthorisedEvent, fails: bool) returns (ok: bool)
      requires !table.unique && 0 < e.retryCount
      modifies table
      ensures ok <==> !fails
      ensures State() == Write(old(State()), RescheduledRow(e.(retryCount := e.retryCount - 1)), fails)
    {
      if e.retryCount > MAX_RETRIES {
        ok := table.CreateEvent(
          ConfirmationFailedTopic, Id(e.consignment),
          ConfirmationFailed(ConfirmationFailedEvent(e.consignment, e.payment, e.auth, e.paymentCaptured)), fails);
        return;
      }
      ok := table.CreateEvent(PaymentAuthorisedTopic, Retry(e.consignment, e.retryCount), Authorised(e), fails);
    }

    /** The transaction: the outbox row and the record update, or neither. */
    method CommitCaptured(e: PaymentAuthorisedEvent, txFails: bool) returns (ok: bool)
      requires !table.unique
      modifies table, repository
      ensures ok <==> !txFails && e.consignment in old(repository.records)
      ensures State() == if !ok then old(State()) else
                old(State()).(
                  outbox := old(table.rows) + [CapturedRow(e)],
                  consignments := old(repository.records)[e.consignment :=
                    old(repository.records)[e.consignment].(status := ConfirmationPending, payment := e.payment)])
    {
      var savedRows, savedRecords := table.rows, repository.records;
      var written := table.CreateEvent(PaymentCapturedTopic, Id(e.consignment), Captured(CapturedOf(e)), false);
      ok := repository.Update(e.consignment, Some(ConfirmationPending), Some(e.payment), false);
      if txFails || !ok {
        table.rows, repository.records := savedRows, savedRecords;
        return false;
      }
    }

    method HandlePaymentAuthorised(event: PaymentAuthorisedEvent, env: Env) returns (ok: bool)
      requires !table.unique
      modifies payment, table, repository
      ensures State() == OnAuthorised(old(State()), event, env)
      ensures ok == CompletesAuthorised(old(State()), event, env)
    {
      var e := event;
      if !e.paymentCaptured {
        var captured, _ := CallPayment(AskCapture(e.auth, e.consignment), env.calls);
        if captured.None? {
          e := e.(retryCount := e.retryCount + 1);
          ok := PublishPaymentAuthorised(e, env.writeFails);
          assert e.(retryCount := e.retryCount - 1) == event;
          return;
        }
        e := e.(payment := captured.value);
      }
      e := e.(paymentCaptured := true);
      ghost var before := e;
      ok := CommitCaptured(e, env.txFails);
      if !ok {
        e := e.(retryCount := e.retryCount + 1);
        ok := PublishPaymentAuthorised(e, env.writeFails);
        assert e.(retryCount := e.retryCount - 1) == before;
      }
    }

    method HandleFailedConfirmation(e: ConfirmationFailedEvent, calls: seq<PayRpc>, updateFails: bool)
      returns (ok: bool)
      requires forall i :: 0 <= i < |calls| ==> P.Covers(payment.payments, calls[i].order)
      modifies payment, repository
      ensures State() == OnFailed(old(State()), e, calls, updateFails)
      ensures ok == CompletesUpdate(old(State()), e.consignment, updateFails)
      ensures ok ==> e.consignment in repository.records && repository.records[e.consignment].status == Cancelled
      ensures !ok ==> repository.records == old(repository.records) && (updateFails || e.consignment !in repository.records)
    {
      if !e.paymentCaptured {
        var _, _ := CallPayment(AskVoid(e.auth), calls);
      } else {
        var _, _ := CallPayment(AskRefund(e.payment, e.consignment), calls);
      }
      ok := repository.UpdateStatus(e.consignment, Cancelled, updateFails);
    }

    method HandleExpiredReservation(id: ConsignmentId, getFails: bool, calls: seq<PayRpc>, updateFails: bool)
      returns (ok: bool)
      requires forall i :: 0 <= i < |calls| ==> P.Covers(payment.payments, calls[i].order)
      modifies payment, repository
      ensures State() == OnExpired(old(State()), id, getFails, calls, updateFails)
      ensures ok == CompletesExpired(old(State()), id, getFails, updateFails)
      ensures ok ==> id in repository.records && repository.records[id].status != Pending
      ensures !ok ==> repository.records == old(repository.records)
                      && (getFails || id !in repository.records
                          || (updateFails && repository.records[id].status == Pending))
    {
      if getFails || id !in repository.records {
        return false;
      }
      var c := repository.records[id];
      if c.status == Pending {
        if c.payment != "" {
          var _, _ := CallPayment(AskRefund(c.payment, id), calls);
        }
        var updated := repository.UpdateStatus(id, Cancelled, updateFails);
        return updated;
      }
      return true;
    }

    method HandleReservationConfirmed(id: ConsignmentId, updateFails: bool) returns (ok: bool)
      modifies repository
      ensures State() == OnConfirmed(old(State()), id, updateFails)
      ensures ok == CompletesUpdate(old(State()), id, updateFails)
      ensures ok ==> id in repository.records && repository.records[id].status == ConfirmedStatus
      ensures !ok ==> repository.records == old(repository.records) && (updateFails || id !in repository.records)
    {
      ok := repository.UpdateStatus(id, ConfirmedStatus, updateFails);
    }
  }

  class ConsignmentServer {
    const repository: ConsignmentRepository
    const payment: P.PaymentHandler
    const table: O.OutboxTable

    constructor (repository: ConsignmentRepository, payment: P.PaymentHandler, table: O.OutboxTable)
      ensures this.repository == repository && this.payment == payment && this.table == table
    {
      this.repository, this.payment, this.table := repository, payment, table;
    }

    function State(): Cs
      reads this, repository, payment, table
    {
      Cs(repository.records, payment.payments, table.rows)
    }

    /** `reply` is the reservation service's answer. */
    method CreateConsignment(id: ConsignmentId, reply: ReserveReply, weight: int, containers: nat, fails: bool)
      returns (ok: bool)
      modifies repository
      ensures State() == OnCreate(old(State()), id, reply, weight, containers, fails)
      ensures ok <==> reply.Granted? && !fails && id !in old(repository.records)
      ensures ok ==> id in repository.records
                     && repository.records[id] == NewConsignment(reply.reservation, reply.vessel, weight, containers)
    {
      if reply.Refused? {
        return false;
      }
      var c := Consignment(reply.reservation, reply.vessel, weight, containers, Cancelled, "");
      ok := repository.Create(id, c, fails);
    }

    method VoidPayment(auth: AuthId, net: Net)
      modifies payment
      ensures State() == VoidOnce(old(State()), auth, net)
    {
      if !net.Dropped? {
        var _ := payment.Void(auth);
      }
    }

    /** `auth` is the id a successful authorisation draws. */
    method ConfirmConsignment(id: ConsignmentId, auth: AuthId, env: ConfirmEnv) returns (confirmed: bool)
      requires !table.unique && auth !in payment.payments
      modifies repository, payment, table
      ensures State() == OnConfirmRequest(old(State()), id, auth, env)
      ensures confirmed <==> id in old(repository.records) && !env.getFails && env.refresh == Refreshed
                             && env.authorise == Answered && !env.writeFails
      ensures confirmed ==>
                table.rows == old(table.rows) + [AuthorisedRow(AuthorisedOf(id, old(repository.records)[id], auth))]
      ensures !confirmed ==> table.rows == old(table.rows)
    {
      if env.getFails || id !in repository.records {
        return false;
      }
      var c := repository.records[id];
      if !env.refresh.Refreshed? {
        return false;
      }
      if !env.authorise.Dropped? {
        var _ := payment.Authorise(auth, id);
      }
      if !env.authorise.Answered? {
        var _ := repository.UpdateStatus(id, Cancelled, env.cancel1Fails);
        return false;
      }
      var event := AuthorisedOf(id, c, auth);
      var written := table.CreateEvent(PaymentAuthorisedTopic, Id(id), Authorised(event), env.writeFails);
      if !written {
        var _ := repository.UpdateStatus(id, Cancelled, env.cancel1Fails);
        VoidPayment(auth, env.void1);
        var _ := repository.UpdateStatus(id, Cancelled, env.cancel2Fails);
        VoidPayment(auth, env.void2);
        return false;
      }
      return true;
    }
  }

  // ---------- what a run leaves ----------

  predicate StatusIs(s: Cs, id: ConsignmentId, status: Status) {
    id in s.consignments && s.consignments[id].status == status
  }

  /** The event of a run, rescheduled: one more failed run, and what is known of the capture. */
  predicate Follows(e: PaymentAuthorisedEvent, e1: PaymentAuthorisedEvent) {
    && e1 == e.(retryCount := e.retryCount + 1, paymentCaptured := e1.paymentCaptured, payment := e1.payment)
    && (e.paymentCaptured ==> e1.paymentCaptured && e1.payment == e.payment)
    && (!e1.paymentCaptured ==> e1.payment == e.payment)
  }

  /** What became of an authorised event: committed, with its record; rescheduled under the retry
      limit; or given up past it, with a failure event that says what it knew. */
  ghost predicate Continues(s: Cs, t: Cs, e: PaymentAuthorisedEvent) {
    exists e1 :: Follows(e, e1) &&
      if t.outbox == s.outbox + [CapturedRow(e1)] then
        e1.paymentCaptured && StatusIs(t, e.consignment, ConfirmationPending)
        && t.consignments[e.consignment].payment == e1.payment
      else
        && t.consignments == s.consignments
        && t.outbox == s.outbox + [if e.retryCount < MAX_RETRIES then AuthorisedRow(e1) else DeadRow(e1)]
  }

  /** No authorised event is lost track of, whatever fails: a run that returns no error leaves one
      row that carries the saga on, and one that returns an error left rows and records alone.
      An event whose capture is known makes no payment call. */
  lemma NoAuthorisedIsLost(s: Cs, e: PaymentAuthorisedEvent, env: Env)
    ensures var t := OnAuthorised(s, e, env);
            if CompletesAuthorised(s, e, env) then Continues(s, t, e)
            else env.writeFails && t.outbox == s.outbox && t.consignments == s.consignments
    ensures e.paymentCaptured ==> OnAuthorised(s, e, env).payments == s.payments
  {
    var t := OnAuthorised(s, e, env);
    var after := AfterCapture(s, e, env);
    var e1 := (if after.Some? then after.value else e).(retryCount := e.retryCount + 1);
    assert Follows(e, e1);
    if CompletesAuthorised(s, e, env) {
      var row := t.outbox[|s.outbox|];
      assert t.outbox == s.outbox + [row];
      if Commits(s, e, env) {
        assert row == CapturedRow(e1);
      } else {
        assert (s.outbox + [CapturedRow(e1)])[|s.outbox|] == CapturedRow(e1) && row != CapturedRow(e1);
      }
      assert Continues(s, t, e);
    }
  }

  /** The three runs that end in a status write: one that returns no error left the status it is
      for, and one that returns an error left every record as it was, because it could not read
      the record or write it. Only a pending record is cancelled by an expiry. */
  lemma UpdatesAreTrue(s: Cs, e: ConfirmationFailedEvent, id: ConsignmentId, getFails: bool,
                       calls: seq<PayRpc>, updateFails: bool)
    ensures var t := OnFailed(s, e, calls, updateFails);
            if CompletesUpdate(s, e.consignment, updateFails) then StatusIs(t, e.consignment, Cancelled)
            else t.consignments == s.consignments && (updateFails || e.consignment !in s.consignments)
    ensures var t := OnConfirmed(s, id, updateFails);
            if CompletesUpdate(s, id, updateFails) then StatusIs(t, id, ConfirmedStatus)
            else t.consignments == s.consignments && (updateFails || id !in s.consignments)
    ensures var t := OnExpired(s, id, getFails, calls, updateFails);
            if CompletesExpired(s, id, getFails, updateFails) then
              && id in s.consignments
              && StatusIs(t, id, if StatusIs(s, id, Pending) then Cancelled else s.consignments[id].status)
            else
              && t.consignments == s.consignments
              && (getFails || id !in s.consignments || (updateFails && StatusIs(s, id, Pending)))
  {
  }

  /** The request gets as far as asking the payment service. */
  predicate Begins(s: Cs, id: ConsignmentId, env: ConfirmEnv) {
    !env.getFails && id in s.consignments && env.refresh == Refreshed
  }

  /** The saga is announced: one event row for this authorisation is written. */
  predicate Announces(s: Cs, t: Cs, id: ConsignmentId, auth: AuthId) {
    id in s.consignments && t.outbox == s.outbox + [AuthorisedRow(AuthorisedOf(id, s.consignments[id], auth))]
  }

  /** What a confirm request leaves, for every outcome of its calls and writes. An event is
      announced exactly if the authorisation was answered and the write worked. An answered
      authorisation that is not announced is voided if any of the two voids gets through, and the
      consignment is then cancelled if any of the two cancels works; an unanswered one is only
      cancelled. Nothing else is touched. */
  lemma RequestLeaves(s: Cs, id: ConsignmentId, auth: AuthId, env: ConfirmEnv)
    requires auth !in s.payments
    ensures var t := OnConfirmRequest(s, id, auth, env);
            if !Begins(s, id, env) then t == s
            else
              && t.payments - {auth} == s.payments
              && (auth in t.payments <==> env.authorise != Dropped)
              && (if env.authorise == Answered && !env.writeFails then Announces(s, t, id, auth) else t.outbox == s.outbox)
              && (auth in t.payments ==>
                    t.payments[auth] == P.Payment(id,
                      if env.authorise == Answered && env.writeFails && (env.void1 != Dropped || env.void2 != Dropped)
                      then P.StatusVoided else P.StatusAuthorised, ""))
              && (var cancelled := if env.authorise == Answered then env.writeFails && !(env.cancel1Fails && env.cancel2Fails)
                                   else !env.cancel1Fails;
                  t.consignments == if cancelled then s.consignments[id := s.consignments[id].(status := Cancelled)]
                                    else s.consignments)
  {
  }

  /** So a request leaves an authorisation on hold with nobody to use or undo it exactly if the
      authorisation's answer was lost, or the event could not be written and neither void got
      through. */
  lemma AuthorisationHangs(s: Cs, id: ConsignmentId, auth: AuthId, env: ConfirmEnv)
    requires auth !in s.payments
    ensures var t := OnConfirmRequest(s, id, auth, env);
            auth in t.payments && t.payments[auth].status == P.StatusAuthorised && !Announces(s, t, id, auth)
            <==> Begins(s, id, env)
                 && (env.authorise == Lost
                     || (env.authorise == Answered && env.writeFails && env.void1 == Dropped && env.void2 == Dropped))
  {
    RequestLeaves(s, id, auth, env);
  }

  // ---------- the point of no return ----------

  /** Anything the service can do, with any events at all, in any order, any number of times. */
  datatype Op =
    | CreateOp(id: ConsignmentId, reply: ReserveReply, weight: int, containers: nat, fails: bool)
    | ConfirmOp(id: ConsignmentId, auth: AuthId, env: ConfirmEnv)
    | AuthorisedOp(event: PaymentAuthorisedEvent, handlerEnv: Env)
    | FailedOp(failed: ConfirmationFailedEvent, calls: seq<PayRpc>, updateFails: bool)
    | ExpiredOp(id: ConsignmentId, getFails: bool, calls: seq<PayRpc>, updateFails: bool)
    | ConfirmedOp(id: ConsignmentId, updateFails: bool)

  function Exec(s: Cs, op: Op): Cs {
    match op
    case CreateOp(id, reply, weight, containers, fails) => OnCreate(s, id, reply, weight, containers, fails)
    case ConfirmOp(id, auth, env) => OnConfirmRequest(s, id, auth, env)
    case AuthorisedOp(e, env) => OnAuthorised(s, e, env)
    case FailedOp(e, calls, updateFails) => OnFailed(s, e, calls, updateFails)
    case ExpiredOp(id, getFails, calls, updateFails) => OnExpired(s, id, getFails, calls, updateFails)
    case ConfirmedOp(id, updateFails) => OnConfirmed(s, id, updateFails)
  }

  function Run(s: Cs, ops: seq<Op>): Cs {
    if ops == [] then s else Exec(Run(s, ops[..|ops| - 1]), ops[|ops| - 1])
  }

  const START := Cs(map[], map[], [])

  /** A captured event for the consignment was written with this payment id. */
  ghost predicate CaptureAnnounced(s: Cs, id: ConsignmentId, payment: PaymentId) {
    exists row :: row in s.outbox && row.topic == PaymentCapturedTopic && row.payload.Captured?
      && row.payload.captured.consignment == id && row.payload.captured.payment == payment
  }

  ghost predicate RecordsOk(s: Cs) {
    forall id :: id in s.consignments ==>
      && (s.consignments[id].status == Pending ==> s.consignments[id].payment == "")
      && (s.consignments[id].status == ConfirmationPending || s.consignments[id].payment != "" ==>
            CaptureAnnounced(s, id, s.consignments[id].payment))
  }

  /** From s to t nothing happened to the records but statuses becoming cancelled or
      confirmed, and rows were only added. */
  ghost predicate StatusesOnly(s: Cs, t: Cs) {
    && t.consignments.Keys == s.consignments.Keys
    && (forall id :: id in s.consignments ==>
          || t.consignments[id] == s.consignments[id]
          || t.consignments[id] == s.consignments[id].(status := Cancelled)
          || t.consignments[id] == s.consignments[id].(status := ConfirmedStatus))
    && forall row :: row in s.outbox ==> row in t.outbox
  }

  lemma StatusesOnlyKeeps(s: Cs, t: Cs)
    requires RecordsOk(s) && StatusesOnly(s, t)
    ensures RecordsOk(t)
  {
    forall id | id in t.consignments && CaptureAnnounced(s, id, s.consignments[id].payment)
      ensures CaptureAnnounced(t, id, s.consignments[id].payment)
    {
    }
  }

  lemma CommitKeeps(s: Cs, e: PaymentAuthorisedEvent, env: Env)
    requires RecordsOk(s) && Commits(s, e, env)
    ensures RecordsOk(OnAuthorised(s, e, env))
  {
    var t := OnAuthorised(s, e, env);
    var e1 := AfterCapture(s, e, env).value;
    assert CapturedRow(e1) in t.outbox;
    assert CaptureAnnounced(t, e.consignment, e1.payment);
    forall id | id in t.consignments && id != e.consignment && CaptureAnnounced(s, id, s.consignments[id].payment)
      ensures CaptureAnnounced(t, id, s.consignments[id].payment)
    {
    }
  }

  lemma ConfirmRequestStatusesOnly(s: Cs, id: ConsignmentId, auth: AuthId, env: ConfirmEnv)
    ensures StatusesOnly(s, OnConfirmRequest(s, id, auth, env))
  {
  }

  lemma ExecKeepsRecords(s: Cs, op: Op)
    requires RecordsOk(s)
    ensures RecordsOk(Exec(s, op))
  {
    var t := Exec(s, op);
    match op
    case CreateOp(id, reply, weight, containers, fails) =>
      forall x | x in s.consignments && CaptureAnnounced(s, x, s.consignments[x].payment)
        ensures CaptureAnnounced(t, x, s.consignments[x].payment)
      {
      }
    case ConfirmOp(id, auth, env) =>
      ConfirmRequestStatusesOnly(s, id, auth, env);
      StatusesOnlyKeeps(s, t);
    case AuthorisedOp(e, env) =>
      if Commits(s, e, env) {
        CommitKeeps(s, e, env);
      } else {
        StatusesOnlyKeeps(s, t);
      }
    case _ =>
      StatusesOnlyKeeps(s, t);
  }

  /** Whatever happens, a pending consignment has no payment id, and one in
      confirmation_pending has had its captured event written with its payment id. */
  lemma {:induction false} PointOfNoReturn(ops: seq<Op>)
    ensures RecordsOk(Run(START, ops))
  {
    if ops != [] {
      PointOfNoReturn(ops[..|ops| - 1]);
      ExecKeepsRecords(Run(START, ops[..|ops| - 1]), ops[|ops| - 1]);
    }
  }

  /** So the expiry handler never refunds: it leaves every payment as it was. */
  lemma ExpiryNeverRefunds(ops: seq<Op>, id: ConsignmentId, getFails: bool, calls: seq<PayRpc>, updateFails: bool)
    ensures var s := Run(START, ops);
            OnExpired(s, id, getFails, calls, updateFails).payments == s.payments
  {
    PointOfNoReturn(ops);
  }
}
