/** Retries end: how many handler runs and remote calls one event can cause when every
    scheduled row is delivered once, in any order and under any failures. */
module RetryBound {
  import opened Types
  import opened Events
  import L = VesselLedger
  import C = ReservationCache
  import P = Payments
  import M = CapacityManager
  import N = Consignments

  // ---------- undelivered rows ----------

  function First(n: nat): (s: set<nat>)
    ensures forall i: nat :: i in s <==> i < n
  {
    if n == 0 then {} else First(n - 1) + {n - 1}
  }

  /** The total weight of the rows among the first n that are not yet delivered. */
  function Todo(rows: seq<Row>, done: set<nat>, n: nat, weight: Row -> nat): nat
    requires n <= |rows|
  {
    if n == 0 then 0
    else Todo(rows, done, n - 1, weight) + (if n - 1 in done then 0 else weight(rows[n - 1]))
  }

  lemma {:induction false} TodoDeliver(rows: seq<Row>, done: set<nat>, n: nat, weight: Row -> nat, i: nat)
    requires i < n <= |rows| && i !in done
    ensures Todo(rows, done, n, weight) == Todo(rows, done + {i}, n, weight) + weight(rows[i])
  {
    if i == n - 1 {
      TodoSame(rows, done, n - 1, weight, i);
    } else {
      TodoDeliver(rows, done, n - 1, weight, i);
    }
  }

  lemma {:induction false} TodoSame(rows: seq<Row>, done: set<nat>, n: nat, weight: Row -> nat, i: nat)
    requires n <= |rows| && n <= i
    ensures Todo(rows, done, n, weight) == Todo(rows, done + {i}, n, weight)
  {
    if n > 0 {
      TodoSame(rows, done, n - 1, weight, i);
    }
  }

  /** Publishing marks and later rows do not matter to the first n. */
  lemma {:induction false} TodoPrefix(rows: seq<Row>, more: seq<Row>, done: set<nat>, n: nat, weight: Row -> nat)
    requires n <= |rows| && n <= |more|
    requires forall i :: 0 <= i < n ==> weight(more[i]) == weight(rows[i])
    ensures Todo(more, done, n, weight) == Todo(rows, done, n, weight)
  {
    if n > 0 {
      TodoPrefix(rows, more, done, n - 1, weight);
    }
  }

  lemma {:induction false} TodoNone(rows: seq<Row>, done: set<nat>, n: nat, weight: Row -> nat)
    requires n <= |rows| && forall i: nat :: i < n ==> i in done
    ensures Todo(rows, done, n, weight) == 0
  {
    if n > 0 {
      TodoNone(rows, done, n - 1, weight);
    }
  }

  // ---------- the reservation service ----------

  /** The handler runs an event can still cause, its own included: tries left, plus its dead
      letter, plus, for a confirm, the release chain that follows. */
  function RunBudget(e: CapacityEvent): nat {
    (if e.retryCount < M.MAX_RETRIES then M.MAX_RETRIES - e.retryCount else 0)
    + (if e.action.ConfirmAction? then M.MAX_RETRIES + 1 else 1)
  }

  function CallBudget(e: CapacityEvent): nat {
    (M.MAX_RETRIES + 1) * (if e.retryCount < M.MAX_RETRIES then M.MAX_RETRIES - e.retryCount else 0)
    + (if e.action.ConfirmAction? then (M.MAX_RETRIES + 1) * M.MAX_RETRIES else 0)
  }

  const REVERSED := CapacityEvent(ReleaseAction, ReservationInfo("", "", "", 0, 0), true, 0, "", "")

  function RunsOfRow(row: Row): nat {
    match row.payload
    case Capacity(e) =>
      if row.topic.CapacityFailedTopic? then (if e.action.ConfirmAction? then RunBudget(REVERSED) else 1)
      else RunBudget(e)
    case Expired(_) => RunBudget(REVERSED)
    case _ => 0
  }

  function CallsOfRow(row: Row): nat {
    match row.payload
    case Capacity(e) =>
      if row.topic.CapacityFailedTopic? then (if e.action.ConfirmAction? then CallBudget(REVERSED) else 0)
      else CallBudget(e)
    case Expired(_) => CallBudget(REVERSED)
    case _ => 0
  }

  /** The vessel calls of one run. */
  function CallsInRun(s: M.Rs, e: CapacityEvent, env: M.Env): nat {
    if e.cacheCleared || (env.delete.DeleteOk? && e.info.id in s.keys.data)
    then M.CallsMade(s.ledger, M.CallOf(e), env.calls) else 0
  }

  /** A run adds at most one row, and what that row can cause plus this run stays in budget. */
  lemma ProcessSpends(s: M.Rs, e: CapacityEvent, env: M.Env)
    requires M.EnvOk(env) && e.retryCount < M.MAX_RETRIES
    ensures var x := M.Process(s, e, env).outbox;
            && s.outbox <= x && |x| <= |s.outbox| + 1
            && (|x| > |s.outbox| ==>
                  && 1 + RunsOfRow(x[|s.outbox|]) <= RunBudget(e)
                  && CallsInRun(s, e, env) + CallsOfRow(x[|s.outbox|]) <= CallBudget(e)
                  && RowFresh(x[|s.outbox|]))
            && CallsInRun(s, e, env) <= CallBudget(e) && 1 <= RunBudget(e)
  {
    var c := e.(cacheCleared := true);
    assert CallsInRun(s, e, env) <= M.MAX_RETRIES + 1;
    assert RunsOfRow(M.RetryRow(e)) + 1 == RunBudget(e) == RunsOfRow(M.RetryRow(c)) + 1;
    assert CallsOfRow(M.RetryRow(e)) + M.MAX_RETRIES + 1 == CallBudget(e)
        == CallsOfRow(M.RetryRow(c)) + M.MAX_RETRIES + 1;
  }

  /** A row on a retry topic still has tries left. */
  predicate RowFresh(row: Row) {
    row.payload.Capacity? && !row.topic.CapacityFailedTopic? ==> row.payload.capacity.retryCount < M.MAX_RETRIES
  }

  /** From `rows` to `x`, a run that made `calls` calls and what its new rows can still cause
      stay within the budget. */
  ghost predicate Spent(rows: seq<Row>, x: seq<Row>, calls: nat, runBudget: nat, callBudget: nat) {
    && rows <= x
    && (forall i :: |rows| <= i < |x| ==> RowFresh(x[i]))
    && 1 + Todo(x, First(|rows|), |x|, RunsOfRow) <= runBudget
    && calls + Todo(x, First(|rows|), |x|, CallsOfRow) <= callBudget
  }

  lemma OneRowSpent(rows: seq<Row>, x: seq<Row>, calls: nat, runBudget: nat, callBudget: nat)
    requires rows <= x && |x| <= |rows| + 1 && 1 <= runBudget && calls <= callBudget
    requires |x| > |rows| ==>
               1 + RunsOfRow(x[|rows|]) <= runBudget && calls + CallsOfRow(x[|rows|]) <= callBudget
                   && RowFresh(x[|rows|])
    ensures Spent(rows, x, calls, runBudget, callBudget)
  {
    TodoNone(x, First(|rows|), |rows|, RunsOfRow);
    TodoNone(x, First(|rows|), |rows|, CallsOfRow);
  }

  lemma ProcessSpent(s: M.Rs, e: CapacityEvent, env: M.Env)
    requires M.EnvOk(env) && e.retryCount < M.MAX_RETRIES
    ensures Spent(s.outbox, M.Process(s, e, env).outbox, CallsInRun(s, e, env), RunBudget(e), CallBudget(e))
  {
    ProcessSpends(s, e, env);
    OneRowSpent(s.outbox, M.Process(s, e, env).outbox, CallsInRun(s, e, env), RunBudget(e), CallBudget(e));
  }

  /** A failure announcement costs nothing here. */
  lemma AnnouncedSpent(rows: seq<Row>, y: seq<Row>, e: CapacityEvent, calls: nat, runBudget: nat, callBudget: nat)
    requires Spent(rows, y, calls, runBudget, callBudget)
    ensures Spent(rows, y + [M.FailedRow(e)], calls, runBudget, callBudget)
  {
    var x := y + [M.FailedRow(e)];
    TodoPrefix(y, x, First(|rows|), |y|, RunsOfRow);
    TodoPrefix(y, x, First(|rows|), |y|, CallsOfRow);
    assert RunsOfRow(M.FailedRow(e)) == 0 && CallsOfRow(M.FailedRow(e)) == 0;
  }

  lemma DeadSpends(s: M.Rs, e: CapacityEvent, env: M.Env, announceFails: bool)
    requires M.EnvOk(env) && e.action.ConfirmAction?
    ensures Spent(s.outbox, M.ProcessDead(s, e, env, announceFails).outbox, CallsInRun(s, M.Reversal(e), env),
                  RunBudget(REVERSED), CallBudget(REVERSED))
  {
    var r := M.Reversal(e);
    ProcessSpent(s, r, env);
    assert RunBudget(r) == RunBudget(REVERSED) && CallBudget(r) == CallBudget(REVERSED);
    AnnouncedSpent(s.outbox, M.Process(s, r, env).outbox, e, CallsInRun(s, r, env), RunBudget(r), CallBudget(r));
  }

  /** The service draining its own topics: what is delivered, and what it has cost so far. */
  datatype Drain = Drain(s: M.Rs, done: set<nat>, runs: nat, calls: nat)

  datatype Delivery = Delivery(row: nat, env: M.Env, announceFails: bool)

  predicate Deliverable(d: Drain, x: Delivery) {
    && x.row < |d.s.outbox| && x.row !in d.done && M.EnvOk(x.env)
    && (d.s.outbox[x.row].payload.Capacity? || d.s.outbox[x.row].payload.Expired?)
  }

  /** The row is marked as published and its handler runs once. */
  function Deliver(d: Drain, x: Delivery): Drain
    requires Deliverable(d, x)
  {
    var row := d.s.outbox[x.row];
    var s := d.s.(outbox := d.s.outbox[x.row := row.(published := true)]);
    var done := d.done + {x.row};
    match row.payload
    case Expired(info) =>
      Drain(M.Process(s, M.EventOfExpired(info), x.env), done, d.runs + 1,
            d.calls + CallsInRun(s, M.EventOfExpired(info), x.env))
    case Capacity(e) =>
      if !row.topic.CapacityFailedTopic? then
        Drain(M.Process(s, e, x.env), done, d.runs + 1, d.calls + CallsInRun(s, e, x.env))
      else if e.action.ConfirmAction? then
        Drain(M.ProcessDead(s, e, x.env, x.announceFails), done, d.runs + 1,
              d.calls + CallsInRun(s, M.Reversal(e), x.env))
      else Drain(s, done, d.runs + 1, d.calls)
  }

  ghost predicate InBudget(d: Drain, runs: nat, calls: nat) {
    && d.runs + Todo(d.s.outbox, d.done, |d.s.outbox|, RunsOfRow) <= runs
    && d.calls + Todo(d.s.outbox, d.done, |d.s.outbox|, CallsOfRow) <= calls
    && forall i: nat :: i < |d.s.outbox| && i !in d.done ==> RowFresh(d.s.outbox[i])
  }

  /** After a handler run: old rows weigh what they did, new rows what the run left over. */
  lemma {:induction false} TodoSplit(x: seq<Row>, done: set<nat>, n: nat, m: nat, weight: Row -> nat)
    requires n <= m <= |x| && forall i :: i in done ==> i < n
    ensures Todo(x, done, m, weight) == Todo(x, done, n, weight) + Todo(x, First(n), m, weight)
  {
    if m == n {
      TodoNone(x, First(n), n, weight);
    } else {
      TodoSplit(x, done, n, m - 1, weight);
    }
  }

  /** A delivery that spends within its row's budget keeps the whole within budget. */
  lemma SpendingKeepsBudget(d: Drain, y: Drain, at: nat, spent: nat, runs: nat, calls: nat)
    requires InBudget(d, runs, calls) && (forall i :: i in d.done ==> i < |d.s.outbox|)
    requires at < |d.s.outbox| && at !in d.done
    requires y.done == d.done + {at} && y.runs == d.runs + 1 && y.calls == d.calls + spent
    requires Spent(d.s.outbox[at := d.s.outbox[at].(published := true)], y.s.outbox, spent,
                   RunsOfRow(d.s.outbox[at]), CallsOfRow(d.s.outbox[at]))
    ensures InBudget(y, runs, calls)
    ensures forall i :: i in y.done ==> i < |y.s.outbox|
  {
    var n := |d.s.outbox|;
    TodoDeliver(d.s.outbox, d.done, n, RunsOfRow, at);
    TodoDeliver(d.s.outbox, d.done, n, CallsOfRow, at);
    forall i: nat | i < n
      ensures RunsOfRow(y.s.outbox[i]) == RunsOfRow(d.s.outbox[i])
      ensures CallsOfRow(y.s.outbox[i]) == CallsOfRow(d.s.outbox[i])
      ensures i !in d.done ==> RowFresh(y.s.outbox[i])
    {
      assert y.s.outbox[i] == d.s.outbox[at := d.s.outbox[at].(published := true)][i];
    }
    TodoPrefix(d.s.outbox, y.s.outbox, y.done, n, RunsOfRow);
    TodoPrefix(d.s.outbox, y.s.outbox, y.done, n, CallsOfRow);
    TodoSplit(y.s.outbox, y.done, n, |y.s.outbox|, RunsOfRow);
    TodoSplit(y.s.outbox, y.done, n, |y.s.outbox|, CallsOfRow);
  }

  lemma DeliverIs(d: Drain, x: Delivery)
    requires Deliverable(d, x)
    ensures var row := d.s.outbox[x.row];
            var s := d.s.(outbox := d.s.outbox[x.row := row.(published := true)]);
            Deliver(d, x) == Drain(AfterRow(s, row, x.env, x.announceFails), d.done + {x.row}, d.runs + 1,
                                   d.calls + CallsForRow(s, row, x.env))
  {
  }

  lemma DeliverKeepsBudget(d: Drain, x: Delivery, runs: nat, calls: nat)
    requires Deliverable(d, x) && InBudget(d, runs, calls) && forall i :: i in d.done ==> i < |d.s.outbox|
    ensures InBudget(Deliver(d, x), runs, calls)
    ensures forall i :: i in Deliver(d, x).done ==> i < |Deliver(d, x).s.outbox|
  {
    var row := d.s.outbox[x.row];
    var s := d.s.(outbox := d.s.outbox[x.row := row.(published := true)]);
    assert RowFresh(row);
    DeliverIs(d, x);
    RunSpends(s, row, x.env, x.announceFails);
    SpendingKeepsBudget(d, Deliver(d, x), x.row, CallsForRow(s, row, x.env), runs, calls);
  }

  function AfterRow(s: M.Rs, row: Row, env: M.Env, announceFails: bool): M.Rs {
    match row.payload
    case Expired(info) => M.Process(s, M.EventOfExpired(info), env)
    case Capacity(e) =>
      if row.topic.CapacityFailedTopic? then M.ProcessDead(s, e, env, announceFails) else M.Process(s, e, env)
    case _ => s
  }

  function CallsForRow(s: M.Rs, row: Row, env: M.Env): nat {
    match row.payload
    case Expired(info) => CallsInRun(s, M.EventOfExpired(info), env)
    case Capacity(e) =>
      if !row.topic.CapacityFailedTopic? then CallsInRun(s, e, env)
      else if e.action.ConfirmAction? then CallsInRun(s, M.Reversal(e), env) else 0
    case _ => 0
  }

  /** One run spends at least itself: what it leaves over is less than what its row was worth. */
  lemma RunSpends(s: M.Rs, row: Row, env: M.Env, announceFails: bool)
    requires M.EnvOk(env) && RowFresh(row) && (row.payload.Capacity? || row.payload.Expired?)
    ensures Spent(s.outbox, AfterRow(s, row, env, announceFails).outbox, CallsForRow(s, row, env),
                  RunsOfRow(row), CallsOfRow(row))
  {
    match row.payload
    case Expired(info) => ProcessSpent(s, M.EventOfExpired(info), env);
    case Capacity(e) =>
      if !row.topic.CapacityFailedTopic? {
        ProcessSpent(s, e, env);
      } else if e.action.ConfirmAction? {
        DeadSpends(s, e, env, announceFails);
      } else {
        OneRowSpent(s.outbox, s.outbox, 0, 1, 0);
      }
  }

  function Drained(d: Drain, xs: seq<Delivery>): Option<Drain> {
    if xs == [] then Some(d)
    else
      var n := |xs| - 1;
      var r := Drained(d, xs[..n]);
      if r.Some? && Deliverable(r.value, xs[n]) then Some(Deliver(r.value, xs[n])) else None
  }

  lemma {:induction false} DrainedInBudget(d: Drain, xs: seq<Delivery>, runs: nat, calls: nat)
    requires Drained(d, xs).Some? && InBudget(d, runs, calls) && forall i :: i in d.done ==> i < |d.s.outbox|
    ensures InBudget(Drained(d, xs).value, runs, calls)
    ensures forall i :: i in Drained(d, xs).value.done ==> i < |Drained(d, xs).value.s.outbox|
  {
    if xs != [] {
      var n := |xs| - 1;
      DrainedInBudget(d, xs[..n], runs, calls);
      DeliverKeepsBudget(Drained(d, xs[..n]).value, xs[n], runs, calls);
    }
  }

  /** The service right after its first run for one event, with nothing else undelivered. */
  function FirstRun(s: M.Rs, e: CapacityEvent, env: M.Env): Drain {
    Drain(M.Process(s, e, env), First(|s.outbox|), 1, CallsInRun(s, e, env))
  }

  /** One captured event causes at most 7 handler runs and 24 vessel calls, one expiry at most
      4 runs and 12 calls, whatever fails and in whatever order rows are delivered. */
  lemma RetriesEnd(s: M.Rs, e: CapacityEvent, env: M.Env, xs: seq<Delivery>)
    requires M.EnvOk(env) && e.retryCount == 0 && Drained(FirstRun(s, e, env), xs).Some?
    ensures var d := Drained(FirstRun(s, e, env), xs).value;
            && (e.action.ConfirmAction? ==> d.runs <= 7 && d.calls <= 24)
            && (e.action.ReleaseAction? ==> d.runs <= 4 && d.calls <= 12)
  {
    var d := FirstRun(s, e, env);
    ProcessSpent(s, e, env);
    DrainedInBudget(d, xs, RunBudget(e), CallBudget(e));
  }

  // ---------- the bound is reached ----------

  const DOWN := M.Rpc(Dropped, L.NoFault)

  /** Every vessel call fails, every write succeeds. */
  const OUTAGE := M.Env(C.DeleteOk, [DOWN, DOWN, DOWN, DOWN], C.DeleteOk, false)

  lemma OutageCalls(l: L.Ledger, call: L.Call)
    ensures M.AfterCalls(l, call, OUTAGE.calls) == l && !M.CallsOk(l, call, OUTAGE.calls)
    ensures M.CallsMade(l, call, OUTAGE.calls) == 4
  {
    assert OUTAGE.calls[1..] == [DOWN, DOWN, DOWN] && [DOWN, DOWN, DOWN][1..] == [DOWN, DOWN]
        && [DOWN, DOWN][1..] == [DOWN];
    assert M.AfterCalls(l, call, [DOWN]) == l && !M.CallsOk(l, call, [DOWN]) && M.CallsMade(l, call, [DOWN]) == 1;
    assert M.AfterCalls(l, call, [DOWN, DOWN]) == l && !M.CallsOk(l, call, [DOWN, DOWN])
        && M.CallsMade(l, call, [DOWN, DOWN]) == 2;
  }

  /** No capacity row is waiting to be published. */
  predicate NonePending(rows: seq<Row>) {
    forall i :: 0 <= i < |rows| && !rows[i].published ==> rows[i].topic.ConfirmationFailedTopic?
  }

  lemma OutageRun(s: M.Rs, e: CapacityEvent)
    requires NonePending(s.outbox) && e.cacheCleared
    ensures M.Process(s, e, OUTAGE) == s.(outbox := s.outbox + [M.RetryRow(e)])
    ensures CallsInRun(s, e, OUTAGE) == 4
  {
    OutageCalls(s.ledger, M.CallOf(e));
  }

  /** All rows but the last are out of the way, and the last holds the event `e`. */
  predicate Waiting(d: Drain, e: CapacityEvent, topic: Topic, at: nat, runs: nat, calls: nat) {
    && at < |d.s.outbox| && at !in d.done
    && (forall i :: at < i < |d.s.outbox| ==> d.s.outbox[i].topic.ConfirmationFailedTopic?)
    && d.s.outbox[at].topic == topic && d.s.outbox[at].payload == Capacity(e)
    && NonePending(d.s.outbox[..at])
    && (forall i :: i in d.done ==> i < |d.s.outbox|)
    && e.cacheCleared && d.runs == runs && d.calls == calls
  }

  /** One more failing try. */
  lemma OutageTry(d: Drain, e: CapacityEvent, at: nat, runs: nat, calls: nat)
    requires Waiting(d, e, M.RetryTopic(e), at, runs, calls) && e.retryCount < M.MAX_RETRIES
    ensures Deliverable(d, Delivery(at, OUTAGE, false))
    ensures Waiting(Deliver(d, Delivery(at, OUTAGE, false)), M.NextTry(e), M.RetryTopic(M.NextTry(e)),
                    |d.s.outbox|, runs + 1, calls + 4)
  {
    var row := d.s.outbox[at];
    var s := d.s.(outbox := d.s.outbox[at := row.(published := true)]);
    assert NonePending(s.outbox) by {
      forall i | 0 <= i < |s.outbox| && !s.outbox[i].published ensures s.outbox[i].topic.ConfirmationFailedTopic? {
        if i < at {
          assert d.s.outbox[..at][i] == d.s.outbox[i];
        }
      }
    }
    OutageRun(s, e);
    var y := Deliver(d, Delivery(at, OUTAGE, false));
    assert y.s.outbox == s.outbox + [M.RetryRow(e)];
    assert y.s.outbox[..|s.outbox|] == s.outbox;
  }

  /** The dead confirm turns into the first release try. */
  lemma OutageDead(d: Drain, e: CapacityEvent, at: nat, runs: nat, calls: nat)
    requires Waiting(d, e, CapacityFailedTopic, at, runs, calls) && e.action.ConfirmAction? && at == |d.s.outbox| - 1
    ensures Deliverable(d, Delivery(at, OUTAGE, false))
    ensures Waiting(Deliver(d, Delivery(at, OUTAGE, false)), M.NextTry(M.Reversal(e)), ReleaseCapacityTopic,
                    |d.s.outbox|, runs + 1, calls + 4)
  {
    var row := d.s.outbox[at];
    var s := d.s.(outbox := d.s.outbox[at := row.(published := true)]);
    assert NonePending(s.outbox) by {
      forall i | 0 <= i < |s.outbox| && !s.outbox[i].published ensures s.outbox[i].topic.ConfirmationFailedTopic? {
        assert d.s.outbox[..at][i] == d.s.outbox[i];
      }
    }
    OutageRun(s, M.Reversal(e));
    var y := Deliver(d, Delivery(at, OUTAGE, false));
    var x := s.outbox + [M.RetryRow(M.Reversal(e))];
    assert y.s.outbox == x || y.s.outbox == x + [M.FailedRow(e)];
    assert y.s.outbox[..|s.outbox|] == s.outbox;
  }

  ghost predicate DrainsTo(d: Drain, y: Drain) {
    exists xs :: Drained(d, xs) == Some(y)
  }

  lemma DrainsOn(d: Drain, y: Drain, x: Delivery)
    requires DrainsTo(d, y) && Deliverable(y, x)
    ensures DrainsTo(d, Deliver(y, x))
  {
    var xs :| Drained(d, xs) == Some(y);
    assert (xs + [x])[..|xs|] == xs;
    assert Drained(d, xs + [x]) == Some(Deliver(y, x));
  }

  /** Two failing tries and the dead letter they end in. */
  lemma OutageTwice(d0: Drain, d: Drain, e: CapacityEvent, at: nat, runs: nat, calls: nat) returns (y: Drain, n: nat)
    requires DrainsTo(d0, d) && Waiting(d, e, M.RetryTopic(e), at, runs, calls) && e.retryCount == 1
    ensures DrainsTo(d0, y)
    ensures Waiting(y, M.NextTry(M.NextTry(e)), CapacityFailedTopic, n, runs + 2, calls + 8) && n == |y.s.outbox| - 1
  {
    OutageTry(d, e, at, runs, calls);
    var x := Delivery(at, OUTAGE, false);
    var d1 := Deliver(d, x);
    DrainsOn(d0, d, x);
    var m := |d.s.outbox|;
    OutageTry(d1, M.NextTry(e), m, runs + 1, calls + 4);
    var x1 := Delivery(m, OUTAGE, false);
    DrainsOn(d0, d1, x1);
    y := Deliver(d1, x1);
    n := |d1.s.outbox|;
  }

  /** The bound is tight: in an outage of the vessel service one captured event whose
      reservation is cached does cause 7 handler runs and 24 vessel calls. */
  lemma BoundIsReached(s: M.Rs, e: CapacityEvent) returns (y: Drain)
    requires e.action.ConfirmAction? && e.retryCount == 0 && !e.cacheCleared
    requires s.outbox == [] && e.info.id in s.keys.data
    ensures DrainsTo(FirstRun(s, e, OUTAGE), y) && y.runs == 7 && y.calls == 24
  {
    var c := e.(cacheCleared := true);
    OutageRun(s.(keys := C.DropData(s.keys, e.info.id)), c);
    OutageCalls(s.ledger, M.CallOf(e));
    var d0 := FirstRun(s, e, OUTAGE);
    assert d0.s.outbox == [M.RetryRow(c)] && d0.done == {};
    assert d0.s.outbox[..0] == [];
    assert Drained(d0, []) == Some(d0);
    var d1, n1 := OutageTwice(d0, d0, M.NextTry(c), 0, 1, 4);
    var dead := M.NextTry(M.NextTry(M.NextTry(c)));
    OutageDead(d1, dead, n1, 3, 12);
    DrainsOn(d0, d1, Delivery(n1, OUTAGE, false));
    var d2 := Deliver(d1, Delivery(n1, OUTAGE, false));
    var d3, n3 := OutageTwice(d0, d2, M.NextTry(M.Reversal(dead)), |d1.s.outbox|, 4, 16);
    DrainsOn(d0, d3, Delivery(n3, OUTAGE, false));
    y := Deliver(d3, Delivery(n3, OUTAGE, false));
  }

  // ---------- the consignment service ----------

  /** Tries left of an authorised event, the coming run included. */
  function CapturesOfRow(row: Row): nat {
    if row.payload.Authorised? && row.payload.authorised.retryCount <= N.MAX_RETRIES
    then N.MAX_RETRIES + 1 - row.payload.authorised.retryCount else 0
  }

  datatype CsDrain = CsDrain(s: N.Cs, done: set<nat>, runs: nat, calls: nat)

  datatype CsDelivery = CsDelivery(row: nat, env: N.Env)

  predicate CsDeliverable(d: CsDrain, x: CsDelivery) {
    && x.row < |d.s.outbox| && x.row !in d.done && N.EnvOk(x.env)
    && d.s.outbox[x.row].payload.Authorised? && d.s.outbox[x.row].payload.authorised.retryCount <= N.MAX_RETRIES
  }

  function CaptureCalls(s: N.Cs, e: PaymentAuthorisedEvent, env: N.Env): nat {
    if e.paymentCaptured then 0 else N.CallsMade(s.payments, N.CaptureAsk(e), env.calls)
  }

  function CsDeliver(d: CsDrain, x: CsDelivery): CsDrain
    requires CsDeliverable(d, x)
  {
    var e := d.s.outbox[x.row].payload.authorised;
    CsDrain(N.OnAuthorised(d.s, e, x.env), d.done + {x.row}, d.runs + 1, d.calls + CaptureCalls(d.s, e, x.env))
  }

  function CsDrained(d: CsDrain, xs: seq<CsDelivery>): Option<CsDrain> {
    if xs == [] then Some(d)
    else
      var n := |xs| - 1;
      var r := CsDrained(d, xs[..n]);
      if r.Some? && CsDeliverable(r.value, xs[n]) then Some(CsDeliver(r.value, xs[n])) else None
  }

  /** A run adds at most one row, worth one try less than the row it handled. */
  lemma CaptureSpends(s: N.Cs, e: PaymentAuthorisedEvent, env: N.Env)
    requires N.EnvOk(env) && e.retryCount <= N.MAX_RETRIES
    ensures var x := N.OnAuthorised(s, e, env).outbox;
            && s.outbox <= x && |x| <= |s.outbox| + 1
            && (|x| > |s.outbox| ==> CapturesOfRow(x[|s.outbox|]) <= N.MAX_RETRIES - e.retryCount)
            && CaptureCalls(s, e, env) <= N.BACKOFF_ATTEMPTS + 1
  {
  }

  lemma {:induction false} CsDrainedInBudget(d: CsDrain, xs: seq<CsDelivery>, runs: nat)
    requires CsDrained(d, xs).Some? && forall i :: i in d.done ==> i < |d.s.outbox|
    requires d.runs + Todo(d.s.outbox, d.done, |d.s.outbox|, CapturesOfRow) <= runs
    requires d.calls <= 4 * d.runs
    ensures var y := CsDrained(d, xs).value;
            && (forall i :: i in y.done ==> i < |y.s.outbox|)
            && y.runs + Todo(y.s.outbox, y.done, |y.s.outbox|, CapturesOfRow) <= runs
            && y.calls <= 4 * y.runs
  {
    if xs != [] {
      var m := |xs| - 1;
      CsDrainedInBudget(d, xs[..m], runs);
      var w := CsDrained(d, xs[..m]).value;
      var x := xs[m];
      var y := CsDeliver(w, x);
      var n := |w.s.outbox|;
      CaptureSpends(w.s, w.s.outbox[x.row].payload.authorised, x.env);
      TodoDeliver(w.s.outbox, w.done, n, CapturesOfRow, x.row);
      TodoPrefix(w.s.outbox, y.s.outbox, y.done, n, CapturesOfRow);
      TodoSplit(y.s.outbox, y.done, n, |y.s.outbox|, CapturesOfRow);
      TodoNone(y.s.outbox, First(n), n, CapturesOfRow);
    }
  }

  /** The service right after its first run for one event, with nothing else undelivered. */
  function CsFirstRun(s: N.Cs, e: PaymentAuthorisedEvent, env: N.Env): CsDrain {
    CsDrain(N.OnAuthorised(s, e, env), First(|s.outbox|), 1, CaptureCalls(s, e, env))
  }

  /** One authorised event causes at most 4 handler runs and 16 capture calls. */
  lemma CapturesEnd(s: N.Cs, e: PaymentAuthorisedEvent, env: N.Env, xs: seq<CsDelivery>)
    requires N.EnvOk(env) && e.retryCount == 0
    requires CsDrained(CsFirstRun(s, e, env), xs).Some?
    ensures var d := CsDrained(CsFirstRun(s, e, env), xs).value;
            d.runs <= 4 && d.calls <= 16
  {
    var d := CsDrain(N.OnAuthorised(s, e, env), First(|s.outbox|), 1, CaptureCalls(s, e, env));
    CaptureSpends(s, e, env);
    TodoNone(d.s.outbox, d.done, |s.outbox|, CapturesOfRow);
    CsDrainedInBudget(d, xs, 4);
  }

  ghost predicate CsDrainsTo(d: CsDrain, y: CsDrain) {
    exists xs :: CsDrained(d, xs) == Some(y)
  }

  lemma CsDrainsOn(d: CsDrain, y: CsDrain, x: CsDelivery)
    requires CsDrainsTo(d, y) && CsDeliverable(y, x)
    ensures CsDrainsTo(d, CsDeliver(y, x))
  {
    var xs :| CsDrained(d, xs) == Some(y);
    assert (xs + [x])[..|xs|] == xs;
    assert CsDrained(d, xs + [x]) == Some(CsDeliver(y, x));
  }

  const UNREACHED := N.PayRpc(Dropped, [])

  /** No capture call gets through, every write succeeds. */
  const CS_OUTAGE := N.Env([UNREACHED, UNREACHED, UNREACHED, UNREACHED], false, false)

  lemma {:induction false} NoneReached(t: P.Table, ask: N.Ask, calls: seq<N.PayRpc>)
    requires forall c :: c in calls ==> c == UNREACHED
    ensures N.AfterCalls(t, ask, calls) == t && N.CallsReply(t, ask, calls) == None
    ensures N.CallsMade(t, ask, calls) == |calls|
    decreases calls
  {
    if calls != [] {
      assert calls[0] in calls && forall c :: c in calls[1..] ==> c in calls;
      NoneReached(t, ask, calls[1..]);
    }
  }

  lemma CsOutageRun(s: N.Cs, e: PaymentAuthorisedEvent)
    requires !e.paymentCaptured
    ensures N.OnAuthorised(s, e, CS_OUTAGE) == s.(outbox := s.outbox + [N.RescheduledRow(e)])
    ensures CaptureCalls(s, e, CS_OUTAGE) == 4
  {
    NoneReached(s.payments, N.CaptureAsk(e), CS_OUTAGE.calls);
  }

  /** The last row waits, uncaptured, at its n-th try. */
  predicate CsWaiting(d: CsDrain, e: PaymentAuthorisedEvent, n: nat, runs: nat, calls: nat) {
    && d.s.outbox != [] && |d.s.outbox| - 1 !in d.done && (forall i :: i in d.done ==> i < |d.s.outbox|)
    && d.s.outbox[|d.s.outbox| - 1].payload == Authorised(e.(retryCount := n))
    && d.runs == runs && d.calls == calls
  }

  lemma CsOutageTry(d0: CsDrain, d: CsDrain, e: PaymentAuthorisedEvent, n: nat) returns (y: CsDrain)
    requires CsDrainsTo(d0, d) && CsWaiting(d, e, n, n, 4 * n) && !e.paymentCaptured && n <= N.MAX_RETRIES
    ensures CsDrainsTo(d0, y) && y.runs == n + 1 && y.calls == 4 * (n + 1)
    ensures n < N.MAX_RETRIES ==> CsWaiting(y, e, n + 1, n + 1, 4 * (n + 1))
  {
    var x := CsDelivery(|d.s.outbox| - 1, CS_OUTAGE);
    CsOutageRun(d.s, e.(retryCount := n));
    CsDrainsOn(d0, d, x);
    y := CsDeliver(d, x);
  }

  /** The bound is tight: in an outage of the payment service one authorised event does cause
      4 handler runs and 16 capture calls. */
  lemma CaptureBoundIsReached(s: N.Cs, e: PaymentAuthorisedEvent) returns (y: CsDrain)
    requires e.retryCount == 0 && !e.paymentCaptured
    ensures CsDrainsTo(CsFirstRun(s, e, CS_OUTAGE), y)
    ensures y.runs == 4 && y.calls == 16
  {
    CsOutageRun(s, e);
    var d0 := CsFirstRun(s, e, CS_OUTAGE);
    assert CsDrained(d0, []) == Some(d0);
    y := CsOutageTry(d0, d0, e, 1);
    y := CsOutageTry(d0, y, e, 2);
    y := CsOutageTry(d0, y, e, 3);
  }
}
