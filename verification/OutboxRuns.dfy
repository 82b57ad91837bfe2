/** One call of the publisher, as the table's and the publisher's methods specify it, is a run
    of the pollers' steps, for both ways of claiming. So what holds of all runs of any number
    of pollers holds of the methods. */
module OutboxRuns {
  import opened Types
  import opened Events
  import opened Outbox
  import opened OutboxLease

  ghost predicate Leads(c: Params, s: State, x: State) {
    exists ls :: Execute(c, s, ls) == Some(x)
  }

  lemma LeadsNowhere(c: Params, s: State)
    ensures Leads(c, s, s)
  {
    assert Execute(c, s, []) == Some(s);
  }

  lemma StepOn(c: Params, s: State, x: State, l: Label)
    requires Leads(c, s, x) && Enabled(c, x, l)
    ensures Leads(c, s, Apply(c, x, l))
  {
    var ls :| Execute(c, s, ls) == Some(x);
    ExecuteOne(c, s, ls, l);
  }

  /** Only the rows, the log and the poller `p` may differ. */
  predicate OnlyPoller(s: State, x: State, p: nat) {
    x.now == s.now && x.pollers - {p} == s.pollers - {p}
  }

  /** The poller is in its loop, at this row of this batch, inside its deadline. */
  predicate At(c: Params, x: State, p: nat, batch: seq<nat>, i: nat) {
    && p in x.pollers && x.pollers[p].Looping? && x.pollers[p].batch == batch && x.pollers[p].pos == i
    && !x.pollers[p].producing && i <= |batch| && x.now < x.pollers[p].at + c.deadline
    && (forall k :: 0 <= k < |batch| ==> batch[k] < |x.rows|)
  }

  /** What one row's outcome does, if it does not end the loop. */
  lemma RowRun(c: Params, s: State, x: State, p: nat, batch: seq<nat>, i: nat, o: Outcome) returns (y: State)
    requires Leads(c, s, x) && At(c, x, p, batch, i) && i < |batch| && !o.DeadlinePassed?
    ensures Leads(c, s, y) && OnlyPoller(x, y, p)
    ensures y.log == if o.Produced? || o.reached then x.log + [batch[i]] else x.log
    ensures MarkedAs(x.rows, y.rows, if o == Produced(true) then {batch[i]} else {})
    ensures if Stops(o) then p !in y.pollers else At(c, y, p, batch, i + 1)
  {
    StepOn(c, s, x, Enter(p));
    var q := x.pollers[p];
    var x1 := x.(pollers := x.pollers[p := q.(producing := true)]);
    assert x1 == Apply(c, x, Enter(p));
    match o
    case Produced(marked) =>
      StepOn(c, s, x1, Leave(p, true, true, false));
      var x2 := Apply(c, x1, Leave(p, true, true, false));
      assert x2.pollers[p] == Marking(q.at, batch, i);
      StepOn(c, s, x2, Mark(p, marked));
      y := Apply(c, x2, Mark(p, marked));
    case ProduceFailed(error, reached) =>
      var l := Leave(p, reached, false, Stops(o));
      StepOn(c, s, x1, l);
      y := Apply(c, x1, l);
  }

  lemma MarkedThen(a: seq<Row>, b: seq<Row>, d: seq<Row>, m: set<nat>, n: set<nat>)
    requires MarkedAs(a, b, m) && MarkedAs(b, d, n)
    ensures MarkedAs(a, d, m + n)
  {
  }

  /** The whole loop: what it sends and what it marks. */
  lemma {:induction false} LoopRun(c: Params, s: State, x: State, p: nat, batch: seq<nat>, i: nat,
                                   outcomes: seq<Outcome>)
    returns (y: State)
    requires Leads(c, s, x) && At(c, x, p, batch, i) && |outcomes| == |batch|
    ensures Leads(c, s, y) && OnlyPoller(x, y, p) && p !in y.pollers
    ensures y.log == x.log + Sent(batch, outcomes, i)
    ensures MarkedAs(x.rows, y.rows, Marked(batch, outcomes, i))
    decreases |batch| - i
  {
    if i == |batch| || outcomes[i].DeadlinePassed? {
      StepOn(c, s, x, Quit(p));
      y := Apply(c, x, Quit(p));
    } else {
      var o := outcomes[i];
      var z := RowRun(c, s, x, p, batch, i, o);
      SentStep(x.log, batch, outcomes, i);
      MarkedStep({}, batch, outcomes, i);
      if Stops(o) {
        y := z;
      } else {
        y := LoopRun(c, s, z, p, batch, i + 1, outcomes);
        var m := if o == Produced(true) then {batch[i]} else {};
        MarkedThen(x.rows, z.rows, y.rows, m, Marked(batch, outcomes, i + 1));
      }
    }
  }

  /** The poller opens its deadline context and reads the clock. */
  lemma OpenRun(c: Params, s: State, p: nat) returns (x: State)
    requires p !in s.pollers
    ensures Leads(c, s, x)
    ensures x == s.(pollers := s.pollers[p := Claiming(s.now, s.now, s.nextClaim)], nextClaim := s.nextClaim + 1)
  {
    LeadsNowhere(c, s);
    StepOn(c, s, s, Open(p));
    x := s.(pollers := s.pollers[p := Opened(s.now)]);
    StepOn(c, s, x, ReadClock(p));
    x := x.(pollers := x.pollers[p := Claiming(s.now, s.now, s.nextClaim)], nextClaim := s.nextClaim + 1);
    assert x.pollers == s.pollers[p := Claiming(s.now, s.now, s.nextClaim)];
  }

  /** Stamping the eligible rows one by one. */
  lemma {:induction false} StampsRun(c: Params, s: State, x: State, p: nat, n: nat) returns (y: State)
    requires c.style.ById? && Leads(c, s, x) && p in x.pollers && x.pollers[p].Claiming? && n <= |x.rows|
    ensures Leads(c, s, y)
    ensures y == x.(rows := Stamped(x.rows, n, x.pollers[p].asOf, x.pollers[p].asOf + c.lease, x.pollers[p].claim))
  {
    var q := x.pollers[p];
    if n == 0 {
      y := x;
      assert Stamped(x.rows, 0, q.asOf, q.asOf + c.lease, q.claim) == x.rows;
    } else {
      var z := StampsRun(c, s, x, p, n - 1);
      var want := Stamped(x.rows, n, q.asOf, q.asOf + c.lease, q.claim);
      if Eligible(x.rows[n - 1], q.asOf) {
        StepOn(c, s, z, Stamp(p, n - 1));
        y := Apply(c, z, Stamp(p, n - 1));
        assert y.rows == want;
      } else {
        y := z;
        assert y.rows == want;
      }
    }
  }

  /** `x` is `s` after poller `p` claimed its batch. */
  predicate HasClaimed(c: Params, s: State, p: nat, locked: set<nat>, x: State) {
    var batch := Pending(s.rows, s.now, locked, |s.rows|);
    && x.rows == Leased(s.rows, batch, s.now + c.lease, if c.style.ById? then Some(s.nextClaim) else None)
    && x.pollers == s.pollers[p := Looping(s.now, batch, 0, false)]
    && x.now == s.now && x.log == s.log
  }

  lemma SkippedIs(c: Params, s: State, w: State, p: nat, locked: set<nat>)
    requires c.style.SkipLocked?
    requires w == s.(pollers := s.pollers[p := Claiming(s.now, s.now, s.nextClaim)], nextClaim := s.nextClaim + 1)
    ensures Enabled(c, w, ClaimAll(p, s.now, locked))
    ensures HasClaimed(c, s, p, locked, Apply(c, w, ClaimAll(p, s.now, locked)))
  {
    assert Claimed(c, w, p, s.now, locked).pollers ==
           s.pollers[p := Looping(s.now, Pending(s.rows, s.now, locked, |s.rows|), 0, false)];
  }

  /** A claim as `ClaimSkippingLocked` specifies it. */
  lemma SkippingRun(c: Params, s: State, p: nat, locked: set<nat>) returns (x: State)
    requires p !in s.pollers && c.style.SkipLocked?
    ensures Leads(c, s, x) && HasClaimed(c, s, p, locked, x)
  {
    var w := OpenRun(c, s, p);
    SkippedIs(c, s, w, p, locked);
    StepOn(c, s, w, ClaimAll(p, s.now, locked));
    x := Apply(c, w, ClaimAll(p, s.now, locked));
  }

  /** Fetching by a fresh claim id, right after the stamps, returns what was eligible. */
  lemma FetchedAreStamped(rows: seq<Row>, asOf: int, until: int, claim: nat)
    requires forall i :: 0 <= i < |rows| ==> rows[i].claim != Some(claim)
    ensures var now := Stamped(rows, |rows|, asOf, until, claim);
            && ClaimedBy(now, claim, |now|) == Pending(rows, asOf, {}, |rows|)
            && now == Leased(rows, Pending(rows, asOf, {}, |rows|), until, Some(claim))
  {
    StampedIsLeased(rows, |rows|, asOf, until, claim);
    StampedAreClaimed(rows, Stamped(rows, |rows|, asOf, until, claim), asOf, claim, |rows|);
  }

  lemma FetchRun(c: Params, s: State, v: State, p: nat) returns (x: State)
    requires c.style.ById? && Leads(c, s, v) && p in v.pollers && v.pollers[p].Claiming?
    ensures Leads(c, s, x)
    ensures var q := v.pollers[p];
            x == v.(pollers := v.pollers[p := Looping(q.at, ClaimedBy(v.rows, q.claim, |v.rows|), 0, false)])
  {
    StepOn(c, s, v, Fetch(p));
    x := Apply(c, v, Fetch(p));
  }

  /** A claim as `ClaimById` specifies it. */
  lemma ByIdRun(c: Params, s: State, p: nat) returns (x: State)
    requires p !in s.pollers && c.style.ById?
    requires forall i :: 0 <= i < |s.rows| ==> s.rows[i].claim != Some(s.nextClaim)
    ensures Leads(c, s, x) && HasClaimed(c, s, p, {}, x)
  {
    var w := OpenRun(c, s, p);
    var v := StampsRun(c, s, w, p, |w.rows|);
    x := FetchRun(c, s, v, p);
    FetchedIs(c, s, w, v, p, x);
  }

  lemma FetchedIs(c: Params, s: State, w: State, v: State, p: nat, x: State)
    requires forall i :: 0 <= i < |s.rows| ==> s.rows[i].claim != Some(s.nextClaim)
    requires c.style.ById?
    requires w == s.(pollers := s.pollers[p := Claiming(s.now, s.now, s.nextClaim)], nextClaim := s.nextClaim + 1)
    requires v == w.(rows := Stamped(w.rows, |w.rows|, s.now, s.now + c.lease, s.nextClaim))
    requires x == v.(pollers := v.pollers[p := Looping(s.now, ClaimedBy(v.rows, s.nextClaim, |v.rows|), 0, false)])
    ensures HasClaimed(c, s, p, {}, x)
  {
    FetchedAreStamped(s.rows, s.now, s.now + c.lease, s.nextClaim);
    assert x.pollers == s.pollers[p := x.pollers[p]];
  }

  /** One whole call: claim a batch, then publish it, as `PublishBatch` specifies. */
  lemma PublishRun(c: Params, s: State, p: nat, locked: set<nat>, outcomes: seq<Outcome>) returns (y: State)
    requires p !in s.pollers && (c.style.ById? ==> locked == {}) && 0 < c.deadline
    requires forall i :: 0 <= i < |s.rows| ==> s.rows[i].claim != Some(s.nextClaim)
    requires |outcomes| == |Pending(s.rows, s.now, locked, |s.rows|)|
    ensures Leads(c, s, y) && OnlyPoller(s, y, p) && p !in y.pollers
    ensures var batch := Pending(s.rows, s.now, locked, |s.rows|);
            var leased := Leased(s.rows, batch, s.now + c.lease, if c.style.ById? then Some(s.nextClaim) else None);
            && y.log == s.log + Sent(batch, outcomes, 0)
            && MarkedAs(leased, y.rows, Marked(batch, outcomes, 0))
  {
    var batch := Pending(s.rows, s.now, locked, |s.rows|);
    var x: State;
    if c.style.SkipLocked? {
      x := SkippingRun(c, s, p, locked);
    } else {
      x := ByIdRun(c, s, p);
    }
    PendingMembers(s.rows, s.now, locked, |s.rows|);
    forall k | 0 <= k < |batch| ensures batch[k] < |x.rows| {
      assert batch[k] in batch;
    }
    y := LoopRun(c, s, x, p, batch, 0, outcomes);
  }
}
