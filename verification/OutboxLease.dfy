/** Any number of pollers over one outbox table and one clock: when can two of them produce
    the same row at the same time, and can a row get lost? */
module OutboxLease {
  import opened Types
  import opened Events
  import opened Outbox

  datatype Style = SkipLocked | ById

  datatype Params = Params(lease: nat, deadline: int, style: Style)

  /** Where a poller is in one call of the publisher. `at` is when it opened its deadline
      context, `asOf` the clock it read for its claim. */
  datatype Poller =
    | Opened(at: int)
    | Claiming(at: int, asOf: int, claim: nat)
    | Looping(at: int, batch: seq<nat>, pos: nat, producing: bool)
    | Marking(at: int, batch: seq<nat>, pos: nat)

  /** An idle poller has no entry. `log` is what has reached the broker. */
  datatype State = State(
    now: int, rows: seq<Row>, pollers: map<nat, Poller>, log: seq<nat>, nextClaim: nat)

  datatype Label =
    | Advance(units: nat)
    | Create(topic: Topic, key: RowKey, payload: Payload)
    | Open(p: nat)
    | ReadClock(p: nat)
    | ClaimAll(p: nat, stamp: int, locked: set<nat>)
    | Stamp(p: nat, row: nat)
    | Fetch(p: nat)
    | Enter(p: nat)
    | Leave(p: nat, reached: bool, ok: bool, stop: bool)
    | Mark(p: nat, works: bool)
    | Quit(p: nat)

  predicate Producing(s: State, p: nat) {
    p in s.pollers && s.pollers[p].Looping? && s.pollers[p].producing
    && s.pollers[p].pos < |s.pollers[p].batch|
  }

  predicate Enabled(c: Params, s: State, l: Label) {
    match l
    case Advance(units) =>
      // a produce returns when its context is done, so time cannot pass the deadline inside it
      forall p :: p in s.pollers && Producing(s, p) ==> s.now + units <= s.pollers[p].at + c.deadline
    case Create(_, _, _) => true
    case Open(p) => p !in s.pollers
    case ReadClock(p) => p in s.pollers && s.pollers[p].Opened?
    case ClaimAll(p, stamp, _) =>
      c.style.SkipLocked? && p in s.pollers && s.pollers[p].Claiming? && s.pollers[p].asOf <= stamp <= s.now
    case Stamp(p, row) =>
      && c.style.ById? && p in s.pollers && s.pollers[p].Claiming?
      && row < |s.rows| && Eligible(s.rows[row], s.pollers[p].asOf)
    case Fetch(p) => c.style.ById? && p in s.pollers && s.pollers[p].Claiming?
    case Enter(p) =>
      && p in s.pollers && s.pollers[p].Looping? && !s.pollers[p].producing
      && s.pollers[p].pos < |s.pollers[p].batch|
      && s.now < s.pollers[p].at + c.deadline
    case Leave(p, reached, ok, stop) => Producing(s, p) && (ok ==> reached && !stop)
    case Mark(p, _) =>
      && p in s.pollers && s.pollers[p].Marking?
      && s.pollers[p].pos < |s.pollers[p].batch|
      && s.pollers[p].batch[s.pollers[p].pos] < |s.rows|
    case Quit(p) => p in s.pollers
  }

  function Apply(c: Params, s: State, l: Label): State
    requires Enabled(c, s, l)
  {
    match l
    case Advance(units) => s.(now := s.now + units)
    case Create(topic, key, payload) => s.(rows := s.rows + [NewRow(topic, key, payload)])
    case Open(p) => s.(pollers := s.pollers[p := Opened(s.now)])
    case ReadClock(p) =>
      s.(pollers := s.pollers[p := Claiming(s.pollers[p].at, s.now, s.nextClaim)],
         nextClaim := s.nextClaim + 1)
    case ClaimAll(p, stamp, locked) =>
      var q := s.pollers[p];
      var batch := Pending(s.rows, q.asOf, locked, |s.rows|);
      s.(rows := Leased(s.rows, batch, stamp + c.lease, None),
         pollers := s.pollers[p := Looping(q.at, batch, 0, false)])
    case Stamp(p, row) =>
      var q := s.pollers[p];
      s.(rows := s.rows[row := s.rows[row].(until := Some(q.asOf + c.lease), claim := Some(q.claim))])
    case Fetch(p) =>
      var q := s.pollers[p];
      s.(pollers := s.pollers[p := Looping(q.at, ClaimedBy(s.rows, q.claim, |s.rows|), 0, false)])
    case Enter(p) => s.(pollers := s.pollers[p := s.pollers[p].(producing := true)])
    case Leave(p, reached, ok, stop) =>
      var q := s.pollers[p];
      s.(log := if reached then s.log + [q.batch[q.pos]] else s.log,
         pollers := if stop then s.pollers - {p}
                    else if ok then s.pollers[p := Marking(q.at, q.batch, q.pos)]
                    else s.pollers[p := Looping(q.at, q.batch, q.pos + 1, false)])
    case Mark(p, works) =>
      var q := s.pollers[p];
      var id := q.batch[q.pos];
      s.(rows := if works then s.rows[id := s.rows[id].(published := true)] else s.rows,
         pollers := s.pollers[p := Looping(q.at, q.batch, q.pos + 1, false)])
    case Quit(p) => s.(pollers := s.pollers - {p})
  }

  function Execute(c: Params, s: State, ls: seq<Label>): Option<State> {
    if ls == [] then Some(s)
    else
      var n := |ls| - 1;
      var r := Execute(c, s, ls[..n]);
      if r.Some? && Enabled(c, r.value, ls[n]) then Some(Apply(c, r.value, ls[n])) else None
  }

  const INIT := State(0, [], map[], [], 0)

  /** No two pollers are inside the produce of one row. */
  ghost predicate Exclusive(s: State) {
    forall p, q :: Producing(s, p) && Producing(s, q) && p != q ==>
      s.pollers[p].batch[s.pollers[p].pos] != s.pollers[q].batch[s.pollers[q].pos]
  }

  // ---------- the invariant ----------

  /** The row belongs to the batch the poller has claimed or is claiming. */
  predicate Holds(s: State, p: nat, row: nat) {
    p in s.pollers && row < |s.rows| &&
    match s.pollers[p]
    case Opened(_) => false
    case Claiming(_, _, claim) => s.rows[row].claim == Some(claim)
    case Looping(_, batch, _, _) => row in batch
    case Marking(_, batch, _) => row in batch
  }

  ghost predicate PollerOk(c: Params, s: State, p: nat)
    requires p in s.pollers
  {
    var q := s.pollers[p];
    && q.at <= s.now
    && (q.Claiming? ==> q.at <= q.asOf <= s.now && q.claim < s.nextClaim)
    && (q.Looping? || q.Marking? ==>
          && q.pos <= |q.batch|
          && forall i :: 0 <= i < |q.batch| ==> q.batch[i] < |s.rows|)
    && (q.Looping? && q.producing ==> q.pos < |q.batch| && s.now <= q.at + c.deadline)
    && (q.Marking? ==> q.pos < |q.batch| && q.batch[q.pos] in s.log)
  }

  ghost predicate PollersOk(c: Params, s: State) {
    && (forall p :: p in s.pollers ==> PollerOk(c, s, p))
    && (forall p, q ::
          (p in s.pollers && q in s.pollers && p != q && s.pollers[p].Claiming? && s.pollers[q].Claiming?)
          ==> s.pollers[p].claim != s.pollers[q].claim)
  }

  ghost predicate RowsOk(c: Params, s: State) {
    forall i: nat :: i < |s.rows| ==>
      && (s.rows[i].claim.Some? ==> s.rows[i].claim.value < s.nextClaim)
      && (s.rows[i].until.Some? ==> s.rows[i].until.value <= s.now + c.lease)
      && (s.rows[i].published ==> i in s.log)
  }

  /** A held row is leased for at least the lease counted from the poller's opening. */
  ghost predicate LeasesOk(c: Params, s: State) {
    forall p: nat, i: nat :: Holds(s, p, i) ==>
      s.rows[i].until.Some? && s.pollers[p].at + c.lease <= s.rows[i].until.value
  }

  /** If two pollers hold one row, the lease of one of them has run out. */
  ghost predicate OwnersOk(c: Params, s: State) {
    forall p: nat, q: nat, i: nat :: Holds(s, p, i) && Holds(s, q, i) && p != q ==>
      s.pollers[p].at + c.lease < s.now || s.pollers[q].at + c.lease < s.now
  }

  ghost predicate Inv(c: Params, s: State) {
    PollersOk(c, s) && RowsOk(c, s) && LeasesOk(c, s) && OwnersOk(c, s)
  }

  /** A row that can be claimed as of a clock reading is held only by pollers whose lease is over. */
  lemma EligibleIsFree(c: Params, s: State, p: nat, row: nat, asOf: int)
    requires Inv(c, s) && Holds(s, p, row) && Eligible(s.rows[row], asOf) && asOf <= s.now
    ensures s.pollers[p].at + c.lease < s.now
  {
  }

  /** What a claim of a whole batch holds afterwards: the batch by the claimer, and what was
      held before by everyone else. */
  lemma ClaimAllHolds(c: Params, s: State, p: nat, stamp: int, locked: set<nat>, x: nat, i: nat)
    requires Inv(c, s) && Enabled(c, s, ClaimAll(p, stamp, locked))
    requires Holds(Apply(c, s, ClaimAll(p, stamp, locked)), x, i)
    ensures var batch := Pending(s.rows, s.pollers[p].asOf, locked, |s.rows|);
            && (i in batch ==> i < |s.rows| && Eligible(s.rows[i], s.pollers[p].asOf))
            && (x == p ==> i in batch)
            && (x != p ==> Holds(s, x, i))
  {
    PendingMembers(s.rows, s.pollers[p].asOf, locked, |s.rows|);
  }

  lemma ClaimAllLeases(c: Params, s: State, p: nat, stamp: int, locked: set<nat>)
    requires Inv(c, s) && Enabled(c, s, ClaimAll(p, stamp, locked))
    ensures LeasesOk(c, Apply(c, s, ClaimAll(p, stamp, locked)))
    ensures OwnersOk(c, Apply(c, s, ClaimAll(p, stamp, locked)))
  {
    var l := ClaimAll(p, stamp, locked);
    var t := Apply(c, s, l);
    var asOf := s.pollers[p].asOf;
    assert PollerOk(c, s, p);
    forall x: nat, i: nat | Holds(t, x, i)
      ensures t.rows[i].until.Some? && t.pollers[x].at + c.lease <= t.rows[i].until.value
    {
      ClaimAllHolds(c, s, p, stamp, locked, x, i);
      if x != p && Eligible(s.rows[i], asOf) {
        EligibleIsFree(c, s, x, i, asOf);
      }
    }
    forall x: nat, y: nat, i: nat | Holds(t, x, i) && Holds(t, y, i) && x != y
      ensures t.pollers[x].at + c.lease < t.now || t.pollers[y].at + c.lease < t.now
    {
      ClaimAllHolds(c, s, p, stamp, locked, x, i);
      ClaimAllHolds(c, s, p, stamp, locked, y, i);
      if x == p {
        EligibleIsFree(c, s, y, i, asOf);
      } else if y == p {
        EligibleIsFree(c, s, x, i, asOf);
      }
    }
  }

  /** The world after a claim of a whole batch. */
  function Claimed(c: Params, s: State, p: nat, stamp: int, locked: set<nat>): State
    requires Enabled(c, s, ClaimAll(p, stamp, locked))
  {
    var batch := Pending(s.rows, s.pollers[p].asOf, locked, |s.rows|);
    s.(rows := Leased(s.rows, batch, stamp + c.lease, None),
       pollers := s.pollers[p := Looping(s.pollers[p].at, batch, 0, false)])
  }

  lemma ClaimAllPollers(c: Params, s: State, p: nat, stamp: int, locked: set<nat>)
    requires PollersOk(c, s) && Enabled(c, s, ClaimAll(p, stamp, locked))
    ensures PollersOk(c, Claimed(c, s, p, stamp, locked))
  {
    var t := Claimed(c, s, p, stamp, locked);
    PendingMembers(s.rows, s.pollers[p].asOf, locked, |s.rows|);
    var batch := t.pollers[p].batch;
    forall i | 0 <= i < |batch| ensures batch[i] < |t.rows| {
      assert batch[i] in batch;
    }
    forall x | x in t.pollers ensures PollerOk(c, t, x) {
      assert PollerOk(c, s, x);
    }
  }

  lemma ClaimAllRows(c: Params, s: State, p: nat, stamp: int, locked: set<nat>)
    requires RowsOk(c, s) && Enabled(c, s, ClaimAll(p, stamp, locked))
    ensures RowsOk(c, Claimed(c, s, p, stamp, locked))
  {
  }

  lemma ClaimAllKeeps(c: Params, s: State, p: nat, stamp: int, locked: set<nat>)
    requires Inv(c, s) && Enabled(c, s, ClaimAll(p, stamp, locked))
    ensures Inv(c, Apply(c, s, ClaimAll(p, stamp, locked)))
  {
    ClaimAllLeases(c, s, p, stamp, locked);
    ClaimAllPollers(c, s, p, stamp, locked);
    ClaimAllRows(c, s, p, stamp, locked);
  }

  lemma StampKeeps(c: Params, s: State, p: nat, row: nat)
    requires Inv(c, s) && Enabled(c, s, Stamp(p, row))
    ensures Inv(c, Apply(c, s, Stamp(p, row)))
  {
    var t := Apply(c, s, Stamp(p, row));
    var q := s.pollers[p];
    forall x | x in t.pollers ensures PollerOk(c, t, x) {
      assert PollerOk(c, s, x);
    }
    forall x: nat, i: nat | Holds(t, x, i)
      ensures t.rows[i].until.Some? && t.pollers[x].at + c.lease <= t.rows[i].until.value
    {
      if i != row {
        assert Holds(s, x, i);
      } else if x != p {
        assert Holds(s, x, i);
        EligibleIsFree(c, s, x, i, q.asOf);
      }
    }
    forall x: nat, y: nat, i: nat | Holds(t, x, i) && Holds(t, y, i) && x != y
      ensures t.pollers[x].at + c.lease < t.now || t.pollers[y].at + c.lease < t.now
    {
      if i != row || (x != p && y != p) {
        assert Holds(s, x, i) && Holds(s, y, i);
      } else {
        var z := if x == p then y else x;
        assert Holds(s, z, i);
        EligibleIsFree(c, s, z, i, q.asOf);
      }
    }
  }

  lemma FetchPollers(c: Params, s: State, p: nat)
    requires PollersOk(c, s) && Enabled(c, s, Fetch(p))
    ensures PollersOk(c, Apply(c, s, Fetch(p)))
    ensures forall i: nat :: i in Apply(c, s, Fetch(p)).pollers[p].batch ==> Holds(s, p, i)
  {
    var t := Apply(c, s, Fetch(p));
    ClaimedMembers(s.rows, s.pollers[p].claim, |s.rows|);
    var batch := t.pollers[p].batch;
    forall i | 0 <= i < |batch| ensures batch[i] < |t.rows| {
      assert batch[i] in batch;
    }
    forall x | x in t.pollers ensures PollerOk(c, t, x) {
      assert PollerOk(c, s, x);
    }
  }

  lemma FetchKeeps(c: Params, s: State, p: nat)
    requires Inv(c, s) && Enabled(c, s, Fetch(p))
    ensures Inv(c, Apply(c, s, Fetch(p)))
  {
    var t := Apply(c, s, Fetch(p));
    FetchPollers(c, s, p);
    assert forall x: nat, i: nat :: Holds(t, x, i) ==> Holds(s, x, i);
  }

  /** Steps that move neither rows' leases nor batches. */
  predicate Quiet(l: Label) {
    !l.ClaimAll? && !l.Stamp? && !l.Fetch?
  }

  /** What is held after a quiet step was held before by the same poller. */
  lemma QuietHolds(c: Params, s: State, l: Label, p: nat, i: nat)
    requires PollersOk(c, s) && RowsOk(c, s) && Enabled(c, s, l) && Quiet(l) && Holds(Apply(c, s, l), p, i)
    ensures var t := Apply(c, s, l);
            Holds(s, p, i) && t.pollers[p].at == s.pollers[p].at && t.rows[i].until == s.rows[i].until
  {
  }

  lemma QuietPoller(c: Params, s: State, l: Label, p: nat)
    requires PollersOk(c, s) && Enabled(c, s, l) && Quiet(l) && p in Apply(c, s, l).pollers
    ensures PollerOk(c, Apply(c, s, l), p)
  {
    if p in s.pollers {
      assert PollerOk(c, s, p);
    }
  }

  lemma QuietPollers(c: Params, s: State, l: Label)
    requires PollersOk(c, s) && Enabled(c, s, l) && Quiet(l)
    ensures PollersOk(c, Apply(c, s, l))
  {
    var t := Apply(c, s, l);
    forall p | p in t.pollers ensures PollerOk(c, t, p) {
      QuietPoller(c, s, l, p);
    }
    forall p | p in t.pollers && t.pollers[p].Claiming?
      ensures (p in s.pollers && s.pollers[p] == t.pollers[p])
              || (l == ReadClock(p) && t.pollers[p].claim == s.nextClaim)
    {
    }
  }

  lemma QuietRows(c: Params, s: State, l: Label)
    requires PollersOk(c, s) && RowsOk(c, s) && Enabled(c, s, l) && Quiet(l)
    ensures RowsOk(c, Apply(c, s, l))
  {
    if l.Mark? {
      assert PollerOk(c, s, l.p);
    }
  }

  lemma QuietLeases(c: Params, s: State, l: Label)
    requires Inv(c, s) && Enabled(c, s, l) && Quiet(l)
    ensures LeasesOk(c, Apply(c, s, l)) && OwnersOk(c, Apply(c, s, l))
  {
    var t := Apply(c, s, l);
    forall p: nat, i: nat | Holds(t, p, i)
      ensures t.rows[i].until.Some? && t.pollers[p].at + c.lease <= t.rows[i].until.value
    {
      QuietHolds(c, s, l, p, i);
    }
    forall p: nat, q: nat, i: nat | Holds(t, p, i) && Holds(t, q, i) && p != q
      ensures t.pollers[p].at + c.lease < t.now || t.pollers[q].at + c.lease < t.now
    {
      QuietHolds(c, s, l, p, i);
      QuietHolds(c, s, l, q, i);
      assert s.now <= t.now;
    }
  }

  lemma QuietKeeps(c: Params, s: State, l: Label)
    requires Inv(c, s) && Enabled(c, s, l) && Quiet(l)
    ensures Inv(c, Apply(c, s, l))
  {
    QuietPollers(c, s, l);
    QuietRows(c, s, l);
    QuietLeases(c, s, l);
  }

  lemma StepKeeps(c: Params, s: State, l: Label)
    requires Inv(c, s) && Enabled(c, s, l)
    ensures Inv(c, Apply(c, s, l))
  {
    match l
    case ClaimAll(p, stamp, locked) => ClaimAllKeeps(c, s, p, stamp, locked);
    case Stamp(p, row) => StampKeeps(c, s, p, row);
    case Fetch(p) => FetchKeeps(c, s, p);
    case _ => QuietKeeps(c, s, l);
  }

  lemma {:induction false} RunsKeepInv(c: Params, ls: seq<Label>)
    requires Execute(c, INIT, ls).Some?
    ensures Inv(c, Execute(c, INIT, ls).value)
  {
    if ls != [] {
      var n := |ls| - 1;
      RunsKeepInv(c, ls[..n]);
      StepKeeps(c, Execute(c, INIT, ls[..n]).value, ls[n]);
    }
  }

  lemma InvExcludes(c: Params, s: State)
    requires Inv(c, s) && c.deadline <= c.lease
    ensures Exclusive(s)
  {
    forall p, q | Producing(s, p) && Producing(s, q) && p != q
      ensures s.pollers[p].batch[s.pollers[p].pos] != s.pollers[q].batch[s.pollers[q].pos]
    {
      var row := s.pollers[p].batch[s.pollers[p].pos];
      assert PollerOk(c, s, p) && PollerOk(c, s, q);
      if row == s.pollers[q].batch[s.pollers[q].pos] {
        assert Holds(s, p, row) && Holds(s, q, row);
      }
    }
  }

  // ---------- the counterexample beyond the bound ----------

  lemma ExecuteOne(c: Params, s: State, ls: seq<Label>, l: Label)
    requires Execute(c, s, ls).Some? && Enabled(c, Execute(c, s, ls).value, l)
    ensures Execute(c, s, ls + [l]) == Some(Apply(c, Execute(c, s, ls).value, l))
  {
    assert (ls + [l])[..|ls|] == ls;
  }

  /** The table is one claimable row, and no poller has used the next claim id. */
  predicate Claimable(s: State, p: nat) {
    p !in s.pollers && |s.rows| == 1 && Eligible(s.rows[0], s.now) && s.rows[0].claim != Some(s.nextClaim)
  }

  /** The state in which `p` has claimed that row and is looping over it. */
  predicate ClaimedFrom(c: Params, s: State, p: nat, producing: bool, t: State)
    requires |s.rows| == 1
  {
    && t.now == s.now && t.nextClaim == s.nextClaim + 1
    && t.pollers == s.pollers[p := Looping(s.now, [0], 0, producing)]
    && |t.rows| == 1 && !t.rows[0].published
    && t.rows[0].until == Some(s.now + c.lease)
    && (t.rows[0].claim == s.rows[0].claim || t.rows[0].claim == Some(s.nextClaim))
  }

  /** `p` has opened its context and read the clock. */
  predicate ReadyFrom(s: State, p: nat, t: State) {
    t == s.(pollers := s.pollers[p := Claiming(s.now, s.now, s.nextClaim)], nextClaim := s.nextClaim + 1)
  }

  lemma PollerReads(c: Params, s0: State, ls: seq<Label>, p: nat) returns (run: seq<Label>)
    requires Execute(c, s0, ls).Some? && Claimable(Execute(c, s0, ls).value, p)
    ensures Execute(c, s0, run).Some?
    ensures ReadyFrom(Execute(c, s0, ls).value, p, Execute(c, s0, run).value)
  {
    var s := Execute(c, s0, ls).value;
    ExecuteOne(c, s0, ls, Open(p));
    ExecuteOne(c, s0, ls + [Open(p)], ReadClock(p));
    run := ls + [Open(p)] + [ReadClock(p)];
    assert s.pollers[p := Opened(s.now)][p := Claiming(s.now, s.now, s.nextClaim)]
      == s.pollers[p := Claiming(s.now, s.now, s.nextClaim)];
  }

  lemma ReadyClaimsAll(c: Params, s: State, p: nat, t: State)
    requires Claimable(s, p) && ReadyFrom(s, p, t) && c.style.SkipLocked?
    ensures Enabled(c, t, ClaimAll(p, s.now, {}))
    ensures ClaimedFrom(c, s, p, false, Apply(c, t, ClaimAll(p, s.now, {})))
  {
    assert Pending(t.rows, s.now, {}, 1) == Pending(t.rows, s.now, {}, 0) + [0] == [0];
  }

  lemma ReadyStamps(c: Params, s: State, p: nat, t: State)
    requires Claimable(s, p) && ReadyFrom(s, p, t) && c.style.ById?
    ensures Enabled(c, t, Stamp(p, 0)) && Enabled(c, Apply(c, t, Stamp(p, 0)), Fetch(p))
    ensures ClaimedFrom(c, s, p, false, Apply(c, Apply(c, t, Stamp(p, 0)), Fetch(p)))
  {
    var rows := Apply(c, t, Stamp(p, 0)).rows;
    assert ClaimedBy(rows, s.nextClaim, 1) == ClaimedBy(rows, s.nextClaim, 0) + [0] == [0];
  }

  lemma PollerClaims(c: Params, s0: State, ls: seq<Label>, p: nat) returns (run: seq<Label>)
    requires Execute(c, s0, ls).Some? && Claimable(Execute(c, s0, ls).value, p)
    ensures Execute(c, s0, run).Some?
    ensures ClaimedFrom(c, Execute(c, s0, ls).value, p, false, Execute(c, s0, run).value)
  {
    var s := Execute(c, s0, ls).value;
    var ready := PollerReads(c, s0, ls, p);
    var t := Execute(c, s0, ready).value;
    if c.style.SkipLocked? {
      ReadyClaimsAll(c, s, p, t);
      run := ready + [ClaimAll(p, s.now, {})];
      ExecuteOne(c, s0, ready, ClaimAll(p, s.now, {}));
    } else {
      ReadyStamps(c, s, p, t);
      run := ready + [Stamp(p, 0)] + [Fetch(p)];
      ExecuteOne(c, s0, ready, Stamp(p, 0));
      ExecuteOne(c, s0, ready + [Stamp(p, 0)], Fetch(p));
    }
  }

  lemma PollerEnters(c: Params, s0: State, ls: seq<Label>, p: nat) returns (run: seq<Label>)
    requires Execute(c, s0, ls).Some? && Claimable(Execute(c, s0, ls).value, p) && 0 < c.deadline
    ensures Execute(c, s0, run).Some?
    ensures ClaimedFrom(c, Execute(c, s0, ls).value, p, true, Execute(c, s0, run).value)
  {
    var claimed := PollerClaims(c, s0, ls, p);
    ExecuteOne(c, s0, claimed, Enter(p));
    run := claimed + [Enter(p)];
    var t := Execute(c, s0, claimed).value;
    assert Apply(c, t, Enter(p)).pollers == t.pollers[p := Looping(t.now, [0], 0, true)];
  }

  /** With a deadline longer than the lease, two pollers end up producing one row. */
  lemma LongDeadlineOverlaps(c: Params, payload: Payload) returns (run: seq<Label>)
    requires c.lease < c.deadline
    ensures Execute(c, INIT, run).Some? && !Exclusive(Execute(c, INIT, run).value)
  {
    var create := Create(ReservationExpiredTopic, Id(""), payload);
    assert Execute(c, INIT, []) == Some(INIT);
    ExecuteOne(c, INIT, [], create);
    assert [] + [create] == [create];
    var first := PollerEnters(c, INIT, [create], 0);
    var s1 := Execute(c, INIT, first).value;
    var wait := Advance(c.lease + 1);
    ExecuteOne(c, INIT, first, wait);
    var s2 := Execute(c, INIT, first + [wait]).value;
    run := PollerEnters(c, INIT, first + [wait], 1);
    var s3 := Execute(c, INIT, run).value;
    assert Producing(s3, 0) && Producing(s3, 1);
  }

  /** Lease exclusion, for any number of pollers and either style of claim: no run ever has
      two pollers inside the produce of one row, exactly if the deadline is at most the lease. */
  lemma LeaseExclusion(c: Params)
    ensures (forall ls :: Execute(c, INIT, ls).Some? ==> Exclusive(Execute(c, INIT, ls).value))
            <==> c.deadline <= c.lease
  {
    if c.deadline <= c.lease {
      forall ls | Execute(c, INIT, ls).Some? ensures Exclusive(Execute(c, INIT, ls).value) {
        RunsKeepInv(c, ls);
        InvExcludes(c, Execute(c, INIT, ls).value);
      }
    } else {
      var run := LongDeadlineOverlaps(c, Confirmed("", ""));
    }
  }

  const OUTBOX_LEASE_DURATION := 30
  const OUTBOX_PUBLISH_DEADLINE := 20

  /** The configured 20 s deadline under the 30 s lease excludes overlap, in both stores. */
  lemma ConfiguredLeaseExcludes(style: Style, ls: seq<Label>)
    requires Execute(Params(OUTBOX_LEASE_DURATION, OUTBOX_PUBLISH_DEADLINE, style), INIT, ls).Some?
    ensures Exclusive(Execute(Params(OUTBOX_LEASE_DURATION, OUTBOX_PUBLISH_DEADLINE, style), INIT, ls).value)
  {
    LeaseExclusion(Params(OUTBOX_LEASE_DURATION, OUTBOX_PUBLISH_DEADLINE, style));
  }

  // ---------- nothing is lost ----------

  /** `t` has every row of `s`, in its place and with its content, and every broker message of
      `s` in the order they arrived. */
  ghost predicate OnlyAdds(s: State, t: State) {
    && |s.rows| <= |t.rows| && s.log <= t.log
    && forall i :: 0 <= i < |s.rows| ==>
         && t.rows[i].topic == s.rows[i].topic && t.rows[i].key == s.rows[i].key
         && t.rows[i].payload == s.rows[i].payload
         && (s.rows[i].published ==> t.rows[i].published)
  }

  lemma StepOnlyAdds(c: Params, s: State, l: Label)
    requires Enabled(c, s, l)
    ensures OnlyAdds(s, Apply(c, s, l))
  {
  }

  /** No run, from any state on, removes or rewrites a row, takes a mark back, or takes
      anything back from the broker. */
  lemma {:induction false} RunsOnlyAdd(c: Params, s: State, ls: seq<Label>)
    requires Execute(c, s, ls).Some?
    ensures OnlyAdds(s, Execute(c, s, ls).value)
    decreases ls
  {
    if ls != [] {
      var n := |ls| - 1;
      RunsOnlyAdd(c, s, ls[..n]);
      StepOnlyAdds(c, Execute(c, s, ls[..n]).value, ls[n]);
    }
  }

  /** In every run each created row that is marked has reached the broker, and each that is not
      can be claimed by anyone as soon as one lease has passed without a claim: one that was
      never produced, and one that was produced but whose mark failed. */
  lemma NothingIsLost(c: Params, ls: seq<Label>, row: nat, later: int)
    requires Execute(c, INIT, ls).Some? && row < |Execute(c, INIT, ls).value.rows|
    requires Execute(c, INIT, ls).value.now + c.lease < later
    ensures var s := Execute(c, INIT, ls).value;
            && (s.rows[row].published ==> row in s.log)
            && (!s.rows[row].published ==> Eligible(s.rows[row], later))
  {
    RunsKeepInv(c, ls);
  }
}
