/** The transactional outbox: the table, its two ways of claiming a batch under a lease,
    and the loop that publishes a batch. */
module Outbox {
  import opened Types
  import opened Events

  // ---------- the table ----------

  predicate PendingSame(rows: seq<Row>, topic: Topic, key: RowKey) {
    exists i :: 0 <= i < |rows| && !rows[i].published && rows[i].topic == topic && rows[i].key == key
  }

  /** An insert; under the unique index on pending (key, topic) a second one is swallowed. */
  function Add(rows: seq<Row>, unique: bool, row: Row): seq<Row> {
    if unique && PendingSame(rows, row.topic, row.key) then rows else rows + [row]
  }

  predicate Eligible(row: Row, asOf: int) {
    !row.published && (row.until.None? || row.until.value < asOf)
  }

  /** The eligible, unlocked rows among the first n, in creation order. */
  function Pending(rows: seq<Row>, asOf: int, locked: set<nat>, n: nat): seq<nat>
    requires n <= |rows|
  {
    if n == 0 then []
    else Pending(rows, asOf, locked, n - 1)
         + (if Eligible(rows[n - 1], asOf) && n - 1 !in locked then [n - 1] else [])
  }

  lemma {:induction false} PendingMembers(rows: seq<Row>, asOf: int, locked: set<nat>, n: nat)
    requires n <= |rows|
    ensures forall i: nat :: i in Pending(rows, asOf, locked, n) <==>
              i < n && Eligible(rows[i], asOf) && i !in locked
    ensures Increasing(Pending(rows, asOf, locked, n))
  {
    if n > 0 {
      PendingMembers(rows, asOf, locked, n - 1);
      var s := Pending(rows, asOf, locked, n - 1);
      forall k | 0 <= k < |s| ensures s[k] < n - 1 {
        assert s[k] in s;
      }
    }
  }

  predicate Increasing(s: seq<nat>) {
    forall i, j :: 0 <= i < j < |s| ==> s[i] < s[j]
  }

  /** The rows with the leases of a batch set. */
  function Leased(rows: seq<Row>, batch: seq<nat>, until: int, claim: Option<nat>): seq<Row> {
    seq(|rows|, i requires 0 <= i < |rows| =>
      if i in batch then rows[i].(until := Some(until), claim := if claim.Some? then claim else rows[i].claim)
      else rows[i])
  }

  /** The unpublished rows among the first n that carry a claim id. */
  function ClaimedBy(rows: seq<Row>, claim: nat, n: nat): seq<nat>
    requires n <= |rows|
  {
    if n == 0 then []
    else ClaimedBy(rows, claim, n - 1)
         + (if !rows[n - 1].published && rows[n - 1].claim == Some(claim) then [n - 1] else [])
  }

  /** The update that stamps the eligible rows among the first n. */
  function Stamped(rows: seq<Row>, n: nat, asOf: int, until: int, claim: nat): seq<Row> {
    seq(|rows|, i requires 0 <= i < |rows| =>
      if i < n && Eligible(rows[i], asOf) then rows[i].(until := Some(until), claim := Some(claim)) else rows[i])
  }

  lemma StampedIsLeased(rows: seq<Row>, n: nat, asOf: int, until: int, claim: nat)
    requires n <= |rows|
    ensures Stamped(rows, n, asOf, until, claim) == Leased(rows, Pending(rows, asOf, {}, n), until, Some(claim))
  {
    PendingMembers(rows, asOf, {}, n);
  }

  /** The rows that carry a fresh claim id are those that were eligible when it was stamped. */
  lemma {:induction false} StampedAreClaimed(was: seq<Row>, now: seq<Row>, asOf: int, claim: nat, n: nat)
    requires n <= |was| == |now|
    requires forall i :: 0 <= i < |was| ==> was[i].claim != Some(claim) && now[i].published == was[i].published
    requires forall i :: 0 <= i < |was| ==> now[i].claim == if Eligible(was[i], asOf) then Some(claim) else was[i].claim
    ensures ClaimedBy(now, claim, n) == Pending(was, asOf, {}, n)
  {
    if n > 0 {
      StampedAreClaimed(was, now, asOf, claim, n - 1);
    }
  }

  lemma {:induction false} ClaimedMembers(rows: seq<Row>, claim: nat, n: nat)
    requires n <= |rows|
    ensures forall i: nat :: i in ClaimedBy(rows, claim, n) <==>
              i < n && !rows[i].published && rows[i].claim == Some(claim)
    ensures Increasing(ClaimedBy(rows, claim, n))
  {
    if n > 0 {
      ClaimedMembers(rows, claim, n - 1);
      var s := ClaimedBy(rows, claim, n - 1);
      forall k | 0 <= k < |s| ensures s[k] < n - 1 {
        assert s[k] in s;
      }
    }
  }

  /** The table of one service. `unique` says whether the index on pending (key, topic)
      exists: it does in the reservation service, not in the consignment service. */
  class OutboxTable {
    const unique: bool
    var rows: seq<Row>

    constructor (unique: bool)
      ensures this.unique == unique && rows == []
    {
      this.unique := unique;
      rows := [];
    }

    method CreateEvent(topic: Topic, key: RowKey, payload: Payload, fails: bool) returns (ok: bool)
      modifies this
      ensures ok <==> !fails
      ensures rows == if fails then old(rows) else Add(old(rows), unique, NewRow(topic, key, payload))
    {
      if fails {
        return false;
      }
      if unique && PendingSame(rows, topic, key) {
        return true;
      }
      rows := rows + [NewRow(topic, key, payload)];
      return true;
    }

    method MarkPublished(id: nat, fails: bool) returns (ok: bool)
      modifies this
      ensures ok <==> !fails && id < |old(rows)|
      ensures rows == if ok then old(rows)[id := old(rows)[id].(published := true)] else old(rows)
    {
      if fails || id >= |rows| {
        return false;
      }
      rows := rows[id := rows[id].(published := true)];
      return true;
    }

    /** Claim in one transaction: select the eligible rows as of the transaction's start,
        skipping rows another claim has locked, then stamp their lease. */
    method ClaimSkippingLocked(asOf: int, stamp: int, lease: nat, locked: set<nat>, queryFails: bool, claimFails: bool)
      returns (batch: Option<seq<nat>>)
      modifies this
      ensures batch.None? <==> queryFails || (claimFails && Pending(old(rows), asOf, locked, |old(rows)|) != [])
      ensures batch.Some? ==>
                && batch.value == Pending(old(rows), asOf, locked, |old(rows)|)
                && rows == Leased(old(rows), batch.value, stamp + lease, None)
      ensures batch.None? ==> rows == old(rows)
    {
      if queryFails {
        return None;
      }
      var events: seq<nat> := [];
      var i := 0;
      while i < |rows|
        invariant 0 <= i <= |rows|
        invariant events == Pending(rows, asOf, locked, i)
      {
        if Eligible(rows[i], asOf) && i !in locked {
          events := events + [i];
        }
        i := i + 1;
      }
      ghost var was := rows;
      if |events| == 0 {
        assert Leased(was, [], stamp + lease, None) == was;
        return Some([]);
      }
      if claimFails {
        return None;
      }
      var now := rows;
      rows := seq(|now|, j requires 0 <= j < |now| =>
        if j in events then now[j].(until := Some(stamp + lease)) else now[j]);
      assert rows == Leased(was, events, stamp + lease, None);
      return Some(events);
    }

    /** Claim by id: stamp every eligible row with a fresh claim id, then fetch by that id.
        If the update fails after `reach` rows, those keep their stamp and nothing is fetched. */
    method ClaimById(asOf: int, lease: nat, claim: nat, reach: nat, fetchFails: bool)
      returns (batch: Option<seq<nat>>)
      requires forall i :: 0 <= i < |rows| ==> rows[i].claim != Some(claim)
      modifies this
      ensures var n := if reach < |old(rows)| then reach else |old(rows)|;
              && rows == Leased(old(rows), Pending(old(rows), asOf, {}, n), asOf + lease, Some(claim))
              && (batch.Some? <==> reach >= |old(rows)| && !fetchFails)
              && (batch.Some? ==> batch.value == Pending(old(rows), asOf, {}, |old(rows)|))
    {
      var was := rows;
      var n := if reach < |was| then reach else |was|;
      rows := Stamped(was, n, asOf, asOf + lease, claim);
      StampedIsLeased(was, n, asOf, asOf + lease, claim);
      if n < |rows| || fetchFails {
        return None;
      }
      StampedAreClaimed(was, rows, asOf, claim, |rows|);
      var events: seq<nat> := [];
      var i := 0;
      while i < |rows|
        invariant 0 <= i <= |rows|
        invariant events == ClaimedBy(rows, claim, i)
      {
        if !rows[i].published && rows[i].claim == Some(claim) {
          events := events + [i];
        }
        i := i + 1;
      }
      return Some(events);
    }
  }

  // ---------- the publishing loop ----------

  /** What happens to one row of a batch: the deadline has passed before it is tried, or
      it is produced (and then marked or not), or producing it fails. A failed produce may
      still have reached the broker. */
  datatype Outcome =
    | DeadlinePassed
    | Produced(marked: bool)
    | ProduceFailed(error: ProduceError, reached: bool)

  datatype ProduceError = ContextDone | BrokerUnreachable | OtherError

  predicate Stops(o: Outcome) {
    o.DeadlinePassed? || (o.ProduceFailed? && o.error != OtherError)
  }

  /** The rows of the batch from the i-th on that reach the broker, in order. */
  function Sent(batch: seq<nat>, outcomes: seq<Outcome>, i: nat): seq<nat>
    requires |outcomes| == |batch| && i <= |batch|
    decreases |batch| - i
  {
    if i == |batch| then []
    else
      (if outcomes[i].Produced? || (outcomes[i].ProduceFailed? && outcomes[i].reached) then [batch[i]] else [])
      + (if Stops(outcomes[i]) then [] else Sent(batch, outcomes, i + 1))
  }

  /** The rows from the i-th on that get their published mark. */
  function Marked(batch: seq<nat>, outcomes: seq<Outcome>, i: nat): set<nat>
    requires |outcomes| == |batch| && i <= |batch|
    decreases |batch| - i
  {
    if i == |batch| then {}
    else
      (if outcomes[i] == Produced(true) then {batch[i]} else {})
      + (if Stops(outcomes[i]) then {} else Marked(batch, outcomes, i + 1))
  }

  /** `now` is `was` with exactly the rows in `marks` marked as published. */
  ghost predicate MarkedAs(was: seq<Row>, now: seq<Row>, marks: set<nat>) {
    && |now| == |was|
    && forall i: nat :: i < |was| ==>
         now[i] == if i in marks then was[i].(published := true) else was[i]
  }

  /** The broker sees a subsequence of the batch in creation order; a row is marked only if
      it reached the broker; and a row that was produced without error is marked unless the
      mark itself failed. */
  lemma {:induction false} SentAndMarked(batch: seq<nat>, outcomes: seq<Outcome>, i: nat)
    requires |outcomes| == |batch| && i <= |batch| && Increasing(batch)
    ensures Increasing(Sent(batch, outcomes, i))
    ensures forall x :: x in Sent(batch, outcomes, i) ==> x in batch[i..]
    ensures forall x :: x in Marked(batch, outcomes, i) ==> x in Sent(batch, outcomes, i)
    decreases |batch| - i
  {
    if i < |batch| {
      SentAndMarked(batch, outcomes, i + 1);
      var s := Sent(batch, outcomes, i + 1);
      assert batch[i..] == [batch[i]] + batch[i + 1..];
      forall k | 0 <= k < |s| ensures batch[i] < s[k] {
        assert s[k] in s;
        assert s[k] in batch[i + 1..];
      }
    }
  }

  /** From row i on, the loop gets to row k: each row before it was produced, or failed alone. */
  predicate GetsTo(outcomes: seq<Outcome>, i: nat, k: nat)
    requires i <= k <= |outcomes|
  {
    forall j: nat :: i <= j < k ==> GoesOn(outcomes[j])
  }

  predicate GoesOn(o: Outcome) {
    o.Produced? || (o.ProduceFailed? && o.error == OtherError)
  }

  predicate ReachesBroker(o: Outcome) {
    o.Produced? || (o.ProduceFailed? && o.reached)
  }

  /** What `SentByPlace` says of row k, from the i-th row on. */
  predicate PlaceIs(batch: seq<nat>, outcomes: seq<Outcome>, i: nat, k: nat)
    requires i <= k < |batch| == |outcomes|
  {
    && (batch[k] in Sent(batch, outcomes, i) <==> ReachesBroker(outcomes[k]) && GetsTo(outcomes, i, k))
    && (batch[k] in Marked(batch, outcomes, i) <==> outcomes[k] == Produced(true) && GetsTo(outcomes, i, k))
  }

  lemma PlaceHere(batch: seq<nat>, outcomes: seq<Outcome>, k: nat)
    requires k < |batch| == |outcomes| && Increasing(batch)
    ensures PlaceIs(batch, outcomes, k, k)
  {
    SentAndMarked(batch, outcomes, k + 1);
    assert batch[k] !in batch[k + 1..];
    SentStep([], batch, outcomes, k);
  }

  lemma PlaceBefore(batch: seq<nat>, outcomes: seq<Outcome>, i: nat, k: nat)
    requires i < k < |batch| == |outcomes| && batch[i] != batch[k] && PlaceIs(batch, outcomes, i + 1, k)
    ensures PlaceIs(batch, outcomes, i, k)
  {
    assert GetsTo(outcomes, i, k) <==> GoesOn(outcomes[i]) && GetsTo(outcomes, i + 1, k);
    SentStep([], batch, outcomes, i);
  }

  lemma {:induction false} PlacesBefore(batch: seq<nat>, outcomes: seq<Outcome>, i: nat, k: nat)
    requires i <= k < |batch| == |outcomes| && Increasing(batch)
    ensures PlaceIs(batch, outcomes, i, k)
    decreases k - i
  {
    if i == k {
      PlaceHere(batch, outcomes, k);
    } else {
      PlacesBefore(batch, outcomes, i + 1, k);
      PlaceBefore(batch, outcomes, i, k);
    }
  }

  /** Row by row: a row of the batch reaches the broker exactly if its own produce does and the
      loop gets to it, and it is marked exactly if it is produced and marked then. One row that
      cannot be produced keeps no other back. */
  lemma SentByPlace(batch: seq<nat>, outcomes: seq<Outcome>, k: nat)
    requires k < |batch| == |outcomes| && Increasing(batch)
    ensures batch[k] in Sent(batch, outcomes, 0) <==> ReachesBroker(outcomes[k]) && GetsTo(outcomes, 0, k)
    ensures batch[k] in Marked(batch, outcomes, 0) <==> outcomes[k] == Produced(true) && GetsTo(outcomes, 0, k)
  {
    PlacesBefore(batch, outcomes, 0, k);
  }

  /** The broker is found unreachable at a row the loop gets to. */
  ghost predicate Aborts(outcomes: seq<Outcome>) {
    exists k: nat :: k < |outcomes| && GetsTo(outcomes, 0, k)
      && outcomes[k].ProduceFailed? && outcomes[k].error == BrokerUnreachable
  }

  /** The same, looking from row i on. */
  predicate AbortsFrom(outcomes: seq<Outcome>, i: nat)
    requires i <= |outcomes|
    decreases |outcomes| - i
  {
    i < |outcomes|
    && if GoesOn(outcomes[i]) then AbortsFrom(outcomes, i + 1)
       else outcomes[i].ProduceFailed? && outcomes[i].error == BrokerUnreachable
  }

  lemma {:induction false} AbortsFromHere(outcomes: seq<Outcome>, i: nat)
    requires i <= |outcomes| && GetsTo(outcomes, 0, i)
    ensures AbortsFrom(outcomes, i) <==> Aborts(outcomes)
    decreases |outcomes| - i
  {
    if i < |outcomes| && GoesOn(outcomes[i]) {
      AbortsFromHere(outcomes, i + 1);
    }
  }

  lemma SentStep(log: seq<nat>, batch: seq<nat>, outcomes: seq<Outcome>, i: nat)
    requires |outcomes| == |batch| && i < |batch|
    ensures var sent := outcomes[i].Produced? || (outcomes[i].ProduceFailed? && outcomes[i].reached);
            log + Sent(batch, outcomes, i)
            == (if sent then log + [batch[i]] else log)
               + (if Stops(outcomes[i]) then [] else Sent(batch, outcomes, i + 1))
  {
  }

  lemma MarkedStep(done: set<nat>, batch: seq<nat>, outcomes: seq<Outcome>, i: nat)
    requires |outcomes| == |batch| && i < |batch|
    ensures done + Marked(batch, outcomes, i)
            == done + (if outcomes[i] == Produced(true) then {batch[i]} else {})
               + (if Stops(outcomes[i]) then {} else Marked(batch, outcomes, i + 1))
  {
  }

  lemma MarkStep(was: seq<Row>, now: seq<Row>, marks: set<nat>, id: nat)
    requires MarkedAs(was, now, marks) && id < |now|
    ensures MarkedAs(was, now[id := now[id].(published := true)], marks + {id})
  {
  }

  /** One call of the publisher, over a batch claimed either way. Produces are appended to
      the broker's log; a row is marked only after it was produced. */
  class Publisher {
    const table: OutboxTable
    var log: seq<nat>

    constructor (table: OutboxTable)
      ensures this.table == table && log == []
    {
      this.table := table;
      log := [];
    }

    method PublishBatch(events: seq<nat>, outcomes: seq<Outcome>) returns (ok: bool)
      requires |outcomes| == |events|
      requires forall i :: 0 <= i < |events| ==> events[i] < |table.rows|
      modifies this`log, table
      ensures log == old(log) + Sent(events, outcomes, 0)
      ensures MarkedAs(old(table.rows), table.rows, Marked(events, outcomes, 0))
      ensures !ok <==> Aborts(outcomes)
    {
      AbortsFromHere(outcomes, 0);
      ghost var was := table.rows;
      var i := 0;
      ghost var done: set<nat> := {};
      while i < |events|
        invariant 0 <= i <= |events|
        invariant old(log) + Sent(events, outcomes, 0) == log + Sent(events, outcomes, i)
        invariant Marked(events, outcomes, 0) == done + Marked(events, outcomes, i)
        invariant MarkedAs(was, table.rows, done)
        invariant AbortsFrom(outcomes, 0) == AbortsFrom(outcomes, i)
      {
        SentStep(log, events, outcomes, i);
        MarkedStep(done, events, outcomes, i);
        if outcomes[i].DeadlinePassed? {
          return true;
        }
        if outcomes[i].Produced? || outcomes[i].reached {
          log := log + [events[i]];
        }
        if outcomes[i].ProduceFailed? {
          if outcomes[i].error == ContextDone {
            return true;
          }
          if outcomes[i].error == BrokerUnreachable {
            return false;
          }
          i := i + 1;
          continue;
        }
        ghost var before := table.rows;
        var _ := table.MarkPublished(events[i], !outcomes[i].marked);
        if outcomes[i].marked {
          MarkStep(was, before, done, events[i]);
          done := done + {events[i]};
        }
        i := i + 1;
      }
      return true;
    }
  }

  // ---------- concurrent cleanup passes ----------

  /** No two pending rows share a topic and key. */
  predicate PendingUnique(rows: seq<Row>) {
    forall i, j :: 0 <= i < j < |rows| && !rows[i].published && !rows[j].published ==>
      rows[i].topic != rows[j].topic || rows[i].key != rows[j].key
  }

  function PendingCount(rows: seq<Row>, topic: Topic, key: RowKey): nat {
    if rows == [] then 0
    else
      var r := rows[|rows| - 1];
      PendingCount(rows[..|rows| - 1], topic, key)
      + (if !r.published && r.topic == topic && r.key == key then 1 else 0)
  }

  lemma {:induction false} CountIsOneOrNone(rows: seq<Row>, topic: Topic, key: RowKey)
    requires PendingUnique(rows)
    ensures PendingCount(rows, topic, key) == if PendingSame(rows, topic, key) then 1 else 0
  {
    if rows != [] {
      var n := |rows| - 1;
      CountIsOneOrNone(rows[..n], topic, key);
      if PendingSame(rows[..n], topic, key) {
        var i :| 0 <= i < n && !rows[..n][i].published && rows[..n][i].topic == topic && rows[..n][i].key == key;
        assert rows[i] == rows[..n][i];
      }
      if PendingSame(rows, topic, key) {
        var i :| 0 <= i < |rows| && !rows[i].published && rows[i].topic == topic && rows[i].key == key;
        assert i < n ==> rows[..n][i] == rows[i];
      }
    }
  }

  /** The inserts of cleanup passes: each names a reported reservation. */
  function Passes(rows: seq<Row>, reported: seq<ReservationInfo>): seq<Row> {
    if reported == [] then rows
    else
      var n := |reported| - 1;
      Add(Passes(rows, reported[..n]), true,
          NewRow(ReservationExpiredTopic, Id(reported[n].id), Expired(reported[n])))
  }

  /** The reports of a pass whose inserts did not fail; a failed insert does not end the pass. */
  function Written(reported: seq<ReservationInfo>, failing: set<nat>): seq<ReservationInfo> {
    if reported == [] then []
    else
      var n := |reported| - 1;
      Written(reported[..n], failing) + (if n in failing then [] else [reported[n]])
  }

  lemma PassStep(rows: seq<Row>, reported: seq<ReservationInfo>, i: nat, failing: set<nat>)
    requires i < |reported|
    ensures var was := Passes(rows, Written(reported[..i], failing));
            Passes(rows, Written(reported[..i + 1], failing))
            == if i in failing then was
               else Add(was, true, NewRow(ReservationExpiredTopic, Id(reported[i].id), Expired(reported[i])))
  {
    var s := Written(reported[..i], failing);
    var was := reported[..i + 1];
    assert was[..i] == reported[..i] && was[i] == reported[i] && s + [] == s;
    assert (s + [reported[i]])[..|s|] == s;
  }

  /** A failed insert loses its own report and no other. */
  lemma {:induction false} WrittenByPlace(reported: seq<ReservationInfo>, failing: set<nat>)
    ensures forall info :: info in Written(reported, failing) <==>
              exists i: nat :: i < |reported| && i !in failing && reported[i] == info
  {
    if reported != [] {
      var n := |reported| - 1;
      WrittenByPlace(reported[..n], failing);
      forall info
        ensures info in Written(reported, failing) <==>
                exists i: nat :: i < |reported| && i !in failing && reported[i] == info
      {
        if i: nat :| i < |reported| && i !in failing && reported[i] == info {
          assert i < n ==> reported[..n][i] == info;
        }
        if info in Written(reported[..n], failing) {
          var i: nat :| i < n && i !in failing && reported[..n][i] == info;
          assert reported[i] == info;
        }
      }
    }
  }

  /** What passes add are expiry rows of reported reservations, and each of those is pending. */
  lemma {:induction false} PassesAdd(rows: seq<Row>, reported: seq<ReservationInfo>)
    ensures var t := Passes(rows, reported);
            && rows <= t
            && (forall i :: |rows| <= i < |t| ==>
                  exists info :: info in reported && t[i] == NewRow(ReservationExpiredTopic, Id(info.id), Expired(info)))
            && (forall info :: info in reported ==> PendingSame(t, ReservationExpiredTopic, Id(info.id)))
  {
    if reported != [] {
      var n := |reported| - 1;
      var was, t := Passes(rows, reported[..n]), Passes(rows, reported);
      var row := NewRow(ReservationExpiredTopic, Id(reported[n].id), Expired(reported[n]));
      PassesAdd(rows, reported[..n]);
      assert t == was || t == was + [row];
      forall i | |rows| <= i < |t|
        ensures exists info :: info in reported && t[i] == NewRow(ReservationExpiredTopic, Id(info.id), Expired(info))
      {
        if i < |was| {
          var info :| info in reported[..n] && was[i] == NewRow(ReservationExpiredTopic, Id(info.id), Expired(info));
          assert info in reported;
        } else {
          assert t[i] == row && reported[n] in reported;
        }
      }
      forall info | info in reported ensures PendingSame(t, ReservationExpiredTopic, Id(info.id)) {
        if info in reported[..n] {
          var i :| 0 <= i < |was| && !was[i].published && was[i].topic == ReservationExpiredTopic && was[i].key == Id(info.id);
          assert t[i] == was[i];
        } else {
          assert info == reported[n];
          if t != was {
            assert t[|was|] == row;
          }
        }
      }
    }
  }

  /** Any number of passes by any number of instances, before anything is published, leaves
      exactly one pending row per reported reservation and adds none for any other. */
  lemma {:induction false} PassesConverge(rows: seq<Row>, reported: seq<ReservationInfo>, r: ReservationId)
    requires PendingUnique(rows)
    ensures PendingUnique(Passes(rows, reported))
    ensures PendingCount(Passes(rows, reported), ReservationExpiredTopic, Id(r))
            == if exists info :: info in reported && info.id == r then 1
               else PendingCount(rows, ReservationExpiredTopic, Id(r))
  {
    if reported != [] {
      var n := |reported| - 1;
      var was := Passes(rows, reported[..n]);
      var info := reported[n];
      var row := NewRow(ReservationExpiredTopic, Id(info.id), Expired(info));
      PassesConverge(rows, reported[..n], r);
      CountIsOneOrNone(was, ReservationExpiredTopic, Id(info.id));
      CountIsOneOrNone(Passes(rows, reported), ReservationExpiredTopic, Id(r));
      assert (was + [row])[..|was|] == was;
      assert PendingUnique(Passes(rows, reported)) by {
        if !PendingSame(was, row.topic, row.key) {
          assert Passes(rows, reported) == was + [row];
        }
      }
      assert reported == reported[..n] + [info];
    }
  }
}
