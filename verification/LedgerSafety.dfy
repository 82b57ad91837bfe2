/** What the operation log must look like for the counters to stay within their bounds. */
module LedgerSafety {
  import opened Types
  import opened VesselLedger

  predicate Logged(es: seq<Entry>, key: OpKey) {
    exists e :: e in es && EntryKey(e) == key
  }

  /** The reserve entry that `e` undoes or confirms: same reservation, vessel and amounts. */
  predicate Matched(es: seq<Entry>, e: Entry) {
    e.(kind := Reserve) in es
  }

  /** Every key once, amounts non-negative, and every release or confirm after its own
      reserve and never after another release or confirm of that reservation. */
  ghost predicate Orderly(es: seq<Entry>) {
    es == [] ||
    var init, e := es[..|es| - 1], es[|es| - 1];
    && Orderly(init)
    && Allowed(init, e)
  }

  ghost predicate Allowed(init: seq<Entry>, e: Entry) {
    && !Logged(init, EntryKey(e))
    && 0 <= e.weight && 0 <= e.containers
    && (!e.kind.Reserve? ==>
          && Matched(init, e)
          && !Logged(init, OpKey(e.reservation, Release))
          && !Logged(init, OpKey(e.reservation, Confirm)))
  }

  function Closed(es: seq<Entry>): set<ReservationId> {
    set e | e in es && !e.kind.Reserve? :: e.reservation
  }

  /** What is still held on `v` for reservations outside `closed`. */
  function Open(es: seq<Entry>, closed: set<ReservationId>, v: VesselId, d: Dim): int {
    if es == [] then 0
    else
      var e := es[|es| - 1];
      Open(es[..|es| - 1], closed, v, d)
      + (if e.kind.Reserve? && e.vessel == v && e.reservation !in closed then Size(e, d) else 0)
  }

  lemma {:induction false} CloseAbsent(es: seq<Entry>, closed: set<ReservationId>, r: ReservationId, v: VesselId,
                                       d: Dim)
    requires forall e :: e in es && e.kind.Reserve? ==> e.reservation != r
    ensures Open(es, closed + {r}, v, d) == Open(es, closed, v, d)
  {
    if es != [] {
      CloseAbsent(es[..|es| - 1], closed, r, v, d);
    }
  }

  /** Closing a reservation frees exactly what it held. */
  lemma {:induction false} CloseOne(es: seq<Entry>, closed: set<ReservationId>, e: Entry, v: VesselId, d: Dim)
    requires Orderly(es) && e in es && e.kind.Reserve? && e.reservation !in closed
    ensures Open(es, closed + {e.reservation}, v, d)
            == Open(es, closed, v, d) - (if e.vessel == v then Size(e, d) else 0)
  {
    var init, f := es[..|es| - 1], es[|es| - 1];
    if f == e {
      forall x | x in init && x.kind.Reserve? ensures x.reservation != e.reservation {
        KeyFresh(init, EntryKey(e), x);
      }
      CloseAbsent(init, closed, e.reservation, v, d);
    } else {
      assert e in init;
      KeyFresh(init, EntryKey(f), e);
      CloseOne(init, closed, e, v, d);
    }
  }

  lemma {:induction false} OpenNonNegative(es: seq<Entry>, closed: set<ReservationId>, v: VesselId, d: Dim)
    requires Orderly(es)
    ensures 0 <= Open(es, closed, v, d)
  {
    if es != [] {
      OpenNonNegative(es[..|es| - 1], closed, v, d);
    }
  }

  lemma KeyFresh(es: seq<Entry>, key: OpKey, x: Entry)
    requires !Logged(es, key) && x in es
    ensures EntryKey(x) != key
  {
  }

  /** Whatever may be appended next is for a reservation still open. */
  lemma NextIsOpen(init: seq<Entry>, e: Entry)
    requires Orderly(init) && Allowed(init, e)
    ensures e.reservation !in Closed(init)
  {
    if e.reservation in Closed(init) {
      var t :| t in init && !t.kind.Reserve? && t.reservation == e.reservation;
      if e.kind.Reserve? {
        HasReserve(init, t);
        KeyFresh(init, EntryKey(e), t.(kind := Reserve));
      } else {
        KeyFresh(init, OpKey(e.reservation, Release), t);
        KeyFresh(init, OpKey(e.reservation, Confirm), t);
      }
    }
  }

  lemma ClosedAppend(init: seq<Entry>, e: Entry)
    ensures Closed(init + [e]) == Closed(init) + (if e.kind.Reserve? then {} else {e.reservation})
  {
    forall r | r in Closed(init) ensures r in Closed(init + [e]) {
      var t :| t in init && !t.kind.Reserve? && t.reservation == r;
      assert t in init + [e];
    }
    if !e.kind.Reserve? {
      assert e in init + [e];
    }
  }

  /** In an orderly log, reserves minus releases minus confirms is what is still held. */
  lemma {:induction false} NetIsOpen(es: seq<Entry>, v: VesselId, d: Dim)
    requires Orderly(es)
    ensures Sum(es, Reserve, v, d) - Sum(es, Release, v, d) - Sum(es, Confirm, v, d)
            == Open(es, Closed(es), v, d)
  {
    if es != [] {
      var init, e := es[..|es| - 1], es[|es| - 1];
      assert es == init + [e];
      NetIsOpen(init, v, d);
      ClosedAppend(init, e);
      NextIsOpen(init, e);
      if e.kind.Reserve? {
        assert Closed(es) == Closed(init);
      } else {
        assert Closed(es) == Closed(init) + {e.reservation};
        CloseOne(init, Closed(init), e.(kind := Reserve), v, d);
      }
    }
  }

  lemma {:induction false} HasReserve(es: seq<Entry>, t: Entry)
    requires Orderly(es) && t in es && !t.kind.Reserve?
    ensures Matched(es, t)
  {
    var init, e := es[..|es| - 1], es[|es| - 1];
    if t != e {
      assert t in init;
      HasReserve(init, t);
    }
  }

  lemma {:induction false} SumNonNegative(es: seq<Entry>, k: OpKind, v: VesselId, d: Dim)
    requires Orderly(es)
    ensures 0 <= Sum(es, k, v, d)
  {
    if es != [] {
      SumNonNegative(es[..|es| - 1], k, v, d);
    }
  }

  predicate NonNegative(l: Ledger) {
    forall v, d :: v in l.vessels ==> 0 <= Reserved(l.vessels[v], d) && 0 <= Used(l.vessels[v], d)
  }

  predicate WithinLimits(l: Ledger) {
    forall v, d :: v in l.vessels ==>
      Reserved(l.vessels[v], d) + Used(l.vessels[v], d) <= Limit(l.vessels[v], d)
  }

  /** An orderly log over non-negative starting counters keeps every counter non-negative. */
  lemma OrderlyNonNegative(was: Ledger, now: Ledger, es: seq<Entry>)
    requires Balances(was, now, es) && Orderly(es) && NonNegative(was)
    ensures NonNegative(now)
  {
    forall v, d | v in now.vessels
      ensures 0 <= Reserved(now.vessels[v], d) && 0 <= Used(now.vessels[v], d)
    {
      NetIsOpen(es, v, d);
      OpenNonNegative(es, Closed(es), v, d);
      SumNonNegative(es, Confirm, v, d);
    }
  }

  /** The entries of the other reservations. */
  function Without(es: seq<Entry>, r: ReservationId): seq<Entry> {
    if es == [] then []
    else Without(es[..|es| - 1], r)
         + (if es[|es| - 1].reservation == r then [] else [es[|es| - 1]])
  }

  /** The part of one counter that entries of one reservation and kind add up to. */
  lemma {:induction false} SumSplit(es: seq<Entry>, r: ReservationId, k: OpKind, v: VesselId, d: Dim)
    ensures Sum(es, k, v, d)
            == Sum(Without(es, r), k, v, d) + Sum(Only(es, r, k), k, v, d)
  {
    if es != [] {
      var init, e := es[..|es| - 1], es[|es| - 1];
      SumSplit(init, r, k, v, d);
      SumAppend(Without(init, r), if e.reservation == r then [] else [e], k, v, d);
      SumAppend(Only(init, r, k), if EntryKey(e) == OpKey(r, k) then [e] else [], k, v, d);
      assert [e][..0] == [];
      assert Sum([e], k, v, d) == Sum([e][..0], k, v, d) + (if e.kind == k && e.vessel == v then Size(e, d) else 0);
    }
  }

  function Only(es: seq<Entry>, r: ReservationId, k: OpKind): seq<Entry> {
    if es == [] then []
    else Only(es[..|es| - 1], r, k)
         + (if EntryKey(es[|es| - 1]) == OpKey(r, k) then [es[|es| - 1]] else [])
  }

  lemma {:induction false} OnlyNone(es: seq<Entry>, r: ReservationId, k: OpKind)
    requires !Logged(es, OpKey(r, k))
    ensures Only(es, r, k) == []
  {
    if es != [] {
      assert es[|es| - 1] in es;
      OnlyNone(es[..|es| - 1], r, k);
    }
  }

  lemma {:induction false} OnlyOne(es: seq<Entry>, e: Entry)
    requires Orderly(es) && e in es
    ensures Only(es, e.reservation, e.kind) == [e]
  {
    var init, f := es[..|es| - 1], es[|es| - 1];
    if f == e {
      OnlyNone(init, e.reservation, e.kind);
    } else {
      assert e in init;
      KeyFresh(init, EntryKey(f), e);
      OnlyOne(init, e);
    }
  }

  lemma SumOne(e: Entry, v: VesselId, d: Dim)
    ensures Sum([e], e.kind, v, d) == if e.vessel == v then Size(e, d) else 0
  {
    assert [e][..0] == [];
    assert Sum([e][..0], e.kind, v, d) == 0;
  }

  /** A reservation that was reserved and released contributes nothing to any counter: the
      counters are those of the log from which its entries are deleted. */
  lemma ReleasedIsNeutral(was: Ledger, now: Ledger, es: seq<Entry>, e: Entry)
    requires Balances(was, now, es) && Orderly(es)
    requires e.kind.Release? && e in es
    ensures Balances(was, now, Without(es, e.reservation))
  {
    var r := e.reservation;
    HasReserve(es, e);
    var f := e.(kind := Reserve);
    OnlyOne(es, e);
    OnlyOne(es, f);
    NoConfirmWithRelease(es, e);
    OnlyNone(es, r, Confirm);
    forall v, d | v in was.vessels
      ensures Sum(es, Reserve, v, d) - Sum(es, Release, v, d)
              == Sum(Without(es, r), Reserve, v, d) - Sum(Without(es, r), Release, v, d)
      ensures Sum(es, Confirm, v, d) == Sum(Without(es, r), Confirm, v, d)
    {
      SumSplit(es, r, Reserve, v, d);
      SumSplit(es, r, Release, v, d);
      SumSplit(es, r, Confirm, v, d);
      SumOne(e, v, d);
      SumOne(f, v, d);
    }
  }

  lemma {:induction false} NoConfirmWithRelease(es: seq<Entry>, e: Entry)
    requires Orderly(es) && e in es && e.kind.Release?
    ensures !Logged(es, OpKey(e.reservation, Confirm))
  {
    var init, f := es[..|es| - 1], es[|es| - 1];
    if f == e {
      assert !Logged(init, OpKey(e.reservation, Confirm));
      forall x | x in es ensures EntryKey(x) != OpKey(e.reservation, Confirm) {
        assert x == f || x in init;
      }
    } else {
      assert e in init;
      NoConfirmWithRelease(init, e);
      if EntryKey(f) == OpKey(e.reservation, Confirm) {
        KeyFresh(init, OpKey(f.reservation, Release), e);
      }
      forall x | x in es ensures EntryKey(x) != OpKey(e.reservation, Confirm) {
        assert x == f || x in init;
      }
    }
  }
}
