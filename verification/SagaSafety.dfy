/** The reservation service's handler runs and its failure announcements keep the saga invariant. */
module SagaSafety {
  import opened Types
  import opened Events
  import L = VesselLedger
  import O = Outbox
  import M = CapacityManager
  import opened SagaSystem
  import opened SagaHandlers
  import opened SagaInvariant
  import opened SagaFrames

  // ---------- a run of processCapacityEvent ----------

  /** A run on `e` that ended in `o`, seen from outside. */
  ghost predicate RsRan(w: World, x: World, e: CapacityEvent, o: Outcome) {
    && CapacityOk(w, e) && (e.action.ConfirmAction? ==> Committed(w, e.consignment)) && EndsIn(w.rs, x.rs, e, o)
    && x.cs == w.cs && x.granted == w.granted && x.asked == w.asked && x.seen == w.seen
    && w.csDone <= x.csDone && w.rsDone <= x.rsDone
    && (forall i: nat :: i in x.csDone && i !in w.csDone ==> i < |w.cs.outbox|)
    && (forall i: nat :: i in x.rsDone && i !in w.rsDone ==>
          i < |w.rs.outbox| && w.rs.outbox[i].topic != CapacityFailedTopic)
  }

  lemma RanGrows(w: World, x: World, e: CapacityEvent, o: Outcome)
    requires RsRan(w, x, e, o)
    ensures Grows(w, x) && CsStill(w, x)
  {
    forall k | k in w.rs.ledger.ops ensures k in x.rs.ledger.ops {
      assert k in w.rs.ledger.ops.Keys;
    }
  }

  lemma RanRecords(w: World, x: World, e: CapacityEvent, o: Outcome)
    requires RsRan(w, x, e, o) && RecordsOk(w)
    ensures RecordsOk(x)
  {
    forall k | k in x.rs.ledger.ops ensures k in w.rs.ledger.ops || k.reservation in w.granted {
      assert k in w.rs.ledger.ops.Keys + {L.CallKey(M.CallOf(e))};
    }
    RecordsKeep(w, x);
  }

  lemma RanRows(w: World, x: World, e: CapacityEvent, o: Outcome)
    requires RsRan(w, x, e, o) && RowsOk(w)
    ensures RowsOk(x)
  {
    RanGrows(w, x, e, o);
    Stays(w, x);
    RowsKeep(w, x);
  }

  /** Whatever operation the run applied, it is the event's own. */
  lemma RanApplies(w: World, x: World, e: CapacityEvent, o: Outcome, r: ReservationId)
    requires RsRan(w, x, e, o)
    ensures IsConfirmed(x, r) <==>
            IsConfirmed(w, r) || (o.Applied? && e.action.ConfirmAction? && r == e.info.id)
    ensures IsReleased(x, r) <==>
            IsReleased(w, r) || (o.Applied? && e.action.ReleaseAction? && r == e.info.id)
  {
    assert IsConfirmed(x, r) <==> L.OpKey(r, L.Confirm) in x.rs.ledger.ops.Keys;
    assert IsReleased(x, r) <==> L.OpKey(r, L.Release) in x.rs.ledger.ops.Keys;
  }

  lemma RanTraces(w: World, x: World, e: CapacityEvent, o: Outcome)
    requires RsRan(w, x, e, o) && TracesOk(w)
    ensures TracesOk(x)
  {
    RanGrows(w, x, e, o);
    Stays(w, x);
    forall c, r | Owns(x, c, r) && IsConfirmed(x, r) ensures Committed(x, c) {
      RanApplies(w, x, e, o, r);
    }
  }

  // ---------- releases ----------

  /** A release, which no saga's place moves. */
  lemma ReleaseRan(f: Faults, w: World, x: World, e: CapacityEvent, o: Outcome)
    requires Inv(f, w) && RsRan(w, x, e, o) && e.action.ReleaseAction?
    requires e.cacheCleared ==> Undone(w, e.info.id)
    ensures Kept(f, w, x)
  {
    RanRecords(w, x, e, o);
    RanRows(w, x, e, o);
    RanTraces(w, x, e, o);
    RanGrows(w, x, e, o);
    CsSideKeeps(f, w, x);
    if ConfirmsOnce(f) {
      ReleasePlaces(w, x, e, o);
      LateKeep(f, w, x);
      ReleaseGates(w, x, e, o);
      StillConfirms(w, x);
    }
  }

  lemma ReleasePlaces(w: World, x: World, e: CapacityEvent, o: Outcome)
    requires RsRan(w, x, e, o) && e.action.ReleaseAction?
    ensures LateWithin(w, x) && NoConfirms(w, x)
  {
    forall r | IsConfirmed(x, r) ensures IsConfirmed(w, r) {
      RanApplies(w, x, e, o, r);
    }
    forall c, p | LateAt(x, c, p) ensures LateAt(w, c, p) {
    }
  }

  lemma ReleaseGates(w: World, x: World, e: CapacityEvent, o: Outcome)
    requires GatesOk(w) && RsRan(w, x, e, o) && e.action.ReleaseAction?
    requires e.cacheCleared ==> Undone(w, e.info.id)
    ensures GatesOk(x)
  {
    forall r ensures GateOk(x, r) {
      assert GateOk(w, r);
      if i: nat :| HeldRow(x, i, r) {
        assert HeldRow(w, i, r);
      }
      if i: nat :| UndoRow(x, i, r) {
        assert UndoRow(w, i, r) || (r == e.info.id && i == |w.rs.outbox|);
      }
    }
  }

  lemma ReleaseKeeps(f: Faults, w: World, e: CapacityEvent, env: M.Env)
    requires Inv(f, w) && RsEnv(env) && CapacityOk(w, e) && e.action.ReleaseAction?
    requires e.cacheCleared ==> Undone(w, e.info.id)
    ensures Kept(f, w, w.(rs := M.Process(w.rs, e, env)))
  {
    ProcessIs(w.rs, e, env);
    ReleaseRan(f, w, w.(rs := M.Process(w.rs, e, env)), e, OutcomeOf(w.rs, e, env));
  }

  lemma ReleaseRowKeeps(f: Faults, w: World, i: nat, env: M.Env)
    requires Inv(f, w) && RsEnv(env)
    requires i < |w.rs.outbox| && w.rs.outbox[i].payload.Capacity? && w.rs.outbox[i].topic == ReleaseCapacityTopic
    ensures Kept(f, w, w.(rs := M.Process(w.rs, w.rs.outbox[i].payload.capacity, env)))
  {
    var e := w.rs.outbox[i].payload.capacity;
    assert RsRowOk(w, w.rs.outbox[i]);
    assert e.cacheCleared ==> UndoRow(w, i, e.info.id);
    ReleaseKeeps(f, w, e, env);
  }

  lemma ExpiredRowKeeps(f: Faults, w: World, i: nat, env: M.Env)
    requires Inv(f, w) && RsEnv(env) && i < |w.rs.outbox| && w.rs.outbox[i].payload.Expired?
    ensures Kept(f, w, w.(rs := M.Process(w.rs, M.EventOfExpired(w.rs.outbox[i].payload.expired), env)))
  {
    assert RsRowOk(w, w.rs.outbox[i]);
    ReleaseKeeps(f, w, M.EventOfExpired(w.rs.outbox[i].payload.expired), env);
  }

  // ---------- confirms ----------

  /** The row a confirm came from: a captured row, or a confirm row. */
  predicate ConfirmFrom(w: World, c: ConsignmentId, from: Place, e: CapacityEvent) {
    match from
    case Server => false
    case CsRow(i) => CapturedAt(w, i, c) && e == M.EventOfCaptured(w.cs.outbox[i].payload.captured)
    case RsRow(i) =>
      ConfirmAt(w, i, c) && w.rs.outbox[i].topic == ConfirmCapacityTopic && e == w.rs.outbox[i].payload.capacity
  }

  predicate Handled(x: World, from: Place) {
    match from
    case Server => false
    case CsRow(i) => i in x.csDone
    case RsRow(i) => i in x.rsDone
  }

  /** A confirm, which moves its saga's place to the row it adds. */
  lemma ConfirmRan(f: Faults, w: World, x: World, e: CapacityEvent, o: Outcome, from: Place)
    requires Inv(f, w) && RsRan(w, x, e, o) && e.action.ConfirmAction?
    requires ConfirmFrom(w, e.consignment, from, e) && (!o.Nothing? ==> Handled(x, from))
    requires ConfirmsOnce(f) ==> !Handled(w, from)
    ensures Kept(f, w, x)
  {
    RanRecords(w, x, e, o);
    RanRows(w, x, e, o);
    RanTraces(w, x, e, o);
    RanGrows(w, x, e, o);
    CsSideKeeps(f, w, x);
    if ConfirmsOnce(f) {
      ConfirmPlaces(f, w, x, e, o, from);
      ConfirmGates(f, w, x, e, o, from);
      ConfirmConfirms(w, x, e, o, from);
    }
  }

  lemma ConfirmPlaces(f: Faults, w: World, x: World, e: CapacityEvent, o: Outcome, from: Place)
    requires LateOk(f, w) && RsRan(w, x, e, o) && e.action.ConfirmAction?
    requires ConfirmFrom(w, e.consignment, from, e) && !Handled(w, from) && (!o.Nothing? ==> Handled(x, from))
    ensures LateOk(f, x) && Continues(w, x) && LateBut(w, x, e.consignment, RsRow(|w.rs.outbox|))
    ensures !o.Nothing? ==> forall p :: LateAt(x, e.consignment, p) ==> p == RsRow(|w.rs.outbox|)
  {
    RanGrows(w, x, e, o);
    assert LateAt(w, e.consignment, from);
    forall c, p | LateAt(x, c, p)
      ensures LateAt(w, c, p) || (!o.Nothing? && c == e.consignment && p == RsRow(|w.rs.outbox|))
    {
    }
    if o.Nothing? {
      LateKeep(f, w, x);
    } else {
      LateMoves(f, w, x, e.consignment, from, RsRow(|w.rs.outbox|));
    }
  }

  /** A held row is its saga's place. */
  lemma HeldIsPlace(w: World, i: nat, c: ConsignmentId, r: ReservationId)
    requires RowsOk(w) && HeldRow(w, i, r) && Owns(w, c, r)
    ensures LateAt(w, c, RsRow(i)) && !FailedRow(w, c, RsRow(i))
  {
    assert RsRowOk(w, w.rs.outbox[i]);
  }

  lemma ConfirmGates(f: Faults, w: World, x: World, e: CapacityEvent, o: Outcome, from: Place)
    requires RowsOk(w) && LateOk(f, w) && GatesOk(w) && RsRan(w, x, e, o) && e.action.ConfirmAction?
    requires ConfirmFrom(w, e.consignment, from, e) && !Handled(w, from) && (!o.Nothing? ==> Handled(x, from))
    ensures GatesOk(x)
  {
    assert LateAt(w, e.consignment, from);
    if e.cacheCleared {
      assert HeldRow(w, from.i, e.info.id);
    }
    forall i: nat | !o.Nothing? && i < |w.rs.outbox| ensures !HeldRow(x, i, e.info.id) {
      if HeldRow(w, i, e.info.id) {
        HeldIsPlace(w, i, e.consignment, e.info.id);
        assert OneOrFailed(f, w, e.consignment, RsRow(i), from);
      }
    }
    forall r ensures GateOk(x, r) {
      assert GateOk(w, r) && GateOk(w, e.info.id);
      ConfirmGate(w, x, e, o, r);
    }
  }

  lemma ConfirmGate(w: World, x: World, e: CapacityEvent, o: Outcome, r: ReservationId)
    requires GateOk(w, r) && GateOk(w, e.info.id) && RsRan(w, x, e, o) && e.action.ConfirmAction?
    requires e.cacheCleared ==> Held(w, e.info.id)
    requires !o.Nothing? ==> forall i: nat :: i < |w.rs.outbox| ==> !HeldRow(x, i, e.info.id)
    ensures GateOk(x, r)
  {
    var n := |w.rs.outbox|;
    if i: nat :| HeldRow(x, i, r) {
      assert HeldRow(w, i, r) || (i == n && r == e.info.id);
    }
    if i: nat :| UndoRow(x, i, r) {
      assert UndoRow(w, i, r) || (i == n && r == e.info.id);
    }
  }

  lemma ConfirmConfirms(w: World, x: World, e: CapacityEvent, o: Outcome, from: Place)
    requires ConfirmsOk(w) && RecordsOk(w) && RsRan(w, x, e, o) && e.action.ConfirmAction?
    requires ConfirmFrom(w, e.consignment, from, e) && !Handled(w, from)
    requires LateBut(w, x, e.consignment, RsRow(|w.rs.outbox|))
    requires !o.Nothing? ==> forall p :: LateAt(x, e.consignment, p) ==> p == RsRow(|w.rs.outbox|)
    ensures ConfirmsOk(x)
  {
    var n := |w.rs.outbox|;
    assert LateAt(w, e.consignment, from) && !IsVerdict(w, from);
    assert Owns(w, e.consignment, e.info.id) && !IsConfirmed(w, e.info.id);
    forall c, r, p | Owns(x, c, r) && IsConfirmed(x, r) && LateAt(x, c, p) ensures IsVerdict(x, p) {
      RanApplies(w, x, e, o, r);
      if c != e.consignment || o.Nothing? {
        assert LateAt(w, c, p) && IsConfirmed(w, r);
        assert IsVerdict(w, p);
      } else {
        assert r == e.info.id;
        assert p == RsRow(n) && o.Applied?;
      }
    }
  }

  lemma CapturedKeeps(f: Faults, w: World, i: nat, env: M.Env)
    requires Inv(f, w) && RsEnv(env) && i < |w.cs.outbox| && w.cs.outbox[i].payload.Captured?
    requires i !in w.csDone || f.replayCaptured
    ensures Kept(f, w, DoCaptured(w, i, env))
  {
    var e := M.EventOfCaptured(w.cs.outbox[i].payload.captured);
    assert CsRowOk(w, w.cs.outbox[i]);
    ProcessIs(w.rs, e, env);
    assert CapturedAt(w, i, e.consignment);
    ConfirmRan(f, w, DoCaptured(w, i, env), e, OutcomeOf(w.rs, e, env), CsRow(i));
  }

  lemma ConfirmKeeps(f: Faults, w: World, i: nat, env: M.Env)
    requires Inv(f, w) && RsEnv(env)
    requires i < |w.rs.outbox| && w.rs.outbox[i].payload.Capacity? && w.rs.outbox[i].topic == ConfirmCapacityTopic
    requires i !in w.rsDone || f.replayConfirm
    ensures Kept(f, w, DoConfirm(w, i, env))
  {
    var e := w.rs.outbox[i].payload.capacity;
    assert RsRowOk(w, w.rs.outbox[i]);
    ProcessIs(w.rs, e, env);
    assert ConfirmAt(w, i, e.consignment);
    ConfirmRan(f, w, DoConfirm(w, i, env), e, OutcomeOf(w.rs, e, env), RsRow(i));
  }

  // ---------- dead letters ----------

  /** The dead letter of a confirm is announced as failed, or was already. */
  ghost predicate Announces(w: World, x: World, i: nat, e: CapacityEvent) {
    && DeadAt(w, i, e.consignment) && w.rs.outbox[i].payload == Capacity(e)
    && x == w.(rs := w.rs.(outbox := O.Add(w.rs.outbox, true, M.FailedRow(e))), rsDone := w.rsDone + {i})
  }

  lemma AnnounceGrows(w: World, x: World, i: nat, e: CapacityEvent)
    requires Announces(w, x, i, e)
    ensures Grows(w, x) && CsStill(w, x) && NoConfirms(w, x)
    ensures LateBut(w, x, e.consignment, RsRow(|w.rs.outbox|))
    ensures LateAt(x, e.consignment, RsRow(|w.rs.outbox|)) ==> FailedRow(x, e.consignment, RsRow(|w.rs.outbox|))
  {
  }

  /** A swallowed announcement was made before. */
  lemma AnnounceFails(w: World, x: World, i: nat, e: CapacityEvent)
    requires RowsOk(w) && Announces(w, x, i, e)
    ensures RsFailed(x, e.consignment)
  {
    if x.rs.outbox == w.rs.outbox {
      var row := M.FailedRow(e);
      var j :| 0 <= j < |w.rs.outbox| && w.rs.outbox[j].topic == row.topic && w.rs.outbox[j].key == row.key;
      assert RsRowOk(w, w.rs.outbox[j]);
      assert RsFailedAt(x, j, e.consignment);
    } else {
      assert RsFailedAt(x, |w.rs.outbox|, e.consignment);
    }
  }

  lemma AnnounceNewRow(w: World, x: World, i: nat, e: CapacityEvent)
    requires RowsOk(w) && Announces(w, x, i, e)
    ensures NewRowsOk(w, x)
  {
    AnnounceGrows(w, x, i, e);
    Stays(w, x);
    assert RsRowOk(w, w.rs.outbox[i]);
  }

  lemma AnnounceRows(w: World, x: World, i: nat, e: CapacityEvent)
    requires RowsOk(w) && Announces(w, x, i, e)
    ensures RowsOk(x)
  {
    AnnounceFails(w, x, i, e);
    AnnounceNewRow(w, x, i, e);
    AnnounceGrows(w, x, i, e);
    RowsKeep(w, x);
  }

  lemma AnnouncePlaces(f: Faults, w: World, x: World, i: nat, e: CapacityEvent)
    requires RowsOk(w) && LateOk(f, w) && Announces(w, x, i, e) && (i !in w.rsDone || f.replayDead)
    ensures LateOk(f, x) && Continues(w, x)
  {
    AnnounceGrows(w, x, i, e);
    if i in w.rsDone {
      LateRepeats(f, w, x, e.consignment, RsRow(|w.rs.outbox|));
    } else {
      LateMoves(f, w, x, e.consignment, RsRow(i), RsRow(|w.rs.outbox|));
    }
  }

  /** Before and after it is handled, a dead letter stands for a saga that was not confirmed. */
  lemma DeadIsPlace(w: World, i: nat, c: ConsignmentId) returns (p: Place)
    requires RowsOk(w) && DeadAt(w, i, c)
    ensures LateAt(w, c, p) && !IsVerdict(w, p)
  {
    if i in w.rsDone {
      assert RsFailed(w, c);
      var j: nat :| RsFailedAt(w, j, c);
      p := RsRow(j);
    } else {
      p := RsRow(i);
    }
  }

  lemma AnnounceConfirms(w: World, x: World, i: nat, e: CapacityEvent)
    requires RowsOk(w) && ConfirmsOk(w) && Announces(w, x, i, e)
    ensures ConfirmsOk(x)
  {
    AnnounceGrows(w, x, i, e);
    var p := DeadIsPlace(w, i, e.consignment);
    ConfirmsKeep(w, x, e.consignment, RsRow(|w.rs.outbox|));
  }

  lemma AnnounceGates(w: World, x: World, i: nat, e: CapacityEvent)
    requires GatesOk(w) && Announces(w, x, i, e)
    ensures GatesOk(x)
  {
    AnnounceGrows(w, x, i, e);
    SameGateRows(w, x);
    GatesKeep(w, x);
  }

  lemma AnnounceRecords(w: World, x: World, i: nat, e: CapacityEvent)
    requires RecordsOk(w) && Announces(w, x, i, e)
    ensures RecordsOk(x)
  {
    RecordsKeep(w, x);
  }

  lemma AnnounceRsSide(f: Faults, w: World, x: World, i: nat, e: CapacityEvent)
    requires RowsOk(w) && RsSideOk(f, w) && Announces(w, x, i, e) && (i !in w.rsDone || f.replayDead)
    ensures RsSideOk(f, x) && (ConfirmsOnce(f) ==> Continues(w, x))
  {
    AnnounceGrows(w, x, i, e);
    TracesKeep(w, x);
    if ConfirmsOnce(f) {
      AnnouncePlaces(f, w, x, i, e);
      AnnounceConfirms(w, x, i, e);
      AnnounceGates(w, x, i, e);
    }
  }

  lemma AnnounceKeeps(f: Faults, w: World, x: World, i: nat, e: CapacityEvent)
    requires Inv(f, w) && Announces(w, x, i, e) && (i !in w.rsDone || f.replayDead)
    ensures Kept(f, w, x)
  {
    AnnounceRecords(w, x, i, e);
    AnnounceRows(w, x, i, e);
    AnnounceRsSide(f, w, x, i, e);
    assert CsStill(w, x) by { AnnounceGrows(w, x, i, e); }
    CsSideKeeps(f, w, x);
  }

  /** A dead release is only reported. */
  lemma DoneIsStill(w: World, x: World, i: nat, e: CapacityEvent)
    requires RowsOk(w) && i < |w.rs.outbox| && w.rs.outbox[i].payload == Capacity(e) && e.action.ReleaseAction?
    requires x == w.(rsDone := w.rsDone + {i})
    ensures RowsOk(x) && CsStill(w, x) && RsStill(w, x)
  {
    assert Grows(w, x);
    RowsKeep(w, x);
  }

  lemma DoneKeeps(f: Faults, w: World, x: World, i: nat, e: CapacityEvent)
    requires Inv(f, w) && i < |w.rs.outbox| && w.rs.outbox[i].payload == Capacity(e) && e.action.ReleaseAction?
    requires x == w.(rsDone := w.rsDone + {i})
    ensures Kept(f, w, x)
  {
    RecordsKeep(w, x);
    DoneIsStill(w, x, i, e);
    CsSideKeeps(f, w, x);
    RsSideKeeps(f, w, x);
  }

  lemma DeadKeeps(f: Faults, w: World, i: nat, env: M.Env, announceFails: bool)
    requires Inv(f, w) && RsEnv(env)
    requires i < |w.rs.outbox| && w.rs.outbox[i].payload.Capacity? && w.rs.outbox[i].topic == CapacityFailedTopic
    requires i !in w.rsDone || f.replayDead
    ensures Kept(f, w, DoDead(w, i, env, announceFails))
  {
    var e := w.rs.outbox[i].payload.capacity;
    var x := DoDead(w, i, env, announceFails);
    assert RsRowOk(w, w.rs.outbox[i]);
    if e.action.ReleaseAction? {
      DoneKeeps(f, w, x, i, e);
    } else {
      var y := w.(rs := M.Process(w.rs, M.Reversal(e), env));
      if e.cacheCleared {
        assert UndoRow(w, i, e.info.id);
      }
      ReleaseKeeps(f, w, M.Reversal(e), env);
      if !announceFails {
        ProcessIs(w.rs, M.Reversal(e), env);
        assert y.rs.outbox[i] == w.rs.outbox[i];
        AnnounceKeeps(f, y, x, i, e);
      }
    }
  }
}
