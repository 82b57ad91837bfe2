/** How a committed saga comes to an end without a verdict: exactly which step ends it, and a run
    for each of the three ways. */
module SagaEndings {
  import opened Types
  import opened Events
  import L = VesselLedger
  import C = ReservationCache
  import O = Outbox
  import M = CapacityManager
  import N = Consignments
  import opened SagaSystem
  import opened SagaInvariant
  import opened SagaFrames
  import opened SagaRuns
  import opened SagaStranded
  import F = SagaFaults
  import R = SagaReplays

  // ---------- which step ends a saga ----------

  /** A confirm run whose message is done with and has no successor: it was a duplicate, or its
      call was answered and the verdict could not be written, or its retry is taken for one that
      is pending under the same topic and key. */
  ghost predicate GivesUp(s: M.Rs, e: CapacityEvent, env: M.Env) {
    || M.LosesGate(s, e, env)
    || (M.Settles(s, e, env) && env.writeFails)
    || (!M.LosesGate(s, e, env) && !M.Settles(s, e, env) && !env.writeFails
        && O.PendingSame(s.outbox, M.RetryTopic(M.NextTry(e)), Retry(e.info.id, e.retryCount + 1)))
  }

  ghost predicate LeavesRetry(s: M.Rs, t: M.Rs, c: ConsignmentId) {
    exists e: CapacityEvent ::
      e.action.ConfirmAction? && e.consignment == c && t.outbox == s.outbox + [M.RetryRow(e)]
  }

  lemma RunEnds(s: M.Rs, e: CapacityEvent, env: M.Env)
    requires e.action.ConfirmAction?
    ensures var t := M.Process(s, e, env);
            && (GivesUp(s, e, env) ==> M.Completes(s, e, env) && t.outbox == s.outbox)
            && (M.Completes(s, e, env) && !GivesUp(s, e, env) ==>
                  || O.PendingSame(t.outbox, ReservationConfirmedTopic, Id(e.consignment))
                  || LeavesRetry(s, t, e.consignment))
  {
    M.CallsExactly(s.ledger, M.CallOf(e), env.calls);
    M.RowsLeft(s, e, env);
    var t := M.Process(s, e, env);
    if M.Completes(s, e, env) && !GivesUp(s, e, env) && !M.Settles(s, e, env) {
      var e1 := if M.PassesGate(s, e, env) then e.(cacheCleared := true) else e;
      assert t.outbox == O.Add(s.outbox, true, M.RetryRow(e1));
      assert e1.consignment == e.consignment && t.outbox == s.outbox + [M.RetryRow(e1)];
    }
  }

  lemma ProcessGrows(s: M.Rs, e: CapacityEvent, env: M.Env)
    ensures RowsGrow(s.outbox, M.Process(s, e, env).outbox)
  {
    M.RowsLeft(s, e, env);
  }

  lemma AuthorisedGrows(s: N.Cs, e: PaymentAuthorisedEvent, env: N.Env)
    ensures RowsGrow(s.outbox, N.OnAuthorised(s, e, env).outbox)
  {
  }

  /** Steps of the server, the cache and the cleanup passes up to their inserts. */
  predicate Early(l: Label) {
    || l.AddVessel? || l.GrantReservation? || l.CreateRecord? || l.AuthorisePayment? || l.PaymentRefused?
    || l.AnnounceFails? || l.ServerCancels? || l.ServerVoids?
    || l.Refresh? || l.ExpireId? || l.ExpireData? || l.PassReads?
  }

  /** Such a step touches neither the rows nor what is done with them. */
  lemma EarlyIsQuiet(f: Faults, w: World, l: Label)
    requires Enabled(f, w, l) && Early(l)
    ensures var x := Apply(f, w, l);
            x.cs.outbox == w.cs.outbox && x.rs.outbox == w.rs.outbox && x.csDone == w.csDone && x.rsDone == w.rsDone
  {
  }

  /** No step removes or changes a row but for its mark. */
  lemma CsGrows(f: Faults, w: World, l: Label)
    requires Enabled(f, w, l)
    ensures RowsGrow(w.cs.outbox, Apply(f, w, l).cs.outbox)
  {
    if Early(l) {
      EarlyIsQuiet(f, w, l);
    } else if l.HandleAuthorised? {
      AuthorisedGrows(w.cs, w.cs.outbox[l.row].payload.authorised, l.csEnv);
    } else if l.AnnounceAuthorised? || l.MarkCs? {
    } else {
      assert Apply(f, w, l).cs.outbox == w.cs.outbox;
    }
  }

  lemma RsGrows(f: Faults, w: World, l: Label)
    requires Enabled(f, w, l)
    ensures RowsGrow(w.rs.outbox, Apply(f, w, l).rs.outbox)
  {
    if Early(l) {
      EarlyIsQuiet(f, w, l);
    } else if l.HandleCaptured? {
      ProcessGrows(w.rs, M.EventOfCaptured(w.cs.outbox[l.row].payload.captured), l.env);
    } else if l.HandleConfirm? || l.HandleRelease? {
      ProcessGrows(w.rs, w.rs.outbox[l.row].payload.capacity, l.env);
    } else if l.HandleExpiredRs? {
      ProcessGrows(w.rs, M.EventOfExpired(w.rs.outbox[l.row].payload.expired), l.env);
    } else if l.HandleDead? {
      ProcessGrows(w.rs, M.Reversal(w.rs.outbox[l.row].payload.capacity), l.env);
    } else if l.PassWrites? || l.MarkRs? {
    } else {
      assert Apply(f, w, l).rs == w.rs;
    }
  }

  /** Only its own handler is done with a row. */
  lemma StepDone(f: Faults, w: World, l: Label)
    requires Enabled(f, w, l)
    ensures var x := Apply(f, w, l);
            && (x.csDone == w.csDone
                || ((l.HandleAuthorised? || l.HandleCaptured?) && x.csDone == w.csDone + {l.row}))
            && (x.rsDone == w.rsDone
                || ((l.HandleConfirm? || l.HandleDead?) && x.rsDone == w.rsDone + {l.row}))
  {
    if Early(l) {
      EarlyIsQuiet(f, w, l);
    }
  }

  ghost predicate EndsBy(w: World, c: ConsignmentId, l: Label) {
    || (l.HandleCaptured? && CapturedAt(w, l.row, c) && l.row !in w.csDone
        && GivesUp(w.rs, M.EventOfCaptured(w.cs.outbox[l.row].payload.captured), l.env))
    || (l.HandleConfirm? && ConfirmAt(w, l.row, c) && l.row !in w.rsDone
        && GivesUp(w.rs, w.rs.outbox[l.row].payload.capacity, l.env))
  }

  /** A pending verdict row under a consignment's key is its verdict. */
  lemma PendingVerdict(w: World, c: ConsignmentId, topic: Topic)
    requires RowsOk(w) && O.PendingSame(w.rs.outbox, topic, Id(c))
    requires topic == ReservationConfirmedTopic || topic == ConfirmationFailedTopic
    ensures !Ended(w, c)
  {
    var i: nat :| i < |w.rs.outbox| && !w.rs.outbox[i].published
                  && w.rs.outbox[i].topic == topic && w.rs.outbox[i].key == Id(c);
    assert RsRowOk(w, w.rs.outbox[i]);
    assert LateAt(w, c, RsRow(i));
  }

  /** A run that goes on leaves its saga in some place. */
  lemma RunGoesOn(w: World, x: World, e: CapacityEvent, env: M.Env)
    requires e.action.ConfirmAction? && M.Completes(w.rs, e, env) && !GivesUp(w.rs, e, env)
    requires RowsOk(x) && x.rs == M.Process(w.rs, e, env)
    requires forall i: nat :: i in x.rsDone ==> i < |w.rs.outbox|
    ensures !Ended(x, e.consignment)
  {
    RunEnds(w.rs, e, env);
    if O.PendingSame(x.rs.outbox, ReservationConfirmedTopic, Id(e.consignment)) {
      PendingVerdict(x, e.consignment, ReservationConfirmedTopic);
    } else {
      assert ConfirmAt(x, |w.rs.outbox|, e.consignment);
      assert LateAt(x, e.consignment, RsRow(|w.rs.outbox|));
    }
  }

  lemma CommittedBefore(f: Faults, w: World, l: Label, c: ConsignmentId)
    requires RowsOk(w) && Enabled(f, w, l) && Ended(Apply(f, w, l), c)
    ensures Committed(w, c)
  {
    CsGrows(f, w, l);
    RsGrows(f, w, l);
    StepDone(f, w, l);
    var x := Apply(f, w, l);
    var i: nat :| CapturedAt(x, i, c);
    assert !LateAt(x, c, CsRow(i));
    assert CapturedAt(w, i, c);
  }

  /** The place the saga was in is one that this step is done with. */
  lemma EndsAtCsRow(f: Faults, w: World, l: Label, c: ConsignmentId, i: nat)
    requires RowsOk(w) && Enabled(f, w, l) && Ended(Apply(f, w, l), c) && LateAt(w, c, CsRow(i))
    ensures CapturedAt(w, i, c) && l.HandleCaptured? && l.row == i && i in Apply(f, w, l).csDone
  {
    CsGrows(f, w, l);
    StepDone(f, w, l);
    var x := Apply(f, w, l);
    assert CapturedAt(x, i, c) && !LateAt(x, c, CsRow(i));
    assert i in x.csDone;
  }

  lemma EndsAtRsRow(f: Faults, w: World, l: Label, c: ConsignmentId, i: nat)
    requires RowsOk(w) && Enabled(f, w, l) && Ended(Apply(f, w, l), c) && LateAt(w, c, RsRow(i))
    ensures ConfirmAt(w, i, c) && (l.HandleConfirm? || l.HandleDead?) && l.row == i && i in Apply(f, w, l).rsDone
  {
    RsGrows(f, w, l);
    StepDone(f, w, l);
    assert !LateAt(Apply(f, w, l), c, RsRow(i));
  }

  /** A dead letter that is done with has its failure announced. */
  lemma DeadGoesOn(w: World, row: nat, env: M.Env, announceFails: bool, c: ConsignmentId)
    requires ConfirmAt(w, row, c) && row !in w.rsDone && row in DoDead(w, row, env, announceFails).rsDone
    requires RowsOk(DoDead(w, row, env, announceFails))
    ensures !Ended(DoDead(w, row, env, announceFails), c)
  {
    var e := w.rs.outbox[row].payload.capacity;
    M.AddedIsPending(M.Process(w.rs, M.Reversal(e), env).outbox, M.FailedRow(e));
    PendingVerdict(DoDead(w, row, env, announceFails), c, ConfirmationFailedTopic);
  }

  lemma CapturedGoesOn(w: World, row: nat, env: M.Env, c: ConsignmentId)
    requires CapturedAt(w, row, c) && row !in w.csDone && row in DoCaptured(w, row, env).csDone
    requires RowsOk(w) && RowsOk(DoCaptured(w, row, env)) && Ended(DoCaptured(w, row, env), c)
    ensures GivesUp(w.rs, M.EventOfCaptured(w.cs.outbox[row].payload.captured), env)
  {
    var e := M.EventOfCaptured(w.cs.outbox[row].payload.captured);
    if !GivesUp(w.rs, e, env) {
      RunGoesOn(w, DoCaptured(w, row, env), e, env);
    }
  }

  lemma ConfirmGoesOn(w: World, row: nat, env: M.Env, c: ConsignmentId)
    requires ConfirmAt(w, row, c) && row !in w.rsDone && row in DoConfirm(w, row, env).rsDone
    requires RowsOk(w) && RowsOk(DoConfirm(w, row, env)) && Ended(DoConfirm(w, row, env), c)
    ensures GivesUp(w.rs, w.rs.outbox[row].payload.capacity, env)
  {
    var e := w.rs.outbox[row].payload.capacity;
    if !GivesUp(w.rs, e, env) {
      RunGoesOn(w, DoConfirm(w, row, env), e, env);
    }
  }

  lemma EndsOnlySo(f: Faults, w: World, l: Label, c: ConsignmentId, p: Place)
    requires RowsOk(w) && Enabled(f, w, l) && RowsOk(Apply(f, w, l)) && Ended(Apply(f, w, l), c) && LateAt(w, c, p)
    ensures EndsBy(w, c, l)
  {
    if p.CsRow? {
      EndsAtCsRow(f, w, l, c, p.i);
      CapturedGoesOn(w, p.i, l.env, c);
    } else {
      EndsAtRsRow(f, w, l, c, p.i);
      if l.HandleDead? {
        DeadGoesOn(w, p.i, l.env, l.announceFails, c);
      } else {
        ConfirmGoesOn(w, p.i, l.env, c);
      }
    }
  }

  /** It was the saga's only place, and no row was added. */
  lemma NoPlaceLeft(f: Faults, w: World, x: World, c: ConsignmentId, p: Place)
    requires LateOk(f, w) && LateAt(w, c, p) && !LateAt(x, c, p) && !FailedRow(w, c, p)
    requires x.rs.outbox == w.rs.outbox && x.cs.outbox == w.cs.outbox && w.csDone <= x.csDone && w.rsDone <= x.rsDone
    ensures forall q :: !LateAt(x, c, q)
  {
    forall q ensures !LateAt(x, c, q) {
      assert LateAt(w, c, q) ==> OneOrFailed(f, w, c, p, q);
    }
  }

  lemma SameCommitted(w: World, x: World, c: ConsignmentId)
    requires Committed(w, c) && x.cs.outbox == w.cs.outbox
    ensures Committed(x, c)
  {
    var i: nat :| CapturedAt(w, i, c);
    assert CapturedAt(x, i, c);
  }

  lemma CapturedEnds(f: Faults, w: World, row: nat, env: M.Env, c: ConsignmentId)
    requires LateOk(f, w) && CapturedAt(w, row, c) && row !in w.csDone
    requires GivesUp(w.rs, M.EventOfCaptured(w.cs.outbox[row].payload.captured), env)
    ensures !Ended(w, c) && Ended(DoCaptured(w, row, env), c)
  {
    RunEnds(w.rs, M.EventOfCaptured(w.cs.outbox[row].payload.captured), env);
    assert LateAt(w, c, CsRow(row));
    SameCommitted(w, DoCaptured(w, row, env), c);
    NoPlaceLeft(f, w, DoCaptured(w, row, env), c, CsRow(row));
  }

  lemma ConfirmEnds(f: Faults, w: World, row: nat, env: M.Env, c: ConsignmentId)
    requires LateOk(f, w) && RowsOk(w) && ConfirmAt(w, row, c) && row !in w.rsDone
    requires GivesUp(w.rs, w.rs.outbox[row].payload.capacity, env)
    ensures !Ended(w, c) && Ended(DoConfirm(w, row, env), c)
  {
    RunEnds(w.rs, w.rs.outbox[row].payload.capacity, env);
    assert LateAt(w, c, RsRow(row));
    assert RsRowOk(w, w.rs.outbox[row]);
    SameCommitted(w, DoConfirm(w, row, env), c);
    NoPlaceLeft(f, w, DoConfirm(w, row, env), c, RsRow(row));
  }

  /** Exactly which step ends a saga without a verdict, in any run in which no row that can lead to
      a confirm is handled again: the one that handles the
      saga's live confirm and finds the cache empty, or has its verdict write fail, or has its
      retry taken for another that is pending. */
  lemma EndsExactly(f: Faults, w: World, l: Label, c: ConsignmentId)
    requires Reachable(f, w) && ConfirmsOnce(f) && Enabled(f, w, l)
    ensures !Ended(w, c) && Ended(Apply(f, w, l), c) <==> EndsBy(w, c, l)
  {
    ReachableOk(f, w);
    if EndsBy(w, c, l) {
      if l.HandleCaptured? {
        CapturedEnds(f, w, l.row, l.env, c);
      } else {
        ConfirmEnds(f, w, l.row, l.env, c);
      }
    } else if !Ended(w, c) && Ended(Apply(f, w, l), c) {
      StepKeeps(f, w, l);
      CommittedBefore(f, w, l, c);
      var p :| LateAt(w, c, p);
      EndsOnlySo(f, w, l, c, p);
    }
  }

  lemma CapturedIs(w: World, row: nat, e: CapacityEvent, env: M.Env)
    requires row < |w.cs.outbox| && w.cs.outbox[row].payload.Captured?
    requires e == M.EventOfCaptured(w.cs.outbox[row].payload.captured) && M.Completes(w.rs, e, env)
    ensures DoCaptured(w, row, env) == w.(rs := M.Process(w.rs, e, env), csDone := w.csDone + {row})
  {
  }

  lemma ConfirmIs(w: World, row: nat, e: CapacityEvent, env: M.Env)
    requires row < |w.rs.outbox| && w.rs.outbox[row].payload == Capacity(e) && M.Completes(w.rs, e, env)
    ensures DoConfirm(w, row, env) == w.(rs := M.Process(w.rs, e, env), rsDone := w.rsDone + {row})
  {
  }

  // ---------- the verdict cannot be written ----------

  const UNWRITTEN := M.Env(C.DeleteOk, [M.Rpc(Answered, L.NoFault)], C.DeleteOk, true)

  lemma UnwrittenGivesUp(s: M.Rs)
    requires R.FailingRs(s, 0)
    ensures GivesUp(s, R.ConfirmEvent(0), UNWRITTEN)
    ensures L.OpKey("r", L.Confirm) in M.Process(s, R.ConfirmEvent(0), UNWRITTEN).ledger.ops
    ensures M.Completes(s, R.ConfirmEvent(0), UNWRITTEN)
  {
    var call := M.CallOf(R.ConfirmEvent(0));
    assert L.OpKey("r", L.Confirm) !in s.ledger.ops.Keys;
    assert M.Succeeds(s.ledger, call, UNWRITTEN.calls, 0);
    RunEnds(s, R.ConfirmEvent(0), UNWRITTEN);
    M.SuccessIsLogged(s.ledger, call, UNWRITTEN.calls);
    M.CallsExactly(s.ledger, call, UNWRITTEN.calls);
  }

  lemma UnwrittenEnds(f: Faults, w: World)
    requires LateOk(f, w) && R.FailingRs(w.rs, 0) && CapturedAt(w, 1, "c") && 1 !in w.csDone
    requires M.EventOfCaptured(w.cs.outbox[1].payload.captured) == R.ConfirmEvent(0)
    ensures var x := DoCaptured(w, 1, UNWRITTEN);
            && x == w.(rs := M.Process(w.rs, R.ConfirmEvent(0), UNWRITTEN), csDone := w.csDone + {1})
            && Ended(x, "c") && IsConfirmed(x, "r")
  {
    UnwrittenGivesUp(w.rs);
    CapturedIs(w, 1, R.ConfirmEvent(0), UNWRITTEN);
    CapturedEnds(f, w, 1, UNWRITTEN, "c");
  }

  lemma CapturedWaits(f: Faults, w: World)
    requires R.Failing(w, 0) && w.csDone == {0}
    ensures CapturedAt(w, 1, "c") && M.EventOfCaptured(w.cs.outbox[1].payload.captured) == R.ConfirmEvent(0)
    ensures Enabled(f, w, HandleCaptured(1, UNWRITTEN))
  {
    assert w.cs.outbox[1] == F.CAPTURED_ROW;
  }

  /** The confirm is applied at the vessel and its verdict write fails: the capacity is in use, the
      payment is captured, and the consignment never hears. */
  lemma VerdictUnwritten(f: Faults) returns (w: World)
    requires ConfirmsOnce(f)
    ensures Reachable(f, w) && Ended(w, "c") && IsConfirmed(w, "r")
  {
    var w0 := R.CommitsOnce(f);
    ReachableOk(f, w0);
    CapturedWaits(f, w0);
    UnwrittenEnds(f, w0);
    StepOn(f, w0, HandleCaptured(1, UNWRITTEN));
    w := DoCaptured(w0, 1, UNWRITTEN);
  }

  // ---------- a retry is taken for another ----------

  function ReleaseEvent(n: nat): CapacityEvent {
    CapacityEvent(ReleaseAction, INFO, false, n, "", "")
  }

  /** The expiry of the reservation, then its failed releases up to the dead letter. */
  const RELEASES := [M.ExpiredRow(INFO), M.RetryRow(ReleaseEvent(0)), M.RetryRow(ReleaseEvent(1)),
                     M.RetryRow(ReleaseEvent(2))]

  /** Then the failed confirms. */
  const CONFIRMS := [M.RetryRow(R.ConfirmEvent(0)), M.RetryRow(R.ConfirmEvent(1))]

  /** In an outage of the cache a run writes its retry, if none like it is pending. */
  lemma OutageWrites(s: M.Rs, e: CapacityEvent)
    requires !e.cacheCleared
    ensures M.Process(s, e, R.OUTAGE) == s.(outbox := O.Add(s.outbox, true, M.RetryRow(e)))
    ensures M.Completes(s, e, R.OUTAGE)
  {
  }

  lemma AddFresh(rows: seq<Row>, row: Row)
    requires forall i :: 0 <= i < |rows| ==> rows[i].topic != row.topic || rows[i].key != row.key
    ensures O.Add(rows, true, row) == rows + [row]
  {
  }

  /** The reservation service has these rows, and the captured row of "c" is the other's last. */
  predicate HasRows(w: World, rows: seq<Row>) {
    w.rs.outbox == rows && w.cs.outbox == [N.AuthorisedRow(F.EventAt(0)), F.CAPTURED_ROW]
  }

  lemma ReleaseFails(f: Faults, w: World, n: nat) returns (x: World)
    requires Reachable(f, w) && 1 <= n <= 2 && HasRows(w, RELEASES[..n + 1]) && w.csDone == {0} && w.rsDone == {}
    ensures Reachable(f, x) && HasRows(x, RELEASES[..n + 2]) && x.csDone == {0} && x.rsDone == {}
  {
    assert w.rs.outbox[n] == M.RetryRow(ReleaseEvent(n - 1));
    StepOn(f, w, HandleRelease(n, R.OUTAGE));
    x := w.(rs := M.Process(w.rs, ReleaseEvent(n), R.OUTAGE));
    OutageWrites(w.rs, ReleaseEvent(n));
    AddFresh(w.rs.outbox, M.RetryRow(ReleaseEvent(n)));
    assert RELEASES[..n + 2] == RELEASES[..n + 1] + [RELEASES[n + 1]];
  }

  lemma ExpiryWritten(f: Faults) returns (w: World)
    ensures Reachable(f, w) && HasRows(w, RELEASES[..1]) && w.csDone == {0} && w.rsDone == {}
  {
    var w0 := R.CommitsOnce(f);
    StepOn(f, w0, PassReads("r"));
    var w1 := w0.(seen := w0.seen + {INFO});
    StepOn(f, w1, PassWrites(INFO));
    w := w1.(rs := M.Write(w1.rs, M.ExpiredRow(INFO), false));
    AddFresh([], M.ExpiredRow(INFO));
    assert w.rs.outbox == [M.ExpiredRow(INFO)] == RELEASES[..1];
  }

  lemma ExpiryFails(f: Faults, w: World) returns (x: World)
    requires Reachable(f, w) && HasRows(w, RELEASES[..1]) && w.csDone == {0} && w.rsDone == {}
    ensures Reachable(f, x) && HasRows(x, RELEASES[..2]) && x.csDone == {0} && x.rsDone == {}
  {
    StepOn(f, w, HandleExpiredRs(0, R.OUTAGE));
    x := w.(rs := M.Process(w.rs, ReleaseEvent(0), R.OUTAGE));
    OutageWrites(w.rs, ReleaseEvent(0));
    AddFresh(w.rs.outbox, M.RetryRow(ReleaseEvent(0)));
    assert RELEASES[..2] == RELEASES[..1] + [RELEASES[1]];
  }

  /** An expiry is reported, and its release dies in the outage; its dead letter is pending. */
  lemma ReleaseDies(f: Faults) returns (w: World)
    ensures Reachable(f, w) && HasRows(w, RELEASES) && w.csDone == {0} && w.rsDone == {}
  {
    w := ExpiryWritten(f);
    w := ExpiryFails(f, w);
    w := ReleaseFails(f, w, 1);
    w := ReleaseFails(f, w, 2);
    assert RELEASES[..4] == RELEASES;
  }

  /** The confirm fails the same way, and comes to its last try. */
  lemma ConfirmsFail(f: Faults) returns (w: World)
    ensures Reachable(f, w) && HasRows(w, RELEASES + CONFIRMS) && w.csDone == {0, 1} && w.rsDone == {4}
  {
    var w0 := ReleaseDies(f);
    OutageWrites(w0.rs, R.ConfirmEvent(0));
    AddFresh(w0.rs.outbox, CONFIRMS[0]);
    var w1 := CapturedRun(f, w0, 1, F.CAPTURED_ROW.payload.captured, R.OUTAGE);
    assert w1.rs.outbox[4].payload == Capacity(R.ConfirmEvent(1));
    OutageWrites(w1.rs, R.ConfirmEvent(1));
    AddFresh(w1.rs.outbox, CONFIRMS[1]);
    w := ConfirmRun(f, w1, 4, R.ConfirmEvent(1), R.OUTAGE);
    assert w.rs.outbox == RELEASES + CONFIRMS;
  }

  lemma SwallowedGivesUp(s: M.Rs)
    requires s.outbox == RELEASES + CONFIRMS
    ensures GivesUp(s, R.ConfirmEvent(2), R.OUTAGE) && M.Completes(s, R.ConfirmEvent(2), R.OUTAGE)
    ensures M.Process(s, R.ConfirmEvent(2), R.OUTAGE).outbox == s.outbox
  {
    var e := R.ConfirmEvent(2);
    assert s.outbox[3] == M.RetryRow(ReleaseEvent(2));
    OutageWrites(s, e);
    assert O.PendingSame(s.outbox, M.RetryTopic(M.NextTry(e)), Retry(e.info.id, e.retryCount + 1));
  }

  /** The dead letter of the confirm has the topic and key of the release's: while that one is
      pending, the insert of the other succeeds and adds nothing, and no failure is announced. */
  lemma DeadLetterSwallowed(f: Faults) returns (w: World)
    requires ConfirmsOnce(f)
    ensures Reachable(f, w) && Ended(w, "c") && HasRows(w, RELEASES + CONFIRMS)
  {
    var w0 := ConfirmsFail(f);
    ReachableOk(f, w0);
    assert w0.rs.outbox[5] == CONFIRMS[1];
    SwallowedGivesUp(w0.rs);
    ConfirmEnds(f, w0, 5, R.OUTAGE, "c");
    ConfirmIs(w0, 5, R.ConfirmEvent(2), R.OUTAGE);
    w := ConfirmRun(f, w0, 5, R.ConfirmEvent(2), R.OUTAGE);
  }
}
