/** How far a consignment's final statuses are final, and exactly when they are. */
module SagaStatuses {
  import opened Types
  import opened Events
  import P = Payments
  import M = CapacityManager
  import N = Consignments
  import opened SagaSystem
  import opened SagaInvariant
  import opened SagaSteps
  import opened SagaRuns
  import opened SagaVerdicts
  import F = SagaFaults
  import R = SagaReplays

  /** The step is a capture run of `c` whose transaction commits. */
  predicate CommitsFor(f: Faults, w: World, l: Label, c: ConsignmentId)
    requires Enabled(f, w, l)
  {
    l.HandleAuthorised? && w.cs.outbox[l.row].payload.authorised.consignment == c
    && N.Commits(w.cs, w.cs.outbox[l.row].payload.authorised, l.csEnv)
  }

  predicate Status(w: World, c: ConsignmentId, s: N.Status) {
    c in w.cs.consignments && w.cs.consignments[c].status == s
  }

  /** The status a step writes to the record of `c`, if it writes one. */
  function Written(f: Faults, w: World, l: Label, c: ConsignmentId): Option<N.Status>
    requires Enabled(f, w, l) && c in w.cs.consignments
  {
    match l
    case HandleAuthorised(_, _) => if CommitsFor(f, w, l, c) then Some(N.ConfirmationPending) else None
    case HandleExpiredCs(row, getFails, _, updateFails) =>
      if w.rs.outbox[row].payload.expired.consignment == c && !getFails && !updateFails
         && w.cs.consignments[c].status == N.Pending
      then Some(N.Cancelled) else None
    case HandleFailed(fromRs, row, _, updateFails) =>
      if FailedEvent(w, fromRs, row).consignment == c && !updateFails then Some(N.Cancelled) else None
    case HandleConfirmed(row, updateFails) =>
      if w.rs.outbox[row].payload.consignment == c && !updateFails then Some(N.ConfirmedStatus) else None
    case PaymentRefused(id, fails) => if id == c && !fails then Some(N.Cancelled) else None
    case ServerCancels(id) => if id == c then Some(N.Cancelled) else None
    case _ => None
  }

  ghost predicate StatusWritten(f: Faults, w: World, l: Label, c: ConsignmentId)
    requires Enabled(f, w, l) && c in w.cs.consignments
  {
    var x, s := Apply(f, w, l), Written(f, w, l, c);
    Status(x, c, if s.Some? then s.value else w.cs.consignments[c].status)
  }

  lemma CaptureWrites(f: Faults, w: World, l: Label, c: ConsignmentId)
    requires Enabled(f, w, l) && c in w.cs.consignments && l.HandleAuthorised?
    ensures StatusWritten(f, w, l, c)
  {
  }

  lemma ExpiryWrites(f: Faults, w: World, l: Label, c: ConsignmentId)
    requires Enabled(f, w, l) && c in w.cs.consignments && l.HandleExpiredCs?
    ensures StatusWritten(f, w, l, c)
  {
  }

  lemma VerdictsWrite(f: Faults, w: World, l: Label, c: ConsignmentId)
    requires Enabled(f, w, l) && c in w.cs.consignments && (l.HandleFailed? || l.HandleConfirmed?)
    ensures StatusWritten(f, w, l, c)
  {
  }

  lemma ServerWrites(f: Faults, w: World, l: Label, c: ConsignmentId)
    requires Enabled(f, w, l) && c in w.cs.consignments
    requires l.PaymentRefused? || l.ServerCancels? || l.CreateRecord?
    ensures StatusWritten(f, w, l, c)
  {
  }

  lemma OthersWriteNothing(f: Faults, w: World, l: Label, c: ConsignmentId)
    requires Enabled(f, w, l) && c in w.cs.consignments
    requires !(l.HandleAuthorised? || l.HandleExpiredCs? || l.HandleFailed? || l.HandleConfirmed?)
    requires !(l.PaymentRefused? || l.ServerCancels? || l.CreateRecord?)
    ensures StatusWritten(f, w, l, c)
  {
  }

  lemma StatusIsWritten(f: Faults, w: World, l: Label, c: ConsignmentId)
    requires Enabled(f, w, l) && c in w.cs.consignments
    ensures StatusWritten(f, w, l, c)
  {
    if l.HandleAuthorised? {
      CaptureWrites(f, w, l, c);
    } else if l.HandleExpiredCs? {
      ExpiryWrites(f, w, l, c);
    } else if l.HandleFailed? || l.HandleConfirmed? {
      VerdictsWrite(f, w, l, c);
    } else if l.PaymentRefused? || l.ServerCancels? || l.CreateRecord? {
      ServerWrites(f, w, l, c);
    } else {
      OthersWriteNothing(f, w, l, c);
    }
  }

  /** A confirmed consignment's saga has no place but its verdict. */
  lemma ConfirmedIsOver(f: Faults, w: World, c: ConsignmentId)
    requires Inv(f, w) && ConfirmsOnce(f) && Status(w, c, N.ConfirmedStatus)
    ensures IsAnnounced(w, c) && !CsFailed(w, c) && !RsFailed(w, c)
    ensures forall i: nat :: AuthorisedAt(w, i, c) ==> i in w.csDone
  {
    assert StatusOk(w, c);
    ConfirmedVerdict(f, w, c);
    CommittedIsAnnounced(w, c);
    forall i: nat | AuthorisedAt(w, i, c) ensures i in w.csDone {
      assert i in w.csDone || EarlyAt(w, c, CsRow(i));
    }
  }

  /** A cancelled consignment has no confirmed verdict. */
  lemma CancelledNotConfirmed(f: Faults, w: World, c: ConsignmentId)
    requires Inv(f, w) && ConfirmsOnce(f) && Status(w, c, N.Cancelled)
    ensures !ConfirmedRowOf(w, c)
  {
    assert Committed(w, c) ==> RsFailed(w, c);
    if ConfirmedRowOf(w, c) {
      ConfirmedVerdict(f, w, c);
    }
  }

  lemma ConfirmedStays(f: Faults, w: World, l: Label, c: ConsignmentId)
    requires Inv(f, w) && ConfirmsOnce(f) && Enabled(f, w, l) && Status(w, c, N.ConfirmedStatus)
    ensures Written(f, w, l, c) in {None, Some(N.ConfirmedStatus)}
  {
    ConfirmedIsOver(f, w, c);
    if l.HandleAuthorised? {
      assert AuthorisedAt(w, l.row, w.cs.outbox[l.row].payload.authorised.consignment);
    } else if l.HandleFailed? {
      var d := FailedEvent(w, l.fromRs, l.row).consignment;
      assert if l.fromRs then RsFailedAt(w, l.row, d) else CsFailedAt(w, l.row, d);
    }
  }

  lemma CancelledStays(f: Faults, w: World, l: Label, c: ConsignmentId)
    requires Inv(f, w) && ConfirmsOnce(f) && Enabled(f, w, l) && Status(w, c, N.Cancelled)
    ensures Written(f, w, l, c) in {None, Some(N.Cancelled)}
            || (CommitsFor(f, w, l, c) && Written(f, w, l, c) == Some(N.ConfirmationPending))
    ensures CommitsFor(f, w, l, c) ==> Written(f, w, l, c) == Some(N.ConfirmationPending)
  {
    CancelledNotConfirmed(f, w, c);
    if l.HandleConfirmed? {
      assert ConfirmedAt(w, l.row, w.rs.outbox[l.row].payload.consignment);
    }
  }

  /** No step leaves status confirmed. */
  ghost predicate KeepsConfirmed(f: Faults, w: World) {
    forall l, c | Enabled(f, w, l) && Status(w, c, N.ConfirmedStatus) ::
      Status(Apply(f, w, l), c, N.ConfirmedStatus)
  }

  /** A step leaves status cancelled exactly if it commits a capture of the consignment, and
      then for confirmation_pending. */
  ghost predicate LeavesCancelledByCommit(f: Faults, w: World) {
    forall l, c | Enabled(f, w, l) && Status(w, c, N.Cancelled) ::
      && (!Status(Apply(f, w, l), c, N.Cancelled) <==> CommitsFor(f, w, l, c))
      && (CommitsFor(f, w, l, c) ==> Status(Apply(f, w, l), c, N.ConfirmationPending))
  }

  lemma OnceIsFinal(f: Faults, w: World)
    requires Reachable(f, w) && ConfirmsOnce(f)
    ensures KeepsConfirmed(f, w) && LeavesCancelledByCommit(f, w)
  {
    ReachableOk(f, w);
    forall l, c | Enabled(f, w, l) && Status(w, c, N.ConfirmedStatus)
      ensures Status(Apply(f, w, l), c, N.ConfirmedStatus)
    {
      StatusIsWritten(f, w, l, c);
      ConfirmedStays(f, w, l, c);
    }
    forall l, c | Enabled(f, w, l) && Status(w, c, N.Cancelled)
      ensures !Status(Apply(f, w, l), c, N.Cancelled) <==> CommitsFor(f, w, l, c)
      ensures CommitsFor(f, w, l, c) ==> Status(Apply(f, w, l), c, N.ConfirmationPending)
    {
      StatusIsWritten(f, w, l, c);
      CancelledStays(f, w, l, c);
    }
  }

  /** With both verdicts written, the failed one overwrites confirmed. */
  lemma ConfirmedOverwritten(f: Faults) returns (w: World, x: World)
    requires !ConfirmsOnce(f)
    ensures Reachable(f, w) && !KeepsConfirmed(f, w)
    ensures Reachable(f, x) && R.FailedNext(x, false)
  {
    w := R.ConfirmedHandled(f);
    x := R.FailedHandled(f, w, false);
    assert Status(w, "c", N.ConfirmedStatus) && !Status(x, "c", N.ConfirmedStatus);
  }

  /** And the confirmed one, handled again, overwrites cancelled. */
  lemma CancelledOverwritten(f: Faults, w: World)
    requires R.FailedNext(w, false)
    ensures !LeavesCancelledByCommit(f, w)
  {
    R.RetryRowsAre(3);
    var l := HandleConfirmed(3, false);
    assert Enabled(f, w, l) && Apply(f, w, l) == w.(cs := N.OnConfirmed(w.cs, "c", false));
    assert Status(w, "c", N.Cancelled) && !Status(Apply(f, w, l), "c", N.Cancelled) && !CommitsFor(f, w, l, "c");
  }

  /** Confirmed is final, and cancelled is left only by a commit, in every run exactly if no
      authorised, captured or confirm row is handled again. */
  lemma FinalStatuses(f: Faults)
    ensures (forall w :: Reachable(f, w) ==> KeepsConfirmed(f, w)) <==> ConfirmsOnce(f)
    ensures (forall w :: Reachable(f, w) ==> LeavesCancelledByCommit(f, w)) <==> ConfirmsOnce(f)
  {
    if ConfirmsOnce(f) {
      forall w | Reachable(f, w) ensures KeepsConfirmed(f, w) && LeavesCancelledByCommit(f, w) {
        OnceIsFinal(f, w);
      }
    } else {
      var w, x := ConfirmedOverwritten(f);
      CancelledOverwritten(f, x);
    }
  }

  /** The reservation of "c" is reported expired while its authorised event waits. */
  lemma ExpiryReported(f: Faults) returns (w: World)
    ensures Reachable(f, w) && F.Waiting(w, 0, P.StatusAuthorised)
    ensures w.cs.consignments == map["c" := N.NewConsignment("r", "v", 1, 1)]
    ensures RsRowIs(w, 0, ReservationExpiredTopic)
    ensures w.rs.outbox[0].payload == Expired(ReservationInfo("r", "v", "c", 1, 1))
  {
    w := F.Asking(f);
    StepOn(f, w, PassReads("r"));
    w := w.(seen := w.seen + {w.rs.keys.data["r"].info});
    var info := ReservationInfo("r", "v", "c", 1, 1);
    StepOn(f, w, PassWrites(info));
    w := w.(rs := M.Write(w.rs, M.ExpiredRow(info), false));
  }

  lemma ExpiryCancels(f: Faults) returns (w: World)
    ensures Reachable(f, w) && F.Waiting(w, 0, P.StatusAuthorised) && Status(w, "c", N.Cancelled)
  {
    var w1 := ExpiryReported(f);
    var calls := [N.PayRpc(Answered, ["a"])];
    StepOn(f, w1, HandleExpiredCs(0, false, calls, false));
    w := w1.(cs := N.OnExpired(w1.cs, "c", false, calls, false));
  }

  /** It does happen: the reservation expires, the consignment is cancelled for it, and the
      authorised event handled after that puts it back. */
  lemma CancelledComesBack(f: Faults) returns (w: World, l: Label)
    ensures Reachable(f, w) && Enabled(f, w, l) && Status(w, "c", N.Cancelled)
    ensures Status(Apply(f, w, l), "c", N.ConfirmationPending)
  {
    w := ExpiryCancels(f);
    var env := F.CaptureOnce(Answered, false, false);
    l := HandleAuthorised(0, env);
    var ask := N.CaptureAsk(F.EventAt(0));
    assert N.CallOf(ask, env.calls[0]) == P.CaptureCall("a", "c");
    assert N.CallsReply(w.cs.payments, ask, env.calls) == Some("c");
    assert N.Commits(w.cs, F.EventAt(0), env);
    assert Apply(f, w, l) == DoAuthorised(w, 0, env);
  }
}
