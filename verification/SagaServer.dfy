/** The server's ConfirmConsignment call, as its class method specifies it, is a run of the
    saga's steps, so what holds in every run holds after every call. */
module SagaServer {
  import opened Types
  import N = Consignments
  import opened SagaSystem
  import opened SagaRuns

  /** One cancel and one void of a call whose event was not written. */
  lemma UndoOnce(f: Faults, w: World, id: ConsignmentId, auth: AuthId, cancelFails: bool, net: Net) returns (x: World)
    requires Reachable(f, w) && id in w.asked && w.asked[id] == Undoing(auth)
    ensures Reachable(f, x) && x.asked == w.asked
    ensures x == w.(cs := N.VoidOnce(N.SetStatus(w.cs, id, N.Cancelled, cancelFails), auth, net))
  {
    x := w;
    if !cancelFails {
      StepOn(f, x, ServerCancels(id));
      x := x.(cs := N.SetStatus(x.cs, id, N.Cancelled, false));
    }
    if !net.Dropped? {
      StepOn(f, x, ServerVoids(id));
      x := x.(cs := N.VoidOnce(x.cs, auth, Answered));
    }
  }

  /** The one call for a consignment, with any outcome of its own calls and writes. */
  lemma ConfirmRequestRun(f: Faults, w: World, id: ConsignmentId, auth: AuthId, env: N.ConfirmEnv) returns (x: World)
    requires Reachable(f, w) && id !in w.asked && auth !in w.cs.payments
    ensures Reachable(f, x)
    ensures x.cs == N.OnConfirmRequest(w.cs, id, auth, env)
    ensures x == w.(cs := x.cs, asked := x.asked)
  {
    x := w;
    if !env.getFails && id in w.cs.consignments && env.refresh.Refreshed? {
      if env.authorise.Dropped? {
        StepOn(f, w, PaymentRefused(id, env.cancel1Fails));
        x := w.(cs := N.SetStatus(w.cs, id, N.Cancelled, env.cancel1Fails), asked := w.asked[id := Refused]);
      } else {
        StepOn(f, w, AuthorisePayment(id, auth));
        x := w.(cs := N.Authorise(w.cs, id, auth, Answered), asked := w.asked[id := Paying(auth)]);
        if env.authorise.Answered? && !env.writeFails {
          StepOn(f, x, AnnounceAuthorised(id));
          x := Apply(f, x, AnnounceAuthorised(id));
        } else {
          StepOn(f, x, AnnounceFails(id));
          x := x.(asked := x.asked[id := Undoing(auth)]);
          if env.authorise.Lost? {
            x := UndoOnce(f, x, id, auth, env.cancel1Fails, Dropped);
          } else {
            x := UndoOnce(f, x, id, auth, env.cancel1Fails, env.void1);
            x := UndoOnce(f, x, id, auth, env.cancel2Fails, env.void2);
          }
        }
      }
    }
  }
}
