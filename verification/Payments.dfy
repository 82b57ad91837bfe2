/** The payment service: authorise, capture, refund and void over a map of payments. */
module Payments {
  import opened Types

  datatype Status = StatusAuthorised | StatusCaptured | StatusRefunded | StatusVoided

  datatype Payment = Payment(consignment: ConsignmentId, status: Status, captureId: PaymentId)

  type Table = map<AuthId, Payment>

  datatype Reply = Done(id: string) | UnknownPayment | FailedPrecondition

  /** A call; `order` is the order in which a refund's scan visits the map. */
  datatype Call =
    | AuthoriseCall(auth: AuthId, consignment: ConsignmentId)
    | CaptureCall(auth: AuthId, key: PaymentId)
    | RefundCall(payment: PaymentId, key: string, order: seq<AuthId>)
    | VoidCall(auth: AuthId)

  predicate Matches(t: Table, payment: PaymentId, auth: AuthId) {
    auth in t && t[auth].captureId == payment
  }

  /** Where the scan stops: at the first match, if there is one. */
  function Scan(t: Table, payment: PaymentId, order: seq<AuthId>): (found: Option<AuthId>)
    ensures found.Some? ==> found.value in order && Matches(t, payment, found.value)
    ensures found.None? ==> forall a :: a in order ==> !Matches(t, payment, a)
  {
    if order == [] then None
    else if Matches(t, payment, order[0]) then Some(order[0])
    else Scan(t, payment, order[1..])
  }

  lemma ScanStep(t: Table, payment: PaymentId, order: seq<AuthId>, i: nat)
    requires i < |order|
    ensures Scan(t, payment, order[i..])
            == if Matches(t, payment, order[i]) then Some(order[i]) else Scan(t, payment, order[i + 1..])
  {
    assert order[i..][1..] == order[i + 1..];
  }

  /** The scan visits every payment. */
  predicate Covers(t: Table, order: seq<AuthId>) {
    forall a :: a in t ==> a in order
  }

  predicate Legal(t: Table, c: Call) {
    && (c.AuthoriseCall? ==> c.auth !in t)
    && (c.RefundCall? ==> Covers(t, c.order))
  }

  function RefundAnswer(t: Table, found: Option<AuthId>, key: string): Reply
    requires found.Some? ==> found.value in t
  {
    if found.None? then UnknownPayment
    else if t[found.value].status == StatusRefunded || t[found.value].status == StatusCaptured then Done(key)
    else FailedPrecondition
  }

  function Refunded(t: Table, found: Option<AuthId>): Table
    requires found.Some? ==> found.value in t
  {
    if found.Some? && t[found.value].status == StatusCaptured
    then t[found.value := t[found.value].(status := StatusRefunded)] else t
  }

  function Answer(t: Table, c: Call): Reply {
    match c
    case AuthoriseCall(auth, _) => Done(auth)
    case CaptureCall(auth, key) =>
      if auth !in t then UnknownPayment
      else if t[auth].status == StatusCaptured then Done(t[auth].captureId)
      else if t[auth].status != StatusAuthorised then FailedPrecondition
      else Done(key)
    case RefundCall(payment, key, order) =>
      RefundAnswer(t, Scan(t, payment, order), key)
    case VoidCall(auth) =>
      if auth !in t then UnknownPayment
      else if t[auth].status == StatusVoided || t[auth].status == StatusAuthorised then Done("")
      else FailedPrecondition
  }

  function Exec(t: Table, c: Call): Table {
    match c
    case AuthoriseCall(auth, consignment) => t[auth := Payment(consignment, StatusAuthorised, "")]
    case CaptureCall(auth, key) =>
      if auth in t && t[auth].status == StatusAuthorised
      then t[auth := t[auth].(status := StatusCaptured, captureId := key)] else t
    case RefundCall(payment, _, order) =>
      Refunded(t, Scan(t, payment, order))
    case VoidCall(auth) =>
      if auth in t && t[auth].status == StatusAuthorised
      then t[auth := t[auth].(status := StatusVoided)] else t
  }

  lemma RefundIs(t: Table, payment: PaymentId, key: string, order: seq<AuthId>, found: Option<AuthId>)
    requires found == Scan(t, payment, order)
    ensures var (r, u) := (Answer(t, RefundCall(payment, key, order)), Exec(t, RefundCall(payment, key, order)));
            match found
            case None => r == UnknownPayment && u == t
            case Some(a) =>
              if t[a].status == StatusCaptured then r == Done(key) && u == t[a := t[a].(status := StatusRefunded)]
              else if t[a].status == StatusRefunded then r == Done(key) && u == t
              else r == FailedPrecondition && u == t
  {
  }

  /** The service; each method holds its lock throughout. */
  class PaymentHandler {
    var payments: Table

    constructor ()
      ensures payments == map[]
    {
      payments := map[];
    }

    /** `auth` is the fresh id drawn for this authorisation. */
    method Authorise(auth: AuthId, consignment: ConsignmentId) returns (reply: Reply)
      requires auth !in payments
      modifies this
      ensures reply == Answer(old(payments), AuthoriseCall(auth, consignment))
      ensures payments == Exec(old(payments), AuthoriseCall(auth, consignment))
    {
      payments := payments[auth := Payment(consignment, StatusAuthorised, "")];
      return Done(auth);
    }

    method Capture(auth: AuthId, key: PaymentId) returns (reply: Reply)
      modifies this
      ensures reply == Answer(old(payments), CaptureCall(auth, key))
      ensures payments == Exec(old(payments), CaptureCall(auth, key))
    {
      if auth !in payments {
        return UnknownPayment;
      }
      var p := payments[auth];
      if p.status == StatusCaptured {
        return Done(p.captureId);
      }
      if p.status != StatusAuthorised {
        return FailedPrecondition;
      }
      payments := payments[auth := p.(status := StatusCaptured, captureId := key)];
      return Done(key);
    }

    /** Scans the payments, in whatever order the map gives them, for the capture id. */
    method Refund(payment: PaymentId, key: string, order: seq<AuthId>) returns (reply: Reply)
      requires Covers(payments, order)
      modifies this
      ensures reply == Answer(old(payments), RefundCall(payment, key, order))
      ensures payments == Exec(old(payments), RefundCall(payment, key, order))
    {
      ghost var t := payments;
      ghost var found := Scan(t, payment, order);
      assert order[0..] == order;
      var hit: Option<AuthId> := None;
      var i := 0;
      while i < |order|
        invariant 0 <= i <= |order|
        invariant hit.None?
        invariant payments == t
        invariant found == Scan(t, payment, order) == Scan(t, payment, order[i..])
      {
        ScanStep(t, payment, order, i);
        if order[i] in payments && payments[order[i]].captureId == payment {
          hit := Some(order[i]);
          break;
        }
        i := i + 1;
      }
      assert hit == found;
      RefundIs(t, payment, key, order, found);
      if hit.None? {
        return UnknownPayment;
      }
      var p := payments[hit.value];
      if p.status == StatusRefunded {
        return Done(key);
      }
      if p.status != StatusCaptured {
        return FailedPrecondition;
      }
      payments := payments[hit.value := p.(status := StatusRefunded)];
      return Done(key);
    }

    method Void(auth: AuthId) returns (reply: Reply)
      modifies this
      ensures reply == Answer(old(payments), VoidCall(auth))
      ensures payments == Exec(old(payments), VoidCall(auth))
    {
      if auth !in payments {
        return UnknownPayment;
      }
      var p := payments[auth];
      if p.status == StatusVoided {
        return Done("");
      }
      if p.status != StatusAuthorised {
        return FailedPrecondition;
      }
      payments := payments[auth := p.(status := StatusVoided)];
      return Done("");
    }
  }

  // ---------- what an answer means ----------

  /** The call's payment is where the call wants it. */
  predicate Reached(t: Table, c: Call) {
    match c
    case AuthoriseCall(auth, _) => auth in t && t[auth].status == StatusAuthorised
    case CaptureCall(auth, _) => auth in t && t[auth].status == StatusCaptured
    case RefundCall(payment, _, order) =>
      var found := Scan(t, payment, order);
      found.Some? && t[found.value].status == StatusRefunded
    case VoidCall(auth) => auth in t && t[auth].status == StatusVoided
  }

  /** A scan looks at capture ids only. */
  lemma {:induction false} ScanIgnoresStatus(t: Table, u: Table, payment: PaymentId, order: seq<AuthId>)
    requires forall a :: Matches(t, payment, a) <==> Matches(u, payment, a)
    ensures Scan(t, payment, order) == Scan(u, payment, order)
    decreases order
  {
    if order != [] && !Matches(t, payment, order[0]) {
      ScanIgnoresStatus(t, u, payment, order[1..]);
    }
  }

  /** A call is answered with success exactly if it leaves its payment where it wants it, and
      whatever is refused changes nothing. So a caller whose answer was lost may ask again: the
      repeat changes nothing and answers the same, and a capture repeated under any key answers
      with the id of the first. */
  lemma AnswersMeanIt(t: Table, c: Call, key: PaymentId)
    requires Legal(t, c)
    ensures var u := Exec(t, c);
            && (Answer(t, c).Done? <==> Reached(u, c))
            && (!Answer(t, c).Done? ==> u == t)
            && (Answer(t, c).Done? && !c.AuthoriseCall? ==> Exec(u, c) == u && Answer(u, c) == Answer(t, c))
            && (Answer(t, c).Done? && c.CaptureCall? ==>
                  Answer(u, CaptureCall(c.auth, key)) == Answer(t, c) && u[c.auth].captureId == Answer(t, c).id)
  {
    if c.RefundCall? {
      ScanIgnoresStatus(t, Exec(t, c), c.payment, c.order);
      RefundIs(t, c.payment, c.key, c.order, Scan(t, c.payment, c.order));
      RefundIs(Exec(t, c), c.payment, c.key, c.order, Scan(t, c.payment, c.order));
    }
  }

  // ---------- any sequence of calls ----------

  function Run(t: Table, cs: seq<Call>): Table {
    if cs == [] then t else Exec(Run(t, cs[..|cs| - 1]), cs[|cs| - 1])
  }

  ghost predicate LegalRun(t: Table, cs: seq<Call>) {
    cs == [] || (LegalRun(t, cs[..|cs| - 1]) && Legal(Run(t, cs[..|cs| - 1]), cs[|cs| - 1]))
  }

  /** authorised -> captured -> refunded, or authorised -> voided, or no move. */
  predicate Forward(a: Status, b: Status) {
    a == b || a == StatusAuthorised || (a == StatusCaptured && b == StatusRefunded)
  }

  /** Over any sequence of calls a payment only moves forward, stays with its consignment,
      and its capture id, once it has left `authorised`, never changes. */
  lemma {:induction false} OnlyForward(t: Table, cs: seq<Call>, auth: AuthId)
    requires LegalRun(t, cs) && auth in t
    ensures auth in Run(t, cs)
    ensures Forward(t[auth].status, Run(t, cs)[auth].status)
    ensures Run(t, cs)[auth].consignment == t[auth].consignment
    ensures t[auth].status != StatusAuthorised ==> Run(t, cs)[auth].captureId == t[auth].captureId
    ensures Run(t, cs)[auth].status in {StatusAuthorised, StatusVoided} ==>
              Run(t, cs)[auth].captureId == t[auth].captureId
  {
    if cs != [] {
      OnlyForward(t, cs[..|cs| - 1], auth);
    }
  }

  // ---------- one authorisation per consignment ----------

  /** How the saga calls the service: one authorisation per consignment, and captures keyed
      by the consignment's own non-empty id. */
  ghost predicate Disciplined(t: Table, c: Call) {
    && Legal(t, c)
    && (c.AuthoriseCall? ==> c.consignment != "" && forall a :: a in t ==> t[a].consignment != c.consignment)
    && (c.CaptureCall? && c.auth in t ==> c.key == t[c.auth].consignment)
  }

  ghost predicate DisciplinedRun(cs: seq<Call>) {
    cs == [] || (DisciplinedRun(cs[..|cs| - 1]) && Disciplined(Run(map[], cs[..|cs| - 1]), cs[|cs| - 1]))
  }

  /** A capture id is the consignment's id exactly once captured, and consignments are unique. */
  ghost predicate Consistent(t: Table) {
    && (forall a :: a in t ==>
          && t[a].consignment != ""
          && t[a].captureId == if t[a].status in {StatusCaptured, StatusRefunded} then t[a].consignment else "")
    && (forall a, b :: a in t && b in t && t[a].consignment == t[b].consignment ==> a == b)
  }

  lemma ExecConsistent(t: Table, c: Call)
    requires Consistent(t) && Disciplined(t, c)
    ensures Consistent(Exec(t, c))
  {
  }

  lemma {:induction false} RunConsistent(cs: seq<Call>)
    requires DisciplinedRun(cs)
    ensures Consistent(Run(map[], cs))
  {
    if cs != [] {
      RunConsistent(cs[..|cs| - 1]);
      ExecConsistent(Run(map[], cs[..|cs| - 1]), cs[|cs| - 1]);
    }
  }

  /** Capture ids are unique, so what a refund does and answers does not depend on the order
      in which the map is scanned, and repeating it changes nothing. */
  lemma RefundIsDetermined(cs: seq<Call>, payment: PaymentId, key: string, f: seq<AuthId>, g: seq<AuthId>)
    requires DisciplinedRun(cs)
    requires Covers(Run(map[], cs), f) && Covers(Run(map[], cs), g)
    ensures var t := Run(map[], cs);
            && Exec(t, RefundCall(payment, key, f)) == Exec(t, RefundCall(payment, key, g))
            && Answer(t, RefundCall(payment, key, f)) == Answer(t, RefundCall(payment, key, g))
            && (payment != "" ==> Scan(t, payment, f) == Scan(t, payment, g))
  {
    RunConsistent(cs);
    ScansAgree(Run(map[], cs), payment, f, g);
  }

  lemma ScansAgree(t: Table, payment: PaymentId, f: seq<AuthId>, g: seq<AuthId>)
    requires Covers(t, f) && Covers(t, g)
    ensures Scan(t, payment, f).Some? <==> Scan(t, payment, g).Some?
  {
  }

  lemma RepeatedRefundIsIdle(cs: seq<Call>, payment: PaymentId, key: string, f: seq<AuthId>, g: seq<AuthId>)
    requires DisciplinedRun(cs)
    requires Covers(Run(map[], cs), f) && Covers(Run(map[], cs), g)
    ensures var t := Exec(Run(map[], cs), RefundCall(payment, key, f));
            && Exec(t, RefundCall(payment, key, g)) == t
            && Answer(t, RefundCall(payment, key, g)) == Answer(Run(map[], cs), RefundCall(payment, key, f))
  {
    RunConsistent(cs);
    var t := Run(map[], cs);
    ExecConsistent(t, RefundCall(payment, key, f));
    var found := Scan(t, payment, f);
    if found.Some? {
      assert Matches(Exec(t, RefundCall(payment, key, f)), payment, found.value);
    }
  }

  lemma {:induction false} SetAsSequence(s: set<AuthId>) returns (order: seq<AuthId>)
    ensures forall a :: a in order <==> a in s
    decreases s
  {
    if s == {} {
      order := [];
    } else {
      var a :| a in s;
      var rest := SetAsSequence(s - {a});
      order := [a] + rest;
    }
  }

  /** In general, the order of the scan is irrelevant to the table exactly if no captured
      match has a second match beside it. */
  lemma RefundOrderFree(t: Table, payment: PaymentId, key: string)
    ensures (forall f, g :: Covers(t, f) && Covers(t, g) ==>
               Exec(t, RefundCall(payment, key, f)) == Exec(t, RefundCall(payment, key, g)))
            <==> (forall a, b :: Matches(t, payment, a) && Matches(t, payment, b) && a != b ==>
                    t[a].status != StatusCaptured)
  {
    if a, b :| Matches(t, payment, a) && Matches(t, payment, b) && a != b && t[a].status == StatusCaptured {
      var all := SetAsSequence(t.Keys);
      var f, g := [a] + all, [b] + all;
      assert Covers(t, f) && Covers(t, g);
      assert Scan(t, payment, f) == Some(a) && Scan(t, payment, g) == Some(b);
      assert Exec(t, RefundCall(payment, key, f))[a].status == StatusRefunded;
      assert Exec(t, RefundCall(payment, key, g))[a].status == StatusCaptured;
    } else {
      forall f, g | Covers(t, f) && Covers(t, g)
        ensures Exec(t, RefundCall(payment, key, f)) == Exec(t, RefundCall(payment, key, g))
      {
        ScansAgree(t, payment, f, g);
      }
    }
  }

  /** No payment is left captured under this id. */
  ghost predicate Released(t: Table, payment: PaymentId) {
    forall a :: Matches(t, payment, a) ==> t[a].status != StatusCaptured
  }

  /** A refund is sure to release every payment captured under its id exactly if no captured
      one shares that id with a second payment. */
  lemma RefundReleasesAll(t: Table, payment: PaymentId, key: string)
    ensures (forall order :: Covers(t, order) ==> Released(Exec(t, RefundCall(payment, key, order)), payment))
            <==> (forall a, b :: Matches(t, payment, a) && Matches(t, payment, b) && a != b ==>
                    t[a].status != StatusCaptured)
  {
    if a, b :| Matches(t, payment, a) && Matches(t, payment, b) && a != b && t[a].status == StatusCaptured {
      var all := SetAsSequence(t.Keys);
      var order := [b] + all;
      assert Covers(t, order) && Scan(t, payment, order) == Some(b);
      assert Matches(Exec(t, RefundCall(payment, key, order)), payment, a);
    } else {
      forall order | Covers(t, order) ensures Released(Exec(t, RefundCall(payment, key, order)), payment) {
        var u := Exec(t, RefundCall(payment, key, order));
        forall a | Matches(u, payment, a) ensures u[a].status != StatusCaptured {
          assert Matches(t, payment, a) && a in order;
          var found := Scan(t, payment, order);
          assert found.Some? && Matches(t, payment, found.value);
        }
      }
    }
  }

  /** The same refund asked again and again, each time meeting the map in another order. */
  function Refunds(t: Table, payment: PaymentId, key: string, orders: seq<seq<AuthId>>): Table
    decreases orders
  {
    if orders == [] then t else Refunds(Exec(t, RefundCall(payment, key, orders[0])), payment, key, orders[1..])
  }

  lemma {:induction false} ReleasedStays(t: Table, payment: PaymentId, key: string, orders: seq<seq<AuthId>>)
    requires Released(t, payment)
    ensures Released(Refunds(t, payment, key, orders), payment)
    decreases orders
  {
    if orders != [] {
      ReleasedStays(Exec(t, RefundCall(payment, key, orders[0])), payment, key, orders[1..]);
    }
  }

  /** A scan that always meets `b` first never gets to `a`. */
  lemma {:induction false} NeverReached(t: Table, payment: PaymentId, key: string, a: AuthId, b: AuthId,
                                        rest: seq<AuthId>, n: nat)
    requires Matches(t, payment, a) && Matches(t, payment, b) && a != b && t[a].status == StatusCaptured
    ensures !Released(Refunds(t, payment, key, seq(n, _ => [b] + rest)), payment)
    decreases n
  {
    if n > 0 {
      var orders := seq(n, _ => [b] + rest);
      assert Scan(t, payment, orders[0]) == Some(b);
      assert orders[1..] == seq(n - 1, _ => [b] + rest);
      NeverReached(Exec(t, RefundCall(payment, key, orders[0])), payment, key, a, b, rest, n - 1);
    }
  }

  /** Asking again does not help: however many times it is asked, the condition is the same. */
  lemma RefundsReleaseAll(t: Table, payment: PaymentId, key: string, n: nat)
    requires 0 < n
    ensures (forall orders: seq<seq<AuthId>> ::
               |orders| == n && (forall i :: 0 <= i < n ==> Covers(t, orders[i])) ==>
               Released(Refunds(t, payment, key, orders), payment))
            <==> (forall a, b :: Matches(t, payment, a) && Matches(t, payment, b) && a != b ==>
                    t[a].status != StatusCaptured)
  {
    if a, b :| Matches(t, payment, a) && Matches(t, payment, b) && a != b && t[a].status == StatusCaptured {
      var all := SetAsSequence(t.Keys);
      NeverReached(t, payment, key, a, b, all, n);
      assert Covers(t, [b] + all);
      var orders := seq(n, _ => [b] + all);
      assert |orders| == n && (forall i :: 0 <= i < n ==> Covers(t, orders[i]));
    } else {
      RefundReleasesAll(t, payment, key);
      forall orders: seq<seq<AuthId>> | |orders| == n && (forall i :: 0 <= i < n ==> Covers(t, orders[i]))
        ensures Released(Refunds(t, payment, key, orders), payment)
      {
        ReleasedStays(Exec(t, RefundCall(payment, key, orders[0])), payment, key, orders[1..]);
      }
    }
  }

  /** Two authorisations of one consignment break it: both captures share one capture id, and
      a refund repeated for it can hit the same payment twice and leave the other captured. */
  lemma TwoAuthorisationsStrand(c: ConsignmentId)
    ensures var cs := [AuthoriseCall("a", c), AuthoriseCall("b", c), CaptureCall("a", c), CaptureCall("b", c),
                       RefundCall(c, c, ["a", "b"]), RefundCall(c, c, ["a", "b"])];
            && LegalRun(map[], cs)
            && "a" in Run(map[], cs) && "b" in Run(map[], cs)
            && Run(map[], cs)["a"].status == StatusRefunded
            && Run(map[], cs)["b"].status == StatusCaptured
  {
    var c1, c2, c3, c4, c5 := AuthoriseCall("a", c), AuthoriseCall("b", c), CaptureCall("a", c),
                              CaptureCall("b", c), RefundCall(c, c, ["a", "b"]);
    var t0: Table := map[];
    assert [] + [c1] == [c1] && [c1] + [c2] == [c1, c2] && [c1, c2] + [c3] == [c1, c2, c3]
      && [c1, c2, c3] + [c4] == [c1, c2, c3, c4] && [c1, c2, c3, c4] + [c5] == [c1, c2, c3, c4, c5]
      && [c1, c2, c3, c4, c5] + [c5] == [c1, c2, c3, c4, c5, c5];
    RunSnoc(t0, [], c1);
    RunSnoc(t0, [c1], c2);
    RunSnoc(t0, [c1, c2], c3);
    RunSnoc(t0, [c1, c2, c3], c4);
    var t4 := Run(t0, [c1, c2, c3, c4]);
    assert t4 == map["a" := Payment(c, StatusCaptured, c), "b" := Payment(c, StatusCaptured, c)];
    RefundIs(t4, c, c, ["a", "b"], Some("a"));
    RunSnoc(t0, [c1, c2, c3, c4], c5);
    var t5 := Run(t0, [c1, c2, c3, c4, c5]);
    RefundIs(t5, c, c, ["a", "b"], Some("a"));
    RunSnoc(t0, [c1, c2, c3, c4, c5], c5);
  }

  lemma RunSnoc(t: Table, cs: seq<Call>, c: Call)
    requires LegalRun(t, cs) && Legal(Run(t, cs), c)
    ensures LegalRun(t, cs + [c]) && Run(t, cs + [c]) == Exec(Run(t, cs), c)
  {
    assert (cs + [c])[..|cs|] == cs;
  }
}
