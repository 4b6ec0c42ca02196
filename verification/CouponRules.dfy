/** One-time and first-purchase coupons: what validation at creation keeps true later. */
module CouponRules {
  import opened Options
  import opened Schema
  import opened Calendar
  import opened Expiry
  import opened BigoApi
  import opened CouponLedger
  import opened Engine
  import opened Coherence
  import opened Replay

  /** The two orders use a common one-time coupon for the same Bigo id or the same user. */
  predicate SharesOneTime(coupons: seq<Coupon>, a: Order, b: Order) {
    (a.bigoId == b.bigoId || a.user == b.user)
    && exists k | 0 <= k < |a.usages| ::
         a.usages[k] in b.usages && a.usages[k] < |coupons| && coupons[a.usages[k]].terms.oneTime
  }

  predicate UsesFirstPurchase(coupons: seq<Coupon>, o: Order) {
    exists k | 0 <= k < |o.usages| :: o.usages[k] < |coupons| && coupons[o.usages[k]].terms.firstPurchase
  }

  predicate SharesFirstPurchase(coupons: seq<Coupon>, a: Order, b: Order) {
    a.user == b.user && a.store == b.store && UsesFirstPurchase(coupons, a) && UsesFirstPurchase(coupons, b)
  }

  predicate Counts(o: Order) { o.status != Expired }

  /** Neither expired nor refunded, and the payment not rejected. */
  predicate Standing(o: Order) {
    (o.status.Created? || o.status.Processing? || o.status.Completed?)
    && (o.payment.PaymentPending? || o.payment.PaymentApproved?)
  }

  /** No two standing orders share a one-time coupon. */
  ghost predicate OneTimeUnique(db: Db) {
    forall i, j | 0 <= i < |db.orders| && 0 <= j < |db.orders| && i != j
      && SharesOneTime(db.ledger.coupons, db.orders[i], db.orders[j]) ::
      !(Standing(db.orders[i]) && Standing(db.orders[j]))
  }

  /** No two unexpired orders of a user in a store both carry a first-purchase coupon. */
  ghost predicate FirstPurchaseUnique(db: Db) {
    forall i, j | 0 <= i < |db.orders| && 0 <= j < |db.orders| && i != j
      && SharesFirstPurchase(db.ledger.coupons, db.orders[i], db.orders[j]) ::
      !(Counts(db.orders[i]) && Counts(db.orders[j]))
  }

  // ----- Frames -----

  lemma HandlersKeepTerms(db: Db, id: OrderId, seqid: NonEmpty, x: Answer, now: nat)
    requires Known(db, id)
    ensures SameTerms(db.ledger, HandleApproved(db, id, seqid, x, now).ledger)
    ensures SameTerms(db.ledger, RefundTx(db, id).ledger)
    ensures SameTerms(db.ledger, ChargebackTx(db, id).ledger)
  {
    var o := db.orders[id];
    var done := ApproveTx(db, id).orders[id].(status := Completed, recharge := RechargeApproved);
    ConfirmKeepsTerms(db.ledger, id, done, 0, MonthOf(now));
    RevertKeepsTerms(db.ledger, id, RefundTx(db, id).orders[id], 0, MonthOf(o.createdAt));
    RevertKeepsTerms(db.ledger, id, ChargebackTx(db, id).orders[id], 0, MonthOf(o.createdAt));
  }

  /** Everything but creation keeps the number of orders, their identity and the coupon
      terms, and only the target of a notice may gain a status other than EXPIRED. */
  ghost predicate Frame(db: Db, db': Db, target: OrderId) {
    && SameTerms(db.ledger, db'.ledger)
    && |db'.orders| == |db.orders|
    && (forall i | 0 <= i < |db.orders| :: SameOrder(db.orders[i], db'.orders[i]))
    && (forall i | 0 <= i < |db.orders| && i != target ::
          db'.orders[i] == db.orders[i]
          || (db.orders[i].status == Created && db'.orders[i] == db.orders[i].(status := Expired)))
  }

  lemma NoticeFrame(db: Db, id: OrderId, n: Notice, seqid: NonEmpty, x: Answer, now: nat)
    requires Known(db, id)
    ensures Frame(db, HandleNotice(db, id, n, seqid, x, now), id)
  {
    NoticeKeepsIds(db, id, n, seqid, x, now);
    HandlersKeepTerms(db, id, seqid, x, now);
    if n == Approved { ApprovedIsCoherent(db, id, seqid, x, now); }
  }

  lemma WebhookFrame(db: Db, b: string, n: Notice, seqid: NonEmpty, x: Answer, now: nat)
    ensures Frame(db, HandleWebhook(db, b, n, seqid, x, now), FindPayment(db.orders, b))
  {
    var id := FindPayment(db.orders, b);
    if id < |db.orders| { NoticeFrame(db, id, n, seqid, x, now); }
  }

  /** The order that a notice event is about, or the table size. */
  function About(db: Db, e: Event): OrderId {
    if e.Webhook? || e.Poll? then FindPayment(db.orders, e.braviveId) else |db.orders|
  }

  lemma StepFrame(db: Db, e: Event)
    requires !e.Create?
    ensures Frame(db, Step(db, e), About(db, e))
  {
    match e
    case Webhook(b, n, seqid, x, now) => WebhookFrame(db, b, n, seqid, x, now);
    case Poll(b, n, seqid, x, now) =>
      PollIsWebhook(db, b, n, seqid, x, now);
      WebhookFrame(db, b, n, seqid, x, now);
    case _ =>
  }

  // ----- The guards -----

  /** The event is an approval that will be acted on. */
  predicate Approves(db: Db, e: Event) {
    var id := About(db, e);
    (e.Webhook? || e.Poll?) && e.notice == Approved && id < |db.orders| && db.orders[id].payment != PaymentApproved
  }

  /** The event takes an order out of EXPIRED: an approval, refund or chargeback of it. */
  predicate Unexpires(db: Db, e: Event) {
    var id := About(db, e);
    id < |db.orders| && db.orders[id].status == Expired
    && (Approves(db, e)
        || (e.Webhook? && (e.notice == Refunded || e.notice == Chargeback)
            && db.orders[id].payment != PaymentRejected))
  }

  /** A live order shares a one-time coupon with the dead order that is being approved. */
  predicate OneTimeRival(db: Db, e: Event) {
    Approves(db, e) && !Live(db.orders[About(db, e)])
    && exists j | 0 <= j < |db.orders| ::
         j != About(db, e) && Live(db.orders[j])
         && SharesOneTime(db.ledger.coupons, db.orders[About(db, e)], db.orders[j])
  }

  predicate FirstPurchaseRival(db: Db, e: Event) {
    Unexpires(db, e)
    && exists j | 0 <= j < |db.orders| ::
         j != About(db, e) && Counts(db.orders[j])
         && SharesFirstPurchase(db.ledger.coupons, db.orders[About(db, e)], db.orders[j])
  }

  // ----- What each step does to the status of its target -----

  /** A notice is acted on when its target status differs from the payment's. */
  predicate ActsOn(o: Order, n: Notice) {
    TargetPayment(n).Some? && TargetPayment(n).value != o.payment
  }

  lemma NoticeEffect(db: Db, id: OrderId, n: Notice, seqid: NonEmpty, x: Answer, now: nat)
    requires Known(db, id) && ActsOn(db.orders[id], n)
    ensures var o, o' := db.orders[id], HandleNotice(db, id, n, seqid, x, now).orders[id];
      && (Live(o') <==> n == Approved)
      && (Counts(o') <==> n == Approved || n == Refunded || n == Chargeback)
  {
    if n == Approved {
      ApprovedIsCoherent(db, id, seqid, x, now);
      assert HandleApproved(db, id, seqid, x, now).orders[id].payment == PaymentApproved;
      assert HandleApproved(db, id, seqid, x, now).orders[id].status != Expired;
      assert HandleApproved(db, id, seqid, x, now).orders[id].status != Refounded;
    }
  }

  lemma WebhookEffect(db: Db, b: string, n: Notice, seqid: NonEmpty, x: Answer, now: nat)
    requires FindPayment(db.orders, b) < |db.orders|
    ensures var id := FindPayment(db.orders, b);
      var o, o' := db.orders[id], HandleWebhook(db, b, n, seqid, x, now).orders[id];
      if ActsOn(o, n)
      then (Live(o') <==> n == Approved) && (Counts(o') <==> n == Approved || n == Refunded || n == Chargeback)
      else o' == o
  {
    var id := FindPayment(db.orders, b);
    if ActsOn(db.orders[id], n) { NoticeEffect(db, id, n, seqid, x, now); }
  }

  lemma StepEffect(db: Db, e: Event)
    requires About(db, e) < |db.orders|
    ensures var o, o' := db.orders[About(db, e)], Step(db, e).orders[About(db, e)];
      && (Approves(db, e) ==> Live(o'))
      && (!Approves(db, e) && Live(o') ==> Live(o))
      && (Counts(o') ==> Counts(o) || Unexpires(db, e))
      && (Unexpires(db, e) ==> Counts(o'))
  {
    PollIsWebhook(db, e.braviveId, e.notice, e.seqid, e.x, e.now);
    WebhookEffect(db, e.braviveId, e.notice, e.seqid, e.x, e.now);
  }

  lemma SharingIsStable(l: Ledger, l': Ledger, a: Order, a': Order, b: Order, b': Order)
    requires SameTerms(l, l') && SameOrder(a, a') && SameOrder(b, b')
    ensures SharesOneTime(l.coupons, a, b) <==> SharesOneTime(l'.coupons, a', b')
    ensures SharesFirstPurchase(l.coupons, a, b) <==> SharesFirstPurchase(l'.coupons, a', b')
  {
  }

  lemma SharingIsSymmetric(coupons: seq<Coupon>, a: Order, b: Order)
    ensures SharesOneTime(coupons, a, b) <==> SharesOneTime(coupons, b, a)
  {
  }

  // ----- Creation -----

  lemma CreateKeepsOneTime(db: Db, q: Request)
    requires OneTimeUnique(db) && NewOrder(db.orders, db.ledger.coupons, q).Some?
    ensures OneTimeUnique(CreateOrder(db, q))
  {
    var o := NewOrder(db.orders, db.ledger.coupons, q).value;
    forall j | 0 <= j < |db.orders|
      ensures SharesOneTime(db.ledger.coupons, o, db.orders[j]) ==> !Live(db.orders[j])
      ensures SharesOneTime(db.ledger.coupons, db.orders[j], o) <==> SharesOneTime(db.ledger.coupons, o, db.orders[j])
    {
      NewOrderHasNoRival(db, q, j);
      SharingIsSymmetric(db.ledger.coupons, o, db.orders[j]);
    }
  }

  lemma CreateKeepsFirstPurchase(db: Db, q: Request)
    requires FirstPurchaseUnique(db) && NewOrder(db.orders, db.ledger.coupons, q).Some?
    ensures FirstPurchaseUnique(CreateOrder(db, q))
  {
    var o := NewOrder(db.orders, db.ledger.coupons, q).value;
    forall j | 0 <= j < |db.orders|
      ensures SharesFirstPurchase(db.ledger.coupons, o, db.orders[j]) ==> !Counts(db.orders[j])
    {
      NewOrderHasNoRival(db, q, j);
    }
  }

  lemma CreateKeepsUnique(db: Db, q: Request)
    ensures OneTimeUnique(db) ==> OneTimeUnique(CreateOrder(db, q))
    ensures FirstPurchaseUnique(db) ==> FirstPurchaseUnique(CreateOrder(db, q))
  {
    if NewOrder(db.orders, db.ledger.coupons, q).Some? {
      if OneTimeUnique(db) { CreateKeepsOneTime(db, q); }
      if FirstPurchaseUnique(db) { CreateKeepsFirstPurchase(db, q); }
    }
  }

  /** Validation at creation looked for exactly these rivals. */
  lemma NewOrderHasNoRival(db: Db, q: Request, j: nat)
    requires NewOrder(db.orders, db.ledger.coupons, q).Some? && j < |db.orders|
    ensures var o := NewOrder(db.orders, db.ledger.coupons, q).value;
      && (SharesOneTime(db.ledger.coupons, o, db.orders[j]) ==> !Live(db.orders[j]))
      && (SharesFirstPurchase(db.ledger.coupons, o, db.orders[j]) ==> !Counts(db.orders[j]))
  {
    var o := NewOrder(db.orders, db.ledger.coupons, q).value;
    if q.coupon != "" {
      var c := o.usages[0];
      assert o.usages == [c];
    }
  }

  // ----- Main results -----

  lemma RivalStays(db: Db, e: Event, j: nat)
    requires e.Webhook? || e.Poll?
    requires j < |db.orders| && j != About(db, e)
    ensures |Step(db, e).orders| == |db.orders| && Step(db, e).orders[j] == db.orders[j]
  {
    PollIsWebhook(db, e.braviveId, e.notice, e.seqid, e.x, e.now);
    var id := About(db, e);
    if id < |db.orders| { ApprovedIsCoherent(db, id, e.seqid, e.x, e.now); }
  }

  /** Only order id may have become live, and then it has no live rival. */
  lemma OneTimeKept(db: Db, db': Db, id: OrderId)
    requires OneTimeUnique(db) && Frame(db, db', id)
    requires id < |db.orders| && Live(db'.orders[id]) && !Live(db.orders[id]) ==>
      forall j | 0 <= j < |db.orders| && j != id && Live(db.orders[j]) ::
        !SharesOneTime(db.ledger.coupons, db.orders[id], db.orders[j])
    ensures OneTimeUnique(db')
  {
    forall i, j | 0 <= i < |db'.orders| && 0 <= j < |db'.orders| && i != j
      && SharesOneTime(db'.ledger.coupons, db'.orders[i], db'.orders[j])
      ensures !(Live(db'.orders[i]) && Live(db'.orders[j]))
    {
      SharingIsStable(db.ledger, db'.ledger, db.orders[i], db'.orders[i], db.orders[j], db'.orders[j]);
      SharingIsSymmetric(db.ledger.coupons, db.orders[i], db.orders[j]);
    }
  }

  lemma FirstPurchaseKept(db: Db, db': Db, id: OrderId)
    requires FirstPurchaseUnique(db) && Frame(db, db', id)
    requires id < |db.orders| && Counts(db'.orders[id]) && !Counts(db.orders[id]) ==>
      forall j | 0 <= j < |db.orders| && j != id && Counts(db.orders[j]) ::
        !SharesFirstPurchase(db.ledger.coupons, db.orders[id], db.orders[j])
    ensures FirstPurchaseUnique(db')
  {
    forall i, j | 0 <= i < |db'.orders| && 0 <= j < |db'.orders| && i != j
      && SharesFirstPurchase(db'.ledger.coupons, db'.orders[i], db'.orders[j])
      ensures !(Counts(db'.orders[i]) && Counts(db'.orders[j]))
    {
      SharingIsStable(db.ledger, db'.ledger, db.orders[i], db'.orders[i], db.orders[j], db'.orders[j]);
    }
  }

  lemma RivalsClash(db: Db, e: Event, j: nat)
    requires About(db, e) < |db.orders| && j < |db.orders| && j != About(db, e)
    ensures (Approves(db, e) && Live(db.orders[j])
             && SharesOneTime(db.ledger.coupons, db.orders[About(db, e)], db.orders[j]))
            ==> !OneTimeUnique(Step(db, e))
    ensures (Unexpires(db, e) && Counts(db.orders[j])
             && SharesFirstPurchase(db.ledger.coupons, db.orders[About(db, e)], db.orders[j]))
            ==> !FirstPurchaseUnique(Step(db, e))
  {
    var db' := Step(db, e);
    var id := About(db, e);
    StepFrame(db, e);
    StepEffect(db, e);
    RivalStays(db, e, j);
    SharingIsStable(db.ledger, db'.ledger, db.orders[id], db'.orders[id], db.orders[j], db'.orders[j]);
  }

  /** A one-time coupon stays unique among live orders across a step exactly when the step
      does not approve a dead order that has a live rival for the coupon. */
  lemma OneTimeStep(db: Db, e: Event)
    requires OneTimeUnique(db)
    ensures OneTimeUnique(Step(db, e)) <==> !OneTimeRival(db, e)
  {
    var id := About(db, e);
    if e.Create? {
      CreateKeepsUnique(db, e.request);
    } else if OneTimeRival(db, e) {
      var j :| 0 <= j < |db.orders| && j != id && Live(db.orders[j])
        && SharesOneTime(db.ledger.coupons, db.orders[id], db.orders[j]);
      RivalsClash(db, e, j);
    } else {
      StepFrame(db, e);
      if id < |db.orders| { StepEffect(db, e); }
      OneTimeKept(db, Step(db, e), id);
    }
  }

  /** A first-purchase coupon stays unique among a user's unexpired orders across a step
      exactly when the step does not take an order with such a rival out of EXPIRED. */
  lemma FirstPurchaseStep(db: Db, e: Event)
    requires FirstPurchaseUnique(db)
    ensures FirstPurchaseUnique(Step(db, e)) <==> !FirstPurchaseRival(db, e)
  {
    var id := About(db, e);
    if e.Create? {
      CreateKeepsUnique(db, e.request);
    } else if FirstPurchaseRival(db, e) {
      var j :| 0 <= j < |db.orders| && j != id && Counts(db.orders[j])
        && SharesFirstPurchase(db.ledger.coupons, db.orders[id], db.orders[j]);
      RivalsClash(db, e, j);
    } else {
      StepFrame(db, e);
      if id < |db.orders| { StepEffect(db, e); }
      FirstPurchaseKept(db, Step(db, e), id);
    }
  }

  /** No step of the run meets a one-time rival. */
  predicate NoOneTimeRival(db: Db, events: seq<Event>) {
    |events| == 0
    || (NoOneTimeRival(db, events[..|events| - 1])
        && !OneTimeRival(Run(db, events[..|events| - 1]), events[|events| - 1]))
  }
  predicate NoFirstPurchaseRival(db: Db, events: seq<Event>) {
    |events| == 0
    || (NoFirstPurchaseRival(db, events[..|events| - 1])
        && !FirstPurchaseRival(Run(db, events[..|events| - 1]), events[|events| - 1]))
  }

  /** Unique now and in every earlier state of the run. */
  ghost predicate OneTimeThroughout(db: Db, events: seq<Event>) {
    OneTimeUnique(Run(db, events)) && (|events| == 0 || OneTimeThroughout(db, events[..|events| - 1]))
  }
  ghost predicate FirstPurchaseThroughout(db: Db, events: seq<Event>) {
    FirstPurchaseUnique(Run(db, events)) && (|events| == 0 || FirstPurchaseThroughout(db, events[..|events| - 1]))
  }

  /** A one-time coupon has at most one live order per Bigo id and at most one per user
      throughout a run if and only if no step of it approves a dead order that has a live
      rival for the coupon. */
  lemma {:induction false} OneTimeCouponsStayUnique(db: Db, events: seq<Event>)
    requires Initial(db)
    ensures OneTimeThroughout(db, events) <==> NoOneTimeRival(db, events)
  {
    if |events| > 0 {
      var n := |events| - 1;
      OneTimeCouponsStayUnique(db, events[..n]);
      if OneTimeUnique(Run(db, events[..n])) {
        OneTimeStep(Run(db, events[..n]), events[n]);
      } else {
        NotThroughout(db, events[..n]);
      }
    }
  }

  lemma NotThroughout(db: Db, events: seq<Event>)
    ensures OneTimeThroughout(db, events) ==> OneTimeUnique(Run(db, events))
    ensures FirstPurchaseThroughout(db, events) ==> FirstPurchaseUnique(Run(db, events))
  {
  }

  /** The same for first-purchase coupons and orders taken out of EXPIRED. */
  lemma {:induction false} FirstPurchaseStaysUnique(db: Db, events: seq<Event>)
    requires Initial(db)
    ensures FirstPurchaseThroughout(db, events) <==> NoFirstPurchaseRival(db, events)
  {
    if |events| > 0 {
      var n := |events| - 1;
      FirstPurchaseStaysUnique(db, events[..n]);
      if FirstPurchaseUnique(Run(db, events[..n])) {
        FirstPurchaseStep(Run(db, events[..n]), events[n]);
      } else {
        NotThroughout(db, events[..n]);
      }
    }
  }

  // ----- A revived order -----

  function RivalStart(): Db {
    var terms := Terms("C", "s", "i", true, false, None, None, None, None, None, true, true);
    Start().(ledger := Ledger([Coupon(terms, 0, 0)], [], []))
  }
  function RivalRequest(number: string, braviveId: string, now: nat): Request {
    Request(number, "s", "u", "b", "p", 100, 1000, 1000, "C", braviveId, now)
  }

  /** The coupon is accepted as long as the table holds only expired orders. */
  lemma Accepted(orders: seq<Order>, number: string, braviveId: string, now: nat)
    requires forall i | 0 <= i < |orders| :: orders[i].status == Expired
    ensures var q := RivalRequest(number, braviveId, now);
      QuoteFor(orders, RivalStart().ledger.coupons, q) == Quote(0, 0, 1000) && Agreed(q, Quote(0, 0, 1000))
  {
    assert FindCoupon(RivalStart().ledger.coupons, "C", "s") == 0;
  }

  ghost predicate Ordered(db: Db, orders: seq<Order>) {
    db.orders == orders && db.ledger == RivalStart().ledger
  }

  lemma FirstBought()
    ensures Ordered(Step(RivalStart(), Create(RivalRequest("N1", "p1", 0))),
                    [OrderOf(RivalRequest("N1", "p1", 0), Quote(0, 0, 1000))])
  {
    Accepted([], "N1", "p1", 0);
    assert [] + [OrderOf(RivalRequest("N1", "p1", 0), Quote(0, 0, 1000))]
        == [OrderOf(RivalRequest("N1", "p1", 0), Quote(0, 0, 1000))];
  }

  lemma FirstExpired(db: Db, o: Order)
    requires Ordered(db, [o]) && o.createdAt == 0 && o.status == Created && o.payment == PaymentPending
    ensures Ordered(Step(db, Expire(EVERYTHING, 25 * HOUR)), [o.(status := Expired)])
  {
  }

  lemma SecondBought(db: Db, o: Order)
    requires Ordered(db, [o]) && o.status == Expired && o.number == "N1"
    ensures var q := RivalRequest("N2", "p2", 25 * HOUR);
      Agreed(q, Quote(0, 0, 1000)) && Ordered(Step(db, Create(q)), [o] + [OrderOf(q, Quote(0, 0, 1000))])
  {
    Accepted([o], "N2", "p2", 25 * HOUR);
    assert "N1"[1] != "N2"[1];
  }

  lemma FirstApproved(db: Db, o: Order, o2: Order)
    requires Ordered(db, [o] + [o2]) && o.status == Expired && o.payment == PaymentPending && o.braviveId == "p1"
    requires o.usages == o2.usages == [0] && o.user == o2.user && o.bigoId == o2.bigoId && o.store == o2.store
    requires o2.status == Created && o2.payment == PaymentPending
    ensures !OneTimeUnique(Step(db, Webhook("p1", Approved, "seq", YES, 26 * HOUR)))
    ensures !FirstPurchaseUnique(Step(db, Webhook("p1", Approved, "seq", YES, 26 * HOUR)))
  {
    var e := Webhook("p1", Approved, "seq", YES, 26 * HOUR);
    assert FindPayment(db.orders, "p1") == 0;
    assert o.usages[0] in o2.usages && o2.usages[0] == 0;
    assert SharesOneTime(db.ledger.coupons, db.orders[0], db.orders[1]);
    assert UsesFirstPurchase(db.ledger.coupons, o) && UsesFirstPurchase(db.ledger.coupons, o2);
    RivalsClash(db, e, 1);
  }

  /** An order expires, its user orders again with the same coupon, and then the first
      order is paid: a one-time, first-purchase coupon stands on two live orders. */
  lemma RevivedOrdersClash()
    ensures Initial(RivalStart())
    ensures var db := Run(RivalStart(),
        [Create(RivalRequest("N1", "p1", 0))] + [Expire(EVERYTHING, 25 * HOUR)]
        + [Create(RivalRequest("N2", "p2", 25 * HOUR))] + [Webhook("p1", Approved, "seq", YES, 26 * HOUR)]);
      !OneTimeUnique(db) && !FirstPurchaseUnique(db)
  {
    var q1, q2 := RivalRequest("N1", "p1", 0), RivalRequest("N2", "p2", 25 * HOUR);
    var o := OrderOf(q1, Quote(0, 0, 1000)).(status := Expired);
    var db1 := Step(RivalStart(), Create(q1));
    var db2 := Step(db1, Expire(EVERYTHING, 25 * HOUR));
    var db3 := Step(db2, Create(q2));
    FirstBought();
    FirstExpired(db1, OrderOf(q1, Quote(0, 0, 1000)));
    SecondBought(db2, o);
    FirstApproved(db3, o, OrderOf(q2, Quote(0, 0, 1000)));
    FourSteps(RivalStart(), Create(q1), Expire(EVERYTHING, 25 * HOUR), Create(q2),
              Webhook("p1", Approved, "seq", YES, 26 * HOUR));
  }
}
