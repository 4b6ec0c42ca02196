/** Repeated notices, and the fixpoint of a rejected payment. */
module Replay {
  import opened Options
  import Calendar
  import opened Schema
  import opened Expiry
  import opened BigoApi
  import opened CouponLedger
  import opened Engine
  import opened Coherence

  /** The first payment with the id is found again as long as orders keep their ids. */
  lemma {:induction false} FindPaymentStable(orders: seq<Order>, orders': seq<Order>, braviveId: string)
    requires |orders| <= |orders'|
    requires forall i | 0 <= i < |orders| :: orders'[i].braviveId == orders[i].braviveId
    ensures FindPayment(orders, braviveId) < |orders| ==>
      FindPayment(orders', braviveId) == FindPayment(orders, braviveId)
    ensures |orders| == |orders'| ==> FindPayment(orders', braviveId) == FindPayment(orders, braviveId)
  {
    if |orders| == 0 {
    } else {
      FindPaymentStable(orders[1..], orders'[1..], braviveId);
    }
  }

  lemma NoticeKeepsIds(db: Db, id: OrderId, n: Notice, seqid: NonEmpty, x: Answer, now: nat)
    requires Known(db, id)
    ensures var orders' := HandleNotice(db, id, n, seqid, x, now).orders;
      |orders'| == |db.orders| && forall i | 0 <= i < |db.orders| :: SameOrder(db.orders[i], orders'[i])
  {
  }

  /** A refund that finds coupon usage to revert and a payment that is not rejected. */
  predicate RefundBites(db: Db, b: string) {
    var id := FindPayment(db.orders, b);
    id < |db.orders| && db.orders[id].payment != PaymentRejected
    && |db.orders[id].usages| > 0 && db.orders[id].usages[0] < |db.ledger.coupons|
  }

  lemma RefundRevertsAgain(db: Db, id: OrderId)
    requires Known(db, id)
    ensures RefundTx(RefundTx(db, id), id) == RefundTx(db, id)
            <==> |db.orders[id].usages| == 0 || db.orders[id].usages[0] >= |db.ledger.coupons|
  {
    var db1 := RefundTx(db, id);
    var db2 := RefundTx(db1, id);
    var o := db.orders[id];
    var month := Calendar.MonthOf(o.createdAt);
    RevertAppends(db.ledger, id, db1.orders[id], 0, month);
    RevertAppends(db1.ledger, id, db1.orders[id], 0, month);
    RevertKeepsTerms(db.ledger, id, db1.orders[id], 0, month);
    assert db2.orders == db1.orders;
  }

  lemma Rejects(db: Db, id: OrderId)
    requires Known(db, id)
    ensures RejectTx(db, id).orders[id].payment == PaymentRejected
    ensures ChargebackTx(db, id).orders[id].payment == PaymentRejected
  {
  }

  /** A second notice reaches the same payment, and meets what the first one left. */
  lemma SecondNotice(db: Db, b: string, n: Notice, seqid: NonEmpty, x: Answer, now: nat,
                     seqid': NonEmpty, x': Answer, now': nat)
    requires FindPayment(db.orders, b) < |db.orders| && !Absorbed(db.orders[FindPayment(db.orders, b)], n)
    ensures var id := FindPayment(db.orders, b);
      var once := HandleNotice(db, id, n, seqid, x, now);
      && Known(once, id)
      && HandleWebhook(once, b, n, seqid', x', now')
         == if Absorbed(once.orders[id], n) then once else HandleNotice(once, id, n, seqid', x', now')
  {
    var id := FindPayment(db.orders, b);
    var once := HandleNotice(db, id, n, seqid, x, now);
    NoticeKeepsIds(db, id, n, seqid, x, now);
    FindPaymentStable(db.orders, once.orders, b);
  }

  lemma ApprovedStaysApproved(db: Db, id: OrderId, seqid: NonEmpty, x: Answer, now: nat)
    requires Known(db, id)
    ensures Known(HandleApproved(db, id, seqid, x, now), id)
    ensures HandleApproved(db, id, seqid, x, now).orders[id].payment == PaymentApproved
  {
  }

  /** The same notice twice in a row changes nothing the second time, whatever Bigo would
      answer, unless it is a refund that has coupon usage to revert: a refund leaves the
      payment approved, so its replay decrements the coupon again. */
  lemma ReplayIsAbsorbed(db: Db, b: string, n: Notice, seqid: NonEmpty, x: Answer, now: nat,
                         seqid': NonEmpty, x': Answer, now': nat)
    ensures var once := HandleWebhook(db, b, n, seqid, x, now);
      HandleWebhook(once, b, n, seqid', x', now') == once <==> !(n == Refunded && RefundBites(db, b))
  {
    var id := FindPayment(db.orders, b);
    if id < |db.orders| && !Absorbed(db.orders[id], n) {
      SecondNotice(db, b, n, seqid, x, now, seqid', x', now');
      match n
      case Approved => ApprovedStaysApproved(db, id, seqid, x, now);
      case Rejected | Canceled | Chargeback => Rejects(db, id);
      case Refunded => RefundRevertsAgain(db, id);
      case _ =>
    }
  }

  // ----- A refund does not ask whether the usage was confirmed -----

  function CouponStart(): Db {
    var terms := Terms("C", "s", "i", true, false, None, None, None, None, None, false, false);
    Start().(ledger := Ledger([Coupon(terms, 0, 0)], [], []))
  }
  function BuyWithCoupon(): Event {
    Create(Request("N1", "s", "u", "b", "p", 100, 1000, 1000, "C", "pay", 0))
  }

  lemma BoughtWithCoupon()
    ensures var db := Step(CouponStart(), BuyWithCoupon());
      |db.orders| == 1 && db.orders[0].braviveId == "pay" && db.orders[0].payment == PaymentPending
      && db.orders[0].usages == [0] && db.orders[0].price == 1000 && db.ledger == CouponStart().ledger
  {
    assert FindCoupon(CouponStart().ledger.coupons, "C", "s") == 0;
  }

  lemma RefundUncounts(db: Db)
    requires |db.orders| == 1 && db.orders[0].usages == [0] && db.orders[0].price == 1000
    requires db.ledger == CouponStart().ledger
    ensures var l := RefundTx(db, 0).ledger;
      |l.coupons| == 1 && l.coupons[0].timesUsed == -1 && l.coupons[0].totalSales == -1000 && l.months == []
  {
    var month := Calendar.MonthOf(db.orders[0].createdAt);
    assert UpdateMonth([], "i", -1000, month) == None;
  }

  lemma RefundReaches(db: Db)
    requires |db.orders| == 1 && db.orders[0].braviveId == "pay" && db.orders[0].payment == PaymentPending
    ensures Step(db, Tell(Refunded, YES)) == RefundTx(db, 0)
  {
    assert FindPayment(db.orders, "pay") == 0;
  }

  /** Refunding an order that was never paid leaves its coupon used minus one times, and
      with a sales total that no monthly row accounts for. */
  lemma RefundOfUnpaidOrder()
    ensures Initial(CouponStart())
    ensures var l := Run(CouponStart(), [BuyWithCoupon()] + [Tell(Refunded, YES)]).ledger;
      |l.coupons| == 1 && l.coupons[0].timesUsed == -1 && l.coupons[0].totalSales == -1000 && l.months == []
  {
    var db := Step(CouponStart(), BuyWithCoupon());
    BoughtWithCoupon();
    RefundReaches(db);
    RefundUncounts(db);
    Runs1(CouponStart(), BuyWithCoupon());
    OneStep(CouponStart(), [BuyWithCoupon()], Tell(Refunded, YES));
  }

  // ----- Rejection is a fixpoint -----

  /** The event may approve the order: only a webhook or poll that reports APPROVED. */
  predicate MayApprove(e: Event, o: Order) {
    (e.Webhook? || e.Poll?) && e.notice == Approved && e.braviveId == o.braviveId
  }

  /** The order, its postings and its completions are as they were. */
  ghost predicate Untouched(db: Db, db': Db, id: OrderId) {
    && Known(db, id) && Known(db', id) && db'.orders[id] == db.orders[id]
    && db.ledger.journal <= db'.ledger.journal
    && (forall k | |db.ledger.journal| <= k < |db'.ledger.journal| :: db'.ledger.journal[k].order != id)
    && db.completions <= db'.completions
    && (forall k | |db.completions| <= k < |db'.completions| :: db'.completions[k] != id)
  }

  lemma ApprovedTouchesOne(db: Db, at: OrderId, seqid: NonEmpty, x: Answer, now: nat, id: OrderId)
    requires Known(db, id) && Known(db, at) && at != id
    ensures Untouched(db, HandleApproved(db, at, seqid, x, now), id)
  {
    var done := ApproveTx(db, at).orders[at].(status := Completed, recharge := RechargeApproved);
    ConfirmAppends(db.ledger, at, done, 0, Calendar.MonthOf(now));
  }

  lemma RevertTouchesOne(db: Db, at: OrderId, id: OrderId)
    requires Known(db, id) && Known(db, at) && at != id
    ensures Untouched(db, RefundTx(db, at), id)
    ensures Untouched(db, ChargebackTx(db, at), id)
  {
    var month := Calendar.MonthOf(db.orders[at].createdAt);
    RevertAppends(db.ledger, at, RefundTx(db, at).orders[at], 0, month);
    RevertAppends(db.ledger, at, ChargebackTx(db, at).orders[at], 0, month);
  }

  lemma HandlerTouchesOne(db: Db, at: OrderId, n: Notice, seqid: NonEmpty, x: Answer, now: nat, id: OrderId)
    requires Known(db, id) && Known(db, at) && at != id
    ensures Untouched(db, HandleNotice(db, at, n, seqid, x, now), id)
  {
    match n
    case Approved => ApprovedTouchesOne(db, at, seqid, x, now, id);
    case Refunded | Chargeback => RevertTouchesOne(db, at, id);
    case _ =>
  }

  lemma WebhookLeavesRejected(db: Db, b: string, n: Notice, seqid: NonEmpty, x: Answer, now: nat, id: OrderId)
    requires Known(db, id) && db.orders[id].payment == PaymentRejected
    requires !(n == Approved && b == db.orders[id].braviveId)
    ensures Untouched(db, HandleWebhook(db, b, n, seqid, x, now), id)
  {
    var at := FindPayment(db.orders, b);
    if at < |db.orders| && at != id {
      HandlerTouchesOne(db, at, n, seqid, x, now, id);
    }
  }

  lemma StepLeavesRejected(db: Db, e: Event, id: OrderId)
    requires Known(db, id) && db.orders[id].payment == PaymentRejected && !MayApprove(e, db.orders[id])
    ensures Untouched(db, Step(db, e), id)
  {
    match e
    case Webhook(b, n, seqid, x, now) => WebhookLeavesRejected(db, b, n, seqid, x, now, id);
    case Poll(b, n, seqid, x, now) =>
      PollIsWebhook(db, b, n, seqid, x, now);
      WebhookLeavesRejected(db, b, n, seqid, x, now, id);
    case _ =>
  }

  lemma UntouchedChains(a: Db, b: Db, c: Db, id: OrderId)
    requires Untouched(a, b, id) && Untouched(b, c, id)
    ensures Untouched(a, c, id)
  {
  }

  /** Once a payment is rejected, no finite sequence of events without an APPROVED for it
      changes its statuses, its ledger postings or its completions. */
  lemma {:induction false} RejectionIsFinal(db: Db, events: seq<Event>, id: OrderId)
    requires Known(db, id) && db.orders[id].payment == PaymentRejected
    requires forall e | e in events :: !MayApprove(e, db.orders[id])
    ensures Untouched(db, Run(db, events), id)
  {
    if |events| == 0 {
    } else {
      var rest, last := events[..|events| - 1], events[|events| - 1];
      RejectionIsFinal(db, rest, id);
      assert last in events;
      StepLeavesRejected(Run(db, rest), last, id);
      UntouchedChains(db, Run(db, rest), Step(Run(db, rest), last), id);
    }
  }
}
