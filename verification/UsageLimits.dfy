/** The usage limit of a coupon. Validation compares it with confirmed uses only, so it can
    be exceeded by orders that were validated before others were confirmed. */
module UsageLimits {
  import opened Options
  import opened Schema
  import opened Calendar
  import opened BigoApi
  import opened CouponLedger
  import opened Engine
  import opened Coherence
  import opened Replay
  import opened CouponRules
  import Q = RetryQueue

  predicate Limited(c: Coupon) { c.terms.maxUses.Some? && c.terms.maxUses.value != 0 }

  predicate AtLimit(c: Coupon) { Limited(c) && c.timesUsed >= c.terms.maxUses.value }

  ghost predicate WithinLimits(l: Ledger) {
    forall c | 0 <= c < |l.coupons| && Limited(l.coupons[c]) ::
      l.coupons[c].timesUsed <= l.coupons[c].terms.maxUses.value
  }

  ghost predicate OneUsage(db: Db) { forall i | 0 <= i < |db.orders| :: |db.orders[i].usages| <= 1 }

  /** The order's coupon has no use left. */
  predicate UsedUp(l: Ledger, o: Order) {
    KnownUsage(l, o, 0) && AtLimit(l.coupons[o.usages[0]])
  }

  lemma ConfirmKeepsLimits(l: Ledger, id: OrderId, o: Order, month: nat)
    requires WithinLimits(l) && |o.usages| <= 1
    ensures WithinLimits(Confirm(l, id, o, month)) <==> !UsedUp(l, o)
  {
    if KnownUsage(l, o, 0) {
      OneConfirm(l, id, o, month);
      assert Confirm(l, id, o, month).coupons[o.usages[0]].timesUsed == l.coupons[o.usages[0]].timesUsed + 1;
    }
  }

  lemma RevertKeepsLimits(l: Ledger, id: OrderId, o: Order, month: nat)
    requires WithinLimits(l) && |o.usages| <= 1
    ensures WithinLimits(Revert(l, id, o, month))
  {
    if KnownUsage(l, o, 0) {
      OneRevert(l, id, o, month);
    }
  }

  /** An approval that is acted on, dispatched and delivered. */
  predicate Delivers(db: Db, e: Event) {
    Approves(db, e) && e.x.refusal.None?
    && Dispatchable(db.orders[About(db, e)]) && !Q.Used(db.queue.rows, db.orders[About(db, e)].number)
  }

  predicate Overuses(db: Db, e: Event) { Delivers(db, e) && UsedUp(db.ledger, db.orders[About(db, e)]) }

  lemma ApprovedBooks(db: Db, id: OrderId, seqid: NonEmpty, x: Answer, now: nat)
    requires Known(db, id)
    ensures var o := db.orders[id];
      HandleApproved(db, id, seqid, x, now).ledger
      == if Dispatchable(o) && !Q.Used(db.queue.rows, o.number) && x.refusal.None?
         then Confirm(db.ledger, id, o.(payment := PaymentApproved, status := Completed, recharge := RechargeApproved),
                      MonthOf(now))
         else db.ledger
  {
  }

  lemma ApprovedKeepsLimits(db: Db, id: OrderId, seqid: NonEmpty, x: Answer, now: nat)
    requires WithinLimits(db.ledger) && Known(db, id) && |db.orders[id].usages| <= 1
    ensures var o := db.orders[id];
      WithinLimits(HandleApproved(db, id, seqid, x, now).ledger)
      <==> !(Dispatchable(o) && !Q.Used(db.queue.rows, o.number) && x.refusal.None? && UsedUp(db.ledger, o))
  {
    ApprovedBooks(db, id, seqid, x, now);
    ConfirmKeepsLimits(db.ledger, id,
      db.orders[id].(payment := PaymentApproved, status := Completed, recharge := RechargeApproved), MonthOf(now));
  }

  lemma RefundKeepsLimits(db: Db, id: OrderId)
    requires WithinLimits(db.ledger) && Known(db, id) && |db.orders[id].usages| <= 1
    ensures WithinLimits(RefundTx(db, id).ledger) && WithinLimits(ChargebackTx(db, id).ledger)
  {
    var month := MonthOf(db.orders[id].createdAt);
    RevertKeepsLimits(db.ledger, id, RefundTx(db, id).orders[id], month);
    RevertKeepsLimits(db.ledger, id, ChargebackTx(db, id).orders[id], month);
  }

  lemma NoticeKeepsLimits(db: Db, id: OrderId, n: Notice, seqid: NonEmpty, x: Answer, now: nat)
    requires WithinLimits(db.ledger) && Known(db, id) && |db.orders[id].usages| <= 1 && n != Approved
    ensures WithinLimits(HandleNotice(db, id, n, seqid, x, now).ledger)
  {
    RefundKeepsLimits(db, id);
  }

  lemma WebhookKeepsLimits(db: Db, b: string, n: Notice, seqid: NonEmpty, x: Answer, now: nat)
    requires WithinLimits(db.ledger) && OneUsage(db)
    ensures var e := Webhook(b, n, seqid, x, now);
      WithinLimits(HandleWebhook(db, b, n, seqid, x, now).ledger) <==> !Overuses(db, e)
  {
    var id := FindPayment(db.orders, b);
    if id < |db.orders| && !Absorbed(db.orders[id], n) {
      if n == Approved {
        ApprovedKeepsLimits(db, id, seqid, x, now);
      } else {
        NoticeKeepsLimits(db, id, n, seqid, x, now);
      }
    }
  }

  predicate PollActs(n: Notice) { n == Approved || n == Rejected || n == Canceled }

  lemma PollLedger(db: Db, b: string, n: Notice, seqid: NonEmpty, x: Answer, now: nat)
    ensures HandlePoll(db, b, n, seqid, x, now).ledger
            == if PollActs(n) then HandleWebhook(db, b, n, seqid, x, now).ledger else db.ledger
  {
    PollIsWebhook(db, b, n, seqid, x, now);
  }

  lemma PollOveruses(db: Db, b: string, n: Notice, seqid: NonEmpty, x: Answer, now: nat)
    ensures Overuses(db, Poll(b, n, seqid, x, now)) <==> Overuses(db, Webhook(b, n, seqid, x, now))
    ensures Overuses(db, Poll(b, n, seqid, x, now)) ==> PollActs(n)
  {
  }

  lemma PollKeepsLimits(db: Db, b: string, n: Notice, seqid: NonEmpty, x: Answer, now: nat)
    requires WithinLimits(db.ledger) && OneUsage(db)
    ensures WithinLimits(HandlePoll(db, b, n, seqid, x, now).ledger) <==> !Overuses(db, Poll(b, n, seqid, x, now))
  {
    PollLedger(db, b, n, seqid, x, now);
    PollOveruses(db, b, n, seqid, x, now);
    if PollActs(n) { WebhookKeepsLimits(db, b, n, seqid, x, now); }
  }

  lemma QuietBooks(db: Db, e: Event)
    requires !e.Webhook? && !e.Poll?
    ensures Step(db, e).ledger == db.ledger
  {
  }

  /** A step keeps every coupon within its limit if and only if it does not deliver an
      order whose coupon has no use left. */
  lemma LimitStep(db: Db, e: Event)
    requires WithinLimits(db.ledger) && OneUsage(db)
    ensures WithinLimits(Step(db, e).ledger)
            <==> !Overuses(db, e)
  {
    match e
    case Webhook(b, n, seqid, x, now) => WebhookKeepsLimits(db, b, n, seqid, x, now);
    case Poll(b, n, seqid, x, now) => PollKeepsLimits(db, b, n, seqid, x, now);
    case Create(_) => QuietBooks(db, e);
    case Expire(_, _) => QuietBooks(db, e);
    case Retry(_, _, _) => QuietBooks(db, e);
    case Direct(_, _, _, _, _) => QuietBooks(db, e);
    case Refresh(_, _, _) => QuietBooks(db, e);
    case People(_) => QuietBooks(db, e);
  }

  // ----- Runs -----

  /** No step changes an order's usages, and a new order has at most one. */
  lemma StepKeepsOneUsage(db: Db, e: Event)
    requires OneUsage(db)
    ensures OneUsage(Step(db, e))
  {
    if !e.Create? {
      StepFrame(db, e);
    }
  }

  lemma {:induction false} RunKeepsOneUsage(db: Db, events: seq<Event>)
    requires OneUsage(db)
    ensures OneUsage(Run(db, events))
  {
    if |events| == 0 {
    } else {
      RunKeepsOneUsage(db, events[..|events| - 1]);
      StepKeepsOneUsage(Run(db, events[..|events| - 1]), events[|events| - 1]);
    }
  }

  ghost predicate LimitsThroughout(db: Db, events: seq<Event>) {
    WithinLimits(Run(db, events).ledger) && (|events| == 0 || LimitsThroughout(db, events[..|events| - 1]))
  }

  predicate NeverOveruses(db: Db, events: seq<Event>) {
    |events| == 0
    || (NeverOveruses(db, events[..|events| - 1])
        && !Overuses(Run(db, events[..|events| - 1]), events[|events| - 1]))
  }

  lemma NotThroughoutLimits(db: Db, events: seq<Event>)
    requires LimitsThroughout(db, events)
    ensures WithinLimits(Run(db, events).ledger)
  {
  }

  /** Every coupon stays within its limit throughout a run if and only if no step of it
      delivers an order whose coupon has no use left. */
  lemma {:induction false} LimitsKeptUnlessOverused(db: Db, events: seq<Event>)
    requires Initial(db)
    ensures LimitsThroughout(db, events) <==> NeverOveruses(db, events)
  {
    if |events| == 0 {
    } else {
      var before, last := events[..|events| - 1], events[|events| - 1];
      LimitsKeptUnlessOverused(db, before);
      if LimitsThroughout(db, before) {
        NotThroughoutLimits(db, before);
        RunKeepsOneUsage(db, before);
        LimitStep(Run(db, before), last);
      }
    }
  }

  // ----- The limit is exceeded -----

  function LimitedStart(): Db {
    var terms := Terms("C", "s", "i", true, false, None, None, None, Some(1), None, false, false);
    Start().(ledger := Ledger([Coupon(terms, 0, 0)], [], []))
  }
  function BuyAs(number: string, braviveId: string): Event {
    Create(Request(number, "s", "u", "b", "p", 100, 1000, 1000, "C", braviveId, 0))
  }
  function Pay(braviveId: string): Event { Webhook(braviveId, Approved, "seq", YES, 1) }

  /** Two orders with the same coupon, the first k of them delivered. */
  ghost predicate TwoOrders(db: Db, k: nat) {
    && |db.orders| == 2 && db.orders[0].number == "N1" && db.orders[1].number == "N2"
    && db.orders[0].braviveId == "p1" && db.orders[1].braviveId == "p2"
    && (forall i | 0 <= i < 2 ::
          Dispatchable(db.orders[i]) && db.orders[i].usages == [0]
          && (i >= k ==> db.orders[i].payment == PaymentPending && !Q.Used(db.queue.rows, db.orders[i].number)))
    && |db.ledger.coupons| == 1 && db.ledger.coupons[0].timesUsed == k
    && db.ledger.coupons[0].terms == LimitedStart().ledger.coupons[0].terms
  }

  lemma NextBought(db: Db, number: string, braviveId: string)
    requires db.ledger == LimitedStart().ledger && !NumberTaken(db.orders, number)
    ensures var db' := Step(db, BuyAs(number, braviveId));
      && db' == db.(orders := db'.orders) && |db'.orders| == |db.orders| + 1 && db'.orders[..|db.orders|] == db.orders
      && BoughtAs(db'.orders[|db.orders|], number, braviveId)
  {
    assert FindCoupon(LimitedStart().ledger.coupons, "C", "s") == 0;
  }

  predicate BoughtAs(o: Order, number: string, braviveId: string) {
    o.number == number && o.braviveId == braviveId && o.usages == [0] && o.payment == PaymentPending && Dispatchable(o)
  }

  lemma TwoBought(db: Db)
    requires |db.orders| == 2 && BoughtAs(db.orders[0], "N1", "p1") && BoughtAs(db.orders[1], "N2", "p2")
    requires db.ledger == LimitedStart().ledger && db.queue == Q.EMPTY
    ensures TwoOrders(db, 0)
  {
  }

  lemma BothBought()
    ensures TwoOrders(Step(Step(LimitedStart(), BuyAs("N1", "p1")), BuyAs("N2", "p2")), 0)
  {
    NextBought(LimitedStart(), "N1", "p1");
    var db := Step(LimitedStart(), BuyAs("N1", "p1"));
    assert "N1"[1] != "N2"[1];
    NextBought(db, "N2", "p2");
    var db' := Step(db, BuyAs("N2", "p2"));
    assert db'.orders[0] == db'.orders[..1][0];
    TwoBought(db');
  }

  lemma ConfirmCounts(l: Ledger, id: OrderId, o: Order, month: nat)
    requires o.usages == [0] && |l.coupons| > 0
    ensures var l' := Confirm(l, id, o, month);
      |l'.coupons| == |l.coupons| && l'.coupons[0] == Count(l.coupons[0], 1, o.price)
  {
    OneConfirm(l, id, o, month);
  }

  lemma PayReaches(db: Db, k: nat)
    requires k < 2 && TwoOrders(db, k)
    ensures Step(db, Pay(if k == 0 then "p1" else "p2")) == HandleApproved(db, k, "seq", YES, 1)
  {
    FindsOrder(db.orders, k);
  }

  lemma ApprovedOthers(db: Db, id: OrderId, seqid: NonEmpty, x: Answer, now: nat)
    requires Known(db, id)
    ensures var orders' := HandleApproved(db, id, seqid, x, now).orders;
      |orders'| == |db.orders| && SameOrder(db.orders[id], orders'[id])
      && forall i | 0 <= i < |db.orders| && i != id :: orders'[i] == db.orders[i]
  {
  }

  lemma PaidNext(db: Db, k: nat)
    requires k < 2 && TwoOrders(db, k)
    ensures TwoOrders(HandleApproved(db, k, "seq", YES, 1), k + 1)
  {
    ApprovedOthers(db, k, "seq", YES, 1);
    ApprovedBooks(db, k, "seq", YES, 1);
    ConfirmCounts(db.ledger, k,
      db.orders[k].(payment := PaymentApproved, status := Completed, recharge := RechargeApproved), MonthOf(1));
    if k == 0 {
      assert "N1"[1] != "N2"[1];
      NumbersStayFree(db, 0, "seq", YES, 1, "N2");
    }
  }

  lemma PaysNext(db: Db, k: nat)
    requires k < 2 && TwoOrders(db, k)
    ensures TwoOrders(Step(db, Pay(if k == 0 then "p1" else "p2")), k + 1)
  {
    PayReaches(db, k);
    PaidNext(db, k);
  }

  lemma FindsOrder(orders: seq<Order>, k: nat)
    requires k < 2 && |orders| == 2 && orders[0].braviveId == "p1" && orders[1].braviveId == "p2"
    ensures FindPayment(orders, if k == 0 then "p1" else "p2") == k
  {
    assert "p1"[1] != "p2"[1];
    assert FindPayment(orders[1..], "p2") == 0;
  }

  lemma NumbersStayFree(db: Db, id: OrderId, seqid: NonEmpty, x: Answer, now: nat, number: string)
    requires Known(db, id) && number != db.orders[id].number && !Q.Used(db.queue.rows, number)
    ensures !Q.Used(HandleApproved(db, id, seqid, x, now).queue.rows, number)
  {
  }

  lemma PaidTwice(db0: Db, first: Event, second: Event)
    requires TwoOrders(Step(Step(db0, first), second), 0)
    ensures TwoOrders(Run(db0, [first] + [second] + [Pay("p1")] + [Pay("p2")]), 2)
  {
    var db := Step(Step(db0, first), second);
    PaysNext(db, 0);
    PaysNext(Step(db, Pay("p1")), 1);
    FourSteps(db0, first, second, Pay("p1"), Pay("p2"));
  }

  /** Two orders validated while the coupon was unused are both delivered and confirmed:
      a coupon for a single use has been used twice. */
  lemma LimitIsExceeded()
    ensures Initial(LimitedStart())
    ensures var l := Run(LimitedStart(), [BuyAs("N1", "p1")] + [BuyAs("N2", "p2")] + [Pay("p1")] + [Pay("p2")]).ledger;
      |l.coupons| == 1 && l.coupons[0].terms.maxUses == Some(1) && l.coupons[0].timesUsed == 2
  {
    BothBought();
    PaidTwice(LimitedStart(), BuyAs("N1", "p1"), BuyAs("N2", "p2"));
  }
}
