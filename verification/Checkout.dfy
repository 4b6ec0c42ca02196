/** What a created order is: who asked for it, at which price, and with which coupon. The
    conditions are written out over the rows. */
module Checkout {
  import opened Options
  import opened Schema
  import opened Discount
  import opened Engine
  import opened CouponRules

  // ----- Coupons -----

  /** c is the first coupon of the store with the title that is not deleted. */
  ghost predicate IsCoupon(coupons: seq<Coupon>, title: string, store: Id, c: nat) {
    && c < |coupons| && Matches(coupons[c], title, store)
    && forall j | 0 <= j < c :: !Matches(coupons[j], title, store)
  }

  predicate Matches(c: Coupon, title: string, store: Id) {
    c.terms.title == title && c.terms.store == store && !c.terms.deleted
  }

  lemma {:induction false} CouponIsFound(coupons: seq<Coupon>, title: string, store: Id, c: nat)
    requires IsCoupon(coupons, title, store, c)
    ensures FindCoupon(coupons, title, store) == c
  {
    if c == 0 {
    } else {
      assert !Matches(coupons[0], title, store);
      CouponIsFound(coupons[1..], title, store, c - 1);
    }
  }

  lemma {:induction false} NoCouponIsFound(coupons: seq<Coupon>, title: string, store: Id)
    requires forall j | 0 <= j < |coupons| :: !Matches(coupons[j], title, store)
    ensures FindCoupon(coupons, title, store) == |coupons|
  {
    if |coupons| == 0 {
    } else {
      NoCouponIsFound(coupons[1..], title, store);
    }
  }

  /** An order that uses the coupon, is neither expired nor refunded, and is not rejected. */
  predicate Blocks(o: Order, c: CouponId) {
    && c in o.usages
    && (o.status.Created? || o.status.Processing? || o.status.Completed?)
    && (o.payment.PaymentPending? || o.payment.PaymentApproved?)
  }

  /** Why the coupon is refused, if it is; several reasons may hold at once. */
  ghost predicate Refuses(orders: seq<Order>, coupon: Coupon, c: CouponId, q: Request, why: Refusal) {
    var t := coupon.terms;
    match why
    case CouponNotFound => false
    case CouponInactive => !t.active
    case CouponExpired => t.expiresAt.Some? && t.expiresAt.value < q.now
    case LimitReached => t.maxUses.Some? && t.maxUses.value > 0 && coupon.timesUsed >= t.maxUses.value
    case BelowMinimum => t.minOrder.Some? && q.listPrice < t.minOrder.value
    case NotFirstPurchase =>
      t.firstPurchase && exists i | 0 <= i < |orders| ::
        orders[i].user == q.user && orders[i].store == q.store && orders[i].status != Expired
    case BigoIdRequired => t.oneTime && q.bigoId == ""
    case BigoIdUsed =>
      t.oneTime && exists i | 0 <= i < |orders| :: Blocks(orders[i], c) && orders[i].bigoId == q.bigoId
    case AccountUsed =>
      t.oneTime && exists i | 0 <= i < |orders| :: Blocks(orders[i], c) && orders[i].user == q.user
  }

  lemma BlocksWhenLive(o: Order, c: CouponId)
    ensures Blocks(o, c) <==> c in o.usages && Live(o)
  {
  }

  /** A coupon is accepted exactly when nothing refuses it, at the discounted price; a refusal
      names something that does refuse it. */
  lemma CouponDecision(orders: seq<Order>, coupons: seq<Coupon>, q: Request, c: nat)
    requires q.coupon != "" && IsCoupon(coupons, q.coupon, q.store, c)
    ensures var quote := QuoteFor(orders, coupons, q);
      && (quote.Quote? <==> forall why: Refusal :: !Refuses(orders, coupons[c], c, q, why))
      && (quote.Quote? ==> quote.coupon == c && quote.final == FinalAmount(coupons[c].terms, q.listPrice))
      && (quote.Declined? ==> Refuses(orders, coupons[c], c, q, quote.why))
  {
    CouponIsFound(coupons, q.coupon, q.store, c);
    forall i | 0 <= i < |orders| ensures Blocks(orders[i], c) <==> c in orders[i].usages && Live(orders[i]) {
      BlocksWhenLive(orders[i], c);
    }
    assert QuoteFor(orders, coupons, q).Declined? ==> Refuses(orders, coupons[c], c, q, QuoteFor(orders, coupons, q).why);
  }

  lemma UnknownCoupon(orders: seq<Order>, coupons: seq<Coupon>, q: Request)
    requires q.coupon != "" && forall j | 0 <= j < |coupons| :: !Matches(coupons[j], q.coupon, q.store)
    ensures QuoteFor(orders, coupons, q) == Declined(CouponNotFound)
  {
    NoCouponIsFound(coupons, q.coupon, q.store);
  }

  // ----- Orders -----

  /** The order is what the request asked for. */
  predicate AskedBy(o: Order, q: Request) {
    && o.number == q.number && o.store == q.store && o.user == q.user && o.createdAt == q.now
    && o.product == q.product && o.bigoId == q.bigoId && o.credits == q.credits && o.braviveId == q.braviveId
    && o.basePrice == q.listPrice && -1 <= o.price - q.offered <= 1
    && (q.coupon == "" ==> o.usages == [] && o.price == q.listPrice)
    && (q.coupon != "" ==> |o.usages| == 1)
  }

  /** The one usage is of the coupon the request named, and the price is its final amount. */
  predicate PricedBy(o: Order, q: Request, coupons: seq<Coupon>) {
    q.coupon != "" ==>
      && |o.usages| == 1 && o.usages[0] < |coupons|
      && Matches(coupons[o.usages[0]], q.coupon, q.store)
      && o.price == FinalAmount(coupons[o.usages[0]].terms, q.listPrice)
  }

  lemma CreatedAsAsked(orders: seq<Order>, coupons: seq<Coupon>, q: Request)
    requires NewOrder(orders, coupons, q).Some?
    ensures var o := NewOrder(orders, coupons, q).value;
      && AskedBy(o, q) && PricedBy(o, q, coupons)
      && o.status == Created && o.payment == PaymentPending && o.recharge == RechargePending
  {
  }

  /** A request becomes an order exactly when its coupon, if any, is accepted, the offered price
      is within a cent of the quoted one, and no order has its number yet. */
  lemma CreationDecision(orders: seq<Order>, coupons: seq<Coupon>, q: Request)
    ensures NewOrder(orders, coupons, q).Some?
            <==> var quote := QuoteFor(orders, coupons, q);
                 quote.Quote? && -1 <= quote.final - q.offered <= 1
                 && forall i | 0 <= i < |orders| :: orders[i].number != q.number
  {
  }

  lemma AskedStays(o: Order, o': Order, q: Request)
    requires AskedBy(o, q) && SameOrder(o, o')
    ensures AskedBy(o', q)
  {
  }

  /** Every order of every run was asked for by one of its requests, field by field. */
  lemma {:induction false} EveryOrderWasRequested(db: Db, events: seq<Event>, i: nat) returns (k: nat)
    requires Initial(db) && i < |Run(db, events).orders|
    ensures k < |events| && events[k].Create? && AskedBy(Run(db, events).orders[i], events[k].request)
  {
    var n := |events| - 1;
    var before := Run(db, events[..n]);
    if !events[n].Create? {
      StepFrame(before, events[n]);
    }
    if i < |before.orders| {
      k := EveryOrderWasRequested(db, events[..n], i);
      AskedStays(before.orders[i], Run(db, events).orders[i], events[k].request);
    } else {
      k := n;
      CreatedAsAsked(before.orders, before.ledger.coupons, events[n].request);
    }
  }
}
