/** order.service.ts: creation, the coupon loops over usages, and the set update of the
    expiry sweep. */
module OrderServices {
  import opened Options
  import opened Schema
  import opened Calendar
  import opened Expiry
  import opened CouponLedger
  import opened Engine
  import opened Storage

  class OrderService {
    const db: Database

    constructor (db: Database)
      ensures this.db == db
    {
      this.db := db;
    }

    /** False when the update throws, which is on a negative amount for a missing row. */
    method UpdateInfluencerMonthlySales(influencer: Id, saleAmount: int, month: nat) returns (ok: bool)
      modifies db`influencerMonthlySales
      ensures match UpdateMonth(old(db.influencerMonthlySales), influencer, saleAmount, month)
              case None => !ok && db.influencerMonthlySales == old(db.influencerMonthlySales)
              case Some(months) => ok && db.influencerMonthlySales == months
    {
      var i := FindMonth(db.influencerMonthlySales, influencer, month);
      if i < |db.influencerMonthlySales| {
        var row := db.influencerMonthlySales[i];
        if saleAmount >= 0 {
          row := row.(total := row.total + saleAmount);
        } else {
          row := row.(total := row.total - (-saleAmount));
        }
        db.influencerMonthlySales := db.influencerMonthlySales[i := row];
      } else {
        if saleAmount < 0 {
          return false;
        }
        db.influencerMonthlySales := db.influencerMonthlySales + [InfluencerMonth(influencer, month, saleAmount)];
      }
      ok := true;
    }

    /** Runs in one transaction: an error restores the tables. */
    method ConfirmCouponUsage(id: OrderId, now: nat)
      modifies db`coupons, db`influencerMonthlySales, db`journal
      ensures db.Books() == if id < |db.orders| then Confirm(old(db.Books()), id, db.orders[id], MonthOf(now))
                            else old(db.Books())
    {
      if id >= |db.orders| || |db.orders[id].usages| == 0 { return; }
      var order := db.orders[id];
      var coupons, months, journal := db.coupons, db.influencerMonthlySales, db.journal;
      ghost var start := db.Books();
      var month := MonthOf(now);
      var k := 0;
      while k < |order.usages|
        invariant k <= |order.usages|
        invariant ConfirmFrom(db.Books(), id, order, k, month) == ConfirmFrom(start, id, order, 0, month)
      {
        var c := order.usages[k];
        if c >= |db.coupons| {
          db.coupons, db.influencerMonthlySales, db.journal := coupons, months, journal;
          return;
        }
        var coupon := db.coupons[c];
        ghost var before := db.Books();
        ghost var p := PostingOf(Confirmed, before, id, order, k);
        db.coupons := db.coupons[c := Count(coupon, 1, order.price)];
        var ok := UpdateInfluencerMonthlySales(coupon.terms.influencer, order.price, month);
        if !ok {
          db.coupons, db.influencerMonthlySales, db.journal := coupons, months, journal;
          return;
        }
        db.journal := db.journal + [Posting(Confirmed, id, c, coupon.terms.influencer, order.price)];
        assert db.Books() == Post(before, p, MonthsAfter(before, p, month).value);
        k := k + 1;
      }
    }

    /** Runs inside the caller's transaction and swallows its own error, so whatever was
        written before the error stays. */
    method RevertCouponUsage(id: OrderId)
      modifies db`coupons, db`influencerMonthlySales, db`journal
      ensures db.Books() ==
        if id < |db.orders| then Revert(old(db.Books()), id, db.orders[id], MonthOf(db.orders[id].createdAt))
        else old(db.Books())
    {
      if id >= |db.orders| { return; }
      var order := db.orders[id];
      var month := MonthOf(order.createdAt);
      ghost var start := db.Books();
      var k := 0;
      while k < |order.usages|
        invariant k <= |order.usages|
        invariant RevertFrom(db.Books(), id, order, k, month) == RevertFrom(start, id, order, 0, month)
      {
        var c := order.usages[k];
        if c >= |db.coupons| { return; }
        var coupon := db.coupons[c];
        var amount: int := order.price;
        ghost var before := db.Books();
        ghost var p := PostingOf(Reverted, before, id, order, k);
        db.coupons := db.coupons[c := Count(coupon, -1, -amount)];
        var ok := UpdateInfluencerMonthlySales(coupon.terms.influencer, -amount, month);
        var kind := if ok then Reverted else RevertedUnbooked;
        db.journal := db.journal + [Posting(kind, id, c, coupon.terms.influencer, order.price)];
        if !ok {
          assert db.Books() == Post(before, p.(kind := RevertedUnbooked), before.months);
          return;
        }
        assert db.Books() == Post(before, p, MonthsAfter(before, p, month).value);
        k := k + 1;
      }
    }

    method CheckAndExpireOrders(f: Filter, now: nat) returns (count: nat)
      modifies db`orders
      ensures db.orders == Sweep(old(db.orders), f, now)
      ensures count == |set i | 0 <= i < |db.orders| && db.orders[i] != old(db.orders)[i]|
    {
      var found := set i | 0 <= i < |db.orders| && Selects(f, i, db.orders[i]) && Overdue(db.orders[i], now);
      ghost var before := db.orders;
      db.orders := Sweep(db.orders, f, now);
      count := |found|;
      assert found == set i | 0 <= i < |db.orders| && db.orders[i] != before[i];
    }

    /** None is any of the error answers, and then nothing is written. */
    method Create(q: Request) returns (id: Option<OrderId>)
      modifies db`orders
      ensures match NewOrder(old(db.orders), db.coupons, q)
              case None => id == None && db.orders == old(db.orders)
              case Some(o) => id == Some(|old(db.orders)|) && db.orders == old(db.orders) + [o]
    {
      var finalPrice := q.listPrice;
      var usages: seq<CouponId> := [];
      if q.coupon != "" {
        var quote := ValidateCoupon(db.orders, db.coupons, q.coupon, q.listPrice, q.store, q.user, q.bigoId, q.now);
        if quote.Declined? {
          return None;
        }
        finalPrice := quote.final;
        usages := [quote.coupon];
      }
      if Distance(finalPrice, q.offered) > 1 {
        return None;
      }
      if NumberTaken(db.orders, q.number) {
        return None;
      }
      id := Some(|db.orders|);
      db.orders := db.orders + [Order(
        q.number, q.store, q.user, q.now, finalPrice, q.listPrice, q.product, q.bigoId, q.credits,
        usages, q.braviveId, Created, PaymentPending, RechargePending)];
    }
  }
}
