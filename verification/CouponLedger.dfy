/** The coupon counters and the influencers' monthly totals. */
module CouponLedger {
  import opened Options
  import opened Schema
  import opened Sums

  datatype InfluencerMonth = InfluencerMonth(influencer: Id, month: nat, total: int)

  // History: one posting for each coupon usage that was confirmed or reverted. A revert
  // is unbooked when the influencer had no row for the month.
  datatype Kind = Confirmed | Reverted | RevertedUnbooked
  datatype Posting = Posting(kind: Kind, order: OrderId, coupon: CouponId, influencer: Id, amount: nat)

  datatype Ledger = Ledger(coupons: seq<Coupon>, months: seq<InfluencerMonth>, journal: seq<Posting>)

  /** The first row of the influencer for the month, or the table size. */
  function FindMonth(months: seq<InfluencerMonth>, influencer: Id, month: nat): (i: nat)
    ensures i <= |months|
    ensures i < |months| ==> months[i].influencer == influencer && months[i].month == month
    ensures forall j | 0 <= j < i :: !(months[j].influencer == influencer && months[j].month == month)
  {
    if |months| == 0 then 0
    else if months[0].influencer == influencer && months[0].month == month then 0
    else 1 + FindMonth(months[1..], influencer, month)
  }

  /** updateInfluencerMonthlySales; None is the error for a missing month. */
  function UpdateMonth(months: seq<InfluencerMonth>, influencer: Id, amount: int, month: nat)
    : Option<seq<InfluencerMonth>>
  {
    var i := FindMonth(months, influencer, month);
    if i < |months| then Some(months[i := months[i].(total := months[i].total + amount)])
    else if amount < 0 then None
    else Some(months + [InfluencerMonth(influencer, month, amount)])
  }

  function Count(c: Coupon, uses: int, amount: int): Coupon {
    c.(timesUsed := c.timesUsed + uses, totalSales := c.totalSales + amount)
  }

  // ----- Postings -----

  function Sign(p: Posting): int { if p.kind == Confirmed then 1 else -1 }
  function Signed(p: Posting): int { if p.kind == Confirmed then p.amount else -(p.amount as int) }

  /** Usage k of the order is of a known coupon. */
  predicate KnownUsage(l: Ledger, o: Order, k: nat) { k < |o.usages| && o.usages[k] < |l.coupons| }

  function PostingOf(kind: Kind, l: Ledger, id: OrderId, o: Order, k: nat): Posting
    requires KnownUsage(l, o, k)
  {
    Posting(kind, id, o.usages[k], l.coupons[o.usages[k]].terms.influencer, o.price)
  }

  /** The coupon row moves by the posting, the month rows are as given. */
  function Post(l: Ledger, p: Posting, months: seq<InfluencerMonth>): Ledger
    requires p.coupon < |l.coupons|
  {
    Ledger(l.coupons[p.coupon := Count(l.coupons[p.coupon], Sign(p), Signed(p))], months, l.journal + [p])
  }

  /** The month rows after a posting; None is the error for a missing month. */
  function MonthsAfter(l: Ledger, p: Posting, month: nat): Option<seq<InfluencerMonth>> {
    UpdateMonth(l.months, p.influencer, Signed(p), month)
  }

  /** The confirming loop from usage k on; None rolls the transaction back. */
  function ConfirmFrom(l: Ledger, id: OrderId, o: Order, k: nat, month: nat): Option<Ledger>
    requires k <= |o.usages|
    decreases |o.usages| - k
  {
    if k == |o.usages| then Some(l)
    else if !KnownUsage(l, o, k) then None
    else
      var p := PostingOf(Confirmed, l, id, o, k);
      match MonthsAfter(l, p, month)
      case None => None
      case Some(months) => ConfirmFrom(Post(l, p, months), id, o, k + 1, month)
  }

  function Confirm(l: Ledger, id: OrderId, o: Order, month: nat): Ledger {
    match ConfirmFrom(l, id, o, 0, month) case Some(l') => l' case None => l
  }

  /** The reverting loop from usage k on. An error ends it and is swallowed, and the
      surrounding transaction keeps what was already written. */
  function RevertFrom(l: Ledger, id: OrderId, o: Order, k: nat, month: nat): Ledger
    requires k <= |o.usages|
    decreases |o.usages| - k
  {
    if !KnownUsage(l, o, k) then l
    else
      var p := PostingOf(Reverted, l, id, o, k);
      match MonthsAfter(l, p, month)
      case None => Post(l, p.(kind := RevertedUnbooked), l.months)
      case Some(months) => RevertFrom(Post(l, p, months), id, o, k + 1, month)
  }

  function Revert(l: Ledger, id: OrderId, o: Order, month: nat): Ledger {
    RevertFrom(l, id, o, 0, month)
  }

  /** An order has at most one usage: both loops make one turn. */
  lemma OneConfirm(l: Ledger, id: OrderId, o: Order, month: nat)
    requires |o.usages| == 1 && KnownUsage(l, o, 0)
    ensures var p := PostingOf(Confirmed, l, id, o, 0);
      MonthsAfter(l, p, month).Some? && Confirm(l, id, o, month) == Post(l, p, MonthsAfter(l, p, month).value)
  {
    var p := PostingOf(Confirmed, l, id, o, 0);
    var l' := Post(l, p, MonthsAfter(l, p, month).value);
    assert ConfirmFrom(l, id, o, 0, month) == ConfirmFrom(l', id, o, 1, month);
  }

  lemma OneRevert(l: Ledger, id: OrderId, o: Order, month: nat)
    requires |o.usages| == 1 && KnownUsage(l, o, 0)
    ensures var p := PostingOf(Reverted, l, id, o, 0);
      Revert(l, id, o, month)
      == match MonthsAfter(l, p, month)
         case None => Post(l, p.(kind := RevertedUnbooked), l.months)
         case Some(months) => Post(l, p, months)
  {
    var p := PostingOf(Reverted, l, id, o, 0);
    if MonthsAfter(l, p, month).Some? {
      var l' := Post(l, p, MonthsAfter(l, p, month).value);
      assert Revert(l, id, o, month) == RevertFrom(l', id, o, 1, month) == l';
    }
  }

  // ----- Columns -----

  function SalesOwnedBy(who: Id): Coupon -> int {
    (c: Coupon) => if c.terms.influencer == who then c.totalSales else 0
  }
  function RowsOf(who: Id): InfluencerMonth -> int {
    (m: InfluencerMonth) => if m.influencer == who then m.total else 0
  }
  function UsesOf(c: CouponId): Posting -> int { (p: Posting) => if p.coupon == c then Sign(p) else 0 }
  function AmountOf(c: CouponId): Posting -> int {
    (p: Posting) => if p.coupon == c then Signed(p) else 0
  }
  function UnbookedOf(who: Id): Posting -> int {
    (p: Posting) => if p.kind == RevertedUnbooked && p.influencer == who then p.amount else 0
  }

  /** Coupon totals of an influencer less the influencer's monthly rows. */
  function Drift(l: Ledger, who: Id): int { Sum(l.coupons, SalesOwnedBy(who)) - Sum(l.months, RowsOf(who)) }

  /** Each coupon's counters are the signed sums of its postings, and an influencer's
      books differ by exactly the reverts that found no month row. */
  ghost predicate Balanced(l: Ledger) {
    && (forall c | 0 <= c < |l.coupons| ::
          l.coupons[c].timesUsed == Sum(l.journal, UsesOf(c))
          && l.coupons[c].totalSales == Sum(l.journal, AmountOf(c)))
    && (forall who :: Drift(l, who) == -Sum(l.journal, UnbookedOf(who)))
  }

  // ----- What confirm and revert keep -----

  lemma MonthSum(months: seq<InfluencerMonth>, influencer: Id, amount: int, month: nat, who: Id)
    requires UpdateMonth(months, influencer, amount, month).Some?
    ensures Sum(UpdateMonth(months, influencer, amount, month).value, RowsOf(who))
            == Sum(months, RowsOf(who)) + (if who == influencer then amount else 0)
  {
    var i := FindMonth(months, influencer, month);
    if i < |months| {
      SumUpdate(months, i, months[i].(total := months[i].total + amount), RowsOf(who));
    } else {
      SumAppend(months, InfluencerMonth(influencer, month, amount), RowsOf(who));
    }
  }

  /** One posting: the coupon moves by the signed amount and the month rows by the same
      amount unless the posting is unbooked. */
  lemma PostingKeepsBalance(l: Ledger, p: Posting, months: seq<InfluencerMonth>)
    requires Balanced(l) && p.coupon < |l.coupons|
    requires p.influencer == l.coupons[p.coupon].terms.influencer
    requires forall who :: Sum(months, RowsOf(who)) == Sum(l.months, RowsOf(who))
               + (if who == p.influencer && p.kind != RevertedUnbooked then Signed(p) else 0)
    ensures Balanced(Post(l, p, months))
  {
    var l' := Post(l, p, months);
    forall c | 0 <= c < |l'.coupons|
      ensures l'.coupons[c].timesUsed == Sum(l'.journal, UsesOf(c))
              && l'.coupons[c].totalSales == Sum(l'.journal, AmountOf(c))
    {
      SumAppend(l.journal, p, UsesOf(c));
      SumAppend(l.journal, p, AmountOf(c));
    }
    forall who ensures Drift(l', who) == -Sum(l'.journal, UnbookedOf(who)) {
      assert Drift(l, who) == -Sum(l.journal, UnbookedOf(who));
      SumUpdate(l.coupons, p.coupon, Count(l.coupons[p.coupon], Sign(p), Signed(p)), SalesOwnedBy(who));
      SumAppend(l.journal, p, UnbookedOf(who));
    }
  }

  /** A posting that finds or creates its month row. */
  lemma BookedKeepsBalance(l: Ledger, p: Posting, month: nat)
    requires Balanced(l) && p.coupon < |l.coupons| && p.kind != RevertedUnbooked
    requires p.influencer == l.coupons[p.coupon].terms.influencer && MonthsAfter(l, p, month).Some?
    ensures Balanced(Post(l, p, MonthsAfter(l, p, month).value))
  {
    forall who { MonthSum(l.months, p.influencer, Signed(p), month, who); }
    PostingKeepsBalance(l, p, MonthsAfter(l, p, month).value);
  }

  lemma {:induction false} ConfirmKeepsBalance(l: Ledger, id: OrderId, o: Order, k: nat, month: nat)
    requires Balanced(l) && k <= |o.usages|
    ensures ConfirmFrom(l, id, o, k, month).Some? ==> Balanced(ConfirmFrom(l, id, o, k, month).value)
    decreases |o.usages| - k
  {
    if !KnownUsage(l, o, k) {
    } else {
      var p := PostingOf(Confirmed, l, id, o, k);
      if MonthsAfter(l, p, month).Some? {
        BookedKeepsBalance(l, p, month);
        ConfirmKeepsBalance(Post(l, p, MonthsAfter(l, p, month).value), id, o, k + 1, month);
      }
    }
  }

  lemma {:induction false} RevertKeepsBalance(l: Ledger, id: OrderId, o: Order, k: nat, month: nat)
    requires Balanced(l) && k <= |o.usages|
    ensures Balanced(RevertFrom(l, id, o, k, month))
    decreases |o.usages| - k
  {
    if KnownUsage(l, o, k) {
      var p := PostingOf(Reverted, l, id, o, k);
      if MonthsAfter(l, p, month).Some? {
        BookedKeepsBalance(l, p, month);
        RevertKeepsBalance(Post(l, p, MonthsAfter(l, p, month).value), id, o, k + 1, month);
      } else {
        PostingKeepsBalance(l, p.(kind := RevertedUnbooked), l.months);
      }
    }
  }

  // ----- When a revert makes the books drift -----

  /** A revert will move the coupon's sales of an influencer without a month row to take
      them from. */
  predicate Uncovered(l: Ledger, o: Order, month: nat, who: Id) {
    && KnownUsage(l, o, 0) && o.price > 0
    && l.coupons[o.usages[0]].terms.influencer == who
    && FindMonth(l.months, who, month) == |l.months|
  }

  lemma PostingMovesDrift(l: Ledger, p: Posting, months: seq<InfluencerMonth>, who: Id)
    requires p.coupon < |l.coupons| && p.influencer == l.coupons[p.coupon].terms.influencer
    ensures Drift(Post(l, p, months), who)
            == Drift(l, who) + (if p.influencer == who then Signed(p) else 0)
               - (Sum(months, RowsOf(who)) - Sum(l.months, RowsOf(who)))
  {
    SumUpdate(l.coupons, p.coupon, Count(l.coupons[p.coupon], Sign(p), Signed(p)), SalesOwnedBy(who));
  }

  /** A revert leaves an influencer's books as far apart as they were if and only if it is
      not of a positive amount of the influencer in a month without a row; it then takes
      the whole amount off the coupon side alone. */
  lemma RevertDrift(l: Ledger, id: OrderId, o: Order, month: nat, who: Id)
    requires |o.usages| <= 1
    ensures Drift(Revert(l, id, o, month), who)
            == Drift(l, who) - (if Uncovered(l, o, month, who) then o.price else 0)
  {
    if KnownUsage(l, o, 0) {
      var p := PostingOf(Reverted, l, id, o, 0);
      OneRevert(l, id, o, month);
      if MonthsAfter(l, p, month).Some? {
        MonthSum(l.months, p.influencer, Signed(p), month, who);
        PostingMovesDrift(l, p, MonthsAfter(l, p, month).value, who);
      } else {
        PostingMovesDrift(l, p.(kind := RevertedUnbooked), l.months, who);
      }
    }
  }

  /** A confirmation never moves the books apart. */
  lemma ConfirmDrift(l: Ledger, id: OrderId, o: Order, month: nat, who: Id)
    requires |o.usages| <= 1
    ensures Drift(Confirm(l, id, o, month), who) == Drift(l, who)
  {
    if KnownUsage(l, o, 0) {
      var p := PostingOf(Confirmed, l, id, o, 0);
      OneConfirm(l, id, o, month);
      MonthSum(l.months, p.influencer, Signed(p), month, who);
      PostingMovesDrift(l, p, MonthsAfter(l, p, month).value, who);
    }
  }

  // ----- What is appended, and what stays -----

  /** Only postings of the given order, at the given price, have been appended. */
  ghost predicate Appends(journal: seq<Posting>, journal': seq<Posting>, id: OrderId, price: nat) {
    && |journal| <= |journal'|
    && (forall k | 0 <= k < |journal| :: journal'[k] == journal[k])
    && (forall k | |journal| <= k < |journal'| :: journal'[k].order == id && journal'[k].amount == price)
  }

  lemma {:induction false} ConfirmAppends(l: Ledger, id: OrderId, o: Order, k: nat, month: nat)
    requires k <= |o.usages|
    ensures ConfirmFrom(l, id, o, k, month).Some? ==>
      Appends(l.journal, ConfirmFrom(l, id, o, k, month).value.journal, id, o.price)
    decreases |o.usages| - k
  {
    if !KnownUsage(l, o, k) {
    } else {
      var p := PostingOf(Confirmed, l, id, o, k);
      var months := MonthsAfter(l, p, month);
      if months.Some? {
        ConfirmAppends(Post(l, p, months.value), id, o, k + 1, month);
      }
    }
  }

  /** A revert appends something exactly when the order has a coupon usage on record. */
  lemma {:induction false} RevertAppends(l: Ledger, id: OrderId, o: Order, k: nat, month: nat)
    requires k <= |o.usages|
    ensures Appends(l.journal, RevertFrom(l, id, o, k, month).journal, id, o.price)
    ensures KnownUsage(l, o, k) <==> RevertFrom(l, id, o, k, month) != l
    decreases |o.usages| - k
  {
    if KnownUsage(l, o, k) {
      var p := PostingOf(Reverted, l, id, o, k);
      var months := MonthsAfter(l, p, month);
      if months.Some? {
        RevertAppends(Post(l, p, months.value), id, o, k + 1, month);
      } else {
        assert |RevertFrom(l, id, o, k, month).journal| == |l.journal| + 1;
      }
    }
  }

  /** The coupons keep their places and their terms. */
  ghost predicate SameTerms(l: Ledger, l': Ledger) {
    |l.coupons| == |l'.coupons| && forall c | 0 <= c < |l.coupons| :: l'.coupons[c].terms == l.coupons[c].terms
  }

  lemma {:induction false} ConfirmKeepsTerms(l: Ledger, id: OrderId, o: Order, k: nat, month: nat)
    requires k <= |o.usages|
    ensures ConfirmFrom(l, id, o, k, month).Some? ==> SameTerms(l, ConfirmFrom(l, id, o, k, month).value)
    decreases |o.usages| - k
  {
    if !KnownUsage(l, o, k) {
    } else {
      var p := PostingOf(Confirmed, l, id, o, k);
      var months := MonthsAfter(l, p, month);
      if months.Some? {
        ConfirmKeepsTerms(Post(l, p, months.value), id, o, k + 1, month);
      }
    }
  }

  lemma {:induction false} RevertKeepsTerms(l: Ledger, id: OrderId, o: Order, k: nat, month: nat)
    requires k <= |o.usages|
    ensures SameTerms(l, RevertFrom(l, id, o, k, month))
    decreases |o.usages| - k
  {
    if !KnownUsage(l, o, k) {
    } else {
      var p := PostingOf(Reverted, l, id, o, k);
      var months := MonthsAfter(l, p, month);
      if months.Some? {
        RevertKeepsTerms(Post(l, p, months.value), id, o, k + 1, month);
      }
    }
  }

  // ----- The counters, order by order -----

  function ConfirmsOf(id: OrderId, c: CouponId): Posting -> int {
    (p: Posting) => if p.order == id && p.coupon == c && p.kind == Confirmed then 1 else 0
  }
  function RevertsOf(id: OrderId, c: CouponId): Posting -> int {
    (p: Posting) => if p.order == id && p.coupon == c && p.kind != Confirmed then 1 else 0
  }

  /** Confirmed and not reverted. */
  predicate Stands(journal: seq<Posting>, id: OrderId, c: CouponId) {
    Sum(journal, ConfirmsOf(id, c)) == 1 && Sum(journal, RevertsOf(id, c)) == 0
  }

  function NetOf(journal: seq<Posting>, c: CouponId): int -> int {
    id => if id < 0 then 0 else Sum(journal, ConfirmsOf(id, c)) - Sum(journal, RevertsOf(id, c))
  }
  function AmountOfOrder(id: OrderId, c: CouponId): Posting -> int {
    (p: Posting) => if p.order == id && p.coupon == c then Signed(p) else 0
  }
  function NetSales(journal: seq<Posting>, c: CouponId): int -> int {
    id => if id < 0 then 0 else Sum(journal, AmountOfOrder(id, c))
  }
  function StandingOf(journal: seq<Posting>, c: CouponId): int -> int {
    id => if id >= 0 && Stands(journal, id, c) then 1 else 0
  }
  function StandingSales(journal: seq<Posting>, c: CouponId, orders: seq<Order>): int -> int {
    id => if 0 <= id < |orders| && Stands(journal, id, c) then orders[id].price else 0
  }

  /** Every posting is about a known order, at that order's price. */
  ghost predicate AtOrderPrices(journal: seq<Posting>, orders: seq<Order>) {
    forall i | 0 <= i < |journal| ::
      journal[i].order < |orders| && journal[i].amount == orders[journal[i].order].price
  }

  lemma {:induction false} CountUsesByOrder(journal: seq<Posting>, c: CouponId, orders: seq<Order>)
    requires AtOrderPrices(journal, orders)
    ensures Sum(journal, UsesOf(c)) == SumRange(0, |orders|, NetOf(journal, c))
  {
    if |journal| == 0 {
      RangeZero(0, |orders|, NetOf(journal, c));
    } else {
      var rest, p := journal[..|journal| - 1], journal[|journal| - 1];
      CountUsesByOrder(rest, c, orders);
      RangeBump(0, |orders|, NetOf(rest, c), NetOf(journal, c), p.order);
    }
  }

  lemma {:induction false} CountSalesByOrder(journal: seq<Posting>, c: CouponId, orders: seq<Order>)
    requires AtOrderPrices(journal, orders)
    ensures Sum(journal, AmountOf(c)) == SumRange(0, |orders|, NetSales(journal, c))
  {
    if |journal| == 0 {
      RangeZero(0, |orders|, NetSales(journal, c));
    } else {
      var rest, p := journal[..|journal| - 1], journal[|journal| - 1];
      CountSalesByOrder(rest, c, orders);
      RangeBump(0, |orders|, NetSales(rest, c), NetSales(journal, c), p.order);
    }
  }

  lemma {:induction false} NetSalesAtPrice(journal: seq<Posting>, c: CouponId, orders: seq<Order>, id: nat)
    requires AtOrderPrices(journal, orders) && id < |orders|
    ensures NetSales(journal, c)(id) == NetOf(journal, c)(id) * orders[id].price
  {
    if |journal| > 0 {
      var rest, p := journal[..|journal| - 1], journal[|journal| - 1];
      NetSalesAtPrice(rest, c, orders, id);
      var moved := if p.order == id then UsesOf(c)(p) else 0;
      assert NetOf(journal, c)(id) == NetOf(rest, c)(id) + moved;
      OneMore(NetOf(rest, c)(id), moved, orders[id].price, NetOf(journal, c)(id));
    }
  }

  lemma OneMore(net: int, moved: int, price: nat, net': int)
    requires net' == net + moved && -1 <= moved <= 1
    ensures net' * price
            == net * price + (if moved == 1 then price as int else if moved == -1 then -(price as int) else 0)
  {
  }

  /** Confirms less reverts of each order, times its price. */
  function PricedNet(journal: seq<Posting>, c: CouponId, orders: seq<Order>): int -> int {
    id => if 0 <= id < |orders| then NetOf(journal, c)(id) * orders[id].price else 0
  }

  /** Counting a coupon's postings by order gives the same totals: confirms less reverts,
      and each order's share of the sales is that number of times its price. */
  lemma CountByOrder(journal: seq<Posting>, c: CouponId, orders: seq<Order>)
    requires AtOrderPrices(journal, orders)
    ensures Sum(journal, UsesOf(c)) == SumRange(0, |orders|, NetOf(journal, c))
    ensures Sum(journal, AmountOf(c)) == SumRange(0, |orders|, PricedNet(journal, c, orders))
  {
    CountUsesByOrder(journal, c, orders);
    CountSalesByOrder(journal, c, orders);
    forall id | 0 <= id < |orders| ensures NetSales(journal, c)(id) == PricedNet(journal, c, orders)(id) {
      NetSalesAtPrice(journal, c, orders, id);
    }
    RangeCongruent(0, |orders|, NetSales(journal, c), PricedNet(journal, c, orders));
  }

  /** Reverts of an order beyond its confirms. */
  function ExcessOf(journal: seq<Posting>, c: CouponId): int -> int {
    id =>
      if id < 0 then 0
      else
        var over := Sum(journal, RevertsOf(id, c)) - Sum(journal, ConfirmsOf(id, c));
        if over > 0 then over else 0
  }

  lemma NetIsStandingLessExcess(journal: seq<Posting>, c: CouponId, id: nat)
    requires Sum(journal, ConfirmsOf(id, c)) <= 1
    ensures NetOf(journal, c)(id) == StandingOf(journal, c)(id) - ExcessOf(journal, c)(id)
  {
    SumNonNegative(journal, ConfirmsOf(id, c));
    SumNonNegative(journal, RevertsOf(id, c));
  }

  lemma StandingAtPrice(journal: seq<Posting>, c: CouponId, orders: seq<Order>, id: nat)
    requires id < |orders|
    requires Sum(journal, RevertsOf(id, c)) <= Sum(journal, ConfirmsOf(id, c)) <= 1
    ensures PricedNet(journal, c, orders)(id) == StandingSales(journal, c, orders)(id)
  {
    NetIsStandingLessExcess(journal, c, id);
    assert NetOf(journal, c)(id) == 0 || NetOf(journal, c)(id) == 1;
  }

  ghost predicate EachConfirmedOnce(journal: seq<Posting>, c: CouponId, n: nat) {
    forall id | 0 <= id < n :: Sum(journal, ConfirmsOf(id, c)) <= 1
  }

  /** No order of the coupon was reverted more often than it was confirmed. */
  ghost predicate RevertsAreCovered(journal: seq<Posting>, c: CouponId, n: nat) {
    forall id | 0 <= id < n :: Sum(journal, RevertsOf(id, c)) <= Sum(journal, ConfirmsOf(id, c))
  }

  lemma UsesLessExcess(journal: seq<Posting>, c: CouponId, n: nat)
    requires EachConfirmedOnce(journal, c, n)
    ensures SumRange(0, n, NetOf(journal, c))
            == SumRange(0, n, StandingOf(journal, c)) - SumRange(0, n, ExcessOf(journal, c))
    ensures SumRange(0, n, StandingOf(journal, c)) >= 0 && SumRange(0, n, ExcessOf(journal, c)) >= 0
    ensures SumRange(0, n, ExcessOf(journal, c)) == 0 <==> RevertsAreCovered(journal, c, n)
  {
    forall id | 0 <= id < n
      ensures NetOf(journal, c)(id) == StandingOf(journal, c)(id) - ExcessOf(journal, c)(id)
    {
      NetIsStandingLessExcess(journal, c, id);
    }
    RangeSplit(0, n, StandingOf(journal, c), ExcessOf(journal, c), NetOf(journal, c));
    RangeNonNegative(0, n, StandingOf(journal, c));
    RangeNonNegative(0, n, ExcessOf(journal, c));
    if RevertsAreCovered(journal, c, n) {
      RangeZero(0, n, ExcessOf(journal, c));
    } else {
      var id :| 0 <= id < n && Sum(journal, RevertsOf(id, c)) > Sum(journal, ConfirmsOf(id, c));
      RangePositive(0, n, ExcessOf(journal, c), id);
    }
  }

  lemma CoveredSales(journal: seq<Posting>, c: CouponId, orders: seq<Order>)
    requires EachConfirmedOnce(journal, c, |orders|) && RevertsAreCovered(journal, c, |orders|)
    ensures SumRange(0, |orders|, PricedNet(journal, c, orders))
            == SumRange(0, |orders|, StandingSales(journal, c, orders)) >= 0
  {
    forall id | 0 <= id < |orders|
      ensures PricedNet(journal, c, orders)(id) == StandingSales(journal, c, orders)(id)
    {
      StandingAtPrice(journal, c, orders, id);
    }
    RangeCongruent(0, |orders|, PricedNet(journal, c, orders), StandingSales(journal, c, orders));
    RangeNonNegative(0, |orders|, StandingSales(journal, c, orders));
  }

  /** A coupon's use count and sales, as a sum over its orders. */
  ghost predicate CountsStanding(l: Ledger, c: CouponId, orders: seq<Order>)
    requires c < |l.coupons|
  {
    l.coupons[c].timesUsed == SumRange(0, |orders|, StandingOf(l.journal, c))
  }
  ghost predicate SalesOfStanding(l: Ledger, c: CouponId, orders: seq<Order>)
    requires c < |l.coupons|
  {
    l.coupons[c].totalSales == SumRange(0, |orders|, StandingSales(l.journal, c, orders))
  }

  /** A coupon has been used by exactly the orders that are confirmed and not reverted if
      and only if no order was reverted more often than confirmed. Then its sales are the
      sum of their prices, and neither counter is negative. */
  lemma {:induction false} CountersCountStandingOrders(l: Ledger, c: CouponId, orders: seq<Order>)
    requires Balanced(l) && c < |l.coupons| && AtOrderPrices(l.journal, orders)
    requires EachConfirmedOnce(l.journal, c, |orders|)
    ensures CountsStanding(l, c, orders) <==> RevertsAreCovered(l.journal, c, |orders|)
    ensures RevertsAreCovered(l.journal, c, |orders|) ==>
      SalesOfStanding(l, c, orders) && l.coupons[c].timesUsed >= 0 && l.coupons[c].totalSales >= 0
  {
    CountByOrder(l.journal, c, orders);
    UsesLessExcess(l.journal, c, |orders|);
    if RevertsAreCovered(l.journal, c, |orders|) { CoveredSales(l.journal, c, orders); }
  }
}
