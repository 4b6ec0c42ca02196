/** What the cached rows count, position by position in the order table: the orders of one
    store, by the day or month in which they were created. */
module MetricsMeaning {
  import opened Options
  import opened Schema
  import opened Sums
  import opened Calendar
  import opened Metrics
  import opened Expiry
  import opened BigoApi
  import opened Engine
  import opened Interleaving

  // ----- Counting positions -----

  /** A 0/1 column counts the positions it marks. */
  lemma {:induction false} MarksCount<T>(s: seq<T>, f: T -> int, marked: set<int>)
    requires forall i | 0 <= i < |s| :: f(s[i]) == if i in marked then 1 else 0
    requires forall i | i in marked :: 0 <= i < |s|
    ensures Sum(s, f) == |marked|
    decreases |s|
  {
    if |s| == 0 {
      assert forall i | i in marked :: i in {};
      assert marked <= {};
    } else {
      var last := |s| - 1;
      MarksCount(s[..last], f, marked - {last});
      if last in marked { assert marked == (marked - {last}) + {last}; } else { assert marked - {last} == marked; }
    }
  }

  function PriceAt(orders: seq<Order>, chosen: set<int>): int -> int {
    i => if 0 <= i < |orders| && i in chosen then orders[i].price else 0
  }

  /** The prices of the orders at the chosen positions, added up. */
  function PricesOf(orders: seq<Order>, chosen: set<int>): int { SumRange(0, |orders|, PriceAt(orders, chosen)) }

  lemma {:induction false} RangeIsSum<T>(s: seq<T>, f: T -> int, g: int -> int, n: nat)
    requires n <= |s| && forall i | 0 <= i < n :: g(i) == f(s[i])
    ensures SumRange(0, n, g) == Sum(s[..n], f)
    decreases n
  {
    if n == 0 {
    } else {
      RangeIsSum(s, f, g, n - 1);
      assert s[..n][..n - 1] == s[..n - 1];
    }
  }

  lemma PricesAddUp(orders: seq<Order>, f: Order -> int, chosen: set<int>)
    requires forall i | 0 <= i < |orders| :: f(orders[i]) == if i in chosen then orders[i].price else 0
    ensures PricesOf(orders, chosen) == Sum(orders, f)
    ensures Sum(orders, f) >= 0
  {
    RangeIsSum(orders, f, PriceAt(orders, chosen), |orders|);
    assert orders[..|orders|] == orders;
    forall x | x in orders ensures f(x) >= 0 {
      var i :| 0 <= i < |orders| && orders[i] == x;
      assert f(orders[i]) >= 0;
    }
    SumNonNegative(orders, f);
  }

  // ----- The orders of a store -----

  function CreatedOn(orders: seq<Order>, store: Id, day: nat): set<int> {
    set i | 0 <= i < |orders| && orders[i].store == store && DayOf(orders[i].createdAt) == day
  }
  function CreatedIn(orders: seq<Order>, store: Id, month: nat): set<int> {
    set i | 0 <= i < |orders| && orders[i].store == store && MonthOf(orders[i].createdAt) == month
  }
  function With(orders: seq<Order>, chosen: set<int>, status: OrderStatus): set<int> {
    set i | i in chosen && 0 <= i < |orders| && orders[i].status == status
  }

  lemma DayWindow(t: nat, day: nat)
    ensures day * DAY <= t < day * DAY + DAY <==> DayOf(t) == day
  {
  }

  lemma WithinDay(orders: seq<Order>, store: Id, day: nat, i: nat)
    requires i < |orders|
    ensures Within(orders[i], store, day * DAY, day * DAY + DAY) <==> i in CreatedOn(orders, store, day)
  {
    DayWindow(orders[i].createdAt, day);
  }

  lemma WithinMonth(orders: seq<Order>, store: Id, month: nat, i: nat)
    requires i < |orders|
    ensures Within(orders[i], store, MonthStart(month), MonthEnd(month) + 1) <==> i in CreatedIn(orders, store, month)
  {
    MonthWindow(orders[i].createdAt, month);
  }

  /** The day row counts the store's orders created on that day, and adds up the prices of
      the completed ones. */
  lemma DayRowCounts(orders: seq<Order>, store: Id, day: nat)
    ensures var row := DailyOf(orders, store, day);
      var ids := CreatedOn(orders, store, day);
      row.totalOrders == |ids| && row.totalSales == PricesOf(orders, With(orders, ids, Completed))
  {
    var lo, hi := day * DAY, day * DAY + DAY;
    var ids := CreatedOn(orders, store, day);
    forall i | 0 <= i < |orders|
      ensures OrdersIn(store, lo, hi)(orders[i]) == (if i in ids then 1 else 0)
      ensures SalesIn(store, lo, hi)(orders[i]) == (if i in With(orders, ids, Completed) then orders[i].price else 0)
    {
      WithinDay(orders, store, day, i);
    }
    MarksCount(orders, OrdersIn(store, lo, hi), ids);
    PricesAddUp(orders, SalesIn(store, lo, hi), With(orders, ids, Completed));
  }

  lemma MonthCounts(orders: seq<Order>, store: Id, month: nat, status: OrderStatus)
    ensures var lo, hi := MonthStart(month), MonthEnd(month) + 1;
      var ids := CreatedIn(orders, store, month);
      && Sum(orders, OrdersIn(store, lo, hi)) == |ids|
      && Sum(orders, StatusIn(store, lo, hi, status)) == |With(orders, ids, status)|
      && Sum(orders, SalesIn(store, lo, hi)) == PricesOf(orders, With(orders, ids, Completed)) >= 0
  {
    var lo, hi := MonthStart(month), MonthEnd(month) + 1;
    var ids := CreatedIn(orders, store, month);
    forall i | 0 <= i < |orders|
      ensures OrdersIn(store, lo, hi)(orders[i]) == (if i in ids then 1 else 0)
      ensures StatusIn(store, lo, hi, status)(orders[i]) == (if i in With(orders, ids, status) then 1 else 0)
      ensures SalesIn(store, lo, hi)(orders[i]) == (if i in With(orders, ids, Completed) then orders[i].price else 0)
    {
      WithinMonth(orders, store, month, i);
    }
    MarksCount(orders, OrdersIn(store, lo, hi), ids);
    MarksCount(orders, StatusIn(store, lo, hi, status), With(orders, ids, status));
    PricesAddUp(orders, SalesIn(store, lo, hi), With(orders, ids, Completed));
  }

  /** Those of the chosen orders that carry a coupon, or that carry none. */
  function Carrying(orders: seq<Order>, chosen: set<int>, coupon: bool): set<int> {
    set i | i in chosen && 0 <= i < |orders| && (|orders[i].usages| != 0) == coupon
  }

  lemma CouponCountsMonth(orders: seq<Order>, store: Id, month: nat, coupon: bool)
    ensures Sum(orders, CouponIn(store, MonthStart(month), MonthEnd(month) + 1, coupon))
            == |Carrying(orders, With(orders, CreatedIn(orders, store, month), Completed), coupon)|
  {
    var lo, hi := MonthStart(month), MonthEnd(month) + 1;
    var ids := Carrying(orders, With(orders, CreatedIn(orders, store, month), Completed), coupon);
    forall i | 0 <= i < |orders| ensures CouponIn(store, lo, hi, coupon)(orders[i]) == (if i in ids then 1 else 0) {
      WithinMonth(orders, store, month, i);
    }
    MarksCount(orders, CouponIn(store, lo, hi, coupon), ids);
  }

  /** The store's users who joined in the month and have confirmed their address. */
  function Joined(users: seq<Customer>, store: Id, month: nat): set<int> {
    set i | 0 <= i < |users| && users[i].store == store && users[i].emailVerified
            && MonthOf(users[i].createdAt) == month
  }

  lemma CustomersCount(users: seq<Customer>, store: Id, month: nat)
    ensures Sum(users, CustomersIn(store, MonthStart(month), MonthEnd(month) + 1)) == |Joined(users, store, month)|
  {
    var lo, hi := MonthStart(month), MonthEnd(month) + 1;
    forall i | 0 <= i < |users|
      ensures CustomersIn(store, lo, hi)(users[i]) == (if i in Joined(users, store, month) then 1 else 0)
    {
      MonthWindow(users[i].createdAt, month);
    }
    MarksCount(users, CustomersIn(store, lo, hi), Joined(users, store, month));
  }

  /** The month row, column by column. */
  lemma MonthRowCounts(orders: seq<Order>, users: seq<Customer>, store: Id, month: nat)
    ensures var row := MonthlyOf(orders, users, store, month);
      var ids := CreatedIn(orders, store, month);
      var done := With(orders, ids, Completed);
      && row.totalOrders == |ids|
      && row.totalSales == PricesOf(orders, done)
      && row.completed == |done|
      && row.expired == |With(orders, ids, Expired)|
      && row.refunded == |With(orders, ids, Refounded)|
      && row.withCoupon == |Carrying(orders, done, true)|
      && row.withoutCoupon == |Carrying(orders, done, false)|
      && row.newCustomers == |Joined(users, store, month)|
  {
    MonthCounts(orders, store, month, Completed);
    MonthCounts(orders, store, month, Expired);
    MonthCounts(orders, store, month, Refounded);
    CouponCountsMonth(orders, store, month, true);
    CouponCountsMonth(orders, store, month, false);
    CustomersCount(users, store, month);
  }

  function OfProduct(orders: seq<Order>, chosen: set<int>, product: Id): set<int> {
    set i | i in chosen && 0 <= i < |orders| && orders[i].product == product
  }

  /** A product has a row in the month exactly when one of the store's orders created in the
      month is for it; the row counts those orders and adds up the completed ones. */
  lemma ProductRowCounts(orders: seq<Order>, store: Id, month: nat, product: Id)
    requires product != ""
    ensures var rows := ProductsOf(orders, store, month);
      var ids := OfProduct(orders, CreatedIn(orders, store, month), product);
      && (product in rows <==> ids != {})
      && (product in rows ==>
            rows[product] == ProductRow(PricesOf(orders, With(orders, ids, Completed)), |ids|))
  {
    var lo, hi := MonthStart(month), MonthEnd(month) + 1;
    var ids := OfProduct(orders, CreatedIn(orders, store, month), product);
    forall i | 0 <= i < |orders|
      ensures ProductOrdersIn(store, lo, hi, product)(orders[i]) == (if i in ids then 1 else 0)
      ensures ProductSalesIn(store, lo, hi, product)(orders[i])
              == (if i in With(orders, ids, Completed) then orders[i].price else 0)
    {
      WithinMonth(orders, store, month, i);
    }
    MarksCount(orders, ProductOrdersIn(store, lo, hi, product), ids);
    PricesAddUp(orders, ProductSalesIn(store, lo, hi, product), With(orders, ids, Completed));
    GroupMeaning(orders, store, month, product);
  }

  // ----- Other stores -----

  /** The tables agree on every order that either of them files under the store. */
  ghost predicate SameStore(orders: seq<Order>, orders': seq<Order>, store: Id) {
    |orders'| == |orders|
    && forall i | 0 <= i < |orders| && (orders[i].store == store || orders'[i].store == store) ::
         orders'[i] == orders[i]
  }

  lemma {:induction false} SameProducts(orders: seq<Order>, orders': seq<Order>, store: Id, month: nat)
    requires SameStore(orders, orders', store)
    ensures ProductsOf(orders', store, month) == ProductsOf(orders, store, month)
  {
    if |orders| == 0 {
    } else {
      var last := |orders| - 1;
      SameProducts(orders[..last], orders'[..last], store, month);
    }
  }

  lemma SameColumn(orders: seq<Order>, orders': seq<Order>, store: Id, f: Order -> int)
    requires SameStore(orders, orders', store) && forall o: Order | o.store != store :: f(o) == 0
    ensures Sum(orders', f) == Sum(orders, f)
  {
    forall i | 0 <= i < |orders| ensures f(orders'[i]) == f(orders[i]) {
      if orders[i].store != store && orders'[i].store != store { assert f(orders[i]) == f(orders'[i]) == 0; }
    }
    SumPairwise(orders', orders, f);
  }

  /** Changing orders of other stores leaves a store's rows as they are. */
  lemma OtherStoresDoNotCount(orders: seq<Order>, orders': seq<Order>, users: seq<Customer>, store: Id, day: nat, month: nat)
    requires SameStore(orders, orders', store)
    ensures DailyOf(orders', store, day) == DailyOf(orders, store, day)
    ensures MonthlyOf(orders', users, store, month) == MonthlyOf(orders, users, store, month)
    ensures ProductsOf(orders', store, month) == ProductsOf(orders, store, month)
  {
    SameColumn(orders, orders', store, OrdersIn(store, day * DAY, day * DAY + DAY));
    SameColumn(orders, orders', store, SalesIn(store, day * DAY, day * DAY + DAY));
    var lo, hi := MonthStart(month), MonthEnd(month) + 1;
    SameColumn(orders, orders', store, OrdersIn(store, lo, hi));
    SameColumn(orders, orders', store, SalesIn(store, lo, hi));
    SameColumn(orders, orders', store, StatusIn(store, lo, hi, Completed));
    SameColumn(orders, orders', store, StatusIn(store, lo, hi, Expired));
    SameColumn(orders, orders', store, StatusIn(store, lo, hi, Refounded));
    SameColumn(orders, orders', store, CouponIn(store, lo, hi, true));
    SameColumn(orders, orders', store, CouponIn(store, lo, hi, false));
    SameProducts(orders, orders', store, month);
  }

  // ----- The stored rows -----

  ghost predicate DayStored(db: Db, store: Id, day: nat) {
    && (store, day) in db.metrics.daily
    && var row := db.metrics.daily[(store, day)];
       var ids := CreatedOn(db.orders, store, day);
       row.totalOrders == |ids| && row.totalSales == PricesOf(db.orders, With(db.orders, ids, Completed))
  }

  ghost predicate MonthStored(db: Db, store: Id, month: nat) {
    && (store, month) in db.metrics.monthly
    && var row := db.metrics.monthly[(store, month)];
       var ids := CreatedIn(db.orders, store, month);
       var done := With(db.orders, ids, Completed);
       && row.totalOrders == |ids| && row.totalSales == PricesOf(db.orders, done)
       && row.completed == |done| && row.expired == |With(db.orders, ids, Expired)|
       && row.refunded == |With(db.orders, ids, Refounded)|
       && row.withCoupon == |Carrying(db.orders, done, true)|
       && row.withoutCoupon == |Carrying(db.orders, done, false)|
       && row.newCustomers == |Joined(db.customers, store, month)|
  }

  ghost predicate ProductsStored(db: Db, store: Id, month: nat) {
    forall product: Id | product != "" ::
      var rows := ProductRows(db.metrics, store, month);
      var ids := OfProduct(db.orders, CreatedIn(db.orders, store, month), product);
      && (product in rows <==> ids != {})
      && (product in rows ==>
            rows[product] == ProductRow(PricesOf(db.orders, With(db.orders, ids, Completed)), |ids|))
  }

  ghost predicate AllStored(db: Db, store: Id, day: nat, month: nat) {
    DayStored(db, store, day) && MonthStored(db, store, month) && ProductsStored(db, store, month)
  }

  lemma AggregatesAreStored(db: Db, store: Id, day: nat, month: nat)
    requires (store, day) in db.metrics.daily && db.metrics.daily[(store, day)] == DailyOf(db.orders, store, day)
    requires (store, month) in db.metrics.monthly
    requires db.metrics.monthly[(store, month)] == MonthlyOf(db.orders, db.customers, store, month)
    ensures DayStored(db, store, day) && MonthStored(db, store, month)
    ensures ProductRows(db.metrics, store, month) == ProductsOf(db.orders, store, month) ==>
      ProductsStored(db, store, month)
  {
    DayRowCounts(db.orders, store, day);
    MonthRowCounts(db.orders, db.customers, store, month);
    forall product: Id | product != ""
      ensures var rows := ProductsOf(db.orders, store, month);
        var ids := OfProduct(db.orders, CreatedIn(db.orders, store, month), product);
        && (product in rows <==> ids != {})
        && (product in rows ==>
              rows[product] == ProductRow(PricesOf(db.orders, With(db.orders, ids, Completed)), |ids|))
    {
      ProductRowCounts(db.orders, store, month, product);
    }
  }

  /** From every reachable state, refreshing a store's metrics leaves rows that count the
      store's orders of the day and of the month, status by status and product by product. */
  lemma {:induction false} RefreshCounts(db: Db, actions: seq<Action>, store: Id, date: nat, now: nat)
    requires Initial(db) && forall a | a in actions :: Proper(a)
    ensures AllStored(Recalculate(RunAll(Fresh(db), actions).db, store, date, now), store, DayOf(date), MonthOf(date))
  {
    RefreshIsExact(db, actions, store, date, now, now);
    AggregatesAreStored(Recalculate(RunAll(Fresh(db), actions).db, store, date, now),
                        store, DayOf(date), MonthOf(date));
  }

  /** The update after a completed order stores the rows of its store, on its creation day
      and in its creation month. */
  lemma TallyCounts(db: Db, id: OrderId)
    requires Known(db, id) && db.orders[id].status == Completed && NoStrayRows(db.metrics, db.orders)
    ensures var o := db.orders[id];
      && DayStored(Tally(db, id), o.store, DayOf(o.createdAt))
      && MonthStored(Tally(db, id), o.store, MonthOf(o.createdAt))
      && (o.product != "" ==> ProductsStored(Tally(db, id), o.store, MonthOf(o.createdAt)))
  {
    var o := db.orders[id];
    RecalculationIsExact(db.metrics, db.orders, db.customers, o.store, o.createdAt);
    AggregatesAreStored(Tally(db, id), o.store, DayOf(o.createdAt), MonthOf(o.createdAt));
  }
}
