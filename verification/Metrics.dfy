/** The daily, monthly and per-product rows and the aggregates they cache. */
module Metrics {
  import opened Schema
  import opened Sums
  import opened Calendar

  datatype DailyRow = DailyRow(totalSales: int, totalOrders: int)
  datatype MonthlyRow = MonthlyRow(
    totalSales: int, totalOrders: int, completed: int, expired: int, refunded: int,
    withCoupon: int, withoutCoupon: int, newCustomers: int)
  datatype ProductRow = ProductRow(totalSales: int, totalOrders: int)

  /** Rows by store and day, by store and month, and by store, month and product. */
  datatype Tables = Tables(
    daily: map<(Id, nat), DailyRow>, monthly: map<(Id, nat), MonthlyRow>,
    byProduct: map<(Id, nat), map<Id, ProductRow>>)

  // ----- Columns over the order table, for a store and lo <= createdAt < hi -----

  predicate Within(o: Order, store: Id, lo: int, hi: int) { o.store == store && lo <= o.createdAt < hi }

  function OrdersIn(store: Id, lo: int, hi: int): Order -> int {
    (o: Order) => if Within(o, store, lo, hi) then 1 else 0
  }
  function SalesIn(store: Id, lo: int, hi: int): Order -> int {
    (o: Order) => if Within(o, store, lo, hi) && o.status == Completed then o.price else 0
  }
  function StatusIn(store: Id, lo: int, hi: int, status: OrderStatus): Order -> int {
    (o: Order) => if Within(o, store, lo, hi) && o.status == status then 1 else 0
  }
  function CouponIn(store: Id, lo: int, hi: int, coupon: bool): Order -> int {
    (o: Order) =>
      if Within(o, store, lo, hi) && o.status == Completed && (|o.usages| > 0 <==> coupon) then 1 else 0
  }
  function ProductOrdersIn(store: Id, lo: int, hi: int, product: Id): Order -> int {
    (o: Order) => if Within(o, store, lo, hi) && o.product == product then 1 else 0
  }
  function ProductSalesIn(store: Id, lo: int, hi: int, product: Id): Order -> int {
    (o: Order) => if Within(o, store, lo, hi) && o.product == product && o.status == Completed then o.price else 0
  }

  function CustomersIn(store: Id, lo: int, hi: int): Customer -> int {
    (u: Customer) => if u.store == store && u.emailVerified && lo <= u.createdAt < hi then 1 else 0
  }

  // ----- The from-scratch aggregates -----

  function AtLeastZero(sales: int): int { if sales > 0 then sales else 0 }

  function DailyOf(orders: seq<Order>, store: Id, day: nat): DailyRow {
    var lo, hi := day * DAY, day * DAY + DAY;
    DailyRow(AtLeastZero(Sum(orders, SalesIn(store, lo, hi))), Sum(orders, OrdersIn(store, lo, hi)))
  }

  function MonthlyOf(orders: seq<Order>, customers: seq<Customer>, store: Id, month: nat): MonthlyRow {
    var lo, hi := MonthStart(month), MonthEnd(month) + 1;
    MonthlyRow(
      AtLeastZero(Sum(orders, SalesIn(store, lo, hi))), Sum(orders, OrdersIn(store, lo, hi)),
      Sum(orders, StatusIn(store, lo, hi, Completed)), Sum(orders, StatusIn(store, lo, hi, Expired)),
      Sum(orders, StatusIn(store, lo, hi, Refounded)),
      Sum(orders, CouponIn(store, lo, hi, true)), Sum(orders, CouponIn(store, lo, hi, false)),
      Sum(customers, CustomersIn(store, lo, hi)))
  }

  /** One turn of the grouping loop; an order without a product is skipped. */
  function AddToGroups(groups: map<Id, ProductRow>, o: Order, store: Id, month: nat): map<Id, ProductRow> {
    if !Within(o, store, MonthStart(month), MonthEnd(month) + 1) || o.product == "" then groups
    else
      var row := if o.product in groups then groups[o.product] else ProductRow(0, 0);
      var sale := if o.status == Completed then o.price else 0;
      groups[o.product := ProductRow(row.totalSales + sale, row.totalOrders + 1)]
  }

  function ProductsOf(orders: seq<Order>, store: Id, month: nat): map<Id, ProductRow> {
    if |orders| == 0 then map[]
    else AddToGroups(ProductsOf(orders[..|orders| - 1], store, month), orders[|orders| - 1], store, month)
  }

  // ----- Recalculation -----

  function RecalculateDaily(t: Tables, orders: seq<Order>, store: Id, day: nat): Tables {
    t.(daily := t.daily[(store, day) := DailyOf(orders, store, day)])
  }

  function RecalculateMonthly(t: Tables, orders: seq<Order>, customers: seq<Customer>, store: Id, month: nat): Tables {
    t.(monthly := t.monthly[(store, month) := MonthlyOf(orders, customers, store, month)])
  }

  function ProductRows(t: Tables, store: Id, month: nat): map<Id, ProductRow> {
    if (store, month) in t.byProduct then t.byProduct[(store, month)] else map[]
  }

  /** The upserts touch the products that occur and leave any other row of the month. */
  function RecalculateProducts(t: Tables, orders: seq<Order>, store: Id, month: nat): Tables {
    t.(byProduct := t.byProduct[(store, month) :=
         ProductRows(t, store, month) + ProductsOf(orders, store, month)])
  }

  function RecalculateAll(t: Tables, orders: seq<Order>, customers: seq<Customer>, store: Id, date: nat): Tables {
    var t1 := RecalculateDaily(t, orders, store, DayOf(date));
    var t2 := RecalculateMonthly(t1, orders, customers, store, MonthOf(date));
    RecalculateProducts(t2, orders, store, MonthOf(date))
  }

  function UpdateForOrder(t: Tables, orders: seq<Order>, customers: seq<Customer>, id: OrderId): Tables {
    if id >= |orders| || orders[id].status != Completed then t
    else
      var o := orders[id];
      var t1 := RecalculateDaily(t, orders, o.store, DayOf(o.createdAt));
      var t2 := RecalculateMonthly(t1, orders, customers, o.store, MonthOf(o.createdAt));
      if o.product == "" then t2 else RecalculateProducts(t2, orders, o.store, MonthOf(o.createdAt))
  }

  // ----- What the rows mean -----

  lemma {:induction false} GroupMeaning(orders: seq<Order>, store: Id, month: nat, product: Id)
    requires product != ""
    ensures var lo, hi := MonthStart(month), MonthEnd(month) + 1;
      var count := Sum(orders, ProductOrdersIn(store, lo, hi, product));
      && count >= 0
      && (product in ProductsOf(orders, store, month) <==> count > 0)
      && (count > 0 ==>
            ProductsOf(orders, store, month)[product]
            == ProductRow(Sum(orders, ProductSalesIn(store, lo, hi, product)), count))
      && (count == 0 ==> Sum(orders, ProductSalesIn(store, lo, hi, product)) == 0)
  {
    if |orders| == 0 {
    } else {
      GroupMeaning(orders[..|orders| - 1], store, month, product);
    }
  }

  lemma {:induction false} NoEmptyProduct(orders: seq<Order>, store: Id, month: nat)
    ensures "" !in ProductsOf(orders, store, month)
  {
    if |orders| == 0 {
    } else {
      NoEmptyProduct(orders[..|orders| - 1], store, month);
    }
  }

  lemma SalesNonNegative(orders: seq<Order>, store: Id, lo: int, hi: int)
    ensures Sum(orders, SalesIn(store, lo, hi)) >= 0
  {
    SumNonNegative(orders, SalesIn(store, lo, hi));
  }

  lemma WindowsJoin(orders: seq<Order>, store: Id, lo: int, mid: int, hi: int)
    requires lo <= mid <= hi
    ensures Sum(orders, SalesIn(store, lo, hi))
            == Sum(orders, SalesIn(store, lo, mid)) + Sum(orders, SalesIn(store, mid, hi))
    ensures Sum(orders, OrdersIn(store, lo, hi))
            == Sum(orders, OrdersIn(store, lo, mid)) + Sum(orders, OrdersIn(store, mid, hi))
  {
    SumSplit(orders, SalesIn(store, lo, mid), SalesIn(store, mid, hi), SalesIn(store, lo, hi));
    SumSplit(orders, OrdersIn(store, lo, mid), OrdersIn(store, mid, hi), OrdersIn(store, lo, hi));
  }

  function DaySales(orders: seq<Order>, store: Id): int -> int {
    day => if day < 0 then 0 else DailyOf(orders, store, day).totalSales
  }
  function DayOrders(orders: seq<Order>, store: Id): int -> int {
    day => if day < 0 then 0 else DailyOf(orders, store, day).totalOrders
  }

  lemma {:induction false} DaysAddUp(orders: seq<Order>, store: Id, first: nat, end: nat)
    requires first <= end
    ensures SumRange(first, end, DaySales(orders, store)) == Sum(orders, SalesIn(store, first * DAY, end * DAY))
    ensures SumRange(first, end, DayOrders(orders, store)) == Sum(orders, OrdersIn(store, first * DAY, end * DAY))
    decreases end - first
  {
    if first == end {
      SumZero(orders, SalesIn(store, first * DAY, end * DAY));
      SumZero(orders, OrdersIn(store, first * DAY, end * DAY));
    } else {
      DaysAddUp(orders, store, first, end - 1);
      SalesNonNegative(orders, store, (end - 1) * DAY, end * DAY);
      WindowsJoin(orders, store, first * DAY, (end - 1) * DAY, end * DAY);
    }
  }

  /** The daily rows of a month's days add up to the monthly row. */
  lemma DaysMakeTheMonth(orders: seq<Order>, customers: seq<Customer>, store: Id, month: nat)
    ensures SumRange(FirstDay(month), FirstDay(month + 1), DaySales(orders, store))
            == MonthlyOf(orders, customers, store, month).totalSales
    ensures SumRange(FirstDay(month), FirstDay(month + 1), DayOrders(orders, store))
            == MonthlyOf(orders, customers, store, month).totalOrders
  {
    var first, end := FirstDay(month), FirstDay(month + 1);
    FirstDayIncreases(month, month + 1);
    DaysAddUp(orders, store, first, end);
    MonthInWindow(orders, customers, store, month, first, end);
  }

  lemma MonthInWindow(orders: seq<Order>, customers: seq<Customer>, store: Id, month: nat, first: nat, end: nat)
    requires first == FirstDay(month) && end == FirstDay(month + 1)
    ensures MonthlyOf(orders, customers, store, month).totalSales == Sum(orders, SalesIn(store, first * DAY, end * DAY))
    ensures MonthlyOf(orders, customers, store, month).totalOrders
            == Sum(orders, OrdersIn(store, first * DAY, end * DAY))
  {
    assert MonthStart(month) == first * DAY;
    assert MonthEnd(month) + 1 == MonthStart(month + 1) == end * DAY;
    SalesNonNegative(orders, store, first * DAY, end * DAY);
  }

  function OpenIn(store: Id, lo: int, hi: int): Order -> int {
    (o: Order) => if Within(o, store, lo, hi) && (o.status == Created || o.status == Processing) then 1 else 0
  }
  function ClosedIn(store: Id, lo: int, hi: int): Order -> int {
    (o: Order) => OrdersIn(store, lo, hi)(o) - OpenIn(store, lo, hi)(o)
  }
  function CompletedOrExpired(store: Id, lo: int, hi: int): Order -> int {
    (o: Order) => StatusIn(store, lo, hi, Completed)(o) + StatusIn(store, lo, hi, Expired)(o)
  }

  /** The counted statuses and the open ones partition the month's orders, and orders
      with and without a coupon partition the completed ones. */
  lemma StatusesPartitionTheMonth(orders: seq<Order>, customers: seq<Customer>, store: Id, month: nat)
    ensures var m := MonthlyOf(orders, customers, store, month);
      && m.completed + m.expired + m.refunded
         + Sum(orders, OpenIn(store, MonthStart(month), MonthEnd(month) + 1)) == m.totalOrders
      && m.withCoupon + m.withoutCoupon == m.completed
  {
    var lo, hi := MonthStart(month), MonthEnd(month) + 1;
    SumSplit(orders, ClosedIn(store, lo, hi), OpenIn(store, lo, hi), OrdersIn(store, lo, hi));
    SumSplit(orders, StatusIn(store, lo, hi, Completed), StatusIn(store, lo, hi, Expired),
             CompletedOrExpired(store, lo, hi));
    SumSplit(orders, CompletedOrExpired(store, lo, hi), StatusIn(store, lo, hi, Refounded), ClosedIn(store, lo, hi));
    SumSplit(orders, CouponIn(store, lo, hi, true), CouponIn(store, lo, hi, false),
             StatusIn(store, lo, hi, Completed));
  }

  // ----- Products make the month -----

  /** A list of product rows as the dashboard reads them: each row once, in any order. */
  ghost predicate Enumerates(products: seq<Id>, rows: map<Id, ProductRow>) {
    && (forall i, j | 0 <= i < j < |products| :: products[i] != products[j])
    && (forall p :: p in products <==> p in rows)
  }

  function RowSales(rows: map<Id, ProductRow>): Id -> int {
    (p: Id) => if p in rows then rows[p].totalSales else 0
  }
  function RowOrders(rows: map<Id, ProductRow>): Id -> int {
    (p: Id) => if p in rows then rows[p].totalOrders else 0
  }

  lemma {:induction false} BumpOne(products: seq<Id>, f: Id -> int, g: Id -> int, at: Id)
    requires forall i, j | 0 <= i < j < |products| :: products[i] != products[j]
    requires forall p | p in products && p != at :: f(p) == g(p)
    ensures Sum(products, g) == Sum(products, f) + (if at in products then g(at) - f(at) else 0)
  {
    if |products| == 0 {
    } else {
      var rest, last := products[..|products| - 1], products[|products| - 1];
      assert products == rest + [last];
      BumpOne(rest, f, g, at);
    }
  }

  lemma {:induction false} ProductsAddUp(orders: seq<Order>, store: Id, month: nat, products: seq<Id>)
    requires forall i, j | 0 <= i < j < |products| :: products[i] != products[j]
    requires forall p | p in ProductsOf(orders, store, month) :: p in products
    ensures var lo, hi := MonthStart(month), MonthEnd(month) + 1;
      var rows := ProductsOf(orders, store, month);
      && Sum(products, RowSales(rows)) + Sum(orders, ProductSalesIn(store, lo, hi, ""))
         == Sum(orders, SalesIn(store, lo, hi))
      && Sum(products, RowOrders(rows)) + Sum(orders, ProductOrdersIn(store, lo, hi, ""))
         == Sum(orders, OrdersIn(store, lo, hi))
  {
    var rows := ProductsOf(orders, store, month);
    if |orders| == 0 {
      SumZero(products, RowSales(rows));
      SumZero(products, RowOrders(rows));
    } else {
      var before := ProductsOf(orders[..|orders| - 1], store, month);
      var o := orders[|orders| - 1];
      assert forall p | p in before :: p in rows;
      ProductsAddUp(orders[..|orders| - 1], store, month, products);
      BumpOne(products, RowSales(before), RowSales(rows), o.product);
      BumpOne(products, RowOrders(before), RowOrders(rows), o.product);
      NoEmptyProduct(orders, store, month);
    }
  }

  /** The product rows add up to the monthly row, up to the orders without a product. */
  lemma {:induction false} ProductsMakeTheMonth(
    orders: seq<Order>, customers: seq<Customer>, store: Id, month: nat, products: seq<Id>)
    requires Enumerates(products, ProductsOf(orders, store, month))
    ensures var lo, hi := MonthStart(month), MonthEnd(month) + 1;
      var rows := ProductsOf(orders, store, month);
      && Sum(products, RowSales(rows)) + Sum(orders, ProductSalesIn(store, lo, hi, ""))
         == MonthlyOf(orders, customers, store, month).totalSales
      && Sum(products, RowOrders(rows)) + Sum(orders, ProductOrdersIn(store, lo, hi, ""))
         == MonthlyOf(orders, customers, store, month).totalOrders
  {
    ProductsAddUp(orders, store, month, products);
    SalesNonNegative(orders, store, MonthStart(month), MonthEnd(month) + 1);
  }

  /** The percentage the dashboard shows for one product row. */
  function Percentage(row: ProductRow, totalSales: int): real {
    if totalSales > 0 then (row.totalSales as real / totalSales as real) * 100.0 else 0.0
  }

  function Percentages(products: seq<Id>, rows: map<Id, ProductRow>, totalSales: int): real {
    if |products| == 0 then 0.0
    else
      var p := products[|products| - 1];
      Percentages(products[..|products| - 1], rows, totalSales)
      + (if p in rows then Percentage(rows[p], totalSales) else 0.0)
  }

  lemma {:induction false} PercentagesAddUp(products: seq<Id>, rows: map<Id, ProductRow>, totalSales: int)
    requires totalSales > 0
    ensures Percentages(products, rows, totalSales)
            == (Sum(products, RowSales(rows)) as real / totalSales as real) * 100.0
  {
    if |products| == 0 {
    } else {
      PercentagesAddUp(products[..|products| - 1], rows, totalSales);
    }
  }

  /** In a month with sales the percentages sum to 100 exactly when no sale of the month
      lacks a product. */
  lemma PercentagesSumTo100(orders: seq<Order>, customers: seq<Customer>, store: Id, month: nat, products: seq<Id>)
    requires Enumerates(products, ProductsOf(orders, store, month))
    requires MonthlyOf(orders, customers, store, month).totalSales > 0
    ensures var total := MonthlyOf(orders, customers, store, month).totalSales;
      Percentages(products, ProductsOf(orders, store, month), total) == 100.0
      <==> Sum(orders, ProductSalesIn(store, MonthStart(month), MonthEnd(month) + 1, "")) == 0
  {
    var rows := ProductsOf(orders, store, month);
    var total := MonthlyOf(orders, customers, store, month).totalSales;
    ProductsMakeTheMonth(orders, customers, store, month, products);
    PercentagesAddUp(products, rows, total);
    RatioIsOne(Sum(products, RowSales(rows)), total);
  }

  lemma RatioIsOne(part: int, total: int)
    requires total > 0
    ensures (part as real / total as real) * 100.0 == 100.0 <==> part == total
  {
    if part != total {
      var r := part as real / total as real;
      assert r * (total as real) == part as real;
      assert r != 1.0;
    }
  }

  // ----- No stale rows -----

  /** Every stored product row belongs to a product ordered in that month. */
  ghost predicate NoStrayRows(t: Tables, orders: seq<Order>) {
    forall key, p | key in t.byProduct && p in t.byProduct[key] :: p in ProductsOf(orders, key.0, key.1)
  }

  /** A recalculation leaves exactly the aggregates: the day row, the month row and the
      product rows of that month, with no stale row among them. */
  lemma RecalculationIsExact(t: Tables, orders: seq<Order>, customers: seq<Customer>, store: Id, date: nat)
    requires NoStrayRows(t, orders)
    ensures var t' := RecalculateAll(t, orders, customers, store, date);
      && (store, DayOf(date)) in t'.daily && t'.daily[(store, DayOf(date))] == DailyOf(orders, store, DayOf(date))
      && (store, MonthOf(date)) in t'.monthly
      && t'.monthly[(store, MonthOf(date))] == MonthlyOf(orders, customers, store, MonthOf(date))
      && ProductRows(t', store, MonthOf(date)) == ProductsOf(orders, store, MonthOf(date))
      && RecalculateAll(t', orders, customers, store, date) == t'
  {
    var month := MonthOf(date);
    var t' := RecalculateAll(t, orders, customers, store, date);
    var fresh' := ProductsOf(orders, store, month);
    assert ProductRows(t, store, month) + fresh' == fresh';
    assert ProductRows(t', store, month) == fresh';
    assert fresh' + fresh' == fresh';
    var t'' := RecalculateAll(t', orders, customers, store, date);
    assert t''.daily == t'.daily;
    assert t''.monthly == t'.monthly;
    assert t''.byProduct == t'.byProduct;
  }

  lemma ProductsKeepNoStray(t: Tables, orders: seq<Order>, store: Id, month: nat)
    requires NoStrayRows(t, orders)
    ensures NoStrayRows(RecalculateProducts(t, orders, store, month), orders)
  {
  }

  /** Products of a month never disappear: the table grows and identities stay. */
  lemma {:induction false} ProductsGrow(orders: seq<Order>, orders': seq<Order>, store: Id, month: nat)
    requires |orders| <= |orders'|
    requires forall i | 0 <= i < |orders| :: SameOrder(orders[i], orders'[i])
    ensures forall p | p in ProductsOf(orders, store, month) :: p in ProductsOf(orders', store, month)
    decreases |orders'|
  {
    if |orders| < |orders'| {
      ProductsGrow(orders, orders'[..|orders'| - 1], store, month);
    } else if |orders| > 0 {
      ProductsGrow(orders[..|orders| - 1], orders'[..|orders| - 1], store, month);
    }
  }
}
