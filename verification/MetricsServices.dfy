/** metrics.service.ts: the counting and grouping loops. */
module MetricsServices {
  import opened Options
  import opened Schema
  import opened Sums
  import opened Calendar
  import opened Expiry
  import opened Storage
  import opened OrderServices
  import M = Metrics

  class MetricsService {
    const db: Database

    constructor (db: Database)
      ensures this.db == db
    {
      this.db := db;
    }

    /** Counting and reducing in one loop; orders of other days are the ones the query
        leaves out. */
    method RecalculateDailyMetrics(store: Id, day: nat)
      modifies db`dailySales
      ensures db.Metrics() == M.RecalculateDaily(old(db.Metrics()), db.orders, store, day)
    {
      var lo, hi := day * DAY, day * DAY + DAY;
      var orders := db.orders;
      var totalOrders, totalSales := 0, 0;
      var i := 0;
      while i < |orders|
        invariant i <= |orders| && db.dailySales == old(db.dailySales)
        invariant totalOrders == Sum(orders[..i], M.OrdersIn(store, lo, hi))
        invariant totalSales == Sum(orders[..i], M.SalesIn(store, lo, hi))
      {
        var order := orders[i];
        DailySums(orders, i, store, lo, hi);
        if M.Within(order, store, lo, hi) {
          totalOrders := totalOrders + 1;
          if order.status == Completed {
            totalSales := totalSales + order.price;
          }
        }
        i := i + 1;
      }
      assert orders[..i] == orders;
      db.dailySales := db.dailySales[(store, day) := M.DailyRow(if totalSales > 0 then totalSales else 0, totalOrders)];
    }

    /** One more order in the day's two sums. */
    lemma DailySums(orders: seq<Order>, i: nat, store: Id, lo: int, hi: int)
      requires i < |orders|
      ensures Sum(orders[..i + 1], M.OrdersIn(store, lo, hi))
              == Sum(orders[..i], M.OrdersIn(store, lo, hi)) + M.OrdersIn(store, lo, hi)(orders[i])
      ensures Sum(orders[..i + 1], M.SalesIn(store, lo, hi))
              == Sum(orders[..i], M.SalesIn(store, lo, hi)) + M.SalesIn(store, lo, hi)(orders[i])
    {
      assert orders[..i + 1] == orders[..i] + [orders[i]];
      SumAppend(orders[..i], orders[i], M.OrdersIn(store, lo, hi));
      SumAppend(orders[..i], orders[i], M.SalesIn(store, lo, hi));
    }

    /** The count of the store's users who joined in the window and confirmed their address. */
    method CountNewCustomers(store: Id, lo: int, hi: int) returns (newCustomers: nat)
      ensures newCustomers == Sum(db.users, M.CustomersIn(store, lo, hi))
    {
      newCustomers := 0;
      var i := 0;
      while i < |db.users|
        invariant i <= |db.users|
        invariant newCustomers == Sum(db.users[..i], M.CustomersIn(store, lo, hi))
      {
        var user := db.users[i];
        assert db.users[..i + 1][..i] == db.users[..i];
        if user.store == store && user.emailVerified && lo <= user.createdAt < hi {
          newCustomers := newCustomers + 1;
        }
        i := i + 1;
      }
      assert db.users[..i] == db.users;
    }

    /** The counting loop; rows outside the month are the ones the query leaves out. */
    method RecalculateMonthlyMetrics(store: Id, month: nat)
      modifies db`monthlySales
      ensures db.Metrics() == M.RecalculateMonthly(old(db.Metrics()), db.orders, db.users, store, month)
    {
      var lo, hi := MonthStart(month), MonthEnd(month) + 1;
      var orders := db.orders;
      var totalOrders, totalSales := 0, 0;
      var totalCompletedOrders, totalExpiredOrders, totalRefundedOrders := 0, 0, 0;
      var ordersWithCoupon, ordersWithoutCoupon := 0, 0;
      var i := 0;
      while i < |orders|
        invariant i <= |orders| && db.monthlySales == old(db.monthlySales)
        invariant totalOrders == Sum(orders[..i], M.OrdersIn(store, lo, hi))
        invariant totalSales == Sum(orders[..i], M.SalesIn(store, lo, hi))
        invariant totalCompletedOrders == Sum(orders[..i], M.StatusIn(store, lo, hi, Completed))
        invariant totalExpiredOrders == Sum(orders[..i], M.StatusIn(store, lo, hi, Expired))
        invariant totalRefundedOrders == Sum(orders[..i], M.StatusIn(store, lo, hi, Refounded))
        invariant ordersWithCoupon == Sum(orders[..i], M.CouponIn(store, lo, hi, true))
        invariant ordersWithoutCoupon == Sum(orders[..i], M.CouponIn(store, lo, hi, false))
      {
        var order := orders[i];
        MonthlySums(orders, i, store, lo, hi);
        if M.Within(order, store, lo, hi) {
          totalOrders := totalOrders + 1;
          var hasCoupon := |order.usages| > 0;
          match order.status
          case Completed =>
            totalCompletedOrders := totalCompletedOrders + 1;
            totalSales := totalSales + order.price;
            if hasCoupon {
              ordersWithCoupon := ordersWithCoupon + 1;
            } else {
              ordersWithoutCoupon := ordersWithoutCoupon + 1;
            }
          case Expired => totalExpiredOrders := totalExpiredOrders + 1;
          case Refounded => totalRefundedOrders := totalRefundedOrders + 1;
          case Created | Processing =>
        }
        i := i + 1;
      }
      assert orders[..i] == orders;
      var newCustomers := CountNewCustomers(store, lo, hi);
      var row := M.MonthlyRow(
        if totalSales > 0 then totalSales else 0, totalOrders, totalCompletedOrders,
        totalExpiredOrders, totalRefundedOrders, ordersWithCoupon, ordersWithoutCoupon, newCustomers);
      assert row == M.MonthlyOf(orders, db.users, store, month);
      db.monthlySales := db.monthlySales[(store, month) := row];
    }

    ghost predicate OneMore(s: seq<Order>, t: seq<Order>, o: Order, f: Order -> int) { Sum(t, f) == Sum(s, f) + f(o) }

    /** One more row in each of the seven sums. */
    lemma MonthlySums(orders: seq<Order>, i: nat, store: Id, lo: int, hi: int)
      requires i < |orders|
      ensures var s, t, o := orders[..i], orders[..i + 1], orders[i];
        && Sum(t, M.OrdersIn(store, lo, hi)) == Sum(s, M.OrdersIn(store, lo, hi)) + M.OrdersIn(store, lo, hi)(o)
        && Sum(t, M.SalesIn(store, lo, hi)) == Sum(s, M.SalesIn(store, lo, hi)) + M.SalesIn(store, lo, hi)(o)
        && OneMore(s, t, o, M.StatusIn(store, lo, hi, Completed))
        && OneMore(s, t, o, M.StatusIn(store, lo, hi, Expired))
        && OneMore(s, t, o, M.StatusIn(store, lo, hi, Refounded))
        && OneMore(s, t, o, M.CouponIn(store, lo, hi, true))
        && OneMore(s, t, o, M.CouponIn(store, lo, hi, false))
    {
      var s, o := orders[..i], orders[i];
      assert orders[..i + 1] == s + [o];
      SumAppend(s, o, M.OrdersIn(store, lo, hi));
      SumAppend(s, o, M.SalesIn(store, lo, hi));
      SumAppend(s, o, M.StatusIn(store, lo, hi, Completed));
      SumAppend(s, o, M.StatusIn(store, lo, hi, Expired));
      SumAppend(s, o, M.StatusIn(store, lo, hi, Refounded));
      SumAppend(s, o, M.CouponIn(store, lo, hi, true));
      SumAppend(s, o, M.CouponIn(store, lo, hi, false));
    }

    /** The grouping loop and the upserts. */
    method RecalculateMonthlyByProductMetrics(store: Id, month: nat)
      modifies db`salesByProduct
      ensures db.Metrics() == M.RecalculateProducts(old(db.Metrics()), db.orders, store, month)
    {
      var orders := db.orders;
      var productMetrics: map<Id, M.ProductRow> := map[];
      var i := 0;
      while i < |orders|
        invariant i <= |orders|
        invariant productMetrics == M.ProductsOf(orders[..i], store, month)
      {
        var order := orders[i];
        assert orders[..i + 1][..i] == orders[..i];
        if M.Within(order, store, MonthStart(month), MonthEnd(month) + 1) && order.product != "" {
          if order.product !in productMetrics {
            productMetrics := productMetrics[order.product := M.ProductRow(0, 0)];
          }
          var metrics := productMetrics[order.product];
          metrics := metrics.(totalOrders := metrics.totalOrders + 1);
          if order.status == Completed {
            metrics := metrics.(totalSales := metrics.totalSales + order.price);
          }
          productMetrics := productMetrics[order.product := metrics];
        }
        i := i + 1;
      }
      assert orders[..i] == orders;
      var rows := M.ProductRows(db.Metrics(), store, month);
      db.salesByProduct := db.salesByProduct[(store, month) := rows + productMetrics];
    }

    method UpdateMetricsForOrder(id: OrderId)
      modifies db`dailySales, db`monthlySales, db`salesByProduct
      ensures db.Metrics() == M.UpdateForOrder(old(db.Metrics()), db.orders, db.users, id)
    {
      if id >= |db.orders| || db.orders[id].status != Completed { return; }
      var order := db.orders[id];
      RecalculateDailyMetrics(order.store, DayOf(order.createdAt));
      RecalculateMonthlyMetrics(order.store, MonthOf(order.createdAt));
      if order.product != "" {
        RecalculateMonthlyByProductMetrics(order.store, MonthOf(order.createdAt));
      }
    }

    method RecalculateStoreMetrics(orderService: OrderService, store: Id, date: nat, now: nat)
      requires orderService.db == db
      modifies db`orders, db`dailySales, db`monthlySales, db`salesByProduct
      ensures db.orders == Sweep(old(db.orders), Filter(Some(store), [], Some(date)), now)
      ensures db.Metrics() == M.RecalculateAll(old(db.Metrics()), db.orders, db.users, store, date)
    {
      var expired := orderService.CheckAndExpireOrders(Filter(Some(store), [], Some(date)), now);
      RecalculateDailyMetrics(store, DayOf(date));
      RecalculateMonthlyMetrics(store, MonthOf(date));
      RecalculateMonthlyByProductMetrics(store, MonthOf(date));
    }
  }
}
