/** The tables as the services share and update them. */
module Storage {
  import opened Schema
  import opened CouponLedger
  import Q = RetryQueue
  import M = Metrics

  /** The tables. journal, completions, calls and log are history and calls under way. */
  class Database {
    var orders: seq<Order>
    var users: seq<Customer>
    var bigoRecharges: seq<Q.BigoRow>
    var calls: map<nat, nat>
    var log: seq<Q.Note>
    var coupons: seq<Coupon>
    var influencerMonthlySales: seq<InfluencerMonth>
    var journal: seq<Posting>
    var dailySales: map<(Id, nat), M.DailyRow>
    var monthlySales: map<(Id, nat), M.MonthlyRow>
    var salesByProduct: map<(Id, nat), map<Id, M.ProductRow>>
    var completions: seq<OrderId>

    function Books(): Ledger
      reads this
    {
      Ledger(coupons, influencerMonthlySales, journal)
    }

    function Metrics(): M.Tables
      reads this
    {
      M.Tables(dailySales, monthlySales, salesByProduct)
    }
  }
}
