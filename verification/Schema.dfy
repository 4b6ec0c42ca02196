/** The rows of the settlement tables. Money is in cents and instants in milliseconds.
    Orders and coupons are named by their position in their table. */
module Schema {
  import opened Options

  type Id = string
  type OrderId = nat
  type CouponId = nat

  datatype OrderStatus = Created | Processing | Completed | Expired | Refounded
  datatype PaymentStatus = PaymentPending | PaymentApproved | PaymentRejected
  datatype RechargeStatus = RechargePending | RechargeApproved | RechargeRejected

  /** An order with its payment, order item and recharge rows, which are created with it
      and belong to it alone; braviveId is empty for a payment without a Bravive id. */
  datatype Order = Order(
    number: string, store: Id, user: Id, createdAt: nat,
    price: nat, basePrice: nat, product: Id, bigoId: string, credits: nat,
    usages: seq<CouponId>, braviveId: string,
    status: OrderStatus, payment: PaymentStatus, recharge: RechargeStatus)

  /** Equal up to the three status fields, the only ones that are ever updated. */
  predicate SameOrder(o: Order, o': Order) {
    o' == o.(status := o'.status, payment := o'.payment, recharge := o'.recharge)
  }

  /** What an administrator sets on a coupon; percentages in hundredths of a percent. */
  datatype Terms = Terms(
    title: string, store: Id, influencer: Id, active: bool, deleted: bool,
    percent: Option<nat>, fixed: Option<nat>, expiresAt: Option<nat>,
    maxUses: Option<nat>, minOrder: Option<nat>, firstPurchase: bool, oneTime: bool)

  /** A user, as far as the metrics count one. */
  datatype Customer = Customer(store: Id, createdAt: nat, emailVerified: bool)

  datatype Coupon = Coupon(terms: Terms, timesUsed: int, totalSales: int)
}
