/** The settlement engine: every event that changes the tables, each handler built from
    the database transactions it runs. Step treats a handler as one atomic step; the
    module Interleaving takes the same transactions apart. */
module Engine {
  import opened Options
  import opened Schema
  import opened Calendar
  import opened Expiry
  import opened Discount
  import opened CouponLedger
  import opened BigoApi
  import Q = RetryQueue
  import M = Metrics

  /** All tables. completions is history: the orders whose completing transaction ran. */
  datatype Db = Db(
    orders: seq<Order>, customers: seq<Customer>, queue: Q.Queue, ledger: Ledger, metrics: M.Tables,
    completions: seq<OrderId>)

  // ----- Creating an order -----

  // coupon and braviveId are empty when there is none; offered is the price the client
  // sent along.
  datatype Request = Request(
    number: string, store: Id, user: Id, bigoId: string, product: Id, credits: nat,
    listPrice: nat, offered: nat, coupon: string, braviveId: string, now: nat)

  datatype Refusal =
    | CouponNotFound | CouponInactive | CouponExpired | LimitReached | BelowMinimum
    | NotFirstPurchase | BigoIdRequired | BigoIdUsed | AccountUsed

  datatype Quote = Quote(coupon: CouponId, discount: nat, final: nat) | Declined(why: Refusal)

  function FindCoupon(coupons: seq<Coupon>, title: string, store: Id): (i: nat)
    ensures i <= |coupons|
    ensures i < |coupons| ==>
      coupons[i].terms.title == title && coupons[i].terms.store == store && !coupons[i].terms.deleted
  {
    if |coupons| == 0 then 0
    else
      var t := coupons[0].terms;
      if t.title == title && t.store == store && !t.deleted then 0
      else 1 + FindCoupon(coupons[1..], title, store)
  }

  /** A usage that blocks a one-time coupon. */
  predicate Live(o: Order) {
    o.status != Expired && o.status != Refounded
    && (o.payment == PaymentPending || o.payment == PaymentApproved)
  }

  predicate BoughtBefore(orders: seq<Order>, user: Id, store: Id) {
    exists i | 0 <= i < |orders| ::
      orders[i].user == user && orders[i].store == store && orders[i].status != Expired
  }
  predicate BigoIdHolds(orders: seq<Order>, c: CouponId, bigoId: string) {
    exists i | 0 <= i < |orders| :: c in orders[i].usages && orders[i].bigoId == bigoId && Live(orders[i])
  }
  predicate UserHolds(orders: seq<Order>, c: CouponId, user: Id) {
    exists i | 0 <= i < |orders| :: c in orders[i].usages && orders[i].user == user && Live(orders[i])
  }

  function ValidateCoupon(
    orders: seq<Order>, coupons: seq<Coupon>, title: string, amount: nat, store: Id, user: Id,
    bigoId: string, now: nat): Quote
  {
    var c := FindCoupon(coupons, title, store);
    if c == |coupons| then Declined(CouponNotFound)
    else
      var t := coupons[c].terms;
      if !t.active then Declined(CouponInactive)
      else if t.expiresAt.Some? && t.expiresAt.value < now then Declined(CouponExpired)
      else if t.maxUses.Some? && t.maxUses.value != 0 && coupons[c].timesUsed >= t.maxUses.value
      then Declined(LimitReached)
      else if t.minOrder.Some? && amount < t.minOrder.value then Declined(BelowMinimum)
      else if t.firstPurchase && BoughtBefore(orders, user, store) then Declined(NotFirstPurchase)
      else if t.oneTime && bigoId == "" then Declined(BigoIdRequired)
      else if t.oneTime && BigoIdHolds(orders, c, bigoId) then Declined(BigoIdUsed)
      else if t.oneTime && UserHolds(orders, c, user) then Declined(AccountUsed)
      else Quote(c, DiscountOf(t, amount), FinalAmount(t, amount))
  }

  function Distance(a: nat, b: nat): nat { if a <= b then b - a else a - b }

  predicate NumberTaken(orders: seq<Order>, number: string) {
    exists i | 0 <= i < |orders| :: orders[i].number == number
  }

  /** What create works out before it inserts anything. */
  function QuoteFor(orders: seq<Order>, coupons: seq<Coupon>, q: Request): Quote {
    if q.coupon == "" then Quote(0, 0, q.listPrice)
    else ValidateCoupon(orders, coupons, q.coupon, q.listPrice, q.store, q.user, q.bigoId, q.now)
  }

  predicate Agreed(q: Request, quote: Quote) { quote.Quote? && Distance(quote.final, q.offered) <= 1 }

  /** The order row that create inserts for an agreed quote. */
  function OrderOf(q: Request, quote: Quote): Order
    requires Agreed(q, quote)
  {
    Order(q.number, q.store, q.user, q.now, quote.final, q.listPrice, q.product, q.bigoId, q.credits,
          if q.coupon == "" then [] else [quote.coupon], q.braviveId, Created, PaymentPending, RechargePending)
  }

  /** The inserting transaction, which fails on a taken order number. */
  function InsertOrder(db: Db, q: Request, quote: Quote): Db
    requires Agreed(q, quote)
  {
    if NumberTaken(db.orders, q.number) then db else db.(orders := db.orders + [OrderOf(q, quote)])
  }

  /** None is any of the error answers of create. */
  function NewOrder(orders: seq<Order>, coupons: seq<Coupon>, q: Request): Option<Order> {
    var quote := QuoteFor(orders, coupons, q);
    if Agreed(q, quote) && !NumberTaken(orders, q.number) then Some(OrderOf(q, quote)) else None
  }

  function CreateOrder(db: Db, q: Request): Db {
    match NewOrder(db.orders, db.ledger.coupons, q) case Some(o) => db.(orders := db.orders + [o]) case None => db
  }

  // ----- Transactions -----

  predicate Known(db: Db, id: OrderId) { id < |db.orders| }

  function Write(db: Db, id: OrderId, o: Order): Db
    requires Known(db, id)
  {
    db.(orders := db.orders[id := o])
  }

  function ApproveTx(db: Db, id: OrderId): Db
    requires Known(db, id)
  {
    Write(db, id, db.orders[id].(payment := PaymentApproved, status := Processing, recharge := RechargePending))
  }

  function RejectTx(db: Db, id: OrderId): Db
    requires Known(db, id)
  {
    Write(db, id, db.orders[id].(payment := PaymentRejected, status := Expired, recharge := RechargeRejected))
  }

  /** Reverts book under the month in which the order was created. */
  function RevertUsage(db: Db, id: OrderId): Db
    requires Known(db, id)
  {
    db.(ledger := Revert(db.ledger, id, db.orders[id], MonthOf(db.orders[id].createdAt)))
  }

  /** A refund leaves the payment as it is. */
  function RefundTx(db: Db, id: OrderId): Db
    requires Known(db, id)
  {
    RevertUsage(Write(db, id, db.orders[id].(status := Refounded)), id)
  }

  function ChargebackTx(db: Db, id: OrderId): Db
    requires Known(db, id)
  {
    RevertUsage(Write(db, id, db.orders[id].(
      payment := PaymentRejected, status := Refounded, recharge := RechargeRejected)), id)
  }

  const RATE_IN_CENTS: nat := 550   // BIGO_USD_TO_BRL_RATE, default 5.5

  /** 62.5 diamonds to the dollar, at the rate, to the nearest cent. */
  function CostInCents(credits: nat): nat { (4 * credits * RATE_IN_CENTS + 125) / 250 }

  /** 62.5 diamonds cost a dollar, so one costs 8.8 cents; the total is within half a cent
      of that, and a half rounds up. */
  lemma CostIsNearest(credits: nat)
    ensures -5 < 10 * CostInCents(credits) - 88 * credits <= 5
  {
    assert 10 * (4 * credits * RATE_IN_CENTS) == 250 * (88 * credits);
  }

  predicate Dispatchable(o: Order) { o.credits != 0 && o.bigoId != "" }

  function DtoOf(o: Order): (dto: Body)
    ensures dto.Keys <= DTO_FIELDS
  {
    map[RechargeBigoid := Text(o.bigoId), BuOrderid := Text(o.number), DiamondValue := Number(o.credits),
        TotalCost := Number(CostInCents(o.credits)), Currency := Text("BRL")]
  }

  /** The body orders exactly the order's diamonds, for its Bigo account, at 8.8 cents a diamond to
      the nearest cent. */
  predicate AsksFor(body: Body, o: Order) {
    && o.credits != 0 && o.bigoId != ""
    && BuOrderid in body && body[BuOrderid] == Text(o.number)
    && RechargeBigoid in body && body[RechargeBigoid] == Text(o.bigoId)
    && DiamondValue in body && body[DiamondValue] == Number(o.credits)
    && Currency in body && body[Currency] == Text("BRL")
    && TotalCost in body && body[TotalCost].Number? && -5 < 10 * body[TotalCost].number - 88 * o.credits <= 5
  }

  lemma DispatchAsks(o: Order, seqid: NonEmpty)
    requires Dispatchable(o)
    ensures AsksFor(Stamp(DtoOf(o), seqid), o)
  {
    CostIsNearest(o.credits);
  }

  /** Check-and-create of the log row; None when the order number has been used. */
  function Dispatch(db: Db, id: OrderId, seqid: NonEmpty, now: nat): Option<Db>
    requires Known(db, id)
  {
    match Q.Open(db.queue, db.orders[id].number, DtoOf(db.orders[id]), seqid, now)
    case Some(queue) => Some(db.(queue := queue))
    case None => None
  }

  function Respond(db: Db, r: nat, x: Answer, now: nat): Db {
    db.(queue := Q.AnswerFirst(db.queue, r, x, now))
  }

  function CompleteTx(db: Db, id: OrderId): Db
    requires Known(db, id)
  {
    Write(db, id, db.orders[id].(status := Completed, recharge := RechargeApproved))
      .(completions := db.completions + [id])
  }

  /** Confirmations book under the current month. */
  function Book(db: Db, id: OrderId, now: nat): Db
    requires Known(db, id)
  {
    db.(ledger := Confirm(db.ledger, id, db.orders[id], MonthOf(now)))
  }

  function Tally(db: Db, id: OrderId): Db {
    db.(metrics := M.UpdateForOrder(db.metrics, db.orders, db.customers, id))
  }

  // ----- Handlers -----

  // A payment status as Bravive reports it.
  datatype Notice =
    Approved | Rejected | Canceled | Refunded | Chargeback | InDispute | Pending | Unhandled | Absent

  function FindPayment(orders: seq<Order>, braviveId: string): (id: OrderId)
    ensures id <= |orders|
    ensures id < |orders| ==> braviveId != "" && orders[id].braviveId == braviveId
  {
    if |orders| == 0 then 0
    else if braviveId != "" && orders[0].braviveId == braviveId then 0
    else 1 + FindPayment(orders[1..], braviveId)
  }

  /** mapWebhookStatusToPaymentStatus. */
  function TargetPayment(notice: Notice): Option<PaymentStatus> {
    match notice
    case Approved => Some(PaymentApproved)
    case Rejected | Canceled | Refunded | Chargeback => Some(PaymentRejected)
    case _ => None
  }

  function HandleApproved(db: Db, id: OrderId, seqid: NonEmpty, x: Answer, now: nat): Db
    requires Known(db, id)
  {
    var db1 := ApproveTx(db, id);
    if !Dispatchable(db1.orders[id]) then db1
    else
      match Dispatch(db1, id, seqid, now)
      case None => db1
      case Some(db2) =>
        var db3 := Respond(db2, |db1.queue.rows|, x, now);
        if x.refusal.Some? then db3 else Tally(Book(CompleteTx(db3, id), id, now), id)
  }

  predicate Absorbed(o: Order, notice: Notice) { TargetPayment(notice) == Some(o.payment) }

  /** The switch over the handlers. */
  function HandleNotice(db: Db, id: OrderId, notice: Notice, seqid: NonEmpty, x: Answer, now: nat): Db
    requires Known(db, id)
  {
    match notice
    case Approved => HandleApproved(db, id, seqid, x, now)
    case Rejected | Canceled => RejectTx(db, id)
    case Refunded => RefundTx(db, id)
    case Chargeback => ChargebackTx(db, id)
    case InDispute | Pending | Unhandled | Absent => db
  }

  function HandleWebhook(db: Db, braviveId: string, notice: Notice, seqid: NonEmpty, x: Answer, now: nat): Db {
    var id := FindPayment(db.orders, braviveId);
    if id == |db.orders| || Absorbed(db.orders[id], notice) then db
    else HandleNotice(db, id, notice, seqid, x, now)
  }

  /** The payment status a poll compares with. */
  function PolledPayment(notice: Notice): Option<PaymentStatus> {
    match notice
    case Approved => Some(PaymentApproved)
    case Rejected | Canceled => Some(PaymentRejected)
    case Pending => Some(PaymentPending)
    case _ => None
  }

  predicate PollUpdates(db: Db, braviveId: string, notice: Notice) {
    var id := FindPayment(db.orders, braviveId);
    id < |db.orders| && PolledPayment(notice).Some? && PolledPayment(notice).value != db.orders[id].payment
  }

  function HandlePoll(db: Db, braviveId: string, notice: Notice, seqid: NonEmpty, x: Answer, now: nat): Db {
    var id := FindPayment(db.orders, braviveId);
    if !PollUpdates(db, braviveId, notice) then db
    else
      match PolledPayment(notice).value
      case PaymentApproved => HandleApproved(db, id, seqid, x, now)
      case PaymentRejected => RejectTx(db, id)
      case PaymentPending => db
  }

  function SweepOrders(db: Db, f: Filter, now: nat): Db { db.(orders := Sweep(db.orders, f, now)) }

  /** The timer of row r is there and due. */
  predicate Rings(queue: Q.Queue, r: nat, now: nat) {
    r in queue.timers && queue.timers[r].due <= now && r < |queue.rows| && queue.rows[r].status == Q.RetryPending
  }

  /** processSpecificRetry from the timer to the answer. */
  function ProcessRetry(queue: Q.Queue, r: nat, x: Answer, now: nat): Q.Queue {
    if Rings(queue, r, now) then Q.AnswerRetry(Q.Fire(queue, r, now), r, x, now) else Q.Fire(queue, r, now)
  }

  /** diamondRecharge called directly, without an order of this system. */
  function DirectRecharge(db: Db, number: string, dto: Body, seqid: NonEmpty, x: Answer, now: nat): Db {
    match Q.Open(db.queue, number, dto, seqid, now)
    case None => db
    case Some(queue) => Respond(db.(queue := queue), |db.queue.rows|, x, now)
  }

  /** recalculateStoreMetrics: sweep the store up to the date, then the three rows. */
  function Recalculate(db: Db, store: Id, date: nat, now: nat): Db {
    var swept := SweepOrders(db, Filter(Some(store), [], Some(date)), now);
    swept.(metrics := M.RecalculateAll(swept.metrics, swept.orders, swept.customers, store, date))
  }

  // ----- Runs -----

  // People is any change to the user table.
  datatype Event =
    | Create(request: Request)
    | Webhook(braviveId: string, notice: Notice, seqid: NonEmpty, x: Answer, now: nat)
    | Poll(braviveId: string, notice: Notice, seqid: NonEmpty, x: Answer, now: nat)
    | Expire(filter: Filter, now: nat)
    | Retry(row: nat, x: Answer, now: nat)
    | Direct(number: string, dto: Body, seqid: NonEmpty, x: Answer, now: nat)
    | Refresh(store: Id, date: nat, now: nat)
    | People(customers: seq<Customer>)

  function Step(db: Db, e: Event): Db {
    match e
    case Create(q) => CreateOrder(db, q)
    case Webhook(b, n, s, x, now) => HandleWebhook(db, b, n, s, x, now)
    case Poll(b, n, s, x, now) => HandlePoll(db, b, n, s, x, now)
    case Expire(f, now) => SweepOrders(db, f, now)
    case Retry(r, x, now) => db.(queue := ProcessRetry(db.queue, r, x, now))
    case Direct(n, dto, s, x, now) => DirectRecharge(db, n, dto, s, x, now)
    case Refresh(store, date, now) => Recalculate(db, store, date, now)
    case People(customers) => db.(customers := customers)
  }

  function Run(db: Db, events: seq<Event>): Db {
    if |events| == 0 then db else Step(Run(db, events[..|events| - 1]), events[|events| - 1])
  }

  /** The tables at the start: coupons with their terms and zero counters, all else empty. */
  predicate Initial(db: Db) {
    && db.orders == [] && db.queue == Q.EMPTY && db.completions == []
    && db.ledger.months == [] && db.ledger.journal == []
    && (forall c | 0 <= c < |db.ledger.coupons| ::
          db.ledger.coupons[c].timesUsed == 0 && db.ledger.coupons[c].totalSales == 0)
    && db.metrics == M.Tables(map[], map[], map[])
  }

  /** A poll does what the webhook with the same notice does, for the three notices it
      acts on, and nothing for any other. */
  lemma PollIsWebhook(db: Db, braviveId: string, notice: Notice, seqid: NonEmpty, x: Answer, now: nat)
    ensures HandlePoll(db, braviveId, notice, seqid, x, now)
            == if notice == Approved || notice == Rejected || notice == Canceled
               then HandleWebhook(db, braviveId, notice, seqid, x, now) else db
  {
  }

  /** The price that is stored is the coupon's final amount, within a cent of the offer,
      and with the discount it makes up the list price unless the coupon takes more than
      100 percent. Ledger postings use this stored price. */
  lemma PriceFlows(orders: seq<Order>, coupons: seq<Coupon>, q: Request)
    requires NewOrder(orders, coupons, q).Some?
    ensures var o := NewOrder(orders, coupons, q).value;
      && o.price <= o.basePrice == q.listPrice
      && Distance(o.price, q.offered) <= 1
      && (q.coupon == "" ==> o.price == q.listPrice && o.usages == [])
      && (q.coupon != "" ==>
            |o.usages| == 1 && o.usages[0] < |coupons|
            && var t := coupons[o.usages[0]].terms;
               && o.price == FinalAmount(t, q.listPrice)
               && ((t.percent.Some? ==> t.percent.value <= WHOLE) ==>
                     o.price + DiscountOf(t, q.listPrice) == q.listPrice))
  {
    if q.coupon != "" {
      var t := coupons[NewOrder(orders, coupons, q).value.usages[0]].terms;
      FinalBounds(t, q.listPrice);
      if !(t.percent.Some? && t.percent.value > WHOLE) { DiscountFits(t, q.listPrice); }
    }
  }
}
