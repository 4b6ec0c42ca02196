/** bravive.service.ts: the handlers, the webhook and the poll. */
module BraviveServices {
  import opened Options
  import opened Schema
  import opened BigoApi
  import opened CouponLedger
  import opened Engine
  import opened Notices
  import opened Storage
  import opened BigoServices
  import opened OrderServices
  import opened MetricsServices
  import Q = RetryQueue

  class BraviveService {
    const db: Database
    const retry: BigoRetryService
    const bigo: BigoService
    const orderService: OrderService
    const metrics: MetricsService

    constructor (db: Database, retry: BigoRetryService, bigo: BigoService, orderService: OrderService,
                 metrics: MetricsService)
      requires retry.db == db && bigo.db == db && bigo.retry == retry
      requires orderService.db == db && metrics.db == db
      ensures this.db == db && this.retry == retry && Wired()
    {
      this.db := db;
      this.retry := retry;
      this.bigo := bigo;
      this.orderService := orderService;
      this.metrics := metrics;
    }

    predicate Wired() {
      retry.db == db && bigo.db == db && bigo.retry == retry && orderService.db == db && metrics.db == db
    }

    function View(): Db
      reads db, retry, retry.db
    {
      Db(db.orders, db.users, retry.Queue(), db.Books(), db.Metrics(), db.completions)
    }

    /** The first transaction. */
    method MarkApproved(id: OrderId)
      requires Wired() && id < |db.orders|
      modifies db`orders
      ensures View() == ApproveTx(old(View()), id)
    {
      db.orders := db.orders[id := db.orders[id].(payment := PaymentApproved)];
      db.orders := db.orders[id := db.orders[id].(status := Processing)];
      db.orders := db.orders[id := db.orders[id].(recharge := RechargePending)];
    }

    /** The recharge of a processing order; false when the call throws. */
    method TriggerRecharge(id: OrderId, seqid: NonEmpty, x: Exchange, now: nat) returns (ok: bool)
      requires Wired() && id < |db.orders|
      modifies db, retry
      ensures match Dispatch(old(View()), id, seqid, now)
              case None => View() == old(View()) && !ok
              case Some(db2) =>
                View() == Respond(db2, |old(db.bigoRecharges)|, Heard(x), now) && (ok <==> Heard(x).refusal.None?)
    {
      var dto := new Dto(DtoOf(db.orders[id]));
      ok := bigo.DiamondRecharge(dto, db.orders[id].number, seqid, x, now);
    }

    method HandleApprovedPayment(id: OrderId, seqid: NonEmpty, x: Exchange, now: nat)
      requires Wired() && id < |db.orders|
      modifies db, retry
      ensures View() == HandleApproved(old(View()), id, seqid, Heard(x), now)
    {
      var order := db.orders[id];
      MarkApproved(id);
      if !(order.credits != 0 && order.bigoId != "") { return; }
      var ok := TriggerRecharge(id, seqid, x, now);
      if !ok { return; }
      FinishDelivery(id, now);
    }

    /** What follows a delivered recharge: the second transaction, the coupon, the metrics. */
    method FinishDelivery(id: OrderId, now: nat)
      requires Wired() && id < |db.orders|
      modifies db
      ensures View() == Tally(Book(CompleteTx(old(View()), id), id, now), id)
    {
      ghost var start := View();
      db.orders := db.orders[id := db.orders[id].(status := Completed, recharge := RechargeApproved)];
      db.completions := db.completions + [id];
      assert View() == CompleteTx(start, id);
      orderService.ConfirmCouponUsage(id, now);
      assert View() == Book(CompleteTx(start, id), id, now);
      metrics.UpdateMetricsForOrder(id);
    }

    method HandleRejectedOrCanceledPayment(id: OrderId)
      requires Wired() && id < |db.orders|
      modifies db
      ensures View() == RejectTx(old(View()), id)
    {
      db.orders := db.orders[id := db.orders[id].(payment := PaymentRejected)];
      db.orders := db.orders[id := db.orders[id].(status := Expired)];
      db.orders := db.orders[id := db.orders[id].(recharge := RechargeRejected)];
    }

    method HandleRefundedPayment(id: OrderId)
      requires Wired() && id < |db.orders|
      modifies db
      ensures View() == RefundTx(old(View()), id)
    {
      db.orders := db.orders[id := db.orders[id].(status := Refounded)];
      orderService.RevertCouponUsage(id);
    }

    method HandleChargebackPayment(id: OrderId)
      requires Wired() && id < |db.orders|
      modifies db
      ensures View() == ChargebackTx(old(View()), id)
    {
      db.orders := db.orders[id := db.orders[id].(payment := PaymentRejected)];
      db.orders := db.orders[id := db.orders[id].(status := Refounded)];
      db.orders := db.orders[id := db.orders[id].(recharge := RechargeRejected)];
      orderService.RevertCouponUsage(id);
    }

    method HandleWebhook(braviveId: string, status: Option<string>, seqid: NonEmpty, x: Exchange, now: nat)
      requires Wired()
      modifies db, retry
      ensures View() == ReceiveWebhook(old(View()), braviveId, status, seqid, Heard(x), now)
    {
      var id := FindPayment(db.orders, braviveId);
      if id == |db.orders| { return; }
      var notice := ParseNotice(status);
      if notice == Absent { return; }
      var target := TargetPayment(notice);
      if target.Some? && db.orders[id].payment == target.value { return; }
      match notice
      case Approved => HandleApprovedPayment(id, seqid, x, now);
      case Rejected | Canceled => HandleRejectedOrCanceledPayment(id);
      case Refunded => HandleRefundedPayment(id);
      case Chargeback => HandleChargebackPayment(id);
      case InDispute =>   // only a timestamp is written
      case Pending | Unhandled | Absent =>
    }

    method CheckAndUpdatePaymentStatus(
      braviveId: string, status: Option<string>, seqid: NonEmpty, x: Exchange, now: nat) returns (updated: bool)
      requires Wired()
      modifies db, retry
      ensures View() == ReceivePoll(old(View()), braviveId, status, seqid, Heard(x), now)
      ensures updated == PollReports(old(View()), braviveId, status)
    {
      var notice := ParseNotice(status);
      var internalStatus := PolledPayment(notice);
      var id := FindPayment(db.orders, braviveId);
      if id == |db.orders| {
        return false;
      }
      if internalStatus.None? || db.orders[id].payment == internalStatus.value {
        return false;
      }
      updated := true;
      if internalStatus.value == PaymentApproved {
        HandleApprovedPayment(id, seqid, x, now);
      } else if internalStatus.value == PaymentRejected {
        HandleRejectedOrCanceledPayment(id);
      }
    }
  }
}
