/** From the status text that Bravive reports to the rows it changes. */
module StatusTexts {
  import opened Options
  import opened Schema
  import opened Calendar
  import opened BigoApi
  import opened CouponLedger
  import opened Engine
  import opened Notices
  import opened Coherence
  import opened MonthBooks
  import opened MetricsMeaning
  import opened Interleaving
  import M = Metrics
  import Q = RetryQueue

  /** The order at id has the first payment with the Bravive id. */
  ghost predicate IsPaymentOf(orders: seq<Order>, b: string, id: OrderId) {
    id < |orders| && b != "" && orders[id].braviveId == b && forall j | 0 <= j < id :: orders[j].braviveId != b
  }

  lemma {:induction false} PaymentIsFound(orders: seq<Order>, b: string, id: OrderId)
    requires IsPaymentOf(orders, b, id)
    ensures FindPayment(orders, b) == id
  {
    if id == 0 {
    } else {
      assert orders[0].braviveId != b;
      PaymentIsFound(orders[1..], b, id - 1);
    }
  }

  lemma {:induction false} NoPaymentIsFound(orders: seq<Order>, b: string)
    requires b == "" || forall j | 0 <= j < |orders| :: orders[j].braviveId != b
    ensures FindPayment(orders, b) == |orders|
  {
    if |orders| == 0 {
    } else {
      NoPaymentIsFound(orders[1..], b);
    }
  }

  // ----- Which text is which notice -----

  /** The text is the word, in whatever case. */
  predicate Says(status: Option<string>, word: string) { status.Some? && SameButForCase(status.value, word) }

  predicate AllUpper(word: string) { forall i | 0 <= i < |word| :: !('a' <= word[i] <= 'z') }

  lemma {:induction false} UpperStays(word: string)
    requires AllUpper(word)
    ensures ToUpper(word) == word
  {
    if |word| == 0 {
    } else {
      UpperStays(word[..|word| - 1]);
    }
  }

  lemma SaysUpper(status: Option<string>, word: string)
    requires AllUpper(word)
    ensures Says(status, word) <==> status.Some? && ToUpper(status.value) == word
  {
    UpperStays(word);
    if status.Some? { UpperIsCaseless(status.value, word); }
  }

  lemma SixWords(status: Option<string>)
    ensures Says(status, "APPROVED") <==> ParseNotice(status) == Approved
    ensures Says(status, "REJECTED") <==> ParseNotice(status) == Rejected
    ensures Says(status, "CANCELED") <==> ParseNotice(status) == Canceled
    ensures Says(status, "REFUNDED") <==> ParseNotice(status) == Refunded
    ensures Says(status, "CHARGEBACK") <==> ParseNotice(status) == Chargeback
    ensures Says(status, "PENDING") <==> ParseNotice(status) == Pending
  {
    SaysUpper(status, "APPROVED");
    SaysUpper(status, "REJECTED");
    SaysUpper(status, "CANCELED");
    SaysUpper(status, "REFUNDED");
    SaysUpper(status, "CHARGEBACK");
    SaysUpper(status, "PENDING");
  }

  // ----- What the rows become -----

  /** No Bigo row has been made for the order's number, and there is something to send. */
  ghost predicate CanSend(db: Db, o: Order) {
    o.credits != 0 && o.bigoId != "" && forall r | 0 <= r < |db.queue.rows| :: db.queue.rows[r].buOrderId != o.number
  }

  /** Only the order at id has changed, and of it the three statuses only. */
  ghost predicate OthersKept(db: Db, db': Db, id: OrderId) {
    && Known(db, id) && |db'.orders| == |db.orders| && SameOrder(db.orders[id], db'.orders[id])
    && forall i | 0 <= i < |db.orders| && i != id :: db'.orders[i] == db.orders[i]
  }

  /** The order's known coupon was confirmed, under the month of now. */
  ghost predicate CouponConfirmed(db: Db, db': Db, o: Order, now: nat)
    requires KnownUsage(db.ledger, o, 0)
  {
    && MovesMonth(db.ledger, db'.ledger, Used(db.ledger, o).terms.influencer, MonthOf(now), o.price)
    && KnownUsage(db'.ledger, o, 0)
    && Used(db'.ledger, o).timesUsed == Used(db.ledger, o).timesUsed + 1
    && Used(db'.ledger, o).totalSales == Used(db.ledger, o).totalSales + o.price
  }

  /** The order's known coupon was reverted, under the month of its creation if there is a row. */
  ghost predicate CouponReverted(db: Db, db': Db, o: Order)
    requires KnownUsage(db.ledger, o, 0)
  {
    var who, month := Used(db.ledger, o).terms.influencer, MonthOf(o.createdAt);
    && MovesMonth(db.ledger, db'.ledger, who, month,
                  if HasRow(db.ledger.months, who, month) then -(o.price as int) else 0)
    && KnownUsage(db'.ledger, o, 0)
    && Used(db'.ledger, o).timesUsed == Used(db.ledger, o).timesUsed - 1
    && Used(db'.ledger, o).totalSales == Used(db.ledger, o).totalSales - o.price
  }

  /** An approval with everything that follows from it. */
  ghost predicate ApprovedAs(db: Db, db': Db, id: OrderId, x: Answer, now: nat) {
    && OthersKept(db, db', id)
    && var o, o' := db.orders[id], db'.orders[id];
       && o'.payment == PaymentApproved
       && (if CanSend(db, o) && x.refusal.None? then
             && o'.status == Completed && o'.recharge == RechargeApproved
             && db'.completions == db.completions + [id] && HasSuccess(db'.queue, o')
             && (|o.usages| == 1 && KnownUsage(db.ledger, o, 0) ==> CouponConfirmed(db, db', o, now))
             && (|o.usages| == 0 ==> db'.ledger == db.ledger)
           else
             && o'.status == Processing && o'.recharge == RechargePending
             && db'.completions == db.completions && db'.ledger == db.ledger && db'.metrics == db.metrics)
       && (if CanSend(db, o) then |db'.queue.rows| == |db.queue.rows| + 1 else db'.queue == db.queue)
  }

  lemma DeliveredLedger(db: Db, id: OrderId, seqid: NonEmpty, x: Answer, now: nat)
    requires Known(db, id) && CanSend(db, db.orders[id]) && x.refusal.None?
    ensures var o := db.orders[id];
      HandleApproved(db, id, seqid, x, now).ledger
      == Confirm(db.ledger, id, o.(payment := PaymentApproved, status := Completed, recharge := RechargeApproved), MonthOf(now))
    ensures HandleApproved(db, id, seqid, x, now).completions == db.completions + [id]
  {
  }

  lemma SentRows(db: Db, id: OrderId, seqid: NonEmpty, x: Answer, now: nat)
    requires Known(db, id)
    ensures var q' := HandleApproved(db, id, seqid, x, now).queue;
      if CanSend(db, db.orders[id]) then |q'.rows| == |db.queue.rows| + 1 else q' == db.queue
  {
  }

  lemma ApprovedStatuses(db: Db, id: OrderId, seqid: NonEmpty, x: Answer, now: nat)
    requires Known(db, id)
    ensures var db' := HandleApproved(db, id, seqid, x, now);
      && OthersKept(db, db', id) && db'.orders[id].payment == PaymentApproved
      && (if CanSend(db, db.orders[id]) && x.refusal.None? then
            db'.orders[id].status == Completed && db'.orders[id].recharge == RechargeApproved
          else
            db'.orders[id].status == Processing && db'.orders[id].recharge == RechargePending
            && db'.completions == db.completions && db'.ledger == db.ledger && db'.metrics == db.metrics)
  {
  }

  lemma ApprovedHandled(db: Db, id: OrderId, seqid: NonEmpty, x: Answer, now: nat)
    requires Known(db, id)
    ensures ApprovedAs(db, HandleApproved(db, id, seqid, x, now), id, x, now)
  {
    ApprovedStatuses(db, id, seqid, x, now);
    SentRows(db, id, seqid, x, now);
    ApprovedIsCoherent(db, id, seqid, x, now);
    if CanSend(db, db.orders[id]) && x.refusal.None? {
      var o := db.orders[id];
      var done := o.(payment := PaymentApproved, status := Completed, recharge := RechargeApproved);
      DeliveredLedger(db, id, seqid, x, now);
      if |o.usages| == 1 && KnownUsage(db.ledger, o, 0) {
        ConfirmBooksMonth(db.ledger, id, done, MonthOf(now));
      }
    }
  }

  // ----- Main results -----

  lemma ApprovedIsHandled(db: Db, b: string, status: Option<string>, seqid: NonEmpty, x: Answer, now: nat, id: OrderId)
    requires IsPaymentOf(db.orders, b, id) && Says(status, "APPROVED") && db.orders[id].payment != PaymentApproved
    ensures ReceiveWebhook(db, b, status, seqid, x, now) == HandleApproved(db, id, seqid, x, now)
    ensures ReceivePoll(db, b, status, seqid, x, now) == HandleApproved(db, id, seqid, x, now)
  {
    PaymentIsFound(db.orders, b, id);
    SixWords(status);
  }

  /** "APPROVED" for an unapproved payment, by webhook or by poll: the payment is approved; if
      there is something to send and Bigo delivers it, the order is completed and recharged
      and its coupon confirmed, otherwise it is left processing. */
  lemma ApprovedText(db: Db, b: string, status: Option<string>, seqid: NonEmpty, x: Answer, now: nat, id: OrderId)
    requires IsPaymentOf(db.orders, b, id) && Says(status, "APPROVED") && db.orders[id].payment != PaymentApproved
    ensures ApprovedAs(db, ReceiveWebhook(db, b, status, seqid, x, now), id, x, now)
    ensures ApprovedAs(db, ReceivePoll(db, b, status, seqid, x, now), id, x, now)
  {
    ApprovedIsHandled(db, b, status, seqid, x, now, id);
    ApprovedHandled(db, id, seqid, x, now);
  }

  lemma DeliveredTallies(db: Db, id: OrderId, seqid: NonEmpty, x: Answer, now: nat)
    requires Known(db, id) && CanSend(db, db.orders[id]) && x.refusal.None?
    requires M.NoStrayRows(db.metrics, db.orders)
    ensures var db' := HandleApproved(db, id, seqid, x, now);
      exists booked: Db ::
        && Known(booked, id) && booked.orders == db'.orders && db' == Tally(booked, id)
        && booked.orders[id].status == Completed && M.NoStrayRows(booked.metrics, booked.orders)
  {
    ApprovedStatuses(db, id, seqid, x, now);
    var db1 := ApproveTx(db, id);
    var db3 := Respond(Dispatch(db1, id, seqid, now).value, |db1.queue.rows|, x, now);
    var booked := Book(CompleteTx(db3, id), id, now);
    GrowthKeepsNoStray(db.metrics, db.orders, booked.orders);
    assert HandleApproved(db, id, seqid, x, now) == Tally(booked, id);
  }

  /** A delivered order is counted at once: the rows of its store for its creation day and
      month, and for its product, count exactly the store's orders. */
  lemma DeliveredIsCounted(db: Db, b: string, status: Option<string>, seqid: NonEmpty, x: Answer, now: nat, id: OrderId)
    requires IsPaymentOf(db.orders, b, id) && Says(status, "APPROVED") && db.orders[id].payment != PaymentApproved
    requires CanSend(db, db.orders[id]) && x.refusal.None? && M.NoStrayRows(db.metrics, db.orders)
    ensures var o := db.orders[id];
      var db' := ReceiveWebhook(db, b, status, seqid, x, now);
      && DayStored(db', o.store, DayOf(o.createdAt)) && MonthStored(db', o.store, MonthOf(o.createdAt))
      && (o.product != "" ==> ProductsStored(db', o.store, MonthOf(o.createdAt)))
  {
    ApprovedIsHandled(db, b, status, seqid, x, now, id);
    ApprovedStatuses(db, id, seqid, x, now);
    DeliveredTallies(db, id, seqid, x, now);
    var booked: Db :| Known(booked, id)
      && booked.orders == HandleApproved(db, id, seqid, x, now).orders
      && HandleApproved(db, id, seqid, x, now) == Tally(booked, id)
      && booked.orders[id].status == Completed && M.NoStrayRows(booked.metrics, booked.orders);
    TallyCounts(booked, id);
  }

  /** "REJECTED" or "CANCELED" for an unrejected payment, by webhook or by poll. */
  lemma RejectedText(db: Db, b: string, status: Option<string>, seqid: NonEmpty, x: Answer, now: nat, id: OrderId)
    requires IsPaymentOf(db.orders, b, id) && (Says(status, "REJECTED") || Says(status, "CANCELED"))
    requires db.orders[id].payment != PaymentRejected
    ensures var o' := db.orders[id].(payment := PaymentRejected, status := Expired, recharge := RechargeRejected);
      && ReceiveWebhook(db, b, status, seqid, x, now) == db.(orders := db.orders[id := o'])
      && ReceivePoll(db, b, status, seqid, x, now) == db.(orders := db.orders[id := o'])
  {
    PaymentIsFound(db.orders, b, id);
    SixWords(status);
  }

  /** What a revert leaves beside the given order row. */
  ghost predicate RevertedAs(db: Db, db': Db, id: OrderId, o': Order)
    requires Known(db, id)
  {
    && db' == db.(orders := db.orders[id := o'], ledger := db'.ledger)
    && (|db.orders[id].usages| == 1 && KnownUsage(db.ledger, db.orders[id], 0) ==>
          CouponReverted(db, db', db.orders[id]))
    && (|db.orders[id].usages| == 0 ==> db'.ledger == db.ledger)
  }

  lemma RevertsCoupon(db: Db, id: OrderId)
    requires Known(db, id)
    ensures RevertedAs(db, RefundTx(db, id), id, db.orders[id].(status := Refounded))
    ensures RevertedAs(db, ChargebackTx(db, id), id,
              db.orders[id].(payment := PaymentRejected, status := Refounded, recharge := RechargeRejected))
  {
    var o := db.orders[id];
    if |o.usages| == 1 && KnownUsage(db.ledger, o, 0) {
      RevertBooksMonth(db.ledger, id, o.(status := Refounded), MonthOf(o.createdAt));
      RevertBooksMonth(db.ledger, id, o.(payment := PaymentRejected, status := Refounded, recharge := RechargeRejected),
                       MonthOf(o.createdAt));
    }
  }

  /** "REFUNDED" for an unrejected payment: the order is refunded, the payment and the recharge
      are kept, the coupon is reverted. A poll does nothing. */
  lemma RefundedText(db: Db, b: string, status: Option<string>, seqid: NonEmpty, x: Answer, now: nat, id: OrderId)
    requires IsPaymentOf(db.orders, b, id) && Says(status, "REFUNDED") && db.orders[id].payment != PaymentRejected
    ensures RevertedAs(db, ReceiveWebhook(db, b, status, seqid, x, now), id, db.orders[id].(status := Refounded))
    ensures ReceivePoll(db, b, status, seqid, x, now) == db
  {
    PaymentIsFound(db.orders, b, id);
    SixWords(status);
    RevertsCoupon(db, id);
  }

  /** "CHARGEBACK" for an unrejected payment: payment and recharge are rejected, the order is
      refunded, the coupon is reverted. A poll does nothing. */
  lemma ChargebackText(db: Db, b: string, status: Option<string>, seqid: NonEmpty, x: Answer, now: nat, id: OrderId)
    requires IsPaymentOf(db.orders, b, id) && Says(status, "CHARGEBACK") && db.orders[id].payment != PaymentRejected
    ensures RevertedAs(db, ReceiveWebhook(db, b, status, seqid, x, now), id,
              db.orders[id].(payment := PaymentRejected, status := Refounded, recharge := RechargeRejected))
    ensures ReceivePoll(db, b, status, seqid, x, now) == db
  {
    PaymentIsFound(db.orders, b, id);
    SixWords(status);
    RevertsCoupon(db, id);
  }

  /** Every other text, a missing one included, leaves all tables as they were: "IN_DISPUTE",
      "PENDING" and unknown words, and for a poll "REFUNDED" and "CHARGEBACK" as well. */
  lemma OtherText(db: Db, b: string, status: Option<string>, seqid: NonEmpty, x: Answer, now: nat)
    requires !Says(status, "APPROVED") && !Says(status, "REJECTED") && !Says(status, "CANCELED")
    ensures ReceivePoll(db, b, status, seqid, x, now) == db
    ensures !Says(status, "REFUNDED") && !Says(status, "CHARGEBACK") ==>
      ReceiveWebhook(db, b, status, seqid, x, now) == db
  {
    SixWords(status);
  }

  /** So does a text whose target the payment has already reached. */
  lemma RepeatedText(db: Db, b: string, status: Option<string>, seqid: NonEmpty, x: Answer, now: nat, id: OrderId)
    requires IsPaymentOf(db.orders, b, id)
    requires (db.orders[id].payment == PaymentApproved && Says(status, "APPROVED"))
      || (db.orders[id].payment == PaymentRejected && !Says(status, "APPROVED"))
    ensures ReceiveWebhook(db, b, status, seqid, x, now) == db && ReceivePoll(db, b, status, seqid, x, now) == db
  {
    PaymentIsFound(db.orders, b, id);
    SixWords(status);
  }

  /** A poll reports an update exactly when the status it maps to differs from the payment's. */
  lemma PollReport(db: Db, b: string, status: Option<string>, id: OrderId)
    requires IsPaymentOf(db.orders, b, id)
    ensures var p := db.orders[id].payment;
      PollReports(db, b, status)
      <==> (Says(status, "APPROVED") && p != PaymentApproved)
           || ((Says(status, "REJECTED") || Says(status, "CANCELED")) && p != PaymentRejected)
           || (Says(status, "PENDING") && p != PaymentPending)
  {
    PaymentIsFound(db.orders, b, id);
    SixWords(status);
  }

  /** And any text for an id that no payment has. */
  lemma UnknownPayment(db: Db, b: string, status: Option<string>, seqid: NonEmpty, x: Answer, now: nat)
    requires b == "" || forall i | 0 <= i < |db.orders| :: db.orders[i].braviveId != b
    ensures ReceiveWebhook(db, b, status, seqid, x, now) == db && ReceivePoll(db, b, status, seqid, x, now) == db
  {
    NoPaymentIsFound(db.orders, b);
  }
}
