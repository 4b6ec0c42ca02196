/** Lazy expiry equals eager expiry: sweeping during a run makes no difference to the
    outcome, as long as the orders are swept at the end. */
module LazyExpiry {
  import opened Options
  import opened Schema
  import opened Expiry
  import opened BigoApi
  import opened CouponLedger
  import opened Engine
  import opened Replay
  import Q = RetryQueue

  /** Events that sweep: an expiry by any filter, or the sweep in a metrics refresh. */
  predicate Sweeps(e: Event) { e.Expire? || e.Refresh? }

  function EraseSweeps(events: seq<Event>): seq<Event> {
    if |events| == 0 then []
    else
      var rest := EraseSweeps(events[..|events| - 1]);
      if Sweeps(events[|events| - 1]) then rest else rest + [events[|events| - 1]]
  }

  /** The eagerly swept order is the lazy one, or the lazy one is overdue by the deadline
      and the eager one has already expired. */
  ghost predicate OrdersAgree(eager: Order, lzy: Order, deadline: nat) {
    eager == lzy || (Overdue(lzy, deadline) && eager == lzy.(status := Expired))
  }

  ghost predicate Agree(eager: Db, lzy: Db, deadline: nat) {
    && eager.queue == lzy.queue && eager.ledger == lzy.ledger && eager.completions == lzy.completions
    && |eager.orders| == |lzy.orders|
    && (forall i | 0 <= i < |lzy.orders| :: OrdersAgree(eager.orders[i], lzy.orders[i], deadline))
  }

  lemma ApprovedAgree(e: Db, l: Db, deadline: nat, id: OrderId, seqid: NonEmpty, x: Answer, now: nat)
    requires Agree(e, l, deadline) && Known(l, id)
    ensures Agree(HandleApproved(e, id, seqid, x, now), HandleApproved(l, id, seqid, x, now), deadline)
  {
    assert OrdersAgree(e.orders[id], l.orders[id], deadline);
    assert ApproveTx(e, id).orders[id] == ApproveTx(l, id).orders[id];
  }

  lemma RevertsAgree(e: Db, l: Db, deadline: nat, id: OrderId)
    requires Agree(e, l, deadline) && Known(l, id)
    ensures Agree(RefundTx(e, id), RefundTx(l, id), deadline)
    ensures Agree(ChargebackTx(e, id), ChargebackTx(l, id), deadline)
    ensures Agree(RejectTx(e, id), RejectTx(l, id), deadline)
  {
    assert OrdersAgree(e.orders[id], l.orders[id], deadline);
  }

  lemma NoticeAgree(e: Db, l: Db, deadline: nat, id: OrderId, n: Notice, seqid: NonEmpty, x: Answer, now: nat)
    requires Agree(e, l, deadline) && Known(l, id)
    ensures Agree(HandleNotice(e, id, n, seqid, x, now), HandleNotice(l, id, n, seqid, x, now), deadline)
  {
    if n == Approved {
      ApprovedAgree(e, l, deadline, id, seqid, x, now);
    } else {
      RevertsAgree(e, l, deadline, id);
    }
  }

  lemma FindAgrees(e: Db, l: Db, deadline: nat, b: string)
    requires Agree(e, l, deadline)
    ensures FindPayment(e.orders, b) == FindPayment(l.orders, b)
    ensures forall i | 0 <= i < |l.orders| :: e.orders[i].payment == l.orders[i].payment
  {
    forall i | 0 <= i < |l.orders|
      ensures e.orders[i].braviveId == l.orders[i].braviveId && e.orders[i].payment == l.orders[i].payment
    {
      assert OrdersAgree(e.orders[i], l.orders[i], deadline);
    }
    FindPaymentStable(e.orders, l.orders, b);
  }

  lemma WebhookAgree(e: Db, l: Db, deadline: nat, b: string, n: Notice, seqid: NonEmpty, x: Answer, now: nat)
    requires Agree(e, l, deadline)
    ensures Agree(HandleWebhook(e, b, n, seqid, x, now), HandleWebhook(l, b, n, seqid, x, now), deadline)
  {
    FindAgrees(e, l, deadline, b);
    var id := FindPayment(l.orders, b);
    if id < |l.orders| {
      NoticeAgree(e, l, deadline, id, n, seqid, x, now);
    }
  }

  lemma StepAgree(e: Db, l: Db, deadline: nat, event: Event)
    requires Agree(e, l, deadline) && !Sweeps(event) && !event.Create?
    ensures Agree(Step(e, event), Step(l, event), deadline)
  {
    match event
    case Webhook(b, n, seqid, x, now) => WebhookAgree(e, l, deadline, b, n, seqid, x, now);
    case Poll(b, n, seqid, x, now) =>
      PollIsWebhook(e, b, n, seqid, x, now);
      PollIsWebhook(l, b, n, seqid, x, now);
      WebhookAgree(e, l, deadline, b, n, seqid, x, now);
    case _ =>
  }

  lemma SweepAgree(e: Db, l: Db, deadline: nat, f: Filter, now: nat)
    requires Agree(e, l, deadline) && now <= deadline
    ensures Agree(SweepOrders(e, f, now), l, deadline)
  {
    var swept := Sweep(e.orders, f, now);
    forall i | 0 <= i < |l.orders| ensures OrdersAgree(swept[i], l.orders[i], deadline) {
      assert OrdersAgree(e.orders[i], l.orders[i], deadline);
      assert swept[i] == ExpireOne(f, i, e.orders[i], now);
    }
  }

  lemma {:induction false} RunsAgree(db: Db, events: seq<Event>, deadline: nat)
    requires forall e | e in events :: !e.Create? && (Sweeps(e) ==> e.now <= deadline)
    ensures Agree(Run(db, events), Run(db, EraseSweeps(events)), deadline)
  {
    if |events| > 0 {
      var rest, last := events[..|events| - 1], events[|events| - 1];
      RunsAgree(db, rest, deadline);
      assert last in events;
      var e, l := Run(db, rest), Run(db, EraseSweeps(rest));
      if Sweeps(last) {
        match last
        case Expire(f, now) => SweepAgree(e, l, deadline, f, now);
        case Refresh(store, date, now) =>
          SweepAgree(e, l, deadline, Filter(Some(store), [], Some(date)), now);
      } else {
        StepAgree(e, l, deadline, last);
        assert (EraseSweeps(rest) + [last])[..|EraseSweeps(rest)|] == EraseSweeps(rest);
      }
    }
  }

  lemma FinalSweepAgrees(e: Db, l: Db, f: Filter, now: nat, id: OrderId)
    requires Agree(e, l, now) && Known(l, id) && Selects(f, id, l.orders[id])
    ensures SweepOrders(e, f, now).orders[id] == SweepOrders(l, f, now).orders[id]
  {
    assert OrdersAgree(e.orders[id], l.orders[id], now);
  }

  /** For any run of notices, polls, retries and sweeps, sweeping on the way and at the
      end leaves every order that the final sweep selects, the coupon ledger, the Bigo
      rows and the completions exactly as sweeping only at the end does. */
  lemma {:induction false} LazyEqualsEager(db: Db, events: seq<Event>, f: Filter, now: nat, id: OrderId)
    requires forall e | e in events :: !e.Create? && (Sweeps(e) ==> e.now <= now)
    requires Known(Run(db, EraseSweeps(events)), id)
    requires Selects(f, id, Run(db, EraseSweeps(events)).orders[id])
    ensures Known(Run(db, events), id)
    ensures SweepOrders(Run(db, events), f, now).orders[id]
            == SweepOrders(Run(db, EraseSweeps(events)), f, now).orders[id]
    ensures Run(db, events).ledger == Run(db, EraseSweeps(events)).ledger
    ensures Run(db, events).queue == Run(db, EraseSweeps(events)).queue
    ensures Run(db, events).completions == Run(db, EraseSweeps(events)).completions
  {
    RunsAgree(db, events, now);
    FinalSweepAgrees(Run(db, events), Run(db, EraseSweeps(events)), f, now, id);
  }
}
