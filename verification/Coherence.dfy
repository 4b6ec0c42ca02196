/** Status coherence: what the three statuses of an order can be together. */
module Coherence {
  import opened Options
  import opened Schema
  import opened Calendar
  import opened Expiry
  import opened BigoApi
  import opened Engine
  import CouponLedger
  import Metrics
  import Q = RetryQueue

  datatype Triple = Triple(payment: PaymentStatus, status: OrderStatus, recharge: RechargeStatus)

  function TripleOf(o: Order): Triple { Triple(o.payment, o.status, o.recharge) }

  const NINE: set<Triple> := {
    Triple(PaymentPending, Created, RechargePending),
    Triple(PaymentPending, Expired, RechargePending),
    Triple(PaymentPending, Refounded, RechargePending),
    Triple(PaymentApproved, Processing, RechargePending),
    Triple(PaymentApproved, Completed, RechargeApproved),
    Triple(PaymentApproved, Refounded, RechargePending),
    Triple(PaymentApproved, Refounded, RechargeApproved),
    Triple(PaymentRejected, Expired, RechargeRejected),
    Triple(PaymentRejected, Refounded, RechargeRejected)
  }

  /** Bigo has delivered what the order asks for. */
  ghost predicate HasSuccess(q: Q.Queue, o: Order) {
    exists r | 0 <= r < |q.rows| :: Fulfils(q.rows[r], o)
  }

  predicate Fulfils(row: Q.BigoRow, o: Order) {
    row.status == Q.Success && row.buOrderId == o.number && AsksFor(row.request, o)
  }

  ghost predicate OrderCoherent(db: Db, o: Order) {
    TripleOf(o) in NINE && (o.recharge == RechargeApproved ==> HasSuccess(db.queue, o))
  }

  ghost predicate Coherent(db: Db) {
    forall i | 0 <= i < |db.orders| :: OrderCoherent(db, db.orders[i])
  }

  /** Rows are only added, keep their order number and request, and stay delivered. */
  ghost predicate RowsGrow(q: Q.Queue, q': Q.Queue) {
    && |q.rows| <= |q'.rows|
    && (forall r | 0 <= r < |q.rows| ::
          q'.rows[r].buOrderId == q.rows[r].buOrderId && q'.rows[r].request == q.rows[r].request
          && (q.rows[r].status == Q.Success ==> q'.rows[r].status == Q.Success))
  }

  lemma OpenGrows(q: Q.Queue, number: string, dto: Body, seqid: NonEmpty, x: Answer, now: nat)
    requires Q.Open(q, number, dto, seqid, now).Some?
    ensures var q' := Q.AnswerFirst(Q.Open(q, number, dto, seqid, now).value, |q.rows|, x, now);
      && RowsGrow(q, q') && |q'.rows| == |q.rows| + 1
      && var row := q'.rows[|q.rows|];
         row.buOrderId == number && row.request == Stamp(dto, seqid) && (x.refusal.None? ==> row.status == Q.Success)
  {
  }

  lemma ApprovedGrows(db: Db, id: OrderId, seqid: NonEmpty, x: Answer, now: nat)
    requires Known(db, id)
    ensures RowsGrow(db.queue, HandleApproved(db, id, seqid, x, now).queue)
  {
    var o := ApproveTx(db, id).orders[id];
    if Q.Open(db.queue, o.number, DtoOf(o), seqid, now).Some? {
      OpenGrows(db.queue, o.number, DtoOf(o), seqid, x, now);
    }
  }

  lemma WebhookGrows(db: Db, braviveId: string, notice: Notice, seqid: NonEmpty, x: Answer, now: nat)
    ensures RowsGrow(db.queue, HandleWebhook(db, braviveId, notice, seqid, x, now).queue)
  {
    var id := FindPayment(db.orders, braviveId);
    if id < |db.orders| && notice == Approved { ApprovedGrows(db, id, seqid, x, now); }
  }

  lemma StepGrows(db: Db, e: Event)
    ensures RowsGrow(db.queue, Step(db, e).queue)
  {
    match e
    case Webhook(b, n, seqid, x, now) => WebhookGrows(db, b, n, seqid, x, now);
    case Poll(b, n, seqid, x, now) =>
      PollIsWebhook(db, b, n, seqid, x, now);
      WebhookGrows(db, b, n, seqid, x, now);
    case Direct(n, dto, seqid, x, now) =>
      if Q.Open(db.queue, n, dto, seqid, now).Some? { OpenGrows(db.queue, n, dto, seqid, x, now); }
    case Retry(r, x, now) => RetryGrows(db.queue, r, x, now);
    case Create(_) =>
    case Expire(_, _) =>
    case Refresh(_, _, _) =>
    case People(_) =>
  }

  lemma RetryGrows(q: Q.Queue, r: nat, x: Answer, now: nat)
    ensures RowsGrow(q, ProcessRetry(q, r, x, now))
  {
  }

  lemma DeliveryFulfils(db: Db, id: OrderId, seqid: NonEmpty, x: Answer, now: nat)
    requires Known(db, id) && Dispatchable(db.orders[id]) && x.refusal.None?
    requires Dispatch(db, id, seqid, now).Some?
    ensures HasSuccess(Respond(Dispatch(db, id, seqid, now).value, |db.queue.rows|, x, now).queue, db.orders[id])
  {
    var o := db.orders[id];
    DispatchAsks(o, seqid);
    OpenGrows(db.queue, o.number, DtoOf(o), seqid, x, now);
    assert Fulfils(Respond(Dispatch(db, id, seqid, now).value, |db.queue.rows|, x, now).queue.rows[|db.queue.rows|], o);
  }

  lemma SuccessIgnoresStatus(q: Q.Queue, o: Order, o': Order)
    requires SameOrder(o, o') && HasSuccess(q, o)
    ensures HasSuccess(q, o')
  {
    var r :| 0 <= r < |q.rows| && Fulfils(q.rows[r], o);
    assert Fulfils(q.rows[r], o');
  }

  lemma ApprovedIsCoherent(db: Db, id: OrderId, seqid: NonEmpty, x: Answer, now: nat)
    requires Known(db, id)
    ensures var db' := HandleApproved(db, id, seqid, x, now);
      |db'.orders| == |db.orders| && OrderCoherent(db', db'.orders[id])
      && forall i | 0 <= i < |db.orders| && i != id :: db'.orders[i] == db.orders[i]
  {
    var db1 := ApproveTx(db, id);
    if Dispatchable(db1.orders[id]) && Dispatch(db1, id, seqid, now).Some? && x.refusal.None? {
      DeliveryFulfils(db1, id, seqid, x, now);
      var db' := HandleApproved(db, id, seqid, x, now);
      SuccessIgnoresStatus(db'.queue, db1.orders[id], db'.orders[id]);
    }
  }

  lemma NoticeIsCoherent(db: Db, id: OrderId, notice: Notice, seqid: NonEmpty, x: Answer, now: nat)
    requires Known(db, id) && OrderCoherent(db, db.orders[id])
    ensures var db' := HandleNotice(db, id, notice, seqid, x, now);
      |db'.orders| == |db.orders| && OrderCoherent(db', db'.orders[id])
      && forall i | 0 <= i < |db.orders| && i != id :: db'.orders[i] == db.orders[i]
  {
    if notice == Approved {
      ApprovedIsCoherent(db, id, seqid, x, now);
    }
  }

  lemma OthersStayCoherent(db: Db, db': Db, id: OrderId)
    requires Coherent(db) && RowsGrow(db.queue, db'.queue)
    requires |db'.orders| == |db.orders| && Known(db, id) && OrderCoherent(db', db'.orders[id])
    requires forall i | 0 <= i < |db.orders| && i != id :: db'.orders[i] == db.orders[i]
    ensures Coherent(db')
  {
    forall i | 0 <= i < |db'.orders| ensures OrderCoherent(db', db'.orders[i]) {
      assert OrderCoherent(db, db.orders[i]);
    }
  }

  lemma WebhookIsCoherent(db: Db, braviveId: string, notice: Notice, seqid: NonEmpty, x: Answer, now: nat)
    requires Coherent(db)
    ensures Coherent(HandleWebhook(db, braviveId, notice, seqid, x, now))
  {
    var id := FindPayment(db.orders, braviveId);
    if id < |db.orders| && !Absorbed(db.orders[id], notice) {
      assert OrderCoherent(db, db.orders[id]);
      WebhookGrows(db, braviveId, notice, seqid, x, now);
      NoticeIsCoherent(db, id, notice, seqid, x, now);
      OthersStayCoherent(db, HandleNotice(db, id, notice, seqid, x, now), id);
    }
  }

  lemma StepKeepsCoherence(db: Db, e: Event)
    requires Coherent(db)
    ensures Coherent(Step(db, e))
  {
    match e
    case Webhook(b, n, seqid, x, now) => WebhookIsCoherent(db, b, n, seqid, x, now);
    case Poll(b, n, seqid, x, now) =>
      PollIsWebhook(db, b, n, seqid, x, now);
      WebhookIsCoherent(db, b, n, seqid, x, now);
    case Create(_) => QuietStep(db, e);
    case Expire(_, _) => QuietStep(db, e);
    case Retry(_, _, _) => QuietStep(db, e);
    case Direct(_, _, _, _, _) => QuietStep(db, e);
    case Refresh(_, _, _) => QuietStep(db, e);
    case People(_) => QuietStep(db, e);
  }

  /** What an event other than a notice does to the order table. */
  ghost predicate QuietOrders(orders: seq<Order>, orders': seq<Order>) {
    && |orders| <= |orders'|
    && (forall i | 0 <= i < |orders| ::
          orders'[i] == orders[i]
          || (orders[i].status == Created && orders[i].payment == PaymentPending
              && orders'[i] == orders[i].(status := Expired)))
    && (forall i | |orders| <= i < |orders'| ::
          TripleOf(orders'[i]) == Triple(PaymentPending, Created, RechargePending))
  }

  lemma QuietEvents(db: Db, e: Event)
    requires !e.Webhook? && !e.Poll?
    ensures QuietOrders(db.orders, Step(db, e).orders)
  {
  }

  lemma QuietKeepsCoherent(db: Db, db': Db)
    requires Coherent(db) && RowsGrow(db.queue, db'.queue) && QuietOrders(db.orders, db'.orders)
    ensures Coherent(db')
  {
    forall i | 0 <= i < |db'.orders| ensures OrderCoherent(db', db'.orders[i]) {
      if i < |db.orders| { assert OrderCoherent(db, db.orders[i]); }
    }
  }

  lemma QuietStep(db: Db, e: Event)
    requires Coherent(db) && !e.Webhook? && !e.Poll?
    ensures Coherent(Step(db, e))
  {
    StepGrows(db, e);
    QuietEvents(db, e);
    QuietKeepsCoherent(db, Step(db, e));
  }

  lemma {:induction false} RunIsCoherent(db: Db, events: seq<Event>)
    requires Coherent(db)
    ensures Coherent(Run(db, events))
  {
    if |events| == 0 {
    } else {
      RunIsCoherent(db, events[..|events| - 1]);
      StepKeepsCoherence(Run(db, events[..|events| - 1]), events[|events| - 1]);
    }
  }

  ghost predicate StatusFacts(db: Db, o: Order) {
    && (o.status == Processing ==> o.payment == PaymentApproved && o.recharge == RechargePending)
    && (o.status == Completed ==> o.payment == PaymentApproved && o.recharge == RechargeApproved)
    && (o.payment == PaymentRejected <==> o.recharge == RechargeRejected)
    && (o.payment == PaymentRejected ==> o.status == Expired || o.status == Refounded)
    && (o.recharge == RechargeApproved ==> HasSuccess(db.queue, o))
  }

  lemma CoherentFacts(db: Db, o: Order)
    requires OrderCoherent(db, o)
    ensures StatusFacts(db, o)
  {
  }

  /** In every state of every run: processing orders are paid and await their recharge,
      completed ones are paid and recharged, payment and recharge are rejected together
      and then the order is expired or refunded, and an approved recharge has a SUCCESS
      row under its order number. */
  lemma {:induction false} StatusesCohere(db: Db, events: seq<Event>, id: OrderId)
    requires Initial(db) && id < |Run(db, events).orders|
    ensures StatusFacts(Run(db, events), Run(db, events).orders[id])
  {
    RunIsCoherent(db, events);
    assert OrderCoherent(Run(db, events), Run(db, events).orders[id]);
    CoherentFacts(Run(db, events), Run(db, events).orders[id]);
  }

  // ----- Exactly nine -----

  /** Some order of some run has the three statuses. */
  ghost predicate Reachable(t: Triple) {
    exists db: Db, events: seq<Event>, i: nat | Initial(db) ::
      i < |Run(db, events).orders| && TripleOf(Run(db, events).orders[i]) == t
  }

  lemma Reached(db: Db, events: seq<Event>, i: nat)
    requires Initial(db) && i < |Run(db, events).orders|
    ensures Reachable(TripleOf(Run(db, events).orders[i]))
  {
  }

  const YES := Answer(1, None)
  const NO := Answer(2, Some(500001))

  function Buy(): Event {
    Create(Request("N1", "s", "u", "b", "p", 100, 1000, 1000, "", "pay", 0))
  }
  function Tell(notice: Notice, x: Answer): Event { Webhook("pay", notice, "seq", x, 1) }

  function Start(): Db {
    Db([], [], Q.EMPTY, CouponLedger.Ledger([], [], []), Metrics.Tables(map[], map[], map[]), [])
  }
  lemma OneStep(db: Db, events: seq<Event>, e: Event)
    ensures Run(db, events + [e]) == Step(Run(db, events), e)
  {
    assert (events + [e])[..|events|] == events;
  }

  lemma FourSteps(db: Db, a: Event, b: Event, c: Event, d: Event)
    ensures Run(db, [a] + [b] + [c] + [d]) == Step(Step(Step(Step(db, a), b), c), d)
  {
    Runs1(db, a);
    OneStep(db, [a], b);
    OneStep(db, [a] + [b], c);
    OneStep(db, [a] + [b] + [c], d);
  }

  ghost predicate OnlyOrder(db: Db, t: Triple) {
    |db.orders| == 1 && db.orders[0].braviveId == "pay" && Dispatchable(db.orders[0])
    && db.orders[0].createdAt == 0 && TripleOf(db.orders[0]) == t
  }

  lemma Bought()
    ensures OnlyOrder(Step(Start(), Buy()), Triple(PaymentPending, Created, RechargePending))
    ensures Step(Start(), Buy()).queue == Q.EMPTY
  {
  }

  lemma ToldApproved(db: Db, t: Triple, x: Answer)
    requires OnlyOrder(db, t) && t.payment == PaymentPending && db.queue == Q.EMPTY
    ensures OnlyOrder(Step(db, Tell(Approved, x)),
      if x.refusal.None? then Triple(PaymentApproved, Completed, RechargeApproved)
      else Triple(PaymentApproved, Processing, RechargePending))
  {
    assert FindPayment(db.orders, "pay") == 0;
  }

  lemma ToldOther(db: Db, t: Triple, x: Answer)
    requires OnlyOrder(db, t) && t.payment != PaymentRejected
    ensures OnlyOrder(Step(db, Tell(Rejected, x)), Triple(PaymentRejected, Expired, RechargeRejected))
    ensures OnlyOrder(Step(db, Tell(Chargeback, x)), Triple(PaymentRejected, Refounded, RechargeRejected))
    ensures OnlyOrder(Step(db, Tell(Refunded, x)), t.(status := Refounded))
  {
    assert FindPayment(db.orders, "pay") == 0;
  }

  lemma Runs1(db: Db, e: Event)
    ensures Run(db, [e]) == Step(db, e)
  {
    OneStep(db, [], e);
    assert [] + [e] == [e];
  }

  /** A run and one event more reach what the event leaves. */
  lemma ReachesBy(db: Db, events: seq<Event>, e: Event, t: Triple)
    requires Initial(db) && OnlyOrder(Step(Run(db, events), e), t)
    ensures Reachable(t)
  {
    OneStep(db, events, e);
    Reached(db, events + [e], 0);
  }

  lemma ReachesOne(t: Triple, e: Event)
    requires OnlyOrder(Step(Step(Start(), Buy()), e), t)
    ensures Reachable(t)
  {
    Runs1(Start(), Buy());
    ReachesBy(Start(), [Buy()], e, t);
  }

  lemma ReachesTwo(t: Triple, d: Event, e: Event)
    requires OnlyOrder(Step(Step(Step(Start(), Buy()), d), e), t)
    ensures Reachable(t)
  {
    Runs1(Start(), Buy());
    OneStep(Start(), [Buy()], d);
    ReachesBy(Start(), [Buy()] + [d], e, t);
  }

  lemma PendingReached(status: OrderStatus)
    requires status == Created || status == Expired || status == Refounded
    ensures Reachable(Triple(PaymentPending, status, RechargePending))
  {
    var t := Triple(PaymentPending, status, RechargePending);
    Bought();
    if status == Created {
      Runs1(Start(), Buy());
      Reached(Start(), [Buy()], 0);
    } else if status == Expired {
      ReachesOne(t, Expire(EVERYTHING, 25 * HOUR));
    } else {
      ToldOther(Step(Start(), Buy()), Triple(PaymentPending, Created, RechargePending), YES);
      ReachesOne(t, Tell(Refunded, YES));
    }
  }

  lemma RejectedReached(status: OrderStatus)
    requires status == Expired || status == Refounded
    ensures Reachable(Triple(PaymentRejected, status, RechargeRejected))
  {
    var t := Triple(PaymentRejected, status, RechargeRejected);
    Bought();
    ToldOther(Step(Start(), Buy()), Triple(PaymentPending, Created, RechargePending), YES);
    ReachesOne(t, Tell(if status == Expired then Rejected else Chargeback, YES));
  }

  lemma ApprovedReached(x: Answer, t: Triple)
    requires t == if x.refusal.None? then Triple(PaymentApproved, Completed, RechargeApproved)
                  else Triple(PaymentApproved, Processing, RechargePending)
    ensures Reachable(t) && Reachable(t.(status := Refounded))
  {
    var db := Step(Start(), Buy());
    Bought();
    ToldApproved(db, Triple(PaymentPending, Created, RechargePending), x);
    ReachesOne(t, Tell(Approved, x));
    ToldOther(Step(db, Tell(Approved, x)), t, YES);
    ReachesTwo(t.(status := Refounded), Tell(Approved, x), Tell(Refunded, YES));
  }

  lemma NineOnly(db: Db, events: seq<Event>, i: nat)
    requires Initial(db) && i < |Run(db, events).orders|
    ensures TripleOf(Run(db, events).orders[i]) in NINE
  {
    RunIsCoherent(db, events);
    assert OrderCoherent(Run(db, events), Run(db, events).orders[i]);
  }

  lemma NineReached(t: Triple)
    requires t in NINE
    ensures Reachable(t)
  {
    match t.payment
    case PaymentPending =>
      assert t == Triple(PaymentPending, t.status, RechargePending);
      PendingReached(t.status);
    case PaymentRejected =>
      assert t == Triple(PaymentRejected, t.status, RechargeRejected);
      RejectedReached(t.status);
    case PaymentApproved =>
      ApprovedInNine(t);
  }

  lemma ApprovedInNine(t: Triple)
    requires t in NINE && t.payment == PaymentApproved
    ensures Reachable(t)
  {
    var x := if t.recharge == RechargeApproved then YES else NO;
    var paid := if t.recharge == RechargeApproved then Triple(PaymentApproved, Completed, RechargeApproved)
                else Triple(PaymentApproved, Processing, RechargePending);
    assert t == paid || t == paid.(status := Refounded);
    ApprovedReached(x, paid);
  }

  lemma NineOnlyReached(t: Triple)
    requires Reachable(t)
    ensures t in NINE
  {
    var db: Db, events: seq<Event>, i: nat :| Initial(db)
      && i < |Run(db, events).orders| && TripleOf(Run(db, events).orders[i]) == t;
    NineOnly(db, events, i);
  }

  /** The status triples that orders can reach are exactly the nine. */
  lemma ExactlyNine(t: Triple)
    ensures Reachable(t) <==> t in NINE
  {
    if t in NINE { NineReached(t); }
    if Reachable(t) { NineOnlyReached(t); }
  }
}
