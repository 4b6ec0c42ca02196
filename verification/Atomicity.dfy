/** Atomic events are special interleavings: each is the uninterrupted run of its
    transactions. */
module Atomicity {
  import opened Options
  import opened Schema
  import opened Expiry
  import opened BigoApi
  import opened Engine
  import opened Interleaving
  import Q = RetryQueue
  import M = Metrics

  /** The transactions of an event, run without interruption by a fresh handler. */
  function ActionsOf(w: World, e: Event): seq<Action> {
    match e
    case Create(q) =>
      if NewOrder(w.db.orders, w.db.ledger.coupons, q).Some? then [Validate(q), Insert(|w.drafts|, q.now)]
      else [Validate(q)]
    case Webhook(b, n, seqid, x, now) =>
      var id := FindPayment(w.db.orders, b);
      if id == |w.db.orders| || Absorbed(w.db.orders[id], n) then [] else NoticeActions(w, id, n, seqid, x, now)
    case Poll(b, n, seqid, x, now) =>
      if !PollUpdates(w.db, b, n) then []
      else NoticeActions(w, FindPayment(w.db.orders, b), n, seqid, x, now)
    case Expire(f, now) => [SweepBy(f, now)]
    case Retry(r, x, now) =>
      if Rings(w.db.queue, r, now)
      then [Fires(r, now), RetryHears(r, x, now)] else [Fires(r, now)]
    case Direct(n, dto, seqid, x, now) =>
      if Q.Used(w.db.queue.rows, n) then [] else [SendDirect(n, dto, seqid, now), DirectHears(|w.db.queue.rows|, x, now)]
    case Refresh(store, date, now) => [SweepBy(Filter(Some(store), [], Some(date)), now), RefreshRows(store, date)]
    case People(customers) => [ChangePeople(customers)]
  }

  function NoticeActions(w: World, id: OrderId, n: Notice, seqid: NonEmpty, x: Answer, now: nat): seq<Action> {
    match n
    case Approved =>
      var h := |w.handlers|;
      [Arrive(id), Approve(h), Send(h, seqid, now), Hear(h, x, now), Complete(h), BookCoupons(h, now), TallyOrder(h)]
    case Rejected | Canceled => [Reject(id)]
    case Refunded => [Refund(id)]
    case Chargeback => [ChargeBack(id)]
    case _ => []
  }

  function RunFrom(w: World, actions: seq<Action>): World
    decreases |actions|
  {
    if |actions| == 0 then w else RunFrom(Exec(w, actions[0]), actions[1..])
  }

  lemma {:induction false} RunFromIsRunAll(w: World, before: seq<Action>, actions: seq<Action>)
    ensures RunFrom(RunAll(w, before), actions) == RunAll(w, before + actions)
    decreases |actions|
  {
    if |actions| == 0 {
      assert before + actions == before;
    } else {
      var longer := before + [actions[0]];
      assert longer[..|before|] == before;
      assert before + actions == longer + actions[1..];
      RunFromIsRunAll(w, longer, actions[1..]);
    }
  }

  lemma FirstAction(w: World, a: Action, rest: seq<Action>)
    ensures RunFrom(w, [a] + rest) == RunFrom(Exec(w, a), rest)
  {
    assert ([a] + rest)[1..] == rest;
  }

  lemma FewActions(w: World, a: Action, b: Action)
    ensures RunFrom(w, []) == w && RunFrom(w, [a]) == Exec(w, a) && RunFrom(w, [a, b]) == Exec(Exec(w, a), b)
  {
    assert [a] == [a] + [] && [b] == [b] + [] && [a, b] == [a] + [b];
    FirstAction(w, a, []);
    FirstAction(w, a, [b]);
    FirstAction(Exec(w, a), b, []);
  }

  /** The world in which only a fresh last handler has moved. */
  function Moved(w: World, db: Db, id: OrderId, pc: Pc): World {
    w.(db := db, handlers := w.handlers + [Handler(id, pc)])
  }

  lemma GotoMoves(w: World, db: Db, id: OrderId, pc: Pc, db': Db, pc': Pc)
    ensures Goto(Moved(w, db, id, pc), |w.handlers|, db', pc') == Moved(w, db', id, pc')
  {
  }

  lemma EndedStays(w: World, db: Db, id: OrderId, a: Action)
    requires MovesHandler(a) && a.h == |w.handlers|
    ensures Exec(Moved(w, db, id, Ended), a) == Moved(w, db, id, Ended)
  {
  }

  lemma EndedRuns(w: World, db: Db, id: OrderId, rest: seq<Action>)
    requires forall k | 0 <= k < |rest| :: MovesHandler(rest[k]) && rest[k].h == |w.handlers|
    ensures RunFrom(Moved(w, db, id, Ended), rest) == Moved(w, db, id, Ended)
    decreases |rest|
  {
    if |rest| == 0 {
    } else {
      EndedStays(w, db, id, rest[0]);
      EndedRuns(w, db, id, rest[1..]);
    }
  }

  lemma FinishesDelivery(w: World, db: Db, id: OrderId, now: nat)
    requires Known(db, id)
    ensures var h := |w.handlers|;
      RunFrom(Moved(w, db, id, ToComplete), [Complete(h)] + ([BookCoupons(h, now)] + ([TallyOrder(h)] + [])))
      == Moved(w, Tally(Book(CompleteTx(db, id), id, now), id), id, Ended)
  {
    var h := |w.handlers|;
    var db4 := CompleteTx(db, id);
    var db5 := Book(db4, id, now);
    FirstAction(Moved(w, db, id, ToComplete), Complete(h), [BookCoupons(h, now)] + ([TallyOrder(h)] + []));
    GotoMoves(w, db, id, ToComplete, db4, ToBook);
    FirstAction(Moved(w, db4, id, ToBook), BookCoupons(h, now), [TallyOrder(h)] + []);
    GotoMoves(w, db4, id, ToBook, db5, ToTally);
    FirstAction(Moved(w, db5, id, ToTally), TallyOrder(h), []);
    GotoMoves(w, db5, id, ToTally, Tally(db5, id), Ended);
  }

  /** From the answer to the end. */
  lemma FinishesHandler(w: World, db: Db, id: OrderId, x: Answer, now: nat, row: nat)
    requires Known(db, id)
    ensures var h := |w.handlers|;
      var db3 := Respond(db, row, x, now);
      RunFrom(Moved(w, db, id, Awaiting(row)), [Hear(h, x, now), Complete(h), BookCoupons(h, now), TallyOrder(h)])
      == Moved(w, if x.refusal.Some? then db3 else Tally(Book(CompleteTx(db3, id), id, now), id), id, Ended)
  {
    var h := |w.handlers|;
    var db3 := Respond(db, row, x, now);
    var rest := [Complete(h)] + ([BookCoupons(h, now)] + ([TallyOrder(h)] + []));
    FirstAction(Moved(w, db, id, Awaiting(row)), Hear(h, x, now), rest);
    assert [Hear(h, x, now)] + rest == [Hear(h, x, now), Complete(h), BookCoupons(h, now), TallyOrder(h)];
    if x.refusal.Some? {
      GotoMoves(w, db, id, Awaiting(row), db3, Ended);
      EndedRuns(w, db3, id, rest);
    } else {
      GotoMoves(w, db, id, Awaiting(row), db3, ToComplete);
      FinishesDelivery(w, db3, id, now);
    }
  }

  /** From the dispatch to the end. */
  lemma DispatchesHandler(w: World, db: Db, id: OrderId, seqid: NonEmpty, x: Answer, now: nat)
    requires Known(db, id)
    ensures var h := |w.handlers|;
      RunFrom(Moved(w, db, id, ToDispatch),
              [Send(h, seqid, now)] + [Hear(h, x, now), Complete(h), BookCoupons(h, now), TallyOrder(h)]).db
      == match Dispatch(db, id, seqid, now)
         case None => db
         case Some(db2) =>
           var db3 := Respond(db2, |db.queue.rows|, x, now);
           if x.refusal.Some? then db3 else Tally(Book(CompleteTx(db3, id), id, now), id)
  {
    var h := |w.handlers|;
    var tail := [Hear(h, x, now), Complete(h), BookCoupons(h, now), TallyOrder(h)];
    FirstAction(Moved(w, db, id, ToDispatch), Send(h, seqid, now), tail);
    match Dispatch(db, id, seqid, now)
    case Some(db2) =>
      GotoMoves(w, db, id, ToDispatch, db2, Awaiting(|db.queue.rows|));
      FinishesHandler(w, db2, id, x, now, |db.queue.rows|);
    case None =>
      GotoMoves(w, db, id, ToDispatch, db, Ended);
      EndedRuns(w, db, id, tail);
  }

  function AfterApproval(o: Order): Pc { if Dispatchable(o) then ToDispatch else Ended }

  /** The first transaction of a fresh handler. */
  lemma ApprovesHandler(w: World, id: OrderId, tail: seq<Action>)
    requires Known(w.db, id)
    ensures RunFrom(Moved(w, w.db, id, ToApprove), [Approve(|w.handlers|)] + tail)
            == RunFrom(Moved(w, ApproveTx(w.db, id), id, AfterApproval(w.db.orders[id])), tail)
  {
    var h := |w.handlers|;
    FirstAction(Moved(w, w.db, id, ToApprove), Approve(h), tail);
    GotoMoves(w, w.db, id, ToApprove, ApproveTx(w.db, id), AfterApproval(w.db.orders[id]));
  }

  lemma ArrivesHandler(w: World, id: OrderId, tail: seq<Action>)
    requires Known(w.db, id) && w.db.orders[id].payment != PaymentApproved
    ensures RunFrom(w, [Arrive(id)] + tail) == RunFrom(Moved(w, w.db, id, ToApprove), tail)
  {
    FirstAction(w, Arrive(id), tail);
  }

  /** Up to the dispatch. */
  lemma RunsToDispatch(w: World, id: OrderId, tail: seq<Action>)
    requires Known(w.db, id) && w.db.orders[id].payment != PaymentApproved
    ensures RunFrom(w, [Arrive(id)] + ([Approve(|w.handlers|)] + tail))
            == RunFrom(Moved(w, ApproveTx(w.db, id), id, AfterApproval(w.db.orders[id])), tail)
  {
    ArrivesHandler(w, id, [Approve(|w.handlers|)] + tail);
    ApprovesHandler(w, id, tail);
  }

  function TailActions(h: nat, seqid: NonEmpty, x: Answer, now: nat): seq<Action> {
    [Send(h, seqid, now)] + [Hear(h, x, now), Complete(h), BookCoupons(h, now), TallyOrder(h)]
  }

  lemma DispatchableRunsThrough(w: World, id: OrderId, seqid: NonEmpty, x: Answer, now: nat)
    requires Known(w.db, id) && w.db.orders[id].payment != PaymentApproved && Dispatchable(w.db.orders[id])
    ensures var h := |w.handlers|;
      RunFrom(w, [Arrive(id)] + ([Approve(h)] + TailActions(h, seqid, x, now))).db
      == HandleApproved(w.db, id, seqid, x, now)
  {
    RunsToDispatch(w, id, TailActions(|w.handlers|, seqid, x, now));
    DispatchesHandler(w, ApproveTx(w.db, id), id, seqid, x, now);
  }

  /** Without a recharge to dispatch nothing follows the first transaction. */
  lemma PlainRuns(w: World, id: OrderId, tail: seq<Action>)
    requires Known(w.db, id) && w.db.orders[id].payment != PaymentApproved && !Dispatchable(w.db.orders[id])
    requires forall k | 0 <= k < |tail| :: MovesHandler(tail[k]) && tail[k].h == |w.handlers|
    ensures RunFrom(w, [Arrive(id)] + ([Approve(|w.handlers|)] + tail)) == Moved(w, ApproveTx(w.db, id), id, Ended)
  {
    RunsToDispatch(w, id, tail);
    EndedRuns(w, ApproveTx(w.db, id), id, tail);
  }

  lemma TailMovesHandler(h: nat, seqid: NonEmpty, x: Answer, now: nat)
    ensures var tail := TailActions(h, seqid, x, now);
      forall k | 0 <= k < |tail| :: MovesHandler(tail[k]) && tail[k].h == h
  {
  }

  lemma PlainApproved(db: Db, id: OrderId, seqid: NonEmpty, x: Answer, now: nat)
    requires Known(db, id) && !Dispatchable(db.orders[id])
    ensures HandleApproved(db, id, seqid, x, now) == ApproveTx(db, id)
  {
  }

  lemma PlainRunsThrough(w: World, id: OrderId, seqid: NonEmpty, x: Answer, now: nat)
    requires Known(w.db, id) && w.db.orders[id].payment != PaymentApproved && !Dispatchable(w.db.orders[id])
    ensures var h := |w.handlers|;
      RunFrom(w, [Arrive(id)] + ([Approve(h)] + TailActions(h, seqid, x, now))).db
      == HandleApproved(w.db, id, seqid, x, now)
  {
    TailMovesHandler(|w.handlers|, seqid, x, now);
    PlainRuns(w, id, TailActions(|w.handlers|, seqid, x, now));
    PlainApproved(w.db, id, seqid, x, now);
  }

  /** A fresh handler that runs through does what the atomic handler does. */
  lemma HandlerRunsThrough(w: World, id: OrderId, seqid: NonEmpty, x: Answer, now: nat)
    requires Known(w.db, id) && w.db.orders[id].payment != PaymentApproved
    ensures RunFrom(w, NoticeActions(w, id, Approved, seqid, x, now)).db
            == HandleApproved(w.db, id, seqid, x, now)
  {
    var h := |w.handlers|;
    assert NoticeActions(w, id, Approved, seqid, x, now)
        == [Arrive(id)] + ([Approve(h)] + TailActions(h, seqid, x, now));
    if Dispatchable(w.db.orders[id]) {
      DispatchableRunsThrough(w, id, seqid, x, now);
    } else {
      PlainRunsThrough(w, id, seqid, x, now);
    }
  }

  lemma ProperActions(w: World, e: Event)
    requires e.Direct? ==> Q.ProperDto(e.number, e.dto)
    ensures forall a | a in ActionsOf(w, e) :: Proper(a)
  {
  }

  lemma RejectsAlone(w: World, id: OrderId)
    requires Known(w.db, id)
    ensures RunFrom(w, [Reject(id)]).db == RejectTx(w.db, id)
  {
    FewActions(w, Reject(id), Reject(id));
  }

  lemma RefundsAlone(w: World, id: OrderId)
    requires Known(w.db, id)
    ensures RunFrom(w, [Refund(id)]).db == RefundTx(w.db, id)
  {
    FewActions(w, Refund(id), Refund(id));
  }

  lemma ChargesBackAlone(w: World, id: OrderId)
    requires Known(w.db, id)
    ensures RunFrom(w, [ChargeBack(id)]).db == ChargebackTx(w.db, id)
  {
    FewActions(w, ChargeBack(id), ChargeBack(id));
  }

  lemma NoticeUninterrupted(w: World, id: OrderId, n: Notice, seqid: NonEmpty, x: Answer, now: nat)
    requires Known(w.db, id) && (n == Approved ==> w.db.orders[id].payment != PaymentApproved)
    ensures RunFrom(w, NoticeActions(w, id, n, seqid, x, now)).db == HandleNotice(w.db, id, n, seqid, x, now)
  {
    match n
    case Approved => HandlerRunsThrough(w, id, seqid, x, now);
    case Rejected | Canceled => RejectsAlone(w, id);
    case Refunded => RefundsAlone(w, id);
    case Chargeback => ChargesBackAlone(w, id);
    case _ =>
  }

  lemma WebhookUninterrupted(w: World, b: string, n: Notice, seqid: NonEmpty, x: Answer, now: nat)
    ensures RunFrom(w, ActionsOf(w, Webhook(b, n, seqid, x, now))).db == HandleWebhook(w.db, b, n, seqid, x, now)
  {
    var id := FindPayment(w.db.orders, b);
    if id < |w.db.orders| && !Absorbed(w.db.orders[id], n) {
      NoticeUninterrupted(w, id, n, seqid, x, now);
    }
  }

  lemma PollUninterrupted(w: World, b: string, n: Notice, seqid: NonEmpty, x: Answer, now: nat)
    ensures RunFrom(w, ActionsOf(w, Poll(b, n, seqid, x, now))).db == HandlePoll(w.db, b, n, seqid, x, now)
  {
    if PollUpdates(w.db, b, n) {
      NoticeUninterrupted(w, FindPayment(w.db.orders, b), n, seqid, x, now);
    }
  }

  lemma RetryUninterrupted(w: World, r: nat, x: Answer, now: nat)
    ensures RunFrom(w, [Fires(r, now)]).db == w.db.(queue := Q.Fire(w.db.queue, r, now))
    ensures RunFrom(w, [Fires(r, now), RetryHears(r, x, now)]).db
            == w.db.(queue := Q.AnswerRetry(Q.Fire(w.db.queue, r, now), r, x, now))
  {
    FewActions(w, Fires(r, now), RetryHears(r, x, now));
    RetryActions(w, w.db.queue, r, x, now);
    RetryActions(w, Q.Fire(w.db.queue, r, now), r, x, now);
  }

  lemma RetryActions(w: World, q: Q.Queue, r: nat, x: Answer, now: nat)
    ensures Exec(OnQueue(w, q), Fires(r, now)) == OnQueue(w, Q.Fire(q, r, now))
    ensures Exec(OnQueue(w, q), RetryHears(r, x, now)) == OnQueue(w, Q.AnswerRetry(q, r, x, now))
    ensures OnQueue(w, w.db.queue) == w
  {
  }

  /** No handler awaits a row that does not exist yet. */
  ghost predicate AwaitsKnown(w: World) {
    forall h | 0 <= h < |w.handlers| && w.handlers[h].pc.Awaiting? :: w.handlers[h].pc.row < |w.db.queue.rows|
  }

  lemma HandlerKeepsAwaits(w: World, a: Action)
    requires AwaitsKnown(w) && MovesHandler(a)
    ensures AwaitsKnown(Exec(w, a))
  {
  }

  lemma OtherKeepsAwaits(w: World, a: Action)
    requires AwaitsKnown(w) && !MovesHandler(a)
    ensures AwaitsKnown(Exec(w, a))
  {
  }

  lemma {:induction false} RunKeepsAwaits(w: World, actions: seq<Action>)
    requires AwaitsKnown(w)
    ensures AwaitsKnown(RunAll(w, actions))
  {
    if |actions| == 0 {
    } else {
      var before, last := RunAll(w, actions[..|actions| - 1]), actions[|actions| - 1];
      RunKeepsAwaits(w, actions[..|actions| - 1]);
      if MovesHandler(last) { HandlerKeepsAwaits(before, last); } else { OtherKeepsAwaits(before, last); }
    }
  }

  lemma CreateUninterrupted(w: World, q: Request)
    ensures RunFrom(w, ActionsOf(w, Create(q))).db == CreateOrder(w.db, q)
  {
    FewActions(w, Validate(q), Insert(|w.drafts|, q.now));
    var quote := QuoteFor(w.db.orders, w.db.ledger.coupons, q);
    if Agreed(q, quote) {
      ValidateDrafts(w, q, quote);
      InsertAppends(w.(drafts := w.drafts + [Draft(q, quote)]), |w.drafts|, q.now);
      assert q.(now := q.now) == q;
    }
  }

  lemma SendsDirect(w: World, n: string, dto: Body, seqid: NonEmpty, now: nat)
    requires !Q.Used(w.db.queue.rows, n)
    ensures Exec(w, SendDirect(n, dto, seqid, now)) == OnQueue(w, Q.Open(w.db.queue, n, dto, seqid, now).value)
  {
  }

  lemma HearsDirect(w: World, r: nat, x: Answer, now: nat)
    requires forall h | 0 <= h < |w.handlers| :: w.handlers[h].pc != Awaiting(r)
    ensures Exec(w, DirectHears(r, x, now)) == w.(db := Respond(w.db, r, x, now))
  {
  }

  lemma DirectUninterrupted(w: World, n: string, dto: Body, seqid: NonEmpty, x: Answer, now: nat)
    requires AwaitsKnown(w)
    ensures RunFrom(w, ActionsOf(w, Direct(n, dto, seqid, x, now))).db == DirectRecharge(w.db, n, dto, seqid, x, now)
  {
    var r := |w.db.queue.rows|;
    FewActions(w, SendDirect(n, dto, seqid, now), DirectHears(r, x, now));
    if !Q.Used(w.db.queue.rows, n) {
      SendsDirect(w, n, dto, seqid, now);
      HearsDirect(OnQueue(w, Q.Open(w.db.queue, n, dto, seqid, now).value), r, x, now);
    }
  }

  lemma SweepsTo(w: World, f: Filter, now: nat)
    ensures Exec(w, SweepBy(f, now)) == w.(db := SweepOrders(w.db, f, now))
  {
  }

  lemma RefreshesTo(w: World, store: Id, date: nat)
    ensures Exec(w, RefreshRows(store, date)).db
            == w.db.(metrics := M.RecalculateAll(w.db.metrics, w.db.orders, w.db.customers, store, date))
  {
  }

  lemma RefreshUninterrupted(w: World, store: Id, date: nat, now: nat)
    ensures RunFrom(w, [SweepBy(Filter(Some(store), [], Some(date)), now), RefreshRows(store, date)]).db
            == Recalculate(w.db, store, date, now)
  {
    var f := Filter(Some(store), [], Some(date));
    FewActions(w, SweepBy(f, now), RefreshRows(store, date));
    SweepsTo(w, f, now);
    RefreshesTo(w.(db := SweepOrders(w.db, f, now)), store, date);
  }

  lemma ExpireUninterrupted(w: World, f: Filter, now: nat)
    ensures RunFrom(w, [SweepBy(f, now)]).db == SweepOrders(w.db, f, now)
  {
    FewActions(w, SweepBy(f, now), SweepBy(f, now));
    SweepsTo(w, f, now);
  }

  /** An atomic event is the uninterrupted run of its transactions. */
  lemma EventIsUninterrupted(w: World, e: Event)
    requires AwaitsKnown(w)
    ensures RunFrom(w, ActionsOf(w, e)).db == Step(w.db, e)
  {
    match e
    case Create(q) => CreateUninterrupted(w, q);
    case Webhook(b, n, seqid, x, now) => WebhookUninterrupted(w, b, n, seqid, x, now);
    case Poll(b, n, seqid, x, now) => PollUninterrupted(w, b, n, seqid, x, now);
    case Expire(f, now) => ExpireUninterrupted(w, f, now);
    case Retry(r, x, now) => RetryUninterrupted(w, r, x, now);
    case Direct(n, dto, seqid, x, now) => DirectUninterrupted(w, n, dto, seqid, x, now);
    case Refresh(store, date, now) => RefreshUninterrupted(w, store, date, now);
    case People(customers) => FewActions(w, ChangePeople(customers), ChangePeople(customers));
  }

  /** The transactions of a whole run of atomic events. */
  function ActionsOfRun(db: Db, events: seq<Event>): seq<Action> {
    if |events| == 0 then []
    else
      var before := ActionsOfRun(db, events[..|events| - 1]);
      before + ActionsOf(RunAll(Fresh(db), before), events[|events| - 1])
  }

  /** Every run of atomic events is an interleaving, so what holds in every interleaving
      holds in every state that atomic events reach. */
  lemma {:induction false} AtomicRunsAreInterleavings(db: Db, events: seq<Event>)
    requires forall e | e in events :: e.Direct? ==> Q.ProperDto(e.number, e.dto)
    ensures forall a | a in ActionsOfRun(db, events) :: Proper(a)
    ensures RunAll(Fresh(db), ActionsOfRun(db, events)).db == Run(db, events)
  {
    if |events| == 0 {
    } else {
      var rest, last := events[..|events| - 1], events[|events| - 1];
      AtomicRunsAreInterleavings(db, rest);
      var before := ActionsOfRun(db, rest);
      var w := RunAll(Fresh(db), before);
      assert last in events;
      ProperActions(w, last);
      RunFromIsRunAll(Fresh(db), before, ActionsOf(w, last));
      RunKeepsAwaits(Fresh(db), before);
      EventIsUninterrupted(w, last);
    }
  }
}
