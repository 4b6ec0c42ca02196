/** The engine at transaction granularity: an APPROVED notice is handled in separate
    transactions, between which anything else may happen. */
module Interleaving {
  import opened Options
  import opened Schema
  import opened Sums
  import opened Calendar
  import opened Expiry
  import opened BigoApi
  import opened CouponLedger
  import opened Engine
  import Q = RetryQueue
  import Clock = RetryClock
  import M = Metrics

  // Where the handler of one APPROVED notice stands.
  datatype Pc = ToApprove | ToDispatch | Awaiting(row: nat) | ToComplete | ToBook | ToTally | Ended
  datatype Handler = Handler(order: OrderId, pc: Pc)
  // A request whose quote was accepted and which has not been inserted yet.
  datatype Draft = Draft(request: Request, quote: Quote)
  // loops are the running expiry loops, each with the listed orders it has still to write.
  datatype World = World(db: Db, handlers: seq<Handler>, loops: seq<seq<OrderId>>, drafts: seq<Draft>)

  function Fresh(db: Db): World { World(db, [], [], []) }

  /** One transaction, or one check that leads to it. Reject, Refund, Chargeback and the
      expiry loop's writes run whatever the status is by then, because they follow an
      earlier read. */
  datatype Action =
    | Arrive(id: OrderId)
    | Approve(h: nat)
    | Send(h: nat, seqid: NonEmpty, now: nat)
    | Hear(h: nat, x: Answer, now: nat)
    | Complete(h: nat)
    | BookCoupons(h: nat, now: nat)
    | TallyOrder(h: nat)
    | Reject(id: OrderId)
    | Refund(id: OrderId)
    | ChargeBack(id: OrderId)
    | Validate(request: Request)
    | Insert(d: nat, now: nat)
    | SweepBy(filter: Filter, now: nat)
    | ListOverdue(now: nat)
    | WriteExpired(l: nat)
    | Fires(row: nat, now: nat)
    | RetryHears(row: nat, x: Answer, now: nat)
    | SendDirect(number: string, dto: Body, seqid: NonEmpty, now: nat)
    | DirectHears(row: nat, x: Answer, now: nat)
    | RefreshRows(store: Id, date: nat)
    | ChangePeople(customers: seq<Customer>)

  predicate At(w: World, h: nat, pc: Pc) {
    h < |w.handlers| && w.handlers[h].pc == pc && Known(w.db, w.handlers[h].order)
  }

  predicate AtAwaiting(w: World, h: nat) { h < |w.handlers| && w.handlers[h].pc.Awaiting? }

  /** A running loop has an order to write next. */
  predicate LoopAt(w: World, l: nat) { l < |w.loops| && |w.loops[l]| > 0 && Known(w.db, w.loops[l][0]) }

  predicate DraftAt(w: World, d: nat) { d < |w.drafts| && Agreed(w.drafts[d].request, w.drafts[d].quote) }

  /** The row was sent by a handler, which alone hears the answer. */
  predicate Awaited(w: World, r: nat) {
    exists h | 0 <= h < |w.handlers| :: w.handlers[h].pc == Awaiting(r)
  }

  function Goto(w: World, h: nat, db: Db, pc: Pc): World
    requires h < |w.handlers|
  {
    w.(db := db, handlers := w.handlers[h := w.handlers[h].(pc := pc)])
  }

  function OnQueue(w: World, queue: Q.Queue): World { w.(db := w.db.(queue := queue)) }

  function Exec(w: World, a: Action): World {
    var db := w.db;
    match a
    case Arrive(id) =>
      if Known(db, id) && db.orders[id].payment != PaymentApproved
      then w.(handlers := w.handlers + [Handler(id, ToApprove)]) else w
    case Approve(h) =>
      if !At(w, h, ToApprove) then w
      else
        var id := w.handlers[h].order;
        Goto(w, h, ApproveTx(db, id), if Dispatchable(db.orders[id]) then ToDispatch else Ended)
    case Send(h, seqid, now) =>
      if !At(w, h, ToDispatch) then w
      else
        (match Dispatch(db, w.handlers[h].order, seqid, now)
         case Some(db') => Goto(w, h, db', Awaiting(|db.queue.rows|))
         case None => Goto(w, h, db, Ended))
    case Hear(h, x, now) =>
      if !AtAwaiting(w, h) then w
      else Goto(w, h, Respond(db, w.handlers[h].pc.row, x, now), if x.refusal.None? then ToComplete else Ended)
    case Complete(h) =>
      if !At(w, h, ToComplete) then w else Goto(w, h, CompleteTx(db, w.handlers[h].order), ToBook)
    case BookCoupons(h, now) =>
      if !At(w, h, ToBook) then w else Goto(w, h, Book(db, w.handlers[h].order, now), ToTally)
    case TallyOrder(h) =>
      if !At(w, h, ToTally) then w else Goto(w, h, Tally(db, w.handlers[h].order), Ended)
    case Reject(id) => if Known(db, id) then w.(db := RejectTx(db, id)) else w
    case Refund(id) => if Known(db, id) then w.(db := RefundTx(db, id)) else w
    case ChargeBack(id) => if Known(db, id) then w.(db := ChargebackTx(db, id)) else w
    case Validate(q) =>
      var quote := QuoteFor(db.orders, db.ledger.coupons, q);
      if Agreed(q, quote) then w.(drafts := w.drafts + [Draft(q, quote)]) else w
    case Insert(d, now) =>
      if !DraftAt(w, d) then w
      else w.(db := InsertOrder(db, w.drafts[d].request.(now := now), w.drafts[d].quote))
    case SweepBy(f, now) => w.(db := SweepOrders(db, f, now))
    case ListOverdue(now) => w.(loops := w.loops + [FindOverdue(db.orders, now)])
    case WriteExpired(l) =>
      if !LoopAt(w, l) then w
      else
        var id := w.loops[l][0];
        w.(db := Write(db, id, db.orders[id].(status := Expired)), loops := w.loops[l := w.loops[l][1..]])
    case Fires(r, now) => OnQueue(w, Q.Fire(db.queue, r, now))
    case RetryHears(r, x, now) => OnQueue(w, Q.AnswerRetry(db.queue, r, x, now))
    case SendDirect(n, dto, seqid, now) =>
      (match Q.Open(db.queue, n, dto, seqid, now) case Some(queue) => OnQueue(w, queue) case None => w)
    case DirectHears(r, x, now) => if Awaited(w, r) then w else w.(db := Respond(db, r, x, now))
    case RefreshRows(store, date) =>
      w.(db := db.(metrics := M.RecalculateAll(db.metrics, db.orders, db.customers, store, date)))
    case ChangePeople(customers) => w.(db := db.(customers := customers))
  }

  function RunAll(w: World, actions: seq<Action>): World {
    if |actions| == 0 then w else Exec(RunAll(w, actions[..|actions| - 1]), actions[|actions| - 1])
  }

  lemma RunsOn(w: World, actions: seq<Action>, a: Action)
    ensures RunAll(w, actions + [a]) == Exec(RunAll(w, actions), a)
  {
    assert (actions + [a])[..|actions|] == actions;
  }

  /** Dtos sent directly have the validated fields only, with their order number. */
  predicate Proper(a: Action) { a.SendDirect? ==> Q.ProperDto(a.number, a.dto) }

  /** The actions of a running handler. */
  predicate MovesHandler(a: Action) {
    a.Approve? || a.Send? || a.Hear? || a.Complete? || a.BookCoupons? || a.TallyOrder?
  }

  /** The actions of the Bigo queue that no handler takes. */
  predicate MovesQueue(a: Action) { a.Fires? || a.RetryHears? || a.SendDirect? || a.DirectHears? }

  /** The actions that write the order table and that no handler takes. */
  predicate WritesOrders(a: Action) {
    a.Reject? || a.Refund? || a.ChargeBack? || a.Insert? || a.SweepBy? || a.WriteExpired?
  }

  /** Validation of an acceptable request only drafts it. */
  lemma ValidateDrafts(w: World, q: Request, quote: Quote)
    requires QuoteFor(w.db.orders, w.db.ledger.coupons, q) == quote && Agreed(q, quote)
    ensures Exec(w, Validate(q)) == w.(drafts := w.drafts + [Draft(q, quote)])
  {
  }

  lemma InsertAppends(w: World, d: nat, now: nat)
    requires DraftAt(w, d)
    ensures Exec(w, Insert(d, now)) == w.(db := InsertOrder(w.db, w.drafts[d].request.(now := now), w.drafts[d].quote))
  {
  }

  // ----- The queue: every action is a queue step or leaves it alone -----

  ghost predicate QueueSteps(q: Q.Queue, q': Q.Queue) {
    q' == q || exists s: Q.QueueStep :: Q.Proper(s) && q' == Q.Step(q, s)
  }

  lemma HandlerStepsQueue(w: World, a: Action)
    requires MovesHandler(a)
    ensures QueueSteps(w.db.queue, Exec(w, a).db.queue)
  {
    var q, q' := w.db.queue, Exec(w, a).db.queue;
    match a
    case Send(h, seqid, now) =>
      if At(w, h, ToDispatch) {
        var o := w.db.orders[w.handlers[h].order];
        assert q' == Q.Step(q, Q.DoOpen(o.number, DtoOf(o), seqid, now));
      }
    case Hear(h, x, now) =>
      if AtAwaiting(w, h) {
        assert q' == Q.Step(q, Q.DoAnswerFirst(w.handlers[h].pc.row, x, now));
      }
    case Approve(_) =>
    case Complete(_) =>
    case BookCoupons(_, _) =>
    case TallyOrder(_) =>
  }

  lemma QueueActionSteps(w: World, a: Action)
    requires MovesQueue(a) && Proper(a)
    ensures QueueSteps(w.db.queue, Exec(w, a).db.queue)
  {
    var q, q' := w.db.queue, Exec(w, a).db.queue;
    match a
    case Fires(r, now) => assert q' == Q.Step(q, Q.DoFire(r, now));
    case RetryHears(r, x, now) => assert q' == Q.Step(q, Q.DoAnswerRetry(r, x, now));
    case SendDirect(n, dto, seqid, now) => assert q' == Q.Step(q, Q.DoOpen(n, dto, seqid, now));
    case DirectHears(r, x, now) => if !Awaited(w, r) { assert q' == Q.Step(q, Q.DoAnswerFirst(r, x, now)); }
  }

  lemma QueueUnmoved(w: World, a: Action)
    requires !MovesHandler(a) && !MovesQueue(a)
    ensures Exec(w, a).db.queue == w.db.queue
  {
  }

  lemma ExecStepsQueue(w: World, a: Action)
    requires Proper(a)
    ensures QueueSteps(w.db.queue, Exec(w, a).db.queue)
  {
    if MovesHandler(a) {
      HandlerStepsQueue(w, a);
    } else if MovesQueue(a) {
      QueueActionSteps(w, a);
    } else {
      QueueUnmoved(w, a);
    }
  }

  lemma StepsKeepQueue(q: Q.Queue, q': Q.Queue)
    requires QueueSteps(q, q') && Q.Inv(q) && Clock.Timed(q)
    ensures Q.Inv(q') && Clock.Timed(q')
  {
    if q' != q {
      var s :| Q.Proper(s) && q' == Q.Step(q, s);
      Q.StepKeepsTimers(q, s);
      Q.StepKeepsBudgets(q, s);
      Q.StepKeepsRequests(q, s);
      Clock.StepKeepsTimed(q, s);
    }
  }

  /** Order numbers once used stay used. */
  ghost predicate UsedStays(q: Q.Queue, q': Q.Queue) {
    |q.rows| <= |q'.rows| && forall r | 0 <= r < |q.rows| :: q'.rows[r].buOrderId == q.rows[r].buOrderId
  }

  lemma StepsKeepUsed(q: Q.Queue, q': Q.Queue)
    requires QueueSteps(q, q')
    ensures UsedStays(q, q')
  {
  }

  // ----- The order table: identities stay -----

  ghost predicate TableGrows(orders: seq<Order>, orders': seq<Order>) {
    |orders| <= |orders'| && forall i | 0 <= i < |orders| :: SameOrder(orders[i], orders'[i])
  }

  lemma HandlerGrows(w: World, a: Action)
    requires MovesHandler(a)
    ensures TableGrows(w.db.orders, Exec(w, a).db.orders) && |Exec(w, a).db.orders| == |w.db.orders|
    ensures |w.handlers| <= |Exec(w, a).handlers|
  {
  }

  lemma OrderActionGrows(w: World, a: Action)
    requires WritesOrders(a)
    ensures TableGrows(w.db.orders, Exec(w, a).db.orders) && Exec(w, a).handlers == w.handlers
  {
    match a
    case Insert(_, _) =>
    case Reject(_) =>
    case Refund(_) =>
    case ChargeBack(_) =>
    case SweepBy(_, _) =>
    case WriteExpired(_) =>
  }

  lemma OrdersUnmoved(w: World, a: Action)
    requires !MovesHandler(a) && !WritesOrders(a)
    ensures Exec(w, a).db.orders == w.db.orders && |w.handlers| <= |Exec(w, a).handlers|
  {
  }

  lemma OtherGrows(w: World, a: Action)
    requires !MovesHandler(a)
    ensures TableGrows(w.db.orders, Exec(w, a).db.orders)
    ensures |w.handlers| <= |Exec(w, a).handlers|
  {
    if WritesOrders(a) { OrderActionGrows(w, a); } else { OrdersUnmoved(w, a); }
  }

  lemma ExecGrows(w: World, a: Action)
    ensures TableGrows(w.db.orders, Exec(w, a).db.orders)
    ensures |w.handlers| <= |Exec(w, a).handlers|
  {
    if MovesHandler(a) { HandlerGrows(w, a); } else { OtherGrows(w, a); }
  }

  // ----- The ledger -----

  ghost predicate LedgerSound(db: Db) {
    && Balanced(db.ledger) && AtOrderPrices(db.ledger.journal, db.orders)
    && (forall i | 0 <= i < |db.orders| :: |db.orders[i].usages| <= 1)
  }

  lemma BookSound(db: Db, id: OrderId, now: nat)
    requires LedgerSound(db) && Known(db, id)
    ensures LedgerSound(Book(db, id, now))
  {
    ConfirmKeepsBalance(db.ledger, id, db.orders[id], 0, MonthOf(now));
    ConfirmAppends(db.ledger, id, db.orders[id], 0, MonthOf(now));
  }

  lemma RevertSound(db: Db, id: OrderId)
    requires LedgerSound(db) && Known(db, id)
    ensures LedgerSound(RevertUsage(db, id))
  {
    var o := db.orders[id];
    RevertKeepsBalance(db.ledger, id, o, 0, MonthOf(o.createdAt));
    RevertAppends(db.ledger, id, o, 0, MonthOf(o.createdAt));
  }

  lemma TableKeepsSound(db: Db, db': Db)
    requires LedgerSound(db) && db'.ledger == db.ledger && TableGrows(db.orders, db'.orders)
    requires forall i | |db.orders| <= i < |db'.orders| :: |db'.orders[i].usages| <= 1
    ensures LedgerSound(db')
  {
  }

  lemma RefundSound(db: Db, id: OrderId)
    requires LedgerSound(db) && Known(db, id)
    ensures LedgerSound(RefundTx(db, id)) && LedgerSound(ChargebackTx(db, id))
  {
    var refunded := Write(db, id, db.orders[id].(status := Refounded));
    TableKeepsSound(db, refunded);
    RevertSound(refunded, id);
    var charged := Write(db, id, db.orders[id].(
      payment := PaymentRejected, status := Refounded, recharge := RechargeRejected));
    TableKeepsSound(db, charged);
    RevertSound(charged, id);
  }

  predicate MovesBooks(a: Action) { a.BookCoupons? || a.Refund? || a.ChargeBack? }

  lemma BooksUnmoved(w: World, a: Action)
    requires !MovesBooks(a)
    ensures Exec(w, a).db.ledger == w.db.ledger
    ensures forall i | |w.db.orders| <= i < |Exec(w, a).db.orders| :: |Exec(w, a).db.orders[i].usages| <= 1
  {
    if MovesHandler(a) { HandlerGrows(w, a); }
  }

  lemma OtherKeepsLedger(w: World, a: Action)
    requires LedgerSound(w.db) && !MovesBooks(a)
    ensures LedgerSound(Exec(w, a).db)
  {
    ExecGrows(w, a);
    BooksUnmoved(w, a);
    TableKeepsSound(w.db, Exec(w, a).db);
  }

  lemma ExecKeepsLedger(w: World, a: Action)
    requires LedgerSound(w.db)
    ensures LedgerSound(Exec(w, a).db)
  {
    if !MovesBooks(a) {
      OtherKeepsLedger(w, a);
    } else if a.BookCoupons? {
      if At(w, a.h, ToBook) { BookSound(w.db, w.handlers[a.h].order, a.now); }
    } else if Known(w.db, a.id) {
      RefundSound(w.db, a.id);
    }
  }

  // ----- At most once -----

  function Holding(id: OrderId): Handler -> int {
    (h: Handler) => if h.order == id && (h.pc.Awaiting? || h.pc == ToComplete) then 1 else 0
  }
  function Booking(id: OrderId): Handler -> int { (h: Handler) => if h.order == id && h.pc == ToBook then 1 else 0 }
  function Is(id: OrderId): OrderId -> int { (d: OrderId) => if d == id then 1 else 0 }

  function Completions(db: Db, id: OrderId): int { Sum(db.completions, Is(id)) }
  function Confirms(db: Db, id: OrderId, c: CouponId): int { Sum(db.ledger.journal, ConfirmsOf(id, c)) }

  function Token(db: Db, id: OrderId): int
    requires Known(db, id)
  {
    if Q.Used(db.queue.rows, db.orders[id].number) then 1 else 0
  }

  /** The order uses the coupon, and the coupon is known. */
  predicate Carries(db: Db, id: OrderId, c: CouponId)
    requires Known(db, id)
  {
    db.orders[id].usages == [c] && c < |db.ledger.coupons|
  }

  /** Only the handler that created the row of an order number may complete the order,
      and only a handler that completed it may confirm a coupon, which it does for the
      coupon the order carries. */
  ghost predicate OrderOnce(w: World, id: OrderId)
    requires Known(w.db, id)
  {
    && Sum(w.handlers, Holding(id)) + Completions(w.db, id) <= Token(w.db, id)
    && (forall c: CouponId :: Confirms(w.db, id, c) + Sum(w.handlers, Booking(id)) <= Completions(w.db, id))
    && (forall c: CouponId | Carries(w.db, id, c) ::
          Confirms(w.db, id, c) + Sum(w.handlers, Booking(id)) == Completions(w.db, id))
  }

  ghost predicate Once(w: World) {
    && (forall i | 0 <= i < |w.handlers| :: Known(w.db, w.handlers[i].order))
    && (forall i | 0 <= i < |w.db.completions| :: Known(w.db, w.db.completions[i]))
    && (forall id | 0 <= id < |w.db.orders| :: OrderOnce(w, id))
  }

  /** What an action may do to the counts of one order. */
  ghost predicate Counted(w: World, w': World, id: OrderId, hold: int, done: int, book: int, conf: int)
    requires Known(w.db, id) && Known(w'.db, id)
  {
    && Sum(w'.handlers, Holding(id)) == Sum(w.handlers, Holding(id)) + hold
    && Completions(w'.db, id) == Completions(w.db, id) + done
    && Sum(w'.handlers, Booking(id)) == Sum(w.handlers, Booking(id)) + book
    && |w'.db.ledger.coupons| == |w.db.ledger.coupons|
    && (forall c: CouponId :: Confirms(w.db, id, c) <= Confirms(w'.db, id, c) <= Confirms(w.db, id, c) + conf)
    && (forall c: CouponId | Carries(w.db, id, c) :: Confirms(w'.db, id, c) == Confirms(w.db, id, c) + conf)
  }

  lemma GotoCounts(w: World, h: nat, pc: Pc, id: OrderId)
    requires h < |w.handlers|
    ensures var to := w.handlers[h].(pc := pc);
      && Sum(w.handlers[h := to], Holding(id))
         == Sum(w.handlers, Holding(id)) - Holding(id)(w.handlers[h]) + Holding(id)(to)
      && Sum(w.handlers[h := to], Booking(id))
         == Sum(w.handlers, Booking(id)) - Booking(id)(w.handlers[h]) + Booking(id)(to)
  {
    SumUpdate(w.handlers, h, w.handlers[h].(pc := pc), Holding(id));
    SumUpdate(w.handlers, h, w.handlers[h].(pc := pc), Booking(id));
  }

  lemma CountsNonNegative(w: World, id: OrderId)
    ensures Sum(w.handlers, Holding(id)) >= 0 && Sum(w.handlers, Booking(id)) >= 0 && Completions(w.db, id) >= 0
  {
    SumNonNegative(w.handlers, Holding(id));
    SumNonNegative(w.handlers, Booking(id));
    SumNonNegative(w.db.completions, Is(id));
  }

  /** A new posting list of another order, or of no confirmation, adds no confirm. */
  lemma {:induction false} NoNewConfirms(journal: seq<Posting>, journal': seq<Posting>, id: OrderId, c: CouponId)
    requires |journal| <= |journal'| && forall k | 0 <= k < |journal| :: journal'[k] == journal[k]
    requires forall k | |journal| <= k < |journal'| :: journal'[k].order != id || journal'[k].kind != Confirmed
    ensures Sum(journal', ConfirmsOf(id, c)) == Sum(journal, ConfirmsOf(id, c))
    decreases |journal'|
  {
    if |journal'| == |journal| {
      assert journal' == journal;
    } else {
      NoNewConfirms(journal, journal'[..|journal'| - 1], id, c);
    }
  }

  lemma {:induction false} RevertConfirmsNothing(l: Ledger, at: OrderId, o: Order, k: nat, month: nat)
    requires k <= |o.usages|
    ensures var journal' := RevertFrom(l, at, o, k, month).journal;
      |l.journal| <= |journal'| && forall i | |l.journal| <= i < |journal'| :: journal'[i].kind != Confirmed
    decreases |o.usages| - k
  {
    if !KnownUsage(l, o, k) {
    } else {
      var p := PostingOf(Reverted, l, at, o, k);
      var months := MonthsAfter(l, p, month);
      if months.Some? {
        RevertConfirmsNothing(Post(l, p, months.value), at, o, k + 1, month);
        RevertAppends(Post(l, p, months.value), at, o, k + 1, month);
      }
    }
  }

  lemma RevertKeepsConfirms(db: Db, at: OrderId, id: OrderId, c: CouponId)
    requires Known(db, at)
    ensures Confirms(RevertUsage(db, at), id, c) == Confirms(db, id, c)
  {
    var o := db.orders[at];
    RevertAppends(db.ledger, at, o, 0, MonthOf(o.createdAt));
    RevertConfirmsNothing(db.ledger, at, o, 0, MonthOf(o.createdAt));
    NoNewConfirms(db.ledger.journal, RevertUsage(db, at).ledger.journal, id, c);
  }

  /** Confirming an order with at most one usage adds at most one confirm, its own, and
      exactly one when its coupon is known. */
  lemma BookConfirmsOnce(db: Db, at: OrderId, now: nat, id: OrderId, c: CouponId)
    requires Known(db, at) && Known(db, id) && |db.orders[at].usages| <= 1
    ensures var mine := if id == at then 1 else 0;
      && Confirms(db, id, c) <= Confirms(Book(db, at, now), id, c) <= Confirms(db, id, c) + mine
      && (Carries(db, id, c) ==> Confirms(Book(db, at, now), id, c) == Confirms(db, id, c) + mine)
  {
    var o, l := db.orders[at], db.ledger;
    if KnownUsage(l, o, 0) {
      OneConfirm(l, at, o, MonthOf(now));
      SumAppend(l.journal, PostingOf(Confirmed, l, at, o, 0), ConfirmsOf(id, c));
    }
  }

  /** The coupons keep their places and terms. */
  lemma ActionKeepsTerms(w: World, a: Action)
    ensures SameTerms(w.db.ledger, Exec(w, a).db.ledger)
  {
    if a.BookCoupons? {
      if At(w, a.h, ToBook) {
        ConfirmKeepsTerms(w.db.ledger, w.handlers[a.h].order, w.db.orders[w.handlers[a.h].order], 0, MonthOf(a.now));
      }
    } else if a.Refund? || a.ChargeBack? {
      if Known(w.db, a.id) {
        var month := MonthOf(w.db.orders[a.id].createdAt);
        RevertKeepsTerms(w.db.ledger, a.id, RefundTx(w.db, a.id).orders[a.id], 0, month);
        RevertKeepsTerms(w.db.ledger, a.id, ChargebackTx(w.db, a.id).orders[a.id], 0, month);
      }
    } else {
      BooksUnmoved(w, a);
    }
  }

  lemma OnceKept(w: World, w': World, id: OrderId, hold: int, done: int, book: int, conf: int)
    requires Known(w.db, id) && Known(w'.db, id) && OrderOnce(w, id)
    requires Counted(w, w', id, hold, done, book, conf)
    requires hold + done <= 0 || (hold + done == 1 && Token(w.db, id) == 0 && Token(w'.db, id) == 1)
    requires conf + book == done
    requires UsedStays(w.db.queue, w'.db.queue) && SameOrder(w.db.orders[id], w'.db.orders[id])
    ensures OrderOnce(w', id)
  {
    if Q.Used(w.db.queue.rows, w.db.orders[id].number) {
      var r :| 0 <= r < |w.db.queue.rows| && w.db.queue.rows[r].buOrderId == w.db.orders[id].number;
      assert w'.db.queue.rows[r].buOrderId == w'.db.orders[id].number;
    }
  }

  lemma ApproveOnce(w: World, h: nat, id: OrderId)
    requires Known(w.db, id) && OrderOnce(w, id) && At(w, h, ToApprove)
    ensures Known(Exec(w, Approve(h)).db, id) && OrderOnce(Exec(w, Approve(h)), id)
  {
    var w' := Exec(w, Approve(h));
    GotoCounts(w, h, w'.handlers[h].pc, id);
    OnceKept(w, w', id, 0, 0, 0, 0);
  }

  lemma SendOnce(w: World, h: nat, seqid: NonEmpty, now: nat, id: OrderId)
    requires Known(w.db, id) && OrderOnce(w, id) && At(w, h, ToDispatch)
    ensures Known(Exec(w, Send(h, seqid, now)).db, id) && OrderOnce(Exec(w, Send(h, seqid, now)), id)
  {
    var w' := Exec(w, Send(h, seqid, now));
    var at, pc := w.handlers[h].order, w'.handlers[h].pc;
    GotoCounts(w, h, pc, id);
    if pc.Awaiting? {
      assert w'.db.queue.rows[|w.db.queue.rows|].buOrderId == w.db.orders[at].number;
      OnceKept(w, w', id, if at == id then 1 else 0, 0, 0, 0);
    } else {
      OnceKept(w, w', id, 0, 0, 0, 0);
    }
  }

  lemma HearOnce(w: World, h: nat, x: Answer, now: nat, id: OrderId)
    requires Known(w.db, id) && OrderOnce(w, id) && AtAwaiting(w, h)
    ensures Known(Exec(w, Hear(h, x, now)).db, id) && OrderOnce(Exec(w, Hear(h, x, now)), id)
  {
    var w' := Exec(w, Hear(h, x, now));
    ExecStepsQueue(w, Hear(h, x, now));
    StepsKeepUsed(w.db.queue, w'.db.queue);
    GotoCounts(w, h, w'.handlers[h].pc, id);
    OnceKept(w, w', id, if x.refusal.None? || w.handlers[h].order != id then 0 else -1, 0, 0, 0);
  }

  lemma CompleteOnce(w: World, h: nat, id: OrderId)
    requires Known(w.db, id) && OrderOnce(w, id) && At(w, h, ToComplete)
    ensures Known(Exec(w, Complete(h)).db, id) && OrderOnce(Exec(w, Complete(h)), id)
  {
    var w' := Exec(w, Complete(h));
    var at := w.handlers[h].order;
    var mine := if at == id then 1 else 0;
    GotoCounts(w, h, ToBook, id);
    SumAppend(w.db.completions, at, Is(id));
    OnceKept(w, w', id, -mine, mine, mine, 0);
  }

  lemma BookOnce(w: World, h: nat, now: nat, id: OrderId)
    requires Known(w.db, id) && OrderOnce(w, id) && At(w, h, ToBook)
    requires |w.db.orders[w.handlers[h].order].usages| <= 1
    ensures Known(Exec(w, BookCoupons(h, now)).db, id) && OrderOnce(Exec(w, BookCoupons(h, now)), id)
  {
    var w' := Exec(w, BookCoupons(h, now));
    var at := w.handlers[h].order;
    var mine := if at == id then 1 else 0;
    GotoCounts(w, h, ToTally, id);
    ActionKeepsTerms(w, BookCoupons(h, now));
    forall c: CouponId
      ensures Confirms(w.db, id, c) <= Confirms(w'.db, id, c) <= Confirms(w.db, id, c) + mine
      ensures Carries(w.db, id, c) ==> Confirms(w'.db, id, c) == Confirms(w.db, id, c) + mine
    {
      BookConfirmsOnce(w.db, at, now, id, c);
    }
    OnceKept(w, w', id, 0, 0, -mine, mine);
  }

  lemma MetricsOnce(w: World, h: nat, t: M.Tables, id: OrderId)
    requires Known(w.db, id) && OrderOnce(w, id) && At(w, h, ToTally)
    ensures OrderOnce(Goto(w, h, w.db.(metrics := t), Ended), id)
  {
    GotoCounts(w, h, Ended, id);
    OnceKept(w, Goto(w, h, w.db.(metrics := t), Ended), id, 0, 0, 0, 0);
  }

  lemma TallyOnce(w: World, h: nat, id: OrderId)
    requires Known(w.db, id) && OrderOnce(w, id) && At(w, h, ToTally)
    ensures OrderOnce(Exec(w, TallyOrder(h)), id)
  {
    var t := M.UpdateForOrder(w.db.metrics, w.db.orders, w.db.customers, w.handlers[h].order);
    MetricsOnce(w, h, t, id);
    assert Exec(w, TallyOrder(h)) == Goto(w, h, w.db.(metrics := t), Ended);
  }

  lemma HandlerActionOnce(w: World, a: Action, id: OrderId)
    requires Once(w) && LedgerSound(w.db) && Known(w.db, id) && MovesHandler(a)
    ensures Known(Exec(w, a).db, id) && OrderOnce(Exec(w, a), id)
  {
    assert OrderOnce(w, id);
    match a
    case Approve(h) => if At(w, h, ToApprove) { ApproveOnce(w, h, id); }
    case Send(h, seqid, now) => if At(w, h, ToDispatch) { SendOnce(w, h, seqid, now, id); }
    case Hear(h, x, now) => if AtAwaiting(w, h) { HearOnce(w, h, x, now, id); }
    case Complete(h) => if At(w, h, ToComplete) { CompleteOnce(w, h, id); }
    case BookCoupons(h, now) => if At(w, h, ToBook) { BookOnce(w, h, now, id); }
    case TallyOrder(h) => if At(w, h, ToTally) { TallyOnce(w, h, id); }
  }

  lemma NewOrderOnce(w: World, w': World, id: OrderId)
    requires Once(w) && LedgerSound(w.db) && id >= |w.db.orders| && Known(w'.db, id)
    requires w'.handlers == w.handlers && w'.db.completions == w.db.completions && w'.db.ledger == w.db.ledger
    ensures OrderOnce(w', id)
  {
    SumZero(w.handlers, Holding(id));
    SumZero(w.handlers, Booking(id));
    SumZero(w.db.completions, Is(id));
    forall c: CouponId ensures Confirms(w'.db, id, c) == 0 {
      SumZero(w.db.ledger.journal, ConfirmsOf(id, c));
    }
  }

  lemma RevertOnce(w: World, a: Action, at: OrderId, marked: Db, id: OrderId)
    requires Known(w.db, id) && OrderOnce(w, id) && Known(marked, at)
    requires a == Refund(at) || a == ChargeBack(at)
    requires marked == w.db.(orders := marked.orders) && TableGrows(w.db.orders, marked.orders)
    requires Exec(w, a) == w.(db := RevertUsage(marked, at))
    ensures OrderOnce(Exec(w, a), id)
  {
    var w' := Exec(w, a);
    ActionKeepsTerms(w, a);
    forall c: CouponId ensures Confirms(w'.db, id, c) == Confirms(w.db, id, c) {
      RevertKeepsConfirms(marked, at, id, c);
    }
    OnceKept(w, w', id, 0, 0, 0, 0);
  }

  lemma QuietOnce(w: World, w': World, id: OrderId)
    requires Once(w) && LedgerSound(w.db) && Known(w'.db, id)
    requires w'.handlers == w.handlers && w'.db.completions == w.db.completions && w'.db.ledger == w.db.ledger
    requires TableGrows(w.db.orders, w'.db.orders) && UsedStays(w.db.queue, w'.db.queue)
    ensures OrderOnce(w', id)
  {
    if Known(w.db, id) {
      assert OrderOnce(w, id);
      OnceKept(w, w', id, 0, 0, 0, 0);
    } else {
      NewOrderOnce(w, w', id);
    }
  }

  lemma QuietAction(w: World, a: Action)
    requires !MovesHandler(a) && !a.Arrive? && !a.Refund? && !a.ChargeBack? && Proper(a)
    ensures var w' := Exec(w, a);
      && w'.handlers == w.handlers && w'.db.completions == w.db.completions && w'.db.ledger == w.db.ledger
      && TableGrows(w.db.orders, w'.db.orders) && UsedStays(w.db.queue, w'.db.queue)
  {
    ExecGrows(w, a);
    ExecStepsQueue(w, a);
    StepsKeepUsed(w.db.queue, Exec(w, a).db.queue);
  }

  lemma ArriveOnce(w: World, at: OrderId, id: OrderId)
    requires Known(w.db, id) && OrderOnce(w, id)
    ensures OrderOnce(Exec(w, Arrive(at)), id)
  {
    SumAppend(w.handlers, Handler(at, ToApprove), Holding(id));
    SumAppend(w.handlers, Handler(at, ToApprove), Booking(id));
    OnceKept(w, Exec(w, Arrive(at)), id, 0, 0, 0, 0);
  }

  lemma RefundOnce(w: World, at: OrderId, id: OrderId)
    requires Known(w.db, id) && OrderOnce(w, id) && Known(w.db, at)
    ensures OrderOnce(Exec(w, Refund(at)), id) && OrderOnce(Exec(w, ChargeBack(at)), id)
  {
    var o := w.db.orders[at];
    RevertOnce(w, Refund(at), at, Write(w.db, at, o.(status := Refounded)), id);
    RevertOnce(w, ChargeBack(at), at, Write(w.db, at, o.(
      payment := PaymentRejected, status := Refounded, recharge := RechargeRejected)), id);
  }

  lemma OtherActionOnce(w: World, a: Action, id: OrderId)
    requires Once(w) && LedgerSound(w.db) && Proper(a) && Known(Exec(w, a).db, id) && !MovesHandler(a)
    ensures OrderOnce(Exec(w, a), id)
  {
    if a.Arrive? {
      assert OrderOnce(w, id);
      ArriveOnce(w, a.id, id);
    } else if a.Refund? || a.ChargeBack? {
      assert OrderOnce(w, id);
      if Known(w.db, a.id) { RefundOnce(w, a.id, id); }
    } else {
      QuietAction(w, a);
      QuietOnce(w, Exec(w, a), id);
    }
  }

  lemma ExecKeepsOnce(w: World, a: Action)
    requires Once(w) && LedgerSound(w.db) && Proper(a)
    ensures Once(Exec(w, a))
  {
    var w' := Exec(w, a);
    ExecGrows(w, a);
    ExecKeepsNames(w, a);
    forall id | 0 <= id < |w'.db.orders| ensures OrderOnce(w', id) {
      if MovesHandler(a) {
        HandlerGrows(w, a);
        HandlerActionOnce(w, a, id);
      } else {
        OtherActionOnce(w, a, id);
      }
    }
  }

  lemma HandlersKeepNames(w: World, a: Action)
    requires forall i | 0 <= i < |w.handlers| :: Known(w.db, w.handlers[i].order)
    ensures forall i | 0 <= i < |Exec(w, a).handlers| :: Known(w.db, Exec(w, a).handlers[i].order)
  {
  }

  lemma CompletionsKeepNames(w: World, a: Action)
    requires forall i | 0 <= i < |w.db.completions| :: Known(w.db, w.db.completions[i])
    ensures forall i | 0 <= i < |Exec(w, a).db.completions| :: Known(w.db, Exec(w, a).db.completions[i])
  {
  }

  lemma ExecKeepsNames(w: World, a: Action)
    requires Once(w)
    ensures forall i | 0 <= i < |Exec(w, a).handlers| :: Known(Exec(w, a).db, Exec(w, a).handlers[i].order)
    ensures forall i | 0 <= i < |Exec(w, a).db.completions| ::
      Known(Exec(w, a).db, Exec(w, a).db.completions[i])
  {
    ExecGrows(w, a);
    HandlersKeepNames(w, a);
    CompletionsKeepNames(w, a);
  }

  // ----- Metrics rows -----

  lemma GrowthKeepsNoStray(t: M.Tables, orders: seq<Order>, orders': seq<Order>)
    requires M.NoStrayRows(t, orders) && TableGrows(orders, orders')
    ensures M.NoStrayRows(t, orders')
  {
    forall key, p | key in t.byProduct && p in t.byProduct[key]
      ensures p in M.ProductsOf(orders', key.0, key.1)
    {
      M.ProductsGrow(orders, orders', key.0, key.1);
    }
  }

  lemma MetricsUnmoved(w: World, a: Action)
    requires !a.TallyOrder? && !a.RefreshRows?
    ensures Exec(w, a).db.metrics == w.db.metrics
  {
  }

  lemma RowsKeepNoStray(t: M.Tables, orders: seq<Order>, customers: seq<Customer>, id: OrderId, store: Id, date: nat)
    requires M.NoStrayRows(t, orders)
    ensures M.NoStrayRows(M.UpdateForOrder(t, orders, customers, id), orders)
    ensures M.NoStrayRows(M.RecalculateAll(t, orders, customers, store, date), orders)
  {
    M.ProductsKeepNoStray(t, orders, store, MonthOf(date));
    if id < |orders| {
      M.ProductsKeepNoStray(t, orders, orders[id].store, MonthOf(orders[id].createdAt));
    }
  }

  lemma ExecKeepsNoStray(w: World, a: Action)
    requires M.NoStrayRows(w.db.metrics, w.db.orders)
    ensures M.NoStrayRows(Exec(w, a).db.metrics, Exec(w, a).db.orders)
  {
    if a.TallyOrder? {
      if At(w, a.h, ToTally) {
        RowsKeepNoStray(w.db.metrics, w.db.orders, w.db.customers, w.handlers[a.h].order, "", 0);
      }
    } else if a.RefreshRows? {
      RowsKeepNoStray(w.db.metrics, w.db.orders, w.db.customers, 0, a.store, a.date);
    } else {
      ExecGrows(w, a);
      MetricsUnmoved(w, a);
      GrowthKeepsNoStray(w.db.metrics, w.db.orders, Exec(w, a).db.orders);
    }
  }

  // ----- All of it, over every run -----

  ghost predicate Sound(w: World) {
    Q.Inv(w.db.queue) && Clock.Timed(w.db.queue) && LedgerSound(w.db) && Once(w) && M.NoStrayRows(w.db.metrics, w.db.orders)
  }

  lemma ExecKeepsSound(w: World, a: Action)
    requires Sound(w) && Proper(a)
    ensures Sound(Exec(w, a))
  {
    ExecStepsQueue(w, a);
    StepsKeepQueue(w.db.queue, Exec(w, a).db.queue);
    ExecKeepsLedger(w, a);
    ExecKeepsOnce(w, a);
    ExecKeepsNoStray(w, a);
  }

  lemma InitialIsSound(db: Db)
    requires Initial(db)
    ensures Sound(Fresh(db))
  {
    forall who ensures Drift(db.ledger, who) == -Sum(db.ledger.journal, UnbookedOf(who)) {
      SumZero(db.ledger.coupons, SalesOwnedBy(who));
    }
  }

  lemma {:induction false} EveryRunIsSound(w: World, actions: seq<Action>)
    requires Sound(w) && forall a | a in actions :: Proper(a)
    ensures Sound(RunAll(w, actions))
  {
    if |actions| == 0 {
    } else {
      EveryRunIsSound(w, actions[..|actions| - 1]);
      ExecKeepsSound(RunAll(w, actions[..|actions| - 1]), actions[|actions| - 1]);
    }
  }

  // ----- Main results, over every interleaving -----

  /** Whatever is interleaved with the handlers, a Bigo row exists at most once for each
      order number, an order's completing transaction runs at most once, and then only
      with such a row, and each of its coupons is confirmed at most once. */
  lemma {:induction false} AtMostOnce(db: Db, actions: seq<Action>, id: OrderId, c: CouponId)
    requires Initial(db) && forall a | a in actions :: Proper(a)
    requires Known(RunAll(Fresh(db), actions).db, id)
    ensures var end := RunAll(Fresh(db), actions).db;
      && Q.DistinctOrders(end.queue)
      && Confirms(end, id, c) <= Completions(end, id) <= Token(end, id) <= 1
  {
    InitialIsSound(db);
    EveryRunIsSound(Fresh(db), actions);
    OrderCounts(RunAll(Fresh(db), actions), id, c);
  }

  lemma OrderCounts(w: World, id: OrderId, c: CouponId)
    requires Once(w) && Known(w.db, id)
    ensures 0 <= Confirms(w.db, id, c) <= Completions(w.db, id) <= Token(w.db, id) <= 1
  {
    assert OrderOnce(w, id);
    CountsNonNegative(w, id);
    SumNonNegative(w.db.ledger.journal, ConfirmsOf(id, c));
  }

  /** Exactly once: a known coupon that an order carries has been confirmed as often as the
      order was completed, once no handler stands between the two. */
  lemma {:induction false} ConfirmedWithCompletion(db: Db, actions: seq<Action>, id: OrderId, c: CouponId)
    requires Initial(db) && forall a | a in actions :: Proper(a)
    requires Known(RunAll(Fresh(db), actions).db, id) && Carries(RunAll(Fresh(db), actions).db, id, c)
    requires NoneBooking(RunAll(Fresh(db), actions), id)
    ensures Confirms(RunAll(Fresh(db), actions).db, id, c) == Completions(RunAll(Fresh(db), actions).db, id)
  {
    InitialIsSound(db);
    EveryRunIsSound(Fresh(db), actions);
    BookedUp(RunAll(Fresh(db), actions), id, c);
  }

  ghost predicate NoneBooking(w: World, id: OrderId) {
    forall h | 0 <= h < |w.handlers| :: !(w.handlers[h].order == id && w.handlers[h].pc == ToBook)
  }

  lemma BookedUp(w: World, id: OrderId, c: CouponId)
    requires Once(w) && Known(w.db, id) && Carries(w.db, id, c) && NoneBooking(w, id)
    ensures Confirms(w.db, id, c) == Completions(w.db, id)
  {
    assert OrderOnce(w, id);
    SumZero(w.handlers, Booking(id));
  }

  /** In every reachable state the coupons' counters are the signed sums of their
      postings, and an influencer's coupon sales less the influencer's monthly rows are
      minus the reverted amounts that found no row for the month. */
  lemma {:induction false} BooksBalance(db: Db, actions: seq<Action>)
    requires Initial(db) && forall a | a in actions :: Proper(a)
    ensures Balanced(RunAll(Fresh(db), actions).db.ledger)
  {
    InitialIsSound(db);
    EveryRunIsSound(Fresh(db), actions);
  }

  /** The drift is zero exactly when the unbooked reverts are all of orders priced zero;
      in particular when there is none. */
  lemma NoUnbookedRevertNoDrift(l: Ledger, who: Id)
    requires Balanced(l)
    ensures Drift(l, who) == 0
            <==> forall k | 0 <= k < |l.journal| :: UnbookedOf(who)(l.journal[k]) == 0
  {
    assert Drift(l, who) == -Sum(l.journal, UnbookedOf(who));
    SumNonNegative(l.journal, UnbookedOf(who));
    if forall k | 0 <= k < |l.journal| :: UnbookedOf(who)(l.journal[k]) == 0 {
      SumZero(l.journal, UnbookedOf(who));
    } else {
      var k :| 0 <= k < |l.journal| && UnbookedOf(who)(l.journal[k]) != 0;
      assert l.journal[k] in l.journal;
    }
  }

  /** In every reachable state a coupon has been used by exactly the orders that are
      confirmed and not reverted, if and only if no order was reverted more often than
      confirmed; then its sales are the sum of their prices. */
  lemma {:induction false} CouponCounts(db: Db, actions: seq<Action>, c: CouponId)
    requires Initial(db) && forall a | a in actions :: Proper(a)
    requires c < |RunAll(Fresh(db), actions).db.ledger.coupons|
    ensures CouponFacts(RunAll(Fresh(db), actions).db, c)
  {
    InitialIsSound(db);
    EveryRunIsSound(Fresh(db), actions);
    StandingCounts(RunAll(Fresh(db), actions), c);
  }

  ghost predicate CouponFacts(db: Db, c: CouponId)
    requires c < |db.ledger.coupons|
  {
    var l := db.ledger;
    && (CountsStanding(l, c, db.orders) <==> RevertsAreCovered(l.journal, c, |db.orders|))
    && (RevertsAreCovered(l.journal, c, |db.orders|) ==>
          SalesOfStanding(l, c, db.orders) && l.coupons[c].timesUsed >= 0 && l.coupons[c].totalSales >= 0)
  }

  lemma StandingCounts(w: World, c: CouponId)
    requires Sound(w) && c < |w.db.ledger.coupons|
    ensures CouponFacts(w.db, c)
  {
    forall id | 0 <= id < |w.db.orders| ensures Sum(w.db.ledger.journal, ConfirmsOf(id, c)) <= 1 {
      OrderCounts(w, id, c);
    }
    CountersCountStandingOrders(w.db.ledger, c, w.db.orders);
  }

  /** Timers, calls, budgets and requests of the Bigo rows are right in every reachable
      state of the whole engine. */
  lemma {:induction false} QueueIsSound(db: Db, actions: seq<Action>)
    requires Initial(db) && forall a | a in actions :: Proper(a)
    ensures Q.Inv(RunAll(Fresh(db), actions).db.queue)
  {
    InitialIsSound(db);
    EveryRunIsSound(Fresh(db), actions);
  }

  /** So are their times: a pending row is due the wait of its code and retry after its
      refusal, and a row that fails at its fourth request sent it at least 44 minutes after
      its first, if the clock does not run backwards. */
  lemma {:induction false} RetriesKeepTime(db: Db, actions: seq<Action>, r: nat)
    requires Initial(db) && forall a | a in actions :: Proper(a)
    requires r < |RunAll(Fresh(db), actions).db.queue.rows|
    ensures RowKeepsTime(RunAll(Fresh(db), actions).db.queue, r)
  {
    InitialIsSound(db);
    EveryRunIsSound(Fresh(db), actions);
    RowIsInTime(RunAll(Fresh(db), actions).db.queue, r);
  }

  ghost predicate RowKeepsTime(q: Q.Queue, r: nat)
    requires r < |q.rows|
  {
    && (q.rows[r].status == Q.RetryPending ==> exists k: nat :: Clock.ScheduledBy(q, r, k))
    && (Clock.FourthRefused(q, r) && Clock.OnClock(q.log, r) ==>
          var t := Clock.SendTimes(q.log, r);
          var waits := 60_000 * Q.Waited(q, r);
          2_640_000 <= waits <= 10_800_000 && t[3] - t[0] >= waits)
  }

  lemma RowIsInTime(q: Q.Queue, r: nat)
    requires Q.Inv(q) && Clock.Timed(q) && r < |q.rows|
    ensures RowKeepsTime(q, r)
  {
    assert Clock.RowTimed(q, r);
    if Clock.FourthRefused(q, r) && Clock.OnClock(q.log, r) { Clock.FourthIsLate(q, r); }
  }

  /** From every reachable state, refreshing a store's metrics leaves the day row, the
      month row and the product rows of the month equal to the aggregates of the swept
      order table, without a stale product row; and refreshing again changes nothing if and
      only if no further selected order has become overdue. */
  lemma {:induction false} RefreshIsExact(db: Db, actions: seq<Action>, store: Id, date: nat, now: nat, now': nat)
    requires Initial(db) && forall a | a in actions :: Proper(a)
    ensures RefreshExact(RunAll(Fresh(db), actions).db, store, date, now)
    ensures RefreshStable(RunAll(Fresh(db), actions).db, store, date, now, now')
            <==> NothingDue(Recalculate(RunAll(Fresh(db), actions).db, store, date, now), store, date, now')
  {
    InitialIsSound(db);
    EveryRunIsSound(Fresh(db), actions);
    RefreshFacts(RunAll(Fresh(db), actions).db, store, date, now, now');
  }

  ghost predicate RefreshExact(db: Db, store: Id, date: nat, now: nat) {
    var end := Recalculate(db, store, date, now);
    var day, month := DayOf(date), MonthOf(date);
    && end.orders == Sweep(db.orders, Filter(Some(store), [], Some(date)), now)
    && (store, day) in end.metrics.daily && end.metrics.daily[(store, day)] == M.DailyOf(end.orders, store, day)
    && (store, month) in end.metrics.monthly
    && end.metrics.monthly[(store, month)] == M.MonthlyOf(end.orders, end.customers, store, month)
    && M.ProductRows(end.metrics, store, month) == M.ProductsOf(end.orders, store, month)
  }

  ghost predicate RefreshStable(db: Db, store: Id, date: nat, now: nat, now': nat) {
    var end := Recalculate(db, store, date, now);
    Recalculate(end, store, date, now') == end
  }

  ghost predicate NothingDue(db: Db, store: Id, date: nat, now: nat) {
    forall i | 0 <= i < |db.orders| ::
      !(Selects(Filter(Some(store), [], Some(date)), i, db.orders[i]) && Overdue(db.orders[i], now))
  }

  lemma RefreshFacts(db: Db, store: Id, date: nat, now: nat, now': nat)
    requires M.NoStrayRows(db.metrics, db.orders)
    ensures RefreshExact(db, store, date, now)
    ensures RefreshStable(db, store, date, now, now')
            <==> NothingDue(Recalculate(db, store, date, now), store, date, now')
  {
    var f := Filter(Some(store), [], Some(date));
    var swept := SweepOrders(db, f, now);
    GrowthKeepsNoStray(db.metrics, db.orders, swept.orders);
    M.RecalculationIsExact(swept.metrics, swept.orders, swept.customers, store, date);
    var end := Recalculate(db, store, date, now);
    if NothingDue(end, store, date, now') {
      assert Sweep(end.orders, f, now') == end.orders;
    } else {
      var i :| 0 <= i < |end.orders| && Selects(f, i, end.orders[i]) && Overdue(end.orders[i], now');
      assert Sweep(end.orders, f, now')[i].status == Expired;
    }
  }
}
