/** What remains of status coherence when transactions are interleaved: exactly two races
    break it. */
module Races {
  import opened Options
  import opened Schema
  import opened Calendar
  import opened Expiry
  import opened BigoApi
  import opened Engine
  import opened Coherence
  import opened Interleaving
  import Q = RetryQueue

  ghost predicate Fits(db: Db) { forall i | 0 <= i < |db.orders| :: TripleOf(db.orders[i]) in NINE }

  /** The completing transaction of an order whose payment is no longer approved: it
      writes the order and the recharge without looking at the payment again. */
  predicate LateCompletion(w: World, a: Action) {
    a.Complete? && At(w, a.h, ToComplete) && w.db.orders[w.handlers[a.h].order].payment != PaymentApproved
  }

  /** The expiry loop reaches an order that was paid after the loop's query. */
  predicate LateExpiry(w: World, a: Action) {
    a.WriteExpired? && LoopAt(w, a.l) && w.db.orders[w.loops[a.l][0]].payment == PaymentApproved
  }

  predicate Late(w: World, a: Action) { LateCompletion(w, a) || LateExpiry(w, a) }

  lemma HandlerKeepsNine(w: World, a: Action)
    requires Fits(w.db) && MovesHandler(a)
    ensures Fits(Exec(w, a).db) <==> !LateCompletion(w, a)
  {
    var db' := Exec(w, a).db;
    HandlerGrows(w, a);
    if LateCompletion(w, a) {
      assert TripleOf(db'.orders[w.handlers[a.h].order]) !in NINE;
    }
  }

  lemma OtherKeepsNine(w: World, a: Action)
    requires Fits(w.db) && !MovesHandler(a)
    ensures Fits(Exec(w, a).db) <==> !LateExpiry(w, a)
  {
    if LateExpiry(w, a) {
      assert TripleOf(Exec(w, a).db.orders[w.loops[a.l][0]]) !in NINE;
    }
  }

  /** An action keeps every order within the nine triples if and only if it is neither a
      late completion nor a late expiry. */
  lemma ActionKeepsNine(w: World, a: Action)
    requires Fits(w.db)
    ensures Fits(Exec(w, a).db) <==> !Late(w, a)
  {
    if MovesHandler(a) { HandlerKeepsNine(w, a); } else { OtherKeepsNine(w, a); }
  }

  ghost predicate AlwaysFits(w: World, actions: seq<Action>) {
    forall k | 0 <= k <= |actions| :: Fits(RunAll(w, actions[..k]).db)
  }
  ghost predicate NeverLate(w: World, actions: seq<Action>) {
    forall k | 0 <= k < |actions| :: !Late(RunAll(w, actions[..k]), actions[k])
  }

  lemma OneMoreAction(w: World, actions: seq<Action>, k: nat)
    requires k < |actions|
    ensures RunAll(w, actions[..k + 1]) == Exec(RunAll(w, actions[..k]), actions[k])
  {
    assert actions[..k + 1][..k] == actions[..k];
  }

  lemma {:induction false} NeverLateFits(w: World, actions: seq<Action>, k: nat)
    requires Fits(w.db) && NeverLate(w, actions) && k <= |actions|
    ensures Fits(RunAll(w, actions[..k]).db)
  {
    if k == 0 {
    } else {
      NeverLateFits(w, actions, k - 1);
      OneMoreAction(w, actions, k - 1);
      ActionKeepsNine(RunAll(w, actions[..k - 1]), actions[k - 1]);
    }
  }

  /** An interleaving stays within the nine triples throughout if and only if no order is
      completed after its payment stopped being approved and none is written EXPIRED after
      it was paid. */
  lemma {:induction false} NineUnlessLate(w: World, actions: seq<Action>)
    requires Fits(w.db)
    ensures AlwaysFits(w, actions) <==> NeverLate(w, actions)
  {
    if NeverLate(w, actions) {
      forall k | 0 <= k <= |actions| ensures Fits(RunAll(w, actions[..k]).db) {
        NeverLateFits(w, actions, k);
      }
    }
    if AlwaysFits(w, actions) {
      forall k | 0 <= k < |actions| ensures !Late(RunAll(w, actions[..k]), actions[k]) {
        OneMoreAction(w, actions, k);
        ActionKeepsNine(RunAll(w, actions[..k]), actions[k]);
      }
    }
  }

  // ----- Approved recharges were delivered -----

  /** Row r is the handler's and Bigo has not answered it. */
  ghost predicate Pending(w: World, h: nat, r: nat)
    requires h < |w.handlers|
  {
    && Known(w.db, w.handlers[h].order)
    && Q.Awaits(w.db.queue, r, true)
    && w.db.queue.rows[r].buOrderId == w.db.orders[w.handlers[h].order].number
    && AsksFor(w.db.queue.rows[r].request, w.db.orders[w.handlers[h].order])
  }

  ghost predicate HandlerTrue(w: World, h: nat)
    requires h < |w.handlers|
  {
    match w.handlers[h].pc
    case Awaiting(r) => Pending(w, h, r)
    case ToComplete => Known(w.db, w.handlers[h].order)
                       && HasSuccess(w.db.queue, w.db.orders[w.handlers[h].order])
    case ToDispatch => Known(w.db, w.handlers[h].order) && Dispatchable(w.db.orders[w.handlers[h].order])
    case _ => true
  }

  ghost predicate OrderDelivered(db: Db, i: nat)
    requires i < |db.orders|
  {
    db.orders[i].recharge == RechargeApproved ==> HasSuccess(db.queue, db.orders[i])
  }

  /** Each handler awaits a row of its own, one past Bigo's answer has a SUCCESS row, and
      so has every order with an approved recharge. */
  ghost predicate DeliverySound(w: World) {
    && (forall h | 0 <= h < |w.handlers| :: HandlerTrue(w, h))
    && (forall g, h | 0 <= g < h < |w.handlers| && w.handlers[g].pc.Awaiting? && w.handlers[h].pc.Awaiting? ::
          w.handlers[g].pc.row != w.handlers[h].pc.row)
    && (forall i | 0 <= i < |w.db.orders| :: OrderDelivered(w.db, i))
  }

  /** Rows keep their number and stay delivered, and calls other than that for row r stay
      under way. */
  ghost predicate QueueKept(q: Q.Queue, q': Q.Queue, except: int) {
    && RowsGrow(q, q')
    && (forall r: nat | r != except && Q.Awaits(q, r, true) :: Q.Awaits(q', r, true))
  }

  lemma GrowthKeepsDelivered(q: Q.Queue, q': Q.Queue, o: Order, o': Order)
    requires RowsGrow(q, q') && SameOrder(o, o') && HasSuccess(q, o)
    ensures HasSuccess(q', o')
  {
    var r :| 0 <= r < |q.rows| && Fulfils(q.rows[r], o);
    assert Fulfils(q'.rows[r], o');
  }

  lemma OpenKept(q: Q.Queue, number: string, dto: Body, seqid: NonEmpty, now: int)
    requires Q.TimersAgree(q) && Q.Open(q, number, dto, seqid, now).Some?
    ensures QueueKept(q, Q.Open(q, number, dto, seqid, now).value, -1)
  {
  }

  lemma AnswerFirstKept(q: Q.Queue, r: nat, x: Answer, now: int)
    requires Q.TimersAgree(q)
    ensures QueueKept(q, Q.AnswerFirst(q, r, x, now), r)
  {
    if Q.Awaits(q, r, true) { assert Q.RowAgrees(q, r); }
  }

  lemma AnswerRetryKept(q: Q.Queue, r: nat, x: Answer, now: int)
    requires Q.TimersAgree(q)
    ensures QueueKept(q, Q.AnswerRetry(q, r, x, now), -1)
  {
    if Q.Awaits(q, r, false) { assert Q.RowAgrees(q, r); }
  }

  lemma FireKept(q: Q.Queue, r: nat, now: int)
    requires Q.TimersAgree(q)
    ensures QueueKept(q, Q.Fire(q, r, now), -1)
  {
    if r < |q.rows| { assert Q.RowAgrees(q, r); }
  }

  /** The row whose answer the action brings, or -1. */
  function Answers(w: World, a: Action): int {
    if a.Hear? && AtAwaiting(w, a.h) then w.handlers[a.h].pc.row
    else if a.DirectHears? && !Awaited(w, a.row) then a.row
    else -1
  }

  lemma HandlerKeepsQueue(w: World, a: Action)
    requires Q.TimersAgree(w.db.queue) && MovesHandler(a)
    ensures QueueKept(w.db.queue, Exec(w, a).db.queue, Answers(w, a))
  {
    var q := w.db.queue;
    if a.Send? {
      if At(w, a.h, ToDispatch) {
        var o := w.db.orders[w.handlers[a.h].order];
        if !Q.Used(q.rows, o.number) { OpenKept(q, o.number, DtoOf(o), a.seqid, a.now); }
      }
    } else if a.Hear? {
      if AtAwaiting(w, a.h) { AnswerFirstKept(q, w.handlers[a.h].pc.row, a.x, a.now); }
    } else {
      assert Exec(w, a).db.queue == q;
    }
  }

  lemma QueueActionKept(w: World, a: Action)
    requires Q.TimersAgree(w.db.queue) && MovesQueue(a)
    ensures QueueKept(w.db.queue, Exec(w, a).db.queue, Answers(w, a))
  {
    var q := w.db.queue;
    match a
    case Fires(r, now) => FireKept(q, r, now);
    case RetryHears(r, x, now) => AnswerRetryKept(q, r, x, now);
    case SendDirect(n, dto, seqid, now) => if !Q.Used(q.rows, n) { OpenKept(q, n, dto, seqid, now); }
    case DirectHears(r, x, now) => AnswerFirstKept(q, r, x, now);
  }

  /** Only the answer to a row's own request ends its wait. */
  lemma ActionKeepsQueue(w: World, a: Action)
    requires Q.TimersAgree(w.db.queue)
    ensures QueueKept(w.db.queue, Exec(w, a).db.queue, Answers(w, a))
  {
    if MovesHandler(a) {
      HandlerKeepsQueue(w, a);
    } else if MovesQueue(a) {
      QueueActionKept(w, a);
    } else {
      QueueUnmoved(w, a);
    }
  }

  /** What the delivery facts need of a step that does not move handler h. */
  lemma StandingHandler(w: World, w': World, h: nat, except: int)
    requires h < |w.handlers| && h < |w'.handlers| && w'.handlers[h] == w.handlers[h]
    requires TableGrows(w.db.orders, w'.db.orders) && QueueKept(w.db.queue, w'.db.queue, except)
    requires HandlerTrue(w, h)
    requires !(w.handlers[h].pc.Awaiting? && w.handlers[h].pc.row == except)
    ensures HandlerTrue(w', h)
  {
    match w.handlers[h].pc
    case ToComplete =>
      var id := w.handlers[h].order;
      GrowthKeepsDelivered(w.db.queue, w'.db.queue, w.db.orders[id], w'.db.orders[id]);
    case _ =>
  }

  /** Orders whose recharge a step does not newly approve. */
  lemma StandingOrder(db: Db, db': Db, i: nat)
    requires i < |db.orders| && i < |db'.orders| && SameOrder(db.orders[i], db'.orders[i])
    requires RowsGrow(db.queue, db'.queue) && OrderDelivered(db, i)
    requires db'.orders[i].recharge == RechargeApproved ==> db.orders[i].recharge == RechargeApproved
    ensures OrderDelivered(db', i)
  {
    if db'.orders[i].recharge == RechargeApproved {
      GrowthKeepsDelivered(db.queue, db'.queue, db.orders[i], db'.orders[i]);
    }
  }

  /** Only completing approves a recharge, and only of the handler's order. */
  lemma RechargesUnapproved(w: World, a: Action, i: nat)
    requires i < |Exec(w, a).db.orders|
    requires !(a.Complete? && At(w, a.h, ToComplete) && w.handlers[a.h].order == i)
    ensures Exec(w, a).db.orders[i].recharge == RechargeApproved ==>
      i < |w.db.orders| && w.db.orders[i].recharge == RechargeApproved
  {
  }

  lemma OrdersStayDelivered(w: World, a: Action)
    requires DeliverySound(w) && Q.TimersAgree(w.db.queue)
    ensures forall i | 0 <= i < |Exec(w, a).db.orders| :: OrderDelivered(Exec(w, a).db, i)
  {
    var w' := Exec(w, a);
    ExecGrows(w, a);
    ActionKeepsQueue(w, a);
    forall i | 0 <= i < |w'.db.orders| ensures OrderDelivered(w'.db, i) {
      if a.Complete? && At(w, a.h, ToComplete) && w.handlers[a.h].order == i {
        assert HandlerTrue(w, a.h);
        GrowthKeepsDelivered(w.db.queue, w'.db.queue, w.db.orders[i], w'.db.orders[i]);
      } else {
        RechargesUnapproved(w, a, i);
        if i < |w.db.orders| { StandingOrder(w.db, w'.db, i); }
      }
    }
  }

  /** The handler that an action moves, or -1. */
  function Mover(w: World, a: Action): int {
    if MovesHandler(a) && a.h < |w.handlers| then a.h else -1
  }

  lemma OnlyTheMoverMoves(w: World, a: Action, h: nat)
    requires h < |w.handlers| && h != Mover(w, a)
    ensures h < |Exec(w, a).handlers| && Exec(w, a).handlers[h] == w.handlers[h]
  {
  }

  lemma NewHandlers(w: World, a: Action, h: nat)
    requires |w.handlers| <= h < |Exec(w, a).handlers|
    ensures Exec(w, a).handlers[h].pc == ToApprove
  {
  }

  /** What the moved handler has become. */
  lemma MoverTrue(w: World, a: Action, h: nat)
    requires DeliverySound(w) && Sound(w) && MovesHandler(a) && a.h == h < |w.handlers|
    ensures HandlerTrue(Exec(w, a), h)
    ensures Exec(w, a).handlers[h].pc.Awaiting? ==>
      Exec(w, a).handlers[h] == w.handlers[h] || Exec(w, a).handlers[h].pc.row == |w.db.queue.rows|
  {
    assert HandlerTrue(w, h);
    match a
    case Send(_, seqid, now) => if At(w, h, ToDispatch) { SenderTrue(w, h, seqid, now); }
    case Hear(_, x, now) => if AtAwaiting(w, h) { HearerTrue(w, h, x, now); }
    case Approve(_) =>
      if At(w, h, ToApprove) {
        assert Exec(w, a).handlers[h].pc == ToDispatch || Exec(w, a).handlers[h].pc == Ended;
      }
    case Complete(_) => if At(w, h, ToComplete) { assert Exec(w, a).handlers[h].pc == ToBook; }
    case BookCoupons(_, now) => if At(w, h, ToBook) { assert Exec(w, a).handlers[h].pc == ToTally; }
    case TallyOrder(_) => if At(w, h, ToTally) { assert Exec(w, a).handlers[h].pc == Ended; }
  }

  lemma SenderTrue(w: World, h: nat, seqid: NonEmpty, now: nat)
    requires At(w, h, ToDispatch) && Dispatchable(w.db.orders[w.handlers[h].order])
    ensures HandlerTrue(Exec(w, Send(h, seqid, now)), h)
    ensures var pc := Exec(w, Send(h, seqid, now)).handlers[h].pc; pc == Ended || pc == Awaiting(|w.db.queue.rows|)
  {
    DispatchAsks(w.db.orders[w.handlers[h].order], seqid);
  }

  lemma HearerTrue(w: World, h: nat, x: Answer, now: nat)
    requires AtAwaiting(w, h) && HandlerTrue(w, h)
    ensures HandlerTrue(Exec(w, Hear(h, x, now)), h)
    ensures !Exec(w, Hear(h, x, now)).handlers[h].pc.Awaiting?
  {
    if x.refusal.None? {
      var r := w.handlers[h].pc.row;
      var q' := Exec(w, Hear(h, x, now)).db.queue;
      assert Fulfils(q'.rows[r], w.db.orders[w.handlers[h].order]);
    }
  }

  lemma HandlersStayTrue(w: World, a: Action)
    requires DeliverySound(w) && Sound(w)
    ensures forall h | 0 <= h < |Exec(w, a).handlers| :: HandlerTrue(Exec(w, a), h)
  {
    var w' := Exec(w, a);
    ExecGrows(w, a);
    ActionKeepsQueue(w, a);
    forall h | 0 <= h < |w'.handlers| ensures HandlerTrue(w', h) {
      if h >= |w.handlers| {
        NewHandlers(w, a, h);
      } else if h == Mover(w, a) {
        MoverTrue(w, a, h);
      } else {
        assert HandlerTrue(w, h);
        OnlyTheMoverMoves(w, a, h);
        StandingHandler(w, w', h, Answers(w, a));
      }
    }
  }

  lemma RowsStayApart(w: World, a: Action, g: nat, h: nat)
    requires DeliverySound(w) && Sound(w) && g < h < |Exec(w, a).handlers|
    requires Exec(w, a).handlers[g].pc.Awaiting? && Exec(w, a).handlers[h].pc.Awaiting?
    ensures Exec(w, a).handlers[g].pc.row != Exec(w, a).handlers[h].pc.row
  {
    if h >= |w.handlers| {
      NewHandlers(w, a, h);
    } else {
      assert HandlerTrue(w, g) && HandlerTrue(w, h);
      if g == Mover(w, a) { MoverTrue(w, a, g); } else { OnlyTheMoverMoves(w, a, g); }
      if h == Mover(w, a) { MoverTrue(w, a, h); } else { OnlyTheMoverMoves(w, a, h); }
    }
  }

  lemma ExecKeepsDelivery(w: World, a: Action)
    requires DeliverySound(w) && Sound(w)
    ensures DeliverySound(Exec(w, a))
  {
    HandlersStayTrue(w, a);
    OrdersStayDelivered(w, a);
    var w' := Exec(w, a);
    forall g, h | 0 <= g < h < |w'.handlers| && w'.handlers[g].pc.Awaiting? && w'.handlers[h].pc.Awaiting?
      ensures w'.handlers[g].pc.row != w'.handlers[h].pc.row
    {
      RowsStayApart(w, a, g, h);
    }
  }

  lemma {:induction false} RunKeepsDelivery(w: World, actions: seq<Action>)
    requires DeliverySound(w) && Sound(w) && forall a | a in actions :: Proper(a)
    ensures DeliverySound(RunAll(w, actions))
  {
    if |actions| == 0 {
    } else {
      var before, last := actions[..|actions| - 1], actions[|actions| - 1];
      RunKeepsDelivery(w, before);
      EveryRunIsSound(w, before);
      ExecKeepsDelivery(RunAll(w, before), last);
    }
  }

  /** Whatever is interleaved, an order whose recharge is approved has a SUCCESS row under
      its order number. */
  lemma {:induction false} ApprovedMeansDelivered(db: Db, actions: seq<Action>, i: nat)
    requires Initial(db) && forall a | a in actions :: Proper(a)
    requires i < |RunAll(Fresh(db), actions).db.orders|
    ensures OrderDelivered(RunAll(Fresh(db), actions).db, i)
  {
    InitialIsSound(db);
    RunKeepsDelivery(Fresh(db), actions);
  }

  /** Some SUCCESS row of the order's number asks for what the order is for, and so did every
      request that was ever sent for that row. */
  ghost predicate DeliveredAsOrdered(q: Q.Queue, o: Order) {
    exists r | 0 <= r < |q.rows| ::
      Fulfils(q.rows[r], o) && forall k | 0 <= k < |q.log| && q.log[k].Sent? && q.log[k].row == r ::
        AsksFor(q.log[k].body, o)
  }

  /** Every request sent for the row asks for what the order is for. */
  ghost predicate SendsFor(q: Q.Queue, r: nat, o: Order) {
    forall k | 0 <= k < |q.log| && q.log[k].Sent? && q.log[k].row == r :: AsksFor(q.log[k].body, o)
  }

  lemma RequestsAsk(q: Q.Queue, r: nat, o: Order)
    requires Q.SameRequest(q) && r < |q.rows| && AsksFor(q.rows[r].request, o)
    ensures SendsFor(q, r, o)
  {
  }

  /** Whatever is interleaved, an order with an approved recharge was delivered what it asks
      for: its diamonds, to its Bigo account, at its cost. */
  lemma {:induction false} RechargedAsOrdered(db: Db, actions: seq<Action>, i: nat)
    requires Initial(db) && forall a | a in actions :: Proper(a)
    requires i < |RunAll(Fresh(db), actions).db.orders|
    requires RunAll(Fresh(db), actions).db.orders[i].recharge == RechargeApproved
    ensures DeliveredAsOrdered(RunAll(Fresh(db), actions).db.queue, RunAll(Fresh(db), actions).db.orders[i])
  {
    ApprovedMeansDelivered(db, actions, i);
    QueueIsSound(db, actions);
    SuccessAsOrdered(RunAll(Fresh(db), actions).db.queue, RunAll(Fresh(db), actions).db.orders[i]);
  }

  lemma SuccessAsOrdered(q: Q.Queue, o: Order)
    requires Q.SameRequest(q) && HasSuccess(q, o)
    ensures DeliveredAsOrdered(q, o)
  {
    var r :| 0 <= r < |q.rows| && Fulfils(q.rows[r], o);
    RequestsAsk(q, r, o);
  }

  /** And every request sent for the row that a handler awaits asks for its order. */
  lemma {:induction false} HandlersSendOrders(db: Db, actions: seq<Action>, h: nat)
    requires Initial(db) && forall a | a in actions :: Proper(a)
    requires AtAwaiting(RunAll(Fresh(db), actions), h)
    ensures var w := RunAll(Fresh(db), actions);
      Known(w.db, w.handlers[h].order) && SendsFor(w.db.queue, w.handlers[h].pc.row, w.db.orders[w.handlers[h].order])
  {
    InitialIsSound(db);
    RunKeepsDelivery(Fresh(db), actions);
    QueueIsSound(db, actions);
    AwaitedAsOrdered(RunAll(Fresh(db), actions), h);
  }

  lemma AwaitedAsOrdered(w: World, h: nat)
    requires DeliverySound(w) && Q.SameRequest(w.db.queue) && AtAwaiting(w, h)
    ensures Known(w.db, w.handlers[h].order)
    ensures SendsFor(w.db.queue, w.handlers[h].pc.row, w.db.orders[w.handlers[h].order])
  {
    assert HandlerTrue(w, h);
    RequestsAsk(w.db.queue, w.handlers[h].pc.row, w.db.orders[w.handlers[h].order]);
  }

  /** Every order is coherent throughout an interleaving, in its triple and its delivery,
      if and only if neither race occurs in it. */
  lemma {:induction false} CoherentUnlessLate(db: Db, actions: seq<Action>)
    requires Initial(db) && forall a | a in actions :: Proper(a)
    ensures (forall k | 0 <= k <= |actions| :: Coherent(RunAll(Fresh(db), actions[..k]).db))
            <==> NeverLate(Fresh(db), actions)
  {
    NineUnlessLate(Fresh(db), actions);
    forall k | 0 <= k <= |actions|
      ensures Coherent(RunAll(Fresh(db), actions[..k]).db) <==> Fits(RunAll(Fresh(db), actions[..k]).db)
    {
      InitialIsSound(db);
      RunKeepsDelivery(Fresh(db), actions[..k]);
      CoherentIsBoth(RunAll(Fresh(db), actions[..k]));
    }
  }

  lemma CoherentIsBoth(w: World)
    requires DeliverySound(w)
    ensures Coherent(w.db) <==> Fits(w.db)
  {
    forall i | 0 <= i < |w.db.orders|
      ensures OrderCoherent(w.db, w.db.orders[i]) <==> TripleOf(w.db.orders[i]) in NINE
    {
      assert OrderDelivered(w.db, i);
    }
  }

  // ----- Both races are reachable -----

  /** One order and its one handler. */
  ghost predicate One(w: World, pc: Pc, payment: PaymentStatus) {
    && |w.db.orders| == 1 && Dispatchable(w.db.orders[0]) && w.db.orders[0].payment == payment
    && w.handlers == [Handler(0, pc)]
  }

  lemma Approves1(w: World)
    requires One(w, ToApprove, PaymentPending) && w.db.queue == Q.EMPTY
    ensures One(Exec(w, Approve(0)), ToDispatch, PaymentApproved) && Exec(w, Approve(0)).db.queue == Q.EMPTY
    ensures Exec(w, Approve(0)).loops == w.loops
    ensures TripleOf(Exec(w, Approve(0)).db.orders[0]) == Triple(PaymentApproved, Processing, RechargePending)
  {
  }

  lemma Sends(w: World)
    requires One(w, ToDispatch, PaymentApproved) && w.db.queue == Q.EMPTY
    ensures One(Exec(w, Send(0, "seq", 1)), Awaiting(0), PaymentApproved)
  {
  }

  lemma Hears(w: World)
    requires One(w, Awaiting(0), PaymentApproved)
    ensures One(Exec(w, Hear(0, YES, 1)), ToComplete, PaymentApproved)
  {
  }

  lemma RejectsAndCompletes(w: World)
    requires One(w, ToComplete, PaymentApproved)
    ensures var end := Exec(Exec(w, Reject(0)), Complete(0));
      |end.db.orders| == 1
      && TripleOf(end.db.orders[0]) == Triple(PaymentRejected, Completed, RechargeApproved)
  {
    assert One(Exec(w, Reject(0)), ToComplete, PaymentRejected);
  }

  /** A REJECTED notice overtakes the completion. */
  function Overtaken(): seq<Action> {
    [Validate(Buy().request)] + [Insert(0, 0)] + [Arrive(0)] + [Approve(0)] + [Send(0, "seq", 1)] + [Hear(0, YES, 1)]
    + [Reject(0)] + [Complete(0)]
  }

  /** The payment is approved between the query of the expiry loop and its write. */
  function Outlived(): seq<Action> {
    [Validate(Buy().request)] + [Insert(0, 0)] + [ListOverdue(25 * HOUR)] + [Arrive(0)] + [Approve(0)]
    + [WriteExpired(0)]
  }

  lemma Runs0(w: World, a: Action)
    ensures RunAll(w, [a]) == Exec(w, a)
  {
    assert [a][..0] == [];
  }

  ghost predicate JustPlaced(w: World) {
    && |w.db.orders| == 1 && Dispatchable(w.db.orders[0]) && w.db.queue == Q.EMPTY
    && w.db.orders[0].createdAt == 0
    && TripleOf(w.db.orders[0]) == Triple(PaymentPending, Created, RechargePending)
    && w.handlers == [] && w.loops == []
  }

  lemma InsertsFirst(w: World)
    requires w == Fresh(Start()).(drafts := [Draft(Buy().request, Quote(0, 0, 1000))])
    ensures JustPlaced(Exec(w, Insert(0, 0)))
  {
    InsertAppends(w, 0, 0);
  }

  lemma Places()
    ensures JustPlaced(RunAll(Fresh(Start()), [Validate(Buy().request)] + [Insert(0, 0)]))
  {
    Runs0(Fresh(Start()), Validate(Buy().request));
    RunsOn(Fresh(Start()), [Validate(Buy().request)], Insert(0, 0));
    ValidateDrafts(Fresh(Start()), Buy().request, Quote(0, 0, 1000));
    assert [] + [Draft(Buy().request, Quote(0, 0, 1000))] == [Draft(Buy().request, Quote(0, 0, 1000))];
    InsertsFirst(Exec(Fresh(Start()), Validate(Buy().request)));
  }

  lemma ArrivesFirst(w: World)
    requires |w.db.orders| == 1 && Dispatchable(w.db.orders[0]) && w.handlers == []
    requires w.db.orders[0].payment == PaymentPending
    ensures One(Exec(w, Arrive(0)), ToApprove, PaymentPending)
    ensures Exec(w, Arrive(0)).db == w.db && Exec(w, Arrive(0)).loops == w.loops
  {
  }

  /** A REJECTED notice between Bigo's answer and the completing transaction leaves a
      completed order with a rejected payment. */
  lemma RejectedButDelivered()
    ensures Initial(Start())
    ensures var end := RunAll(Fresh(Start()), Overtaken()).db;
      |end.orders| == 1 && TripleOf(end.orders[0]) == Triple(PaymentRejected, Completed, RechargeApproved)
  {
    var w0 := Fresh(Start());
    var placed := [Validate(Buy().request)] + [Insert(0, 0)];
    Places();
    var w2 := RunAll(w0, placed);
    ArrivesFirst(w2);
    var w3 := Exec(w2, Arrive(0));
    Approves1(w3);
    var w4 := Exec(w3, Approve(0));
    Sends(w4);
    var w5 := Exec(w4, Send(0, "seq", 1));
    Hears(w5);
    var w6 := Exec(w5, Hear(0, YES, 1));
    RejectsAndCompletes(w6);
    RunsOn(w0, placed, Arrive(0));
    RunsOn(w0, placed + [Arrive(0)], Approve(0));
    RunsOn(w0, placed + [Arrive(0)] + [Approve(0)], Send(0, "seq", 1));
    RunsOn(w0, placed + [Arrive(0)] + [Approve(0)] + [Send(0, "seq", 1)], Hear(0, YES, 1));
    RunsOn(w0, placed + [Arrive(0)] + [Approve(0)] + [Send(0, "seq", 1)] + [Hear(0, YES, 1)], Reject(0));
    RunsOn(w0, placed + [Arrive(0)] + [Approve(0)] + [Send(0, "seq", 1)] + [Hear(0, YES, 1)] + [Reject(0)], Complete(0));
  }

  lemma Lists(w: World)
    requires JustPlaced(w)
    ensures Exec(w, ListOverdue(25 * HOUR)) == w.(loops := [[0]])
  {
    var orders := w.db.orders;
    assert Overdue(orders[0], 25 * HOUR);
    assert FindOverdue(orders[..0], 25 * HOUR) == [];
    assert FindOverdue(orders, 25 * HOUR) == [0];
  }

  lemma Expires(w: World)
    requires |w.db.orders| == 1 && w.loops == [[0]]
    requires TripleOf(w.db.orders[0]) == Triple(PaymentApproved, Processing, RechargePending)
    ensures var end := Exec(w, WriteExpired(0));
      |end.db.orders| == 1 && TripleOf(end.db.orders[0]) == Triple(PaymentApproved, Expired, RechargePending)
  {
    assert LoopAt(w, 0);
  }

  /** An order that is paid between the expiry loop's query and its write is EXPIRED with
      an approved payment. */
  lemma PaidButExpired()
    ensures Initial(Start())
    ensures var end := RunAll(Fresh(Start()), Outlived()).db;
      |end.orders| == 1 && TripleOf(end.orders[0]) == Triple(PaymentApproved, Expired, RechargePending)
  {
    var w0 := Fresh(Start());
    var placed := [Validate(Buy().request)] + [Insert(0, 0)];
    Places();
    var w2 := RunAll(w0, placed);
    Lists(w2);
    var w3 := Exec(w2, ListOverdue(25 * HOUR));
    ArrivesFirst(w3);
    var w4 := Exec(w3, Arrive(0));
    Approves1(w4);
    var w5 := Exec(w4, Approve(0));
    Expires(w5);
    RunsOn(w0, placed, ListOverdue(25 * HOUR));
    RunsOn(w0, placed + [ListOverdue(25 * HOUR)], Arrive(0));
    RunsOn(w0, placed + [ListOverdue(25 * HOUR)] + [Arrive(0)], Approve(0));
    RunsOn(w0, placed + [ListOverdue(25 * HOUR)] + [Arrive(0)] + [Approve(0)], WriteExpired(0));
  }
}
