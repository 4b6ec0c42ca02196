/** The influencers' books month by month: which month a confirmation and a revert move. */
module MonthBooks {
  import opened Options
  import opened Schema
  import opened Sums
  import opened Calendar
  import opened BigoApi
  import opened CouponLedger
  import opened Engine
  import opened Interleaving

  function CellOf(who: Id, month: nat): InfluencerMonth -> int {
    (row: InfluencerMonth) => if row.influencer == who && row.month == month then row.total else 0
  }

  /** What stands in the influencer's rows for the month. */
  function MonthTotal(l: Ledger, who: Id, month: nat): int { Sum(l.months, CellOf(who, month)) }

  ghost predicate HasRow(months: seq<InfluencerMonth>, who: Id, month: nat) {
    exists i | 0 <= i < |months| :: months[i].influencer == who && months[i].month == month
  }

  /** Exactly the given month of the given influencer has moved, by the given amount. */
  ghost predicate MovesMonth(l: Ledger, l': Ledger, who: Id, month: nat, amount: int) {
    forall w: Id, m: nat ::
      MonthTotal(l', w, m) == MonthTotal(l, w, m) + (if w == who && m == month then amount else 0)
  }

  lemma {:induction false} RowIsFound(months: seq<InfluencerMonth>, who: Id, month: nat)
    ensures FindMonth(months, who, month) < |months| <==> HasRow(months, who, month)
  {
    if |months| == 0 {
    } else if months[0].influencer == who && months[0].month == month {
      assert HasRow(months, who, month);
    } else {
      RowIsFound(months[1..], who, month);
      if HasRow(months, who, month) {
        var i :| 0 <= i < |months| && months[i].influencer == who && months[i].month == month;
        assert months[1..][i - 1] == months[i];
      }
      if HasRow(months[1..], who, month) {
        var i :| 0 <= i < |months[1..]| && months[1..][i].influencer == who && months[1..][i].month == month;
        assert months[i + 1] == months[1..][i];
      }
    }
  }

  lemma CellMoves(l: Ledger, p: Posting, month: nat, who: Id, m: nat)
    requires MonthsAfter(l, p, month).Some?
    ensures Sum(MonthsAfter(l, p, month).value, CellOf(who, m))
            == Sum(l.months, CellOf(who, m)) + (if who == p.influencer && m == month then Signed(p) else 0)
  {
    var i := FindMonth(l.months, p.influencer, month);
    if i < |l.months| {
      SumUpdate(l.months, i, l.months[i].(total := l.months[i].total + Signed(p)), CellOf(who, m));
    } else {
      SumAppend(l.months, InfluencerMonth(p.influencer, month, Signed(p)), CellOf(who, m));
    }
  }

  lemma RowsRemain(l: Ledger, p: Posting, month: nat, who: Id, m: nat)
    requires MonthsAfter(l, p, month).Some?
    ensures HasRow(MonthsAfter(l, p, month).value, p.influencer, month)
    ensures HasRow(l.months, who, m) ==> HasRow(MonthsAfter(l, p, month).value, who, m)
  {
    var months := MonthsAfter(l, p, month).value;
    var i := FindMonth(l.months, p.influencer, month);
    assert months[i].influencer == p.influencer && months[i].month == month;
    if HasRow(l.months, who, m) {
      var j :| 0 <= j < |l.months| && l.months[j].influencer == who && l.months[j].month == m;
      assert months[j].influencer == who && months[j].month == m;
    }
  }

  /** The coupon row that an order's one usage is of. */
  function Used(l: Ledger, o: Order): Coupon
    requires KnownUsage(l, o, 0)
  {
    l.coupons[o.usages[0]]
  }

  /** A confirmation adds the price to the influencer's month it is booked under, creating
      the row where there is none, and to the coupon; every other month stays. */
  lemma ConfirmBooksMonth(l: Ledger, id: OrderId, o: Order, month: nat)
    requires |o.usages| == 1 && KnownUsage(l, o, 0)
    ensures var l' := Confirm(l, id, o, month);
      && MovesMonth(l, l', Used(l, o).terms.influencer, month, o.price)
      && HasRow(l'.months, Used(l, o).terms.influencer, month)
      && KnownUsage(l', o, 0) && Used(l', o).terms == Used(l, o).terms
      && Used(l', o).timesUsed == Used(l, o).timesUsed + 1
      && Used(l', o).totalSales == Used(l, o).totalSales + o.price
  {
    var p := PostingOf(Confirmed, l, id, o, 0);
    OneConfirm(l, id, o, month);
    forall w: Id, m: nat { CellMoves(l, p, month, w, m); }
    RowsRemain(l, p, month, p.influencer, month);
  }

  /** A revert is booked exactly when the influencer has a row for the month: it then takes
      the price off that month and off no other. Otherwise all months stay. The coupon
      gives the use and the price back either way. */
  lemma RevertBooksMonth(l: Ledger, id: OrderId, o: Order, month: nat)
    requires |o.usages| == 1 && KnownUsage(l, o, 0)
    ensures var l' := Revert(l, id, o, month);
      var who := Used(l, o).terms.influencer;
      && MovesMonth(l, l', who, month, if HasRow(l.months, who, month) then -(o.price as int) else 0)
      && KnownUsage(l', o, 0) && Used(l', o).terms == Used(l, o).terms
      && Used(l', o).timesUsed == Used(l, o).timesUsed - 1
      && Used(l', o).totalSales == Used(l, o).totalSales - o.price
      && |l'.journal| == |l.journal| + 1
      && ((o.price > 0 || HasRow(l.months, who, month)) ==>
            (l'.journal[|l.journal|].kind == Reverted <==> HasRow(l.months, who, month)))
  {
    var p := PostingOf(Reverted, l, id, o, 0);
    OneRevert(l, id, o, month);
    RowIsFound(l.months, p.influencer, month);
    if MonthsAfter(l, p, month).Some? {
      forall w: Id, m: nat { CellMoves(l, p, month, w, m); }
    }
  }

  /** Confirming and then reverting under the same month leaves every month's total and the
      coupon's counters as they were, and the revert is booked. */
  lemma ConfirmThenRevert(l: Ledger, id: OrderId, o: Order, o': Order, month: nat)
    requires |o.usages| == 1 && KnownUsage(l, o, 0) && SameOrder(o, o')
    ensures var l1 := Confirm(l, id, o, month);
      var l2 := Revert(l1, id, o', month);
      && (forall w: Id, m: nat :: MonthTotal(l2, w, m) == MonthTotal(l, w, m))
      && KnownUsage(l2, o, 0) && Used(l2, o) == Used(l, o)
      && |l2.journal| == |l1.journal| + 1 && l2.journal[|l1.journal|].kind == Reverted
  {
    var l1 := Confirm(l, id, o, month);
    ConfirmBooksMonth(l, id, o, month);
    RevertBooksMonth(l1, id, o', month);
    assert Used(l1, o') == Used(l1, o);
    var l2 := Revert(l1, id, o', month);
    var who := Used(l, o).terms.influencer;
    forall w: Id, m: nat ensures MonthTotal(l2, w, m) == MonthTotal(l, w, m) {
      assert MonthTotal(l1, w, m) == MonthTotal(l, w, m) + (if w == who && m == month then o.price as int else 0);
      assert MonthTotal(l2, w, m) == MonthTotal(l1, w, m) + (if w == who && m == month then -(o.price as int) else 0);
    }
  }

  // ----- Whole runs -----

  lemma ConfirmKeepsRow(l: Ledger, id: OrderId, o: Order, month: nat, who: Id, m: nat)
    requires |o.usages| <= 1 && HasRow(l.months, who, m)
    ensures HasRow(Confirm(l, id, o, month).months, who, m)
  {
    if KnownUsage(l, o, 0) {
      OneConfirm(l, id, o, month);
      RowsRemain(l, PostingOf(Confirmed, l, id, o, 0), month, who, m);
    }
  }

  lemma RevertKeepsRow(l: Ledger, id: OrderId, o: Order, month: nat, who: Id, m: nat)
    requires |o.usages| <= 1 && HasRow(l.months, who, m)
    ensures HasRow(Revert(l, id, o, month).months, who, m)
  {
    if KnownUsage(l, o, 0) {
      var p := PostingOf(Reverted, l, id, o, 0);
      OneRevert(l, id, o, month);
      if MonthsAfter(l, p, month).Some? { RowsRemain(l, p, month, who, m); }
    }
  }

  /** A month's row is never removed. */
  lemma ActionKeepsRow(w: World, a: Action, who: Id, m: nat)
    requires LedgerSound(w.db) && HasRow(w.db.ledger.months, who, m)
    ensures HasRow(Exec(w, a).db.ledger.months, who, m)
  {
    if !MovesBooks(a) {
      BooksUnmoved(w, a);
    } else if a.BookCoupons? {
      if At(w, a.h, ToBook) {
        var id := w.handlers[a.h].order;
        ConfirmKeepsRow(w.db.ledger, id, w.db.orders[id], MonthOf(a.now), who, m);
      }
    } else if Known(w.db, a.id) {
      var month := MonthOf(w.db.orders[a.id].createdAt);
      RevertKeepsRow(w.db.ledger, a.id, RefundTx(w.db, a.id).orders[a.id], month, who, m);
      RevertKeepsRow(w.db.ledger, a.id, ChargebackTx(w.db, a.id).orders[a.id], month, who, m);
    }
  }

  lemma {:induction false} RunKeepsRow(w: World, actions: seq<Action>, who: Id, m: nat)
    requires Sound(w) && HasRow(w.db.ledger.months, who, m) && forall a | a in actions :: Proper(a)
    ensures HasRow(RunAll(w, actions).db.ledger.months, who, m)
  {
    if |actions| == 0 {
    } else {
      var before, last := actions[..|actions| - 1], actions[|actions| - 1];
      RunKeepsRow(w, before, who, m);
      EveryRunIsSound(w, before);
      ActionKeepsRow(RunAll(w, before), last, who, m);
    }
  }

  /** The refund of the order would be booked in the month in which it was created. */
  ghost predicate RefundIsBooked(db: Db, id: OrderId, who: Id) {
    && Known(db, id) && |RefundTx(db, id).ledger.journal| == |db.ledger.journal| + 1
    && RefundTx(db, id).ledger.journal[|db.ledger.journal|].kind == Reverted
    && MovesMonth(db.ledger, RefundTx(db, id).ledger, who, MonthOf(db.orders[id].createdAt),
                  -(db.orders[id].price as int))
  }

  lemma RefundWithRow(db: Db, id: OrderId)
    requires Known(db, id) && |db.orders[id].usages| == 1 && KnownUsage(db.ledger, db.orders[id], 0)
    requires HasRow(db.ledger.months, Used(db.ledger, db.orders[id]).terms.influencer,
                    MonthOf(db.orders[id].createdAt))
    ensures RefundIsBooked(db, id, Used(db.ledger, db.orders[id]).terms.influencer)
  {
    var o := db.orders[id].(status := Refounded);
    assert Used(db.ledger, o) == Used(db.ledger, db.orders[id]);
    RevertBooksMonth(db.ledger, id, o, MonthOf(o.createdAt));
  }

  lemma BookedCoupon(w: World, h: nat, now: nat)
    requires Sound(w) && At(w, h, ToBook)
    requires |w.db.orders[w.handlers[h].order].usages| == 1
    requires KnownUsage(w.db.ledger, w.db.orders[w.handlers[h].order], 0)
    ensures var o := w.db.orders[w.handlers[h].order];
      HasRow(Exec(w, BookCoupons(h, now)).db.ledger.months, Used(w.db.ledger, o).terms.influencer, MonthOf(now))
  {
    var id := w.handlers[h].order;
    ConfirmBooksMonth(w.db.ledger, id, w.db.orders[id], MonthOf(now));
  }

  lemma {:induction false} RunKeepsTerms(w: World, actions: seq<Action>)
    ensures SameTerms(w.db.ledger, RunAll(w, actions).db.ledger)
    ensures TableGrows(w.db.orders, RunAll(w, actions).db.orders)
  {
    if |actions| == 0 {
    } else {
      var before, last := actions[..|actions| - 1], actions[|actions| - 1];
      RunKeepsTerms(w, before);
      ActionKeepsTerms(RunAll(w, before), last);
      ExecGrows(RunAll(w, before), last);
    }
  }

  /** After an order's coupon has been confirmed in the month in which the order was created,
      its refund at any later time is booked in that month, whatever happens in between. */
  lemma {:induction false} ConfirmedInItsMonth(w: World, h: nat, now: nat, actions: seq<Action>)
    requires Sound(w) && At(w, h, ToBook) && forall a | a in actions :: Proper(a)
    requires var o := w.db.orders[w.handlers[h].order];
      |o.usages| == 1 && KnownUsage(w.db.ledger, o, 0) && MonthOf(now) == MonthOf(o.createdAt)
    ensures var id := w.handlers[h].order;
      RefundIsBooked(RunAll(Exec(w, BookCoupons(h, now)), actions).db, id,
                     Used(w.db.ledger, w.db.orders[id]).terms.influencer)
  {
    var w1 := Exec(w, BookCoupons(h, now));
    var id := w.handlers[h].order;
    var o := w.db.orders[id];
    BookedCoupon(w, h, now);
    ExecKeepsSound(w, BookCoupons(h, now));
    ActionKeepsTerms(w, BookCoupons(h, now));
    RunKeepsRow(w1, actions, Used(w.db.ledger, o).terms.influencer, MonthOf(o.createdAt));
    RunKeepsTerms(w1, actions);
    ExecGrows(w, BookCoupons(h, now));
    var end := RunAll(w1, actions).db;
    assert end.orders[id].usages == o.usages && end.orders[id].createdAt == o.createdAt;
    RefundWithRow(end, id);
  }
}
