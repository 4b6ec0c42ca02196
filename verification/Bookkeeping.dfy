/** When an influencer's coupon sales and monthly rows agree: exactly until a revert of a
    positive amount finds no row for the month in which its order was created. */
module Bookkeeping {
  import opened Options
  import opened Schema
  import opened Sums
  import opened Calendar
  import opened BigoApi
  import opened CouponLedger
  import opened Engine
  import opened Interleaving

  /** The books of every influencer agree. */
  ghost predicate BooksAgree(l: Ledger) { forall who: Id :: Drift(l, who) == 0 }

  /** The action reverts an order whose usage no monthly row covers. */
  predicate RevertsUncovered(w: World, a: Action, who: Id) {
    (a.Refund? || a.ChargeBack?) && Known(w.db, a.id)
    && Uncovered(w.db.ledger, w.db.orders[a.id], MonthOf(w.db.orders[a.id].createdAt), who)
  }

  ghost predicate RevertsSome(w: World, a: Action) { exists who: Id :: RevertsUncovered(w, a, who) }

  lemma BookDrift(db: Db, id: OrderId, now: nat, who: Id)
    requires Known(db, id) && |db.orders[id].usages| <= 1
    ensures Drift(Book(db, id, now).ledger, who) == Drift(db.ledger, who)
  {
    ConfirmDrift(db.ledger, id, db.orders[id], MonthOf(now), who);
  }

  lemma RefundDrift(db: Db, id: OrderId, who: Id)
    requires Known(db, id) && |db.orders[id].usages| <= 1
    ensures var o := db.orders[id];
      var loss := if Uncovered(db.ledger, o, MonthOf(o.createdAt), who) then o.price else 0;
      && Drift(RefundTx(db, id).ledger, who) == Drift(db.ledger, who) - loss
      && Drift(ChargebackTx(db, id).ledger, who) == Drift(db.ledger, who) - loss
  {
    var o := db.orders[id];
    RevertDrift(db.ledger, id, o.(status := Refounded), MonthOf(o.createdAt), who);
    RevertDrift(db.ledger, id, o.(payment := PaymentRejected, status := Refounded, recharge := RechargeRejected),
                MonthOf(o.createdAt), who);
  }

  /** An action moves an influencer's books apart by the price of the order it reverts
      without a month row, and otherwise not at all. */
  lemma ActionDrift(w: World, a: Action, who: Id)
    requires LedgerSound(w.db)
    ensures Drift(Exec(w, a).db.ledger, who)
            == Drift(w.db.ledger, who) - (if RevertsUncovered(w, a, who) then w.db.orders[a.id].price else 0)
  {
    if !MovesBooks(a) {
      BooksUnmoved(w, a);
    } else if a.BookCoupons? {
      if At(w, a.h, ToBook) { BookDrift(w.db, w.handlers[a.h].order, a.now, who); }
    } else if Known(w.db, a.id) {
      RefundDrift(w.db, a.id, who);
    }
  }

  /** An action keeps all books in agreement if and only if it reverts nothing uncovered. */
  lemma AgreementStep(w: World, a: Action)
    requires LedgerSound(w.db) && BooksAgree(w.db.ledger)
    ensures BooksAgree(Exec(w, a).db.ledger) <==> !RevertsSome(w, a)
  {
    forall who: Id
      ensures Drift(Exec(w, a).db.ledger, who) == 0 <==> !RevertsUncovered(w, a, who)
    {
      ActionDrift(w, a, who);
      assert Drift(w.db.ledger, who) == 0;
    }
  }

  ghost predicate AgreeThroughout(w: World, actions: seq<Action>) {
    BooksAgree(RunAll(w, actions).db.ledger) && (|actions| == 0 || AgreeThroughout(w, actions[..|actions| - 1]))
  }

  ghost predicate NeverUncovered(w: World, actions: seq<Action>) {
    |actions| == 0
    || (NeverUncovered(w, actions[..|actions| - 1])
        && !RevertsSome(RunAll(w, actions[..|actions| - 1]), actions[|actions| - 1]))
  }

  lemma NotThroughout(w: World, actions: seq<Action>)
    requires AgreeThroughout(w, actions)
    ensures BooksAgree(RunAll(w, actions).db.ledger)
  {
  }

  lemma InitialAgrees(db: Db)
    requires Initial(db)
    ensures BooksAgree(db.ledger)
  {
    forall who: Id ensures Drift(db.ledger, who) == 0 {
      SumZero(db.ledger.coupons, SalesOwnedBy(who));
    }
  }

  /** The books of all influencers agree throughout an interleaving if and only if no
      refund or chargeback in it reverts a positive amount of an influencer who has no row
      for the month in which the order was created. */
  lemma {:induction false} BooksAgreeUnlessUncovered(db: Db, actions: seq<Action>)
    requires Initial(db) && forall a | a in actions :: Proper(a)
    ensures AgreeThroughout(Fresh(db), actions) <==> NeverUncovered(Fresh(db), actions)
  {
    if |actions| == 0 {
      InitialAgrees(db);
    } else {
      var before, last := actions[..|actions| - 1], actions[|actions| - 1];
      BooksAgreeUnlessUncovered(db, before);
      if AgreeThroughout(Fresh(db), before) {
        NotThroughout(Fresh(db), before);
        InitialIsSound(db);
        EveryRunIsSound(Fresh(db), before);
        AgreementStep(RunAll(Fresh(db), before), last);
      }
    }
  }
}
