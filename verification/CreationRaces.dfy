/** One-time and first-purchase coupons when validation and insertion of different requests, and the
    transactions of different handlers, are interleaved. */
module CreationRaces {
  import opened Options
  import opened Schema
  import opened Calendar
  import opened BigoApi
  import opened CouponLedger
  import opened Engine
  import opened Coherence
  import opened Replay
  import opened CouponRules
  import opened Interleaving
  import Q = RetryQueue

  /** Some other live order shares a one-time coupon with o, which stands or will stand at
      position id. */
  predicate HasRival(db: Db, o: Order, id: nat) {
    exists j | 0 <= j < |db.orders| ::
      j != id && Live(db.orders[j]) && SharesOneTime(db.ledger.coupons, o, db.orders[j])
  }

  /** The action inserts a draft, or revives a dead order, that has such a rival. A draft
      was validated earlier; nothing looks for rivals again. */
  predicate Clashes(w: World, a: Action) {
    match a
    case Insert(d, now) =>
      DraftAt(w, d) && !NumberTaken(w.db.orders, w.drafts[d].request.number)
      && HasRival(w.db, OrderOf(w.drafts[d].request.(now := now), w.drafts[d].quote), |w.db.orders|)
    case Approve(h) =>
      At(w, h, ToApprove)
      && var id := w.handlers[h].order; !Live(w.db.orders[id]) && HasRival(w.db, w.db.orders[id], id)
    case Complete(h) =>
      At(w, h, ToComplete)
      && var id := w.handlers[h].order;
         !Live(w.db.orders[id]) && w.db.orders[id].payment != PaymentRejected
         && HasRival(w.db, w.db.orders[id], id)
    case _ => false
  }

  // ----- What changes hands -----

  /** No order comes to life. */
  ghost predicate NoNewLife(db: Db, db': Db) {
    && SameTerms(db.ledger, db'.ledger) && |db'.orders| == |db.orders|
    && (forall i | 0 <= i < |db.orders| :: SameOrder(db.orders[i], db'.orders[i]))
    && (forall i | 0 <= i < |db.orders| && Live(db'.orders[i]) :: Live(db.orders[i]))
  }

  /** Exactly the order at position id is new or comes to life. */
  ghost predicate Enlivened(db: Db, db': Db, id: nat) {
    && SameTerms(db.ledger, db'.ledger) && id < |db'.orders|
    && |db'.orders| == (if id == |db.orders| then id + 1 else |db.orders|)
    && (forall j | 0 <= j < |db.orders| && j != id :: db'.orders[j] == db.orders[j])
    && Live(db'.orders[id])
    && (id < |db.orders| ==> !Live(db.orders[id]) && SameOrder(db.orders[id], db'.orders[id]))
  }

  lemma NoNewLifeKeepsUnique(db: Db, db': Db)
    requires OneTimeUnique(db) && NoNewLife(db, db')
    ensures OneTimeUnique(db')
  {
    forall i, j | 0 <= i < |db'.orders| && 0 <= j < |db'.orders| && i != j
      && SharesOneTime(db'.ledger.coupons, db'.orders[i], db'.orders[j])
      ensures !(Live(db'.orders[i]) && Live(db'.orders[j]))
    {
      SharingIsStable(db.ledger, db'.ledger, db.orders[i], db'.orders[i], db.orders[j], db'.orders[j]);
    }
  }

  lemma TermsDecideSharing(l: Ledger, l': Ledger, a: Order, b: Order)
    requires SameTerms(l, l')
    ensures SharesOneTime(l.coupons, a, b) <==> SharesOneTime(l'.coupons, a, b)
  {
    SharingIsStable(l, l', a, a, b, b);
  }

  lemma EnlivenedPair(db: Db, db': Db, id: nat, i: nat, j: nat)
    requires OneTimeUnique(db) && Enlivened(db, db', id) && !HasRival(db, db'.orders[id], id)
    requires i < |db'.orders| && j < |db'.orders| && i != j
    requires SharesOneTime(db'.ledger.coupons, db'.orders[i], db'.orders[j])
    ensures !(Live(db'.orders[i]) && Live(db'.orders[j]))
  {
    TermsDecideSharing(db.ledger, db'.ledger, db'.orders[i], db'.orders[j]);
    if j == id { SharingIsSymmetric(db.ledger.coupons, db'.orders[i], db'.orders[id]); }
  }

  lemma EnlivenedKeepsUnique(db: Db, db': Db, id: nat)
    requires OneTimeUnique(db) && Enlivened(db, db', id)
    ensures OneTimeUnique(db') <==> !HasRival(db, db'.orders[id], id)
  {
    if HasRival(db, db'.orders[id], id) {
      var j :| 0 <= j < |db.orders| && j != id && Live(db.orders[j])
        && SharesOneTime(db.ledger.coupons, db'.orders[id], db.orders[j]);
      TermsDecideSharing(db.ledger, db'.ledger, db'.orders[id], db.orders[j]);
    } else {
      forall i, j | 0 <= i < |db'.orders| && 0 <= j < |db'.orders| && i != j
        && SharesOneTime(db'.ledger.coupons, db'.orders[i], db'.orders[j])
        ensures !(Live(db'.orders[i]) && Live(db'.orders[j]))
      {
        EnlivenedPair(db, db', id, i, j);
      }
    }
  }

  // ----- Action by action -----

  lemma RivalOfSame(db: Db, o: Order, o': Order, id: nat)
    requires SameOrder(o, o')
    ensures HasRival(db, o, id) <==> HasRival(db, o', id)
  {
    forall j | 0 <= j < |db.orders|
      ensures SharesOneTime(db.ledger.coupons, o, db.orders[j]) <==> SharesOneTime(db.ledger.coupons, o', db.orders[j])
    {
      SharingIsStable(db.ledger, db.ledger, o, o', db.orders[j], db.orders[j]);
    }
  }

  lemma InsertClash(w: World, d: nat, now: nat)
    requires OneTimeUnique(w.db)
    ensures OneTimeUnique(Exec(w, Insert(d, now)).db) <==> !Clashes(w, Insert(d, now))
  {
    var db' := Exec(w, Insert(d, now)).db;
    if DraftAt(w, d) && !NumberTaken(w.db.orders, w.drafts[d].request.number) {
      assert db'.orders == w.db.orders + [OrderOf(w.drafts[d].request.(now := now), w.drafts[d].quote)];
      EnlivenedKeepsUnique(w.db, db', |w.db.orders|);
    }
  }

  /** Writing statuses of one order. */
  lemma WriteClash(db: Db, db': Db, id: nat, o: Order)
    requires OneTimeUnique(db) && id < |db.orders| && SameOrder(db.orders[id], o)
    requires db'.orders == db.orders[id := o] && db'.ledger == db.ledger
    ensures OneTimeUnique(db') <==> !(Live(o) && !Live(db.orders[id]) && HasRival(db, db.orders[id], id))
  {
    if Live(o) && !Live(db.orders[id]) {
      EnlivenedKeepsUnique(db, db', id);
      RivalOfSame(db, db.orders[id], o, id);
    } else {
      NoNewLifeKeepsUnique(db, db');
    }
  }

  lemma ApproveClash(w: World, h: nat)
    requires OneTimeUnique(w.db)
    ensures OneTimeUnique(Exec(w, Approve(h)).db) <==> !Clashes(w, Approve(h))
  {
    if At(w, h, ToApprove) {
      var id := w.handlers[h].order;
      WriteClash(w.db, ApproveTx(w.db, id), id, ApproveTx(w.db, id).orders[id]);
    }
  }

  lemma CompleteClash(w: World, h: nat)
    requires OneTimeUnique(w.db)
    ensures OneTimeUnique(Exec(w, Complete(h)).db) <==> !Clashes(w, Complete(h))
  {
    if At(w, h, ToComplete) {
      var id := w.handlers[h].order;
      WriteClash(w.db, CompleteTx(w.db, id), id, CompleteTx(w.db, id).orders[id]);
    }
  }

  lemma QuietLife(w: World, a: Action)
    requires !a.Insert? && !a.Approve? && !a.Complete?
    ensures NoNewLife(w.db, Exec(w, a).db)
  {
    ActionKeepsTerms(w, a);
    ExecGrows(w, a);
    QuietOrders(w, a);
  }

  lemma QuietOrders(w: World, a: Action)
    requires !a.Insert? && !a.Approve? && !a.Complete?
    ensures |Exec(w, a).db.orders| == |w.db.orders|
    ensures forall i | 0 <= i < |w.db.orders| && Live(Exec(w, a).db.orders[i]) :: Live(w.db.orders[i])
  {
  }

  /** An action keeps one-time coupons unique among live orders if and only if it does not
      insert or revive an order beside a live rival. */
  lemma ClashStep(w: World, a: Action)
    requires OneTimeUnique(w.db)
    ensures OneTimeUnique(Exec(w, a).db) <==> !Clashes(w, a)
  {
    match a
    case Insert(d, now) => InsertClash(w, d, now);
    case Approve(h) => ApproveClash(w, h);
    case Complete(h) => CompleteClash(w, h);
    case _ =>
      QuietLife(w, a);
      NoNewLifeKeepsUnique(w.db, Exec(w, a).db);
  }

  ghost predicate UniqueThroughout(w: World, actions: seq<Action>) {
    OneTimeUnique(RunAll(w, actions).db) && (|actions| == 0 || UniqueThroughout(w, actions[..|actions| - 1]))
  }

  predicate NeverClashes(w: World, actions: seq<Action>) {
    |actions| == 0
    || (NeverClashes(w, actions[..|actions| - 1])
        && !Clashes(RunAll(w, actions[..|actions| - 1]), actions[|actions| - 1]))
  }

  lemma NotUniqueThroughout(w: World, actions: seq<Action>)
    requires UniqueThroughout(w, actions)
    ensures OneTimeUnique(RunAll(w, actions).db)
  {
  }

  /** One-time coupons stay unique throughout an interleaving if and only if it never
      inserts or revives an order beside a live rival. */
  lemma {:induction false} UniqueUnlessClash(db: Db, actions: seq<Action>)
    requires Initial(db)
    ensures UniqueThroughout(Fresh(db), actions) <==> NeverClashes(Fresh(db), actions)
  {
    if |actions| == 0 {
    } else {
      var before, last := actions[..|actions| - 1], actions[|actions| - 1];
      UniqueUnlessClash(db, before);
      if UniqueThroughout(Fresh(db), before) {
        NotUniqueThroughout(Fresh(db), before);
        ClashStep(RunAll(Fresh(db), before), last);
      }
    }
  }

  // ----- First-purchase coupons -----

  /** Some other unexpired order of the user in the store carries a first-purchase coupon, as
      o does, which stands or will stand at position id. */
  predicate HasEarlier(db: Db, o: Order, id: nat) {
    exists j | 0 <= j < |db.orders| ::
      j != id && Counts(db.orders[j]) && SharesFirstPurchase(db.ledger.coupons, o, db.orders[j])
  }

  /** The order that the action may take out of EXPIRED, or the table size. */
  function Revives(w: World, a: Action): nat {
    match a
    case Approve(h) => if At(w, h, ToApprove) then w.handlers[h].order else |w.db.orders|
    case Complete(h) => if At(w, h, ToComplete) then w.handlers[h].order else |w.db.orders|
    case Refund(id) => id
    case ChargeBack(id) => id
    case _ => |w.db.orders|
  }

  /** The action inserts a draft, or takes an order out of EXPIRED, beside such an order. */
  predicate FirstClashes(w: World, a: Action) {
    if a.Insert? then
      DraftAt(w, a.d) && !NumberTaken(w.db.orders, w.drafts[a.d].request.number)
      && HasEarlier(w.db, OrderOf(w.drafts[a.d].request.(now := a.now), w.drafts[a.d].quote), |w.db.orders|)
    else
      var id := Revives(w, a);
      id < |w.db.orders| && w.db.orders[id].status == Expired && HasEarlier(w.db, w.db.orders[id], id)
  }

  /** Exactly the order at position id is new or leaves EXPIRED. */
  ghost predicate Unexpired(db: Db, db': Db, id: nat) {
    && SameTerms(db.ledger, db'.ledger) && id < |db'.orders|
    && |db'.orders| == (if id == |db.orders| then id + 1 else |db.orders|)
    && (forall j | 0 <= j < |db.orders| && j != id :: db'.orders[j] == db.orders[j])
    && Counts(db'.orders[id])
    && (id < |db.orders| ==> !Counts(db.orders[id]) && SameOrder(db.orders[id], db'.orders[id]))
  }

  ghost predicate NoneUnexpired(db: Db, db': Db) {
    && SameTerms(db.ledger, db'.ledger) && |db'.orders| == |db.orders|
    && (forall i | 0 <= i < |db.orders| :: SameOrder(db.orders[i], db'.orders[i]))
    && (forall i | 0 <= i < |db.orders| && Counts(db'.orders[i]) :: Counts(db.orders[i]))
  }

  lemma NoneUnexpiredKeeps(db: Db, db': Db)
    requires FirstPurchaseUnique(db) && NoneUnexpired(db, db')
    ensures FirstPurchaseUnique(db')
  {
    forall i, j | 0 <= i < |db'.orders| && 0 <= j < |db'.orders| && i != j
      && SharesFirstPurchase(db'.ledger.coupons, db'.orders[i], db'.orders[j])
      ensures !(Counts(db'.orders[i]) && Counts(db'.orders[j]))
    {
      SharingIsStable(db.ledger, db'.ledger, db.orders[i], db'.orders[i], db.orders[j], db'.orders[j]);
    }
  }

  lemma UnexpiredKeeps(db: Db, db': Db, id: nat)
    requires FirstPurchaseUnique(db) && Unexpired(db, db', id)
    ensures FirstPurchaseUnique(db') <==> !HasEarlier(db, db'.orders[id], id)
  {
    if HasEarlier(db, db'.orders[id], id) {
      var j :| 0 <= j < |db.orders| && j != id && Counts(db.orders[j])
        && SharesFirstPurchase(db.ledger.coupons, db'.orders[id], db.orders[j]);
      SharingIsStable(db.ledger, db'.ledger, db'.orders[id], db'.orders[id], db.orders[j], db.orders[j]);
    } else {
      forall i, j | 0 <= i < |db'.orders| && 0 <= j < |db'.orders| && i != j
        && SharesFirstPurchase(db'.ledger.coupons, db'.orders[i], db'.orders[j])
        ensures !(Counts(db'.orders[i]) && Counts(db'.orders[j]))
      {
        var a, b := db'.orders[i], db'.orders[j];
        SharingIsStable(db.ledger, db'.ledger, a, a, b, b);
      }
    }
  }

  lemma EarlierOfSame(db: Db, o: Order, o': Order, id: nat)
    requires SameOrder(o, o')
    ensures HasEarlier(db, o, id) <==> HasEarlier(db, o', id)
  {
    forall j | 0 <= j < |db.orders|
      ensures SharesFirstPurchase(db.ledger.coupons, o, db.orders[j])
              <==> SharesFirstPurchase(db.ledger.coupons, o', db.orders[j])
    {
      SharingIsStable(db.ledger, db.ledger, o, o', db.orders[j], db.orders[j]);
    }
  }

  /** Writing statuses of one order, which then counts. */
  lemma WriteFirstClash(db: Db, db': Db, id: nat)
    requires FirstPurchaseUnique(db) && id < |db.orders| && |db'.orders| == |db.orders|
    requires SameTerms(db.ledger, db'.ledger) && SameOrder(db.orders[id], db'.orders[id]) && Counts(db'.orders[id])
    requires forall j | 0 <= j < |db.orders| && j != id :: db'.orders[j] == db.orders[j]
    ensures FirstPurchaseUnique(db') <==> !(db.orders[id].status == Expired && HasEarlier(db, db.orders[id], id))
  {
    if Counts(db.orders[id]) {
      NoneUnexpiredKeeps(db, db');
    } else {
      UnexpiredKeeps(db, db', id);
      EarlierOfSame(db, db.orders[id], db'.orders[id], id);
    }
  }

  lemma InsertFirstClash(w: World, d: nat, now: nat)
    requires FirstPurchaseUnique(w.db)
    ensures FirstPurchaseUnique(Exec(w, Insert(d, now)).db) <==> !FirstClashes(w, Insert(d, now))
  {
    var db' := Exec(w, Insert(d, now)).db;
    if DraftAt(w, d) && !NumberTaken(w.db.orders, w.drafts[d].request.number) {
      assert db'.orders == w.db.orders + [OrderOf(w.drafts[d].request.(now := now), w.drafts[d].quote)];
      UnexpiredKeeps(w.db, db', |w.db.orders|);
    }
  }

  lemma RevivedCounts(w: World, a: Action)
    requires Revives(w, a) < |w.db.orders|
    ensures var id, orders' := Revives(w, a), Exec(w, a).db.orders;
      && |orders'| == |w.db.orders| && SameOrder(w.db.orders[id], orders'[id]) && Counts(orders'[id])
      && forall j | 0 <= j < |w.db.orders| && j != id :: orders'[j] == w.db.orders[j]
  {
    match a
    case Approve(h) =>
    case Complete(h) =>
    case Refund(id) =>
    case ChargeBack(id) =>
  }

  lemma QuietCounts(w: World, a: Action)
    requires !a.Insert? && Revives(w, a) >= |w.db.orders|
    ensures |Exec(w, a).db.orders| == |w.db.orders|
    ensures forall i | 0 <= i < |w.db.orders| && Counts(Exec(w, a).db.orders[i]) :: Counts(w.db.orders[i])
  {
  }

  /** An action keeps first-purchase coupons unique among a user's unexpired orders of a
      store if and only if it does not insert an order, or take one out of EXPIRED, beside
      another. */
  lemma FirstClashStep(w: World, a: Action)
    requires FirstPurchaseUnique(w.db)
    ensures FirstPurchaseUnique(Exec(w, a).db) <==> !FirstClashes(w, a)
  {
    if a.Insert? {
      InsertFirstClash(w, a.d, a.now);
    } else {
      ActionKeepsTerms(w, a);
      if Revives(w, a) < |w.db.orders| {
        RevivedCounts(w, a);
        WriteFirstClash(w.db, Exec(w, a).db, Revives(w, a));
      } else {
        ExecGrows(w, a);
        QuietCounts(w, a);
        NoneUnexpiredKeeps(w.db, Exec(w, a).db);
      }
    }
  }

  ghost predicate FirstThroughout(w: World, actions: seq<Action>) {
    FirstPurchaseUnique(RunAll(w, actions).db) && (|actions| == 0 || FirstThroughout(w, actions[..|actions| - 1]))
  }

  predicate NeverFirstClashes(w: World, actions: seq<Action>) {
    |actions| == 0
    || (NeverFirstClashes(w, actions[..|actions| - 1])
        && !FirstClashes(RunAll(w, actions[..|actions| - 1]), actions[|actions| - 1]))
  }

  lemma NotFirstThroughout(w: World, actions: seq<Action>)
    requires FirstThroughout(w, actions)
    ensures FirstPurchaseUnique(RunAll(w, actions).db)
  {
  }

  /** The same throughout an interleaving. */
  lemma {:induction false} FirstUniqueUnlessClash(db: Db, actions: seq<Action>)
    requires Initial(db)
    ensures FirstThroughout(Fresh(db), actions) <==> NeverFirstClashes(Fresh(db), actions)
  {
    if |actions| == 0 {
    } else {
      var before, last := actions[..|actions| - 1], actions[|actions| - 1];
      FirstUniqueUnlessClash(db, before);
      if FirstThroughout(Fresh(db), before) {
        NotFirstThroughout(Fresh(db), before);
        FirstClashStep(RunAll(Fresh(db), before), last);
      }
    }
  }

  // ----- Two requests at once -----

  lemma BothDrafted()
    ensures var q1, q2 := RivalRequest("N1", "p1", 0), RivalRequest("N2", "p2", 0);
      Exec(Exec(Fresh(RivalStart()), Validate(q1)), Validate(q2))
      == Fresh(RivalStart()).(drafts := [Draft(q1, Quote(0, 0, 1000))] + [Draft(q2, Quote(0, 0, 1000))])
  {
    var q1, q2 := RivalRequest("N1", "p1", 0), RivalRequest("N2", "p2", 0);
    Accepted([], "N1", "p1", 0);
    Accepted([], "N2", "p2", 0);
    ValidateDrafts(Fresh(RivalStart()), q1, Quote(0, 0, 1000));
    assert [] + [Draft(q1, Quote(0, 0, 1000))] == [Draft(q1, Quote(0, 0, 1000))];
    ValidateDrafts(Fresh(RivalStart()).(drafts := [Draft(q1, Quote(0, 0, 1000))]), q2, Quote(0, 0, 1000));
  }

  lemma BothInserted(w: World)
    requires w.db == RivalStart()
    requires w.drafts == [Draft(RivalRequest("N1", "p1", 0), Quote(0, 0, 1000))]
                         + [Draft(RivalRequest("N2", "p2", 0), Quote(0, 0, 1000))]
    ensures !OneTimeUnique(Exec(Exec(w, Insert(0, 0)), Insert(1, 0)).db)
    ensures !FirstPurchaseUnique(Exec(Exec(w, Insert(0, 0)), Insert(1, 0)).db)
  {
    var w1 := Exec(w, Insert(0, 0));
    assert w1.db.orders == [OrderOf(RivalRequest("N1", "p1", 0), Quote(0, 0, 1000))];
    assert "N1"[1] != "N2"[1];
    var db := Exec(w1, Insert(1, 0)).db;
    assert |db.orders| == 2 && db.orders[0].usages[0] in db.orders[1].usages;
    assert SharesOneTime(db.ledger.coupons, db.orders[0], db.orders[1]);
    assert SharesFirstPurchase(db.ledger.coupons, db.orders[0], db.orders[1]);
  }

  /** Two requests validated before either is inserted leave a one-time, first-purchase
      coupon with two live orders of one user and one Bigo id. */
  lemma BothSucceed()
    ensures Initial(RivalStart())
    ensures var q1, q2 := RivalRequest("N1", "p1", 0), RivalRequest("N2", "p2", 0);
      var end := RunAll(Fresh(RivalStart()), [Validate(q1)] + [Validate(q2)] + [Insert(0, 0)] + [Insert(1, 0)]).db;
      !OneTimeUnique(end) && !FirstPurchaseUnique(end)
  {
    var q1, q2 := RivalRequest("N1", "p1", 0), RivalRequest("N2", "p2", 0);
    var w := Fresh(RivalStart());
    BothDrafted();
    BothInserted(Exec(Exec(w, Validate(q1)), Validate(q2)));
    RunsOn(w, [], Validate(q1));
    assert [] + [Validate(q1)] == [Validate(q1)];
    RunsOn(w, [Validate(q1)], Validate(q2));
    RunsOn(w, [Validate(q1)] + [Validate(q2)], Insert(0, 0));
    RunsOn(w, [Validate(q1)] + [Validate(q2)] + [Insert(0, 0)], Insert(1, 0));
  }
}
