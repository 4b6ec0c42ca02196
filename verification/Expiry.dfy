/** Which unpaid orders an expiry sweep turns EXPIRED. */
module Expiry {
  import opened Options
  import opened Schema
  import opened Calendar

  const EXPIRATION_HOURS: nat := 24

  /** The filters of checkAndExpireOrders; an empty id list filters nothing. */
  datatype Filter = Filter(store: Option<Id>, ids: seq<OrderId>, maxDate: Option<nat>)

  const EVERYTHING := Filter(None, [], None)

  predicate Selects(f: Filter, id: OrderId, o: Order) {
    && (f.store.Some? ==> o.store == f.store.value)
    && (|f.ids| > 0 ==> id in f.ids)
    && (f.maxDate.Some? ==> o.createdAt <= DayOf(f.maxDate.value) * DAY + (DAY - 1))
  }

  predicate Overdue(o: Order, now: nat) {
    o.status == Created && o.payment == PaymentPending
    && o.createdAt < now - EXPIRATION_HOURS * HOUR
  }

  function ExpireOne(f: Filter, id: OrderId, o: Order, now: nat): Order {
    if Selects(f, id, o) && Overdue(o, now) then o.(status := Expired) else o
  }

  /** The updateMany of a sweep. */
  function Sweep(orders: seq<Order>, f: Filter, now: nat): (swept: seq<Order>)
    ensures |swept| == |orders|
    ensures forall i | 0 <= i < |orders| :: swept[i] == ExpireOne(f, i, orders[i], now)
  {
    seq(|orders|, i requires 0 <= i < |orders| => ExpireOne(f, i, orders[i], now))
  }

  /** Written out: the sweep expires exactly the orders that are CREATED and unpaid, older than
      24 hours, of the given store, among the given ids, and created no later than the given
      day, as far as each of these is given. */
  lemma SweptExactly(orders: seq<Order>, f: Filter, now: nat, i: nat)
    requires i < |orders|
    ensures var o := orders[i];
      Sweep(orders, f, now)[i]
      == if o.status == Created && o.payment == PaymentPending && o.createdAt + 86_400_000 < now
            && (f.store.None? || f.store == Some(o.store))
            && (f.ids == [] || exists k | 0 <= k < |f.ids| :: f.ids[k] == i)
            && (f.maxDate.None? || o.createdAt / 86_400_000 <= f.maxDate.value / 86_400_000)
         then o.(status := Expired) else o
  {
    EndOfDay(orders[i].createdAt, if f.maxDate.Some? then f.maxDate.value else 0);
  }

  lemma EndOfDay(t: nat, date: nat)
    ensures t <= DayOf(date) * DAY + (DAY - 1) <==> t / 86_400_000 <= date / 86_400_000
  {
  }

  // ----- The find-then-loop form -----

  /** The ids the query finds, in table order. */
  function FindOverdue(orders: seq<Order>, now: nat): (ids: seq<OrderId>)
    ensures forall k | 0 <= k < |ids| :: ids[k] < |orders| && Overdue(orders[ids[k]], now)
    ensures forall id | 0 <= id < |orders| && Overdue(orders[id], now) :: id in ids
  {
    if |orders| == 0 then []
    else
      var last := |orders| - 1;
      var ids := FindOverdue(orders[..last], now);
      if Overdue(orders[last], now) then ids + [last] else ids
  }

  /** The loop writes EXPIRED to every listed order, without looking at it again. */
  function ExpireListed(orders: seq<Order>, ids: seq<OrderId>): (written: seq<Order>)
    requires forall k | 0 <= k < |ids| :: ids[k] < |orders|
    ensures |written| == |orders|
    ensures forall i | 0 <= i < |orders| ::
      written[i] == if i in ids then orders[i].(status := Expired) else orders[i]
  {
    if |ids| == 0 then orders
    else
      var id := ids[|ids| - 1];
      var before := ExpireListed(orders, ids[..|ids| - 1]);
      before[id := before[id].(status := Expired)]
  }

  /** Run at one moment, the loop does what one set update over everything does. */
  lemma LoopIsSweep(orders: seq<Order>, now: nat)
    ensures ExpireListed(orders, FindOverdue(orders, now)) == Sweep(orders, EVERYTHING, now)
  {
  }

  /** Run against a table that has moved on since the query, the loop still does what a
      set update over the listed orders would do exactly when every listed order is
      still overdue or has expired meanwhile. Otherwise, for instance after an approval
      in between, it overwrites a paid order with EXPIRED. */
  lemma StaleLoop(later: seq<Order>, ids: seq<OrderId>, now: nat)
    requires |ids| > 0 && forall k | 0 <= k < |ids| :: ids[k] < |later|
    ensures ExpireListed(later, ids) == Sweep(later, Filter(None, ids, None), now)
            <==> forall k | 0 <= k < |ids| :: Overdue(later[ids[k]], now) || later[ids[k]].status == Expired
  {
    var looped, swept := ExpireListed(later, ids), Sweep(later, Filter(None, ids, None), now);
    if looped == swept {
      forall k | 0 <= k < |ids| ensures Overdue(later[ids[k]], now) || later[ids[k]].status == Expired {
        assert looped[ids[k]] == swept[ids[k]];
      }
    }
  }
}
