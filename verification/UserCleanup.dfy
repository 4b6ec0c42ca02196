/** user-cleanup.service.ts: the find-then-loop form of the expiry sweep. */
module UserCleanup {
  import opened Schema
  import opened Expiry
  import opened Storage

  class UserCleanupService {
    const db: Database

    constructor (db: Database)
      ensures this.db == db
    {
      this.db := db;
    }

    /** Find, then write one by one: at one moment this is the sweep over everything. */
    method ExpireUnpaidOrders(now: nat) returns (expiredCount: nat)
      modifies db`orders
      ensures db.orders == Sweep(old(db.orders), EVERYTHING, now)
      ensures expiredCount == |FindOverdue(old(db.orders), now)|
    {
      var unpaidOrders := FindOverdue(db.orders, now);
      ghost var before := db.orders;
      expiredCount := 0;
      while expiredCount < |unpaidOrders|
        invariant expiredCount <= |unpaidOrders|
        invariant db.orders == ExpireListed(before, unpaidOrders[..expiredCount])
      {
        var id := unpaidOrders[expiredCount];
        assert unpaidOrders[..expiredCount + 1] == unpaidOrders[..expiredCount] + [id];
        db.orders := db.orders[id := db.orders[id].(status := Expired)];
        expiredCount := expiredCount + 1;
      }
      assert unpaidOrders[..expiredCount] == unpaidOrders;
      LoopIsSweep(before, now);
    }
  }
}
