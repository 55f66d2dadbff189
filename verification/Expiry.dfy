/** The sweep that cancels unpaid orders past their time to live. */
module Expiry {
  import opened Domain
  import opened Tables
  import opened Transactions
  import opened Runs
  import OrderRepository

  const SWEEP_LIMIT := 50
  const DEFAULT_LIMIT := 50

  function Expired(d: DB, cutoff: nat): set<nat> {
    set o | o in d.orders && d.orders[o].status == PendingPayment && d.orders[o].createdAt < cutoff
  }

  /** `ids` answers the sweep's query: the lowest expired ids, ascending, up to the limit. */
  ghost predicate IsListing(d: DB, cutoff: nat, limit: nat, ids: seq<nat>) {
    && |ids| == (if |Expired(d, cutoff)| < limit then |Expired(d, cutoff)| else limit)
    && (forall i | 0 <= i < |ids| :: ids[i] in Expired(d, cutoff))
    && (forall i, j | 0 <= i < j < |ids| :: ids[i] < ids[j])
    && (forall i, o | 0 <= i < |ids| && o in Expired(d, cutoff) && o !in ids :: ids[i] < o)
  }

  // ---------- the sweep under races ----------

  /** One cancellation of a sweep: the database it found and the one it left. */
  datatype Cancellation = Cancellation(o: nat, before: DB, after: DB)

  /** The sweep's cancellations when other transactions and deliveries, `others[k]`, run before the
      k-th one. */
  function Cancellations(d: DB, ids: seq<nat>, others: seq<seq<Turn>>, now: nat): seq<Cancellation>
    requires |others| == |ids|
    decreases |ids|
  {
    if ids == [] then []
    else
      var before := Execute(d, others[0]);
      var after := Cancel(before, None, ids[0], now).db;
      [Cancellation(ids[0], before, after)] + Cancellations(after, ids[1..], others[1..], now)
  }

  /** What the sweep returns: the cancellations that gave no error. */
  function Count(cs: seq<Cancellation>, now: nat): nat {
    if cs == [] then 0
    else Count(cs[1..], now) + if Cancel(cs[0].before, None, cs[0].o, now).result.Ok? then 1 else 0
  }

  /** The cancellation moved its order to cancelled. */
  predicate MovedIt(c: Cancellation) {
    && c.o in c.before.orders && c.o in c.after.orders
    && c.before.orders[c.o].status != Cancelled && c.after.orders[c.o].status == Cancelled
  }

  function MovedOrders(cs: seq<Cancellation>): set<nat> {
    set c | c in cs && MovedIt(c) :: c.o
  }

  /** A cancellation moves its order exactly when it gives no error, touches no other order, and
      leaves paid, fulfilled and cancelled orders alone. */
  lemma CancelMovesOnlyItsOrder(d: DB, o: nat, now: nat)
    ensures var t := Cancel(d, None, o, now);
            && (t.result.Ok? <==> MovedIt(Cancellation(o, d, t.db)))
            && t.db.orders.Keys == d.orders.Keys
            && (forall x | x in d.orders && x != o :: t.db.orders[x] == d.orders[x])
            && (o in d.orders && d.orders[o].status in {Paid, Fulfilled, Cancelled} ==> t.db == d)
  {
  }

  lemma {:induction false} CancellationIds(d: DB, ids: seq<nat>, others: seq<seq<Turn>>, now: nat)
    requires |others| == |ids|
    ensures var cs := Cancellations(d, ids, others, now);
            && |cs| == |ids|
            && (forall i | 0 <= i < |ids| :: cs[i].o == ids[i]
                 && cs[i].after == Cancel(cs[i].before, None, ids[i], now).db)
    decreases |ids|
  {
    if ids != [] {
      var before := Execute(d, others[0]);
      CancellationIds(Cancel(before, None, ids[0], now).db, ids[1..], others[1..], now);
    }
  }

  lemma {:induction false} CountIsMoved(cs: seq<Cancellation>, now: nat)
    requires forall i, j | 0 <= i < j < |cs| :: cs[i].o != cs[j].o
    requires forall i | 0 <= i < |cs| :: cs[i].after == Cancel(cs[i].before, None, cs[i].o, now).db
    ensures Count(cs, now) == |MovedOrders(cs)|
  {
    if cs == [] {
      assert MovedOrders(cs) == {};
    } else {
      var c, rest := cs[0], cs[1..];
      CountIsMoved(rest, now);
      CancelMovesOnlyItsOrder(c.before, c.o, now);
      forall x | x in rest ensures x.o != c.o {
        var i :| 0 <= i < |rest| && rest[i] == x;
        assert cs[i + 1] == x;
      }
      assert forall x | x in cs :: x == c || x in rest;
      assert forall x | x in rest :: x in cs;
      assert c in cs;
      if MovedIt(c) {
        assert MovedOrders(cs) == MovedOrders(rest) + {c.o};
      } else {
        assert MovedOrders(cs) == MovedOrders(rest);
      }
    }
  }

  predicate Distinct(ids: seq<nat>) {
    forall i, j | 0 <= i < j < |ids| :: ids[i] != ids[j]
  }

  lemma MovesAreCounted(d: DB, ids: seq<nat>, others: seq<seq<Turn>>, now: nat)
    requires |others| == |ids|
    ensures var cs := Cancellations(d, ids, others, now);
            Distinct(ids) ==> Count(cs, now) == |MovedOrders(cs)|
  {
    if Distinct(ids) {
      CancellationIds(d, ids, others, now);
      CountIsMoved(Cancellations(d, ids, others, now), now);
    }
  }

  /** Whatever runs between the listing and each cancellation, the sweep returns exactly the number of
      orders it moved to cancelled, and no cancellation of it changes a paid or fulfilled order. */
  lemma SweepUnderRaces(d: DB, cutoff: nat, ids: seq<nat>, others: seq<seq<Turn>>, now: nat)
    requires IsListing(d, cutoff, SWEEP_LIMIT, ids) && |others| == |ids|
    ensures var cs := Cancellations(d, ids, others, now);
            && Count(cs, now) == |MovedOrders(cs)|
            && forall c, o | c in cs && o in c.before.orders && c.before.orders[o].status in {Paid, Fulfilled} ::
                 o in c.after.orders && c.after.orders[o] == c.before.orders[o]
  {
    var cs := Cancellations(d, ids, others, now);
    CancellationIds(d, ids, others, now);
    CountIsMoved(cs, now);
    forall c, o | c in cs && o in c.before.orders && c.before.orders[o].status in {Paid, Fulfilled}
      ensures o in c.after.orders && c.after.orders[o] == c.before.orders[o]
    {
      var i :| 0 <= i < |cs| && cs[i] == c;
      CancelMovesOnlyItsOrder(c.before, c.o, now);
    }
  }

  /** The database after the sweep and everything that ran in between. */
  function AfterSweep(d: DB, ids: seq<nat>, others: seq<seq<Turn>>, now: nat): DB
    requires |others| == |ids|
    decreases |ids|
  {
    if ids == [] then d
    else AfterSweep(Cancel(Execute(d, others[0]), None, ids[0], now).db, ids[1..], others[1..], now)
  }

  // ---------- which orders a sweep may touch ----------

  lemma CancelKeepsAges(d: DB, o: nat, now: nat)
    requires Numbered(d)
    ensures Numbered(Cancel(d, None, o, now).db) && SameAges(d, Cancel(d, None, o, now).db)
  {
  }

  /** Orders created at or after the cutoff are left alone by every cancellation of the sweep. */
  lemma {:induction false} FreshAreUntouched(d: DB, ids: seq<nat>, others: seq<seq<Turn>>, now: nat, cutoff: nat)
    requires |others| == |ids| && Numbered(d)
    requires forall i | 0 <= i < |ids| :: ids[i] in d.orders && d.orders[ids[i]].createdAt < cutoff
    ensures forall c, o | c in Cancellations(d, ids, others, now) && o in c.before.orders
                        && c.before.orders[o].createdAt >= cutoff ::
              o in c.after.orders && c.after.orders[o] == c.before.orders[o]
    decreases |ids|
  {
    if ids != [] {
      var before := Execute(d, others[0]);
      var after := Cancel(before, None, ids[0], now).db;
      ExecuteKeepsAges(d, others[0]);
      CancelMovesOnlyItsOrder(before, ids[0], now);
      CancelKeepsAges(before, ids[0], now);
      forall i | 0 <= i < |ids[1..]|
        ensures ids[1..][i] in after.orders && after.orders[ids[1..][i]].createdAt < cutoff
      {
        assert ids[i + 1] in d.orders;
      }
      FreshAreUntouched(after, ids[1..], others[1..], now, cutoff);
    }
  }

  /** Every order the sweep moved was pending, and created before the cutoff, when it was listed. */
  lemma MovedWereStale(d: DB, cutoff: nat, ids: seq<nat>, others: seq<seq<Turn>>, now: nat)
    requires IsListing(d, cutoff, SWEEP_LIMIT, ids) && |others| == |ids|
    ensures forall o | o in MovedOrders(Cancellations(d, ids, others, now)) ::
              o in d.orders && d.orders[o].status == PendingPayment && d.orders[o].createdAt < cutoff
  {
    CancellationIds(d, ids, others, now);
    var cs := Cancellations(d, ids, others, now);
    forall o | o in MovedOrders(cs)
      ensures o in d.orders && d.orders[o].status == PendingPayment && d.orders[o].createdAt < cutoff
    {
      var c :| c in cs && MovedIt(c) && c.o == o;
      var i :| 0 <= i < |cs| && cs[i] == c;
      assert ids[i] in Expired(d, cutoff);
    }
  }

  /** With at most 50 stale pending orders and nothing else running, one sweep leaves none. */
  lemma SweepLeavesNone(d: DB, cutoff: nat, ids: seq<nat>, now: nat)
    requires IsListing(d, cutoff, SWEEP_LIMIT, ids)
    ensures |Expired(Swept(d, ids, now), cutoff)| == |Expired(d, cutoff)| - |ids|
    ensures |set o | o in d.orders && d.orders[o].status == PendingPayment && d.orders[o].createdAt < cutoff| <= 50 ==>
              var d' := Swept(d, ids, now);
              forall o | o in d'.orders && d'.orders[o].createdAt < cutoff :: d'.orders[o].status != PendingPayment
  {
    var d' := Swept(d, ids, now);
    assert Expired(d, cutoff) ==
           set o | o in d.orders && d.orders[o].status == PendingPayment && d.orders[o].createdAt < cutoff;
    SweepClears(d, cutoff, ids, now);
    if |Expired(d, cutoff)| <= 50 {
      forall o | o in d'.orders && d'.orders[o].createdAt < cutoff ensures d'.orders[o].status != PendingPayment {
        assert o !in Expired(d', cutoff);
      }
    }
  }

  // ---------- the sweep alone ----------

  /** The database after cancelling `ids` in turn. */
  function Swept(d: DB, ids: seq<nat>, now: nat): DB
    decreases |ids|
  {
    if ids == [] then d else Swept(Cancel(d, None, ids[0], now).db, ids[1..], now)
  }

  /** Cancelling one pending order takes just it off the expired set. */
  lemma CancelExpired(d: DB, cutoff: nat, o: nat, now: nat)
    requires o in d.orders && d.orders[o].status == PendingPayment
    ensures Cancel(d, None, o, now).result.Ok?
    ensures Expired(Cancel(d, None, o, now).db, cutoff) == Expired(d, cutoff) - {o}
  {
    CancelMovesOnlyItsOrder(d, o, now);
  }

  lemma HeadAndTail(all: set<nat>, ids: seq<nat>)
    requires ids != []
    ensures (all - {ids[0]}) - (set o | o in ids[1..]) == all - set o | o in ids
  {
    assert ids == [ids[0]] + ids[1..];
  }

  lemma {:induction false} SweepClears(d: DB, cutoff: nat, ids: seq<nat>, now: nat)
    requires forall i | 0 <= i < |ids| :: ids[i] in Expired(d, cutoff)
    requires forall i, j | 0 <= i < j < |ids| :: ids[i] != ids[j]
    ensures Expired(Swept(d, ids, now), cutoff) == Expired(d, cutoff) - set o | o in ids
    ensures |Expired(Swept(d, ids, now), cutoff)| == |Expired(d, cutoff)| - |ids|
    decreases |ids|
  {
    if ids != [] {
      assert ids[0] in Expired(d, cutoff);
      CancelExpired(d, cutoff, ids[0], now);
      var d' := Cancel(d, None, ids[0], now).db;
      SweepClears(d', cutoff, ids[1..], now);
      HeadAndTail(Expired(d, cutoff), ids);
    }
  }

  predicate Undisturbed(others: seq<seq<Turn>>) {
    forall i | 0 <= i < |others| :: others[i] == []
  }

  /** With nothing running in between, every cancellation of the sweep succeeds. */
  lemma {:induction false} AloneAllSucceed(d: DB, cutoff: nat, ids: seq<nat>, others: seq<seq<Turn>>, now: nat)
    requires |others| == |ids| && Undisturbed(others)
    requires forall i | 0 <= i < |ids| :: ids[i] in Expired(d, cutoff)
    requires forall i, j | 0 <= i < j < |ids| :: ids[i] != ids[j]
    ensures AfterSweep(d, ids, others, now) == Swept(d, ids, now)
    ensures Count(Cancellations(d, ids, others, now), now) == |ids|
    decreases |ids|
  {
    if ids != [] {
      assert ids[0] in Expired(d, cutoff) && Execute(d, others[0]) == d;
      CancelExpired(d, cutoff, ids[0], now);
      AloneAllSucceed(Cancel(d, None, ids[0], now).db, cutoff, ids[1..], others[1..], now);
    }
  }

  /** Consecutive sweeps with nothing else running. */
  ghost predicate Sweeps(d: DB, cutoff: nat, listings: seq<seq<nat>>, now: nat)
    decreases |listings|
  {
    listings == [] ||
    (IsListing(d, cutoff, SWEEP_LIMIT, listings[0]) && Sweeps(Swept(d, listings[0], now), cutoff, listings[1..], now))
  }

  function AfterSweeps(d: DB, listings: seq<seq<nat>>, now: nat): DB
    decreases |listings|
  {
    if listings == [] then d else AfterSweeps(Swept(d, listings[0], now), listings[1..], now)
  }

  /** k sweeps leave max(0, m - 50 k) of m expired orders. */
  lemma {:induction false} SweepRate(d: DB, cutoff: nat, listings: seq<seq<nat>>, now: nat)
    requires Sweeps(d, cutoff, listings, now)
    ensures |Expired(AfterSweeps(d, listings, now), cutoff)| ==
            var m := |Expired(d, cutoff)|; if m <= 50 * |listings| then 0 else m - 50 * |listings|
    decreases |listings|
  {
    if listings != [] {
      SweepClears(d, cutoff, listings[0], now);
      SweepRate(Swept(d, listings[0], now), cutoff, listings[1..], now);
    }
  }

  class Service {
    const repo: OrderRepository.Repository

    constructor (repo: OrderRepository.Repository)
      ensures this.repo == repo
    {
      this.repo := repo;
    }

    /** SELECT id WHERE status = pending_payment AND created_at < cutoff ORDER BY id LIMIT limit */
    method ListExpiredPendingIDs(cutoff: nat, limit: int) returns (ids: seq<nat>)
      ensures IsListing(repo.db.Snapshot(), cutoff, if limit <= 0 then 50 else limit, ids)
      ensures forall o | o in ids ::
                && o in repo.db.orders && repo.db.orders[o].status == PendingPayment
                && repo.db.orders[o].createdAt < cutoff
      ensures forall o | o in repo.db.orders && repo.db.orders[o].status == PendingPayment
                       && repo.db.orders[o].createdAt < cutoff && o !in ids ::
                |ids| == (if limit <= 0 then 50 else limit) && forall i | 0 <= i < |ids| :: ids[i] < o
    {
      var most: nat := if limit <= 0 then DEFAULT_LIMIT else limit;
      var orders := repo.db.orders;
      var stale := set o | o in orders && orders[o].status == PendingPayment && orders[o].createdAt < cutoff;
      ids := Lowest(stale, most);
      assert stale == Expired(repo.db.Snapshot(), cutoff);
      ListedAreStale(repo.db.Snapshot(), cutoff, most, ids);
    }

    /** ORDER BY id LIMIT limit */
    method Lowest(from: set<nat>, limit: nat) returns (ids: seq<nat>)
      ensures |ids| == (if |from| < limit then |from| else limit)
      ensures forall i | 0 <= i < |ids| :: ids[i] in from
      ensures forall i, j | 0 <= i < j < |ids| :: ids[i] < ids[j]
      ensures forall i, o | 0 <= i < |ids| && o in from && o !in ids :: ids[i] < o
    {
      var left := from;
      ids := [];
      while |ids| < limit && left != {}
        invariant left <= from && |left| + |ids| == |from| && |ids| <= limit
        invariant forall o | o in from :: o in left <==> o !in ids
        invariant forall i | 0 <= i < |ids| :: ids[i] in from
        invariant forall i, j | 0 <= i < j < |ids| :: ids[i] < ids[j]
        invariant forall i, o | 0 <= i < |ids| && o in left :: ids[i] < o
        decreases left
      {
        var least := Least(left);
        ids := ids + [least];
        left := left - {least};
      }
    }

    method Least(from: set<nat>) returns (least: nat)
      requires from != {}
      ensures least in from && forall o | o in from :: least <= o
    {
      least :| least in from;
      var rest := from - {least};
      while rest != {}
        invariant rest <= from && least in from
        invariant forall o | o in from && o !in rest :: least <= o
        decreases rest
      {
        var o :| o in rest;
        if o < least { least := o; }
        rest := rest - {o};
      }
    }

    /** Whatever other transactions, deliveries, relays and product changes run in the meantime. */
    method OthersRun(ts: seq<Turn>)
      requires ForeignKeys(repo.db.Snapshot())
      modifies repo.db
      ensures repo.db.Snapshot() == Execute(old(repo.db.Snapshot()), ts) && ForeignKeys(repo.db.Snapshot())
    {
      ExecuteKeepsForeignKeys(repo.db.Snapshot(), ts);
      var d := Execute(repo.db.Snapshot(), ts);
      var db := repo.db;
      db.products, db.orders, db.nextOrder := d.products, d.orders, d.nextOrder;
      db.ledger, db.outbox, db.published, db.inbox := d.ledger, d.outbox, d.published, d.inbox;
    }

    /** The sweep's loop over the ids it listed, `others[i]` running before the i-th cancellation. */
    method CancelListed(ids: seq<nat>, others: seq<seq<Turn>>, now: nat) returns (n: nat)
      requires ForeignKeys(repo.db.Snapshot()) && |others| == |ids|
      modifies repo.db
      ensures repo.db.Snapshot() == AfterSweep(old(repo.db.Snapshot()), ids, others, now)
      ensures n == Count(Cancellations(old(repo.db.Snapshot()), ids, others, now), now)
      ensures Distinct(ids) ==> n == |MovedOrders(Cancellations(old(repo.db.Snapshot()), ids, others, now))|
    {
      MovesAreCounted(repo.db.Snapshot(), ids, others, now);
      n := 0;
      ghost var end := AfterSweep(repo.db.Snapshot(), ids, others, now);
      ghost var count := Count(Cancellations(repo.db.Snapshot(), ids, others, now), now);
      for i := 0 to |ids|
        invariant ForeignKeys(repo.db.Snapshot())
        invariant AfterSweep(repo.db.Snapshot(), ids[i..], others[i..], now) == end
        invariant n + Count(Cancellations(repo.db.Snapshot(), ids[i..], others[i..], now), now) == count
      {
        SweepTurn(repo.db.Snapshot(), ids, others, i, now);
        OthersRun(others[i]);
        var r := repo.Cancel(None, ids[i], now);
        if r.Err? { continue; }
        n := n + 1;
      }
    }

    /** The sweep returns exactly the number of orders it moved to cancelled, whatever runs between its
        listing and each cancellation; with nothing else running it moves every order it lists, the
        lesser of 50 and the number of expired ones. */
    method ExpireStaleHolds(cutoff: nat, now: nat, others: seq<seq<Turn>>) returns (n: nat, ghost ids: seq<nat>)
      requires ForeignKeys(repo.db.Snapshot()) && |others| >= SWEEP_LIMIT
      modifies repo.db
      ensures IsListing(old(repo.db.Snapshot()), cutoff, 50, ids)
      ensures repo.db.Snapshot() == AfterSweep(old(repo.db.Snapshot()), ids, others[..|ids|], now)
      ensures n == |MovedOrders(Cancellations(old(repo.db.Snapshot()), ids, others[..|ids|], now))|
      ensures forall o | o in MovedOrders(Cancellations(old(repo.db.Snapshot()), ids, others[..|ids|], now)) ::
                && o in old(repo.db.orders) && old(repo.db.orders)[o].status == PendingPayment
                && old(repo.db.orders)[o].createdAt < cutoff
      ensures Numbered(old(repo.db.Snapshot())) ==>
                forall c, o | c in Cancellations(old(repo.db.Snapshot()), ids, others[..|ids|], now)
                            && o in c.before.orders && c.before.orders[o].createdAt >= cutoff ::
                  o in c.after.orders && c.after.orders[o] == c.before.orders[o]
      ensures Undisturbed(others)
              && |set o | o in old(repo.db.orders) && old(repo.db.orders)[o].status == PendingPayment
                        && old(repo.db.orders)[o].createdAt < cutoff| <= 50 ==>
                forall o | o in repo.db.orders && repo.db.orders[o].createdAt < cutoff ::
                  repo.db.orders[o].status != PendingPayment
      ensures Undisturbed(others) ==>
                n == |ids| && |Expired(repo.db.Snapshot(), cutoff)| == |Expired(old(repo.db.Snapshot()), cutoff)| - n
    {
      ghost var was := repo.db.Snapshot();
      var listed := ListExpiredPendingIDs(cutoff, SWEEP_LIMIT);
      ids := listed;
      n := CancelListed(listed, others[..|listed|], now);
      SweepUnderRaces(was, cutoff, listed, others[..|listed|], now);
      MovedWereStale(was, cutoff, listed, others[..|listed|], now);
      if Numbered(was) {
        FreshAreUntouched(was, listed, others[..|listed|], now, cutoff);
      }
      if Undisturbed(others) {
        AloneAllSucceed(was, cutoff, listed, others[..|listed|], now);
        SweepLeavesNone(was, cutoff, listed, now);
      }
    }
  }

  /** The listing, without the name of its set: the orders pending and created before the cutoff. */
  lemma ListedAreStale(d: DB, cutoff: nat, limit: nat, ids: seq<nat>)
    requires IsListing(d, cutoff, limit, ids)
    ensures forall o | o in ids ::
              o in d.orders && d.orders[o].status == PendingPayment && d.orders[o].createdAt < cutoff
    ensures forall o | o in d.orders && o !in ids
                     && d.orders[o].status == PendingPayment && d.orders[o].createdAt < cutoff ::
              |ids| == limit && forall i | 0 <= i < |ids| :: ids[i] < o
  {
    forall o | o in Expired(d, cutoff) && o !in ids ensures |ids| == limit {
      if |ids| < limit {
        AllListed(Expired(d, cutoff), ids);
      }
    }
  }

  /** As many distinct members as there are leave none out. */
  lemma {:induction false} AllListed(all: set<nat>, ids: seq<nat>)
    requires |ids| == |all| && (forall i | 0 <= i < |ids| :: ids[i] in all)
    requires forall i, j | 0 <= i < j < |ids| :: ids[i] < ids[j]
    ensures forall o | o in all :: o in ids
    decreases |ids|
  {
    if ids != [] {
      var n := |ids| - 1;
      AllListed(all - {ids[n]}, ids[..n]);
      assert ids == ids[..n] + [ids[n]];
    }
  }

  /** One turn of the sweep's loop. */
  lemma SweepTurn(d: DB, ids: seq<nat>, others: seq<seq<Turn>>, i: nat, now: nat)
    requires i < |ids| == |others|
    ensures var t := Cancel(Execute(d, others[i]), None, ids[i], now);
            && AfterSweep(d, ids[i..], others[i..], now) == AfterSweep(t.db, ids[i + 1..], others[i + 1..], now)
            && Count(Cancellations(d, ids[i..], others[i..], now), now) ==
               Count(Cancellations(t.db, ids[i + 1..], others[i + 1..], now), now) + if t.result.Ok? then 1 else 0
  {
    assert ids[i..][1..] == ids[i + 1..] && others[i..][1..] == others[i + 1..];
    var before := Execute(d, others[i]);
    var after := Cancel(before, None, ids[i], now).db;
    var rest := Cancellations(after, ids[i + 1..], others[i + 1..], now);
    assert Cancellations(d, ids[i..], others[i..], now) == [Cancellation(ids[i], before, after)] + rest;
    assert ([Cancellation(ids[i], before, after)] + rest)[1..] == rest;
  }
}
