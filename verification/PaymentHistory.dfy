/** Payments over whole runs: an attempt under a used key is answered with the first attempt's payment,
    whatever has happened in between. */
module PaymentHistory {
  import opened Domain
  import opened Tables
  import opened Settlement
  import opened Transactions
  import opened Invariant
  import opened System
  import opened Theorems

  /** No order is removed or given away, and no payments row is changed or removed. */
  ghost predicate Remembers(d: DB, d': DB) {
    forall o {:trigger d'.orders[o]} {:trigger o in d'.orders} | o in d.orders ::
      && o in d'.orders && d'.orders[o].user == d.orders[o].user
      && forall k | k in d.orders[o].payments :: k in d'.orders[o].payments
          && d'.orders[o].payments[k] == d.orders[o].payments[k]
  }

  lemma AdvanceRemembers(d: DB, o: nat, to: Status, pay: map<Key, Payment>, now: nat)
    requires o in d.orders && forall k | k in pay :: k !in d.orders[o].payments
    ensures Remembers(d, Advance(d, o, to, pay, now))
  {
  }

  lemma ActRemembers(d: DB, a: Action)
    requires References(d)
    ensures Remembers(d, Act(d, a))
  {
    match a
    case DoCreate(_, _, _) =>
    case DoCancel(_, o, now) => if o in d.orders { AdvanceRemembers(d, o, Cancelled, map[], now); }
    case DoExpire(o, now) => if o in d.orders { AdvanceRemembers(d, o, Cancelled, map[], now); }
    case DoPay(user, o, outcome, key, now) => PayRemembers(d, user, o, outcome, key, now);
    case DoFulfill(o, now) => if o in d.orders { AdvanceRemembers(d, o, Fulfilled, map[], now); }
  }

  lemma PayRemembers(d: DB, user: nat, o: nat, outcome: string, key: Key, now: nat)
    ensures Remembers(d, Pay(d, user, o, outcome, key, now).db)
  {
    if Pay(d, user, o, outcome, key, now).db != d {
      var to := if outcome == "fail" then PaymentFailed else Paid;
      var pay := if outcome == "fail" then Payment(Failed, d.orders[o].total, "sim-fail")
                 else Payment(Succeeded, d.orders[o].total, "sim-ok");
      AdvanceRemembers(d, o, to, map[key := pay], now);
    }
  }

  lemma SettledRemembers(d: DB, o: nat, to: ReservationStatus)
    ensures Remembers(d, Settled(d, o, to))
  {
  }

  lemma ChargeRemembers(d: DB, e: Event, now: nat)
    ensures Remembers(d, HandleOrderCreated(d, e, now).db)
  {
    var claimed := Claimed(d, e.id, PaymentConsumer);
    if HandleOrderCreated(d, e, now).db !in {d, claimed} {
      var o, key, fail := e.payload.orderId.value, ForEvent(e.id), e.payload.simulateOutcome == Some("fail");
      var total := d.orders[o].total;
      var pay := if fail then Payment(Failed, total, "worker-sim-fail") else Payment(Succeeded, total, "worker-sim-ok");
      AdvanceRemembers(claimed, o, if fail then PaymentFailed else Paid, map[key := pay], now);
    }
  }

  lemma RouteRemembers(d: DB, e: Event, now: nat)
    ensures Remembers(d, RouteCommerce(d, e, now).db)
  {
    ChargeRemembers(d, e, now);
    if e.payload.orderId.Some? {
      SettledRemembers(Claimed(d, e.id, InventoryConsumer), e.payload.orderId.value, Committed);
      SettledRemembers(Claimed(d, e.id, InventoryConsumer), e.payload.orderId.value, Released);
    }
  }

  lemma StepRemembers(s: State, st: Step)
    requires Reach(s)
    ensures Remembers(s.db, Apply(s, st).db)
  {
    ReachedInv(s);
    if st.Api? {
      ActRemembers(s.db, st.a);
    } else if e, now :| Apply(s, st).db == RouteCommerce(s.db, e, now).db {
      RouteRemembers(s.db, e, now);
    } else {
      OrdersMove(s, st);
    }
  }

  /** Only API transactions and deliveries touch the orders. */
  lemma OrdersMove(s: State, st: Step)
    requires !st.Api?
    ensures Apply(s, st).db.orders == s.db.orders || exists e, now :: Apply(s, st).db == RouteCommerce(s.db, e, now).db
  {
    match st
    case Redeliver(q, j, now) =>
      if q < |s.log| && j < |s.log[q].records| {
        assert Apply(s, st).db == RouteCommerce(s.db, s.log[q].records[j], now).db;
      }
    case Route(q, commits, now) =>
      if WorkerStep(s, st) != s && WorkerStep(s, st).db != s.db {
        assert Apply(s, st).db == RouteCommerce(s.db, s.log[q].records[s.log[q].next], now).db;
      }
    case _ =>
  }

  lemma {:induction false} RunRemembers(s: State, steps: seq<Step>)
    requires Reach(s)
    ensures Remembers(s.db, Run(s, steps).db)
  {
    if steps != [] {
      var before, st := Run(s, steps[..|steps| - 1]), steps[|steps| - 1];
      RunRemembers(s, steps[..|steps| - 1]);
      ReachRun(s, steps[..|steps| - 1]);
      StepRemembers(before, st);
    }
  }

  /** A second attempt with a key that has been used returns the first attempt's payment and changes
      nothing, whatever outcome it asks for and whatever ran since: workers, cancellations, other
      payments, crashes. */
  lemma PayIsIdempotent(s: State, user: nat, o: nat, first: string, again: string, key: Key, now: nat, later: nat,
      steps: seq<Step>)
    requires Reach(s) && Pay(s.db, user, o, first, key, now).result.Ok?
    requires Pay(s.db, user, o, first, key, now).result.value.payment.Some?
    ensures var paid := Apply(s, Api(DoPay(user, o, first, key, now)));
            var d := Run(paid, steps).db;
            var t := Pay(d, user, o, again, key, later);
            && t.db == d && t.result.Ok?
            && t.result.value.payment == Pay(s.db, user, o, first, key, now).result.value.payment
  {
    var paid := Apply(s, Api(DoPay(user, o, first, key, now)));
    ReachStep(s, Api(DoPay(user, o, first, key, now)));
    PaymentStored(s.db, user, o, first, key, now);
    RunRemembers(paid, steps);
  }

  lemma PaymentStored(d: DB, user: nat, o: nat, outcome: string, key: Key, now: nat)
    requires Pay(d, user, o, outcome, key, now).result.Ok?
    requires Pay(d, user, o, outcome, key, now).result.value.payment.Some?
    ensures var t := Pay(d, user, o, outcome, key, now);
            && o in t.db.orders && t.db.orders[o].user == user
            && key in t.db.orders[o].payments
            && t.db.orders[o].payments[key] == t.result.value.payment.value
  {
  }
}
