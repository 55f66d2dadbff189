/** The worker's two commerce handlers, each one claim-and-effect transaction. */
module PaymentWorker {
  import opened Domain
  import opened Tables
  import opened Settlement
  import opened Transactions

  class Handler {
    const db: Postgres

    constructor (db: Postgres)
      ensures this.db == db
    {
      this.db := db;
    }

    method ReleaseHeld(o: nat)
      requires ForeignKeys(db.Snapshot())
      modifies db
      ensures db.Snapshot() == Settled(old(db.Snapshot()), o, Released)
    {
      if o !in db.orders { return; }
      ghost var was := db.Snapshot();
      var rows := db.orders[o].reservations;
      MidwayStarts(was, o, Released);
      for i := 0 to |rows|
        invariant db.Snapshot() == Midway(was, o, Released, i)
      {
        ReleaseTurn(was, o, i);
        if rows[i].status == Held {
          db.ReleaseRow(o, i);
        }
      }
      MidwayEnds(was, o, Released);
    }

    method CommitHeld(o: nat)
      requires ForeignKeys(db.Snapshot())
      modifies db
      ensures db.Snapshot() == Settled(old(db.Snapshot()), o, Committed)
    {
      if o !in db.orders { return; }
      ghost var was := db.Snapshot();
      var rows := db.orders[o].reservations;
      MidwayStarts(was, o, Committed);
      for i := 0 to |rows|
        invariant db.Snapshot() == Midway(was, o, Committed, i)
      {
        CommitTurn(was, o, i);
        if rows[i].status == Held {
          db.Append(rows[i].product, o, 0, Commit, None);
        }
      }
      db.orders := db.orders[o := db.orders[o].(reservations := SettledRows(rows, Committed))];
      MidwayEnds(was, o, Committed);
    }

    method HandleOrderCreated(e: Event, now: nat) returns (r: Result<()>)
      requires ForeignKeys(db.Snapshot())
      modifies db
      ensures Tx(db.Snapshot(), r) == Transactions.HandleOrderCreated(old(db.Snapshot()), e, now)
      ensures ForeignKeys(db.Snapshot())
    {
      if e.payload.orderId.None? || e.payload.orderId.value == 0 { return Err(Invalid); }
      var o, key := e.payload.orderId.value, ForEvent(e.id);
      r := Ok(());
      ghost var was := db.Snapshot();
      var claimed := db.Claim(e.id, PaymentConsumer);
      if !claimed {
        assert db.inbox == was.inbox;
        return;
      }
      if o !in db.orders { return; }
      var order := db.orders[o];
      if key in order.payments { return; }
      if order.status == Paid || order.status == Fulfilled || order.status == Cancelled { return; }
      if e.payload.simulateOutcome == Some("fail") {
        var next := Transition(order.status, PaymentFailed);
        if next.Err? { return; }
        var pay := Payment(Failed, order.total, "worker-sim-fail");
        MoveUnpaid(o, key, pay, now);
      } else {
        var next := Transition(order.status, Paid);
        if next.Err? { return; }
        var pay := Payment(Succeeded, order.total, "worker-sim-ok");
        MovePaid(o, key, pay, now);
      }
    }

    /** The writes of the fail branch. */
    method MoveUnpaid(o: nat, key: Key, pay: Payment, now: nat)
      requires ForeignKeys(db.Snapshot()) && o in db.orders && KeyFits(key) && key !in db.orders[o].payments
      modifies db
      ensures db.Snapshot() == Advance(old(db.Snapshot()), o, PaymentFailed, map[key := pay], now)
      ensures ForeignKeys(db.Snapshot())
    {
      var order := db.orders[o];
      MovesKeepForeignKeys(db.Snapshot(), o, PaymentFailed, map[key := pay], now);
      MovedAndPaidRow(order, PaymentFailed, key, pay);
      var ok := db.InsertPayment(o, key, pay);
      db.SaveOrder(o, PaymentFailed, order.version + 1);
      ReleaseHeld(o);
      db.Enqueue(o, OrderEvent(PaymentFailed), EventPayload(o, db.orders[o]), now);
    }

    /** The writes of the success branch. */
    method MovePaid(o: nat, key: Key, pay: Payment, now: nat)
      requires ForeignKeys(db.Snapshot()) && o in db.orders && KeyFits(key) && key !in db.orders[o].payments
      modifies db
      ensures db.Snapshot() == Advance(old(db.Snapshot()), o, Paid, map[key := pay], now)
      ensures ForeignKeys(db.Snapshot())
    {
      var order := db.orders[o];
      MovesKeepForeignKeys(db.Snapshot(), o, Paid, map[key := pay], now);
      MovedAndPaidRow(order, Paid, key, pay);
      var ok := db.InsertPayment(o, key, pay);
      db.SaveOrder(o, Paid, order.version + 1);
      CommitHeld(o);
      db.Enqueue(o, OrderEvent(Paid), EventPayload(o, db.orders[o]), now);
    }
  }
}

module InventoryWorker {
  import opened Domain
  import opened Tables
  import opened Settlement
  import opened Transactions

  class Handler {
    const db: Postgres

    constructor (db: Postgres)
      ensures this.db == db
    {
      this.db := db;
    }

    method CommitTX(o: nat)
      requires ForeignKeys(db.Snapshot())
      modifies db
      ensures db.Snapshot() == Settled(old(db.Snapshot()), o, Committed)
    {
      if o !in db.orders { return; }
      ghost var was := db.Snapshot();
      var rows := db.orders[o].reservations;
      MidwayStarts(was, o, Committed);
      for i := 0 to |rows|
        invariant db.Snapshot() == Midway(was, o, Committed, i)
      {
        CommitTurn(was, o, i);
        if rows[i].status == Held {
          db.Append(rows[i].product, o, 0, Commit, None);
        }
      }
      db.orders := db.orders[o := db.orders[o].(reservations := SettledRows(rows, Committed))];
      MidwayEnds(was, o, Committed);
    }

    method ReleaseTX(o: nat) returns (ids: seq<nat>)
      requires ForeignKeys(db.Snapshot())
      modifies db
      ensures db.Snapshot() == Settled(old(db.Snapshot()), o, Released)
      ensures ids == if o in old(db.orders) then HeldProducts(old(db.orders)[o].reservations) else []
    {
      ids := [];
      if o !in db.orders { return; }
      ghost var was := db.Snapshot();
      var rows := db.orders[o].reservations;
      MidwayStarts(was, o, Released);
      for i := 0 to |rows|
        invariant db.Snapshot() == Midway(was, o, Released, i)
        invariant ids == HeldProducts(rows[..i])
      {
        var row := rows[i];
        ReleaseTurn(was, o, i);
        HeldProductsStep(rows, i);
        if row.status == Held {
          db.ReleaseRow(o, i);
          ids := ids + [row.product];
        }
      }
      assert rows[..|rows|] == rows;
      MidwayEnds(was, o, Released);
    }

    method Handle(e: Event) returns (r: Result<seq<nat>>)
      requires ForeignKeys(db.Snapshot())
      modifies db
      ensures Tx(db.Snapshot(), r) == Transactions.HandleInventory(old(db.Snapshot()), e)
      ensures ForeignKeys(db.Snapshot())
    {
      if !e.typ.OrderEvent? || e.typ.to == PendingPayment { return Ok([]); }
      if e.payload.orderId.None? || e.payload.orderId.value == 0 { return Err(Invalid); }
      var o := e.payload.orderId.value;
      ghost var was := db.Snapshot();
      var claimed := db.Claim(e.id, InventoryConsumer);
      if !claimed {
        assert db.inbox == was.inbox;
        return Ok([]);
      }
      r := Ok([]);
      if e.typ.to == Paid || e.typ.to == Fulfilled {
        SettledKeepsForeignKeys(db.Snapshot(), o, Committed);
        CommitTX(o);
      } else {
        SettledKeepsForeignKeys(db.Snapshot(), o, Released);
        var released := ReleaseTX(o);
        r := Ok(released);
      }
    }
  }
}
