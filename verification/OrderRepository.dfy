/** The API's order transactions, statement by statement, each proved against its specification. */
module OrderRepository {
  import opened Domain
  import opened Tables
  import opened Settlement
  import opened Transactions

  /** A line the constraints refuse makes the whole order uninsertable. */
  lemma LineRefused(lines: seq<Item>, i: nat)
    requires i < |lines|
    requires lines[i].unitPrice < 0 || lines[i].qty <= 0
             || exists r | r in Holds(lines[..i]) :: r.product == lines[i].product
    ensures !Insertable(lines)
  {
    if lines[i].unitPrice >= 0 && lines[i].qty > 0 {
      var r :| r in Holds(lines[..i]) && r.product == lines[i].product;
      var j :| 0 <= j < i && Holds(lines[..i])[j] == r;
      assert lines[j].product == lines[i].product;
    }
  }

  lemma LineInserted(products: map<nat, Product>, o: nat, lines: seq<Item>, i: nat)
    requires i < |lines|
    ensures Holds(lines[..i + 1]) == Holds(lines[..i]) + [Reservation(lines[i].product, lines[i].qty, Held)]
    ensures HoldEntriesRead(products, o, lines[..i + 1]) ==
            HoldEntriesRead(products, o, lines[..i]) +
            [Entry(lines[i].product, o, -lines[i].qty, Hold, Some(StockOf(products, lines[i].product)))]
  {
  }

  lemma LineAccepted(lines: seq<Item>, i: nat)
    requires i < |lines| && Insertable(lines[..i])
    requires lines[i].unitPrice >= 0 && lines[i].qty > 0
    requires forall r | r in Holds(lines[..i]) :: r.product != lines[i].product
    ensures Insertable(lines[..i + 1])
  {
    var done, next := lines[..i], lines[..i + 1];
    assert forall j | 0 <= j < i :: next[j] == done[j];
    forall j, k | 0 <= j < k < |next| ensures next[j].product != next[k].product {
      if k == i {
        assert Holds(done)[j] in Holds(done);
      }
    }
  }

  /** The first loop's outcome: the first refused line's error, or the lines and their total. */
  function Accepted(products: map<nat, Product>, items: seq<CreateItem>): Result<(seq<Item>, int)> {
    var refused := FirstError(products, items);
    if refused.Some? then Err(refused.value) else Ok((Lines(products, items), Total(Lines(products, items))))
  }

  lemma LinesStep(products: map<nat, Product>, items: seq<CreateItem>, i: nat)
    requires i < |items| && items[i].product in products
    ensures var line := Item(items[i].product, items[i].qty, products[items[i].product].price);
            && Lines(products, items[..i + 1]) == Lines(products, items[..i]) + [line]
            && Total(Lines(products, items[..i + 1])) == Total(Lines(products, items[..i])) + line.unitPrice * line.qty
  {
    var line := Item(items[i].product, items[i].qty, products[items[i].product].price);
    assert Lines(products, items[..i + 1]) == Lines(products, items[..i]) + [line];
    TotalStep(Lines(products, items[..i]), line);
  }

  /** One turn of the first loop of CreateOrder. */
  lemma TakeTurn(products: map<nat, Product>, items: seq<CreateItem>, i: nat)
    requires i < |items| && FirstError(products, items[..i]).None?
    ensures var it, now := items[i], Taken(products, items[..i]);
            if it.product == 0 || it.qty <= 0 then Accepted(products, items) == Err(Invalid)
            else if it.product !in now || now[it.product].deleted then Accepted(products, items) == Err(NotFound)
            else if now[it.product].stock < it.qty then Accepted(products, items) == Err(Conflict)
            else
              var line := Item(it.product, it.qty, now[it.product].price);
              && FirstError(products, items[..i + 1]).None?
              && Taken(products, items[..i + 1]) ==
                  now[it.product := now[it.product].(stock := now[it.product].stock - it.qty)]
              && Lines(products, items[..i + 1]) == Lines(products, items[..i]) + [line]
              && Total(Lines(products, items[..i + 1])) ==
                  Total(Lines(products, items[..i])) + line.unitPrice * line.qty
  {
    FirstErrorStep(products, items, i);
    if items[i].product in products {
      TakenStep(products, items, i);
      LinesStep(products, items, i);
    }
  }

  class Repository {
    const db: Postgres

    constructor (db: Postgres)
      ensures this.db == db
    {
      this.db := db;
    }

    /** The query's status test is the loop's. */
    method ReleaseReservations(o: nat)
      requires ForeignKeys(db.Snapshot())
      modifies db
      ensures db.Snapshot() == Settled(old(db.Snapshot()), o, Released)
      ensures ForeignKeys(db.Snapshot())
    {
      if o !in db.orders { return; }
      ghost var was := db.Snapshot();
      var rows := db.orders[o].reservations;
      MidwayStarts(was, o, Released);
      for i := 0 to |rows|
        invariant db.Snapshot() == Midway(was, o, Released, i)
      {
        ReleaseTurn(was, o, i);
        if rows[i].status == Held {
          db.ReleaseRow(o, i);
        }
      }
      MidwayEnds(was, o, Released);
      SettledKeepsForeignKeys(was, o, Released);
    }

    method CommitReservations(o: nat)
      requires ForeignKeys(db.Snapshot())
      modifies db
      ensures db.Snapshot() == Settled(old(db.Snapshot()), o, Committed)
      ensures ForeignKeys(db.Snapshot())
    {
      if o !in db.orders { return; }
      ghost var was := db.Snapshot();
      var rows := db.orders[o].reservations;
      MidwayStarts(was, o, Committed);
      for i := 0 to |rows|
        invariant db.Snapshot() == Midway(was, o, Committed, i)
      {
        CommitTurn(was, o, i);
        if rows[i].status == Held {
          db.Append(rows[i].product, o, 0, Commit, None);
        }
      }
      db.orders := db.orders[o := db.orders[o].(reservations := SettledRows(rows, Committed))];
      MidwayEnds(was, o, Committed);
      SettledKeepsForeignKeys(was, o, Committed);
    }

    /** One line of the first loop: the product is looked up, then its stock taken by the guarded update. */
    method TakeLine(it: CreateItem) returns (r: Result<Item>)
      modifies db`products
      ensures var now := old(db.products);
              if it.product == 0 || it.qty <= 0 then r == Err(Invalid)
              else if it.product !in now || now[it.product].deleted then r == Err(NotFound)
              else if now[it.product].stock < it.qty then r == Err(Conflict)
              else
                && r == Ok(Item(it.product, it.qty, now[it.product].price))
                && db.products == now[it.product := now[it.product].(stock := now[it.product].stock - it.qty)]
    {
      if it.product == 0 || it.qty <= 0 { return Err(Invalid); }
      if it.product !in db.products || db.products[it.product].deleted { return Err(NotFound); }
      var price := db.products[it.product].price;
      var rowsAffected := db.TakeStock(it.product, it.qty);
      if rowsAffected == 0 { return Err(Conflict); }
      r := Ok(Item(it.product, it.qty, price));
    }

    /** The first loop of CreateOrder: checks each line and takes its stock. */
    method TakeLines(items: seq<CreateItem>) returns (r: Result<(seq<Item>, int)>)
      modifies db`products
      ensures r == Accepted(old(db.products), items)
      ensures r.Ok? ==> db.products == Taken(old(db.products), items)
    {
      ghost var was := db.products;
      var lines: seq<Item>, total := [], 0;
      assert Taken(was, items[..0]) == was;
      for i := 0 to |items|
        invariant FirstError(was, items[..i]).None?
        invariant db.products == Taken(was, items[..i])
        invariant lines == Lines(was, items[..i]) && total == Total(lines)
      {
        TakeTurn(was, items, i);
        var line := TakeLine(items[i]);
        if line.Err? { return Err(line.error); }
        lines := lines + [line.value];
        total := total + line.value.unitPrice * line.value.qty;
      }
      assert items[..|items|] == items;
      r := Ok((lines, total));
    }

    /** The second loop of CreateOrder: an item, a reservation and a ledger row for each line. */
    method InsertLines(o: nat, lines: seq<Item>) returns (ok: bool)
      requires o in db.orders && db.orders[o].items == [] && db.orders[o].reservations == []
      modifies db
      ensures db.nextOrder == old(db.nextOrder)
      ensures ok <==> Insertable(lines)
      ensures ok ==> db.Snapshot() == old(db.Snapshot()).(
                       orders := old(db.orders)[o := old(db.orders[o]).(items := lines, reservations := Holds(lines))],
                       ledger := old(db.ledger) + HoldEntriesRead(old(db.products), o, lines))
    {
      ghost var was := db.Snapshot();
      assert lines[..0] == [] && Holds(lines[..0]) == [] && HoldEntriesRead(was.products, o, lines[..0]) == [];
      for i := 0 to |lines|
        invariant Insertable(lines[..i])
        invariant db.Snapshot() == was.(
                    orders := was.orders[o := was.orders[o].(items := lines[..i], reservations := Holds(lines[..i]))],
                    ledger := was.ledger + HoldEntriesRead(was.products, o, lines[..i]))
      {
        var line := lines[i];
        assert lines[..i + 1] == lines[..i] + [line];
        ok := db.InsertLine(o, line);
        if !ok {
          LineRefused(lines, i);
          return;
        }
        LineAccepted(lines, i);
        LineInserted(was.products, o, lines, i);
        var bal := db.Balance(line.product);
        db.Append(line.product, o, -line.qty, Hold, Some(bal));
      }
      assert lines[..|lines|] == lines;
      ok := true;
    }

    method CreateOrder(user: nat, items: seq<CreateItem>, now: nat) returns (r: Result<nat>)
      requires ForeignKeys(db.Snapshot())
      modifies db
      ensures Tx(db.Snapshot(), r) == Transactions.CreateOrder(old(db.Snapshot()), user, items, now)
      ensures ForeignKeys(db.Snapshot())
    {
      if items == [] { return Err(Invalid); }
      var saved := db.Snapshot();
      var taken := TakeLines(items);
      if taken.Err? {
        db.Rollback(saved);
        return Err(taken.error);
      }
      var (lines, total) := taken.value;
      AcceptedProducts(saved.products, items);
      var o := db.InsertOrder(Order(user, PendingPayment, total, 1, now, [], [], map[]));
      var ok := InsertLines(o, lines);
      if !ok {
        db.Rollback(saved);
        return Err(Constraint);
      }
      BalancesReadAreRight(saved.products, o, items);
      db.Enqueue(o, EVENT_ORDER_CREATED, EventPayload(o, db.orders[o]), now);
      r := Ok(o);
    }

    method Cancel(user: Option<nat>, o: nat, now: nat) returns (r: Result<()>)
      requires ForeignKeys(db.Snapshot())
      modifies db
      ensures Tx(db.Snapshot(), r) == Transactions.Cancel(old(db.Snapshot()), user, o, now)
      ensures ForeignKeys(db.Snapshot())
    {
      if o !in db.orders || (user.Some? && db.orders[o].user != user.value) { return Err(NotFound); }
      var order := db.orders[o];
      var next := Transition(order.status, Cancelled);
      if next.Err? { return Err(next.error); }
      MovedRow(order, Cancelled);
      MovedRow(Settled(db.Snapshot(), o, Released).orders[o], Cancelled);
      SettleThenMove(db.Snapshot(), o, Released, next.value, map[]);
      ReleaseReservations(o);
      db.SaveOrder(o, next.value, order.version + 1);
      db.Enqueue(o, OrderEvent(Cancelled), EventPayload(o, db.orders[o]), now);
      MovesKeepForeignKeys(old(db.Snapshot()), o, Cancelled, map[], now);
      r := Ok(());
    }

    method Pay(user: nat, o: nat, outcome: string, key: Key, now: nat) returns (r: Result<PayResult>)
      requires ForeignKeys(db.Snapshot())
      modifies db
      ensures Tx(db.Snapshot(), r) == Transactions.Pay(old(db.Snapshot()), user, o, outcome, key, now)
      ensures ForeignKeys(db.Snapshot())
    {
      if o !in db.orders || db.orders[o].user != user { return Err(NotFound); }
      var order := db.orders[o];
      if key in order.payments { return Ok(PayResult(order.status, order.version, Some(order.payments[key]))); }
      if order.status == Paid || order.status == Fulfilled { return Ok(PayResult(order.status, order.version, None)); }
      if outcome == "fail" {
        var next := Transition(order.status, PaymentFailed);
        if next.Err? { return Err(next.error); }
        var pay := Payment(Failed, order.total, "sim-fail");
        var ok := MoveUnpaid(o, key, pay, now);
        if !ok { return Err(Constraint); }
        r := Ok(PayResult(next.value, order.version + 1, Some(pay)));
      } else if outcome == "timeout" {
        r := Err(Unavailable);
      } else {
        var next := Transition(order.status, Paid);
        if next.Err? { return Err(next.error); }
        var pay := Payment(Succeeded, order.total, "sim-ok");
        var ok := MovePaid(o, key, pay, now);
        if !ok { return Err(Constraint); }
        r := Ok(PayResult(next.value, order.version + 1, Some(pay)));
      }
    }

    /** The writes of Pay's fail branch. */
    method MoveUnpaid(o: nat, key: Key, pay: Payment, now: nat) returns (ok: bool)
      requires ForeignKeys(db.Snapshot()) && o in db.orders && key !in db.orders[o].payments
      modifies db
      ensures ok <==> KeyFits(key)
      ensures db.Snapshot() ==
              if ok then Advance(old(db.Snapshot()), o, PaymentFailed, map[key := pay], now) else old(db.Snapshot())
      ensures ForeignKeys(db.Snapshot())
    {
      var order := db.orders[o];
      MovesKeepForeignKeys(db.Snapshot(), o, PaymentFailed, map[key := pay], now);
      MovedAndPaidRow(order, PaymentFailed, key, pay);
      ok := db.InsertPayment(o, key, pay);
      if !ok { return; }
      db.SaveOrder(o, PaymentFailed, order.version + 1);
      ReleaseReservations(o);
      db.Enqueue(o, OrderEvent(PaymentFailed), EventPayload(o, db.orders[o]), now);
    }

    /** The writes of Pay's success branch. */
    method MovePaid(o: nat, key: Key, pay: Payment, now: nat) returns (ok: bool)
      requires ForeignKeys(db.Snapshot()) && o in db.orders && key !in db.orders[o].payments
      modifies db
      ensures ok <==> KeyFits(key)
      ensures db.Snapshot() ==
              if ok then Advance(old(db.Snapshot()), o, Paid, map[key := pay], now) else old(db.Snapshot())
      ensures ForeignKeys(db.Snapshot())
    {
      var order := db.orders[o];
      MovesKeepForeignKeys(db.Snapshot(), o, Paid, map[key := pay], now);
      MovedAndPaidRow(order, Paid, key, pay);
      ok := db.InsertPayment(o, key, pay);
      if !ok { return; }
      db.SaveOrder(o, Paid, order.version + 1);
      CommitReservations(o);
      db.Enqueue(o, OrderEvent(Paid), EventPayload(o, db.orders[o]), now);
    }

    method Fulfill(o: nat, now: nat) returns (r: Result<()>)
      requires ForeignKeys(db.Snapshot())
      modifies db
      ensures Tx(db.Snapshot(), r) == Transactions.Fulfill(old(db.Snapshot()), o, now)
      ensures ForeignKeys(db.Snapshot())
    {
      if o !in db.orders { return Err(NotFound); }
      var order := db.orders[o];
      var next := Transition(order.status, Fulfilled);
      if next.Err? { return Err(next.error); }
      MovedRow(order, Fulfilled);
      db.SaveOrder(o, next.value, order.version + 1);
      db.Enqueue(o, OrderEvent(Fulfilled), EventPayload(o, db.orders[o]), now);
      r := Ok(());
    }
  }
}
