/** Every transaction, whatever its arguments and whether or not it fails, keeps the invariant. */
module Preservation {
  import opened Domain
  import opened Tables
  import opened Settlement
  import opened Transactions
  import opened Ledger
  import opened Quantities
  import opened Invariant

  // ---------- creating an order ----------

  lemma {:induction false} HoldsQty(products: map<nat, Product>, items: seq<CreateItem>, p: nat)
    ensures RowsQty(Holds(Lines(products, items)), p, Held) == Ordered(items, p)
    ensures RowsQty(Holds(Lines(products, items)), p, Committed) == 0
  {
    if items != [] {
      var n := |items| - 1;
      assert Holds(Lines(products, items))[..n] == Holds(Lines(products, items[..n]));
      HoldsQty(products, items[..n], p);
    }
  }

  lemma HoldBatch(products: map<nat, Product>, o: nat, lines: seq<Item>)
    requires Insertable(lines)
    ensures Batch(HoldEntries(products, o, lines), o) && Distinct(Holds(lines))
  {
  }

  /** The holds of an accepted order lower the ledger's sum by what was ordered. */
  lemma HoldDelta(products: map<nat, Product>, ledger: seq<Entry>, o: nat, items: seq<CreateItem>, p: nat)
    requires Insertable(Lines(products, items))
    ensures SumDelta(ledger + HoldEntries(products, o, Lines(products, items)), p) ==
            SumDelta(ledger, p) - Ordered(items, p)
  {
    var lines := Lines(products, items);
    var entries := HoldEntries(products, o, lines);
    HoldBatch(products, o, lines);
    assert forall i | 0 <= i < |items| :: entries[i].product == items[i].product && entries[i].delta == -items[i].qty;
    if i :| 0 <= i < |items| && items[i].product == p {
      BatchHits(ledger, entries, o, i);
      forall j, k | 0 <= j < k < |items| ensures items[j].product != items[k].product {
        assert lines[j].product != lines[k].product;
      }
      OrderedOnce(items, i);
    } else {
      BatchMisses(ledger, entries, o, p);
      NotOrdered(items, p);
    }
  }

  /** The accounts of a new order are its holds. */
  lemma HoldAccounts(products: map<nat, Product>, ledger: seq<Entry>, o: nat, lines: seq<Item>)
    requires Insertable(lines)
    requires forall e | e in ledger :: e.order != o
    ensures AccountsOk(Holds(lines), ledger + HoldEntries(products, o, lines), o)
  {
    var entries, rows := HoldEntries(products, o, lines), Holds(lines);
    HoldBatch(products, o, lines);
    assert forall i | 0 <= i < |lines| :: entries[i].product == rows[i].product;
    forall i | 0 <= i < |rows| ensures Moves(ledger + entries, o, rows[i].product) == Account(rows[i]) {
      Unmentioned(ledger, o, rows[i].product);
      BatchHits(ledger, entries, o, i);
    }
    forall p | !Reserves(rows, p) ensures Moves(ledger + entries, o, p) == [] {
      Unmentioned(ledger, o, p);
      forall i | 0 <= i < |entries| ensures entries[i].product != p {
        assert rows[i].product != p;
      }
      BatchMisses(ledger, entries, o, p);
    }
  }

  /** What an accepted CreateOrder writes. */
  lemma CreateWrites(d: DB, user: nat, items: seq<CreateItem>, now: nat) returns (ord: Order, row: OutboxRow)
    requires CreateOrder(d, user, items, now).result.Ok?
    ensures var lines, o := Lines(d.products, items), d.nextOrder;
            && FirstError(d.products, items).None? && Insertable(lines)
            && ord == Order(user, PendingPayment, Total(lines), 1, now, lines, Holds(lines), map[])
            && row.order == o && row.typ == EVENT_ORDER_CREATED
            && row.payload == Marshal(EventPayload(o, ord))
            && CreateOrder(d, user, items, now).db ==
               d.(products := Taken(d.products, items),
                  orders := d.orders[o := ord],
                  nextOrder := o + 1,
                  ledger := d.ledger + HoldEntries(d.products, o, lines),
                  outbox := d.outbox + [row])
  {
    var lines, o := Lines(d.products, items), d.nextOrder;
    ord := Order(user, PendingPayment, Total(lines), 1, now, lines, Holds(lines), map[]);
    row := OutboxRow(o, EVENT_ORDER_CREATED, Marshal(EventPayload(o, ord)), now);
  }

  /** A new order's rows, as CreateOrder writes them. */
  lemma NewRowsOk(products: map<nat, Product>, items: seq<CreateItem>, ord: Order)
    requires FirstError(products, items).None? && Insertable(Lines(products, items))
    requires ord.items == Lines(products, items) && ord.reservations == Holds(ord.items)
             && ord.total == Total(ord.items)
    ensures RowsOk(ord, [PendingPayment], products.Keys)
  {
    AcceptedProducts(products, items);
    assert forall i | 0 <= i < |items| :: ord.items[i].product == items[i].product && ord.items[i].qty == items[i].qty;
  }

  lemma NewHistory(d: DB, row: OutboxRow)
    requires References(d) && OutboxOk(d) && row.order == d.nextOrder && row.typ == EVENT_ORDER_CREATED
    ensures History(d.outbox + [row], d.nextOrder) == [PendingPayment]
  {
    forall r | r in d.outbox ensures r.order != d.nextOrder {
      var n :| 0 <= n < |d.outbox| && d.outbox[n] == r;
      assert RowOk(d, d.outbox[n]);
    }
    NoHistory(d.outbox, d.nextOrder);
    HistoryAppend(d.outbox, row, d.nextOrder);
  }

  lemma NewOrderOk(d: DB, d': DB, items: seq<CreateItem>, ord: Order, row: OutboxRow)
    requires References(d) && OutboxOk(d)
    requires FirstError(d.products, items).None? && Insertable(Lines(d.products, items))
    requires ord.items == Lines(d.products, items) && ord.reservations == Holds(ord.items)
             && ord.total == Total(ord.items)
    requires ord.status == PendingPayment && ord.version == 1 && ord.payments == map[]
    requires row.order == d.nextOrder && row.typ == EVENT_ORDER_CREATED
    requires d.nextOrder in d'.orders && d'.orders[d.nextOrder] == ord
    requires d'.products.Keys == d.products.Keys
    requires d'.ledger == d.ledger + HoldEntries(d.products, d.nextOrder, ord.items)
    requires d'.outbox == d.outbox + [row]
    ensures OrderOk(d', d.nextOrder)
  {
    NewHistory(d, row);
    NewRowsOk(d.products, items, ord);
    HoldAccounts(d.products, d.ledger, d.nextOrder, ord.items);
    assert KeysOf(ord.payments, Succeeded) == {} && KeysOf(ord.payments, Failed) == {};
    assert PaymentsOk(ord, [PendingPayment]);
  }

  /** An accepted order leaves the other orders, and the references between the tables, in order. */
  lemma CreateKeepsOthers(d: DB, user: nat, items: seq<CreateItem>, now: nat)
    requires References(d) && OutboxOk(d) && ClaimsOk(d) && CreateOrder(d, user, items, now).result.Ok?
    ensures var d' := CreateOrder(d, user, items, now).db;
            && References(d') && OutboxOk(d') && ClaimsOk(d') && d'.orders.Keys == d.orders.Keys + {d.nextOrder}
            && forall o | o in d.orders && OrderOk(d, o) :: OrderOk(d', o)
  {
    var d', o, lines := CreateOrder(d, user, items, now).db, d.nextOrder, Lines(d.products, items);
    var entries := HoldEntries(d.products, o, lines);
    var ord, row := CreateWrites(d, user, items, now);
    HoldBatch(d.products, o, lines);
    AcceptedProducts(d.products, items);
    assert d'.products.Keys == d.products.Keys;
    assert forall i | 0 <= i < |entries| :: entries[i].order == o && entries[i].product == items[i].product;
    forall other | other in d.orders && OrderOk(d, other) ensures OrderOk(d', other) {
      OtherOrderKept(d, d', o, entries, row, other);
    }
    forall n | 0 <= n < |d'.outbox| ensures RowOk(d', d'.outbox[n]) && ClaimOk(d', n) {
      if n < |d.outbox| {
        assert RowOk(d, d.outbox[n]) && ClaimOk(d, n);
      }
    }
  }

  lemma CreateKeepsProduct(d: DB, init: map<nat, int>, user: nat, items: seq<CreateItem>, now: nat, p: nat)
    requires References(d) && CreateOrder(d, user, items, now).result.Ok?
    requires forall q | q in d.products :: d.products[q].stock >= 0
    requires p in d.products && p in init && ProductOk(d, init, p)
    ensures var d' := CreateOrder(d, user, items, now).db;
            p in d'.products && ProductOk(d', init, p)
  {
    var o := d.nextOrder;
    var ord, row := CreateWrites(d, user, items, now);
    assert o !in d.orders;
    AcceptedLines(d.products, items);
    QtyInUpdate(d.orders, o + 1, o, ord, p, Held);
    QtyInUpdate(d.orders, o + 1, o, ord, p, Committed);
    HoldsQty(d.products, items, p);
    HoldDelta(d.products, d.ledger, o, items, p);
  }

  lemma CreateKeepsReplay(d: DB, init: map<nat, int>, user: nat, items: seq<CreateItem>, now: nat)
    requires CreateOrder(d, user, items, now).result.Ok?
    requires d.products.Keys == init.Keys && Replays(d.ledger, init)
    requires forall p {:trigger ProductOk(d, init, p)} | p in d.products :: ProductOk(d, init, p)
    ensures Replays(CreateOrder(d, user, items, now).db.ledger, init)
  {
    var o, lines := d.nextOrder, Lines(d.products, items);
    var ord, row := CreateWrites(d, user, items, now);
    var entries := HoldEntries(d.products, o, lines);
    HoldBatch(d.products, o, lines);
    AcceptedProducts(d.products, items);
    forall i | 0 <= i < |entries| && entries[i].balanceAfter.Some?
      ensures entries[i].product in init
      ensures entries[i].balanceAfter.value ==
              init[entries[i].product] + SumDelta(d.ledger, entries[i].product) + entries[i].delta
    {
      assert entries[i].product == items[i].product;
      assert ProductOk(d, init, items[i].product);
    }
    BatchReplays(d.ledger, entries, o, init);
  }

  lemma DrawnIdKeepsInv(d: DB, init: map<nat, int>)
    requires Inv(d, init)
    ensures Inv(d.(nextOrder := d.nextOrder + 1), init)
  {
    var d' := d.(nextOrder := d.nextOrder + 1);
    forall o | o in d'.orders ensures OrderOk(d', o) {
      assert OrderOk(d, o);
    }
    forall p | p in d'.products ensures ProductOk(d', init, p) {
      assert ProductOk(d, init, p);
    }
    OutboxRowsKept(d, d');
  }

  /** Outbox rows and claims survive a change that keeps the orders' keys and forgets no departure
      from pending_payment. */
  lemma OutboxRowsKept(d: DB, d': DB)
    requires OutboxOk(d) && ClaimsOk(d)
    requires d'.outbox == d.outbox && d'.inbox == d.inbox && d'.orders == d.orders
    ensures OutboxOk(d') && ClaimsOk(d')
  {
    forall n | 0 <= n < |d'.outbox| ensures RowOk(d', d'.outbox[n]) && ClaimOk(d', n) {
      assert RowOk(d, d.outbox[n]) && ClaimOk(d, n);
    }
  }

  lemma CreateKeepsInv(d: DB, init: map<nat, int>, user: nat, items: seq<CreateItem>, now: nat)
    requires Inv(d, init)
    ensures Inv(CreateOrder(d, user, items, now).db, init)
  {
    var t := CreateOrder(d, user, items, now);
    if t.result.Err? {
      DrawnIdKeepsInv(d, init);
    } else {
      var d' := t.db;
      var ord, row := CreateWrites(d, user, items, now);
      CreateKeepsOthers(d, user, items, now);
      CreateKeepsReplay(d, init, user, items, now);
      forall p | p in d.products ensures d.products[p].stock >= 0 {
        assert ProductOk(d, init, p);
      }
      forall p | p in d'.products ensures ProductOk(d', init, p) {
        assert ProductOk(d, init, p);
        CreateKeepsProduct(d, init, user, items, now, p);
      }
      forall o | o in d'.orders ensures OrderOk(d', o) {
        if o == d.nextOrder {
          NewOrderOk(d, d', items, ord, row);
        } else {
          assert OrderOk(d, o);
        }
      }
    }
  }

  // ---------- moving an order ----------

  lemma AdvanceKeepsInv(d: DB, init: map<nat, int>, o: nat, to: Status, pay: map<Key, Payment>, now: nat)
    requires CoreInv(d, init) && o in d.orders && CanTransition(d.orders[o].status, to)
    requires PaymentFits(d.orders[o], to, pay)
    requires NoFutureClaims(d)
    requires forall n {:trigger ClaimOk(d, n)} | 0 <= n < |d.outbox| && d.outbox[n].order != o :: ClaimOk(d, n)
    ensures Inv(Advance(d, o, to, pay, now), init)
  {
    var d' := Advance(d, o, to, pay, now);
    assert OrderOk(d, o);
    var entries, row := AdvanceAppends(d, o, to, pay, now);
    AdvanceKeepsCore(d, init, o, to, pay, now);
    forall n | 0 <= n < |d'.outbox| ensures ClaimOk(d', n) {
      if n < |d.outbox| && d.outbox[n].order != o {
        assert ClaimOk(d, n);
      }
    }
  }

  lemma CancelKeepsInv(d: DB, init: map<nat, int>, user: Option<nat>, o: nat, now: nat)
    requires Inv(d, init)
    ensures Inv(Cancel(d, user, o, now).db, init)
  {
    if Cancel(d, user, o, now).result.Ok? {
      AdvanceKeepsInv(d, init, o, Cancelled, map[], now);
    }
  }

  lemma PayKeepsInv(d: DB, init: map<nat, int>, user: nat, o: nat, outcome: string, key: Key, now: nat)
    requires Inv(d, init)
    ensures Inv(Pay(d, user, o, outcome, key, now).db, init)
  {
    if Pay(d, user, o, outcome, key, now).db != d {
      var to := if outcome == "fail" then PaymentFailed else Paid;
      var pay := if outcome == "fail" then Payment(Failed, d.orders[o].total, "sim-fail")
                 else Payment(Succeeded, d.orders[o].total, "sim-ok");
      assert PaymentFits(d.orders[o], to, map[key := pay]);
      AdvanceKeepsInv(d, init, o, to, map[key := pay], now);
    }
  }

  lemma FulfillKeepsInv(d: DB, init: map<nat, int>, o: nat, now: nat)
    requires Inv(d, init)
    ensures Inv(Fulfill(d, o, now).db, init)
  {
    if Fulfill(d, o, now).result.Ok? {
      AdvanceKeepsInv(d, init, o, Fulfilled, map[], now);
    }
  }

  // ---------- consuming an event ----------

  /** An event whose id is an outbox row's carries that row's type and order. */
  ghost predicate Authentic(d: DB, e: Event) {
    e.id.Outbox? ==>
      && e.id.row < |d.outbox|
      && e.typ == d.outbox[e.id.row].typ
      && e.payload.orderId == Some(d.outbox[e.id.row].order)
  }

  lemma ClaimKeepsCore(d: DB, init: map<nat, int>, id: EventId, c: Consumer)
    requires CoreInv(d, init)
    ensures CoreInv(Claimed(d, id, c), init)
  {
    var d' := Claimed(d, id, c);
    forall o | o in d'.orders ensures OrderOk(d', o) {
      assert OrderOk(d, o);
    }
    forall p | p in d'.products ensures ProductOk(d', init, p) {
      assert ProductOk(d, init, p);
    }
    forall n | 0 <= n < |d'.outbox| ensures RowOk(d', d'.outbox[n]) {
      assert RowOk(d, d.outbox[n]);
    }
  }

  /** A new claim on an authentic event can only spoil ClaimOk for the rows of the event's own order. */
  lemma ClaimSpoilsOnlyItsOrder(d: DB, init: map<nat, int>, e: Event, c: Consumer, n: nat)
    requires Inv(d, init) && Authentic(d, e) && n < |d.outbox|
    requires (d.outbox[n].order in d.orders && d.orders[d.outbox[n].order].status != PendingPayment)
             || c != PaymentConsumer || e.payload.orderId != Some(d.outbox[n].order)
    ensures ClaimOk(Claimed(d, e.id, c), n)
  {
    assert ClaimOk(d, n);
  }

  /** The two ways an unclaimed order.created ends: the order moves, or it had already left
      pending_payment. */
  lemma ChargeShape(d: DB, e: Event, now: nat) returns (moves: bool, o: nat, to: Status, pay: map<Key, Payment>)
    requires NamesOrder(e) && (e.id, PaymentConsumer) !in d.inbox
    requires forall x {:trigger OrderOk(d, x)} | x in d.orders :: OrderOk(d, x)
    ensures o == e.payload.orderId.value
    ensures moves ==>
              && o in d.orders && CanTransition(d.orders[o].status, to) && PaymentFits(d.orders[o], to, pay)
              && HandleOrderCreated(d, e, now).db == Advance(Claimed(d, e.id, PaymentConsumer), o, to, pay, now)
    ensures !moves ==>
              && HandleOrderCreated(d, e, now).db == Claimed(d, e.id, PaymentConsumer)
              && (o in d.orders ==> d.orders[o].status != PendingPayment)
  {
    var key, fail := ForEvent(e.id), e.payload.simulateOutcome == Some("fail");
    o, to := e.payload.orderId.value, if fail then PaymentFailed else Paid;
    moves, pay := false, map[];
    if o in d.orders {
      assert OrderOk(d, o);
      PaymentMeansNotPending(d, o);
      var ord := d.orders[o];
      if key !in ord.payments && ord.status !in {Paid, Fulfilled, Cancelled} && CanTransition(ord.status, to) {
        moves := true;
        pay := map[key := if fail then Payment(Failed, ord.total, "worker-sim-fail")
                          else Payment(Succeeded, ord.total, "worker-sim-ok")];
        assert PaymentFits(ord, to, pay);
      }
    }
  }

  /** The payment worker keeps the invariant: whichever way it ends, a claimed event's order is no
      longer pending. */
  lemma HandleOrderCreatedKeepsInv(d: DB, init: map<nat, int>, e: Event, now: nat)
    requires Inv(d, init) && Authentic(d, e)
    ensures Inv(HandleOrderCreated(d, e, now).db, init)
  {
    if NamesOrder(e) && (e.id, PaymentConsumer) !in d.inbox {
      var moves, o, to, pay := ChargeShape(d, e, now);
      var claimed := Claimed(d, e.id, PaymentConsumer);
      ClaimKeepsCore(d, init, e.id, PaymentConsumer);
      forall n | 0 <= n < |claimed.outbox| && (claimed.outbox[n].order != o || !moves) ensures ClaimOk(claimed, n) {
        assert RowOk(d, d.outbox[n]);
        ClaimSpoilsOnlyItsOrder(d, init, e, PaymentConsumer, n);
      }
      if moves {
        AdvanceKeepsInv(claimed, init, o, to, pay, now);
      }
    }
  }

  /** A payment row of any key, even the worker's own, means the order has left pending_payment. */
  lemma PaymentMeansNotPending(d: DB, o: nat)
    requires o in d.orders && OrderOk(d, o)
    ensures d.orders[o].payments != map[] ==> d.orders[o].status != PendingPayment
  {
    var ord, h := d.orders[o], History(d.outbox, o);
    PendingOnlyFirst(h, |h| - 1);
    if k :| k in ord.payments {
      assert k in KeysOf(ord.payments, Succeeded) || k in KeysOf(ord.payments, Failed);
      assert KeysOf(ord.payments, Succeeded) != {} || KeysOf(ord.payments, Failed) != {};
      assert |h| == 1 ==> PaymentFailed !in h;
    }
  }

  /** For every settlement event the outbox ever held, the inventory worker finds nothing held: it
      moves no stock, writes no ledger row, and only leaves its claim. */
  lemma InventoryOnlyClaims(d: DB, init: map<nat, int>, e: Event)
    requires Inv(d, init) && Authentic(d, e) && e.id.Outbox?
    ensures HandleInventory(d, e).db == d || HandleInventory(d, e).db == Claimed(d, e.id, InventoryConsumer)
    ensures HandleInventory(d, e).result.Ok? && HandleInventory(d, e).result.value == []
  {
    var n := e.id.row;
    assert RowOk(d, d.outbox[n]);
    var o := d.outbox[n].order;
    var h := History(d.outbox, o);
    assert OrderOk(d, o);
    InHistory(d.outbox, n);
    if e.typ.to != PendingPayment {
      var i :| 0 <= i < |h| && h[i] == e.typ.to;
      PendingOnlyFirst(h, i);
      PendingOnlyFirst(h, |h| - 1);
      HeldExactlyWhenPending(d, o);
      var claimed := Claimed(d, e.id, InventoryConsumer);
      SettledIsIdentity(claimed, o, Committed);
      SettledIsIdentity(claimed, o, Released);
      NothingHeldEntries(d.products, o, d.orders[o].reservations, Released);
    }
  }

  lemma ClaimKeepsInv(d: DB, init: map<nat, int>, id: EventId)
    requires Inv(d, init) && (id.Outbox? ==> id.row < |d.outbox|)
    ensures Inv(Claimed(d, id, InventoryConsumer), init)
  {
    var d' := Claimed(d, id, InventoryConsumer);
    ClaimKeepsCore(d, init, id, InventoryConsumer);
    forall n | 0 <= n < |d'.outbox| ensures ClaimOk(d', n) {
      assert ClaimOk(d, n);
    }
  }

  /** Whatever event of the log the worker consumes, however late or often, keeps the invariant. */
  lemma RouteCommerceKeepsInv(d: DB, init: map<nat, int>, e: Event, now: nat)
    requires Inv(d, init) && Authentic(d, e) && (e.typ.OrderEvent? ==> e.id.Outbox?)
    ensures Inv(RouteCommerce(d, e, now).db, init)
  {
    if e.typ == EVENT_ORDER_CREATED {
      HandleOrderCreatedKeepsInv(d, init, e, now);
    } else if e.typ.OrderEvent? {
      InventoryOnlyClaims(d, init, e);
      ClaimKeepsInv(d, init, e.id);
    }
  }

  // ---------- products and the relay's mark ----------

  function AddProduct(d: DB, p: nat, price: int, stock: int): DB {
    d.(products := d.products[p := Product(price, stock, false)])
  }

  /** A soft delete. */
  function DeleteProduct(d: DB, p: nat): DB {
    if p in d.products then d.(products := d.products[p := d.products[p].(deleted := true)]) else d
  }

  function Mark(d: DB, n: nat): DB {
    d.(published := d.published + {n})
  }

  lemma NewProductUnknown(d: DB, init: map<nat, int>, p: nat, price: int, stock: int)
    requires CoreInv(d, init) && p !in d.products
    ensures forall o | o in d.orders ::
              OrderOk(AddProduct(d, p, price, stock), o) && !Reserves(d.orders[o].reservations, p)
  {
    var d' := AddProduct(d, p, price, stock);
    forall o | o in d.orders ensures OrderOk(d', o) && !Reserves(d.orders[o].reservations, p) {
      assert OrderOk(d, o);
    }
  }

  lemma NewProductStock(d: DB, init: map<nat, int>, p: nat, price: int, stock: int)
    requires CoreInv(d, init) && p !in d.products && stock >= 0
    ensures forall q | q in AddProduct(d, p, price, stock).products ::
              q in init[p := stock] && ProductOk(AddProduct(d, p, price, stock), init[p := stock], q)
  {
    var d', init' := AddProduct(d, p, price, stock), init[p := stock];
    NewProductUnknown(d, init, p, price, stock);
    QtyInMisses(d.orders, d.nextOrder, p, Held);
    QtyInMisses(d.orders, d.nextOrder, p, Committed);
    Unmentioned(d.ledger, 0, p);
    forall q | q in d'.products ensures ProductOk(d', init', q) {
      if q != p {
        assert ProductOk(d, init, q);
      }
    }
  }

  lemma NewProductReplays(ledger: seq<Entry>, init: map<nat, int>, p: nat, stock: int)
    requires Replays(ledger, init) && p !in init
    ensures Replays(ledger, init[p := stock])
  {
  }

  lemma AddProductKeepsInv(d: DB, init: map<nat, int>, p: nat, price: int, stock: int)
    requires Inv(d, init) && p !in d.products && stock >= 0
    ensures Inv(AddProduct(d, p, price, stock), init[p := stock])
  {
    NewProductUnknown(d, init, p, price, stock);
    NewProductStock(d, init, p, price, stock);
    NewProductReplays(d.ledger, init, p, stock);
    OutboxRowsKept(d, AddProduct(d, p, price, stock));
  }

  lemma DeleteProductKeepsInv(d: DB, init: map<nat, int>, p: nat)
    requires Inv(d, init)
    ensures Inv(DeleteProduct(d, p), init)
  {
    var d' := DeleteProduct(d, p);
    assert d'.products.Keys == d.products.Keys;
    forall o | o in d'.orders ensures OrderOk(d', o) {
      assert OrderOk(d, o);
    }
    forall q | q in d'.products ensures ProductOk(d', init, q) {
      assert ProductOk(d, init, q);
    }
    OutboxRowsKept(d, d');
  }

  lemma MarkKeepsInv(d: DB, init: map<nat, int>, n: nat)
    requires Inv(d, init) && n < |d.outbox|
    ensures Inv(Mark(d, n), init)
  {
    var d' := Mark(d, n);
    forall o | o in d'.orders ensures OrderOk(d', o) {
      assert OrderOk(d, o);
    }
    forall q | q in d'.products ensures ProductOk(d', init, q) {
      assert ProductOk(d, init, q);
    }
    OutboxRowsKept(d, d');
  }
}
