/** Each database transaction of the protocol as a function from one database value to the next:
    the specifications of the repository and worker methods, and the steps of the whole system.
    A transaction that returns an error leaves every table as it was. */
module Transactions {
  import opened Domain
  import opened Tables
  import opened Settlement

  datatype Tx<+T> = Tx(db: DB, result: Result<T>)

  datatype CreateItem = CreateItem(product: nat, qty: int)

  /** What Pay returns: the order's status and version, and the payment row if there is one. */
  datatype PayResult = PayResult(status: Status, version: nat, payment: Option<Payment>)

  // ---------- creating an order ----------

  /** The quantity of product `p` that `items` ask for. */
  function Ordered(items: seq<CreateItem>, p: nat): int {
    if items == [] then 0
    else
      var last := items[|items| - 1];
      Ordered(items[..|items| - 1], p) + if last.product == p then last.qty else 0
  }

  function Taken(products: map<nat, Product>, items: seq<CreateItem>): map<nat, Product> {
    map p | p in products :: products[p].(stock := products[p].stock - Ordered(items, p))
  }

  /** Why line `it` is refused once the lines `before` it have taken their stock. */
  function LineError(products: map<nat, Product>, before: seq<CreateItem>, it: CreateItem): Option<Error> {
    if it.product == 0 || it.qty <= 0 then Some(Invalid)
    else if it.product !in products || products[it.product].deleted then Some(NotFound)
    else if products[it.product].stock - Ordered(before, it.product) < it.qty then Some(Conflict)
    else None
  }

  function FirstError(products: map<nat, Product>, items: seq<CreateItem>): Option<Error> {
    if items == [] then None
    else
      var before := items[..|items| - 1];
      var e := FirstError(products, before);
      if e.Some? then e else LineError(products, before, items[|items| - 1])
  }

  function PriceOf(products: map<nat, Product>, p: nat): int {
    if p in products then products[p].price else 0
  }

  function Lines(products: map<nat, Product>, items: seq<CreateItem>): seq<Item> {
    seq(|items|, i requires 0 <= i < |items| =>
      Item(items[i].product, items[i].qty, PriceOf(products, items[i].product)))
  }

  function Total(lines: seq<Item>): int {
    if lines == [] then 0
    else
      var last := lines[|lines| - 1];
      Total(lines[..|lines| - 1]) + last.unitPrice * last.qty
  }

  /** CHECK (unit_price >= 0) on order_items, CHECK (qty > 0) on both tables and
      UNIQUE (order_id, product_id) on the reservations. */
  predicate Insertable(lines: seq<Item>) {
    && (forall i | 0 <= i < |lines| :: lines[i].unitPrice >= 0 && lines[i].qty > 0)
    && (forall i, j | 0 <= i < j < |lines| :: lines[i].product != lines[j].product)
  }

  function Holds(lines: seq<Item>): seq<Reservation> {
    seq(|lines|, i requires 0 <= i < |lines| => Reservation(lines[i].product, lines[i].qty, Held))
  }

  function HoldEntries(products: map<nat, Product>, o: nat, lines: seq<Item>): seq<Entry> {
    seq(|lines|, i requires 0 <= i < |lines| =>
      Entry(lines[i].product, o, -lines[i].qty, Hold, Some(StockOf(products, lines[i].product) - lines[i].qty)))
  }

  function CreateOrder(d: DB, user: nat, items: seq<CreateItem>, now: nat): Tx<nat> {
    if items == [] then Tx(d, Err(Invalid))
    else
      var refused := FirstError(d.products, items);
      if refused.Some? then Tx(d, Err(refused.value))
      else
        var o, lines := d.nextOrder, Lines(d.products, items);
        var drawn := d.(nextOrder := o + 1);
        if !Insertable(lines) then Tx(drawn, Err(Constraint))
        else
          var ord := Order(user, PendingPayment, Total(lines), 1, now, lines, Holds(lines), map[]);
          var held := drawn.(
            products := Taken(d.products, items),
            orders := d.orders[o := ord],
            ledger := d.ledger + HoldEntries(d.products, o, lines));
          Tx(Enqueue(held, o, EVENT_ORDER_CREATED, EventPayload(o, ord), now), Ok(o))
  }

  // ---------- moving an order ----------

  function EventPayload(o: nat, ord: Order): Payload {
    Payload(Some(o), ord.user, ord.status,
            if ord.status in {PendingPayment, Paid} then Some(ord.total) else None, None)
  }

  function Enqueue(d: DB, o: nat, typ: EventType, payload: Payload, now: nat): DB {
    d.(outbox := d.outbox + [OutboxRow(o, typ, Marshal(payload), now)])
  }

  /** How entering a status settles the order's reservations. */
  function SettleOn(d: DB, o: nat, to: Status): DB {
    match to
    case Paid => Settled(d, o, Committed)
    case PaymentFailed => Settled(d, o, Released)
    case Cancelled => Settled(d, o, Released)
    case Fulfilled => d
    case PendingPayment => d
  }

  function Moved(ord: Order, to: Status, pay: map<Key, Payment>): Order {
    ord.(status := to, version := ord.version + 1, payments := ord.payments + pay)
  }

  /** Order `o` enters status `to` with the new payment rows `pay`: reservations settled, event enqueued. */
  function Advance(d: DB, o: nat, to: Status, pay: map<Key, Payment>, now: nat): DB
    requires o in d.orders
  {
    var ord := Moved(d.orders[o], to, pay);
    Enqueue(SettleOn(d.(orders := d.orders[o := ord]), o, to), o, OrderEvent(to), EventPayload(o, ord), now)
  }

  /** `user` is None for the system's own cancellation, which checks no owner. */
  function Cancel(d: DB, user: Option<nat>, o: nat, now: nat): Tx<()> {
    if o !in d.orders || (user.Some? && d.orders[o].user != user.value) then Tx(d, Err(NotFound))
    else if !CanTransition(d.orders[o].status, Cancelled) then Tx(d, Err(Conflict))
    else Tx(Advance(d, o, Cancelled, map[], now), Ok(()))
  }

  function Pay(d: DB, user: nat, o: nat, outcome: string, key: Key, now: nat): Tx<PayResult> {
    if o !in d.orders || d.orders[o].user != user then Tx(d, Err(NotFound))
    else
      var ord := d.orders[o];
      if key in ord.payments then Tx(d, Ok(PayResult(ord.status, ord.version, Some(ord.payments[key]))))
      else if ord.status in {Paid, Fulfilled} then Tx(d, Ok(PayResult(ord.status, ord.version, None)))
      else if outcome == "timeout" then Tx(d, Err(Unavailable))
      else
        var to := if outcome == "fail" then PaymentFailed else Paid;
        if !CanTransition(ord.status, to) then Tx(d, Err(Conflict))
        else if !KeyFits(key) then Tx(d, Err(Constraint))
        else
          var pay := if outcome == "fail" then Payment(Failed, ord.total, "sim-fail")
                     else Payment(Succeeded, ord.total, "sim-ok");
          Tx(Advance(d, o, to, map[key := pay], now), Ok(PayResult(to, ord.version + 1, Some(pay))))
  }

  function Fulfill(d: DB, o: nat, now: nat): Tx<()> {
    if o !in d.orders then Tx(d, Err(NotFound))
    else if !CanTransition(d.orders[o].status, Fulfilled) then Tx(d, Err(Conflict))
    else Tx(Advance(d, o, Fulfilled, map[], now), Ok(()))
  }

  // ---------- consuming an event ----------

  function Claimed(d: DB, id: EventId, c: Consumer): DB {
    d.(inbox := d.inbox + {(id, c)})
  }

  predicate NamesOrder(e: Event) {
    e.payload.orderId.Some? && e.payload.orderId.value != 0
  }

  /** The payment worker's reaction to order.created. */
  function HandleOrderCreated(d: DB, e: Event, now: nat): Tx<()> {
    if !NamesOrder(e) then Tx(d, Err(Invalid))
    else if (e.id, PaymentConsumer) in d.inbox then Tx(d, Ok(()))
    else
      var o, key := e.payload.orderId.value, ForEvent(e.id);
      var claimed := Claimed(d, e.id, PaymentConsumer);
      if o !in d.orders || key in d.orders[o].payments || d.orders[o].status in {Paid, Fulfilled, Cancelled} then
        Tx(claimed, Ok(()))
      else
        var ord := d.orders[o];
        var fail := e.payload.simulateOutcome == Some("fail");
        var to := if fail then PaymentFailed else Paid;
        if !CanTransition(ord.status, to) then Tx(claimed, Ok(()))
        else
          var pay := if fail then Payment(Failed, ord.total, "worker-sim-fail")
                     else Payment(Succeeded, ord.total, "worker-sim-ok");
          Tx(Advance(claimed, o, to, map[key := pay], now), Ok(()))
  }

  /** The inventory worker's reaction to the other four order events; it returns the products released. */
  function HandleInventory(d: DB, e: Event): Tx<seq<nat>> {
    if !e.typ.OrderEvent? || e.typ.to == PendingPayment then Tx(d, Ok([]))
    else if !NamesOrder(e) then Tx(d, Err(Invalid))
    else if (e.id, InventoryConsumer) in d.inbox then Tx(d, Ok([]))
    else
      var o, claimed := e.payload.orderId.value, Claimed(d, e.id, InventoryConsumer);
      if e.typ.to in {Paid, Fulfilled} then Tx(Settled(claimed, o, Committed), Ok([]))
      else Tx(Settled(claimed, o, Released), Ok(if o in d.orders then HeldProducts(d.orders[o].reservations) else []))
  }

  /** The commerce half of the worker's dispatch. */
  function RouteCommerce(d: DB, e: Event, now: nat): Tx<()> {
    if e.id == NoId || !e.typ.OrderEvent? then Tx(d, Ok(()))
    else if e.typ == EVENT_ORDER_CREATED then HandleOrderCreated(d, e, now)
    else
      var t := HandleInventory(d, e);
      Tx(t.db, if t.result.Ok? then Ok(()) else Err(t.result.error))
  }

  /** The commerce half opens a database transaction, which may fail to commit. */
  predicate Transacts(e: Event) {
    e.id != NoId && e.typ.OrderEvent? && NamesOrder(e)
  }

  /** The commerce half when its transaction, if there is one, commits or is rolled back. */
  function Delivered(d: DB, e: Event, commits: bool, now: nat): Tx<()> {
    if Transacts(e) && !commits then Tx(d, Err(Unavailable)) else RouteCommerce(d, e, now)
  }

  // ---------- the two loops of CreateOrder, one line at a time ----------

  /** The first loop stops at the first refused line, and its error is the whole order's. */
  lemma {:induction false} FirstErrorStops(products: map<nat, Product>, items: seq<CreateItem>, k: nat)
    requires k <= |items|
    ensures FirstError(products, items[..k]).Some? ==> FirstError(products, items) == FirstError(products, items[..k])
  {
    if k == |items| {
      assert items[..k] == items;
    } else {
      var before := items[..|items| - 1];
      assert before[..k] == items[..k];
      FirstErrorStops(products, before, k);
    }
  }

  lemma FirstErrorStep(products: map<nat, Product>, items: seq<CreateItem>, i: nat)
    requires i < |items|
    requires FirstError(products, items[..i]).None?
    ensures FirstError(products, items[..i + 1]) == LineError(products, items[..i], items[i])
    ensures LineError(products, items[..i], items[i]).Some? ==>
              FirstError(products, items) == LineError(products, items[..i], items[i])
  {
    assert items[..i + 1][..i] == items[..i];
    FirstErrorStops(products, items, i + 1);
  }

  lemma TakenStep(products: map<nat, Product>, items: seq<CreateItem>, i: nat)
    requires i < |items| && items[i].product in products
    ensures var before, p := Taken(products, items[..i]), items[i].product;
            Taken(products, items[..i + 1]) == before[p := before[p].(stock := before[p].stock - items[i].qty)]
  {
    assert items[..i + 1][..i] == items[..i];
  }

  lemma TotalStep(lines: seq<Item>, line: Item)
    ensures Total(lines + [line]) == Total(lines) + line.unitPrice * line.qty
  {
    assert (lines + [line])[..|lines|] == lines;
  }

  /** A product that no line names is not ordered. */
  lemma {:induction false} NotOrdered(items: seq<CreateItem>, p: nat)
    requires forall i | 0 <= i < |items| :: items[i].product != p
    ensures Ordered(items, p) == 0
  {
    if items != [] {
      NotOrdered(items[..|items| - 1], p);
    }
  }

  /** With one line per product, what is ordered of a product is its line's quantity. */
  lemma {:induction false} OrderedOnce(items: seq<CreateItem>, i: nat)
    requires i < |items|
    requires forall j, k | 0 <= j < k < |items| :: items[j].product != items[k].product
    ensures Ordered(items, items[i].product) == items[i].qty
  {
    var n := |items| - 1;
    if i == n {
      NotOrdered(items[..n], items[i].product);
    } else {
      OrderedOnce(items[..n], i);
    }
  }

  /** The ledger rows with the balance that is read once every line has taken its stock. */
  function HoldEntriesRead(products: map<nat, Product>, o: nat, lines: seq<Item>): seq<Entry> {
    seq(|lines|, i requires 0 <= i < |lines| =>
      Entry(lines[i].product, o, -lines[i].qty, Hold, Some(StockOf(products, lines[i].product))))
  }

  /** Those balances are the right ones, because an order cannot name a product twice. */
  lemma BalancesReadAreRight(products: map<nat, Product>, o: nat, items: seq<CreateItem>)
    requires forall i | 0 <= i < |items| :: items[i].product in products
    requires Insertable(Lines(products, items))
    ensures HoldEntriesRead(Taken(products, items), o, Lines(products, items)) ==
            HoldEntries(products, o, Lines(products, items))
  {
    var lines := Lines(products, items);
    forall j, k | 0 <= j < k < |items| ensures items[j].product != items[k].product {
      assert lines[j].product != lines[k].product;
    }
    forall i | 0 <= i < |items| ensures Ordered(items, items[i].product) == lines[i].qty {
      OrderedOnce(items, i);
    }
  }

  /** Lines accepted one after another name known products with positive quantities and leave no
      stock below zero. */
  lemma {:induction false} AcceptedLines(products: map<nat, Product>, items: seq<CreateItem>)
    requires FirstError(products, items).None?
    requires forall p | p in products :: products[p].stock >= 0
    ensures forall i | 0 <= i < |items| :: items[i].product in products && items[i].qty > 0
    ensures forall p | p in products :: products[p].stock - Ordered(items, p) >= 0
  {
    if items != [] {
      AcceptedLines(products, items[..|items| - 1]);
    }
  }

  lemma {:induction false} AcceptedProducts(products: map<nat, Product>, items: seq<CreateItem>)
    requires FirstError(products, items).None?
    ensures forall i | 0 <= i < |items| :: items[i].product in products && items[i].qty > 0
  {
    if items != [] {
      AcceptedProducts(products, items[..|items| - 1]);
    }
  }

  lemma MovedRow(ord: Order, to: Status)
    ensures Moved(ord, to, map[]) == ord.(status := to, version := ord.version + 1)
  {
    assert ord.payments + map[] == ord.payments;
  }

  lemma MovedAndPaidRow(ord: Order, to: Status, key: Key, pay: Payment)
    ensures Moved(ord, to, map[key := pay]) ==
            ord.(status := to, version := ord.version + 1, payments := ord.payments[key := pay])
  {
    assert ord.payments + map[key := pay] == ord.payments[key := pay];
  }

  /** Settling an order's reservations and saving its row commute. */
  lemma SettleThenMove(d: DB, o: nat, rs: ReservationStatus, to: Status, pay: map<Key, Payment>)
    requires o in d.orders
    ensures o in Settled(d, o, rs).orders
    ensures var s := Settled(d, o, rs);
            s.(orders := s.orders[o := Moved(s.orders[o], to, pay)]) ==
            Settled(d.(orders := d.orders[o := Moved(d.orders[o], to, pay)]), o, rs)
  {
    var s := Settled(d, o, rs);
    assert s.orders[o := Moved(s.orders[o], to, pay)] ==
           Settled(d.(orders := d.orders[o := Moved(d.orders[o], to, pay)]), o, rs).orders;
  }

  lemma MovesKeepForeignKeys(d: DB, o: nat, to: Status, pay: map<Key, Payment>, now: nat)
    requires o in d.orders && ForeignKeys(d)
    ensures ForeignKeys(Advance(d, o, to, pay, now))
  {
    var moved := d.(orders := d.orders[o := Moved(d.orders[o], to, pay)]);
    SettledKeepsForeignKeys(moved, o, Released);
    SettledKeepsForeignKeys(moved, o, Committed);
  }
}
