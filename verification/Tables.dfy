/** The rows the services store, as one database value, and the object that holds them. */
module Tables {
  import opened Domain

  /** An outbox row's UUID is unique, so it is named by the row's position in the outbox;
      `Foreign` is the id of an event that did not come from the outbox, `NoId` that of an
      envelope that did not decode. */
  datatype EventId = NoId | Outbox(row: nat) | Foreign(n: nat)

  datatype Consumer = PaymentConsumer | InventoryConsumer

  datatype Product = Product(price: int, stock: int, deleted: bool)

  datatype Item = Item(product: nat, qty: int, unitPrice: int)

  datatype Reservation = Reservation(product: nat, qty: int, status: ReservationStatus)

  /** A payment attempt key: `ForEvent(id)` is the text "evt:<id>", which the worker uses and which
      a client may also send; `Text` is any other string. */
  datatype Key = Text(s: string) | ForEvent(id: EventId)

  const MAX_KEY_LENGTH := 128

  /** Does the key fit its VARCHAR(128) column? The worker's keys always do. */
  predicate KeyFits(key: Key) {
    key.Text? ==> |key.s| <= MAX_KEY_LENGTH
  }

  datatype Payment = Payment(status: PaymentStatus, amount: int, providerRef: string)

  /** One orders row with the rows of order_items, inventory_reservations and payments that
      reference it. */
  datatype Order = Order(
    user: nat,
    status: Status,
    total: int,
    version: nat,
    createdAt: nat,
    items: seq<Item>,
    reservations: seq<Reservation>,
    payments: map<Key, Payment>)

  datatype Reason = Hold | Release | Commit

  datatype Entry = Entry(product: nat, order: nat, delta: int, reason: Reason, balanceAfter: Option<int>)

  datatype Payload = Payload(
    orderId: Option<nat>,
    userId: nat,
    status: Status,
    total: Option<int>,
    simulateOutcome: Option<string>)

  /** A stored payload is the JSON of some payload or bytes that do not decode. */
  datatype Raw = Json(payload: Payload) | Malformed

  function Marshal(p: Payload): Raw { Json(p) }

  function Unmarshal(r: Raw): Option<Payload> {
    match r
    case Json(p) => Some(p)
    case Malformed => None
  }

  datatype OutboxRow = OutboxRow(order: nat, typ: EventType, payload: Raw, createdAt: nat)

  datatype Event = Event(id: EventId, typ: EventType, payload: Payload, createdAt: nat)

  /** `nextOrder` is the orders id sequence; `published` holds the outbox rows whose published_at is set. */
  datatype DB = DB(
    products: map<nat, Product>,
    orders: map<nat, Order>,
    nextOrder: nat,
    ledger: seq<Entry>,
    outbox: seq<OutboxRow>,
    published: set<nat>,
    inbox: set<(EventId, Consumer)>)

  /** The foreign key from reservations to products. */
  ghost predicate ForeignKeys(d: DB) {
    forall o, i | o in d.orders && 0 <= i < |d.orders[o].reservations| ::
      d.orders[o].reservations[i].product in d.products
  }

  /** Row `i` of order `o`'s reservations released: stock given back, ledger row with the balance read
      back, status updated. */
  function RowReleased(d: DB, o: nat, i: nat): DB
    requires o in d.orders && i < |d.orders[o].reservations|
    requires d.orders[o].reservations[i].product in d.products
  {
    var rows, row := d.orders[o].reservations, d.orders[o].reservations[i];
    var balance := d.products[row.product].stock + row.qty;
    d.(products := d.products[row.product := d.products[row.product].(stock := balance)],
       ledger := d.ledger + [Entry(row.product, o, row.qty, Release, Some(balance))],
       orders := d.orders[o := d.orders[o].(reservations := rows[i := row.(status := Released)])])
  }

  class Postgres {
    var products: map<nat, Product>
    var orders: map<nat, Order>
    var nextOrder: nat
    var ledger: seq<Entry>
    var outbox: seq<OutboxRow>
    var published: set<nat>
    var inbox: set<(EventId, Consumer)>

    constructor ()
      ensures Snapshot() == DB(map[], map[], 1, [], [], {}, {})
    {
      products, orders, nextOrder := map[], map[], 1;
      ledger, outbox, published, inbox := [], [], {}, {};
    }

    function Snapshot(): DB
      reads this
    {
      DB(products, orders, nextOrder, ledger, outbox, published, inbox)
    }

    /** UPDATE products SET stock = stock + qty WHERE id = p */
    method AddStock(p: nat, qty: int)
      requires p in products
      modifies this`products
      ensures products == old(products)[p := old(products)[p].(stock := old(products)[p].stock + qty)]
    {
      products := products[p := products[p].(stock := products[p].stock + qty)];
    }

    /** UPDATE products SET stock = stock - qty WHERE id = p AND deleted_at IS NULL AND stock >= qty */
    method TakeStock(p: nat, qty: int) returns (rowsAffected: nat)
      modifies this`products
      ensures rowsAffected == 1 <==> p in old(products) && !old(products)[p].deleted && old(products)[p].stock >= qty
      ensures rowsAffected == 1 ==>
                products == old(products)[p := old(products)[p].(stock := old(products)[p].stock - qty)]
      ensures rowsAffected != 1 ==> rowsAffected == 0 && products == old(products)
    {
      rowsAffected := 0;
      if p in products && !products[p].deleted && products[p].stock >= qty {
        products := products[p := products[p].(stock := products[p].stock - qty)];
        rowsAffected := 1;
      }
    }

    /** SELECT stock FROM products WHERE id = p; scanning no row leaves 0. */
    function Balance(p: nat): int
      reads this
    {
      if p in products then products[p].stock else 0
    }

    /** The ledger is append-only. */
    method Append(p: nat, o: nat, delta: int, reason: Reason, balanceAfter: Option<int>)
      modifies this`ledger
      ensures ledger == old(ledger) + [Entry(p, o, delta, reason, balanceAfter)]
    {
      ledger := ledger + [Entry(p, o, delta, reason, balanceAfter)];
    }

    /** UPDATE inventory_reservations SET status = st WHERE id names row `i` of order `o` */
    method SetReservation(o: nat, i: nat, st: ReservationStatus)
      requires o in orders && i < |orders[o].reservations|
      modifies this`orders
      ensures orders == old(orders)[o := old(orders)[o].(reservations :=
                old(orders)[o].reservations[i := old(orders)[o].reservations[i].(status := st)])]
    {
      var rows := orders[o].reservations;
      orders := orders[o := orders[o].(reservations := rows[i := rows[i].(status := st)])];
    }

    /** The body of every release loop, statement by statement. */
    method ReleaseRow(o: nat, i: nat)
      requires o in orders && i < |orders[o].reservations|
      requires orders[o].reservations[i].product in products
      modifies this
      ensures Snapshot() == RowReleased(old(Snapshot()), o, i)
    {
      var row := orders[o].reservations[i];
      AddStock(row.product, row.qty);
      var bal := Balance(row.product);
      Append(row.product, o, row.qty, Release, Some(bal));
      SetReservation(o, i, Released);
    }

    /** INSERT INTO processed_events ... ON CONFLICT DO NOTHING: false when the row was there already. */
    method Claim(id: EventId, c: Consumer) returns (claimed: bool)
      modifies this`inbox
      ensures claimed <==> (id, c) !in old(inbox)
      ensures inbox == old(inbox) + {(id, c)}
    {
      claimed := (id, c) !in inbox;
      inbox := inbox + {(id, c)};
    }

    method Enqueue(o: nat, typ: EventType, payload: Payload, now: nat)
      modifies this`outbox
      ensures outbox == old(outbox) + [OutboxRow(o, typ, Marshal(payload), now)]
    {
      outbox := outbox + [OutboxRow(o, typ, Marshal(payload), now)];
    }

    /** UPDATE orders SET status, version */
    method SaveOrder(o: nat, status: Status, version: nat)
      requires o in orders
      modifies this`orders
      ensures orders == old(orders)[o := old(orders)[o].(status := status, version := version)]
    {
      orders := orders[o := orders[o].(status := status, version := version)];
    }

    /** INSERT INTO payments, refused by UNIQUE (order_id, idempotency_key) or by the column's length. */
    method InsertPayment(o: nat, key: Key, pay: Payment) returns (ok: bool)
      requires o in orders
      modifies this`orders
      ensures ok <==> KeyFits(key) && key !in old(orders)[o].payments
      ensures ok ==> orders == old(orders)[o := old(orders)[o].(payments := old(orders)[o].payments[key := pay])]
      ensures !ok ==> orders == old(orders)
    {
      ok := KeyFits(key) && key !in orders[o].payments;
      if ok {
        orders := orders[o := orders[o].(payments := orders[o].payments[key := pay])];
      }
    }

    /** INSERT INTO orders: the row takes the next id of the sequence. */
    method InsertOrder(ord: Order) returns (o: nat)
      modifies this`orders, this`nextOrder
      ensures o == old(nextOrder) && nextOrder == o + 1 && orders == old(orders)[o := ord]
    {
      o := nextOrder;
      orders, nextOrder := orders[o := ord], o + 1;
    }

    /** INSERT INTO order_items and inventory_reservations, refused by CHECK (unit_price >= 0), by
        CHECK (qty > 0) of either table or by UNIQUE (order_id, product_id). */
    method InsertLine(o: nat, line: Item) returns (ok: bool)
      requires o in orders
      modifies this`orders
      ensures ok <==>
              && line.unitPrice >= 0 && line.qty > 0
              && forall r | r in old(orders)[o].reservations :: r.product != line.product
      ensures ok ==> orders == old(orders)[o := old(orders)[o].(
                       items := old(orders)[o].items + [line],
                       reservations := old(orders)[o].reservations + [Reservation(line.product, line.qty, Held)])]
    {
      var ord := orders[o];
      ok := line.unitPrice >= 0 && line.qty > 0 && forall r | r in ord.reservations :: r.product != line.product;
      if ok {
        orders := orders[o := ord.(items := ord.items + [line],
                                   reservations := ord.reservations + [Reservation(line.product, line.qty, Held)])];
      }
    }

    /** Rolls a transaction back. A sequence is not transactional: an id once drawn stays drawn. */
    method Rollback(saved: DB)
      modifies this
      ensures Snapshot() == saved.(nextOrder := old(nextOrder))
    {
      products, orders := saved.products, saved.orders;
      ledger, outbox, published, inbox := saved.ledger, saved.outbox, saved.published, saved.inbox;
    }
  }
}
