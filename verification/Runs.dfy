/** Whole runs of transactions and deliveries: duplicates are harmless, and the order in which the
    worker consumes a set of events does not matter. */
module Runs {
  import opened Domain
  import opened Tables
  import opened Settlement
  import opened Transactions
  import opened Invariant
  import opened Preservation
  import opened OutboxRelay
  import opened System
  import opened Outcomes

  // ---------- duplicates ----------

  /** An API transaction, the delivery of an event whose transaction commits or is rolled back, a new
      or a deleted product, or a relay's mark. */
  datatype Turn =
    | Serve(a: Action)
    | Deliver(e: Event, commits: bool, now: nat)
    | Offer(p: nat, price: int, stock: int)
    | Retire(p: nat)
    | Stamp(n: nat)

  function Turned(d: DB, t: Turn): DB {
    match t
    case Serve(a) => Act(d, a)
    case Deliver(e, commits, now) => Delivered(d, e, commits, now).db
    case Offer(p, price, stock) => if p !in d.products && stock >= 0 then AddProduct(d, p, price, stock) else d
    case Retire(p) => DeleteProduct(d, p)
    case Stamp(n) => Mark(d, n)
  }

  function Execute(d: DB, ts: seq<Turn>): DB
    decreases |ts|
  {
    if ts == [] then d else Execute(Turned(d, ts[0]), ts[1..])
  }

  /** The run without the deliveries of events that an earlier delivery, or `seen`, has dealt with. */
  function Dedup(ts: seq<Turn>, seen: set<Event>): seq<Turn>
    decreases |ts|
  {
    if ts == [] then []
    else if ts[0].Deliver? && ts[0].commits then
      if ts[0].e in seen then Dedup(ts[1..], seen) else [ts[0]] + Dedup(ts[1..], seen + {ts[0].e})
    else [ts[0]] + Dedup(ts[1..], seen)
  }

  /** The database answers any further delivery of `e` with nothing: it is claimed, or it never had an
      effect. */
  ghost predicate Absorbed(d: DB, e: Event) {
    || e.id == NoId || !e.typ.OrderEvent? || !NamesOrder(e)
    || (e.id, if e.typ == EVENT_ORDER_CREATED then PaymentConsumer else InventoryConsumer) in d.inbox
  }

  lemma AbsorbedIsUnchanged(d: DB, e: Event, now: nat)
    requires Absorbed(d, e)
    ensures RouteCommerce(d, e, now).db == d
  {
  }

  lemma DeliveryAbsorbs(d: DB, e: Event, now: nat)
    ensures Absorbed(RouteCommerce(d, e, now).db, e)
  {
  }

  lemma TurnKeepsAbsorbed(d: DB, t: Turn, e: Event)
    requires Absorbed(d, e)
    ensures Absorbed(Turned(d, t), e)
  {
    match t
    case Serve(a) => ActGrows(d, a);
    case Deliver(x, commits, now) => RouteGrows(d, x, now);
    case _ =>
  }

  /** From any database whatever, a run with duplicate deliveries ends exactly where the run without
      them ends. */
  lemma {:induction false} DuplicatesAreHarmless(d: DB, ts: seq<Turn>, seen: set<Event>)
    requires forall e | e in seen :: Absorbed(d, e)
    ensures Execute(d, Dedup(ts, seen)) == Execute(d, ts)
    decreases |ts|
  {
    if ts != [] {
      var t, d' := ts[0], Turned(d, ts[0]);
      forall e | e in seen ensures Absorbed(d', e) {
        TurnKeepsAbsorbed(d, t, e);
      }
      if t.Deliver? && t.commits {
        if t.e in seen {
          AbsorbedIsUnchanged(d, t.e, t.now);
          DuplicatesAreHarmless(d', ts[1..], seen);
        } else {
          DeliveryAbsorbs(d, t.e, t.now);
          DuplicatesAreHarmless(d', ts[1..], seen + {t.e});
        }
      } else {
        DuplicatesAreHarmless(d', ts[1..], seen);
      }
    }
  }

  lemma CreateKeepsForeignKeys(d: DB, user: nat, items: seq<CreateItem>, now: nat)
    requires ForeignKeys(d)
    ensures ForeignKeys(CreateOrder(d, user, items, now).db)
  {
    if CreateOrder(d, user, items, now).result.Ok? {
      var ord, row := CreateWrites(d, user, items, now);
      AcceptedProducts(d.products, items);
      assert forall i | 0 <= i < |ord.reservations| :: ord.reservations[i].product == items[i].product;
    }
  }

  lemma ActKeepsForeignKeys(d: DB, a: Action)
    requires ForeignKeys(d)
    ensures ForeignKeys(Act(d, a))
  {
    match a
    case DoCreate(user, items, now) => CreateKeepsForeignKeys(d, user, items, now);
    case DoCancel(_, o, now) => if o in d.orders { MovesKeepForeignKeys(d, o, Cancelled, map[], now); }
    case DoExpire(o, now) => if o in d.orders { MovesKeepForeignKeys(d, o, Cancelled, map[], now); }
    case DoPay(_, o, outcome, key, now) =>
      if o in d.orders {
        var failed := Payment(Failed, d.orders[o].total, "sim-fail");
        var succeeded := Payment(Succeeded, d.orders[o].total, "sim-ok");
        MovesKeepForeignKeys(d, o, PaymentFailed, map[key := failed], now);
        MovesKeepForeignKeys(d, o, Paid, map[key := succeeded], now);
      }
    case DoFulfill(o, now) => if o in d.orders { MovesKeepForeignKeys(d, o, Fulfilled, map[], now); }
  }

  lemma ChargeKeepsForeignKeys(d: DB, e: Event, now: nat)
    requires ForeignKeys(d)
    ensures ForeignKeys(HandleOrderCreated(d, e, now).db)
  {
    var claimed := Claimed(d, e.id, PaymentConsumer);
    if HandleOrderCreated(d, e, now).db !in {d, claimed} {
      var o, fail := e.payload.orderId.value, e.payload.simulateOutcome == Some("fail");
      var total := d.orders[o].total;
      var pay := if fail then Payment(Failed, total, "worker-sim-fail") else Payment(Succeeded, total, "worker-sim-ok");
      MovesKeepForeignKeys(claimed, o, if fail then PaymentFailed else Paid, map[ForEvent(e.id) := pay], now);
    }
  }

  lemma RouteKeepsForeignKeys(d: DB, e: Event, now: nat)
    requires ForeignKeys(d)
    ensures ForeignKeys(RouteCommerce(d, e, now).db)
  {
    ChargeKeepsForeignKeys(d, e, now);
    if e.payload.orderId.Some? {
      var claimed := Claimed(d, e.id, InventoryConsumer);
      SettledKeepsForeignKeys(claimed, e.payload.orderId.value, Committed);
      SettledKeepsForeignKeys(claimed, e.payload.orderId.value, Released);
    }
  }

  lemma {:induction false} ExecuteKeepsForeignKeys(d: DB, ts: seq<Turn>)
    requires ForeignKeys(d)
    ensures ForeignKeys(Execute(d, ts))
    decreases |ts|
  {
    if ts != [] {
      match ts[0] {
        case Serve(a) => ActKeepsForeignKeys(d, a);
        case Deliver(e, commits, now) => RouteKeepsForeignKeys(d, e, now);
        case _ =>
      }
      ExecuteKeepsForeignKeys(Turned(d, ts[0]), ts[1..]);
    }
  }

  // ---------- orders keep their time of creation ----------

  /** Ids come from a sequence: the next one is not taken. */
  ghost predicate Numbered(d: DB) {
    forall o | o in d.orders :: o < d.nextOrder
  }

  /** No order goes away or changes its time of creation. */
  ghost predicate SameAges(d: DB, d': DB) {
    forall o | o in d.orders :: o in d'.orders && d'.orders[o].createdAt == d.orders[o].createdAt
  }

  lemma AdvanceKeepsAges(d: DB, o: nat, to: Status, pay: map<Key, Payment>, now: nat)
    requires Numbered(d) && o in d.orders
    ensures Numbered(Advance(d, o, to, pay, now)) && SameAges(d, Advance(d, o, to, pay, now))
  {
  }

  lemma ActKeepsAges(d: DB, a: Action)
    requires Numbered(d)
    ensures Numbered(Act(d, a)) && SameAges(d, Act(d, a))
  {
    match a
    case DoCreate(_, _, _) =>
    case DoCancel(_, o, now) => if o in d.orders { AdvanceKeepsAges(d, o, Cancelled, map[], now); }
    case DoExpire(o, now) => if o in d.orders { AdvanceKeepsAges(d, o, Cancelled, map[], now); }
    case DoPay(user, o, outcome, key, now) => PayKeepsAges(d, user, o, outcome, key, now);
    case DoFulfill(o, now) => if o in d.orders { AdvanceKeepsAges(d, o, Fulfilled, map[], now); }
  }

  lemma PayKeepsAges(d: DB, user: nat, o: nat, outcome: string, key: Key, now: nat)
    requires Numbered(d)
    ensures Numbered(Pay(d, user, o, outcome, key, now).db) && SameAges(d, Pay(d, user, o, outcome, key, now).db)
  {
    PayOutcome(d, user, o, outcome, key, now);
  }

  lemma TurnKeepsAges(d: DB, t: Turn)
    requires Numbered(d)
    ensures Numbered(Turned(d, t)) && SameAges(d, Turned(d, t))
  {
    match t
    case Serve(a) => ActKeepsAges(d, a);
    case Deliver(e, commits, now) => RouteKeepsAges(d, e, now);
    case _ =>
  }

  lemma RouteKeepsAges(d: DB, e: Event, now: nat)
    requires Numbered(d)
    ensures Numbered(RouteCommerce(d, e, now).db) && SameAges(d, RouteCommerce(d, e, now).db)
  {
  }

  lemma {:induction false} ExecuteKeepsAges(d: DB, ts: seq<Turn>)
    requires Numbered(d)
    ensures Numbered(Execute(d, ts)) && SameAges(d, Execute(d, ts))
    decreases |ts|
  {
    if ts != [] {
      TurnKeepsAges(d, ts[0]);
      ExecuteKeepsAges(Turned(d, ts[0]), ts[1..]);
    }
  }

  // ---------- consumption order ----------

  /** The worker alone, consuming events in the given order; each comes with the clock's reading. */
  function Consume(d: DB, ts: seq<(Event, nat)>): DB
    decreases |ts|
  {
    if ts == [] then d else Consume(RouteCommerce(d, ts[0].0, ts[0].1).db, ts[1..])
  }

  function EventsIn(ts: seq<(Event, nat)>): set<Event> {
    set t | t in ts :: t.0
  }

  /** What charging makes of an order: paid with one succeeded payment under the event's key, unless
      it had been decided before. */
  function ChargedOrder(ord: Order, id: EventId): Order {
    if ForEvent(id) in ord.payments || ord.status !in {PendingPayment, PaymentFailed} then ord
    else
      Moved(ord, Paid, map[ForEvent(id) := Payment(Succeeded, ord.total, "worker-sim-ok")])
        .(reservations := SettledRows(ord.reservations, Committed))
  }

  function ConsumerOf(e: Event): Consumer {
    if e.typ == EVENT_ORDER_CREATED then PaymentConsumer else InventoryConsumer
  }

  /** An unclaimed order.created row of order `o` among the events. */
  ghost predicate Charges(d: DB, events: set<Event>, o: nat, n: nat) {
    && Decodes(d.outbox, n) && d.outbox[n].order == o && d.outbox[n].typ == EVENT_ORDER_CREATED
    && EventOf(d.outbox, n) in events
    && (Outbox(n), PaymentConsumer) !in d.inbox
  }

  /** Two rows of an order are two entries of its history. */
  lemma {:induction false} TwoRowsTwoEntries(outbox: seq<OutboxRow>, n: nat, m: nat) returns (i: nat, j: nat)
    requires n < m < |outbox| && outbox[n].order == outbox[m].order
    requires outbox[n].typ.OrderEvent? && outbox[m].typ.OrderEvent?
    ensures var h := History(outbox, outbox[n].order);
            i < j < |h| && h[i] == outbox[n].typ.to && h[j] == outbox[m].typ.to
  {
    var last := |outbox| - 1;
    if m == last {
      var before := History(outbox[..last], outbox[n].order);
      InHistory(outbox[..last], n);
      i :| 0 <= i < |before| && before[i] == outbox[n].typ.to;
      j := |before|;
    } else {
      i, j := TwoRowsTwoEntries(outbox[..last], n, m);
    }
  }

  /** An order is created once: its order.created row is unique. */
  lemma CreatedOnce(d: DB, init: map<nat, int>, n: nat, m: nat)
    requires CoreInv(d, init) && n < |d.outbox| && m < |d.outbox|
    requires d.outbox[n].order == d.outbox[m].order
    requires d.outbox[n].typ == EVENT_ORDER_CREATED && d.outbox[m].typ == EVENT_ORDER_CREATED
    ensures n == m
  {
    if n != m {
      assert RowOk(d, d.outbox[n]);
      assert OrderOk(d, d.outbox[n].order);
      var i, j := TwoRowsTwoEntries(d.outbox, if n < m then n else m, if n < m then m else n);
      PendingOnlyFirst(History(d.outbox, d.outbox[n].order), j);
    }
  }

  /** What one delivery does to the orders and the stock. */
  lemma DeliveryEffect(d: DB, init: map<nat, int>, e: Event, now: nat)
    requires Inv(d, init) && EventOk(d, e)
    ensures var d' := RouteCommerce(d, e, now).db;
            && Inv(d', init) && Grows(d, d')
            && d'.products == d.products && d'.orders.Keys == d.orders.Keys
            && d'.inbox == (if e.typ.OrderEvent? then d.inbox + {(e.id, ConsumerOf(e))} else d.inbox)
            && forall o | o in d.orders ::
                 d'.orders[o] ==
                 if e.typ == EVENT_ORDER_CREATED && d.outbox[e.id.row].order == o && (e.id, PaymentConsumer) !in d.inbox
                 then ChargedOrder(d.orders[o], e.id) else d.orders[o]
  {
    RecordIsAuthentic(d, e);
    RouteCommerceKeepsInv(d, init, e, now);
    RouteGrows(d, e, now);
    if e.typ.OrderEvent? {
      assert RowOk(d, d.outbox[e.id.row]);
      if e.typ != EVENT_ORDER_CREATED {
        InventoryOnlyClaims(d, init, e);
      } else {
        assert d.outbox[e.id.row].order != 0 by {
          assert References(d);
        }
        assert NamesOrder(e);
      }
    }
  }

  /** A row that charges after the first delivery charged before it. */
  lemma ChargesBack(d: DB, d': DB, e: Event, rest: set<Event>, o: nat, n: nat)
    requires d.outbox <= d'.outbox && d.inbox <= d'.inbox
    requires forall x | x in rest :: EventOk(d, x)
    requires Charges(d', rest, o, n)
    ensures Charges(d, rest + {e}, o, n) && (Outbox(n), PaymentConsumer) !in d'.inbox
  {
    assert EventOk(d, EventOf(d'.outbox, n));
  }

  /** The first delivery and what it leaves to the others. */
  lemma FirstDelivery(d: DB, init: map<nat, int>, e: Event, now: nat, rest: set<Event>, o: nat)
    requires Inv(d, init) && o in d.orders && EventOk(d, e)
    requires forall x | x in rest :: EventOk(d, x)
    ensures var d' := RouteCommerce(d, e, now).db;
            && o in d'.orders
            && (forall n: nat | Charges(d, rest + {e}, o, n) && e == EventOf(d.outbox, n) ::
                  d'.orders[o] == ChargedOrder(d.orders[o], Outbox(n)) && forall m: nat :: !Charges(d', rest, o, m))
            && (forall n: nat | Charges(d, rest + {e}, o, n) && e != EventOf(d.outbox, n) ::
                  d'.orders[o] == d.orders[o] && Charges(d', rest, o, n))
            && ((forall n: nat :: !Charges(d, rest + {e}, o, n)) ==>
                  d'.orders[o] == d.orders[o] && forall m: nat :: !Charges(d', rest, o, m))
  {
    var d' := RouteCommerce(d, e, now).db;
    DeliveryEffect(d, init, e, now);
    forall m: nat | Charges(d', rest, o, m)
      ensures Charges(d, rest + {e}, o, m) && (Outbox(m), PaymentConsumer) !in d'.inbox
    {
      ChargesBack(d, d', e, rest, o, m);
    }
    var own := e.typ == EVENT_ORDER_CREATED && d.outbox[e.id.row].order == o;
    forall n: nat | Charges(d, rest + {e}, o, n)
      ensures own ==> n == e.id.row
      ensures forall m: nat | Charges(d', rest, o, m) :: m == n
    {
      if own {
        CreatedOnce(d, init, n, e.id.row);
      }
      forall m: nat | Charges(d', rest, o, m) ensures m == n {
        CreatedOnce(d, init, n, m);
      }
    }
    if own && (e.id, PaymentConsumer) !in d.inbox {
      assert Charges(d, rest + {e}, o, e.id.row);
    }
  }

  /** The end of a consumption, order by order: charged if its creation was among the events and
      unclaimed, untouched otherwise. */
  lemma {:induction false} ConsumedOrder(d: DB, init: map<nat, int>, ts: seq<(Event, nat)>, o: nat)
    requires Inv(d, init) && o in d.orders
    requires forall t | t in ts :: EventOk(d, t.0)
    ensures o in Consume(d, ts).orders
    ensures (forall n: nat :: !Charges(d, EventsIn(ts), o, n)) ==> Consume(d, ts).orders[o] == d.orders[o]
    ensures forall n: nat | Charges(d, EventsIn(ts), o, n) ::
            Consume(d, ts).orders[o] == ChargedOrder(d.orders[o], Outbox(n))
    decreases |ts|
  {
    if ts != [] {
      var e, rest := ts[0].0, ts[1..];
      var d' := RouteCommerce(d, e, ts[0].1).db;
      assert ts[0] in ts && forall t | t in rest :: t in ts;
      DeliveryEffect(d, init, e, ts[0].1);
      forall t | t in rest ensures EventOk(d', t.0) {
        EventOkGrows(d, d', t.0);
      }
      ConsumedOrder(d', init, rest, o);
      assert EventsIn(ts) == EventsIn(rest) + {e};
      FirstDelivery(d, init, e, ts[0].1, EventsIn(rest), o);
    }
  }

  lemma {:induction false} ConsumedRest(d: DB, init: map<nat, int>, ts: seq<(Event, nat)>)
    requires Inv(d, init)
    requires forall t | t in ts :: EventOk(d, t.0)
    ensures var d' := Consume(d, ts);
            && d'.products == d.products && d'.orders.Keys == d.orders.Keys
            && d'.inbox == d.inbox + set e | e in EventsIn(ts) && e.typ.OrderEvent? :: (e.id, ConsumerOf(e))
    decreases |ts|
  {
    if ts != [] {
      var e, rest := ts[0].0, ts[1..];
      var d' := RouteCommerce(d, e, ts[0].1).db;
      assert ts[0] in ts;
      DeliveryEffect(d, init, e, ts[0].1);
      forall t | t in rest ensures EventOk(d', t.0) {
        assert t in ts;
        EventOkGrows(d, d', t.0);
      }
      ConsumedRest(d', init, rest);
      assert EventsIn(ts) == EventsIn(rest) + {e};
    }
  }

  /** Confluence: two consumptions of the same events, in any order, with any repeats and at any time,
      end with the same orders, reservations, payments, stock and inbox. */
  lemma ConsumptionIsConfluent(d: DB, init: map<nat, int>, ts: seq<(Event, nat)>, us: seq<(Event, nat)>)
    requires Inv(d, init)
    requires forall t | t in ts :: EventOk(d, t.0)
    requires EventsIn(ts) == EventsIn(us)
    ensures var x, y := Consume(d, ts), Consume(d, us);
            x.orders == y.orders && x.products == y.products && x.inbox == y.inbox
  {
    forall u | u in us ensures EventOk(d, u.0) {
      assert u.0 in EventsIn(ts);
    }
    ConsumedRest(d, init, ts);
    ConsumedRest(d, init, us);
    forall o | o in d.orders ensures Consume(d, ts).orders[o] == Consume(d, us).orders[o] {
      ConsumedOrder(d, init, ts, o);
      ConsumedOrder(d, init, us, o);
      if n: nat :| Charges(d, EventsIn(ts), o, n) {
        assert Charges(d, EventsIn(us), o, n);
      }
    }
  }
}
