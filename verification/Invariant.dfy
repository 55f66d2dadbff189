/** What every transaction keeps: the invariant linking orders, reservations, payments, stock,
    ledger, outbox and inbox. */
module Invariant {
  import opened Domain
  import opened Tables
  import opened Settlement
  import opened Transactions
  import opened Ledger
  import opened Quantities

  /** The statuses the outbox announces for order `o`, in insertion order. */
  function History(outbox: seq<OutboxRow>, o: nat): seq<Status> {
    if outbox == [] then []
    else
      var last := outbox[|outbox| - 1];
      History(outbox[..|outbox| - 1], o) + if last.order == o && last.typ.OrderEvent? then [last.typ.to] else []
  }

  /** The first move out of pending_payment decides for good what becomes of the hold. */
  function HoldStatus(h: seq<Status>): ReservationStatus {
    if |h| <= 1 then Held else if h[1] == Paid then Committed else Released
  }

  /** The ledger's whole account of one reservation: the hold, then at most one settlement. */
  function Account(r: Reservation): seq<(int, Reason)> {
    match r.status
    case Held => [(-r.qty, Hold)]
    case Released => [(-r.qty, Hold), (r.qty, Release)]
    case Committed => [(-r.qty, Hold), (0, Commit)]
  }

  function KeysOf(payments: map<Key, Payment>, st: PaymentStatus): set<Key> {
    set k | k in payments && payments[k].status == st
  }

  ghost predicate RowsOk(ord: Order, h: seq<Status>, products: set<nat>) {
    && ord.reservations == seq(|ord.items|, i requires 0 <= i < |ord.items| =>
                               Reservation(ord.items[i].product, ord.items[i].qty, HoldStatus(h)))
    && Distinct(ord.reservations)
    && (forall i | 0 <= i < |ord.reservations| :: ord.reservations[i].qty > 0
         && ord.reservations[i].product in products)
    && ord.total == Total(ord.items)
  }

  ghost predicate PaymentsOk(ord: Order, h: seq<Status>) {
    && |KeysOf(ord.payments, Succeeded)| == (if ord.status in {Paid, Fulfilled} then 1 else 0)
    && |KeysOf(ord.payments, Failed)| == (if PaymentFailed in h then 1 else 0)
    && (forall k | k in ord.payments :: ord.payments[k].amount == ord.total)
  }

  ghost predicate AccountsOk(rows: seq<Reservation>, ledger: seq<Entry>, o: nat) {
    && (forall i | 0 <= i < |rows| :: Moves(ledger, o, rows[i].product) == Account(rows[i]))
    && (forall p | !Reserves(rows, p) :: Moves(ledger, o, p) == [])
  }

  ghost predicate OrderOk(d: DB, o: nat)
    requires o in d.orders
  {
    var ord, h := d.orders[o], History(d.outbox, o);
    && Legal(h) && h[|h| - 1] == ord.status && ord.version == |h|
    && RowsOk(ord, h, d.products.Keys)
    && PaymentsOk(ord, h)
    && AccountsOk(ord.reservations, d.ledger, o)
  }

  ghost predicate ProductOk(d: DB, init: map<nat, int>, p: nat)
    requires p in d.products && p in init
  {
    var stock := d.products[p].stock;
    && stock >= 0
    && stock + QtyIn(d.orders, d.nextOrder, p, Held) + QtyIn(d.orders, d.nextOrder, p, Committed) == init[p]
    && stock == init[p] + SumDelta(d.ledger, p)
  }

  ghost predicate References(d: DB) {
    && 1 <= d.nextOrder
    && (forall o | o in d.orders :: 1 <= o < d.nextOrder)
    && (forall e | e in d.ledger :: e.order in d.orders && e.product in d.products)
    && (forall n | n in d.published :: n < |d.outbox|)
  }

  /** What an event tells of order `o` on entering status `to`. */
  function AnnouncedPayload(o: nat, ord: Order, to: Status): Payload {
    Payload(Some(o), ord.user, to, if to == PendingPayment || to == Paid then Some(ord.total) else None, None)
  }

  ghost predicate RowOk(d: DB, row: OutboxRow) {
    && row.order in d.orders
    && row.typ.OrderEvent?
    && row.payload.Json?
    && row.payload.payload == AnnouncedPayload(row.order, d.orders[row.order], row.typ.to)
  }

  ghost predicate OutboxOk(d: DB) {
    forall n {:trigger RowOk(d, d.outbox[n])} | 0 <= n < |d.outbox| :: RowOk(d, d.outbox[n])
  }

  ghost predicate ClaimOk(d: DB, n: nat)
    requires n < |d.outbox|
  {
    d.outbox[n].typ == EVENT_ORDER_CREATED && (Outbox(n), PaymentConsumer) in d.inbox
        && d.outbox[n].order in d.orders ==>
      d.orders[d.outbox[n].order].status != PendingPayment
  }

  /** The inbox never holds an id the outbox has yet to give out. */
  ghost predicate NoFutureClaims(d: DB) {
    forall n: nat, c: Consumer | (Outbox(n), c) in d.inbox :: n < |d.outbox|
  }

  /** A claimed order.created event means its order has left pending_payment for good. */
  ghost predicate ClaimsOk(d: DB) {
    && NoFutureClaims(d)
    && forall n {:trigger ClaimOk(d, n)} | 0 <= n < |d.outbox| :: ClaimOk(d, n)
  }

  /** The invariant but for the inbox. `init` is each product's stock when it was added. */
  ghost predicate CoreInv(d: DB, init: map<nat, int>) {
    && d.products.Keys == init.Keys
    && References(d)
    && OutboxOk(d)
    && (forall o {:trigger OrderOk(d, o)} | o in d.orders :: OrderOk(d, o))
    && (forall p {:trigger ProductOk(d, init, p)} | p in d.products :: ProductOk(d, init, p))
    && Replays(d.ledger, init)
  }

  ghost predicate Inv(d: DB, init: map<nat, int>) {
    CoreInv(d, init) && ClaimsOk(d)
  }

  // ---------- histories ----------

  lemma HistoryAppend(outbox: seq<OutboxRow>, row: OutboxRow, o: nat)
    ensures History(outbox + [row], o) ==
            History(outbox, o) + if row.order == o && row.typ.OrderEvent? then [row.typ.to] else []
  {
    assert (outbox + [row])[..|outbox|] == outbox;
  }

  lemma {:induction false} NoHistory(outbox: seq<OutboxRow>, o: nat)
    requires forall row | row in outbox :: row.order != o
    ensures History(outbox, o) == []
  {
    if outbox != [] {
      assert outbox[|outbox| - 1] in outbox;
      assert forall row | row in outbox[..|outbox| - 1] :: row in outbox;
      NoHistory(outbox[..|outbox| - 1], o);
    }
  }

  /** Every outbox row of an order is an entry of its history. */
  lemma {:induction false} InHistory(outbox: seq<OutboxRow>, n: nat)
    requires n < |outbox| && outbox[n].typ.OrderEvent?
    ensures outbox[n].typ.to in History(outbox, outbox[n].order)
  {
    if n < |outbox| - 1 {
      InHistory(outbox[..|outbox| - 1], n);
    }
  }

  /** The history of an order starts with a row of the outbox. */
  lemma {:induction false} HistoryHasRow(outbox: seq<OutboxRow>, o: nat, st: Status) returns (n: nat)
    requires st in History(outbox, o)
    ensures n < |outbox| && outbox[n].order == o && outbox[n].typ == OrderEvent(st)
  {
    var last := |outbox| - 1;
    if st in History(outbox[..last], o) {
      n := HistoryHasRow(outbox[..last], o, st);
    } else {
      n := last;
    }
  }

  /** A legal history extended by a legal transition is legal, and once it has left
      pending_payment the fate of the hold is fixed. */
  lemma LegalStep(h: seq<Status>, to: Status)
    requires Legal(h) && CanTransition(h[|h| - 1], to)
    ensures Legal(h + [to])
    ensures |h| > 1 ==> HoldStatus(h + [to]) == HoldStatus(h)
    ensures |h| > 1 <==> h[|h| - 1] != PendingPayment
  {
    var g := h + [to];
    forall i | 0 < i < |g| ensures CanTransition(g[i - 1], g[i]) {
      if i < |h| {
        assert CanTransition(h[i - 1], h[i]);
      }
    }
    PendingOnlyFirst(h, |h| - 1);
  }

  // ---------- moving an order ----------

  /** The payment rows a move into `to` brings with it. */
  ghost predicate PaymentFits(ord: Order, to: Status, pay: map<Key, Payment>) {
    if to in {Paid, PaymentFailed} then
      exists k | k !in ord.payments ::
        && pay.Keys == {k}
        && pay[k].status == (if to == Paid then Succeeded else Failed)
        && pay[k].amount == ord.total
    else pay == map[]
  }

  lemma NewKey(payments: map<Key, Payment>, k: Key, pay: Payment, st: PaymentStatus)
    requires k !in payments
    ensures |KeysOf(payments[k := pay], st)| == |KeysOf(payments, st)| + if pay.status == st then 1 else 0
  {
    if pay.status == st {
      assert KeysOf(payments[k := pay], st) == KeysOf(payments, st) + {k};
    } else {
      assert KeysOf(payments[k := pay], st) == KeysOf(payments, st);
    }
  }

  lemma MovedPayments(ord: Order, h: seq<Status>, to: Status, pay: map<Key, Payment>)
    requires Legal(h) && h[|h| - 1] == ord.status && CanTransition(ord.status, to)
    requires PaymentsOk(ord, h) && PaymentFits(ord, to, pay)
    ensures PaymentsOk(Moved(ord, to, pay), h + [to])
  {
    var g := h + [to];
    assert g[|h|] == to;
    assert PaymentFailed in g <==> PaymentFailed in h || to == PaymentFailed;
    if to in {Paid, PaymentFailed} {
      var k :| k !in ord.payments && pay.Keys == {k}
               && pay[k].status == (if to == Paid then Succeeded else Failed) && pay[k].amount == ord.total;
      assert ord.payments + pay == ord.payments[k := pay[k]];
      NewKey(ord.payments, k, pay[k], Succeeded);
      NewKey(ord.payments, k, pay[k], Failed);
      if to == PaymentFailed {
        PendingOnlyFirst(h, |h| - 1);
      }
    } else {
      assert ord.payments + pay == ord.payments;
    }
  }

  /** How the hold ends when an order leaves pending_payment for `to`. */
  function Ending(to: Status): ReservationStatus {
    if to == Paid then Committed else Released
  }

  /** What Advance writes, table by table: the settlement is either of every row or of none. */
  lemma AdvanceWrites(d: DB, o: nat, to: Status, pay: map<Key, Payment>, now: nat)
    requires o in d.orders && CanTransition(d.orders[o].status, to)
    requires d.orders[o].status != PendingPayment ==> NothingHeld(d.orders[o].reservations)
    ensures var rows, ord := d.orders[o].reservations, Moved(d.orders[o], to, pay);
            var row := OutboxRow(o, OrderEvent(to), Marshal(EventPayload(o, ord)), now);
            Advance(d, o, to, pay, now) ==
            if d.orders[o].status == PendingPayment then
              d.(products := if Ending(to) == Released then Restocked(d.products, rows) else d.products,
                 orders := d.orders[o := ord.(reservations := SettledRows(rows, Ending(to)))],
                 ledger := d.ledger + SettlementEntries(d.products, o, rows, Ending(to)),
                 outbox := d.outbox + [row])
            else d.(orders := d.orders[o := ord], outbox := d.outbox + [row])
  {
    var moved := d.(orders := d.orders[o := Moved(d.orders[o], to, pay)]);
    if d.orders[o].status != PendingPayment {
      SettledIsIdentity(moved, o, Released);
      SettledIsIdentity(moved, o, Committed);
    }
  }

  /** Before an order leaves pending_payment every row is held, afterwards none is. */
  lemma HeldExactlyWhenPending(d: DB, o: nat)
    requires o in d.orders && OrderOk(d, o)
    ensures d.orders[o].status == PendingPayment ==> All(d.orders[o].reservations, Held)
    ensures d.orders[o].status != PendingPayment ==> NothingHeld(d.orders[o].reservations)
  {
    var h := History(d.outbox, o);
    PendingOnlyFirst(h, |h| - 1);
  }

  lemma AdvanceKeepsOrder(d: DB, o: nat, to: Status, pay: map<Key, Payment>, now: nat)
    requires o in d.orders && OrderOk(d, o) && CanTransition(d.orders[o].status, to)
    requires PaymentFits(d.orders[o], to, pay)
    ensures o in Advance(d, o, to, pay, now).orders && OrderOk(Advance(d, o, to, pay, now), o)
  {
    var ord, h, d' := d.orders[o], History(d.outbox, o), Advance(d, o, to, pay, now);
    HeldExactlyWhenPending(d, o);
    AdvanceWrites(d, o, to, pay, now);
    HistoryAppend(d.outbox, d'.outbox[|d.outbox|], o);
    LegalStep(h, to);
    MovedPayments(ord, h, to, pay);
    if ord.status == PendingPayment {
      AccountsSettled(d.products, d.ledger, ord.reservations, o, Ending(to));
      PendingOnlyFirst(h, |h| - 1);
      RowsSettled(ord, h, to, d.products.Keys);
    }
  }

  lemma RowsSettled(ord: Order, h: seq<Status>, to: Status, products: set<nat>)
    requires |h| == 1 && RowsOk(ord, h, products)
    ensures RowsOk(ord.(reservations := SettledRows(ord.reservations, Ending(to))), h + [to], products)
  {
    var after := SettledRows(ord.reservations, Ending(to));
    assert forall i | 0 <= i < |after| :: after[i] == ord.reservations[i].(status := Ending(to));
    assert (h + [to])[1] == to;
  }

  lemma AccountSettled(products: map<nat, Product>, o: nat, r: Reservation, to: ReservationStatus)
    requires r.status == Held && to != Held
    ensures var e := SettlingEntry(products, o, r, to);
            Account(r.(status := to)) == Account(r) + [(e.delta, e.reason)]
  {
  }

  /** Settling every row extends each account by its one settlement. */
  lemma AccountsSettled(products: map<nat, Product>, ledger: seq<Entry>, rows: seq<Reservation>, o: nat,
      to: ReservationStatus)
    requires All(rows, Held) && Distinct(rows) && AccountsOk(rows, ledger, o) && to != Held
    ensures AccountsOk(SettledRows(rows, to), ledger + SettlementEntries(products, o, rows, to), o)
  {
    var entries, after := SettlementEntries(products, o, rows, to), SettledRows(rows, to);
    AllHeldEntries(products, o, rows, to);
    assert forall i | 0 <= i < |rows| :: after[i] == rows[i].(status := to) && entries[i].product == rows[i].product;
    forall i | 0 <= i < |after| ensures Moves(ledger + entries, o, after[i].product) == Account(after[i]) {
      AccountSettled(products, o, rows[i], to);
      BatchHits(ledger, entries, o, i);
    }
    forall p | !Reserves(after, p) ensures Moves(ledger + entries, o, p) == [] {
      AbsentStaysAbsent(ledger, rows, after, entries, o, p);
    }
  }

  lemma AbsentStaysAbsent(ledger: seq<Entry>, rows: seq<Reservation>, after: seq<Reservation>, entries: seq<Entry>,
      o: nat, p: nat)
    requires |rows| == |after| == |entries| && AccountsOk(rows, ledger, o) && Batch(entries, o)
    requires forall i | 0 <= i < |rows| :: after[i].product == rows[i].product == entries[i].product
    requires !Reserves(after, p)
    ensures Moves(ledger + entries, o, p) == []
  {
    assert !Reserves(rows, p) by {
      forall i | 0 <= i < |rows| ensures rows[i].product != p {
        assert after[i].product != p;
      }
    }
    assert !Touches(entries, p) by {
      forall i | 0 <= i < |entries| ensures entries[i].product != p {
        assert after[i].product != p;
      }
    }
    BatchMisses(ledger, entries, o, p);
  }

  /** A ledger batch and an outbox row of order `o` leave every other order's invariant alone. */
  lemma OtherOrderKept(d: DB, d': DB, o: nat, entries: seq<Entry>, row: OutboxRow, other: nat)
    requires other in d.orders && OrderOk(d, other) && other != o
    requires other in d'.orders && d'.orders[other] == d.orders[other]
    requires d'.products.Keys >= d.products.Keys
    requires Batch(entries, o) && d'.ledger == d.ledger + entries
    requires d'.outbox == d.outbox + [row] && row.order == o
    ensures OrderOk(d', other)
  {
    HistoryAppend(d.outbox, row, other);
    forall p ensures Moves(d'.ledger, other, p) == Moves(d.ledger, other, p) {
      OtherOrdersMoves(d.ledger, entries, o, other, p);
    }
  }

  lemma AdvanceKeepsProduct(d: DB, init: map<nat, int>, o: nat, to: Status, pay: map<Key, Payment>, now: nat, p: nat)
    requires o in d.orders && o < d.nextOrder && OrderOk(d, o) && CanTransition(d.orders[o].status, to)
    requires p in d.products && p in init && ProductOk(d, init, p)
    ensures p in Advance(d, o, to, pay, now).products && ProductOk(Advance(d, o, to, pay, now), init, p)
  {
    var d', rows := Advance(d, o, to, pay, now), d.orders[o].reservations;
    HeldExactlyWhenPending(d, o);
    AdvanceWrites(d, o, to, pay, now);
    QtyInUpdate(d.orders, d.nextOrder, o, d'.orders[o], p, Held);
    QtyInUpdate(d.orders, d.nextOrder, o, d'.orders[o], p, Committed);
    if d.orders[o].status == PendingPayment {
      SettledQty(rows, Ending(to), p, Held);
      SettledQty(rows, Ending(to), p, Committed);
      RowsQtyNonNegative(rows, p, Held);
      SettlementDelta(d.products, d.ledger, rows, o, Ending(to), p);
    }
  }

  /** A release moves the ledger's sum by what was held; a commit does not. */
  lemma SettlementDelta(products: map<nat, Product>, ledger: seq<Entry>, rows: seq<Reservation>, o: nat,
      to: ReservationStatus, p: nat)
    requires All(rows, Held) && Distinct(rows)
    ensures SumDelta(ledger + SettlementEntries(products, o, rows, to), p) ==
            SumDelta(ledger, p) + if to == Released then RowsQty(rows, p, Held) else 0
  {
    var entries := SettlementEntries(products, o, rows, to);
    AllHeldEntries(products, o, rows, to);
    if i :| 0 <= i < |rows| && rows[i].product == p {
      assert entries[i] == SettlingEntry(products, o, rows[i], to);
      BatchHits(ledger, entries, o, i);
      RowsQtyHits(rows, i, Held);
    } else {
      BatchMisses(ledger, entries, o, p);
      RowsQtyMisses(rows, p, Held);
    }
  }

  lemma AdvanceKeepsReplay(d: DB, init: map<nat, int>, o: nat, to: Status, pay: map<Key, Payment>, now: nat)
    requires o in d.orders && OrderOk(d, o) && CanTransition(d.orders[o].status, to)
    requires d.products.Keys == init.Keys && Replays(d.ledger, init)
    requires forall p {:trigger ProductOk(d, init, p)} | p in d.products :: ProductOk(d, init, p)
    ensures Replays(Advance(d, o, to, pay, now).ledger, init)
  {
    var rows := d.orders[o].reservations;
    HeldExactlyWhenPending(d, o);
    AdvanceWrites(d, o, to, pay, now);
    if d.orders[o].status == PendingPayment {
      var entries := SettlementEntries(d.products, o, rows, Ending(to));
      AllHeldEntries(d.products, o, rows, Ending(to));
      forall i | 0 <= i < |entries| && entries[i].balanceAfter.Some?
        ensures entries[i].product in init
        ensures entries[i].balanceAfter.value ==
                init[entries[i].product] + SumDelta(d.ledger, entries[i].product) + entries[i].delta
      {
        assert entries[i] == SettlingEntry(d.products, o, rows[i], Ending(to));
        assert ProductOk(d, init, rows[i].product);
      }
      BatchReplays(d.ledger, entries, o, init);
    }
  }

  /** The ledger rows and the outbox row an Advance appends. */
  lemma AdvanceAppends(d: DB, o: nat, to: Status, pay: map<Key, Payment>, now: nat)
      returns (entries: seq<Entry>, row: OutboxRow)
    requires o in d.orders && OrderOk(d, o) && CanTransition(d.orders[o].status, to)
    ensures var d' := Advance(d, o, to, pay, now);
            && d'.ledger == d.ledger + entries && d'.outbox == d.outbox + [row]
            && d'.products.Keys == d.products.Keys && d'.orders.Keys == d.orders.Keys
            && (forall x | x in d.orders && x != o :: d'.orders[x] == d.orders[x])
            && d' == d.(products := d'.products, orders := d'.orders, ledger := d'.ledger, outbox := d'.outbox)
            && d'.orders[o].status == to
            && d'.orders[o].user == d.orders[o].user && d'.orders[o].total == d.orders[o].total
            && row.order == o && row.typ == OrderEvent(to) && RowOk(d', row)
    ensures Batch(entries, o)
    ensures forall e | e in entries :: e.product in d.products
  {
    var rows := d.orders[o].reservations;
    HeldExactlyWhenPending(d, o);
    AdvanceWrites(d, o, to, pay, now);
    row := OutboxRow(o, OrderEvent(to), Marshal(EventPayload(o, Moved(d.orders[o], to, pay))), now);
    entries := [];
    if d.orders[o].status == PendingPayment {
      entries := SettlementEntries(d.products, o, rows, Ending(to));
      AllHeldEntries(d.products, o, rows, Ending(to));
      assert forall i | 0 <= i < |entries| :: entries[i] == SettlingEntry(d.products, o, rows[i], Ending(to));
    }
  }

  /** Every legal move of an order keeps the invariant. */
  lemma AdvanceKeepsCore(d: DB, init: map<nat, int>, o: nat, to: Status, pay: map<Key, Payment>, now: nat)
    requires CoreInv(d, init) && o in d.orders && CanTransition(d.orders[o].status, to)
    requires PaymentFits(d.orders[o], to, pay)
    ensures CoreInv(Advance(d, o, to, pay, now), init)
  {
    var d' := Advance(d, o, to, pay, now);
    assert OrderOk(d, o);
    var entries, row := AdvanceAppends(d, o, to, pay, now);
    AdvanceKeepsReplay(d, init, o, to, pay, now);
    forall other | other in d'.orders ensures OrderOk(d', other) {
      if other == o {
        AdvanceKeepsOrder(d, o, to, pay, now);
      } else {
        assert OrderOk(d, other);
        OtherOrderKept(d, d', o, entries, row, other);
      }
    }
    forall p | p in d'.products ensures ProductOk(d', init, p) {
      assert ProductOk(d, init, p);
      AdvanceKeepsProduct(d, init, o, to, pay, now, p);
    }
    RowsStayOk(d, d', row);
  }

  /** Rows stay right as long as no order goes away or changes its user or total. */
  lemma RowsStayOk(d: DB, d': DB, row: OutboxRow)
    requires OutboxOk(d) && d'.outbox == d.outbox + [row] && RowOk(d', row)
    requires forall o | o in d.orders ::
               o in d'.orders && d'.orders[o].user == d.orders[o].user && d'.orders[o].total == d.orders[o].total
    ensures OutboxOk(d')
  {
    forall n | 0 <= n < |d'.outbox| ensures RowOk(d', d'.outbox[n]) {
      if n < |d.outbox| {
        assert RowOk(d, d.outbox[n]);
      }
    }
  }
}
