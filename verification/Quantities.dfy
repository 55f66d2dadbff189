/** Reserved quantities: of one order's rows, and summed over all orders. */
module Quantities {
  import opened Domain
  import opened Tables
  import opened Settlement
  import opened Ledger

  ghost predicate Distinct(rows: seq<Reservation>) {
    forall i, j | 0 <= i < j < |rows| :: rows[i].product != rows[j].product
  }

  ghost predicate Reserves(rows: seq<Reservation>, p: nat) {
    exists i | 0 <= i < |rows| :: rows[i].product == p
  }

  ghost predicate All(rows: seq<Reservation>, st: ReservationStatus) {
    forall i | 0 <= i < |rows| :: rows[i].status == st
  }

  lemma {:induction false} RowsQtyMisses(rows: seq<Reservation>, p: nat, st: ReservationStatus)
    requires !Reserves(rows, p)
    ensures RowsQty(rows, p, st) == 0
  {
    if rows != [] {
      var n := |rows| - 1;
      assert rows[n].product != p;
      assert !Reserves(rows[..n], p);
      RowsQtyMisses(rows[..n], p, st);
    }
  }

  lemma {:induction false} RowsQtyHits(rows: seq<Reservation>, i: nat, st: ReservationStatus)
    requires Distinct(rows) && i < |rows|
    ensures RowsQty(rows, rows[i].product, st) == if rows[i].status == st then rows[i].qty else 0
  {
    var n := |rows| - 1;
    if i == n {
      assert !Reserves(rows[..n], rows[i].product);
      RowsQtyMisses(rows[..n], rows[i].product, st);
    } else {
      RowsQtyHits(rows[..n], i, st);
    }
  }

  lemma {:induction false} RowsQtyNonNegative(rows: seq<Reservation>, p: nat, st: ReservationStatus)
    requires forall i | 0 <= i < |rows| :: rows[i].qty > 0
    ensures RowsQty(rows, p, st) >= 0
  {
    if rows != [] {
      RowsQtyNonNegative(rows[..|rows| - 1], p, st);
    }
  }

  /** The ledger row that settles reservation `r` of order `o`. */
  function SettlingEntry(products: map<nat, Product>, o: nat, r: Reservation, to: ReservationStatus): Entry {
    if to == Released then Entry(r.product, o, r.qty, Release, Some(StockOf(products, r.product) + r.qty))
    else Entry(r.product, o, 0, Commit, None)
  }

  /** When every row is held, the settlement writes one ledger row for each. */
  lemma {:induction false} AllHeldEntries(products: map<nat, Product>, o: nat, rows: seq<Reservation>,
      to: ReservationStatus)
    requires All(rows, Held) && Distinct(rows)
    ensures var entries := SettlementEntries(products, o, rows, to);
            && |entries| == |rows|
            && (forall i | 0 <= i < |rows| :: entries[i] == SettlingEntry(products, o, rows[i], to))
            && Batch(entries, o)
  {
    if rows != [] {
      AllHeldEntries(products, o, rows[..|rows| - 1], to);
      RowsQtyHits(rows, |rows| - 1, Held);
    }
  }

  /** The quantity of product `p` that orders below `n` reserve with status `st`. */
  function QtyIn(orders: map<nat, Order>, n: nat, p: nat, st: ReservationStatus): int {
    if n == 0 then 0
    else QtyIn(orders, n - 1, p, st) + if n - 1 in orders then RowsQty(orders[n - 1].reservations, p, st) else 0
  }

  lemma {:induction false} QtyInUpdate(orders: map<nat, Order>, n: nat, o: nat, ord: Order, p: nat,
      st: ReservationStatus)
    ensures QtyIn(orders[o := ord], n, p, st) ==
            QtyIn(orders, n, p, st) +
            if o < n
            then RowsQty(ord.reservations, p, st) - (if o in orders then RowsQty(orders[o].reservations, p, st) else 0)
            else 0
  {
    if n > 0 {
      QtyInUpdate(orders, n - 1, o, ord, p, st);
    }
  }

  /** No order reserves a product that does not exist. */
  lemma {:induction false} QtyInMisses(orders: map<nat, Order>, n: nat, p: nat, st: ReservationStatus)
    requires forall o | o in orders :: !Reserves(orders[o].reservations, p)
    ensures QtyIn(orders, n, p, st) == 0
  {
    if n > 0 {
      QtyInMisses(orders, n - 1, p, st);
      if n - 1 in orders {
        RowsQtyMisses(orders[n - 1].reservations, p, st);
      }
    }
  }

  lemma {:induction false} QtyInNonNegative(orders: map<nat, Order>, n: nat, p: nat, st: ReservationStatus)
    requires forall o, i | o in orders && 0 <= i < |orders[o].reservations| :: orders[o].reservations[i].qty > 0
    ensures QtyIn(orders, n, p, st) >= 0
  {
    if n > 0 {
      QtyInNonNegative(orders, n - 1, p, st);
      if n - 1 in orders {
        RowsQtyNonNegative(orders[n - 1].reservations, p, st);
      }
    }
  }

  /** Nothing held anywhere sums to nothing held. */
  lemma {:induction false} NoneIn(orders: map<nat, Order>, n: nat, p: nat)
    requires forall o | o in orders :: NothingHeld(orders[o].reservations)
    ensures QtyIn(orders, n, p, Held) == 0
  {
    if n > 0 {
      NoneIn(orders, n - 1, p);
      if n - 1 in orders {
        NothingHeldQty(orders[n - 1].reservations, p);
      }
    }
  }
}
