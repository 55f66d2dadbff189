/** What settling an order's reservations does, in one shot: the shared specification of the
    release and commit loops. */
module Settlement {
  import opened Domain
  import opened Tables

  /** The quantity of product `p` that `rows` reserve with status `st`. */
  function RowsQty(rows: seq<Reservation>, p: nat, st: ReservationStatus): int {
    if rows == [] then 0
    else
      var last := rows[|rows| - 1];
      RowsQty(rows[..|rows| - 1], p, st) + if last.product == p && last.status == st then last.qty else 0
  }

  function StockOf(products: map<nat, Product>, p: nat): int {
    if p in products then products[p].stock else 0
  }

  /** Every product's stock grows by the quantity `rows` hold of it. */
  function Restocked(products: map<nat, Product>, rows: seq<Reservation>): map<nat, Product> {
    map p | p in products :: products[p].(stock := products[p].stock + RowsQty(rows, p, Held))
  }

  function SettledRows(rows: seq<Reservation>, to: ReservationStatus): seq<Reservation> {
    seq(|rows|, i requires 0 <= i < |rows| => if rows[i].status == Held then rows[i].(status := to) else rows[i])
  }

  /** The ledger rows of a settlement: +qty with the running balance for a release, 0 without a
      balance for a commit. */
  function SettlementEntries(products: map<nat, Product>, o: nat, rows: seq<Reservation>,
      to: ReservationStatus): seq<Entry> {
    if rows == [] then []
    else
      var last := rows[|rows| - 1];
      SettlementEntries(products, o, rows[..|rows| - 1], to) +
      if last.status != Held then []
      else if to == Released then
        [Entry(last.product, o, last.qty, Release,
            Some(StockOf(products, last.product) + RowsQty(rows, last.product, Held)))]
      else [Entry(last.product, o, 0, Commit, None)]
  }

  /** Moves every held reservation of order `o` to `to`; only a release gives stock back. */
  function Settled(d: DB, o: nat, to: ReservationStatus): DB {
    if o !in d.orders then d
    else
      var rows := d.orders[o].reservations;
      d.(products := if to == Released then Restocked(d.products, rows) else d.products,
         orders := d.orders[o := d.orders[o].(reservations := SettledRows(rows, to))],
         ledger := d.ledger + SettlementEntries(d.products, o, rows, to))
  }

  /** The products whose hold a settlement ends, in row order. */
  function HeldProducts(rows: seq<Reservation>): seq<nat> {
    if rows == [] then []
    else
      var last := rows[|rows| - 1];
      HeldProducts(rows[..|rows| - 1]) + if last.status == Held then [last.product] else []
  }

  ghost predicate NothingHeld(rows: seq<Reservation>) {
    forall i | 0 <= i < |rows| :: rows[i].status != Held
  }

  lemma {:induction false} NothingHeldQty(rows: seq<Reservation>, p: nat)
    requires NothingHeld(rows)
    ensures RowsQty(rows, p, Held) == 0
  {
    if rows != [] {
      NothingHeldQty(rows[..|rows| - 1], p);
    }
  }

  lemma {:induction false} NothingHeldEntries(products: map<nat, Product>, o: nat, rows: seq<Reservation>,
      to: ReservationStatus)
    requires NothingHeld(rows)
    ensures SettlementEntries(products, o, rows, to) == [] && HeldProducts(rows) == []
  {
    if rows != [] {
      NothingHeldEntries(products, o, rows[..|rows| - 1], to);
    }
  }

  /** Settling an order none of whose reservations is held changes nothing at all. */
  lemma SettledIsIdentity(d: DB, o: nat, to: ReservationStatus)
    requires o in d.orders ==> NothingHeld(d.orders[o].reservations)
    ensures Settled(d, o, to) == d
  {
    if o in d.orders {
      var rows := d.orders[o].reservations;
      assert SettledRows(rows, to) == rows;
      NothingHeldEntries(d.products, o, rows, to);
      forall p | p in d.products ensures RowsQty(rows, p, Held) == 0 {
        NothingHeldQty(rows, p);
      }
      assert Restocked(d.products, rows) == d.products;
      assert d.orders[o := d.orders[o]] == d.orders;
    }
  }

  /** A settlement moves the held quantity to `to` and leaves the other statuses alone. */
  lemma {:induction false} SettledQty(rows: seq<Reservation>, to: ReservationStatus, p: nat, st: ReservationStatus)
    requires to != Held
    ensures RowsQty(SettledRows(rows, to), p, st) ==
            if st == Held then 0
            else if st == to then RowsQty(rows, p, st) + RowsQty(rows, p, Held)
            else RowsQty(rows, p, st)
  {
    if rows != [] {
      var n := |rows| - 1;
      assert SettledRows(rows, to)[..n] == SettledRows(rows[..n], to);
      SettledQty(rows[..n], to, p, st);
    }
  }

  // ---------- the settlement loops, one row at a time ----------

  /** The database once the loop has dealt with the rows before `i`; a commit leaves the row
      updates to one statement after the loop. */
  function Midway(d: DB, o: nat, to: ReservationStatus, i: nat): DB
    requires o in d.orders && i <= |d.orders[o].reservations|
  {
    var rows := d.orders[o].reservations;
    d.(products := if to == Released then Restocked(d.products, rows[..i]) else d.products,
       orders := if to == Released
                 then d.orders[o := d.orders[o].(reservations := SettledRows(rows[..i], to) + rows[i..])]
                 else d.orders,
       ledger := d.ledger + SettlementEntries(d.products, o, rows[..i], to))
  }

  lemma MidwayStarts(d: DB, o: nat, to: ReservationStatus)
    requires o in d.orders
    ensures Midway(d, o, to, 0) == d
  {
    var rows := d.orders[o].reservations;
    assert SettledRows(rows[..0], to) + rows[0..] == rows;
    assert Restocked(d.products, rows[..0]) == d.products;
    assert d.orders[o := d.orders[o]] == d.orders;
  }

  lemma MidwayEnds(d: DB, o: nat, to: ReservationStatus)
    requires o in d.orders
    ensures var end := Midway(d, o, to, |d.orders[o].reservations|);
            Settled(d, o, to) ==
            end.(orders := d.orders[o := d.orders[o].(reservations := SettledRows(d.orders[o].reservations, to))])
    ensures to == Released ==> Settled(d, o, to) == Midway(d, o, to, |d.orders[o].reservations|)
  {
    var rows := d.orders[o].reservations;
    assert rows[..|rows|] == rows;
    assert SettledRows(rows, to) + rows[|rows|..] == SettledRows(rows, to);
  }

  lemma RestockedStep(products: map<nat, Product>, rows: seq<Reservation>, i: nat)
    requires i < |rows|
    requires rows[i].product in products
    ensures var before, p := Restocked(products, rows[..i]), rows[i].product;
            Restocked(products, rows[..i + 1]) ==
            if rows[i].status == Held then before[p := before[p].(stock := before[p].stock + rows[i].qty)] else before
  {
    assert rows[..i + 1][..i] == rows[..i];
  }

  lemma EntriesStep(products: map<nat, Product>, o: nat, rows: seq<Reservation>, to: ReservationStatus, i: nat)
    requires i < |rows|
    requires rows[i].product in products
    ensures SettlementEntries(products, o, rows[..i + 1], to) ==
            SettlementEntries(products, o, rows[..i], to) +
            if rows[i].status != Held then []
            else if to == Released then
              [Entry(rows[i].product, o, rows[i].qty, Release,
                     Some(StockOf(Restocked(products, rows[..i + 1]), rows[i].product)))]
            else [Entry(rows[i].product, o, 0, Commit, None)]
  {
    assert rows[..i + 1][..i] == rows[..i];
  }

  lemma ReleasedRowsStep(rows: seq<Reservation>, i: nat)
    requires i < |rows|
    ensures var before := SettledRows(rows[..i], Released) + rows[i..];
            && before[i] == rows[i]
            && SettledRows(rows[..i + 1], Released) + rows[i + 1..] ==
               if rows[i].status == Held then before[i := rows[i].(status := Released)] else before
  {
  }

  /** One turn of a release loop. */
  lemma ReleaseTurn(d: DB, o: nat, i: nat)
    requires o in d.orders && i < |d.orders[o].reservations|
    requires d.orders[o].reservations[i].product in d.products
    ensures var before := Midway(d, o, Released, i);
            && i < |before.orders[o].reservations| && before.orders[o].reservations[i] == d.orders[o].reservations[i]
            && d.orders[o].reservations[i].product in before.products
            && Midway(d, o, Released, i + 1) ==
               if d.orders[o].reservations[i].status != Held then before else RowReleased(before, o, i)
  {
    var rows := d.orders[o].reservations;
    RestockedStep(d.products, rows, i);
    EntriesStep(d.products, o, rows, Released, i);
    ReleasedRowsStep(rows, i);
    var before, row := Midway(d, o, Released, i), rows[i];
    if row.status == Held {
      assert Midway(d, o, Released, i + 1).orders == RowReleased(before, o, i).orders;
      assert Midway(d, o, Released, i + 1).ledger == RowReleased(before, o, i).ledger;
    }
  }

  /** One turn of a commit loop. */
  lemma CommitTurn(d: DB, o: nat, i: nat)
    requires o in d.orders && i < |d.orders[o].reservations|
    requires d.orders[o].reservations[i].product in d.products
    ensures var row, before := d.orders[o].reservations[i], Midway(d, o, Committed, i);
            Midway(d, o, Committed, i + 1) ==
            if row.status != Held then before
            else before.(ledger := before.ledger + [Entry(row.product, o, 0, Commit, None)])
  {
    EntriesStep(d.products, o, d.orders[o].reservations, Committed, i);
  }

  lemma HeldProductsStep(rows: seq<Reservation>, i: nat)
    requires i < |rows|
    ensures HeldProducts(rows[..i + 1]) ==
            HeldProducts(rows[..i]) + if rows[i].status == Held then [rows[i].product] else []
  {
    assert rows[..i + 1][..i] == rows[..i];
  }

  lemma SettledKeepsForeignKeys(d: DB, o: nat, to: ReservationStatus)
    requires ForeignKeys(d)
    ensures ForeignKeys(Settled(d, o, to))
  {
  }
}
