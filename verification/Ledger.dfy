/** The stock ledger as a history: what it says of a product and of one order's hold on it. */
module Ledger {
  import opened Tables

  /** The sum of the movements of product `p`. */
  function SumDelta(ledger: seq<Entry>, p: nat): int {
    if ledger == [] then 0
    else
      var last := ledger[|ledger| - 1];
      SumDelta(ledger[..|ledger| - 1], p) + if last.product == p then last.delta else 0
  }

  /** The movements order `o` caused on product `p`, oldest first. */
  function Moves(ledger: seq<Entry>, o: nat, p: nat): seq<(int, Reason)> {
    if ledger == [] then []
    else
      var last := ledger[|ledger| - 1];
      Moves(ledger[..|ledger| - 1], o, p) +
      if last.order == o && last.product == p then [(last.delta, last.reason)] else []
  }

  /** Every recorded balance is the initial stock plus the movements up to and including its row. */
  ghost predicate Replays(ledger: seq<Entry>, init: map<nat, int>) {
    forall i | 0 <= i < |ledger| && ledger[i].balanceAfter.Some? ::
      && ledger[i].product in init
      && ledger[i].balanceAfter.value == init[ledger[i].product] + SumDelta(ledger[..i + 1], ledger[i].product)
  }

  /** The ledger rows of one transaction: one order, each product at most once. */
  ghost predicate Batch(rows: seq<Entry>, o: nat) {
    && (forall i | 0 <= i < |rows| :: rows[i].order == o)
    && (forall i, j | 0 <= i < j < |rows| :: rows[i].product != rows[j].product)
  }

  ghost predicate Touches(rows: seq<Entry>, p: nat) {
    exists i | 0 <= i < |rows| :: rows[i].product == p
  }

  lemma AppendOne(ledger: seq<Entry>, e: Entry, o: nat, p: nat)
    ensures SumDelta(ledger + [e], p) == SumDelta(ledger, p) + if e.product == p then e.delta else 0
    ensures Moves(ledger + [e], o, p) ==
            Moves(ledger, o, p) + if e.order == o && e.product == p then [(e.delta, e.reason)] else []
  {
    assert (ledger + [e])[..|ledger|] == ledger;
  }

  lemma {:induction false} BatchMisses(ledger: seq<Entry>, rows: seq<Entry>, o: nat, p: nat)
    requires Batch(rows, o) && !Touches(rows, p)
    ensures SumDelta(ledger + rows, p) == SumDelta(ledger, p)
    ensures Moves(ledger + rows, o, p) == Moves(ledger, o, p)
  {
    if rows == [] {
      assert ledger + rows == ledger;
    } else {
      var n := |rows| - 1;
      assert ledger + rows == (ledger + rows[..n]) + [rows[n]];
      AppendOne(ledger + rows[..n], rows[n], o, p);
      assert !Touches(rows[..n], p);
      BatchMisses(ledger, rows[..n], o, p);
    }
  }

  lemma {:induction false} BatchHits(ledger: seq<Entry>, rows: seq<Entry>, o: nat, i: nat)
    requires Batch(rows, o) && i < |rows|
    ensures SumDelta(ledger + rows, rows[i].product) == SumDelta(ledger, rows[i].product) + rows[i].delta
    ensures Moves(ledger + rows, o, rows[i].product) ==
            Moves(ledger, o, rows[i].product) + [(rows[i].delta, rows[i].reason)]
  {
    var n, p := |rows| - 1, rows[i].product;
    assert ledger + rows == (ledger + rows[..n]) + [rows[n]];
    AppendOne(ledger + rows[..n], rows[n], o, p);
    if i == n {
      assert !Touches(rows[..n], p);
      BatchMisses(ledger, rows[..n], o, p);
    } else {
      BatchHits(ledger, rows[..n], o, i);
    }
  }

  lemma {:induction false} OtherOrdersMoves(ledger: seq<Entry>, rows: seq<Entry>, o: nat, other: nat, p: nat)
    requires Batch(rows, o) && other != o
    ensures Moves(ledger + rows, other, p) == Moves(ledger, other, p)
  {
    if rows == [] {
      assert ledger + rows == ledger;
    } else {
      var n := |rows| - 1;
      assert ledger + rows == (ledger + rows[..n]) + [rows[n]];
      AppendOne(ledger + rows[..n], rows[n], other, p);
      OtherOrdersMoves(ledger, rows[..n], o, other, p);
    }
  }

  /** Appending a batch keeps the ledger replayable when each balance it records is the replayed
      balance before the batch plus its own movement. */
  lemma {:induction false} BatchReplays(ledger: seq<Entry>, rows: seq<Entry>, o: nat, init: map<nat, int>)
    requires Replays(ledger, init) && Batch(rows, o)
    requires forall i | 0 <= i < |rows| && rows[i].balanceAfter.Some? ::
               && rows[i].product in init
               && rows[i].balanceAfter.value ==
                   init[rows[i].product] + SumDelta(ledger, rows[i].product) + rows[i].delta
    ensures Replays(ledger + rows, init)
  {
    if rows == [] {
      assert ledger + rows == ledger;
    } else {
      var n := |rows| - 1;
      var before := ledger + rows[..n];
      BatchReplays(ledger, rows[..n], o, init);
      BatchHits(ledger, rows, o, n);
      assert ledger + rows == before + [rows[n]];
      forall i | 0 <= i < |ledger + rows| && (ledger + rows)[i].balanceAfter.Some?
        ensures var e := (ledger + rows)[i];
                e.product in init && e.balanceAfter.value ==
                    init[e.product] + SumDelta((ledger + rows)[..i + 1], e.product)
      {
        if i < |before| {
          assert (ledger + rows)[..i + 1] == before[..i + 1];
          assert before[i] == (ledger + rows)[i];
        } else {
          assert (ledger + rows)[..i + 1] == ledger + rows;
        }
      }
    }
  }

  /** A product, or an order, the ledger does not mention has no movements. */
  lemma {:induction false} Unmentioned(ledger: seq<Entry>, o: nat, p: nat)
    ensures (forall e | e in ledger :: e.product != p) ==> SumDelta(ledger, p) == 0
    ensures (forall e | e in ledger :: e.order != o) ==> Moves(ledger, o, p) == []
  {
    if ledger != [] {
      Unmentioned(ledger[..|ledger| - 1], o, p);
      assert ledger[|ledger| - 1] in ledger;
      assert forall e | e in ledger[..|ledger| - 1] :: e in ledger;
    }
  }
}
