/** CreateOrder seen from outside: when it succeeds, and what it then has done. */
module Creation {
  import opened Domain
  import opened Tables
  import opened Transactions

  /** What an order must satisfy, line by line and without any order of evaluation. */
  ghost predicate Orderable(products: map<nat, Product>, items: seq<CreateItem>) {
    && items != []
    && (forall i | 0 <= i < |items| :: LineFits(products, items[i]))
    && (forall i, j | 0 <= i < j < |items| :: items[i].product != items[j].product)
  }

  predicate LineFits(products: map<nat, Product>, it: CreateItem) {
    && it.product != 0 && it.qty > 0 && it.product in products
    && !products[it.product].deleted && products[it.product].price >= 0
    && it.qty <= products[it.product].stock
  }

  lemma {:induction false} FitsAreAccepted(products: map<nat, Product>, items: seq<CreateItem>)
    requires forall i | 0 <= i < |items| :: LineFits(products, items[i])
    requires forall i, j | 0 <= i < j < |items| :: items[i].product != items[j].product
    ensures FirstError(products, items).None?
  {
    if items != [] {
      var n := |items| - 1;
      FitsAreAccepted(products, items[..n]);
      NotOrdered(items[..n], items[n].product);
      assert LineFits(products, items[n]);
    }
  }

  lemma {:induction false} AcceptedFit(products: map<nat, Product>, items: seq<CreateItem>)
    requires FirstError(products, items).None?
    requires forall i, j | 0 <= i < j < |items| :: items[i].product != items[j].product
    requires forall i | 0 <= i < |items| && items[i].product in products :: products[items[i].product].price >= 0
    ensures forall i | 0 <= i < |items| :: LineFits(products, items[i])
  {
    if items != [] {
      var n := |items| - 1;
      AcceptedFit(products, items[..n]);
      NotOrdered(items[..n], items[n].product);
    }
  }

  /** An order is created exactly when it is orderable; otherwise every table is as it was. */
  lemma CreateAllOrNothing(d: DB, user: nat, items: seq<CreateItem>, now: nat)
    ensures CreateOrder(d, user, items, now).result.Ok? <==> Orderable(d.products, items)
    ensures CreateOrder(d, user, items, now).result.Err? ==>
              CreateOrder(d, user, items, now).db == d.(nextOrder := CreateOrder(d, user, items, now).db.nextOrder)
  {
    var lines := Lines(d.products, items);
    assert forall i | 0 <= i < |items| ::
        lines[i] == Item(items[i].product, items[i].qty, PriceOf(d.products, items[i].product));
    if Orderable(d.products, items) {
      FitsAreAccepted(d.products, items);
      forall i | 0 <= i < |lines| ensures lines[i].unitPrice >= 0 {
        assert LineFits(d.products, items[i]);
      }
    } else if CreateOrder(d, user, items, now).result.Ok? {
      AcceptedProducts(d.products, items);
      forall i, j | 0 <= i < j < |items| ensures items[i].product != items[j].product {
        assert lines[i].product != lines[j].product;
      }
      forall i | 0 <= i < |items| && items[i].product in d.products ensures d.products[items[i].product].price >= 0 {
        assert lines[i].unitPrice >= 0;
      }
      AcceptedFit(d.products, items);
      assert false;
    }
  }

  /** A created order has taken exactly each line's quantity, and records the lines at the current
      prices with their sum as its total. */
  lemma CreatedTakesEachLine(d: DB, user: nat, items: seq<CreateItem>, now: nat)
    requires Orderable(d.products, items)
    ensures var t := CreateOrder(d, user, items, now);
            && t.result == Ok(d.nextOrder) && d.nextOrder in t.db.orders && t.db.products.Keys == d.products.Keys
            && (forall i | 0 <= i < |items| ::
                  t.db.products[items[i].product] ==
                  d.products[items[i].product].(stock := d.products[items[i].product].stock - items[i].qty))
            && (forall p | p in d.products && (forall i | 0 <= i < |items| :: items[i].product != p) ::
                  t.db.products[p] == d.products[p])
            && var ord := t.db.orders[d.nextOrder];
               && |ord.items| == |items| && ord.total == Total(ord.items)
               && (forall i | 0 <= i < |items| ::
                     ord.items[i] == Item(items[i].product, items[i].qty, d.products[items[i].product].price))
  {
    CreateAllOrNothing(d, user, items, now);
    assert forall i | 0 <= i < |items| :: LineFits(d.products, items[i]);
    forall i | 0 <= i < |items| ensures Ordered(items, items[i].product) == items[i].qty {
      OrderedOnce(items, i);
    }
    forall p | p in d.products && (forall i | 0 <= i < |items| :: items[i].product != p)
      ensures Ordered(items, p) == 0 {
      NotOrdered(items, p);
    }
  }

  /** What a created order leaves in every table: the pending order with its held reservations, one hold
      in the ledger for each line with the balance right after it, and one order.created row. */
  lemma CreatedRows(d: DB, user: nat, items: seq<CreateItem>, now: nat)
    requires Orderable(d.products, items)
    ensures var t, o := CreateOrder(d, user, items, now), d.nextOrder;
            && t.result == Ok(o) && o in t.db.orders && t.db.nextOrder == o + 1
            && t.db.inbox == d.inbox && t.db.published == d.published
            && t.db.orders == d.orders[o := t.db.orders[o]]
            && var ord := t.db.orders[o];
               && ord == Order(user, PendingPayment, ord.total, 1, now, ord.items, ord.reservations, map[])
               && |ord.reservations| == |items|
               && (forall i | 0 <= i < |items| ::
                    ord.reservations[i] == Reservation(items[i].product, items[i].qty, Held))
               && t.db.outbox == d.outbox +
                  [OutboxRow(o, OrderEvent(PendingPayment),
                      Json(Payload(Some(o), user, PendingPayment, Some(ord.total), None)), now)]
    ensures var t, o := CreateOrder(d, user, items, now), d.nextOrder;
            && d.ledger <= t.db.ledger && |t.db.ledger| == |d.ledger| + |items|
            && forall i | 0 <= i < |items| ::
                 && LineFits(d.products, items[i])
                 && t.db.ledger[|d.ledger| + i] ==
                    Entry(items[i].product, o, -items[i].qty, Hold,
                        Some(d.products[items[i].product].stock - items[i].qty))
  {
    CreateAllOrNothing(d, user, items, now);
    assert forall i | 0 <= i < |items| :: LineFits(d.products, items[i]);
  }

  /** Line `k` can take its stock after the lines before it have taken theirs. */
  predicate LineTakes(products: map<nat, Product>, items: seq<CreateItem>, k: nat)
    requires k < |items|
  {
    var it := items[k];
    && it.product != 0 && it.qty > 0 && it.product in products && !products[it.product].deleted
    && it.qty <= products[it.product].stock - Ordered(items[..k], it.product)
  }

  lemma {:induction false} LinesTakeIff(products: map<nat, Product>, items: seq<CreateItem>, n: nat)
    requires n <= |items|
    ensures FirstError(products, items[..n]).None? <==> forall k | 0 <= k < n :: LineTakes(products, items, k)
  {
    if n > 0 {
      LinesTakeIff(products, items, n - 1);
      assert items[..n][..n - 1] == items[..n - 1] && items[..n][n - 1] == items[n - 1];
      assert LineTakes(products, items, n - 1) <==> LineError(products, items[..n - 1], items[n - 1]).None?;
    }
  }

  /** Which error a refused order gives: that of its first line that cannot take its stock, or, when all
      can, that of the constraint on repeated products and negative prices. */
  lemma RefusedWith(d: DB, user: nat, items: seq<CreateItem>, now: nat)
    ensures var r := CreateOrder(d, user, items, now).result;
            && (items == [] ==> r == Err(Invalid))
            && (forall k | 0 <= k < |items| && !LineTakes(d.products, items, k)
                 && (forall j | 0 <= j < k :: LineTakes(d.products, items, j)) ::
                  r == Err(if items[k].product == 0 || items[k].qty <= 0 then Invalid
                           else if items[k].product !in d.products || d.products[items[k].product].deleted then NotFound
                           else Conflict))
            && (items != [] && (forall k | 0 <= k < |items| :: LineTakes(d.products, items, k)) ==>
                 r.Ok? || r == Err(Constraint))
  {
    var r := CreateOrder(d, user, items, now).result;
    forall k | 0 <= k < |items| && !LineTakes(d.products, items, k)
        && (forall j | 0 <= j < k :: LineTakes(d.products, items, j))
      ensures r == Err(if items[k].product == 0 || items[k].qty <= 0 then Invalid
                       else if items[k].product !in d.products || d.products[items[k].product].deleted then NotFound
                       else Conflict)
    {
      LinesTakeIff(d.products, items, k);
      FirstErrorStep(d.products, items, k);
    }
    LinesTakeIff(d.products, items, |items|);
    assert items[..|items|] == items;
  }
}
