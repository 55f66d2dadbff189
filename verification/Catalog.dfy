/** Keyset pagination of the marketplace catalog, and walks over it while products come and go. */
module Catalog {
  import opened Tables

  const DEFAULT_LIMIT := 20
  const MAX_LIMIT := 100

  datatype Listed = Listed(id: nat, product: Product)

  datatype ListResult = ListResult(items: seq<Listed>, hasMore: bool, nextCursor: nat)

  function Clamp(limit: int): nat {
    if limit <= 0 || limit > MAX_LIMIT then DEFAULT_LIMIT else limit
  }

  /** The ids the query's conditions keep: not deleted, and below the cursor unless it is 0. */
  function Visible(products: map<nat, Product>, cursor: nat): set<nat> {
    set p | p in products && !products[p].deleted && (cursor > 0 ==> p < cursor)
  }

  /** `ids` answers ORDER BY id DESC LIMIT limit. */
  ghost predicate IsTop(products: map<nat, Product>, cursor: nat, limit: nat, ids: seq<nat>) {
    var all := Visible(products, cursor);
    && |ids| == (if |all| < limit then |all| else limit)
    && (forall i | 0 <= i < |ids| :: ids[i] in all)
    && (forall i, j | 0 <= i < j < |ids| :: ids[i] > ids[j])
    && (forall i, p | 0 <= i < |ids| && p in all && p !in ids :: ids[i] > p)
  }

  /** What a page promises: the newest visible products, no gap between them, and a cursor that
      resumes right after them exactly when there are more. */
  ghost predicate IsPage(products: map<nat, Product>, cursor: nat, limit: int, page: ListResult) {
    var all, items := Visible(products, cursor), page.items;
    && |items| == (if |all| < Clamp(limit) then |all| else Clamp(limit))
    && (forall i | 0 <= i < |items| :: items[i].id in all && items[i].product == products[items[i].id])
    && (forall i, j | 0 <= i < j < |items| :: items[i].id > items[j].id)
    && (page.hasMore <==> |all| > Clamp(limit))
    && page.nextCursor == (if page.hasMore then items[|items| - 1].id else 0)
    && (forall p | p in all && p >= page.nextCursor :: Lists(page, p))
  }

  ghost predicate Lists(page: ListResult, p: nat) {
    exists i | 0 <= i < |page.items| :: page.items[i].id == p
  }

  function Shown(products: map<nat, Product>, ids: seq<nat>): seq<Listed>
    requires forall p | p in ids :: p in products
  {
    seq(|ids|, i requires 0 <= i < |ids| => assert ids[i] in ids; Listed(ids[i], products[ids[i]]))
  }

  /** The page made of the first k of the k + 1 newest keeps every promise. */
  lemma PageIsRight(products: map<nat, Product>, cursor: nat, limit: int, models: seq<nat>)
    requires IsTop(products, cursor, Clamp(limit) + 1, models)
    ensures forall p | p in models :: p in products
    ensures var k := Clamp(limit);
            var shown := if |models| > k then models[..k] else models;
            (forall p | p in shown :: p in products) && IsPage(products, cursor, limit,
                   ListResult(Shown(products, shown), |models| > k, if |models| > k then shown[k - 1] else 0))
  {
    var k := Clamp(limit);
    var shown := if |models| > k then models[..k] else models;
    var page := ListResult(Shown(products, shown), |models| > k, if |models| > k then shown[k - 1] else 0);
    TopIsComplete(products, cursor, k, models);
    assert forall i | 0 <= i < |shown| :: shown[i] == models[i];
    forall p | p in Visible(products, cursor) && p >= page.nextCursor ensures Lists(page, p) {
      var i :| 0 <= i < |shown| && shown[i] == p;
      assert page.items[i].id == p;
    }
  }

  /** A page without the names of its sets: live products below the cursor, and there is more exactly when
      one of them is not on it. */
  lemma PageShowsLive(products: map<nat, Product>, cursor: nat, limit: int, page: ListResult)
    requires IsPage(products, cursor, limit, page)
    ensures forall i | 0 <= i < |page.items| ::
              var it := page.items[i];
              && it.id in products && !products[it.id].deleted && it.product == products[it.id]
              && (cursor == 0 || it.id < cursor)
    ensures |page.items| <= if 1 <= limit <= 100 then limit else 20
    ensures page.hasMore ==> |page.items| == if 1 <= limit <= 100 then limit else 20
    ensures forall p | p in products && !products[p].deleted && (cursor == 0 || p < cursor) && p >= page.nextCursor ::
              Lists(page, p)
    ensures page.hasMore <==>
              exists p :: p in products && !products[p].deleted && (cursor == 0 || p < cursor) && !Lists(page, p)
  {
    var all := Visible(products, cursor);
    assert forall i | 0 <= i < |page.items| :: page.items[i].id in all;
    if page.hasMore {
      MoreThanShown(all, page);
      var p :| p in all && !Lists(page, p);
      assert p in products && !products[p].deleted && (cursor == 0 || p < cursor) && !Lists(page, p);
    } else {
      assert forall p | p in all :: Lists(page, p);
    }
  }

  lemma MoreThanShown(all: set<nat>, page: ListResult)
    requires |all| > |page.items|
    ensures exists p :: p in all && !Lists(page, p)
  {
    var ids := seq(|page.items|, i requires 0 <= i < |page.items| => page.items[i].id);
    if forall p | p in all :: Lists(page, p) {
      forall p | p in all ensures p in IdSet(ids) {
        var i :| 0 <= i < |page.items| && page.items[i].id == p;
        assert ids[i] == p;
      }
      AtMostSize(ids);
      SubsetSize(all, IdSet(ids));
    }
  }

  lemma {:induction false} AtMostSize(ids: seq<nat>)
    ensures |IdSet(ids)| <= |ids|
  {
    if ids != [] {
      var n := |ids| - 1;
      AtMostSize(ids[..n]);
      assert ids == ids[..n] + [ids[n]];
      assert IdSet(ids) == IdSet(ids[..n]) + {ids[n]};
    }
  }

  lemma SubsetSize(a: set<nat>, b: set<nat>)
    requires a <= b
    ensures |a| <= |b|
  {
    assert b == a + (b - a);
  }

  class Service {
    var products: map<nat, Product>

    constructor (products: map<nat, Product>)
      ensures this.products == products
    {
      this.products := products;
    }

    method ListCatalogCursor(cursor: nat, limit: nat) returns (ids: seq<nat>)
      ensures IsTop(products, cursor, limit, ids)
    {
      var all := set p | p in products && !products[p].deleted && (cursor == 0 || p < cursor);
      assert all == Visible(products, cursor);
      var left := all;
      ids := [];
      while |ids| < limit && left != {}
        invariant left <= all && |left| + |ids| == |all| && |ids| <= limit
        invariant forall p | p in all :: p in left <==> p !in ids
        invariant forall i | 0 <= i < |ids| :: ids[i] in all
        invariant forall i, j | 0 <= i < j < |ids| :: ids[i] > ids[j]
        invariant forall i, p | 0 <= i < |ids| && p in left :: ids[i] > p
        decreases left
      {
        var most :| most in left;
        var rest := left - {most};
        while rest != {}
          invariant rest <= left && most in left
          invariant forall p | p in left && p !in rest :: p <= most
          decreases rest
        {
          var p :| p in rest;
          if p > most { most := p; }
          rest := rest - {p};
        }
        ids := ids + [most];
        left := left - {most};
      }
    }

    /** One row more than the page holds tells whether there is a next page. */
    method Catalog(cursor: nat, limit: int) returns (page: ListResult)
      ensures IsPage(products, cursor, limit, page)
      ensures forall i | 0 <= i < |page.items| ::
                var it := page.items[i];
                && it.id in products && !products[it.id].deleted && it.product == products[it.id]
                && (cursor == 0 || it.id < cursor)
      ensures |page.items| <= if 1 <= limit <= 100 then limit else 20
      ensures page.hasMore ==> |page.items| == if 1 <= limit <= 100 then limit else 20
      ensures forall p | p in products && !products[p].deleted && (cursor == 0 || p < cursor) && p >= page.nextCursor ::
                Lists(page, p)
      ensures page.hasMore <==>
                exists p :: p in products && !products[p].deleted && (cursor == 0 || p < cursor) && !Lists(page, p)
    {
      var k := if limit <= 0 || limit > MAX_LIMIT then DEFAULT_LIMIT else limit;
      var models := ListCatalogCursor(cursor, k + 1);
      var hasMore := |models| > k;
      var shown := if hasMore then models[..k] else models;
      PageIsRight(products, cursor, limit, models);
      var items := Items(shown);
      page := ListResult(items, hasMore, 0);
      if hasMore && |items| > 0 {
        page := page.(nextCursor := items[|items| - 1].id);
      }
      PageShowsLive(products, cursor, limit, page);
    }

    method Items(ids: seq<nat>) returns (items: seq<Listed>)
      requires forall p | p in ids :: p in products
      ensures items == Shown(products, ids)
    {
      items := [];
      for i := 0 to |ids|
        invariant items == Shown(products, ids[..i])
      {
        items := items + [Listed(ids[i], products[ids[i]])];
      }
      assert ids[..|ids|] == ids;
    }
  }

  /** The first k of the k + 1 newest: nothing at or above the last of them is missing. */
  lemma TopIsComplete(products: map<nat, Product>, cursor: nat, k: nat, ids: seq<nat>)
    requires k > 0 && IsTop(products, cursor, k + 1, ids)
    ensures |ids| > k <==> |Visible(products, cursor)| > k
    ensures |ids| > k ==> forall p | p in Visible(products, cursor) && p >= ids[k - 1] :: p in ids[..k]
    ensures |ids| <= k ==> forall p | p in Visible(products, cursor) :: p in ids
  {
    var all := Visible(products, cursor);
    if |ids| > k {
      forall p | p in all && p >= ids[k - 1] ensures p in ids[..k] {
        if p in ids {
          var i :| 0 <= i < |ids| && ids[i] == p;
          assert i <= k - 1;
          assert ids[..k][i] == p;
        }
      }
    } else {
      DistinctSize(ids);
      Covers(IdSet(ids), all);
    }
  }

  function IdSet(ids: seq<nat>): set<nat> {
    set p | p in ids
  }

  lemma {:induction false} DistinctSize(ids: seq<nat>)
    requires forall i, j | 0 <= i < j < |ids| :: ids[i] > ids[j]
    ensures |IdSet(ids)| == |ids|
  {
    if ids != [] {
      var n := |ids| - 1;
      DistinctSize(ids[..n]);
      assert ids == ids[..n] + [ids[n]];
      OneMore(ids[..n], ids[n]);
    }
  }

  lemma OneMore(ids: seq<nat>, p: nat)
    requires p !in ids
    ensures |IdSet(ids + [p])| == |IdSet(ids)| + 1
  {
    assert IdSet(ids + [p]) == IdSet(ids) + {p};
  }

  lemma Covers(a: set<nat>, b: set<nat>)
    requires a <= b && |a| == |b|
    ensures a == b
  {
    assert |b - a| == |b| - |a|;
  }

  // ---------- walking the pages ----------

  function Cursor(pages: seq<ListResult>, i: nat): nat
    requires i <= |pages|
  {
    if i == 0 then 0 else pages[i - 1].nextCursor
  }

  ghost predicate PageAt(tables: seq<map<nat, Product>>, limits: seq<int>, pages: seq<ListResult>, i: nat)
    requires i < |pages| == |tables| == |limits|
  {
    IsPage(tables[i], Cursor(pages, i), limits[i], pages[i])
  }

  /** Page i is read from `tables[i]`, the products at that moment, at the cursor page i - 1 returned;
      ids are positive. */
  ghost predicate Walk(tables: seq<map<nat, Product>>, limits: seq<int>, pages: seq<ListResult>) {
    && |tables| == |limits| == |pages|
    && (forall i {:trigger PageAt(tables, limits, pages, i)} | 0 <= i < |pages| :: PageAt(tables, limits, pages, i))
    && (forall i | 0 <= i < |pages| - 1 :: pages[i].hasMore)
    && (forall i, p | 0 <= i < |tables| && p in tables[i] :: p > 0)
  }

  /** Cursors strictly decrease and are never 0 while there is more. */
  lemma CursorDecreases(tables: seq<map<nat, Product>>, limits: seq<int>, pages: seq<ListResult>, i: nat)
    requires Walk(tables, limits, pages) && i < |pages| && pages[i].hasMore
    ensures 0 < pages[i].nextCursor
    ensures i > 0 ==> pages[i].nextCursor < Cursor(pages, i)
    ensures forall k | 0 <= k < |pages[i].items| :: pages[i].items[k].id >= pages[i].nextCursor
  {
    assert PageAt(tables, limits, pages, i);
    PageCursor(tables[i], Cursor(pages, i), limits[i], pages[i]);
    if i > 0 {
      CursorIsPositive(tables, limits, pages, i - 1);
    }
  }

  /** The cursor of a page is the smallest id on it. */
  lemma PageCursor(products: map<nat, Product>, cursor: nat, limit: int, page: ListResult)
    requires IsPage(products, cursor, limit, page) && page.hasMore
    ensures page.nextCursor in products && (cursor > 0 ==> page.nextCursor < cursor)
    ensures forall k | 0 <= k < |page.items| :: page.items[k].id >= page.nextCursor
  {
    var last := |page.items| - 1;
    assert page.items[last].id in Visible(products, cursor);
  }

  lemma CursorIsPositive(tables: seq<map<nat, Product>>, limits: seq<int>, pages: seq<ListResult>, i: nat)
    requires Walk(tables, limits, pages) && i < |pages| && pages[i].hasMore
    ensures 0 < pages[i].nextCursor
  {
    assert PageAt(tables, limits, pages, i);
    PageCursor(tables[i], Cursor(pages, i), limits[i], pages[i]);
  }

  /** Everything a later page shows is below the cursor an earlier page returned. */
  lemma {:induction false} LaterIsLower(tables: seq<map<nat, Product>>, limits: seq<int>, pages: seq<ListResult>,
      i: nat, j: nat)
    requires Walk(tables, limits, pages) && i < j < |pages|
    ensures forall k | 0 <= k < |pages[j].items| :: pages[j].items[k].id < pages[i].nextCursor
    ensures Cursor(pages, j) <= pages[i].nextCursor
    decreases j
  {
    assert pages[j - 1].hasMore && pages[i].hasMore;
    CursorDecreases(tables, limits, pages, j - 1);
    assert PageAt(tables, limits, pages, j);
    if i < j - 1 {
      LaterIsLower(tables, limits, pages, i, j - 1);
    }
  }

  /** A walk lists strictly decreasing ids, so nothing twice, however the products change meanwhile. */
  lemma WalkDecreases(tables: seq<map<nat, Product>>, limits: seq<int>, pages: seq<ListResult>, i: nat, k: nat,
      j: nat, l: nat)
    requires Walk(tables, limits, pages) && i < |pages| && j < |pages|
    requires k < |pages[i].items| && l < |pages[j].items|
    requires i < j || (i == j && k < l)
    ensures pages[i].items[k].id > pages[j].items[l].id
  {
    assert PageAt(tables, limits, pages, i);
    if i < j {
      assert pages[i].hasMore;
      CursorDecreases(tables, limits, pages, i);
      LaterIsLower(tables, limits, pages, i, j);
    }
  }

  /** A product alive at every page is on some page, once the walk has got below it. */
  lemma {:induction false} AliveIsListed(tables: seq<map<nat, Product>>, limits: seq<int>, pages: seq<ListResult>,
      n: nat, p: nat)
    requires Walk(tables, limits, pages) && 0 < n <= |pages|
    requires forall i | 0 <= i < n :: p in Visible(tables[i], 0)
    requires p >= Cursor(pages, n)
    ensures exists i | 0 <= i < n :: Lists(pages[i], p)
    decreases n
  {
    assert PageAt(tables, limits, pages, n - 1);
    assert p in Visible(tables[n - 1], 0);
    if n == 1 || p < Cursor(pages, n - 1) {
      assert p in Visible(tables[n - 1], Cursor(pages, n - 1));
      assert Lists(pages[n - 1], p);
    } else {
      AliveIsListed(tables, limits, pages, n - 1, p);
    }
  }

  /** A finished walk lists every product that was alive throughout, and exactly once. */
  lemma WalkIsComplete(tables: seq<map<nat, Product>>, limits: seq<int>, pages: seq<ListResult>, p: nat)
    requires Walk(tables, limits, pages) && |pages| > 0 && !pages[|pages| - 1].hasMore
    requires forall i | 0 <= i < |pages| :: p in Visible(tables[i], 0)
    ensures exists i | 0 <= i < |pages| :: Lists(pages[i], p)
    ensures forall i, k, j, l | 0 <= i < |pages| && 0 <= j < |pages| && 0 <= k < |pages[i].items|
            && 0 <= l < |pages[j].items|
                              && pages[i].items[k].id == p && pages[j].items[l].id == p :: i == j && k == l
  {
    assert PageAt(tables, limits, pages, |pages| - 1);
    AliveIsListed(tables, limits, pages, |pages|, p);
    forall i, k, j, l | 0 <= i < |pages| && 0 <= j < |pages| && 0 <= k < |pages[i].items| && 0 <= l < |pages[j].items|
                        && pages[i].items[k].id == p && pages[j].items[l].id == p
      ensures i == j && k == l
    {
      if i < j || (i == j && k < l) {
        WalkDecreases(tables, limits, pages, i, k, j, l);
      } else if j < i || l < k {
        WalkDecreases(tables, limits, pages, j, l, i, k);
      }
    }
  }

  /** Every walk ends: it has no more pages than the first cursor has ids below it, and one. */
  lemma {:induction false} WalkTerminates(tables: seq<map<nat, Product>>, limits: seq<int>, pages: seq<ListResult>,
      n: nat)
    requires Walk(tables, limits, pages) && 0 < n <= |pages|
    ensures n <= pages[0].nextCursor + 1
    ensures n > 1 ==> n - 1 + Cursor(pages, n - 1) <= pages[0].nextCursor + 1
    decreases n
  {
    if n > 1 {
      WalkTerminates(tables, limits, pages, n - 1);
      assert pages[n - 2].hasMore;
      CursorDecreases(tables, limits, pages, n - 2);
    }
  }
}
