/** The main results: what holds in every state any interleaving of the system can reach. */
module Theorems {
  import opened Domain
  import opened Tables
  import opened Settlement
  import opened Transactions
  import opened Ledger
  import opened Quantities
  import opened Invariant
  import opened Preservation
  import opened OutboxRelay
  import opened Audit
  import opened System

  ghost predicate Reach(s: State) {
    exists relays, partitions, steps :: s == Run(Start(relays, partitions), steps)
  }

  lemma ReachedInv(s: State)
    requires Reach(s)
    ensures SysInv(s)
  {
    var relays, partitions, steps :| s == Run(Start(relays, partitions), steps);
    Reachable(relays, partitions, steps);
  }

  lemma ReachedOrder(s: State, o: nat)
    requires Reach(s) && o in s.db.orders
    ensures OrderOk(s.db, o)
  {
    ReachedInv(s);
  }

  // ---------- stock ----------

  /** No oversell: stock is never negative, and stock, held and committed quantities always add up to
      the initial stock. */
  lemma StockIsConserved(s: State, p: nat)
    requires Reach(s) && p in s.db.products
    ensures p in s.init
    ensures var held := QtyIn(s.db.orders, s.db.nextOrder, p, Held);
            var committed := QtyIn(s.db.orders, s.db.nextOrder, p, Committed);
            && s.db.products[p].stock >= 0 && held >= 0 && committed >= 0
            && s.db.products[p].stock + held + committed == s.init[p]
            && held + committed <= s.init[p]
  {
    ReachedInv(s);
    assert ProductOk(s.db, s.init, p);
    forall o, i | o in s.db.orders && 0 <= i < |s.db.orders[o].reservations|
      ensures s.db.orders[o].reservations[i].qty > 0
    {
      assert OrderOk(s.db, o);
    }
    QtyInNonNegative(s.db.orders, s.db.nextOrder, p, Held);
    QtyInNonNegative(s.db.orders, s.db.nextOrder, p, Committed);
  }

  /** The ledger replays to the stock, and every balance it records is the replayed one at its row. */
  lemma LedgerReplaysToStock(s: State)
    requires Reach(s)
    ensures forall p | p in s.db.products ::
              p in s.init && s.db.products[p].stock == s.init[p] + SumDelta(s.db.ledger, p)
    ensures forall i | 0 <= i < |s.db.ledger| && s.db.ledger[i].balanceAfter.Some? ::
              && s.db.ledger[i].product in s.init
              && s.db.ledger[i].balanceAfter.value ==
                 s.init[s.db.ledger[i].product] + SumDelta(s.db.ledger[..i + 1], s.db.ledger[i].product)
  {
    ReachedInv(s);
    forall p | p in s.db.products
      ensures p in s.init && s.db.products[p].stock == s.init[p] + SumDelta(s.db.ledger, p)
    {
      assert ProductOk(s.db, s.init, p);
    }
  }

  /** For each order and product the ledger tells one story: a hold, then at most one settlement,
      and which one is the reservation's status; a product the order does not name is not touched. */
  lemma OneSettlementPerHold(s: State, o: nat, p: nat)
    requires Reach(s) && o in s.db.orders
    ensures var rows := s.db.orders[o].reservations;
            && (forall i | 0 <= i < |rows| && rows[i].product == p :: Moves(s.db.ledger, o, p) == Account(rows[i]))
            && (!Reserves(rows, p) ==> Moves(s.db.ledger, o, p) == [])
            && |Moves(s.db.ledger, o, p)| <= 2
  {
    ReachedOrder(s, o);
    if i :| 0 <= i < |s.db.orders[o].reservations| && s.db.orders[o].reservations[i].product == p {
      assert Moves(s.db.ledger, o, p) == Account(s.db.orders[o].reservations[i]);
    }
  }

  // ---------- orders ----------

  /** The outbox spells an order's history: legal, ending at the current status, one row per version,
      never more than four. */
  lemma OutboxSpellsHistory(s: State, o: nat)
    requires Reach(s) && o in s.db.orders
    ensures var h := History(s.db.outbox, o);
            Legal(h) && h[|h| - 1] == s.db.orders[o].status && s.db.orders[o].version == |h| && |h| <= 4
  {
    ReachedOrder(s, o);
    LegalIsShort(History(s.db.outbox, o));
  }

  /** Every row of the outbox announces a status its order has entered, with the order's id and user, and
      its total when it is order.created or order.paid. */
  lemma OutboxTellsTheOrder(s: State, n: nat)
    requires Reach(s) && n < |s.db.outbox|
    ensures var row := s.db.outbox[n];
            && row.order in s.db.orders && row.typ.OrderEvent?
            && row.typ.to in History(s.db.outbox, row.order)
            && var ord, to := s.db.orders[row.order], row.typ.to;
               row.payload == Json(Payload(Some(row.order), ord.user, to,
                                           if to == PendingPayment || to == Paid then Some(ord.total) else None, None))
  {
    ReachedInv(s);
    assert RowOk(s.db, s.db.outbox[n]);
    InHistory(s.db.outbox, n);
  }

  /** All reservations of an order agree, and what they say follows from its history: held exactly
      while pending; after that committed if the first move was to paid, released otherwise. So a
      paid or fulfilled order owns its stock exactly when no payment failed before. */
  lemma ReservationsAgreeWithStatus(s: State, o: nat, i: nat)
    requires Reach(s) && o in s.db.orders && i < |s.db.orders[o].reservations|
    ensures var ord, st := s.db.orders[o], s.db.orders[o].reservations[i].status;
            && (st == Held <==> ord.status == PendingPayment)
            && (ord.status in {Cancelled, PaymentFailed} ==> st == Released)
            && (ord.status in {Paid, Fulfilled} ==>
                  (st == Committed <==> PaymentFailed !in History(s.db.outbox, o)) && st in {Committed, Released})
  {
    ReachedOrder(s, o);
    var h := History(s.db.outbox, o);
    PendingOnlyFirst(h, |h| - 1);
    SecondStatusDecides(h);
  }

  lemma SecondStatusDecides(h: seq<Status>)
    requires Legal(h)
    ensures h[|h| - 1] in {Cancelled, PaymentFailed} ==> HoldStatus(h) == Released
    ensures h[|h| - 1] in {Paid, Fulfilled} ==> (HoldStatus(h) == Committed <==> PaymentFailed !in h)
  {
    LegalIsShort(h);
    PaidMeansPaidOrFulfilled(h);
    if |h| > 1 {
      assert CanTransition(h[0], h[1]);
      if |h| > 2 {
        assert CanTransition(h[1], h[2]);
        if |h| > 3 {
          assert CanTransition(h[2], h[3]);
        }
      }
    }
  }

  /** No double charge: at most one succeeded and one failed payment, a succeeded one exactly when the
      order is paid or fulfilled (so never when cancelled), a failed one exactly when the history
      says so, and every amount is the order's total, which is its lines' total. */
  lemma NoDoubleCharge(s: State, o: nat)
    requires Reach(s) && o in s.db.orders
    ensures var ord := s.db.orders[o];
            && |KeysOf(ord.payments, Succeeded)| == (if ord.status in {Paid, Fulfilled} then 1 else 0)
            && |KeysOf(ord.payments, Failed)| == (if PaymentFailed in History(s.db.outbox, o) then 1 else 0)
            && (forall k | k in ord.payments :: ord.payments[k].amount == Total(ord.items))
    ensures forall j, k | j in s.db.orders[o].payments && k in s.db.orders[o].payments
                        && s.db.orders[o].payments[j].status == s.db.orders[o].payments[k].status :: j == k
  {
    ReachedOrder(s, o);
    var payments := s.db.orders[o].payments;
    forall j, k | j in payments && k in payments && payments[j].status == payments[k].status ensures j == k {
      var keys := KeysOf(payments, payments[j].status);
      if j != k {
        assert |{j, k}| == 2 && {j, k} <= keys;
        SubsetIsSmaller({j, k}, keys);
      }
    }
  }

  lemma {:induction false} SubsetIsSmaller<T>(a: set<T>, b: set<T>)
    requires a <= b
    ensures |a| <= |b|
  {
    assert b == a + (b - a);
  }

  // ---------- the worker ----------

  /** Any settlement event in the log, consumed now, changes nothing but the inbox. */
  lemma InventoryNeverMovesStock(s: State, q: nat, j: nat, now: nat)
    requires Reach(s) && q < |s.log| && j < |s.log[q].records|
    requires s.log[q].records[j].typ.OrderEvent? && s.log[q].records[j].typ != EVENT_ORDER_CREATED
    ensures var d, d' := s.db, RouteCommerce(s.db, s.log[q].records[j], now).db;
            d' == d.(inbox := d.inbox + {(s.log[q].records[j].id, InventoryConsumer)})
  {
    ReachedInv(s);
    var e := s.log[q].records[j];
    RecordIsAuthentic(s.db, e);
    InventoryOnlyClaims(s.db, s.init, e);
    assert RowOk(s.db, s.db.outbox[e.id.row]);
    RouteGrows(s.db, e, now);
  }

  /** Once its order.created event has been handled, an order is never pending again. */
  lemma HandledMeansNotPending(s: State, q: nat, j: nat)
    requires Reach(s) && (q, j) in s.handled
    ensures q < |s.log| && j < |s.log[q].records|
    ensures var e := s.log[q].records[j];
            e.typ == EVENT_ORDER_CREATED ==>
              && e.payload.orderId.Some? && e.payload.orderId.value in s.db.orders
              && s.db.orders[e.payload.orderId.value].status != PendingPayment
  {
    ReachedInv(s);
    var e := s.log[q].records[j];
    assert Commerced(s.db, e);
    assert EventOk(s.db, s.log[q].records[j]);
    if e.typ == EVENT_ORDER_CREATED {
      assert RowOk(s.db, s.db.outbox[e.id.row]) && ClaimOk(s.db, e.id.row);
    }
  }

  /** End-to-end quiescence: when every outbox row is marked and every log record has been handled, no
      order is pending, nothing is held, and stock and committed quantities add up to the initial
      stock. */
  lemma Quiescence(s: State)
    requires Reach(s)
    requires forall n | 0 <= n < |s.db.outbox| :: n in s.db.published
    requires forall q, j | 0 <= q < |s.log| && 0 <= j < |s.log[q].records| :: (q, j) in s.handled
    ensures forall o | o in s.db.orders ::
              s.db.orders[o].status != PendingPayment && NothingHeld(s.db.orders[o].reservations)
    ensures forall p | p in s.db.products ::
              p in s.init && s.db.products[p].stock + QtyIn(s.db.orders, s.db.nextOrder, p, Committed) == s.init[p]
  {
    ReachedInv(s);
    forall o | o in s.db.orders
      ensures s.db.orders[o].status != PendingPayment && NothingHeld(s.db.orders[o].reservations)
    {
      assert OrderOk(s.db, o);
      var n := HistoryHasRow(s.db.outbox, o, PendingPayment);
      assert InLog(s.log, n);
      var q, j :| 0 <= q < |s.log| && 0 <= j < |s.log[q].records| && s.log[q].records[j].id == Outbox(n);
      assert EventOk(s.db, s.log[q].records[j]);
      assert RowOk(s.db, s.db.outbox[n]);
      HandledMeansNotPending(s, q, j);
      HeldExactlyWhenPending(s.db, o);
    }
    forall p | p in s.db.products
      ensures p in s.init && s.db.products[p].stock + QtyIn(s.db.orders, s.db.nextOrder, p, Committed) == s.init[p]
    {
      StockIsConserved(s, p);
      NoneIn(s.db.orders, s.db.nextOrder, p);
    }
  }

  /** Whatever a consumer's crashes, every event below a committed offset whose handler never returned
      an error has its claim and is in the audit store or the dead-letter topic; only a returned
      error can let the offset pass an unhandled event. */
  lemma CommittedWasHandledOrFailed(s: State, q: nat, j: nat)
    requires Reach(s) && q < |s.log| && j < s.log[q].committed
    ensures j < |s.log[q].records| && s.log[q].committed <= |s.log[q].records|
    ensures (q, j) !in s.failed ==> (q, j) in s.handled
    ensures (q, j) in s.handled ==> Commerced(s.db, s.log[q].records[j]) && Kept(s.store, s.dead, s.log[q].records[j])
    ensures UniqueIds(s.store)
  {
    ReachedInv(s);
    assert PartitionOk(s, q);
  }

  /** The audit store tells the truth: a document with an outbox id is that row's event in every field,
      and a handled event with an outbox id is itself in the store or in the dead-letter topic. */
  lemma AuditTellsTheEvents(s: State)
    requires Reach(s)
    ensures forall e | e in s.store && e.id.Outbox? ::
              && e.id.row < |s.db.outbox|
              && var row := s.db.outbox[e.id.row];
                 row.payload.Json? && e == Event(e.id, row.typ, row.payload.payload, row.createdAt)
    ensures forall q, j | (q, j) in s.handled ::
              && q < |s.log| && j < |s.log[q].records|
              && (s.log[q].records[j].id.Outbox? ==> s.log[q].records[j] in s.store || s.log[q].records[j] in s.dead)
  {
    ReachedInv(s);
    forall e | e in s.store && e.id.Outbox?
      ensures e.id.row < |s.db.outbox| && s.db.outbox[e.id.row].payload.Json?
      ensures var row := s.db.outbox[e.id.row]; e == Event(e.id, row.typ, row.payload.payload, row.createdAt)
    {
      assert EventOk(s.db, e);
    }
  }

  /** A run whose handlers return no error is quiescent once everything is marked and committed. */
  lemma CrashesAloneLoseNothing(s: State)
    requires Reach(s) && s.failed == {}
    requires forall n | 0 <= n < |s.db.outbox| :: n in s.db.published
    requires forall q | 0 <= q < |s.log| :: s.log[q].committed == |s.log[q].records|
    ensures forall o | o in s.db.orders ::
              s.db.orders[o].status != PendingPayment && NothingHeld(s.db.orders[o].reservations)
    ensures forall q, j | 0 <= q < |s.log| && 0 <= j < |s.log[q].records| :: Kept(s.store, s.dead, s.log[q].records[j])
  {
    forall q, j | 0 <= q < |s.log| && 0 <= j < |s.log[q].records|
      ensures (q, j) in s.handled && Kept(s.store, s.dead, s.log[q].records[j])
    {
      CommittedWasHandledOrFailed(s, q, j);
    }
    Quiescence(s);
  }

  // ---------- the relays ----------

  ghost predicate Extends(d: DB, d': DB) {
    d.outbox <= d'.outbox && d.inbox <= d'.inbox && d.published <= d'.published
  }

  lemma StepExtends(s: State, st: Step)
    ensures Extends(s.db, Apply(s, st).db)
  {
    match st
    case Api(a) => ActGrows(s.db, a);
    case Redeliver(q, j, now) =>
      if q < |s.log| && j < |s.log[q].records| {
        RouteGrows(s.db, s.log[q].records[j], now);
      }
    case Route(q, commits, now) =>
      if WorkerStep(s, st) != s {
        RouteGrows(s.db, s.log[q].records[s.log[q].next], now);
      }
    case _ =>
  }

  /** Marks are never undone, outbox rows never change, and claims are never withdrawn, in any run. */
  lemma {:induction false} MarksAndClaimsStay(s: State, steps: seq<Step>)
    ensures Extends(s.db, Run(s, steps).db)
  {
    if steps != [] {
      MarksAndClaimsStay(s, steps[..|steps| - 1]);
      StepExtends(Run(s, steps[..|steps| - 1]), steps[|steps| - 1]);
    }
  }

  lemma EveryPayloadDecodes(s: State)
    requires Reach(s)
    ensures forall n | 0 <= n < |s.db.outbox| :: Decodes(s.db.outbox, n)
  {
    ReachedInv(s);
    forall n | 0 <= n < |s.db.outbox| ensures Decodes(s.db.outbox, n) {
      assert RowOk(s.db, s.db.outbox[n]);
    }
  }

  /** Every payload the outbox ever holds decodes, so the relay never skips a row and any sequence of
      full cycles with a working broker empties the outbox at 50 rows a cycle. */
  lemma OutboxDrains(s: State, batches: seq<seq<nat>>)
    requires Reach(s) && Cycles(s.db, batches)
    ensures var d' := AfterCycles(s.db, batches);
            |set n | 0 <= n < |d'.outbox| && n !in d'.published| ==
            var n := |set n | 0 <= n < |s.db.outbox| && n !in s.db.published|;
            if n <= 50 * |batches| then 0 else n - 50 * |batches|
  {
    EveryPayloadDecodes(s);
    var d' := AfterCycles(s.db, batches);
    assert OutboxRelay.Pending(s.db) == set n | 0 <= n < |s.db.outbox| && n !in s.db.published;
    assert OutboxRelay.Pending(d') == set n | 0 <= n < |d'.outbox| && n !in d'.published;
    DrainRate(s.db, batches);
  }

  // ---------- what the code does not promise ----------

  lemma ReachStep(s: State, st: Step)
    requires Reach(s)
    ensures Reach(Apply(s, st))
  {
    var relays, partitions, steps :| s == Run(Start(relays, partitions), steps);
    assert (steps + [st])[..|steps|] == steps;
    assert Apply(s, st) == Run(Start(relays, partitions), steps + [st]);
  }

  lemma {:induction false} RunConcat(s: State, first: seq<Step>, more: seq<Step>)
    ensures Run(s, first + more) == Run(Run(s, first), more)
  {
    if more == [] {
      assert first + more == first;
    } else {
      var n := |more| - 1;
      assert (first + more)[..|first + more| - 1] == first + more[..n];
      RunConcat(s, first, more[..n]);
    }
  }

  lemma RunFirst(s: State, st: Step, rest: seq<Step>)
    ensures Run(s, [st]) == Apply(s, st)
    ensures Run(s, [st] + rest) == Run(Apply(s, st), rest)
  {
    assert [st][..0] == [] && Run(s, [st]) == Apply(Run(s, [st][..0]), st);
    RunConcat(s, [st], rest);
  }

  lemma RunTwo(s: State, first: Step, second: Step)
    ensures Run(s, [first, second]) == Apply(Apply(s, first), second)
  {
    assert [first, second] == [first] + [second];
    RunFirst(s, first, [second]);
    RunFirst(Apply(s, first), second, []);
  }

  lemma {:induction false} ReachRun(s: State, steps: seq<Step>)
    requires Reach(s)
    ensures Reach(Run(s, steps))
  {
    if steps != [] {
      ReachRun(s, steps[..|steps| - 1]);
      ReachStep(Run(s, steps[..|steps| - 1]), steps[|steps| - 1]);
    }
  }

  lemma PayMoves(d: DB, o: nat, outcome: string, key: Key, now: nat)
    requires o in d.orders && KeyFits(key) && key !in d.orders[o].payments && outcome in {"fail", "success"}
    requires d.orders[o].status == PendingPayment || (d.orders[o].status == PaymentFailed && outcome == "success")
    ensures var d' := Pay(d, d.orders[o].user, o, outcome, key, now).db;
            var to := if outcome == "fail" then PaymentFailed else Paid;
            && o in d'.orders && d'.orders[o].status == to && d'.orders[o].user == d.orders[o].user
            && d'.orders[o].payments.Keys == d.orders[o].payments.Keys + {key}
            && |d'.outbox| == |d.outbox| + 1 && d.outbox <= d'.outbox
            && d'.outbox[|d.outbox|].order == o && d'.outbox[|d.outbox|].typ == OrderEvent(to)
  {
  }

  /** Paid does not always mean stocked: from any reachable pending order a failed payment and then a
      successful one with another key reach an order that is paid and holds nothing. */
  lemma RetriedPaymentOwnsNoStock(s: State, o: nat, k1: Key, k2: Key, now: nat)
    requires Reach(s) && o in s.db.orders && s.db.orders[o].status == PendingPayment
    requires KeyFits(k1) && KeyFits(k2) && k1 != k2
    ensures var user := s.db.orders[o].user;
            var failed := Apply(s, Api(DoPay(user, o, "fail", k1, now)));
            var paid := Apply(failed, Api(DoPay(user, o, "success", k2, now)));
            && Reach(paid) && o in paid.db.orders && paid.db.orders[o].status == Paid
            && forall i | 0 <= i < |paid.db.orders[o].reservations| ::
                paid.db.orders[o].reservations[i].status == Released
  {
    ReachedOrder(s, o);
    var user := s.db.orders[o].user;
    PaymentMeansNotPending(s.db, o);
    var failed := Apply(s, Api(DoPay(user, o, "fail", k1, now)));
    var paid := Apply(failed, Api(DoPay(user, o, "success", k2, now)));
    ReachStep(s, Api(DoPay(user, o, "fail", k1, now)));
    ReachStep(failed, Api(DoPay(user, o, "success", k2, now)));
    PayMoves(s.db, o, "fail", k1, now);
    PayMoves(failed.db, o, "success", k2, now);
    var n := |s.db.outbox|;
    assert paid.db.outbox[n] == failed.db.outbox[n];
    InHistory(paid.db.outbox, n);
    forall i | 0 <= i < |paid.db.orders[o].reservations| ensures paid.db.orders[o].reservations[i].status == Released {
      ReservationsAgreeWithStatus(paid, o, i);
    }
  }

  const ANSWERS := [Answers, Answers, Answers]

  lemma HandlingSucceeds(s: State, q: nat, now: nat)
    requires q < |s.log| && s.log[q].stage == Idle && s.log[q].next < |s.log[q].records|
    requires s.log[q].records[s.log[q].next].id != NoId
    requires RouteCommerce(s.db, s.log[q].records[s.log[q].next], now).result.Ok?
    ensures var audited := Apply(Apply(Apply(s, Fetch(q)), Route(q, true, now)), RecordAudit(q, ANSWERS, true));
            var s' := Apply(audited, CommitOffset(q, true));
            && q < |s'.log| && s'.log[q].committed == s.log[q].next + 1
            && s'.handled == s.handled + {(q, s.log[q].next)} && s'.failed == s.failed
  {
    assert ANSWERS[0] == Answers;
    var fetched := Apply(s, Fetch(q));
    var routed := Apply(fetched, Route(q, true, now));
    assert routed.log[q] == s.log[q].(stage := Routed);
    var audited := Apply(routed, RecordAudit(q, ANSWERS, true));
    assert audited.log[q] == s.log[q].(stage := Audited);
  }

  lemma RecordTransacts(s: State, q: nat, j: nat)
    requires Reach(s) && q < |s.log| && j < |s.log[q].records| && s.log[q].records[j].typ.OrderEvent?
    ensures Transacts(s.log[q].records[j])
  {
    ReachedInv(s);
    var e := s.log[q].records[j];
    assert EventOk(s.db, e);
    assert RowOk(s.db, s.db.outbox[e.id.row]);
  }

  /** The handler of a log record returns no error unless the database does. */
  lemma RecordRoutes(s: State, q: nat, j: nat, now: nat)
    requires Reach(s) && q < |s.log| && j < |s.log[q].records|
    ensures RouteCommerce(s.db, s.log[q].records[j], now).result.Ok?
  {
    ReachedInv(s);
    var e := s.log[q].records[j];
    if e.typ.OrderEvent? {
      assert RowOk(s.db, s.db.outbox[e.id.row]);
    }
  }
}
