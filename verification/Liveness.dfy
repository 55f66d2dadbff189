/** The system can always come to rest by itself: from any reachable state in which no event has been
    lost, relays and workers alone reach one where everything is published and handled. */
module Liveness {
  import opened Domain
  import opened Tables
  import opened Settlement
  import opened Transactions
  import opened Invariant
  import opened Preservation
  import opened Audit
  import opened System
  import opened Theorems
  import opened WorkerLoop
  import opened Losses

  // ---------- runs of relays and workers alone ----------

  /** A step of a relay or a worker; nobody calls the API, adds products or redelivers anything. */
  predicate Internal(st: Step) {
    || st.ReadBatch? || st.PublishNext? || st.MarkNext? || st.RelayStops?
    || st.Fetch? || st.Route? || st.RecordAudit? || st.CommitOffset? || st.Dies?
  }

  ghost predicate Leads(s: State, s': State) {
    exists steps :: (forall st | st in steps :: Internal(st)) && s' == Run(s, steps)
  }

  lemma LeadsBy(s: State, steps: seq<Step>)
    requires Reach(s) && forall st | st in steps :: Internal(st)
    ensures Leads(s, Run(s, steps)) && Reach(Run(s, steps))
  {
    ReachRun(s, steps);
  }

  lemma LeadsOn(s: State, s1: State, s2: State)
    requires Leads(s, s1) && Leads(s1, s2)
    ensures Leads(s, s2)
  {
    var first :| (forall st | st in first :: Internal(st)) && s1 == Run(s, first);
    var more :| (forall st | st in more :: Internal(st)) && s2 == Run(s1, more);
    RunConcat(s, first, more);
    assert forall st | st in first + more :: Internal(st);
  }

  lemma LeadsNowhere(s: State)
    ensures Leads(s, s)
  {
    assert Run(s, []) == s;
  }

  // ---------- what limits the events still to come ----------

  /** The transitions the orders below `n` have at most left. */
  function RankSum(orders: map<nat, Order>, n: nat): nat {
    if n == 0 then 0 else RankSum(orders, n - 1) + if n - 1 in orders then Rank(orders[n - 1].status) else 0
  }

  lemma {:induction false} RankSumUpdate(orders: map<nat, Order>, n: nat, o: nat, ord: Order)
    requires o in orders
    ensures RankSum(orders[o := ord], n) ==
            RankSum(orders, n) + if o < n then Rank(ord.status) - Rank(orders[o].status) else 0
  {
    if n > 0 {
      RankSumUpdate(orders, n - 1, o, ord);
    }
  }

  /** Every row a transaction enqueues has cost an order some of its rank. */
  ghost predicate Costs(d: DB, d': DB) {
    && d'.nextOrder == d.nextOrder && d'.published == d.published && d.outbox <= d'.outbox
    && RankSum(d'.orders, d.nextOrder) + |d'.outbox| <= RankSum(d.orders, d.nextOrder) + |d.outbox|
  }

  lemma AdvanceCosts(d: DB, o: nat, to: Status, pay: map<Key, Payment>, now: nat)
    requires o in d.orders && o < d.nextOrder && CanTransition(d.orders[o].status, to)
    ensures Costs(d, Advance(d, o, to, pay, now))
  {
    var d' := Advance(d, o, to, pay, now);
    assert d'.orders == d.orders[o := d'.orders[o]];
    assert Rank(to) < Rank(d.orders[o].status);
    RankSumUpdate(d.orders, d.nextOrder, o, d'.orders[o]);
  }

  lemma SettledCosts(d: DB, o: nat, to: ReservationStatus)
    ensures Costs(d, Settled(d, o, to))
  {
    if o in d.orders {
      RankSumUpdate(d.orders, d.nextOrder, o, Settled(d, o, to).orders[o]);
    }
  }

  lemma RouteCosts(d: DB, init: map<nat, int>, e: Event, now: nat)
    requires Inv(d, init)
    ensures Costs(d, RouteCommerce(d, e, now).db)
  {
    if e.typ == EVENT_ORDER_CREATED && NamesOrder(e) && (e.id, PaymentConsumer) !in d.inbox {
      var moves, o, to, pay := ChargeShape(d, e, now);
      if moves {
        AdvanceCosts(Claimed(d, e.id, PaymentConsumer), o, to, pay, now);
      }
    } else if e.payload.orderId.Some? {
      SettledCosts(Claimed(d, e.id, InventoryConsumer), e.payload.orderId.value, Committed);
      SettledCosts(Claimed(d, e.id, InventoryConsumer), e.payload.orderId.value, Released);
    }
  }

  lemma DeliveryCosts(s: State, e: Event, now: nat)
    requires Reach(s)
    ensures Costs(s.db, RouteCommerce(s.db, e, now).db)
  {
    ReachedInv(s);
    RouteCosts(s.db, s.init, e, now);
  }

  // ---------- the workers catch up ----------

  const GOOD := Turn(true, true, 0, ANSWERS, true, true)

  ghost predicate OfConsumer(st: Step, q: nat) {
    st == Fetch(q) || (st.Route? && st.q == q) || (st.RecordAudit? && st.q == q) || (st.CommitOffset? && st.q == q)
  }

  /** A consumer's steps leave the relays and the other partitions alone. */
  ghost predicate OnlyPartition(s: State, s': State, q: nat) {
    && s'.relays == s.relays && |s'.log| == |s.log|
    && forall p | 0 <= p < |s.log| && p != q :: s'.log[p] == s.log[p]
  }

  lemma ConsumerStepFrame(s: State, st: Step, q: nat)
    requires OfConsumer(st, q)
    ensures OnlyPartition(s, WorkerStep(s, st), q)
  {
  }

  lemma {:induction false} ConsumerFrame(s: State, steps: seq<Step>, q: nat)
    requires forall st | st in steps :: OfConsumer(st, q)
    ensures OnlyPartition(s, Run(s, steps), q)
  {
    if steps != [] {
      var before, st := Run(s, steps[..|steps| - 1]), steps[|steps| - 1];
      ConsumerFrame(s, steps[..|steps| - 1], q);
      assert OfConsumer(st, q);
      ConsumerStepFrame(before, st, q);
    }
  }

  /** What workers may do on their way: everything stays published and handled, and events cost rank. */
  ghost predicate Worked(s: State, s': State) {
    && Leads(s, s') && Reach(s')
    && s'.relays == s.relays && |s'.log| == |s.log|
    && (forall p | 0 <= p < |s.log| :: s'.log[p].records == s.log[p].records)
    && s.handled <= s'.handled && Costs(s.db, s'.db)
  }

  /** The partition's consumer is between two messages and has left nothing behind. */
  ghost predicate Ready(s: State, q: nat)
    requires q < |s.log|
  {
    && s.log[q].stage == Idle && s.log[q].next <= |s.log[q].records|
    && forall j: nat | j < s.log[q].next :: (q, j) in s.handled
  }

  ghost predicate CaughtUp(s: State, q: nat)
    requires q < |s.log|
  {
    Ready(s, q) && s.log[q].next == |s.log[q].records|
  }

  lemma TurnLeads(s: State, q: nat, t: Turn)
    requires Reach(s)
    ensures Leads(s, OneTurn(s, q, t)) && Reach(OneTurn(s, q, t)) && OnlyPartition(s, OneTurn(s, q, t), q)
  {
    LeadsBy(s, TurnSteps(q, t));
    ConsumerFrame(s, TurnSteps(q, t), q);
  }

  lemma GoodTurnHandles(s: State, q: nat) returns (s': State)
    requires Reach(s) && q < |s.log| && Ready(s, q) && s.log[q].next < |s.log[q].records|
    ensures Leads(s, s') && Reach(s') && OnlyPartition(s, s', q)
    ensures var part := s.log[q];
            && s'.db == RouteCommerce(s.db, part.records[part.next], GOOD.now).db
            && s'.handled == s.handled + {(q, part.next)}
            && q < |s'.log| && s'.log[q] == part.(next := part.next + 1, committed := part.next + 1)
  {
    var part := s.log[q];
    assert ANSWERS[0] == Answers;
    RecordRoutes(s, q, part.next, GOOD.now);
    assert Handled(s, part.records[part.next], GOOD).Ok?;
    OneMessage(s, q, GOOD);
    TurnLeads(s, q, GOOD);
    s' := OneTurn(s, q, GOOD);
  }

  /** With nothing failing, a record is handled in one turn. */
  lemma GoodTurn(s: State, q: nat) returns (s': State)
    requires Reach(s) && q < |s.log| && Ready(s, q) && s.log[q].next < |s.log[q].records|
    ensures Worked(s, s') && OnlyPartition(s, s', q) && Ready(s', q)
    ensures s'.log[q].next == s.log[q].next + 1
  {
    s' := GoodTurnHandles(s, q);
    DeliveryCosts(s, s.log[q].records[s.log[q].next], GOOD.now);
  }

  lemma WorkedOn(s: State, s1: State, s2: State)
    requires Worked(s, s1) && Worked(s1, s2)
    ensures Worked(s, s2)
  {
    LeadsOn(s, s1, s2);
  }

  lemma WorkedNothing(s: State)
    requires Reach(s)
    ensures Worked(s, s)
  {
    LeadsNowhere(s);
  }

  lemma {:induction false} CatchUp(s: State, q: nat) returns (s': State)
    requires Reach(s) && q < |s.log| && Ready(s, q)
    ensures Worked(s, s') && OnlyPartition(s, s', q) && CaughtUp(s', q)
    decreases |s.log[q].records| - s.log[q].next
  {
    if s.log[q].next == |s.log[q].records| {
      WorkedNothing(s);
      s' := s;
    } else {
      var s1 := GoodTurn(s, q);
      s' := CatchUp(s1, q);
      WorkedOn(s, s1, s');
    }
  }

  lemma OthersStay(s: State, s': State, q: nat, p: nat)
    requires OnlyPartition(s, s', q) && s.handled <= s'.handled && p < |s.log| && p != q && Ready(s, p)
    ensures Ready(s', p) && (CaughtUp(s, p) ==> CaughtUp(s', p))
  {
  }

  /** The consumers of the first `k` partitions catch up. */
  lemma {:induction false} AllCatchUp(s: State, k: nat) returns (s': State)
    requires Reach(s) && k <= |s.log| && forall q | 0 <= q < |s.log| :: Ready(s, q)
    ensures Worked(s, s')
    ensures forall q | 0 <= q < |s.log| :: Ready(s', q)
    ensures forall q | 0 <= q < k :: CaughtUp(s', q)
  {
    if k == 0 {
      WorkedNothing(s);
      s' := s;
    } else {
      var s1 := AllCatchUp(s, k - 1);
      s' := CatchUp(s1, k - 1);
      WorkedOn(s, s1, s');
      forall q | 0 <= q < |s.log| && q != k - 1 ensures Ready(s', q) && (CaughtUp(s1, q) ==> CaughtUp(s', q)) {
        OthersStay(s1, s', k - 1, q);
      }
    }
  }

  // ---------- a relay publishes what is pending ----------

  /** What a relay may do on its way: rows get marked, records come in, consumers do not move. */
  ghost predicate Relayed(s: State, s': State) {
    && Leads(s, s') && Reach(s')
    && |s'.relays| == |s.relays| && |s'.log| == |s.log|
    && s'.db == s.db.(published := s'.db.published) && s.db.published <= s'.db.published
    && s'.handled == s.handled
    && forall q | 0 <= q < |s.log| ::
         s'.log[q] == s.log[q].(records := s'.log[q].records) && s.log[q].records <= s'.log[q].records
  }

  lemma PublishOne(s: State, n: nat) returns (s': State)
    requires Reach(s) && |s.relays| > 0 && |s.log| > 0
    requires s.relays[0].batch == [] && n in OutboxRelay.Pending(s.db)
    ensures Relayed(s, s') && s'.relays[0].batch == [] && s'.db.published == s.db.published + {n}
  {
    EveryPayloadDecodes(s);
    var read := Apply(s, ReadBatch(0, [n]));
    var sent := Apply(read, PublishNext(0, 0));
    s' := Apply(sent, MarkNext(0));
    assert read.relays[0].batch == [n] && sent.relays[0] == read.relays[0].(sent := true);
    var steps := [ReadBatch(0, [n])] + [PublishNext(0, 0), MarkNext(0)];
    RunFirst(s, ReadBatch(0, [n]), [PublishNext(0, 0), MarkNext(0)]);
    RunTwo(read, PublishNext(0, 0), MarkNext(0));
    LeadsBy(s, steps);
  }

  lemma RelayedOn(s: State, s1: State, s2: State)
    requires Relayed(s, s1) && Relayed(s1, s2)
    ensures Relayed(s, s2)
  {
    LeadsOn(s, s1, s2);
  }

  lemma {:induction false} PublishAll(s: State) returns (s': State)
    requires Reach(s) && |s.relays| > 0 && |s.log| > 0 && s.relays[0].batch == []
    ensures Relayed(s, s') && s'.relays[0].batch == [] && OutboxRelay.Pending(s'.db) == {}
    decreases OutboxRelay.Pending(s.db)
  {
    if OutboxRelay.Pending(s.db) == {} {
      LeadsNowhere(s);
      s' := s;
    } else {
      var n :| n in OutboxRelay.Pending(s.db);
      var s1 := PublishOne(s, n);
      assert OutboxRelay.Pending(s1.db) == OutboxRelay.Pending(s.db) - {n};
      s' := PublishAll(s1);
      RelayedOn(s, s1, s');
    }
  }

  // ---------- coming to rest ----------

  /** Every outbox row is marked and every log record handled. */
  ghost predicate AtRest(s: State) {
    && (forall n | 0 <= n < |s.db.outbox| :: n in s.db.published)
    && (forall q, j | 0 <= q < |s.log| && 0 <= j < |s.log[q].records| :: (q, j) in s.handled)
  }

  /** Both sides are between two jobs: relay 0 has no batch and no consumer has left anything behind. */
  ghost predicate Rested(s: State) {
    && Reach(s) && |s.relays| > 0 && |s.log| > 0 && s.relays[0].batch == []
    && forall q | 0 <= q < |s.log| :: Ready(s, q)
  }

  /** Workers, relay, workers: everything is at rest, or some order has lost rank. */
  lemma OneRound(s: State) returns (s': State)
    requires Rested(s)
    ensures Leads(s, s') && Rested(s')
    ensures AtRest(s') || RankSum(s'.db.orders, s'.db.nextOrder) < RankSum(s.db.orders, s.db.nextOrder)
  {
    var s1 := AllCatchUp(s, |s.log|);
    var s2 := PublishAll(s1);
    forall q | 0 <= q < |s2.log| ensures Ready(s2, q) {
      assert CaughtUp(s1, q);
    }
    s' := AllCatchUp(s2, |s2.log|);
    LeadsOn(s, s1, s2);
    LeadsOn(s, s2, s');
    if |s'.db.outbox| == |s2.db.outbox| {
      AllDone(s2, s');
    }
  }

  lemma AllDone(s: State, s': State)
    requires OutboxRelay.Pending(s.db) == {} && Costs(s.db, s'.db) && |s'.db.outbox| == |s.db.outbox|
    requires forall q | 0 <= q < |s'.log| :: CaughtUp(s', q)
    ensures AtRest(s')
  {
    forall n | 0 <= n < |s'.db.outbox| ensures n in s'.db.published {
      assert n !in OutboxRelay.Pending(s.db);
    }
    forall q, j | 0 <= q < |s'.log| && 0 <= j < |s'.log[q].records| ensures (q, j) in s'.handled {
      assert CaughtUp(s', q);
    }
  }

  lemma {:induction false} ComesToRest(s: State) returns (s': State)
    requires Rested(s)
    ensures Leads(s, s') && AtRest(s')
    decreases RankSum(s.db.orders, s.db.nextOrder)
  {
    var s1 := OneRound(s);
    if AtRest(s1) {
      s' := s1;
    } else {
      s' := ComesToRest(s1);
      LeadsOn(s, s1, s');
    }
  }

  // ---------- from any reachable state ----------

  lemma Died(s: State, q: nat) returns (s': State)
    requires Reach(s) && q < |s.log|
    ensures Leads(s, s') && Reach(s')
    ensures s' == SetPartition(s, q, s.log[q].(next := s.log[q].committed, stage := Idle))
  {
    s' := Apply(s, Dies(q));
    RunFirst(s, Dies(q), []);
    LeadsBy(s, [Dies(q)]);
  }

  lemma Stopped(s: State) returns (s': State)
    requires Reach(s) && |s.relays| > 0
    ensures Leads(s, s') && Reach(s')
    ensures s' == SetRelay(s, 0, s.relays[0].(batch := [], sent := false))
  {
    s' := Apply(s, RelayStops(0));
    RunFirst(s, RelayStops(0), []);
    LeadsBy(s, [RelayStops(0)]);
  }

  /** The consumers of the first `k` partitions restart, wherever they were. */
  lemma {:induction false} Restart(s: State, k: nat) returns (s': State)
    requires Reach(s) && k <= |s.log|
    ensures Leads(s, s') && Reach(s')
    ensures s'.relays == s.relays && s'.handled == s.handled && |s'.log| == |s.log|
    ensures forall q | 0 <= q < k :: s'.log[q] == s.log[q].(next := s.log[q].committed, stage := Idle)
    ensures forall q | k <= q < |s.log| :: s'.log[q] == s.log[q]
  {
    if k == 0 {
      LeadsNowhere(s);
      s' := s;
    } else {
      var s1 := Restart(s, k - 1);
      s' := Died(s1, k - 1);
      LeadsOn(s, s1, s');
    }
  }

  /** Everybody restarts: the consumers at their committed offsets, relay 0 without a batch. */
  lemma AllRestart(s: State) returns (s': State)
    requires Reach(s) && |s.relays| > 0 && |s.log| > 0
    requires forall q: nat, j: nat :: !Lost(s, q, j)
    ensures Leads(s, s') && Rested(s')
  {
    var s1 := Restart(s, |s.log|);
    s' := Stopped(s1);
    LeadsOn(s, s1, s');
    forall q | 0 <= q < |s'.log| ensures Ready(s', q) {
      NothingLeftBehind(s, q);
    }
  }

  lemma NothingLeftBehind(s: State, q: nat)
    requires Reach(s) && q < |s.log| && forall j: nat :: !Lost(s, q, j)
    ensures s.log[q].committed <= |s.log[q].records|
    ensures forall j: nat | j < s.log[q].committed :: (q, j) in s.handled
  {
    if s.log[q].committed > 0 {
      CommittedWasHandledOrFailed(s, q, 0);
    }
    forall j: nat | j < s.log[q].committed ensures (q, j) in s.handled {
      assert !Lost(s, q, j);
    }
  }

  /** With at least one relay and one partition: from a reachable state the relays and workers can, by
      themselves and however they were interrupted, bring everything to rest if and only if no event
      behind a committed offset has been left unhandled. At rest nothing is pending or held. */
  lemma CanComeToRestIff(s: State)
    requires Reach(s) && |s.relays| > 0 && |s.log| > 0
    ensures (exists s' :: Leads(s, s') && AtRest(s')) <==> forall q: nat, j: nat :: !Lost(s, q, j)
  {
    if forall q: nat, j: nat :: !Lost(s, q, j) {
      var s1 := AllRestart(s);
      var s' := ComesToRest(s1);
      LeadsOn(s, s1, s');
    } else {
      var q: nat, j: nat :| Lost(s, q, j);
      forall s' | Leads(s, s') ensures !AtRest(s') {
        var steps :| (forall st | st in steps :: Internal(st)) && s' == Run(s, steps);
        LostForGood(s, steps, q, j);
        CommittedWasHandledOrFailed(s', q, j);
      }
    }
  }

  lemma AtRestIsQuiescent(s: State)
    requires Reach(s) && AtRest(s)
    ensures forall o | o in s.db.orders ::
              s.db.orders[o].status != PendingPayment && NothingHeld(s.db.orders[o].reservations)
  {
    Quiescence(s);
  }

  /** In particular, as long as no handler has returned an error, every interrupted system can still
      reach the state in which no order is pending and nothing is held. */
  lemma WithoutErrorsQuiescenceIsReachable(s: State)
    requires Reach(s) && |s.relays| > 0 && |s.log| > 0 && s.failed == {}
    ensures exists s' :: Leads(s, s') && AtRest(s') && Reach(s') &&
              forall o | o in s'.db.orders ::
                s'.db.orders[o].status != PendingPayment && NothingHeld(s'.db.orders[o].reservations)
  {
    forall q: nat, j: nat ensures !Lost(s, q, j) {
      if q < |s.log| && j < s.log[q].committed {
        CommittedWasHandledOrFailed(s, q, j);
      }
    }
    CanComeToRestIff(s);
    var s' :| Leads(s, s') && AtRest(s');
    var steps :| (forall st | st in steps :: Internal(st)) && s' == Run(s, steps);
    ReachRun(s, steps);
    AtRestIsQuiescent(s');
  }
}
