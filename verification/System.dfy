/** The whole protocol as one concurrent system: API transactions, relays, the broker's log and the
    worker, interleaved step by step. A step whose guard does not hold changes nothing. */
module System {
  import opened Domain
  import opened Tables
  import opened Transactions
  import opened Invariant
  import opened Preservation
  import opened OutboxRelay
  import opened Audit

  // ---------- state and steps ----------

  /** A relay holds the rest of the batch it read; `sent` says the first row is published but not yet
      marked; `wins` counts the marks it made. */
  datatype RelayState = RelayState(batch: seq<nat>, sent: bool, wins: nat)

  datatype Stage = Idle | Fetched | Routed | Audited

  /** One partition of the topic with its consumer: the record to fetch next, the committed offset and
      how far the handling of record `next` has got. */
  datatype Partition = Partition(records: seq<Event>, next: nat, committed: nat, stage: Stage)

  /** `init` is each product's stock when it was added; `handled` and `failed` record which log
      positions were handled without, and with, a returned error. */
  datatype State = State(
    db: DB,
    init: map<nat, int>,
    relays: seq<RelayState>,
    log: seq<Partition>,
    store: seq<Event>,
    dead: seq<Event>,
    handled: set<(nat, nat)>,
    failed: set<(nat, nat)>)

  datatype Action =
    | DoCreate(user: nat, items: seq<CreateItem>, now: nat)
    | DoCancel(user: nat, o: nat, now: nat)
    | DoExpire(o: nat, now: nat)
    | DoPay(user: nat, o: nat, outcome: string, key: Key, now: nat)
    | DoFulfill(o: nat, now: nat)

  function Act(d: DB, a: Action): DB {
    match a
    case DoCreate(user, items, now) => CreateOrder(d, user, items, now).db
    case DoCancel(user, o, now) => Cancel(d, Some(user), o, now).db
    case DoExpire(o, now) => Cancel(d, None, o, now).db
    case DoPay(user, o, outcome, key, now) => Pay(d, user, o, outcome, key, now).db
    case DoFulfill(o, now) => Fulfill(d, o, now).db
  }

  datatype Step =
    | Api(a: Action)
    | NewProduct(p: nat, price: int, stock: int)
    | RemoveProduct(p: nat)
    | ReadBatch(r: nat, rows: seq<nat>)
    | PublishNext(r: nat, q: nat)
    | MarkNext(r: nat)
    | RelayStops(r: nat)
    | PublishForeign(q: nat, e: Event)
    | Fetch(q: nat)
    | Route(q: nat, commits: bool, now: nat)
    | RecordAudit(q: nat, attempts: seq<Attempt>, dlq: bool)
    | CommitOffset(q: nat, acked: bool)
    | Dies(q: nat)
    | Redeliver(q: nat, j: nat, now: nat)

  function SetRelay(s: State, r: nat, relay: RelayState): State
    requires r < |s.relays|
  {
    s.(relays := s.relays[r := relay])
  }

  function SetPartition(s: State, q: nat, part: Partition): State
    requires q < |s.log|
  {
    s.(log := s.log[q := part])
  }

  /** The relay after its mark: a mark that finds the row marked already counts for nothing. */
  function MarkedRelay(s: State, r: nat): RelayState
    requires r < |s.relays| && s.relays[r].batch != []
  {
    var relay := s.relays[r];
    RelayState(relay.batch[1..], false, relay.wins + if relay.batch[0] in s.db.published then 0 else 1)
  }

  /** A crash, a publish that returns an error and a mark that fails all stop the cycle where it is. */
  function RelayStep(s: State, st: Step): State {
    match st
    case ReadBatch(r, rows) =>
      if r < |s.relays| && s.relays[r].batch == [] && |rows| <= BATCH_SIZE && Unsent(s.db, rows)
      then SetRelay(s, r, s.relays[r].(batch := rows, sent := false)) else s
    case PublishNext(r, q) =>
      if r < |s.relays| && s.relays[r].batch != [] && !s.relays[r].sent && q < |s.log| then
        var relay := s.relays[r];
        var n := relay.batch[0];
        if !Decodes(s.db.outbox, n) then SetRelay(s, r, relay.(batch := relay.batch[1..]))
        else
          SetPartition(SetRelay(s, r, relay.(sent := true)), q,
                       s.log[q].(records := s.log[q].records + [EventOf(s.db.outbox, n)]))
      else s
    case MarkNext(r) =>
      if r < |s.relays| && s.relays[r].batch != [] && s.relays[r].sent
      then SetRelay(s.(db := Mark(s.db, s.relays[r].batch[0])), r, MarkedRelay(s, r)) else s
    case RelayStops(r) =>
      if r < |s.relays| then SetRelay(s, r, s.relays[r].(batch := [], sent := false)) else s
    case _ => s
  }

  /** A handler error: the loop goes on to the next message without committing this one. */
  function HandlerFails(s: State, q: nat): State
    requires q < |s.log|
  {
    var part := s.log[q];
    SetPartition(s, q, part.(next := part.next + 1, stage := Idle)).(failed := s.failed + {(q, part.next)})
  }

  function WorkerStep(s: State, st: Step): State {
    match st
    case Fetch(q) =>
      if q < |s.log| && s.log[q].stage == Idle && s.log[q].next < |s.log[q].records|
      then SetPartition(s, q, s.log[q].(stage := Fetched)) else s
    case Route(q, commits, now) =>
      if q < |s.log| && s.log[q].stage == Fetched && s.log[q].next < |s.log[q].records| then
        var t := Delivered(s.db, s.log[q].records[s.log[q].next], commits, now);
        if t.result.Err? then HandlerFails(s, q)
        else SetPartition(s.(db := t.db), q, s.log[q].(stage := Routed))
      else s
    case RecordAudit(q, attempts, dlq) =>
      if q < |s.log| && s.log[q].stage == Routed && s.log[q].next < |s.log[q].records| && |attempts| == MAX_RETRIES then
        var out := HandleAudit(s.store, s.dead, s.log[q].records[s.log[q].next], attempts, dlq);
        var s' := s.(store := out.store, dead := out.dead);
        if out.result.Err? then HandlerFails(s', q) else SetPartition(s', q, s.log[q].(stage := Audited))
      else s
    case CommitOffset(q, acked) =>
      if q < |s.log| && s.log[q].stage == Audited then
        var part := s.log[q];
        SetPartition(s, q, part.(next := part.next + 1, stage := Idle,
                                 committed := if acked then part.next + 1 else part.committed))
          .(handled := s.handled + {(q, part.next)})
      else s
    case Dies(q) =>
      if q < |s.log| then SetPartition(s, q, s.log[q].(next := s.log[q].committed, stage := Idle)) else s
    case _ => s
  }

  /** One step. `Redeliver` is another consumer's handling of a record: a duplicate, late or out of
      order. `PublishForeign` is an event of another producer on the same topic, or junk. */
  function Apply(s: State, st: Step): State {
    match st
    case Api(a) => s.(db := Act(s.db, a))
    case NewProduct(p, price, stock) =>
      if p !in s.db.products && stock >= 0
      then s.(db := AddProduct(s.db, p, price, stock), init := s.init[p := stock]) else s
    case RemoveProduct(p) => s.(db := DeleteProduct(s.db, p))
    case PublishForeign(q, e) =>
      if q < |s.log| && !e.id.Outbox? && !e.typ.OrderEvent?
      then SetPartition(s, q, s.log[q].(records := s.log[q].records + [e])) else s
    case Redeliver(q, j, now) =>
      if q < |s.log| && j < |s.log[q].records| then s.(db := RouteCommerce(s.db, s.log[q].records[j], now).db) else s
    case ReadBatch(_, _) => RelayStep(s, st)
    case PublishNext(_, _) => RelayStep(s, st)
    case MarkNext(_) => RelayStep(s, st)
    case RelayStops(_) => RelayStep(s, st)
    case Fetch(_) => WorkerStep(s, st)
    case Route(_, _, _) => WorkerStep(s, st)
    case RecordAudit(_, _, _) => WorkerStep(s, st)
    case CommitOffset(_, _) => WorkerStep(s, st)
    case Dies(_) => WorkerStep(s, st)
  }

  function Run(s: State, steps: seq<Step>): State {
    if steps == [] then s else Apply(Run(s, steps[..|steps| - 1]), steps[|steps| - 1])
  }

  /** An empty database, `relays` idle relays and a topic of `partitions` empty partitions. */
  function Start(relays: nat, partitions: nat): State {
    State(DB(map[], map[], 1, [], [], {}, {}), map[],
          seq(relays, i => RelayState([], false, 0)), seq(partitions, i => Partition([], 0, 0, Idle)), [], [], {}, {})
  }

  // ---------- the invariant of the whole system ----------

  /** A log record with an outbox id is that row's event, and only the outbox publishes order events. */
  ghost predicate EventOk(d: DB, e: Event) {
    && (e.id.Outbox? ==> Decodes(d.outbox, e.id.row) && e == EventOf(d.outbox, e.id.row))
    && (e.typ.OrderEvent? ==> e.id.Outbox?)
  }

  ghost predicate LogOk(d: DB, log: seq<Partition>) {
    forall q, j {:trigger log[q].records[j]} | 0 <= q < |log| && 0 <= j < |log[q].records| ::
        EventOk(d, log[q].records[j])
  }

  ghost predicate InLog(log: seq<Partition>, n: nat) {
    exists q, j :: 0 <= q < |log| && 0 <= j < |log[q].records| && log[q].records[j].id == Outbox(n)
  }

  ghost predicate MarkedAreLogged(d: DB, log: seq<Partition>) {
    forall n | n in d.published :: InLog(log, n)
  }

  ghost predicate RelayOk(d: DB, log: seq<Partition>, relay: RelayState) {
    && (forall n | n in relay.batch :: n < |d.outbox|)
    && (relay.sent ==> relay.batch != [] && InLog(log, relay.batch[0]))
  }

  ghost predicate RelaysOk(d: DB, log: seq<Partition>, relays: seq<RelayState>) {
    forall r | 0 <= r < |relays| :: RelayOk(d, log, relays[r])
  }

  function Wins(relays: seq<RelayState>): nat {
    if relays == [] then 0 else Wins(relays[..|relays| - 1]) + relays[|relays| - 1].wins
  }

  /** The event's commerce effect has been claimed and committed. */
  ghost predicate Commerced(d: DB, e: Event) {
    e.typ.OrderEvent? ==> (e.id, if e.typ == EVENT_ORDER_CREATED then PaymentConsumer else InventoryConsumer) in d.inbox
  }

  /** The event is in the audit store or in the dead-letter topic. Of another producer's event the store
      may hold a namesake instead. */
  ghost predicate Kept(store: seq<Event>, dead: seq<Event>, e: Event) {
    e in dead || if e.id.Outbox? then e in store else Recorded(store, e.id)
  }

  /** Every audit document with an outbox id is that row's event. */
  ghost predicate StoreOk(d: DB, store: seq<Event>) {
    forall e | e in store :: EventOk(d, e)
  }

  ghost predicate HandledOk(s: State) {
    forall q, j | (q, j) in s.handled ::
      && q < |s.log| && j < |s.log[q].records|
      && Commerced(s.db, s.log[q].records[j])
      && Kept(s.store, s.dead, s.log[q].records[j])
  }

  ghost predicate PartitionOk(s: State, q: nat)
    requires q < |s.log|
  {
    var part := s.log[q];
    && part.committed <= part.next <= |part.records|
    && (forall j: nat | j < part.next :: (q, j) in s.handled || (q, j) in s.failed)
    && (part.stage != Idle ==> part.next < |part.records|)
    && (part.stage in {Routed, Audited} ==> Commerced(s.db, part.records[part.next]))
    && (part.stage == Audited ==> Kept(s.store, s.dead, part.records[part.next]))
  }

  ghost predicate ConsumersOk(s: State) {
    && HandledOk(s)
    && UniqueIds(s.store) && StoreOk(s.db, s.store)
    && forall q {:trigger PartitionOk(s, q)} | 0 <= q < |s.log| :: PartitionOk(s, q)
  }

  ghost predicate SysInv(s: State) {
    && Inv(s.db, s.init)
    && LogOk(s.db, s.log)
    && MarkedAreLogged(s.db, s.log)
    && RelaysOk(s.db, s.log, s.relays)
    && Wins(s.relays) == |s.db.published|
    && ConsumersOk(s)
  }

  // ---------- steps that change only the database ----------

  /** Transactions append to the outbox, add claims and mark nothing. */
  ghost predicate Grows(d: DB, d': DB) {
    d.outbox <= d'.outbox && d.inbox <= d'.inbox && d.published == d'.published
  }

  lemma ActGrows(d: DB, a: Action)
    ensures Grows(d, Act(d, a))
  {
  }

  lemma RouteGrows(d: DB, e: Event, now: nat)
    ensures Grows(d, RouteCommerce(d, e, now).db)
    ensures RouteCommerce(d, e, now).result.Ok? && e.id != NoId ==> Commerced(RouteCommerce(d, e, now).db, e)
  {
  }

  lemma EventOkGrows(d: DB, d': DB, e: Event)
    requires EventOk(d, e) && d.outbox <= d'.outbox
    ensures EventOk(d', e)
  {
  }

  lemma LogOkGrows(d: DB, d': DB, log: seq<Partition>)
    requires LogOk(d, log) && d.outbox <= d'.outbox
    ensures LogOk(d', log)
  {
    forall q, j | 0 <= q < |log| && 0 <= j < |log[q].records| ensures EventOk(d', log[q].records[j]) {
      EventOkGrows(d, d', log[q].records[j]);
    }
  }

  lemma RelaysOkGrows(d: DB, d': DB, log: seq<Partition>, relays: seq<RelayState>)
    requires RelaysOk(d, log, relays) && |d.outbox| <= |d'.outbox|
    ensures RelaysOk(d', log, relays)
  {
    forall r | 0 <= r < |relays| ensures RelayOk(d', log, relays[r]) {
      assert RelayOk(d, log, relays[r]);
    }
  }

  /** The consumers do not notice a change of the database or of the relays that withdraws no claim. */
  lemma ConsumersUnaffected(s: State, s': State)
    requires ConsumersOk(s) && s.db.inbox <= s'.db.inbox && s.db.outbox <= s'.db.outbox
    requires s'.log == s.log && s'.store == s.store && s'.dead == s.dead && s'.handled == s.handled
             && s'.failed == s.failed
    ensures ConsumersOk(s')
  {
    forall q | 0 <= q < |s'.log| ensures PartitionOk(s', q) {
      assert PartitionOk(s, q);
    }
    StoreOkGrows(s.db, s'.db, s.store);
  }

  lemma StoreOkGrows(d: DB, d': DB, store: seq<Event>)
    requires StoreOk(d, store) && d.outbox <= d'.outbox
    ensures StoreOk(d', store)
  {
    forall e | e in store ensures EventOk(d', e) {
      EventOkGrows(d, d', e);
    }
  }

  lemma DbStepKeeps(s: State, d': DB, init': map<nat, int>)
    requires SysInv(s) && Inv(d', init') && Grows(s.db, d')
    ensures SysInv(s.(db := d', init := init'))
  {
    LogOkGrows(s.db, d', s.log);
    RelaysOkGrows(s.db, d', s.log, s.relays);
    ConsumersUnaffected(s, s.(db := d', init := init'));
  }

  lemma ActKeepsInv(d: DB, init: map<nat, int>, a: Action)
    requires Inv(d, init)
    ensures Inv(Act(d, a), init)
  {
    match a
    case DoCreate(user, items, now) => CreateKeepsInv(d, init, user, items, now);
    case DoCancel(user, o, now) => CancelKeepsInv(d, init, Some(user), o, now);
    case DoExpire(o, now) => CancelKeepsInv(d, init, None, o, now);
    case DoPay(user, o, outcome, key, now) => PayKeepsInv(d, init, user, o, outcome, key, now);
    case DoFulfill(o, now) => FulfillKeepsInv(d, init, o, now);
  }

  lemma RecordIsAuthentic(d: DB, e: Event)
    requires OutboxOk(d) && EventOk(d, e)
    ensures Authentic(d, e)
    ensures e.typ.OrderEvent? ==> e.id.Outbox?
  {
    if e.id.Outbox? {
      assert RowOk(d, d.outbox[e.id.row]);
    }
  }

  // ---------- the broker's log and the relays ----------

  /** Appending to the log loses no record. */
  lemma LogGrows(log: seq<Partition>, q: nat, e: Event, n: nat)
    requires q < |log|
    ensures var log' := log[q := log[q].(records := log[q].records + [e])];
            && (InLog(log, n) ==> InLog(log', n))
            && (e.id == Outbox(n) ==> InLog(log', n))
  {
    var log' := log[q := log[q].(records := log[q].records + [e])];
    if InLog(log, n) {
      var q0, j0 :| 0 <= q0 < |log| && 0 <= j0 < |log[q0].records| && log[q0].records[j0].id == Outbox(n);
      assert log'[q0].records[j0].id == Outbox(n);
    }
    if e.id == Outbox(n) {
      assert log'[q].records[|log[q].records|].id == Outbox(n);
    }
  }

  lemma AppendKeeps(s: State, q: nat, e: Event)
    requires SysInv(s) && q < |s.log| && EventOk(s.db, e)
    ensures SysInv(SetPartition(s, q, s.log[q].(records := s.log[q].records + [e])))
  {
    var s' := SetPartition(s, q, s.log[q].(records := s.log[q].records + [e]));
    forall p, j | 0 <= p < |s'.log| && 0 <= j < |s'.log[p].records| ensures EventOk(s'.db, s'.log[p].records[j]) {
      if p != q || j < |s.log[q].records| {
        assert s'.log[p].records[j] == s.log[p].records[j];
      }
    }
    forall n | n in s.db.published ensures InLog(s'.log, n) {
      LogGrows(s.log, q, e, n);
    }
    forall r | 0 <= r < |s.relays| ensures RelayOk(s.db, s'.log, s.relays[r]) {
      assert RelayOk(s.db, s.log, s.relays[r]);
      if s.relays[r].sent {
        LogGrows(s.log, q, e, s.relays[r].batch[0]);
      }
    }
    forall p | 0 <= p < |s'.log| ensures PartitionOk(s', p) {
      assert PartitionOk(s, p);
    }
  }

  lemma {:induction false} WinsUpdate(relays: seq<RelayState>, r: nat, relay: RelayState)
    requires r < |relays|
    ensures Wins(relays[r := relay]) == Wins(relays) - relays[r].wins + relay.wins
  {
    var n := |relays| - 1;
    if r < n {
      assert relays[r := relay][..n] == relays[..n][r := relay];
      WinsUpdate(relays[..n], r, relay);
    } else {
      assert relays[r := relay][..n] == relays[..n];
    }
  }

  lemma RelaySet(d: DB, log: seq<Partition>, relays: seq<RelayState>, r: nat, relay: RelayState)
    requires RelaysOk(d, log, relays) && r < |relays| && RelayOk(d, log, relay)
    ensures RelaysOk(d, log, relays[r := relay])
  {
    var after := relays[r := relay];
    forall x | 0 <= x < |after| ensures RelayOk(d, log, after[x]) {
      assert x != r ==> after[x] == relays[x];
    }
  }

  lemma RelayKeeps(s: State, r: nat, relay: RelayState)
    requires SysInv(s) && r < |s.relays| && RelayOk(s.db, s.log, relay) && relay.wins == s.relays[r].wins
    ensures SysInv(SetRelay(s, r, relay))
  {
    WinsUpdate(s.relays, r, relay);
    RelaySet(s.db, s.log, s.relays, r, relay);
    ConsumersUnaffected(s, SetRelay(s, r, relay));
  }

  lemma MarkedSize(published: set<nat>, n: nat)
    ensures |published + {n}| == |published| + if n in published then 0 else 1
  {
    if n in published {
      assert published + {n} == published;
    }
  }

  /** Marking a logged row, in the database. */
  lemma MarkDbKeeps(s: State, n: nat)
    requires SysInv(s) && n < |s.db.outbox| && InLog(s.log, n)
    ensures var d' := Mark(s.db, n);
            && Inv(d', s.init) && LogOk(d', s.log) && MarkedAreLogged(d', s.log)
            && RelaysOk(d', s.log, s.relays) && ConsumersOk(s.(db := d'))
  {
    var d' := Mark(s.db, n);
    MarkKeepsInv(s.db, s.init, n);
    LogOkGrows(s.db, d', s.log);
    RelaysOkGrows(s.db, d', s.log, s.relays);
    ConsumersUnaffected(s, s.(db := d'));
  }

  lemma MarkRelayKeeps(s: State, r: nat)
    requires RelaysOk(s.db, s.log, s.relays) && Wins(s.relays) == |s.db.published|
    requires r < |s.relays| && s.relays[r].batch != []
    ensures var d' := Mark(s.db, s.relays[r].batch[0]);
            && RelaysOk(d', s.log, s.relays[r := MarkedRelay(s, r)])
            && Wins(s.relays[r := MarkedRelay(s, r)]) == |d'.published|
  {
    var relay := s.relays[r];
    var n := relay.batch[0];
    assert RelayOk(s.db, s.log, relay);
    assert forall x | x in relay.batch[1..] :: x in relay.batch;
    WinsUpdate(s.relays, r, MarkedRelay(s, r));
    MarkedSize(s.db.published, n);
    RelaysOkGrows(s.db, Mark(s.db, n), s.log, s.relays);
    RelaySet(Mark(s.db, n), s.log, s.relays, r, MarkedRelay(s, r));
  }

  lemma MarkKeeps(s: State, r: nat)
    requires SysInv(s) && r < |s.relays| && s.relays[r].batch != [] && s.relays[r].sent
    ensures SysInv(SetRelay(s.(db := Mark(s.db, s.relays[r].batch[0])), r, MarkedRelay(s, r)))
  {
    var marked := s.(db := Mark(s.db, s.relays[r].batch[0]));
    assert RelayOk(s.db, s.log, s.relays[r]);
    MarkDbKeeps(s, s.relays[r].batch[0]);
    MarkRelayKeeps(s, r);
    ConsumersUnaffected(marked, SetRelay(marked, r, MarkedRelay(s, r)));
  }

  lemma PublishKeeps(s: State, r: nat, q: nat)
    requires SysInv(s) && r < |s.relays| && s.relays[r].batch != [] && !s.relays[r].sent && q < |s.log|
    ensures SysInv(RelayStep(s, PublishNext(r, q)))
  {
    var relay := s.relays[r];
    var n := relay.batch[0];
    assert RelayOk(s.db, s.log, relay);
    if !Decodes(s.db.outbox, n) {
      assert forall x | x in relay.batch[1..] :: x in relay.batch;
      RelayKeeps(s, r, relay.(batch := relay.batch[1..]));
    } else {
      var e := EventOf(s.db.outbox, n);
      assert EventOk(s.db, e) by {
        assert RowOk(s.db, s.db.outbox[n]);
      }
      var logged := SetPartition(s, q, s.log[q].(records := s.log[q].records + [e]));
      AppendKeeps(s, q, e);
      LogGrows(s.log, q, e, n);
      RelayKeeps(logged, r, relay.(sent := true));
    }
  }

  lemma RelayStepKeeps(s: State, st: Step)
    requires SysInv(s)
    ensures SysInv(RelayStep(s, st))
  {
    match st
    case ReadBatch(r, rows) =>
      if RelayStep(s, st) != s {
        RelayKeeps(s, r, s.relays[r].(batch := rows, sent := false));
      }
    case PublishNext(r, q) =>
      if r < |s.relays| && s.relays[r].batch != [] && !s.relays[r].sent && q < |s.log| {
        PublishKeeps(s, r, q);
      }
    case MarkNext(r) =>
      if r < |s.relays| && s.relays[r].batch != [] && s.relays[r].sent {
        MarkKeeps(s, r);
      }
    case RelayStops(r) =>
      if r < |s.relays| {
        RelayKeeps(s, r, s.relays[r].(batch := [], sent := false));
      }
    case _ =>
  }

  // ---------- the worker ----------

  /** A consumer step: the partition's bookkeeping moves, the database and the audit sinks may grow. */
  lemma ConsumerKeeps(s: State, s': State, q: nat)
    requires SysInv(s) && q < |s.log|
    requires s' == s.(db := s'.db, log := s'.log, store := s'.store, dead := s'.dead, handled := s'.handled,
             failed := s'.failed)
    requires Inv(s'.db, s.init) && Grows(s.db, s'.db)
    requires UniqueIds(s'.store) && StoreOk(s'.db, s'.store) && s.store <= s'.store && s.dead <= s'.dead
    requires s.handled <= s'.handled && s.failed <= s'.failed
    requires |s'.log| == |s.log| && s'.log[q].records == s.log[q].records
    requires forall p | 0 <= p < |s.log| && p != q :: s'.log[p] == s.log[p]
    requires PartitionOk(s', q)
    requires forall p, j | (p, j) in s'.handled - s.handled ::
               && p == q && j < |s.log[q].records|
               && Commerced(s'.db, s.log[q].records[j]) && Kept(s'.store, s'.dead, s.log[q].records[j])
    ensures SysInv(s')
  {
    forall p, j | 0 <= p < |s'.log| && 0 <= j < |s'.log[p].records| ensures EventOk(s'.db, s'.log[p].records[j]) {
      assert s'.log[p].records[j] == s.log[p].records[j];
      EventOkGrows(s.db, s'.db, s.log[p].records[j]);
    }
    forall n | n in s'.db.published ensures InLog(s'.log, n) {
      SameRecords(s.log, s'.log, n);
    }
    forall r | 0 <= r < |s.relays| ensures RelayOk(s'.db, s'.log, s.relays[r]) {
      assert RelayOk(s.db, s.log, s.relays[r]);
      if s.relays[r].sent {
        SameRecords(s.log, s'.log, s.relays[r].batch[0]);
      }
    }
    forall p | 0 <= p < |s'.log| ensures PartitionOk(s', p) {
      assert PartitionOk(s, p);
      if p != q && s.log[p].stage == Audited {
        KeptGrows(s.store, s'.store, s.dead, s'.dead, s.log[p].records[s.log[p].next]);
      }
    }
    forall p, j | (p, j) in s'.handled
      ensures p < |s'.log| && j < |s'.log[p].records|
      ensures Commerced(s'.db, s'.log[p].records[j]) && Kept(s'.store, s'.dead, s'.log[p].records[j])
    {
      if (p, j) in s.handled {
        KeptGrows(s.store, s'.store, s.dead, s'.dead, s.log[p].records[j]);
      }
    }
  }

  lemma KeptGrows(store: seq<Event>, store': seq<Event>, dead: seq<Event>, dead': seq<Event>, e: Event)
    requires Kept(store, dead, e) && store <= store' && dead <= dead'
    ensures Kept(store', dead', e)
  {
    if Recorded(store, e.id) {
      var i :| 0 <= i < |store| && store[i].id == e.id;
      assert store'[i].id == e.id;
    }
  }

  lemma SameRecords(log: seq<Partition>, log': seq<Partition>, n: nat)
    requires InLog(log, n) && |log| == |log'|
    requires forall p | 0 <= p < |log| :: log'[p].records == log[p].records
    ensures InLog(log', n)
  {
    var q, j :| 0 <= q < |log| && 0 <= j < |log[q].records| && log[q].records[j].id == Outbox(n);
    assert log'[q].records[j].id == Outbox(n);
  }

  lemma RouteKeeps(s: State, q: nat, commits: bool, now: nat)
    requires SysInv(s)
    ensures SysInv(WorkerStep(s, Route(q, commits, now)))
  {
    var s' := WorkerStep(s, Route(q, commits, now));
    if s' != s {
      assert PartitionOk(s, q);
      DeliveryKeeps(s, q, s.log[q].next, now);
      ConsumerKeeps(s, s', q);
    }
  }

  /** Delivering a record of the log, in the database. */
  lemma DeliveryKeeps(s: State, q: nat, j: nat, now: nat)
    requires SysInv(s) && q < |s.log| && j < |s.log[q].records|
    ensures var t, e := RouteCommerce(s.db, s.log[q].records[j], now), s.log[q].records[j];
            && Inv(t.db, s.init) && Grows(s.db, t.db) && StoreOk(t.db, s.store)
            && (t.result.Ok? && e.id != NoId ==> Commerced(t.db, e))
            && (e.id == NoId ==> !e.typ.OrderEvent?)
  {
    var e := s.log[q].records[j];
    RecordIsAuthentic(s.db, e);
    RouteCommerceKeepsInv(s.db, s.init, e, now);
    RouteGrows(s.db, e, now);
    StoreOkGrows(s.db, RouteCommerce(s.db, e, now).db, s.store);
  }

  /** What is audited is the event itself: two documents with one outbox id are equal. */
  lemma AuditKeepsTheEvent(d: DB, store: seq<Event>, dead: seq<Event>, e: Event, attempts: seq<Attempt>, dlq: bool)
    requires StoreOk(d, store) && EventOk(d, e)
    ensures var out := HandleAudit(store, dead, e, attempts, dlq);
            StoreOk(d, out.store) && (out.result.Ok? ==> Kept(out.store, out.dead, e))
  {
    if i :| 0 <= i < |store| && store[i].id == e.id {
      assert store[i] in store;
    }
    InsertedTwice(store, e);
  }

  lemma AuditKeeps(s: State, q: nat, attempts: seq<Attempt>, dlq: bool)
    requires SysInv(s)
    ensures SysInv(WorkerStep(s, RecordAudit(q, attempts, dlq)))
  {
    var s' := WorkerStep(s, RecordAudit(q, attempts, dlq));
    if s' != s {
      assert PartitionOk(s, q);
      AuditedOnce(s.store, s.dead, s.log[q].records[s.log[q].next], attempts, dlq);
      AuditKeepsTheEvent(s.db, s.store, s.dead, s.log[q].records[s.log[q].next], attempts, dlq);
      ConsumerKeeps(s, s', q);
    }
  }

  lemma FetchKeeps(s: State, q: nat)
    requires SysInv(s)
    ensures SysInv(WorkerStep(s, Fetch(q)))
  {
    if WorkerStep(s, Fetch(q)) != s {
      assert PartitionOk(s, q);
      ConsumerKeeps(s, WorkerStep(s, Fetch(q)), q);
    }
  }

  lemma CommitKeeps(s: State, q: nat, acked: bool)
    requires SysInv(s)
    ensures SysInv(WorkerStep(s, CommitOffset(q, acked)))
  {
    if WorkerStep(s, CommitOffset(q, acked)) != s {
      assert PartitionOk(s, q);
      ConsumerKeeps(s, WorkerStep(s, CommitOffset(q, acked)), q);
    }
  }

  lemma DiesKeeps(s: State, q: nat)
    requires SysInv(s)
    ensures SysInv(WorkerStep(s, Dies(q)))
  {
    if WorkerStep(s, Dies(q)) != s {
      assert PartitionOk(s, q);
      ConsumerKeeps(s, WorkerStep(s, Dies(q)), q);
    }
  }

  lemma WorkerStepKeeps(s: State, st: Step)
    requires SysInv(s)
    ensures SysInv(WorkerStep(s, st))
  {
    match st
    case Fetch(q) => FetchKeeps(s, q);
    case Route(q, commits, now) => RouteKeeps(s, q, commits, now);
    case RecordAudit(q, attempts, dlq) => AuditKeeps(s, q, attempts, dlq);
    case CommitOffset(q, acked) => CommitKeeps(s, q, acked);
    case Dies(q) => DiesKeeps(s, q);
    case _ =>
  }

  // ---------- every run ----------

  lemma ActKeeps(s: State, a: Action)
    requires SysInv(s)
    ensures SysInv(s.(db := Act(s.db, a)))
  {
    ActKeepsInv(s.db, s.init, a);
    ActGrows(s.db, a);
    DbStepKeeps(s, Act(s.db, a), s.init);
  }

  lemma ProductStepKeeps(s: State, st: Step)
    requires SysInv(s) && (st.NewProduct? || st.RemoveProduct?)
    ensures SysInv(Apply(s, st))
  {
    match st
    case NewProduct(p, price, stock) =>
      if p !in s.db.products && stock >= 0 {
        AddProductKeepsInv(s.db, s.init, p, price, stock);
        DbStepKeeps(s, AddProduct(s.db, p, price, stock), s.init[p := stock]);
      }
    case RemoveProduct(p) =>
      DeleteProductKeepsInv(s.db, s.init, p);
      DbStepKeeps(s, DeleteProduct(s.db, p), s.init);
  }

  lemma StepKeeps(s: State, st: Step)
    requires SysInv(s)
    ensures SysInv(Apply(s, st))
  {
    match st
    case Api(a) => ActKeeps(s, a);
    case NewProduct(_, _, _) => ProductStepKeeps(s, st);
    case RemoveProduct(_) => ProductStepKeeps(s, st);
    case PublishForeign(q, e) =>
      if q < |s.log| && !e.id.Outbox? && !e.typ.OrderEvent? {
        AppendKeeps(s, q, e);
      }
    case Redeliver(q, j, now) =>
      if q < |s.log| && j < |s.log[q].records| {
        DeliveryKeeps(s, q, j, now);
        DbStepKeeps(s, RouteCommerce(s.db, s.log[q].records[j], now).db, s.init);
      }
    case ReadBatch(_, _) => RelayStepKeeps(s, st);
    case PublishNext(_, _) => RelayStepKeeps(s, st);
    case MarkNext(_) => RelayStepKeeps(s, st);
    case RelayStops(_) => RelayStepKeeps(s, st);
    case Fetch(_) => WorkerStepKeeps(s, st);
    case Route(_, _, _) => WorkerStepKeeps(s, st);
    case RecordAudit(_, _, _) => WorkerStepKeeps(s, st);
    case CommitOffset(_, _) => WorkerStepKeeps(s, st);
    case Dies(_) => WorkerStepKeeps(s, st);
  }

  lemma {:induction false} NoWins(relays: nat)
    ensures Wins(seq(relays, i => RelayState([], false, 0))) == 0
  {
    if relays > 0 {
      assert seq(relays, i => RelayState([], false, 0))[..relays - 1] == seq(relays - 1, i => RelayState([], false, 0));
      NoWins(relays - 1);
    }
  }

  lemma StartOk(relays: nat, partitions: nat)
    ensures SysInv(Start(relays, partitions))
  {
    NoWins(relays);
  }

  /** The invariant holds in every reachable state of the system. */
  lemma {:induction false} Reachable(relays: nat, partitions: nat, steps: seq<Step>)
    ensures SysInv(Run(Start(relays, partitions), steps))
  {
    if steps == [] {
      StartOk(relays, partitions);
    } else {
      Reachable(relays, partitions, steps[..|steps| - 1]);
      StepKeeps(Run(Start(relays, partitions), steps[..|steps| - 1]), steps[|steps| - 1]);
    }
  }
}
