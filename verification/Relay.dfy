/** The outbox relay: one cycle as the code runs it, and what cycles add up to. */
module OutboxRelay {
  import opened Tables

  const BATCH_SIZE := 50

  /** The rows whose published_at is still null. */
  function Pending(d: DB): set<nat> {
    set n | 0 <= n < |d.outbox| && n !in d.published
  }

  /** `rows` answers the relay's query: as many pending rows as the limit allows, oldest first. Rows of
      equal age may come in any order. */
  ghost predicate IsBatch(d: DB, rows: seq<nat>, limit: nat) {
    && |rows| == (if |Pending(d)| < limit then |Pending(d)| else limit)
    && Unsent(d, rows)
    && (forall i, j | 0 <= i < j < |rows| :: d.outbox[rows[i]].createdAt <= d.outbox[rows[j]].createdAt)
    && (forall i, n | 0 <= i < |rows| && n in Pending(d) && n !in rows ::
         d.outbox[rows[i]].createdAt <= d.outbox[n].createdAt)
  }

  predicate Decodes(outbox: seq<OutboxRow>, n: nat) {
    n < |outbox| && Unmarshal(outbox[n].payload).Some?
  }

  /** The event a row that decodes is published as. */
  function EventOf(outbox: seq<OutboxRow>, n: nat): Event
    requires Decodes(outbox, n)
  {
    Event(Outbox(n), outbox[n].typ, Unmarshal(outbox[n].payload).value, outbox[n].createdAt)
  }

  /** What the turn of row `n` publishes if the broker works. */
  function EventsOf(outbox: seq<OutboxRow>, n: nat): seq<Event> {
    if Decodes(outbox, n) then [EventOf(outbox, n)] else []
  }

  /** The rows of a batch that are not skipped. */
  function Decodable(outbox: seq<OutboxRow>, rows: seq<nat>): (r: seq<nat>)
    ensures forall i | 0 <= i < |r| :: r[i] in rows && Decodes(outbox, r[i])
  {
    if rows == [] then []
    else
      var last := rows[|rows| - 1];
      Decodable(outbox, rows[..|rows| - 1]) + if Decodes(outbox, last) then [last] else []
  }

  /** The events a cycle over `rows` publishes, in order. */
  function Sent(outbox: seq<OutboxRow>, rows: seq<nat>): seq<Event> {
    var sent := Decodable(outbox, rows);
    seq(|sent|, i requires 0 <= i < |sent| => EventOf(outbox, sent[i]))
  }

  predicate Unsent(d: DB, rows: seq<nat>) {
    && (forall i | 0 <= i < |rows| :: rows[i] in Pending(d))
    && (forall i, j | 0 <= i < j < |rows| :: rows[i] != rows[j])
  }

  /** The first of the first `n` rows whose publish fails, or n; `works[i]` is the broker's answer for
      row i. */
  function StopsAt(outbox: seq<OutboxRow>, rows: seq<nat>, works: seq<bool>, n: nat): (k: nat)
    requires n <= |rows| && n <= |works|
    ensures k <= n
    ensures forall i | 0 <= i < k :: works[i] || !Decodes(outbox, rows[i])
    ensures k < n ==> !works[k] && Decodes(outbox, rows[k])
  {
    if n == 0 then 0
    else
      var k := StopsAt(outbox, rows, works, n - 1);
      if k < n - 1 then k else if works[n - 1] || !Decodes(outbox, rows[n - 1]) then n else n - 1
  }

  function ToSet(rows: seq<nat>): set<nat> {
    set n | n in rows
  }

  /** The database after a cycle over `rows` with a working broker. */
  function Cycle(d: DB, rows: seq<nat>): DB {
    d.(published := d.published + ToSet(Decodable(d.outbox, rows)))
  }

  /** `topic` holds the events this relay has published. */
  class Relay {
    const db: Postgres
    var topic: seq<Event>

    constructor (db: Postgres)
      ensures this.db == db && topic == []
    {
      this.db := db;
      topic := [];
    }

    /** SELECT ... WHERE published_at IS NULL ORDER BY created_at LIMIT limit */
    method FindPending(limit: nat) returns (rows: seq<nat>)
      ensures IsBatch(db.Snapshot(), rows, limit)
      ensures forall i | 0 <= i < |rows| :: rows[i] < |db.outbox| && rows[i] !in db.published
    {
      var d := db.Snapshot();
      var left := Pending(d);
      rows := [];
      while |rows| < limit && left != {}
        invariant left <= Pending(d) && |left| + |rows| == |Pending(d)| && |rows| <= limit
        invariant forall n | n in Pending(d) :: n in left <==> n !in rows
        invariant forall i | 0 <= i < |rows| :: rows[i] in Pending(d)
        invariant forall i, j | 0 <= i < j < |rows| :: rows[i] != rows[j]
        invariant forall i, j | 0 <= i < j < |rows| :: d.outbox[rows[i]].createdAt <= d.outbox[rows[j]].createdAt
        invariant forall i, n | 0 <= i < |rows| && n in left :: d.outbox[rows[i]].createdAt <= d.outbox[n].createdAt
        decreases left
      {
        var oldest := Oldest(left);
        rows := rows + [oldest];
        left := left - {oldest};
      }
    }

    method Oldest(from: set<nat>) returns (oldest: nat)
      requires from != {} && forall n | n in from :: n < |db.outbox|
      ensures oldest in from && forall n | n in from :: db.outbox[oldest].createdAt <= db.outbox[n].createdAt
    {
      oldest :| oldest in from;
      var rest := from - {oldest};
      while rest != {}
        invariant rest <= from && oldest in from
        invariant forall n | n in from && n !in rest :: db.outbox[oldest].createdAt <= db.outbox[n].createdAt
        decreases rest
      {
        var n :| n in rest;
        if db.outbox[n].createdAt < db.outbox[oldest].createdAt { oldest := n; }
        rest := rest - {n};
      }
    }

    /** Publish to the broker: an acknowledged event is in the topic. */
    method Publish(e: Event, works: bool) returns (ok: bool)
      modifies this`topic
      ensures ok == works && topic == if works then old(topic) + [e] else old(topic)
    {
      ok := works;
      if works { topic := topic + [e]; }
    }

    /** UPDATE outbox_events SET published_at = now WHERE id = n AND published_at IS NULL */
    method Mark(n: nat) returns (rowsAffected: nat)
      modifies db`published
      ensures rowsAffected == (if n in old(db.published) then 0 else 1)
      ensures db.published == old(db.published) + {n}
    {
      rowsAffected := if n in db.published then 0 else 1;
      db.published := db.published + {n};
    }

    /** Other relays mark rows `ns`. */
    method OthersMark(ns: set<nat>)
      modifies db`published
      ensures db.published == old(db.published) + ns
    {
      db.published := db.published + ns;
    }

    /** The body of the loop: `ok` is false when the publish failed; a row that another relay has marked
        meanwhile is published all the same and not counted. */
    method PublishRow(n: nat, works: bool, others: set<nat>, ghost race: Race) returns (ok: bool, won: nat)
      requires n < |db.outbox| && db.published == race.marks
      modifies this`topic, db`published
      ensures ok <==> works || !Decodes(db.outbox, n)
      ensures topic == if ok then old(topic) + EventsOf(db.outbox, n) else old(topic)
      ensures !ok ==> db.published == race.marks + others
      ensures ok ==>
                var race' := RaceTurn(race, others, n, Decodes(db.outbox, n));
                db.published == race'.marks && race.won + won == race'.won
    {
      ok, won := true, 0;
      OthersMark(others);
      var payload := Unmarshal(db.outbox[n].payload);
      if payload.None? { return; }
      ok := Publish(Event(Outbox(n), db.outbox[n].typ, payload.value, db.outbox[n].createdAt), works);
      if !ok { return; }
      var rowsAffected := Mark(n);
      won := rowsAffected;
    }

    /** The cycle's loop over the rows the query returned, some of which other relays may have marked
        already; at turn `i` they mark `others[i]`. */
    method PublishRows(batch: seq<nat>, works: seq<bool>, others: seq<set<nat>>) returns (published: nat, err: bool)
      requires |works| >= |others| == |batch| && forall n | n in batch :: n < |db.outbox|
      modifies this`topic, db`published
      ensures var k := StopsAt(db.outbox, batch, works, |batch|);
              var race := RaceAt(old(db.published), db.outbox, batch, others, k);
              && topic == old(topic) + Sent(db.outbox, batch[..k])
              && db.published == race.marks + (if k < |batch| then others[k] else {})
              && published == race.won && (err <==> k < |batch|)
      ensures Quiet(others) ==> published == |db.published| - |old(db.published)|
    {
      ghost var k := StopsAt(db.outbox, batch, works, |batch|);
      CountAddsUp(db.published, db.outbox, batch, others, k);
      ghost var was := db.published;
      published, err := 0, false;
      assert Sent(db.outbox, batch[..0]) == [];
      for i := 0 to |batch|
        invariant topic == old(topic) + Sent(db.outbox, batch[..i])
        invariant var race := RaceAt(was, db.outbox, batch, others, i);
                  db.published == race.marks && published == race.won
        invariant StopsAt(db.outbox, batch, works, i) == i
      {
        assert batch[i] in batch;
        FirstFailureStops(db.outbox, batch, works, i + 1, |batch|);
        TopicStep(old(topic), db.outbox, batch, i);
        ghost var race := RaceAt(was, db.outbox, batch, others, i);
        var ok, won := PublishRow(batch[i], works[i], others[i], race);
        if !ok {
          err := true;
          return;
        }
        published := published + won;
      }
    }

    /** One cycle. The rows before the first failed publish are in the topic, in order, and marked; the
        count is the marks this relay won. `broker[i]` is the broker's answer should the i-th row be
        published, `others[i]` what other relays mark meanwhile. */
    method RelayOnce(broker: seq<bool>, others: seq<set<nat>>)
      returns (published: nat, err: bool, ghost rows: seq<nat>)
      requires |broker| >= BATCH_SIZE && |others| >= BATCH_SIZE
      modifies this`topic, db`published
      ensures IsBatch(old(db.Snapshot()), rows, 50)
      ensures var k := StopsAt(db.outbox, rows, broker, |rows|);
              var race := RaceAt(old(db.published), db.outbox, rows, others[..|rows|], k);
              && topic == old(topic) + Sent(db.outbox, rows[..k])
              && db.published == race.marks + (if k < |rows| then others[k] else {})
              && published == race.won && (err <==> k < |rows|)
      ensures var k := StopsAt(db.outbox, rows, broker, |rows|);
              Quiet(others) ==>
                && db.Snapshot() == Cycle(old(db.Snapshot()), rows[..k])
                && published == |Sent(db.outbox, rows[..k])| == |db.published| - |old(db.published)|
    {
      var batch := FindPending(BATCH_SIZE);
      rows := batch;
      published, err := PublishRows(batch, broker, others[..|batch|]);
      ghost var k := StopsAt(db.outbox, batch, broker, |batch|);
      if Quiet(others) {
        assert Quiet(others[..|batch|]);
        Alone(old(db.Snapshot()), batch, others[..|batch|], k);
        CountAddsUp(old(db.published), db.outbox, batch, others[..|batch|], k);
      }
    }
  }

  // ---------- one turn of the cycle's loop ----------

  /** The marks found so far, and how many of them this relay has won: a mark is won if the row was not
      marked before. */
  datatype Race = Race(marks: set<nat>, won: nat)

  /** A turn in which the others mark `ns` and then this relay, if it published it, row `n`. */
  function RaceTurn(r: Race, ns: set<nat>, n: nat, published: bool): Race {
    var found := r.marks + ns;
    Race(found + if published then {n} else {}, r.won + if published && n !in found then 1 else 0)
  }

  /** The race after `i` turns. */
  function RaceAt(was: set<nat>, outbox: seq<OutboxRow>, batch: seq<nat>, others: seq<set<nat>>, i: nat): Race
    requires i <= |batch| == |others|
  {
    if i == 0 then Race(was, 0)
    else RaceTurn(RaceAt(was, outbox, batch, others, i - 1), others[i - 1], batch[i - 1], Decodes(outbox, batch[i - 1]))
  }

  /** The marks the others have won. */
  function WonByOthers(was: set<nat>, outbox: seq<OutboxRow>, batch: seq<nat>, others: seq<set<nat>>, i: nat): int
    requires i <= |batch| == |others|
  {
    if i == 0 then 0
    else
      WonByOthers(was, outbox, batch, others, i - 1) +
      Gained(RaceAt(was, outbox, batch, others, i - 1), others[i - 1])
  }

  function Gained(r: Race, ns: set<nat>): int {
    |r.marks + ns| - |r.marks|
  }

  /** The marks that nobody has been credited with. */
  function Uncredited(r: Race): int {
    |r.marks| - r.won
  }

  lemma TurnAddsUp(r: Race, ns: set<nat>, n: nat, published: bool)
    ensures Uncredited(RaceTurn(r, ns, n, published)) == Uncredited(r) + Gained(r, ns)
  {
    var found := r.marks + ns;
    if published && n in found {
      assert found + {n} == found;
    }
    assert found + {} == found;
  }

  lemma UncreditedStep(was: set<nat>, outbox: seq<OutboxRow>, batch: seq<nat>, others: seq<set<nat>>, i: nat)
    requires 0 < i <= |batch| == |others|
    ensures Uncredited(RaceAt(was, outbox, batch, others, i)) ==
            Uncredited(RaceAt(was, outbox, batch, others, i - 1)) +
            Gained(RaceAt(was, outbox, batch, others, i - 1), others[i - 1])
  {
    TurnAddsUp(RaceAt(was, outbox, batch, others, i - 1), others[i - 1], batch[i - 1], Decodes(outbox, batch[i - 1]));
  }

  /** The marks are those found at first and those that each side has won: no race is counted twice. */
  lemma {:induction false} MarksAddUp(was: set<nat>, outbox: seq<OutboxRow>, batch: seq<nat>, others: seq<set<nat>>,
      i: nat)
    requires i <= |batch| == |others|
    ensures Uncredited(RaceAt(was, outbox, batch, others, i)) == |was| + WonByOthers(was, outbox, batch, others, i)
  {
    if i > 0 {
      MarksAddUp(was, outbox, batch, others, i - 1);
      UncreditedStep(was, outbox, batch, others, i);
    }
  }

  /** No other relay marks anything. */
  predicate Quiet(others: seq<set<nat>>) {
    forall i | 0 <= i < |others| :: others[i] == {}
  }

  lemma {:induction false} QuietOthersWinNothing(was: set<nat>, outbox: seq<OutboxRow>, batch: seq<nat>,
      others: seq<set<nat>>, i: nat)
    requires i <= |batch| == |others| && Quiet(others)
    ensures WonByOthers(was, outbox, batch, others, i) == 0
  {
    if i > 0 {
      QuietOthersWinNothing(was, outbox, batch, others, i - 1);
      var r := RaceAt(was, outbox, batch, others, i - 1);
      assert r.marks + others[i - 1] == r.marks;
    }
  }

  /** The count of a cycle that ends at row `k`, the others' last marks included. */
  lemma CountAddsUp(was: set<nat>, outbox: seq<OutboxRow>, batch: seq<nat>, others: seq<set<nat>>, k: nat)
    requires k <= |batch| == |others|
    ensures var r := RaceAt(was, outbox, batch, others, k);
            Quiet(others) ==> r.won == |r.marks + if k < |batch| then others[k] else {}| - |was|
  {
    if Quiet(others) {
      MarksAddUp(was, outbox, batch, others, k);
      QuietOthersWinNothing(was, outbox, batch, others, k);
      var r := RaceAt(was, outbox, batch, others, k);
      assert r.marks + {} == r.marks;
    }
  }

  lemma QuietTurn(r: Race, n: nat, published: bool)
    requires published ==> n !in r.marks
    ensures RaceTurn(r, {}, n, published) ==
            if published then Race(r.marks + {n}, r.won + 1) else r
  {
    assert r.marks + {} == r.marks;
  }

  /** With no other relay at work, a cycle over fresh rows wins every mark. */
  lemma {:induction false} Alone(d: DB, batch: seq<nat>, others: seq<set<nat>>, i: nat)
    requires i <= |batch| == |others| && Unsent(d, batch) && Quiet(others)
    ensures RaceAt(d.published, d.outbox, batch, others, i) == RaceOf(d, batch[..i])
  {
    if i == 0 {
      NoRowsNoRace(d, batch);
    } else {
      Alone(d, batch, others, i - 1);
      RaceOfCycle(d, batch, i - 1);
      QuietRaceStep(d.published, d.outbox, batch, others, i);
    }
  }

  lemma NoRowsNoRace(d: DB, batch: seq<nat>)
    ensures RaceOf(d, batch[..0]) == Race(d.published, 0)
  {
    assert Decodable(d.outbox, batch[..0]) == [];
    assert d.published + ToSet([]) == d.published;
  }

  lemma QuietRaceStep(was: set<nat>, outbox: seq<OutboxRow>, batch: seq<nat>, others: seq<set<nat>>, i: nat)
    requires 0 < i <= |batch| == |others| && Quiet(others)
    ensures RaceAt(was, outbox, batch, others, i) ==
            RaceTurn(RaceAt(was, outbox, batch, others, i - 1), {}, batch[i - 1], Decodes(outbox, batch[i - 1]))
  {
    assert others[i - 1] == {};
  }

  /** The race a cycle is when nobody else takes part. */
  function RaceOf(d: DB, rows: seq<nat>): Race {
    Race(Cycle(d, rows).published, |Sent(d.outbox, rows)|)
  }

  lemma RaceOfCycle(d: DB, batch: seq<nat>, i: nat)
    requires i < |batch| && Unsent(d, batch)
    ensures RaceOf(d, batch[..i + 1]) == RaceTurn(RaceOf(d, batch[..i]), {}, batch[i], Decodes(d.outbox, batch[i]))
  {
    if Decodes(d.outbox, batch[i]) {
      SendStep(d.outbox, batch, i);
      CycleMarks(d, batch, i);
    } else {
      SkipStep(d.outbox, batch, i);
    }
    QuietTurn(RaceOf(d, batch[..i]), batch[i], Decodes(d.outbox, batch[i]));
  }

  /** What a skipped row adds to the cycle: nothing. */
  lemma SkipStep(outbox: seq<OutboxRow>, rows: seq<nat>, i: nat)
    requires i < |rows| && !Decodes(outbox, rows[i])
    ensures Decodable(outbox, rows[..i + 1]) == Decodable(outbox, rows[..i])
  {
    assert rows[..i + 1][..i] == rows[..i];
  }

  /** What a published row adds to the topic: its event. */
  lemma SendStep(outbox: seq<OutboxRow>, rows: seq<nat>, i: nat)
    requires i < |rows| && Decodes(outbox, rows[i])
    ensures Sent(outbox, rows[..i + 1]) == Sent(outbox, rows[..i]) + [EventOf(outbox, rows[i])]
  {
    assert rows[..i + 1][..i] == rows[..i];
    assert Decodable(outbox, rows[..i + 1]) == Decodable(outbox, rows[..i]) + [rows[i]];
  }

  lemma SentStep(outbox: seq<OutboxRow>, rows: seq<nat>, i: nat)
    requires i < |rows|
    ensures Sent(outbox, rows[..i + 1]) ==
            Sent(outbox, rows[..i]) + EventsOf(outbox, rows[i])
  {
    if Decodes(outbox, rows[i]) {
      SendStep(outbox, rows, i);
    } else {
      SkipStep(outbox, rows, i);
    }
  }

  lemma TopicStep(before: seq<Event>, outbox: seq<OutboxRow>, rows: seq<nat>, i: nat)
    requires i < |rows|
    ensures before + Sent(outbox, rows[..i + 1]) == (before + Sent(outbox, rows[..i])) + EventsOf(outbox, rows[i])
  {
    SentStep(outbox, rows, i);
  }

  /** What a published row that was pending adds to the marks: one new one. */
  lemma CycleMarks(d: DB, rows: seq<nat>, i: nat)
    requires i < |rows| && Unsent(d, rows) && Decodes(d.outbox, rows[i])
    ensures rows[i] !in Cycle(d, rows[..i]).published
    ensures Cycle(d, rows[..i + 1]) == Cycle(d, rows[..i]).(published := Cycle(d, rows[..i]).published + {rows[i]})
  {
    assert rows[..i + 1][..i] == rows[..i] && rows[..i + 1][i] == rows[i];
    var before, n := Decodable(d.outbox, rows[..i]), rows[i];
    LastIsNew(d.outbox, rows[..i + 1]);
    assert n in Pending(d);
    assert Decodable(d.outbox, rows[..i + 1]) == before + [n];
    assert ToSet(before + [n]) == ToSet(before) + {n};
    assert d.published + (ToSet(before) + {n}) == d.published + ToSet(before) + {n};
  }

  /** Later rows do not change where an earlier failure stops the cycle. */
  lemma {:induction false} FirstFailureStops(outbox: seq<OutboxRow>, rows: seq<nat>, works: seq<bool>, k: nat, n: nat)
    requires k <= n <= |rows| && n <= |works|
    ensures StopsAt(outbox, rows, works, k) < k ==>
              StopsAt(outbox, rows, works, n) == StopsAt(outbox, rows, works, k)
  {
    if k < n {
      FirstFailureStops(outbox, rows, works, k, n - 1);
    }
  }

  // ---------- what cycles add up to ----------

  lemma LastIsNew(outbox: seq<OutboxRow>, rows: seq<nat>)
    requires rows != [] && forall i, j | 0 <= i < j < |rows| :: rows[i] != rows[j]
    ensures rows[|rows| - 1] !in Decodable(outbox, rows[..|rows| - 1])
  {
    var n, before := |rows| - 1, Decodable(outbox, rows[..|rows| - 1]);
    forall i | 0 <= i < |before| ensures before[i] != rows[n] {
      assert before[i] in rows[..n];
      var j :| 0 <= j < n && rows[j] == before[i];
    }
  }

  lemma GrowsByOne(rows: seq<nat>, n: nat)
    requires n !in rows
    ensures |ToSet(rows + [n])| == |ToSet(rows)| + 1
  {
    assert ToSet(rows + [n]) == ToSet(rows) + {n};
  }

  lemma {:induction false} DecodableDistinct(outbox: seq<OutboxRow>, rows: seq<nat>)
    requires forall i, j | 0 <= i < j < |rows| :: rows[i] != rows[j]
    ensures |ToSet(Decodable(outbox, rows))| == |Decodable(outbox, rows)|
  {
    if rows != [] {
      var last, before := rows[|rows| - 1], Decodable(outbox, rows[..|rows| - 1]);
      DecodableDistinct(outbox, rows[..|rows| - 1]);
      LastIsNew(outbox, rows);
      var after := Decodable(outbox, rows);
      if Decodes(outbox, last) {
        assert after == before + [last];
        GrowsByOne(before, last);
      } else {
        assert after == before;
      }
    }
  }

  lemma {:induction false} AllDecodable(outbox: seq<OutboxRow>, rows: seq<nat>)
    requires forall n | n in rows :: Decodes(outbox, n)
    ensures Decodable(outbox, rows) == rows
  {
    if rows != [] {
      AllDecodable(outbox, rows[..|rows| - 1]);
    }
  }

  lemma {:induction false} NoneDecodable(outbox: seq<OutboxRow>, rows: seq<nat>)
    requires forall n | n in rows :: !Decodes(outbox, n)
    ensures Decodable(outbox, rows) == []
  {
    if rows != [] {
      NoneDecodable(outbox, rows[..|rows| - 1]);
    }
  }

  /** A cycle over a batch takes exactly its decodable rows off the pending set. */
  lemma CycleProgress(d: DB, rows: seq<nat>, limit: nat)
    requires IsBatch(d, rows, limit)
    ensures Pending(Cycle(d, rows)) == Pending(d) - ToSet(Decodable(d.outbox, rows))
    ensures |Pending(Cycle(d, rows))| == |Pending(d)| - |Decodable(d.outbox, rows)|
  {
    var sent := ToSet(Decodable(d.outbox, rows));
    DecodableDistinct(d.outbox, rows);
    assert Pending(Cycle(d, rows)) == Pending(d) - sent;
    assert sent <= Pending(d);
  }

  /** Consecutive cycles, each over a batch the query could return at that moment. */
  ghost predicate Cycles(d: DB, batches: seq<seq<nat>>)
    decreases |batches|
  {
    batches == [] || (IsBatch(d, batches[0], BATCH_SIZE) && Cycles(Cycle(d, batches[0]), batches[1..]))
  }

  function AfterCycles(d: DB, batches: seq<seq<nat>>): DB
    decreases |batches|
  {
    if batches == [] then d else AfterCycles(Cycle(d, batches[0]), batches[1..])
  }

  ghost predicate AllDecode(d: DB) {
    forall n | n in Pending(d) :: Decodes(d.outbox, n)
  }

  /** With decodable rows every cycle clears a full batch: k cycles leave max(0, n - 50 k) rows. */
  lemma {:induction false} DrainRate(d: DB, batches: seq<seq<nat>>)
    requires Cycles(d, batches) && AllDecode(d)
    ensures |Pending(AfterCycles(d, batches))| ==
            if |Pending(d)| <= 50 * |batches| then 0 else |Pending(d)| - 50 * |batches|
    decreases |batches|
  {
    if batches != [] {
      var rows := batches[0];
      AllDecodable(d.outbox, rows);
      CycleProgress(d, rows, BATCH_SIZE);
      DrainRate(Cycle(d, rows), batches[1..]);
    }
  }

  /** A row that does not decode is skipped for ever. */
  lemma {:induction false} MalformedStays(d: DB, batches: seq<seq<nat>>, n: nat)
    requires n in Pending(d) && !Decodes(d.outbox, n)
    ensures n in Pending(AfterCycles(d, batches))
    decreases |batches|
  {
    if batches != [] {
      MalformedStays(Cycle(d, batches[0]), batches[1..], n);
    }
  }

  /** Enough cycles empty the outbox exactly when every pending payload decodes. */
  lemma DrainsIffAllDecode(d: DB, batches: seq<seq<nat>>)
    requires Cycles(d, batches) && |Pending(d)| <= BATCH_SIZE * |batches|
    ensures Pending(AfterCycles(d, batches)) == {} <==> AllDecode(d)
  {
    if AllDecode(d) {
      DrainRate(d, batches);
    } else {
      var n :| n in Pending(d) && !Decodes(d.outbox, n);
      MalformedStays(d, batches, n);
    }
  }

  /** A full batch of payloads that do not decode starves the relay: the cycle changes nothing, and
      the query may return the same batch for ever. */
  lemma {:induction false} MalformedBatchStarves(d: DB, rows: seq<nat>, cycles: nat)
    requires IsBatch(d, rows, BATCH_SIZE)
    requires forall n | n in rows :: !Decodes(d.outbox, n)
    ensures Cycles(d, seq(cycles, i => rows)) && AfterCycles(d, seq(cycles, i => rows)) == d
    decreases cycles
  {
    NoneDecodable(d.outbox, rows);
    assert Cycle(d, rows) == d;
    if cycles > 0 {
      assert seq(cycles, i => rows)[1..] == seq(cycles - 1, i => rows);
      MalformedBatchStarves(d, rows, cycles - 1);
    }
  }
}
