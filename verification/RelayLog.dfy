/** How often an outbox row is in the log: at least once when it is marked, exactly once when a single
    relay is never cut off between a publish and its mark, and again whenever some relay may still
    publish it. */
module RelayLog {
  import opened Tables
  import opened OutboxRelay
  import opened System
  import opened Theorems

  function Occurrences(records: seq<Event>, n: nat): nat {
    if records == [] then 0
    else
      var last := records[|records| - 1];
      Occurrences(records[..|records| - 1], n) + if last.id == Outbox(n) then 1 else 0
  }

  /** The number of log records that carry the id of outbox row `n`. */
  function Copies(log: seq<Partition>, n: nat): nat {
    if log == [] then 0 else Copies(log[..|log| - 1], n) + Occurrences(log[|log| - 1].records, n)
  }

  lemma {:induction false} CopiesAppend(log: seq<Partition>, q: nat, e: Event, n: nat)
    requires q < |log|
    ensures Copies(log[q := log[q].(records := log[q].records + [e])], n) ==
            Copies(log, n) + if e.id == Outbox(n) then 1 else 0
  {
    var last := |log| - 1;
    var log' := log[q := log[q].(records := log[q].records + [e])];
    if q < last {
      assert log'[..last] == log[..last][q := log[q].(records := log[q].records + [e])];
      CopiesAppend(log[..last], q, e, n);
    } else {
      assert log'[..last] == log[..last];
      assert (log[q].records + [e])[..|log[q].records|] == log[q].records;
    }
  }

  lemma {:induction false} CopiesSame(log: seq<Partition>, log': seq<Partition>, n: nat)
    requires |log| == |log'| && forall q | 0 <= q < |log| :: log'[q].records == log[q].records
    ensures Copies(log', n) == Copies(log, n)
  {
    if log != [] {
      CopiesSame(log[..|log| - 1], log'[..|log| - 1], n);
    }
  }

  lemma {:induction false} OccursIffPositive(records: seq<Event>, n: nat)
    ensures Occurrences(records, n) > 0 <==> exists j :: 0 <= j < |records| && records[j].id == Outbox(n)
  {
    if records != [] {
      OccursIffPositive(records[..|records| - 1], n);
      if j :| 0 <= j < |records| && records[j].id == Outbox(n) {
        assert j < |records| - 1 ==> records[..|records| - 1][j].id == Outbox(n);
      }
    }
  }

  lemma {:induction false} LoggedIffPositive(log: seq<Partition>, n: nat)
    ensures InLog(log, n) <==> Copies(log, n) > 0
  {
    if log != [] {
      var last := |log| - 1;
      LoggedIffPositive(log[..last], n);
      OccursIffPositive(log[last].records, n);
      if InLog(log, n) {
        var q, j :| 0 <= q < |log| && 0 <= j < |log[q].records| && log[q].records[j].id == Outbox(n);
        assert q < last ==> log[..last][q].records[j].id == Outbox(n);
      }
      if Occurrences(log[last].records, n) > 0 {
        var j :| 0 <= j < |log[last].records| && log[last].records[j].id == Outbox(n);
        assert log[last].records[j].id == Outbox(n);
      }
      if InLog(log[..last], n) {
        var q, j :| 0 <= q < last && 0 <= j < |log[..last][q].records| && log[..last][q].records[j].id == Outbox(n);
        assert log[q].records[j].id == Outbox(n);
      }
    }
  }

  /** With any number of relays and crashes between publish and mark: every marked row has a copy in the
      log, every order event in the log is some outbox row's event, and the relays' counts add up to
      the marked rows, however many copies there are. */
  lemma RelaysAreSafe(s: State)
    requires Reach(s)
    ensures forall n | n in s.db.published :: Copies(s.log, n) > 0
    ensures forall q, j | 0 <= q < |s.log| && 0 <= j < |s.log[q].records| && s.log[q].records[j].typ.OrderEvent? ::
              var e := s.log[q].records[j];
              && e.id.Outbox? && e.id.row < |s.db.outbox| && s.db.outbox[e.id.row].payload.Json?
              && var row := s.db.outbox[e.id.row];
                 e.typ == row.typ && e.payload == row.payload.payload && e.createdAt == row.createdAt
    ensures Wins(s.relays) == |s.db.published|
  {
    ReachedInv(s);
    forall n | n in s.db.published ensures Copies(s.log, n) > 0 {
      LoggedIffPositive(s.log, n);
    }
    forall q, j | 0 <= q < |s.log| && 0 <= j < |s.log[q].records| && s.log[q].records[j].typ.OrderEvent?
      ensures var e := s.log[q].records[j];
              && e.id.Outbox? && e.id.row < |s.db.outbox| && s.db.outbox[e.id.row].payload.Json?
              && var row := s.db.outbox[e.id.row];
                 e.typ == row.typ && e.payload == row.payload.payload && e.createdAt == row.createdAt
    {
      assert EventOk(s.db, s.log[q].records[j]);
    }
  }

  // ---------- one step ----------

  /** The rows a relay has read and not yet published. */
  function ToPublish(relay: RelayState): seq<nat> {
    if relay.sent && relay.batch != [] then relay.batch[1..] else relay.batch
  }

  /** The step publishes row `n`. */
  predicate Publishes(s: State, st: Step, n: nat) {
    && st.PublishNext? && st.r < |s.relays| && st.q < |s.log|
    && !s.relays[st.r].sent && s.relays[st.r].batch != [] && s.relays[st.r].batch[0] == n
    && Decodes(s.db.outbox, n)
  }

  /** Every publish of a row adds one copy, be it logged or even marked already; nothing else adds or
      removes one. */
  lemma CopiesStep(s: State, st: Step, n: nat)
    ensures Copies(Apply(s, st).log, n) == Copies(s.log, n) + if Publishes(s, st, n) then 1 else 0
  {
    var log' := Apply(s, st).log;
    match st
    case PublishNext(r, q) =>
      if r < |s.relays| && q < |s.log| && s.relays[r].batch != [] && Publishes(s, st, s.relays[r].batch[0]) {
        CopiesAppend(s.log, q, EventOf(s.db.outbox, s.relays[r].batch[0]), n);
      }
    case PublishForeign(q, e) =>
      if log' != s.log {
        CopiesAppend(s.log, q, e, n);
      }
    case Fetch(_) => SameLogRecords(s, st, n);
    case Route(_, _, _) => SameLogRecords(s, st, n);
    case RecordAudit(_, _, _) => SameLogRecords(s, st, n);
    case CommitOffset(_, _) => SameLogRecords(s, st, n);
    case Dies(_) => SameLogRecords(s, st, n);
    case _ =>
  }

  lemma SameLogRecords(s: State, st: Step, n: nat)
    ensures Copies(WorkerStep(s, st).log, n) == Copies(s.log, n)
  {
    CopiesSame(s.log, WorkerStep(s, st).log, n);
  }

  // ---------- two relays ----------

  /** The locking read does not keep two relays apart: from any state with two idle relays and a
      pending row, both read it and both publish it. */
  lemma TwoRelaysLogTwice(s: State, r1: nat, r2: nat, n: nat, q: nat)
    requires r1 < |s.relays| && r2 < |s.relays| && r1 != r2 && q < |s.log|
    requires s.relays[r1].batch == [] && s.relays[r2].batch == []
    requires n in OutboxRelay.Pending(s.db) && Decodes(s.db.outbox, n)
    ensures var read := Apply(Apply(s, ReadBatch(r1, [n])), ReadBatch(r2, [n]));
            var s' := Apply(Apply(read, PublishNext(r1, q)), PublishNext(r2, q));
            && q < |s'.log| && Copies(s'.log, n) == Copies(s.log, n) + 2
            && s'.log[q].records == s.log[q].records + [EventOf(s.db.outbox, n), EventOf(s.db.outbox, n)]
  {
    var one := Apply(s, ReadBatch(r1, [n]));
    var read := Apply(one, ReadBatch(r2, [n]));
    assert one.relays[r1] == RelayState([n], false, s.relays[r1].wins);
    assert read.relays[r1].batch == [n] && read.relays[r2].batch == [n] && read.log == s.log;
    var sent := Apply(read, PublishNext(r1, q));
    CopiesStep(read, PublishNext(r1, q), n);
    assert sent.relays[r2] == read.relays[r2];
    CopiesStep(sent, PublishNext(r2, q), n);
  }

  // ---------- one relay, never cut off between publish and mark ----------

  /** The relay has published row `n` and not yet marked it. */
  predicate BeingMarked(relay: RelayState, n: nat) {
    relay.sent && relay.batch != [] && relay.batch[0] == n
  }

  ghost predicate CutOff(s: State, st: Step) {
    st.RelayStops? && st.r < |s.relays| && s.relays[st.r].sent
  }

  /** No step of the run stops a relay between a publish and its mark. */
  ghost predicate Orderly(s: State, steps: seq<Step>) {
    steps == [] ||
    (Orderly(s, steps[..|steps| - 1]) && !CutOff(Run(s, steps[..|steps| - 1]), steps[|steps| - 1]))
  }

  ghost predicate BatchFresh(d: DB, relay: RelayState) {
    && (relay.sent ==> relay.batch != [])
    && Unsent(d, relay.batch)
  }

  ghost predicate OnceOnly(s: State) {
    && |s.relays| == 1
    && BatchFresh(s.db, s.relays[0])
    && forall n: nat ::
         Copies(s.log, n) == if n in s.db.published || BeingMarked(s.relays[0], n) then 1 else 0
  }

  predicate IsRelayStep(st: Step) {
    st.ReadBatch? || st.PublishNext? || st.MarkNext? || st.RelayStops?
  }

  /** Only relays' steps change relays and marks. */
  lemma OthersLeaveRelays(s: State, st: Step)
    requires !IsRelayStep(st)
    ensures Apply(s, st).relays == s.relays && Apply(s, st).db.published == s.db.published
    ensures s.db.outbox <= Apply(s, st).db.outbox
  {
    match st
    case Api(a) => ActGrows(s.db, a);
    case Redeliver(q, j, now) =>
      if q < |s.log| && j < |s.log[q].records| {
        RouteGrows(s.db, s.log[q].records[j], now);
      }
    case Route(q, commits, now) =>
      if WorkerStep(s, st) != s {
        RouteGrows(s.db, s.log[q].records[s.log[q].next], now);
      }
    case _ =>
  }

  /** What a step does to the only relay and the marks. */
  lemma RelayMoves(s: State, st: Step)
    requires OnceOnly(s) && !CutOff(s, st)
    ensures |Apply(s, st).relays| == 1 && BatchFresh(Apply(s, st).db, Apply(s, st).relays[0])
    ensures forall n: nat ::
              (n in Apply(s, st).db.published || BeingMarked(Apply(s, st).relays[0], n)) <==>
              (n in s.db.published || BeingMarked(s.relays[0], n) || Publishes(s, st, n))
  {
    if !IsRelayStep(st) {
      OthersLeaveRelays(s, st);
    } else {
      assert Apply(s, st) == RelayStep(s, st);
    }
  }

  /** With one relay that is never cut off between a publish and its mark, whatever else runs, every
      row is logged exactly once if it is marked or being marked, and otherwise not at all. */
  lemma {:induction false} LoggedOnce(partitions: nat, steps: seq<Step>)
    requires Orderly(Start(1, partitions), steps)
    ensures OnceOnly(Run(Start(1, partitions), steps))
  {
    if steps == [] {
      forall n: nat ensures Copies(Start(1, partitions).log, n) == 0 {
        NothingLogged(partitions, n);
      }
    } else {
      var s, st := Run(Start(1, partitions), steps[..|steps| - 1]), steps[|steps| - 1];
      LoggedOnce(partitions, steps[..|steps| - 1]);
      RelayMoves(s, st);
      forall n: nat
        ensures var s' := Apply(s, st);
                Copies(s'.log, n) == if n in s'.db.published || BeingMarked(s'.relays[0], n) then 1 else 0
      {
        CopiesStep(s, st, n);
        if Publishes(s, st, n) {
          assert n in s.relays[0].batch;
        }
      }
    }
  }

  lemma {:induction false} NothingLogged(partitions: nat, n: nat)
    ensures Copies(Start(1, partitions).log, n) == 0
  {
    LoggedIffPositive(Start(1, partitions).log, n);
  }

  // ---------- exactly when a row may be logged again ----------

  /** Some relay may still publish row `n`: the row is not marked, or a relay that read it earlier has
      yet to publish it. */
  ghost predicate MayPublish(s: State, n: nat) {
    n !in s.db.published || exists r :: 0 <= r < |s.relays| && n in ToPublish(s.relays[r])
  }

  /** A row that no relay may publish stays so, and gets no further copy. */
  lemma SettledRowStays(s: State, st: Step, n: nat)
    requires !MayPublish(s, n)
    ensures !MayPublish(Apply(s, st), n) && !Publishes(s, st, n)
  {
    if !IsRelayStep(st) {
      OthersLeaveRelays(s, st);
    } else {
      RelayStepKeepsSettled(s, st, n);
    }
  }

  lemma RelayStepKeepsSettled(s: State, st: Step, n: nat)
    requires !MayPublish(s, n) && IsRelayStep(st)
    ensures !MayPublish(RelayStep(s, st), n) && !Publishes(s, st, n)
  {
    var s' := RelayStep(s, st);
    forall r | 0 <= r < |s'.relays| ensures n !in ToPublish(s'.relays[r]) {
      assert n !in ToPublish(s.relays[r]);
    }
  }

  lemma {:induction false} SettledRowNeverAgain(s: State, steps: seq<Step>, n: nat)
    requires !MayPublish(s, n)
    ensures !MayPublish(Run(s, steps), n) && Copies(Run(s, steps).log, n) == Copies(s.log, n)
  {
    if steps != [] {
      var before, st := Run(s, steps[..|steps| - 1]), steps[|steps| - 1];
      SettledRowNeverAgain(s, steps[..|steps| - 1], n);
      SettledRowStays(before, st, n);
      CopiesStep(before, st, n);
    }
  }

  /** A relay that is stopped, even between the publish and the mark, may read the row once more. */
  lemma StoppedRelayLogsAgain(s: State, n: nat) returns (steps: seq<Step>)
    requires |s.relays| > 0 && |s.log| > 0 && n in OutboxRelay.Pending(s.db) && Decodes(s.db.outbox, n)
    ensures Copies(Run(s, steps).log, n) == Copies(s.log, n) + 1
  {
    steps := [RelayStops(0), ReadBatch(0, [n]), PublishNext(0, 0)];
    var stopped := Apply(s, RelayStops(0));
    var read := Apply(stopped, ReadBatch(0, [n]));
    assert steps == [RelayStops(0)] + ([ReadBatch(0, [n])] + [PublishNext(0, 0)]);
    RunFirst(s, RelayStops(0), [ReadBatch(0, [n])] + [PublishNext(0, 0)]);
    RunFirst(stopped, ReadBatch(0, [n]), [PublishNext(0, 0)]);
    RunFirst(read, PublishNext(0, 0), []);
    assert read.relays[0].batch == [n];
    CopiesStep(read, PublishNext(0, 0), n);
  }

  lemma HolderGoesOn(s: State, r: nat, n: nat)
    requires Reach(s) && r < |s.relays| && |s.log| > 0 && n in ToPublish(s.relays[r])
    ensures var st := if s.relays[r].sent then MarkNext(r) else PublishNext(r, 0);
            var s' := Apply(s, st);
            Publishes(s, st, n) ||
            (&& r < |s'.relays| && |s'.log| > 0 && n in ToPublish(s'.relays[r])
             && (s.relays[r].sent ==> ToPublish(s'.relays[r]) == ToPublish(s.relays[r]) && !s'.relays[r].sent)
             && (!s.relays[r].sent ==> |ToPublish(s'.relays[r])| < |ToPublish(s.relays[r])|))
  {
    ReachedInv(s);
    assert RelayOk(s.db, s.log, s.relays[r]);
    EveryPayloadDecodes(s);
    if !s.relays[r].sent {
      assert s.relays[r].batch[0] in s.relays[r].batch;
    }
  }

  /** A relay that holds the row goes on until it publishes it, marked meanwhile or not. */
  lemma {:induction false} HolderLogsAgain(s: State, r: nat, n: nat) returns (steps: seq<Step>)
    requires Reach(s) && r < |s.relays| && |s.log| > 0 && n in ToPublish(s.relays[r])
    ensures Copies(Run(s, steps).log, n) > Copies(s.log, n)
    decreases |ToPublish(s.relays[r])|, s.relays[r].sent
  {
    var st := if s.relays[r].sent then MarkNext(r) else PublishNext(r, 0);
    var s' := Apply(s, st);
    ReachStep(s, st);
    CopiesStep(s, st, n);
    HolderGoesOn(s, r, n);
    if Publishes(s, st, n) {
      steps := [st];
      RunFirst(s, st, []);
    } else {
      var rest := HolderLogsAgain(s', r, n);
      steps := [st] + rest;
      RunFirst(s, st, rest);
    }
  }

  /** From a reachable state, a row can get another copy if and only if it is not marked or some relay
      still holds it unpublished. So a row that is logged is logged again only through a relay cut off
      before the mark, or through a second relay that had read it too. */
  lemma LoggedAgainIff(s: State, n: nat)
    requires Reach(s) && |s.relays| > 0 && |s.log| > 0 && n < |s.db.outbox|
    ensures (exists steps :: Copies(Run(s, steps).log, n) > Copies(s.log, n)) <==> MayPublish(s, n)
  {
    if MayPublish(s, n) {
      EveryPayloadDecodes(s);
      if n !in s.db.published {
        var steps := StoppedRelayLogsAgain(s, n);
      } else {
        var r :| 0 <= r < |s.relays| && n in ToPublish(s.relays[r]);
        var steps := HolderLogsAgain(s, r, n);
      }
    } else {
      forall steps ensures Copies(Run(s, steps).log, n) == Copies(s.log, n) {
        SettledRowNeverAgain(s, steps, n);
      }
    }
  }

  /** In the states of LoggedOnce, a logged row is at risk exactly between its publish and its mark. */
  lemma OneRelayRisk(s: State, n: nat)
    requires Reach(s) && OnceOnly(s) && InLog(s.log, n)
    ensures (exists steps :: Copies(Run(s, steps).log, n) > 1) <==> BeingMarked(s.relays[0], n)
  {
    LoggedRowExists(s, n);
    LoggedIffPositive(s.log, n);
    LoggedAgainIff(s, n);
    AtRiskIffBeingMarked(s, n);
  }

  lemma LoggedRowExists(s: State, n: nat)
    requires Reach(s) && InLog(s.log, n)
    ensures |s.log| > 0 && n < |s.db.outbox|
  {
    ReachedInv(s);
    var q, j :| 0 <= q < |s.log| && 0 <= j < |s.log[q].records| && s.log[q].records[j].id == Outbox(n);
    assert EventOk(s.db, s.log[q].records[j]);
  }

  lemma AtRiskIffBeingMarked(s: State, n: nat)
    requires OnceOnly(s) && Copies(s.log, n) > 0
    ensures MayPublish(s, n) <==> BeingMarked(s.relays[0], n)
  {
    var relay := s.relays[0];
    if n in s.db.published {
      assert forall m | m in relay.batch :: m in OutboxRelay.Pending(s.db);
      assert forall m | m in ToPublish(relay) :: m in relay.batch;
    }
  }
}
