/** An undisturbed relay cycle, as the relay's method runs it, is one of the system's runs. */
module RelayRuns {
  import opened OutboxRelay
  import opened System
  import opened Theorems

  /** Relay `r` reads `rows` and publishes the first `k` of them to partition `q`, marking each. */
  function Relayed(s: State, r: nat, q: nat, rows: seq<nat>, k: nat): State {
    if k == 0 then Apply(s, ReadBatch(r, rows))
    else Apply(Apply(Relayed(s, r, q, rows, k - 1), PublishNext(r, q)), MarkNext(r))
  }

  /** `s'` is `s` after relay `r` has dealt with `done` and before it goes on with `left`. */
  ghost predicate Between(s: State, s': State, r: nat, q: nat, done: seq<nat>, left: seq<nat>) {
    && r < |s.relays| == |s'.relays| && q < |s.log| == |s'.log|
    && s'.db == Cycle(s.db, done)
    && s'.log[q] == s.log[q].(records := s.log[q].records + Sent(s.db.outbox, done))
    && s'.relays[r] == RelayState(left, false, s.relays[r].wins + |Sent(s.db.outbox, done)|)
  }

  lemma RelayedSends(s: State, r: nat, q: nat)
    requires r < |s.relays| && q < |s.log| && s.relays[r].batch != [] && !s.relays[r].sent
    requires Decodes(s.db.outbox, s.relays[r].batch[0]) && s.relays[r].batch[0] !in s.db.published
    ensures var n, s' := s.relays[r].batch[0], Apply(Apply(s, PublishNext(r, q)), MarkNext(r));
            && s'.db == s.db.(published := s.db.published + {n})
            && |s'.log| == |s.log| && s'.log[q] == s.log[q].(records := s.log[q].records + [EventOf(s.db.outbox, n)])
            && |s'.relays| == |s.relays|
            && s'.relays[r] == RelayState(s.relays[r].batch[1..], false, s.relays[r].wins + 1)
  {
    var sent := Apply(s, PublishNext(r, q));
    assert sent.relays[r] == s.relays[r].(sent := true);
  }

  lemma RelayedSkips(s: State, r: nat, q: nat)
    requires r < |s.relays| && q < |s.log| && s.relays[r].batch != [] && !s.relays[r].sent
    requires !Decodes(s.db.outbox, s.relays[r].batch[0])
    ensures Apply(Apply(s, PublishNext(r, q)), MarkNext(r)) ==
            SetRelay(s, r, s.relays[r].(batch := s.relays[r].batch[1..]))
  {
    var skipped := Apply(s, PublishNext(r, q));
    assert skipped.relays[r].sent == false;
  }

  lemma NextRow(s: State, s': State, r: nat, q: nat, rows: seq<nat>, k: nat)
    requires k < |rows| && Unsent(s.db, rows)
    requires Between(s, s', r, q, rows[..k], rows[k..])
    ensures Between(s, Apply(Apply(s', PublishNext(r, q)), MarkNext(r)), r, q, rows[..k + 1], rows[k + 1..])
  {
    var n := rows[k];
    assert s'.relays[r].batch[0] == n && s'.relays[r].batch[1..] == rows[k + 1..];
    if Decodes(s.db.outbox, n) {
      CycleMarks(s.db, rows, k);
      SendStep(s.db.outbox, rows, k);
      RelayedSends(s', r, q);
    } else {
      SkipStep(s.db.outbox, rows, k);
      RelayedSkips(s', r, q);
    }
  }

  lemma {:induction false} RelayedIsCycle(s: State, r: nat, q: nat, rows: seq<nat>, k: nat)
    requires r < |s.relays| && q < |s.log| && s.relays[r].batch == []
    requires Unsent(s.db, rows) && |rows| <= BATCH_SIZE && k <= |rows|
    ensures Between(s, Relayed(s, r, q, rows, k), r, q, rows[..k], rows[k..])
  {
    if k == 0 {
      assert Cycle(s.db, rows[..0]).published == s.db.published;
      assert s.log[q].records + Sent(s.db.outbox, rows[..0]) == s.log[q].records;
    } else {
      RelayedIsCycle(s, r, q, rows, k - 1);
      NextRow(s, Relayed(s, r, q, rows, k - 1), r, q, rows, k - 1);
    }
  }

  lemma {:induction false} RelayedIsReachable(s: State, r: nat, q: nat, rows: seq<nat>, k: nat)
    requires Reach(s)
    ensures Reach(Relayed(s, r, q, rows, k))
  {
    if k == 0 {
      ReachStep(s, ReadBatch(r, rows));
    } else {
      var before := Relayed(s, r, q, rows, k - 1);
      RelayedIsReachable(s, r, q, rows, k - 1);
      ReachStep(before, PublishNext(r, q));
      ReachStep(Apply(before, PublishNext(r, q)), MarkNext(r));
    }
  }

  /** Reading a batch and then publishing and marking row after row, with nothing in between, ends
      with the rows of `Cycle` marked, the events of `Sent` in the log, and the relay's count raised
      by their number: exactly what RelayOnce's contract says. */
  lemma UndisturbedCycle(s: State, r: nat, q: nat, rows: seq<nat>)
    requires Reach(s) && r < |s.relays| && q < |s.log| && s.relays[r].batch == []
    requires IsBatch(s.db, rows, BATCH_SIZE)
    ensures Reach(Relayed(s, r, q, rows, |rows|))
    ensures Between(s, Relayed(s, r, q, rows, |rows|), r, q, rows, [])
    ensures |Sent(s.db.outbox, rows)| == |rows|
  {
    assert rows[..|rows|] == rows;
    RelayedIsCycle(s, r, q, rows, |rows|);
    RelayedIsReachable(s, r, q, rows, |rows|);
    EveryRowIsSent(s, rows);
  }

  lemma EveryRowIsSent(s: State, rows: seq<nat>)
    requires Reach(s) && Unsent(s.db, rows)
    ensures |Sent(s.db.outbox, rows)| == |rows|
  {
    EveryPayloadDecodes(s);
    forall n | n in rows ensures Decodes(s.db.outbox, n) {
      assert n in OutboxRelay.Pending(s.db);
    }
    AllDecodable(s.db.outbox, rows);
  }
}
