/** The worker's fetch / handle / commit loop, proved to be a run of the system's consumer steps. */
module WorkerLoop {
  import opened Domain
  import opened Tables
  import opened Transactions
  import opened Audit
  import opened System
  import opened Theorems
  import Dispatch

  /** What the surroundings answer in one turn of the loop: whether the fetch succeeds, whether the
      database commits the handler's transaction, the clock, the audit store, the dead-letter topic
      and the offset commit. */
  datatype Turn = Turn(fetches: bool, commits: bool, now: nat, attempts: seq<Attempt>, dlq: bool, acked: bool)

  const MAX_BACKOFF := 30

  // ---------- one turn as steps of the system ----------

  /** After a failed step the guards of the later ones do not hold. */
  function TurnSteps(q: nat, t: Turn): seq<Step> {
    if !t.fetches then []
    else [Fetch(q), Route(q, t.commits, t.now), RecordAudit(q, t.attempts, t.dlq), CommitOffset(q, t.acked)]
  }

  function OneTurn(s: State, q: nat, t: Turn): State {
    Run(s, TurnSteps(q, t))
  }

  /** The state after the first `n` turns. */
  function Turns(s: State, q: nat, ts: seq<Turn>, n: nat): State
    requires n <= |ts|
  {
    if n == 0 then s else OneTurn(Turns(s, q, ts, n - 1), q, ts[n - 1])
  }

  /** So whatever holds in every reachable state holds around the loop, too. */
  lemma {:induction false} TurnsStayReachable(s: State, q: nat, ts: seq<Turn>, n: nat)
    requires Reach(s) && n <= |ts|
    ensures Reach(Turns(s, q, ts, n))
  {
    if n > 0 {
      TurnsStayReachable(s, q, ts, n - 1);
      ReachRun(Turns(s, q, ts, n - 1), TurnSteps(q, ts[n - 1]));
    }
  }

  lemma FourSteps(s: State, q: nat, t: Turn)
    requires t.fetches
    ensures var routed := Apply(Apply(s, Fetch(q)), Route(q, t.commits, t.now));
            OneTurn(s, q, t) == Apply(Apply(routed, RecordAudit(q, t.attempts, t.dlq)), CommitOffset(q, t.acked))
  {
    var commerce := [Fetch(q), Route(q, t.commits, t.now)];
    var audit := [RecordAudit(q, t.attempts, t.dlq), CommitOffset(q, t.acked)];
    assert TurnSteps(q, t) == commerce + audit;
    RunConcat(s, commerce, audit);
    RunTwo(s, commerce[0], commerce[1]);
    RunTwo(Run(s, commerce), audit[0], audit[1]);
  }

  /** Does the handler return an error for record `e`? */
  function Handled(s: State, e: Event, t: Turn): Result<()> {
    var routed := Delivered(s.db, e, t.commits, t.now);
    if routed.result.Err? then routed.result else HandleAudit(s.store, s.dead, e, t.attempts, t.dlq).result
  }

  /** What one message does: the position moves on in any case, the offset only when the handler
      returned no error and the commit is acknowledged; a failed commerce half changes nothing else. */
  lemma OneMessage(s: State, q: nat, t: Turn)
    requires q < |s.log| && s.log[q].stage == Idle && |t.attempts| == MAX_RETRIES && t.fetches
    ensures q < |OneTurn(s, q, t).log|
    ensures var part, s' := s.log[q], OneTurn(s, q, t);
            if part.next >= |part.records| then s' == s
            else
              var e := part.records[part.next];
              var routed := Delivered(s.db, e, t.commits, t.now);
              var audited := HandleAudit(s.store, s.dead, e, t.attempts, t.dlq);
              var ok := Handled(s, e, t).Ok?;
              && s'.db == routed.db
              && (routed.result.Err? ==> s'.db == s.db && s'.store == s.store && s'.dead == s.dead)
              && (routed.result.Ok? ==> s'.store == audited.store && s'.dead == audited.dead)
              && s'.log[q] == part.(next := part.next + 1,
                                    committed := if ok && t.acked then part.next + 1 else part.committed)
              && s'.handled == (if ok then s.handled + {(q, part.next)} else s.handled)
              && s'.failed == (if ok then s.failed else s.failed + {(q, part.next)})
  {
    FourSteps(s, q, t);
    if s.log[q].next < |s.log[q].records| {
      CommerceHalf(s, q, t);
      AuditHalf(Apply(Apply(s, Fetch(q)), Route(q, t.commits, t.now)), q, t);
    } else {
      NothingToFetch(s, q, t);
    }
  }

  lemma NothingToFetch(s: State, q: nat, t: Turn)
    requires q < |s.log| && s.log[q].stage == Idle && s.log[q].next >= |s.log[q].records|
    ensures Apply(s, Fetch(q)) == s && Apply(s, Route(q, t.commits, t.now)) == s
    ensures Apply(s, RecordAudit(q, t.attempts, t.dlq)) == s && Apply(s, CommitOffset(q, t.acked)) == s
  {
  }

  lemma CommerceHalf(s: State, q: nat, t: Turn)
    requires q < |s.log| && s.log[q].stage == Idle && s.log[q].next < |s.log[q].records|
    ensures var part, s' := s.log[q], Apply(Apply(s, Fetch(q)), Route(q, t.commits, t.now));
            var routed := Delivered(s.db, part.records[part.next], t.commits, t.now);
            var fails := routed.result.Err?;
            && |s'.log| == |s.log| && s'.store == s.store && s'.dead == s.dead && s'.handled == s.handled
            && s'.db == routed.db && (fails ==> s'.db == s.db)
            && s'.failed == (if fails then s.failed + {(q, part.next)} else s.failed)
            && s'.log[q] == if fails then part.(next := part.next + 1) else part.(stage := Routed)
  {
    assert Apply(s, Fetch(q)).log[q] == s.log[q].(stage := Fetched);
  }

  lemma AuditHalf(s: State, q: nat, t: Turn)
    requires q < |s.log| && s.log[q].stage in {Idle, Routed} && |t.attempts| == MAX_RETRIES
    requires s.log[q].stage == Routed ==> s.log[q].next < |s.log[q].records|
    ensures var part, s' := s.log[q], Apply(Apply(s, RecordAudit(q, t.attempts, t.dlq)), CommitOffset(q, t.acked));
            if part.stage == Idle then s' == s
            else
              var audited := HandleAudit(s.store, s.dead, part.records[part.next], t.attempts, t.dlq);
              var ok := audited.result.Ok?;
              && |s'.log| == |s.log| && s'.db == s.db && s'.store == audited.store && s'.dead == audited.dead
              && s'.handled == (if ok then s.handled + {(q, part.next)} else s.handled)
              && s'.failed == (if ok then s.failed else s.failed + {(q, part.next)})
              && s'.log[q] == part.(stage := Idle, next := part.next + 1,
                                    committed := if ok && t.acked then part.next + 1 else part.committed)
  {
    var audited := Apply(s, RecordAudit(q, t.attempts, t.dlq));
    assert q < |audited.log| && audited.log[q].records == s.log[q].records;
  }

  // ---------- the pauses ----------

  /** The pause after `k` failed fetches have come before this one in a row. */
  function Pause(k: nat): nat {
    if k == 0 then 1 else if k <= 5 then 2 * Pause(k - 1) else Pause(k - 1)
  }

  /** The pauses so far, how many fetches have just failed in a row, and how many records are left. */
  datatype Backoff = Backoff(waits: seq<nat>, failures: nat, left: nat)

  /** A fetch that finds nothing blocks: it neither fails nor ends the row of failures. */
  function NextBackoff(b: Backoff, t: Turn): Backoff {
    if !t.fetches then Backoff(b.waits + [Pause(b.failures)], b.failures + 1, b.left)
    else if b.left == 0 then b
    else Backoff(b.waits, 0, b.left - 1)
  }

  /** The loop's pauses in the first `n` turns, `left` records being there to fetch. */
  function BackoffAfter(ts: seq<Turn>, left: nat, n: nat): Backoff
    requires n <= |ts|
  {
    if n == 0 then Backoff([], 0, left) else NextBackoff(BackoffAfter(ts, left, n - 1), ts[n - 1])
  }

  /** The pause doubles from 1 to 32 and stays there, so it exceeds its bound of 30 exactly from the
      sixth failure in a row on. */
  lemma {:induction false} PauseExceedsBound(k: nat)
    ensures Pause(k) > 30 <==> k + 1 >= 6
    ensures Pause(k) <= 32 && Pause(k + 1) == if Pause(k) < MAX_BACKOFF then 2 * Pause(k) else Pause(k)
  {
    if k > 5 {
      PauseExceedsBound(k - 1);
    } else {
      assert Pause(0) == 1 && Pause(1) == 2 && Pause(2) == 4 && Pause(3) == 8 && Pause(4) == 16 && Pause(5) == 32;
    }
  }

  /** A row of failed fetches since the last record, or since the start, pauses for the first so many
      pauses: a fetched record starts them afresh. */
  lemma {:induction false} PausesInARow(ts: seq<Turn>, left: nat, a: nat, n: nat)
    requires a <= n <= |ts| && forall i | a <= i < n :: !ts[i].fetches
    requires a == 0 || (ts[a - 1].fetches && BackoffAfter(ts, left, a - 1).left > 0)
    ensures var before := BackoffAfter(ts, left, a);
            BackoffAfter(ts, left, n) == Backoff(before.waits + FirstPauses(n - a), n - a, before.left)
  {
    if a < n {
      PausesInARow(ts, left, a, n - 1);
      assert FirstPauses(n - a) == FirstPauses(n - 1 - a) + [Pause(n - 1 - a)];
    } else {
      assert FirstPauses(0) == [];
    }
  }

  function FirstPauses(k: nat): seq<nat> {
    seq(k, i requires 0 <= i < k => Pause(i))
  }

  /** The pauses are 1, 2, 4, 8, 16 and then 32 seconds each. */
  lemma {:induction false} PauseTable(k: nat)
    ensures Pause(k) == if k == 0 then 1 else if k == 1 then 2 else if k == 2 then 4
                        else if k == 3 then 8 else if k == 4 then 16 else 32
  {
    if k > 0 {
      PauseTable(k - 1);
    }
  }

  class Worker {
    const processor: Dispatch.Processor
    var records: seq<Event>
    var next: nat
    var committed: nat

    constructor (processor: Dispatch.Processor, records: seq<Event>, committed: nat)
      requires committed <= |records|
      ensures this.processor == processor && this.records == records
      ensures next == committed && this.committed == committed
    {
      this.processor, this.records := processor, records;
      next, this.committed := committed, committed;
    }

    /** This worker, between two turns, is the consumer of partition `q` of system state `s`. */
    ghost predicate Plays(s: State, q: nat)
      reads this, processor.db, processor.audit
    {
      && q < |s.log|
      && s.log[q] == Partition(records, next, committed, Idle)
      && s.db == processor.db.Snapshot()
      && s.store == processor.audit.store && s.dead == processor.audit.dead
    }

    /** A fetch hands out the next record; the position moves on at once, the committed offset does not. */
    method FetchNext() returns (msg: Option<(nat, Event)>)
      modifies this`next
      ensures if old(next) < |records|
              then msg == Some((old(next), records[old(next)])) && next == old(next) + 1
              else msg == None && next == old(next)
    {
      if next >= |records| { return None; }
      msg := Some((next, records[next]));
      next := next + 1;
    }

    method Commit(offset: nat, acked: bool)
      modifies this`committed
      ensures committed == if acked then offset + 1 else old(committed)
    {
      if acked { committed := offset + 1; }
    }

    /** A turn of the loop whose fetch does not fail; `got` is whether there was a record to fetch. */
    method TakeTurn(t: Turn, ghost s: State, ghost q: nat) returns (got: bool)
      requires processor.Wired() && ForeignKeys(processor.db.Snapshot())
      requires Plays(s, q) && t.fetches && |t.attempts| == MAX_RETRIES
      modifies this`next, this`committed, processor.db, processor.audit
      ensures Plays(OneTurn(s, q, t), q) && ForeignKeys(processor.db.Snapshot())
      ensures got <==> old(next) < |records|
      ensures next == if got then old(next) + 1 else old(next)
    {
      OneMessage(s, q, t);
      var msg := FetchNext();
      if msg.None? { return false; }
      got := true;
      var r := processor.Handle(msg.value.1, t.commits, t.now, t.attempts, t.dlq);
      if r.Err? { return; }
      Commit(msg.value.0, t.acked);
    }

    method Doubled(backoff: nat, ghost k: nat) returns (longer: nat)
      requires backoff == Pause(k)
      ensures longer == Pause(k + 1)
    {
      PauseExceedsBound(k);
      longer := if backoff < MAX_BACKOFF then backoff * 2 else backoff;
    }

    /** The loop's `backoff` and the pauses `waits` it has made are those of `b`. */
    ghost predicate Waits(b: Backoff, backoff: nat, waits: seq<nat>)
      reads this
    {
      next + b.left == |records| && backoff == Pause(b.failures) && waits == b.waits
    }

    /** The body of the loop. */
    method Round(t: Turn, backoff: nat, waits: seq<nat>, ghost s: State, ghost q: nat, ghost b: Backoff)
      returns (backoff': nat, waits': seq<nat>)
      requires processor.Wired() && ForeignKeys(processor.db.Snapshot())
      requires |t.attempts| == MAX_RETRIES
      requires Plays(s, q) && Waits(b, backoff, waits)
      modifies this`next, this`committed, processor.db, processor.audit
      ensures ForeignKeys(processor.db.Snapshot())
      ensures Plays(OneTurn(s, q, t), q) && Waits(NextBackoff(b, t), backoff', waits')
    {
      backoff', waits' := backoff, waits;
      if !t.fetches {
        waits' := waits + [backoff];
        backoff' := Doubled(backoff, b.failures);
        return;
      }
      var got := TakeTurn(t, s, q);
      if got { backoff' := 1; }
    }

    /** The loop for as many turns as `ts` lists, which may end anywhere; `waits` are its pauses. */
    method Loop(ts: seq<Turn>, ghost s: State, ghost q: nat) returns (waits: seq<nat>)
      requires processor.Wired() && ForeignKeys(processor.db.Snapshot())
      requires forall t | t in ts :: |t.attempts| == MAX_RETRIES
      requires Plays(s, q) && next <= |records|
      modifies this`next, this`committed, processor.db, processor.audit
      ensures Plays(Turns(s, q, ts, |ts|), q)
      ensures waits == BackoffAfter(ts, |records| - old(next), |ts|).waits
    {
      waits := [];
      var backoff := 1;
      ghost var left := |records| - next;
      for i := 0 to |ts|
        invariant ForeignKeys(processor.db.Snapshot())
        invariant Plays(Turns(s, q, ts, i), q)
        invariant Waits(BackoffAfter(ts, left, i), backoff, waits)
      {
        assert ts[i] in ts;
        backoff, waits := Round(ts[i], backoff, waits, Turns(s, q, ts, i), q, BackoffAfter(ts, left, i));
      }
    }
  }
}
