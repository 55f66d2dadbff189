/** When the worker loses an event for good: exactly when its handler returns an error and a later
    message's offset is committed before the process dies. */
module Losses {
  import opened Tables
  import opened Transactions
  import opened Audit
  import opened System
  import opened Theorems
  import opened WorkerLoop

  /** Record `j` of partition `q` is behind the committed offset and was never handled. */
  ghost predicate Lost(s: State, q: nat, j: nat) {
    q < |s.log| && j < s.log[q].committed && (q, j) !in s.handled
  }

  // ---------- a lost event stays lost ----------

  lemma LostStays(s: State, st: Step, q: nat, j: nat)
    requires Reach(s) && Lost(s, q, j)
    ensures Lost(Apply(s, st), q, j)
  {
    ReachedInv(s);
    assert PartitionOk(s, q);
    OffsetsMove(s, st, q);
  }

  /** The only step that handles a record of a partition commits or passes the one at its position;
      only an acknowledged one moves the committed offset, to just behind it. */
  lemma OffsetsMove(s: State, st: Step, q: nat)
    requires q < |s.log|
    ensures q < |Apply(s, st).log|
    ensures var s', part := Apply(s, st), s.log[q];
            && (s'.log[q].committed == part.committed || s'.log[q].committed == part.next + 1)
            && (forall j: nat | (q, j) in s'.handled :: (q, j) in s.handled || j == part.next)
  {
    match st
    case Fetch(_) =>
    case Route(_, _, _) =>
    case RecordAudit(_, _, _) =>
    case CommitOffset(_, _) =>
    case Dies(_) =>
    case _ => assert WorkerStep(s, st) == s;
  }

  /** No later step, not even a death of the process and its restart, lets the worker handle a lost
      event; only an event published anew could replace it. */
  lemma {:induction false} LostForGood(s: State, steps: seq<Step>, q: nat, j: nat)
    requires Reach(s) && Lost(s, q, j)
    ensures Reach(Run(s, steps)) && Lost(Run(s, steps), q, j)
  {
    if steps != [] {
      LostForGood(s, steps[..|steps| - 1], q, j);
      LostStays(Run(s, steps[..|steps| - 1]), steps[|steps| - 1], q, j);
      ReachStep(Run(s, steps[..|steps| - 1]), steps[|steps| - 1]);
    }
  }

  lemma HandlingFails(s: State, q: nat, now: nat)
    requires q < |s.log| && s.log[q].stage == Idle && s.log[q].next < |s.log[q].records|
    requires Transacts(s.log[q].records[s.log[q].next])
    ensures Apply(Apply(s, Fetch(q)), Route(q, false, now)) == HandlerFails(s, q)
  {
    var fetched := Apply(s, Fetch(q));
    assert fetched.log[q := HandlerFails(s, q).log[q]] == HandlerFails(s, q).log;
  }

  /** A returned error loses the event: with two records to go, a rolled-back transaction on the first
      and success on the second commit an offset that has passed the first, and nothing that may
      follow ever gets it handled. */
  lemma ReturnedErrorSkipsTheEvent(s: State, q: nat, now: nat)
    requires Reach(s) && q < |s.log| && s.log[q].stage == Idle && s.log[q].next + 1 < |s.log[q].records|
    requires (q, s.log[q].next) !in s.handled && s.log[q].records[s.log[q].next + 1].id != NoId
    requires s.log[q].records[s.log[q].next].typ.OrderEvent?
    ensures var failed := Apply(Apply(s, Fetch(q)), Route(q, false, now));
            var audited := Apply(Apply(Apply(failed, Fetch(q)), Route(q, true, now)), RecordAudit(q, ANSWERS, true));
            var s' := Apply(audited, CommitOffset(q, true));
            && (q, s.log[q].next) in s'.failed
            && forall steps :: Lost(Run(s', steps), q, s.log[q].next)
  {
    var j := s.log[q].next;
    RecordRoutes(s, q, j + 1, now);
    RecordTransacts(s, q, j);
    HandlingFails(s, q, now);
    HandlingSucceeds(HandlerFails(s, q), q, now);
    var fetched := Apply(s, Fetch(q));
    var failed := Apply(fetched, Route(q, false, now));
    var again := Apply(failed, Fetch(q));
    var routed := Apply(again, Route(q, true, now));
    var audited := Apply(routed, RecordAudit(q, ANSWERS, true));
    var s' := Apply(audited, CommitOffset(q, true));
    ReachStep(s, Fetch(q));
    ReachStep(fetched, Route(q, false, now));
    ReachStep(failed, Fetch(q));
    ReachStep(again, Route(q, true, now));
    ReachStep(routed, RecordAudit(q, ANSWERS, true));
    ReachStep(audited, CommitOffset(q, true));
    forall steps ensures Lost(Run(s', steps), q, j) {
      LostForGood(s', steps, q, j);
    }
  }

  // ---------- any interleaving without a death ----------

  /** The records before the position are those handled and those that failed, and none is both. */
  ghost predicate HandledOnce(s: State, q: nat) {
    q < |s.log| ==>
      forall j: nat :: (j < s.log[q].next <==> (q, j) in s.handled + s.failed) && (q, j) !in s.handled * s.failed
  }

  lemma {:induction false} WithoutDeathHandledOnce(relays: nat, partitions: nat, steps: seq<Step>, q: nat)
    requires Dies(q) !in steps
    ensures HandledOnce(Run(Start(relays, partitions), steps), q)
  {
    if steps != [] {
      var n := |steps| - 1;
      WithoutDeathHandledOnce(relays, partitions, steps[..n], q);
      HandledOnceStays(Run(Start(relays, partitions), steps[..n]), steps[n], q);
    }
  }

  lemma HandledOnceStays(s: State, st: Step, q: nat)
    requires HandledOnce(s, q) && st != Dies(q)
    ensures HandledOnce(Apply(s, st), q)
  {
    PositionMoves(s, st, q);
    var s' := Apply(s, st);
    forall j: nat | q < |s'.log|
      ensures (j < s'.log[q].next <==> (q, j) in s'.handled + s'.failed) && (q, j) !in s'.handled * s'.failed
    {
      assert (j < s.log[q].next <==> (q, j) in s.handled + s.failed) && (q, j) !in s.handled * s.failed;
    }
  }

  /** A step other than a death leaves the position and what is known of its partition's records, or
      moves past one record, handled or failed. */
  lemma PositionMoves(s: State, st: Step, q: nat)
    requires st != Dies(q)
    ensures var s' := Apply(s, st);
            |s'.log| == |s.log| && (q < |s.log| ==>
              var part, part' := s.log[q], s'.log[q];
              || (part'.next == part.next && forall j: nat ::
                    ((q, j) in s'.handled <==> (q, j) in s.handled) && ((q, j) in s'.failed <==> (q, j) in s.failed))
              || (part'.next == part.next + 1 && s'.failed == s.failed && s'.handled == s.handled + {(q, part.next)})
              || (part'.next == part.next + 1 && s'.handled == s.handled && s'.failed == s.failed + {(q, part.next)}))
  {
    match st
    case Fetch(_) =>
    case Route(_, _, _) =>
    case RecordAudit(_, _, _) =>
    case CommitOffset(_, _) =>
    case Dies(_) =>
    case _ => assert WorkerStep(s, st) == s;
  }

  /** However the worker, the relays and the API interleave: as long as the consumer of the partition
      has not died, a record behind its committed offset is unhandled if and only if its handler
      returned an error. */
  lemma LostIffFailed(relays: nat, partitions: nat, steps: seq<Step>, q: nat, j: nat)
    requires Dies(q) !in steps
    requires var s := Run(Start(relays, partitions), steps); q < |s.log| && j < s.log[q].committed
    ensures var s := Run(Start(relays, partitions), steps);
            Lost(s, q, j) <==> (q, j) in s.failed
  {
    var s := Run(Start(relays, partitions), steps);
    Reachable(relays, partitions, steps);
    assert PartitionOk(s, q);
    WithoutDeathHandledOnce(relays, partitions, steps, q);
    assert (q, j) in s.handled + s.failed && (q, j) !in s.handled * s.failed;
  }

  // ---------- the loop, turn by turn ----------

  /** The states around the turns `ts`: `at[k]` is the one turn `k` finds. */
  ghost predicate Trace(at: seq<State>, q: nat, ts: seq<Turn>) {
    && |at| == |ts| + 1
    && q < |at[0].log| && at[0].log[q].stage == Idle
    && (forall t | t in ts :: |t.attempts| == MAX_RETRIES)
    && (forall k {:trigger OneTurn(at[k], q, ts[k])} | 0 <= k < |ts| :: at[k + 1] == OneTurn(at[k], q, ts[k]))
  }

  /** The turn fetches the record at the position it finds. */
  predicate Fetches(s: State, q: nat, t: Turn) {
    t.fetches && q < |s.log| && s.log[q].next < |s.log[q].records|
  }

  /** The handler returns no error for that record. */
  predicate Succeeds(s: State, q: nat, t: Turn)
    requires Fetches(s, q, t)
  {
    Handled(s, s.log[q].records[s.log[q].next], t).Ok?
  }

  /** What a turn does to the position, the committed offset and the handled records. */
  ghost predicate Moves(s: State, s': State, q: nat, t: Turn) {
    && q < |s.log| && q < |s'.log|
    && s.log[q].stage == Idle && s'.log[q].stage == Idle
    && var part, part' := s.log[q], s'.log[q];
       if !Fetches(s, q, t) then part' == part && s'.handled == s.handled
       else
         && part'.next == part.next + 1
         && part'.committed == (if Succeeds(s, q, t) && t.acked then part.next + 1 else part.committed)
         && s'.handled == (if Succeeds(s, q, t) then s.handled + {(q, part.next)} else s.handled)
  }

  lemma OneTurnMoves(s: State, q: nat, t: Turn)
    requires q < |s.log| && s.log[q].stage == Idle && |t.attempts| == MAX_RETRIES
    ensures Moves(s, OneTurn(s, q, t), q, t)
  {
    if t.fetches {
      OneMessage(s, q, t);
    }
  }

  lemma {:induction false} TraceMoves(at: seq<State>, q: nat, ts: seq<Turn>, k: nat)
    requires Trace(at, q, ts) && k < |ts|
    ensures Moves(at[k], at[k + 1], q, ts[k])
  {
    if k > 0 {
      TraceMoves(at, q, ts, k - 1);
    }
    assert ts[k] in ts;
    assert at[k + 1] == OneTurn(at[k], q, ts[k]);
    OneTurnMoves(at[k], q, ts[k]);
  }

  /** Turn `k` fetches record `j`. */
  predicate Takes(at: seq<State>, q: nat, ts: seq<Turn>, k: nat, j: nat) {
    k < |ts| <= |at| && Fetches(at[k], q, ts[k]) && at[k].log[q].next == j
  }

  /** Turn `k` fetches record `j` and its handler returns an error. */
  predicate Fails(at: seq<State>, q: nat, ts: seq<Turn>, k: nat, j: nat) {
    Takes(at, q, ts, k, j) && !Succeeds(at[k], q, ts[k])
  }

  /** Turn `k` handles record `j` and its commit is acknowledged. */
  predicate Commits(at: seq<State>, q: nat, ts: seq<Turn>, k: nat, j: nat) {
    Takes(at, q, ts, k, j) && Succeeds(at[k], q, ts[k]) && ts[k].acked
  }

  lemma {:induction false} TakenBefore(at: seq<State>, q: nat, ts: seq<Turn>, j: nat, n: nat)
    requires Trace(at, q, ts) && n <= |ts| && at[0].log[q].next <= j
    ensures q < |at[n].log|
    ensures j < at[n].log[q].next <==> exists k: nat :: k < n && Takes(at, q, ts, k, j)
  {
    if n > 0 {
      TakenBefore(at, q, ts, j, n - 1);
      TraceMoves(at, q, ts, n - 1);
      if Fetches(at[n - 1], q, ts[n - 1]) {
        assert Takes(at, q, ts, n - 1, at[n - 1].log[q].next);
      }
    }
  }

  /** The first `n` turns handle record `j` exactly when one of them takes it without failing, and put
      the offset past it exactly when one of them commits it or a later one. */
  lemma {:induction false} AfterTurns(at: seq<State>, q: nat, ts: seq<Turn>, j: nat, n: nat)
    requires Trace(at, q, ts) && n <= |ts|
    requires at[0].log[q].committed <= at[0].log[q].next <= j && (q, j) !in at[0].handled
    ensures q < |at[n].log| && at[n].log[q].committed <= at[n].log[q].next
    ensures (q, j) in at[n].handled <==> exists k: nat :: k < n && Takes(at, q, ts, k, j) && !Fails(at, q, ts, k, j)
    ensures j < at[n].log[q].committed <==> exists k: nat, i: nat :: k < n && j <= i && Commits(at, q, ts, k, i)
  {
    if n > 0 {
      AfterTurns(at, q, ts, j, n - 1);
      TraceMoves(at, q, ts, n - 1);
      var s, s' := at[n - 1], at[n];
      var i := s.log[q].next;
      if Fetches(s, q, ts[n - 1]) {
        assert Takes(at, q, ts, n - 1, i);
      }
      if j < s'.log[q].committed && !(j < s.log[q].committed) {
        assert Commits(at, q, ts, n - 1, i);
      }
    }
  }

  /** The worker loses a record if and only if the record's own turn returns an error and a later turn
      handles another record and has its commit acknowledged; then it is lost for good. */
  lemma LostIffPassed(at: seq<State>, q: nat, ts: seq<Turn>, j: nat)
    requires Trace(at, q, ts) && Reach(at[0])
    requires at[0].log[q].next <= j && (q, j) !in at[0].handled
    ensures Lost(at[|ts|], q, j) <==>
            exists k: nat, l: nat, i: nat :: k < l && Fails(at, q, ts, k, j) && Commits(at, q, ts, l, i)
  {
    ReachedInv(at[0]);
    assert PartitionOk(at[0], q);
    var n := |ts|;
    AfterTurns(at, q, ts, j, n);
    if Lost(at[n], q, j) {
      var l: nat, i: nat :| l < n && j <= i && Commits(at, q, ts, l, i);
      assert i != j by {
        assert i == j ==> Takes(at, q, ts, l, j) && !Fails(at, q, ts, l, j);
      }
      TakenBefore(at, q, ts, j, l);
      var k: nat :| k < l && Takes(at, q, ts, k, j);
      assert Fails(at, q, ts, k, j);
    }
    if k: nat, l: nat, i: nat :| k < l && Fails(at, q, ts, k, j) && Commits(at, q, ts, l, i) {
      TakenBefore(at, q, ts, j, l);
      assert j < at[l].log[q].next == i;
      forall m: nat | m < n && Takes(at, q, ts, m, j) ensures m == k {
        TakenOnce(at, q, ts, k, m, j);
      }
    }
  }

  lemma TakenOnce(at: seq<State>, q: nat, ts: seq<Turn>, k: nat, m: nat, j: nat)
    requires Trace(at, q, ts) && Takes(at, q, ts, k, j) && Takes(at, q, ts, m, j)
    ensures k == m
  {
    if k < m {
      PositionGrows(at, q, ts, k, m);
    } else if m < k {
      PositionGrows(at, q, ts, m, k);
    }
  }

  lemma {:induction false} PositionGrows(at: seq<State>, q: nat, ts: seq<Turn>, k: nat, m: nat)
    requires Trace(at, q, ts) && k < m <= |ts| && Fetches(at[k], q, ts[k])
    ensures q < |at[m].log| && at[k].log[q].next < at[m].log[q].next
  {
    TraceMoves(at, q, ts, m - 1);
    if k < m - 1 {
      PositionGrows(at, q, ts, k, m - 1);
    }
  }
}
