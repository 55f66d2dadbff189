/** The audit half of the worker: insert with retries, dead-letter when they run out. */
module Audit {
  import opened Domain
  import opened Tables

  const MAX_RETRIES := 3

  /** What the store does with one insert: it answers, it fails, or it writes and the answer is lost. */
  datatype Attempt = Answers | Fails | WritesThenFails

  predicate Recorded(store: seq<Event>, id: EventId) {
    exists i | 0 <= i < |store| :: store[i].id == id
  }

  /** The unique index on the event id: at most one document each. */
  ghost predicate UniqueIds(store: seq<Event>) {
    forall i, j | 0 <= i < j < |store| :: store[i].id != store[j].id
  }

  /** Inserting a document whose id is taken writes nothing. */
  function Inserted(store: seq<Event>, e: Event): seq<Event> {
    if Recorded(store, e.id) then store else store + [e]
  }

  datatype Outcome = Outcome(store: seq<Event>, dead: seq<Event>, result: Result<()>)

  /** Does some attempt answer? */
  predicate Succeeds(attempts: seq<Attempt>) {
    exists i | 0 <= i < |attempts| :: attempts[i] == Answers
  }

  predicate Writes(attempts: seq<Attempt>) {
    exists i | 0 <= i < |attempts| :: attempts[i] != Fails
  }

  /** Handling one event: three inserts at most, then the dead-letter topic; an envelope that did not
      decode goes straight there. */
  function HandleAudit(store: seq<Event>, dead: seq<Event>, e: Event, attempts: seq<Attempt>, dlq: bool): Outcome {
    if e.id != NoId && Succeeds(attempts) then Outcome(Inserted(store, e), dead, Ok(()))
    else
      var left := if e.id != NoId && Writes(attempts) then Inserted(store, e) else store;
      if dlq then Outcome(left, dead + [e], Ok(())) else Outcome(left, dead, Err(Unavailable))
  }

  class Processor {
    var store: seq<Event>
    var dead: seq<Event>

    constructor ()
      ensures store == [] && dead == []
    {
      store, dead := [], [];
    }

    /** A duplicate key counts as success. */
    method Insert(e: Event, attempt: Attempt) returns (r: Result<()>)
      modifies this`store
      ensures store == if attempt == Fails then old(store) else Inserted(old(store), e)
      ensures r.Ok? <==> attempt == Answers
    {
      if attempt == Fails { return Err(Unavailable); }
      if !Recorded(store, e.id) { store := store + [e]; }
      r := if attempt == Answers then Ok(()) else Err(Unavailable);
    }

    method DeadLetter(e: Event, dlq: bool) returns (r: Result<()>)
      modifies this`dead
      ensures r == if dlq then Ok(()) else Err(Unavailable)
      ensures dead == if dlq then old(dead) + [e] else old(dead)
    {
      if !dlq { return Err(Unavailable); }
      dead := dead + [e];
      r := Ok(());
    }

    /** `attempts` is what the store does at each try, `dlq` whether the dead-letter publish works. */
    method Handle(e: Event, attempts: seq<Attempt>, dlq: bool) returns (r: Result<()>)
      requires |attempts| == MAX_RETRIES
      modifies this
      ensures Outcome(store, dead, r) == HandleAudit(old(store), old(dead), e, attempts, dlq)
    {
      if e.id == NoId {
        r := DeadLetter(e, dlq);
        return;
      }
      for attempt := 0 to MAX_RETRIES
        invariant dead == old(dead)
        invariant store == if Writes(attempts[..attempt]) then Inserted(old(store), e) else old(store)
        invariant !Succeeds(attempts[..attempt])
      {
        var next := attempts[..attempt + 1];
        assert next == attempts[..attempt] + [attempts[attempt]];
        assert next[attempt] == attempts[attempt];
        assert Writes(next) <==> Writes(attempts[..attempt]) || attempts[attempt] != Fails by {
          if i :| 0 <= i < attempt && attempts[..attempt][i] != Fails {
            assert next[i] != Fails;
          }
        }
        InsertedTwice(old(store), e);
        var inserted := Insert(e, attempts[attempt]);
        if inserted.Ok? {
          assert attempts[attempt] == Answers;
          return Ok(());
        }
      }
      assert attempts[..MAX_RETRIES] == attempts;
      r := DeadLetter(e, dlq);
    }
  }

  lemma InsertedTwice(store: seq<Event>, e: Event)
    ensures Recorded(Inserted(store, e), e.id)
    ensures Inserted(Inserted(store, e), e) == Inserted(store, e)
  {
    if !Recorded(store, e.id) {
      assert (store + [e])[|store|].id == e.id;
    }
  }

  /** A handled event is in the audit store or the dead-letter topic, and no event is ever in the store
      twice, however often it is handled. */
  lemma AuditedOnce(store: seq<Event>, dead: seq<Event>, e: Event, attempts: seq<Attempt>, dlq: bool)
    requires UniqueIds(store)
    ensures var out := HandleAudit(store, dead, e, attempts, dlq);
            && UniqueIds(out.store) && store <= out.store && dead <= out.dead
            && (out.result.Ok? ==> Recorded(out.store, e.id) || e in out.dead)
  {
    InsertedTwice(store, e);
  }

  /** The outcome by what the store and the dead-letter topic answer to the three tries. An event that is
      not recorded is stored as it is when some try writes it; the handler succeeds when some try
      answers, or the event, as it is, reaches the dead-letter topic. */
  lemma AuditOutcome(store: seq<Event>, dead: seq<Event>, e: Event, attempts: seq<Attempt>, dlq: bool)
    requires |attempts| == 3
    ensures var out := HandleAudit(store, dead, e, attempts, dlq);
            var known := exists i | 0 <= i < |store| :: store[i].id == e.id;
            var answered := e.id != NoId &&
                            (attempts[0] == Answers || attempts[1] == Answers || attempts[2] == Answers);
            var written := e.id != NoId && (attempts[0] != Fails || attempts[1] != Fails || attempts[2] != Fails);
            && out.store == (if written && !known then store + [e] else store)
            && out.dead == (if !answered && dlq then dead + [e] else dead)
            && out.result == (if answered || dlq then Ok(()) else Err(Unavailable))
  {
    assert attempts[0] in attempts && attempts[1] in attempts && attempts[2] in attempts;
  }

  /** An audited event handled again with a store that answers changes nothing. */
  lemma AuditIsIdempotent(store: seq<Event>, dead: seq<Event>, e: Event, attempts: seq<Attempt>, again: seq<Attempt>,
      dlq: bool)
    requires e.id != NoId && Succeeds(attempts) && Succeeds(again)
    ensures var out := HandleAudit(store, dead, e, attempts, dlq);
            HandleAudit(out.store, out.dead, e, again, dlq) == out
  {
    InsertedTwice(store, e);
  }
}
