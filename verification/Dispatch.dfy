/** The worker's handling of one message: commerce effect first, audit second, an error of either
    ending it. */
module Dispatch {
  import opened Domain
  import opened Tables
  import opened Transactions
  import opened Audit
  import PaymentWorker
  import InventoryWorker

  class Processor {
    const db: Postgres
    const audit: Audit.Processor
    const payment: PaymentWorker.Handler
    const inventory: InventoryWorker.Handler

    constructor (db: Postgres, audit: Audit.Processor)
      ensures this.db == db && this.audit == audit && Wired()
    {
      this.db, this.audit := db, audit;
      payment := new PaymentWorker.Handler(db);
      inventory := new InventoryWorker.Handler(db);
    }

    ghost predicate Wired() {
      payment.db == db && inventory.db == db
    }

    /** `commits` is whether the database commits the handler's transaction. */
    method RouteCommerce(e: Event, commits: bool, now: nat) returns (r: Result<()>)
      requires Wired() && e.id != NoId && ForeignKeys(db.Snapshot())
      modifies db
      ensures Tx(db.Snapshot(), r) == Delivered(old(db.Snapshot()), e, commits, now)
      ensures ForeignKeys(db.Snapshot())
    {
      if !e.typ.OrderEvent? { return Ok(()); }
      var saved := db.Snapshot();
      if e.typ == EVENT_ORDER_CREATED {
        r := payment.HandleOrderCreated(e, now);
      } else {
        var released := inventory.Handle(e);
        r := if released.Ok? then Ok(()) else Err(released.error);
      }
      if r.Ok? && !commits {
        db.Rollback(saved);
        r := Err(Unavailable);
      }
    }

    /** A message whose commerce effect fails is not audited; one that is not audited is not committed. */
    method Handle(e: Event, commits: bool, now: nat, attempts: seq<Attempt>, dlq: bool) returns (r: Result<()>)
      requires Wired() && ForeignKeys(db.Snapshot()) && |attempts| == MAX_RETRIES
      modifies db, audit
      ensures ForeignKeys(db.Snapshot())
      ensures var t := Delivered(old(db.Snapshot()), e, commits, now);
              && db.Snapshot() == t.db
              && if t.result.Err? then r == t.result && audit.store == old(audit.store) && audit.dead == old(audit.dead)
                 else
                   Outcome(audit.store, audit.dead, r) ==
                   HandleAudit(old(audit.store), old(audit.dead), e, attempts, dlq)
    {
      if e.id != NoId {
        r := RouteCommerce(e, commits, now);
        if r.Err? { return; }
      }
      r := audit.Handle(e, attempts, dlq);
    }
  }
}
