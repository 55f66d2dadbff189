/** What each transaction does, case by case: who may do it, in which status, with which error, and
    what the tables are afterwards. Statuses, errors and outcomes are written out. */
module Outcomes {
  import opened Domain
  import opened Tables
  import opened Settlement
  import opened Transactions
  import opened System
  import opened Creation

  /** The transition table, pair by pair. */
  lemma TransitionTable(from: Status, to: Status)
    ensures CanTransition(from, to) <==>
            || (from == PendingPayment && (to == Paid || to == PaymentFailed || to == Cancelled))
            || (from == PaymentFailed && (to == Paid || to == Cancelled))
            || (from == Paid && to == Fulfilled)
  {
  }

  // ---------- what a move leaves behind ----------

  /** What becomes of a held reservation when its order enters status `to`. */
  function HeldBecomes(to: Status): ReservationStatus {
    match to
    case Paid => Committed
    case PaymentFailed => Released
    case Cancelled => Released
    case _ => Held
  }

  /** Every held row has become `rs`, every other row is as it was. */
  ghost predicate RowsBecome(rows: seq<Reservation>, rows': seq<Reservation>, rs: ReservationStatus) {
    && |rows'| == |rows|
    && forall i | 0 <= i < |rows| ::
         rows'[i] == Reservation(rows[i].product, rows[i].qty, if rows[i].status == Held then rs else rows[i].status)
  }

  /** Each product has got back what the rows held of it if they are released, and is otherwise as it was. */
  ghost predicate StockBecomes(products: map<nat, Product>, products': map<nat, Product>, rows: seq<Reservation>,
      rs: ReservationStatus) {
    && products'.Keys == products.Keys
    && forall p | p in products ::
         products'[p] == Product(products[p].price,
                                 products[p].stock + if rs == Released then RowsQty(rows, p, Held) else 0,
                                 products[p].deleted)
  }

  /** One event of order `o`, which has just entered status `to`. */
  function Announcement(o: nat, ord: Order, to: Status, now: nat): OutboxRow {
    OutboxRow(o, OrderEvent(to),
              Json(Payload(Some(o), ord.user, to,
                           if to == PendingPayment || to == Paid then Some(ord.total) else None, None)),
              now)
  }

  /** Order `o` has entered status `to` with the payments `payments`: version, reservations, stock and
      one outbox row follow, and nothing else has changed but the ledger, which has only grown. */
  ghost predicate Entered(d: DB, d': DB, o: nat, to: Status, payments: map<Key, Payment>, now: nat) {
    && o in d.orders && o in d'.orders && d'.orders.Keys == d.orders.Keys
    && (forall x | x in d.orders && x != o :: d'.orders[x] == d.orders[x])
    && var ord, ord' := d.orders[o], d'.orders[o];
       && ord' == Order(ord.user, to, ord.total, ord.version + 1, ord.createdAt, ord.items, ord'.reservations, payments)
       && RowsBecome(ord.reservations, ord'.reservations, HeldBecomes(to))
       && StockBecomes(d.products, d'.products, ord.reservations, HeldBecomes(to))
       && d'.outbox == d.outbox + [Announcement(o, ord, to, now)]
       && d.ledger <= d'.ledger
       && |d'.ledger| == |d.ledger| + (if to == Fulfilled then 0 else |HeldProducts(ord.reservations)|)
       && d'.nextOrder == d.nextOrder && d'.published == d.published && d'.inbox == d.inbox
  }

  lemma {:induction false} EntryForEachHeld(products: map<nat, Product>, o: nat, rows: seq<Reservation>,
      to: ReservationStatus)
    ensures |SettlementEntries(products, o, rows, to)| == |HeldProducts(rows)|
  {
    if rows != [] {
      EntryForEachHeld(products, o, rows[..|rows| - 1], to);
    }
  }

  lemma SettledSpelled(d: DB, o: nat, rs: ReservationStatus)
    requires o in d.orders && rs != Held
    ensures var d', rows := Settled(d, o, rs), d.orders[o].reservations;
            && d'.orders.Keys == d.orders.Keys
            && (forall x | x in d.orders && x != o :: d'.orders[x] == d.orders[x])
            && d'.orders[o] == d.orders[o].(reservations := d'.orders[o].reservations)
            && RowsBecome(rows, d'.orders[o].reservations, rs)
            && StockBecomes(d.products, d'.products, rows, rs)
            && d.ledger <= d'.ledger && |d'.ledger| == |d.ledger| + |HeldProducts(rows)|
            && d'.outbox == d.outbox && d'.inbox == d.inbox
            && d'.published == d.published && d'.nextOrder == d.nextOrder
  {
    EntryForEachHeld(d.products, o, d.orders[o].reservations, rs);
  }

  lemma AdvanceEnters(d: DB, o: nat, to: Status, pay: map<Key, Payment>, now: nat)
    requires o in d.orders && to != PendingPayment
    ensures Entered(d, Advance(d, o, to, pay, now), o, to, d.orders[o].payments + pay, now)
  {
    var moved := d.(orders := d.orders[o := Moved(d.orders[o], to, pay)]);
    if to != Fulfilled {
      SettledSpelled(moved, o, HeldBecomes(to));
    }
  }

  // ---------- cancelling ----------

  /** A cancellation succeeds exactly for a pending or payment_failed order, and for the system or the
      order's owner. A stranger is told that there is no such order, and changes nothing. */
  lemma CancelOutcome(d: DB, user: Option<nat>, o: nat, now: nat)
    ensures var t := Cancel(d, user, o, now);
            && (t.result.Ok? <==>
                  && o in d.orders && (user == None || user == Some(d.orders[o].user))
                  && (d.orders[o].status == PendingPayment || d.orders[o].status == PaymentFailed))
            && (t.result.Ok? ==> Entered(d, t.db, o, Cancelled, d.orders[o].payments, now))
            && (t.result.Err? ==> t.db == d)
            && (o !in d.orders || (user.Some? && user.value != d.orders[o].user) ==> t.result == Err(NotFound))
            && (t.result.Err? && o in d.orders && (user == None || user == Some(d.orders[o].user)) ==>
                 t.result == Err(Conflict))
  {
    if o in d.orders {
      TransitionTable(d.orders[o].status, Cancelled);
      AdvanceEnters(d, o, Cancelled, map[], now);
      assert d.orders[o].payments + map[] == d.orders[o].payments;
    }
  }

  // ---------- fulfilling ----------

  /** Exactly a paid order can be fulfilled. */
  lemma FulfillOutcome(d: DB, o: nat, now: nat)
    ensures var t := Fulfill(d, o, now);
            && (t.result.Ok? <==> o in d.orders && d.orders[o].status == Paid)
            && (t.result.Ok? ==>
                  && Entered(d, t.db, o, Fulfilled, d.orders[o].payments, now)
                  && t.db.products == d.products && t.db.ledger == d.ledger
                  && t.db.orders ==
                     d.orders[o := d.orders[o].(status := Fulfilled, version := d.orders[o].version + 1)])
            && (t.result.Err? ==> t.db == d && t.result == Err(if o in d.orders then Conflict else NotFound))
  {
    if o in d.orders {
      TransitionTable(d.orders[o].status, Fulfilled);
      AdvanceEnters(d, o, Fulfilled, map[], now);
      assert d.orders[o].payments + map[] == d.orders[o].payments;
    }
  }

  // ---------- paying ----------

  /** The attempt may charge, or record a failed charge. */
  predicate MayPay(d: DB, user: nat, o: nat, outcome: string, key: Key) {
    && o in d.orders && d.orders[o].user == user && key !in d.orders[o].payments
    && (key.Text? ==> |key.s| <= 128) && outcome != "timeout"
    && (d.orders[o].status == PendingPayment || (d.orders[o].status == PaymentFailed && outcome != "fail"))
  }

  lemma PayCharges(d: DB, user: nat, o: nat, outcome: string, key: Key, now: nat)
    requires MayPay(d, user, o, outcome, key)
    ensures var t, ord := Pay(d, user, o, outcome, key, now), d.orders[o];
            var to := if outcome == "fail" then PaymentFailed else Paid;
            var pay := if outcome == "fail" then Payment(Failed, ord.total, "sim-fail")
                       else Payment(Succeeded, ord.total, "sim-ok");
            && t.result == Ok(PayResult(to, ord.version + 1, Some(pay)))
            && Entered(d, t.db, o, to, ord.payments[key := pay], now)
  {
    var ord, to := d.orders[o], if outcome == "fail" then PaymentFailed else Paid;
    var pay := if outcome == "fail" then Payment(Failed, ord.total, "sim-fail")
               else Payment(Succeeded, ord.total, "sim-ok");
    TransitionTable(ord.status, to);
    AdvanceEnters(d, o, to, map[key := pay], now);
    assert ord.payments + map[key := pay] == ord.payments[key := pay];
  }

  lemma PayRefuses(d: DB, user: nat, o: nat, outcome: string, key: Key, now: nat)
    requires !MayPay(d, user, o, outcome, key)
    ensures Pay(d, user, o, outcome, key, now).db == d
  {
    if o in d.orders {
      TransitionTable(d.orders[o].status, if outcome == "fail" then PaymentFailed else Paid);
    }
  }

  predicate HasPayment(d: DB, o: nat, key: Key) {
    o in d.orders && key in d.orders[o].payments
  }

  /** A payment row under a new key appears if and only if the owner attempts it with a key that fits,
      the provider does not time out, and the order is pending, or payment_failed and the attempt does
      not fail again. Then the order enters paid or payment_failed; otherwise nothing changes. */
  lemma PayOutcome(d: DB, user: nat, o: nat, outcome: string, key: Key, now: nat)
    ensures var t := Pay(d, user, o, outcome, key, now);
            && (HasPayment(t.db, o, key) && !HasPayment(d, o, key) <==> MayPay(d, user, o, outcome, key))
            && (MayPay(d, user, o, outcome, key) ==>
                  var to := if outcome == "fail" then PaymentFailed else Paid;
                  var pay := if outcome == "fail" then Payment(Failed, d.orders[o].total, "sim-fail")
                             else Payment(Succeeded, d.orders[o].total, "sim-ok");
                  && t.result == Ok(PayResult(to, d.orders[o].version + 1, Some(pay)))
                  && Entered(d, t.db, o, to, d.orders[o].payments[key := pay], now))
            && (!MayPay(d, user, o, outcome, key) ==> t.db == d)
  {
    if MayPay(d, user, o, outcome, key) {
      PayCharges(d, user, o, outcome, key, now);
    } else {
      PayRefuses(d, user, o, outcome, key, now);
    }
  }

  /** What an attempt that pays nothing answers: to a stranger that there is no such order, under a used
      key that key's payment, of a paid or fulfilled order its status and no payment, after a timeout
      that the provider is unavailable, and a conflict in the remaining statuses. */
  lemma PayAnswers(d: DB, user: nat, o: nat, outcome: string, key: Key, now: nat)
    ensures var r := Pay(d, user, o, outcome, key, now).result;
            if o !in d.orders || d.orders[o].user != user then r == Err(NotFound)
            else
              var ord := d.orders[o];
              && (key in ord.payments ==> r == Ok(PayResult(ord.status, ord.version, Some(ord.payments[key]))))
              && (key !in ord.payments && (ord.status == Paid || ord.status == Fulfilled) ==>
                    r == Ok(PayResult(ord.status, ord.version, None)))
              && (key !in ord.payments && ord.status != Paid && ord.status != Fulfilled ==>
                    && (outcome == "timeout" ==> r == Err(Unavailable))
                    && var closed := ord.status == Cancelled || (ord.status == PaymentFailed && outcome == "fail");
                       && (outcome != "timeout" && closed ==> r == Err(Conflict))
                       && (outcome != "timeout" && !closed && key.Text? && |key.s| > 128 ==> r == Err(Constraint)))
  {
    if o in d.orders {
      TransitionTable(d.orders[o].status, if outcome == "fail" then PaymentFailed else Paid);
    }
  }

  // ---------- the payment worker ----------

  /** An order.created event that names an order and is new to the payment worker. */
  predicate NewCharge(d: DB, e: Event) {
    e.payload.orderId.Some? && e.payload.orderId.value != 0 && (e.id, PaymentConsumer) !in d.inbox
  }

  /** The event charges its order: the order is pending, or payment_failed and the charge is not to fail. */
  predicate MayCharge(d: DB, e: Event) {
    && NewCharge(d, e) && e.payload.orderId.value in d.orders
    && var ord := d.orders[e.payload.orderId.value];
       && ForEvent(e.id) !in ord.payments
       && (ord.status == PendingPayment || (ord.status == PaymentFailed && e.payload.simulateOutcome != Some("fail")))
  }

  /** A new event is claimed in any case, and charges exactly when it may; a known one changes nothing,
      and one that names no order is an error. */
  lemma ChargeOutcome(d: DB, e: Event, now: nat)
    ensures var t := HandleOrderCreated(d, e, now);
            var claimed := d.(inbox := d.inbox + {(e.id, PaymentConsumer)});
            && (t.result == if e.payload.orderId in {None, Some(0)} then Err(Invalid) else Ok(()))
            && (!NewCharge(d, e) ==> t.db == d)
            && (NewCharge(d, e) && !MayCharge(d, e) ==> t.db == claimed)
            && (MayCharge(d, e) ==>
                  var o := e.payload.orderId.value;
                  var ord, fails := d.orders[o], e.payload.simulateOutcome == Some("fail");
                  var pay := if fails then Payment(Failed, ord.total, "worker-sim-fail")
                             else Payment(Succeeded, ord.total, "worker-sim-ok");
                  Entered(claimed, t.db, o, if fails then PaymentFailed else Paid,
                          ord.payments[ForEvent(e.id) := pay], now))
  {
    if MayCharge(d, e) {
      var o, fails := e.payload.orderId.value, e.payload.simulateOutcome == Some("fail");
      var ord, to := d.orders[o], if fails then PaymentFailed else Paid;
      var pay := if fails then Payment(Failed, ord.total, "worker-sim-fail")
                 else Payment(Succeeded, ord.total, "worker-sim-ok");
      TransitionTable(ord.status, to);
      AdvanceEnters(Claimed(d, e.id, PaymentConsumer), o, to, map[ForEvent(e.id) := pay], now);
      assert ord.payments + map[ForEvent(e.id) := pay] == ord.payments[ForEvent(e.id) := pay];
    } else if NewCharge(d, e) && e.payload.orderId.value in d.orders {
      TransitionTable(d.orders[e.payload.orderId.value].status, PaymentFailed);
      TransitionTable(d.orders[e.payload.orderId.value].status, Paid);
    }
  }

  // ---------- the inventory worker ----------

  /** The events the inventory worker settles on, and how. */
  function SettlesTo(typ: EventType): Option<ReservationStatus> {
    match typ
    case OrderEvent(Paid) => Some(Committed)
    case OrderEvent(Fulfilled) => Some(Committed)
    case OrderEvent(Cancelled) => Some(Released)
    case OrderEvent(PaymentFailed) => Some(Released)
    case _ => None
  }

  /** From any database: a new settlement event is claimed and its order's held rows are committed after
      order.paid and order.fulfilled, released after order.cancelled and order.payment_failed, with the
      released products returned; statuses, payments and the outbox are left alone. */
  lemma InventoryOutcome(d: DB, e: Event)
    ensures var t, to := HandleInventory(d, e), SettlesTo(e.typ);
            if to == None then t == Tx(d, Ok([]))
            else if e.payload.orderId in {None, Some(0)} then t == Tx(d, Err(Invalid))
            else if (e.id, InventoryConsumer) in d.inbox then t == Tx(d, Ok([]))
            else
              var o, d' := e.payload.orderId.value, t.db;
              && d'.inbox == d.inbox + {(e.id, InventoryConsumer)}
              && d'.outbox == d.outbox && d'.published == d.published && d'.nextOrder == d.nextOrder
              && (o !in d.orders ==> t == Tx(d.(inbox := d'.inbox), Ok([])))
              && (o in d.orders ==>
                    var rows := d.orders[o].reservations;
                    && t.result == Ok(if to == Some(Released) then HeldProducts(rows) else [])
                    && d'.orders.Keys == d.orders.Keys
                    && (forall x | x in d.orders && x != o :: d'.orders[x] == d.orders[x])
                    && d'.orders[o] == d.orders[o].(reservations := d'.orders[o].reservations)
                    && RowsBecome(rows, d'.orders[o].reservations, to.value)
                    && StockBecomes(d.products, d'.products, rows, to.value)
                    && d.ledger <= d'.ledger && |d'.ledger| == |d.ledger| + |HeldProducts(rows)|)
  {
    var claimed := Claimed(d, e.id, InventoryConsumer);
    if e.payload.orderId.Some? && e.payload.orderId.value in d.orders {
      SettledSpelled(claimed, e.payload.orderId.value, Committed);
      SettledSpelled(claimed, e.payload.orderId.value, Released);
    }
  }

  /** Which handler gets which event, and that a transaction that does not commit leaves no trace. */
  lemma RouteOutcome(d: DB, e: Event, now: nat)
    ensures e.id == NoId ==> RouteCommerce(d, e, now) == Tx(d, Ok(()))
    ensures e.id != NoId && e.typ == OrderEvent(PendingPayment) ==>
            RouteCommerce(d, e, now) == HandleOrderCreated(d, e, now)
    ensures e.id != NoId && SettlesTo(e.typ).Some? ==>
              && RouteCommerce(d, e, now).db == HandleInventory(d, e).db
              && (RouteCommerce(d, e, now).result.Ok? <==> HandleInventory(d, e).result.Ok?)
    ensures e.typ.OtherEvent? ==> RouteCommerce(d, e, now) == Tx(d, Ok(()))
    ensures e.id != NoId && e.typ.OrderEvent? && e.payload.orderId !in {None, Some(0)} ==>
              Delivered(d, e, false, now) == Tx(d, Err(Unavailable))
    ensures Delivered(d, e, true, now) == RouteCommerce(d, e, now)
  {
  }

  // ---------- whole runs ----------

  /** A cancellation or a payment by somebody who is not the order's owner. */
  predicate ByStranger(d: DB, st: Step) {
    && st.Api? && (st.a.DoCancel? || st.a.DoPay?)
    && (st.a.o in d.orders ==> d.orders[st.a.o].user != st.a.user)
  }

  /** The run without the strangers' steps. */
  function ByOwners(s: State, steps: seq<Step>): seq<Step> {
    if steps == [] then []
    else
      var n := |steps| - 1;
      ByOwners(s, steps[..n]) + if ByStranger(Run(s, steps[..n]).db, steps[n]) then [] else [steps[n]]
  }

  /** Nobody but its owner cancels or pays an order: taking every stranger's attempt out of a run does
      not change the state it ends in. */
  lemma {:induction false} StrangersDoNothing(s: State, steps: seq<Step>)
    ensures Run(s, ByOwners(s, steps)) == Run(s, steps)
  {
    if steps != [] {
      var n := |steps| - 1;
      var before, st := Run(s, steps[..n]), steps[n];
      StrangersDoNothing(s, steps[..n]);
      if ByStranger(before.db, st) {
        StrangerIsRefused(before, st);
        assert ByOwners(s, steps) == ByOwners(s, steps[..n]);
      } else {
        assert ByOwners(s, steps)[..|ByOwners(s, steps)| - 1] == ByOwners(s, steps[..n]);
      }
    }
  }

  lemma StrangerIsRefused(s: State, st: Step)
    requires ByStranger(s.db, st)
    ensures Apply(s, st) == s
  {
    if st.a.DoCancel? {
      CancelOutcome(s.db, Some(st.a.user), st.a.o, st.a.now);
    } else {
      PayRefuses(s.db, st.a.user, st.a.o, st.a.outcome, st.a.key, st.a.now);
    }
  }

  /** The create step brings an orderable order into being, pending, for its user. */
  lemma CreateStep(s: State, user: nat, items: seq<CreateItem>, now: nat)
    requires Orderable(s.db.products, items)
    ensures Becomes(Apply(s, Api(DoCreate(user, items, now))), s.db.nextOrder, PendingPayment)
    ensures Apply(s, Api(DoCreate(user, items, now))).db.orders[s.db.nextOrder].user == user
  {
    CreatedRows(s.db, user, items, now);
  }

  /** The owner's and the system's cancel steps cancel a pending order. */
  lemma CancelSteps(s: State, o: nat, now: nat)
    requires o in s.db.orders && s.db.orders[o].status == PendingPayment
    ensures Becomes(Apply(s, Api(DoExpire(o, now))), o, Cancelled)
    ensures Becomes(Apply(s, Api(DoCancel(s.db.orders[o].user, o, now))), o, Cancelled)
  {
    CancelOutcome(s.db, None, o, now);
    CancelOutcome(s.db, Some(s.db.orders[o].user), o, now);
  }

  /** The owner's pay step pays a pending order or records the failure. */
  lemma PayStep(s: State, o: nat, fails: bool, key: Key, now: nat)
    requires o in s.db.orders && s.db.orders[o].status == PendingPayment
    requires KeyFits(key) && key !in s.db.orders[o].payments
    ensures Becomes(Apply(s, Api(DoPay(s.db.orders[o].user, o, if fails then "fail" else "success", key, now))), o,
                    if fails then PaymentFailed else Paid)
  {
    PayCharges(s.db, s.db.orders[o].user, o, if fails then "fail" else "success", key, now);
  }

  /** The fulfil step fulfils a paid order. */
  lemma FulfillStep(s: State, o: nat, now: nat)
    requires o in s.db.orders && s.db.orders[o].status == Paid
    ensures Becomes(Apply(s, Api(DoFulfill(o, now))), o, Fulfilled)
  {
    FulfillOutcome(s.db, o, now);
  }

  ghost predicate Becomes(s: State, o: nat, st: Status) {
    o in s.db.orders && s.db.orders[o].status == st
  }
}
