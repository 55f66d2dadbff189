/** The order state machine, its event names and the error values shared by every component. */
module Domain {

  datatype Option<+T> = None | Some(value: T)

  /** `Constraint` stands for a violated CHECK or UNIQUE constraint of the database. */
  datatype Error = Invalid | NotFound | Conflict | Unavailable | Constraint

  datatype Result<+T> = Ok(value: T) | Err(error: Error)

  datatype Status = PendingPayment | Paid | PaymentFailed | Cancelled | Fulfilled

  datatype ReservationStatus = Held | Committed | Released

  datatype PaymentStatus = Succeeded | Failed

  /** An order event announces the status the order has just entered. */
  datatype EventType = OrderEvent(to: Status) | OtherEvent(name: string)

  const EVENT_ORDER_CREATED := OrderEvent(PendingPayment)

  const ALLOWED_TRANSITIONS: map<Status, set<Status>> :=
    map[
      PendingPayment := {Paid, PaymentFailed, Cancelled},
      PaymentFailed := {Paid, Cancelled},
      Paid := {Fulfilled}
    ]

  predicate CanTransition(from: Status, to: Status) {
    from in ALLOWED_TRANSITIONS && to in ALLOWED_TRANSITIONS[from]
  }

  function Transition(from: Status, to: Status): (r: Result<Status>)
    ensures r.Ok? ==> r.value == to && Rank(to) < Rank(from)
    ensures r.Err? ==> r.error == Conflict && !CanTransition(from, to)
  {
    if CanTransition(from, to) then Ok(to) else Err(Conflict)
  }

  /** Every legal transition lowers the rank, so no order can move for ever. */
  function Rank(s: Status): nat {
    match s
    case PendingPayment => 3
    case PaymentFailed => 2
    case Paid => 1
    case Cancelled => 0
    case Fulfilled => 0
  }

  /** A history is legal when it starts in pending_payment and every step is an allowed transition. */
  ghost predicate Legal(h: seq<Status>) {
    && |h| > 0
    && h[0] == PendingPayment
    && forall i | 0 < i < |h| :: CanTransition(h[i - 1], h[i])
  }

  /** An order changes status at most three times, whatever happens to it. */
  lemma {:induction false} LegalIsShort(h: seq<Status>)
    requires Legal(h)
    ensures |h| + Rank(h[|h| - 1]) <= 4
  {
    if |h| > 1 {
      var prefix := h[..|h| - 1];
      assert Legal(prefix) by {
        forall i | 0 < i < |prefix| ensures CanTransition(prefix[i - 1], prefix[i]) {
          assert CanTransition(h[i - 1], h[i]);
        }
      }
      LegalIsShort(prefix);
      assert CanTransition(h[|h| - 2], h[|h| - 1]);
    }
  }

  /** pending_payment is only ever the first status, so no run re-enters it. */
  lemma PendingOnlyFirst(h: seq<Status>, i: nat)
    requires Legal(h) && i < |h|
    ensures h[i] == PendingPayment <==> i == 0
  {
    if i > 0 {
      assert CanTransition(h[i - 1], h[i]);
    }
  }

  /** Paid is in the history exactly when the order ends paid or fulfilled. */
  lemma {:induction false} PaidMeansPaidOrFulfilled(h: seq<Status>)
    requires Legal(h)
    ensures Paid in h <==> h[|h| - 1] in {Paid, Fulfilled}
  {
    if |h| > 1 {
      var prefix := h[..|h| - 1];
      assert Legal(prefix) by {
        forall i | 0 < i < |prefix| ensures CanTransition(prefix[i - 1], prefix[i]) {
          assert CanTransition(h[i - 1], h[i]);
        }
      }
      PaidMeansPaidOrFulfilled(prefix);
      assert CanTransition(h[|h| - 2], h[|h| - 1]);
      assert h == prefix + [h[|h| - 1]];
    }
  }
}
