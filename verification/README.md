# Verified model of the order, stock and payment protocol

This project models the commerce core of the service: the order transactions of the API, the stock
ledger, the transactional outbox and its relays, the Kafka topic they feed, and the worker that
charges orders, settles reservations and audits events. It is one concurrent system: API
transactions, relays, crashes and consumers take steps in any interleaving, and the main theorems
hold in every state such a run can reach. A second, smaller part models the keyset pagination of the
product catalog.

## How it is built

- `Domain` is the order state machine; `Tables` is the database, both as a value (`DB`) and as an
  object (`Postgres`) whose methods are the SQL statements the code issues.
- `Settlement` and `Transactions` say in one shot what each database transaction does: functions
  from one database value to the next. `OrderRepository`, `PaymentWorker`, `InventoryWorker` and
  `Dispatch` are the code's methods, statement by statement and loop by loop, each proved equal to
  its function, error cases included. The release loops of the repository and of both workers meet
  one specification, and so do the three commit loops.
- `Outcomes` and `Creation` say of every operation, case by case and with statuses and errors written
  out, when it succeeds, what it answers and what the tables are afterwards.
- `Ledger`, `Quantities`, `Invariant` and `Preservation` hold the invariant that links orders,
  reservations, payments, stock, ledger, outbox and inbox, and show that every transaction keeps it.
- `OutboxRelay`, `Audit` and `WorkerLoop` are the parts outside the database. `System` interleaves
  everything in single steps: a relay's read, publish and mark are three steps, a worker's fetch,
  commerce transaction, audit and offset commit are four, and a crash may come between any two.
  `RelayRuns` and `WorkerLoop` show that the relay's cycle and the worker's loop are runs of it.
- `Theorems`, `Runs`, `RelayLog`, `Losses`, `Liveness`, `PaymentHistory`, `Expiry` and `Idempotency`
  hold the results; `Catalog` stands alone.

Each database transaction is one atomic step that commits or rolls back: the code locks the order row
and takes stock with a guarded update. The rows of order_items, inventory_reservations and payments
are kept with the order they reference. An outbox event's UUID is named by its row's position, the
worker's payment key `evt:<id>` by the event, and `published_at` is a set of row positions. An order
id drawn by a transaction that rolls back stays drawn. Prices and amounts are exact integers. The
clock, the broker's answers, the audit store's answers, whether a delivery's transaction commits and
the payment outcome are parameters; where a method runs beside others (the relay's cycle, the expiry
sweep), what the others do in between is a parameter, too.

## Where the code promises less than its documentation

- A paid order need not own stock. payment_failed may still become paid
  (`internal/domain/order.go:63-66`), but the stock was released and is not taken again.
  `RetriedPaymentOwnsNoStock` reaches such a state from any pending order, and
  `ReservationsAgreeWithStatus` gives the exact condition: a paid or fulfilled order's reservations
  are committed if and only if no payment failed before.
- An event can be lost although delivery is called at least once: after an error of `Handle` the
  loop fetches the next message, and its commit passes the failed one
  (`cmd/worker/main.go:116-122`). `ReturnedErrorSkipsTheEvent` shows the run. `LostIffPassed` is the
  exact condition, turn by turn: the record's own turn returns an error and a later turn's commit is
  acknowledged; `LostIffFailed` states it for any interleaving without a death of the process, and
  `LostForGood` shows that the worker never comes back to such an event. Crashes alone lose nothing
  (`CommittedWasHandledOrFailed`), and the system can come to rest if and only if nothing is lost
  (`CanComeToRestIff`).
- Two relays can publish the same row. The comment above `RelayOnce` describes a claim transaction,
  but the locking read is outside any transaction (`internal/platform/outbox/outbox.go:146-162`).
  The model follows the code: `TwoRelaysLogTwice` is such a run. `LoggedOnce` shows that a single
  relay that is never cut off between a publish and its mark logs every marked row exactly once, and
  `LoggedAgainIff` says when a row may get another copy: if and only if it is not marked or some
  relay still holds it unpublished.
- An Idempotency-Key does not stand for one order. Lookup, order and saved answer are three
  transactions, and the error of the last is dropped (`internal/http/order/handler.go:80`).
  `AnotherOrderIff` gives the exact condition, for any interleaving: a request creates an order if
  and only if no saving under its key has worked before its lookup. So two overlapping requests
  create two (`OverlappingRequestsCreateTwice`), and so do two in a row whose saving fails, for
  instance because the key is longer than its 128 characters (`FailedSaveCreatesTwice`).
- A cycle skips a payload that does not decode and never marks it, so a full batch of such rows would
  stop the relay for good (`MalformedBatchStarves`); `Enqueue` writes none (`OutboxDrains`).
- The worker's pause between failed fetches is doubled while it is below 30 seconds, so it is 1, 2,
  4, 8, 16 and then always 32: above 30 exactly from the sixth failure in a row on
  (`PauseExceedsBound`).

## Model

| member | source | states |
|---|---|---|
| Domain.Transition | internal/domain/order.go:83-89 | an allowed transition gives the target status and strictly lowers a rank; any other gives a conflict |
| Outcomes.TransitionTable | internal/domain/order.go:57-81 | exactly six pairs of statuses are allowed transitions |
| Domain.LegalIsShort | internal/domain/order.go:57-70 | a legal history of rank r has at most 4 - r entries, so no order moves more than three times |
| Domain.PendingOnlyFirst | internal/domain/order.go:57-70 | pending_payment is only the first status and is never entered again |
| Domain.PaidMeansPaidOrFulfilled | internal/domain/order.go:57-70 | paid is in a legal history exactly when the order is now paid or fulfilled |
| Tables.Postgres.TakeStock | internal/http/order/repository.go:80-90 | the guarded update takes stock exactly when the live product has enough, else changes nothing |
| Tables.Postgres.Append | internal/platform/ledger/ledger.go:30-40 | the ledger is append-only |
| Tables.Postgres.Claim | internal/platform/inbox/inbox.go:51-66 | a claim wins exactly when its event and consumer pair was not there; it is there afterwards |
| Tables.Postgres.Enqueue | internal/platform/outbox/outbox.go:42-60 | one unpublished row is appended, its payload one that decodes |
| Tables.Postgres.InsertLine | migrations/000005_commerce.up.sql:18-37 | a line is refused exactly for a negative price, a quantity that is not positive, or a product the order already names |
| Tables.Postgres.InsertPayment | migrations/000005_commerce.up.sql:41-52 | a payment is refused exactly for a key the order has used or one longer than 128 characters |
| Tables.Postgres.ReleaseRow | internal/http/order/repository.go:384-401 | the four statements of a release loop's body: stock back, balance read, ledger row, status |
| Settlement.SettledIsIdentity | internal/http/order/repository.go:375-421 | settling an order with nothing held changes nothing at all |
| Settlement.SettledQty | internal/http/order/repository.go:375-421 | a settlement moves the held quantity of every product to its new status and nothing else |
| Settlement.ReleaseTurn | internal/http/order/repository.go:383-402 | one turn of a release loop is one step of the one-shot settlement |
| Settlement.CommitTurn | internal/http/order/repository.go:412-417 | one turn of a commit loop is one step of the one-shot settlement |
| Transactions.FirstErrorStops | internal/http/order/repository.go:66-93 | the first refused line's error is the whole order's error |
| Transactions.BalancesReadAreRight | internal/http/order/repository.go:109-138 | balances read after all decrements equal stock minus the line's own quantity, since no product occurs twice |
| Transactions.AcceptedLines | internal/http/order/repository.go:66-93 | accepted lines name known products with positive quantities and leave no stock negative |
| Transactions.SettleThenMove | internal/http/order/repository.go:240-249 | settling before or after saving the order's row comes to the same |
| OrderRepository.Repository.TakeLine | internal/http/order/repository.go:66-92 | one line: invalid, not found, short of stock, or priced with its stock taken |
| OrderRepository.Repository.TakeLines | internal/http/order/repository.go:66-93 | the loop gives the first refused line's error, or takes every line's stock and gives the lines and their total |
| OrderRepository.Repository.InsertLines | internal/http/order/repository.go:109-138 | the loop inserts items, holds and ledger rows of all lines, or reports the constraint that refuses one |
| OrderRepository.Repository.CreateOrder | internal/http/order/repository.go:51-154 | result and whole database equal the one-shot specification, rolled back on any error |
| OrderRepository.Repository.ReleaseReservations | internal/http/order/repository.go:375-404 | the loop equals the one-shot release of the order's held rows |
| OrderRepository.Repository.CommitReservations | internal/http/order/repository.go:406-421 | the loop and the bulk update equal the one-shot commit of the order's held rows |
| OrderRepository.Repository.Cancel | internal/http/order/repository.go:199-262 | result and whole database equal the specification, for an owner's and for the system's cancellation |
| OrderRepository.Repository.Pay | internal/http/order/repository.go:279-373 | result and whole database equal the specification in every branch, replay and timeout included |
| OrderRepository.Repository.Fulfill | internal/http/order/repository.go:423-454 | result and whole database equal the specification |
| PaymentWorker.Handler.HandleOrderCreated | internal/worker/payment/handler.go:54-153 | result and whole database equal the specification: claim and effect together, or neither |
| PaymentWorker.Handler.ReleaseHeld | internal/worker/payment/handler.go:155-188 | the worker's release loop equals the one-shot release |
| PaymentWorker.Handler.CommitHeld | internal/worker/payment/handler.go:190-213 | the worker's commit loop equals the one-shot commit |
| InventoryWorker.Handler.Handle | internal/worker/inventory/handler.go:34-75 | result and whole database equal the specification for every event type |
| InventoryWorker.Handler.CommitTX | internal/worker/inventory/handler.go:96-124 | the commit loop equals the one-shot commit |
| InventoryWorker.Handler.ReleaseTX | internal/worker/inventory/handler.go:126-161 | the release loop equals the one-shot release and returns the released products in row order |
| Dispatch.Processor.RouteCommerce | internal/worker/dispatch/dispatch.go:36-48 | each event type reaches its handler; other types change nothing |
| Dispatch.Processor.Handle | internal/worker/dispatch/dispatch.go:26-34 | commerce first; on its error nothing is audited, otherwise the audit outcome is the result |
| Outcomes.CancelOutcome | internal/http/order/repository.go:199-262 | a cancellation succeeds if and only if the order is pending or payment_failed and the caller is its owner or the system; then the order is cancelled with version + 1, its held stock is back and nothing else has changed; a stranger gets not found |
| Outcomes.PayOutcome | internal/http/order/repository.go:279-373 | a payment row under a new key appears if and only if the owner attempts it with a key that fits, without timeout, on a pending order, or on a payment_failed one unless it fails again; then exactly that payment, status and settlement follow, otherwise nothing changes |
| Outcomes.PayAnswers | internal/http/order/repository.go:284-345 | what an attempt that pays nothing answers: not found, the used key's payment, the paid order's status, unavailable after a timeout, conflict, or a constraint error |
| Outcomes.FulfillOutcome | internal/http/order/repository.go:423-454 | exactly a paid order can be fulfilled; then status, version and one order.fulfilled row are all that changes |
| Outcomes.ChargeOutcome | internal/worker/payment/handler.go:54-153 | a new event is claimed in any case and charges its order exactly when that is pending, or payment_failed and the charge is not to fail; what it writes is spelled out |
| Outcomes.InventoryOutcome | internal/worker/inventory/handler.go:34-75 | from any database a new event commits held rows after paid and fulfilled, releases them after cancelled and payment_failed, and returns the released products |
| Outcomes.RouteOutcome | internal/worker/dispatch/dispatch.go:26-48 | which handler gets which event type, and that a transaction that does not commit leaves no trace |
| Outcomes.StrangersDoNothing | internal/http/order/repository.go:199-212 | taking every cancellation and payment by somebody who is not the owner out of a run does not change its end |
| Outcomes.CreateStep | internal/http/order/repository.go:51-154 | the create step brings an orderable order into being, pending, for its user |
| Outcomes.CancelSteps | internal/http/order/repository.go:199-262 | a pending order is cancelled by its owner's and by the system's cancel step |
| Outcomes.PayStep | internal/http/order/repository.go:279-373 | a pending order becomes paid, or payment_failed, by its owner's pay step |
| Outcomes.FulfillStep | internal/http/order/repository.go:423-454 | the fulfil step fulfils a paid order |
| Creation.CreateAllOrNothing | internal/http/order/repository.go:51-154 | an order is created if and only if every line fits on its own and no product repeats; a failing create leaves every table as it was |
| Creation.CreatedTakesEachLine | internal/http/order/repository.go:66-107 | a created order takes exactly each line's quantity, touches no other product, and stores lines at current prices with their sum as total |
| Creation.CreatedRows | internal/http/order/repository.go:95-149 | a created order is pending with one held reservation and one hold in the ledger per line, with the right balance, and one order.created row |
| Creation.RefusedWith | internal/http/order/repository.go:54-90 | a refused order gives the error of its first line that cannot take its stock, or that of the constraints |
| PaymentHistory.PayIsIdempotent | internal/http/order/repository.go:293-301 | whatever runs in between, a second attempt with a used key returns the first payment and changes nothing |
| PaymentHistory.RunRemembers | internal/http/order/repository.go:279-373 | no run removes an order, changes its owner, or changes or removes a payments row |
| Ledger.BatchReplays | internal/platform/ledger/ledger.go:30-40 | a transaction's ledger rows keep every recorded balance equal to the replayed one |
| Quantities.AllHeldEntries | internal/http/order/repository.go:383-397 | settling fully held rows writes one ledger row each, in order, with the right balance |
| Quantities.QtyInUpdate | internal/http/order/repository.go:375-421 | replacing one order changes the sum of reserved quantities by that order's difference |
| Invariant.HeldExactlyWhenPending | internal/http/order/repository.go:229-421 | under the invariant every row is held while the order is pending and none is afterwards |
| Invariant.AdvanceWrites | internal/http/order/repository.go:229-421 | a legal move settles either every reservation or none, and writes exactly these tables |
| Invariant.AccountsSettled | internal/http/order/repository.go:375-421 | a settlement extends the ledger's account of each hold by its one settlement |
| Invariant.AdvanceKeepsCore | internal/http/order/repository.go:229-454 | every legal move keeps the invariant of orders, stock, ledger, payments and outbox |
| Preservation.CreateKeepsInv | internal/http/order/repository.go:51-154 | CreateOrder keeps the invariant for all arguments, failing or not |
| Preservation.CancelKeepsInv | internal/http/order/repository.go:199-262 | cancellation keeps the invariant for all arguments |
| Preservation.PayKeepsInv | internal/http/order/repository.go:279-373 | manual payment keeps the invariant for all arguments and keys |
| Preservation.FulfillKeepsInv | internal/http/order/repository.go:423-454 | fulfilment keeps the invariant |
| Preservation.PaymentMeansNotPending | internal/http/order/repository.go:318-367 | a payment row under any key, even the worker's own, means the order has left pending_payment |
| Preservation.HandleOrderCreatedKeepsInv | internal/worker/payment/handler.go:54-153 | the payment worker keeps the invariant: a claimed order.created means its order left pending_payment for good |
| Preservation.InventoryOnlyClaims | internal/worker/inventory/handler.go:34-75 | on any settlement event the outbox ever held, the inventory worker finds nothing to settle |
| Preservation.RouteCommerceKeepsInv | internal/worker/dispatch/dispatch.go:36-48 | consuming any event of the log, however late or often, keeps the invariant |
| System.StepKeeps | cmd/worker/main.go:96-124 | every step of API, relays, broker and worker keeps the invariant of the whole system |
| System.RelayStepKeeps | internal/platform/outbox/outbox.go:152-204 | a relay's read, publish, mark, failure or crash keeps it |
| System.WorkerStepKeeps | cmd/worker/main.go:96-124 | a worker's fetch, commerce, audit, offset commit, returned error or crash keeps it |
| System.Reachable | internal/http/order/repository.go:51-454 | the invariant holds in every reachable state, for any number of relays and partitions |
| Theorems.StockIsConserved | internal/http/order/repository.go:66-138 | in every reachable state stock is not negative and stock + held + committed is the initial stock: no oversell |
| Theorems.LedgerReplaysToStock | internal/platform/ledger/ledger.go:30-40 | the ledger replays to the current stock, and every recorded balance is the replayed one at its row |
| Theorems.OneSettlementPerHold | internal/http/order/repository.go:375-421 | per order and product the ledger holds one hold and at most one settlement, the one the reservation's status names |
| Theorems.OutboxSpellsHistory | internal/http/order/repository.go:243-257 | an order's outbox rows spell a legal history ending at its status; version is their number, at most 4 |
| Theorems.OutboxTellsTheOrder | internal/http/order/repository.go:140-149 | every outbox row ever carries its order's id and user, the status just entered, and the total on order.created and order.paid |
| Theorems.ReservationsAgreeWithStatus | internal/http/order/repository.go:229-454 | held exactly when pending; released when cancelled or failed; when paid or fulfilled, committed if and only if no payment failed |
| Theorems.NoDoubleCharge | internal/http/order/repository.go:279-373 | at most one succeeded and one failed payment, a succeeded one exactly when paid or fulfilled, every amount the order's total |
| Theorems.InventoryNeverMovesStock | internal/worker/inventory/handler.go:34-75 | any settlement event of a reachable log, consumed now, adds its inbox row and changes nothing else |
| Theorems.HandledMeansNotPending | internal/worker/payment/handler.go:61-151 | once an order.created record is handled its order is never pending again |
| Theorems.Quiescence | internal/worker/payment/handler.go:61-151 | with every row marked and every record handled, nothing is pending or held, and stock + committed is the initial stock |
| Theorems.CommittedWasHandledOrFailed | cmd/worker/main.go:96-124 | a record below the committed offset whose handler returned no error has its claim and is audited or dead-lettered; audit ids are unique |
| Theorems.AuditTellsTheEvents | internal/worker/audit/audit.go:53-60 | an audit document with an outbox id is that row's event in every field; a handled event is itself in the store or the dead-letter topic |
| Theorems.CrashesAloneLoseNothing | cmd/worker/main.go:96-124 | if no handler ever returned an error, committing everything is quiescence, whatever crashed |
| Theorems.RecordRoutes | internal/worker/dispatch/dispatch.go:36-48 | the commerce handler of a log record fails only when the database does |
| Losses.ReturnedErrorSkipsTheEvent | cmd/worker/main.go:116-122 | an error on one record and success on the next commit an offset past a record that the worker never handles in any later run |
| Losses.LostForGood | cmd/worker/main.go:96-124 | no later step, not even a death and restart, lets the partition's worker handle an unhandled record behind the committed offset |
| Losses.LostIffFailed | cmd/worker/main.go:96-124 | in any interleaving without a death of the consumer, a record behind the offset is unhandled if and only if its handler returned an error |
| Losses.LostIffPassed | cmd/worker/main.go:96-124 | over any turns of the loop a record is lost if and only if its own turn returned an error and a later turn's commit was acknowledged |
| Liveness.CanComeToRestIff | cmd/worker/main.go:96-124 | from a reachable state relays and workers alone can get every row marked and every record handled if and only if no record has been lost |
| Liveness.WithoutErrorsQuiescenceIsReachable | cmd/worker/main.go:96-124 | while no handler has returned an error, however everything was interrupted, a state with nothing pending and nothing held can be reached |
| Liveness.RouteCosts | internal/worker/payment/handler.go:54-153 | every event a worker enqueues costs an order some of its rank, so the events still to come are bounded |
| Theorems.RetriedPaymentOwnsNoStock | internal/domain/order.go:63-66 | from any pending order a failed and then a successful payment reach a paid order that holds nothing |
| RelayLog.RelaysAreSafe | internal/platform/outbox/outbox.go:152-204 | every marked row has a copy in the log, every order event in the log is some row's event, and the relays' counts sum to the marked rows |
| RelayLog.CopiesStep | internal/platform/outbox/outbox.go:187-189 | each publish of a row adds one copy, be the row marked already or not, and nothing else adds or removes one |
| RelayLog.TwoRelaysLogTwice | internal/platform/outbox/outbox.go:156-164 | two idle relays can both read a pending row and both publish it |
| RelayLog.LoggedOnce | internal/platform/outbox/outbox.go:152-204 | with one relay never cut off between publish and mark, a row is logged once if it is marked or being marked and otherwise not at all |
| RelayLog.LoggedAgainIff | internal/platform/outbox/outbox.go:156-199 | a row can get another copy if and only if it is not marked or some relay still holds it unpublished |
| RelayLog.OneRelayRisk | internal/platform/outbox/outbox.go:187-199 | in those runs of one relay a logged row is at risk exactly between its publish and its mark |
| Theorems.MarksAndClaimsStay | internal/platform/outbox/outbox.go:190-199 | in any run marks and claims are never undone and outbox rows never change |
| Theorems.OutboxDrains | internal/platform/outbox/outbox.go:42-60 | every reachable payload decodes, so k undisturbed cycles leave max(0, n - 50 k) of n rows |
| OutboxRelay.Relay.FindPending | internal/platform/outbox/outbox.go:156-164 | the query returns at most limit pending rows, oldest first, none older left out |
| OutboxRelay.Relay.PublishRow | internal/platform/outbox/outbox.go:174-201 | one row: skipped, or its publish failed, or published, marked and counted unless another relay had marked it |
| OutboxRelay.Relay.PublishRows | internal/platform/outbox/outbox.go:173-203 | the decodable rows before the first failed publish are published in order and marked, other relays marking rows meanwhile; the count is the marks this relay won |
| OutboxRelay.Relay.RelayOnce | internal/platform/outbox/outbox.go:152-204 | the same of a whole cycle over a batch the query returned; with no other relay at work every published row is counted |
| OutboxRelay.MarksAddUp | internal/platform/outbox/outbox.go:190-201 | the marks after a cycle are those found at first, those this relay won and those the others won: no race is counted twice |
| OutboxRelay.StopsAt | internal/platform/outbox/outbox.go:187-189 | the cycle stops at the first decodable row whose publish fails |
| OutboxRelay.FirstFailureStops | internal/platform/outbox/outbox.go:187-189 | later rows do not change where an earlier failure stopped the cycle |
| OutboxRelay.CycleProgress | internal/platform/outbox/outbox.go:152-204 | a cycle takes exactly the decodable rows of its batch off the pending set |
| OutboxRelay.DrainRate | internal/platform/outbox/outbox.go:152-204 | with decodable rows, k cycles leave max(0, n - 50 k) pending |
| OutboxRelay.MalformedStays | internal/platform/outbox/outbox.go:176-179 | a row that does not decode stays pending for ever |
| OutboxRelay.DrainsIffAllDecode | internal/platform/outbox/outbox.go:152-204 | enough cycles empty the outbox if and only if every pending payload decodes |
| OutboxRelay.MalformedBatchStarves | internal/platform/outbox/outbox.go:176-179 | a full batch of undecodable rows may be returned for ever, and nothing is published |
| RelayRuns.UndisturbedCycle | internal/platform/outbox/outbox.go:152-204 | an undisturbed cycle is a run of the system that ends as RelayOnce says, with every row of the batch sent |
| WorkerLoop.Worker.Loop | cmd/worker/main.go:96-124 | any number of turns of the loop, rolled-back transactions included, ends where the system's steps end, and its pauses are exactly those of the failures in a row |
| WorkerLoop.PauseExceedsBound | cmd/worker/main.go:106-114 | the pause doubles from 1 to 32 and stays there; it exceeds 30 if and only if it is at least the sixth in a row |
| WorkerLoop.PauseTable | cmd/worker/main.go:96-114 | the pauses are 1, 2, 4, 8, 16 and then 32 seconds each |
| WorkerLoop.PausesInARow | cmd/worker/main.go:96-114 | a row of failed fetches makes the first so many pauses, and a fetched record starts them afresh |
| WorkerLoop.OneMessage | cmd/worker/main.go:96-124 | the four steps of one message: a failed commerce half changes nothing but the position, a failed audit leaves the offset uncommitted |
| WorkerLoop.TurnsStayReachable | cmd/worker/main.go:96-124 | the loop stays within the reachable states, so every theorem above holds around it |
| Audit.Processor.Handle | internal/worker/audit/audit.go:47-76 | at most three inserts, then the dead-letter topic; undecoded envelopes go straight there; equals the one-shot outcome |
| Audit.Processor.Insert | internal/worker/audit/store.go:23-34 | inserting a taken event id writes nothing and counts as success |
| Audit.AuditOutcome | internal/worker/audit/audit.go:47-93 | store, dead-letter topic and result by what the three tries and the topic answer: the event is stored as it is, at most once |
| Audit.AuditedOnce | internal/worker/audit/audit.go:47-93 | a handled event is in the store or the dead-letter topic, and no id is ever stored twice |
| Audit.AuditIsIdempotent | internal/worker/audit/store.go:28-32 | auditing an audited event again changes nothing |
| Runs.DuplicatesAreHarmless | internal/platform/inbox/inbox.go:51-66 | from any database, a run of transactions and deliveries ends where the run without repeated deliveries ends |
| Runs.CreatedOnce | internal/http/order/repository.go:140-149 | an order has exactly one order.created row |
| Runs.DeliveryEffect | internal/worker/payment/handler.go:54-151 | one delivery of a log record changes at most the order it creates, charging it, and never the stock |
| Runs.ConsumedOrder | internal/worker/payment/handler.go:54-151 | after any consumption an order is charged if its creation was among the unclaimed events, untouched otherwise |
| Runs.ConsumptionIsConfluent | internal/worker/dispatch/dispatch.go:36-48 | two consumptions of the same set of events, in any order and with any repeats, end with the same orders, payments, reservations, stock and inbox |
| Expiry.Service.ListExpiredPendingIDs | internal/http/order/repository.go:264-276 | the lowest ids of orders pending and created before the cutoff, ascending, up to the limit, which is 50 if it is not positive |
| Expiry.Service.CancelListed | internal/http/order/service.go:170-180 | with anything running before each cancellation, the count is the number of orders the sweep moved to cancelled |
| Expiry.Service.ExpireStaleHolds | internal/http/order/service.go:160-181 | under any races the sweep returns exactly the number of orders it moved, all of them pending and created before the cutoff when listed, and touches no younger order; alone it leaves no stale pending order if there were at most 50 |
| Expiry.CancelMovesOnlyItsOrder | internal/http/order/repository.go:214-262 | a system cancellation succeeds exactly when it moves its order, touches no other, and leaves final and paid orders alone |
| Expiry.CountIsMoved | internal/http/order/service.go:170-180 | the sweep's count is the number of orders it moved |
| Expiry.SweepUnderRaces | internal/http/order/service.go:160-181 | with transactions, deliveries, marks and product changes before each cancellation, the count is the number of orders moved and no paid or fulfilled order changes |
| Expiry.MovedWereStale | internal/http/order/repository.go:264-276 | every order a sweep moved was pending and created before the cutoff when it was listed |
| Expiry.FreshAreUntouched | internal/http/order/service.go:165-179 | no cancellation of a sweep changes an order created at or after the cutoff, whatever runs in between |
| Expiry.SweepLeavesNone | internal/http/order/service.go:160-181 | alone and with at most 50 stale orders, a sweep leaves no pending order created before the cutoff |
| Expiry.SweepClears | internal/http/order/service.go:171-179 | alone, a sweep takes exactly the orders it lists off the expired set |
| Expiry.SweepRate | internal/http/order/service.go:160-181 | k sweeps leave max(0, m - 50 k) of m expired orders |
| Idempotency.SavedIff | internal/http/order/repository.go:468-496 | an answer is saved under a key exactly when some request's saving under it has worked |
| Idempotency.AnotherOrderIff | internal/http/order/service.go:52-89 | in any interleaving a request creates an order if and only if no saving under its key has worked before its lookup |
| Idempotency.FoundIsReplayed | internal/http/order/service.go:61-69 | a lookup that finds an answer replays that of an order created under this key for the same body, and refuses another body |
| Idempotency.RefusedRequests | internal/http/order/service.go:53-78 | a request without key or items is refused as invalid, and an order that cannot be created gives its error and saves no answer |
| Idempotency.OneOrderPerKey | internal/http/order/service.go:52-89 | if each lookup comes after every earlier order of the key has had its answer saved, the key gets at most one order |
| Idempotency.OverlappingRequestsCreateTwice | internal/http/order/service.go:62-75 | two requests that both look up before either saves create two orders |
| Idempotency.FailedSaveCreatesTwice | internal/http/order/handler.go:80 | two requests one after the other create two orders if the saving fails, as it does for a key longer than its column |
| Catalog.Service.ListCatalogCursor | internal/http/product/repository.go:58-69 | the highest live ids below the cursor, descending, up to the limit, none left out between them |
| Catalog.Service.Catalog | internal/http/product/service.go:152-177 | a page holds only live products below the cursor, as many as the limit from 1 to 100 or else 20, without a gap, and has more exactly when a live one is missing |
| Catalog.PageIsRight | internal/http/product/service.go:152-177 | reading one row more than the page and cutting it off yields such a page |
| Catalog.PageShowsLive | internal/http/product/repository.go:58-69 | a deleted product is never on a page, and a limit from 1 to 100 is used as given |
| Catalog.PageCursor | internal/http/product/service.go:168-175 | a page's cursor is an existing id below the cursor it was read at, and the smallest on the page |
| Catalog.CursorDecreases | internal/http/product/service.go:168-175 | along a walk cursors strictly decrease and are never 0 while there is more |
| Catalog.WalkDecreases | internal/http/product/service.go:152-177 | a walk lists strictly decreasing ids, whatever is inserted or deleted between pages |
| Catalog.WalkIsComplete | internal/http/product/service.go:152-177 | a finished walk lists every product alive throughout, exactly once |
| Catalog.WalkTerminates | internal/http/product/service.go:152-177 | a walk has at most one page more than the first cursor's value |

## Left out

- Tables.Postgres.Rollback: restores the tables only; a drawn order id stays drawn, as with any sequence.
- Theorems.OutboxDrains: the cycles it counts run undisturbed and with a broker that acknowledges every publish.
- RelayLog.LoggedOnce: for one relay; several relays keep no such bound, as TwoRelaysLogTwice shows.
- System.StepKeeps: a relay step may publish to any partition, since the producer's balancer ignores the key; a database failure rolls a delivery back and is otherwise not distinguished.
- Runs.ConsumptionIsConfluent: says nothing of the order of ledger and outbox rows, which does depend on the order of consumption.
- WorkerLoop.Worker.Loop: a fetch with nothing to read ends its turn instead of blocking; the topic does not grow during the loop's turns.
- Idempotency.AnotherOrderIff: the rows of idempotency_keys that have no response yet are not modelled, as no code writes them.
- `product.Service.Update` overwrites stock from an unlocked read without a ledger row, so conservation excludes it; products are added once and may be soft-deleted.
- Settlement loops visit an order's reservation rows in insertion order; the query leaves the order open.
- Postgres row locks, deadlocks and isolation: a transaction is one step, and an aborted one is a rollback. A commit that takes effect although it is reported as failed is not modelled.
- The Redis product and list caches and their invalidation.
- HTTP routing, request decoding and validation, authentication, rate limiting, metrics, tracing and configuration.
- The normalisation of a payment's outcome and its default key, per-user listing, and the JSON number decoding of order ids.
- The relay's pause flag, mutex and timer, the sweep's timer, and context cancellation.
- Floating-point rounding of prices and totals, and overflow of integer columns.
- Time stamps other than the order of outbox rows and the age of orders.
- The constant currency of orders and of the order.created payload, and update times.
- Search indexing, wishlists, the audit read path and the internals of the brokers and databases.
