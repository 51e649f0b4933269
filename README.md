# Distributed transactions: two-phase commit and an orchestrated saga

This project is a Dafny model of the in-memory simulation of two
distributed-transaction patterns in `docker/nodejs-server/test.js`.

- **Two-phase commit.** `BankService` is a participant. It holds a balance, a
  map of prepared transactions keyed by transaction id, and an append-only log.
  It prepares (votes on), commits and aborts debits and credits.
  `TwoPhaseCommitCoordinator` prepares the debit, then the credit. It commits
  both participants when both votes are yes, and aborts both otherwise.
- **Orchestrated saga.** `PaymentService` records and refunds payments.
  `InventoryService` reserves items all-or-nothing and releases reservations.
  `SagaOrchestrator` takes the payment, then reserves the items, and on failure
  runs its compensation code.

Files:

- `wrappers.dfy`: module `Wrappers`, the `Option` type.
- `two_phase_commit.dfy`: module `TwoPhaseCommit`. It has the `BankService`
  and `TwoPhaseCommitCoordinator` classes, the vote loop and the 2PC simulation.
- `saga_services.dfy`: module `SagaServices`. It has the stock arithmetic as
  functions (`Deduct`, `ReservationOf`, `Restored`) with lemmas about them, and
  the `PaymentService` and `InventoryService` classes.
- `saga_orchestrator.dfy`: module `SagaOrchestration`. It has the
  `SagaOrchestrator` class and the saga simulations.

The services are classes whose methods update their fields in place. Each
method's postcondition gives the complete new state in terms of the old one.
The loops in the source stay loops: the vote check, the availability check,
the deduction and the restore.

Two pieces of the 2PC model are datatypes rather than strings:

- The operation type: `Debit`, `Credit`, or `Unrecognized(typeName)` for any
  other type string.
- Log lines: a `LogEntry(service, transactionId, state)` value instead of the
  formatted text `[name] id: STATE`.

Quirks of the source that the model keeps:

- Preparing an id that is already prepared overwrites the record.
  - So when one service is both debitor and creditor, the credit record
    replaces the debit record.
  - A covered self-transfer therefore only credits. The coordinator's
    postcondition states this case.
- An item whose stock is 0 counts as not found (`InStock`).
- Every order line is checked against the stock as it was before any
  deduction.
- A reservation keeps only the last quantity listed for an id. With duplicate
  ids, a reservation can overdraw the stock, and releasing it does not restore
  the stock (`DuplicateIdsOverdrawAndLeak`).
- The saga sets its status to `failed` before its compensation conditions read
  that status. So neither the release nor the refund ever runs (see Findings).
  A saga design would refund a failed order's payment. This model follows the
  code in `CreateOrderSaga` and gives the evidently intended behaviour
  separately in `CreateOrderSagaCompensated`.

## Model

| member | source | states |
|---|---|---|
| `TwoPhaseCommit.BankService.constructor` | docker/nodejs-server/test.js:2-9 | starts with the given name and balance, no prepared transactions and an empty log |
| `TwoPhaseCommit.BankService.SimulateDbWrite` | docker/nodejs-server/test.js:11-14 | appends exactly one entry (service, id, state) to the log and changes nothing else |
| `TwoPhaseCommit.BankService.PrepareTransaction` | docker/nodejs-server/test.js:17-44 | votes yes exactly for a credit or a covered debit; a yes vote stores {amount, type} under the id (overwriting any earlier record) and logs one PREPARED_DEBIT/PREPARED_CREDIT entry; a no vote changes nothing; the balance never changes; only debits and credits are ever held prepared |
| `TwoPhaseCommit.BankService.CommitTransaction` | docker/nodejs-server/test.js:47-63 | succeeds exactly when the id is prepared; then subtracts a debit or adds a credit, deletes the record and logs COMMITTED; otherwise returns false with balance, records and log unchanged |
| `TwoPhaseCommit.BankService.AbortTransaction` | docker/nodejs-server/test.js:66-76 | succeeds exactly when the id is prepared; then deletes the record and logs ABORTED; the balance never changes; an unprepared id (such as a second abort) returns false and changes nothing |
| `TwoPhaseCommit.CollectVotes` | docker/nodejs-server/test.js:105-111 | the decision is "all prepared" exactly when every vote is yes (the loop stops at the first no) |
| `TwoPhaseCommit.TwoPhaseCommitCoordinator.constructor` | docker/nodejs-server/test.js:86-88 | keeps the participant list it is given |
| `TwoPhaseCommit.TwoPhaseCommitCoordinator.InitiateDistributedTransaction` | docker/nodejs-server/test.js:90-132 | for distinct services: both commit (debit applied, credit applied) when the debitor's balance covers the debit, otherwise both abort with balances unchanged; neither service holds a record for the id afterwards; with equal amounts the total balance is preserved; each log gains exactly the entries of its prepare and decision; for one service on both sides, a covered transfer only credits |
| `TwoPhaseCommit.AbortTwiceExample` | docker/nodejs-server/test.js:66-76 | on a prepared credit, the first abort returns true, a second abort of the same id returns false, and the balance stays 500 |
| `TwoPhaseCommit.Run2PCExample` | docker/nodejs-server/test.js:136-159 | the three transfers give balances 800/700, then 800/700 (refused), then 900/600 |
| `SagaServices.ReservationOf` | docker/nodejs-server/test.js:205-209 | the reservation record has exactly one key per id in the order |
| `SagaServices.Deduct` | docker/nodejs-server/test.js:219-221 | deducting the order keeps the set of stock ids |
| `SagaServices.DeductSubtractsTotals` | docker/nodejs-server/test.js:219-221 | after the deduction loop every id's stock is lower by the total quantity the order lists for it |
| `SagaServices.ReservationHoldsTotals` | docker/nodejs-server/test.js:207-209 | with distinct ids, the reservation holds each id's requested total, and ids not in the order are absent |
| `SagaServices.ReserveThenReleaseRestoresStock` | docker/nodejs-server/test.js:217-238 | with distinct ids, releasing the reservation that a successful reservation recorded restores the stock exactly |
| `SagaServices.DuplicateIdsOverdrawAndLeak` | docker/nodejs-server/test.js:207-222 | with an id listed twice (60 + 60 from 100) the check passes, the stock drops to -20, and a release brings it back only to 40 |
| `SagaServices.CheckReservation` | docker/nodejs-server/test.js:204-215 | reports available exactly when every line is in stock (present, non-zero, covering the quantity), and then yields the order's reservation record |
| `SagaServices.PaymentService.constructor` | docker/nodejs-server/test.js:169-171 | starts with no payment records |
| `SagaServices.PaymentService.ProcessPayment` | docker/nodejs-server/test.js:173-180 | always succeeds and records {completed, amount} under the order id |
| `SagaServices.PaymentService.RefundPayment` | docker/nodejs-server/test.js:182-193 | with a record, marks it refunded (amount kept) and succeeds; without one, fails and changes nothing |
| `SagaServices.InventoryService.constructor` | docker/nodejs-server/test.js:197-200 | starts with stock item_A 100, item_B 50 and no reservations |
| `SagaServices.InventoryService.ReserveItems` | docker/nodejs-server/test.js:202-230 | all-or-nothing: succeeds exactly when every line is in stock, then deducts every line and records the reservation; otherwise fails with "Insufficient stock" and leaves stock and reservations unchanged; reserved ids stay stock ids |
| `SagaServices.InventoryService.ReleaseItems` | docker/nodejs-server/test.js:232-246 | with a reservation, adds every reserved quantity back and deletes the reservation; without one, fails and changes nothing |
| `SagaOrchestration.SagaOrchestrator.constructor` | docker/nodejs-server/test.js:252-255 | keeps the payment and inventory services it is given |
| `SagaOrchestration.SagaOrchestrator.RunSteps` | docker/nodejs-server/test.js:259-278 | the payment is always recorded completed; the reservation step succeeds exactly when every line is in stock, reaching inventory_reserved, and otherwise reaches inventory_reservation_failed with the reservation-failure message and the inventory untouched |
| `SagaOrchestration.SagaOrchestrator.Compensate` | docker/nodejs-server/test.js:291-298 | releases the order's items only when the status is a reservation status, and refunds the payment only when it is a reservation status or payment_completed; otherwise leaves both services unchanged |
| `SagaOrchestration.SagaOrchestrator.CreateOrderSaga` | docker/nodejs-server/test.js:257-303 | succeeds with status completed exactly when every line is in stock; on failure returns status failed with the reservation-failure message, and neither compensation runs: the payment stays completed and stock and reservations are unchanged |
| `SagaOrchestration.SagaOrchestrator.CreateOrderSagaCompensated` | docker/nodejs-server/test.js:285-298 | same forward behaviour; on failure the payment is refunded, and the inventory is unchanged unless the order id already held a reservation, which is then released |
| `SagaOrchestration.RunOrchestrationSagaExample` | docker/nodejs-server/test.js:307-321 | ORDER001 completes and leaves item_A at 99; ORDER002 (item_C) fails with status failed, the stock is unchanged and its payment stays completed |
| `SagaOrchestration.RunCompensatedSagaExample` | docker/nodejs-server/test.js:307-321 | with the corrected compensation, ORDER002's payment ends refunded and the stock is unchanged |

## Findings

| source | as written | input that shows it | evidently intended | confidence | as-written member | corrected member |
|---|---|---|---|---|---|---|
| docker/nodejs-server/test.js:287-298 | the status is set to `failed` before the compensation conditions test it for `inventory_reservation_failed`, `inventory_reserved` or `payment_completed`, so both conditions are always false and no refund or release runs | ORDER002 with items [item_C x 2]: the reservation fails and the payment stays `completed` (`RunOrchestrationSagaExample`) | test the conditions on the status reached before the failure, so a failed reservation refunds the payment (`RunCompensatedSagaExample`) | high; not executed | `SagaOrchestration.SagaOrchestrator.CreateOrderSaga` | `SagaOrchestration.SagaOrchestrator.CreateOrderSagaCompensated` |

## Left out

- `getBalance` (docker/nodejs-server/test.js:78-80) is a plain read of the `balance` field. Callers in the model read the field directly.
- Console logging is left out. The model reads every `console(...)` call as `console.log(...)` and the truncated line 1 (`ass BankService {`) as `class BankService {`. As written, the file does not parse; and if it did, the call at docker/nodejs-server/test.js:96 would throw before either prepare, and the call at :258, before the `try`, would throw before the payment step, so the `catch` never runs; no state would change.
- Transaction ids and order ids are assumed to be ordinary own keys. The source keeps its records in plain JavaScript objects, which also find keys inherited from `Object.prototype`; ids such as `__proto__`, `constructor` or `toString` (for which `commitTransaction`, `abortTransaction`, `refundPayment` and `releaseItems` would see a truthy inherited value, and `prepareTransaction("__proto__", …)` would replace the prototype) are not modelled. Each Dafny `map` stands for a dictionary with no prototype.
- The `setTimeout` delays are left out.
- `Promise.all` is not modelled as concurrency. Every participant changes its state before its first `await`, so the calls run in program order: debitor, then creditor.
- Per-id locking, deadlines and cancellation are not in the code, so they are not in the model.
- Exceptions thrown by a service are not modelled. Only the two failures the saga raises itself reach its `catch`. The payment-failure branch is kept in `RunSteps`, but it is dead because payment always succeeds.
- JavaScript numbers are modelled as unbounded integers. This leaves out floating point, `NaN` and non-numeric amounts.
- A release can never hit an id missing from the stock, which in JavaScript would produce `NaN`. The `InventoryService.Valid` invariant rules this case out.
- Log lines are structured values. The model does not render the `[name] id: STATE` text.
- The coordinator's `participants` list is stored but never used, as in the source.
- `CheckReservation`: when an item is missing, its postcondition says nothing about the partial reservation map. The caller discards that map.
- The Express and TypeScript servers (docker/index.js, docker/typescript-server, docker/docker-compose) are HTTP and database plumbing. They are not part of this model.
- The Kafka admin, producer and consumer scripts (kafka/) are message-broker I/O. They are not part of this model.
