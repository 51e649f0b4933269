/**
 * The orchestrated order saga: take the payment, then reserve the items, and
 * on failure run the compensations whose trigger conditions hold.
 */
module SagaOrchestration {
  import opened Wrappers
  import S = SagaServices

  /** Progress of one saga run. */
  datatype SagaStatus =
    | Started
    | PaymentCompleted
    | PaymentFailed
    | InventoryReserved
    | InventoryReservationFailed
    | Completed
    | Failed

  datatype SagaState = SagaState(orderId: string, amount: int, items: seq<S.Item>, status: SagaStatus)

  datatype SagaResult = SagaResult(success: bool, sagaState: SagaState, error: Option<string>)

  /** The status values under which the compensation code releases the reserved items. */
  predicate TriggersRelease(status: SagaStatus)
  {
    status == InventoryReservationFailed || status == InventoryReserved
  }

  /** The status values under which the compensation code refunds the payment. */
  predicate TriggersRefund(status: SagaStatus)
  {
    status == InventoryReservationFailed || status == InventoryReserved || status == PaymentCompleted
  }

  class SagaOrchestrator {
    const paymentService: S.PaymentService
    const inventoryService: S.InventoryService

    constructor (paymentService: S.PaymentService, inventoryService: S.InventoryService)
      ensures this.paymentService == paymentService && this.inventoryService == inventoryService
    {
      this.paymentService := paymentService;
      this.inventoryService := inventoryService;
    }

    /**
     * The forward steps: payment, then reservation. Returns the state reached
     * and, when a step failed, the message the step's failure raises.
     */
    method RunSteps(orderId: string, amount: int, items: seq<S.Item>) returns (sagaState: SagaState, error: Option<string>)
      requires inventoryService.Valid()
      modifies paymentService, inventoryService
      ensures inventoryService.Valid()
      ensures sagaState.orderId == orderId && sagaState.amount == amount && sagaState.items == items
      ensures paymentService.transactions ==
        old(paymentService.transactions)[orderId := S.PaymentRecord(S.PaymentCompleted, amount)]
      ensures error.None? <==> S.AllInStock(old(inventoryService.stock), items)
      ensures error.None? ==>
        && sagaState.status == InventoryReserved
        && S.Ids(items) <= old(inventoryService.stock).Keys
        && inventoryService.stock == S.Deduct(old(inventoryService.stock), items)
        && inventoryService.reservedItems == old(inventoryService.reservedItems)[orderId := S.ReservationOf(items)]
      ensures error.Some? ==>
        && sagaState.status == InventoryReservationFailed
        && error == Some("Inventory reservation failed.")
        && inventoryService.stock == old(inventoryService.stock)
        && inventoryService.reservedItems == old(inventoryService.reservedItems)
    {
      sagaState := SagaState(orderId, amount, items, Started);
      error := None;
      var paymentResult := paymentService.ProcessPayment(orderId, amount);
      if !paymentResult.success {
        sagaState := sagaState.(status := PaymentFailed);
        error := Some("Payment failed.");
        return;
      }
      sagaState := sagaState.(status := PaymentCompleted);
      var inventoryResult := inventoryService.ReserveItems(orderId, items);
      if !inventoryResult.success {
        sagaState := sagaState.(status := InventoryReservationFailed);
        error := Some("Inventory reservation failed.");
        return;
      }
      sagaState := sagaState.(status := InventoryReserved);
    }

    /**
     * The compensation code: release the items, then refund the payment, each
     * only when `status` satisfies its trigger condition.
     */
    method Compensate(status: SagaStatus, orderId: string)
      requires inventoryService.Valid()
      modifies paymentService, inventoryService
      ensures inventoryService.Valid()
      ensures TriggersRelease(status) && orderId in old(inventoryService.reservedItems) ==>
        && inventoryService.stock ==
             S.Restored(old(inventoryService.stock), old(inventoryService.reservedItems)[orderId])
        && inventoryService.reservedItems == old(inventoryService.reservedItems) - {orderId}
      ensures !(TriggersRelease(status) && orderId in old(inventoryService.reservedItems)) ==>
        && inventoryService.stock == old(inventoryService.stock)
        && inventoryService.reservedItems == old(inventoryService.reservedItems)
      ensures TriggersRefund(status) && orderId in old(paymentService.transactions) ==>
        paymentService.transactions == old(paymentService.transactions)[orderId :=
          old(paymentService.transactions)[orderId].(status := S.PaymentRefunded)]
      ensures !(TriggersRefund(status) && orderId in old(paymentService.transactions)) ==>
        paymentService.transactions == old(paymentService.transactions)
    {
      if TriggersRelease(status) {
        var _ := inventoryService.ReleaseItems(orderId);
      }
      if TriggersRefund(status) {
        var _ := paymentService.RefundPayment(orderId);
      }
    }

    /**
     * The saga as written: on failure the status is set to Failed BEFORE the
     * compensation conditions are evaluated, so neither the release nor the
     * refund ever runs. A failed saga leaves the payment completed and the
     * stock untouched.
     */
    method CreateOrderSaga(orderId: string, amount: int, items: seq<S.Item>) returns (r: SagaResult)
      requires inventoryService.Valid()
      modifies paymentService, inventoryService
      ensures inventoryService.Valid()
      ensures r.success <==> S.AllInStock(old(inventoryService.stock), items)
      ensures r.sagaState == SagaState(orderId, amount, items, if r.success then Completed else Failed)
      ensures r.error == if r.success then None else Some("Inventory reservation failed.")
      // the payment is never refunded
      ensures paymentService.transactions ==
        old(paymentService.transactions)[orderId := S.PaymentRecord(S.PaymentCompleted, amount)]
      ensures r.success ==>
        && inventoryService.stock == S.Deduct(old(inventoryService.stock), items)
        && inventoryService.reservedItems == old(inventoryService.reservedItems)[orderId := S.ReservationOf(items)]
      // nothing is released
      ensures !r.success ==>
        && inventoryService.stock == old(inventoryService.stock)
        && inventoryService.reservedItems == old(inventoryService.reservedItems)
    {
      var sagaState, error := RunSteps(orderId, amount, items);
      if error.None? {
        sagaState := sagaState.(status := Completed);
        return SagaResult(true, sagaState, None);
      }
      sagaState := sagaState.(status := Failed);
      Compensate(sagaState.status, orderId);
      return SagaResult(false, sagaState, error);
    }

    /**
     * The saga with the compensation conditions evaluated on the status the
     * forward steps reached, before it is overwritten with Failed. A failed
     * reservation then refunds the payment; the release finds no reservation
     * unless the order id already held one.
     */
    method CreateOrderSagaCompensated(orderId: string, amount: int, items: seq<S.Item>) returns (r: SagaResult)
      requires inventoryService.Valid()
      modifies paymentService, inventoryService
      ensures inventoryService.Valid()
      ensures r.success <==> S.AllInStock(old(inventoryService.stock), items)
      ensures r.sagaState == SagaState(orderId, amount, items, if r.success then Completed else Failed)
      ensures r.error == if r.success then None else Some("Inventory reservation failed.")
      ensures r.success ==>
        && paymentService.transactions ==
             old(paymentService.transactions)[orderId := S.PaymentRecord(S.PaymentCompleted, amount)]
        && inventoryService.stock == S.Deduct(old(inventoryService.stock), items)
        && inventoryService.reservedItems == old(inventoryService.reservedItems)[orderId := S.ReservationOf(items)]
      // a failed saga refunds its payment
      ensures !r.success ==>
        paymentService.transactions ==
          old(paymentService.transactions)[orderId := S.PaymentRecord(S.PaymentRefunded, amount)]
      ensures !r.success && orderId !in old(inventoryService.reservedItems) ==>
        && inventoryService.stock == old(inventoryService.stock)
        && inventoryService.reservedItems == old(inventoryService.reservedItems)
      ensures !r.success && orderId in old(inventoryService.reservedItems) ==>
        && inventoryService.stock ==
             S.Restored(old(inventoryService.stock), old(inventoryService.reservedItems)[orderId])
        && inventoryService.reservedItems == old(inventoryService.reservedItems) - {orderId}
    {
      var sagaState, error := RunSteps(orderId, amount, items);
      if error.None? {
        sagaState := sagaState.(status := Completed);
        return SagaResult(true, sagaState, None);
      }
      var reached := sagaState.status;
      sagaState := sagaState.(status := Failed);
      Compensate(reached, orderId);
      return SagaResult(false, sagaState, error);
    }
  }

  /**
   * The two orders of the saga simulation: ORDER001 reserves one item_A and
   * completes; ORDER002 asks for the unknown item_C, fails, and as written
   * keeps its completed payment and leaves the stock alone.
   */
  method RunOrchestrationSagaExample()
    returns (r1: SagaResult, stock1: map<string, int>, r2: SagaResult, stock2: map<string, int>,
             payment2: S.PaymentRecord)
    ensures r1.success && r1.sagaState.status == Completed
    ensures stock1 == map["item_A" := 99, "item_B" := 50]
    ensures !r2.success && r2.sagaState.status == Failed && r2.error == Some("Inventory reservation failed.")
    ensures stock2 == stock1
    ensures payment2 == S.PaymentRecord(S.PaymentCompleted, 200)
  {
    var payment := new S.PaymentService();
    var inventory := new S.InventoryService();
    var orchestrator := new SagaOrchestrator(payment, inventory);

    r1 := orchestrator.CreateOrderSaga("ORDER001", 150, [S.Item("item_A", 1)]);
    stock1 := inventory.stock;

    r2 := orchestrator.CreateOrderSaga("ORDER002", 200, [S.Item("item_C", 2)]);
    stock2 := inventory.stock;
    payment2 := payment.transactions["ORDER002"];
  }

  /** The same two orders run with the compensation conditions evaluated before the overwrite. */
  method RunCompensatedSagaExample()
    returns (r1: SagaResult, stock1: map<string, int>, r2: SagaResult, stock2: map<string, int>,
             payment2: S.PaymentRecord)
    ensures r1.success && r1.sagaState.status == Completed
    ensures stock1 == map["item_A" := 99, "item_B" := 50]
    ensures !r2.success && r2.sagaState.status == Failed
    ensures stock2 == stock1
    ensures payment2 == S.PaymentRecord(S.PaymentRefunded, 200)
  {
    var payment := new S.PaymentService();
    var inventory := new S.InventoryService();
    var orchestrator := new SagaOrchestrator(payment, inventory);

    r1 := orchestrator.CreateOrderSagaCompensated("ORDER001", 150, [S.Item("item_A", 1)]);
    stock1 := inventory.stock;

    r2 := orchestrator.CreateOrderSagaCompensated("ORDER002", 200, [S.Item("item_C", 2)]);
    stock2 := inventory.stock;
    payment2 := payment.transactions["ORDER002"];
  }
}
