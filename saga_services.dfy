/**
 * The two step services of the order saga: `PaymentService` records and
 * refunds payments, `InventoryService` reserves and releases stock. Stock and
 * reservations are maps from item id to quantity.
 */
module SagaServices {
  import opened Wrappers

  /** One requested line of an order. */
  datatype Item = Item(id: string, quantity: int)

  /** What a step call reports back to the orchestrator. */
  datatype StepResult = StepResult(success: bool, reason: Option<string>)

  datatype PaymentStatus = PaymentCompleted | PaymentRefunded

  datatype PaymentRecord = PaymentRecord(status: PaymentStatus, amount: int)

  // ---------------------------------------------------------------------------
  // Stock arithmetic

  /**
   * The availability test applied to one requested item. An item whose stock
   * is absent or zero counts as not found; otherwise its stock must cover the
   * requested quantity. Every item is checked against the stock as it was
   * before any deduction.
   */
  predicate InStock(stock: map<string, int>, item: Item)
  {
    item.id in stock && stock[item.id] != 0 && stock[item.id] >= item.quantity
  }

  predicate AllInStock(stock: map<string, int>, items: seq<Item>)
  {
    forall i :: 0 <= i < |items| ==> InStock(stock, items[i])
  }

  /** The ids named by an order. */
  function Ids(items: seq<Item>): set<string>
  {
    set i | 0 <= i < |items| :: items[i].id
  }

  /** No item id is listed twice. */
  predicate DistinctIds(items: seq<Item>)
  {
    forall i, j :: 0 <= i < j < |items| ==> items[i].id != items[j].id
  }

  /**
   * The reservation record built while checking the items: one entry per id,
   * holding the quantity of the LAST line with that id.
   */
  function ReservationOf(items: seq<Item>): (r: map<string, int>)
    ensures r.Keys == Ids(items)
  {
    if items == [] then map[]
    else
      var last := items[|items| - 1];
      var r := ReservationOf(items[..|items| - 1]);
      assert Ids(items) == Ids(items[..|items| - 1]) + {last.id} by {
        assert forall i :: 0 <= i < |items| - 1 ==> items[..|items| - 1][i] == items[i];
      }
      r[last.id := last.quantity]
  }

  /** Total quantity requested for `id` over all lines of an order. */
  function SumQuantity(items: seq<Item>, id: string): int
  {
    if items == [] then 0
    else
      var last := items[|items| - 1];
      SumQuantity(items[..|items| - 1], id) + (if last.id == id then last.quantity else 0)
  }

  /**
   * The stock after deducting every line of an order in turn. Every id must be
   * a stock key; the set of keys does not change.
   */
  function Deduct(stock: map<string, int>, items: seq<Item>): (r: map<string, int>)
    requires Ids(items) <= stock.Keys
    ensures r.Keys == stock.Keys
  {
    if items == [] then stock
    else
      var last := items[|items| - 1];
      PrefixIds(items, |items| - 1);
      assert last.id in Ids(items);
      var r := Deduct(stock, items[..|items| - 1]);
      r[last.id := r[last.id] - last.quantity]
  }

  /** The stock after adding back every quantity of a released reservation. */
  function Restored(stock: map<string, int>, released: map<string, int>): map<string, int>
  {
    map k | k in stock.Keys + released.Keys ::
      (if k in stock then stock[k] else 0) + (if k in released then released[k] else 0)
  }

  /** The ids of a prefix of an order are ids of the order. */
  lemma PrefixIds(items: seq<Item>, n: nat)
    requires n <= |items|
    ensures Ids(items[..n]) <= Ids(items)
  {
  }

  /** An order whose every line is in stock names only stock ids. */
  lemma InStockIdsAreKeys(stock: map<string, int>, items: seq<Item>)
    requires AllInStock(stock, items)
    ensures Ids(items) <= stock.Keys
  {
  }

  /** One more turn of the deduction loop deducts one more line. */
  lemma DeductOneMore(stock: map<string, int>, items: seq<Item>, i: nat)
    requires Ids(items) <= stock.Keys
    requires i < |items|
    ensures Ids(items[..i]) <= stock.Keys && Ids(items[..i + 1]) <= stock.Keys
    ensures items[i].id in Deduct(stock, items[..i])
    ensures Deduct(stock, items[..i + 1]) ==
      Deduct(stock, items[..i])[items[i].id := Deduct(stock, items[..i])[items[i].id] - items[i].quantity]
  {
    PrefixIds(items, i);
    PrefixIds(items, i + 1);
    assert items[..i + 1][..i] == items[..i];
    assert items[i] in items;
  }

  /** Each id loses exactly the total quantity the order requests for it. */
  lemma {:induction false} DeductSubtractsTotals(stock: map<string, int>, items: seq<Item>, id: string)
    requires Ids(items) <= stock.Keys
    requires id in stock
    ensures Deduct(stock, items)[id] == stock[id] - SumQuantity(items, id)
  {
    if items != [] {
      var init := items[..|items| - 1];
      PrefixIds(items, |items| - 1);
      DeductSubtractsTotals(stock, init, id);
    }
  }

  /** With no id listed twice, the reservation holds each id's total. */
  lemma {:induction false} ReservationHoldsTotals(items: seq<Item>, id: string)
    requires DistinctIds(items)
    ensures SumQuantity(items, id) == if id in ReservationOf(items) then ReservationOf(items)[id] else 0
  {
    if items != [] {
      var init := items[..|items| - 1];
      var last := items[|items| - 1];
      assert DistinctIds(init) by {
        forall i, j | 0 <= i < j < |init| ensures init[i].id != init[j].id {
          assert init[i] == items[i] && init[j] == items[j];
        }
      }
      ReservationHoldsTotals(init, id);
      if last.id == id {
        forall i | 0 <= i < |init| ensures init[i].id != id {
          assert init[i] == items[i];
        }
      }
    }
  }

  /**
   * Reserving an order and then releasing its reservation gives back the
   * stock exactly, provided no id is listed twice.
   */
  lemma {:induction false} ReserveThenReleaseRestoresStock(stock: map<string, int>, items: seq<Item>)
    requires Ids(items) <= stock.Keys
    requires DistinctIds(items)
    ensures Restored(Deduct(stock, items), ReservationOf(items)) == stock
  {
    var after := Restored(Deduct(stock, items), ReservationOf(items));
    forall k | k in stock ensures k in after && after[k] == stock[k] {
      DeductSubtractsTotals(stock, items, k);
      ReservationHoldsTotals(items, k);
    }
  }

  /**
   * With an id listed twice, every line is checked against the undeducted
   * stock and the reservation keeps only the last line's quantity: two lines
   * of 60 from a stock of 100 pass the check, drive the stock to -20, and a
   * release afterwards brings it back only to 40.
   */
  lemma DuplicateIdsOverdrawAndLeak()
    ensures var stock := map["item_A" := 100];
            var items := [Item("item_A", 60), Item("item_A", 60)];
            && AllInStock(stock, items)
            && Deduct(stock, items) == map["item_A" := -20]
            && ReservationOf(items) == map["item_A" := 60]
            && Restored(Deduct(stock, items), ReservationOf(items)) == map["item_A" := 40]
  {
  }

  /**
   * The check loop of a reservation: stops at the first line that is not in
   * stock, and otherwise yields the reservation record for the whole order.
   */
  method CheckReservation(stock: map<string, int>, items: seq<Item>)
    returns (allAvailable: bool, currentReservation: map<string, int>)
    ensures allAvailable <==> AllInStock(stock, items)
    ensures allAvailable ==> currentReservation == ReservationOf(items)
  {
    allAvailable := true;
    currentReservation := map[];
    var i := 0;
    while i < |items|
      invariant 0 <= i <= |items|
      invariant allAvailable
      invariant forall j :: 0 <= j < i ==> InStock(stock, items[j])
      invariant currentReservation == ReservationOf(items[..i])
    {
      var item := items[i];
      if item.id in stock && stock[item.id] != 0 && stock[item.id] >= item.quantity {
        assert items[..i + 1][..i] == items[..i];
        currentReservation := currentReservation[item.id := item.quantity];
      } else {
        allAvailable := false;
        break;
      }
      i := i + 1;
    }
    assert allAvailable ==> items[..i] == items;
  }

  // ---------------------------------------------------------------------------
  // Services

  class PaymentService {
    var transactions: map<string, PaymentRecord>

    constructor ()
      ensures transactions == map[]
    {
      transactions := map[];
    }

    /** Payment always succeeds and records a completed payment for the order. */
    method ProcessPayment(orderId: string, amount: int) returns (r: StepResult)
      modifies this
      ensures r == StepResult(true, None)
      ensures transactions == old(transactions)[orderId := PaymentRecord(PaymentCompleted, amount)]
    {
      transactions := transactions[orderId := PaymentRecord(PaymentCompleted, amount)];
      r := StepResult(true, None);
    }

    /**
     * Marks the order's payment refunded, keeping its amount; reports failure
     * and changes nothing when no payment was recorded for the order.
     */
    method RefundPayment(orderId: string) returns (r: StepResult)
      modifies this
      ensures r == StepResult(orderId in old(transactions), None)
      ensures r.success ==>
        transactions == old(transactions)[orderId := old(transactions)[orderId].(status := PaymentRefunded)]
      ensures !r.success ==> transactions == old(transactions)
    {
      if orderId in transactions {
        transactions := transactions[orderId := transactions[orderId].(status := PaymentRefunded)];
        return StepResult(true, None);
      }
      return StepResult(false, None);
    }
  }

  class InventoryService {
    var stock: map<string, int>
    var reservedItems: map<string, map<string, int>>

    /** Every reserved id is a stock id, so releasing only adds to existing entries. */
    ghost predicate Valid()
      reads this
    {
      forall orderId :: orderId in reservedItems ==> reservedItems[orderId].Keys <= stock.Keys
    }

    constructor ()
      ensures Valid()
      ensures stock == map["item_A" := 100, "item_B" := 50]
      ensures reservedItems == map[]
    {
      stock := map["item_A" := 100, "item_B" := 50];
      reservedItems := map[];
    }

    /**
     * All-or-nothing reservation: when every line is in stock, deduct every
     * line and record the reservation for the order; otherwise fail with
     * "Insufficient stock" and change nothing.
     */
    method ReserveItems(orderId: string, items: seq<Item>) returns (r: StepResult)
      requires Valid()
      modifies this
      ensures Valid()
      ensures r.success == AllInStock(old(stock), items)
      ensures r.success ==>
        && Ids(items) <= old(stock).Keys
        && r.reason == None
        && stock == Deduct(old(stock), items)
        && reservedItems == old(reservedItems)[orderId := ReservationOf(items)]
      ensures !r.success ==>
        && r.reason == Some("Insufficient stock")
        && stock == old(stock)
        && reservedItems == old(reservedItems)
    {
      var allAvailable, currentReservation := CheckReservation(stock, items);
      if allAvailable {
        InStockIdsAreKeys(stock, items);
        var i := 0;
        while i < |items|
          invariant 0 <= i <= |items|
          invariant stock == Deduct(old(stock), items[..i])
          invariant reservedItems == old(reservedItems)
        {
          DeductOneMore(old(stock), items, i);
          stock := stock[items[i].id := stock[items[i].id] - items[i].quantity];
          i := i + 1;
        }
        assert items[..i] == items;
        reservedItems := reservedItems[orderId := currentReservation];
        return StepResult(true, None);
      } else {
        return StepResult(false, Some("Insufficient stock"));
      }
    }

    /**
     * Adds every reserved quantity of the order back to stock and forgets the
     * reservation; reports failure and changes nothing when the order holds
     * no reservation.
     */
    method ReleaseItems(orderId: string) returns (r: StepResult)
      requires Valid()
      modifies this
      ensures Valid()
      ensures r == StepResult(orderId in old(reservedItems), None)
      ensures r.success ==>
        && stock == Restored(old(stock), old(reservedItems)[orderId])
        && reservedItems == old(reservedItems) - {orderId}
      ensures !r.success ==> stock == old(stock) && reservedItems == old(reservedItems)
    {
      if orderId in reservedItems {
        var released := reservedItems[orderId];
        var pending := released.Keys;
        while pending != {}
          invariant pending <= released.Keys
          invariant stock.Keys == old(stock).Keys
          invariant reservedItems == old(reservedItems)
          invariant forall k :: k in stock ==>
            stock[k] == old(stock)[k] + (if k in released && k !in pending then released[k] else 0)
          decreases pending
        {
          var itemId :| itemId in pending;
          stock := stock[itemId := stock[itemId] + released[itemId]];
          pending := pending - {itemId};
        }
        reservedItems := reservedItems - {orderId};
        return StepResult(true, None);
      }
      return StepResult(false, None);
    }
  }
}
