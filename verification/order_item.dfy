/**
 * One line of an order: the product, how much was asked for, how much the
 * vendor committed to, and the unit price snapshotted at order creation.
 * Prices and totals are integers in the smallest currency unit (paise)
 * instead of the source's `Double`.
 */
module OrderItems {
  import opened Common

  datatype OrderItem = OrderItem(
    product: ProductId,
    requestedQty: int,
    fulfilledQty: int,
    unitPrice: int)

  /** A line as the builder makes it: nothing fulfilled yet. */
  function NewOrderItem(product: ProductId, requestedQty: int, unitPrice: int): (item: OrderItem)
    ensures item.product == product && item.requestedQty == requestedQty && item.unitPrice == unitPrice
    ensures item.fulfilledQty == 0 && LineTotal(item) == 0
  {
    OrderItem(product, requestedQty, 0, unitPrice)
  }

  /** `getLineTotal`: priced on the fulfilled quantity, not the requested one. */
  function LineTotal(item: OrderItem): int
  {
    item.fulfilledQty * item.unitPrice
  }

  /** The line total never looks at the requested quantity. */
  lemma LineTotalIgnoresRequested(item: OrderItem, requestedQty: int)
    ensures LineTotal(item.(requestedQty := requestedQty)) == LineTotal(item)
  {
  }

  /** A line whose commitment lies within what was asked costs at most what was asked, and never less than 0. */
  lemma LineTotalBounded(item: OrderItem)
    requires 0 <= item.fulfilledQty <= item.requestedQty && item.unitPrice >= 0
    ensures 0 <= LineTotal(item) <= item.requestedQty * item.unitPrice
  {
    var d := item.requestedQty - item.fulfilledQty;
    assert item.requestedQty * item.unitPrice == LineTotal(item) + d * item.unitPrice;
    assert d * item.unitPrice >= 0;
  }

  /** What the lines would cost if every line were delivered in full: `Σ unitPrice × requestedQty`. */
  function RequestedTotal(items: seq<OrderItem>): int
    decreases |items|
  {
    if items == [] then 0
    else RequestedTotal(items[..|items| - 1]) + items[|items| - 1].unitPrice * items[|items| - 1].requestedQty
  }

  /** What the lines cost as committed: `Σ getLineTotal()`. */
  function FulfilledTotal(items: seq<OrderItem>): int
    decreases |items|
  {
    if items == [] then 0
    else FulfilledTotal(items[..|items| - 1]) + LineTotal(items[|items| - 1])
  }

  /** Every line commits to between nothing and what it asked for, at a non-negative price. */
  predicate WithinRequest(items: seq<OrderItem>)
  {
    forall i :: 0 <= i < |items| ==> 0 <= items[i].fulfilledQty <= items[i].requestedQty && items[i].unitPrice >= 0
  }

  /** A partial commitment never costs more than the full order, nor less than 0. */
  lemma {:induction false} FulfilledTotalBounded(items: seq<OrderItem>)
    requires WithinRequest(items)
    ensures 0 <= FulfilledTotal(items) <= RequestedTotal(items)
    decreases |items|
  {
    if items != [] {
      var init := items[..|items| - 1];
      assert forall i :: 0 <= i < |init| ==> init[i] == items[i];
      FulfilledTotalBounded(init);
      LineTotalBounded(items[|items| - 1]);
    }
  }

  /** Lines fresh from the builder cost nothing yet. */
  lemma {:induction false} FreshLinesCostNothing(items: seq<OrderItem>)
    requires forall i :: 0 <= i < |items| ==> items[i].fulfilledQty == 0
    ensures FulfilledTotal(items) == 0
    decreases |items|
  {
    if items != [] {
      var init := items[..|items| - 1];
      assert forall i :: 0 <= i < |init| ==> init[i] == items[i];
      FreshLinesCostNothing(init);
    }
  }

  /** When every line is delivered in full the two totals agree. */
  lemma {:induction false} FullCommitmentCostsRequested(items: seq<OrderItem>)
    requires forall i :: 0 <= i < |items| ==> items[i].fulfilledQty == items[i].requestedQty
    ensures FulfilledTotal(items) == RequestedTotal(items)
    decreases |items|
  {
    if items != [] {
      var init := items[..|items| - 1];
      assert forall i :: 0 <= i < |init| ==> init[i] == items[i];
      FullCommitmentCostsRequested(init);
    }
  }
}
