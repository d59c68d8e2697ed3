/**
 * The order lifecycle service: create (with outlet routing), accept, reject
 * and partially fulfil. Every transition runs as one transaction: when a
 * reservation fails part-way, the ledger is put back as it was before the
 * call, so an order is reserved for all of its lines or for none.
 */
module Orders {
  import opened Common
  import opened InventoryRepository
  import opened Ledger
  import opened Vendors
  import opened Outlets
  import opened OrderItems
  import opened OrderEntity

  /** One requested line of a new order. */
  datatype OrderItemRequest = OrderItemRequest(productId: ProductId, requestedQty: int)

  /** The fields of an order request that the service reads; customer display fields are left out. */
  datatype OrderRequest = OrderRequest(
    ondcOrderId: string,
    vendorId: VendorId,
    outletId: Option<OutletId>,
    sellerAppId: Option<SellerAppId>,
    priority: Option<OrderPriority>,
    deliveryPincode: Option<string>,
    items: seq<OrderItemRequest>)

  /**
   * The outlet a new order is routed to: an explicit outlet id wins and must
   * exist; otherwise a delivery pincode asks the outlet selector, which fails
   * when the vendor has no active outlet; otherwise the order has no outlet.
   */
  function ResolveOutlet(outlets: seq<Outlet>, request: OrderRequest): (r: Result<Option<OutletId>>)
    requires forall i :: 0 <= i < |outlets| ==> outlets[i].id == i
    ensures r.Err? ==> r.error == NotFound
    ensures r.Ok? && r.value.Some? ==> r.value.value < |outlets|
    ensures request.outletId.Some? ==> (r.Err? <==> request.outletId.value >= |outlets|)
    ensures request.outletId.Some? && r.Ok? ==> r.value == request.outletId
    ensures request.outletId.None? && request.deliveryPincode.None? ==> r == Ok(None)
    ensures request.outletId.None? && request.deliveryPincode.Some? ==>
      && (r.Err? <==> forall o :: o in outlets ==> !(o.vendor == request.vendorId && o.isActive))
      && (r.Ok? ==> r.value.Some?
                    && outlets[r.value.value].vendor == request.vendorId && outlets[r.value.value].isActive
                    && outlets[r.value.value] == FindOptimalOutlet(outlets, request.vendorId, request.deliveryPincode.value).value)
  {
    if request.outletId.Some? then
      if request.outletId.value < |outlets| then Ok(request.outletId) else Err(NotFound)
    else if request.deliveryPincode.Some? then
      match FindOptimalOutlet(outlets, request.vendorId, request.deliveryPincode.value)
      case Err(e) => Err(e)
      case Ok(o) => Ok(Some(o.id))
    else
      Ok(None)
  }

  /** `validateOrderStatus`: passes only when the order is in the expected state. */
  function ValidateOrderStatus(o: Order, expected: OrderStatus): (out: Outcome)
    ensures out.Pass? <==> o.status == expected
    ensures out.Fail? ==> out.error == InvalidOperation
  {
    if o.status != expected then Fail(InvalidOperation) else Pass
  }

  /** The reservations `acceptOrder` makes: each line's requested quantity, in line order. */
  function RequestedLines(items: seq<OrderItem>): (lines: seq<Line>)
    ensures |lines| == |items|
    ensures forall i :: 0 <= i < |items| ==> lines[i] == Line(items[i].product, items[i].requestedQty)
    decreases |items|
  {
    if items == [] then []
    else
      var last := items[|items| - 1];
      RequestedLines(items[..|items| - 1]) + [Line(last.product, last.requestedQty)]
  }

  /** A line after acceptance: committed in full. */
  function AcceptedItem(item: OrderItem): OrderItem
  {
    item.(fulfilledQty := item.requestedQty)
  }

  /** The order after a successful `acceptOrder` at time `now`; the creation total is kept. */
  function AcceptedOrder(o: Order, now: int): Order
  {
    o.(status := Accepted, fulfillmentType := Full, acceptedAt := Some(now),
       items := seq(|o.items|, i requires 0 <= i < |o.items| => AcceptedItem(o.items[i])))
  }

  /** The order after `rejectOrder` with a reason. */
  function RejectedOrder(o: Order, reason: string): Order
  {
    o.(status := Rejected, rejectionReason := Some(reason))
  }

  /** A line of `partialFulfill` is served when the map gives it a positive quantity. */
  predicate Served(item: OrderItem, fulfillments: map<ProductId, int>)
  {
    item.product in fulfillments && fulfillments[item.product] > 0
  }

  /** The quantity a served line commits: the supplied quantity, clamped to the requested one. */
  function ServedQty(item: OrderItem, fulfillments: map<ProductId, int>): int
    requires Served(item, fulfillments)
  {
    Min(fulfillments[item.product], item.requestedQty)
  }

  /** A line after `partialFulfill`: a served line commits its clamped quantity, any other is left as it was. */
  function PartialItem(item: OrderItem, fulfillments: map<ProductId, int>): OrderItem
  {
    if Served(item, fulfillments) then item.(fulfilledQty := ServedQty(item, fulfillments)) else item
  }

  /** The reservations `partialFulfill` makes: one per served line, in line order. */
  function PartialLines(items: seq<OrderItem>, fulfillments: map<ProductId, int>): seq<Line>
    decreases |items|
  {
    if items == [] then []
    else
      var last := items[|items| - 1];
      PartialLines(items[..|items| - 1], fulfillments)
        + (if Served(last, fulfillments) then [Line(last.product, ServedQty(last, fulfillments))] else [])
  }

  /**
   * The order after a successful `partialFulfill` at time `now`: the total is
   * recomputed from the committed quantities, replacing the creation total.
   */
  function PartiallyFulfilledOrder(o: Order, fulfillments: map<ProductId, int>, now: int): Order
  {
    var items := seq(|o.items|, i requires 0 <= i < |o.items| => PartialItem(o.items[i], fulfillments));
    o.(status := PartiallyFulfilled, fulfillmentType := Partial, acceptedAt := Some(now),
       items := items, totalAmount := FulfilledTotal(items))
  }

  /** Two line lists that ask for the same quantities at the same prices have the same requested total. */
  lemma {:induction false} SameRequestSameTotal(a: seq<OrderItem>, b: seq<OrderItem>)
    requires |a| == |b|
    requires forall i :: 0 <= i < |a| ==> a[i].requestedQty == b[i].requestedQty && a[i].unitPrice == b[i].unitPrice
    ensures RequestedTotal(a) == RequestedTotal(b)
    decreases |a|
  {
    if a != [] {
      SameRequestSameTotal(a[..|a| - 1], b[..|b| - 1]);
    }
  }

  /**
   * Acceptance commits every line in full, so the committed lines cost exactly
   * the requested total, and leaves products, prices and requested quantities alone.
   */
  lemma AcceptedOrderCostsRequested(o: Order, now: int)
    ensures var a := AcceptedOrder(o, now);
      && |a.items| == |o.items|
      && (forall i :: 0 <= i < |o.items| ==>
            a.items[i].product == o.items[i].product && a.items[i].unitPrice == o.items[i].unitPrice
            && a.items[i].requestedQty == o.items[i].requestedQty
            && a.items[i].fulfilledQty == o.items[i].requestedQty)
      && a.totalAmount == o.totalAmount
      && FulfilledTotal(a.items) == RequestedTotal(o.items)
  {
    var a := AcceptedOrder(o, now);
    FullCommitmentCostsRequested(a.items);
    SameRequestSameTotal(a.items, o.items);
  }

  /**
   * With non-negative requested quantities and prices, a partial fulfilment of
   * a PENDING order commits between nothing and the requested quantity on
   * every line, so its recomputed total lies between 0 and the creation total.
   */
  lemma PartialTotalWithinRequested(o: Order, fulfillments: map<ProductId, int>, now: int)
    requires HoldsNothing(o)
    requires forall i :: 0 <= i < |o.items| ==> o.items[i].requestedQty >= 0 && o.items[i].unitPrice >= 0
    ensures var p := PartiallyFulfilledOrder(o, fulfillments, now);
      && |p.items| == |o.items|
      && WithinRequest(p.items)
      && 0 <= p.totalAmount <= RequestedTotal(o.items)
  {
    var p := PartiallyFulfilledOrder(o, fulfillments, now);
    FulfilledTotalBounded(p.items);
    SameRequestSameTotal(p.items, o.items);
  }

  /** A line the map leaves out (or gives a non-positive quantity) keeps committing nothing. */
  lemma UnservedLinesCommitNothing(o: Order, fulfillments: map<ProductId, int>, now: int)
    requires HoldsNothing(o)
    ensures var p := PartiallyFulfilledOrder(o, fulfillments, now);
      forall i :: 0 <= i < |o.items| && !Served(o.items[i], fulfillments) ==> p.items[i].fulfilledQty == 0
  {
  }

  /** With non-negative requested quantities, every reservation of a partial fulfilment is positive or zero. */
  lemma {:induction false} PartialLinesNonNegative(items: seq<OrderItem>, fulfillments: map<ProductId, int>)
    requires forall i :: 0 <= i < |items| ==> items[i].requestedQty >= 0
    ensures forall i :: 0 <= i < |PartialLines(items, fulfillments)| ==> PartialLines(items, fulfillments)[i].quantity >= 0
    decreases |items|
  {
    if items != [] {
      var init := items[..|items| - 1];
      assert forall i :: 0 <= i < |init| ==> init[i] == items[i];
      PartialLinesNonNegative(init, fulfillments);
    }
  }

  /**
   * Acceptance against a ledger: with non-negative requested quantities it
   * succeeds exactly when every product has enough available at the outlet,
   * and a success keeps every record within `0 <= reserved <= total`.
   */
  lemma AcceptSucceedsIffStockSuffices(records: Table, outlet: OutletId, o: Order)
    requires WellKeyed(records)
    requires forall i :: 0 <= i < |o.items| ==> o.items[i].requestedQty >= 0
    ensures var lines := RequestedLines(o.items);
      && (ReserveLines(records, outlet, lines).Ok? <==> StockSuffices(records, outlet, lines))
      && (AllConsistent(records) && ReserveLines(records, outlet, lines).Ok? ==>
            AllConsistent(ReserveLines(records, outlet, lines).value))
  {
    var lines := RequestedLines(o.items);
    ReserveLinesSucceedsIffStockSuffices(records, outlet, lines);
    if AllConsistent(records) {
      ReserveLinesKeepsConsistency(records, outlet, lines);
    }
  }

  /** The same for a partial fulfilment, over the served lines only. */
  lemma PartialSucceedsIffStockSuffices(records: Table, outlet: OutletId, o: Order, fulfillments: map<ProductId, int>)
    requires WellKeyed(records)
    requires forall i :: 0 <= i < |o.items| ==> o.items[i].requestedQty >= 0
    ensures var lines := PartialLines(o.items, fulfillments);
      && (ReserveLines(records, outlet, lines).Ok? <==> StockSuffices(records, outlet, lines))
      && (AllConsistent(records) && ReserveLines(records, outlet, lines).Ok? ==>
            AllConsistent(ReserveLines(records, outlet, lines).value))
  {
    var lines := PartialLines(o.items, fulfillments);
    PartialLinesNonNegative(o.items, fulfillments);
    ReserveLinesSucceedsIffStockSuffices(records, outlet, lines);
    if AllConsistent(records) {
      ReserveLinesKeepsConsistency(records, outlet, lines);
    }
  }

  /**
   * Every transition leaves PENDING, so a second accept, reject or partial
   * fulfilment of the same order fails its status check.
   */
  lemma NoSecondTransition(o: Order, now: int, reason: string, fulfillments: map<ProductId, int>)
    ensures ValidateOrderStatus(AcceptedOrder(o, now), Pending) == Fail(InvalidOperation)
    ensures ValidateOrderStatus(RejectedOrder(o, reason), Pending) == Fail(InvalidOperation)
    ensures ValidateOrderStatus(PartiallyFulfilledOrder(o, fulfillments, now), Pending) == Fail(InvalidOperation)
  {
  }

  /** Rejection touches no line: a PENDING order rejected still commits nothing and costs nothing. */
  lemma RejectionCommitsNothing(o: Order, reason: string)
    requires HoldsNothing(o)
    ensures HoldsNothing(RejectedOrder(o, reason))
    ensures FulfilledTotal(RejectedOrder(o, reason).items) == 0
  {
    FreshLinesCostNothing(o.items);
  }

  /**
   * Lines of 5 at 10.00 and 3 at 20.00 total 110.00 at creation; fulfilling
   * 2 of the first product commits 2 and 0 and recomputes the total to 20.00,
   * reserving only that one line.
   */
  lemma PartialFulfilScenario()
    ensures var items := [NewOrderItem(1, 5, 1000), NewOrderItem(2, 3, 2000)];
      var o := Order(1, "ONDC-1", Pending, Medium, Full, RequestedTotal(items), None, 1, Some(1), None, items, None, 0, None);
      var p := PartiallyFulfilledOrder(o, map[1 := 2], 5);
      && o.totalAmount == 11000
      && p.items[0].fulfilledQty == 2 && p.items[1].fulfilledQty == 0
      && p.totalAmount == 2000
      && PartialLines(o.items, map[1 := 2]) == [Line(1, 2)]
  {
    var items := [NewOrderItem(1, 5, 1000), NewOrderItem(2, 3, 2000)];
    var f := map[1 := 2];
    assert items[..1] == [items[0]] && items[..1][..0] == [];
    assert RequestedTotal(items) == 11000;
    assert PartialLines(items[..1], f) == [Line(1, 2)];
    var pitems := [PartialItem(items[0], f), PartialItem(items[1], f)];
    assert pitems[..1] == [pitems[0]] && pitems[..1][..0] == [];
    assert pitems[0] == OrderItem(1, 5, 2, 1000) && pitems[1] == OrderItem(2, 3, 0, 2000);
    assert FulfilledTotal(pitems[..1]) == 2000;
    assert FulfilledTotal(pitems) == 2000;
    var o := Order(1, "ONDC-1", Pending, Medium, Full, RequestedTotal(items), None, 1, Some(1), None, items, None, 0, None);
    assert PartiallyFulfilledOrder(o, f, 5).items == pitems;
  }

  /**
   * Ids are positions, every order names an existing vendor and (if any) an
   * existing outlet, and a PENDING order holds no reservation.
   */
  ghost predicate WellFormed(orders: seq<Order>, vendorCount: nat, outletCount: nat)
  {
    forall i :: 0 <= i < |orders| ==>
      && orders[i].id == i
      && orders[i].vendor < vendorCount
      && (orders[i].outlet.Some? ==> orders[i].outlet.value < outletCount)
      && (orders[i].status == Pending ==> HoldsNothing(orders[i]))
  }

  /** Replacing an order by one with the same id, vendor and outlet that has left PENDING keeps the table well formed. */
  lemma WellFormedSettle(orders: seq<Order>, vendorCount: nat, outletCount: nat, id: OrderId, o: Order)
    requires WellFormed(orders, vendorCount, outletCount) && id < |orders|
    requires o.id == orders[id].id && o.vendor == orders[id].vendor && o.outlet == orders[id].outlet
    requires o.status != Pending
    ensures WellFormed(orders[id := o], vendorCount, outletCount)
  {
  }

  /** Appending a well-formed order at the next position keeps the table well formed. */
  lemma WellFormedAppend(orders: seq<Order>, vendorCount: nat, outletCount: nat, o: Order)
    requires WellFormed(orders, vendorCount, outletCount)
    requires o.id == |orders| && o.vendor < vendorCount && (o.outlet.Some? ==> o.outlet.value < outletCount)
    requires o.status == Pending ==> HoldsNothing(o)
    ensures WellFormed(orders + [o], vendorCount, outletCount)
  {
  }

  /** The order table, with ids equal to positions, and the lifecycle service over it and its collaborators. */
  class OrderService {
    var orders: seq<Order>
    const inventory: InventoryService
    const outlets: OutletService
    const vendors: VendorService

    /**
     * The collaborators are valid and the ledger checks outlets against the
     * same outlet service, every order names an existing vendor and (if any)
     * an existing outlet, and a PENDING order holds no reservation.
     */
    ghost predicate Valid()
      reads this, inventory, inventory.outletService, outlets, vendors
    {
      && inventory.Valid() && outlets.Valid() && vendors.Valid()
      && inventory.outletService == outlets
      && WellFormed(orders, |vendors.vendors|, |outlets.outlets|)
    }

    constructor (inventory: InventoryService, outlets: OutletService, vendors: VendorService)
      requires inventory.Valid() && outlets.Valid() && vendors.Valid()
      requires inventory.outletService == outlets
      ensures Valid() && orders == []
      ensures this.inventory == inventory && this.outlets == outlets && this.vendors == vendors
    {
      this.inventory := inventory;
      this.outlets := outlets;
      this.vendors := vendors;
      orders := [];
    }

    /** `findOrderById`. */
    function FindOrderById(id: OrderId): (r: Result<Order>)
      reads this, inventory, inventory.outletService, outlets, vendors
      requires Valid()
      ensures r.Err? <==> id >= |orders|
      ensures r.Err? ==> r.error == NotFound
      ensures r.Ok? ==> r.value.id == id && r.value in orders
    {
      if id < |orders| then Ok(orders[id]) else Err(NotFound)
    }

    /**
     * `createOrder`. The product and seller-app tables are not part of this
     * model: `prices` maps each existing product to its current price, and
     * `sellerApps` is the set of existing seller-app ids. `now` is the
     * creation timestamp.
     */
    method CreateOrder(request: OrderRequest, prices: map<ProductId, int>, sellerApps: set<SellerAppId>, now: int)
      returns (r: Result<Order>)
      requires Valid()
      modifies this
      ensures Valid()
      ensures r.Err? <==>
        || request.vendorId >= |vendors.vendors|
        || ResolveOutlet(outlets.outlets, request).Err?
        || (request.sellerAppId.Some? && request.sellerAppId.value !in sellerApps)
        || (exists i :: 0 <= i < |request.items| && request.items[i].productId !in prices)
      ensures r.Err? ==> r.error == NotFound && orders == old(orders)
      ensures r.Ok? ==> orders == old(orders) + [r.value]
      ensures r.Ok? ==>
        && r.value.id == |old(orders)| && r.value.ondcOrderId == request.ondcOrderId
        && r.value.status == Pending && r.value.fulfillmentType == Full
        && r.value.priority == (if request.priority.Some? then request.priority.value else Medium)
        && r.value.vendor == request.vendorId
        && r.value.outlet == ResolveOutlet(outlets.outlets, request).value
        && r.value.sellerApp == request.sellerAppId && r.value.deliveryPincode == request.deliveryPincode
        && r.value.rejectionReason.None? && r.value.createdAt == now && r.value.acceptedAt.None?
        && |r.value.items| == |request.items|
        && (forall i :: 0 <= i < |request.items| ==>
              r.value.items[i] == NewOrderItem(request.items[i].productId, request.items[i].requestedQty,
                                               prices[request.items[i].productId]))
        && r.value.totalAmount == RequestedTotal(r.value.items)
        && HoldsNothing(r.value)
    {
      var vendor := vendors.FindVendorById(request.vendorId);
      if vendor.Err? {
        return Err(vendor.error);
      }
      var outlet: Option<OutletId> := None;
      if request.outletId.Some? {
        var found := outlets.FindOutletById(request.outletId.value);
        if found.Err? {
          return Err(found.error);
        }
        outlet := Some(found.value.id);
      } else if request.deliveryPincode.Some? {
        var optimal := FindOptimalOutlet(outlets.outlets, request.vendorId, request.deliveryPincode.value);
        if optimal.Err? {
          return Err(optimal.error);
        }
        var found := outlets.FindOutletById(optimal.value.id);
        assert found.Ok?;
        outlet := Some(found.value.id);
      }
      assert ResolveOutlet(outlets.outlets, request) == Ok(outlet);
      if request.sellerAppId.Some? && request.sellerAppId.value !in sellerApps {
        return Err(NotFound);
      }
      var items: seq<OrderItem> := [];
      var total := 0;
      for i := 0 to |request.items|
        invariant |items| == i
        invariant forall j :: 0 <= j < i ==> request.items[j].productId in prices
        invariant forall j :: 0 <= j < i ==>
          items[j] == NewOrderItem(request.items[j].productId, request.items[j].requestedQty,
                                   prices[request.items[j].productId])
        invariant total == RequestedTotal(items)
      {
        var itemRequest := request.items[i];
        if itemRequest.productId !in prices {
          return Err(NotFound);
        }
        var price := prices[itemRequest.productId];
        var item := NewOrderItem(itemRequest.productId, itemRequest.requestedQty, price);
        assert (items + [item])[..|items|] == items;
        items := items + [item];
        total := total + price * itemRequest.requestedQty;
      }
      var order := Order(|orders|, request.ondcOrderId, Pending,
                         if request.priority.Some? then request.priority.value else Medium,
                         Full, total, request.deliveryPincode, vendor.value.id, outlet,
                         request.sellerAppId, items, None, now, None);
      WellFormedAppend(orders, |vendors.vendors|, |outlets.outlets|, order);
      orders := orders + [order];
      r := Ok(order);
    }

    /**
     * The reservation loop of `acceptOrder` and `partialFulfill`: reserves the
     * lines one after the other at the outlet. The transaction is rolled back
     * on the first failure, so the ledger ends as `ReserveLines` says: every
     * line reserved, or nothing changed.
     */
    method ReserveAll(outlet: OutletId, lines: seq<Line>) returns (out: Outcome)
      requires inventory.Valid()
      modifies inventory
      ensures inventory.Valid()
      ensures ReserveLines(old(inventory.records), outlet, lines) == if out.Pass? then Ok(inventory.records) else Err(out.error)
      ensures out.Fail? ==> inventory.records == old(inventory.records)
    {
      var snapshot := inventory.records;
      for i := 0 to |lines|
        invariant inventory.Valid()
        invariant WellKeyed(snapshot) && AtKnownOutlets(snapshot, inventory.outletService.outlets)
        invariant ReserveLines(snapshot, outlet, lines[..i]) == Ok(inventory.records)
      {
        ReserveLinesStep(snapshot, outlet, lines, i, inventory.records);
        var reserved := inventory.ReserveStock(lines[i].product, outlet, lines[i].quantity);
        if reserved.Fail? {
          ReserveLinesPrefixFailure(snapshot, outlet, lines, i + 1);
          inventory.records := snapshot;
          return reserved;
        }
      }
      assert lines[..|lines|] == lines;
      out := Pass;
    }

    /**
     * The guards `acceptOrder` and `partialFulfill` share, in their order:
     * the order must exist, be PENDING, and have an outlet.
     */
    function PendingWithOutlet(orderId: OrderId): (r: Result<Order>)
      reads this, inventory, inventory.outletService, outlets, vendors
      requires Valid()
      ensures orderId >= |orders| ==> r == Err(NotFound)
      ensures orderId < |orders| && orders[orderId].status != Pending ==> r == Err(InvalidOperation)
      ensures orderId < |orders| && orders[orderId].status == Pending && orders[orderId].outlet.None? ==> r == Err(InvalidOperation)
      ensures r.Ok? <==> orderId < |orders| && orders[orderId].status == Pending && orders[orderId].outlet.Some?
      ensures r.Ok? ==> r.value == orders[orderId]
    {
      match FindOrderById(orderId)
      case Err(e) => Err(e)
      case Ok(order) =>
        match ValidateOrderStatus(order, Pending)
        case Fail(e) => Err(e)
        case Pass => if order.outlet.None? then Err(InvalidOperation) else Ok(order)
    }

    /**
     * What a settling call leaves behind, against the state it started from.
     * When reserving `lines` at `outlet` fails: that error, and the orders,
     * the ledger, the outlets and the vendors as they were. Otherwise:
     * `settled` stored at `orderId`, the ledger as `ReserveLines` leaves it,
     * one more order at the outlet and one more success for the vendor.
     */
    twostate predicate Settles(orderId: OrderId, outlet: OutletId, lines: seq<Line>, settled: Order, new r: Result<Order>)
      reads this, inventory, outlets, vendors
      requires old(WellKeyed(inventory.records))
      requires old(orderId < |orders| && outlet < |outlets.outlets| && settled.vendor < |vendors.vendors|)
    {
      var reserved := ReserveLines(old(inventory.records), outlet, lines);
      && (reserved.Err? ==> r == Err(reserved.error) && orders == old(orders) && inventory.records == old(inventory.records)
                            && outlets.outlets == old(outlets.outlets) && vendors.vendors == old(vendors.vendors))
      && (reserved.Ok? ==>
            && r == Ok(settled)
            && orders == old(orders)[orderId := settled]
            && inventory.records == reserved.value
            && outlets.outlets == old(outlets.outlets)[outlet := old(outlets.outlets)[outlet].(currentLoad := old(outlets.outlets)[outlet].currentLoad + 1)]
            && vendors.vendors == old(vendors.vendors)[settled.vendor := RecordOrder(old(vendors.vendors)[settled.vendor], true)])
    }

    /**
     * The transactional tail shared by `acceptOrder` and `partialFulfill`:
     * reserve the lines at the order's outlet; on success store the settled
     * order, count one more order at the outlet and one more success for the
     * vendor. A failed reservation leaves everything as it was.
     */
    method Commit(orderId: OrderId, outlet: OutletId, lines: seq<Line>, settled: Order) returns (r: Result<Order>)
      requires Valid()
      requires orderId < |orders| && orders[orderId].outlet == Some(outlet)
      requires settled.id == orders[orderId].id && settled.vendor == orders[orderId].vendor
      requires settled.outlet == orders[orderId].outlet && settled.status != Pending
      modifies this, inventory, outlets, vendors
      ensures Valid()
      ensures Settles(orderId, outlet, lines, settled, r)
    {
      var reserved := ReserveAll(outlet, lines);
      if reserved.Fail? {
        return Err(reserved.error);
      }
      ghost var before := outlets.outlets;
      var loaded := outlets.IncrementLoad(outlet);
      assert loaded.Pass?;
      AtKnownOutletsKeepsVendors(inventory.records, before, outlets.outlets);
      var rated := vendors.UpdateVendorStats(settled.vendor, true);
      assert rated.Pass?;
      WellFormedSettle(orders, |vendors.vendors|, |outlets.outlets|, orderId, settled);
      orders := orders[orderId := settled];
      r := Ok(settled);
    }

    /**
     * `acceptOrder`: reserves every line's requested quantity at the order's
     * outlet; on success commits every line in full, counts one more order at
     * the outlet and one more success for the vendor. Any failure leaves the
     * orders, the ledger, the outlets and the vendors as they were.
     */
    method AcceptOrder(orderId: OrderId, now: int) returns (r: Result<Order>)
      requires Valid()
      modifies this, inventory, outlets, vendors
      ensures Valid()
      ensures r.Err? ==> orders == old(orders) && inventory.records == old(inventory.records)
                         && outlets.outlets == old(outlets.outlets) && vendors.vendors == old(vendors.vendors)
      ensures orderId >= |old(orders)| ==> r == Err(NotFound)
      ensures orderId < |old(orders)| && old(orders)[orderId].status != Pending ==> r == Err(InvalidOperation)
      ensures (orderId < |old(orders)| && old(orders)[orderId].status == Pending
               && old(orders)[orderId].outlet.None?) ==> r == Err(InvalidOperation)
      ensures orderId < |old(orders)| && old(orders)[orderId].status == Pending && old(orders)[orderId].outlet.Some? ==>
        var o := old(orders)[orderId];
        Settles(orderId, o.outlet.value, RequestedLines(o.items), AcceptedOrder(o, now), r)
    {
      var found := PendingWithOutlet(orderId);
      if found.Err? {
        return Err(found.error);
      }
      var order := found.value;
      r := Commit(orderId, order.outlet.value, RequestedLines(order.items), AcceptedOrder(order, now));
    }

    /**
     * `rejectOrder`: records the reason and counts one more failure for the
     * vendor; the ledger and the outlets are not touched.
     */
    method RejectOrder(orderId: OrderId, reason: string) returns (r: Result<Order>)
      requires Valid()
      modifies this, vendors
      ensures Valid()
      ensures r.Err? ==> orders == old(orders) && vendors.vendors == old(vendors.vendors)
      ensures r.Err? <==> orderId >= |old(orders)| || old(orders)[orderId].status != Pending
      ensures r.Err? ==> r.error == if orderId >= |old(orders)| then NotFound else InvalidOperation
      ensures r.Ok? ==>
        var o := old(orders)[orderId];
        && r.value == RejectedOrder(o, reason)
        && orders == old(orders)[orderId := r.value]
        && vendors.vendors == old(vendors.vendors)[o.vendor := RecordOrder(old(vendors.vendors)[o.vendor], false)]
    {
      var found := FindOrderById(orderId);
      if found.Err? {
        return Err(found.error);
      }
      var order := found.value;
      var status := ValidateOrderStatus(order, Pending);
      if status.Fail? {
        return Err(status.error);
      }
      var rejected := order.(status := Rejected, rejectionReason := Some(reason));
      var rated := vendors.UpdateVendorStats(order.vendor, false);
      assert rated.Pass?;
      WellFormedSettle(orders, |vendors.vendors|, |outlets.outlets|, orderId, rejected);
      orders := orders[orderId := rejected];
      r := Ok(rejected);
    }

    /**
     * `partialFulfill`: reserves the clamped quantity of every served line at
     * the order's outlet; on success commits those quantities, recomputes the
     * total from them, counts one more order at the outlet and one more
     * success for the vendor. Any failure leaves everything as it was.
     */
    method PartialFulfill(orderId: OrderId, fulfillments: map<ProductId, int>, now: int) returns (r: Result<Order>)
      requires Valid()
      modifies this, inventory, outlets, vendors
      ensures Valid()
      ensures r.Err? ==> orders == old(orders) && inventory.records == old(inventory.records)
                         && outlets.outlets == old(outlets.outlets) && vendors.vendors == old(vendors.vendors)
      ensures orderId >= |old(orders)| ==> r == Err(NotFound)
      ensures orderId < |old(orders)| && old(orders)[orderId].status != Pending ==> r == Err(InvalidOperation)
      ensures (orderId < |old(orders)| && old(orders)[orderId].status == Pending
               && old(orders)[orderId].outlet.None?) ==> r == Err(InvalidOperation)
      ensures orderId < |old(orders)| && old(orders)[orderId].status == Pending && old(orders)[orderId].outlet.Some? ==>
        var o := old(orders)[orderId];
        Settles(orderId, o.outlet.value, PartialLines(o.items, fulfillments), PartiallyFulfilledOrder(o, fulfillments, now), r)
    {
      var found := PendingWithOutlet(orderId);
      if found.Err? {
        return Err(found.error);
      }
      var order := found.value;
      r := Commit(orderId, order.outlet.value, PartialLines(order.items, fulfillments),
                  PartiallyFulfilledOrder(order, fulfillments, now));
    }
  }
}
