/**
 * The order record and its enumerations. Customer name, phone and address
 * are display data that no rule reads, and are not part of this model.
 */
module OrderEntity {
  import opened Common
  import opened OrderItems

  datatype OrderStatus = Pending | Accepted | Rejected | PartiallyFulfilled | Fulfilled | Cancelled

  datatype OrderPriority = Low | Medium | High | Critical

  datatype FulfillmentType = Full | Partial

  /**
   * `totalAmount` is in paise; `createdAt` and `acceptedAt` are timestamps
   * given as integers. An absent outlet, seller app, pincode, reason or
   * acceptance time (`null` in the source) is `None`.
   */
  datatype Order = Order(
    id: OrderId,
    ondcOrderId: string,
    status: OrderStatus,
    priority: OrderPriority,
    fulfillmentType: FulfillmentType,
    totalAmount: int,
    deliveryPincode: Option<string>,
    vendor: VendorId,
    outlet: Option<OutletId>,
    sellerApp: Option<SellerAppId>,
    items: seq<OrderItem>,
    rejectionReason: Option<string>,
    createdAt: int,
    acceptedAt: Option<int>)

  /** A PENDING order holds no reservation: none of its lines has committed anything yet. */
  predicate HoldsNothing(o: Order)
  {
    forall i :: 0 <= i < |o.items| ==> o.items[i].fulfilledQty == 0
  }
}
