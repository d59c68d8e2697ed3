# ONDC vendor backend: stock ledger and order fulfilment, in Dafny

This project models the stock ledger and the order-fulfilment engine of the
ONDC vendor backend, along with two small pieces of client logic that sit
beside it.

**The backend**
- **Inventory record.** There is one record per (product, outlet) pair, with
  total, reserved and reorder-level counts. Available stock is derived from
  the counts, and so is the low-stock flag.
- **Ledger operations.** The ledger reserves, releases, deducts, upserts and
  syncs stock. It is the guard against selling stock that is not there.
- **Outlet selector.** It routes an order to the vendor's best active outlet,
  ranked first by pincode match and then by load against capacity.
- **Order lifecycle.** An order goes from PENDING to ACCEPTED, REJECTED or
  PARTIALLY_FULFILLED. Each transition drives the ledger, the outlet's load
  counter and the vendor's order counters and star rating.
- **Order repository queries.** These cover the vendor's orders, the
  priority-ordered list, and the status filter with its count.

**The client side**
- **Buyer cart.** A map from product to quantity, locked to one vendor at a
  time.
- **Stock-health helpers.** The vendor app's stock percentage and health
  level.

**Modelling choices**
- There is one Dafny module per source component.
- The services that update records in place are classes, with `modifies`
  frames: `InventoryService`, `OutletService`, `VendorService`,
  `OrderService` and `CartManager`. Each method is proved against a pure
  function that states the same step on values. For example,
  `Ledger.ReserveIn` is the value-level form of `reserveStock`, and
  `Ledger.ReserveLines` is the reservation loop of `acceptOrder`.
- The three exception types become an `Error` value: `NotFound`,
  `InsufficientStock` or `InvalidOperation`.
- Money is an integer number of paise.
- The vendor rating is an integer number of tenths of a star.
- Timestamps are integers passed in by the caller.
- Java's truncating `/` is written out as `StockHealth.JavaDiv`.
- Every `@Transactional` service call is modelled as all-or-nothing. When a
  reservation fails part-way through an accept or a partial fulfilment, the
  ledger is restored from a snapshot. The orders, outlets and vendors are not
  touched.

## Model

| member | source | states |
|---|---|---|
| InventoryEntity.AvailableStock | ondc/src/main/java/com/example/ondc/entity/Inventory.java:50-52 | available is negative exactly when reserved exceeds total, equals total exactly when nothing is reserved, and lies in [0, total] for a consistent record |
| InventoryEntity.NewInventory | ondc/src/main/java/com/example/ondc/entity/Inventory.java:27-36 | a fresh record has total 0, reserved 0 and reorder level 10, so it is consistent, has 0 available and is already low on stock |
| InventoryEntity.LowStockMonotone | ondc/src/main/java/com/example/ondc/entity/Inventory.java:57-59 | at the same reorder level, less available stock never turns a low-stock record into a healthy one |
| InventoryEntity.SeedLowStockExamples | ondc/src/main/java/com/example/ondc/config/DataInitializer.java:110-124 | the seeded records 8/10 and 3/5 are low, 200/30 is not; available equal to the reorder level counts as low and one more does not |
| InventoryRepository.FindByProductIdAndOutletId | ondc/src/main/java/com/example/ondc/repository/InventoryRepository.java:13 | under the unique (product, outlet) key, the lookup returns the one record with that key, and none exactly when no record has it |
| InventoryRepository.Save | ondc/src/main/java/com/example/ondc/service/InventoryService.java:84 | after a save, the record is found under its key, every other key finds what it found before, and the table stays keyed |
| InventoryRepository.FindLowStockInventory | ondc/src/main/java/com/example/ondc/repository/InventoryRepository.java:17-18 | the query's own `(total - reserved) <= reorderLevel` selects exactly the stored records for which `isLowStock` holds |
| InventoryRepository.FindByOutletVendorId | ondc/src/main/java/com/example/ondc/repository/InventoryRepository.java:23 | exactly the stored records at the vendor's outlets |
| InventoryRepository.FindLowStockByVendorId | ondc/src/main/java/com/example/ondc/repository/InventoryRepository.java:20-21 | exactly the stored records of the vendor that are low on stock |
| InventoryRepository.LowStockByVendorIsFilterOfVendorRecords | ondc/src/main/java/com/example/ondc/repository/InventoryRepository.java:17-23 | the vendor's low-stock list is the global low-stock list intersected with the vendor's records, and so a subset of the latter |
| Ledger.Reserve | ondc/src/main/java/com/example/ondc/service/InventoryService.java:76-83 | refused with InsufficientStock exactly when less is available than asked; otherwise only the reservation grows, by the quantity. Available stays non-negative, and a non-negative quantity keeps `0 <= reserved <= total` |
| Ledger.Release | ondc/src/main/java/com/example/ondc/service/InventoryService.java:96-97 | never fails; only the reservation changes, it drops to 0 exactly on over-release and otherwise drops by the quantity; a non-negative quantity keeps `0 <= reserved <= total` |
| Ledger.ReserveThenRelease | ondc/src/main/java/com/example/ondc/service/InventoryService.java:76-98 | releasing what was just reserved gives back the original record |
| Ledger.Deduct | ondc/src/main/java/com/example/ondc/service/InventoryService.java:110-111 | only total and reserved change, both floored at 0; the invariant is kept whatever the quantity; deducting a held quantity leaves available unchanged |
| Ledger.Upsert | ondc/src/main/java/com/example/ondc/service/InventoryService.java:50-61 | the key is kept and the total is overwritten; the vendor is the existing record's, or the given outlet vendor for a new record; reserved is carried over or is 0 for a new record; the reorder level is overwritten only when given (else kept, else 10); the invariant holds exactly when the new total covers the old reservation |
| Ledger.UpsertCanOversell | ondc/src/main/java/com/example/ondc/service/InventoryService.java:57 | restocking a consistent 10/8 record to 5 leaves -3 available |
| Ledger.ReserveIn | ondc/src/main/java/com/example/ondc/service/InventoryService.java:72-84 | NotFound for a missing record; InsufficientStock when too little is available; otherwise the record's reservation grows by the quantity, every other key is unchanged, and consistency is kept for a non-negative quantity |
| Ledger.HasAvailableStock | ondc/src/main/java/com/example/ondc/service/InventoryService.java:144-148 | true exactly when a reservation of that quantity would succeed |
| Ledger.ReserveLinesStep | ondc/src/main/java/com/example/ondc/service/OrderService.java:126-132 | one more pass of the reservation loop reserves the next line on the table the previous passes left |
| Ledger.ReserveLinesPrefixFailure | ondc/src/main/java/com/example/ondc/service/OrderService.java:126-132 | once a prefix of the reservation loop fails, the whole loop fails with the same error |
| Ledger.ReserveLinesAtOutlet | ondc/src/main/java/com/example/ondc/service/OrderService.java:126-132 | a successful loop adds to each product's record at the outlet exactly the total quantity its lines ask for |
| Ledger.ReserveInAtOutlet | ondc/src/main/java/com/example/ondc/service/InventoryService.java:72-84 | one successful reservation, seen from any product's record at that outlet: the reserved product grows by the quantity and the others are unchanged |
| Ledger.ReserveLinesOtherOutlet | ondc/src/main/java/com/example/ondc/service/OrderService.java:126-132 | a successful loop leaves every record at other outlets unchanged |
| Ledger.ReserveLinesNeverOversells | ondc/src/main/java/com/example/ondc/service/OrderService.java:126-132 | if the loop succeeds, every product's record existed and had at least the total quantity its lines ask for available |
| Ledger.ReserveLinesAcceptsWhatFits | ondc/src/main/java/com/example/ondc/service/OrderService.java:126-132 | with non-negative quantities, when every product has enough available the loop succeeds |
| Ledger.ReserveLinesSucceedsIffStockSuffices | ondc/src/main/java/com/example/ondc/service/OrderService.java:126-132 | with non-negative quantities, the loop succeeds exactly when every product has enough available |
| Ledger.ReserveLinesKeepsConsistency | ondc/src/main/java/com/example/ondc/service/InventoryService.java:76-83 | with non-negative quantities, a successful loop keeps every record within `0 <= reserved <= total` |
| Ledger.NegativeQuantityBreaksConsistency | ondc/src/main/java/com/example/ondc/service/InventoryService.java:76-83 | a reservation of -3, which nothing rejects, succeeds and leaves reserved at -3 |
| Ledger.ReserveReleaseScenario | ondc/src/main/java/com/example/ondc/service/InventoryService.java:76-98 | reserve 8 of 10 (2 left, low), release 5 (7 left, not low), then reserving 8 again is refused |
| Ledger.InventoryService.ReserveStock | ondc/src/main/java/com/example/ondc/service/InventoryService.java:71-85 | the new table is what `ReserveIn` gives, or the same error with the table unchanged |
| Ledger.InventoryService.ReleaseReservation | ondc/src/main/java/com/example/ondc/service/InventoryService.java:91-99 | NotFound with nothing changed exactly when the record is missing; otherwise the released record is saved |
| Ledger.InventoryService.DeductStock | ondc/src/main/java/com/example/ondc/service/InventoryService.java:105-113 | NotFound with nothing changed exactly when the record is missing; otherwise the deducted record is saved |
| Ledger.InventoryService.CreateOrUpdateInventory | ondc/src/main/java/com/example/ondc/service/InventoryService.java:46-64 | NotFound with nothing changed exactly when the product or the outlet does not exist; otherwise the `Upsert` of the record found (owned by the outlet's vendor) is saved and returned |
| Ledger.InventoryService.SyncInventory | ondc/src/main/java/com/example/ondc/service/InventoryService.java:134-139 | every record of the vendor gets the sync time and nothing else changes; the result is exactly the vendor's records afterwards |
| Ledger.SaveAtKnownOutlet | ondc/src/main/java/com/example/ondc/service/InventoryService.java:48-55 | saving a record that names a stored outlet and carries that outlet's vendor keeps every record at a stored outlet of its own vendor |
| Ledger.SaveSameVendor | ondc/src/main/java/com/example/ondc/service/InventoryService.java:76-84 | rewriting a found record's stock without changing its key or vendor keeps every record at a stored outlet of its own vendor |
| Ledger.AtKnownOutletsKeepsVendors | ondc/src/main/java/com/example/ondc/service/OutletService.java:95-99 | outlet changes that keep each outlet's vendor, such as a load increment, keep every record at a stored outlet of its own vendor |
| Ledger.VendorRecordsAreAtVendorOutlets | ondc/src/main/java/com/example/ondc/repository/InventoryRepository.java:23 | on a valid ledger, the vendor's records are exactly the records whose outlet the vendor owns, as the join through `inventory.outlet.vendor` selects them |
| Outlets.ActiveOutletsOf | ondc/src/main/java/com/example/ondc/repository/OutletRepository.java:12 | exactly the vendor's active outlets |
| Outlets.ActivePositionsTrack | ondc/src/main/java/com/example/ondc/repository/OutletRepository.java:12 | each returned outlet is the outlet stored at a matching position |
| Outlets.ActivePositionsIncrease | ondc/src/main/java/com/example/ondc/repository/OutletRepository.java:12 | those positions strictly increase, so the query keeps storage order |
| Outlets.ActivePositionsCover | ondc/src/main/java/com/example/ondc/repository/OutletRepository.java:12 | every active outlet of the vendor has its position among them |
| Outlets.LessLoadedPositive | ondc/src/main/java/com/example/ondc/service/OutletService.java:87 | for positive capacities, `load_a / cap_a` sorts before `load_b / cap_b` exactly when `load_a * cap_b < load_b * cap_a` |
| Outlets.RatioBeforeTransitive | ondc/src/main/java/com/example/ondc/service/OutletService.java:87 | `Double.compare` on the ratios outlets produce (-Infinity, finite values with -0.0 before 0.0, +Infinity, NaN) is asymmetric and transitive over incomparability, so a strict weak order |
| Outlets.RanksBeforeTransitive | ondc/src/main/java/com/example/ondc/service/OutletService.java:83-88 | the comparator on (pincode mismatch, load ratio) is a strict weak order for all loads and capacities |
| Outlets.BestIndexIsEarliestMinimum | ondc/src/main/java/com/example/ondc/service/OutletService.java:82-89 | a stable sort followed by `findFirst` picks a candidate that no candidate ranks before, and that ranks strictly before every earlier candidate, so ties go to input order |
| Outlets.PincodeMatchPreferred | ondc/src/main/java/com/example/ondc/service/OutletService.java:85 | whatever the loads and capacities, if any candidate serves the pincode then the chosen one does |
| Outlets.FindOptimalOutlet | ondc/src/main/java/com/example/ondc/service/OutletService.java:76-92 | NotFound exactly when the vendor has no active outlet; otherwise an active outlet of the vendor that serves the pincode when any does, that no other active outlet of the vendor outranks, and that ranks strictly before every active outlet of the vendor stored ahead of it |
| Outlets.SelectedPrecedesEarlierActive | ondc/src/main/java/com/example/ondc/service/OutletService.java:80-89 | the outlet a stable sort of the active outlets picks ranks strictly before every active outlet of the vendor stored ahead of it |
| Outlets.SelectorExamples | ondc/src/main/java/com/example/ondc/service/OutletService.java:82-89 | a pincode match wins even at 80% load; without a match the less loaded outlet wins |
| Outlets.DegenerateCapacityExamples | ondc/src/main/java/com/example/ondc/service/OutletService.java:87 | an idle outlet with capacity 0 (ratio NaN) loses to a half-loaded one; an outlet with capacity -10 (a negative ratio) beats a half-loaded one |
| Outlets.OutletService.FindOutletById | ondc/src/main/java/com/example/ondc/service/OutletService.java:101-104 | NotFound exactly for an unknown id; otherwise the outlet with that id |
| Outlets.OutletService.CreateOutlet | ondc/src/main/java/com/example/ondc/service/OutletService.java:40-53 | NotFound exactly for an unknown vendor; otherwise appends an active outlet with load 0 and capacity 100 unless one is given |
| Outlets.OutletService.UpdateOutlet | ondc/src/main/java/com/example/ondc/service/OutletService.java:56-68 | NotFound exactly for an unknown id; otherwise overwrites name, address and pincode, keeps the capacity unless one is given, and never touches the vendor, the active flag or the load |
| Outlets.OutletService.IncrementLoad | ondc/src/main/java/com/example/ondc/service/OutletService.java:95-99 | NotFound with nothing changed for an unknown id; otherwise exactly that outlet's load grows by 1 |
| Vendors.NewVendor | ondc/src/main/java/com/example/ondc/entity/Vendor.java:35-48 | a fresh vendor has zero counters and rating 0.0, and its counters are consistent |
| Vendors.RatingTenths | ondc/src/main/java/com/example/ondc/service/VendorService.java:63-66 | the rating is 50·successful/total rounded half-up: `2t·r <= 100s + t < 2t·(r+1)`; it lies in [0, 50] tenths, is 50 when every order succeeded and 0 when none did |
| Vendors.RatingBounds | ondc/src/main/java/com/example/ondc/service/VendorService.java:63-66 | the half-up characterisation alone places the rating in [0, 5.0], and at 5.0 or 0.0 at the extremes |
| Vendors.RecordOrder | ondc/src/main/java/com/example/ondc/service/VendorService.java:54-67 | total grows by 1 and exactly one of successful or cancelled grows by 1; counter consistency is kept and the rating is re-derived |
| Vendors.RecordAllCounts | ondc/src/main/java/com/example/ondc/service/VendorService.java:56-61 | after any run of outcomes, total grew by their number, split exactly into successes and failures, and the counters stay consistent |
| Vendors.AllOrNothingRating | ondc/src/main/java/com/example/ondc/service/VendorService.java:63-66 | a fresh vendor whose orders all succeeded is rated 5.0, and one with no success is rated 0.0 |
| Vendors.RatingMonotone | ondc/src/main/java/com/example/ondc/service/VendorService.java:63-66 | more successes out of the same total never lower the rating |
| Vendors.VendorService.FindVendorById | ondc/src/main/java/com/example/ondc/service/VendorService.java:70-73 | NotFound exactly for an unknown id; otherwise the vendor with that id |
| Vendors.VendorService.UpdateVendorStats | ondc/src/main/java/com/example/ondc/service/VendorService.java:54-68 | NotFound with nothing changed for an unknown id; otherwise that vendor is replaced by `RecordOrder` and every vendor keeps consistent counters |
| OrderItems.NewOrderItem | ondc/src/main/java/com/example/ondc/entity/OrderItem.java:28-29 | a new line keeps its product, quantity and price, has nothing fulfilled, and so has line total 0 |
| OrderItems.LineTotalIgnoresRequested | ondc/src/main/java/com/example/ondc/entity/OrderItem.java:34-36 | the line total does not depend on the requested quantity |
| OrderItems.LineTotalBounded | ondc/src/main/java/com/example/ondc/entity/OrderItem.java:34-36 | a line committing within its request costs between 0 and requested × price |
| OrderItems.FulfilledTotalBounded | ondc/src/main/java/com/example/ondc/service/OrderService.java:189-192 | when every line commits within its request, the committed total lies between 0 and the requested total |
| OrderItems.FreshLinesCostNothing | ondc/src/main/java/com/example/ondc/entity/OrderItem.java:28-36 | lines with nothing fulfilled cost 0 in total |
| OrderItems.FullCommitmentCostsRequested | ondc/src/main/java/com/example/ondc/service/OrderService.java:126-132 | when every line is committed in full, the committed total equals the requested total |
| OrderQueries.Rank | ondc/src/main/java/com/example/ondc/repository/OrderRepository.java:21 | the rank is in 0..3 |
| OrderQueries.RankOrdersUrgency | ondc/src/main/java/com/example/ondc/repository/OrderRepository.java:21 | ranks are distinct per priority, with CRITICAL < HIGH < MEDIUM < LOW |
| OrderQueries.FindByVendorId | ondc/src/main/java/com/example/ondc/repository/OrderRepository.java:15 | each of the vendor's orders appears as often as it is stored, and no other order appears |
| OrderQueries.Insert | ondc/src/main/java/com/example/ondc/repository/OrderRepository.java:20-22 | inserting into a priority-sorted list keeps it sorted and adds exactly that order |
| OrderQueries.SortByPriority | ondc/src/main/java/com/example/ondc/repository/OrderRepository.java:20-22 | the result is sorted by (rank, createdAt) and is a permutation of the input |
| OrderQueries.FindByVendorIdOrderByPriority | ondc/src/main/java/com/example/ondc/repository/OrderRepository.java:20-23 | the result is sorted by (rank, createdAt) and is a permutation of exactly the vendor's orders |
| OrderQueries.FindByVendorIdAndStatus | ondc/src/main/java/com/example/ondc/repository/OrderRepository.java:16 | exactly the stored orders with that vendor and status |
| OrderQueries.CountMatchesList | ondc/src/main/java/com/example/ondc/repository/OrderRepository.java:25-26 | the count query equals the length of the list query for the same vendor and status |
| Orders.ResolveOutlet | ondc/src/main/java/com/example/ondc/service/OrderService.java:67-74 | an explicit outlet id wins and fails exactly when it does not exist; otherwise a pincode routes through `FindOptimalOutlet` and fails exactly when the vendor has no active outlet; otherwise there is no outlet |
| Orders.ValidateOrderStatus | ondc/src/main/java/com/example/ondc/service/OrderService.java:205-211 | passes exactly when the status is the expected one, and otherwise fails with InvalidOperation |
| Orders.AcceptedOrderCostsRequested | ondc/src/main/java/com/example/ondc/service/OrderService.java:126-136 | acceptance keeps every product, price and requested quantity and commits each line in full; the total is unchanged and the committed total equals the requested total |
| Orders.PartialTotalWithinRequested | ondc/src/main/java/com/example/ondc/service/OrderService.java:172-192 | for a PENDING order with non-negative quantities and prices, every line commits within its request, and the recomputed total lies between 0 and the creation total |
| Orders.UnservedLinesCommitNothing | ondc/src/main/java/com/example/ondc/service/OrderService.java:172-182 | a line the fulfilment map omits, or gives a quantity of 0 or less, stays at 0 fulfilled |
| Orders.PartialLinesNonNegative | ondc/src/main/java/com/example/ondc/service/OrderService.java:173-175 | with non-negative requested quantities, every clamped reservation of a partial fulfilment is non-negative |
| Orders.AcceptSucceedsIffStockSuffices | ondc/src/main/java/com/example/ondc/service/OrderService.java:126-132 | with non-negative quantities, acceptance reserves successfully exactly when every product has enough available at the outlet, and a success keeps the ledger invariant |
| Orders.PartialSucceedsIffStockSuffices | ondc/src/main/java/com/example/ondc/service/OrderService.java:172-182 | the same for the served lines of a partial fulfilment |
| Orders.NoSecondTransition | ondc/src/main/java/com/example/ondc/service/OrderService.java:119-186 | after an accept, a reject or a partial fulfilment, the PENDING check fails with InvalidOperation, so no second transition is possible |
| Orders.RejectionCommitsNothing | ondc/src/main/java/com/example/ondc/service/OrderService.java:151-152 | a rejected PENDING order still commits nothing and its lines cost 0 |
| Orders.PartialFulfilScenario | ondc/src/main/java/com/example/ondc/service/OrderService.java:172-192 | for lines 5 × 10.00 and 3 × 20.00 (total 110.00), fulfilling 2 of the first product commits 2 and 0, reserves only that line, and recomputes the total to 20.00 |
| Orders.OrderService.FindOrderById | ondc/src/main/java/com/example/ondc/service/OrderService.java:200-203 | NotFound exactly for an unknown id; otherwise the order with that id |
| Orders.OrderService.CreateOrder | ondc/src/main/java/com/example/ondc/service/OrderService.java:62-111 | NotFound, with nothing changed, exactly when the vendor, the resolved outlet, the seller app or a product is missing. Otherwise it appends a PENDING, FULL order: priority defaults to MEDIUM, each line snapshots its price with nothing fulfilled, and the total is Σ price × requested. It does not touch the ledger, the outlets or the vendors |
| Orders.OrderService.ReserveAll | ondc/src/main/java/com/example/ondc/service/OrderService.java:126-132 | the ledger ends as `ReserveLines` says: every line reserved in order, or the first error with the ledger unchanged |
| Orders.RequestedLines | ondc/src/main/java/com/example/ondc/service/OrderService.java:126-129 | one reservation per line, in line order, each for that line's product and requested quantity |
| Orders.OrderService.PendingWithOutlet | ondc/src/main/java/com/example/ondc/service/OrderService.java:118-123 | NotFound for an unknown order, then InvalidOperation when it is not PENDING, then InvalidOperation when it has no outlet; otherwise the stored order |
| Orders.OrderService.Commit | ondc/src/main/java/com/example/ondc/service/OrderService.java:126-140 | a failed reservation returns its error with the orders, ledger, outlets and vendors unchanged; otherwise the settled order is stored, the ledger is as `ReserveLines` leaves it, the outlet counts one more order and the vendor one more success |
| Orders.OrderService.AcceptOrder | ondc/src/main/java/com/example/ondc/service/OrderService.java:116-141 | NotFound for an unknown order; InvalidOperation when the order is not PENDING, then when it has no outlet; a reservation error with nothing changed. On success the order is `AcceptedOrder`, the ledger holds every requested quantity, the outlet load grows by 1 and the vendor records one success |
| Orders.OrderService.RejectOrder | ondc/src/main/java/com/example/ondc/service/OrderService.java:146-156 | NotFound or InvalidOperation, with nothing changed, exactly for an unknown or non-PENDING order. Otherwise it stores REJECTED with the reason and the vendor records one failure; the ledger and outlets are outside its frame |
| Orders.OrderService.PartialFulfill | ondc/src/main/java/com/example/ondc/service/OrderService.java:161-198 | the same error cases as acceptance. On success the order is `PartiallyFulfilledOrder`, the ledger holds exactly the clamped served quantities, the outlet load grows by 1 and the vendor records one success |
| Cart.SumOverRemove | app/src/main/java/com/example/ondc_buyer/utils/CartManager.java:106-108 | the sum of price × quantity does not depend on the order in which the entries are visited |
| Cart.CartTotalPut | app/src/main/java/com/example/ondc_buyer/utils/CartManager.java:104-110 | storing a quantity changes the cart total by exactly the new subtotal minus the old one |
| Cart.CartTotalRemove | app/src/main/java/com/example/ondc_buyer/utils/CartManager.java:104-110 | removing a product takes exactly its subtotal off the total |
| Cart.SumOverNonNegative | app/src/main/java/com/example/ondc_buyer/utils/CartManager.java:104-110 | with non-negative prices and quantities the total is never negative |
| Cart.CartManager.constructor | app/src/main/java/com/example/ondc_buyer/utils/CartManager.java:16-22 | a new cart is empty and locked to no vendor |
| Cart.CartManager.AddItem | app/src/main/java/com/example/ondc_buyer/utils/CartManager.java:31-43 | refused with nothing changed exactly when the cart is locked to another vendor. Otherwise it locks to this vendor and stores old quantity + quantity whatever the sign; it keeps the lock invariant, and keeps quantities positive for a positive quantity |
| Cart.CartManager.RemoveItem | app/src/main/java/com/example/ondc_buyer/utils/CartManager.java:45-52 | removing an absent product changes nothing; otherwise it drops exactly that product, and emptying the cart clears the vendor lock |
| Cart.CartManager.SetQuantity | app/src/main/java/com/example/ondc_buyer/utils/CartManager.java:60-76 | refused with nothing changed exactly when the cart is locked to another vendor. Otherwise it locks an unlocked cart; a quantity of 0 or less removes the product and a positive one is stored exactly. Only positive quantities are ever stored |
| Cart.CartManager.UpdateQuantity | app/src/main/java/com/example/ondc_buyer/utils/CartManager.java:78-84 | like `setQuantity`, but it never looks at or sets the vendor lock; only positive quantities are stored |
| Cart.CartManager.ClearCart | app/src/main/java/com/example/ondc_buyer/utils/CartManager.java:86-90 | empty, and locked to no vendor |
| Cart.CartManager.GetTotalPrice | app/src/main/java/com/example/ondc_buyer/utils/CartManager.java:104-110 | the loop's sum is the cart total Σ price × quantity |
| Cart.CartManager.GetOrderItemsForApi | app/src/main/java/com/example/ondc_buyer/utils/CartManager.java:112-118 | one request line per cart product, no product twice, each with the product's id and its cart quantity |
| StockHealth.JavaDiv | app/src/main/java/com/example/ondc/model/InventoryItem.java:51 | division rounding toward zero: the multiple of the divisor lies between 0 and the dividend, less than one divisor away from it |
| StockHealth.JavaDivTruncates | app/src/main/java/com/example/ondc/model/InventoryItem.java:59 | -7 / 2 is -3 in Java but -4 in Dafny; -3 / 2 is -1 |
| StockHealth.StockPercentage | app/src/main/java/com/example/ondc/model/InventoryItem.java:48-52 | never above 100; 0 without a non-zero total, and 0 without an available count. For a positive total and 0 <= available it is 100 at or above the total, and below the total it is the percentage rounded down |
| StockHealth.StockPercentageCanBeNegative | app/src/main/java/com/example/ondc/model/InventoryItem.java:50-51 | an over-reserved record (available -3 of 10) shows -30% |
| StockHealth.StockHealthLevel | app/src/main/java/com/example/ondc/model/InventoryItem.java:57-62 | the level is 0, 1 or 2, and 2 when a count is missing; 0 exactly when available <= reorder/2 truncated; for a non-negative reorder level, at most 1 exactly when available <= reorder |
| StockHealth.HealthAgreesWithLowStock | app/src/main/java/com/example/ondc/model/InventoryItem.java:59-61 | for a non-negative reorder level, the app's "critical or low" is exactly the server's `isLowStock` |
| StockHealth.NegativeReorderShowsCritical | app/src/main/java/com/example/ondc/model/InventoryItem.java:59 | with reorder level -3, a record the server does not call low shows as critical |
| StockHealth.StockHealthMonotone | app/src/main/java/com/example/ondc/model/InventoryItem.java:59-61 | more available stock never makes the level worse |

## Where the code departs from its stated rules

- **Negative quantities.** `OrderRequest.items` is declared without `@Valid`
  (ondc/src/main/java/com/example/ondc/dto/OrderRequest.java:30-31). The
  `@Positive requestedQty` rule on each line is therefore never enforced.
  - `reserveStock` does not check the sign either.
  - So the model accepts any quantity. `Ledger.NegativeQuantityBreaksConsistency`
    shows the effect: a negative quantity drives a reservation below zero.
  - The properties that need non-negative quantities say so in their
    `requires`.
- **Upsert below the reservation.** `createOrUpdateInventory` overwrites the
  total without comparing it with the reservation. `Ledger.UpsertCanOversell`
  shows that this leaves negative available stock.
- **Explicit outlet id.** `createOrder` does not check that an explicit
  outlet belongs to the order's vendor, nor that it is active. The model
  keeps both gaps.
- **`updateQuantity` bypasses the lock.** It neither checks nor sets the
  vendor lock, so it can fill a cart that belongs to no vendor. Accordingly,
  `Cart.CartManager.UpdateQuantity` promises that quantities stay positive,
  but not that the lock invariant holds.
- **Negative reorder level.** The app's truncating `reorderLevel / 2` then
  disagrees with the server's low-stock flag
  (`StockHealth.NegativeReorderShowsCritical`).
- **Unvalidated capacity.** `OutletRequest.maxCapacity` carries no
  constraint (ondc/src/main/java/com/example/ondc/dto/OutletRequest.java:28).
  So an outlet can have capacity 0 or less. Its load ratio is then NaN,
  infinite, or negative, and it sorts as `Double.compare` orders those
  values (`Outlets.DegenerateCapacityExamples`).
- **Negative percentage.** An over-reserved record shows a negative
  percentage (`StockHealth.StockPercentageCanBeNegative`).

## Left out

- Concurrency and transaction isolation. Calls run one after another. A
  failed `@Transactional` call is modelled as leaving the state it was given
  unchanged.
- Floating point.
  - Prices and totals are integer paise.
  - The load ratio is compared exactly, as a fraction, in the order
    `Double.compare` gives. Two different fractions that round to the same
    `double` are not modelled as ties.
  - The rating is computed in exact rational arithmetic, as an integer
    number of tenths.
  - The rounding errors of `Double` are not modelled.
- 32-bit overflow of Java `int`. Counts are unbounded integers.
- Timestamps. `LocalDateTime.now()` becomes an integer parameter `now`.
- `@PreUpdate` hooks and `updatedAt` are not modelled.
- Persistence. The repositories are modelled as their query semantics: a map
  keyed by (product, outlet) for inventory, and a sequence indexed by id for
  outlets, vendors and orders.
  - `InventoryRepository` results have no ORDER BY, so they are sets of
    records.
  - `findByOutletId` and `findByProductId` are not modelled.
  - `findByOndcOrderId`, `findByOutletId` and `findBySellerAppId` of the
    order repository are not modelled.
- Products and seller apps. `ProductService` and `SellerAppService` are not
  part of this model. They become parameters: the set of existing product
  ids, a map from product id to price, and the set of seller-app ids.
- Orders.OrderService.CreateOrder does not model these request-level rules:
  - the unique `ondcOrderId` column, which would reject a duplicate at save;
  - the bean-validation rules `@NotBlank` and `@NotEmpty` on the request.
- Orders.OrderService.AcceptOrder and Orders.OrderService.PartialFulfill set
  the lines' fulfilled quantities after the reservation loop, not inside it.
  The source writes the lines back only when the whole call succeeds, so the
  two are equivalent.
- Outlets.FindOptimalOutlet compares load ratios exactly. Where two ratios
  differ but round to the same `double`, the source sees a tie and keeps
  storage order, while the model picks the smaller.
- StockHealth.StockPercentage characterises the value only for a positive
  total and a non-negative available count. Other inputs get only the cap at
  100, although the body follows the source exactly.
- Display data is not modelled:
  - customer name, phone and address on orders;
  - outlet type, latitude and longitude;
  - vendor email, phone, business name and address.
- Response DTO mapping (`toResponse`) is not modelled.
- The read-only listings that only wrap queries are not modelled
  (`getInventoryByOutlet`, `getLowStockAlerts` and similar).
- The vendor create and update endpoints are not modelled.
- The buyer `Product` class is not part of this model. Its map key is object
  identity, modelled as a value `Product(id, price)`.
- The `getInstance` singleton and the getters of `CartManager` are not
  modelled. `getQuantity` is the function `Cart.QuantityOf`.
- A `null` fulfilment map in `partialFulfill` is not modelled. The map is
  always present; a missing entry reads as "not served".
