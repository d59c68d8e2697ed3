/**
 * The stock-ledger record: one per (product, outlet) pair, holding the total
 * stock on hand, the part of it held by accepted orders, and the reorder
 * threshold below which the pair is reported as low on stock.
 */
module InventoryEntity {
  import opened Common

  /** Builder default of `reorderLevel`. */
  const DefaultReorderLevel: int := 10

  /**
   * `vendor` is the vendor that owns the record's outlet (`outlet.vendor.id`),
   * copied here so that the vendor-scoped queries can be written over records.
   * `lastSyncedAt` is a timestamp, modelled as an integer.
   */
  datatype Inventory = Inventory(
    product: ProductId,
    outlet: OutletId,
    vendor: VendorId,
    totalStock: int,
    reservedStock: int,
    reorderLevel: int,
    lastSyncedAt: int)

  /** The unique key of a record. */
  function Key(inv: Inventory): (ProductId, OutletId)
  {
    (inv.product, inv.outlet)
  }

  /** The ledger invariant: reservations are never negative and never exceed the stock on hand. */
  predicate Consistent(inv: Inventory)
  {
    0 <= inv.reservedStock <= inv.totalStock
  }

  /** Stock that can still be reserved; not clamped, so negative when over-reserved. */
  function AvailableStock(inv: Inventory): (a: int)
    ensures a < 0 <==> inv.reservedStock > inv.totalStock
    ensures a == inv.totalStock <==> inv.reservedStock == 0
    ensures Consistent(inv) ==> 0 <= a <= inv.totalStock
  {
    inv.totalStock - inv.reservedStock
  }

  /** Low stock: what is available has fallen to the reorder level or below (inclusive). */
  predicate IsLowStock(inv: Inventory)
  {
    AvailableStock(inv) <= inv.reorderLevel
  }

  /** A record as the builder makes it: no stock, nothing reserved, reorder level 10. */
  function NewInventory(product: ProductId, outlet: OutletId, vendor: VendorId, now: int): (inv: Inventory)
    ensures Key(inv) == (product, outlet) && inv.vendor == vendor
    ensures inv.totalStock == 0 && inv.reservedStock == 0 && inv.reorderLevel == DefaultReorderLevel
    ensures Consistent(inv) && AvailableStock(inv) == 0 && IsLowStock(inv)
  {
    Inventory(product, outlet, vendor, 0, 0, DefaultReorderLevel, now)
  }

  /**
   * Low stock is monotone: with the same reorder level, a record with no more
   * stock available than a low-stock record is itself low on stock.
   */
  lemma LowStockMonotone(a: Inventory, b: Inventory)
    requires a.reorderLevel == b.reorderLevel
    requires AvailableStock(a) <= AvailableStock(b)
    ensures IsLowStock(b) ==> IsLowStock(a)
    ensures !IsLowStock(a) ==> !IsLowStock(b)
  {
  }

  /** The seeded records and the inclusive boundary of the low-stock rule. */
  lemma SeedLowStockExamples()
    ensures IsLowStock(Inventory(2, 2, 1, 8, 0, 10, 0))
    ensures IsLowStock(Inventory(7, 3, 2, 3, 0, 5, 0))
    ensures !IsLowStock(Inventory(1, 1, 1, 200, 0, 30, 0))
    ensures IsLowStock(Inventory(1, 1, 1, 13, 3, 10, 0))
    ensures !IsLowStock(Inventory(1, 1, 1, 14, 3, 10, 0))
  {
  }
}
