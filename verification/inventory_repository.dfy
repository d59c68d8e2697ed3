/**
 * The inventory table and its queries. The table carries a unique constraint
 * on (product, outlet), so it is modelled as a map from that key to the one
 * record stored under it. The query methods have no ORDER BY, so their
 * results are modelled as sets of records.
 */
module InventoryRepository {
  import opened Common
  import opened InventoryEntity

  type Table = map<(ProductId, OutletId), Inventory>

  /** Every record is stored under its own (product, outlet) key. */
  predicate WellKeyed(t: Table)
  {
    forall k :: k in t ==> Key(t[k]) == k
  }

  /** Every record of the table satisfies the ledger invariant. */
  predicate AllConsistent(t: Table)
  {
    forall k :: k in t ==> Consistent(t[k])
  }

  /**
   * `findByProductIdAndOutletId`: at most one record comes back, and under
   * the unique constraint it is the record carrying that key, if any does.
   */
  function FindByProductIdAndOutletId(t: Table, product: ProductId, outlet: OutletId): (r: Option<Inventory>)
    ensures r.Some? ==> r.value in t.Values
    ensures WellKeyed(t) && r.Some? ==> Key(r.value) == (product, outlet)
    ensures WellKeyed(t) ==> (r.None? <==> forall x :: x in t.Values ==> Key(x) != (product, outlet))
    ensures WellKeyed(t) ==> forall x :: x in t.Values && Key(x) == (product, outlet) ==> r == Some(x)
  {
    if (product, outlet) in t then Some(t[(product, outlet)]) else None
  }

  /** `save(inventory)`: stores the record under its key, replacing any record already there. */
  function Save(t: Table, inv: Inventory): (r: Table)
    ensures WellKeyed(t) ==> WellKeyed(r)
    ensures FindByProductIdAndOutletId(r, inv.product, inv.outlet) == Some(inv)
    ensures forall p: ProductId, o: OutletId :: (p, o) != Key(inv) ==>
              FindByProductIdAndOutletId(r, p, o) == FindByProductIdAndOutletId(t, p, o)
    ensures r.Keys == t.Keys + {Key(inv)}
  {
    t[Key(inv) := inv]
  }

  /** `findLowStockInventory`: the query's own condition `(total - reserved) <= reorderLevel`. */
  function FindLowStockInventory(t: Table): (r: set<Inventory>)
    ensures forall x :: x in r <==> x in t.Values && IsLowStock(x)
  {
    set k | k in t && t[k].totalStock - t[k].reservedStock <= t[k].reorderLevel :: t[k]
  }

  /** `findByOutletVendorId`: the records at outlets owned by the vendor. */
  function FindByOutletVendorId(t: Table, vendor: VendorId): (r: set<Inventory>)
    ensures forall x :: x in r <==> x in t.Values && x.vendor == vendor
  {
    set k | k in t && t[k].vendor == vendor :: t[k]
  }

  /** `findLowStockByVendorId`: both conditions of the query at once. */
  function FindLowStockByVendorId(t: Table, vendor: VendorId): (r: set<Inventory>)
    ensures forall x :: x in r <==> x in t.Values && x.vendor == vendor && IsLowStock(x)
  {
    set k | k in t && t[k].vendor == vendor && t[k].totalStock - t[k].reservedStock <= t[k].reorderLevel :: t[k]
  }

  /**
   * The vendor's low-stock list is exactly the intersection of the global
   * low-stock list with the vendor's records; in particular it is a subset of
   * the vendor's records.
   */
  lemma LowStockByVendorIsFilterOfVendorRecords(t: Table, vendor: VendorId)
    ensures FindLowStockByVendorId(t, vendor) == FindLowStockInventory(t) * FindByOutletVendorId(t, vendor)
    ensures FindLowStockByVendorId(t, vendor) <= FindByOutletVendorId(t, vendor)
  {
  }
}
