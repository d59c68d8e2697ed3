/**
 * The stock ledger service: reserve, release, deduct, upsert and sync over the
 * inventory table. Each mutation is first stated on one record (Reserve,
 * Release, Deduct, Upsert), then lifted to the table by key lookup and `save`.
 */
module Ledger {
  import opened Common
  import opened InventoryEntity
  import opened InventoryRepository
  import opened Outlets

  /**
   * `reserveStock` on the record found: refused when less is available than
   * asked for; otherwise only `reservedStock` grows by the quantity. The sign
   * of the quantity is never checked.
   */
  function Reserve(inv: Inventory, quantity: int): (r: Result<Inventory>)
    ensures r.Err? <==> AvailableStock(inv) < quantity
    ensures r.Err? ==> r.error == InsufficientStock
    ensures r.Ok? ==> r.value == inv.(reservedStock := inv.reservedStock + quantity)
    ensures r.Ok? ==> AvailableStock(r.value) >= 0
    ensures r.Ok? && quantity >= 0 && Consistent(inv) ==> Consistent(r.value)
  {
    if AvailableStock(inv) < quantity then Err(InsufficientStock)
    else Ok(inv.(reservedStock := inv.reservedStock + quantity))
  }

  /** `releaseReservation` on the record found: lowers the reservation, never below 0, never fails. */
  function Release(inv: Inventory, quantity: int): (r: Inventory)
    ensures r == inv.(reservedStock := r.reservedStock)
    ensures r.reservedStock >= 0
    ensures r.reservedStock == 0 <==> inv.reservedStock <= quantity
    ensures inv.reservedStock > quantity ==> r.reservedStock == inv.reservedStock - quantity
    ensures quantity >= 0 && Consistent(inv) ==> Consistent(r)
  {
    inv.(reservedStock := Max(0, inv.reservedStock - quantity))
  }

  /** Releasing what was just reserved restores the record. */
  lemma ReserveThenRelease(inv: Inventory, quantity: int)
    requires quantity >= 0 && inv.reservedStock >= 0
    requires Reserve(inv, quantity).Ok?
    ensures Release(Reserve(inv, quantity).value, quantity) == inv
  {
  }

  /**
   * `deductStock` on the record found: lowers both total and reserved stock,
   * each floored at 0. Keeps the ledger invariant whatever the quantity.
   */
  function Deduct(inv: Inventory, quantity: int): (r: Inventory)
    ensures r == inv.(totalStock := r.totalStock, reservedStock := r.reservedStock)
    ensures r.totalStock >= 0 && r.reservedStock >= 0
    ensures inv.totalStock >= quantity ==> r.totalStock == inv.totalStock - quantity
    ensures inv.reservedStock >= quantity ==> r.reservedStock == inv.reservedStock - quantity
    ensures Consistent(inv) ==> Consistent(r)
    ensures 0 <= quantity <= inv.reservedStock && Consistent(inv) ==> AvailableStock(r) == AvailableStock(inv)
  {
    inv.(totalStock := Max(0, inv.totalStock - quantity),
         reservedStock := Max(0, inv.reservedStock - quantity))
  }

  /**
   * `createOrUpdateInventory` on the record found (if any): a missing record is
   * built fresh; the total is overwritten without looking at the reservation;
   * the reorder level only when one is given.
   */
  function Upsert(existing: Option<Inventory>, product: ProductId, outlet: OutletId, vendor: VendorId,
                  totalStock: int, reorderLevel: Option<int>, now: int): (r: Inventory)
    requires existing.Some? ==> Key(existing.value) == (product, outlet)
    ensures Key(r) == (product, outlet)
    ensures r.vendor == if existing.Some? then existing.value.vendor else vendor
    ensures r.totalStock == totalStock && r.lastSyncedAt == now
    ensures r.reservedStock == if existing.Some? then existing.value.reservedStock else 0
    ensures r.reorderLevel == if reorderLevel.Some? then reorderLevel.value
                              else if existing.Some? then existing.value.reorderLevel
                              else DefaultReorderLevel
    ensures totalStock >= 0 && (existing.Some? ==> Consistent(existing.value)) ==>
              (Consistent(r) <==> existing.None? || existing.value.reservedStock <= totalStock)
  {
    var inv := if existing.Some? then existing.value else NewInventory(product, outlet, vendor, now);
    var inv := inv.(totalStock := totalStock);
    var inv := if reorderLevel.Some? then inv.(reorderLevel := reorderLevel.value) else inv;
    inv.(lastSyncedAt := now)
  }

  /** Restocking below the current reservation leaves a negative available stock. */
  lemma UpsertCanOversell()
    ensures var held := Inventory(1, 1, 1, 10, 8, 3, 0);
            var r := Upsert(Some(held), 1, 1, 1, 5, None, 1);
            Consistent(held) && !Consistent(r) && AvailableStock(r) == -3
  {
  }

  /** `reserveStock` against the table: NotFound, InsufficientStock, or the record saved back. */
  function ReserveIn(records: Table, product: ProductId, outlet: OutletId, quantity: int): (r: Result<Table>)
    requires WellKeyed(records)
    ensures var found := FindByProductIdAndOutletId(records, product, outlet);
      && (r.Err? <==> found.None? || AvailableStock(found.value) < quantity)
      && (r.Err? ==> r.error == if found.None? then NotFound else InsufficientStock)
      && (r.Ok? ==> FindByProductIdAndOutletId(r.value, product, outlet)
                      == Some(found.value.(reservedStock := found.value.reservedStock + quantity)))
    ensures r.Ok? ==> forall p: ProductId, o: OutletId :: (p, o) != (product, outlet) ==>
              FindByProductIdAndOutletId(r.value, p, o) == FindByProductIdAndOutletId(records, p, o)
    ensures r.Ok? ==> WellKeyed(r.value)
    ensures r.Ok? && quantity >= 0 && AllConsistent(records) ==> AllConsistent(r.value)
  {
    match FindByProductIdAndOutletId(records, product, outlet)
    case None => Err(NotFound)
    case Some(inv) =>
      match Reserve(inv, quantity)
      case Err(e) => Err(e)
      case Ok(updated) => Ok(Save(records, updated))
  }

  /** `hasAvailableStock`: true exactly when reserving that quantity would succeed. */
  function HasAvailableStock(records: Table, product: ProductId, outlet: OutletId, quantity: int): (b: bool)
    requires WellKeyed(records)
    ensures b <==> ReserveIn(records, product, outlet, quantity).Ok?
  {
    var found := FindByProductIdAndOutletId(records, product, outlet);
    found.Some? && AvailableStock(found.value) >= quantity
  }

  /** One reservation of an order: `quantity` of `product` at the order's outlet. */
  datatype Line = Line(product: ProductId, quantity: int)

  /** The reservations of one transactional call, in order; the first failure aborts all. */
  function ReserveLines(records: Table, outlet: OutletId, lines: seq<Line>): (r: Result<Table>)
    requires WellKeyed(records)
    ensures r.Ok? ==> WellKeyed(r.value)
    decreases |lines|
  {
    if lines == [] then Ok(records)
    else
      var last := lines[|lines| - 1];
      match ReserveLines(records, outlet, lines[..|lines| - 1])
      case Err(e) => Err(e)
      case Ok(rs) => ReserveIn(rs, last.product, outlet, last.quantity)
  }

  /** Total quantity the lines ask of one product. */
  function QuantityFor(lines: seq<Line>, product: ProductId): int
    decreases |lines|
  {
    if lines == [] then 0
    else QuantityFor(lines[..|lines| - 1], product)
         + (if lines[|lines| - 1].product == product then lines[|lines| - 1].quantity else 0)
  }

  /** Adds `quantity` to the reservation of a looked-up record, if there is one. */
  function AddReserved(found: Option<Inventory>, quantity: int): Option<Inventory>
  {
    if found.None? then None else Some(found.value.(reservedStock := found.value.reservedStock + quantity))
  }

  /** One more line: the prefix's table, then that line's reservation on it. */
  lemma ReserveLinesStep(records: Table, outlet: OutletId, lines: seq<Line>, i: nat, t: Table)
    requires WellKeyed(records)
    requires i < |lines| && ReserveLines(records, outlet, lines[..i]) == Ok(t)
    ensures WellKeyed(t)
    ensures ReserveLines(records, outlet, lines[..i + 1]) == ReserveIn(t, lines[i].product, outlet, lines[i].quantity)
  {
    assert lines[..i + 1][..i] == lines[..i];
  }

  /** Once a prefix of the lines has failed, the whole call fails with the same error. */
  lemma {:induction false} ReserveLinesPrefixFailure(records: Table, outlet: OutletId, lines: seq<Line>, k: nat)
    requires WellKeyed(records)
    requires k <= |lines|
    requires ReserveLines(records, outlet, lines[..k]).Err?
    ensures ReserveLines(records, outlet, lines) == ReserveLines(records, outlet, lines[..k])
    decreases |lines| - k
  {
    if k < |lines| {
      assert lines[..k + 1][..k] == lines[..k];
      ReserveLinesPrefixFailure(records, outlet, lines, k + 1);
    } else {
      assert lines[..k] == lines;
    }
  }

  /**
   * A successful call adds to the record of `product` at the outlet exactly
   * the quantity the lines ask of that product (a missing record stays missing).
   */
  lemma {:induction false} ReserveLinesAtOutlet(records: Table, outlet: OutletId, lines: seq<Line>, product: ProductId)
    requires WellKeyed(records)
    requires ReserveLines(records, outlet, lines).Ok?
    ensures FindByProductIdAndOutletId(ReserveLines(records, outlet, lines).value, product, outlet)
            == AddReserved(FindByProductIdAndOutletId(records, product, outlet), QuantityFor(lines, product))
    decreases |lines|
  {
    if lines != [] {
      var init := lines[..|lines| - 1];
      var last := lines[|lines| - 1];
      assert ReserveLines(records, outlet, init).Ok?;
      ReserveLinesAtOutlet(records, outlet, init, product);
      var rs := ReserveLines(records, outlet, init).value;
      assert ReserveLines(records, outlet, lines) == ReserveIn(rs, last.product, outlet, last.quantity);
      var step := if last.product == product then last.quantity else 0;
      ReserveInAtOutlet(rs, last.product, outlet, last.quantity, product);
      AddReservedTwice(FindByProductIdAndOutletId(records, product, outlet), QuantityFor(init, product), step);
      assert QuantityFor(lines, product) == QuantityFor(init, product) + step;
    }
  }

  /** One successful reservation, seen from any product's record at that outlet. */
  lemma ReserveInAtOutlet(records: Table, reserved: ProductId, outlet: OutletId, quantity: int, product: ProductId)
    requires WellKeyed(records)
    requires ReserveIn(records, reserved, outlet, quantity).Ok?
    ensures FindByProductIdAndOutletId(ReserveIn(records, reserved, outlet, quantity).value, product, outlet)
            == AddReserved(FindByProductIdAndOutletId(records, product, outlet), if reserved == product then quantity else 0)
  {
    var r := ReserveIn(records, reserved, outlet, quantity).value;
    var found := FindByProductIdAndOutletId(records, product, outlet);
    if product != reserved {
      assert (product, outlet) != (reserved, outlet);
      assert FindByProductIdAndOutletId(r, product, outlet) == found;
    } else {
      assert FindByProductIdAndOutletId(r, product, outlet)
             == Some(found.value.(reservedStock := found.value.reservedStock + quantity));
    }
  }

  lemma AddReservedTwice(found: Option<Inventory>, a: int, b: int)
    ensures AddReserved(AddReserved(found, a), b) == AddReserved(found, a + b)
  {
  }

  /** A successful call leaves every record at another outlet as it was. */
  lemma {:induction false} ReserveLinesOtherOutlet(records: Table, outlet: OutletId, lines: seq<Line>,
                                                   product: ProductId, other: OutletId)
    requires WellKeyed(records)
    requires ReserveLines(records, outlet, lines).Ok?
    requires other != outlet
    ensures FindByProductIdAndOutletId(ReserveLines(records, outlet, lines).value, product, other)
            == FindByProductIdAndOutletId(records, product, other)
    decreases |lines|
  {
    if lines != [] {
      var init := lines[..|lines| - 1];
      var last := lines[|lines| - 1];
      ReserveLinesOtherOutlet(records, outlet, init, product, other);
      assert (product, other) != (last.product, outlet);
    }
  }

  /**
   * An accepted set of reservations never oversells: for every product of the
   * lines, its record at the outlet exists and had at least the lines' total
   * quantity available. This holds whatever the signs of the quantities.
   */
  lemma {:induction false} ReserveLinesNeverOversells(records: Table, outlet: OutletId, lines: seq<Line>)
    requires WellKeyed(records)
    requires ReserveLines(records, outlet, lines).Ok?
    ensures StockSuffices(records, outlet, lines)
    decreases |lines|
  {
    if lines != [] {
      var init := lines[..|lines| - 1];
      var last := lines[|lines| - 1];
      assert ReserveLines(records, outlet, init).Ok?;
      ReserveLinesNeverOversells(records, outlet, init);
      var found := FindByProductIdAndOutletId(records, last.product, outlet);
      assert found.Some? && QuantityFor(lines, last.product) <= AvailableStock(found.value) by {
        ReserveLinesAtOutlet(records, outlet, init, last.product);
        var rs := ReserveLines(records, outlet, init).value;
        assert ReserveLines(records, outlet, lines) == ReserveIn(rs, last.product, outlet, last.quantity);
        assert QuantityFor(lines, last.product) == QuantityFor(init, last.product) + last.quantity;
      }
      StockSufficesExtend(records, outlet, lines);
    }
  }

  /**
   * With non-negative quantities an order that fits is never refused: when
   * every product's record exists and has the lines' total available, all
   * reservations succeed.
   */
  lemma {:induction false} ReserveLinesAcceptsWhatFits(records: Table, outlet: OutletId, lines: seq<Line>)
    requires WellKeyed(records)
    requires forall i :: 0 <= i < |lines| ==> lines[i].quantity >= 0
    requires StockSuffices(records, outlet, lines)
    ensures ReserveLines(records, outlet, lines).Ok?
    decreases |lines|
  {
    if lines != [] {
      var init := lines[..|lines| - 1];
      var last := lines[|lines| - 1];
      forall i | 0 <= i < |init|
        ensures init[i].quantity >= 0
        ensures FindByProductIdAndOutletId(records, init[i].product, outlet).Some?
        ensures QuantityFor(init, init[i].product)
                <= AvailableStock(FindByProductIdAndOutletId(records, init[i].product, outlet).value)
      {
        assert init[i] == lines[i];
        var p := init[i].product;
        assert QuantityFor(lines, p) == QuantityFor(init, p) + if last.product == p then last.quantity else 0;
      }
      ReserveLinesAcceptsWhatFits(records, outlet, init);
      ReserveLinesAtOutlet(records, outlet, init, last.product);
      assert QuantityFor(lines, last.product) == QuantityFor(init, last.product) + last.quantity;
      assert FindByProductIdAndOutletId(records, lines[|lines| - 1].product, outlet).Some?;
    }
  }

  /** Both directions together: with non-negative quantities, success is exactly enough stock. */
  lemma ReserveLinesSucceedsIffStockSuffices(records: Table, outlet: OutletId, lines: seq<Line>)
    requires WellKeyed(records)
    requires forall i :: 0 <= i < |lines| ==> lines[i].quantity >= 0
    ensures ReserveLines(records, outlet, lines).Ok? <==> StockSuffices(records, outlet, lines)
  {
    if ReserveLines(records, outlet, lines).Ok? {
      ReserveLinesNeverOversells(records, outlet, lines);
    }
    if StockSuffices(records, outlet, lines) {
      ReserveLinesAcceptsWhatFits(records, outlet, lines);
    }
  }

  /**
   * Extending the lines by one keeps stock sufficient when the last line's
   * product, with the new total, still fits.
   */
  lemma StockSufficesExtend(records: Table, outlet: OutletId, lines: seq<Line>)
    requires lines != []
    requires StockSuffices(records, outlet, lines[..|lines| - 1])
    requires var found := FindByProductIdAndOutletId(records, lines[|lines| - 1].product, outlet);
             found.Some? && QuantityFor(lines, lines[|lines| - 1].product) <= AvailableStock(found.value)
    ensures StockSuffices(records, outlet, lines)
  {
    var init := lines[..|lines| - 1];
    var last := lines[|lines| - 1];
    forall i | 0 <= i < |lines|
      ensures FindByProductIdAndOutletId(records, lines[i].product, outlet).Some?
      ensures QuantityFor(lines, lines[i].product)
              <= AvailableStock(FindByProductIdAndOutletId(records, lines[i].product, outlet).value)
    {
      var p := lines[i].product;
      if p != last.product {
        assert lines[i] == init[i];
        assert QuantityFor(lines, p) == QuantityFor(init, p);
      }
    }
  }

  /** Every product of the lines has a record at the outlet with enough available for all its lines. */
  predicate StockSuffices(records: Table, outlet: OutletId, lines: seq<Line>)
  {
    forall i :: 0 <= i < |lines| ==>
      && FindByProductIdAndOutletId(records, lines[i].product, outlet).Some?
      && QuantityFor(lines, lines[i].product)
           <= AvailableStock(FindByProductIdAndOutletId(records, lines[i].product, outlet).value)
  }

  /** With non-negative quantities a successful call keeps every record within `0 <= reserved <= total`. */
  lemma {:induction false} ReserveLinesKeepsConsistency(records: Table, outlet: OutletId, lines: seq<Line>)
    requires WellKeyed(records)
    requires AllConsistent(records)
    requires forall i :: 0 <= i < |lines| ==> lines[i].quantity >= 0
    ensures ReserveLines(records, outlet, lines).Ok? ==> AllConsistent(ReserveLines(records, outlet, lines).value)
    decreases |lines|
  {
    if lines != [] {
      var init := lines[..|lines| - 1];
      assert forall i :: 0 <= i < |init| ==> init[i] == lines[i];
      ReserveLinesKeepsConsistency(records, outlet, init);
    }
  }

  /** A negative quantity, which nothing rejects, drives the reservation below zero. */
  lemma NegativeQuantityBreaksConsistency()
    ensures var records := map[(1, 1) := Inventory(1, 1, 1, 5, 0, 10, 0)];
            var r := ReserveLines(records, 1, [Line(1, -3)]);
            AllConsistent(records) && r.Ok? && !AllConsistent(r.value)
            && r.value == map[(1, 1) := Inventory(1, 1, 1, 5, -3, 10, 0)]
  {
    assert [Line(1, -3)][..0] == [];
  }

  /**
   * Reserving 8 of 10 leaves the record low on stock; releasing 5 clears
   * that; a second reservation of 8 is then refused.
   */
  lemma ReserveReleaseScenario()
    ensures var inv := Inventory(1, 1, 1, 10, 0, 3, 0);
      var r1 := Reserve(inv, 8);
      && r1.Ok? && r1.value.reservedStock == 8 && AvailableStock(r1.value) == 2 && IsLowStock(r1.value)
      && var r2 := Release(r1.value, 5);
      && r2.reservedStock == 3 && AvailableStock(r2) == 7 && !IsLowStock(r2)
      && Reserve(r2, 8) == Err(InsufficientStock)
  {
  }

  /**
   * The table part-way through `syncInventory`: the vendor's records not in
   * `pending` are stamped with `now`, every other record is as it was.
   */
  ghost function Stamped(t: Table, vendor: VendorId, now: int, pending: set<Inventory>): (r: Table)
    requires WellKeyed(t)
    ensures WellKeyed(r) && r.Keys == t.Keys
    ensures forall k :: k in r ==> r[k].vendor == t[k].vendor
  {
    map k | k in t :: if t[k].vendor == vendor && t[k] !in pending then t[k].(lastSyncedAt := now) else t[k]
  }

  /** Stamping and saving one pending record advances `Stamped` by that record. */
  lemma StampOne(t: Table, vendor: VendorId, now: int, pending: set<Inventory>, inv: Inventory)
    requires WellKeyed(t)
    requires inv in pending && inv in t.Values && inv.vendor == vendor
    ensures Stamped(t, vendor, now, pending)[Key(inv) := inv.(lastSyncedAt := now)] == Stamped(t, vendor, now, pending - {inv})
  {
    var k0 := Key(inv);
    var before := Stamped(t, vendor, now, pending);
    var lhs := before[k0 := inv.(lastSyncedAt := now)];
    var rhs := Stamped(t, vendor, now, pending - {inv});
    assert lhs.Keys == rhs.Keys;
    forall k | k in lhs
      ensures lhs[k] == rhs[k]
    {
      if k != k0 {
        assert Key(t[k]) != Key(inv);
        assert lhs[k] == before[k];
      } else {
        assert t[k0] == inv;
      }
    }
  }

  /**
   * Every record sits at a stored outlet and carries that outlet's vendor:
   * the vendor queries join through `inventory.outlet.vendor`, and the model
   * keeps the vendor on the record, so the two must agree.
   */
  ghost predicate AtKnownOutlets(t: Table, outlets: seq<Outlet>)
  {
    forall k :: k in t ==> AtKnownOutlet(t[k], outlets)
  }

  /** The record's outlet is stored, and owned by the record's vendor. */
  ghost predicate AtKnownOutlet(inv: Inventory, outlets: seq<Outlet>)
  {
    inv.outlet < |outlets| && inv.vendor == outlets[inv.outlet].vendor
  }

  /** Saving a record that names a stored outlet and its vendor keeps the table at known outlets. */
  lemma SaveAtKnownOutlet(t: Table, outlets: seq<Outlet>, inv: Inventory)
    requires AtKnownOutlets(t, outlets)
    requires inv.outlet < |outlets| && inv.vendor == outlets[inv.outlet].vendor
    ensures AtKnownOutlets(Save(t, inv), outlets)
  {
  }

  /**
   * Rewriting a record found in the table without touching its key or vendor
   * keeps the table at known outlets.
   */
  lemma SaveSameVendor(t: Table, outlets: seq<Outlet>, inv: Inventory, updated: Inventory)
    requires WellKeyed(t) && AtKnownOutlets(t, outlets)
    requires inv in t.Values && Key(updated) == Key(inv) && updated.vendor == inv.vendor
    ensures AtKnownOutlets(Save(t, updated), outlets)
  {
    assert t[Key(inv)] == inv;
    SaveAtKnownOutlet(t, outlets, updated);
  }

  /**
   * Outlet changes that keep every outlet's vendor (a load, a name, a
   * capacity, a new outlet at the end) keep the table at known outlets.
   */
  lemma {:induction false} AtKnownOutletsKeepsVendors(t: Table, outlets: seq<Outlet>, outlets': seq<Outlet>)
    requires AtKnownOutlets(t, outlets)
    requires |outlets| <= |outlets'|
    requires forall i :: 0 <= i < |outlets| ==> outlets'[i].vendor == outlets[i].vendor
    ensures AtKnownOutlets(t, outlets')
  {
    forall k | k in t
      ensures AtKnownOutlet(t[k], outlets')
    {
      assert AtKnownOutlet(t[k], outlets);
    }
  }

  /**
   * `findByOutletVendorId` joins through the outlet: on a table at known
   * outlets, its result is exactly the records whose outlet the vendor owns.
   */
  lemma VendorRecordsAreAtVendorOutlets(t: Table, outlets: seq<Outlet>, vendor: VendorId)
    requires WellKeyed(t) && AtKnownOutlets(t, outlets)
    ensures forall x :: x in FindByOutletVendorId(t, vendor) <==>
      x in t.Values && x.outlet < |outlets| && outlets[x.outlet].vendor == vendor
  {
    forall x | x in t.Values
      ensures AtKnownOutlet(x, outlets)
    {
      var k :| k in t && t[k] == x;
    }
  }

  /** The inventory table and the service that mutates it. */
  class InventoryService {
    var records: Table
    const outletService: OutletService

    /** Records are stored under their keys, at outlets the outlet service holds. */
    ghost predicate Valid()
      reads this, outletService
    {
      WellKeyed(records) && outletService.Valid() && AtKnownOutlets(records, outletService.outlets)
    }

    constructor (outletService: OutletService, initial: Table)
      requires WellKeyed(initial) && outletService.Valid() && AtKnownOutlets(initial, outletService.outlets)
      ensures Valid() && records == initial && this.outletService == outletService
    {
      this.outletService := outletService;
      records := initial;
    }

    /** `reserveStock`, the anti-overselling guard. A failure changes nothing. */
    method ReserveStock(product: ProductId, outlet: OutletId, quantity: int) returns (out: Outcome)
      requires Valid()
      modifies this
      ensures Valid()
      ensures ReserveIn(old(records), product, outlet, quantity) == if out.Pass? then Ok(records) else Err(out.error)
      ensures out.Fail? ==> records == old(records)
    {
      var found := FindByProductIdAndOutletId(records, product, outlet);
      if found.None? {
        return Fail(NotFound);
      }
      var inv := found.value;
      if AvailableStock(inv) < quantity {
        return Fail(InsufficientStock);
      }
      var updated := inv.(reservedStock := inv.reservedStock + quantity);
      assert Reserve(inv, quantity) == Ok(updated);
      SaveSameVendor(records, outletService.outlets, inv, updated);
      records := Save(records, updated);
      out := Pass;
    }

    /** `releaseReservation`. */
    method ReleaseReservation(product: ProductId, outlet: OutletId, quantity: int) returns (out: Outcome)
      requires Valid()
      modifies this
      ensures Valid()
      ensures var found := FindByProductIdAndOutletId(old(records), product, outlet);
        && (out.Fail? <==> found.None?)
        && (out.Fail? ==> out.error == NotFound && records == old(records))
        && (out.Pass? ==> records == Save(old(records), Release(found.value, quantity)))
    {
      var found := FindByProductIdAndOutletId(records, product, outlet);
      if found.None? {
        return Fail(NotFound);
      }
      var inv := found.value;
      var updated := inv.(reservedStock := Max(0, inv.reservedStock - quantity));
      assert updated == Release(inv, quantity);
      SaveSameVendor(records, outletService.outlets, inv, updated);
      records := Save(records, updated);
      out := Pass;
    }

    /** `deductStock`. */
    method DeductStock(product: ProductId, outlet: OutletId, quantity: int) returns (out: Outcome)
      requires Valid()
      modifies this
      ensures Valid()
      ensures var found := FindByProductIdAndOutletId(old(records), product, outlet);
        && (out.Fail? <==> found.None?)
        && (out.Fail? ==> out.error == NotFound && records == old(records))
        && (out.Pass? ==> records == Save(old(records), Deduct(found.value, quantity)))
    {
      var found := FindByProductIdAndOutletId(records, product, outlet);
      if found.None? {
        return Fail(NotFound);
      }
      var inv := found.value;
      var updated := inv.(totalStock := Max(0, inv.totalStock - quantity));
      updated := updated.(reservedStock := Max(0, updated.reservedStock - quantity));
      assert updated == Deduct(inv, quantity);
      SaveSameVendor(records, outletService.outlets, inv, updated);
      records := Save(records, updated);
      out := Pass;
    }

    /**
     * `createOrUpdateInventory`. The product table is not part of this model:
     * `products` is the set of existing product ids. `totalStock >= 0` is the
     * request's validation.
     */
    method CreateOrUpdateInventory(product: ProductId, outlet: OutletId, totalStock: int,
                                   reorderLevel: Option<int>, products: set<ProductId>, now: int)
      returns (r: Result<Inventory>)
      requires Valid()
      requires totalStock >= 0
      modifies this
      ensures Valid()
      ensures r.Err? <==> product !in products || outlet >= |outletService.outlets|
      ensures r.Err? ==> r.error == NotFound && records == old(records)
      ensures r.Ok? ==>
        && r.value == Upsert(FindByProductIdAndOutletId(old(records), product, outlet), product, outlet,
                             outletService.outlets[outlet].vendor, totalStock, reorderLevel, now)
        && records == Save(old(records), r.value)
    {
      if product !in products {
        return Err(NotFound);
      }
      var found := outletService.FindOutletById(outlet);
      if found.Err? {
        return Err(found.error);
      }
      var existing := FindByProductIdAndOutletId(records, product, outlet);
      var inv := if existing.Some? then existing.value
                 else NewInventory(product, outlet, found.value.vendor, now);
      inv := inv.(totalStock := totalStock);
      if reorderLevel.Some? {
        inv := inv.(reorderLevel := reorderLevel.value);
      }
      inv := inv.(lastSyncedAt := now);
      if existing.Some? {
        assert records[(product, outlet)] == existing.value;
      }
      SaveAtKnownOutlet(records, outletService.outlets, inv);
      records := Save(records, inv);
      r := Ok(inv);
    }

    /**
     * `syncInventory`: stamps every record of the vendor's outlets with `now`
     * and returns them; no stock count changes.
     */
    method SyncInventory(vendor: VendorId, now: int) returns (synced: set<Inventory>)
      requires Valid()
      modifies this
      ensures Valid()
      ensures records.Keys == old(records).Keys
      ensures forall k :: k in records ==>
        records[k] == if old(records)[k].vendor == vendor then old(records)[k].(lastSyncedAt := now) else old(records)[k]
      ensures synced == FindByOutletVendorId(records, vendor)
    {
      var pending := FindByOutletVendorId(records, vendor);
      while pending != {}
        invariant forall x :: x in pending ==> x in old(records).Values && x.vendor == vendor
        invariant records == Stamped(old(records), vendor, now, pending)
        decreases pending
      {
        var inv :| inv in pending;
        StampOne(old(records), vendor, now, pending, inv);
        records := Save(records, inv.(lastSyncedAt := now));
        pending := pending - {inv};
      }
      synced := FindByOutletVendorId(records, vendor);
    }
  }
}
