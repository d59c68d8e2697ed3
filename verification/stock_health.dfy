/**
 * The vendor app's stock-health helpers on an inventory row as the server
 * sends it. The row's counts are nullable integers, here `Option<int>`.
 * Java's `/` on `int` truncates toward zero, unlike Dafny's, so it is
 * written out as `JavaDiv`.
 */
module StockHealth {
  import opened Common
  import opened InventoryEntity

  function Abs(x: int): nat
  {
    if x < 0 then -x else x
  }

  /** Dafny's division by a positive divisor rounds down. */
  lemma FloorDiv(a: int, b: int)
    requires b > 0
    ensures (a / b) * b <= a < (a / b) * b + b
  {
    assert a == b * (a / b) + a % b;
  }

  /**
   * Java's `a / b` on `int`, which rounds toward zero: the multiple `q * b`
   * lies between 0 and `a`, less than |b| away from `a`.
   */
  function JavaDiv(a: int, b: int): (q: int)
    requires b != 0
    ensures a >= 0 ==> q * b <= a < q * b + Abs(b)
    ensures a < 0 ==> q * b - Abs(b) < a <= q * b
  {
    var m := Abs(a) / Abs(b);
    FloorDiv(Abs(a), Abs(b));
    if (a >= 0) == (b > 0) then
      assert m * b == (if a >= 0 then m * Abs(b) else -(m * Abs(b)));
      m
    else
      assert -m * b == (if a >= 0 then m * Abs(b) else -(m * Abs(b)));
      -m
  }

  /** Where truncation and Dafny's Euclidean division part ways. */
  lemma JavaDivTruncates()
    ensures JavaDiv(-7, 2) == -3 && -7 / 2 == -4
    ensures JavaDiv(-3, 2) == -1
    ensures JavaDiv(7, 2) == 3
  {
  }

  /**
   * `getStockPercentage`: 0 without a (non-zero) total; otherwise available
   * (0 when missing) as a whole percentage of the total, capped at 100. For
   * stock between 0 and the total it is the percentage rounded down.
   */
  function StockPercentage(totalStock: Option<int>, availableStock: Option<int>): (p: int)
    ensures p <= 100
    ensures totalStock.None? || totalStock.value == 0 ==> p == 0
    ensures availableStock.None? ==> p == 0
    ensures totalStock.Some? && totalStock.value > 0 && availableStock.Some? && availableStock.value >= 0 ==>
      && 0 <= p
      && (availableStock.value >= totalStock.value ==> p == 100)
      && (availableStock.value < totalStock.value ==>
            p * totalStock.value <= availableStock.value * 100 < p * totalStock.value + totalStock.value)
  {
    if totalStock.None? || totalStock.value == 0 then 0
    else
      var available := if availableStock.Some? then availableStock.value else 0;
      var q := JavaDiv(available * 100, totalStock.value);
      if totalStock.value > 0 && available >= 0 then
        PercentBounds(available, totalStock.value, q);
        Min(100, q)
      else
        Min(100, q)
  }

  /** A floor percentage of a non-negative count is non-negative, and below 100 exactly when the count is below the total. */
  lemma PercentBounds(available: int, total: int, q: int)
    requires total > 0 && available >= 0
    requires q * total <= available * 100 < q * total + total
    ensures q >= 0
    ensures available >= total ==> q >= 100
    ensures available < total ==> q < 100
  {
    assert (q + 1) * total == q * total + total;
    assert 0 * total < (q + 1) * total;
    CancelRight(0, q + 1, total);
    if available >= total {
      assert 100 * total < (q + 1) * total;
      CancelRight(100, q + 1, total);
    } else {
      assert q * total < 100 * total;
      CancelRight(q, 100, total);
    }
  }

  /** A row whose reservations exceed its total has a negative available count and shows a negative percentage. */
  lemma StockPercentageCanBeNegative()
    ensures StockPercentage(Some(10), Some(-3)) == -30
    ensures StockPercentage(Some(10), Some(-1)) == -10
  {
  }

  /**
   * `getStockHealthLevel`: 2 (healthy) when either count is missing;
   * otherwise 0 (critical) at or below half the reorder level, truncated,
   * 1 (low) at or below the reorder level, and 2 above it.
   */
  function StockHealthLevel(availableStock: Option<int>, reorderLevel: Option<int>): (level: int)
    ensures 0 <= level <= 2
    ensures availableStock.None? || reorderLevel.None? ==> level == 2
    ensures availableStock.Some? && reorderLevel.Some? ==>
      (level == 0 <==> availableStock.value <= JavaDiv(reorderLevel.value, 2))
    ensures availableStock.Some? && reorderLevel.Some? && reorderLevel.value >= 0 ==>
      (level <= 1 <==> availableStock.value <= reorderLevel.value)
  {
    if availableStock.None? || reorderLevel.None? then 2
    else if availableStock.value <= JavaDiv(reorderLevel.value, 2) then 0
    else if availableStock.value <= reorderLevel.value then 1
    else 2
  }

  /**
   * For a non-negative reorder level the app's "critical or low" agrees with
   * the server's low-stock flag on the same record.
   */
  lemma HealthAgreesWithLowStock(inv: Inventory)
    requires inv.reorderLevel >= 0
    ensures StockHealthLevel(Some(AvailableStock(inv)), Some(inv.reorderLevel)) <= 1 <==> IsLowStock(inv)
  {
  }

  /**
   * With a negative reorder level truncation puts half the level above the
   * level itself, so a record the server does not call low shows as critical.
   */
  lemma NegativeReorderShowsCritical()
    ensures var inv := Inventory(1, 1, 1, 8, 10, -3, 0);
      !IsLowStock(inv) && StockHealthLevel(Some(AvailableStock(inv)), Some(inv.reorderLevel)) == 0
  {
  }

  /** More available stock never makes the health level worse. */
  lemma StockHealthMonotone(a1: int, a2: int, reorder: int)
    requires a1 <= a2
    ensures StockHealthLevel(Some(a1), Some(reorder)) <= StockHealthLevel(Some(a2), Some(reorder))
  {
  }
}
