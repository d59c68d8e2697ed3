/**
 * Vendor statistics: order counters and the star rating derived from them.
 * The rating is a `Double` with one decimal in the source; here it is an
 * integer number of tenths of a star (0..50), computed with exact rational
 * half-up rounding instead of floating point.
 */
module Vendors {
  import opened Common

  datatype Vendor = Vendor(
    id: VendorId,
    name: string,
    rating: int,            // tenths of a star
    totalOrders: int,
    successfulOrders: int,
    cancelledOrders: int,
    isActive: bool)

  /** A vendor as the builder makes it: rating 0.0 and all counters 0. */
  function NewVendor(id: VendorId, name: string): (v: Vendor)
    ensures CountersConsistent(v) && v.totalOrders == 0 && v.rating == 0
  {
    Vendor(id, name, 0, 0, 0, 0, true)
  }

  /**
   * Every order is counted once, as a success or as a failure, and the rating
   * lies between 0.0 and 5.0.
   */
  predicate CountersConsistent(v: Vendor)
  {
    && 0 <= v.successfulOrders
    && 0 <= v.cancelledOrders
    && v.successfulOrders + v.cancelledOrders == v.totalOrders
    && 0 <= v.rating <= 50
  }

  /**
   * `Math.round(successful / total * 50) / 10.0`, in tenths: the integer r with
   * r <= 50 * successful / total + 1/2 < r + 1 (Math.round is floor(x + 1/2)).
   */
  function RatingTenths(successful: int, total: int): (r: int)
    requires total > 0
    ensures 2 * total * r <= 100 * successful + total < 2 * total * (r + 1)
    ensures 0 <= successful <= total ==> 0 <= r <= 50
    ensures successful == total ==> r == 50
    ensures successful == 0 ==> r == 0
  {
    var n, d := 100 * successful + total, 2 * total;
    var r := n / d;
    assert d * r <= n < d * (r + 1) by {
      assert n == d * r + n % d;
    }
    RatingBounds(successful, total, r);
    r
  }

  /** Consequences of the rounding characterisation, for a success count within range. */
  lemma RatingBounds(successful: int, total: int, r: int)
    requires total > 0
    requires 2 * total * r <= 100 * successful + total < 2 * total * (r + 1)
    ensures 0 <= successful <= total ==> 0 <= r <= 50
    ensures successful == total ==> r == 50
    ensures successful == 0 ==> r == 0
  {
    var k := 2 * total;
    if 0 <= successful <= total {
      assert r * k < 51 * k;
      CancelRight(r, 51, k);
      assert 0 * k < (r + 1) * k;
      CancelRight(0, r + 1, k);
    }
    if successful == total {
      assert 50 * k < (r + 1) * k;
      CancelRight(50, r + 1, k);
    }
    if successful == 0 {
      assert r * k < 1 * k;
      CancelRight(r, 1, k);
    }
  }

  /** `updateVendorStats` on one vendor record. */
  function RecordOrder(v: Vendor, successful: bool): (r: Vendor)
    ensures r.totalOrders == v.totalOrders + 1
    ensures successful ==> r.successfulOrders == v.successfulOrders + 1 && r.cancelledOrders == v.cancelledOrders
    ensures !successful ==> r.cancelledOrders == v.cancelledOrders + 1 && r.successfulOrders == v.successfulOrders
    ensures r.id == v.id && r.name == v.name && r.isActive == v.isActive
    ensures CountersConsistent(v) ==> CountersConsistent(r)
    ensures r.totalOrders > 0 ==> r.rating == RatingTenths(r.successfulOrders, r.totalOrders)
    ensures r.totalOrders <= 0 ==> r.rating == v.rating
  {
    var total := v.totalOrders + 1;
    var succ := if successful then v.successfulOrders + 1 else v.successfulOrders;
    var canc := if successful then v.cancelledOrders else v.cancelledOrders + 1;
    var rating := if total > 0 then RatingTenths(succ, total) else v.rating;
    v.(totalOrders := total, successfulOrders := succ, cancelledOrders := canc, rating := rating)
  }

  /** Replays a sequence of order outcomes (true = success) against a vendor. */
  function RecordAll(v: Vendor, outcomes: seq<bool>): Vendor
    decreases |outcomes|
  {
    if outcomes == [] then v else RecordAll(RecordOrder(v, outcomes[0]), outcomes[1..])
  }

  function CountTrue(outcomes: seq<bool>): nat
  {
    if outcomes == [] then 0 else (if outcomes[0] then 1 else 0) + CountTrue(outcomes[1..])
  }

  /**
   * From any consistent vendor, after a run of outcomes the counters have grown
   * by exactly the number of outcomes, split into successes and failures.
   */
  lemma {:induction false} RecordAllCounts(v: Vendor, outcomes: seq<bool>)
    requires CountersConsistent(v)
    decreases |outcomes|
    ensures var r := RecordAll(v, outcomes);
      && CountersConsistent(r)
      && r.totalOrders == v.totalOrders + |outcomes|
      && r.successfulOrders == v.successfulOrders + CountTrue(outcomes)
      && r.cancelledOrders == v.cancelledOrders + |outcomes| - CountTrue(outcomes)
  {
    if outcomes != [] {
      RecordAllCounts(RecordOrder(v, outcomes[0]), outcomes[1..]);
    }
  }

  /** A fresh vendor whose orders all succeeded is rated 5.0; one with no success 0.0. */
  lemma {:induction false} AllOrNothingRating(id: VendorId, name: string, outcomes: seq<bool>)
    requires outcomes != []
    ensures CountTrue(outcomes) == |outcomes| ==> RecordAll(NewVendor(id, name), outcomes).rating == 50
    ensures CountTrue(outcomes) == 0 ==> RecordAll(NewVendor(id, name), outcomes).rating == 0
  {
    var v0 := NewVendor(id, name);
    var init := outcomes[..|outcomes| - 1];
    var last := outcomes[|outcomes| - 1];
    RecordAllSplit(v0, init, last);
    assert outcomes == init + [last];
    RecordAllCounts(v0, init);
    CountTrueSplit(init, last);
  }

  lemma {:induction false} RecordAllSplit(v: Vendor, init: seq<bool>, last: bool)
    ensures RecordAll(v, init + [last]) == RecordOrder(RecordAll(v, init), last)
    decreases |init|
  {
    if init != [] {
      assert (init + [last])[1..] == init[1..] + [last];
      RecordAllSplit(RecordOrder(v, init[0]), init[1..], last);
    }
  }

  lemma {:induction false} CountTrueSplit(init: seq<bool>, last: bool)
    ensures CountTrue(init + [last]) == CountTrue(init) + (if last then 1 else 0)
    ensures CountTrue(init) <= |init|
  {
    if init != [] {
      assert (init + [last])[1..] == init[1..] + [last];
      CountTrueSplit(init[1..], last);
    }
  }

  /** More successes out of the same number of orders never lower the rating. */
  lemma RatingMonotone(s1: int, s2: int, total: int)
    requires total > 0 && s1 <= s2
    ensures RatingTenths(s1, total) <= RatingTenths(s2, total)
  {
  }

  /** The vendor table, with ids equal to positions, and the stats service over it. */
  class VendorService {
    var vendors: seq<Vendor>

    ghost predicate Valid()
      reads this
    {
      forall i :: 0 <= i < |vendors| ==> vendors[i].id == i && CountersConsistent(vendors[i])
    }

    constructor (initial: seq<Vendor>)
      requires forall i :: 0 <= i < |initial| ==> initial[i].id == i && CountersConsistent(initial[i])
      ensures Valid() && vendors == initial
    {
      vendors := initial;
    }

    /** `findVendorById`. */
    function FindVendorById(id: VendorId): (r: Result<Vendor>)
      reads this
      requires Valid()
      ensures r.Err? <==> id >= |vendors|
      ensures r.Err? ==> r.error == NotFound
      ensures r.Ok? ==> r.value.id == id && r.value in vendors
    {
      if id < |vendors| then Ok(vendors[id]) else Err(NotFound)
    }

    /** `updateVendorStats`: count one order as a success or a failure and re-rate. */
    method UpdateVendorStats(id: VendorId, successful: bool) returns (out: Outcome)
      requires Valid()
      modifies this
      ensures Valid()
      ensures out.Fail? <==> id >= |old(vendors)|
      ensures out.Fail? ==> out.error == NotFound && vendors == old(vendors)
      ensures out.Pass? ==> vendors == old(vendors)[id := RecordOrder(old(vendors)[id], successful)]
    {
      if id >= |vendors| {
        return Fail(NotFound);
      }
      vendors := vendors[id := RecordOrder(vendors[id], successful)];
      out := Pass;
    }
  }
}
