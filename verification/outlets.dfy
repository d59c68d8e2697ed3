/**
 * Outlets and the outlet selector. The selector ranks a vendor's active
 * outlets by (pincode mismatch, currentLoad / maxCapacity) and takes the
 * first; the source's floating-point ratio is compared here exactly by
 * cross-multiplication.
 */
module Outlets {
  import opened Common
  import opened Vendors

  /** Builder default of `maxCapacity`. */
  const DefaultMaxCapacity: int := 100

  datatype Outlet = Outlet(
    id: OutletId,
    name: string,
    address: string,
    pincode: string,
    vendor: VendorId,
    isActive: bool,
    currentLoad: int,
    maxCapacity: int)

  /** The fields of an outlet create/update request that the service reads. */
  datatype OutletRequest = OutletRequest(
    name: string,
    address: string,
    pincode: string,
    vendorId: VendorId,
    maxCapacity: Option<int>)

  /** `findByVendorIdAndIsActiveTrue`: the vendor's active outlets, in storage order. */
  function ActiveOutletsOf(outlets: seq<Outlet>, vendor: VendorId): (r: seq<Outlet>)
    ensures forall o :: o in r <==> o in outlets && o.vendor == vendor && o.isActive
    decreases |outlets|
  {
    if outlets == [] then []
    else
      var last := outlets[|outlets| - 1];
      ActiveOutletsOf(outlets[..|outlets| - 1], vendor) + (if last.vendor == vendor && last.isActive then [last] else [])
  }

  /** Where each outlet of `ActiveOutletsOf` is stored. */
  ghost function ActivePositions(outlets: seq<Outlet>, vendor: VendorId): seq<nat>
    decreases |outlets|
  {
    if outlets == [] then []
    else
      var last := outlets[|outlets| - 1];
      ActivePositions(outlets[..|outlets| - 1], vendor) + (if last.vendor == vendor && last.isActive then [|outlets| - 1] else [])
  }

  /** Each outlet `ActiveOutletsOf` returns is the one stored at the matching position. */
  lemma {:induction false} ActivePositionsTrack(outlets: seq<Outlet>, vendor: VendorId)
    ensures var pos := ActivePositions(outlets, vendor);
      var c := ActiveOutletsOf(outlets, vendor);
      && |pos| == |c|
      && (forall k :: 0 <= k < |pos| ==> pos[k] < |outlets| && outlets[pos[k]] == c[k])
    decreases |outlets|
  {
    if outlets != [] {
      var n := |outlets| - 1;
      var init := outlets[..n];
      ActivePositionsTrack(init, vendor);
      var before := ActivePositions(init, vendor);
      var cb := ActiveOutletsOf(init, vendor);
      var pos := ActivePositions(outlets, vendor);
      var c := ActiveOutletsOf(outlets, vendor);
      forall k | 0 <= k < |before|
        ensures pos[k] < |outlets| && outlets[pos[k]] == c[k]
      {
        assert pos[k] == before[k] && c[k] == cb[k];
        assert outlets[before[k]] == init[before[k]];
      }
    }
  }

  /** The positions strictly increase, so `ActiveOutletsOf` keeps storage order. */
  lemma {:induction false} ActivePositionsIncrease(outlets: seq<Outlet>, vendor: VendorId)
    ensures var pos := ActivePositions(outlets, vendor);
      forall k, l :: 0 <= k < l < |pos| ==> pos[k] < pos[l] < |outlets|
    decreases |outlets|
  {
    if outlets != [] {
      var n := |outlets| - 1;
      ActivePositionsIncrease(outlets[..n], vendor);
      ActivePositionsTrack(outlets[..n], vendor);
      var before := ActivePositions(outlets[..n], vendor);
      var pos := ActivePositions(outlets, vendor);
      assert pos == before + (if outlets[n].vendor == vendor && outlets[n].isActive then [n] else []);
      forall k, l | 0 <= k < l < |pos|
        ensures pos[k] < pos[l] < |outlets|
      {
        if l < |before| {
          assert pos[k] == before[k] && pos[l] == before[l];
        } else {
          assert pos[k] == before[k];
        }
      }
    }
  }

  /** Every active outlet of the vendor has its position listed. */
  lemma {:induction false} ActivePositionsCover(outlets: seq<Outlet>, vendor: VendorId)
    ensures forall j :: 0 <= j < |outlets| && outlets[j].vendor == vendor && outlets[j].isActive ==>
      j in ActivePositions(outlets, vendor)
    decreases |outlets|
  {
    if outlets != [] {
      var n := |outlets| - 1;
      var init := outlets[..n];
      ActivePositionsCover(init, vendor);
      forall j | 0 <= j < n && outlets[j].vendor == vendor && outlets[j].isActive
        ensures j in ActivePositions(outlets, vendor)
      {
        assert init[j] == outlets[j];
      }
    }
  }

  /** First sort key: 0 when the outlet serves the delivery pincode, 1 otherwise. */
  function PincodeMismatch(o: Outlet, pincode: string): int
  {
    if o.pincode == pincode then 0 else 1
  }

  /**
   * The second sort key, `(double) currentLoad / maxCapacity`, as
   * `Double.compare` orders it: a finite value `num / den` (with `den > 0`,
   * and the sign of a zero kept), the infinities a zero capacity gives, and
   * the NaN of 0 / 0. Finite values are compared exactly, by
   * cross-multiplication.
   */
  datatype LoadRatio = NegativeInfinity | Finite(num: int, den: int, negativeZero: bool) | PositiveInfinity | NaN

  function RatioOf(o: Outlet): (q: LoadRatio)
    ensures q.Finite? ==> q.den > 0
    ensures q.Finite? && q.negativeZero ==> q.num == 0
  {
    if o.maxCapacity > 0 then Finite(o.currentLoad, o.maxCapacity, false)
    else if o.maxCapacity < 0 then Finite(-o.currentLoad, -o.maxCapacity, o.currentLoad == 0)
    else if o.currentLoad > 0 then PositiveInfinity
    else if o.currentLoad < 0 then NegativeInfinity
    else NaN
  }

  /** `Double.compare` puts -Infinity first, then the finite values, then +Infinity, then NaN. */
  function Band(q: LoadRatio): nat
  {
    match q
    case NegativeInfinity => 0
    case Finite(_, _, _) => 1
    case PositiveInfinity => 2
    case NaN => 3
  }

  /** `Double.compare(x, y) < 0`; among equal finite values -0.0 sorts before 0.0. */
  predicate RatioBefore(x: LoadRatio, y: LoadRatio)
  {
    Band(x) < Band(y)
    || (x.Finite? && y.Finite?
        && (x.num * y.den < y.num * x.den
            || (x.num * y.den == y.num * x.den && x.negativeZero && !y.negativeZero)))
  }

  /** `a` has the smaller load ratio. */
  predicate LessLoaded(a: Outlet, b: Outlet)
  {
    RatioBefore(RatioOf(a), RatioOf(b))
  }

  /** For positive capacities the ratio comparison is plain cross-multiplication. */
  lemma LessLoadedPositive(a: Outlet, b: Outlet)
    requires a.maxCapacity > 0 && b.maxCapacity > 0
    ensures LessLoaded(a, b) <==> a.currentLoad * b.maxCapacity < b.currentLoad * a.maxCapacity
  {
  }

  lemma MulWeak(x: int, y: int, k: int)
    requires k > 0 && x <= y
    ensures x * k <= y * k
  {
  }

  lemma CancelWeak(x: int, y: int, k: int)
    requires k > 0 && x * k <= y * k
    ensures x <= y
  {
  }

  /** Chaining two cross-multiplied comparisons with positive denominators; strict when either link is. */
  lemma CrossTransitive(an: int, ad: int, bn: int, bd: int, cn: int, cd: int)
    requires ad > 0 && bd > 0 && cd > 0
    requires an * bd <= bn * ad && bn * cd <= cn * bd
    ensures an * cd <= cn * ad
    ensures an * bd < bn * ad || bn * cd < cn * bd ==> an * cd < cn * ad
  {
    MulWeak(an * bd, bn * ad, cd);
    MulWeak(bn * cd, cn * bd, ad);
    assert an * bd * cd == (an * cd) * bd;
    assert bn * ad * cd == bn * cd * ad;
    assert cn * bd * ad == (cn * ad) * bd;
    CancelWeak(an * cd, cn * ad, bd);
    if an * bd < bn * ad || bn * cd < cn * bd {
      if an * bd < bn * ad {
        assert an * bd * cd < bn * ad * cd;
      } else {
        assert bn * cd * ad < cn * bd * ad;
      }
      CancelRight(an * cd, cn * ad, bd);
    }
  }

  /** `Double.compare` is a strict weak order on the ratios outlets produce. */
  lemma RatioBeforeTransitive(x: LoadRatio, y: LoadRatio, z: LoadRatio)
    requires x.Finite? ==> x.den > 0
    requires y.Finite? ==> y.den > 0
    requires z.Finite? ==> z.den > 0
    ensures RatioBefore(x, y) ==> !RatioBefore(y, x)
    ensures RatioBefore(x, y) && !RatioBefore(z, y) ==> RatioBefore(x, z)
  {
    if RatioBefore(x, y) && !RatioBefore(z, y) && x.Finite? && y.Finite? && z.Finite? {
      CrossTransitive(x.num, x.den, y.num, y.den, z.num, z.den);
    }
  }

  /** `a` sorts strictly before `b` under the selector's comparator. */
  predicate RanksBefore(a: Outlet, b: Outlet, pincode: string)
  {
    PincodeMismatch(a, pincode) < PincodeMismatch(b, pincode)
    || (PincodeMismatch(a, pincode) == PincodeMismatch(b, pincode) && LessLoaded(a, b))
  }

  /** The selector's comparator is a strict weak order, whatever the loads and capacities. */
  lemma RanksBeforeTransitive(a: Outlet, b: Outlet, c: Outlet, pincode: string)
    ensures RanksBefore(a, b, pincode) ==> !RanksBefore(b, a, pincode)
    ensures RanksBefore(a, b, pincode) && RanksBefore(b, c, pincode) ==> RanksBefore(a, c, pincode)
    ensures RanksBefore(a, b, pincode) && !RanksBefore(c, b, pincode) ==> RanksBefore(a, c, pincode)
  {
    RatioBeforeTransitive(RatioOf(a), RatioOf(b), RatioOf(c));
    RatioBeforeTransitive(RatioOf(b), RatioOf(c), RatioOf(b));
  }

  /**
   * Position of the outlet a stable sort followed by `findFirst` returns: a
   * later candidate replaces the running best only when strictly better.
   */
  function BestIndex(candidates: seq<Outlet>, pincode: string): (k: nat)
    requires candidates != []
    ensures k < |candidates|
  {
    if |candidates| == 1 then 0
    else
      var k := BestIndex(candidates[..|candidates| - 1], pincode);
      if RanksBefore(candidates[|candidates| - 1], candidates[k], pincode) then |candidates| - 1 else k
  }

  /**
   * The selected outlet is the earliest minimum: no candidate ranks before
   * it, and it ranks strictly before every earlier candidate (ties go to the
   * first in input order).
   */
  lemma {:induction false} BestIndexIsEarliestMinimum(candidates: seq<Outlet>, pincode: string)
    requires candidates != []
    ensures var k := BestIndex(candidates, pincode);
      && (forall j :: 0 <= j < |candidates| ==> !RanksBefore(candidates[j], candidates[k], pincode))
      && (forall j :: 0 <= j < k ==> RanksBefore(candidates[k], candidates[j], pincode))
  {
    if |candidates| > 1 {
      var init := candidates[..|candidates| - 1];
      var last := |candidates| - 1;
      BestIndexIsEarliestMinimum(init, pincode);
      var k := BestIndex(init, pincode);
      assert forall j :: 0 <= j < last ==> candidates[j] == init[j];
      if RanksBefore(candidates[last], candidates[k], pincode) {
        forall j | 0 <= j < last
          ensures !RanksBefore(candidates[j], candidates[last], pincode)
          ensures RanksBefore(candidates[last], candidates[j], pincode)
        {
          RanksBeforeTransitive(candidates[j], candidates[last], candidates[k], pincode);
          RanksBeforeTransitive(candidates[last], candidates[k], candidates[j], pincode);
        }
      } else {
        RanksBeforeTransitive(candidates[last], candidates[k], candidates[last], pincode);
      }
    }
  }

  /** Whatever the loads and capacities, an outlet serving the pincode is preferred to every other one. */
  lemma {:induction false} PincodeMatchPreferred(candidates: seq<Outlet>, pincode: string)
    requires candidates != []
    ensures (exists o :: o in candidates && o.pincode == pincode) ==>
              candidates[BestIndex(candidates, pincode)].pincode == pincode
  {
    if |candidates| > 1 {
      var init := candidates[..|candidates| - 1];
      var last := candidates[|candidates| - 1];
      PincodeMatchPreferred(init, pincode);
      if exists o :: o in candidates && o.pincode == pincode {
        var o :| o in candidates && o.pincode == pincode;
        if o != last {
          assert o in init by {
            var i :| 0 <= i < |candidates| && candidates[i] == o;
            assert i < |candidates| - 1 && init[i] == o;
          }
        }
      }
    }
  }

  /**
   * The selected active outlet, seen in storage order: it ranks strictly
   * before every active outlet of the vendor stored ahead of it.
   */
  lemma SelectedPrecedesEarlierActive(outlets: seq<Outlet>, vendor: VendorId, pincode: string)
    requires ActiveOutletsOf(outlets, vendor) != []
    ensures var c := ActiveOutletsOf(outlets, vendor);
      var best := c[BestIndex(c, pincode)];
      exists i :: 0 <= i < |outlets| && outlets[i] == best
        && forall j :: 0 <= j < i && outlets[j].vendor == vendor && outlets[j].isActive ==> RanksBefore(best, outlets[j], pincode)
  {
    var c := ActiveOutletsOf(outlets, vendor);
    var k := BestIndex(c, pincode);
    var pos := ActivePositions(outlets, vendor);
    ActivePositionsTrack(outlets, vendor);
    ActivePositionsIncrease(outlets, vendor);
    ActivePositionsCover(outlets, vendor);
    BestIndexIsEarliestMinimum(c, pincode);
    var i := pos[k];
    forall j | 0 <= j < i && outlets[j].vendor == vendor && outlets[j].isActive
      ensures RanksBefore(c[k], outlets[j], pincode)
    {
      var m := EarlierPosition(pos, k, j);
      assert c[m] == outlets[j];
    }
    assert outlets[i] == c[k];
  }

  /** In strictly increasing positions, a listed position below the `k`-th is an earlier entry. */
  lemma EarlierPosition(pos: seq<nat>, k: nat, j: nat) returns (m: nat)
    requires k < |pos| && forall a, b :: 0 <= a < b < |pos| ==> pos[a] < pos[b]
    requires j in pos && j < pos[k]
    ensures m < k && pos[m] == j
  {
    m :| 0 <= m < |pos| && pos[m] == j;
  }

  /**
   * `findOptimalOutlet`: NotFound when the vendor has no active outlet;
   * otherwise the active outlet of the vendor that no other ranks before, the
   * earliest stored among equals.
   */
  function FindOptimalOutlet(outlets: seq<Outlet>, vendor: VendorId, pincode: string): (r: Result<Outlet>)
    ensures r.Err? <==> forall o :: o in outlets ==> !(o.vendor == vendor && o.isActive)
    ensures r.Err? ==> r.error == NotFound
    ensures r.Ok? ==> r.value in outlets && r.value.vendor == vendor && r.value.isActive
    ensures r.Ok? ==>
      forall o :: o in outlets && o.vendor == vendor && o.isActive ==> !RanksBefore(o, r.value, pincode)
    ensures r.Ok? ==>
      exists i :: 0 <= i < |outlets| && outlets[i] == r.value
        && forall j :: 0 <= j < i && outlets[j].vendor == vendor && outlets[j].isActive ==> RanksBefore(r.value, outlets[j], pincode)
    ensures r.Ok? && (exists o :: o in outlets && o.vendor == vendor && o.isActive && o.pincode == pincode) ==>
      r.value.pincode == pincode
  {
    var candidates := ActiveOutletsOf(outlets, vendor);
    if candidates == [] then Err(NotFound)
    else
      PincodeMatchPreferred(candidates, pincode);
      BestIndexIsEarliestMinimum(candidates, pincode);
      SelectedPrecedesEarlierActive(outlets, vendor, pincode);
      Ok(candidates[BestIndex(candidates, pincode)])
  }

  /** Two active outlets of the vendor are both candidates, in order. */
  lemma ActiveOfPair(a: Outlet, b: Outlet, vendor: VendorId)
    requires a.vendor == vendor && a.isActive && b.vendor == vendor && b.isActive
    ensures ActiveOutletsOf([a, b], vendor) == [a, b]
  {
    assert [a, b][..1] == [a];
    assert [a][..0] == [];
    assert ActiveOutletsOf([a], vendor) == ActiveOutletsOf([], vendor) + [a];
    assert ActiveOutletsOf([a, b], vendor) == ActiveOutletsOf([a], vendor) + [b];
  }

  /** Pincode match first, then the lower load ratio. */
  lemma SelectorExamples()
    ensures var a := Outlet(0, "A", "", "560034", 1, true, 8, 10);
            var b := Outlet(1, "B", "", "560102", 1, true, 1, 10);
            FindOptimalOutlet([a, b], 1, "560034") == Ok(a)
    ensures var a := Outlet(0, "A", "", "560034", 1, true, 9, 10);
            var b := Outlet(1, "B", "", "560102", 1, true, 1, 10);
            FindOptimalOutlet([a, b], 1, "600040") == Ok(b)
  {
    var a := Outlet(0, "A", "", "560034", 1, true, 8, 10);
    var a' := Outlet(0, "A", "", "560034", 1, true, 9, 10);
    var b := Outlet(1, "B", "", "560102", 1, true, 1, 10);
    ActiveOfPair(a, b, 1);
    ActiveOfPair(a', b, 1);
    assert [a, b][..1] == [a];
    assert [a', b][..1] == [a'];
  }

  /**
   * Capacities of 0 or less, which nothing rejects: an idle outlet with no
   * capacity has ratio NaN and sorts after a half-loaded one, and a negative
   * capacity gives a negative ratio that sorts first.
   */
  lemma DegenerateCapacityExamples()
    ensures var a := Outlet(0, "A", "", "560034", 1, true, 0, 0);
            var b := Outlet(1, "B", "", "560102", 1, true, 5, 10);
            FindOptimalOutlet([a, b], 1, "600040") == Ok(b)
    ensures var a := Outlet(0, "A", "", "560034", 1, true, 5, -10);
            var b := Outlet(1, "B", "", "560102", 1, true, 5, 10);
            FindOptimalOutlet([a, b], 1, "600040") == Ok(a)
  {
    var a := Outlet(0, "A", "", "560034", 1, true, 0, 0);
    var a' := Outlet(0, "A", "", "560034", 1, true, 5, -10);
    var b := Outlet(1, "B", "", "560102", 1, true, 5, 10);
    ActiveOfPair(a, b, 1);
    ActiveOfPair(a', b, 1);
    assert [a, b][..1] == [a];
    assert [a', b][..1] == [a'];
  }

  /** The outlet table, with ids equal to positions, and the outlet service over it. */
  class OutletService {
    var outlets: seq<Outlet>
    const vendorService: VendorService

    /** Ids are positions; loads start at 0 and only ever grow. */
    ghost predicate Valid()
      reads this
    {
      forall i :: 0 <= i < |outlets| ==> outlets[i].id == i && outlets[i].currentLoad >= 0
    }

    constructor (vendorService: VendorService, initial: seq<Outlet>)
      requires forall i :: 0 <= i < |initial| ==> initial[i].id == i && initial[i].currentLoad >= 0
      ensures Valid() && outlets == initial && this.vendorService == vendorService
    {
      this.vendorService := vendorService;
      outlets := initial;
    }

    /** `findOutletById`. */
    function FindOutletById(id: OutletId): (r: Result<Outlet>)
      reads this
      requires Valid()
      ensures r.Err? <==> id >= |outlets|
      ensures r.Err? ==> r.error == NotFound
      ensures r.Ok? ==> r.value.id == id && r.value in outlets
    {
      if id < |outlets| then Ok(outlets[id]) else Err(NotFound)
    }

    /** `createOutlet`: a new active outlet with no load; capacity 100 unless given. */
    method CreateOutlet(request: OutletRequest) returns (r: Result<Outlet>)
      requires Valid() && vendorService.Valid()
      modifies this
      ensures Valid()
      ensures r.Err? <==> request.vendorId >= |vendorService.vendors|
      ensures r.Err? ==> r.error == NotFound && outlets == old(outlets)
      ensures r.Ok? ==> outlets == old(outlets) + [r.value]
      ensures r.Ok? ==> r.value == Outlet(|old(outlets)|, request.name, request.address, request.pincode,
                                          request.vendorId, true, 0,
                                          if request.maxCapacity.Some? then request.maxCapacity.value
                                          else DefaultMaxCapacity)
    {
      var vendor := vendorService.FindVendorById(request.vendorId);
      if vendor.Err? {
        return Err(vendor.error);
      }
      var capacity := if request.maxCapacity.Some? then request.maxCapacity.value else DefaultMaxCapacity;
      var outlet := Outlet(|outlets|, request.name, request.address, request.pincode,
                           vendor.value.id, true, 0, capacity);
      outlets := outlets + [outlet];
      r := Ok(outlet);
    }

    /**
     * `updateOutlet`: overwrites the descriptive fields; keeps the capacity
     * when none is given, and never changes vendor, active flag or load.
     */
    method UpdateOutlet(id: OutletId, request: OutletRequest) returns (r: Result<Outlet>)
      requires Valid()
      modifies this
      ensures Valid()
      ensures r.Err? <==> id >= |old(outlets)|
      ensures r.Err? ==> r.error == NotFound && outlets == old(outlets)
      ensures r.Ok? ==> outlets == old(outlets)[id := r.value]
      ensures r.Ok? ==> var o := old(outlets)[id];
        r.value == o.(name := request.name, address := request.address, pincode := request.pincode,
                      maxCapacity := if request.maxCapacity.Some? then request.maxCapacity.value
                                     else o.maxCapacity)
    {
      var found := FindOutletById(id);
      if found.Err? {
        return Err(found.error);
      }
      var o := found.value;
      var updated := o.(name := request.name, address := request.address, pincode := request.pincode);
      if request.maxCapacity.Some? {
        updated := updated.(maxCapacity := request.maxCapacity.value);
      }
      outlets := outlets[id := updated];
      r := Ok(updated);
    }

    /** `incrementLoad`: one more order routed to the outlet; nothing else changes. */
    method IncrementLoad(id: OutletId) returns (out: Outcome)
      requires Valid()
      modifies this
      ensures Valid()
      ensures out.Fail? <==> id >= |old(outlets)|
      ensures out.Fail? ==> out.error == NotFound && outlets == old(outlets)
      ensures out.Pass? ==> outlets == old(outlets)[id := old(outlets)[id].(currentLoad := old(outlets)[id].currentLoad + 1)]
    {
      var found := FindOutletById(id);
      if found.Err? {
        return Fail(found.error);
      }
      outlets := outlets[id := found.value.(currentLoad := found.value.currentLoad + 1)];
      out := Pass;
    }
  }
}
