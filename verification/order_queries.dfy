/**
 * The order repository's queries, as functions over the stored orders (in
 * storage order): the vendor filter, the priority-ordered list, and the
 * status filter with its count.
 */
module OrderQueries {
  import opened Common
  import opened OrderEntity

  /** The `CASE` of the priority query: CRITICAL 0, HIGH 1, MEDIUM 2, anything else 3. */
  function Rank(p: OrderPriority): (r: nat)
    ensures r <= 3
  {
    match p
    case Critical => 0
    case High => 1
    case Medium => 2
    case Low => 3
  }

  /** Ranks are distinct, and more urgent priorities rank lower. */
  lemma RankOrdersUrgency(p: OrderPriority, q: OrderPriority)
    ensures Rank(p) == Rank(q) ==> p == q
    ensures Rank(Critical) < Rank(High) < Rank(Medium) < Rank(Low)
  {
  }

  /** `a` may come before `b` in the prioritized list: lower rank, or same rank and not younger. */
  predicate InPriorityOrder(a: Order, b: Order)
  {
    Rank(a.priority) < Rank(b.priority)
    || (Rank(a.priority) == Rank(b.priority) && a.createdAt <= b.createdAt)
  }

  predicate SortedByPriority(s: seq<Order>)
  {
    forall i, j :: 0 <= i < j < |s| ==> InPriorityOrder(s[i], s[j])
  }

  /** `findByVendorId`: the vendor's orders, in storage order, each as often as it is stored. */
  function FindByVendorId(orders: seq<Order>, vendor: VendorId): (r: seq<Order>)
    ensures forall o :: multiset(r)[o] == if o.vendor == vendor then multiset(orders)[o] else 0
    ensures forall o :: o in r <==> o in orders && o.vendor == vendor
  {
    if orders == [] then []
    else
      assert orders == [orders[0]] + orders[1..];
      (if orders[0].vendor == vendor then [orders[0]] else []) + FindByVendorId(orders[1..], vendor)
  }

  /** Places one order into a prioritized list, after every order it may not precede. */
  function Insert(x: Order, s: seq<Order>): (r: seq<Order>)
    requires SortedByPriority(s)
    ensures SortedByPriority(r)
    ensures multiset(r) == multiset(s) + multiset{x}
  {
    if s == [] then [x]
    else if InPriorityOrder(x, s[0]) && !InPriorityOrder(s[0], x) then [x] + s
    else
      var rest := Insert(x, s[1..]);
      InsertBehindHead(x, s, rest);
      [s[0]] + rest
  }

  /** When `x` does not strictly precede the head, the head may stay in front of the rest with `x` inserted. */
  lemma InsertBehindHead(x: Order, s: seq<Order>, rest: seq<Order>)
    requires s != [] && SortedByPriority(s)
    requires !(InPriorityOrder(x, s[0]) && !InPriorityOrder(s[0], x))
    requires SortedByPriority(rest) && multiset(rest) == multiset(s[1..]) + multiset{x}
    ensures SortedByPriority([s[0]] + rest)
    ensures multiset([s[0]] + rest) == multiset(s) + multiset{x}
  {
    assert s == [s[0]] + s[1..];
    forall y | y in rest
      ensures InPriorityOrder(s[0], y)
    {
      assert y in multiset(rest);
      if y != x {
        assert y in multiset(s[1..]);
        var j :| 0 <= j < |s[1..]| && s[1..][j] == y;
        assert s[j + 1] == y;
      }
    }
    var r := [s[0]] + rest;
    forall i, j | 0 <= i < j < |r|
      ensures InPriorityOrder(r[i], r[j])
    {
      if i == 0 {
        assert r[j] == rest[j - 1];
        assert rest[j - 1] in rest;
      } else {
        assert r[i] == rest[i - 1] && r[j] == rest[j - 1];
      }
    }
  }

  /** Sorts by (rank ascending, createdAt ascending). */
  function SortByPriority(s: seq<Order>): (r: seq<Order>)
    ensures SortedByPriority(r)
    ensures multiset(r) == multiset(s)
  {
    if s == [] then []
    else
      assert s == [s[0]] + s[1..];
      Insert(s[0], SortByPriority(s[1..]))
  }

  /**
   * `findByVendorIdOrderByPriority`: exactly the vendor's orders, each as
   * often as stored, sorted by (rank, createdAt).
   */
  function FindByVendorIdOrderByPriority(orders: seq<Order>, vendor: VendorId): (r: seq<Order>)
    ensures SortedByPriority(r)
    ensures multiset(r) == multiset(FindByVendorId(orders, vendor))
    ensures forall o :: o in r <==> o in orders && o.vendor == vendor
  {
    var r := SortByPriority(FindByVendorId(orders, vendor));
    assert forall o :: o in r <==> o in multiset(r);
    r
  }

  /** `findByVendorIdAndStatus`. */
  function FindByVendorIdAndStatus(orders: seq<Order>, vendor: VendorId, status: OrderStatus): (r: seq<Order>)
    ensures forall o :: o in r <==> o in orders && o.vendor == vendor && o.status == status
    ensures |r| <= |orders|
  {
    if orders == [] then []
    else
      (if orders[0].vendor == vendor && orders[0].status == status then [orders[0]] else [])
        + FindByVendorIdAndStatus(orders[1..], vendor, status)
  }

  /** `countByVendorIdAndStatus`: `SELECT COUNT(o)` over the same condition. */
  function CountByVendorIdAndStatus(orders: seq<Order>, vendor: VendorId, status: OrderStatus): nat
  {
    if orders == [] then 0
    else
      (if orders[0].vendor == vendor && orders[0].status == status then 1 else 0)
        + CountByVendorIdAndStatus(orders[1..], vendor, status)
  }

  /** The count agrees with the length of the list for the same vendor and status. */
  lemma {:induction false} CountMatchesList(orders: seq<Order>, vendor: VendorId, status: OrderStatus)
    ensures CountByVendorIdAndStatus(orders, vendor, status) == |FindByVendorIdAndStatus(orders, vendor, status)|
  {
    if orders != [] {
      CountMatchesList(orders[1..], vendor, status);
    }
  }
}
