/**
 * The recent-orders card: the static orders copied, sorted by how far their
 * deadline is from today, and cut to the first five; and the status column's
 * comparator, which ranks Pending, In Progress, Completed, Cancelled.
 * Deadlines are read as day numbers through a parameter, today is a parameter.
 */
module RecentOrders {
  import opened Wrappers
  import opened Domain

  /** How many orders the card shows. */
  const RecentCount: nat := 5

  function Abs(x: int): nat
  {
    if x < 0 then -x else x
  }

  /** The distance of an order's deadline from today. */
  function Distance(o: Order, day: string -> int, today: int): nat
  {
    Abs(day(o.deadline) - today)
  }

  /** Each order is at least as far from today as the one before it. */
  ghost predicate SortedByDistance(xs: seq<Order>, day: string -> int, today: int)
  {
    forall i :: 0 < i < |xs| ==> Distance(xs[i - 1], day, today) <= Distance(xs[i], day, today)
  }

  /** In a sorted list every order is at least as far from today as every earlier one. */
  lemma {:induction false} SortedPairwise(xs: seq<Order>, day: string -> int, today: int)
    requires SortedByDistance(xs, day, today)
    ensures forall i, j :: 0 <= i < j < |xs| ==> Distance(xs[i], day, today) <= Distance(xs[j], day, today)
  {
    if xs != [] {
      var init := xs[..|xs| - 1];
      assert SortedByDistance(init, day, today) by {
        assert forall i :: 0 <= i < |init| ==> init[i] == xs[i];
      }
      SortedPairwise(init, day, today);
      forall i, j | 0 <= i < j < |xs| ensures Distance(xs[i], day, today) <= Distance(xs[j], day, today) {
        if j < |xs| - 1 {
          assert init[i] == xs[i] && init[j] == xs[j];
        } else if i < j - 1 {
          assert init[i] == xs[i] && init[j - 1] == xs[j - 1];
        }
      }
    }
  }

  /**
   * The insertion step of the sort: `o` goes before the first order farther
   * from today than it, so after every order as near as it. Sorting inserts
   * from the back, so equally distant orders end up in reverse input order.
   */
  function Insert(o: Order, sorted: seq<Order>, day: string -> int, today: int): (r: seq<Order>)
    requires SortedByDistance(sorted, day, today)
    ensures SortedByDistance(r, day, today)
    ensures multiset(r) == multiset(sorted) + multiset{o}
    ensures |r| == |sorted| + 1 && (r[0] == o || (sorted != [] && r[0] == sorted[0]))
  {
    if sorted == [] then [o]
    else if Distance(o, day, today) < Distance(sorted[0], day, today) then
      [o] + sorted
    else
      assert SortedByDistance(sorted[1..], day, today) by {
        assert forall i :: 0 <= i < |sorted| - 1 ==> sorted[1..][i] == sorted[i + 1];
      }
      var rest := Insert(o, sorted[1..], day, today);
      ConsSorted(sorted, o, rest, day, today);
      [sorted[0]] + rest
  }

  /** Putting the first order back in front of its insertion result keeps the list sorted and a permutation. */
  lemma ConsSorted(sorted: seq<Order>, o: Order, rest: seq<Order>, day: string -> int, today: int)
    requires SortedByDistance(sorted, day, today) && sorted != []
    requires Distance(sorted[0], day, today) <= Distance(o, day, today)
    requires SortedByDistance(rest, day, today)
    requires multiset(rest) == multiset(sorted[1..]) + multiset{o}
    requires |rest| == |sorted| && (rest[0] == o || (|sorted| > 1 && rest[0] == sorted[1]))
    ensures SortedByDistance([sorted[0]] + rest, day, today)
    ensures multiset([sorted[0]] + rest) == multiset(sorted) + multiset{o}
  {
    var r := [sorted[0]] + rest;
    assert sorted == [sorted[0]] + sorted[1..];
    assert Distance(r[0], day, today) <= Distance(r[1], day, today);
    assert forall i :: 1 <= i < |r| ==> r[i] == rest[i - 1];
  }

  /** `[...orders].sort((a, b) => distance(a) - distance(b))`: a sorted permutation of the orders. */
  function SortByDistance(xs: seq<Order>, day: string -> int, today: int): (r: seq<Order>)
    ensures SortedByDistance(r, day, today)
    ensures multiset(r) == multiset(xs)
  {
    if xs == [] then []
    else
      assert xs == [xs[0]] + xs[1..];
      Insert(xs[0], SortByDistance(xs[1..], day, today), day, today)
  }

  /**
   * `getRecentOrders`: the five orders nearest to today, nearest first. The
   * result is a prefix of a sorted permutation of the orders, so every order
   * left out is at least as far from today as every one shown.
   */
  function GetRecentOrders(orders: seq<Order>, day: string -> int, today: int): (r: seq<Order>)
    ensures |r| == if |orders| < RecentCount then |orders| else RecentCount
    ensures SortedByDistance(r, day, today)
    ensures multiset(r) <= multiset(orders)
    ensures forall o, i :: o in multiset(orders) - multiset(r) && 0 <= i < |r| ==>
      Distance(r[i], day, today) <= Distance(o, day, today)
  {
    var sorted := SortByDistance(orders, day, today);
    var n := if |sorted| < RecentCount then |sorted| else RecentCount;
    PrefixNoFartherThanRest(sorted, n, day, today);
    sorted[..n]
  }

  /** In a sorted list, the first `n` orders are no farther from today than any order after them. */
  lemma PrefixNoFartherThanRest(sorted: seq<Order>, n: nat, day: string -> int, today: int)
    requires SortedByDistance(sorted, day, today) && n <= |sorted|
    ensures SortedByDistance(sorted[..n], day, today)
    ensures multiset(sorted) - multiset(sorted[..n]) == multiset(sorted[n..])
    ensures forall o, i :: o in multiset(sorted[n..]) && 0 <= i < n ==>
      Distance(sorted[..n][i], day, today) <= Distance(o, day, today)
  {
    assert sorted == sorted[..n] + sorted[n..];
    SortedPairwise(sorted, day, today);
    forall o, i | o in multiset(sorted[n..]) && 0 <= i < n
      ensures Distance(sorted[..n][i], day, today) <= Distance(o, day, today)
    {
      var j :| 0 <= j < |sorted[n..]| && sorted[n..][j] == o;
      assert sorted[n..][j] == sorted[n + j];
    }
  }

  /** The rank the status comparator gives each status; other texts have none (NaN in the source). */
  function StatusRank(s: string): (r: Option<int>)
    ensures r.Some? <==> IsOrderStatus(s)
    ensures r.Some? ==> 0 <= r.value <= 3
  {
    if s == "Pending" then Some(0)
    else if s == "In Progress" then Some(1)
    else if s == "Completed" then Some(2)
    else if s == "Cancelled" then Some(3)
    else None
  }

  /** The status column's `sortingFn`: rank of `a` minus rank of `b`, none when a status is unknown. */
  function CompareStatus(a: string, b: string): (r: Option<int>)
    ensures r.Some? <==> IsOrderStatus(a) && IsOrderStatus(b)
  {
    var x := StatusRank(a);
    var y := StatusRank(b);
    if x.Some? && y.Some? then Some(x.value - y.value) else None
  }

  /**
   * The comparator is 0 exactly on equal statuses, antisymmetric, and orders
   * Pending before In Progress before Completed before Cancelled.
   */
  lemma CompareStatusIsOrder(a: string, b: string)
    requires IsOrderStatus(a) && IsOrderStatus(b)
    ensures CompareStatus(a, b).value == 0 <==> a == b
    ensures CompareStatus(a, b).value == -CompareStatus(b, a).value
    ensures CompareStatus("Pending", "In Progress").value < 0
    ensures CompareStatus("In Progress", "Completed").value < 0
    ensures CompareStatus("Completed", "Cancelled").value < 0
  {
  }
}
