// The order in which the laser path planner visits regions: nearest first.
module RegionOrder {
  import opened Bytes
  import opened Counting

  datatype Rect = Rect(x: int, y: int, width: nat, height: nat)
  datatype Point2 = Point2(x: real, y: real)
  datatype Region = Region(labelId: int, bbox: Rect, centroid: Point2)

  // ---- Region order -------------------------------------------------------

  function Square(v: real): real {
    v * v
  }

  // The square of the distance: comparing squares is comparing distances.
  function Distance2(a: Point2, b: Point2): real {
    Square(a.x - b.x) + Square(a.y - b.y)
  }

  const FAR: real := 1000000000000000000.0
  const FAR2: real := FAR * FAR

  function Gap(regions: seq<Region>, i: nat, j: nat): real
    requires i < |regions| && j < |regions|
  {
    Distance2(regions[j].centroid, regions[i].centroid)
  }

  // d is the distance of two points, by Pythagoras.
  ghost predicate IsDistance(d: real, a: Point2, b: Point2) {
    d >= 0.0 && d * d == (b.x - a.x) * (b.x - a.x) + (b.y - a.y) * (b.y - a.y)
  }

  lemma SquareGrows(a: real, b: real)
    requires 0.0 <= a < b
    ensures Square(a) < Square(b)
  {
    var d := b - a;
    assert d * d > 0.0 && a * d >= 0.0;
    assert b * b == (a + d) * (a + d) == a * a + a * d + a * d + d * d;
  }

  lemma SquaresCompare(a: real, b: real)
    requires a >= 0.0 && b >= 0.0
    ensures a < b <==> Square(a) < Square(b)
  {
    hide Square;
    if a < b { SquareGrows(a, b); }
    if b < a { SquareGrows(b, a); }
  }

  lemma GapIsSquare(regions: seq<Region>, i: nat, j: nat, d: real)
    requires i < |regions| && j < |regions| && IsDistance(d, regions[i].centroid, regions[j].centroid)
    ensures Gap(regions, i, j) == Square(d)
  {
  }

  // Comparing gaps compares the distances of the centroids, and the reach of
  // the planner is a distance of FAR.
  lemma GapsCompareDistances(regions: seq<Region>, i: nat, j: nat, k: nat, toJ: real, toK: real)
    requires i < |regions| && j < |regions| && k < |regions|
    requires IsDistance(toJ, regions[i].centroid, regions[j].centroid)
    requires IsDistance(toK, regions[i].centroid, regions[k].centroid)
    ensures Gap(regions, i, j) < Gap(regions, i, k) <==> toJ < toK
    ensures Gap(regions, i, j) == Gap(regions, i, k) <==> toJ == toK
    ensures Gap(regions, i, j) < FAR2 <==> toJ < FAR
    ensures Gap(regions, i, j) == Gap(regions, j, i)
  {
    hide Square, Gap;
    GapIsSquare(regions, i, j, toJ);
    GapIsSquare(regions, i, k, toK);
    GapSymmetric(regions, i, j);
    SquaresCompare(toJ, toK);
    SquaresCompare(toK, toJ);
    SquaresCompare(toJ, FAR);
    assert FAR2 == Square(FAR) by { FarSquared(); }
  }

  lemma FarSquared()
    ensures FAR2 == Square(FAR)
  {
  }

  lemma GapSymmetric(regions: seq<Region>, i: nat, j: nat)
    requires i < |regions| && j < |regions|
    ensures Gap(regions, i, j) == Gap(regions, j, i)
  {
    SquareOfOpposite(regions[i].centroid.x - regions[j].centroid.x);
    SquareOfOpposite(regions[i].centroid.y - regions[j].centroid.y);
  }

  lemma SquareOfOpposite(v: real)
    ensures Square(-v) == Square(v)
  {
  }

  // Every index once.
  ghost predicate IsOrder(order: seq<nat>, n: nat) {
    && (forall k :: 0 <= k < |order| ==> order[k] < n)
    && (forall k, l :: 0 <= k < l < |order| ==> order[k] != order[l])
  }

  // Step k goes to the nearest region not yet visited, the first such in the
  // list when several are equally near.
  ghost predicate NearestAt(regions: seq<Region>, order: seq<nat>, k: nat)
    requires 0 < k < |order| && forall l :: 0 <= l < |order| ==> order[l] < |regions|
  {
    forall j: nat :: j < |regions| && j !in order[..k] ==>
      Gap(regions, order[k - 1], order[k]) < Gap(regions, order[k - 1], j)
      || (Gap(regions, order[k - 1], order[k]) == Gap(regions, order[k - 1], j) && order[k] <= j)
  }

  ghost predicate NearestFirst(regions: seq<Region>, order: seq<nat>) {
    && IsOrder(order, |regions|)
    && (order != [] ==> order[0] == 0)
    && forall k :: 0 < k < |order| ==> NearestAt(regions, order, k)
  }

  // The initial best distance is beyond any two centroids.
  ghost predicate WithinReach(regions: seq<Region>) {
    forall i, j :: 0 <= i < |regions| && 0 <= j < |regions| ==> Gap(regions, i, j) < FAR2
  }

  function Pick(regions: seq<Region>, order: seq<nat>): (r: seq<Region>)
    requires forall k :: 0 <= k < |order| ==> order[k] < |regions|
    ensures |r| == |order|
  {
    seq(|order|, k requires 0 <= k < |order| => regions[order[k]])
  }

  // used marks exactly what has been visited.
  ghost predicate Marks(used: seq<bool>, order: seq<nat>) {
    forall i: nat :: i < |used| ==> (used[i] <==> i in order)
  }

  lemma SomeLeft(order: seq<nat>, n: nat)
    requires |order| < n
    ensures exists j: nat :: j < n && j !in order
  {
    if forall j: nat :: j < n ==> j in order { FewElements(order, n); }
  }

  // A complete order visits every region exactly once.
  lemma OrderIsPermutation(order: seq<nat>, n: nat)
    requires IsOrder(order, n) && |order| == n
    ensures forall i: nat :: i < n ==> i in order
  {
    forall i: nat | i < n ensures i in order {
      if i !in order { Extend(order, i, n); }
    }
  }

  lemma Extend(order: seq<nat>, i: nat, n: nat)
    requires IsOrder(order, n) && i < n && i !in order
    ensures |order| < n
  {
    TooMany(order + [i], n);
  }

  // Distinct numbers below n are at most n.
  lemma {:induction false} TooMany(xs: seq<nat>, n: nat)
    requires forall k :: 0 <= k < |xs| ==> xs[k] < n
    requires forall k, l :: 0 <= k < l < |xs| ==> xs[k] != xs[l]
    ensures |xs| <= n
    decreases n
  {
    if xs != [] {
      assert xs[0] < n;
      if exists i :: 0 <= i < |xs| && xs[i] == n - 1 {
        var i :| 0 <= i < |xs| && xs[i] == n - 1;
        TooMany(xs[..i] + xs[i + 1..], n - 1);
      } else {
        TooMany(xs, n - 1);
      }
    }
  }

  lemma PickConcat(regions: seq<Region>, a: seq<nat>, b: seq<nat>)
    requires (forall k :: 0 <= k < |a| ==> a[k] < |regions|) && (forall k :: 0 <= k < |b| ==> b[k] < |regions|)
    ensures Pick(regions, a + b) == Pick(regions, a) + Pick(regions, b)
  {
  }

  lemma PickPrefix(regions: seq<Region>, n: nat, order: seq<nat>)
    requires n <= |regions| && forall k :: 0 <= k < |order| ==> order[k] < n
    ensures Pick(regions[..n], order) == Pick(regions, order)
  {
  }

  lemma MoveToEnd<T>(a: seq<T>, x: T, b: seq<T>, rest: seq<T>)
    requires multiset(a + b) == multiset(rest)
    ensures multiset(a + ([x] + b)) == multiset(rest + [x])
  {
    assert multiset(a + ([x] + b)) == multiset(a + b) + multiset{x};
  }

  lemma WithoutOne(order: seq<nat>, i: nat, n: nat)
    requires IsOrder(order, n + 1) && i < |order| && order[i] == n
    ensures IsOrder(order[..i] + order[i + 1..], n)
  {
    var rest := order[..i] + order[i + 1..];
    assert forall k :: 0 <= k < |rest| ==> rest[k] == order[if k < i then k else k + 1];
  }

  // So the regions picked are a permutation of the regions given.
  lemma {:induction false} PickPermutes(regions: seq<Region>, order: seq<nat>)
    requires IsOrder(order, |regions|) && |order| == |regions|
    ensures multiset(Pick(regions, order)) == multiset(regions)
    decreases |regions|
  {
    hide Pick, IsOrder;
    if regions == [] {
      assert order == [];
      PickNone(regions);
    } else {
      var n: nat := |regions| - 1;
      OrderIsPermutation(order, |regions|);
      assert n in order;
      var i :| 0 <= i < |order| && order[i] == n;
      WithoutOne(order, i, n);
      LastApart(regions, order, i);
      PickPermutes(regions[..n], order[..i] + order[i + 1..]);
      MoveToEnd(Pick(regions, order[..i]), regions[n], Pick(regions, order[i + 1..]), regions[..n]);
      assert regions == regions[..n] + [regions[n]];
    }
  }

  lemma PickNone(regions: seq<Region>)
    ensures Pick(regions, []) == []
  {
  }

  lemma LastApart(regions: seq<Region>, order: seq<nat>, i: nat)
    requires regions != [] && IsOrder(order, |regions|) && i < |order| && order[i] == |regions| - 1
    requires IsOrder(order[..i] + order[i + 1..], |regions| - 1)
    ensures forall k :: 0 <= k < |order| ==> order[k] < |regions|
    ensures Pick(regions, order) == Pick(regions, order[..i]) + ([regions[|regions| - 1]] + Pick(regions, order[i + 1..]))
    ensures Pick(regions[..|regions| - 1], order[..i] + order[i + 1..]) == Pick(regions, order[..i]) + Pick(regions, order[i + 1..])
  {
    hide Pick;
    var n: nat := |regions| - 1;
    var before, after := order[..i], order[i + 1..];
    assert order == before + ([n] + after);
    PickPrefix(regions, n, before + after);
    PickConcat(regions, before, after);
    PickConcat(regions, before, [n] + after);
    PickConcat(regions, [n], after);
    PickOne(regions, n);
  }

  lemma PickOne(regions: seq<Region>, i: nat)
    requires i < |regions|
    ensures Pick(regions, [i]) == [regions[i]]
  {
  }

  // A list of all the regions, picked nearest-first.
  ghost predicate NearestFirstList(regions: seq<Region>, ordered: seq<Region>) {
    exists order: seq<nat> ::
      NearestFirst(regions, order) && |order| == |regions| && ordered == Pick(regions, order)
  }

  // Every region not yet visited is at least 1e18 from this one.
  ghost predicate OutOfReach(regions: seq<Region>, order: seq<nat>, at: nat)
    requires at < |regions|
  {
    forall j: nat :: j < |regions| && j !in order ==> Gap(regions, at, j) >= FAR2
  }

  // Going nearest-first one comes to a region with the rest out of reach.
  ghost predicate Stranded(regions: seq<Region>) {
    exists order: seq<nat> :: StrandedAt(regions, order)
  }

  ghost predicate StrandedAt(regions: seq<Region>, order: seq<nat>) {
    NearestFirst(regions, order) && 0 < |order| < |regions| && OutOfReach(regions, order, order[|order| - 1])
  }

  ghost predicate HopsInReach(regions: seq<Region>, order: seq<nat>)
    requires forall k :: 0 <= k < |order| ==> order[k] < |regions|
  {
    forall k :: 0 < k < |order| ==> Gap(regions, order[k - 1], order[k]) < FAR2
  }

  lemma WithinReachIsEnough(regions: seq<Region>)
    requires WithinReach(regions)
    ensures !Stranded(regions)
  {
    forall order: seq<nat> ensures !StrandedAt(regions, order) {
      if 0 < |order| < |regions| { SomeLeft(order, |regions|); }
    }
  }

  lemma CompleteIsNotStranded(regions: seq<Region>, order: seq<nat>)
    requires NearestFirst(regions, order) && |order| == |regions| && HopsInReach(regions, order)
    ensures !Stranded(regions)
  {
    hide Gap, NearestAt;
    forall other: seq<nat> ensures !StrandedAt(regions, other) {
      if StrandedAt(regions, other) {
        var n := |other|;
        OrdersAgree(regions, order, other, n);
        assert other[..n] == other && order[n - 1] == order[..n][n - 1];
        NotBefore(order, n);
      }
    }
  }

  // None is the run that goes out of range: no region was near enough to beat
  // the initial best distance, and the code indexes with -1.
  method PlanRegionOrder(regions: seq<Region>) returns (ordered: Option<seq<Region>>)
    ensures ordered.None? <==> Stranded(regions)
    ensures ordered.Some? ==>
              NearestFirstList(regions, ordered.value) && multiset(ordered.value) == multiset(regions)
  {
    hide Stranded, Gap, NearestAt, OutOfReach;
    if regions == [] {
      NoneToVisit(regions);
      return Some([]);
    }
    var used := new bool[|regions|](_ => false);
    var current: nat := 0;
    var list := [regions[current]];
    ghost var order: seq<nat> := [current];
    used[current] := true;
    for step := 1 to |regions|
      invariant |order| == step && order[step - 1] == current
      invariant NearestFirst(regions, order) && Marks(used[..], order) && list == Pick(regions, order)
      invariant HopsInReach(regions, order)
    {
      SomeLeft(order, |regions|);
      var bestIdx := FindNearest(regions, used, current, order);
      if bestIdx < 0 {
        IsStranded(regions, order);
        return None;
      }
      ExtendOrder(regions, order, bestIdx);
      current := bestIdx;
      used[current] := true;
      list, order := list + [regions[current]], order + [current];
    }
    PickPermutes(regions, order);
    CompleteIsNotStranded(regions, order);
    ordered := Some(list);
  }

  lemma IsStranded(regions: seq<Region>, order: seq<nat>)
    requires StrandedAt(regions, order)
    ensures Stranded(regions)
  {
  }

  lemma NoneToVisit(regions: seq<Region>)
    requires regions == []
    ensures !Stranded(regions) && NearestFirstList(regions, []) && multiset([]) == multiset(regions)
  {
    assert NearestFirst(regions, []) && Pick(regions, []) == [];
  }

  lemma ExtendOrder(regions: seq<Region>, order: seq<nat>, i: nat)
    requires NearestFirst(regions, order) && order != [] && i < |regions| && i !in order
    requires Nearest(regions, order, order[|order| - 1], i)
    ensures NearestFirst(regions, order + [i]) && Pick(regions, order + [i]) == Pick(regions, order) + [regions[i]]
  {
    hide Gap;
    var longer := order + [i];
    var n := |order|;
    forall k | 0 < k < |longer| ensures NearestAt(regions, longer, k) {
      assert longer[..k] == order[..k];
      if k < n { assert NearestAt(regions, order, k); }
    }
  }

  // The nearest unvisited region to where we are, first in the list.
  ghost predicate Nearest(regions: seq<Region>, order: seq<nat>, at: nat, i: nat)
    requires at < |regions| && i < |regions|
  {
    i !in order && forall j: nat :: j < |regions| && j !in order ==>
      Gap(regions, at, i) < Gap(regions, at, j) || (Gap(regions, at, i) == Gap(regions, at, j) && i <= j)
  }

  // The inner loop: strictly nearer replaces, so ties keep the first.
  method FindNearest(regions: seq<Region>, used: array<bool>, current: nat, ghost order: seq<nat>) returns (best: int)
    requires used.Length == |regions| && current < |regions| && Marks(used[..], order)
    ensures -1 <= best < |regions|
    ensures best == -1 ==> OutOfReach(regions, order, current)
    ensures best >= 0 ==> Nearest(regions, order, current, best) && Gap(regions, current, best) < FAR2
  {
    hide Gap;
    var bestDist, bestIdx := FAR2, -1;
    for i := 0 to |regions|
      invariant -1 <= bestIdx < i
      invariant bestIdx == -1 ==> bestDist == FAR2 && forall j: nat :: j < i && j !in order ==> Gap(regions, current, j) >= FAR2
      invariant bestIdx >= 0 ==> bestIdx !in order && bestDist == Gap(regions, current, bestIdx) < FAR2
      invariant bestIdx >= 0 ==> forall j: nat :: j < i && j !in order ==>
        bestDist < Gap(regions, current, j) || (bestDist == Gap(regions, current, j) && bestIdx <= j)
    {
      assert used[..][i] == used[i];
      if used[i] { continue; }
      var dist := Gap(regions, current, i);
      if dist < bestDist {
        bestDist, bestIdx := dist, i;
      }
    }
    best := bestIdx;
  }

  lemma {:induction false} OrdersAgree(regions: seq<Region>, a: seq<nat>, b: seq<nat>, n: nat)
    requires NearestFirst(regions, a) && NearestFirst(regions, b) && n <= |a| && n <= |b|
    ensures a[..n] == b[..n]
  {
    hide Gap;
    if n > 0 {
      OrdersAgree(regions, a, b, n - 1);
      var k := n - 1;
      if k > 0 {
        assert NearestAt(regions, a, k) && NearestAt(regions, b, k);
        assert a[k - 1] == a[..k][k - 1] && b[k - 1] == b[..k][k - 1];
        NotBefore(a, k);
        NotBefore(b, k);
      }
      assert a[..n] == a[..k] + [a[k]] && b[..n] == b[..k] + [b[k]];
    }
  }

  lemma NotBefore(a: seq<nat>, k: nat)
    requires k < |a| && forall i, j :: 0 <= i < j < |a| ==> a[i] != a[j]
    ensures a[k] !in a[..k]
  {
  }

  // Main result: nearest-first leaves no freedom; the list is determined.
  lemma NearestFirstUnique(regions: seq<Region>, a: seq<Region>, b: seq<Region>)
    requires NearestFirstList(regions, a) && NearestFirstList(regions, b)
    ensures a == b
  {
    hide Pick, NearestAt;
    var p :| NearestFirst(regions, p) && |p| == |regions| && a == Pick(regions, p);
    var q :| NearestFirst(regions, q) && |q| == |regions| && b == Pick(regions, q);
    OrdersAgree(regions, p, q, |regions|);
    assert p[..|regions|] == p && q[..|regions|] == q;
  }
}
