/** Support and resistance clustering of backend/src/app/analysis/structure.py, over exact reals. */
module PriceLevels {
  import opened Sums

  ghost predicate Ascending(xs: seq<real>) {
    forall i, j :: 0 <= i < j < |xs| ==> xs[i] <= xs[j]
  }

  function Flatten(clusters: seq<seq<real>>): seq<real> {
    if clusters == [] then [] else Flatten(clusters[..|clusters| - 1]) + clusters[|clusters| - 1]
  }

  lemma FlattenAppend(clusters: seq<seq<real>>, c: seq<real>)
    ensures Flatten(clusters + [c]) == Flatten(clusters) + c
  {
    assert (clusters + [c])[..|clusters|] == clusters;
  }

  /** The membership test of the loop. */
  predicate Joins(anchor: real, price: real, tolerance: real) {
    anchor > 0.0 && (if price >= anchor then price - anchor else anchor - price) / anchor <= tolerance
  }

  lemma JoinsIff(anchor: real, price: real, tolerance: real)
    requires 0.0 < anchor <= price
    ensures Joins(anchor, price, tolerance) <==> price <= Times(anchor, 1.0 + tolerance)
  {
    var q := (price - anchor) / anchor;
    assert q * anchor == price - anchor;
    if q <= tolerance {
      assert (tolerance - q) * anchor >= 0.0;
    } else {
      assert (q - tolerance) * anchor > 0.0;
    }
  }

  /** A price joins exactly a positive anchor that it is within the tolerance of; a nonpositive one stays alone. */
  lemma {:induction false} JoinsExact(anchor: real, price: real, tolerance: real)
    ensures Joins(anchor, price, tolerance) <==>
            anchor > 0.0 && price - anchor <= tolerance * anchor && anchor - price <= tolerance * anchor
  {
    if anchor > 0.0 {
      var d := if price >= anchor then price - anchor else anchor - price;
      var q := d / anchor;
      assert q * anchor == d;
      if q <= tolerance {
        assert (tolerance - q) * anchor >= 0.0;
      } else {
        assert (q - tolerance) * anchor > 0.0;
      }
    }
  }

  /** Every later member of a cluster joined its first. */
  ghost predicate Tight(c: seq<real>, tolerance: real) {
    c != [] && forall i :: 1 <= i < |c| ==> Joins(c[0], c[i], tolerance)
  }

  /** No cluster's first price could have joined the cluster before it. */
  ghost predicate Separated(clusters: seq<seq<real>>, tolerance: real) {
    && (forall i :: 0 <= i < |clusters| ==> Tight(clusters[i], tolerance))
    && (forall i :: 0 <= i < |clusters| - 1 ==> !Joins(clusters[i][0], clusters[i + 1][0], tolerance))
  }

  lemma {:induction false} GrowFlat(front: seq<seq<real>>, c: seq<real>, price: real)
    ensures Flatten(front + [c + [price]]) == Flatten(front + [c]) + [price]
  {
    hide Flatten;
    FlattenAppend(front, c);
    FlattenAppend(front, c + [price]);
  }

  lemma Grow(front: seq<seq<real>>, c: seq<real>, price: real, tolerance: real)
    requires Separated(front + [c], tolerance) && c != [] && Joins(c[0], price, tolerance)
    ensures Separated(front + [c + [price]], tolerance)
  {
    var before, after := front + [c], front + [c + [price]];
    forall i | 0 <= i < |after| ensures Tight(after[i], tolerance) {
      assert Tight(before[i], tolerance);
    }
    forall i | 0 <= i < |after| - 1 ensures !Joins(after[i][0], after[i + 1][0], tolerance) {
      assert after[i] == before[i] && after[i + 1][0] == before[i + 1][0];
    }
  }

  lemma Open(clusters: seq<seq<real>>, price: real, tolerance: real)
    requires clusters != [] && Separated(clusters, tolerance)
    requires !Joins(clusters[|clusters| - 1][0], price, tolerance)
    ensures Separated(clusters + [[price]], tolerance)
  {
    var after := clusters + [[price]];
    forall i | 0 <= i < |after| ensures Tight(after[i], tolerance) {
      assert i < |clusters| ==> Tight(clusters[i], tolerance);
    }
    forall i | 0 <= i < |after| - 1 ensures !Joins(after[i][0], after[i + 1][0], tolerance) {
      assert after[i] == clusters[i];
      assert i + 1 < |clusters| ==> after[i + 1] == clusters[i + 1];
    }
  }

  /** The loop of `_cluster`: it partitions the sorted prices, in order, into separated tight clusters. */
  method Cluster(ordered: seq<real>, tolerance: real) returns (clusters: seq<seq<real>>)
    ensures Flatten(clusters) == ordered
    ensures Separated(clusters, tolerance)
  {
    if ordered == [] {
      return [];
    }
    clusters := [[ordered[0]]];
    assert Flatten(clusters) == ordered[..1] by { FlattenAppend([], [ordered[0]]); }
    for i := 1 to |ordered|
      invariant clusters != [] && clusters[|clusters| - 1] != [] && Flatten(clusters) == ordered[..i]
      invariant Separated(clusters, tolerance)
    {
      hide Flatten, Joins, Separated;
      var price := ordered[i];
      assert ordered[..i + 1] == ordered[..i] + [price];
      var last := |clusters| - 1;
      var front, c := clusters[..last], clusters[last];
      assert clusters == front + [c];
      if Joins(c[0], price, tolerance) {
        GrowFlat(front, c, price);
        Grow(front, c, price, tolerance);
        clusters := front + [c + [price]];
      } else {
        FlattenAppend(clusters, [price]);
        Open(clusters, price, tolerance);
        clusters := clusters + [[price]];
      }
    }
    assert ordered[..|ordered|] == ordered;
  }

  // --- optimality: no grouping of the prices within the tolerance uses fewer groups

  /** All members of a group lie within the tolerance of each other. */
  ghost predicate Grouped(g: seq<real>, tolerance: real) {
    forall x, y :: x in g && y in g ==> x <= Times(y, 1.0 + tolerance)
  }

  lemma {:induction false} AnchorIn(clusters: seq<seq<real>>, i: nat)
    requires i < |clusters| && clusters[i] != []
    ensures clusters[i][0] in Flatten(clusters)
    decreases |clusters|
  {
    var last := |clusters| - 1;
    if i < last {
      AnchorIn(clusters[..last], i);
    } else {
      assert Flatten(clusters)[|Flatten(clusters[..last])|] == clusters[i][0];
    }
  }

  lemma {:induction false} AnchorsAscend(clusters: seq<seq<real>>, i: nat, j: nat)
    requires Ascending(Flatten(clusters)) && i <= j < |clusters|
    requires forall k :: 0 <= k < |clusters| ==> clusters[k] != []
    ensures clusters[i][0] <= clusters[j][0]
    decreases |clusters|
  {
    var last := |clusters| - 1;
    var flat, front := Flatten(clusters), Flatten(clusters[..last]);
    assert forall k :: 0 <= k < |front| ==> front[k] == flat[k];
    if j < last {
      AnchorsAscend(clusters[..last], i, j);
    } else if i < j {
      AnchorIn(clusters[..last], i);
      var k :| 0 <= k < |front| && front[k] == clusters[i][0];
      assert flat[|front|] == clusters[j][0];
    }
  }

  /** An anchor is a positive price of the list. */
  lemma {:induction false} AnchorPositive(clusters: seq<seq<real>>, i: nat)
    requires i < |clusters| && clusters[i] != [] && AllPositive(Flatten(clusters))
    ensures clusters[i][0] > 0.0
  {
    AnchorIn(clusters, i);
    hide Flatten;
  }

  ghost predicate AllPositive(prices: seq<real>) {
    forall p :: p in prices ==> p > 0.0
  }

  /** Neighbouring anchors never fit in one group. */
  lemma {:induction false} NeighboursApart(clusters: seq<seq<real>>, tolerance: real, i: nat)
    requires Separated(clusters, tolerance) && Ascending(Flatten(clusters)) && AllPositive(Flatten(clusters))
    requires i + 1 < |clusters|
    ensures clusters[i] != [] && clusters[i + 1] != []
    ensures clusters[i][0] > 0.0 && clusters[i + 1][0] > Times(clusters[i][0], 1.0 + tolerance)
  {
    NonEmpty(clusters, tolerance);
    assert !Joins(clusters[i][0], clusters[i + 1][0], tolerance);
    hide Joins, Flatten, Ascending, Separated, AllPositive;
    AnchorPositive(clusters, i);
    AnchorsAscend(clusters, i, i + 1);
    JoinsIff(clusters[i][0], clusters[i + 1][0], tolerance);
  }

  lemma {:induction false} NonEmpty(clusters: seq<seq<real>>, tolerance: real)
    requires Separated(clusters, tolerance)
    ensures forall k :: 0 <= k < |clusters| ==> clusters[k] != []
  {
    hide Joins;
    forall k | 0 <= k < |clusters| ensures clusters[k] != [] {
      assert Tight(clusters[k], tolerance);
    }
  }

  /** Two anchors never fit in one group. */
  lemma {:induction false} AnchorsApart(clusters: seq<seq<real>>, tolerance: real, i: nat, j: nat)
    requires Separated(clusters, tolerance) && Ascending(Flatten(clusters)) && AllPositive(Flatten(clusters))
    requires i < j < |clusters| && tolerance >= 0.0
    ensures clusters[i] != [] && clusters[j] != [] && clusters[j][0] > Times(clusters[i][0], 1.0 + tolerance)
  {
    hide Times, Joins, Flatten, Ascending, Separated, AllPositive;
    NonEmpty(clusters, tolerance);
    NeighboursApart(clusters, tolerance, j - 1);
    AnchorsAscend(clusters, i, j - 1);
    TimesMonotone(clusters[i][0], clusters[j - 1][0], 1.0 + tolerance);
  }

  ghost predicate Covers(groups: seq<seq<real>>, p: real) {
    exists g :: 0 <= g < |groups| && p in groups[g]
  }

  /** The group that holds a given price. */
  ghost function GroupOf(groups: seq<seq<real>>, p: real): nat
    requires Covers(groups, p)
    ensures GroupOf(groups, p) < |groups| && p in groups[GroupOf(groups, p)]
  {
    var g :| 0 <= g < |groups| && p in groups[g]; g
  }

  /**
   * Greedy clustering is optimal: any way of covering the same positive prices by groups whose maximum
   * is at most (1 + tolerance) times their minimum needs at least as many groups.
   */
  lemma {:induction false} ClusteringMinimal(clusters: seq<seq<real>>, tolerance: real, groups: seq<seq<real>>)
    requires Ascending(Flatten(clusters)) && Separated(clusters, tolerance) && AllPositive(Flatten(clusters))
    requires CoversAll(groups, Flatten(clusters)) && AllGrouped(groups, tolerance)
    ensures |clusters| <= |groups|
  {
    NonEmpty(clusters, tolerance);
    forall i | 0 <= i < |clusters| ensures Covers(groups, clusters[i][0]) && clusters[i][0] > 0.0 {
      AnchorIn(clusters, i);
      AnchorPositive(clusters, i);
    }
    hide Joins, Flatten, Ascending, Covers, Grouped, Separated, AllPositive, CoversAll, Times;
    if |clusters| > 0 {
      NonNegativeTolerance(clusters[0][0], groups, tolerance);
    }
    var anchors := Anchors(clusters);
    forall i, j | 0 <= i < j < |anchors| ensures anchors[j] > Times(anchors[i], 1.0 + tolerance) {
      AnchorsApart(clusters, tolerance, i, j);
    }
    OneGroupPerAnchor(anchors, tolerance, groups);
  }

  ghost predicate CoversAll(groups: seq<seq<real>>, prices: seq<real>) {
    forall p :: p in prices ==> Covers(groups, p)
  }

  ghost predicate AllGrouped(groups: seq<seq<real>>, tolerance: real) {
    forall g :: 0 <= g < |groups| ==> Grouped(groups[g], tolerance)
  }

  function Anchors(clusters: seq<seq<real>>): (anchors: seq<real>)
    requires forall i :: 0 <= i < |clusters| ==> clusters[i] != []
    ensures |anchors| == |clusters|
    ensures forall i :: 0 <= i < |clusters| ==> anchors[i] == clusters[i][0]
  {
    if clusters == [] then [] else Anchors(clusters[..|clusters| - 1]) + [clusters[|clusters| - 1][0]]
  }

  ghost function Assign(anchors: seq<real>, groups: seq<seq<real>>): (f: seq<nat>)
    requires forall i :: 0 <= i < |anchors| ==> Covers(groups, anchors[i])
    ensures |f| == |anchors|
    ensures forall i :: 0 <= i < |anchors| ==> f[i] == GroupOf(groups, anchors[i])
  {
    if anchors == [] then []
    else Assign(anchors[..|anchors| - 1], groups) + [GroupOf(groups, anchors[|anchors| - 1])]
  }

  lemma OneGroupPerAnchor(anchors: seq<real>, tolerance: real, groups: seq<seq<real>>)
    requires forall i :: 0 <= i < |anchors| ==> Covers(groups, anchors[i])
    requires forall i, j :: 0 <= i < j < |anchors| ==> anchors[j] > Times(anchors[i], 1.0 + tolerance)
    requires AllGrouped(groups, tolerance)
    ensures |anchors| <= |groups|
  {
    hide Times, Grouped, Covers;
    var f := Assign(anchors, groups);
    forall i, j | 0 <= i < j < |f| ensures f[i] != f[j] {
      DifferentGroups(groups, tolerance, anchors[i], anchors[j]);
    }
    Pigeonhole(f, |groups|);
  }

  lemma DifferentGroups(groups: seq<seq<real>>, tolerance: real, a: real, b: real)
    requires Covers(groups, a) && Covers(groups, b) && b > Times(a, 1.0 + tolerance)
    requires AllGrouped(groups, tolerance)
    ensures GroupOf(groups, a) != GroupOf(groups, b)
  {
    hide Times;
    assert Grouped(groups[GroupOf(groups, a)], tolerance);
  }

  /** A positive price fits in a group at all only when the tolerance is not negative. */
  lemma NonNegativeTolerance(p: real, groups: seq<seq<real>>, tolerance: real)
    requires p > 0.0 && Covers(groups, p)
    requires AllGrouped(groups, tolerance)
    ensures tolerance >= 0.0
  {
    assert Grouped(groups[GroupOf(groups, p)], tolerance);
    assert p <= Times(p, 1.0 + tolerance) == p + p * tolerance;
    SignOfFactor(p, tolerance);
  }

  lemma SignOfFactor(p: real, x: real)
    requires p > 0.0 && p * x >= 0.0
    ensures x >= 0.0
  {
  }

  lemma Pigeonhole(f: seq<nat>, n: nat)
    requires forall i :: 0 <= i < |f| ==> f[i] < n
    requires forall i, j :: 0 <= i < j < |f| ==> f[i] != f[j]
    ensures |f| <= n
  {
    var image := set i | 0 <= i < |f| :: f[i];
    ImageSize(f, image);
    var range := seq(n, i requires 0 <= i < n => i);
    forall k | k in image ensures k in range {
      assert range[k] == k;
    }
    CardinalityAtMostLength(image, range);
  }

  lemma {:induction false} ImageSize(f: seq<nat>, image: set<nat>)
    requires forall i, j :: 0 <= i < j < |f| ==> f[i] != f[j]
    requires image == set i | 0 <= i < |f| :: f[i]
    ensures |image| == |f|
    decreases |f|
  {
    if f != [] {
      var last := |f| - 1;
      var rest := set i | 0 <= i < last :: f[..last][i];
      assert image == rest + {f[last]};
      assert f[last] !in rest;
      ImageSize(f[..last], rest);
    }
  }

  // --- levels

  datatype Level = Level(price: real, touches: nat, strength: real)

  function Total(xs: seq<real>): real {
    if xs == [] then 0.0 else Total(xs[..|xs| - 1]) + xs[|xs| - 1]
  }

  function MaxTouches(clusters: seq<seq<real>>): (m: nat)
    ensures forall i :: 0 <= i < |clusters| ==> |clusters[i]| <= m
    ensures clusters != [] ==> exists i :: 0 <= i < |clusters| && |clusters[i]| == m
  {
    if clusters == [] then 0
    else
      var m := MaxTouches(clusters[..|clusters| - 1]);
      var n := |clusters[|clusters| - 1]|;
      if n >= m then n else
        assert forall i :: 0 <= i < |clusters| - 1 ==> clusters[i] == clusters[..|clusters| - 1][i];
        m
  }

  function LevelOf(c: seq<real>, most: nat): Level {
    if c == [] || most == 0 then Level(0.0, |c|, 0.0)
    else Level(Total(c) / |c| as real, |c|, |c| as real / most as real)
  }

  /** One stable insertion of the descending library sort on the number of touches. */
  function InsertLevel(level: Level, levels: seq<Level>): seq<Level> {
    if levels == [] || level.touches >= levels[0].touches then [level] + levels
    else [levels[0]] + InsertLevel(level, levels[1..])
  }

  function Levels(clusters: seq<seq<real>>, most: nat): seq<Level> {
    if clusters == [] then []
    else InsertLevel(LevelOf(clusters[0], most), Levels(clusters[1..], most))
  }

  ghost predicate Descending(levels: seq<Level>) {
    forall i, j :: 0 <= i < j < |levels| ==> levels[i].touches >= levels[j].touches
  }

  function Touches(levels: seq<Level>): nat {
    if levels == [] then 0 else levels[0].touches + Touches(levels[1..])
  }

  lemma {:induction false} InsertLevelKeeps(level: Level, levels: seq<Level>)
    ensures var all := InsertLevel(level, levels);
            && |all| == |levels| + 1 && Touches(all) == level.touches + Touches(levels)
            && (forall l :: l in all <==> l == level || l in levels)
            && (Descending(levels) ==> Descending(all))
    decreases |levels|
  {
    if levels != [] && level.touches < levels[0].touches {
      var rest := InsertLevel(level, levels[1..]);
      InsertLevelKeeps(level, levels[1..]);
      var all := [levels[0]] + rest;
      assert all[1..] == rest;
      if Descending(levels) {
        assert Descending(levels[1..]);
        forall i | 0 <= i < |rest| ensures levels[0].touches >= rest[i].touches {
          assert rest[i] in rest;
        }
      }
    } else {
      assert ([level] + levels)[1..] == levels;
    }
  }

  /** Each level stands for one cluster, most touched first, and touches add up to the clustered prices. */
  lemma {:induction false} LevelsFaithful(clusters: seq<seq<real>>, most: nat)
    ensures Descending(Levels(clusters, most)) && |Levels(clusters, most)| == |clusters|
    ensures forall l :: l in Levels(clusters, most) ==> exists c :: c in clusters && l == LevelOf(c, most)
    ensures forall c :: c in clusters ==> LevelOf(c, most) in Levels(clusters, most)
    ensures Touches(Levels(clusters, most)) == |Flatten(clusters)|
    decreases |clusters|
  {
    if clusters != [] {
      var head, rest := LevelOf(clusters[0], most), Levels(clusters[1..], most);
      LevelsFaithful(clusters[1..], most);
      InsertLevelKeeps(head, rest);
      FlattenHead(clusters);
      hide Flatten, Descending, Touches, InsertLevel, LevelOf;
      forall l | l in Levels(clusters, most) ensures exists c :: c in clusters && l == LevelOf(c, most) {
        if l == head {
          assert clusters[0] in clusters;
        } else {
          var c :| c in clusters[1..] && l == LevelOf(c, most);
          assert c in clusters;
        }
      }
    }
  }

  lemma {:induction false} FlattenHead(clusters: seq<seq<real>>)
    requires clusters != []
    ensures |Flatten(clusters)| == |clusters[0]| + |Flatten(clusters[1..])|
    decreases |clusters|
  {
    var last := |clusters| - 1;
    if last > 0 {
      FlattenHead(clusters[..last]);
      assert clusters[..last][1..] == clusters[1..][..last - 1];
    } else {
      assert clusters[..last] == [];
    }
  }

  lemma {:induction false} TotalBetween(xs: seq<real>, low: real, high: real)
    requires forall i :: 0 <= i < |xs| ==> low <= xs[i] <= high
    ensures Times(|xs| as real, low) <= Total(xs) <= Times(|xs| as real, high)
    decreases |xs|
  {
    if xs != [] {
      var n := |xs| - 1;
      TotalBetween(xs[..n], low, high);
      TimesAdd(n as real, 1.0, low);
      TimesAdd(n as real, 1.0, high);
    }
  }

  lemma AverageBetween(total: real, n: real, low: real, high: real)
    requires n > 0.0 && Times(n, low) <= total <= Times(n, high)
    ensures low <= total / n <= high
  {
    var q := total / n;
    assert q * n == total;
    assert (q - low) * n >= 0.0;
    assert (high - q) * n >= 0.0;
  }

  /** A level's price lies between its cluster's anchor and the anchor times (1 + tolerance). */
  lemma LevelPriceBounded(c: seq<real>, tolerance: real, most: nat)
    requires Tight(c, tolerance) && Ascending(c) && c[0] > 0.0 && tolerance >= 0.0 && most > 0
    ensures c[0] <= LevelOf(c, most).price <= Times(c[0], 1.0 + tolerance)
  {
    hide Times, Joins;
    var high := Times(c[0], 1.0 + tolerance);
    assert c[0] <= high by { AtLeastItself(c[0], tolerance); }
    forall i | 0 <= i < |c| ensures c[0] <= c[i] <= high {
      if i > 0 {
        assert Joins(c[0], c[i], tolerance);
        JoinsIff(c[0], c[i], tolerance);
      }
    }
    TotalBetween(c, c[0], high);
    AverageBetween(Total(c), |c| as real, c[0], high);
  }

  lemma AtLeastItself(p: real, tolerance: real)
    requires p > 0.0 && tolerance >= 0.0
    ensures p <= Times(p, 1.0 + tolerance)
  {
    assert p * tolerance >= 0.0;
  }

  /** The first level is a most touched one and has strength exactly one; no strength exceeds it. */
  lemma StrongestFirst(clusters: seq<seq<real>>)
    requires clusters != [] && forall c :: c in clusters ==> c != []
    ensures var levels := Levels(clusters, MaxTouches(clusters));
            levels != [] && levels[0].strength == 1.0 && forall l :: l in levels ==> 0.0 < l.strength <= 1.0
  {
    var most := MaxTouches(clusters);
    var i :| 0 <= i < |clusters| && |clusters[i]| == most;
    assert clusters[i] in clusters;
    LevelsFaithful(clusters, most);
    var levels := Levels(clusters, most);
    hide Levels, Flatten, Total;
    forall l | l in levels ensures 0.0 < l.strength <= 1.0 && (l.touches >= most ==> l.strength == 1.0) {
      var d :| d in clusters && l == LevelOf(d, most);
      Ratio(|d|, most);
    }
    var k :| 0 <= k < |levels| && levels[k] == LevelOf(clusters[i], most);
    assert levels[0] in levels && levels[0].touches >= levels[k].touches;
  }

  lemma Ratio(a: nat, b: nat)
    requires 0 < a <= b
    ensures 0.0 < a as real / b as real <= 1.0
    ensures a == b ==> a as real / b as real == 1.0
  {
    var x, y := a as real, b as real;
    AverageBetween(x, y, 0.0, 1.0);
    assert (x / y) * y == x;
    if a == b {
      AverageBetween(x, y, 1.0, 1.0);
    }
  }

  // --- the whole of `_cluster`

  /** One insertion of the library sort. */
  function InsertPrice(p: real, sorted: seq<real>): seq<real> {
    if sorted == [] || p <= sorted[0] then [p] + sorted else [sorted[0]] + InsertPrice(p, sorted[1..])
  }

  /** `sorted(prices)`: equal prices cannot be told apart, so any correct sort returns this list. */
  function Sorted(prices: seq<real>): seq<real> {
    if prices == [] then [] else InsertPrice(prices[0], Sorted(prices[1..]))
  }

  lemma {:induction false} InsertPriceExact(p: real, sorted: seq<real>)
    ensures multiset(InsertPrice(p, sorted)) == multiset{p} + multiset(sorted)
    decreases |sorted|
  {
    if sorted != [] {
      assert sorted == [sorted[0]] + sorted[1..];
      if p > sorted[0] {
        InsertPriceExact(p, sorted[1..]);
      }
    }
  }

  lemma {:induction false} InsertPriceMembers(p: real, sorted: seq<real>, k: nat)
    requires k < |InsertPrice(p, sorted)|
    ensures InsertPrice(p, sorted)[k] == p || InsertPrice(p, sorted)[k] in sorted
    decreases |sorted|
  {
    if sorted != [] && p > sorted[0] && k > 0 {
      InsertPriceMembers(p, sorted[1..], k - 1);
    }
  }

  lemma {:induction false} InsertPriceAscends(p: real, sorted: seq<real>)
    requires Ascending(sorted)
    ensures Ascending(InsertPrice(p, sorted))
    decreases |sorted|
  {
    if sorted != [] && p > sorted[0] {
      var rest, after := sorted[1..], InsertPrice(p, sorted[1..]);
      InsertPriceAscends(p, rest);
      forall i | 0 <= i < |after| ensures sorted[0] <= after[i] {
        InsertPriceMembers(p, rest, i);
      }
      hide InsertPrice;
      Prepended(sorted[0], after);
    }
  }

  lemma {:induction false} Prepended(low: real, xs: seq<real>)
    requires Ascending(xs) && forall i :: 0 <= i < |xs| ==> low <= xs[i]
    ensures Ascending([low] + xs)
  {
  }

  lemma {:induction false} SortedExact(prices: seq<real>)
    ensures Ascending(Sorted(prices)) && multiset(Sorted(prices)) == multiset(prices)
  {
    if prices != [] {
      SortedExact(prices[1..]);
      InsertPriceExact(prices[0], Sorted(prices[1..]));
      InsertPriceAscends(prices[0], Sorted(prices[1..]));
      assert prices == [prices[0]] + prices[1..];
    }
  }

  /** The members of every cluster are in order and positive. */
  lemma {:induction false} ClustersOrdered(clusters: seq<seq<real>>, i: nat)
    requires Ascending(Flatten(clusters)) && AllPositive(Flatten(clusters)) && i < |clusters|
    ensures Ascending(clusters[i]) && AllPositive(clusters[i])
    decreases |clusters|
  {
    var last := |clusters| - 1;
    assert Flatten(clusters) == Flatten(clusters[..last]) + clusters[last];
    OrderedParts(Flatten(clusters[..last]), clusters[last]);
    if i < last {
      hide Flatten, Ascending, AllPositive;
      ClustersOrdered(clusters[..last], i);
    }
  }

  lemma {:induction false} OrderedParts(a: seq<real>, b: seq<real>)
    requires Ascending(a + b) && AllPositive(a + b)
    ensures Ascending(a) && AllPositive(a) && Ascending(b) && AllPositive(b)
  {
    assert forall k :: 0 <= k < |a| ==> a[k] == (a + b)[k];
    assert forall k :: 0 <= k < |b| ==> b[k] == (a + b)[|a| + k];
    forall p | p in a || p in b ensures p > 0.0 {
      assert p in a + b;
    }
  }

  /** A tight cluster in order is itself a group, so the minimum number of groups is attained. */
  lemma {:induction false} TightIsGrouped(c: seq<real>, tolerance: real)
    requires Tight(c, tolerance) && Ascending(c) && AllPositive(c) && tolerance >= 0.0
    ensures Grouped(c, tolerance)
  {
    hide Times, Joins;
    assert c[0] in c;
    forall x, y | x in c && y in c ensures x <= Times(y, 1.0 + tolerance) {
      var i :| 0 <= i < |c| && c[i] == x;
      AtLeastItself(c[0], tolerance);
      if i > 0 {
        JoinsIff(c[0], c[i], tolerance);
      }
      var j :| 0 <= j < |c| && c[j] == y;
      TimesMonotone(c[0], c[j], 1.0 + tolerance);
    }
  }

  /** A sum counts every member once. */
  lemma {:induction false} TotalExact(a: seq<real>, b: seq<real>, x: real)
    ensures Total(a + b) == Total(a) + Total(b) && Total([x]) == x && Total([]) == 0.0
    decreases |b|
  {
    assert [x][..0] == [];
    if b == [] {
      assert a + b == a;
    } else {
      assert (a + b)[..|a + b| - 1] == a + b[..|b| - 1];
      TotalExact(a, b[..|b| - 1], x);
    }
  }

  /**
   * A level is the mean of its own cluster, counts its members, is as strong as its share of the largest cluster,
   * and lies within the tolerance of the cluster's lowest price.
   */
  ghost predicate LevelFor(level: Level, c: seq<real>, most: nat, tolerance: real) {
    && c != [] && most > 0
    && level.touches == |c| && level.price == Total(c) / |c| as real && level.strength == |c| as real / most as real
    && c[0] <= level.price <= Times(c[0], 1.0 + tolerance)
  }

  // --- the order among equally touched levels

  /** Equally touched levels come in ascending order of price, as the stable library sort leaves them. */
  ghost predicate Stable(levels: seq<Level>) {
    forall i, j :: 0 <= i < j < |levels| && levels[i].touches == levels[j].touches ==>
      levels[i].price <= levels[j].price
  }

  lemma {:induction false} InsertStable(level: Level, levels: seq<Level>)
    requires Stable(levels) && Descending(levels) && forall l :: l in levels ==> level.price <= l.price
    ensures Stable(InsertLevel(level, levels))
    decreases |levels|
  {
    if levels != [] && level.touches < levels[0].touches {
      RestPrices(level, levels);
      InsertStable(level, levels[1..]);
      var after := InsertLevel(level, levels[1..]);
      LaterPrices(level, levels);
      hide InsertLevel;
      StableFront(levels[0], after);
    } else {
      StableFirst(level, levels);
    }
  }

  lemma {:induction false} RestPrices(level: Level, levels: seq<Level>)
    requires levels != [] && Stable(levels) && Descending(levels) && forall l :: l in levels ==> level.price <= l.price
    ensures Stable(levels[1..]) && Descending(levels[1..]) && forall l :: l in levels[1..] ==> level.price <= l.price
  {
  }

  lemma {:induction false} LaterPrices(level: Level, levels: seq<Level>)
    requires levels != [] && Stable(levels) && level.touches < levels[0].touches
    ensures var after := InsertLevel(level, levels[1..]);
            forall j :: 0 <= j < |after| && after[j].touches == levels[0].touches ==> levels[0].price <= after[j].price
  {
    var tail, after := levels[1..], InsertLevel(level, levels[1..]);
    InsertLevelKeeps(level, tail);
    hide InsertLevel, Descending, Touches;
    forall j | 0 <= j < |after| && after[j].touches == levels[0].touches ensures levels[0].price <= after[j].price {
      assert after[j] in after;
      var k :| 0 <= k < |tail| && tail[k] == after[j];
      assert levels[k + 1] == tail[k];
    }
  }

  lemma {:induction false} StableFront(level: Level, levels: seq<Level>)
    requires Stable(levels)
    requires forall j :: 0 <= j < |levels| && levels[j].touches == level.touches ==> level.price <= levels[j].price
    ensures Stable([level] + levels)
  {
  }

  lemma {:induction false} StableFirst(level: Level, levels: seq<Level>)
    requires Stable(levels) && forall l :: l in levels ==> level.price <= l.price
    ensures Stable([level] + levels)
  {
    forall j | 0 <= j < |levels| ensures level.price <= levels[j].price {
      assert levels[j] in levels;
    }
    hide Stable;
    StableFront(level, levels);
  }

  lemma {:induction false} LevelsStable(clusters: seq<seq<real>>, most: nat)
    requires forall i, j :: 0 <= i < j < |clusters| ==>
               LevelOf(clusters[i], most).price <= LevelOf(clusters[j], most).price
    ensures Stable(Levels(clusters, most))
    decreases |clusters|
  {
    hide LevelOf, InsertLevel;
    if clusters != [] {
      var tail := clusters[1..];
      LevelsStable(tail, most);
      LevelsFaithful(tail, most);
      var head := LevelOf(clusters[0], most);
      forall l | l in Levels(tail, most) ensures head.price <= l.price {
        var c :| c in tail && l == LevelOf(c, most);
        var k :| 0 <= k < |tail| && tail[k] == c;
        assert clusters[k + 1] == c;
      }
      InsertStable(head, Levels(tail, most));
    }
  }

  /** Members of an earlier cluster are no dearer than members of a later one. */
  lemma {:induction false} ClustersApart(clusters: seq<seq<real>>, i: nat, j: nat)
    requires Ascending(Flatten(clusters)) && i < j < |clusters| && clusters[i] != [] && clusters[j] != []
    ensures clusters[i][|clusters[i]| - 1] <= clusters[j][0]
    decreases |clusters|
  {
    var last := |clusters| - 1;
    var front, flat := Flatten(clusters[..last]), Flatten(clusters);
    if j < last {
      assert forall k :: 0 <= k < |front| ==> front[k] == flat[k];
      ClustersApart(clusters[..last], i, j);
    } else {
      var k := MemberAt(clusters[..last], i, |clusters[i]| - 1);
      assert flat[k] == clusters[i][|clusters[i]| - 1] && flat[|front|] == clusters[j][0];
    }
  }

  /** Where a member of a cluster stands in the flattened list. */
  lemma {:induction false} MemberAt(clusters: seq<seq<real>>, i: nat, m: nat) returns (k: nat)
    requires i < |clusters| && m < |clusters[i]|
    ensures k < |Flatten(clusters)| && Flatten(clusters)[k] == clusters[i][m]
    decreases |clusters|
  {
    var last := |clusters| - 1;
    if i < last {
      k := MemberAt(clusters[..last], i, m);
    } else {
      k := |Flatten(clusters[..last])| + m;
    }
  }

  lemma {:induction false} MeanWithin(c: seq<real>, most: nat)
    requires c != [] && Ascending(c) && most > 0
    ensures c[0] <= LevelOf(c, most).price <= c[|c| - 1]
  {
    var low, high := c[0], c[|c| - 1];
    assert forall i :: 0 <= i < |c| ==> low <= c[i] <= high;
    TotalBetween(c, low, high);
    hide Times;
    AverageBetween(Total(c), |c| as real, low, high);
  }

  lemma {:induction false} OrderedLevels(clusters: seq<seq<real>>, most: nat)
    requires Ascending(Flatten(clusters)) && most > 0 && forall k :: 0 <= k < |clusters| ==> clusters[k] != []
    requires AllPositive(Flatten(clusters))
    ensures Stable(Levels(clusters, most))
  {
    hide Flatten, LevelOf, Levels, Stable, AllPositive;
    forall i, j | 0 <= i < j < |clusters|
      ensures LevelOf(clusters[i], most).price <= LevelOf(clusters[j], most).price
    {
      ClustersOrdered(clusters, i);
      ClustersOrdered(clusters, j);
      hide Ascending;
      ClustersApart(clusters, i, j);
      MeanWithin(clusters[i], most);
      MeanWithin(clusters[j], most);
    }
    LevelsStable(clusters, most);
  }

  /** What the returned levels are, in terms of the prices alone. */
  ghost predicate Faithful(levels: seq<Level>, prices: seq<real>, clusters: seq<seq<real>>, tolerance: real) {
    && multiset(Flatten(clusters)) == multiset(prices) && Ascending(Flatten(clusters))
    && AllGrouped(clusters, tolerance) && |levels| == |clusters| && Stable(levels)
    && (forall groups :: CoversAll(groups, prices) && AllGrouped(groups, tolerance) ==> |levels| <= |groups|)
    && (forall l :: l in levels ==> exists c :: c in clusters && LevelFor(l, c, MaxTouches(clusters), tolerance))
  }

  /**
   * `_cluster`, from unsorted prices to levels: touches add up to the prices, the most touched level comes first
   * with strength one, and, for positive prices, equally touched levels ascend in price and the levels stand for a
   * division of the prices into as few groups
   * within the tolerance as there can be, each level within the tolerance of the lowest price of its group.
   */
  method ClusterLevels(prices: seq<real>, tolerance: real) returns (levels: seq<Level>, ghost clusters: seq<seq<real>>)
    ensures Descending(levels) && Touches(levels) == |prices|
    ensures levels == [] <==> prices == []
    ensures levels != [] ==> levels[0].strength == 1.0 && forall l :: l in levels ==> 0.0 < l.strength <= 1.0
    ensures AllPositive(prices) && tolerance >= 0.0 ==> Faithful(levels, prices, clusters, tolerance)
  {
    var ordered := Sorted(prices);
    SortedExact(prices);
    assert |ordered| == |multiset(ordered)| == |multiset(prices)| == |prices|;
    var found := Cluster(ordered, tolerance);
    clusters := found;
    var most := MaxTouches(found);
    levels := Levels(found, most);
    hide Sorted, Joins, LevelOf, Levels, Flatten;
    LevelsFaithful(found, most);
    SomeCluster(found, ordered, tolerance);
    if found != [] {
      StrongestFirst(found);
    }
    if AllPositive(prices) && tolerance >= 0.0 {
      LevelsMinimal(prices, ordered, found, tolerance, levels);
    }
  }

  lemma {:induction false} SomeCluster(clusters: seq<seq<real>>, prices: seq<real>, tolerance: real)
    requires Separated(clusters, tolerance) && Flatten(clusters) == prices
    ensures clusters == [] <==> prices == []
    ensures forall c :: c in clusters ==> c != []
  {
    NonEmpty(clusters, tolerance);
    if clusters != [] {
      assert clusters[|clusters| - 1] != [];
    }
  }

  lemma {:induction false} LevelsInOrder(clusters: seq<seq<real>>, tolerance: real)
    requires Separated(clusters, tolerance) && Ascending(Flatten(clusters)) && AllPositive(Flatten(clusters))
    ensures Stable(Levels(clusters, MaxTouches(clusters)))
  {
    NonEmpty(clusters, tolerance);
    hide Flatten, Ascending, AllPositive, Separated;
    if clusters != [] {
      OrderedLevels(clusters, MaxTouches(clusters));
    }
  }

  lemma {:induction false} LevelsMinimal(
    prices: seq<real>, ordered: seq<real>, clusters: seq<seq<real>>, tolerance: real, levels: seq<Level>)
    requires multiset(ordered) == multiset(prices) && Ascending(ordered) && AllPositive(prices) && tolerance >= 0.0
    requires Flatten(clusters) == ordered && Separated(clusters, tolerance)
    requires levels == Levels(clusters, MaxTouches(clusters))
    ensures Faithful(levels, prices, clusters, tolerance)
  {
    var most := MaxTouches(clusters);
    SameMembers(ordered, prices);
    assert AllPositive(ordered);
    LevelsFaithful(clusters, most);
    LevelsInOrder(clusters, tolerance);
    hide Levels, Flatten, Joins, Times, MaxTouches, Stable;
    forall groups | CoversAll(groups, prices) && AllGrouped(groups, tolerance) ensures |levels| <= |groups| {
      assert CoversAll(groups, ordered);
      hide CoversAll, AllGrouped, Separated, Ascending;
      ClusteringMinimal(clusters, tolerance, groups);
    }
    forall i | 0 <= i < |clusters|
      ensures Grouped(clusters[i], tolerance) && LevelFor(LevelOf(clusters[i], most), clusters[i], most, tolerance)
    {
      ClusterFaithful(clusters, tolerance, i);
    }
    hide Separated, LevelFor, Grouped, LevelOf;
  }

  lemma {:induction false} ClusterFaithful(clusters: seq<seq<real>>, tolerance: real, i: nat)
    requires Ascending(Flatten(clusters)) && AllPositive(Flatten(clusters)) && Separated(clusters, tolerance)
    requires tolerance >= 0.0 && i < |clusters|
    ensures Grouped(clusters[i], tolerance)
    ensures LevelFor(LevelOf(clusters[i], MaxTouches(clusters)), clusters[i], MaxTouches(clusters), tolerance)
  {
    var most := MaxTouches(clusters);
    var level := LevelOf(clusters[i], most);
    assert Tight(clusters[i], tolerance) && |clusters[i]| <= most;
    assert level.touches == |clusters[i]| && level.strength == |clusters[i]| as real / most as real;
    assert level.price == Total(clusters[i]) / |clusters[i]| as real;
    hide Flatten, Joins, Times, MaxTouches, Grouped, LevelOf, Total;
    ClustersOrdered(clusters, i);
    assert clusters[i][0] in clusters[i];
    TightIsGrouped(clusters[i], tolerance);
    LevelPriceBounded(clusters[i], tolerance, most);
  }

  lemma {:induction false} SameMembers(a: seq<real>, b: seq<real>)
    requires multiset(a) == multiset(b)
    ensures forall p :: p in a <==> p in b
  {
    forall p ensures p in a <==> p in b {
      assert p in multiset(a) <==> p in multiset(b);
    }
  }
}
