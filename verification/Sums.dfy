/** Totals over finite maps: what a SQL `SUM` over a set of rows returns. */
module Sums {

  /** The total of all values of `m`; the order of summation is unobservable (`SumRemove`). */
  ghost function Sum<K(!new)>(m: map<K, real>): real
    decreases |m|
  {
    if m == map[] then 0.0
    else
      var k :| k in m;
      m[k] + Sum(m - {k})
  }

  lemma {:induction false} SumRemove<K(!new)>(m: map<K, real>, k: K)
    requires k in m
    ensures Sum(m) == m[k] + Sum(m - {k})
    decreases |m|
  {
    var c :| c in m && Sum(m) == m[c] + Sum(m - {c});
    if c != k {
      SumRemove(m - {c}, k);
      SumRemove(m - {k}, c);
      assert m - {c} - {k} == m - {k} - {c};
    }
  }

  lemma SumInsert<K(!new)>(m: map<K, real>, k: K, v: real)
    requires k !in m
    ensures Sum(m[k := v]) == v + Sum(m)
  {
    SumRemove(m[k := v], k);
    assert m[k := v] - {k} == m;
  }

  /** Pointwise dominated maps have dominated totals. */
  lemma {:induction false} SumMonotone<K(!new)>(m: map<K, real>, n: map<K, real>)
    requires m.Keys == n.Keys
    requires forall k :: k in m ==> m[k] <= n[k]
    ensures Sum(m) <= Sum(n)
    decreases |m|
  {
    if m == map[] {
      assert n == map[];
    } else {
      var k :| k in m;
      SumRemove(m, k);
      SumRemove(n, k);
      SumMonotone(m - {k}, n - {k});
    }
  }

  lemma {:induction false} SumNonNegative<K(!new)>(m: map<K, real>)
    requires forall k :: k in m ==> m[k] >= 0.0
    ensures Sum(m) >= 0.0
    decreases |m|
  {
    if m != map[] {
      var k :| k in m;
      SumRemove(m, k);
      SumNonNegative(m - {k});
    }
  }

  /** A total of nonnegative values is at least each of them. */
  lemma SumAtLeast<K(!new)>(m: map<K, real>, k: K)
    requires forall j :: j in m ==> m[j] >= 0.0
    requires k in m
    ensures Sum(m) >= m[k]
  {
    SumRemove(m, k);
    SumNonNegative(m - {k});
  }

  /** A pointwise sum of two maps totals both. */
  lemma {:induction false} SumPointwise<K(!new)>(whole: map<K, real>, m: map<K, real>, n: map<K, real>)
    requires whole.Keys == m.Keys == n.Keys
    requires forall k :: k in whole ==> whole[k] == m[k] + n[k]
    ensures Sum(whole) == Sum(m) + Sum(n)
    decreases |whole|
  {
    if whole == map[] {
      assert m == map[] && n == map[];
    } else {
      var k :| k in whole;
      SumRemove(whole, k);
      SumRemove(m, k);
      SumRemove(n, k);
      SumPointwise(whole - {k}, m - {k}, n - {k});
    }
  }

  /** `m` and `n` are the two parts of `whole`. */
  ghost predicate Splits<K(!new)>(whole: map<K, real>, m: map<K, real>, n: map<K, real>) {
    && (forall k :: k in whole <==> k in m || k in n)
    && (forall k :: k in m ==> k !in n && k in whole && whole[k] == m[k])
    && (forall k :: k in n ==> k in whole && whole[k] == n[k])
  }

  lemma SplitsRemove<K(!new)>(whole: map<K, real>, m: map<K, real>, n: map<K, real>, k: K)
    requires Splits(whole, m, n) && k in n
    ensures k in whole && whole[k] == n[k]
    ensures Splits(whole - {k}, m, n - {k})
  {
  }

  /** A map split by its keys into two parts totals the two parts. */
  lemma {:induction false} SumSplit<K(!new)>(whole: map<K, real>, m: map<K, real>, n: map<K, real>)
    requires Splits(whole, m, n)
    ensures Sum(whole) == Sum(m) + Sum(n)
    decreases |n|
  {
    if n == map[] {
      assert whole == m;
    } else {
      var k :| k in n;
      hide Splits, Sum;
      SplitsRemove(whole, m, n, k);
      SumSplit(whole - {k}, m, n - {k});
      SumRemove(n, k);
      SumRemove(whole, k);
    }
  }

  /** Exact multiplication, named so that proofs can treat products as atoms. */
  function Times(x: real, rate: real): real {
    x * rate
  }

  lemma TimesMonotone(a: real, b: real, rate: real)
    requires a <= b && 0.0 <= rate
    ensures Times(a, rate) <= Times(b, rate)
    ensures Times(0.0, rate) == 0.0
  {
    assert (b - a) * rate >= 0.0;
  }

  lemma TimesAdd(a: real, b: real, rate: real)
    ensures Times(a + b, rate) == Times(a, rate) + Times(b, rate)
  {
  }

  lemma {:induction false} TimesOrder(a: real, b: real, rate: real)
    requires rate > 0.0
    ensures Times(a, rate) <= Times(b, rate) <==> a <= b
    ensures Times(a - b, rate) == Times(a, rate) - Times(b, rate)
  {
    assert (a - b) * rate == a * rate - b * rate;
    if a <= b {
      assert (b - a) * rate >= 0.0;
    } else {
      assert (a - b) * rate > 0.0;
    }
  }

  lemma TimesScale(a: real, rate: real, unit: real)
    requires unit > 0.0
    ensures Times(a, rate / unit) == Times(a, rate) / unit
  {
    var q := rate / unit;
    assert q * unit == rate;
    assert a * q * unit == a * rate;
  }

  lemma TimesNonNegative(a: real, rate: real)
    requires 0.0 <= a && 0.0 <= rate
    ensures 0.0 <= Times(a, rate)
  {
  }

  /** A total is at most the number of values times a bound on each. */
  lemma {:induction false} SumBounded<K(!new)>(m: map<K, real>, bound: real)
    requires forall k :: k in m ==> m[k] <= bound
    ensures Sum(m) <= Times(|m| as real, bound)
    decreases |m|
  {
    if m == map[] {
      assert Times(0.0, bound) == 0.0;
    } else {
      var k :| k in m;
      SumRemove(m, k);
      SumBounded(m - {k}, bound);
      var n := |m - {k}|;
      assert |m| == n + 1;
      hide Sum;
      TimesAdd(n as real, 1.0, bound);
    }
  }

  /** A set that injects into the elements of a sequence is no larger than the sequence. */
  lemma {:induction false} CardinalityAtMostLength<T>(s: set<T>, xs: seq<T>)
    requires forall x :: x in s ==> x in xs
    ensures |s| <= |xs|
    decreases |xs|
  {
    if xs == [] {
      assert s == {};
    } else {
      var last := xs[|xs| - 1];
      forall x | x in s - {last} ensures x in xs[..|xs| - 1] {
        var i :| 0 <= i < |xs| && xs[i] == x;
        assert xs[..|xs| - 1][i] == x;
      }
      CardinalityAtMostLength(s - {last}, xs[..|xs| - 1]);
      assert |s| <= |s - {last}| + 1;
    }
  }

  /** A subset is no larger than its superset. */
  lemma {:induction false} CardinalityMonotone<T>(s: set<T>, t: set<T>)
    requires s <= t
    ensures |s| <= |t|
  {
    assert t == s + (t - s);
    assert s !! (t - s);
  }
}
