/** Nearest-rank percentiles of the transport benchmark's samples. */
module Percentile {
  import opened Arithmetic
  import opened Common
  import Sorting

  predicate Sorted(s: seq<real>) {
    forall i, j | 0 <= i < j < |s| :: s[i] <= s[j]
  }

  predicate Ascending(left: real, right: real) {
    left <= right
  }

  /** `[...values].sort((left, right) => left - right)` */
  function SortedCopy(values: seq<real>): seq<real> {
    Sorting.SortedCopy(values, Ascending)
  }

  function Ceil(x: real): int {
    -(-x).Floor
  }

  /** The nearest rank: the smallest number of samples that make up the percentage. */
  function NearestRank(n: nat, rank: real): int {
    Ceil(rank / 100.0 * n as real)
  }

  /** The index of the nearest rank, kept within the list. */
  function Index(n: nat, rank: real): (i: nat)
    requires n > 0
    ensures i < n
  {
    Min(n - 1, Max(0, NearestRank(n, rank) - 1))
  }

  function Percentile(values: seq<real>, rank: real): real {
    if values == [] then 0.0 else SortedCopySorts(values); SortedCopy(values)[Index(|values|, rank)]
  }

  function AtMost(values: seq<real>, v: real): nat {
    if values == [] then 0 else (if values[0] <= v then 1 else 0) + AtMost(values[1..], v)
  }

  function AtLeast(values: seq<real>, v: real): nat {
    if values == [] then 0 else (if values[0] >= v then 1 else 0) + AtLeast(values[1..], v)
  }

  lemma {:induction false} InsertCounts(x: real, s: seq<real>, v: real)
    ensures AtMost(Sorting.Insert(x, s, Ascending), v) == AtMost([x] + s, v)
    ensures AtLeast(Sorting.Insert(x, s, Ascending), v) == AtLeast([x] + s, v)
  {
    assert ([x] + s)[1..] == s;
    if s == [] || x <= s[0] {
    } else {
      InsertCounts(x, s[1..], v);
      assert ([x] + s[1..])[1..] == s[1..];
    }
  }

  lemma SortedCopySorts(values: seq<real>)
    ensures Sorted(SortedCopy(values)) && |SortedCopy(values)| == |values|
            && multiset(SortedCopy(values)) == multiset(values)
  {
    Sorting.SortedCopySorts(values, Ascending);
    forall i, j | 0 <= i < j < |values| ensures SortedCopy(values)[i] <= SortedCopy(values)[j] {
      assert Ascending(SortedCopy(values)[i], SortedCopy(values)[j]);
    }
  }

  /** Counting does not depend on the order. */
  lemma {:induction false} SortedCopyCounts(values: seq<real>, v: real)
    ensures AtMost(SortedCopy(values), v) == AtMost(values, v) && AtLeast(SortedCopy(values), v) == AtLeast(values, v)
  {
    if values == [] {
    } else {
      SortedCopyCounts(values[1..], v);
      InsertCounts(values[0], SortedCopy(values[1..]), v);
      assert ([values[0]] + SortedCopy(values[1..]))[1..] == SortedCopy(values[1..]);
    }
  }

  /** In a sorted list, i + 1 values are at most the i-th one, and all from the i-th one on are at least it. */
  lemma {:induction false} CountsInSorted(s: seq<real>, i: nat, v: real)
    requires Sorted(s) && i < |s|
    ensures s[i] <= v ==> AtMost(s, v) >= i + 1
    ensures s[i] >= v ==> AtLeast(s, v) >= |s| - i
  {
    if i > 0 {
      CountsInSorted(s[1..], i - 1, v);
    } else if s[0] >= v && |s| > 1 {
      CountsInSorted(s[1..], 0, v);
    }
  }

  /** No value is both at most w and at least a larger v. */
  lemma {:induction false} CountsApart(values: seq<real>, w: real, v: real)
    requires w < v
    ensures AtMost(values, w) + AtLeast(values, v) <= |values|
  {
    if values == [] {
    } else {
      CountsApart(values[1..], w, v);
    }
  }

  /** At least k values are at most v, and at least n - k + 1 are at least v. */
  predicate HasRank(values: seq<real>, k: nat, v: real) {
    AtMost(values, v) >= k && AtLeast(values, v) >= |values| - k + 1
  }

  lemma RankInRange(n: nat, rank: real)
    requires n > 0 && 0.0 < rank <= 100.0
    ensures 1 <= NearestRank(n, rank) <= n
  {
    var part := rank / 100.0;
    ScaleReal(part, 1.0, n as real);
    Positive(part, n as real);
    CeilBounds(part * n as real, n);
  }

  lemma Positive(a: real, b: real)
    requires a > 0.0 && b > 0.0
    ensures a * b > 0.0
  {
  }

  lemma CeilBounds(x: real, n: nat)
    requires 0.0 < x <= n as real
    ensures 1 <= Ceil(x) <= n
  {
  }

  /**
   The percentile is a sample, and it is the one number with at least ceil(p n / 100) samples at or below it and at
   least n - ceil(p n / 100) + 1 at or above it.
   */
  lemma PercentileIsTheRank(values: seq<real>, rank: real, v: real)
    requires values != [] && 0.0 < rank <= 100.0
    ensures NearestRank(|values|, rank) >= 0 && Percentile(values, rank) in values
    ensures v == Percentile(values, rank) <==> HasRank(values, NearestRank(|values|, rank), v)
  {
    RankInRange(|values|, rank);
    NthIsTheRank(values, NearestRank(|values|, rank), v);
  }

  /** At least that percentage of the samples is at most v, and more than the rest of them is at least v. */
  predicate Splits(values: seq<real>, rank: real, v: real) {
    && AtMost(values, v) as real * 100.0 >= rank * |values| as real
    && AtLeast(values, v) as real * 100.0 > (100.0 - rank) * |values| as real
  }

  lemma CeilIsLeast(x: real, n: int)
    ensures n as real >= x <==> n >= Ceil(x)
    ensures n as real > -x <==> n >= 1 - Ceil(x)
  {
  }

  lemma SplitsAtRank(values: seq<real>, rank: real, v: real)
    ensures Splits(values, rank, v) <==>
            && AtMost(values, v) >= NearestRank(|values|, rank)
            && AtLeast(values, v) >= |values| - NearestRank(|values|, rank) + 1
  {
    var x := rank / 100.0 * |values| as real;
    assert rank * |values| as real == x * 100.0;
    assert (100.0 - rank) * |values| as real == (|values| as real - x) * 100.0;
    CeilIsLeast(x, AtMost(values, v));
    CeilIsLeast(x, AtLeast(values, v) - |values|);
  }

  /** Without ranks: the percentile is the one number that splits the samples like that. */
  lemma PercentileSplits(values: seq<real>, rank: real, v: real)
    requires values != [] && 0.0 < rank <= 100.0
    ensures v == Percentile(values, rank) <==> Splits(values, rank, v)
  {
    PercentileIsTheRank(values, rank, v);
    SplitsAtRank(values, rank, v);
  }

  lemma SplitsAnyway(values: seq<real>, rank: real)
    requires 0.0 < rank <= 100.0
    ensures values != [] ==> Splits(values, rank, Percentile(values, rank))
  {
    if values != [] { PercentileSplits(values, rank, Percentile(values, rank)); }
  }

  lemma NthIsTheRank(values: seq<real>, k: nat, v: real)
    requires 1 <= k <= |values|
    ensures |SortedCopy(values)| == |values| && SortedCopy(values)[k - 1] in values
    ensures v == SortedCopy(values)[k - 1] <==> HasRank(values, k, v)
  {
    SortedCopySorts(values);
    assert SortedCopy(values)[k - 1] in multiset(SortedCopy(values));
    NthHasRank(values, k);
    if HasRank(values, k, v) { RankIsUnique(values, k, v, SortedCopy(values)[k - 1]); }
  }

  lemma NthHasRank(values: seq<real>, k: nat)
    requires 1 <= k <= |values| == |SortedCopy(values)|
    ensures HasRank(values, k, SortedCopy(values)[k - 1])
  {
    var s := SortedCopy(values);
    SortedCopySorts(values);
    CountsInSorted(s, k - 1, s[k - 1]);
    SortedCopyCounts(values, s[k - 1]);
  }

  lemma RankIsUnique(values: seq<real>, k: nat, v: real, w: real)
    requires HasRank(values, k, v) && HasRank(values, k, w)
    ensures v == w
  {
    if v < w { CountsApart(values, v, w); } else if w < v { CountsApart(values, w, v); }
  }

  /** It does not depend on the order of the samples. */
  lemma PercentilePermuted(a: seq<real>, b: seq<real>, rank: real)
    requires multiset(a) == multiset(b)
    ensures Percentile(a, rank) == Percentile(b, rank)
  {
    assert |a| == |multiset(a)| == |multiset(b)| == |b|;
    SortedCopySorts(a);
    SortedCopySorts(b);
    SortedIsUnique(SortedCopy(a), SortedCopy(b));
  }

  lemma FirstIsLeast(a: seq<real>, b: seq<real>)
    requires Sorted(a) && multiset(a) == multiset(b) && b != [] && a != []
    ensures a[0] <= b[0]
  {
    assert b[0] in multiset(b) && b[0] in multiset(a);
  }

  lemma {:induction false} SortedIsUnique(a: seq<real>, b: seq<real>)
    requires Sorted(a) && Sorted(b) && multiset(a) == multiset(b)
    ensures a == b
  {
    assert |a| == |multiset(a)| == |multiset(b)| == |b|;
    if a == [] {
    } else {
      FirstIsLeast(a, b);
      FirstIsLeast(b, a);
      assert a == [a[0]] + a[1..] && b == [b[0]] + b[1..];
      assert multiset(a[1..]) == multiset(a) - multiset{a[0]} && multiset(b[1..]) == multiset(b) - multiset{b[0]};
      SortedIsUnique(a[1..], b[1..]);
    }
  }

  /** It grows with the rank, also outside 0 to 100. */
  lemma PercentileGrows(values: seq<real>, rank: real, rank': real)
    requires rank <= rank'
    ensures Percentile(values, rank) <= Percentile(values, rank')
  {
    if values != [] {
      SortedCopySorts(values);
      IndexGrows(|values|, rank, rank');
    }
  }

  lemma IndexGrows(n: nat, rank: real, rank': real)
    requires n > 0 && rank <= rank'
    ensures Index(n, rank) <= Index(n, rank')
  {
    var part, part' := rank / 100.0, rank' / 100.0;
    ScaleReal(part, part', n as real);
    FloorGrows(-(part' * n as real), -(part * n as real));
  }

  lemma FloorGrows(a: real, b: real)
    requires a <= b
    ensures a.Floor <= b.Floor
  {
  }

  /** `Math.max(...values)`, or 0 when there are none. */
  function Maximum(values: seq<real>): (m: real)
    ensures values != [] ==> m in values && forall x | x in values :: x <= m
  {
    if values == [] then 0.0
    else if |values| == 1 then values[0]
    else
      var m := Maximum(values[1..]);
      assert values == [values[0]] + values[1..];
      if values[0] > m then values[0] else m
  }

  datatype Summary = Summary(p50: real, p95: real, max: real)

  /**
   `summarizeStage`: the median, the 95th percentile and the greatest sample, in this order; and zeros when there are no
   samples.
   */
  function SummarizeStage(values: seq<real>): (summary: Summary)
    ensures summary.p50 <= summary.p95 <= summary.max
    ensures summary.max == Percentile(values, 100.0)
    ensures values == [] ==> summary == Summary(0.0, 0.0, 0.0)
    ensures values != [] ==> Splits(values, 50.0, summary.p50) && Splits(values, 95.0, summary.p95)
    ensures values != [] ==> summary.max in values && forall x | x in values :: x <= summary.max
  {
    SplitsAnyway(values, 50.0);
    SplitsAnyway(values, 95.0);
    PercentileGrows(values, 50.0, 95.0);
    PercentileGrows(values, 95.0, 100.0);
    HundredthIsMaximum(values);
    Summary(Percentile(values, 50.0), Percentile(values, 95.0), Maximum(values))
  }

  lemma LastIsGreatest(s: seq<real>, values: seq<real>, m: real)
    requires Sorted(s) && multiset(s) == multiset(values) && s != []
    requires m in values && forall x | x in values :: x <= m
    ensures s[|s| - 1] == m
  {
    assert m in multiset(values) && m in multiset(s);
    var i :| 0 <= i < |s| && s[i] == m;
    assert s[|s| - 1] in multiset(s) && s[|s| - 1] in values;
  }

  lemma HundredthIsMaximum(values: seq<real>)
    ensures Percentile(values, 100.0) == Maximum(values)
  {
    if values != [] {
      var s := SortedCopy(values);
      SortedCopySorts(values);
      var n := |values| as real;
      assert 100.0 / 100.0 * n == n && Ceil(n) == |values|;
      assert Index(|values|, 100.0) == |values| - 1;
      LastIsGreatest(s, values, Maximum(values));
    }
  }
}
