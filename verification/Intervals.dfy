/** The union of native operation intervals: one sweep over a sorted copy counts the covered nanoseconds exactly. */
module Intervals {
  import opened Common
  import Sorting

  const U128_LIMIT: int := 0x1_0000_0000_0000_0000_0000_0000_0000_0000

  type U128 = n: int | 0 <= n < U128_LIMIT

  /** A pair (start, end) of a Vec<(u128, u128)>. */
  datatype Interval = Interval(start: U128, end: U128)

  function CheckedAdd(a: U128, b: U128): Option<U128> {
    if a + b < U128_LIMIT then Some(a + b) else None
  }

  // ---------------------------------------------------------------- specification

  predicate Forward(iv: Interval) {
    iv.start <= iv.end
  }

  predicate WellFormed(s: seq<Interval>) {
    forall i | 0 <= i < |s| :: Forward(s[i])
  }

  predicate Inside(a: int, x: int, b: int) {
    a <= x < b
  }

  ghost function Range(a: int, b: int): set<int> {
    set x | a <= x < b && Inside(a, x, b)
  }

  /** The integer points that some interval covers. */
  ghost function Covered(s: seq<Interval>): set<int> {
    set iv, x | iv in s && iv.start <= x < iv.end && Inside(iv.start, x, iv.end) :: x
  }

  /** All intervals start at `lo` or later and end at `hi` or earlier. */
  ghost predicate Within(s: seq<Interval>, lo: int, hi: int) {
    forall iv | iv in s :: lo <= iv.start && iv.end <= hi
  }

  function SumLengths(s: seq<Interval>): int {
    if s == [] then 0 else SumLengths(s[..|s| - 1]) + (s[|s| - 1].end - s[|s| - 1].start)
  }

  // ---------------------------------------------------------------- the sorted copy

  /** The order of pairs that `sort_unstable` uses. */
  predicate Leq(a: Interval, b: Interval) {
    a.start < b.start || (a.start == b.start && a.end <= b.end)
  }

  function SortedCopy(s: seq<Interval>): (r: seq<Interval>)
    ensures multiset(r) == multiset(s)
  {
    Sorting.SortedCopySorts(s, Leq);
    Sorting.SortedCopy(s, Leq)
  }

  lemma SortedCopySame(s: seq<Interval>)
    ensures Covered(SortedCopy(s)) == Covered(s)
    ensures WellFormed(SortedCopy(s)) <==> WellFormed(s)
    ensures |SortedCopy(s)| == |s| && Sorting.Sorted(SortedCopy(s), Leq)
  {
    Sorting.SortedCopySorts(s, Leq);
    var r := SortedCopy(s);
    assert |multiset(r)| == |multiset(s)|;
    forall iv ensures iv in r <==> iv in s {
      assert iv in r <==> iv in multiset(r);
      assert iv in s <==> iv in multiset(s);
    }
    if WellFormed(s) {
      forall i | 0 <= i < |r| ensures Forward(r[i]) { assert r[i] in s; }
    }
    if WellFormed(r) {
      forall i | 0 <= i < |s| ensures Forward(s[i]) { assert s[i] in r; }
    }
  }

  // ---------------------------------------------------------------- sizes

  lemma {:induction false} RangeSize(a: int, b: int)
    requires a <= b
    ensures |Range(a, b)| == b - a
    decreases b - a
  {
    if a == b {
    } else {
      RangeSize(a, b - 1);
      assert Range(a, b) == Range(a, b - 1) + {b - 1};
    }
  }

  lemma CoveredGrows(s: seq<Interval>, k: nat)
    requires k < |s|
    ensures Covered(s[..k + 1]) == Covered(s[..k]) + Range(s[k].start, s[k].end)
  {
    assert s[..k + 1] == s[..k] + [s[k]];
  }

  lemma {:induction false} CoveredAtMostSum(s: seq<Interval>)
    requires WellFormed(s)
    ensures |Covered(s)| <= SumLengths(s)
  {
    if s == [] {
    } else {
      var n := |s| - 1;
      CoveredAtMostSum(s[..n]);
      CoveredGrows(s, n);
      assert s[..n + 1] == s;
      RangeSize(s[n].start, s[n].end);
      assert |Covered(s[..n]) + Range(s[n].start, s[n].end)| <= |Covered(s[..n])| + |Range(s[n].start, s[n].end)|;
    }
  }

  // ---------------------------------------------------------------- the sweep

  /** What the sweep has finished counting: `total` points, all of them from `first` on and below `start`. */
  ghost predicate Counted(below: set<int>, first: int, start: int, total: int) {
    && first <= start
    && (forall x | x in below :: first <= x < start)
    && total == |below| && total <= start - first
  }

  lemma MergedRange(start: int, end: int, iv: Interval)
    requires start <= iv.start <= end && iv.start <= iv.end
    ensures Range(start, end) + Range(iv.start, iv.end) == Range(start, Max(end, iv.end))
  {}

  lemma CountRange(below: set<int>, first: int, start: int, end: int, total: int)
    requires Counted(below, first, start, total) && start <= end
    ensures Counted(below + Range(start, end), first, end, total + (end - start))
  {
    RangeSize(start, end);
    assert below !! Range(start, end);
  }

  lemma CountLater(below: set<int>, first: int, start: int, later: int, total: int)
    requires Counted(below, first, start, total) && start <= later
    ensures Counted(below, first, later, total)
  {}

  /** One turn of the sweep, on the covered points. */
  lemma Turn(sorted: seq<Interval>, k: nat, below: set<int>, first: int, start: int, end: int, total: int)
    requires 1 <= k < |sorted| && start <= sorted[k].start <= sorted[k].end && start <= end
    requires Covered(sorted[..k]) == below + Range(start, end) && Counted(below, first, start, total)
    ensures var next, all := sorted[k], below + Range(start, end);
            if next.start <= end then Covered(sorted[..k + 1]) == below + Range(start, Max(end, next.end))
            else && Covered(sorted[..k + 1]) == all + Range(next.start, next.end)
                 && Counted(all, first, next.start, total + (end - start))
  {
    CoveredGrows(sorted, k);
    if sorted[k].start <= end {
      MergedRange(start, end, sorted[k]);
      Associates(below, Range(start, end), Range(sorted[k].start, sorted[k].end));
    } else {
      CountRange(below, first, start, end, total);
      CountLater(below + Range(start, end), first, end, sorted[k].start, total + (end - start));
    }
  }

  lemma Associates(a: set<int>, b: set<int>, c: set<int>)
    ensures a + b + c == a + (b + c)
  {}

  /** Element k does not start before its predecessor. */
  predicate Follows(s: seq<Interval>, k: nat)
    requires 1 <= k < |s|
  {
    s[k - 1].start <= s[k].start
  }

  predicate AllForward(s: seq<Interval>, k: nat)
    requires k <= |s|
  {
    k == 0 || (Forward(s[k - 1]) && AllForward(s, k - 1))
  }

  lemma {:induction false} AllForwardWellFormed(s: seq<Interval>, k: nat)
    requires k <= |s|
    ensures AllForward(s, k) <==> WellFormed(s[..k])
  {
    if k == 0 {
    } else {
      AllForwardWellFormed(s, k - 1);
      assert s[..k] == s[..k - 1] + [s[k - 1]];
    }
  }

  lemma {:induction false} ForwardPrefix(s: seq<Interval>, k: nat, n: nat)
    requires k <= n <= |s|
    ensures AllForward(s, n) ==> AllForward(s, k)
    decreases n
  {
    if k == n {
    } else {
      ForwardPrefix(s, k, n - 1);
    }
  }

  /** `to_vec` and `sort_unstable` */
  method SortUnstable(intervals: seq<Interval>) returns (sorted: seq<Interval>)
    ensures |sorted| == |intervals| && forall k | 1 <= k < |sorted| :: Follows(sorted, k)
    ensures Covered(sorted) == Covered(intervals) && (WellFormed(sorted) <==> WellFormed(intervals))
  {
    SortedCopySame(intervals);
    sorted := SortedCopy(intervals);
    forall k | 1 <= k < |sorted| ensures Follows(sorted, k) { assert Leq(sorted[k - 1], sorted[k]); }
  }

  /** Where the sweep stands: the open range `start..end`, and the points counted before it. */
  datatype Cursor = Cursor(start: int, end: int, total: int)

  /** The sweep after the first k intervals. */
  ghost function SweepTo(s: seq<Interval>, k: nat): Cursor
    requires 1 <= k <= |s|
  {
    if k == 1 then Cursor(s[0].start, s[0].end, 0)
    else
      var c, next := SweepTo(s, k - 1), s[k - 1];
      if next.start <= c.end then c.(end := Max(c.end, next.end))
      else Cursor(next.start, next.end, c.total + (c.end - c.start))
  }

  /** The sweep has counted exactly the covered points below its open range. */
  lemma {:induction false} SweepCounts(s: seq<Interval>, k: nat) returns (below: set<int>)
    requires 1 <= k <= |s| && AllForward(s, k) && forall i | 1 <= i < |s| :: Follows(s, i)
    ensures var c := SweepTo(s, k);
            && c.start <= c.end && c.start <= s[k - 1].start
            && Covered(s[..k]) == below + Range(c.start, c.end) && Counted(below, s[0].start, c.start, c.total)
  {
    if k == 1 {
      SweepStarts(s);
      below := {};
    } else {
      below := SweepCounts(s, k - 1);
      var c := SweepTo(s, k - 1);
      assert Follows(s, k - 1);
      Turn(s, k - 1, below, s[0].start, c.start, c.end, c.total);
      if s[k - 1].start > c.end { below := below + Range(c.start, c.end); }
    }
  }

  /** The number of covered points, and why no checked addition can fail. */
  lemma SweepTotal(s: seq<Interval>, k: nat)
    requires 1 <= k <= |s| && AllForward(s, k) && forall i | 1 <= i < |s| :: Follows(s, i)
    ensures var c := SweepTo(s, k);
            c.start <= c.end && 0 <= c.total && |Covered(s[..k])| == c.total + (c.end - c.start) <= c.end
  {
    var below := SweepCounts(s, k);
    var c := SweepTo(s, k);
    CountRange(below, s[0].start, c.start, c.end, c.total);
  }

  /** The sweep over the sorted copy. */
  method Sweep(sorted: seq<Interval>) returns (r: Option<U128>)
    requires forall k | 1 <= k < |sorted| :: Follows(sorted, k)
    ensures r.None? <==> sorted == [] || !AllForward(sorted, |sorted|)
    ensures r.Some? ==> r.value == |Covered(sorted)|
  {
    if sorted == [] { return None; }
    var start: U128, end: U128 := sorted[0].start, sorted[0].end;
    if end < start {
      ForwardPrefix(sorted, 1, |sorted|);
      return None;
    }
    var total: U128 := 0;
    for k := 1 to |sorted|
      invariant AllForward(sorted, k) && SweepTo(sorted, k) == Cursor(start, end, total)
    {
      var next := sorted[k];
      if next.end < next.start {
        ForwardPrefix(sorted, k + 1, |sorted|);
        return None;
      }
      SweepTotal(sorted, k);
      if next.start <= end {
        end := if end < next.end then next.end else end;
      } else {
        var sum := CheckedAdd(total, end - start);
        if sum.None? { return None; }
        total, start, end := sum.value, next.start, next.end;
      }
    }
    assert sorted[..|sorted|] == sorted;
    SweepTotal(sorted, |sorted|);
    r := CheckedAdd(total, end - start);
  }

  /**
   Nothing for an empty list or a reversed interval; otherwise exactly the number of covered points, whatever the
   order, nesting or duplication of the intervals. The checked additions never fail.
   */
  method IntervalUnionNs(intervals: seq<Interval>) returns (r: Option<U128>)
    ensures r.None? <==> intervals == [] || !WellFormed(intervals)
    ensures r.Some? ==> r.value == |Covered(intervals)|
  {
    var sorted := SortUnstable(intervals);
    AllForwardWellFormed(sorted, |sorted|);
    assert sorted[..|sorted|] == sorted;
    r := Sweep(sorted);
  }

  /** The union is at most the sum of the lengths, and at most the span from the first start to the last end. */
  lemma UnionBounds(s: seq<Interval>)
    requires s != [] && WellFormed(s)
    ensures |Covered(s)| <= SumLengths(s)
    ensures forall lo, hi | Within(s, lo, hi) :: |Covered(s)| <= hi - lo
  {
    CoveredAtMostSum(s);
    CoveredWithin(s);
  }

  lemma SweepStarts(s: seq<Interval>)
    requires s != [] && s[0].start <= s[0].end
    ensures Covered(s[..1]) == {} + Range(s[0].start, s[0].end) && Counted({}, s[0].start, s[0].start, 0)
  {
    CoveredGrows(s, 0);
    assert Covered(s[..0]) == {};
  }

  /** The covered points lie between any lower bound of the starts and any upper bound of the ends. */
  lemma CoveredWithin(s: seq<Interval>)
    requires s != [] && WellFormed(s)
    ensures forall lo, hi | Within(s, lo, hi) :: |Covered(s)| <= hi - lo
  {
    forall lo, hi | Within(s, lo, hi) ensures |Covered(s)| <= hi - lo {
      assert lo <= s[0].start <= s[0].end <= hi;
      RangeSize(lo, hi);
      assert Covered(s) <= Range(lo, hi);
      SubsetSize(Covered(s), Range(lo, hi));
    }
  }

  lemma {:induction false} SubsetSize(a: set<int>, b: set<int>)
    requires a <= b
    ensures |a| <= |b|
  {
    assert b == a + (b - a);
  }
}
