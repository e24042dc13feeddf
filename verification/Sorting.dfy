/** Sorted copies, for any total order. */
module Sorting {

  ghost predicate IsOrder<T(!new)>(leq: (T, T) -> bool) {
    && (forall a, b :: leq(a, b) || leq(b, a))
    && (forall a, b, c :: leq(a, b) && leq(b, c) ==> leq(a, c))
  }

  ghost predicate Sorted<T>(s: seq<T>, leq: (T, T) -> bool) {
    forall i, j | 0 <= i < j < |s| :: leq(s[i], s[j])
  }

  function Insert<T>(x: T, s: seq<T>, leq: (T, T) -> bool): seq<T> {
    if s == [] || leq(x, s[0]) then [x] + s else [s[0]] + Insert(x, s[1..], leq)
  }

  function SortedCopy<T>(s: seq<T>, leq: (T, T) -> bool): seq<T> {
    if s == [] then [] else Insert(s[0], SortedCopy(s[1..], leq), leq)
  }

  lemma {:induction false} InsertKeeps<T>(x: T, s: seq<T>, leq: (T, T) -> bool)
    ensures |Insert(x, s, leq)| == |s| + 1 && multiset(Insert(x, s, leq)) == multiset(s) + multiset{x}
  {
    if s == [] || leq(x, s[0]) {
    } else {
      InsertKeeps(x, s[1..], leq);
      assert s == [s[0]] + s[1..];
    }
  }

  lemma {:induction false} InsertSorts<T(!new)>(x: T, s: seq<T>, leq: (T, T) -> bool)
    requires IsOrder(leq) && Sorted(s, leq)
    ensures Sorted(Insert(x, s, leq), leq)
  {
    if s == [] || leq(x, s[0]) {
    } else {
      InsertSorts(x, s[1..], leq);
      InsertKeeps(x, s[1..], leq);
      Leads(s[0], s[1..], x, Insert(x, s[1..], leq), leq);
    }
  }

  lemma Leads<T(!new)>(y: T, s: seq<T>, x: T, r: seq<T>, leq: (T, T) -> bool)
    requires leq(y, x) && Sorted(r, leq) && (forall z | z in s :: leq(y, z)) && multiset(r) == multiset(s) + multiset{x}
    ensures Sorted([y] + r, leq)
  {
    forall i | 0 <= i < |r| ensures leq(y, r[i]) {
      var z := r[i];
      assert z in multiset(s) + multiset{x};
      if z != x { assert z in multiset(s) && z in s; }
    }
  }

  /** The copy is sorted, and holds the same elements as often. */
  lemma {:induction false} SortedCopySorts<T(!new)>(s: seq<T>, leq: (T, T) -> bool)
    requires IsOrder(leq)
    ensures Sorted(SortedCopy(s, leq), leq) && |SortedCopy(s, leq)| == |s|
            && multiset(SortedCopy(s, leq)) == multiset(s)
  {
    if s == [] {
    } else {
      SortedCopySorts(s[1..], leq);
      InsertSorts(s[0], SortedCopy(s[1..], leq), leq);
      InsertKeeps(s[0], SortedCopy(s[1..], leq), leq);
      assert s == [s[0]] + s[1..];
    }
  }
}
