/** Cursor pagination over the project's tables and documents, which may change between two pages. */
module Pagination {
  import opened Common

  const DEFAULT_PAGE_LIMIT := 50
  const MAX_PAGE_LIMIT := 200

  /** A listed row. `key` is its place in the collation order its list is sorted by. */
  datatype Item = Item(id: string, key: real)

  datatype Page = Page(items: seq<Item>, nextCursor: Option<string>)

  datatype Error = InvalidLimit | UnknownCursor

  /**
   `normalizePageLimit`: the default when no limit is given, and otherwise the limit, if it is a whole number in
   range.
   */
  function NormalizePageLimit(limit: Option<real>): (r: Result<nat, Error>)
    ensures r.Ok? ==>
            1 <= r.value <= 200 && r.value as real == (if limit.Some? then limit.value else 50.0)
    ensures r.Err? <==>
            limit.Some? && !(limit.value.Floor as real == limit.value && 1.0 <= limit.value <= 200.0)
  {
    if limit.None? then Ok(DEFAULT_PAGE_LIMIT)
    else if limit.value.Floor as real != limit.value || limit.value < 1.0 || limit.value > MAX_PAGE_LIMIT as real then
      Err(InvalidLimit)
    else Ok(limit.value.Floor)
  }

  /** The first row with that id, or -1. */
  function IndexOf(items: seq<Item>, id: string): (i: int)
    ensures -1 <= i < |items|
    ensures i >= 0 ==> items[i].id == id && forall j | 0 <= j < i :: items[j].id != id
    ensures i < 0 ==> forall j | 0 <= j < |items| :: items[j].id != id
  {
    if items == [] then -1
    else if items[0].id == id then 0
    else
      var i := IndexOf(items[1..], id);
      assert forall j | 0 < j < |items| :: items[j] == items[1..][j - 1];
      if i < 0 then -1 else i + 1
  }

  /** Where the page after a cursor begins. An empty cursor counts as none. */
  function StartAfter(items: seq<Item>, cursor: Option<string>): (r: Result<nat, Error>)
    ensures r.Ok? ==> r.value <= |items|
  {
    if cursor.None? || cursor.value == "" then Ok(0)
    else if IndexOf(items, cursor.value) < 0 then Err(UnknownCursor)
    else Ok(IndexOf(items, cursor.value) + 1)
  }

  /** A cursor is refused exactly when it is not empty and no row bears it. */
  lemma UnknownCursorExactly(items: seq<Item>, cursor: Option<string>)
    ensures StartAfter(items, cursor).Err? <==>
            cursor.Some? && cursor.value != "" && forall x | x in items :: x.id != cursor.value
  {
    if cursor.Some? && IndexOf(items, cursor.value) >= 0 {
      assert items[IndexOf(items, cursor.value)] in items;
    }
  }

  /** `paginateByCursor`. */
  function Paginate(items: seq<Item>, cursor: Option<string>, limit: nat): Result<Page, Error>
    requires limit >= 1
  {
    match StartAfter(items, cursor)
    case Err(error) => Err(error)
    case Ok(start) => Ok(PageFrom(items, start, limit))
  }

  function PageFrom(items: seq<Item>, start: nat, limit: nat): Page
    requires limit >= 1 && start <= |items|
  {
    var page := items[start..Min(start + limit, |items|)];
    Page(page, if start + limit < |items| then Some(page[|page| - 1].id) else None)
  }

  /** Sorted, with no two rows in the same place. */
  ghost predicate Ordered(items: seq<Item>) {
    forall i, j | 0 <= i < j < |items| :: items[i].key < items[j].key
  }

  /** A list can be read on after that row: it is still there, its id is not empty, and no earlier row bears it. */
  ghost predicate Resumes(items: seq<Item>, row: Item) {
    row.id != "" && IndexOf(items, row.id) >= 0 && items[IndexOf(items, row.id)] == row
  }

  function Concat(pages: seq<Page>): seq<Item> {
    if pages == [] then [] else Concat(pages[..|pages| - 1]) + pages[|pages| - 1].items
  }

  /** Page k continues page k - 1 in that list. */
  predicate Continues(items: seq<Item>, limit: nat, previous: Page, page: Page) {
    limit >= 1 && previous.nextCursor.Some? && Paginate(items, previous.nextCursor, limit) == Ok(page)
  }

  /** The pages a caller gets who follows `nextCursor`, the k-th one from `lists[k]`. */
  ghost predicate Visits(lists: seq<seq<Item>>, limits: seq<nat>, pages: seq<Page>) {
    && |lists| == |limits| == |pages| >= 1
    && limits[0] >= 1 && Paginate(lists[0], None, limits[0]) == Ok(pages[0])
    && (forall k | 0 < k < |pages| :: Continues(lists[k], limits[k], pages[k - 1], pages[k]))
  }

  /** No list has lost the row its page is asked to follow. */
  ghost predicate KeepsCursors(lists: seq<seq<Item>>, pages: seq<Page>) {
    && |lists| == |pages|
    && (forall k | 0 <= k < |lists| :: Ordered(lists[k]))
    && (forall k | 0 < k < |pages| :: ResumesAfter(lists[k], pages[k - 1]))
  }

  ghost predicate ResumesAfter(items: seq<Item>, previous: Page) {
    previous.items != [] && Resumes(items, LastRow(previous))
  }

  function LastRow(page: Page): Item
    requires page.items != []
  {
    page.items[|page.items| - 1]
  }

  /** How far a page gets: to its last row, or to the end if no other page follows. */
  function Frontier(page: Page): Option<real> {
    if page.nextCursor.Some? && page.items != [] then Some(LastRow(page).key) else None
  }

  predicate Beyond(from: Option<real>, x: Item) {
    from.None? || from.value < x.key
  }

  predicate Within(to: Option<real>, x: Item) {
    to.None? || x.key <= to.value
  }

  lemma SliceIsOrdered(items: seq<Item>, start: nat, limit: nat)
    requires limit >= 1 && start <= |items| && Ordered(items)
    ensures var page := PageFrom(items, start, limit);
            && Ordered(page.items)
                && (page.nextCursor.Some? ==> page.items != [] && page.nextCursor.value == LastRow(page).id)
            && forall x | x in page.items :: Within(Frontier(page), x)
  {
  }

  /** A page from the first row beyond `from` holds exactly the rows beyond it and up to the page's frontier. */
  lemma SliceHolds(items: seq<Item>, start: nat, limit: nat, from: Option<real>, x: Item)
    requires limit >= 1 && start <= |items| && Ordered(items)
    requires forall i | 0 <= i < |items| :: Beyond(from, items[i]) <==> start <= i
    ensures var page := PageFrom(items, start, limit);
            x in page.items <==> x in items && Beyond(from, x) && Within(Frontier(page), x)
  {
    var page, end := PageFrom(items, start, limit), Min(start + limit, |items|);
    assert page.items == items[start..end];
    if x in items && Beyond(from, x) && Within(Frontier(page), x) {
      var i :| 0 <= i < |items| && items[i] == x;
      assert start <= i < end;
      assert page.items[i - start] == x;
    } else if x in page.items {
      var i :| 0 <= i < |page.items| && page.items[i] == x;
      assert items[start + i] == x;
      SliceIsOrdered(items, start, limit);
    }
  }

  /** What a page is that continues another one whose last row is still there. */
  lemma PageHolds(items: seq<Item>, limit: nat, previous: Page, page: Page)
    requires Ordered(items) && Continues(items, limit, previous, page) && ResumesAfter(items, previous)
    requires previous.nextCursor.value == LastRow(previous).id
    ensures Ordered(page.items)
            && (page.nextCursor.Some? ==> page.items != [] && page.nextCursor.value == LastRow(page).id)
    ensures forall x :: x in page.items <==> x in items && Beyond(Frontier(previous), x) && Within(Frontier(page), x)
  {
    var row := LastRow(previous);
    var start := IndexOf(items, row.id) + 1;
    assert page == PageFrom(items, start, limit) && items[start - 1] == row;
    SliceIsOrdered(items, start, limit);
    forall x ensures x in page.items <==> x in items && Beyond(Frontier(previous), x) && Within(Frontier(page), x) {
      SliceHolds(items, start, limit, Frontier(previous), x);
    }
  }

  lemma FirstPageHolds(items: seq<Item>, limit: nat, page: Page)
    requires limit >= 1 && Ordered(items) && Paginate(items, None, limit) == Ok(page)
    ensures Ordered(page.items)
            && (page.nextCursor.Some? ==> page.items != [] && page.nextCursor.value == LastRow(page).id)
    ensures forall x :: x in page.items <==> x in items && Within(Frontier(page), x)
  {
    assert page == PageFrom(items, 0, limit);
    SliceIsOrdered(items, 0, limit);
    forall x ensures x in page.items <==> x in items && Within(Frontier(page), x) {
      SliceHolds(items, 0, limit, None, x);
    }
  }

  /** Two ordered stretches, the second one beyond the first. */
  lemma OrderedJoin(a: seq<Item>, b: seq<Item>)
    requires Ordered(a) && Ordered(b) && forall x, y | x in a && y in b :: x.key < y.key
    ensures Ordered(a + b)
  {
    forall i, j | 0 <= i < j < |a + b| ensures (a + b)[i].key < (a + b)[j].key {
      if i < |a| <= j { assert a[i] in a && b[j - |a|] in b; }
    }
  }

  ghost predicate Throughout(lists: seq<seq<Item>>, x: Item) {
    forall k | 0 <= k < |lists| :: x in lists[k]
  }

  ghost predicate Sometime(lists: seq<seq<Item>>, x: Item) {
    exists k | 0 <= k < |lists| :: x in lists[k]
  }

  /** What has been read is in order, was listed, and leaves out nothing up to the frontier that was there all along. */
  ghost predicate HasRead(lists: seq<seq<Item>>, read: seq<Item>, frontier: Option<real>) {
    && Ordered(read)
    && (forall x | x in read :: Within(frontier, x) && Sometime(lists, x))
    && (forall x | Throughout(lists, x) && Within(frontier, x) :: x in read)
  }

  lemma ReadOnePage(lists: seq<seq<Item>>, read: seq<Item>, from: Option<real>, items: seq<Item>, page: seq<Item>,
      to: Option<real>)
    requires HasRead(lists, read, from) && from.Some? && Ordered(page)
    requires forall x :: x in page <==> x in items && Beyond(from, x) && Within(to, x)
    requires to.Some? ==> page != [] && to.value == page[|page| - 1].key
    ensures HasRead(lists + [items], read + page, to)
  {
    OrderedJoin(read, page);
    var lists' := lists + [items];
    assert lists'[|lists|] == items;
    forall x | x in read + page ensures Within(to, x) && Sometime(lists', x) {
      if x in read {
        var k :| 0 <= k < |lists| && x in lists[k];
        assert x in lists'[k];
        if to.Some? { assert page[|page| - 1] in page; }
      }
    }
    forall x | Throughout(lists', x) && Within(to, x) ensures x in read + page {
      assert x in lists'[|lists|];
      assert Throughout(lists, x) by { forall k | 0 <= k < |lists| ensures x in lists[k] { assert x in lists'[k]; } }
    }
  }

  /** A page with a next cursor names its last row in it. */
  predicate NamesItsLastRow(page: Page) {
    page.nextCursor.Some? ==> page.items != [] && page.nextCursor.value == LastRow(page).id
  }

  /** One more page is read on. */
  lemma ReadsOneMoreList(lists: seq<seq<Item>>, read: seq<Item>, previous: Page, items: seq<Item>, limit: nat,
      page: Page)
    requires HasRead(lists, read, Frontier(previous)) && NamesItsLastRow(previous)
    requires Ordered(items) && Continues(items, limit, previous, page) && ResumesAfter(items, previous)
    ensures HasRead(lists + [items], read + page.items, Frontier(page)) && NamesItsLastRow(page)
  {
    PageHolds(items, limit, previous, page);
    ReadOnePage(lists, read, Frontier(previous), items, page.items, Frontier(page));
  }

  lemma VisitsOneLess(lists: seq<seq<Item>>, limits: seq<nat>, pages: seq<Page>)
    requires Visits(lists, limits, pages) && KeepsCursors(lists, pages) && |pages| > 1
    ensures var n := |pages| - 1;
            && Visits(lists[..n], limits[..n], pages[..n]) && KeepsCursors(lists[..n], pages[..n])
            && pages[..n][n - 1] == pages[n - 1] && Ordered(lists[n])
            && Continues(lists[n], limits[n], pages[n - 1], pages[n]) && ResumesAfter(lists[n], pages[n - 1])
  {
  }

  lemma {:induction false} ReadsOn(lists: seq<seq<Item>>, limits: seq<nat>, pages: seq<Page>)
    requires Visits(lists, limits, pages) && KeepsCursors(lists, pages)
    ensures HasRead(lists, Concat(pages), Frontier(pages[|pages| - 1])) && NamesItsLastRow(pages[|pages| - 1])
  {
    var n := |pages| - 1;
    if n == 0 {
      FirstPageHolds(lists[0], limits[0], pages[0]);
      assert pages[..0] == [] && Concat(pages) == pages[0].items;
      ReadFirstPage(lists, pages[0].items, Frontier(pages[0]));
    } else {
      VisitsOneLess(lists, limits, pages);
      ReadsOn(lists[..n], limits[..n], pages[..n]);
      ReadsOneMoreList(lists[..n], Concat(pages[..n]), pages[n - 1], lists[n], limits[n], pages[n]);
      assert lists == lists[..n] + [lists[n]];
    }
  }

  lemma ReadFirstPage(lists: seq<seq<Item>>, page: seq<Item>, to: Option<real>)
    requires |lists| == 1 && Ordered(page)
    requires forall x :: x in page <==> x in lists[0] && Within(to, x)
    ensures HasRead(lists, page, to)
  {
    forall x | x in page ensures Sometime(lists, x) { assert x in lists[0]; }
    forall x | Throughout(lists, x) ensures x in lists[0] { }
  }

  /**
   Following `nextCursor` to its end over a list that changes between the pages, without losing the row a page is asked
   to follow, reads rows in order, none of them twice, and every row that was there throughout.
   */
  lemma FollowsThroughChanges(lists: seq<seq<Item>>, limits: seq<nat>, pages: seq<Page>)
    requires Visits(lists, limits, pages) && KeepsCursors(lists, pages) && pages[|pages| - 1].nextCursor.None?
    ensures Ordered(Concat(pages))
    ensures forall x | Throughout(lists, x) :: multiset(Concat(pages))[x] == 1
    ensures forall x | x in Concat(pages) :: Sometime(lists, x)
  {
    ReadsOn(lists, limits, pages);
    forall x | Throughout(lists, x) ensures multiset(Concat(pages))[x] == 1 {
      OrderedOnce(Concat(pages), x);
    }
  }

  lemma OrderedOnce(items: seq<Item>, x: Item)
    requires Ordered(items) && x in items
    ensures multiset(items)[x] == 1
  {
    var i :| 0 <= i < |items| && items[i] == x;
    assert items == items[..i] + [x] + items[i + 1..];
    assert x !in items[..i] && x !in items[i + 1..];
  }

  // ---- A list that does not change

  /** No row is listed twice; two rows may well share a place, or an id. */
  ghost predicate DistinctRows(items: seq<Item>) {
    forall i, j | 0 <= i < j < |items| :: items[i] != items[j]
  }

  /** The pages of a caller who follows `nextCursor` over one list. */
  ghost predicate ReadsOneList(items: seq<Item>, limit: nat, pages: seq<Page>) {
    && |pages| >= 1 && limit >= 1 && Paginate(items, None, limit) == Ok(pages[0])
    && (forall k | 0 < k < |pages| :: Continues(items, limit, pages[k - 1], pages[k]))
  }

  /** The calls of a caller who reads the same list page by page until there is no next cursor, and gets all of it. */
  ghost predicate ReadsAll(items: seq<Item>, limit: nat, pages: seq<Page>) {
    && ReadsOneList(items, limit, pages)
    && pages[|pages| - 1].nextCursor.None?
    && Concat(pages) == items
  }

  /** The row before place e can serve as a cursor: its id is not empty and no earlier row bears it. */
  predicate CanFollow(items: seq<Item>, e: nat)
    requires 0 < e <= |items|
  {
    items[e - 1].id != "" && IndexOf(items, items[e - 1].id) == e - 1
  }

  /** k times the limit. */
  function Offset(k: nat, limit: nat): nat {
    if k == 0 then 0 else Offset(k - 1, limit) + limit
  }

  lemma {:induction false} OffsetIsProduct(k: nat, limit: nat)
    ensures Offset(k, limit) == k * limit
  {
    if k == 0 {
    } else {
      OffsetIsProduct(k - 1, limit);
      assert k * limit == (k - 1) * limit + limit;
    }
  }

  lemma {:induction false} OffsetGrows(a: nat, b: nat, limit: nat)
    requires a <= b
    ensures Offset(a, limit) <= Offset(b, limit)
  {
    if a == b {
    } else {
      OffsetGrows(a, b - 1, limit);
    }
  }

  /** Every row that ends a page before the last one can serve as a cursor. */
  ghost predicate GoodBoundaries(items: seq<Item>, limit: nat) {
    forall k: nat :: GoodBoundary(items, limit, k)
  }

  predicate GoodBoundary(items: seq<Item>, limit: nat, k: nat) {
    0 < Offset(k, limit) < |items| ==> CanFollow(items, Offset(k, limit))
  }

  /** How many pages a list of n rows takes: one for each started `limit` of rows, and one for an empty list. */
  function PageCount(n: nat, limit: nat): nat
    requires limit >= 1
  {
    if n <= limit then 1 else PageCount(n - limit, limit) + 1
  }

  lemma {:induction false} PageCountCovers(n: nat, limit: nat)
    requires limit >= 1
    ensures PageCount(n, limit) >= 1 && n <= Offset(PageCount(n, limit), limit)
    ensures n > 0 ==> Offset(PageCount(n, limit) - 1, limit) < n
    ensures n == 0 ==> PageCount(n, limit) == 1
  {
    if n > limit { PageCountCovers(n - limit, limit); } else { assert Offset(1, limit) == Offset(0, limit) + limit; }
  }

  /** For a list that is not empty, that is n / limit rounded up. */
  lemma PageCountIsCeiling(n: nat, limit: nat)
    requires limit >= 1 && n > 0
    ensures (PageCount(n, limit) - 1) * limit < n <= PageCount(n, limit) * limit
  {
    PageCountCovers(n, limit);
    OffsetIsProduct(PageCount(n, limit), limit);
    OffsetIsProduct(PageCount(n, limit) - 1, limit);
  }

  lemma {:induction false} ConcatPrefix(pages: seq<Page>, k: nat)
    requires k <= |pages|
    ensures Concat(pages[..k]) <= Concat(pages)
  {
    if k < |pages| {
      ConcatPrefix(pages[..|pages| - 1], k);
      assert pages[..|pages| - 1][..k] == pages[..k];
    } else {
      assert pages[..k] == pages;
    }
  }

  lemma NextSlice(items: seq<Item>, limit: nat, e: nat, previous: Page, page: Page)
    requires 1 <= limit <= e < |items| && previous == PageFrom(items, e - limit, limit)
    requires Continues(items, limit, previous, page)
    ensures previous.nextCursor == Some(items[e - 1].id) && StartAfter(items, previous.nextCursor).value <= e
    ensures page == PageFrom(items, StartAfter(items, previous.nextCursor).value, limit)
    ensures StartAfter(items, previous.nextCursor) == Ok(e) <==> CanFollow(items, e)
  {
    assert previous.items == items[e - limit..e];
  }

  /** Page k is the slice that begins at e, and the pages before it are the list up to there. */
  ghost predicate IsSlice(items: seq<Item>, limit: nat, pages: seq<Page>, k: nat, e: nat) {
    && limit >= 1 && k < |pages| && e <= |items| && (k > 0 ==> e < |items|)
    && pages[k] == PageFrom(items, e, limit) && Concat(pages[..k]) == items[..e]
  }

  /** As long as the boundaries are good, page k is the k-th slice of the list. */
  lemma {:induction false} PagesAreSlices(items: seq<Item>, limit: nat, pages: seq<Page>, k: nat)
    requires ReadsOneList(items, limit, pages) && k < |pages|
    requires forall j: nat | j <= k :: GoodBoundary(items, limit, j)
    ensures IsSlice(items, limit, pages, k, Offset(k, limit))
  {
    if k == 0 {
      assert pages[..0] == [];
    } else {
      PagesAreSlices(items, limit, pages, k - 1);
      var e := Offset(k, limit);
      assert IsSlice(items, limit, pages, k - 1, e - limit);
      assert GoodBoundary(items, limit, k);
      SlicesJoin(items, limit, pages, k, e);
      assert IsSlice(items, limit, pages, k, e);
    }
  }

  lemma SlicesJoin(items: seq<Item>, limit: nat, pages: seq<Page>, k: nat, e: nat)
    requires ReadsOneList(items, limit, pages) && 0 < k < |pages| && limit <= e
    requires IsSlice(items, limit, pages, k - 1, e - limit)
    ensures e < |items| && Concat(pages[..k]) == items[..e]
    ensures CanFollow(items, e) ==> IsSlice(items, limit, pages, k, e)
  {
    assert Continues(items, limit, pages[k - 1], pages[k]);
    NextSlice(items, limit, e, pages[k - 1], pages[k]);
    assert pages[..k][..k - 1] == pages[..k - 1];
    assert items[..e - limit] + items[e - limit..e] == items[..e];
  }

  /** With good boundaries, the list can be read on page by page. */
  lemma {:induction false} CanReadOn(items: seq<Item>, limit: nat, k: nat) returns (pages: seq<Page>)
    requires limit >= 1 && GoodBoundaries(items, limit) && (k == 0 || Offset(k, limit) < |items|)
    ensures ReadsOneList(items, limit, pages) && |pages| == k + 1
    ensures Offset(k, limit) <= |items| && pages[k] == PageFrom(items, Offset(k, limit), limit)
  {
    if k == 0 {
      pages := [PageFrom(items, 0, limit)];
    } else {
      pages := CanReadOn(items, limit, k - 1);
      var e := Offset(k, limit);
      assert e - limit == Offset(k - 1, limit);
      assert GoodBoundary(items, limit, k);
      ReadsOneMore(items, limit, pages, e);
      pages := pages + [PageFrom(items, e, limit)];
    }
  }

  lemma ReadsOneMore(items: seq<Item>, limit: nat, pages: seq<Page>, e: nat)
    requires ReadsOneList(items, limit, pages) && limit <= e < |items| && CanFollow(items, e)
    requires pages[|pages| - 1] == PageFrom(items, e - limit, limit)
    ensures ReadsOneList(items, limit, pages + [PageFrom(items, e, limit)])
  {
    var previous, page := pages[|pages| - 1], PageFrom(items, e, limit);
    assert previous.items == items[e - limit..e];
    assert Continues(items, limit, previous, page);
    var pages' := pages + [page];
    forall k | 0 < k < |pages'| ensures Continues(items, limit, pages'[k - 1], pages'[k]) {
      if k < |pages| { assert Continues(items, limit, pages[k - 1], pages[k]); }
    }
  }

  /** The last page of a list that has been read to its end. */
  lemma EndsTheList(items: seq<Item>, limit: nat, pages: seq<Page>, e: nat)
    requires pages != [] && IsSlice(items, limit, pages, |pages| - 1, e)
    ensures pages[|pages| - 1].nextCursor.None? <==> e + limit >= |items|
    ensures e + limit >= |items| ==> Concat(pages) == items
  {
    assert Concat(pages) == Concat(pages[..|pages| - 1]) + pages[|pages| - 1].items;
    if e + limit >= |items| { LastSlice(items, limit, e); }
  }

  lemma LastSlice(items: seq<Item>, limit: nat, e: nat)
    requires limit >= 1 && e <= |items| <= e + limit
    ensures items[..e] + PageFrom(items, e, limit).items == items
  {
  }

  /** Reading everything needs good boundaries: a bad one leads back to rows already read. */
  lemma {:induction false} ReadsOverGoodBoundaries(items: seq<Item>, limit: nat, pages: seq<Page>, k: nat)
    requires DistinctRows(items) && ReadsAll(items, limit, pages) && k < |pages|
    ensures GoodBoundary(items, limit, k) && IsSlice(items, limit, pages, k, Offset(k, limit))
  {
    if k == 0 {
      assert pages[..0] == [];
    } else {
      ReadsOverGoodBoundaries(items, limit, pages, k - 1);
      NextIsGood(items, limit, pages, k);
    }
  }

  lemma NextIsGood(items: seq<Item>, limit: nat, pages: seq<Page>, k: nat)
    requires DistinctRows(items) && ReadsAll(items, limit, pages) && 0 < k < |pages|
    requires IsSlice(items, limit, pages, k - 1, Offset(k - 1, limit))
    ensures GoodBoundary(items, limit, k) && IsSlice(items, limit, pages, k, Offset(k, limit))
  {
    var e := Offset(k, limit);
    assert IsSlice(items, limit, pages, k - 1, e - limit);
    SlicesJoin(items, limit, pages, k, e);
    LeadsBack(items, limit, pages, k, e);
  }

  lemma LeadsBack(items: seq<Item>, limit: nat, pages: seq<Page>, k: nat, e: nat)
    requires DistinctRows(items) && ReadsAll(items, limit, pages) && 0 < k < |pages| && limit <= e < |items|
    requires IsSlice(items, limit, pages, k - 1, e - limit) && Concat(pages[..k]) == items[..e]
    ensures CanFollow(items, e)
  {
    assert Continues(items, limit, pages[k - 1], pages[k]);
    NextSlice(items, limit, e, pages[k - 1], pages[k]);
    var start := StartAfter(items, pages[k - 1].nextCursor).value;
    FirstOfSlice(items, start, limit);
    NextRow(items, pages, k, e);
  }

  lemma FirstOfSlice(items: seq<Item>, start: nat, limit: nat)
    requires limit >= 1 && start < |items|
    ensures PageFrom(items, start, limit).items != [] && PageFrom(items, start, limit).items[0] == items[start]
  {
  }

  lemma NextRow(items: seq<Item>, pages: seq<Page>, k: nat, e: nat)
    requires k < |pages| && Concat(pages) == items && e <= |items| && Concat(pages[..k]) == items[..e]
            && pages[k].items != []
    ensures e < |items| && items[e] == pages[k].items[0]
  {
    ConcatPrefix(pages, k + 1);
    assert pages[..k + 1][..k] == pages[..k];
    var read := Concat(pages[..k + 1]);
    assert read == items[..e] + pages[k].items && read <= items;
    assert read[e] == items[e];
  }

  lemma CanReadAll(items: seq<Item>, limit: nat) returns (pages: seq<Page>)
    requires limit >= 1 && GoodBoundaries(items, limit)
    ensures ReadsAll(items, limit, pages)
  {
    var count := PageCount(|items|, limit);
    PageCountCovers(|items|, limit);
    pages := CanReadOn(items, limit, count - 1);
    PagesAreSlices(items, limit, pages, count - 1);
    EndsTheList(items, limit, pages, Offset(count - 1, limit));
  }

  /**
   A list that stays as it is and lists no row twice is read completely by following `nextCursor` exactly when each row
   that ends a page has a non-empty id that no earlier row bears.
   */
  lemma ReadableExactly(items: seq<Item>, limit: nat)
    requires limit >= 1 && DistinctRows(items)
    ensures (exists pages :: ReadsAll(items, limit, pages)) <==> GoodBoundaries(items, limit)
  {
    if GoodBoundaries(items, limit) {
      var pages := CanReadAll(items, limit);
    }
    if pages :| ReadsAll(items, limit, pages) {
      TakesAllPages(items, limit, pages);
    }
  }

  /** It then takes one page for each started `limit` of rows, at least one, and every page but the last one is full. */
  lemma TakesAllPages(items: seq<Item>, limit: nat, pages: seq<Page>)
    requires DistinctRows(items) && ReadsAll(items, limit, pages)
    ensures GoodBoundaries(items, limit) && |pages| == PageCount(|items|, limit)
    ensures forall k | 0 <= k < |pages| - 1 :: |pages[k].items| == limit
  {
    var m := |pages|;
    ReadsOverGoodBoundaries(items, limit, pages, m - 1);
    EndsTheList(items, limit, pages, Offset(m - 1, limit));
    forall j: nat ensures GoodBoundary(items, limit, j) {
      if j >= m { OffsetGrows(m, j, limit); } else { ReadsOverGoodBoundaries(items, limit, pages, j); }
    }
    SameCount(|items|, limit, m);
    forall k | 0 <= k < m - 1 ensures |pages[k].items| == limit {
      ReadsOverGoodBoundaries(items, limit, pages, k);
      PageIsFull(items, limit, pages, k, Offset(k, limit));
    }
  }

  lemma PageIsFull(items: seq<Item>, limit: nat, pages: seq<Page>, k: nat, e: nat)
    requires ReadsOneList(items, limit, pages) && k < |pages| - 1 && IsSlice(items, limit, pages, k, e)
    ensures |pages[k].items| == limit
  {
    assert Continues(items, limit, pages[k], pages[k + 1]);
  }

  lemma SameCount(n: nat, limit: nat, m: nat)
    requires limit >= 1 && m >= 1 && n <= Offset(m, limit) && (m > 1 ==> Offset(m - 1, limit) < n)
    ensures m == PageCount(n, limit)
  {
    var c := PageCount(n, limit);
    PageCountCovers(n, limit);
    if m < c { OffsetGrows(m, c - 1, limit); } else if c < m { OffsetGrows(c, m - 1, limit); }
  }

  /** With distinct non-empty ids nothing else is needed. */
  lemma DistinctIdsAreReadable(items: seq<Item>, limit: nat)
    requires limit >= 1 && (forall i | 0 <= i < |items| :: items[i].id != "")
    requires forall i, j | 0 <= i < j < |items| :: items[i].id != items[j].id
    ensures GoodBoundaries(items, limit)
  {
  }

  /** A row with an empty id at the end of a page is never passed. */
  lemma EmptyIdIsNotPassed()
    ensures var items := [Item("", 0.0), Item("a", 1.0)];
            DistinctRows(items) && !exists pages :: ReadsAll(items, 1, pages)
  {
    var items := [Item("", 0.0), Item("a", 1.0)];
    ReadableExactly(items, 1);
    assert !GoodBoundary(items, 1, 1);
  }
}
