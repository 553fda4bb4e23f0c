/** The page-by-page view of a list used by the video grid: which items are
    on the current page, how many pages there are, and which page buttons
    the pager shows. */
module Pagination {

  /** How many page buttons the pager shows at most. */
  const PAGES_TO_SHOW: nat := 5

  function Min(a: int, b: int): (m: int) { if a <= b then a else b }
  function Max(a: int, b: int): (m: int) { if a >= b then a else b }

  /** Number of pages for `len` items, `pageSize` to a page: the ceiling of
      `len / pageSize`, i.e. the least `n` with `len <= n * pageSize`. */
  function PageCount(len: nat, pageSize: nat): (n: nat)
    requires pageSize > 0
    ensures len <= n * pageSize < len + pageSize
    ensures n == 0 <==> len == 0
  {
    var n := (len + pageSize - 1) / pageSize;
    assert n * pageSize + (len + pageSize - 1) % pageSize == len + pageSize - 1;
    n
  }

  /** The items on page `page` (counted from 0): JavaScript's
      `items.slice(page * pageSize, page * pageSize + pageSize)`, which
      clamps both ends to the list. */
  function PageSlice<T>(items: seq<T>, pageSize: nat, page: nat): (r: seq<T>)
    ensures |r| <= pageSize
    ensures |r| == if page * pageSize < |items| then Min(pageSize, |items| - page * pageSize) else 0
    ensures forall i :: 0 <= i < |r| ==> page * pageSize + i < |items| && r[i] == items[page * pageSize + i]
  {
    var start := page * pageSize;
    var end := start + pageSize;
    if start >= |items| then [] else items[start .. Min(end, |items|)]
  }

  /** A page is non-empty exactly when its index is below the page count. */
  lemma PageNonEmptyIffInRange<T>(items: seq<T>, pageSize: nat, page: nat)
    requires pageSize > 0
    ensures PageSlice(items, pageSize, page) != [] <==> page < PageCount(|items|, pageSize)
  {
    var n := PageCount(|items|, pageSize);
    if page < n {
      MulMonotone(page, n - 1, pageSize);
    } else {
      MulMonotone(n, page, pageSize);
    }
  }

  lemma MulMonotone(a: nat, b: nat, k: nat)
    requires a <= b
    ensures a * k <= b * k
  {
  }

  /** The items of pages `page`, `page + 1`, ... up to the last, in order. */
  function PagesFrom<T>(items: seq<T>, pageSize: nat, page: nat): (r: seq<T>)
    requires pageSize > 0
    decreases |items| - page * pageSize
  {
    if page * pageSize >= |items| then []
    else PageSlice(items, pageSize, page) + PagesFrom(items, pageSize, page + 1)
  }

  /** Paging loses nothing and reorders nothing: the pages from `page` on,
      put back together, are the items from that page's first index on. */
  lemma {:induction false} PagesFromIsSuffix<T>(items: seq<T>, pageSize: nat, page: nat)
    requires pageSize > 0
    requires page * pageSize <= |items|
    ensures PagesFrom(items, pageSize, page) == items[page * pageSize..]
    decreases |items| - page * pageSize
  {
    var start := page * pageSize;
    if start < |items| {
      var slice := PageSlice(items, pageSize, page);
      if start + pageSize <= |items| {
        assert (page + 1) * pageSize == start + pageSize;
        PagesFromIsSuffix(items, pageSize, page + 1);
        assert slice == items[start .. start + pageSize];
        assert items[start..] == items[start .. start + pageSize] + items[start + pageSize ..];
      } else {
        assert (page + 1) * pageSize >= |items|;
        assert slice == items[start..];
      }
    }
  }

  /** All pages together are exactly the list. */
  lemma PagesCoverItems<T>(items: seq<T>, pageSize: nat)
    requires pageSize > 0
    ensures PagesFrom(items, pageSize, 0) == items
  {
    PagesFromIsSuffix(items, pageSize, 0);
  }

  /** One button of the pager: its 1-based page number and whether it is the
      current page. */
  datatype PageButton = PageButton(name: int, active: bool)

  /** First page (0-based) of the window when there are more pages than
      buttons: two before the current page, but not before page 0. */
  function WindowStart(current: nat): (start: nat)
  {
    Max(0, current - PAGES_TO_SHOW / 2)
  }

  /** The buttons `getFlowBitePages` returns for `total` pages with page
      `current` selected. `Array.from` clamps a negative length to 0. */
  function PageWindow(total: nat, current: nat): (r: seq<PageButton>)
    ensures total <= PAGES_TO_SHOW ==>
      |r| == total && forall i :: 0 <= i < |r| ==> r[i].name == i + 1
    ensures total > PAGES_TO_SHOW ==>
      |r| == Max(0, Min(total, WindowStart(current) + PAGES_TO_SHOW) - WindowStart(current)) &&
      forall i :: 0 <= i < |r| ==> r[i].name == WindowStart(current) + i + 1
    ensures |r| <= PAGES_TO_SHOW
    ensures forall i :: 0 <= i < |r| ==> 1 <= r[i].name <= total
    ensures forall i :: 0 <= i < |r| ==> (r[i].active <==> r[i].name == current + 1)
  {
    if total <= PAGES_TO_SHOW then
      seq(total, i requires 0 <= i < total => PageButton(i + 1, i == current))
    else
      var start := WindowStart(current);
      var end := Min(total, start + PAGES_TO_SHOW);
      var len := Max(0, end - start);
      seq(len, i requires 0 <= i < len => PageButton(start + i + 1, start + i == current))
  }

  /** When the current page exists, exactly one button is active, and it is
      the current page's. (With no pages there are no buttons at all, by the
      first postcondition of `PageWindow`.) */
  lemma {:induction false} ExactlyOneActive(total: nat, current: nat)
    requires current < total
    ensures var r := PageWindow(total, current);
      exists i :: 0 <= i < |r| && r[i].active && r[i].name == current + 1 &&
        forall j :: 0 <= j < |r| && r[j].active ==> j == i
  {
    var r := PageWindow(total, current);
    var i := current - (if total <= PAGES_TO_SHOW then 0 else WindowStart(current));
    assert 0 <= i < |r|;
    assert r[i].name == current + 1;
  }

  /** The pager over a fixed page size: `items` can be replaced and
      `currentPage` moves between pages; `pageSize` never changes. */
  class Paginator<T> {
    var items: seq<T>
    var pageSize: nat
    var currentPage: nat

    /** The page size is positive and the current page is page 0 or a page
        that exists. */
    ghost predicate Valid()
      reads this
    {
      pageSize > 0 && (currentPage == 0 || currentPage < TotalPages())
    }

    constructor (items: seq<T>, pageSize: nat)
      requires pageSize > 0
      ensures Valid()
      ensures this.items == items && this.pageSize == pageSize && currentPage == 0
    {
      this.items := items;
      this.pageSize := pageSize;
      this.currentPage := 0;
    }

    /** The `totalPages` getter: the ceiling of `|items| / pageSize`. */
    function TotalPages(): (n: nat)
      reads this
      requires pageSize > 0
      ensures |items| <= n * pageSize < |items| + pageSize
    {
      PageCount(|items|, pageSize)
    }

    /** The `currentItems` getter: the clamped page of items, taken in order
        from the current page's first index. */
    function CurrentItems(): (r: seq<T>)
      reads this
      ensures |r| <= pageSize
      ensures |r| == if currentPage * pageSize < |items| then Min(pageSize, |items| - currentPage * pageSize) else 0
      ensures forall i :: 0 <= i < |r| ==>
        currentPage * pageSize + i < |items| && r[i] == items[currentPage * pageSize + i]
    {
      PageSlice(items, pageSize, currentPage)
    }

    /** The `getFlowBitePages` view: every page when there are at most five,
        otherwise the window from `WindowStart(currentPage)`; at most five
        buttons, each naming an existing page, active exactly on the current
        one, and when the current page exists exactly one is active. */
    function GetFlowBitePages(): (r: seq<PageButton>)
      reads this
      requires pageSize > 0
      ensures TotalPages() <= PAGES_TO_SHOW ==>
        |r| == TotalPages() && forall i :: 0 <= i < |r| ==> r[i].name == i + 1
      ensures TotalPages() > PAGES_TO_SHOW ==>
        |r| == Max(0, Min(TotalPages(), WindowStart(currentPage) + PAGES_TO_SHOW) - WindowStart(currentPage)) &&
        forall i :: 0 <= i < |r| ==> r[i].name == WindowStart(currentPage) + i + 1
      ensures currentPage < TotalPages() ==>
        exists i :: 0 <= i < |r| && r[i].active && r[i].name == currentPage + 1 &&
          forall j :: 0 <= j < |r| && r[j].active ==> j == i
      ensures |r| <= PAGES_TO_SHOW
      ensures forall i :: 0 <= i < |r| ==> 1 <= r[i].name <= TotalPages()
      ensures forall i :: 0 <= i < |r| ==> (r[i].active <==> r[i].name == currentPage + 1)
    {
      if currentPage < TotalPages() then
        ExactlyOneActive(TotalPages(), currentPage);
        PageWindow(TotalPages(), currentPage)
      else
        PageWindow(TotalPages(), currentPage)
    }

    method NextPage()
      requires Valid()
      modifies this
      ensures Valid()
      ensures items == old(items) && pageSize == old(pageSize)
      ensures currentPage == if old(currentPage) < TotalPages() - 1 then old(currentPage) + 1 else old(currentPage)
    {
      if currentPage < TotalPages() - 1 {
        currentPage := currentPage + 1;
      }
    }

    method PreviousPage()
      requires Valid()
      modifies this
      ensures Valid()
      ensures items == old(items) && pageSize == old(pageSize)
      ensures currentPage == if old(currentPage) > 0 then old(currentPage) - 1 else old(currentPage)
    {
      if currentPage > 0 {
        currentPage := currentPage - 1;
      }
    }

    method GoToPage(page: int)
      requires Valid()
      modifies this
      ensures Valid()
      ensures items == old(items) && pageSize == old(pageSize)
      ensures currentPage == if 0 <= page < TotalPages() then page else old(currentPage)
    {
      if page >= 0 && page < TotalPages() {
        currentPage := page;
      }
    }

    /** Restores the invariant from any state with a positive page size, which
        `UpdateItems` relies on: it replaces `items` first. */
    method Reset()
      requires pageSize > 0
      modifies this
      ensures Valid()
      ensures items == old(items) && pageSize == old(pageSize)
      ensures currentPage == 0
    {
      currentPage := 0;
    }

    method UpdateItems(newItems: seq<T>)
      requires Valid()
      modifies this
      ensures Valid()
      ensures items == newItems && pageSize == old(pageSize)
      ensures currentPage == 0
    {
      items := newItems;
      Reset();
    }
  }
}
