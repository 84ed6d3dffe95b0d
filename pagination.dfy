/** The pagination bar under the bookings table
    (components/dashboard/pagination.tsx): the "Showing x to y of n" range,
    the list of page buttons with ellipses, and the two navigation handlers
    that rewrite the query string. */
module Pagination {
  import opened Types
  import opened Strings
  import opened Query
  import BookingsRoute

  // ---------------------------------------------------------------------
  // The "Showing x to y" range

  function StartItem(currentPage: int, perPage: int, total: int): (r: int)
    ensures total == 0 ==> r == 0
  {
    if total == 0 then 0 else (currentPage - 1) * perPage + 1
  }

  function EndItem(currentPage: int, perPage: int, total: int): (r: int)
    ensures r <= total
  {
    if currentPage * perPage < total then currentPage * perPage else total
  }

  lemma MulStep(page: nat, perPage: nat)
    ensures (page + 1) * perPage == page * perPage + perPage
  {
  }

  /** For a page that exists, the range shown names exactly the rows the
      server returns for that page: it starts after the earlier pages and
      counts as many rows as the page window holds. */
  lemma RangeMatchesServedPage<T>(rows: seq<T>, currentPage: int, perPage: int)
    requires perPage >= 1 && |rows| > 0
    requires 1 <= currentPage <= BookingsRoute.CeilDiv(|rows|, perPage)
    ensures var offset := (currentPage - 1) * perPage;
      StartItem(currentPage, perPage, |rows|) == offset + 1 &&
      EndItem(currentPage, perPage, |rows|) - StartItem(currentPage, perPage, |rows|) + 1 ==
        |BookingsRoute.Window(rows, offset, perPage)|
  {
    var offset := (currentPage - 1) * perPage;
    var n := BookingsRoute.CeilDiv(|rows|, perPage);
    MulStep(currentPage - 1, perPage);
    assert offset < |rows| by {
      assert (n - 1) * perPage < |rows|;
      BookingsRoute.MulMonotone(currentPage - 1, n - 1, perPage);
    }
  }

  // ---------------------------------------------------------------------
  // The page buttons

  /** A numbered page button or an ellipsis. */
  datatype PageEntry = Num(n: int) | Ellipsis

  /** The buttons from `a` to `b` in order; none when `b < a`. */
  function Range(a: int, b: int): (r: seq<PageEntry>)
    ensures |r| == if b < a then 0 else b - a + 1
    ensures forall i :: 0 <= i < |r| ==> r[i] == Num(a + i)
  {
    if b < a then [] else seq(b - a + 1, i => Num(a + i))
  }

  /** `getVisiblePages()` as a value: every page when there are at most
      seven; otherwise the first, the current one with its neighbours, and
      the last, with an ellipsis for each gap. */
  function VisiblePages(currentPage: int, totalPages: int): seq<PageEntry>
  {
    if totalPages <= 7 then Range(1, totalPages)
    else
      [Num(1)]
      + (if currentPage > 3 then [Ellipsis] else [])
      + Range(Max(2, currentPage - 1), Min(totalPages - 1, currentPage + 1))
      + (if currentPage < totalPages - 2 then [Ellipsis] else [])
      + (if totalPages > 1 then [Num(totalPages)] else [])
  }

  /** One loop of `getVisiblePages`: pushes the pages from `a` to `b`. */
  method PushRange(pages: seq<PageEntry>, a: int, b: int) returns (r: seq<PageEntry>)
    ensures r == pages + Range(a, b)
  {
    r := pages;
    var i := a;
    while i <= b
      invariant a <= i <= Max(a, b + 1)
      invariant r == pages + Range(a, i - 1)
    {
      r := r + [Num(i)];
      i := i + 1;
    }
  }

  /** `getVisiblePages()`, pushing one entry at a time. */
  method GetVisiblePages(currentPage: int, totalPages: int) returns (pages: seq<PageEntry>)
    ensures pages == VisiblePages(currentPage, totalPages)
  {
    var showEllipsis := totalPages > 7;
    if !showEllipsis {
      pages := PushRange([], 1, totalPages);
      assert pages == Range(1, totalPages);
    } else {
      pages := [Num(1)];
      if currentPage > 3 {
        pages := pages + [Ellipsis];
      }
      pages := PushRange(pages, Max(2, currentPage - 1), Min(totalPages - 1, currentPage + 1));
      if currentPage < totalPages - 2 {
        pages := pages + [Ellipsis];
      }
      if totalPages > 1 {
        pages := pages + [Num(totalPages)];
      }
    }
  }

  /** The numbered entries, in order. */
  predicate StrictlyIncreasing(pages: seq<PageEntry>)
  {
    forall i, j :: 0 <= i < j < |pages| && pages[i].Num? && pages[j].Num? ==> pages[i].n < pages[j].n
  }

  /** Up to seven pages, every page is listed in order. */
  lemma ShortListShowsEveryPage(currentPage: int, totalPages: int)
    requires totalPages <= 7
    ensures var pages := VisiblePages(currentPage, totalPages);
      |pages| == (if totalPages < 0 then 0 else totalPages) &&
      forall i :: 0 <= i < |pages| ==> pages[i] == Num(i + 1)
  {
  }

  /** Where each part of a long list sits: page 1, then the leading
      ellipsis (if any), then the run around the current page, then the
      trailing ellipsis (if any), then the last page. */
  lemma LongListLayout(currentPage: int, totalPages: int)
    requires totalPages > 7
    ensures var pages := VisiblePages(currentPage, totalPages);
      var k := if currentPage > 3 then 2 else 1;
      var mid := Range(Max(2, currentPage - 1), Min(totalPages - 1, currentPage + 1));
      |mid| <= 3 &&
      |pages| == k + |mid| + (if currentPage < totalPages - 2 then 1 else 0) + 1 &&
      pages[0] == Num(1) && pages[|pages| - 1] == Num(totalPages) &&
      (forall i :: 1 <= i < k ==> pages[i] == Ellipsis) &&
      (forall i :: k <= i < k + |mid| ==> pages[i] == mid[i - k]) &&
      (forall i :: k + |mid| <= i < |pages| - 1 ==> pages[i] == Ellipsis)
  {
    var lead := if currentPage > 3 then [Ellipsis] else [];
    var mid := Range(Max(2, currentPage - 1), Min(totalPages - 1, currentPage + 1));
    var trail := if currentPage < totalPages - 2 then [Ellipsis] else [];
    var pages := [Num(1)] + lead + mid + trail + [Num(totalPages)];
    assert VisiblePages(currentPage, totalPages) == pages;
  }

  /** Beyond seven pages: at most seven entries, the first button is page 1
      and the last is the last page, and the numbers increase and stay in
      range. */
  lemma LongListShape(currentPage: int, totalPages: int)
    requires totalPages > 7
    ensures var pages := VisiblePages(currentPage, totalPages);
      3 <= |pages| <= 7 && pages[0] == Num(1) && pages[|pages| - 1] == Num(totalPages) &&
      (forall i :: 0 <= i < |pages| && pages[i].Num? ==> 1 <= pages[i].n <= totalPages) &&
      StrictlyIncreasing(pages)
  {
    LongListLayout(currentPage, totalPages);
    var pages := VisiblePages(currentPage, totalPages);
    var k := if currentPage > 3 then 2 else 1;
    var mid := Range(Max(2, currentPage - 1), Min(totalPages - 1, currentPage + 1));
    forall i, j | 0 <= i < j < |pages| && pages[i].Num? && pages[j].Num? ensures pages[i].n < pages[j].n {
      if i == 0 {
        assert 2 <= pages[j].n;
      } else if j < |pages| - 1 {
        assert pages[i] == mid[i - k] && pages[j] == mid[j - k];
      }
    }
  }

  /** Beyond seven pages, for a current page that exists: it is shown, a
      leading ellipsis appears exactly when it is past 3, and a trailing one
      exactly when it is more than two before the end. */
  lemma LongListAroundCurrent(currentPage: int, totalPages: int)
    requires totalPages > 7 && 1 <= currentPage <= totalPages
    ensures var pages := VisiblePages(currentPage, totalPages);
      Num(currentPage) in pages &&
      (pages[1] == Ellipsis <==> currentPage > 3) &&
      (pages[|pages| - 2] == Ellipsis <==> currentPage < totalPages - 2)
  {
    LongListLayout(currentPage, totalPages);
    var pages := VisiblePages(currentPage, totalPages);
    var k := if currentPage > 3 then 2 else 1;
    var start := Max(2, currentPage - 1);
    var mid := Range(start, Min(totalPages - 1, currentPage + 1));
    if currentPage == 1 {
      assert pages[0] == Num(currentPage);
    } else if currentPage == totalPages {
      assert pages[|pages| - 1] == Num(currentPage);
    } else {
      assert pages[k + currentPage - start] == mid[currentPage - start] == Num(currentPage);
    }
    if currentPage <= 3 {
      assert pages[1] == mid[0];
    }
    if totalPages - 2 <= currentPage {
      assert pages[|pages| - 2] == mid[|mid| - 1];
    }
  }

  // ---------------------------------------------------------------------
  // Navigation

  /** `goToPage(page)`: the query string with `page` set and every other
      parameter kept. */
  method GoToPage(current: Entries, page: int) returns (pushed: Entries)
    ensures Get(pushed, "page") == Some(IntToString(page))
    ensures forall name :: name != "page" ==> Get(pushed, name) == Get(current, name)
  {
    var params := new SearchParams(current);
    params.SetParam("page", IntToString(page));
    pushed := params.entries;
  }

  /** `changePageSize(newSize)`: `per_page` set to the new size, back to
      page 1, every other parameter kept. */
  method ChangePageSize(current: Entries, newSize: int) returns (pushed: Entries)
    ensures Get(pushed, "per_page") == Some(IntToString(newSize))
    ensures Get(pushed, "page") == Some("1")
    ensures forall name :: name != "page" && name != "per_page" ==> Get(pushed, name) == Get(current, name)
  {
    var params := new SearchParams(current);
    params.SetParam("per_page", IntToString(newSize));
    params.SetParam("page", "1");
    pushed := params.entries;
  }

  /** The sizes offered in the "Per page" menu. */
  const PageSizeOptions: seq<int> := [10, 20, 50, 100]

  /** Every size offered is one the server serves unchanged. */
  lemma PageSizesWithinCap(f: BookingsRoute.Filters, i: nat)
    requires i < |PageSizeOptions|
    requires f.per_page == Some(PageSizeOptions[i])
    ensures BookingsRoute.PerPageOf(f) == PageSizeOptions[i]
  {
  }
}
