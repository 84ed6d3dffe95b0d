/** The bookings list endpoint (app/api/bookings/route.ts): reads the
    filters and paging from the query string, keeps the bookings that pass
    every filter, orders them newest first and returns one page of them with
    the totals. The storage query is modelled as a filter, a sort and a
    slice over the bookings table. */
module BookingsRoute {
  import opened Types
  import opened Strings
  import opened Ordering
  import opened Query

  /** The query-string filters; a missing or empty parameter is `None`, and
      `page`/`per_page` are the results of `parseInt` (`None` for NaN). */
  datatype Filters = Filters(
    website_id: Option<string>,
    status: Option<string>,
    date_from: Option<string>,
    date_to: Option<string>,
    search: Option<string>,
    page: Option<int>,
    per_page: Option<int>)

  function FiltersOf(params: Entries): (f: Filters)
    ensures f.website_id.Some? <==> Truthy(Get(params, "website_id"))
    ensures f.website_id.Some? ==> f.website_id == Get(params, "website_id")
    ensures f.status.Some? <==> Truthy(Get(params, "status"))
    ensures f.status.Some? ==> f.status == Get(params, "status")
    ensures f.date_from.Some? <==> Truthy(Get(params, "date_from"))
    ensures f.date_from.Some? ==> f.date_from == Get(params, "date_from")
    ensures f.date_to.Some? <==> Truthy(Get(params, "date_to"))
    ensures f.date_to.Some? ==> f.date_to == Get(params, "date_to")
    ensures f.search.Some? <==> Truthy(Get(params, "search"))
    ensures f.search.Some? ==> f.search.value != [] && f.search == Get(params, "search")
    ensures Truthy(Get(params, "page")) ==> f.page == ParseInt(Get(params, "page").value)
    ensures Truthy(Get(params, "per_page")) ==> f.per_page == ParseInt(Get(params, "per_page").value)
    ensures !Truthy(Get(params, "page")) ==> f.page == Some(1)
    ensures !Truthy(Get(params, "per_page")) ==> f.per_page == Some(20)
  {
    var pageText := OrElse(Get(params, "page"), "1");
    var perPageText := OrElse(Get(params, "per_page"), "20");
    assert !Truthy(Get(params, "page")) ==> ParseInt(pageText) == Some(1) by {
      if !Truthy(Get(params, "page")) { ReadsOne(pageText); }
    }
    assert !Truthy(Get(params, "per_page")) ==> ParseInt(perPageText) == Some(20) by {
      if !Truthy(Get(params, "per_page")) { ReadsTwenty(perPageText); }
    }
    Filters(OrNull(Get(params, "website_id")), OrNull(Get(params, "status")),
            OrNull(Get(params, "date_from")), OrNull(Get(params, "date_to")),
            OrNull(Get(params, "search")),
            ParseInt(pageText), ParseInt(perPageText))
  }

  /** The fallback page text reads as 1. */
  lemma ReadsOne(s: string)
    requires s == "1"
    ensures ParseInt(s) == Some(1)
  {
    ParseIntDigits(s);
    assert s[..0] == [];
  }

  /** The fallback page-size text reads as 20. */
  lemma ReadsTwenty(s: string)
    requires s == "20"
    ensures ParseInt(s) == Some(20)
  {
    var t := s[..1];
    assert t == "2" && t[..0] == [];
    assert DigitsValue(t) == 2;
    assert s[|s| - 1] == '0';
    assert DigitsValue(s) == DigitsValue(t) * 10;
    ParseIntDigits(s);
  }

  /** `filters.page || 1`: NaN and 0 fall back to the first page. */
  function PageOf(f: Filters): (page: int)
    ensures page != 0
    ensures f.page.Some? && f.page.value != 0 ==> page == f.page.value
  {
    if f.page.Some? && f.page.value != 0 then f.page.value else 1
  }

  /** `Math.min(filters.per_page || 20, 100)`. */
  function PerPageOf(f: Filters): (perPage: int)
    ensures perPage <= 100
    ensures f.per_page.None? || f.per_page.value == 0 ==> perPage == 20
    ensures f.per_page.Some? && f.per_page.value != 0 ==> perPage == if f.per_page.value < 100 then f.per_page.value else 100
  {
    var n := if f.per_page.Some? && f.per_page.value != 0 then f.per_page.value else 20;
    if n < 100 then n else 100
  }

  /** A case-insensitive substring test (`ilike '%sub%'`). */
  predicate ContainsIgnoringCase(s: string, sub: string)
  {
    Contains(ToLower(s), ToLower(sub))
  }

  /** The booking passes every filter that is set. */
  predicate Matches(b: Booking, f: Filters)
  {
    (f.website_id.Some? ==> b.data.website_id == f.website_id.value) &&
    (f.status.Some? ==> b.data.status == f.status.value) &&
    (f.date_from.Some? ==> StrLe(f.date_from.value, b.data.activity_date)) &&
    (f.date_to.Some? ==> StrLe(b.data.activity_date, f.date_to.value)) &&
    (f.search.Some? ==>
      ContainsIgnoringCase(b.data.booking_ref, f.search.value) ||
      ContainsIgnoringCase(b.data.customer_name, f.search.value) ||
      ContainsIgnoringCase(b.data.customer_email, f.search.value))
  }

  /** The bookings that pass the filters, in table order. */
  function FilterBookings(bookings: seq<Booking>, f: Filters): (r: seq<Booking>)
    ensures |r| <= |bookings|
    ensures forall b :: b in r <==> b in bookings && Matches(b, f)
    ensures multiset(r) <= multiset(bookings)
  {
    if bookings == [] then []
    else
      assert bookings == [bookings[0]] + bookings[1..];
      (if Matches(bookings[0], f) then [bookings[0]] else []) + FilterBookings(bookings[1..], f)
  }

  function CreatedAt(b: Booking): string
  {
    b.created_at
  }

  /** `.range(offset, offset + perPage - 1)`: at most `perPage` rows from
      position `offset` on; nothing when `offset` is past the end. */
  function Window<T>(s: seq<T>, offset: nat, perPage: nat): (r: seq<T>)
    ensures |r| == if offset >= |s| then 0 else if |s| - offset < perPage then |s| - offset else perPage
    ensures forall i :: 0 <= i < |r| ==> r[i] == s[offset + i]
  {
    if offset >= |s| then []
    else if |s| - offset < perPage then s[offset..]
    else s[offset..offset + perPage]
  }

  /** `Math.ceil(count / perPage)`. */
  function CeilDiv(count: nat, perPage: nat): (r: nat)
    requires perPage >= 1
    ensures r * perPage >= count
    ensures r == 0 || (r - 1) * perPage < count
  {
    (count + perPage - 1) / perPage
  }

  /** One page of bookings with the totals. */
  datatype Page = Page(data: seq<Booking>, total: nat, page: int, per_page: int, total_pages: nat)

  /** The storage query for the filters: the matching rows, newest first,
      one page of them, with the exact count. A negative offset, a
      non-positive page size, or an offset beyond the exact count is a range
      storage refuses, which the route reports as a server error. */
  function QueryPage(bookings: seq<Booking>, f: Filters): (r: Response<Page>)
    ensures r.status == 200 || r == Fail(500, "Internal server error", ServerError)
  {
    var page := PageOf(f);
    var perPage := PerPageOf(f);
    var offset := (page - 1) * perPage;
    var matching := FilterBookings(bookings, f);
    if offset < 0 || perPage < 1 || offset > |matching| then Fail(500, "Internal server error", ServerError)
    else
      var sorted := SortBy(matching, CreatedAt, true);
      Response(200, Success(Page(Window(sorted, offset, perPage), |matching|, page, perPage,
                                 CeilDiv(|matching|, perPage)), None))
  }

  /** `GET /api/bookings`. */
  function ListBookings(user: Option<string>, bookings: seq<Booking>, params: Entries): (r: Response<Page>)
    ensures r.status == 401 <==> user.None?
    ensures user.None? ==> r == Fail(401, "Unauthorized", AuthFailed)
    ensures user.Some? ==> r == QueryPage(bookings, FiltersOf(params))
  {
    if user.None? then Fail(401, "Unauthorized", AuthFailed)
    else
      var f := FiltersOf(params);
      QueryPage(bookings, f)
  }

  // ---------------------------------------------------------------------
  // Properties

  /** Missing, empty, zero and non-numeric paging parameters fall back to
      page 1 of 20; a page size is never above 100. */
  lemma PagingDefaults(params: Entries)
    ensures var f := FiltersOf(params);
      (!Truthy(Get(params, "page")) || ParseInt(Get(params, "page").value) in {None, Some(0)} ==> PageOf(f) == 1) &&
      (!Truthy(Get(params, "per_page")) ==> PerPageOf(f) == 20) &&
      PerPageOf(f) <= 100
  {
  }

  lemma MulMonotone(a: nat, b: nat, c: nat)
    requires a <= b
    ensures a * c <= b * c
  {
  }

  /** Every element of a run of a permutation of `t` is an element of `t`. */
  lemma WindowMembers<T>(s: seq<T>, t: seq<T>, offset: nat, perPage: nat)
    requires multiset(s) == multiset(t)
    ensures forall x :: x in Window(s, offset, perPage) ==> x in t
  {
    var w := Window(s, offset, perPage);
    forall x | x in w ensures x in t {
      var i :| 0 <= i < |w| && w[i] == x;
      assert x == s[offset + i];
      assert x in multiset(s);
    }
  }

  /** A contiguous run of a sorted sequence is sorted. */
  lemma WindowSorted<T>(s: seq<T>, offset: nat, perPage: nat, key: T -> string, descending: bool)
    requires SortedBy(s, key, descending)
    ensures SortedBy(Window(s, offset, perPage), key, descending)
  {
    var r := Window(s, offset, perPage);
    forall i, j | 0 <= i < j < |r| ensures InOrder(key(r[i]), key(r[j]), descending) {
      assert r[i] == s[offset + i] && r[j] == s[offset + j];
    }
  }

  /** The rows of a served page pass the filters, are rows of the table,
      come newest first and are at most `per_page` many. */
  lemma ServedRows(bookings: seq<Booking>, f: Filters)
    requires QueryPage(bookings, f).status == 200
    ensures var p := QueryPage(bookings, f).body.data;
      (forall b :: b in p.data ==> b in bookings && Matches(b, f)) &&
      SortedBy(p.data, CreatedAt, true) &&
      |p.data| <= p.per_page
  {
    var perPage := PerPageOf(f);
    var offset := (PageOf(f) - 1) * perPage;
    var matching := FilterBookings(bookings, f);
    var sorted := SortBy(matching, CreatedAt, true);
    WindowSorted(sorted, offset, perPage, CreatedAt, true);
    WindowMembers(sorted, matching, offset, perPage);
  }

  /** A served page reports the page it was asked for, a page size from 1
      to 100, the number of matching rows as `total`, and just enough pages
      of that size to hold them. */
  lemma ServedTotals(bookings: seq<Booking>, f: Filters)
    requires QueryPage(bookings, f).status == 200
    ensures var p := QueryPage(bookings, f).body.data;
      p.page == PageOf(f) && p.per_page == PerPageOf(f) && 1 <= p.per_page <= 100 &&
      p.total == |FilterBookings(bookings, f)| &&
      p.total_pages == CeilDiv(p.total, p.per_page)
  {
  }

  /** The sorted rows are as many as the matching ones. */
  lemma SortedCount(bookings: seq<Booking>, f: Filters)
    ensures |SortBy(FilterBookings(bookings, f), CreatedAt, true)| == |FilterBookings(bookings, f)|
  {
    var matching := FilterBookings(bookings, f);
    assert |multiset(SortBy(matching, CreatedAt, true))| == |multiset(matching)|;
  }

  /** Asking for rows past the matching ones: an offset beyond the count
      is refused with 500, while an offset exactly at the count (page 1 of
      no rows, or the page after a full last page) is served empty. */
  lemma PastLastPageFails(bookings: seq<Booking>, f: Filters)
    ensures var offset := (PageOf(f) - 1) * PerPageOf(f);
      var count := |FilterBookings(bookings, f)|;
      (offset > count ==> QueryPage(bookings, f) == Fail(500, "Internal server error", ServerError)) &&
      (offset == count && PerPageOf(f) >= 1 ==>
         QueryPage(bookings, f).status == 200 && QueryPage(bookings, f).body.data.data == [])
  {
    var perPage := PerPageOf(f);
    var offset := (PageOf(f) - 1) * perPage;
    var matching := FilterBookings(bookings, f);
    if offset == |matching| && perPage >= 1 {
      var sorted := SortBy(matching, CreatedAt, true);
      SortedCount(bookings, f);
      assert Window(sorted, offset, perPage) == [];
    }
  }

  /** A served page beyond the last one holds no rows: it can only be the
      page whose offset is exactly the count. */
  lemma PastLastPageEmpty(bookings: seq<Booking>, f: Filters)
    requires QueryPage(bookings, f).status == 200
    ensures var p := QueryPage(bookings, f).body.data;
      p.page > p.total_pages ==> p.data == []
  {
    var perPage := PerPageOf(f);
    var page := PageOf(f);
    var offset := (page - 1) * perPage;
    var matching := FilterBookings(bookings, f);
    var sorted := SortBy(matching, CreatedAt, true);
    var n := CeilDiv(|matching|, perPage);
    SortedCount(bookings, f);
    if page > n {
      MulMonotone(n, page - 1, perPage);
      assert offset >= |sorted|;
      assert Window(sorted, offset, perPage) == [];
    }
  }

  /** The first page holds the newest `per_page` matching rows, or all of
      them when there are fewer. */
  lemma FirstPageFull(bookings: seq<Booking>, f: Filters)
    requires QueryPage(bookings, f).status == 200 && PageOf(f) == 1
    ensures var p := QueryPage(bookings, f).body.data;
      p.data == Window(SortBy(FilterBookings(bookings, f), CreatedAt, true), 0, p.per_page) &&
      |p.data| == if p.total < p.per_page then p.total else p.per_page
  {
    var perPage := PerPageOf(f);
    assert (PageOf(f) - 1) * perPage == 0;
    SortedCount(bookings, f);
  }
}
