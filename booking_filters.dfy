/** The filter bar above the bookings table
    (components/dashboard/booking-filters.tsx): five inputs mirrored into
    the query string, which the bookings list endpoint reads back. Every
    change of a filter drops the `page` parameter so that the list starts
    again from its first page. */
module BookingFilters {
  import opened Types
  import opened Query
  import BookingsRoute

  /** The values of the status filter; "" stands for every status. */
  const StatusFilterValues: seq<string> := ["", "pending", "confirmed", "completed", "cancelled", "refunded", "no_show"]

  /** The status filter offers "all" and then the six booking statuses in
      their declared order. */
  lemma StatusFilterOffersEveryStatus()
    ensures |StatusFilterValues| == |AllStatuses| + 1 && StatusFilterValues[0] == ""
    ensures forall i :: 0 <= i < |AllStatuses| ==> StatusFilterValues[i + 1] == StatusName(AllStatuses[i])
  {
  }

  // ---------------------------------------------------------------------
  // Writing the query string

  /** The names of an update are distinct, as the keys of an object are. */
  predicate DistinctNames(updates: seq<(string, string)>)
  {
    forall i, j :: 0 <= i < j < |updates| ==> updates[i].0 != updates[j].0
  }

  /** The loop of `updateFilters(updates)`: each named parameter is set to
      its value, or removed when the value is empty; every other parameter
      is kept. */
  method ApplyUpdates(params: SearchParams, updates: seq<(string, string)>)
    requires DistinctNames(updates)
    modifies params
    ensures forall i :: 0 <= i < |updates| ==>
      params.GetParam(updates[i].0) == if updates[i].1 != "" then Some(updates[i].1) else None
    ensures forall name :: (forall i :: 0 <= i < |updates| ==> updates[i].0 != name) ==>
      params.GetParam(name) == Get(old(params.entries), name)
  {
    for k := 0 to |updates|
      invariant forall i :: 0 <= i < k ==>
        params.GetParam(updates[i].0) == if updates[i].1 != "" then Some(updates[i].1) else None
      invariant forall name :: (forall i :: 0 <= i < k ==> updates[i].0 != name) ==>
        params.GetParam(name) == Get(old(params.entries), name)
    {
      var (key, value) := updates[k];
      assert forall i :: 0 <= i < k ==> updates[i].0 != key;
      if value != "" {
        params.SetParam(key, value);
      } else {
        params.DeleteParam(key);
      }
    }
  }

  /** `updateFilters(updates)`: each named parameter is set to its value, or
      removed when the value is empty; `page` is removed; every other
      parameter is kept. */
  method UpdateFilters(current: Entries, updates: seq<(string, string)>) returns (pushed: Entries)
    requires DistinctNames(updates)
    ensures Get(pushed, "page").None?
    ensures forall i :: 0 <= i < |updates| && updates[i].0 != "page" ==>
      Get(pushed, updates[i].0) == if updates[i].1 != "" then Some(updates[i].1) else None
    ensures forall name :: name != "page" && (forall i :: 0 <= i < |updates| ==> updates[i].0 != name) ==>
      Get(pushed, name) == Get(current, name)
    ensures BookingsRoute.PageOf(BookingsRoute.FiltersOf(pushed)) == 1
  {
    var params := new SearchParams(current);
    ApplyUpdates(params, updates);
    params.DeleteParam("page");
    pushed := params.entries;
  }

  /** The debounced search effect: `search` set to the typed text, or
      removed when it is empty; `page` removed; every other parameter
      kept. */
  method ApplySearch(current: Entries, search: string) returns (pushed: Entries)
    ensures Get(pushed, "search") == if search != "" then Some(search) else None
    ensures Get(pushed, "page").None?
    ensures forall name :: name != "search" && name != "page" ==> Get(pushed, name) == Get(current, name)
    ensures BookingsRoute.FiltersOf(pushed).search == (if search != "" then Some(search) else None)
    ensures BookingsRoute.PageOf(BookingsRoute.FiltersOf(pushed)) == 1
  {
    var params := new SearchParams(current);
    if search != "" {
      params.SetParam("search", search);
    } else {
      params.DeleteParam("search");
    }
    params.DeleteParam("page");
    pushed := params.entries;
  }

  // ---------------------------------------------------------------------
  // The inputs

  /** The five text inputs and whether the filter panel is shown. */
  datatype FilterInputs = FilterInputs(
    search: string, websiteId: string, status: string, dateFrom: string, dateTo: string, showFilters: bool)

  /** The inputs as first rendered: each from its parameter, "" when it is
      missing, and the panel closed. */
  function InitialInputs(params: Entries): (f: FilterInputs)
    ensures f.search == OrElse(Get(params, "search"), "") && f.websiteId == OrElse(Get(params, "website_id"), "")
    ensures f.status == OrElse(Get(params, "status"), "")
    ensures f.dateFrom == OrElse(Get(params, "date_from"), "") && f.dateTo == OrElse(Get(params, "date_to"), "")
    ensures !f.showFilters
  {
    FilterInputs(OrElse(Get(params, "search"), ""), OrElse(Get(params, "website_id"), ""),
                 OrElse(Get(params, "status"), ""), OrElse(Get(params, "date_from"), ""),
                 OrElse(Get(params, "date_to"), ""), false)
  }

  /** `hasFilters`: a website, status or date bound is chosen; the search
      text does not count. */
  predicate HasFilters(f: FilterInputs)
  {
    f.websiteId != "" || f.status != "" || f.dateFrom != "" || f.dateTo != ""
  }

  /** The number on the filter badge: the website, the status, and the date
      range counted once however many of its ends are set. */
  function BadgeCount(f: FilterInputs): nat
  {
    (if f.websiteId != "" then 1 else 0) + (if f.status != "" then 1 else 0) +
    (if f.dateFrom != "" || f.dateTo != "" then 1 else 0)
  }

  /** The badge shows a number from 1 to 3 exactly when a filter is set, and
      never counts the search text. */
  lemma BadgeMatchesHasFilters(f: FilterInputs, text: string)
    ensures BadgeCount(f) <= 3
    ensures BadgeCount(f) >= 1 <==> HasFilters(f)
    ensures BadgeCount(f.(search := text)) == BadgeCount(f) && (HasFilters(f.(search := text)) <==> HasFilters(f))
  {
  }

  /** Both date bounds set count as one filter. */
  lemma DateRangeCountsOnce(f: FilterInputs)
    requires f.websiteId == "" && f.status == "" && f.dateFrom != "" && f.dateTo != ""
    ensures BadgeCount(f) == 1
  {
  }

  /** The filters the page shows as set are the filters the list endpoint
      applies: a non-empty input is exactly a filter the route reads. */
  lemma InputsMatchRouteFilters(params: Entries)
    ensures var f := InitialInputs(params);
      var r := BookingsRoute.FiltersOf(params);
      (f.websiteId != "" <==> r.website_id.Some?) && (f.status != "" <==> r.status.Some?) &&
      (f.dateFrom != "" <==> r.date_from.Some?) && (f.dateTo != "" <==> r.date_to.Some?) &&
      (HasFilters(f) <==> r.website_id.Some? || r.status.Some? || r.date_from.Some? || r.date_to.Some?)
  {
  }

  /** `clearFilters`: all five inputs emptied, the panel left as it was,
      and the bare bookings path pushed. */
  function ClearFilters(f: FilterInputs): (r: (FilterInputs, string))
    ensures !HasFilters(r.0) && BadgeCount(r.0) == 0 && r.0.search == ""
    ensures r.0.showFilters == f.showFilters
    ensures r.1 == "/bookings"
  {
    (FilterInputs("", "", "", "", "", f.showFilters), "/bookings")
  }

  /** After clearing, the inputs read back from the bare path are the
      cleared inputs, and the list endpoint applies no filter and serves the
      first page of 20. */
  lemma ClearedPathListsEverything(f: FilterInputs)
    ensures var (cleared, _) := ClearFilters(f);
      InitialInputs([]) == cleared.(showFilters := false)
    ensures var r := BookingsRoute.FiltersOf([]);
      r.website_id.None? && r.status.None? && r.date_from.None? && r.date_to.None? && r.search.None? &&
      BookingsRoute.PageOf(r) == 1 && BookingsRoute.PerPageOf(r) == 20
  {
  }
}
