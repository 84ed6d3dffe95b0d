/** The logic of the bookings table (components/dashboard/bookings-table.tsx):
    the ride-ticket counts shown per booking, whether a booking needs
    transport, and the sort cycle of a column header. */
module BookingsTable {
  import opened Types
  import opened Strings
  import opened Query

  // ---------------------------------------------------------------------
  // Ticket counts

  datatype TicketCounts = TicketCounts(ride1: int, ride2: int, ride3: int, doubling: int)

  const NoTickets := TicketCounts(0, 0, 0, 0)

  /** The ticket kind an add-on counts towards, if any. */
  datatype Bucket = Ride1 | Ride2 | Ride3 | Doubling | NoBucket

  /** The add-on's name, lower-cased, with a missing name read as "". */
  function AddonName(a: Addon): string
  {
    ToLower(OrElse(a.name, ""))
  }

  /** The add-on's quantity, 0 when missing. */
  function AddonQuantity(a: Addon): int
  {
    OrZero(a.quantity)
  }

  /** The first bucket whose words the name contains: each bucket is chosen
      exactly when its words occur and no earlier bucket's words do. */
  function BucketOf(a: Addon): (b: Bucket)
    ensures var name := AddonName(a);
      var one := Contains(name, "1 ride") || Contains(name, "1-ride");
      var two := Contains(name, "2 ride") || Contains(name, "2-ride");
      var three := Contains(name, "3 ride") || Contains(name, "3-ride");
      var doubling := Contains(name, "doubling");
      (b == Ride1 <==> one) &&
      (b == Ride2 <==> !one && two) &&
      (b == Ride3 <==> !one && !two && three) &&
      (b == Doubling <==> !one && !two && !three && doubling) &&
      (b == NoBucket <==> !one && !two && !three && !doubling)
  {
    var name := AddonName(a);
    if Contains(name, "1 ride") || Contains(name, "1-ride") then Ride1
    else if Contains(name, "2 ride") || Contains(name, "2-ride") then Ride2
    else if Contains(name, "3 ride") || Contains(name, "3-ride") then Ride3
    else if Contains(name, "doubling") then Doubling
    else NoBucket
  }

  /** The counts after adding one add-on's quantity to its bucket. */
  function AddTo(c: TicketCounts, a: Addon): TicketCounts
  {
    var q := AddonQuantity(a);
    match BucketOf(a)
    case Ride1 => c.(ride1 := c.ride1 + q)
    case Ride2 => c.(ride2 := c.ride2 + q)
    case Ride3 => c.(ride3 := c.ride3 + q)
    case Doubling => c.(doubling := c.doubling + q)
    case NoBucket => c
  }

  /** The counts of a list of add-ons, taken in order. */
  function TicketCountsOf(addons: seq<Addon>): TicketCounts
  {
    if addons == [] then NoTickets
    else AddTo(TicketCountsOf(addons[..|addons| - 1]), addons[|addons| - 1])
  }

  /** `getTicketCounts(addons)`: one pass over the add-ons. */
  method GetTicketCounts(addons: seq<Addon>) returns (counts: TicketCounts)
    ensures counts == TicketCountsOf(addons)
  {
    counts := NoTickets;
    if |addons| == 0 {
      return;
    }
    for i := 0 to |addons|
      invariant counts == TicketCountsOf(addons[..i])
    {
      assert addons[..i + 1][..i] == addons[..i];
      counts := AddTo(counts, addons[i]);
    }
    assert addons[..|addons|] == addons;
  }

  function Total(c: TicketCounts): int
  {
    c.ride1 + c.ride2 + c.ride3 + c.doubling
  }

  function QuantitySum(addons: seq<Addon>): int
  {
    if addons == [] then 0 else QuantitySum(addons[..|addons| - 1]) + AddonQuantity(addons[|addons| - 1])
  }

  /** The quantities of the add-ons that fall in no bucket. */
  function IgnoredSum(addons: seq<Addon>): int
  {
    if addons == [] then 0
    else IgnoredSum(addons[..|addons| - 1]) +
         (if BucketOf(addons[|addons| - 1]) == NoBucket then AddonQuantity(addons[|addons| - 1]) else 0)
  }

  /** Every quantity is counted once, in its bucket or among the ignored. */
  lemma {:induction false} CountsPartitionQuantities(addons: seq<Addon>)
    ensures Total(TicketCountsOf(addons)) + IgnoredSum(addons) == QuantitySum(addons)
  {
    if addons != [] {
      CountsPartitionQuantities(addons[..|addons| - 1]);
    }
  }

  predicate NonNegativeQuantities(addons: seq<Addon>)
  {
    forall i :: 0 <= i < |addons| ==> AddonQuantity(addons[i]) >= 0
  }

  lemma {:induction false} IgnoredSumNonNegative(addons: seq<Addon>)
    requires NonNegativeQuantities(addons)
    ensures IgnoredSum(addons) >= 0
  {
    if addons != [] {
      IgnoredSumNonNegative(addons[..|addons| - 1]);
    }
  }

  /** With no negative quantity, the tickets shown never exceed the
      quantities bought. */
  lemma TicketsAtMostQuantities(addons: seq<Addon>)
    requires NonNegativeQuantities(addons)
    ensures Total(TicketCountsOf(addons)) <= QuantitySum(addons)
  {
    CountsPartitionQuantities(addons);
    IgnoredSumNonNegative(addons);
  }

  /** An add-on named for one ride and for doubling counts as one ride. */
  lemma FirstMatchWins(a: Addon)
    requires Contains(AddonName(a), "1 ride") && Contains(AddonName(a), "doubling")
    ensures AddTo(NoTickets, a) == TicketCounts(AddonQuantity(a), 0, 0, 0)
  {
  }

  // ---------------------------------------------------------------------
  // Transport

  /** `hasTransport(booking)`: a transport type that needs the operator to
      move guests. */
  predicate HasTransport(t: Option<TransportType>)
  {
    t.Some? && t.value != SelfArrange && t.value != NoTransport
  }

  /** Exactly hotel pickups and private transfers need transport. */
  lemma HasTransportCases(t: Option<TransportType>)
    ensures HasTransport(t) <==> t == Some(HotelPickup) || t == Some(PrivateTransfer)
  {
  }

  // ---------------------------------------------------------------------
  // Sort cycle

  /** The sort field and direction after a click on `field`'s header:
      a new field sorts ascending; on the sorted field, ascending turns
      descending and anything else clears the sort. */
  function NextSort(field: string, currentField: Option<string>, currentDir: Option<string>): (Option<string>, Option<string>)
  {
    if currentField == Some(field) then
      if currentDir == Some("asc") then (currentField, Some("desc")) else (None, None)
    else (Some(field), Some("asc"))
  }

  /** `handleSort(field)`: the query string pushed after the click. */
  method HandleSort(current: Entries, field: string) returns (pushed: Entries)
    ensures (Get(pushed, "sort_field"), Get(pushed, "sort_dir")) ==
            NextSort(field, Get(current, "sort_field"), Get(current, "sort_dir"))
    ensures forall name :: name != "sort_field" && name != "sort_dir" ==> Get(pushed, name) == Get(current, name)
  {
    var params := new SearchParams(current);
    var currentField := params.GetParam("sort_field");
    var currentDir := params.GetParam("sort_dir");
    if currentField == Some(field) {
      if currentDir == Some("asc") {
        params.SetParam("sort_dir", "desc");
      } else {
        params.DeleteParam("sort_field");
        params.DeleteParam("sort_dir");
      }
    } else {
      params.SetParam("sort_field", field);
      params.SetParam("sort_dir", "asc");
    }
    pushed := params.entries;
  }

  /** Three clicks on a header that is not the sorted one go ascending,
      then descending, then back to unsorted. */
  lemma SortCycle(field: string, currentField: Option<string>, currentDir: Option<string>)
    requires currentField != Some(field)
    ensures var s1 := NextSort(field, currentField, currentDir);
      var s2 := NextSort(field, s1.0, s1.1);
      var s3 := NextSort(field, s2.0, s2.1);
      s1 == (Some(field), Some("asc")) && s2 == (Some(field), Some("desc")) && s3 == (None, None)
  {
  }
}
