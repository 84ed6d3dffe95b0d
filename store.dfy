/** The four storage tables the routes read and write (websites, bookings,
    sync_logs, admin_users), held in one object whose fields the route
    handlers update, with the uniqueness the tables' keys guarantee. */
module Store {
  import opened Types

  /** A booking row belongs to this source website and source booking. */
  predicate HasKey(b: Booking, websiteId: string, sourceId: string)
  {
    b.data.website_id == websiteId && b.data.source_booking_id == sourceId
  }

  /** No two bookings share (website_id, source_booking_id). */
  predicate UniqueBookingKeys(bookings: seq<Booking>)
  {
    forall i, j :: 0 <= i < j < |bookings| ==>
      !HasKey(bookings[j], bookings[i].data.website_id, bookings[i].data.source_booking_id)
  }

  /** No two bookings share an id. */
  predicate UniqueBookingIds(bookings: seq<Booking>)
  {
    forall i, j :: 0 <= i < j < |bookings| ==> bookings[i].id != bookings[j].id
  }

  predicate FreshBookingId(bookings: seq<Booking>, id: string)
  {
    forall i :: 0 <= i < |bookings| ==> bookings[i].id != id
  }

  /** Website ids and API keys are unique. */
  predicate UniqueWebsites(websites: seq<Website>)
  {
    forall i, j :: 0 <= i < j < |websites| ==>
      websites[i].id != websites[j].id && websites[i].api_key != websites[j].api_key
  }

  predicate UniqueAdminIds(admins: seq<AdminUser>)
  {
    forall i, j :: 0 <= i < j < |admins| ==> admins[i].id != admins[j].id
  }

  /** The position of the booking with this key, if there is one. */
  function FindBooking(bookings: seq<Booking>, websiteId: string, sourceId: string): (r: Option<nat>)
    ensures r.Some? ==> r.value < |bookings| && HasKey(bookings[r.value], websiteId, sourceId)
    ensures r.None? ==> forall i :: 0 <= i < |bookings| ==> !HasKey(bookings[i], websiteId, sourceId)
  {
    if bookings == [] then None
    else if HasKey(bookings[|bookings| - 1], websiteId, sourceId) then Some(|bookings| - 1)
    else FindBooking(bookings[..|bookings| - 1], websiteId, sourceId)
  }

  class Database {
    var websites: seq<Website>
    var bookings: seq<Booking>
    var syncLogs: seq<SyncLog>
    var adminUsers: seq<AdminUser>

    /** The tables' key constraints. */
    predicate Valid()
      reads this
    {
      UniqueWebsites(websites) && UniqueBookingKeys(bookings) && UniqueBookingIds(bookings) && UniqueAdminIds(adminUsers)
    }

    constructor ()
      ensures websites == [] && bookings == [] && syncLogs == [] && adminUsers == []
      ensures Valid()
    {
      websites, bookings, syncLogs, adminUsers := [], [], [], [];
    }
  }
}
