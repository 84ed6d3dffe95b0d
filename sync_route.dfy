/** The inbound sync endpoint (app/api/bookings/sync/route.ts): a source
    website posts a booking event; the route authenticates it, validates and
    normalises the payload, reconciles it with the bookings table keyed by
    (website_id, source_booking_id), appends an inbound audit row and, for a
    newly created booking, hands a notification to the LINE sender. */
module SyncRoute {
  import opened Types
  import opened Strings
  import opened Store
  import opened ApiAuth
  import LineNotify

  datatype SyncResult = SyncResult(booking_id: string)

  // ---------------------------------------------------------------------
  // Validation

  /** The fields a payload must carry, in the order they are reported. */
  const RequiredFields: seq<string> := ["source_booking_id", "booking_ref", "customer.email"]

  /** The required field `field` is absent or empty in the payload. */
  predicate FieldMissing(p: SyncPayload, field: string)
  {
    if field == "source_booking_id" then !Truthy(p.source_booking_id)
    else if field == "booking_ref" then !Truthy(p.booking_ref)
    else !(p.customer.Some? && Truthy(p.customer.value.email))
  }

  /** The fields of `fields` that are missing, in order. */
  function Missing(p: SyncPayload, fields: seq<string>): (r: seq<string>)
    ensures forall f :: f in r <==> f in fields && FieldMissing(p, f)
  {
    if fields == [] then []
    else (if FieldMissing(p, fields[0]) then [fields[0]] else []) + Missing(p, fields[1..])
  }

  /** Every required field is present. */
  predicate Complete(p: SyncPayload)
  {
    Truthy(p.source_booking_id) && Truthy(p.booking_ref) && p.customer.Some? && Truthy(p.customer.value.email)
  }

  /** Nothing is reported missing exactly when the payload is complete, and
      each field that is reported is missing. */
  lemma MissingIffIncomplete(p: SyncPayload)
    ensures Missing(p, RequiredFields) == [] <==> Complete(p)
    ensures forall f :: f in Missing(p, RequiredFields) ==> f in RequiredFields && FieldMissing(p, f)
  {
    var r := Missing(p, RequiredFields);
    if !Complete(p) {
      var f := if !Truthy(p.source_booking_id) then "source_booking_id"
               else if !Truthy(p.booking_ref) then "booking_ref" else "customer.email";
      assert f in RequiredFields && FieldMissing(p, f);
      assert f in r;
    } else {
      MissingRequiredInOrder(p);
    }
  }

  /** The required fields are checked one by one, in order. */
  lemma MissingRequiredInOrder(p: SyncPayload)
    ensures Missing(p, RequiredFields) ==
      (if !Truthy(p.source_booking_id) then ["source_booking_id"] else [])
      + (if !Truthy(p.booking_ref) then ["booking_ref"] else [])
      + (if !(p.customer.Some? && Truthy(p.customer.value.email)) then ["customer.email"] else [])
  {
    var f1 := RequiredFields[1..];
    var f2 := f1[1..];
    assert f1 == ["booking_ref", "customer.email"];
    assert f2 == ["customer.email"];
    assert f2[1..] == [];
    assert Missing(p, f2) == (if FieldMissing(p, "customer.email") then ["customer.email"] else []) + Missing(p, []);
    assert Missing(p, f1) == (if FieldMissing(p, "booking_ref") then ["booking_ref"] else []) + Missing(p, f2);
    assert Missing(p, RequiredFields) == (if FieldMissing(p, "source_booking_id") then ["source_booking_id"] else []) + Missing(p, f1);
  }

  function MissingMessage(missing: seq<string>): string
  {
    "Missing required fields: " + Join(missing, ", ")
  }

  // ---------------------------------------------------------------------
  // Normalisation

  /** The transport's value for a count, 0 when there is no transport or no
      count. */
  function TransportCount(t: Option<Transport>, pick: Transport -> Option<int>): int
  {
    if t.Some? then OrZero(pick(t.value)) else 0
  }

  function TransportText(t: Option<Transport>, pick: Transport -> Option<string>): Option<string>
  {
    if t.Some? then OrNull(pick(t.value)) else None
  }

  /** The row written for a complete payload: the website id always comes
      from the authenticated website, defaults fill absent fields, and empty
      optional strings become null. */
  function BookingDataOf(w: Website, p: SyncPayload): (d: BookingData)
    requires Complete(p)
    ensures d.website_id == w.id
    ensures d.source_booking_id == p.source_booking_id.value && d.booking_ref == p.booking_ref.value
    ensures d.customer_email == p.customer.value.email.value && d.customer_name == p.customer.value.name
    ensures d.discount_amount == (if p.discount_amount.Some? then p.discount_amount.value else 0)
    ensures Truthy(p.currency) ==> d.currency == p.currency.value
    ensures !Truthy(p.currency) ==> d.currency == "THB"
    ensures Truthy(p.status) ==> d.status == p.status.value
    ensures !Truthy(p.status) ==> d.status == "confirmed"
    ensures p.transport.None? ==>
      d.non_players == 0 && d.private_passengers == 0 && d.transport_cost == 0 &&
      d.transport_type.None? && d.hotel_name.None? && d.room_number.None?
    ensures p.transport.Some? ==> var t := p.transport.value;
      d.transport_type == t.kind &&
      (d.hotel_name.Some? <==> Truthy(t.hotel_name)) && (d.hotel_name.Some? ==> d.hotel_name == t.hotel_name) &&
      (d.room_number.Some? <==> Truthy(t.room_number)) && (d.room_number.Some? ==> d.room_number == t.room_number) &&
      d.non_players == (if t.non_players.Some? then t.non_players.value else 0) &&
      d.private_passengers == (if t.private_passengers.Some? then t.private_passengers.value else 0) &&
      d.transport_cost == (if t.cost.Some? then t.cost.value else 0)
    ensures p.addons.None? ==> d.addons == []
    ensures p.addons.Some? ==> d.addons == p.addons.value
    ensures d.package_name == p.package_name && d.package_price == p.package_price &&
      d.activity_date == p.activity_date && d.time_slot == p.time_slot &&
      d.guest_count == p.guest_count && d.total_amount == p.total_amount
    ensures d.customer_phone.Some? <==> Truthy(p.customer.value.phone)
    ensures d.customer_phone.Some? ==> d.customer_phone == p.customer.value.phone
    ensures d.customer_country_code.Some? <==> Truthy(p.customer.value.country_code)
    ensures d.customer_country_code.Some? ==> d.customer_country_code == p.customer.value.country_code
    ensures d.special_requests.Some? <==> Truthy(p.customer.value.special_requests)
    ensures d.special_requests.Some? ==> d.special_requests == p.customer.value.special_requests
    ensures d.stripe_payment_intent_id.Some? <==> Truthy(p.stripe_payment_intent_id)
    ensures d.stripe_payment_intent_id.Some? ==> d.stripe_payment_intent_id == p.stripe_payment_intent_id
    ensures d.source_created_at.Some? <==> Truthy(p.created_at)
    ensures d.source_created_at.Some? ==> d.source_created_at == p.created_at
  {
    var c := p.customer.value;
    BookingData(
      w.id,
      p.source_booking_id.value,
      p.booking_ref.value,
      p.package_name,
      p.package_price,
      p.activity_date,
      p.time_slot,
      p.guest_count,
      p.total_amount,
      OrZero(p.discount_amount),
      OrElse(p.currency, "THB"),
      OrElse(p.status, "confirmed"),
      c.name,
      c.email.value,
      OrNull(c.phone),
      OrNull(c.country_code),
      OrNull(c.special_requests),
      if p.transport.Some? then p.transport.value.kind else None,
      TransportText(p.transport, (t: Transport) => t.hotel_name),
      TransportText(p.transport, (t: Transport) => t.room_number),
      TransportCount(p.transport, (t: Transport) => t.non_players),
      TransportCount(p.transport, (t: Transport) => t.private_passengers),
      TransportCount(p.transport, (t: Transport) => t.cost),
      if p.addons.Some? then p.addons.value else [],
      OrNull(p.stripe_payment_intent_id),
      OrNull(p.created_at))
  }

  /** The status is stored as sent: a value outside the six booking
      statuses reaches the table unchecked. */
  lemma StatusStoredUnchecked(w: Website, p: SyncPayload)
    requires Complete(p) && p.status == Some("partially_refunded")
    ensures !IsBookingStatus(BookingDataOf(w, p).status)
  {
  }

  /** What is handed to the LINE sender for a new booking. The route passes
      no adult or child count. */
  function NotificationOf(w: Website, p: SyncPayload): (n: LineNotify.NotificationData)
    requires Complete(p)
    ensures n.websiteId == w.id && n.websiteName == w.name && n.bookingRef == p.booking_ref.value
    ensures n.adultCount.None? && n.childCount.None? && n.guestCount == p.guest_count
  {
    var c := p.customer.value;
    LineNotify.NotificationData(
      w.id, w.name, p.booking_ref.value, c.name, c.email.value, OrNull(c.phone),
      p.package_name, p.activity_date, p.time_slot, p.guest_count, None, None,
      TransportCount(p.transport, (t: Transport) => t.non_players),
      if p.transport.Some? && p.transport.value.kind.Some? then Some(TransportName(p.transport.value.kind.value)) else None,
      TransportText(p.transport, (t: Transport) => t.hotel_name),
      TransportText(p.transport, (t: Transport) => t.room_number),
      p.total_amount, OrElse(p.currency, "THB"), OrElse(p.status, "confirmed"),
      OrNull(c.special_requests))
  }

  // ---------------------------------------------------------------------
  // Reconciliation

  /** The bookings after an accepted event, the id of the row it touched and
      the event type logged for it. */
  datatype Reconciled = Reconciled(bookings: seq<Booking>, bookingId: string, eventType: string)

  function NewBooking(id: string, data: BookingData, now: string): Booking
  {
    Booking(id, data, None, None, now, now)
  }

  /** The per-key state machine: `booking.created` on an absent key inserts
      and on a present key is refused (`None`); any other event overwrites
      the row's sync-owned fields and `updated_at`, or inserts when the row
      is missing. */
  function Reconcile(bookings: seq<Booking>, data: BookingData, event: SyncEvent, now: string, newId: string): Option<Reconciled>
  {
    var existing := FindBooking(bookings, data.website_id, data.source_booking_id);
    if event == BookingCreated then
      if existing.Some? then None
      else Some(Reconciled(bookings + [NewBooking(newId, data, now)], newId, "create"))
    else if existing.Some? then
      var i := existing.value;
      Some(Reconciled(bookings[i := bookings[i].(data := data, updated_at := now)], bookings[i].id,
                      if event == BookingCancelled then "status_change" else "update"))
    else
      Some(Reconciled(bookings + [NewBooking(newId, data, now)], newId, "create"))
  }

  /** Everything one request changes and returns. */
  datatype SyncOutcome = SyncOutcome(
    response: Response<SyncResult>,
    bookings: seq<Booking>,
    logs: seq<SyncLog>,
    notification: Option<LineNotify.NotificationData>)

  function InboundLog(bookingId: string, websiteId: string, eventType: string, p: SyncPayload, now: string): SyncLog
  {
    SyncLog(Some(bookingId), Some(websiteId), Inbound, eventType, InboundPayload(p), LogSuccess, None, now)
  }

  /** A request that passed the key and payload checks: the state
      machine's write, one inbound log row, and the notification for an
      insert; or 409 and nothing written when a creation finds its key. */
  function Accept(w: Website, bookings: seq<Booking>, logs: seq<SyncLog>, p: SyncPayload, now: string,
                  newId: string): SyncOutcome
    requires Complete(p)
  {
    var r := Reconcile(bookings, BookingDataOf(w, p), p.event, now, newId);
    if r.None? then
      SyncOutcome(Fail(409, "Booking already exists. Use booking.updated event to update.", DuplicateBooking),
                  bookings, logs, None)
    else
      SyncOutcome(
        Response(if p.event == BookingCreated then 201 else 200,
                 Success(SyncResult(r.value.bookingId), Some("Booking synced successfully"))),
        r.value.bookings,
        logs + [InboundLog(r.value.bookingId, w.id, r.value.eventType, p, now)],
        if r.value.eventType == "create" then Some(NotificationOf(w, p)) else None)
  }

  /** The whole request, as a function of the tables before it. */
  function HandleSync(websites: seq<Website>, bookings: seq<Booking>, logs: seq<SyncLog>, headers: Headers,
                      body: Option<SyncPayload>, now: string, newId: string): SyncOutcome
  {
    var website := ValidateApiKey(websites, GetApiKeyFromHeaders(headers));
    if website.None? then
      SyncOutcome(Fail(401, "Invalid API key", AuthFailed), bookings, logs, None)
    else if body.None? then
      SyncOutcome(Fail(400, "Invalid JSON payload", InvalidPayload), bookings, logs, None)
    else
      var p := body.value;
      var missing := Missing(p, RequiredFields);
      if missing != [] then
        SyncOutcome(Fail(400, MissingMessage(missing), InvalidPayload), bookings, logs, None)
      else
        MissingIffIncomplete(p);
        Accept(website.value, bookings, logs, p, now, newId)
  }

  // ---------------------------------------------------------------------
  // The handler

  /** The required-field checks of the handler: the names of the missing
      fields, in the order the handler tests them. */
  method CheckRequired(payload: SyncPayload) returns (missing: seq<string>)
    ensures missing == Missing(payload, RequiredFields)
  {
    missing := [];
    if !Truthy(payload.source_booking_id) {
      missing := missing + ["source_booking_id"];
    }
    if !Truthy(payload.booking_ref) {
      missing := missing + ["booking_ref"];
    }
    if !(payload.customer.Some? && Truthy(payload.customer.value.email)) {
      missing := missing + ["customer.email"];
    }
    MissingRequiredInOrder(payload);
  }

  /** The write of the handler: the per-key state machine applied to the
      bookings table, which is left as it was when the event is refused. */
  method WriteBooking(db: Database, data: BookingData, event: SyncEvent, now: string, newId: string)
    returns (written: Option<Reconciled>)
    requires db.Valid() && FreshBookingId(db.bookings, newId)
    modifies db`bookings
    ensures db.Valid()
    ensures written == Reconcile(old(db.bookings), data, event, now, newId)
    ensures db.bookings == if written.Some? then written.value.bookings else old(db.bookings)
  {
    var existing := FindBooking(db.bookings, data.website_id, data.source_booking_id);
    if event == BookingCreated {
      if existing.Some? {
        return None;
      }
      InsertKeepsUnique(db.bookings, NewBooking(newId, data, now));
      db.bookings := db.bookings + [NewBooking(newId, data, now)];
      written := Some(Reconciled(db.bookings, newId, "create"));
    } else if existing.Some? {
      var i := existing.value;
      UpdateKeepsUnique(db.bookings, i, data, now);
      var bookingId := db.bookings[i].id;
      db.bookings := db.bookings[i := db.bookings[i].(data := data, updated_at := now)];
      written := Some(Reconciled(db.bookings, bookingId, if event == BookingCancelled then "status_change" else "update"));
    } else {
      InsertKeepsUnique(db.bookings, NewBooking(newId, data, now));
      db.bookings := db.bookings + [NewBooking(newId, data, now)];
      written := Some(Reconciled(db.bookings, newId, "create"));
    }
  }

  /** The handler after the key and payload checks: writes the booking and
      its log row. */
  method AcceptPayload(db: Database, w: Website, payload: SyncPayload, now: string, newId: string)
    returns (response: Response<SyncResult>, notification: Option<LineNotify.NotificationData>)
    requires db.Valid() && FreshBookingId(db.bookings, newId) && Complete(payload)
    modifies db`bookings, db`syncLogs
    ensures db.Valid()
    ensures var o := Accept(w, old(db.bookings), old(db.syncLogs), payload, now, newId);
      response == o.response && db.bookings == o.bookings && db.syncLogs == o.logs && notification == o.notification
  {
    var written := WriteBooking(db, BookingDataOf(w, payload), payload.event, now, newId);
    if written.None? {
      return Fail(409, "Booking already exists. Use booking.updated event to update.", DuplicateBooking), None;
    }
    var r := written.value;
    db.syncLogs := db.syncLogs + [InboundLog(r.bookingId, w.id, r.eventType, payload, now)];

    notification := None;
    if r.eventType == "create" {
      notification := Some(NotificationOf(w, payload));
    }
    response := Response(if payload.event == BookingCreated then 201 else 200,
                         Success(SyncResult(r.bookingId), Some("Booking synced successfully")));
  }

  /** `POST /api/bookings/sync`. `body` is `None` when the body is not JSON;
      `now` is the request time and `newId` the id storage gives a new row. */
  method Post(db: Database, headers: Headers, body: Option<SyncPayload>, now: string, newId: string)
    returns (response: Response<SyncResult>, notification: Option<LineNotify.NotificationData>)
    requires db.Valid() && FreshBookingId(db.bookings, newId)
    modifies db`bookings, db`syncLogs
    ensures db.Valid()
    ensures var o := HandleSync(db.websites, old(db.bookings), old(db.syncLogs), headers, body, now, newId);
      response == o.response && db.bookings == o.bookings && db.syncLogs == o.logs && notification == o.notification
  {
    var apiKey := GetApiKeyFromHeaders(headers);
    var website := ValidateApiKey(db.websites, apiKey);
    if website.None? {
      return Fail(401, "Invalid API key", AuthFailed), None;
    }
    if body.None? {
      return Fail(400, "Invalid JSON payload", InvalidPayload), None;
    }
    var payload := body.value;
    var missing := CheckRequired(payload);
    if |missing| > 0 {
      return Fail(400, MissingMessage(missing), InvalidPayload), None;
    }
    MissingIffIncomplete(payload);
    response, notification := AcceptPayload(db, website.value, payload, now, newId);
  }

  // ---------------------------------------------------------------------
  // Table invariants

  /** Inserting a row whose key and id are new keeps keys and ids unique. */
  lemma InsertKeepsUnique(bookings: seq<Booking>, b: Booking)
    requires UniqueBookingKeys(bookings) && UniqueBookingIds(bookings)
    requires FindBooking(bookings, b.data.website_id, b.data.source_booking_id).None?
    requires FreshBookingId(bookings, b.id)
    ensures UniqueBookingKeys(bookings + [b]) && UniqueBookingIds(bookings + [b])
  {
  }

  /** Overwriting the sync-owned fields of row `i` with data of the same key
      keeps keys and ids unique. */
  lemma UpdateKeepsUnique(bookings: seq<Booking>, i: nat, data: BookingData, now: string)
    requires UniqueBookingKeys(bookings)
    requires i < |bookings| && HasKey(bookings[i], data.website_id, data.source_booking_id)
    ensures var r := bookings[i := bookings[i].(data := data, updated_at := now)];
      UniqueBookingKeys(r) && (UniqueBookingIds(bookings) ==> UniqueBookingIds(r))
  {
  }

  /** The row at `i` is the only one with its key, so a lookup finds it. */
  lemma FindsUniqueRow(bookings: seq<Booking>, i: nat, websiteId: string, sourceId: string)
    requires UniqueBookingKeys(bookings) && i < |bookings| && HasKey(bookings[i], websiteId, sourceId)
    ensures FindBooking(bookings, websiteId, sourceId) == Some(i)
  {
  }

  // ---------------------------------------------------------------------
  // Properties of a request

  /** A refused request answers 400, 401 or 409, writes no booking and no
      log row and notifies nobody; 401 is given exactly when the key does
      not name an active website. */
  lemma RefusedRequestWritesNothing(websites: seq<Website>, bookings: seq<Booking>, logs: seq<SyncLog>,
                                    headers: Headers, body: Option<SyncPayload>, now: string, newId: string)
    ensures var o := HandleSync(websites, bookings, logs, headers, body, now, newId);
      o.response.body.Failure? <==> o.response.status in {400, 401, 409}
    ensures var o := HandleSync(websites, bookings, logs, headers, body, now, newId);
      o.response.body.Failure? ==> o.bookings == bookings && o.logs == logs && o.notification.None?
    ensures var o := HandleSync(websites, bookings, logs, headers, body, now, newId);
      o.response.status == 401 <==> ValidateApiKey(websites, GetApiKeyFromHeaders(headers)).None?
    ensures var o := HandleSync(websites, bookings, logs, headers, body, now, newId);
      o.response.status == 400 <==>
        ValidateApiKey(websites, GetApiKeyFromHeaders(headers)).Some? && (body.None? || !Complete(body.value))
  {
    var website := ValidateApiKey(websites, GetApiKeyFromHeaders(headers));
    if website.Some? && body.Some? {
      MissingIffIncomplete(body.value);
      if Complete(body.value) {
        CheckedRequest(websites, bookings, logs, headers, body, now, newId);
        var o := Accept(website.value, bookings, logs, body.value, now, newId);
        assert o.response.status in {200, 201, 409};
      } else {
        assert HandleSync(websites, bookings, logs, headers, body, now, newId).response.status == 400;
      }
    }
  }

  /** An accepted request came with a valid key and a complete payload; it
      answers 201 for a creation and 200 otherwise, appends exactly one
      successful inbound log row naming the authenticated website and the
      booking it touched, and that booking now holds the normalised payload. */
  lemma AcceptedRequestRecordsBooking(websites: seq<Website>, bookings: seq<Booking>, logs: seq<SyncLog>,
                                      headers: Headers, body: Option<SyncPayload>, now: string, newId: string)
    requires HandleSync(websites, bookings, logs, headers, body, now, newId).response.body.Success?
    ensures var w := ValidateApiKey(websites, GetApiKeyFromHeaders(headers));
      w.Some? && body.Some? && Complete(body.value)
    ensures var o := HandleSync(websites, bookings, logs, headers, body, now, newId);
      var w := ValidateApiKey(websites, GetApiKeyFromHeaders(headers)).value;
      var id := o.response.body.data.booking_id;
      o.response.status == (if body.value.event == BookingCreated then 201 else 200) &&
      |o.logs| == |logs| + 1 && o.logs[..|logs|] == logs &&
      o.logs[|logs|].direction == Inbound && o.logs[|logs|].status == LogSuccess &&
      o.logs[|logs|].website_id == Some(w.id) && o.logs[|logs|].booking_id == Some(id) &&
      exists i :: 0 <= i < |o.bookings| && o.bookings[i].id == id && o.bookings[i].data == BookingDataOf(w, body.value)
  {
    var p := body.value;
    MissingIffIncomplete(p);
    var w := ValidateApiKey(websites, GetApiKeyFromHeaders(headers)).value;
    var data := BookingDataOf(w, p);
    var o := HandleSync(websites, bookings, logs, headers, body, now, newId);
    var existing := FindBooking(bookings, data.website_id, data.source_booking_id);
    if p.event != BookingCreated && existing.Some? {
      var i := existing.value;
      assert o.bookings[i].id == o.response.body.data.booking_id && o.bookings[i].data == data;
    } else {
      assert o.bookings[|bookings|].id == o.response.body.data.booking_id && o.bookings[|bookings|].data == data;
    }
  }

  /** The state machine keeps booking keys and ids unique, given that
      storage hands out an id no row has. */
  lemma ReconcileKeepsUnique(bookings: seq<Booking>, data: BookingData, event: SyncEvent, now: string, newId: string)
    requires UniqueBookingKeys(bookings) && UniqueBookingIds(bookings) && FreshBookingId(bookings, newId)
    ensures var r := Reconcile(bookings, data, event, now, newId);
      r.Some? ==> UniqueBookingKeys(r.value.bookings) && UniqueBookingIds(r.value.bookings)
  {
    var existing := FindBooking(bookings, data.website_id, data.source_booking_id);
    if existing.Some? {
      UpdateKeepsUnique(bookings, existing.value, data, now);
    } else {
      InsertKeepsUnique(bookings, NewBooking(newId, data, now));
    }
  }

  /** Every request keeps booking keys and ids unique. */
  lemma SyncKeepsBookingsUnique(websites: seq<Website>, bookings: seq<Booking>, logs: seq<SyncLog>,
                                headers: Headers, body: Option<SyncPayload>, now: string, newId: string)
    requires UniqueBookingKeys(bookings) && UniqueBookingIds(bookings) && FreshBookingId(bookings, newId)
    ensures var o := HandleSync(websites, bookings, logs, headers, body, now, newId);
      UniqueBookingKeys(o.bookings) && UniqueBookingIds(o.bookings)
  {
    var o := HandleSync(websites, bookings, logs, headers, body, now, newId);
    if o.response.body.Success? {
      AcceptedOutcome(websites, bookings, logs, headers, body, now, newId);
      var w := ValidateApiKey(websites, GetApiKeyFromHeaders(headers)).value;
      ReconcileKeepsUnique(bookings, BookingDataOf(w, body.value), body.value.event, now, newId);
    } else {
      RefusedRequestWritesNothing(websites, bookings, logs, headers, body, now, newId);
    }
  }

  /** An update keeps the row's id, staff fields and creation time, replaces
      only the sync-owned fields and `updated_at`, answers 200, logs
      `status_change` exactly for a cancellation and notifies nobody. */
  lemma UpdateKeepsStaffFields(websites: seq<Website>, bookings: seq<Booking>, logs: seq<SyncLog>,
                               headers: Headers, body: Option<SyncPayload>, now: string, newId: string, i: nat)
    requires UniqueBookingKeys(bookings)
    requires HandleSync(websites, bookings, logs, headers, body, now, newId).response.body.Success?
    requires body.Some? && body.value.event != BookingCreated
    requires i < |bookings| && body.value.source_booking_id.Some?
    requires HasKey(bookings[i], ValidateApiKey(websites, GetApiKeyFromHeaders(headers)).value.id,
                    body.value.source_booking_id.value)
    ensures var o := HandleSync(websites, bookings, logs, headers, body, now, newId);
      var w := ValidateApiKey(websites, GetApiKeyFromHeaders(headers)).value;
      Complete(body.value) && |o.bookings| == |bookings| &&
      (forall k :: 0 <= k < |bookings| && k != i ==> o.bookings[k] == bookings[k]) &&
      o.bookings[i].id == bookings[i].id && o.bookings[i].admin_notes == bookings[i].admin_notes &&
      o.bookings[i].pickup_time == bookings[i].pickup_time && o.bookings[i].created_at == bookings[i].created_at &&
      o.bookings[i].data == BookingDataOf(w, body.value) && o.bookings[i].updated_at == now &&
      o.response == Response(200, Success(SyncResult(bookings[i].id), Some("Booking synced successfully"))) &&
      (o.logs[|logs|].event_type == "status_change" <==> body.value.event == BookingCancelled) &&
      o.notification.None?
  {
    AcceptedRequestRecordsBooking(websites, bookings, logs, headers, body, now, newId);
    var w := ValidateApiKey(websites, GetApiKeyFromHeaders(headers)).value;
    FindsUniqueRow(bookings, i, w.id, body.value.source_booking_id.value);
  }

  /** After the state machine has inserted a booking, a second creation of
      the same key is refused. */
  lemma ReconcileCreateTwice(bookings: seq<Booking>, data: BookingData, now: string, newId: string,
                             later: string, otherId: string)
    ensures var r := Reconcile(bookings, data, BookingCreated, now, newId);
      r.Some? ==> Reconcile(r.value.bookings, data, BookingCreated, later, otherId).None?
  {
    var r := Reconcile(bookings, data, BookingCreated, now, newId);
    if r.Some? {
      assert r.value.bookings[|bookings|] == NewBooking(newId, data, now);
    }
  }

  /** Creating the same booking twice: the second request is refused with
      409 and changes nothing. */
  lemma CreateTwiceConflicts(websites: seq<Website>, bookings: seq<Booking>, logs: seq<SyncLog>,
                             headers: Headers, body: Option<SyncPayload>, now: string, newId: string,
                             later: string, otherId: string)
    requires body.Some? && body.value.event == BookingCreated
    requires HandleSync(websites, bookings, logs, headers, body, now, newId).response.body.Success?
    ensures var o := HandleSync(websites, bookings, logs, headers, body, now, newId);
      var again := HandleSync(websites, o.bookings, o.logs, headers, body, later, otherId);
      again.response.status == 409 && again.response.body == Failure("Booking already exists. Use booking.updated event to update.", DuplicateBooking) &&
      again.bookings == o.bookings && again.logs == o.logs
  {
    AcceptedOutcome(websites, bookings, logs, headers, body, now, newId);
    var p := body.value;
    var w := ValidateApiKey(websites, GetApiKeyFromHeaders(headers)).value;
    ReconcileCreateTwice(bookings, BookingDataOf(w, p), now, newId, later, otherId);
    var o := HandleSync(websites, bookings, logs, headers, body, now, newId);
    MissingIffIncomplete(p);
    CheckedRequest(websites, o.bookings, o.logs, headers, body, later, otherId);
  }

  /** Delivering a non-create event again, at the same time, finds the row
      the first delivery wrote and leaves the table as it was: the state
      machine is idempotent for updates, cancellations and refunds. */
  lemma ReplayedReconcile(bookings: seq<Booking>, data: BookingData, event: SyncEvent, now: string,
                          newId: string, otherId: string)
    requires UniqueBookingKeys(bookings) && event != BookingCreated
    ensures var r := Reconcile(bookings, data, event, now, newId);
      r.Some? &&
      var again := Reconcile(r.value.bookings, data, event, now, otherId);
      again.Some? && again.value.bookings == r.value.bookings && again.value.bookingId == r.value.bookingId &&
      again.value.eventType != "create"
  {
    var existing := FindBooking(bookings, data.website_id, data.source_booking_id);
    var r := Reconcile(bookings, data, event, now, newId).value;
    if existing.Some? {
      var i := existing.value;
      UpdateKeepsUnique(bookings, i, data, now);
      FindsUniqueRow(r.bookings, i, data.website_id, data.source_booking_id);
      assert r.bookings[i := r.bookings[i].(data := data, updated_at := now)] == r.bookings;
    } else {
      assert r.bookings == bookings + [NewBooking(newId, data, now)];
      assert FindBooking(r.bookings, data.website_id, data.source_booking_id) == Some(|bookings|);
      assert r.bookings[|bookings| := r.bookings[|bookings|].(data := data, updated_at := now)] == r.bookings;
    }
  }

  /** A request with a valid key and a complete payload is handed to the
      state machine. */
  lemma CheckedRequest(websites: seq<Website>, bookings: seq<Booking>, logs: seq<SyncLog>,
                       headers: Headers, body: Option<SyncPayload>, now: string, newId: string)
    requires ValidateApiKey(websites, GetApiKeyFromHeaders(headers)).Some?
    requires body.Some? && Missing(body.value, RequiredFields) == []
    ensures Complete(body.value)
    ensures HandleSync(websites, bookings, logs, headers, body, now, newId) ==
            Accept(ValidateApiKey(websites, GetApiKeyFromHeaders(headers)).value, bookings, logs, body.value, now, newId)
  {
    MissingIffIncomplete(body.value);
  }

  /** An accepted request is one that passed the key and payload checks and
      whose event the state machine took. */
  lemma AcceptedOutcome(websites: seq<Website>, bookings: seq<Booking>, logs: seq<SyncLog>,
                        headers: Headers, body: Option<SyncPayload>, now: string, newId: string)
    requires HandleSync(websites, bookings, logs, headers, body, now, newId).response.body.Success?
    ensures ValidateApiKey(websites, GetApiKeyFromHeaders(headers)).Some? && body.Some? && Complete(body.value)
    ensures var w := ValidateApiKey(websites, GetApiKeyFromHeaders(headers)).value;
      Reconcile(bookings, BookingDataOf(w, body.value), body.value.event, now, newId).Some? &&
      HandleSync(websites, bookings, logs, headers, body, now, newId) == Accept(w, bookings, logs, body.value, now, newId)
  {
    MissingIffIncomplete(body.value);
  }

  /** Replaying an update, cancellation or refund with the same payload and
      time leaves the bookings table as the first delivery left it. */
  lemma ReplayedUpdateIsIdempotent(websites: seq<Website>, bookings: seq<Booking>, logs: seq<SyncLog>,
                                   headers: Headers, body: Option<SyncPayload>, now: string, newId: string,
                                   otherId: string)
    requires UniqueBookingKeys(bookings)
    requires body.Some? && body.value.event != BookingCreated
    requires HandleSync(websites, bookings, logs, headers, body, now, newId).response.body.Success?
    ensures var o := HandleSync(websites, bookings, logs, headers, body, now, newId);
      var again := HandleSync(websites, o.bookings, o.logs, headers, body, now, otherId);
      again.bookings == o.bookings && again.response == o.response && again.notification.None?
  {
    AcceptedOutcome(websites, bookings, logs, headers, body, now, newId);
    var p := body.value;
    var w := ValidateApiKey(websites, GetApiKeyFromHeaders(headers)).value;
    var data := BookingDataOf(w, p);
    ReplayedReconcile(bookings, data, p.event, now, newId, otherId);
    MissingIffIncomplete(p);
  }

  /** The state machine reports "create" exactly when it appended a row. */
  lemma ReconcileGrowsOnCreate(bookings: seq<Booking>, data: BookingData, event: SyncEvent, now: string, newId: string)
    ensures var r := Reconcile(bookings, data, event, now, newId);
      r.Some? ==> (r.value.eventType == "create" <==> |r.value.bookings| == |bookings| + 1) &&
                  (r.value.eventType != "create" ==> |r.value.bookings| == |bookings|)
  {
  }

  /** The LINE notification goes out exactly when a row was inserted, and
      never carries an adult or child count. */
  lemma NotifiesExactlyOnInsert(websites: seq<Website>, bookings: seq<Booking>, logs: seq<SyncLog>,
                                headers: Headers, body: Option<SyncPayload>, now: string, newId: string)
    ensures var o := HandleSync(websites, bookings, logs, headers, body, now, newId);
      o.notification.Some? <==> |o.bookings| == |bookings| + 1
    ensures var o := HandleSync(websites, bookings, logs, headers, body, now, newId);
      o.notification.Some? ==> o.notification.value.adultCount.None? && o.notification.value.childCount.None?
  {
    var o := HandleSync(websites, bookings, logs, headers, body, now, newId);
    if o.response.body.Success? {
      AcceptedOutcome(websites, bookings, logs, headers, body, now, newId);
      var w := ValidateApiKey(websites, GetApiKeyFromHeaders(headers)).value;
      ReconcileGrowsOnCreate(bookings, BookingDataOf(w, body.value), body.value.event, now, newId);
    } else {
      RefusedRequestWritesNothing(websites, bookings, logs, headers, body, now, newId);
    }
  }
}
