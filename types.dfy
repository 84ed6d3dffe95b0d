/** The records and enumerations shared by every part of the booking
    dashboard: websites, canonical bookings, sync-log rows, the inbound sync
    payload, the outbound webhook payload and the API response envelope. */
module Types {

  datatype Option<T> = None | Some(value: T)

  /** JavaScript truthiness of an optional string: absent and "" are false. */
  predicate Truthy(s: Option<string>)
  {
    s.Some? && s.value != ""
  }

  /** `s || null`: an empty string is stored as null. */
  function OrNull(s: Option<string>): (r: Option<string>)
    ensures r.Some? <==> Truthy(s)
    ensures r.Some? ==> r == s
  {
    if Truthy(s) then s else None
  }

  /** `s || fallback` for an optional string. */
  function OrElse(s: Option<string>, fallback: string): (r: string)
    ensures Truthy(s) ==> r == s.value
    ensures !Truthy(s) ==> r == fallback
  {
    if Truthy(s) then s.value else fallback
  }

  /** `n || 0` for an optional number. */
  function OrZero(n: Option<int>): int
  {
    if n.Some? then n.value else 0
  }
  /** `Math.min` and `Math.max` on integers. */
  function Min(a: int, b: int): int { if a < b then a else b }
  function Max(a: int, b: int): int { if a < b then b else a }


  // ---------------------------------------------------------------------
  // Enumerations

  datatype BookingStatus = Pending | Confirmed | Completed | Cancelled | Refunded | NoShow

  function StatusName(s: BookingStatus): string
  {
    match s
    case Pending => "pending"
    case Confirmed => "confirmed"
    case Completed => "completed"
    case Cancelled => "cancelled"
    case Refunded => "refunded"
    case NoShow => "no_show"
  }

  function ParseStatus(x: string): (r: Option<BookingStatus>)
    ensures r.Some? ==> StatusName(r.value) == x
  {
    if x == "pending" then Some(Pending)
    else if x == "confirmed" then Some(Confirmed)
    else if x == "completed" then Some(Completed)
    else if x == "cancelled" then Some(Cancelled)
    else if x == "refunded" then Some(Refunded)
    else if x == "no_show" then Some(NoShow)
    else None
  }

  /** The six statuses in the order the declaration lists them. */
  const AllStatuses: seq<BookingStatus> := [Pending, Confirmed, Completed, Cancelled, Refunded, NoShow]

  /** A status string is one of the six booking statuses. */
  predicate IsBookingStatus(x: string)
  {
    ParseStatus(x).Some?
  }

  /** There are exactly six statuses, all distinct by name, and every
      status is listed; parsing a status name gives the status back. */
  lemma StatusEnumeration(s: BookingStatus)
    ensures |AllStatuses| == 6 && s in AllStatuses
    ensures forall i, j :: 0 <= i < j < |AllStatuses| ==> StatusName(AllStatuses[i]) != StatusName(AllStatuses[j])
    ensures ParseStatus(StatusName(s)) == Some(s)
  {
  }

  datatype TransportType = HotelPickup | SelfArrange | PrivateTransfer | NoTransport

  function TransportName(t: TransportType): string
  {
    match t
    case HotelPickup => "hotel_pickup"
    case SelfArrange => "self_arrange"
    case PrivateTransfer => "private"
    case NoTransport => "none"
  }

  datatype UserRole = Superadmin | Admin | Staff

  datatype AdminUser = AdminUser(
    id: string,
    email: string,
    role: UserRole,
    full_name: Option<string>,
    allowed_websites: Option<seq<string>>,
    created_at: string)

  // ---------------------------------------------------------------------
  // Stored records

  /** One add-on line; the dashboard reads name and quantity defensively,
      so each may be absent from the stored JSON. */
  datatype Addon = Addon(name: Option<string>, quantity: Option<int>, unit_price: Option<int>)

  datatype Website = Website(
    id: string,
    name: string,
    domain: string,
    api_key: string,
    webhook_url: Option<string>,
    webhook_secret: Option<string>,
    logo_url: Option<string>,
    is_active: bool,
    created_at: string,
    updated_at: string)

  /** The sync-owned fields of a booking: exactly what the inbound sync
      route writes on insert and overwrites on update. The status is kept as
      the raw string the source sent. */
  datatype BookingData = BookingData(
    website_id: string,
    source_booking_id: string,
    booking_ref: string,
    package_name: string,
    package_price: int,
    activity_date: string,
    time_slot: string,
    guest_count: Option<int>,
    total_amount: int,
    discount_amount: int,
    currency: string,
    status: string,
    customer_name: string,
    customer_email: string,
    customer_phone: Option<string>,
    customer_country_code: Option<string>,
    special_requests: Option<string>,
    transport_type: Option<TransportType>,
    hotel_name: Option<string>,
    room_number: Option<string>,
    non_players: int,
    private_passengers: int,
    transport_cost: int,
    addons: seq<Addon>,
    stripe_payment_intent_id: Option<string>,
    source_created_at: Option<string>)

  /** A canonical booking row: the sync-owned fields plus the staff-owned
      and storage-owned ones. */
  datatype Booking = Booking(
    id: string,
    data: BookingData,
    admin_notes: Option<string>,
    pickup_time: Option<string>,
    created_at: string,
    updated_at: string)

  datatype Direction = Inbound | Outbound

  function DirectionName(d: Direction): string
  {
    match d
    case Inbound => "inbound"
    case Outbound => "outbound"
  }

  datatype LogStatus = LogSuccess | LogFailed | LogPending

  function LogStatusName(s: LogStatus): string
  {
    match s
    case LogSuccess => "success"
    case LogFailed => "failed"
    case LogPending => "pending"
  }

  // ---------------------------------------------------------------------
  // Inbound sync payload

  datatype SyncEvent = BookingCreated | BookingUpdated | BookingCancelled | BookingRefunded

  function SyncEventName(e: SyncEvent): string
  {
    match e
    case BookingCreated => "booking.created"
    case BookingUpdated => "booking.updated"
    case BookingCancelled => "booking.cancelled"
    case BookingRefunded => "booking.refunded"
  }

  datatype Customer = Customer(
    name: string,
    email: Option<string>,
    phone: Option<string>,
    country_code: Option<string>,
    special_requests: Option<string>)

  datatype Transport = Transport(
    kind: Option<TransportType>,
    hotel_name: Option<string>,
    room_number: Option<string>,
    non_players: Option<int>,
    private_passengers: Option<int>,
    cost: Option<int>)

  /** The JSON body a source website posts. The three required fields and
      every optional one are `Option`s, since the body is untrusted. */
  datatype SyncPayload = SyncPayload(
    event: SyncEvent,
    source_booking_id: Option<string>,
    booking_ref: Option<string>,
    package_name: string,
    package_price: int,
    activity_date: string,
    time_slot: string,
    guest_count: Option<int>,
    adult_count: Option<int>,
    child_count: Option<int>,
    total_amount: int,
    discount_amount: Option<int>,
    currency: Option<string>,
    status: Option<string>,
    customer: Option<Customer>,
    transport: Option<Transport>,
    addons: Option<seq<Addon>>,
    stripe_payment_intent_id: Option<string>,
    created_at: Option<string>)

  // ---------------------------------------------------------------------
  // Outbound webhook payload

  datatype WebhookEvent = WebhookUpdated | WebhookStatusChanged

  function WebhookEventName(e: WebhookEvent): string
  {
    match e
    case WebhookUpdated => "booking.updated"
    case WebhookStatusChanged => "booking.status_changed"
  }

  /** The value of one booking field as it appears in a webhook's `data`. */
  datatype FieldValue = Text(text: string) | Number(number: int) | Null | AddonList(addons: seq<Addon>) | Undefined

  datatype WebhookPayload = WebhookPayload(
    event: WebhookEvent,
    source_booking_id: string,
    updated_fields: seq<string>,
    data: map<string, FieldValue>,
    updated_at: string,
    updated_by: string)

  // ---------------------------------------------------------------------
  // Sync log

  /** The payload snapshot stored with a sync-log row. */
  datatype LogPayload = InboundPayload(inbound: SyncPayload) | OutboundPayload(outbound: WebhookPayload)

  datatype SyncLog = SyncLog(
    booking_id: Option<string>,
    website_id: Option<string>,
    direction: Direction,
    event_type: string,
    payload: LogPayload,
    status: LogStatus,
    error_message: Option<string>,
    created_at: string)

  // ---------------------------------------------------------------------
  // API response envelope

  datatype ErrorCode = AuthFailed | InvalidPayload | DuplicateBooking | ServerError | Forbidden | Duplicate

  function ErrorCodeName(c: ErrorCode): string
  {
    match c
    case AuthFailed => "AUTH_FAILED"
    case InvalidPayload => "INVALID_PAYLOAD"
    case DuplicateBooking => "DUPLICATE_BOOKING"
    case ServerError => "SERVER_ERROR"
    case Forbidden => "FORBIDDEN"
    case Duplicate => "DUPLICATE"
  }

  datatype ApiBody<T> = Success(data: T, message: Option<string>) | Failure(error: string, code: ErrorCode)

  /** An HTTP status with its JSON body. */
  datatype Response<T> = Response(status: int, body: ApiBody<T>)

  function Fail<T>(status: int, error: string, code: ErrorCode): Response<T>
  {
    Response(status, Failure(error, code))
  }
}
