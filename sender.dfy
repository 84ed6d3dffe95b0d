/** The outbound webhook sender (lib/webhooks/sender.ts): after staff edit
    a booking, the changed fields are sent to the source website's webhook,
    signed with the website's secret, and the attempt is recorded in the
    sync log, first as pending and then as success or failure.

    The HTTP request itself is a function parameter `deliver` from the
    request to what came back: a response (status and body text) or an
    exception. JSON serialisation (`stringify`) and the keyed digest
    (`hmac`) are parameters too, and the clock is passed in as the current
    time in milliseconds and as an ISO string. */
module Sender {
  import opened Types
  import opened Strings
  import opened Signature
  import opened Store

  // ---------------------------------------------------------------------
  // The payload

  function OptText(s: Option<string>): FieldValue
  {
    if s.Some? then Text(s.value) else Null
  }

  function OptNumber(n: Option<int>): FieldValue
  {
    if n.Some? then Number(n.value) else Null
  }

  /** The columns of a booking row that the model keeps. */
  const BookingFields: set<string> := {
    "id", "website_id", "source_booking_id", "booking_ref", "package_name", "package_price",
    "activity_date", "time_slot", "guest_count", "total_amount", "discount_amount", "currency",
    "status", "customer_name", "customer_email", "customer_phone", "customer_country_code",
    "special_requests", "transport_type", "hotel_name", "room_number", "non_players",
    "private_passengers", "transport_cost", "addons", "stripe_payment_intent_id", "admin_notes",
    "pickup_time", "source_created_at", "created_at", "updated_at"}

  /** `booking[field]`: the current value of the named column, `Undefined`
      for a name that is not a column. */
  function FieldOf(b: Booking, field: string): (v: FieldValue)
    ensures v == Undefined <==> field !in BookingFields
  {
    var d := b.data;
    match field
    case "id" => Text(b.id)
    case "website_id" => Text(d.website_id)
    case "source_booking_id" => Text(d.source_booking_id)
    case "booking_ref" => Text(d.booking_ref)
    case "package_name" => Text(d.package_name)
    case "package_price" => Number(d.package_price)
    case "activity_date" => Text(d.activity_date)
    case "time_slot" => Text(d.time_slot)
    case "guest_count" => OptNumber(d.guest_count)
    case "total_amount" => Number(d.total_amount)
    case "discount_amount" => Number(d.discount_amount)
    case "currency" => Text(d.currency)
    case "status" => Text(d.status)
    case "customer_name" => Text(d.customer_name)
    case "customer_email" => Text(d.customer_email)
    case "customer_phone" => OptText(d.customer_phone)
    case "customer_country_code" => OptText(d.customer_country_code)
    case "special_requests" => OptText(d.special_requests)
    case "transport_type" => if d.transport_type.Some? then Text(TransportName(d.transport_type.value)) else Null
    case "hotel_name" => OptText(d.hotel_name)
    case "room_number" => OptText(d.room_number)
    case "non_players" => Number(d.non_players)
    case "private_passengers" => Number(d.private_passengers)
    case "transport_cost" => Number(d.transport_cost)
    case "addons" => AddonList(d.addons)
    case "stripe_payment_intent_id" => OptText(d.stripe_payment_intent_id)
    case "admin_notes" => OptText(b.admin_notes)
    case "pickup_time" => OptText(b.pickup_time)
    case "source_created_at" => OptText(d.source_created_at)
    case "created_at" => Text(b.created_at)
    case "updated_at" => Text(b.updated_at)
    case _ => Undefined
  }

  /** The `data` object of the payload: one entry per updated field. */
  function Projection(b: Booking, fields: seq<string>): map<string, FieldValue>
  {
    map f | f in fields :: FieldOf(b, f)
  }

  /** The loop that fills `webhookData`, one updated field at a time; a
      field named twice is written twice with the same value. */
  method ProjectFields(b: Booking, fields: seq<string>) returns (data: map<string, FieldValue>)
    ensures data.Keys == set f | f in fields
    ensures forall f :: f in data ==> data[f] == FieldOf(b, f)
    ensures data == Projection(b, fields)
  {
    data := map[];
    for k := 0 to |fields|
      invariant data.Keys == set f | f in fields[..k]
      invariant forall f :: f in data ==> data[f] == FieldOf(b, f)
    {
      assert fields[..k + 1] == fields[..k] + [fields[k]];
      data := data[fields[k] := FieldOf(b, fields[k])];
    }
    assert fields[..|fields|] == fields;
  }

  /** A status change is announced as such; any other edit as an update. */
  function EventFor(fields: seq<string>): (e: WebhookEvent)
    ensures e == WebhookStatusChanged <==> "status" in fields
  {
    if "status" in fields then WebhookStatusChanged else WebhookUpdated
  }

  function PayloadOf(b: Booking, fields: seq<string>, updatedBy: string, nowIso: string): WebhookPayload
  {
    WebhookPayload(EventFor(fields), b.data.source_booking_id, fields, Projection(b, fields), nowIso, updatedBy)
  }

  /** The payload carries the booking's source id and the updated field
      list unchanged, exactly the updated fields as data keys with their
      current values, and the event that matches whether the status changed. */
  lemma PayloadDescribesEdit(b: Booking, fields: seq<string>, updatedBy: string, nowIso: string)
    ensures var p := PayloadOf(b, fields, updatedBy, nowIso);
      p.source_booking_id == b.data.source_booking_id && p.updated_fields == fields &&
      p.updated_by == updatedBy && p.updated_at == nowIso &&
      (forall f :: f in p.data <==> f in fields) &&
      (forall f :: f in p.data ==> p.data[f] == FieldOf(b, f)) &&
      (WebhookEventName(p.event) == "booking.status_changed" <==> "status" in fields) &&
      (WebhookEventName(p.event) == "booking.updated" <==> "status" !in fields)
  {
  }

  // ---------------------------------------------------------------------
  // The request

  /** The website has somewhere to send to and a secret to sign with. */
  predicate HasWebhook(website: Option<Website>)
  {
    website.Some? && Truthy(website.value.webhook_url) && Truthy(website.value.webhook_secret)
  }

  /** Unix time in whole seconds, as decimal text. */
  function UnixSeconds(nowMillis: nat): (ts: string)
    ensures AllDigits(ts) && DigitsValue(ts) == nowMillis / 1000
  {
    NatToStringValue(nowMillis / 1000);
    NatToString(nowMillis / 1000)
  }

  /** A POST to the webhook URL with the serialised payload as body and the
      signature and timestamp as the `X-Webhook-Signature` and
      `X-Webhook-Timestamp` headers. */
  datatype WebhookRequest = WebhookRequest(url: string, body: string, signature: string, timestamp: string)

  function RequestFor(w: Website, payload: WebhookPayload, nowMillis: nat,
                      stringify: WebhookPayload -> string, hmac: Hmac): WebhookRequest
    requires HasWebhook(Some(w))
  {
    var body := stringify(payload);
    var timestamp := UnixSeconds(nowMillis);
    WebhookRequest(w.webhook_url.value, body, GenerateWebhookSignature(body, w.webhook_secret.value, timestamp, hmac), timestamp)
  }

  /** What came back from the POST: a response, or an exception carrying
      the message of an `Error` (`None` for anything thrown that is not an
      `Error`). */
  datatype Delivery = Responded(status: int, text: string) | Threw(message: Option<string>)

  /** `response.ok`: a status in 200..299. */
  predicate DeliveryOk(d: Delivery)
  {
    d.Responded? && 200 <= d.status <= 299
  }

  /** The terminal status and error message a delivery is logged with. */
  function Settle(d: Delivery): (r: (LogStatus, Option<string>))
    ensures r.0 == LogSuccess <==> DeliveryOk(d)
    ensures r.0 != LogPending
    ensures r.1.None? <==> DeliveryOk(d)
  {
    if DeliveryOk(d) then (LogSuccess, None)
    else if d.Responded? then (LogFailed, Some("HTTP " + IntToString(d.status) + ": " + d.text))
    else (LogFailed, Some(if d.message.Some? then d.message.value else "Unknown error"))
  }

  // ---------------------------------------------------------------------
  // The log rows

  function PendingLog(b: Booking, w: Website, payload: WebhookPayload, nowIso: string): SyncLog
  {
    SyncLog(Some(b.id), Some(w.id), Outbound, WebhookEventName(payload.event), OutboundPayload(payload),
            LogPending, None, nowIso)
  }

  /** The row matches the update's filter: this booking, outbound, pending. */
  predicate IsPendingFor(l: SyncLog, bookingId: string)
  {
    l.booking_id == Some(bookingId) && l.direction == Outbound && l.status == LogPending
  }

  /** The newest matching row, rows being in insertion order. */
  function NewestPending(logs: seq<SyncLog>, bookingId: string): (r: Option<nat>)
    ensures r.Some? ==> r.value < |logs| && IsPendingFor(logs[r.value], bookingId) &&
                        forall j :: r.value < j < |logs| ==> !IsPendingFor(logs[j], bookingId)
    ensures r.None? ==> forall j :: 0 <= j < |logs| ==> !IsPendingFor(logs[j], bookingId)
  {
    if logs == [] then None
    else if IsPendingFor(logs[|logs| - 1], bookingId) then Some(|logs| - 1)
    else NewestPending(logs[..|logs| - 1], bookingId)
  }

  /** The update ordered by `created_at` descending and limited to one row. */
  function SettleNewestPending(logs: seq<SyncLog>, bookingId: string, status: LogStatus, error: Option<string>): (r: seq<SyncLog>)
  {
    var n := NewestPending(logs, bookingId);
    if n.None? then logs
    else logs[n.value := logs[n.value].(status := status, error_message := error)]
  }

  // ---------------------------------------------------------------------
  // The whole call

  datatype SendOutcome = SendOutcome(ok: bool, request: Option<WebhookRequest>, logs: seq<SyncLog>)

  /** `sendWebhook` as a function of the log table before it. */
  function SendSpec(logs: seq<SyncLog>, b: Booking, website: Option<Website>, fields: seq<string>, updatedBy: string,
                    nowMillis: nat, nowIso: string, stringify: WebhookPayload -> string, hmac: Hmac,
                    deliver: WebhookRequest -> Delivery): SendOutcome
  {
    if !HasWebhook(website) then SendOutcome(false, None, logs)
    else
      var w := website.value;
      var payload := PayloadOf(b, fields, updatedBy, nowIso);
      var request := RequestFor(w, payload, nowMillis, stringify, hmac);
      var settled := Settle(deliver(request));
      var pending := logs + [PendingLog(b, w, payload, nowIso)];
      SendOutcome(DeliveryOk(deliver(request)), Some(request), SettleNewestPending(pending, b.id, settled.0, settled.1))
  }

  /** `sendWebhook`: skips a website without a webhook; otherwise builds and
      signs the payload, appends a pending outbound row, posts, and settles
      the newest pending row for the booking. Returns whether the response
      was ok and the request that went out. */
  method SendWebhook(db: Database, b: Booking, website: Option<Website>, fields: seq<string>, updatedBy: string,
                     nowMillis: nat, nowIso: string, stringify: WebhookPayload -> string, hmac: Hmac,
                     deliver: WebhookRequest -> Delivery)
    returns (ok: bool, sent: Option<WebhookRequest>)
    modifies db`syncLogs
    ensures var o := SendSpec(old(db.syncLogs), b, website, fields, updatedBy, nowMillis, nowIso, stringify, hmac, deliver);
      ok == o.ok && sent == o.request && db.syncLogs == o.logs
  {
    if !HasWebhook(website) {
      return false, None;
    }
    var w := website.value;
    var timestamp := UnixSeconds(nowMillis);
    var data := ProjectFields(b, fields);
    var payload := WebhookPayload(EventFor(fields), b.data.source_booking_id, fields, data, nowIso, updatedBy);
    var body := stringify(payload);
    var signature := GenerateWebhookSignature(body, w.webhook_secret.value, timestamp, hmac);

    db.syncLogs := db.syncLogs + [PendingLog(b, w, payload, nowIso)];

    var request := WebhookRequest(w.webhook_url.value, body, signature, timestamp);
    var delivery := deliver(request);
    var settled := Settle(delivery);
    db.syncLogs := SettleNewestPending(db.syncLogs, b.id, settled.0, settled.1);
    return DeliveryOk(delivery), Some(request);
  }

  // ---------------------------------------------------------------------
  // Properties

  /** Without a webhook URL and secret nothing is sent, nothing is logged
      and the result is false. */
  lemma SkipsUnconfiguredWebsite(logs: seq<SyncLog>, b: Booking, website: Option<Website>, fields: seq<string>,
                                 updatedBy: string, nowMillis: nat, nowIso: string,
                                 stringify: WebhookPayload -> string, hmac: Hmac, deliver: WebhookRequest -> Delivery)
    requires !HasWebhook(website)
    ensures SendSpec(logs, b, website, fields, updatedBy, nowMillis, nowIso, stringify, hmac, deliver) == SendOutcome(false, None, logs)
  {
  }

  /** The signature is over exactly the body that is sent and the timestamp
      header, which is the current Unix second; the receiver's check with
      the website's secret accepts it. */
  lemma SignatureCoversSentBody(logs: seq<SyncLog>, b: Booking, website: Option<Website>, fields: seq<string>,
                                updatedBy: string, nowMillis: nat, nowIso: string,
                                stringify: WebhookPayload -> string, hmac: Hmac, deliver: WebhookRequest -> Delivery)
    requires HasWebhook(website)
    ensures var r := SendSpec(logs, b, website, fields, updatedBy, nowMillis, nowIso, stringify, hmac, deliver).request;
      r.Some? && r.value.url == website.value.webhook_url.value &&
      r.value.body == stringify(PayloadOf(b, fields, updatedBy, nowIso)) &&
      AllDigits(r.value.timestamp) && DigitsValue(r.value.timestamp) == nowMillis / 1000 &&
      VerifyWebhookSignature(r.value.body, r.value.signature, website.value.webhook_secret.value, r.value.timestamp, hmac)
  {
    var r := SendSpec(logs, b, website, fields, updatedBy, nowMillis, nowIso, stringify, hmac, deliver).request.value;
    SignatureRoundTrip(r.body, website.value.webhook_secret.value, r.timestamp, r.signature, hmac);
  }

  /** Appending a pending row makes it the newest pending row of its booking. */
  lemma AppendedRowIsNewestPending(logs: seq<SyncLog>, row: SyncLog, bookingId: string)
    requires IsPendingFor(row, bookingId)
    ensures NewestPending(logs + [row], bookingId) == Some(|logs|)
  {
  }

  /** With a webhook, the log gains exactly one outbound row for the
      booking, no earlier row changes, and the new row ends settled: success
      with no error exactly when the response was ok, otherwise failed with
      "HTTP <status>: <body>", the exception's message or "Unknown error". */
  lemma LogsOneSettledRow(logs: seq<SyncLog>, b: Booking, website: Option<Website>, fields: seq<string>,
                          updatedBy: string, nowMillis: nat, nowIso: string,
                          stringify: WebhookPayload -> string, hmac: Hmac, deliver: WebhookRequest -> Delivery)
    requires HasWebhook(website)
    ensures var o := SendSpec(logs, b, website, fields, updatedBy, nowMillis, nowIso, stringify, hmac, deliver);
      var d := deliver(o.request.value);
      |o.logs| == |logs| + 1 && o.logs[..|logs|] == logs &&
      o.logs[|logs|].booking_id == Some(b.id) && o.logs[|logs|].website_id == Some(website.value.id) &&
      o.logs[|logs|].direction == Outbound &&
      o.logs[|logs|].event_type == WebhookEventName(EventFor(fields)) &&
      (o.logs[|logs|].status == LogSuccess <==> DeliveryOk(d)) &&
      (DeliveryOk(d) ==> o.logs[|logs|].error_message.None?) &&
      (!DeliveryOk(d) && d.Responded? ==>
        o.logs[|logs|].status == LogFailed &&
        o.logs[|logs|].error_message == Some("HTTP " + IntToString(d.status) + ": " + d.text)) &&
      (d.Threw? ==>
        o.logs[|logs|].status == LogFailed &&
        o.logs[|logs|].error_message == Some(if d.message.Some? then d.message.value else "Unknown error"))
  {
    var w := website.value;
    var payload := PayloadOf(b, fields, updatedBy, nowIso);
    AppendedRowIsNewestPending(logs, PendingLog(b, w, payload, nowIso), b.id);
  }

  /** The result is true exactly when a request went out and its response
      was ok; an exception is never passed on, it only yields false. */
  lemma ResultIsResponseOk(logs: seq<SyncLog>, b: Booking, website: Option<Website>, fields: seq<string>,
                           updatedBy: string, nowMillis: nat, nowIso: string,
                           stringify: WebhookPayload -> string, hmac: Hmac, deliver: WebhookRequest -> Delivery)
    ensures var o := SendSpec(logs, b, website, fields, updatedBy, nowMillis, nowIso, stringify, hmac, deliver);
      o.ok <==> o.request.Some? && deliver(o.request.value).Responded? &&
                200 <= deliver(o.request.value).status <= 299
  {
  }
}
