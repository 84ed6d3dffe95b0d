# OneBooking booking sync — a Dafny model

OneBooking is a booking dashboard for a group of tour websites. The
websites push their bookings to it over a signed API (`POST
/api/bookings/sync`). Staff browse and edit the bookings in a web
dashboard, and every edit is pushed back to the source website as a
signed webhook. This project models the core of that system in Dafny and
proves properties of the model:

- **Inbound sync** (`SyncRoute`, `ApiAuth`): API-key authentication; the
  check for required fields; normalising the payload into a booking row;
  the create/update/upsert state machine keyed by (website, source booking
  id); the inbound sync log; and the LINE notification for new bookings.
- **Outbound webhooks** (`Sender`, `Signature`): the payload of an edit;
  its HMAC-SHA256 signature over `timestamp.payload`; the pending log row
  and how it is settled; and the key and secret generators.
- **Admin API** (`WebsitesRoute`, `BookingsRoute`): listing and
  registering websites, and the filtered, sorted, paginated bookings list.
- **Notifications** (`LineNotify`, `EmailConfig`): the LINE message
  composer and sender, and the per-brand e-mail sender table.
- **Dashboard logic** (`Pagination`, `BookingFilters`, `BookingsTable`,
  `Select`, `PickupTime`, `Sidebar`, `CredentialsCard`, `SyncHistory`):
  the query-string updates, the ticket counts, the keyboard-driven
  dropdown, the pickup-time dialog and its customer e-mail, the active
  navigation link, the API-credentials card and the sync history panel.

Shared modules:

- `Types` holds the records, enums, `Option` and the API response shape.
- `Strings` holds ASCII case mapping, `split`/`join`, decimal text and
  `parseInt`.
- `Query` models `URLSearchParams` as an ordered list of pairs. Its class
  `SearchParams` is the mutable object the components update.
- `Ordering` holds lexicographic order and a sort specified as a sorted
  permutation.
- `Store` holds the tables as fields of a `Database` class, with their
  uniqueness constraints.

Route handlers that write to storage are module-level methods that take
the `Database` and modify its tables. Each is proved equal to a function of the tables before the call, and the lemmas
are stated about that function. React components that hold state are
classes with a method per event handler. The pure helpers are functions.

These things are parameters of the model:

- HMAC-SHA256 (`hmac`) and `JSON.stringify` (`stringify`);
- the random bytes of `crypto.randomBytes(24)`;
- the clock (`now`, `nowMillis`);
- the ids storage assigns;
- the network (`deliver`, and the outcomes of a LINE push, a save and a
  key regeneration);
- locale date and number formatting.

## Model

| member | source | states |
|---|---|---|
| Types.OrNull | app/api/bookings/sync/route.ts:74-79 | `s \|\| null`: an absent or empty string becomes null, anything else is kept |
| Types.OrElse | lib/email/config.ts:80 | `s \|\| fallback`: the fallback exactly when the string is absent or empty |
| Types.ParseStatus | types/index.ts:59-65 | reading a status name gives a status whose name it is |
| Types.StatusEnumeration | types/index.ts:59-65 | there are exactly six statuses with distinct names, each listed, and each name parses back to its status |
| Strings.ToLower | components/dashboard/bookings-table.tsx:54 | lower-casing keeps the length |
| Strings.Capitalize | lib/line/notify.ts:116 | `charAt(0).toUpperCase() + slice(1)`: first character upper-cased, the rest unchanged, same length |
| Strings.Split | components/dashboard/sync-history.tsx:50 | `split` on one character gives at least one part, and no part holds the separator |
| Strings.SplitJoin | components/dashboard/sync-history.tsx:50 | joining the parts of a split with the separator gives back the string |
| Strings.JoinSplit | components/dashboard/pickup-time-modal.tsx:90 | splitting a join of separator-free parts gives back the parts |
| Strings.NatToString | components/dashboard/pagination.tsx:26 | `toString` of a natural number is a non-empty run of decimal digits |
| Strings.NatToStringValue | components/dashboard/pagination.tsx:26 | the digits written by `toString` have the number as their value |
| Strings.ParseInt | app/api/bookings/route.ts:27-28 | `parseInt` is NaN exactly when no digit follows the leading white space and sign |
| Strings.LeadingDigits | app/api/bookings/route.ts:27-28 | `parseInt` reads the longest run of digits: a prefix, all digits, and followed by no digit |
| Strings.ParseIntToString | app/api/bookings/route.ts:27-28 | `parseInt` reads back exactly the integer `toString` wrote |
| Strings.PadStart2 | components/dashboard/pickup-time-modal.tsx:175-180 | `padStart(2, "0")`: length at least 2, the string kept at the end |
| Query.Delete | components/dashboard/bookings-table.tsx:91-92 | `params.delete(name)`: the name is gone and every other name reads as before |
| Query.Set | components/dashboard/pagination.tsx:24-28 | `params.set(name, value)`: the name reads as the value and every other name as before |
| Query.SearchParams.SetParam | components/dashboard/pagination.tsx:26 | the object's pairs become `Set` of the old pairs |
| Query.SearchParams.DeleteParam | components/dashboard/bookings-table.tsx:91 | the object's pairs become `Delete` of the old pairs |
| Ordering.StrLeTransitive | app/api/websites/route.ts:27-30 | the string order that orders rows is transitive |
| Ordering.SortBy | app/api/websites/route.ts:27-30 | `.order(key)`: the result is a permutation of the rows, sorted by the key in the chosen direction |
| Store.FindBooking | app/api/bookings/sync/route.ts:92-97 | the lookup by (website, source booking id) finds a row with that key, or reports that no row has it |
| Signature.GenerateWebhookSignature | lib/utils/signature.ts:3-14 | "sha256=" followed by 64 lower-case hex digits of the HMAC of `timestamp.payload` under the secret |
| Signature.SignatureRoundTrip | lib/utils/signature.ts:16-24 | a generated signature verifies against the same payload, secret and timestamp, and every other string is rejected |
| Signature.FramingUnambiguous | lib/utils/signature.ts:8 | for decimal timestamps the signed string determines both the timestamp and the payload |
| Signature.HexEncode | lib/utils/signature.ts:27 | hex text is two lower-case hex digits per byte |
| Signature.HexRoundTrip | lib/utils/signature.ts:27 | decoding the hex text gives back the bytes |
| Signature.GenerateApiKey | lib/utils/signature.ts:26-29 | the prefix, "_sk_live_", then 48 hex digits that decode to the 24 random bytes |
| Signature.GenerateWebhookSecret | lib/utils/signature.ts:31-34 | "whsec_" then 48 hex digits that decode to the 24 random bytes |
| ApiAuth.FallbackIsSameHeader | lib/utils/api-auth.ts:30-32 | header names are case-insensitive, so the "x-api-key" fallback reads the same header |
| ApiAuth.ActiveMatches | lib/utils/api-auth.ts:16-21 | the rows the query selects are the active websites with exactly that key |
| ApiAuth.ValidateApiKey | lib/utils/api-auth.ts:9-28 | no website for a missing or empty key; otherwise a website exactly when one active website has the key, and that website |
| ApiAuth.AtMostOneMatch | lib/utils/api-auth.ts:16-21 | with unique keys at most one website matches |
| ApiAuth.ValidateFindsActiveWebsite | lib/utils/api-auth.ts:9-28 | an active website's non-empty key finds that website |
| ApiAuth.ValidateRejectsInactiveWebsite | lib/utils/api-auth.ts:16-21 | an inactive website's key finds nothing |
| EmailConfig.BrandTable | lib/email/config.ts:17-58 | five brands, each sending from its support address; the default sender is a separate no-reply address |
| EmailConfig.GetEmailConfig | lib/email/config.ts:65-70 | the brand entry for a known id, the default for a missing, empty or unknown id |
| EmailConfig.GetFromAddress | lib/email/config.ts:78-82 | "Name <email>": a non-empty custom name replaces the brand's name, and the address is always the brand's sender |
| LineNotify.GuestParts | lib/line/notify.ts:50-63 | the guest summary has one to three parts |
| LineNotify.ComposeGuestInfo | lib/line/notify.ts:50-63 | the appends build the guest summary: adults, then children and non-players when positive, else the guest count with non-players |
| LineNotify.ComposeTransportInfo | lib/line/notify.ts:65-80 | the transport section is empty exactly for no type or "self_arrange", else the label line and the hotel line with its room |
| LineNotify.ComposeContact | lib/line/notify.ts:91-100 | the opening lines, with the phone line only when a phone is given |
| LineNotify.AddActivity | lib/line/notify.ts:102-107 | appends the package, date, time slot and guest lines |
| LineNotify.AddClosing | lib/line/notify.ts:113-120 | appends the amount and status lines, then the notes when there are special requests |
| LineNotify.AddLine | lib/line/notify.ts:98-100 | `message += "\n" + line` adds exactly one line to the text |
| LineNotify.FormatBookingMessage | lib/line/notify.ts:41-123 | the appended message is the message's lines joined by newlines |
| LineNotify.OptionalSections | lib/line/notify.ts:98-120 | the phone, transport, hotel and notes lines appear exactly under their conditions |
| LineNotify.StatusLine | lib/line/notify.ts:82-89 | the status line's marker is ✅, ⏳ or ❌ exactly for confirmed, pending and cancelled, and the status follows capitalised |
| LineNotify.SendBookingNotification | lib/line/notify.ts:129-161 | unconfigured: no push and the configuration error; configured: one push of the message to the group, success exactly when it went through, and the error message or "Unknown LINE API error" otherwise |
| SyncRoute.Missing | app/api/bookings/sync/route.ts:42-45 | the reported fields are exactly the listed fields that are absent or empty |
| SyncRoute.MissingIffIncomplete | app/api/bookings/sync/route.ts:42-57 | nothing is reported missing exactly when the payload is complete |
| SyncRoute.MissingRequiredInOrder | app/api/bookings/sync/route.ts:42-45 | the three required fields are checked one by one, in order |
| SyncRoute.BookingDataOf | app/api/bookings/sync/route.ts:59-86 | the row takes the website id from the key, not the payload; the package fields, add-ons and transport are copied; defaults fill absent fields (THB, confirmed, zero counts and amounts); and each empty optional string becomes null, while a non-empty one is kept |
| SyncRoute.StatusStoredUnchecked | app/api/bookings/sync/route.ts:71 | a status outside the six booking statuses reaches the table |
| SyncRoute.NotificationOf | app/api/bookings/sync/route.ts:166-184 | the notification names the authenticated website and carries no adult or child count |
| SyncRoute.CheckRequired | app/api/bookings/sync/route.ts:42-45 | the fields the three checks collect are exactly the absent or empty required fields, in the order checked |
| SyncRoute.WriteBooking | app/api/bookings/sync/route.ts:91-153 | the table after the write is the per-key state machine's result, or unchanged when a creation is refused, and keys and ids stay unique |
| SyncRoute.AcceptPayload | app/api/bookings/sync/route.ts:91-197 | after the checks, the response, tables and notification are those of an accepted request as a function of the tables before it |
| SyncRoute.Post | app/api/bookings/sync/route.ts:12-210 | the handler's response, tables and notification are those of the request as a function of the tables before it, and the key constraints hold after it |
| SyncRoute.InsertKeepsUnique | app/api/bookings/sync/route.ts:110-114 | inserting a row with a new key and a new id keeps keys and ids unique |
| SyncRoute.UpdateKeepsUnique | app/api/bookings/sync/route.ts:124-133 | overwriting a row with data of the same key keeps keys and ids unique |
| SyncRoute.FindsUniqueRow | app/api/bookings/sync/route.ts:130-133 | under unique keys the row with a key is the one the lookup finds |
| SyncRoute.ReconcileKeepsUnique | app/api/bookings/sync/route.ts:91-153 | every write of the state machine keeps (website, source id) keys and booking ids unique |
| SyncRoute.ReconcileGrowsOnCreate | app/api/bookings/sync/route.ts:121-152 | the state machine reports "create" exactly when it appended a row, and otherwise keeps the table's size |
| SyncRoute.ReconcileCreateTwice | app/api/bookings/sync/route.ts:91-108 | after a creation, a second creation of the same key is refused |
| SyncRoute.ReplayedReconcile | app/api/bookings/sync/route.ts:123-152 | replaying a non-create event finds the row the first delivery wrote, leaves the table as it was and reports the same booking id, never "create" |
| SyncRoute.RefusedRequestWritesNothing | app/api/bookings/sync/route.ts:14-108 | a refusal answers 400, 401 or 409 and writes and notifies nothing; 401 exactly for a key naming no active website; 400 exactly for a bad or incomplete body |
| SyncRoute.AcceptedRequestRecordsBooking | app/api/bookings/sync/route.ts:110-197 | success means a valid key and a complete payload; 201 for a creation, 200 otherwise; one inbound success log row; and the booking holds the normalised payload |
| SyncRoute.SyncKeepsBookingsUnique | app/api/bookings/sync/route.ts:91-153 | every request keeps (website, source id) keys and booking ids unique |
| SyncRoute.UpdateKeepsStaffFields | app/api/bookings/sync/route.ts:124-152 | an update replaces only the sync-owned fields and `updated_at`; it keeps id, notes, pickup time and creation time; it answers 200; it logs status_change exactly for a cancellation; it notifies nobody |
| SyncRoute.CreateTwiceConflicts | app/api/bookings/sync/route.ts:91-108 | a second creation of the same booking is refused with 409 DUPLICATE_BOOKING and changes nothing |
| SyncRoute.ReplayedUpdateIsIdempotent | app/api/bookings/sync/route.ts:124-152 | replaying an update with the same payload and time leaves the bookings table and the response as they were |
| SyncRoute.NotifiesExactlyOnInsert | app/api/bookings/sync/route.ts:164-188 | the notification goes out exactly when a row was inserted |
| Sender.FieldOf | lib/webhooks/sender.ts:31-33 | `booking[field]` is undefined exactly for a name that is not a booking column |
| Sender.ProjectFields | lib/webhooks/sender.ts:30-33 | the loop's object has exactly the updated fields as keys, each holding the booking's current value |
| Sender.EventFor | lib/webhooks/sender.ts:36-38 | booking.status_changed exactly when "status" is among the updated fields |
| Sender.PayloadDescribesEdit | lib/webhooks/sender.ts:35-44 | the payload carries the source id, the field list, the editor and the time, the fields' values, and the matching event |
| Sender.UnixSeconds | lib/webhooks/sender.ts:28 | the timestamp is the decimal text of the milliseconds divided by 1000, rounded down |
| Sender.Settle | lib/webhooks/sender.ts:73-76 | a row is settled to success with no error exactly when the response was ok, never left pending |
| Sender.NewestPending | lib/webhooks/sender.ts:78-88 | the update's target is the last outbound pending row of the booking, or none |
| Sender.SendWebhook | lib/webhooks/sender.ts:16-113 | the result, the request and the new log are those of the delivery as a function of the log before it |
| Sender.SkipsUnconfiguredWebsite | lib/webhooks/sender.ts:23-26 | without a URL and a secret nothing is sent or logged and the result is false |
| Sender.SignatureCoversSentBody | lib/webhooks/sender.ts:46-71 | the signature is over exactly the sent body and the timestamp header, and verifies with the website's secret |
| Sender.AppendedRowIsNewestPending | lib/webhooks/sender.ts:53-60 | the row appended before delivery is the one the settling update targets |
| Sender.LogsOneSettledRow | lib/webhooks/sender.ts:53-109 | one outbound row is added and no earlier row changes; it ends as success, "HTTP status: body", or the exception's message or "Unknown error" |
| Sender.ResultIsResponseOk | lib/webhooks/sender.ts:90-111 | true exactly when a request went out and its status was 200-299; an exception only yields false |
| WebsitesRoute.ListWebsites | app/api/websites/route.ts:12-39 | 401 exactly without a user; otherwise every website, sorted by name |
| WebsitesRoute.FindAdmin | app/api/websites/route.ts:64-68 | the admin row of the user, or none when no row has that id |
| WebsitesRoute.KeyPrefix | app/api/websites/route.ts:90 | `substring(0, 2)`: the first two characters of the id, or the whole id when shorter |
| WebsitesRoute.Register | app/api/websites/route.ts:49-140 | the handler's response and websites table are those of the registration as a function of the table before it, and the constraints hold after it |
| WebsitesRoute.InsertKeepsWebsitesUnique | app/api/websites/route.ts:105-109 | an insert that clashes with no id and no key keeps both unique |
| WebsitesRoute.RegisterGuards | app/api/websites/route.ts:57-88 | 401 exactly without a user, 403 exactly for a non-admin, 400 exactly for a body lacking id, name or domain; a refusal changes nothing |
| WebsitesRoute.RegisteredRow | app/api/websites/route.ts:90-132 | the new row holds the body's id, name and domain; its key is the id prefix, "_sk_live_" and the key bytes; it gets a fresh secret and null URLs when empty; it is active and appended |
| WebsitesRoute.RegisterDuplicateId | app/api/websites/route.ts:111-121 | an id that is taken answers 409 DUPLICATE and leaves the table unchanged |
| WebsitesRoute.RegisterKeepsWebsitesUnique | app/api/websites/route.ts:105-123 | every registration keeps website ids and API keys unique |
| BookingsRoute.FiltersOf | app/api/bookings/route.ts:20-29 | each filter is set exactly when its parameter is non-empty, and then holds it; a missing or empty page or page size reads as 1 or 20, and a present one is parsed |
| Strings.ParseIntDigits | app/api/bookings/route.ts:27-28 | a string of digits reads as its decimal value |
| BookingsRoute.PageOf | app/api/bookings/route.ts:31 | `page \|\| 1`: never 0, and the parsed page when it is a number other than 0 |
| BookingsRoute.PerPageOf | app/api/bookings/route.ts:32 | `Math.min(per_page \|\| 20, 100)`: at most 100, 20 for a missing or zero size |
| BookingsRoute.FilterBookings | app/api/bookings/route.ts:39-59 | exactly the rows that pass every filter that is set, in table order |
| BookingsRoute.Window | app/api/bookings/route.ts:61-63 | `.range(offset, offset + perPage - 1)`: the rows from the offset on, at most `perPage` of them |
| BookingsRoute.CeilDiv | app/api/bookings/route.ts:72 | `Math.ceil(count / perPage)`: the fewest pages of that size that hold the rows |
| BookingsRoute.ListBookings | app/api/bookings/route.ts:5-91 | 401 exactly without a user; otherwise the page the filters select, or 500 SERVER_ERROR when storage refuses the range |
| BookingsRoute.PagingDefaults | app/api/bookings/route.ts:27-32 | missing, empty, zero and non-numeric paging values fall back to page 1 of 20, and the size is at most 100 |
| BookingsRoute.ServedRows | app/api/bookings/route.ts:35-65 | a served page holds matching table rows, newest first, at most a page size of them |
| BookingsRoute.ServedTotals | app/api/bookings/route.ts:72-82 | the page echoes the page and size, counts all matching rows, and has just enough pages to hold them |
| BookingsRoute.PastLastPageFails | app/api/bookings/route.ts:61-89 | an offset beyond the matching count is refused and answered with 500 SERVER_ERROR; an offset exactly at the count, with a valid page size, is served as an empty page |
| BookingsRoute.PastLastPageEmpty | app/api/bookings/route.ts:61-72 | a served page numbered beyond the last page holds no rows |
| BookingsRoute.FirstPageFull | app/api/bookings/route.ts:61-65 | the first page holds the newest matching rows, as many as fit |
| Pagination.StartItem | components/dashboard/pagination.tsx:37 | the first shown item is 0 when there are no results |
| Pagination.EndItem | components/dashboard/pagination.tsx:38 | the last shown item never exceeds the total |
| Pagination.RangeMatchesServedPage | components/dashboard/pagination.tsx:37-38 | for a page that exists, "showing x to y" names exactly the rows the server returns for it |
| Pagination.Range | components/dashboard/pagination.tsx:58-60 | the numbered buttons from a to b, in order |
| Pagination.GetVisiblePages | components/dashboard/pagination.tsx:40-72 | the loops push exactly the list of pages to show |
| Pagination.ShortListShowsEveryPage | components/dashboard/pagination.tsx:44-47 | up to seven pages, every page is listed in order |
| Pagination.LongListLayout | components/dashboard/pagination.tsx:48-69 | beyond seven pages: page 1, a leading ellipsis past page 3, the current page with its neighbours, a trailing ellipsis, the last page |
| Pagination.LongListShape | components/dashboard/pagination.tsx:48-69 | beyond seven pages: 3 to 7 entries from page 1 to the last page, increasing and in range |
| Pagination.LongListAroundCurrent | components/dashboard/pagination.tsx:51-64 | the current page is shown, with each ellipsis exactly under its condition |
| Pagination.GoToPage | components/dashboard/pagination.tsx:24-28 | `page` set to the number's text, every other parameter kept |
| Pagination.ChangePageSize | components/dashboard/pagination.tsx:30-35 | `per_page` set, back to page 1, every other parameter kept |
| Pagination.PushRange | components/dashboard/pagination.tsx:58-60 | one loop of the page list appends exactly the pages from the first bound to the second, none when the range is empty |
| Pagination.PageSizesWithinCap | components/dashboard/pagination.tsx:13 | every offered page size is served unchanged by the list endpoint |
| BookingFilters.StatusFilterOffersEveryStatus | components/dashboard/booking-filters.tsx:12-20 | "all" and then the six statuses in declared order |
| BookingFilters.ApplyUpdates | components/dashboard/booking-filters.tsx:38-44 | every named parameter ends set to its value, or removed when the value is empty, and every parameter no update names is kept |
| BookingFilters.UpdateFilters | components/dashboard/booking-filters.tsx:35-49 | each update is set, or removed when empty; `page` is removed; other parameters are kept; the list then serves page 1 |
| BookingFilters.ApplySearch | components/dashboard/booking-filters.tsx:51-63 | `search` is set, or removed when empty; `page` is removed; the route reads the new search |
| BookingFilters.InitialInputs | components/dashboard/booking-filters.tsx:26-31 | each input starts from its parameter or "", with the panel closed |
| BookingFilters.BadgeMatchesHasFilters | components/dashboard/booking-filters.tsx:33 | the badge shows 1 to 3 exactly when `hasFilters` holds, and the search text changes neither |
| BookingFilters.DateRangeCountsOnce | components/dashboard/booking-filters.tsx:33 | a date range with both ends set counts as one filter |
| BookingFilters.InputsMatchRouteFilters | components/dashboard/booking-filters.tsx:26-33 | an input shown as set is exactly a filter the list endpoint applies |
| BookingFilters.ClearFilters | components/dashboard/booking-filters.tsx:65-72 | all inputs emptied, the panel as it was, and the bare bookings path pushed |
| BookingFilters.ClearedPathListsEverything | components/dashboard/booking-filters.tsx:65-72 | after clearing, the list applies no filter and serves page 1 of 20 |
| BookingsTable.BucketOf | components/dashboard/bookings-table.tsx:57-65 | the first matching bucket wins: each of one ride, two, three and doubling is chosen exactly when its words occur and no earlier bucket's do, and no bucket exactly when none occur |
| BookingsTable.GetTicketCounts | components/dashboard/bookings-table.tsx:48-69 | the loop's counts are the counts of the add-ons taken in order |
| BookingsTable.CountsPartitionQuantities | components/dashboard/bookings-table.tsx:53-66 | every quantity is counted once, in a bucket or among the ignored |
| BookingsTable.TicketsAtMostQuantities | components/dashboard/bookings-table.tsx:53-66 | with no negative quantity, the tickets shown never exceed the quantities bought |
| BookingsTable.FirstMatchWins | components/dashboard/bookings-table.tsx:57-64 | an add-on named for one ride and doubling counts as one ride |
| BookingsTable.HasTransportCases | components/dashboard/bookings-table.tsx:78-80 | exactly hotel pickups and private transfers need transport |
| BookingsTable.HandleSort | components/dashboard/bookings-table.tsx:82-100 | the sort parameters become the next sort state, and every other parameter is kept |
| BookingsTable.SortCycle | components/dashboard/bookings-table.tsx:87-97 | three clicks on a new header go ascending, descending, then unsorted |
| Select.FindIndex | components/ui/select.tsx:49 | `findIndex`: the first option with the value, or -1 when none has it |
| Select.ShownLabel | components/ui/select.tsx:112-114 | the first matching option's label, or the placeholder when there is none or its label is empty |
| Select.KeyStep | components/ui/select.tsx:60-94 | disabled ignores keys; the highlight stays in range; a value is reported only by Enter or Space on an open list with a highlight, and closes it |
| Select.SelectBox.constructor | components/ui/select.tsx:29-30 | closed, nothing highlighted |
| Select.SelectBox.SyncHighlight | components/ui/select.tsx:47-58 | while open, the highlight moves to the selected option if it is listed |
| Select.SelectBox.HandleKeyDown | components/ui/select.tsx:60-94 | the handler's state change and reported value are `KeyStep`'s |
| Select.SelectBox.ClickButton | components/ui/select.tsx:100 | a click toggles the list unless disabled |
| Select.SelectBox.ClickOption | components/ui/select.tsx:139-142 | a click on an option reports its value and closes the list |
| Select.SelectBox.HoverOption | components/ui/select.tsx:143 | hovering an option highlights it |
| Select.SelectBox.ClickOutside | components/ui/select.tsx:36-45 | a press outside closes the list |
| Select.DisabledIgnoresKeys | components/ui/select.tsx:61 | a disabled select stays as it is whatever is typed |
| Select.ArrowDownStopsAtLast | components/ui/select.tsx:74-83 | n presses of ArrowDown move down n options, stopping at the last |
| Select.ArrowUpStopsAtFirst | components/ui/select.tsx:84-89 | n presses of ArrowUp move up n options, stopping at the first; with nothing highlighted they do nothing |
| Select.EscapeThenEnterReopens | components/ui/select.tsx:64-92 | Escape closes but keeps the highlight, so Enter reopens rather than choosing |
| Select.EnterAfterSyncKeepsValue | components/ui/select.tsx:47-73 | after the open-time sync, Enter reports the selected value itself |
| Select.StatusOptionsAreStatuses | components/ui/select.tsx:180-187 | the status dropdown lists the six statuses in declared order |
| Select.StatusAlwaysShown | components/ui/select.tsx:180-187 | every booking status is found among the options, so its label is shown |
| PickupTime.TwoDigits | components/dashboard/pickup-time-modal.tsx:175-180 | two decimal digits with the number as their value |
| PickupTime.HourOptions | components/dashboard/pickup-time-modal.tsx:175-177 | "00" to "23": 24 two-digit entries, entry i worth i |
| PickupTime.MinuteOptions | components/dashboard/pickup-time-modal.tsx:178-180 | "00" to "55": 12 two-digit entries, entry i worth 5i |
| PickupTime.InitialHours | components/dashboard/pickup-time-modal.tsx:82 | the hours shown first are non-empty and hold no colon |
| PickupTime.InitialMinutes | components/dashboard/pickup-time-modal.tsx:83 | the minutes shown first are non-empty and hold no colon |
| PickupTime.PickupRoundTrip | components/dashboard/pickup-time-modal.tsx:82-90 | a saved time reads back as its hours and minutes, also with seconds appended |
| PickupTime.OptionsRoundTrip | components/dashboard/pickup-time-modal.tsx:82-90 | every hour and minute the pickers offer survives a save and reload |
| PickupTime.DefaultTime | components/dashboard/pickup-time-modal.tsx:82-83 | a booking without a pickup time opens at 08:00 |
| PickupTime.SaveMessage | components/dashboard/pickup-time-modal.tsx:113-128 | a success message exactly after a save, an error otherwise, with the fallback texts |
| PickupTime.PickupTimeDialog.constructor | components/dashboard/pickup-time-modal.tsx:82-88 | the dialog opens on the stored time, idle and without messages |
| PickupTime.PickupTimeDialog.ChooseHour | components/dashboard/pickup-time-modal.tsx:60-63 | a pick sets the hours to the option and changes nothing else |
| PickupTime.PickupTimeDialog.ChooseMinute | components/dashboard/pickup-time-modal.tsx:60-63 | a pick sets the minutes to the option and changes nothing else |
| PickupTime.PickupTimeDialog.BeginSave | components/dashboard/pickup-time-modal.tsx:92-109 | the chosen button's busy flag is raised, messages are cleared, and the joined time is posted with the e-mail flag |
| PickupTime.PickupTimeDialog.FinishSave | components/dashboard/pickup-time-modal.tsx:111-132 | the outcome's message, both busy flags lowered, and a refresh only after a save |
| PickupTime.EmailLinesWith | components/dashboard/pickup-time-modal.tsx:135-163 | the e-mail has twenty lines |
| PickupTime.EmailSplitsIntoLines | components/dashboard/pickup-time-modal.tsx:135-163 | with single-line fields the e-mail splits back into exactly its lines |
| PickupTime.EmailLayout | components/dashboard/pickup-time-modal.tsx:145-162 | greeting first; the guest count on line 13, with the non-players only when there are some; the signature last |
| PickupTime.EmojiDetailLines | components/dashboard/pickup-time-modal.tsx:149-151 | with the intended markers, the three detail lines are the date, the pickup time and the hotel (or "Your hotel") with the room suffix |
| PickupTime.EmailDetailLayout | components/dashboard/pickup-time-modal.tsx:149-151 | the date, pickup time and location are lines 7-9 of the e-mail, the room shown only when one is set |
| PickupTime.MojibakeInDateLine | components/dashboard/pickup-time-modal.tsx:149 | as written, the date line opens with four Latin-1/cp1252 characters instead of the calendar emoji |
| PickupTime.DetailLinesOpenWithEmoji | components/dashboard/pickup-time-modal.tsx:149-151 | with the intended markers each detail line opens with its emoji |
| Sidebar.HomeActiveOnlyAtHome | components/dashboard/sidebar.tsx:40-42 | the home link is active on its own path only |
| Sidebar.SectionActiveBelow | components/dashboard/sidebar.tsx:40-42 | any other link is active on every path that starts with it |
| Sidebar.PrefixWithoutBoundary | components/dashboard/sidebar.tsx:42 | the prefix test has no "/" boundary, so "/dashboard/bookings-archive" activates Bookings |
| Sidebar.NavigationDistinct | components/dashboard/sidebar.tsx:15-21 | five links with distinct targets |
| Sidebar.AtMostOneActive | components/dashboard/sidebar.tsx:15-42 | whatever the path, no two links are active together |
| CredentialsCard.MaskedKey | components/dashboard/api-credentials-card.tsx:66 | the first 15 characters of the key, then 32 bullets |
| CredentialsCard.MaskRevealsAtMostFifteen | components/dashboard/api-credentials-card.tsx:66 | keys that agree on 15 characters mask alike, and only the first 15 positions can differ from a bullet |
| CredentialsCard.EnvVarsLayout | components/dashboard/api-credentials-card.tsx:68-70 | three lines: the URL, the key and the website id, each after its name |
| CredentialsCard.SnippetRevealsTwenty | components/dashboard/api-credentials-card.tsx:233-234 | the header line shows the key's first 20 characters and "..." |
| CredentialsCard.CredentialsPanel.ToggleShowKey | components/dashboard/api-credentials-card.tsx:92 | the eye button flips whether the key is shown |
| CredentialsCard.CredentialsPanel.Copy | components/dashboard/api-credentials-card.tsx:32-40 | a successful copy marks the field; a failed one changes nothing |
| CredentialsCard.CredentialsPanel.BeginRegenerate | components/dashboard/api-credentials-card.tsx:42-50 | a request exactly when confirmed, to the website's regenerate-key endpoint, with the busy flag raised |
| CredentialsCard.CredentialsPanel.FinishRegenerate | components/dashboard/api-credentials-card.tsx:51-63 | busy lowered; a refresh exactly on an ok response, else the alert |
| SyncHistory.LabelOfDotted | components/dashboard/sync-history.tsx:50 | the label of `a.rest` is `a` capitalised, a space, and the label of `rest` |
| SyncHistory.EventLabelCharwise | components/dashboard/sync-history.tsx:50 | the label keeps the length; dots become spaces and each part's first letter is upper-cased |
| SyncHistory.DirectionLabels | components/dashboard/sync-history.tsx:59 | inbound reads "Received", outbound "Sent" |
| SyncHistory.StatusBadgesDistinct | components/dashboard/sync-history.tsx:8-18 | each log status has its own icon and colour |
| SyncHistory.Render | components/dashboard/sync-history.tsx:21-79 | the placeholder exactly for no entries; otherwise one row per entry in order, with its label, direction, icon, and error only when set |

## Left out

- Storage failures, thrown errors and the 500 SERVER_ERROR answers they
  lead to are not modelled. The exception is the bookings list, where a
  range storage refuses (a negative offset, a non-positive page size, or
  an offset beyond the exact count of matching rows) is answered with SERVER_ERROR. Row-level security and Supabase sessions
  are reduced to an optional user id.
- Concurrency is not modelled: each request runs alone against the
  tables. Two racing creations of one booking, or racing webhook
  settlements, are outside the model.
- Settling "the newest pending row" uses position in the log as the
  creation order, not the `created_at` column.
- `JSON.stringify`, HMAC-SHA256 and `crypto.randomBytes` are parameters.
  The model proves what is built from them, not their internals.
- Locale formatting is a parameter: `toLocaleDateString`, `toLocaleString`
  and the Asia/Bangkok time zone. Dates are compared as strings, as the
  query sends them.
- Case mapping (`toLowerCase`, `toUpperCase`) covers ASCII letters only.
- `ilike` is a case-insensitive substring test. The `%` and `_` wildcards
  a search text may contain are not interpreted, and collation is string
  order.
- BookingsRoute.Matches and BookingsRoute.ListBookings: the search text is
  spliced unescaped into the storage `or` filter. Text containing `,`, `(`
  or `)` makes that filter malformed, so the route answers 500, and `*`
  acts as a wildcard. The model treats every search text as a literal
  substring and serves the page.
- `parseInt` reads decimal digits after ASCII white space and a sign.
  The "0x" prefix, Unicode white space and numbers too large for a double
  are not modelled.
- Amounts and counts are unbounded integers, not doubles.
- Header lookup returns one value per name. Repeated headers combined
  with commas are not modelled.
- A sync body that parses as JSON but is not an object (such as `null`)
  makes the handler throw and answer 500. The model's body is either not
  JSON or a payload object.
- The pending log insert in the webhook sender ignores its result, and
  the model assumes it succeeds.
- `response.text()` failing inside an error response is folded into the
  thrown-delivery case.
- Sender.FieldOf: the optional `adult_count` and `child_count` columns and
  the joined `website` read as undefined. The model's booking row does
  not hold them, since the sync route never writes them.
- EmailConfig.GetEmailConfig: the brand table is a plain object, so an id
  naming an inherited member (`constructor`, `toString`, `__proto__`, …)
  returns that member, and the sender's from-address renders as
  "undefined <undefined>". The model's table is a map, and such an id gets
  the default brand.
- Types.SyncEvent: only the four documented events are represented. The
  sync route treats any other event string as an update (event type
  "update") and stores the raw payload in the log. The model cannot
  express such a payload.
- BookingsTable.HasTransportCases: the transport type is one of the four
  declared values. An unknown string is not modelled.
- The `!addons` test in `getTicketCounts` treats null add-ons as an empty
  list. The model's add-ons are a sequence, which has no null.
- Timers are not modelled: the search debounce, the close after a saved
  pickup time, and the reset of the "copied" marks. The clipboard write
  is an input (`written`).
- The copy-e-mail button of the pickup-time dialog and the time
  dropdown's own open state are not modelled. They change no data.
- Rendering-only components and layout are not modelled. These include
  the stats cards, header, loading pages, booking detail and edit forms,
  scroll into view and CSS classes.

## Findings

| source | as written | input that shows it | evidently intended | confidence | as-written member | corrected member |
|---|---|---|---|---|---|---|
| components/dashboard/pickup-time-modal.tsx:149-151 | the date, time and location lines of the customer e-mail begin with "ðŸ“…", "â°" and "ðŸ“", which are the UTF-8 bytes of the emoji read as Windows-1252 | any booking: line 7 of the generated e-mail starts with U+00F0 U+0178 U+201C U+2026 | the emoji 📅, ⏰ and 📍 | not executed | PickupTime.MojibakeInDateLine | PickupTime.DetailLinesOpenWithEmoji |
