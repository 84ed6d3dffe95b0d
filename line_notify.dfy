/** The LINE group notification for a new booking (lib/line/notify.ts): the
    message composer and the configured-check of the sender. Date and amount
    formatting (`toLocaleDateString`, `toLocaleString`) are passed in as
    functions; the push itself is an outcome passed in. */
module LineNotify {
  import opened Types
  import opened Strings
  import EmailConfig

  /** What the caller passes to `sendBookingNotification`. A count the
      caller leaves out is `None` and prints as "undefined". */
  datatype NotificationData = NotificationData(
    websiteId: string,
    websiteName: string,
    bookingRef: string,
    customerName: string,
    customerEmail: string,
    customerPhone: Option<string>,
    packageName: string,
    activityDate: string,
    timeSlot: string,
    guestCount: Option<int>,
    adultCount: Option<int>,
    childCount: Option<int>,
    nonPlayers: int,
    transportType: Option<string>,
    hotelName: Option<string>,
    roomNumber: Option<string>,
    totalAmount: int,
    currency: string,
    status: string,
    specialRequests: Option<string>)

  /** A number interpolated into a template literal. */
  function CountText(n: Option<int>): string
  {
    if n.Some? then IntToString(n.value) else "undefined"
  }

  /** The pieces of the guest summary, joined by " + ": adults (with
      children and non-players when there are any) when an adult count is
      given, otherwise the guest count (with non-players). */
  function GuestParts(d: NotificationData): (parts: seq<string>)
    ensures 1 <= |parts| <= 3
  {
    if d.adultCount.Some? then
      [IntToString(d.adultCount.value) + " adults"]
      + (if d.childCount.Some? && d.childCount.value > 0 then [IntToString(d.childCount.value) + " children"] else [])
      + (if d.nonPlayers > 0 then [IntToString(d.nonPlayers) + " non-players"] else [])
    else
      [CountText(d.guestCount) + " guests"]
      + (if d.nonPlayers > 0 then [IntToString(d.nonPlayers) + " non-players"] else [])
  }

  function GuestInfo(d: NotificationData): string
  {
    Join(GuestParts(d), " + ")
  }

  /** The transport section is shown for any set type except "self_arrange". */
  predicate ShowsTransport(d: NotificationData)
  {
    Truthy(d.transportType) && d.transportType.value != "self_arrange"
  }

  function TransportLabel(t: string): string
  {
    if t == "hotel_pickup" then "Hotel Pickup"
    else if t == "private" then "Private Transfer"
    else t
  }

  /** The transport section as lines: a blank line, the label, and the hotel
      (with its room) when a hotel is named. */
  function TransportLines(d: NotificationData): seq<string>
  {
    if !ShowsTransport(d) then []
    else
      ["", "🚐 " + TransportLabel(d.transportType.value)]
      + (if Truthy(d.hotelName) then
           ["🏨 " + d.hotelName.value + (if Truthy(d.roomNumber) then " (Room " + d.roomNumber.value + ")" else "")]
         else [])
  }

  function StatusEmoji(status: string): string
  {
    if status == "confirmed" then "✅"
    else if status == "pending" then "⏳"
    else if status == "cancelled" then "❌"
    else "📋"
  }

  /** The site line falls back to the brand's sender name. */
  function SiteName(d: NotificationData): string
  {
    if d.websiteName != "" then d.websiteName
    else EmailConfig.GetEmailConfig(Some(d.websiteId)).senderName
  }

  function HeadBlock(d: NotificationData): seq<string>
  {
    ["🎫 NEW BOOKING", "", "📍 " + SiteName(d), "📋 " + d.bookingRef, "👤 " + d.customerName, "📧 " + d.customerEmail]
  }

  function PhoneBlock(d: NotificationData): seq<string>
  {
    if Truthy(d.customerPhone) then ["📱 " + d.customerPhone.value] else []
  }

  function ActivityBlock(d: NotificationData, formatDate: string -> string): seq<string>
  {
    ["", "📦 " + d.packageName, "📅 " + formatDate(d.activityDate), "⏰ " + d.timeSlot, "👥 " + GuestInfo(d)]
  }

  function AmountBlock(d: NotificationData, formatAmount: int -> string): seq<string>
  {
    ["", "💰 " + d.currency + " " + formatAmount(d.totalAmount), StatusEmoji(d.status) + " " + Capitalize(d.status)]
  }

  function NotesBlock(d: NotificationData): seq<string>
  {
    if Truthy(d.specialRequests) then ["", "📝 Notes: " + d.specialRequests.value] else []
  }

  /** The message, line by line. */
  function Lines(d: NotificationData, formatDate: string -> string, formatAmount: int -> string): seq<string>
  {
    HeadBlock(d) + PhoneBlock(d) + ActivityBlock(d, formatDate) + TransportLines(d) + AmountBlock(d, formatAmount) + NotesBlock(d)
  }

  function Message(d: NotificationData, formatDate: string -> string, formatAmount: int -> string): string
  {
    Join(Lines(d, formatDate, formatAmount), "\n")
  }

  /** The guest summary as `formatBookingMessage` builds it, by appends. */
  method ComposeGuestInfo(d: NotificationData) returns (guestInfo: string)
    ensures guestInfo == GuestInfo(d)
  {
    if d.adultCount.Some? {
      guestInfo := IntToString(d.adultCount.value) + " adults";
      ghost var parts := [guestInfo];
      if d.childCount.Some? && d.childCount.value > 0 {
        var children := IntToString(d.childCount.value) + " children";
        JoinSnoc(parts, children, " + ");
        guestInfo := guestInfo + " + " + children;
        parts := parts + [children];
      }
      assert guestInfo == Join(parts, " + ");
      if d.nonPlayers > 0 {
        var nonPlayers := IntToString(d.nonPlayers) + " non-players";
        JoinSnoc(parts, nonPlayers, " + ");
        guestInfo := guestInfo + " + " + nonPlayers;
        parts := parts + [nonPlayers];
      }
      assert guestInfo == Join(parts, " + ");
      assert parts == GuestParts(d);
    } else {
      var guests := CountText(d.guestCount) + " guests";
      if d.nonPlayers > 0 {
        var nonPlayers := IntToString(d.nonPlayers) + " non-players";
        JoinSnoc([guests], nonPlayers, " + ");
        assert GuestParts(d) == [guests] + [nonPlayers];
        guestInfo := guests + " + " + nonPlayers;
      } else {
        assert GuestParts(d) == [guests];
        guestInfo := guests;
      }
    }
  }

  /** The transport section as `formatBookingMessage` builds it: empty, or
      its lines each preceded by a newline. */
  method ComposeTransportInfo(d: NotificationData) returns (transportInfo: string)
    ensures transportInfo == Join(TransportLines(d), "\n")
    ensures transportInfo == "" <==> !ShowsTransport(d)
  {
    transportInfo := "";
    if Truthy(d.transportType) && d.transportType.value != "self_arrange" {
      var transportLabel := TransportLabel(d.transportType.value);
      transportInfo := "\n🚐 " + transportLabel;
      ghost var tl := ["", "🚐 " + transportLabel];
      assert Join(tl, "\n") == transportInfo by {
        JoinSnoc([""], "🚐 " + transportLabel, "\n");
      }
      if Truthy(d.hotelName) {
        transportInfo := transportInfo + "\n🏨 " + d.hotelName.value;
        if Truthy(d.roomNumber) {
          transportInfo := transportInfo + " (Room " + d.roomNumber.value + ")";
        }
        ghost var hotelLine := "🏨 " + d.hotelName.value + (if Truthy(d.roomNumber) then " (Room " + d.roomNumber.value + ")" else "");
        JoinSnoc(tl, hotelLine, "\n");
        tl := tl + [hotelLine];
      } else {
        assert tl + [] == tl;
      }
      assert tl == TransportLines(d);
    }
  }

  /** The opening lines: title, site, reference, customer, e-mail and the
      phone when there is one. */
  method ComposeContact(d: NotificationData) returns (message: string)
    ensures message == Join(HeadBlock(d) + PhoneBlock(d), "\n")
  {
    message := "🎫 NEW BOOKING";
    ghost var lines := [message];
    message := AddLine(message, lines, "");
    lines := lines + [""];
    message := AddLine(message, lines, "📍 " + SiteName(d));
    lines := lines + ["📍 " + SiteName(d)];
    message := AddLine(message, lines, "📋 " + d.bookingRef);
    lines := lines + ["📋 " + d.bookingRef];
    message := AddLine(message, lines, "👤 " + d.customerName);
    lines := lines + ["👤 " + d.customerName];
    message := AddLine(message, lines, "📧 " + d.customerEmail);
    lines := lines + ["📧 " + d.customerEmail];
    assert lines == HeadBlock(d);
    if Truthy(d.customerPhone) {
      message := AddLine(message, lines, "📱 " + d.customerPhone.value);
    } else {
      assert lines + PhoneBlock(d) == lines;
    }
  }

  /** Appends the activity lines: package, date, time slot and guests. */
  method AddActivity(message: string, ghost lines: seq<string>, d: NotificationData, formatDate: string -> string,
                     formattedDate: string, guestInfo: string) returns (r: string)
    requires |lines| >= 1 && message == Join(lines, "\n")
    requires formattedDate == formatDate(d.activityDate) && guestInfo == GuestInfo(d)
    ensures r == Join(lines + ActivityBlock(d, formatDate), "\n")
  {
    r := AddLine(message, lines, "");
    ghost var ls := lines + [""];
    r := AddLine(r, ls, "📦 " + d.packageName);
    ls := ls + ["📦 " + d.packageName];
    r := AddLine(r, ls, "📅 " + formattedDate);
    ls := ls + ["📅 " + formattedDate];
    r := AddLine(r, ls, "⏰ " + d.timeSlot);
    ls := ls + ["⏰ " + d.timeSlot];
    r := AddLine(r, ls, "👥 " + guestInfo);
    ls := ls + ["👥 " + guestInfo];
    assert ls == lines + ActivityBlock(d, formatDate);
  }

  /** Appends the amount and status lines, then the notes when there are
      special requests. */
  method AddClosing(message: string, ghost lines: seq<string>, d: NotificationData, formatAmount: int -> string,
                    statusEmoji: string) returns (r: string)
    requires |lines| >= 1 && message == Join(lines, "\n")
    requires statusEmoji == StatusEmoji(d.status)
    ensures r == Join(lines + AmountBlock(d, formatAmount) + NotesBlock(d), "\n")
  {
    r := AddLine(message, lines, "");
    ghost var ls := lines + [""];
    r := AddLine(r, ls, "💰 " + d.currency + " " + formatAmount(d.totalAmount));
    ls := ls + ["💰 " + d.currency + " " + formatAmount(d.totalAmount)];
    r := AddLine(r, ls, statusEmoji + " " + Capitalize(d.status));
    ls := ls + [statusEmoji + " " + Capitalize(d.status)];
    assert ls == lines + AmountBlock(d, formatAmount);
    if Truthy(d.specialRequests) {
      r := AddLine(r, ls, "");
      r := AddLine(r, ls + [""], "📝 Notes: " + d.specialRequests.value);
      assert ls + [""] + ["📝 Notes: " + d.specialRequests.value] == ls + NotesBlock(d);
    } else {
      assert ls + NotesBlock(d) == ls;
    }
  }

  /** `formatBookingMessage`: builds the message by successive appends; the
      result is the lines of `Lines` separated by newlines. */
  method FormatBookingMessage(d: NotificationData, formatDate: string -> string, formatAmount: int -> string)
    returns (message: string)
    ensures message == Message(d, formatDate, formatAmount)
  {
    var formattedDate := formatDate(d.activityDate);
    var guestInfo := ComposeGuestInfo(d);
    var transportInfo := ComposeTransportInfo(d);
    var statusEmoji := StatusEmoji(d.status);

    message := ComposeContact(d);
    ghost var lines := HeadBlock(d) + PhoneBlock(d);
    message := AddActivity(message, lines, d, formatDate, formattedDate, guestInfo);
    lines := lines + ActivityBlock(d, formatDate);
    if transportInfo != "" {
      JoinAppend(lines, TransportLines(d), "\n");
      message := message + "\n" + transportInfo;
    } else {
      assert lines + TransportLines(d) == lines;
    }
    lines := lines + TransportLines(d);
    message := AddClosing(message, lines, d, formatAmount, statusEmoji);
  }

  /** `message += "\n" + line`: the text of the lines gains one more line. */
  method AddLine(message: string, ghost lines: seq<string>, line: string) returns (r: string)
    requires |lines| >= 1 && message == Join(lines, "\n")
    ensures r == Join(lines + [line], "\n")
  {
    JoinSnoc(lines, line, "\n");
    r := message + "\n" + line;
  }

  // ---------------------------------------------------------------------
  // Which optional sections the message has

  /** The first character of every line (a space for a blank line). */
  function Heads(lines: seq<string>): (h: string)
    ensures |h| == |lines|
  {
    seq(|lines|, i requires 0 <= i < |lines| => if lines[i] == [] then ' ' else lines[i][0])
  }

  lemma HeadsAppend(a: seq<string>, b: seq<string>)
    ensures Heads(a + b) == Heads(a) + Heads(b)
  {
    assert forall i :: 0 <= i < |a + b| ==> Heads(a + b)[i] == (Heads(a) + Heads(b))[i];
  }

  /** The markers of the blocks every message has. */
  lemma FixedBlockHeads(d: NotificationData, formatDate: string -> string)
    ensures Heads(HeadBlock(d)) == "🎫 📍📋👤📧"
    ensures Heads(ActivityBlock(d, formatDate)) == " 📦📅⏰👥"
  {
  }

  /** The amount block: a blank line, the amount and the status marker. */
  lemma AmountBlockHeads(d: NotificationData, formatAmount: int -> string)
    ensures |Heads(AmountBlock(d, formatAmount))| == 3 && Heads(AmountBlock(d, formatAmount))[..2] == " 💰"
    ensures Heads(AmountBlock(d, formatAmount))[2] in "✅⏳❌📋"
  {
  }

  /** The markers of the optional blocks. */
  lemma OptionalBlockHeads(d: NotificationData)
    ensures Heads(PhoneBlock(d)) == if Truthy(d.customerPhone) then "📱" else ""
    ensures Heads(NotesBlock(d)) == if Truthy(d.specialRequests) then " 📝" else ""
    ensures Heads(TransportLines(d)) == if !ShowsTransport(d) then "" else if Truthy(d.hotelName) then " 🚐🏨" else " 🚐"
  {
  }

  /** Which markers occur in the concatenated block heads. */
  lemma Markers(h1: string, h2: string, h3: string, h4: string, h5: string, h6: string,
                phone: bool, transport: bool, hotel: bool, notes: bool)
    requires h1 == "🎫 📍📋👤📧" && h2 == (if phone then "📱" else "") && h3 == " 📦📅⏰👥"
    requires h4 == (if !transport then "" else if hotel then " 🚐🏨" else " 🚐")
    requires |h5| == 3 && h5[..2] == " 💰" && h5[2] in "✅⏳❌📋"
    requires h6 == (if notes then " 📝" else "")
    ensures var h := h1 + h2 + h3 + h4 + h5 + h6;
      ('📱' in h <==> phone) && ('🚐' in h <==> transport) && ('🏨' in h <==> transport && hotel) && ('📝' in h <==> notes)
  {
    assert h5 == h5[..2] + [h5[2]];
  }

  /** Every line starts with its own marker, so each optional section can be
      told by its marker: the phone line appears exactly when a phone is
      given, the transport line exactly when a type other than
      "self_arrange" is set, the hotel line only with it and a hotel name,
      and the notes only with special requests. */
  lemma {:induction false} OptionalSections(d: NotificationData, formatDate: string -> string, formatAmount: int -> string)
    ensures var h := Heads(Lines(d, formatDate, formatAmount));
      ('📱' in h <==> Truthy(d.customerPhone)) &&
      ('🚐' in h <==> ShowsTransport(d)) &&
      ('🏨' in h <==> ShowsTransport(d) && Truthy(d.hotelName)) &&
      ('📝' in h <==> Truthy(d.specialRequests))
  {
    var h1, h2, h3 := HeadBlock(d), PhoneBlock(d), ActivityBlock(d, formatDate);
    var h4, h5, h6 := TransportLines(d), AmountBlock(d, formatAmount), NotesBlock(d);
    HeadsAppend(h1, h2);
    HeadsAppend(h1 + h2, h3);
    HeadsAppend(h1 + h2 + h3, h4);
    HeadsAppend(h1 + h2 + h3 + h4, h5);
    HeadsAppend(h1 + h2 + h3 + h4 + h5, h6);
    FixedBlockHeads(d, formatDate);
    AmountBlockHeads(d, formatAmount);
    OptionalBlockHeads(d);
    Markers(Heads(h1), Heads(h2), Heads(h3), Heads(h4), Heads(h5), Heads(h6),
            Truthy(d.customerPhone), ShowsTransport(d), Truthy(d.hotelName), Truthy(d.specialRequests));
  }

  /** The status line: its marker is ✅, ⏳ or ❌ for confirmed, pending and
      cancelled and 📋 for any other status, and the status follows with its
      first letter upper-cased. */
  lemma StatusLine(d: NotificationData, formatDate: string -> string, formatAmount: int -> string)
    ensures var lines := Lines(d, formatDate, formatAmount);
      var line := lines[|lines| - (if Truthy(d.specialRequests) then 3 else 1)];
      line == StatusEmoji(d.status) + " " + Capitalize(d.status)
    ensures d.status == "confirmed" <==> StatusEmoji(d.status) == "✅"
    ensures d.status == "pending" <==> StatusEmoji(d.status) == "⏳"
    ensures d.status == "cancelled" <==> StatusEmoji(d.status) == "❌"
  {
  }

  // ---------------------------------------------------------------------
  // Sending

  /** Whether the LINE client was built: both the channel token and the
      group id must be set and non-empty. */
  datatype LineConfig = LineConfig(channelAccessToken: Option<string>, groupId: Option<string>)

  predicate Configured(c: LineConfig)
  {
    Truthy(c.channelAccessToken) && Truthy(c.groupId)
  }

  /** What the push to LINE did: succeeded, or threw (with the error's
      message when it was an `Error`). */
  datatype PushOutcome = Pushed | PushThrew(errorMessage: Option<string>)

  datatype PushRequest = PushRequest(to: string, text: string)

  datatype SendResult = SendResult(success: bool, error: Option<string>)

  const NotConfiguredError: string := "LINE_CHANNEL_ACCESS_TOKEN or LINE_GROUP_ID not configured"

  /** `sendBookingNotification`: the push it makes (if any) and the result
      it resolves to. It never throws: a failed push becomes a result. */
  function SendBookingNotification(config: LineConfig, d: NotificationData, formatDate: string -> string,
                                   formatAmount: int -> string, outcome: PushOutcome): (r: (Option<PushRequest>, SendResult))
    ensures !Configured(config) ==> r.0.None? && r.1 == SendResult(false, Some(NotConfiguredError))
    ensures Configured(config) ==> r.0 == Some(PushRequest(config.groupId.value, Message(d, formatDate, formatAmount)))
    ensures Configured(config) ==> (r.1.success <==> outcome.Pushed?)
    ensures Configured(config) && outcome.PushThrew? ==>
              r.1.error == Some(if outcome.errorMessage.Some? then outcome.errorMessage.value else "Unknown LINE API error")
  {
    if !Configured(config) then (None, SendResult(false, Some(NotConfiguredError)))
    else
      var request := PushRequest(config.groupId.value, Message(d, formatDate, formatAmount));
      match outcome
      case Pushed => (Some(request), SendResult(true, None))
      case PushThrew(m) => (Some(request), SendResult(false, Some(if m.Some? then m.value else "Unknown LINE API error")))
  }
}
