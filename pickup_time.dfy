/** The pickup-time dialog (components/dashboard/pickup-time-modal.tsx):
    hour and minute pickers seeded from the stored pickup time, the save
    request with its busy flags and messages, and the confirmation email
    text staff can copy for the customer.

    The date in the email is formatted by the browser's locale routines;
    it is passed in as `activityDate`. The save request's reply is passed
    in as a `SaveOutcome`. */
module PickupTime {
  import opened Types
  import opened Strings

  // ---------------------------------------------------------------------
  // Hours and minutes

  /** `n.toString().padStart(2, "0")` for `n` below 100. */
  function TwoDigits(n: nat): (r: string)
    requires n < 100
    ensures |r| == 2 && IsDigit(r[0]) && IsDigit(r[1])
    ensures DigitsValue(r) == n
  {
    var s := NatToString(n);
    NatToStringValue(n);
    if n < 10 then
      var r := PadStart2(s);
      assert |s| == 1 && r == "0" + s;
      assert r[..1] == "0" && r[..1][..0] == [];
      r
    else
      assert |NatToString(n / 10)| == 1;
      PadStart2(s)
  }

  /** `hourOptions`: "00" to "23". */
  function HourOptions(): (r: seq<string>)
    ensures |r| == 24
    ensures forall i :: 0 <= i < 24 ==> |r[i]| == 2 && IsDigit(r[i][0]) && IsDigit(r[i][1]) && DigitsValue(r[i]) == i
  {
    seq(24, i requires 0 <= i < 24 => TwoDigits(i))
  }

  /** `minuteOptions`: "00", "05", ..., "55". */
  function MinuteOptions(): (r: seq<string>)
    ensures |r| == 12
    ensures forall i :: 0 <= i < 12 ==> |r[i]| == 2 && IsDigit(r[i][0]) && IsDigit(r[i][1]) && DigitsValue(r[i]) == 5 * i
  {
    seq(12, i requires 0 <= i < 12 => TwoDigits(5 * i))
  }

  /** The hours shown first: the part of the stored time before the first
      colon, or "08" when there is no time or that part is empty. */
  function InitialHours(pickupTime: Option<string>): (h: string)
    ensures ':' !in h && h != []
  {
    if pickupTime.None? then "08"
    else
      var parts := Split(pickupTime.value, ':');
      if parts[0] == "" then "08" else parts[0]
  }

  /** The minutes shown first: the part after the first colon, or "00" when
      there is none or it is empty. */
  function InitialMinutes(pickupTime: Option<string>): (m: string)
    ensures ':' !in m && m != []
  {
    if pickupTime.None? then "00"
    else
      var parts := Split(pickupTime.value, ':');
      if |parts| < 2 || parts[1] == "" then "00" else parts[1]
  }

  /** `pickupTime`: the chosen hours and minutes joined by a colon. */
  function JoinTime(hours: string, minutes: string): string
  {
    hours + ":" + minutes
  }

  /** A saved time reads back as the hours and minutes it was made of, also
      when storage hands it back with seconds. */
  lemma PickupRoundTrip(hours: string, minutes: string, seconds: Option<string>)
    requires ':' !in hours && ':' !in minutes && hours != [] && minutes != []
    ensures var stored := if seconds.Some? then JoinTime(hours, minutes) + ":" + seconds.value else JoinTime(hours, minutes);
      InitialHours(Some(stored)) == hours && InitialMinutes(Some(stored)) == minutes
  {
    if seconds.Some? {
      var rest := minutes + [':'] + seconds.value;
      assert JoinTime(hours, minutes) + ":" + seconds.value == hours + [':'] + rest;
      SplitAtFirst(hours, ':', rest);
      SplitAtFirst(minutes, ':', seconds.value);
    } else {
      assert JoinTime(hours, minutes) == hours + [':'] + minutes;
      SplitAtFirst(hours, ':', minutes);
      SplitNoSeparator(minutes, ':');
    }
  }

  /** Any hour and minute the pickers offer survives a save and a reload. */
  lemma OptionsRoundTrip(i: nat, j: nat)
    requires i < 24 && j < 12
    ensures InitialHours(Some(JoinTime(HourOptions()[i], MinuteOptions()[j]))) == HourOptions()[i]
    ensures InitialMinutes(Some(JoinTime(HourOptions()[i], MinuteOptions()[j]))) == MinuteOptions()[j]
  {
    var h := HourOptions()[i];
    var m := MinuteOptions()[j];
    assert ':' !in h && ':' !in m by {
      assert h == [h[0], h[1]] && m == [m[0], m[1]];
    }
    PickupRoundTrip(h, m, None);
  }

  /** A booking without a pickup time opens at 08:00. */
  lemma DefaultTime()
    ensures JoinTime(InitialHours(None), InitialMinutes(None)) == "08:00"
  {
  }

  // ---------------------------------------------------------------------
  // Saving

  /** The PATCH the dialog sends: the path, the time and the email flag. */
  datatype SaveRequest = SaveRequest(path: string, pickup_time: string, send_email: bool)

  /** How the save came back: accepted, refused with the body's `error`
      field, or an exception (with the message of an `Error`, `None` for
      anything else thrown). */
  datatype SaveOutcome = Saved | Refused(error: Option<string>) | Threw(message: Option<string>)

  /** The message shown after a save. */
  function SaveMessage(sendEmail: bool, outcome: SaveOutcome): (r: (Option<string>, Option<string>))
    ensures r.0.Some? <==> outcome.Saved?
    ensures r.1.Some? <==> !outcome.Saved?
    ensures outcome.Refused? && !Truthy(outcome.error) ==> r.1 == Some("Failed to save pickup time")
    ensures outcome.Threw? && outcome.message.None? ==> r.1 == Some("An error occurred")
  {
    match outcome
    case Saved =>
      (Some(if sendEmail then "Pickup time saved and email sent to customer!" else "Pickup time saved successfully!"), None)
    case Refused(e) => (None, Some(if Truthy(e) then e.value else "Failed to save pickup time"))
    case Threw(m) => (None, Some(if m.Some? then m.value else "An error occurred"))
  }

  class PickupTimeDialog {
    const bookingId: string
    var hours: string
    var minutes: string
    var saving: bool
    var sendingEmail: bool
    var success: Option<string>
    var error: Option<string>

    /** The dialog as it opens for a booking. */
    constructor (b: Booking)
      ensures bookingId == b.id
      ensures hours == InitialHours(b.pickup_time) && minutes == InitialMinutes(b.pickup_time)
      ensures !saving && !sendingEmail && success.None? && error.None?
    {
      bookingId := b.id;
      hours := InitialHours(b.pickup_time);
      minutes := InitialMinutes(b.pickup_time);
      saving := false;
      sendingEmail := false;
      success := None;
      error := None;
    }

    /** A pick in the hour dropdown. */
    method ChooseHour(i: nat)
      requires i < 24
      modifies this
      ensures hours == HourOptions()[i] && minutes == old(minutes)
      ensures saving == old(saving) && sendingEmail == old(sendingEmail) && success == old(success) && error == old(error)
    {
      hours := HourOptions()[i];
    }

    /** A pick in the minute dropdown. */
    method ChooseMinute(j: nat)
      requires j < 12
      modifies this
      ensures minutes == MinuteOptions()[j] && hours == old(hours)
      ensures saving == old(saving) && sendingEmail == old(sendingEmail) && success == old(success) && error == old(error)
    {
      minutes := MinuteOptions()[j];
    }

    /** `handleSave(sendEmail)` up to the request: the busy flag for the
        chosen button is raised, the messages are cleared, and the joined
        time goes out with the flag. */
    method BeginSave(sendEmail: bool) returns (request: SaveRequest)
      modifies this
      ensures request == SaveRequest("/api/bookings/" + bookingId + "/pickup-time", JoinTime(hours, minutes), sendEmail)
      ensures sendingEmail == (sendEmail || old(sendingEmail)) && saving == (!sendEmail || old(saving))
      ensures success.None? && error.None?
      ensures hours == old(hours) && minutes == old(minutes)
    {
      if sendEmail {
        sendingEmail := true;
      } else {
        saving := true;
      }
      error := None;
      success := None;
      request := SaveRequest("/api/bookings/" + bookingId + "/pickup-time", JoinTime(hours, minutes), sendEmail);
    }

    /** The rest of `handleSave`: the message for the outcome, both busy
        flags lowered whatever happened, and a refresh (and closing the
        dialog) only after a successful save. */
    method FinishSave(sendEmail: bool, outcome: SaveOutcome) returns (refresh: bool)
      requires success.None? && error.None?
      modifies this
      ensures (success, error) == SaveMessage(sendEmail, outcome)
      ensures !saving && !sendingEmail
      ensures refresh <==> outcome.Saved?
      ensures hours == old(hours) && minutes == old(minutes)
    {
      refresh := false;
      match outcome {
        case Saved =>
          success := Some(if sendEmail then "Pickup time saved and email sent to customer!" else "Pickup time saved successfully!");
          refresh := true;
        case Refused(e) =>
          error := Some(if Truthy(e) then e.value else "Failed to save pickup time");
        case Threw(m) =>
          error := Some(if m.Some? then m.value else "An error occurred");
      }
      saving := false;
      sendingEmail := false;
    }
  }

  // ---------------------------------------------------------------------
  // The email text

  /** The three markers that open the date, time and location lines. */
  datatype Markers = Markers(date: string, time: string, location: string)

  /** The markers as the source file spells them: the UTF-8 bytes of the
      calendar, alarm-clock and pin emoji read back as Windows-1252, with
      the bytes that code page leaves undefined dropped. */
  const SourceMarkers := Markers("\U{F0}\U{178}\U{201C}\U{2026}", "\U{E2}\U{B0}", "\U{F0}\U{178}\U{201C}")

  /** The markers the email is meant to carry: U+1F4C5 CALENDAR, U+23F0
      ALARM CLOCK and U+1F4CD ROUND PUSHPIN. */
  const EmojiMarkers := Markers("\U{1F4C5}", "\U{23F0}", "\U{1F4CD}")

  function RoomSuffix(room: Option<string>): string
  {
    if Truthy(room) then " (Room: " + room.value + ")" else ""
  }

  function NonPlayersSuffix(nonPlayers: int): string
  {
    if nonPlayers > 0 then " + " + IntToString(nonPlayers) + " non-players" else ""
  }

  /** A nullable number as a template literal shows it. */
  function GuestsText(guests: Option<int>): string
  {
    if guests.Some? then IntToString(guests.value) else "null"
  }

  /** The detail lines: date, pickup time and location. */
  function DetailLines(b: Booking, activityDate: string, pickupTime: string, marks: Markers): seq<string>
  {
    var dateLine := marks.date + " Date: " + activityDate;
    var timeLine := marks.time + " Pickup Time: " + pickupTime;
    var place := OrElse(b.data.hotel_name, "Your hotel") + RoomSuffix(b.data.room_number);
    var locationLine := marks.location + " Pickup Location: " + place;
    [dateLine, timeLine, locationLine]
  }

  /** The reference, package and guest lines. */
  function BookingLines(b: Booking): seq<string>
  {
    var refLine := "Booking Reference: " + b.data.booking_ref;
    var packageLine := "Package: " + b.data.package_name;
    var guestsLine := "Number of Guests: " + GuestsText(b.data.guest_count) + NonPlayersSuffix(b.data.non_players);
    [refLine, packageLine, guestsLine]
  }

  /** The fixed closing lines. */
  function ClosingLines(): seq<string>
  {
    var ready := "Please be ready at the lobby " + "5-10 minutes before the pickup time.";
    var questions := "If you have any questions, " + "please don't hesitate to contact us.";
    ["", ready, "", questions, "", "Best regards,", "The Team"]
  }

  /** The email, line by line, with the given markers. */
  function EmailLinesWith(b: Booking, activityDate: string, pickupTime: string, marks: Markers): (lines: seq<string>)
    ensures |lines| == 20
  {
    var greeting := "Dear " + b.data.customer_name + ",";
    var opening := [greeting, "", "Thank you for booking with us!", "", "Your pickup details for your upcoming tour:", ""];
    opening + DetailLines(b, activityDate, pickupTime, marks) + [""] + BookingLines(b) + ClosingLines()
  }

  /** `generateEmailText()` as the source writes it. */
  function EmailTextAsWritten(b: Booking, activityDate: string, pickupTime: string): string
  {
    Join(EmailLinesWith(b, activityDate, pickupTime, SourceMarkers), "\n")
  }

  /** `generateEmailText()` with the emoji it evidently means. */
  function EmailText(b: Booking, activityDate: string, pickupTime: string): string
  {
    Join(EmailLinesWith(b, activityDate, pickupTime, EmojiMarkers), "\n")
  }

  /** No line break inside any field the email quotes. */
  predicate SingleLineFields(b: Booking, activityDate: string, pickupTime: string)
  {
    '\n' !in b.data.customer_name && '\n' !in activityDate && '\n' !in pickupTime &&
    '\n' !in OrElse(b.data.hotel_name, "Your hotel") && '\n' !in RoomSuffix(b.data.room_number) &&
    '\n' !in b.data.booking_ref && '\n' !in b.data.package_name &&
    '\n' !in GuestsText(b.data.guest_count) && '\n' !in NonPlayersSuffix(b.data.non_players)
  }

  /** No line of the list holds a line break. */
  predicate NoBreaks(lines: seq<string>)
  {
    forall i :: 0 <= i < |lines| ==> '\n' !in lines[i]
  }

  lemma NoBreaksAppend(a: seq<string>, b: seq<string>)
    requires NoBreaks(a) && NoBreaks(b)
    ensures NoBreaks(a + b)
  {
    forall i | 0 <= i < |a + b| ensures '\n' !in (a + b)[i] {
      if i >= |a| {
        assert (a + b)[i] == b[i - |a|];
      }
    }
  }

  lemma NoBreakJoin3(a: string, b: string, c: string)
    requires '\n' !in a && '\n' !in b && '\n' !in c
    ensures '\n' !in a + b + c
  {
    assert forall x :: x in a + b + c ==> x in a || x in b || x in c;
  }

  lemma OpeningNoBreaks(name: string)
    requires '\n' !in name
    ensures NoBreaks(["Dear " + name + ",", "", "Thank you for booking with us!", "", "Your pickup details for your upcoming tour:", ""])
  {
    NoBreakJoin3("Dear ", name, ",");
  }

  lemma DetailNoBreaks(b: Booking, activityDate: string, pickupTime: string)
    requires SingleLineFields(b, activityDate, pickupTime)
    ensures NoBreaks(DetailLines(b, activityDate, pickupTime, EmojiMarkers))
  {
    var place := OrElse(b.data.hotel_name, "Your hotel") + RoomSuffix(b.data.room_number);
    NoBreakJoin3(OrElse(b.data.hotel_name, "Your hotel"), RoomSuffix(b.data.room_number), "");
    assert place + "" == place;
    NoBreakJoin3("\U{1F4C5}", " Date: ", activityDate);
    NoBreakJoin3("\U{23F0}", " Pickup Time: ", pickupTime);
    NoBreakJoin3("\U{1F4CD}", " Pickup Location: ", place);
  }

  lemma BookingNoBreaks(b: Booking)
    requires '\n' !in b.data.booking_ref && '\n' !in b.data.package_name
    requires '\n' !in GuestsText(b.data.guest_count) && '\n' !in NonPlayersSuffix(b.data.non_players)
    ensures NoBreaks(BookingLines(b))
  {
    NoBreakJoin3("Booking Reference: ", b.data.booking_ref, "");
    assert "Booking Reference: " + b.data.booking_ref + "" == "Booking Reference: " + b.data.booking_ref;
    NoBreakJoin3("Package: ", b.data.package_name, "");
    assert "Package: " + b.data.package_name + "" == "Package: " + b.data.package_name;
    NoBreakJoin3("Number of Guests: ", GuestsText(b.data.guest_count), NonPlayersSuffix(b.data.non_players));
  }

  lemma ReadyLineNoBreak()
    ensures '\n' !in "Please be ready at the lobby " + "5-10 minutes before the pickup time."
  {
    var a := "Please be ready at the lobby ";
    var b := "5-10 minutes before the pickup time.";
    assert '\n' !in a && '\n' !in b;
    assert forall x :: x in a + b ==> x in a || x in b;
  }

  lemma QuestionsLineNoBreak()
    ensures '\n' !in "If you have any questions, " + "please don't hesitate to contact us."
  {
    var c := "If you have any questions, ";
    var d := "please don't hesitate to contact us.";
    assert '\n' !in c && '\n' !in d;
    assert forall x :: x in c + d ==> x in c || x in d;
  }

  lemma ClosingNoBreaks()
    ensures NoBreaks(ClosingLines())
  {
    ReadyLineNoBreak();
    QuestionsLineNoBreak();
  }

  /** Every line of the email is a single line when the quoted fields are. */
  lemma EmailLinesNoBreaks(b: Booking, activityDate: string, pickupTime: string)
    requires SingleLineFields(b, activityDate, pickupTime)
    ensures NoBreaks(EmailLinesWith(b, activityDate, pickupTime, EmojiMarkers))
  {
    var opening := ["Dear " + b.data.customer_name + ",", "", "Thank you for booking with us!", "",
                    "Your pickup details for your upcoming tour:", ""];
    OpeningNoBreaks(b.data.customer_name);
    var details := DetailLines(b, activityDate, pickupTime, EmojiMarkers);
    DetailNoBreaks(b, activityDate, pickupTime);
    var booking := BookingLines(b);
    BookingNoBreaks(b);
    ClosingNoBreaks();
    NoBreaksAppend(opening, details);
    NoBreaksAppend(opening + details, [""]);
    NoBreaksAppend(opening + details + [""], booking);
    NoBreaksAppend(opening + details + [""] + booking, ClosingLines());
  }

  /** With single-line fields, the email splits back into exactly its
      twenty lines. */
  lemma EmailSplitsIntoLines(b: Booking, activityDate: string, pickupTime: string)
    requires SingleLineFields(b, activityDate, pickupTime)
    ensures Split(EmailText(b, activityDate, pickupTime), '\n') == EmailLinesWith(b, activityDate, pickupTime, EmojiMarkers)
  {
    EmailLinesNoBreaks(b, activityDate, pickupTime);
    JoinSplit(EmailLinesWith(b, activityDate, pickupTime, EmojiMarkers), '\n');
  }

  /** Where the parts of the email sit among its lines. */
  lemma EmailLinePositions(b: Booking, activityDate: string, pickupTime: string, marks: Markers)
    ensures var lines := EmailLinesWith(b, activityDate, pickupTime, marks);
      var details := DetailLines(b, activityDate, pickupTime, marks);
      lines[0] == "Dear " + b.data.customer_name + "," &&
      lines[6] == details[0] && lines[7] == details[1] && lines[8] == details[2] &&
      lines[12] == BookingLines(b)[2] && lines[19] == ClosingLines()[6]
  {
    var opening := ["Dear " + b.data.customer_name + ",", "", "Thank you for booking with us!", "",
                    "Your pickup details for your upcoming tour:", ""];
    var details := DetailLines(b, activityDate, pickupTime, marks);
    var booking := BookingLines(b);
    var lines := opening + details + [""] + booking + ClosingLines();
    assert EmailLinesWith(b, activityDate, pickupTime, marks) == lines;
    assert lines[6] == details[0] && lines[7] == details[1] && lines[8] == details[2];
    assert lines[12] == booking[2];
  }

  /** The greeting opens the email, the guest count is on line 13 (with the
      non-players only when there are some), and the signature closes it. */
  lemma EmailLayout(b: Booking, activityDate: string, pickupTime: string)
    ensures var lines := EmailLinesWith(b, activityDate, pickupTime, EmojiMarkers);
      lines[0] == "Dear " + b.data.customer_name + "," &&
      lines[12] == "Number of Guests: " + GuestsText(b.data.guest_count) +
                   (if b.data.non_players > 0 then " + " + IntToString(b.data.non_players) + " non-players" else "") &&
      lines[19] == "The Team"
  {
    EmailLinePositions(b, activityDate, pickupTime, EmojiMarkers);
  }

  /** The detail lines with the intended markers, written out. */
  lemma EmojiDetailLines(b: Booking, activityDate: string, pickupTime: string)
    ensures DetailLines(b, activityDate, pickupTime, EmojiMarkers) ==
      ["\U{1F4C5} Date: " + activityDate, "\U{23F0} Pickup Time: " + pickupTime,
       "\U{1F4CD} Pickup Location: " + (OrElse(b.data.hotel_name, "Your hotel") + RoomSuffix(b.data.room_number))]
  {
    assert "\U{1F4C5}" + " Date: " == "\U{1F4C5} Date: ";
    assert "\U{23F0}" + " Pickup Time: " == "\U{23F0} Pickup Time: ";
    assert "\U{1F4CD}" + " Pickup Location: " == "\U{1F4CD} Pickup Location: ";
  }

  /** The date, pickup time and location are on lines 7 to 9, the location
      with the room only when a room number is set. */
  lemma EmailDetailLayout(b: Booking, activityDate: string, pickupTime: string)
    ensures var lines := EmailLinesWith(b, activityDate, pickupTime, EmojiMarkers);
      lines[6] == "\U{1F4C5} Date: " + activityDate &&
      lines[7] == "\U{23F0} Pickup Time: " + pickupTime &&
      lines[8] == "\U{1F4CD} Pickup Location: " + (OrElse(b.data.hotel_name, "Your hotel") +
                  (if Truthy(b.data.room_number) then " (Room: " + b.data.room_number.value + ")" else ""))
  {
    EmailLinePositions(b, activityDate, pickupTime, EmojiMarkers);
    EmojiDetailLines(b, activityDate, pickupTime);
  }

  /** As written, the date line opens with four Latin characters (starting
      with U+00F0) instead of the calendar emoji, for every booking. */
  lemma MojibakeInDateLine(b: Booking, activityDate: string, pickupTime: string)
    ensures var line := EmailLinesWith(b, activityDate, pickupTime, SourceMarkers)[6];
      line[..4] == "\U{F0}\U{178}\U{201C}\U{2026}" && line[0] != '\U{1F4C5}'
  {
  }

  /** With the intended markers, each detail line opens with its emoji. */
  lemma DetailLinesOpenWithEmoji(b: Booking, activityDate: string, pickupTime: string)
    ensures var lines := EmailLinesWith(b, activityDate, pickupTime, EmojiMarkers);
      lines[6][0] == '\U{1F4C5}' && lines[7][0] == '\U{23F0}' && lines[8][0] == '\U{1F4CD}'
  {
  }
}
