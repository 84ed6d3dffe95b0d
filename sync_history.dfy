/** The sync history panel of a booking or website
    (components/dashboard/sync-history.tsx): one row per sync-log entry with
    a readable event name, the direction, a status badge and any error, or a
    placeholder when there are no entries. The time of each row is
    formatted by the browser's locale routines and is not modelled. */
module SyncHistory {
  import opened Types
  import opened Strings

  // ---------------------------------------------------------------------
  // Event labels

  /** The event label: the event type split at ".", each part with its
      first character upper-cased, joined with spaces. */
  function EventLabel(eventType: string): string
  {
    Join(CapitalizeAll(Split(eventType, '.')), " ")
  }

  /** `parts.map(s => s.charAt(0).toUpperCase() + s.slice(1))`. */
  function CapitalizeAll(parts: seq<string>): seq<string>
  {
    if parts == [] then [] else [Capitalize(parts[0])] + CapitalizeAll(parts[1..])
  }

  /** The label character for position `i` of the event type: a space for
      a dot, the upper-case letter at the start of a part, and otherwise the
      character itself. */
  function LabelChar(e: string, i: nat): char
    requires i < |e|
  {
    if e[i] == '.' then ' '
    else if i == 0 || e[i - 1] == '.' then UpperChar(e[i])
    else e[i]
  }

  /** The position of the first `c` in `s`. */
  function FirstIndex(s: string, c: char): (k: nat)
    requires c in s
    ensures k < |s| && s[k] == c && c !in s[..k]
  {
    if s[0] == c then 0
    else
      var k := FirstIndex(s[1..], c);
      assert s[..k + 1] == [s[0]] + s[1..][..k];
      k + 1
  }

  /** An event type without a dot is one capitalised part. */
  lemma LabelOfPart(e: string)
    requires '.' !in e
    ensures EventLabel(e) == Capitalize(e)
  {
    SplitNoSeparator(e, '.');
    assert CapitalizeAll([e]) == [Capitalize(e)] + CapitalizeAll([]);
  }

  /** The label of `a.rest`, with no dot in `a`, is `a` capitalised, a
      space, and the label of `rest`. */
  lemma LabelOfDotted(a: string, rest: string)
    requires '.' !in a
    ensures EventLabel(a + "." + rest) == Capitalize(a) + " " + EventLabel(rest)
  {
    SplitAtFirst(a, '.', rest);
    var tail := Split(rest, '.');
    assert ([a] + tail)[1..] == tail;
    assert CapitalizeAll([a] + tail) == [Capitalize(a)] + CapitalizeAll(tail);
    assert tail == [tail[0]] + tail[1..];
  }

  /** Up to the first dot, the label of `e` is its first part capitalised
      and then a space. */
  lemma HeadLabelChars(e: string, k: nat, r: string, t: string)
    requires k < |e| && e[k] == '.' && '.' !in e[..k]
    requires r == Capitalize(e[..k]) + " " + t
    ensures forall i :: 0 <= i <= k ==> r[i] == LabelChar(e, i)
  {
    var a := e[..k];
    var ca := Capitalize(a);
    forall i | 0 <= i <= k ensures r[i] == LabelChar(e, i) {
      if i < k {
        assert e[i] == a[i] && r[i] == ca[i];
        if i > 0 {
          assert e[i - 1] == a[i - 1] && a[i - 1] in a;
          assert ca[i] == ca[1..][i - 1];
        }
      }
    }
  }

  /** After the first dot, the label of `e` is the label of the rest. */
  lemma TailLabelChars(e: string, k: nat, r: string, c: string, t: string)
    requires k < |e| && e[k] == '.' && |c| == k
    requires r == c + " " + t && |t| == |e| - k - 1
    requires forall j :: 0 <= j < |t| ==> t[j] == LabelChar(e[k + 1..], j)
    ensures forall i :: k < i < |e| ==> r[i] == LabelChar(e, i)
  {
    var rest := e[k + 1..];
    forall i | k < i < |e| ensures r[i] == LabelChar(e, i) {
      assert r[i] == t[i - k - 1];
      assert e[i] == rest[i - k - 1];
      if i > k + 1 {
        assert e[i - 1] == rest[i - k - 2];
      }
    }
  }

  /** The label keeps the event type's length and maps it character by
      character: dots become spaces and the first letter of every part is
      upper-cased. */
  lemma {:induction false} EventLabelCharwise(e: string)
    decreases |e|
    ensures |EventLabel(e)| == |e|
    ensures forall i :: 0 <= i < |e| ==> EventLabel(e)[i] == LabelChar(e, i)
  {
    if '.' !in e {
      LabelOfPart(e);
    } else {
      var k := FirstIndex(e, '.');
      var a := e[..k];
      var rest := e[k + 1..];
      assert e == a + "." + rest;
      LabelOfDotted(a, rest);
      EventLabelCharwise(rest);
      var r := EventLabel(e);
      HeadLabelChars(e, k, r, EventLabel(rest));
      TailLabelChars(e, k, r, Capitalize(a), EventLabel(rest));
    }
  }

  // ---------------------------------------------------------------------
  // Badges

  /** The direction badge: "Received" for inbound entries, "Sent" for any
      other. */
  function DirectionLabel(direction: string): string
  {
    if direction == "inbound" then "Received" else "Sent"
  }

  lemma DirectionLabels()
    ensures DirectionLabel(DirectionName(Inbound)) == "Received"
    ensures DirectionLabel(DirectionName(Outbound)) == "Sent"
  {
  }

  datatype StatusIcon = CheckMark | Cross | Spinner

  function StatusIconOf(s: LogStatus): StatusIcon
  {
    match s
    case LogSuccess => CheckMark
    case LogFailed => Cross
    case LogPending => Spinner
  }

  function StatusColorOf(s: LogStatus): string
  {
    match s
    case LogSuccess => "bg-green-100 border-green-200"
    case LogFailed => "bg-red-100 border-red-200"
    case LogPending => "bg-amber-100 border-amber-200"
  }

  /** Every log status has its own icon and its own colour. */
  lemma StatusBadgesDistinct(s: LogStatus, t: LogStatus)
    ensures StatusIconOf(s) == StatusIconOf(t) <==> s == t
    ensures StatusColorOf(s) == StatusColorOf(t) <==> s == t
  {
    if s != t {
      assert StatusColorOf(s)[3] != StatusColorOf(t)[3];
    }
  }

  // ---------------------------------------------------------------------
  // The panel

  datatype HistoryRow = HistoryRow(eventLabel: string, direction: string, icon: StatusIcon, color: string, error: Option<string>)

  datatype HistoryView = Placeholder(text: string) | Rows(rows: seq<HistoryRow>)

  function RowOf(l: SyncLog): HistoryRow
  {
    HistoryRow(EventLabel(l.event_type), DirectionLabel(DirectionName(l.direction)),
               StatusIconOf(l.status), StatusColorOf(l.status),
               if Truthy(l.error_message) then l.error_message else None)
  }

  /** The panel: the placeholder for no entries, otherwise one row per entry
      in the order given. */
  function Render(logs: seq<SyncLog>): (v: HistoryView)
    ensures v.Placeholder? <==> |logs| == 0
    ensures v.Placeholder? ==> v.text == "No sync events recorded yet"
    ensures v.Rows? ==> |v.rows| == |logs|
    ensures v.Rows? ==> forall i :: 0 <= i < |logs| ==>
      v.rows[i].eventLabel == EventLabel(logs[i].event_type) &&
      (v.rows[i].direction == "Received" <==> logs[i].direction == Inbound) &&
      v.rows[i].icon == StatusIconOf(logs[i].status) &&
      (v.rows[i].error.Some? <==> Truthy(logs[i].error_message))
  {
    if |logs| == 0 then Placeholder("No sync events recorded yet")
    else Rows(seq(|logs|, i requires 0 <= i < |logs| => RowOf(logs[i])))
  }
}
