/** The custom dropdown (components/ui/select.tsx): a button that opens a
    list of options, driven by the mouse and by the keyboard. The component's
    state is whether the list is open and which option is highlighted; the
    selected value, the options and the disabled flag come from the parent,
    and a choice is reported to it (`onChange`) as the method's result. */
module Select {
  import opened Types

  /** An option: its value, the text shown for it (`label`), and its dot colour. */
  datatype SelectOption = SelectOption(value: string, caption: string, color: Option<string>)

  /** The keys the handler distinguishes; any other key is `OtherKey`. */
  datatype Key = Enter | Space | ArrowDown | ArrowUp | Escape | OtherKey

  /** `options.findIndex(opt => opt.value === value)`: the first option with
      the value, or -1. */
  function FindIndex(options: seq<SelectOption>, value: string): (r: int)
    ensures -1 <= r < |options|
    ensures r >= 0 ==> options[r].value == value && forall j :: 0 <= j < r ==> options[j].value != value
    ensures r == -1 <==> forall j :: 0 <= j < |options| ==> options[j].value != value
  {
    if options == [] then -1
    else if options[0].value == value then 0
    else
      var r := FindIndex(options[1..], value);
      if r == -1 then -1 else r + 1
  }

  /** The text on the button: the label of the first option with the
      selected value, or the placeholder when there is none or its label is
      empty. */
  function ShownLabel(options: seq<SelectOption>, value: string, placeholder: string): (text: string)
    ensures FindIndex(options, value) == -1 ==> text == placeholder
    ensures FindIndex(options, value) >= 0 && options[FindIndex(options, value)].caption != [] ==>
      text == options[FindIndex(options, value)].caption
    ensures FindIndex(options, value) >= 0 && options[FindIndex(options, value)].caption == [] ==>
      text == placeholder
  {
    var i := FindIndex(options, value);
    if i >= 0 && options[i].caption != [] then options[i].caption else placeholder
  }

  /** The component's own state: whether the list is open, and the
      highlighted option (-1 for none). */
  datatype SelectState = SelectState(isOpen: bool, highlight: int)

  /** `handleKeyDown` as a value: the next state and the value reported to
      the parent, if any. A disabled select ignores every key. */
  function KeyStep(options: seq<SelectOption>, disabled: bool, s: SelectState, key: Key): (r: (SelectState, Option<string>))
    ensures disabled ==> r == (s, None)
    ensures -1 <= s.highlight < |options| ==> -1 <= r.0.highlight < |options|
    ensures r.1.Some? ==>
      !disabled && (key == Enter || key == Space) && s.isOpen && 0 <= s.highlight < |options| &&
      r.1.value == options[s.highlight].value && !r.0.isOpen
  {
    if disabled then (s, None)
    else
      match key
      case Enter | Space =>
        if s.isOpen && 0 <= s.highlight < |options| then (s.(isOpen := false), Some(options[s.highlight].value))
        else (s.(isOpen := true), None)
      case ArrowDown =>
        if !s.isOpen then (s.(isOpen := true), None)
        else (s.(highlight := if s.highlight < |options| - 1 then s.highlight + 1 else s.highlight), None)
      case ArrowUp =>
        if s.isOpen then (s.(highlight := if s.highlight > 0 then s.highlight - 1 else s.highlight), None)
        else (s, None)
      case Escape => (s.(isOpen := false), None)
      case OtherKey => (s, None)
  }

  class SelectBox {
    var isOpen: bool
    var highlightedIndex: int
    const options: seq<SelectOption>
    const value: string
    const disabled: bool

    /** The highlight is -1 (none) or the index of an option. */
    predicate Valid()
      reads this
    {
      -1 <= highlightedIndex < |options|
    }

    function State(): SelectState
      reads this
    {
      SelectState(isOpen, highlightedIndex)
    }

    /** A closed list with nothing highlighted. */
    constructor (options: seq<SelectOption>, value: string, disabled: bool)
      ensures Valid()
      ensures !isOpen && highlightedIndex == -1
      ensures this.options == options && this.value == value && this.disabled == disabled
    {
      this.options := options;
      this.value := value;
      this.disabled := disabled;
      isOpen := false;
      highlightedIndex := -1;
    }

    /** The effect that runs while the list is open: the highlight moves to
        the selected option, if the options hold it. */
    method SyncHighlight()
      requires Valid()
      modifies this
      ensures Valid() && isOpen == old(isOpen)
      ensures var i := FindIndex(options, value);
        highlightedIndex == if isOpen && i >= 0 then i else old(highlightedIndex)
    {
      if isOpen {
        var selectedIndex := FindIndex(options, value);
        if selectedIndex >= 0 {
          highlightedIndex := selectedIndex;
        }
      }
    }

    /** `handleKeyDown`: the key's effect on the state, and the value
        reported to the parent, if any. */
    method HandleKeyDown(key: Key) returns (emitted: Option<string>)
      requires Valid()
      modifies this
      ensures Valid()
      ensures (State(), emitted) == KeyStep(options, disabled, old(State()), key)
    {
      emitted := None;
      if disabled {
        return;
      }
      match key
      case Enter =>
        emitted := Choose();
      case Space =>
        emitted := Choose();
      case ArrowDown =>
        if !isOpen {
          isOpen := true;
        } else if highlightedIndex < |options| - 1 {
          highlightedIndex := highlightedIndex + 1;
        }
      case ArrowUp =>
        if isOpen && highlightedIndex > 0 {
          highlightedIndex := highlightedIndex - 1;
        }
      case Escape =>
        isOpen := false;
      case OtherKey =>
    }

    /** Enter and Space: pick the highlighted option of an open list, or
        else open the list. */
    method Choose() returns (emitted: Option<string>)
      requires Valid()
      modifies this
      ensures Valid() && highlightedIndex == old(highlightedIndex)
      ensures old(isOpen) && old(highlightedIndex) >= 0 ==> emitted == Some(options[old(highlightedIndex)].value) && !isOpen
      ensures !(old(isOpen) && old(highlightedIndex) >= 0) ==> emitted.None? && isOpen
    {
      if isOpen && highlightedIndex >= 0 {
        emitted := Some(options[highlightedIndex].value);
        isOpen := false;
      } else {
        emitted := None;
        isOpen := true;
      }
    }

    /** A click on the button toggles the list unless disabled. */
    method ClickButton()
      requires Valid()
      modifies this
      ensures Valid() && highlightedIndex == old(highlightedIndex)
      ensures isOpen == if disabled then old(isOpen) else !old(isOpen)
    {
      if !disabled {
        isOpen := !isOpen;
      }
    }

    /** A click on an option reports its value and closes the list. */
    method ClickOption(index: int) returns (emitted: string)
      requires Valid() && 0 <= index < |options|
      modifies this
      ensures Valid() && !isOpen && highlightedIndex == old(highlightedIndex)
      ensures emitted == options[index].value
    {
      emitted := options[index].value;
      isOpen := false;
    }

    /** Hovering over an option highlights it. */
    method HoverOption(index: int)
      requires Valid() && 0 <= index < |options|
      modifies this
      ensures Valid() && isOpen == old(isOpen) && highlightedIndex == index
    {
      highlightedIndex := index;
    }

    /** A mouse press outside the component closes the list. */
    method ClickOutside()
      requires Valid()
      modifies this
      ensures Valid() && !isOpen && highlightedIndex == old(highlightedIndex)
    {
      isOpen := false;
    }
  }

  // ---------------------------------------------------------------------
  // Key sequences

  /** The state after a sequence of key presses. */
  function Presses(options: seq<SelectOption>, disabled: bool, s: SelectState, keys: seq<Key>): SelectState
    decreases keys
  {
    if keys == [] then s else Presses(options, disabled, KeyStep(options, disabled, s, keys[0]).0, keys[1..])
  }

  function Repeat(key: Key, n: nat): (keys: seq<Key>)
    ensures |keys| == n && forall i :: 0 <= i < n ==> keys[i] == key
  {
    if n == 0 then [] else [key] + Repeat(key, n - 1)
  }

  /** A disabled select stays as it is whatever is typed. */
  lemma {:induction false} DisabledIgnoresKeys(options: seq<SelectOption>, s: SelectState, keys: seq<Key>)
    decreases keys
    ensures Presses(options, true, s, keys) == s
  {
    if keys != [] {
      DisabledIgnoresKeys(options, s, keys[1..]);
    }
  }

  /** On an open list, `n` presses of ArrowDown move the highlight down `n`
      options, stopping at the last one. */
  lemma {:induction false} ArrowDownStopsAtLast(options: seq<SelectOption>, s: SelectState, n: nat)
    requires s.isOpen && -1 <= s.highlight < |options|
    decreases n
    ensures var r := Presses(options, false, s, Repeat(ArrowDown, n));
      r.isOpen && r.highlight == if s.highlight + n < |options| - 1 then s.highlight + n else |options| - 1
  {
    if n > 0 {
      var keys := Repeat(ArrowDown, n);
      assert keys[0] == ArrowDown && keys[1..] == Repeat(ArrowDown, n - 1);
      ArrowDownStopsAtLast(options, KeyStep(options, false, s, ArrowDown).0, n - 1);
    }
  }

  /** On an open list, `n` presses of ArrowUp move the highlight up `n`
      options, stopping at the first one; with nothing highlighted they do
      nothing. */
  lemma {:induction false} ArrowUpStopsAtFirst(options: seq<SelectOption>, s: SelectState, n: nat)
    requires s.isOpen && -1 <= s.highlight < |options|
    decreases n
    ensures var r := Presses(options, false, s, Repeat(ArrowUp, n));
      r.isOpen && r.highlight == if s.highlight <= 0 then s.highlight else if s.highlight - n > 0 then s.highlight - n else 0
  {
    if n > 0 {
      var keys := Repeat(ArrowUp, n);
      assert keys[0] == ArrowUp && keys[1..] == Repeat(ArrowUp, n - 1);
      ArrowUpStopsAtFirst(options, KeyStep(options, false, s, ArrowUp).0, n - 1);
    }
  }

  /** Escape closes the list without losing the highlight, so Enter then
      reopens it rather than choosing. */
  lemma EscapeThenEnterReopens(options: seq<SelectOption>, s: SelectState)
    ensures var closed := KeyStep(options, false, s, Escape).0;
      var (next, emitted) := KeyStep(options, false, closed, Enter);
      !closed.isOpen && closed.highlight == s.highlight && next.isOpen && emitted.None?
  {
  }

  /** After the open-time sync, Enter reports the selected value itself. */
  lemma EnterAfterSyncKeepsValue(options: seq<SelectOption>, value: string, s: SelectState)
    requires s.isOpen && FindIndex(options, value) >= 0
    ensures KeyStep(options, false, s.(highlight := FindIndex(options, value)), Enter).1 == Some(value)
  {
  }

  // ---------------------------------------------------------------------
  // The status dropdown

  const StatusOptions: seq<SelectOption> := [
    SelectOption("pending", "Pending", Some("#f59e0b")),
    SelectOption("confirmed", "Confirmed", Some("#10b981")),
    SelectOption("completed", "Completed", Some("#3b82f6")),
    SelectOption("cancelled", "Cancelled", Some("#ef4444")),
    SelectOption("refunded", "Refunded", Some("#8b5cf6")),
    SelectOption("no_show", "No Show", Some("#f97316"))]

  /** The status dropdown lists the six booking statuses, in their
      declared order, by their stored names. */
  lemma StatusOptionsAreStatuses()
    ensures |StatusOptions| == |AllStatuses|
    ensures forall i :: 0 <= i < |StatusOptions| ==> StatusOptions[i].value == StatusName(AllStatuses[i])
  {
  }

  /** A booking's status is always found among the status options, so the
      button shows its label rather than the placeholder. */
  lemma StatusAlwaysShown(s: BookingStatus)
    ensures FindIndex(StatusOptions, StatusName(s)) >= 0
    ensures StatusOptions[FindIndex(StatusOptions, StatusName(s))].value == StatusName(s)
  {
    StatusOptionsAreStatuses();
    StatusEnumeration(s);
    var i :| 0 <= i < |AllStatuses| && AllStatuses[i] == s;
    assert StatusOptions[i].value == StatusName(s);
  }
}
