/** The dropdown control (`SelectDropdown`): which option is shown as
    selected, which options the search leaves in the list, and how clicks
    open, close and clear it. Lower-casing is Unicode-aware in the browser;
    here it is the parameter `lower`. */
module SelectDropdown {
  import opened Common

  const DefaultPlaceholder: string := "Выберите..."

  /** An option value is a number or a string, compared with `===`, so the
      number 1 and the string "1" differ. */
  datatype Key = NumKey(n: int) | StrKey(s: string)

  datatype Item = Item(value: Key, caption: string)

  /** `options.find(o => o.value === value)`: the first option with that value. */
  function SelectedOption(options: seq<Item>, value: Option<Key>): (r: Option<Item>)
    ensures r.Some? ==> value.Some? && r.value in options && r.value.value == value.value
    ensures r.Some? ==> exists i :: 0 <= i < |options| && options[i] == r.value &&
                                    forall k :: 0 <= k < i ==> options[k].value != value.value
    ensures r.None? ==> value.None? || forall i :: 0 <= i < |options| ==> options[i].value != value.value
  {
    if value.None? || options == [] then None
    else if options[0].value == value.value then Some(options[0])
    else
      var rest := SelectedOption(options[1..], value);
      if rest.Some? then
        var i :| 0 <= i < |options[1..]| && options[1..][i] == rest.value &&
                 forall k :: 0 <= k < i ==> options[1..][k].value != value.value;
        assert options[i + 1] == rest.value;
        assert forall k :: 1 <= k < i + 1 ==> options[k] == options[1..][k - 1];
        rest
      else
        assert forall i :: 1 <= i < |options| ==> options[i] == options[1..][i - 1];
        rest
  }

  /** The button shows the selected option's caption, or the placeholder. */
  function ButtonText(options: seq<Item>, value: Option<Key>, placeholder: string): (r: string)
    ensures SelectedOption(options, value).Some? ==> r == SelectedOption(options, value).value.caption
    ensures SelectedOption(options, value).None? ==> r == placeholder
  {
    match SelectedOption(options, value)
    case Some(o) => o.caption
    case None => placeholder
  }

  predicate Matches(o: Item, search: string, lower: string -> string) {
    Includes(lower(o.caption), lower(search))
  }

  /** The options whose lower-cased caption contains the lower-cased
      search, in their order. */
  function Matching(options: seq<Item>, search: string, lower: string -> string): (r: seq<Item>)
    ensures |r| <= |options|
    ensures forall i :: 0 <= i < |r| ==> r[i] in options && Matches(r[i], search, lower)
    ensures forall o :: o in options && Matches(o, search, lower) ==> o in r
  {
    if options == [] then []
    else (if Matches(options[0], search, lower) then [options[0]] else []) + Matching(options[1..], search, lower)
  }

  /** `filtered`: all options unless the control is searchable and a search
      is typed. */
  function Filtered(options: seq<Item>, searchable: bool, search: string, lower: string -> string): (r: seq<Item>)
    ensures !(searchable && search != "") ==> r == options
    ensures searchable && search != "" ==> r == Matching(options, search, lower)
  {
    if searchable && search != "" then Matching(options, search, lower) else options
  }

  /** Searching keeps the order: the matches of two runs of options are the
      matches of the first run followed by those of the second. */
  lemma {:induction false} MatchingAppend(a: seq<Item>, b: seq<Item>, search: string, lower: string -> string)
    ensures Matching(a + b, search, lower) == Matching(a, search, lower) + Matching(b, search, lower)
  {
    if a == [] {
      assert a + b == b;
    } else {
      assert (a + b)[1..] == a[1..] + b;
      MatchingAppend(a[1..], b, search, lower);
    }
  }

  /** When lower-casing leaves the empty search empty (as it does), an empty
      search text matches every option. */
  lemma {:induction false} EmptySearchMatchesAll(options: seq<Item>, lower: string -> string)
    requires lower("") == ""
    ensures Matching(options, "", lower) == options
  {
    if options != [] {
      IncludesEmpty(lower(options[0].caption));
      EmptySearchMatchesAll(options[1..], lower);
    }
  }

  /** The clear mark exists only on a clearable control holding a value. */
  predicate ClearShown(clearable: bool, value: Option<Key>) { clearable && value.Some? }

  class Dropdown {
    const searchable: bool
    const clearable: bool
    var isOpen: bool
    var search: string

    constructor (searchable: bool, clearable: bool)
      ensures this.searchable == searchable && this.clearable == clearable
      ensures !isOpen && search == ""
    {
      this.searchable, this.clearable := searchable, clearable;
      isOpen, search := false, "";
    }

    /** The button toggles the list; the search is kept. */
    method Toggle()
      modifies this`isOpen
      ensures isOpen == !old(isOpen)
    {
      isOpen := !isOpen;
    }

    /** A mouse press outside the control closes it and forgets the search. */
    method OutsideClick()
      modifies this`isOpen, this`search
      ensures !isOpen && search == ""
    {
      isOpen, search := false, "";
    }

    /** The search input, shown in the open list of a searchable control. */
    method TypeSearch(text: string)
      requires isOpen && searchable
      modifies this`search
      ensures search == text
    {
      search := text;
    }

    /** The clear mark: emits `null` and closes, without toggling and
        without forgetting the search. */
    method Clear(value: Option<Key>) returns (emitted: Option<Key>)
      requires ClearShown(clearable, value)
      modifies this`isOpen
      ensures emitted == None && !isOpen && search == old(search)
    {
      emitted := None;
      isOpen := false;
    }

    /** Picking an entry of the open list emits its value, closes the list
        and forgets the search. */
    method Select(options: seq<Item>, lower: string -> string, picked: Item) returns (emitted: Option<Key>)
      requires isOpen && picked in Filtered(options, searchable, search, lower)
      modifies this`isOpen, this`search
      ensures emitted == Some(picked.value) && picked in options
      ensures !isOpen && search == ""
    {
      emitted := Some(picked.value);
      isOpen, search := false, "";
    }
  }

  /** Whatever is typed into the search, the value emitted by a pick is the
      value of one of the options, and the button then shows an option with
      that value. */
  method PickAfterSearch(options: seq<Item>, lower: string -> string, text: string, picked: Item)
    returns (emitted: Option<Key>, shown: string)
    requires picked in Filtered(options, true, text, lower)
    ensures emitted == Some(picked.value)
    ensures exists i :: 0 <= i < |options| && options[i].value == picked.value && shown == options[i].caption
  {
    var d := new Dropdown(true, false);
    d.Toggle();
    d.TypeSearch(text);
    emitted := d.Select(options, lower, picked);
    shown := ButtonText(options, emitted, DefaultPlaceholder);
    var k :| 0 <= k < |options| && options[k] == picked;
    assert SelectedOption(options, emitted).Some?;
  }
}
