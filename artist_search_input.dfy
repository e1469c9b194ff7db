/**
 * The artist autocomplete input. It differs from the track input in three
 * ways: typing opens the list only once the query is two UTF-16 code units
 * long, focusing the input reopens it under the same condition, and a
 * picked artist leaves just the artist's name in the input.
 *
 * `picked` records the artists handed to the parent's `onArtistSelect`, in
 * order; the artists shown at a key press are a parameter.
 */
module ArtistSearchInput {

  import opened JsText
  import opened Catalog
  import opened ListNavigation

  /** The shortest query the input searches for and offers suggestions on. */
  const MinQueryLength: nat := 2

  datatype InputState = InputState(
    query: string,
    showSuggestions: bool,
    selectedIndex: int,
    picked: seq<Artist>)

  // ---------------------------------------------------------------------
  // One step per event

  /** `handleInputChange`. */
  function InputChanged(s: InputState, value: string): InputState {
    s.(query := value, selectedIndex := -1, showSuggestions := Utf16Length(value) >= MinQueryLength)
  }

  /** `handleFocus`. */
  function Focused(s: InputState): InputState {
    if Utf16Length(s.query) >= MinQueryLength then s.(showSuggestions := true) else s
  }

  /** `handleArtistSelect`. */
  function ArtistSelected(s: InputState, artist: Artist): InputState {
    InputState(artist.name, false, -1, s.picked + [artist])
  }

  /** `handleKeyDown` with the artists shown at that moment. */
  function KeyDown(s: InputState, key: Key, artists: seq<Artist>): InputState {
    if !s.showSuggestions || |artists| == 0 then s
    else match key
      case ArrowDown => s.(selectedIndex := Down(s.selectedIndex, |artists|))
      case ArrowUp => s.(selectedIndex := Up(s.selectedIndex, |artists|))
      case Enter =>
        if 0 <= s.selectedIndex < |artists| then ArtistSelected(s, artists[s.selectedIndex]) else s
      case Escape => s.(showSuggestions := false, selectedIndex := -1)
      case OtherKey => s
  }

  // ---------------------------------------------------------------------
  // What the steps promise

  /** Typing sets the query and drops the highlight; the list is open
      exactly when the new query is at least two code units long. */
  lemma TypingOpensListFromTwo(s: InputState, value: string)
    ensures var t := InputChanged(s, value);
      && t.query == value && t.selectedIndex == -1 && t.picked == s.picked
      && (t.showSuggestions <==> |value| >= 2 || (|value| == 1 && value[0] as int > 0xFFFF))
  {
    AtLeastTwoUnits(value);
  }

  /** Focus never closes the list, and opens it only for a long enough
      query; nothing else changes. */
  lemma FocusOnlyOpens(s: InputState)
    ensures var t := Focused(s);
      && (s.showSuggestions ==> t.showSuggestions)
      && (t.showSuggestions <==> s.showSuggestions || Utf16Length(s.query) >= MinQueryLength)
      && t.query == s.query && t.selectedIndex == s.selectedIndex && t.picked == s.picked
  {
  }

  /** A query too short for suggestions keeps the list closed through
      typing and focus, and then no key has any effect. */
  lemma ShortQueryKeepsListClosed(s: InputState, value: string, key: Key, artists: seq<Artist>)
    requires Utf16Length(value) < MinQueryLength
    ensures var t := Focused(InputChanged(s, value));
      !t.showSuggestions && KeyDown(t, key, artists) == t
  {
  }

  /** No key does anything while the list is closed or empty. */
  lemma KeysIgnoredWhileClosed(s: InputState, key: Key, artists: seq<Artist>)
    requires !s.showSuggestions || artists == []
    ensures KeyDown(s, key, artists) == s
  {
  }

  /** An arrow key on an open list leaves an artist highlighted, provided
      the highlight was "none" or an artist before. */
  lemma ArrowKeepsHighlightInList(s: InputState, key: Key, artists: seq<Artist>)
    requires s.showSuggestions && artists != [] && (key == ArrowDown || key == ArrowUp)
    requires -1 <= s.selectedIndex < |artists|
    ensures var t := KeyDown(s, key, artists);
      && 0 <= t.selectedIndex < |artists|
      && t.query == s.query && t.showSuggestions && t.picked == s.picked
  {
    ArrowsStayInList(s.selectedIndex, |artists|);
  }

  /** Enter picks an artist exactly when one is highlighted, and then the
      highlighted one, whose name becomes the query; otherwise it changes
      nothing. */
  lemma EnterPicksHighlighted(s: InputState, artists: seq<Artist>)
    requires s.showSuggestions && artists != []
    ensures var t := KeyDown(s, Enter, artists);
      && (|t.picked| > |s.picked| <==> 0 <= s.selectedIndex < |artists|)
      && (0 <= s.selectedIndex < |artists| ==>
            t == InputState(artists[s.selectedIndex].name, false, -1, s.picked + [artists[s.selectedIndex]]))
      && (!(0 <= s.selectedIndex < |artists|) ==> t == s)
  {
  }

  /** Escape closes the list and drops the highlight, keeping the query. */
  lemma EscapeCloses(s: InputState, artists: seq<Artist>)
    requires s.showSuggestions && artists != []
    ensures var t := KeyDown(s, Escape, artists);
      !t.showSuggestions && t.selectedIndex == -1 && t.query == s.query && t.picked == s.picked
  {
  }

  /** After a pick, focus reopens the list exactly when the artist's name is
      two code units or more, with nothing highlighted either way. */
  lemma PickThenFocus(s: InputState, artist: Artist)
    ensures var t := Focused(ArtistSelected(s, artist));
      && t.query == artist.name && t.selectedIndex == -1 && t.picked == s.picked + [artist]
      && (t.showSuggestions <==> Utf16Length(artist.name) >= MinQueryLength)
  {
  }

  // ---------------------------------------------------------------------
  // The component

  class ArtistSearchInputComponent {
    var query: string
    var showSuggestions: bool
    var selectedIndex: int
    var picked: seq<Artist>

    function State(): InputState
      reads this
    {
      InputState(query, showSuggestions, selectedIndex, picked)
    }

    /** The initial state: empty query, list closed, nothing highlighted. */
    constructor ()
      ensures State() == InputState("", false, -1, [])
    {
      query := "";
      showSuggestions := false;
      selectedIndex := -1;
      picked := [];
    }

    method HandleInputChange(value: string)
      modifies this
      ensures State() == InputChanged(old(State()), value)
    {
      query := value;
      selectedIndex := -1;
      showSuggestions := Utf16Length(value) >= MinQueryLength;
    }

    method HandleFocus()
      modifies this
      ensures State() == Focused(old(State()))
    {
      if Utf16Length(query) >= MinQueryLength {
        showSuggestions := true;
      }
    }

    method HandleArtistSelect(artist: Artist)
      modifies this
      ensures State() == ArtistSelected(old(State()), artist)
    {
      query := artist.name;
      showSuggestions := false;
      selectedIndex := -1;
      picked := picked + [artist];
    }

    method HandleKeyDown(key: Key, artists: seq<Artist>)
      modifies this
      ensures State() == KeyDown(old(State()), key, artists)
    {
      if !showSuggestions || |artists| == 0 {
        return;
      }
      match key {
        case ArrowDown =>
          selectedIndex := if selectedIndex < |artists| - 1 then selectedIndex + 1 else 0;
        case ArrowUp =>
          selectedIndex := if selectedIndex > 0 then selectedIndex - 1 else |artists| - 1;
        case Enter =>
          if selectedIndex >= 0 && selectedIndex < |artists| {
            HandleArtistSelect(artists[selectedIndex]);
          }
        case Escape =>
          showSuggestions := false;
          selectedIndex := -1;
        case OtherKey =>
      }
    }
  }
}
