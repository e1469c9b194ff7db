/**
 * The track autocomplete input: its text, whether the suggestion list is
 * open, and the highlighted suggestion (-1 for none). Typing opens the
 * list; the arrow keys move the highlight with wrap-around; Enter picks the
 * highlighted track; Escape closes the list; picking a track fills the text
 * with "name - artist"; a positive clear signal empties the text.
 *
 * The suggestions current at a key press are a parameter: they come from a
 * debounced search the input does not control. `picked` records the tracks
 * handed to the parent's `onTrackSelect`, in order.
 */
module SearchInput {

  import opened Wrappers
  import opened Catalog
  import opened ListNavigation

  /** The text shown once a track is picked. */
  function DisplayValue(track: TrackSuggestion): string {
    track.name + " - " + track.artist
  }

  /** The component's state together with the tracks picked so far. */
  datatype InputState = InputState(
    value: string,
    showSuggestions: bool,
    selectedIndex: int,
    picked: seq<TrackSuggestion>)

  // ---------------------------------------------------------------------
  // One step per event

  /** `handleInputChange`. */
  function InputChanged(s: InputState, newValue: string): InputState {
    s.(value := newValue, showSuggestions := true, selectedIndex := -1)
  }

  /** `handleTrackSelect`. */
  function TrackSelected(s: InputState, track: TrackSuggestion): InputState {
    InputState(DisplayValue(track), false, -1, s.picked + [track])
  }

  /** `handleKeyDown` with the suggestions shown at that moment. */
  function KeyDown(s: InputState, key: Key, suggestions: seq<TrackSuggestion>): InputState {
    if !s.showSuggestions || |suggestions| == 0 then s
    else match key
      case ArrowDown => s.(selectedIndex := Down(s.selectedIndex, |suggestions|))
      case ArrowUp => s.(selectedIndex := Up(s.selectedIndex, |suggestions|))
      case Enter =>
        if 0 <= s.selectedIndex < |suggestions| then TrackSelected(s, suggestions[s.selectedIndex]) else s
      case Escape => s.(showSuggestions := false, selectedIndex := -1)
      case OtherKey => s
  }

  /** The effect that runs when the clear signal changes; an absent signal
      is `undefined`. */
  function Cleared(s: InputState, clearTrigger: Option<int>): InputState {
    if clearTrigger.Some? && clearTrigger.value > 0 then s.(value := "", showSuggestions := false, selectedIndex := -1)
    else s
  }

  // ---------------------------------------------------------------------
  // What the steps promise

  /** Typing shows the text typed, opens the list with nothing highlighted,
      and picks nothing. */
  lemma TypingOpensList(s: InputState, newValue: string)
    ensures var t := InputChanged(s, newValue);
      t.value == newValue && t.showSuggestions && t.selectedIndex == -1 && t.picked == s.picked
  {
  }

  /** No key does anything while the list is closed or empty. */
  lemma KeysIgnoredWhileClosed(s: InputState, key: Key, suggestions: seq<TrackSuggestion>)
    requires !s.showSuggestions || suggestions == []
    ensures KeyDown(s, key, suggestions) == s
  {
  }

  /** An arrow key on an open list leaves a suggestion highlighted, provided
      the highlight was "none" or a suggestion before; the text, the list's
      visibility and the picks stay. */
  lemma ArrowKeepsHighlightInList(s: InputState, key: Key, suggestions: seq<TrackSuggestion>)
    requires s.showSuggestions && suggestions != [] && (key == ArrowDown || key == ArrowUp)
    requires -1 <= s.selectedIndex < |suggestions|
    ensures var t := KeyDown(s, key, suggestions);
      && 0 <= t.selectedIndex < |suggestions|
      && t.value == s.value && t.showSuggestions && t.picked == s.picked
  {
    ArrowsStayInList(s.selectedIndex, |suggestions|);
  }

  /** Enter picks a track exactly when a suggestion is highlighted, and then
      the highlighted one; otherwise it changes nothing. */
  lemma EnterPicksHighlighted(s: InputState, suggestions: seq<TrackSuggestion>)
    requires s.showSuggestions && suggestions != []
    ensures var t := KeyDown(s, Enter, suggestions);
      && (|t.picked| > |s.picked| <==> 0 <= s.selectedIndex < |suggestions|)
      && (0 <= s.selectedIndex < |suggestions| ==>
            t == InputState(DisplayValue(suggestions[s.selectedIndex]), false, -1, s.picked + [suggestions[s.selectedIndex]]))
      && (!(0 <= s.selectedIndex < |suggestions|) ==> t == s)
  {
  }

  /** Picking a track closes the list, so keys are ignored until the next
      keystroke reopens it. */
  lemma PickClosesList(s: InputState, track: TrackSuggestion, key: Key, suggestions: seq<TrackSuggestion>)
    ensures var t := TrackSelected(s, track);
      && t.value == DisplayValue(track) && t.picked == s.picked + [track]
      && KeyDown(t, key, suggestions) == t
  {
  }

  /** After typing, one press of the down arrow highlights the first
      suggestion and Enter then picks it. */
  lemma TypeDownEnterPicksFirst(s: InputState, newValue: string, suggestions: seq<TrackSuggestion>)
    requires suggestions != []
    ensures var t := KeyDown(KeyDown(InputChanged(s, newValue), ArrowDown, suggestions), Enter, suggestions);
      t.picked == s.picked + [suggestions[0]] && t.value == DisplayValue(suggestions[0])
  {
  }

  /** Escape and a positive clear signal both close the list and drop the
      highlight; only the clear signal empties the text, and a missing or
      non-positive signal changes nothing. */
  lemma EscapeAndClearClose(s: InputState, suggestions: seq<TrackSuggestion>, clearTrigger: Option<int>)
    requires s.showSuggestions && suggestions != []
    ensures var e := KeyDown(s, Escape, suggestions);
      !e.showSuggestions && e.selectedIndex == -1 && e.value == s.value && e.picked == s.picked
    ensures var c := Cleared(s, clearTrigger);
      && (clearTrigger.Some? && clearTrigger.value > 0 ==>
            c.value == "" && !c.showSuggestions && c.selectedIndex == -1 && c.picked == s.picked)
      && (clearTrigger.None? || clearTrigger.value <= 0 ==> c == s)
  {
  }

  // ---------------------------------------------------------------------
  // The component

  class SearchInputComponent {
    var value: string
    var showSuggestions: bool
    var selectedIndex: int
    var picked: seq<TrackSuggestion>

    function State(): InputState
      reads this
    {
      InputState(value, showSuggestions, selectedIndex, picked)
    }

    /** The initial state: empty text, list closed, nothing highlighted. */
    constructor ()
      ensures State() == InputState("", false, -1, [])
    {
      value := "";
      showSuggestions := false;
      selectedIndex := -1;
      picked := [];
    }

    method HandleInputChange(newValue: string)
      modifies this
      ensures State() == InputChanged(old(State()), newValue)
    {
      value := newValue;
      showSuggestions := true;
      selectedIndex := -1;
    }

    method HandleTrackSelect(track: TrackSuggestion)
      modifies this
      ensures State() == TrackSelected(old(State()), track)
    {
      picked := picked + [track];
      showSuggestions := false;
      selectedIndex := -1;
      value := DisplayValue(track);
    }

    method HandleKeyDown(key: Key, suggestions: seq<TrackSuggestion>)
      modifies this
      ensures State() == KeyDown(old(State()), key, suggestions)
    {
      if !showSuggestions || |suggestions| == 0 {
        return;
      }
      match key {
        case ArrowDown =>
          selectedIndex := if selectedIndex < |suggestions| - 1 then selectedIndex + 1 else 0;
        case ArrowUp =>
          selectedIndex := if selectedIndex > 0 then selectedIndex - 1 else |suggestions| - 1;
        case Enter =>
          if selectedIndex >= 0 && selectedIndex < |suggestions| {
            HandleTrackSelect(suggestions[selectedIndex]);
          }
        case Escape =>
          showSuggestions := false;
          selectedIndex := -1;
        case OtherKey =>
      }
    }

    method ClearTriggerChanged(clearTrigger: Option<int>)
      modifies this
      ensures State() == Cleared(old(State()), clearTrigger)
    {
      if clearTrigger.Some? && clearTrigger.value > 0 {
        value := "";
        showSuggestions := false;
        selectedIndex := -1;
      }
    }
  }
}
