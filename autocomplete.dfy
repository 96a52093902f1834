/**
 * The suggestion box of `components/AutocompleteInput.tsx`: typing filters a fixed list of
 * suggestions, the arrow keys move a highlight through the filtered list, a click or Enter
 * passes the chosen suggestion to the parent and closes the list, Escape or a click outside
 * just closes it. Beside it sits the data-quality indicator looked up from a status text.
 */
module Autocomplete {
  import opened Wrappers
  import opened Js

  // ---------------------------------------------------------------------------
  // Filtering

  /** A suggestion matches when it includes the input, both lowercased. */
  predicate Matches(suggestion: string, userInput: string) {
    Contains(ToLower(suggestion), ToLower(userInput))
  }

  /** `suggestions.filter(...)`: the matching suggestions. */
  function Filter(suggestions: seq<string>, userInput: string): (r: seq<string>)
    ensures |r| <= |suggestions|
  {
    if suggestions == [] then []
    else
      var last := suggestions[|suggestions| - 1];
      Filter(suggestions[..|suggestions| - 1], userInput) + if Matches(last, userInput) then [last] else []
  }

  /** A suggestion is kept exactly when it is listed and matches. */
  lemma {:induction false} FilterMembers(suggestions: seq<string>, userInput: string, s: string)
    ensures s in Filter(suggestions, userInput) <==> s in suggestions && Matches(s, userInput)
  {
    if suggestions != [] {
      var init := suggestions[..|suggestions| - 1];
      FilterMembers(init, userInput, s);
      assert suggestions == init + [suggestions[|suggestions| - 1]];
    }
  }

  /**
   * Filtering commutes with concatenation: the kept suggestions of a list are those of its
   * front followed by those of its back, so the original order is kept.
   */
  lemma {:induction false} FilterAppend(a: seq<string>, b: seq<string>, userInput: string)
    ensures Filter(a + b, userInput) == Filter(a, userInput) + Filter(b, userInput)
    decreases |b|
  {
    if b == [] {
      assert a + b == a;
    } else {
      var init := b[..|b| - 1];
      assert (a + b)[..|a + b| - 1] == a + init;
      FilterAppend(a, init, userInput);
    }
  }

  /** An empty input keeps every suggestion. */
  lemma {:induction false} FilterEmptyInput(suggestions: seq<string>)
    ensures Filter(suggestions, "") == suggestions
  {
    if suggestions != [] {
      FilterEmptyInput(suggestions[..|suggestions| - 1]);
      ContainsEmpty(ToLower(suggestions[|suggestions| - 1]));
    }
  }

  /** Inputs that differ only in letter case filter alike. */
  lemma {:induction false} FilterIgnoresCase(suggestions: seq<string>, a: string, b: string)
    requires ToLower(a) == ToLower(b)
    ensures Filter(suggestions, a) == Filter(suggestions, b)
  {
    if suggestions != [] {
      FilterIgnoresCase(suggestions[..|suggestions| - 1], a, b);
    }
  }

  // ---------------------------------------------------------------------------
  // The suggestion box

  /** The keys `handleKeyDown` reacts to; any other key is `OtherKey`. */
  datatype Key = Enter | ArrowUp | ArrowDown | Escape | OtherKey

  /**
   * What a handler passes to the parent's `onChange`: nothing, or a value, where `None` is
   * the `undefined` read from past the end of the filtered list.
   */
  datatype Emitted = Silent | Emit(value: Option<string>)

  class AutocompleteInput {
    const suggestions: seq<string>
    var filteredSuggestions: seq<string>
    var showSuggestions: bool
    var activeSuggestionIndex: int

    /**
     * The highlight is never negative and, while there are filtered suggestions, points at
     * one of them. With an empty list it may point past the end.
     */
    predicate Valid()
      reads this
    {
      0 <= activeSuggestionIndex && (filteredSuggestions != [] ==> activeSuggestionIndex < |filteredSuggestions|)
    }

    /** The filtered suggestion under the highlight, or `undefined`. */
    function Highlighted(): Option<string>
      reads this
    {
      if 0 <= activeSuggestionIndex < |filteredSuggestions| then Some(filteredSuggestions[activeSuggestionIndex]) else None
    }

    /** The list is rendered only when it is non-empty, shown, and the input is non-empty. */
    predicate ListVisible(value: string)
      reads this
    {
      |filteredSuggestions| > 0 && showSuggestions && value != ""
    }

    /** While the list is visible, the highlight is on a filtered suggestion. */
    lemma VisibleListHighlights(value: string)
      requires Valid() && ListVisible(value)
      ensures Highlighted().Some? && Highlighted().value in filteredSuggestions
    {
    }

    /** Mounting: nothing filtered, nothing shown, the highlight on the first row. */
    constructor (suggestions: seq<string>)
      ensures this.suggestions == suggestions
      ensures filteredSuggestions == [] && !showSuggestions && activeSuggestionIndex == 0
      ensures Valid()
    {
      this.suggestions := suggestions;
      filteredSuggestions := [];
      showSuggestions := false;
      activeSuggestionIndex := 0;
    }

    /** `handleChange`: passes the raw input up, filters, shows, and highlights the first row. */
    method HandleChange(userInput: string) returns (emitted: Emitted)
      modifies this
      ensures emitted == Emit(Some(userInput))
      ensures filteredSuggestions == Filter(suggestions, userInput)
      ensures showSuggestions && activeSuggestionIndex == 0
      ensures Valid()
    {
      emitted := Emit(Some(userInput));
      filteredSuggestions := Filter(suggestions, userInput);
      showSuggestions := true;
      activeSuggestionIndex := 0;
    }

    /** `handleClick`: passes the suggestion up, clears and hides the list; the index stays. */
    method HandleClick(suggestion: Option<string>) returns (emitted: Emitted)
      modifies this
      ensures emitted == Emit(suggestion)
      ensures filteredSuggestions == [] && !showSuggestions
      ensures activeSuggestionIndex == old(activeSuggestionIndex)
      ensures old(Valid()) ==> Valid()
    {
      emitted := Emit(suggestion);
      filteredSuggestions := [];
      showSuggestions := false;
    }

    /** A click anywhere outside the component hides the list and keeps everything else. */
    method HandleClickOutside()
      modifies this
      ensures !showSuggestions
      ensures filteredSuggestions == old(filteredSuggestions)
      ensures activeSuggestionIndex == old(activeSuggestionIndex)
    {
      showSuggestions := false;
    }

    /**
     * `handleKeyDown` as written. Nothing happens while the list is hidden. Enter clicks the
     * highlighted entry, which is `undefined` when the filtered list is empty; the arrows
     * move the highlight, stopping at the first row and at the last (so on an empty list
     * ArrowDown still moves it, to 1); Escape hides the list.
     */
    method HandleKeyDownAsWritten(key: Key) returns (emitted: Emitted)
      modifies this
      ensures !old(showSuggestions) ==> emitted == Silent && unchanged(this)
      ensures old(showSuggestions) && key == Enter ==>
                && emitted == Emit(old(Highlighted()))
                && filteredSuggestions == [] && !showSuggestions
                && activeSuggestionIndex == old(activeSuggestionIndex)
      ensures old(showSuggestions) && key != Enter ==> emitted == Silent && filteredSuggestions == old(filteredSuggestions)
      ensures old(showSuggestions) && key == ArrowUp ==>
                && showSuggestions
                && activeSuggestionIndex == if old(activeSuggestionIndex) == 0 then 0 else old(activeSuggestionIndex) - 1
      ensures old(showSuggestions) && key == ArrowDown ==>
                && showSuggestions
                && activeSuggestionIndex
                   == if old(activeSuggestionIndex) == |old(filteredSuggestions)| - 1 then old(activeSuggestionIndex)
                      else old(activeSuggestionIndex) + 1
      ensures old(showSuggestions) && key == Escape ==> !showSuggestions && activeSuggestionIndex == old(activeSuggestionIndex)
      ensures old(showSuggestions) && key == OtherKey ==> unchanged(this)
      ensures old(Valid()) ==> Valid()
    {
      emitted := Silent;
      if showSuggestions {
        if key == Enter {
          emitted := HandleClick(Highlighted());
        } else if key == ArrowUp {
          if activeSuggestionIndex == 0 {
            return;
          }
          activeSuggestionIndex := activeSuggestionIndex - 1;
        } else if key == ArrowDown {
          if activeSuggestionIndex == |filteredSuggestions| - 1 {
            return;
          }
          activeSuggestionIndex := activeSuggestionIndex + 1;
        } else if key == Escape {
          showSuggestions := false;
        }
      }
    }

    /**
     * `handleKeyDown` as evidently intended: the same, except that Enter with nothing
     * highlighted leaves the list and the field alone instead of sending `undefined`.
     */
    method HandleKeyDown(key: Key) returns (emitted: Emitted)
      modifies this
      ensures !old(showSuggestions) ==> emitted == Silent && unchanged(this)
      ensures old(showSuggestions) && key == Enter && old(Highlighted()).None? ==> emitted == Silent && unchanged(this)
      ensures old(showSuggestions) && key == Enter && old(Highlighted()).Some? ==>
                && emitted == Emit(old(Highlighted()))
                && filteredSuggestions == [] && !showSuggestions
                && activeSuggestionIndex == old(activeSuggestionIndex)
      ensures old(showSuggestions) && key != Enter ==> emitted == Silent && filteredSuggestions == old(filteredSuggestions)
      ensures old(showSuggestions) && key == ArrowUp ==>
                && showSuggestions
                && activeSuggestionIndex == if old(activeSuggestionIndex) == 0 then 0 else old(activeSuggestionIndex) - 1
      ensures old(showSuggestions) && key == ArrowDown ==>
                && showSuggestions
                && activeSuggestionIndex
                   == if old(activeSuggestionIndex) == |old(filteredSuggestions)| - 1 then old(activeSuggestionIndex)
                      else old(activeSuggestionIndex) + 1
      ensures old(showSuggestions) && key == Escape ==> !showSuggestions && activeSuggestionIndex == old(activeSuggestionIndex)
      ensures old(showSuggestions) && key == OtherKey ==> unchanged(this)
      ensures emitted.Emit? ==> emitted.value.Some? && emitted.value.value in old(filteredSuggestions)
      ensures old(Valid()) ==> Valid()
    {
      if showSuggestions && key == Enter && Highlighted().None? {
        emitted := Silent;
      } else {
        emitted := HandleKeyDownAsWritten(key);
      }
    }
  }

  /** The input `zz` matches nothing in the list `["ok"]`. */
  lemma NoMatch()
    ensures Filter(["ok"], "zz") == []
  {
    ToLowerNoUpper("ok");
    ToLowerNoUpper("zz");
    assert !Contains("ok", "zz") by {
      assert !StartsWith("ok", "zz");
      assert !StartsWith("k", "zz");
      assert !Contains("", "zz");
      assert "ok"[1..] == "k" && "k"[1..] == "";
    }
  }

  /**
   * Typing a text that matches no suggestion and pressing Enter sends `undefined` to the
   * parent, which erases what was typed.
   */
  method EnterWithoutMatch() returns (typed: Emitted, entered: Emitted)
    ensures typed == Emit(Some("zz")) && entered == Emit(None)
  {
    var box := new AutocompleteInput(["ok"]);
    NoMatch();
    typed := box.HandleChange("zz");
    entered := box.HandleKeyDownAsWritten(Enter);
  }

  /** With the intended handler the same keystrokes leave the typed text standing. */
  method EnterWithoutMatchIntended() returns (typed: Emitted, entered: Emitted)
    ensures typed == Emit(Some("zz")) && entered == Silent
  {
    var box := new AutocompleteInput(["ok"]);
    NoMatch();
    typed := box.HandleChange("zz");
    entered := box.HandleKeyDown(Enter);
  }

  // ---------------------------------------------------------------------------
  // Data-quality indicator

  /** The three entries of `statusMap`. */
  datatype StatusKind = StatusOk | StatusPartial | StatusAmbiguous

  function StatusKey(k: StatusKind): string {
    match k
    case StatusOk => "ok"
    case StatusPartial => "partial"
    case StatusAmbiguous => "ambiguous"
  }

  function StatusLabel(k: StatusKind): string {
    match k
    case StatusOk => "Data Quality: OK"
    case StatusPartial => "Data Quality: Partial"
    case StatusAmbiguous => "Data Quality: Ambiguous"
  }

  /**
   * What `statusMap[key]` yields on a plain object literal: one of the three entries, a
   * member inherited from `Object.prototype` (truthy, but without `Icon`, `color` or
   * `label`), or `undefined`. Only `constructor` and `__proto__` are inherited names that
   * are already lower case.
   */
  datatype StatusEntry = Entry(kind: StatusKind) | Inherited | Missing

  function StatusMapGet(key: string): StatusEntry {
    if key == "ok" then Entry(StatusOk)
    else if key == "partial" then Entry(StatusPartial)
    else if key == "ambiguous" then Entry(StatusAmbiguous)
    else if key == "constructor" || key == "__proto__" then Inherited
    else Missing
  }

  /**
   * `StatusIndicator` as written: no indicator for a falsy status or a missing entry; an
   * inherited member passes the truthiness test and rendering its `undefined` `Icon`
   * throws, shown here as `Failure`.
   */
  function StatusIndicatorAsWritten(status: Option<string>): Result<Option<StatusKind>, string> {
    if !TruthyText(status) then Success(None)
    else
      match StatusMapGet(ToLower(status.value))
      case Entry(k) => Success(Some(k))
      case Inherited => Failure("element type is invalid")
      case Missing => Success(None)
  }

  /** A status of `constructor` makes the field's rendering throw. */
  lemma StatusConstructorThrows()
    ensures StatusIndicatorAsWritten(Some("constructor")).Failure?
  {
    ConstructorIsLowerCase();
    InheritedStatusThrows("constructor");
  }

  lemma ConstructorIsLowerCase()
    ensures ToLower("constructor") == "constructor"
  {
    var front, back := "constr", "uctor";
    ToLowerNoUpper(front);
    ToLowerNoUpper(back);
    ToLowerAppend(front, back);
    assert front + back == "constructor";
  }

  /** Any status that lowercases to an inherited member name throws. */
  lemma InheritedStatusThrows(status: string)
    requires ToLower(status) == "constructor" || ToLower(status) == "__proto__"
    ensures StatusIndicatorAsWritten(Some(status)).Failure?
  {
  }

  /** The indicator as intended: only the map's own three entries count. */
  function StatusIndicator(status: Option<string>): Option<StatusKind> {
    if !TruthyText(status) then None
    else
      match StatusMapGet(ToLower(status.value))
      case Entry(k) => Some(k)
      case Inherited => None
      case Missing => None
  }

  /** `StatusMapGet` finds an entry exactly for its three keys. */
  lemma StatusMapGetEntry(key: string, k: StatusKind)
    ensures StatusMapGet(key) == Entry(k) <==> key == StatusKey(k)
  {
  }

  /**
   * The intended indicator shows kind `k` exactly when the lowercased status is `k`'s key,
   * and agrees with the code as written wherever that does not throw.
   */
  lemma StatusIndicatorIff(status: Option<string>, k: StatusKind)
    ensures StatusIndicator(status) == Some(k) <==> status.Some? && ToLower(status.value) == StatusKey(k)
    ensures StatusIndicatorAsWritten(status).Success? ==> StatusIndicatorAsWritten(status).value == StatusIndicator(status)
  {
    StatusMapGetEntry(if status.Some? then ToLower(status.value) else "", k);
    if status.Some? && status.value == "" {
      assert ToLower(status.value) == "";
    }
  }

  /** The lookup ignores letter case: `OK`, `Ok` and `ok` all give the same indicator. */
  lemma StatusIgnoresCase(a: string, b: string)
    requires a != "" && b != "" && ToLower(a) == ToLower(b)
    ensures StatusIndicator(Some(a)) == StatusIndicator(Some(b))
  {
  }
}
