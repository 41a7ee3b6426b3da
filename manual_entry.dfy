/**
 * The manual-entry page: a food name with type-ahead suggestions, a
 * quantity and a unit, sent to /manual-nutrition. The summary shown is
 * computed again on the client from the scaled totals.
 */
module ManualEntry {
  import opened Wrappers
  import opened Nutrition
  import opened JsText
  import opened Scaling
  import opened TargetSummary
  import Rounding
  import Backend

  // ------------------------------------------------------------ validation

  /**
   * The submit checks in order: a food name that is not blank, then a
   * quantity that is not empty, that Number() reads, and whose parseFloat is
   * not at most zero. The error message, or None when the form passes.
   */
  function Validate(foodName: string, quantity: string): (r: Option<string>)
    ensures r == Some("Please enter a food name") <==> IsBlank(foodName)
    ensures r == Some("Please enter a valid quantity") <==>
      !IsBlank(foodName) && (quantity == "" || ToNumber(quantity).NaN? || Le(ParseFloat(quantity), 0.0))
    ensures r.None? || r == Some("Please enter a food name") || r == Some("Please enter a valid quantity")
  {
    TrimEmptyIffBlank(foodName);
    if Trim(foodName) == "" then Some("Please enter a food name")
    else if quantity == "" || ToNumber(quantity).NaN? || Le(ParseFloat(quantity), 0.0) then Some("Please enter a valid quantity")
    else None
  }

  /** What a number input can hold: nothing, or a numeral Number() reads, without spaces. */
  predicate NumberInputValue(q: string)
  {
    q == "" || (ToNumber(q).Fin? && forall i :: 0 <= i < |q| ==> !IsWhitespace(q[i]))
  }

  /** From a number input, a quantity that passes is a positive number, read alike by both coercions. */
  lemma ValidQuantityIsPositive(foodName: string, quantity: string)
    requires NumberInputValue(quantity)
    requires Validate(foodName, quantity).None?
    ensures ParseFloat(quantity).Fin? && ParseFloat(quantity).v > 0.0
    ensures ParseFloat(quantity) == ToNumber(quantity)
  {
    assert quantity != "";
    assert TrimStart(quantity) == quantity;
    assert TrimEnd(quantity) == quantity;
  }

  /** The checks themselves let blank text through: it is 0 to Number() and NaN to parseFloat. */
  lemma BlankQuantityPasses(foodName: string, quantity: string)
    requires !IsBlank(foodName)
    requires quantity != "" && IsBlank(quantity)
    ensures Validate(foodName, quantity) == None
    ensures ParseFloat(quantity) == NaN
  {
  }

  /** Rejected forms: no name, no quantity, a negative quantity. */
  lemma ValidateRejects()
    ensures Validate("", "100") == Some("Please enter a food name")
    ensures Validate("rice", "") == Some("Please enter a valid quantity")
    ensures Validate("rice", "-1") == Some("Please enter a valid quantity")
  {
    assert !IsBlank("rice") by { assert !IsWhitespace("rice"[0]); }
    SignedCoercion();
  }

  /** A form that passes: rice, 150. */
  lemma ValidateAccepts()
    ensures Validate("rice", "150") == None
  {
    assert !IsBlank("rice") by { assert !IsWhitespace("rice"[0]); }
    GramsCoercion();
  }

  // ------------------------------------------------------------ summary

  /** generateSummary: the loop over the four target keys, a missing value read as 0. */
  method GenerateSummary(nutrition: NutritionMap) returns (summary: Summary)
    ensures summary == Summarise(nutrition)
  {
    summary := map[];
    var keys := Dimensions;
    for i := 0 to |keys|
      invariant forall d :: d in summary <==> d in keys[..i]
      invariant forall d :: d in summary ==> summary[d] == Advice(BandOf(d, ValueOrZero(nutrition, d)), ValueOrZero(nutrition, d))
    {
      var key := keys[i];
      var value := if key in nutrition then nutrition[key] else 0.0;
      var target := Target(key);
      var band;
      match key {
        case Protein =>
          if value < 0.7 * target { band := Low; }
          else if value > 1.3 * target { band := High; }
          else { band := Medium; }
        case Fat =>
          if value < 0.5 * target { band := Low; }
          else if value > 1.2 * target { band := High; }
          else { band := Medium; }
        case Carbs =>
          if value < 0.5 * target { band := Low; }
          else if value > 1.2 * target { band := High; }
          else { band := Medium; }
        case Calories =>
          if value < 0.5 * target { band := Low; }
          else if value > 1.2 * target { band := High; }
          else { band := Medium; }
      }
      summary := summary[key := Advice(band, value)];
      assert keys[..i + 1] == keys[..i] + [key];
    }
    assert keys[..|keys|] == keys;
    DimensionsCoverAll();
    assert summary.Keys == AllDimensions;
  }

  /**
   * The page shows the summary of the totals, the server sends that of the
   * record per 100 g: 250 kcal per 100 g is moderate, 300 g of it (750 kcal)
   * is high.
   */
  lemma PortionSummaryExample()
    ensures var base := map[Calories := 250.0, Protein := 8.0, Fat := 5.0, Carbs := 20.0];
      var total := ScalePy(base, PyMultiplier("grams", 300.0));
      && total == map[Calories := 750.0, Protein := 24.0, Fat := 15.0, Carbs := 60.0]
      && Summarise(base)[Calories].band == Medium
      && Summarise(total)[Calories].band == High
  {
    Rounding.RoundingFixesRounded(750);
    Rounding.RoundingFixesRounded(240);
    Rounding.RoundingFixesRounded(150);
    Rounding.RoundingFixesRounded(600);
  }

  // ------------------------------------------------------------ the page

  /** `foodName.length`: JavaScript counts UTF-16 code units, two for a character outside the Basic Multilingual Plane. */
  function Utf16Length(s: string): (n: nat)
    ensures |s| <= n <= 2 * |s|
  {
    if |s| == 0 then 0
    else Utf16Length(s[..|s| - 1]) + (if s[|s| - 1] as int < 0x1_0000 then 1 else 2)
  }

  /** The UTF-16 length is the number of characters exactly when every character lies in the Basic Multilingual Plane. */
  lemma {:induction false} Utf16LengthOfBmp(s: string)
    ensures Utf16Length(s) == |s| <==> forall i :: 0 <= i < |s| ==> s[i] as int < 0x1_0000
  {
    if |s| > 0 {
      Utf16LengthOfBmp(s[..|s| - 1]);
    }
  }

  /** A single character outside the Basic Multilingual Plane, an emoji say, is already long enough to ask for suggestions. */
  lemma AstralCharIsTwoUnits(c: char)
    requires c as int >= 0x1_0000
    ensures Utf16Length([c]) == 2
  {
    assert [c][..0] == [];
  }

  /** The suggestions request after the debounce: it failed, or answered with an optional list. */
  datatype SuggestFetch = SuggestFailed | SuggestAnswered(suggestions: Option<seq<Suggestion>>)

  /** How the client reads an answer of /food-suggestions: the empty pair has no list. */
  function Received(r: Backend.SuggestionsResponse): (f: SuggestFetch)
    ensures f.SuggestAnswered?
    ensures f.suggestions.Some? <==> r.SuggestionList?
  {
    match r
    case CommonBranded => SuggestAnswered(None)
    case SuggestionList(list) => SuggestAnswered(Some(list))
  }

  /** The submit request: the fetch failed, or the server answered (200 or an error). */
  datatype SubmitFetch = SubmitFailed | Answered(response: Backend.ApiResponse<Backend.ManualResult>)

  datatype Key = ArrowDown | ArrowUp | Enter | Escape | OtherKey

  /** ArrowDown: one further down the list, but not past its end. */
  function Down(i: int, length: nat): int
  {
    if i < length - 1 then i + 1 else i
  }

  /** ArrowUp: one further up, and from the first entry (or none) back to none. */
  function Up(i: int): int
  {
    if i > 0 then i - 1 else -1
  }

  /** ArrowUp undoes ArrowDown everywhere but at the last entry, and ArrowDown undoes ArrowUp on every entry. */
  lemma UpUndoesDown(i: int, length: nat)
    requires -1 <= i < length
    ensures i < length - 1 ==> Up(Down(i, length)) == i
    ensures 0 <= i ==> Down(Up(i), length) == i
  {
  }

  /** From no selection, k presses of ArrowDown select entry k - 1, and stop at the last entry. */
  lemma {:induction false} DownPresses(k: nat, length: nat)
    requires length > 0
    ensures Presses(k, length) == (if k <= length then k - 1 else length - 1)
  {
    if k > 0 {
      DownPresses(k - 1, length);
    }
  }

  /** The index after k presses of ArrowDown from no selection. */
  function Presses(k: nat, length: nat): int
  {
    if k == 0 then -1 else Down(Presses(k - 1, length), length)
  }

  /** The submitted result with the summary the client computes from the totals. */
  function Shown(body: Backend.ManualResult): Backend.ManualResult
  {
    body.(summary := Summarise(body.total))
  }

  /** The message shown for an error answer: the server's, or a fallback when it is empty. */
  function ErrorText(message: string): (t: string)
    ensures t != ""
    ensures message != "" ==> t == message
  {
    if message != "" then message else "Failed to fetch nutrition data"
  }

  /** The request body: a parseFloat that is NaN goes out as null, which the server reads as not a number. */
  function RequestBody(foodName: string, quantity: string, unit: string): (b: Backend.ManualBody)
    ensures b.foodName == Some(foodName) && b.unit == Some(unit)
    ensures ParseFloat(quantity).Fin? <==> b.quantity.QuantityNumber?
  {
    var q := ParseFloat(quantity);
    Backend.ManualBody(Some(foodName), if q.Fin? then Backend.QuantityNumber(q.v) else Backend.QuantityOther, Some(unit))
  }

  class ManualFoodInput {
    var foodName: string
    var quantity: string
    var unit: string
    var result: Option<Backend.ManualResult>
    var loading: bool
    var error: string
    var suggestions: seq<Suggestion>
    var showSuggestions: bool
    var selectedIndex: int

    /** The list is shown only when it has entries, and a selection is an entry or none. */
    predicate Valid()
      reads this
    {
      -1 <= selectedIndex && (showSuggestions ==> 0 < |suggestions| && selectedIndex < |suggestions|)
    }

    constructor()
      ensures Valid()
      ensures foodName == "" && quantity == "" && unit == "grams"
      ensures result == None && !loading && error == ""
      ensures suggestions == [] && !showSuggestions && selectedIndex == -1
    {
      foodName, quantity, unit := "", "", "grams";
      result, loading, error := None, false, "";
      suggestions, showSuggestions, selectedIndex := [], false, -1;
    }

    method SetFoodName(name: string)
      requires Valid()
      modifies this
      ensures Valid()
      ensures foodName == name
      ensures quantity == old(quantity) && unit == old(unit) && result == old(result) && loading == old(loading) && error == old(error)
      ensures suggestions == old(suggestions) && showSuggestions == old(showSuggestions) && selectedIndex == old(selectedIndex)
    {
      foodName := name;
    }

    method SetQuantity(q: string)
      requires Valid()
      modifies this
      ensures Valid()
      ensures quantity == q
      ensures foodName == old(foodName) && unit == old(unit) && result == old(result) && loading == old(loading) && error == old(error)
      ensures suggestions == old(suggestions) && showSuggestions == old(showSuggestions) && selectedIndex == old(selectedIndex)
    {
      quantity := q;
    }

    method SetUnit(u: string)
      requires Valid()
      modifies this
      ensures Valid()
      ensures unit == u
      ensures foodName == old(foodName) && quantity == old(quantity) && result == old(result) && loading == old(loading) && error == old(error)
      ensures suggestions == old(suggestions) && showSuggestions == old(showSuggestions) && selectedIndex == old(selectedIndex)
    {
      unit := u;
    }

    /**
     * The effect on foodName: under two characters the list is cleared and
     * hidden; otherwise the fetched list replaces it, is shown when it has
     * entries, and the selection is reset. A failed fetch clears and hides.
     */
    method RefreshSuggestions(fetched: SuggestFetch)
      requires Valid()
      modifies this
      ensures Valid()
      ensures Utf16Length(old(foodName)) < 2 || fetched.SuggestFailed? ==>
        suggestions == [] && !showSuggestions && selectedIndex == old(selectedIndex)
      ensures Utf16Length(old(foodName)) >= 2 && fetched.SuggestAnswered? ==>
        && suggestions == (if fetched.suggestions.Some? then fetched.suggestions.value else [])
        && (showSuggestions <==> |suggestions| > 0)
        && selectedIndex == -1
      ensures foodName == old(foodName) && quantity == old(quantity) && unit == old(unit)
      ensures result == old(result) && loading == old(loading) && error == old(error)
    {
      if Utf16Length(foodName) < 2 {
        suggestions, showSuggestions := [], false;
        return;
      }
      match fetched {
        case SuggestFailed =>
          suggestions, showSuggestions := [], false;
        case SuggestAnswered(list) =>
          suggestions := if list.Some? then list.value else [];
          showSuggestions := list.Some? && |list.value| > 0;
          selectedIndex := -1;
      }
    }

    /** Picking a suggestion fills in its name and closes the list. */
    method HandleSuggestionClick(s: Suggestion)
      requires Valid()
      modifies this
      ensures Valid()
      ensures foodName == s.foodName && suggestions == [] && !showSuggestions
      ensures selectedIndex == old(selectedIndex)
      ensures quantity == old(quantity) && unit == old(unit)
      ensures result == old(result) && loading == old(loading) && error == old(error)
    {
      foodName := s.foodName;
      suggestions, showSuggestions := [], false;
    }

    /**
     * Keyboard navigation of the open list: the arrows move the selection,
     * Enter picks the selected entry, Escape closes the list. With the list
     * closed every key is ignored.
     */
    method HandleKeyDown(key: Key)
      requires Valid()
      modifies this
      ensures Valid()
      ensures !old(showSuggestions) ==>
        && foodName == old(foodName) && suggestions == old(suggestions)
        && !showSuggestions && selectedIndex == old(selectedIndex)
      ensures old(showSuggestions) && key == ArrowDown ==>
        selectedIndex == Down(old(selectedIndex), |old(suggestions)|) && showSuggestions
        && suggestions == old(suggestions) && foodName == old(foodName)
      ensures old(showSuggestions) && key == ArrowUp ==>
        selectedIndex == Up(old(selectedIndex)) && showSuggestions
        && suggestions == old(suggestions) && foodName == old(foodName)
      ensures old(showSuggestions) && key == Enter && old(selectedIndex) >= 0 ==>
        foodName == old(suggestions)[old(selectedIndex)].foodName && suggestions == [] && !showSuggestions
      ensures old(showSuggestions) && key == Enter && old(selectedIndex) < 0 ==>
        foodName == old(foodName) && suggestions == old(suggestions) && showSuggestions
      ensures old(showSuggestions) && key == Escape ==>
        !showSuggestions && selectedIndex == -1 && suggestions == old(suggestions) && foodName == old(foodName)
      ensures old(showSuggestions) && key == OtherKey ==>
        showSuggestions && selectedIndex == old(selectedIndex) && suggestions == old(suggestions) && foodName == old(foodName)
      ensures quantity == old(quantity) && unit == old(unit)
      ensures result == old(result) && loading == old(loading) && error == old(error)
    {
      if !showSuggestions {
        return;
      }
      match key {
        case ArrowDown =>
          selectedIndex := Down(selectedIndex, |suggestions|);
        case ArrowUp =>
          selectedIndex := Up(selectedIndex);
        case Enter =>
          if selectedIndex >= 0 && selectedIndex < |suggestions| {
            HandleSuggestionClick(suggestions[selectedIndex]);
          }
        case Escape =>
          showSuggestions := false;
          selectedIndex := -1;
        case OtherKey =>
      }
    }

    /**
     * handleSubmit: a failed check only sets its message. Otherwise the
     * request goes out (returned here), the list closes, and the answer
     * decides: a 200 is shown with the summary of its totals, an error
     * answer shows its message, a failed fetch the network message.
     */
    method HandleSubmit(fetched: SubmitFetch) returns (sent: Option<Backend.ManualBody>)
      requires Valid()
      modifies this
      ensures Valid()
      ensures Validate(old(foodName), old(quantity)).Some? ==>
        && sent == None && error == Validate(old(foodName), old(quantity)).value
        && result == old(result) && loading == old(loading) && showSuggestions == old(showSuggestions)
      ensures Validate(old(foodName), old(quantity)).None? ==>
        && sent == Some(RequestBody(old(foodName), old(quantity), old(unit)))
        && !loading && !showSuggestions
        && (fetched.SubmitFailed? ==> result == None && error == "Network error. Please try again.")
        && (fetched.Answered? && fetched.response.Ok? ==> result == Some(Shown(fetched.response.body)) && error == "")
        && (fetched.Answered? && fetched.response.Error? ==> result == None && error == ErrorText(fetched.response.message))
      ensures foodName == old(foodName) && quantity == old(quantity) && unit == old(unit)
      ensures suggestions == old(suggestions) && selectedIndex == old(selectedIndex)
    {
      var invalid := Validate(foodName, quantity);
      if invalid.Some? {
        error := invalid.value;
        return None;
      }
      sent := Some(RequestBody(foodName, quantity, unit));
      Send(fetched);
    }

    /** A request is out: loading while it runs, the list closed, and the answer handled. */
    method Send(fetched: SubmitFetch)
      requires Valid()
      modifies this
      ensures Valid()
      ensures !loading && !showSuggestions
      ensures fetched.SubmitFailed? ==> result == None && error == "Network error. Please try again."
      ensures fetched.Answered? && fetched.response.Ok? ==> result == Some(Shown(fetched.response.body)) && error == ""
      ensures fetched.Answered? && fetched.response.Error? ==> result == None && error == ErrorText(fetched.response.message)
      ensures foodName == old(foodName) && quantity == old(quantity) && unit == old(unit)
      ensures suggestions == old(suggestions) && selectedIndex == old(selectedIndex)
    {
      loading, error, result, showSuggestions := true, "", None, false;
      ReceiveAnswer(fetched);
      loading := false;
    }

    /** The handling of the submit answer, with the request already sent. */
    method ReceiveAnswer(fetched: SubmitFetch)
      requires Valid()
      modifies this
      ensures Valid()
      ensures fetched.SubmitFailed? ==> result == old(result) && error == "Network error. Please try again."
      ensures fetched.Answered? && fetched.response.Ok? ==> result == Some(Shown(fetched.response.body)) && error == old(error)
      ensures fetched.Answered? && fetched.response.Error? ==> result == old(result) && error == ErrorText(fetched.response.message)
      ensures foodName == old(foodName) && quantity == old(quantity) && unit == old(unit) && loading == old(loading)
      ensures suggestions == old(suggestions) && showSuggestions == old(showSuggestions) && selectedIndex == old(selectedIndex)
    {
      match fetched {
        case SubmitFailed =>
          error := "Network error. Please try again.";
        case Answered(response) =>
          match response {
            case Ok(body) =>
              var summary := GenerateSummary(body.total);
              result := Some(body.(summary := summary));
            case Error(_, message) =>
              error := ErrorText(message);
          }
      }
    }
  }

  /** From a number input, a submitted request always carries a positive numeric quantity. */
  lemma SentQuantityIsPositive(foodName: string, quantity: string, unit: string)
    requires NumberInputValue(quantity) && Validate(foodName, quantity).None?
    ensures RequestBody(foodName, quantity, unit).quantity.QuantityNumber?
    ensures RequestBody(foodName, quantity, unit).quantity.q > 0.0
  {
    ValidQuantityIsPositive(foodName, quantity);
  }

  /**
   * End to end: a request the page sends for a food whose record is
   * complete is answered with the totals for that quantity and unit, and the
   * page shows the summary of those totals.
   */
  lemma SubmittedRequestSucceeds(foodName: string, quantity: string, unit: string, nix: Backend.Lookup, ai: Backend.Lookup)
    requires NumberInputValue(quantity) && Validate(foodName, quantity).None?
    requires Complete(Backend.NutritionFor(foodName, nix, ai))
    ensures var r := Backend.ManualNutrition(Some(RequestBody(foodName, quantity, unit)), nix, ai);
      && r.Ok?
      && r.body.total == ScalePy(Backend.NutritionFor(foodName, nix, ai), PyMultiplier(unit, ParseFloat(quantity).v))
      && Shown(r.body).summary == Summarise(r.body.total)
  {
    ValidQuantityIsPositive(foodName, quantity);
    Backend.ManualSucceeds(foodName, ParseFloat(quantity).v, Some(unit), nix, ai);
  }
}
