/**
 * The Flask backend's request handlers: /predict, /manual-nutrition and
 * /food-suggestions, with the target-relative summary loop they share. The
 * Nutritionix, Cohere, YOLO and Roboflow calls are not modelled: their
 * answers are parameters.
 */
module Backend {
  import opened Wrappers
  import opened Nutrition
  import opened Rounding
  import opened Scaling
  import opened TargetSummary
  import Names
  import Yolo
  import IndianVote

  /** A JSON answer with its status: 200 and a body, or an error status and message. */
  datatype ApiResponse<T> = Ok(body: T) | Error(status: int, message: string)

  /** A nutrition lookup by food name; an empty record means the service found nothing. */
  type Lookup = string -> NutritionMap

  /** `nutrition_info`: Nutritionix's record, or the AI estimate when that is empty. */
  function NutritionFor(food: string, nix: Lookup, ai: Lookup): (n: NutritionMap)
    ensures nix(food) != map[] ==> n == nix(food)
    ensures nix(food) == map[] ==> n == ai(food)
    ensures n == map[] <==> nix(food) == map[] && ai(food) == map[]
  {
    if nix(food) != map[] then nix(food) else ai(food)
  }

  // ------------------------------------------------------------ summary

  /** generate_nutrition_summary: the loop over the four keys, with the targets and ratios written out. */
  method GenerateNutritionSummary(nutrition: NutritionMap) returns (summary: Summary)
    ensures summary == Summarise(nutrition)
  {
    summary := map[];
    for i := 0 to |Dimensions|
      invariant forall d :: d in summary <==> d in Dimensions[..i]
      invariant forall d :: d in summary ==> summary[d] == Advice(BandOf(d, ValueOrZero(nutrition, d)), ValueOrZero(nutrition, d))
    {
      var key := Dimensions[i];
      var value := if key in nutrition then nutrition[key] else 0.0;
      var band;
      if key == Protein {
        if value < 0.7 * 25.0 { band := Low; }
        else if value > 1.3 * 25.0 { band := High; }
        else { band := Medium; }
      } else if key == Fat {
        if value < 0.5 * 20.0 { band := Low; }
        else if value > 1.2 * 20.0 { band := High; }
        else { band := Medium; }
      } else if key == Carbs {
        if value < 0.5 * 50.0 { band := Low; }
        else if value > 1.2 * 50.0 { band := High; }
        else { band := Medium; }
      } else {
        if value < 0.5 * 500.0 { band := Low; }
        else if value > 1.2 * 500.0 { band := High; }
        else { band := Medium; }
      }
      summary := summary[key := Advice(band, value)];
      assert Dimensions[..i + 1] == Dimensions[..i] + [key];
    }
    assert Dimensions[..|Dimensions|] == Dimensions;
    DimensionsCoverAll();
    assert summary.Keys == AllDimensions;
  }

  // ------------------------------------------------------------ /manual-nutrition

  /** The `quantity` member of the request: absent, a JSON number, or anything else (null, text). */
  datatype QuantityField = QuantityAbsent | QuantityNumber(q: real) | QuantityOther

  /** The parsed JSON body; `unit` absent is None. */
  datatype ManualBody = ManualBody(foodName: Option<string>, quantity: QuantityField, unit: Option<string>)

  /** The 200 answer of /manual-nutrition. */
  datatype ManualResult = ManualResult(
    foodName: string,
    quantity: real,
    unit: string,
    nutrition: NutritionMap,
    total: NutritionMap,
    summary: Summary,
    source: string)

  /**
   * manual_nutrition. No body or no food name is a 400. The quantity
   * defaults to 100 and the unit to grams; a quantity that is not a number,
   * or a record without all four keys, raises and is a 500. Otherwise the
   * totals are the record scaled with Python's rounding, and the summary is
   * that of the unscaled record.
   */
  function ManualNutrition(body: Option<ManualBody>, nix: Lookup, ai: Lookup): (r: ApiResponse<ManualResult>)
    ensures (body.None? || body.value.foodName.None?) ==> r == Error(400, "Food name is required")
    ensures r.Error? && r.status != 400 ==> r == Error(500, "Failed to calculate nutrition information")
    ensures body.Some? && body.value.foodName.Some? ==>
      && (r.Ok? <==> !body.value.quantity.QuantityOther? && Complete(NutritionFor(body.value.foodName.value, nix, ai)))
      && (r.Error? ==> r.status == 500)
    ensures r.Ok? ==>
      && body.Some? && body.value.foodName == Some(r.body.foodName)
      && r.body.nutrition == NutritionFor(r.body.foodName, nix, ai)
      && Complete(r.body.nutrition)
      && r.body.quantity == (if body.value.quantity.QuantityNumber? then body.value.quantity.q else 100.0)
      && r.body.unit == (if body.value.unit.Some? then body.value.unit.value else "grams")
      && r.body.total == ScalePy(r.body.nutrition, PyMultiplier(r.body.unit, r.body.quantity))
      && r.body.summary == Summarise(r.body.nutrition)
      && r.body.source == (if nix(r.body.foodName) != map[] then "nutritionix" else "cohere_ai")
  {
    if body.None? || body.value.foodName.None? then Error(400, "Food name is required")
    else
      var name := body.value.foodName.value;
      var unit := if body.value.unit.Some? then body.value.unit.value else "grams";
      var info := NutritionFor(name, nix, ai);
      var source := if nix(name) != map[] then "nutritionix" else "cohere_ai";
      var quantity := match body.value.quantity case QuantityNumber(q) => q case _ => 100.0;
      if body.value.quantity.QuantityOther? || !Complete(info) then Error(500, "Failed to calculate nutrition information")
      else Ok(ManualResult(name, quantity, unit, info, ScalePy(info, PyMultiplier(unit, quantity)), Summarise(info), source))
  }

  /** The summary does not depend on the quantity or the unit asked for. */
  lemma SummaryIgnoresQuantity(b1: ManualBody, b2: ManualBody, nix: Lookup, ai: Lookup)
    requires b1.foodName == b2.foodName
    requires ManualNutrition(Some(b1), nix, ai).Ok? && ManualNutrition(Some(b2), nix, ai).Ok?
    ensures ManualNutrition(Some(b1), nix, ai).body.summary == ManualNutrition(Some(b2), nix, ai).body.summary
  {
  }

  /** A quantity that is not a number makes the multiplication raise: the generic 500. */
  lemma ManualNonNumericFails(name: string, unit: Option<string>, nix: Lookup, ai: Lookup)
    ensures ManualNutrition(Some(ManualBody(Some(name), QuantityOther, unit)), nix, ai)
         == Error(500, "Failed to calculate nutrition information")
  {
  }

  /** With the defaults, 100 grams, a record that is already rounded comes back as its own total. */
  lemma ManualDefaultsKeepRecord(name: string, nix: Lookup, ai: Lookup)
    requires var n := NutritionFor(name, nix, ai);
      Complete(n) && IsWhole(n[Calories]) && forall d :: d in n && d != Calories ==> IsTenth(n[d])
    ensures var r := ManualNutrition(Some(ManualBody(Some(name), QuantityAbsent, None)), nix, ai);
      r.Ok? && r.body.total == r.body.nutrition
  {
    UnitScaleKeepsRounded(NutritionFor(name, nix, ai), "grams");
  }

  /** A complete record and a numeric quantity always get an answer. */
  lemma ManualSucceeds(name: string, q: real, unit: Option<string>, nix: Lookup, ai: Lookup)
    requires Complete(NutritionFor(name, nix, ai))
    ensures ManualNutrition(Some(ManualBody(Some(name), QuantityNumber(q), unit)), nix, ai).Ok?
  {
  }

  // ------------------------------------------------------------ /food-suggestions

  /** One item of the instant-search answer; each member may be missing. */
  datatype SearchItem = SearchItem(
    foodName: Option<string>,
    brandName: Option<string>,
    calories: Option<real>,
    servingUnit: Option<string>,
    servingQty: Option<real>)

  /** The instant-search call: it raised, or it answered with optional common and branded lists. */
  datatype SearchOutcome = SearchFailed | SearchOk(common: Option<seq<SearchItem>>, branded: Option<seq<SearchItem>>)

  /** The answer of /food-suggestions: the empty pair for an empty query, or a suggestion list. */
  datatype SuggestionsResponse = CommonBranded | SuggestionList(suggestions: seq<Suggestion>)

  /** At most the first ten entries, as `[:10]`. */
  function FirstTen(items: seq<SearchItem>): (r: seq<SearchItem>)
    ensures |r| <= 10 && |r| <= |items| && r == items[..|r|]
    ensures |r| == if |items| < 10 then |items| else 10
  {
    if |items| <= 10 then items else items[..10]
  }

  /** The items of an optional list that are read: none when the list is absent. */
  function Taken(list: Option<seq<SearchItem>>): seq<SearchItem>
  {
    if list.Some? then FirstTen(list.value) else []
  }

  /** A suggestion built from an item that has a name; `branded` adds the brand, "" when missing. */
  function ToSuggestion(item: SearchItem, branded: bool): Suggestion
    requires item.foodName.Some?
  {
    Suggestion(
      item.foodName.value,
      if branded then Some(if item.brandName.Some? then item.brandName.value else "") else None,
      if item.calories.Some? then item.calories.value else 0.0,
      if item.servingUnit.Some? then item.servingUnit.value else "",
      if item.servingQty.Some? then item.servingQty.value else 1.0)
  }

  predicate AllNamed(items: seq<SearchItem>)
  {
    forall i :: 0 <= i < |items| ==> items[i].foodName.Some?
  }

  /** The suggestions built from a list of named items, in order. */
  function Suggestions(items: seq<SearchItem>, branded: bool): (r: seq<Suggestion>)
    requires AllNamed(items)
    ensures |r| == |items|
  {
    if |items| == 0 then []
    else Suggestions(items[..|items| - 1], branded) + [ToSuggestion(items[|items| - 1], branded)]
  }

  lemma {:induction false} SuggestionsAt(items: seq<SearchItem>, branded: bool, i: nat)
    requires AllNamed(items) && i < |items|
    ensures Suggestions(items, branded)[i] == ToSuggestion(items[i], branded)
  {
    if i < |items| - 1 {
      SuggestionsAt(items[..|items| - 1], branded, i);
    }
  }

  /** One of the two append loops: it raises (None) at the first item without a name. */
  method AppendSuggestions(suggestions: seq<Suggestion>, items: seq<SearchItem>, branded: bool)
    returns (r: Option<seq<Suggestion>>)
    ensures AllNamed(items) ==> r == Some(suggestions + Suggestions(items, branded))
    ensures !AllNamed(items) ==> r == None
  {
    var acc := suggestions;
    for i := 0 to |items|
      invariant AllNamed(items[..i])
      invariant acc == suggestions + Suggestions(items[..i], branded)
    {
      if items[i].foodName.None? {
        return None;
      }
      assert items[..i + 1][..i] == items[..i];
      acc := acc + [ToSuggestion(items[i], branded)];
    }
    assert items[..|items|] == items;
    return Some(acc);
  }

  /**
   * food_suggestions: an empty query answers the empty common/branded pair;
   * a failed search, or an item without a name, the empty list; otherwise at
   * most ten common items, then at most ten branded ones.
   */
  method FoodSuggestions(query: string, search: SearchOutcome) returns (r: SuggestionsResponse)
    ensures query == "" ==> r == CommonBranded
    ensures query != "" && search.SearchFailed? ==> r == SuggestionList([])
    ensures query != "" && search.SearchOk? ==>
      var common, branded := Taken(search.common), Taken(search.branded);
      r == if AllNamed(common) && AllNamed(branded)
           then SuggestionList(Suggestions(common, false) + Suggestions(branded, true))
           else SuggestionList([])
  {
    if query == "" {
      return CommonBranded;
    }
    if search.SearchFailed? {
      return SuggestionList([]);
    }
    var suggestions: seq<Suggestion> := [];
    if search.common.Some? {
      var res := AppendSuggestions(suggestions, FirstTen(search.common.value), false);
      if res.None? {
        return SuggestionList([]);
      }
      suggestions := res.value;
    }
    if search.branded.Some? {
      var res := AppendSuggestions(suggestions, FirstTen(search.branded.value), true);
      if res.None? {
        return SuggestionList([]);
      }
      suggestions := res.value;
    }
    return SuggestionList(suggestions);
  }

  /** The list: at most twenty entries, the common ones first, every default filled in. */
  lemma SuggestionListShape(common: seq<SearchItem>, branded: seq<SearchItem>)
    requires AllNamed(Taken(Some(common))) && AllNamed(Taken(Some(branded)))
    ensures var tc, tb := Taken(Some(common)), Taken(Some(branded));
      var list := Suggestions(tc, false) + Suggestions(tb, true);
      && |list| <= 20
      && |tc| == (if |common| < 10 then |common| else 10)
      && (forall i :: 0 <= i < |tc| ==> list[i] == ToSuggestion(common[i], false) && list[i].brandName.None?)
      && (forall j :: 0 <= j < |tb| ==> list[|tc| + j] == ToSuggestion(branded[j], true) && list[|tc| + j].brandName.Some?)
  {
    var tc, tb := Taken(Some(common)), Taken(Some(branded));
    forall i | 0 <= i < |tc| ensures (Suggestions(tc, false) + Suggestions(tb, true))[i] == ToSuggestion(common[i], false) {
      SuggestionsAt(tc, false, i);
    }
    forall j | 0 <= j < |tb| ensures (Suggestions(tc, false) + Suggestions(tb, true))[|tc| + j] == ToSuggestion(branded[j], true) {
      SuggestionsAt(tb, true, j);
    }
  }

  /** A common item with nothing but a name gets 0 kcal, no unit and a serving of 1. */
  lemma SuggestionDefaults(name: string)
    ensures ToSuggestion(SearchItem(Some(name), None, None, None, None), false) == Suggestion(name, None, 0.0, "", 1.0)
    ensures ToSuggestion(SearchItem(Some(name), None, None, None, None), true) == Suggestion(name, Some(""), 0.0, "", 1.0)
  {
  }

  // ------------------------------------------------------------ /predict

  /** The multipart request: the uploaded file's name, and the food_type form field. */
  datatype PredictRequest = PredictRequest(image: Option<string>, foodType: Option<string>)

  /** The 200 answer of /predict. */
  datatype PredictResult = PredictResult(food: string, kind: string, nutrition: NutritionMap, summary: Summary)

  /** The classifiers' inputs, handed in: the YOLO model and its inference outcome, the Roboflow client and its runs. */
  datatype Classifiers = Classifiers(
    yoloLoaded: bool,
    names: map<int, string>,
    inference: Yolo.Inference,
    roboflowConfigured: bool,
    runs: seq<IndianVote.RunOutcome>)

  /** The food the Indian branch reports: the vote's winner when there is one and its name is not empty, "Unknown" otherwise. */
  ghost function IndianFood(models: Classifiers): (food: string)
    ensures food != ""
    ensures !models.roboflowConfigured || IndianVote.AllVotes(models.runs) == [] ==> food == "Unknown"
  {
    var w := if models.roboflowConfigured then IndianVote.Winner(IndianVote.AllVotes(models.runs)) else None;
    if w.Some? && w.value != "" then w.value else "Unknown"
  }

  /** The Indian branch names a food someone voted for at least twice, or "Unknown". */
  lemma IndianFoodWasVoted(models: Classifiers)
    ensures IndianFood(models) == "Unknown" || IndianVote.VotedTwice(IndianVote.AllVotes(models.runs), IndianFood(models))
  {
    IndianVote.WinnerWasVoted(IndianVote.AllVotes(models.runs));
  }

  /** The food the chosen classifier names: YOLO's top class, or the Indian vote's winner ("Unknown" when there is none). */
  method Classify(foodType: string, models: Classifiers) returns (food: string, kind: string)
    requires foodType == "international" || foodType == "indian"
    ensures kind == if foodType == "international" then "International" else "Indian"
    ensures kind == "Indian" && (!models.roboflowConfigured || IndianVote.AllVotes(models.runs) == []) ==> food == "Unknown"
    ensures kind == "Indian" ==> food == IndianFood(models)
    ensures kind == "International" &&
            (!models.yoloLoaded || models.inference.InferenceFailed? ||
             Yolo.Relevant(Yolo.Detections(models.names, Yolo.Flatten(models.inference.results))) == []) ==>
      food == "Unknown"
    ensures kind == "International" && models.yoloLoaded && models.inference.Inferred? &&
            Yolo.Relevant(Yolo.Detections(models.names, Yolo.Flatten(models.inference.results))) != [] ==>
      Yolo.IsTopClass(Yolo.Relevant(Yolo.Detections(models.names, Yolo.Flatten(models.inference.results))), food)
  {
    if foodType == "international" {
      var result := Yolo.RunYolo(models.yoloLoaded, models.names, models.inference);
      food, kind := result.food, "International";
    } else {
      var indian := IndianVote.RunIndianWorkflows(models.roboflowConfigured, models.runs);
      assert indian.Some? <==> models.roboflowConfigured && IndianVote.Winner(IndianVote.AllVotes(models.runs)).Some?;
      if indian.Some? && indian.value.0 != "" {
        food := indian.value.0;
      } else {
        food := "Unknown";
      }
      kind := "Indian";
    }
  }

  /**
   * predict: the upload checks in order (file and field present, file name
   * not empty, food type known), then the chosen classifier, the nutrition
   * lookup with its AI fallback, and the summary of that record.
   */
  method Predict(req: PredictRequest, models: Classifiers, nix: Lookup, ai: Lookup) returns (r: ApiResponse<PredictResult>)
    ensures req.image.None? || req.foodType.None? ==> r == Error(400, "No image uploaded or food_type missing")
    ensures req.image == Some("") && req.foodType.Some? ==> r == Error(400, "No file selected")
    ensures req.image.Some? && req.image.value != "" && req.foodType.Some?
            && Names.Lower(req.foodType.value) != "international" && Names.Lower(req.foodType.value) != "indian" ==>
      r == Error(400, "Invalid food_type. Choose 'Indian' or 'International'.")
    ensures r.Ok? ==>
      && req.image.Some? && req.image.value != "" && req.foodType.Some?
      && r.body.kind == (if Names.Lower(req.foodType.value) == "international" then "International" else "Indian")
      && Names.Lower(req.foodType.value) in {"international", "indian"}
      && r.body.nutrition == NutritionFor(r.body.food, nix, ai)
      && r.body.summary == Summarise(r.body.nutrition)
    ensures req.image.Some? && req.image.value != "" && req.foodType.Some?
            && Names.Lower(req.foodType.value) in {"international", "indian"} ==>
      r.Ok?
    ensures r.Ok? && r.body.kind == "Indian" && (!models.roboflowConfigured || IndianVote.AllVotes(models.runs) == []) ==>
      r.body.food == "Unknown"
    ensures r.Ok? && r.body.kind == "Indian" ==> r.body.food == IndianFood(models)
    ensures r.Ok? && r.body.kind == "International" &&
            (!models.yoloLoaded || models.inference.InferenceFailed? ||
             Yolo.Relevant(Yolo.Detections(models.names, Yolo.Flatten(models.inference.results))) == []) ==>
      r.body.food == "Unknown"
    ensures r.Ok? && r.body.kind == "International" && models.yoloLoaded && models.inference.Inferred? &&
            Yolo.Relevant(Yolo.Detections(models.names, Yolo.Flatten(models.inference.results))) != [] ==>
      Yolo.IsTopClass(Yolo.Relevant(Yolo.Detections(models.names, Yolo.Flatten(models.inference.results))), r.body.food)
  {
    if req.image.None? || req.foodType.None? {
      return Error(400, "No image uploaded or food_type missing");
    }
    var foodType := Names.Lower(req.foodType.value);
    if req.image.value == "" {
      return Error(400, "No file selected");
    }
    if foodType != "international" && foodType != "indian" {
      return Error(400, "Invalid food_type. Choose 'Indian' or 'International'.");
    }
    var food, kind := Classify(foodType, models);
    var nutrition := nix(food);
    if nutrition == map[] {
      nutrition := ai(food);
    }
    var summary := GenerateNutritionSummary(nutrition);
    return Ok(PredictResult(food, kind, nutrition, summary));
  }
}
