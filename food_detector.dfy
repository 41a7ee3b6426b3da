/**
 * The FoodDetector component's state and handlers: choosing an image, the
 * analyze handler that scales the returned nutrition to the chosen quantity
 * and attaches the absolute-band summary, and the reset handler.
 */
module Detector {
  import opened Wrappers
  import opened Nutrition
  import opened JsText
  import opened Rounding
  import opened Scaling
  import DetectorSummary
  import TargetSummary

  /** The image the user picked: its file name and MIME type. */
  datatype ImageFile = ImageFile(name: string, mimeType: string)

  /** The `summary` member of a `/predict` answer: the server's, or the one the client puts in its place. */
  datatype SummaryField =
    | NoSummary
    | ServerSummary(advice: TargetSummary.Summary)
    | ClientSummary(sentences: DetectorSummary.Summary)

  /** The JSON object `/predict` answers with, as far as the component reads or writes it. */
  datatype PredictResponse = PredictResponse(
    food: Option<string>,
    kind: Option<string>,
    nutrition: Option<JsNutrition>,
    error: Option<string>,
    summary: SummaryField,
    quantity: Option<string>,
    unit: Option<string>)

  /** What the request produced: a parsed answer, or a rejected fetch or unparsable body. */
  datatype PredictFetch = Responded(data: PredictResponse) | FetchFailed

  /** The object stored when the request throws. */
  const FailedResponse: PredictResponse :=
    PredictResponse(None, None, None, Some("Failed to get prediction"), NoSummary, None, None)

  /** `data.error` is truthy: present and not the empty string. */
  predicate HasError(data: PredictResponse)
  {
    data.error.Some? && data.error.value != ""
  }

  /** `data.nutrition && !data.error`: the guard of the scaling block. */
  predicate Applies(data: PredictResponse)
  {
    data.nutrition.Some? && !HasError(data)
  }

  /**
   * The answer as the component stores it: when the guard holds, the four
   * fields rescaled by the quantity, the quantity and unit stamped on, and the
   * summary replaced by the client's; otherwise the answer itself.
   */
  function Shape(data: PredictResponse, quantity: string, unit: string): (r: PredictResponse)
    ensures !Applies(data) ==> r == data
    ensures Applies(data) ==>
      && r.nutrition == Some(ScaleJs(data.nutrition.value, JsMultiplier(unit, ParseFloat(quantity))))
      && r.nutrition.value.Keys == AllDimensions
      && r.summary == ClientSummary(DetectorSummary.GenerateSummary(r.nutrition.value))
      && r.quantity == Some(quantity)
      && r.unit == Some(unit)
      && r.food == data.food && r.kind == data.kind && r.error == data.error
  {
    if Applies(data) then
      var scaled := ScaleJs(data.nutrition.value, JsMultiplier(unit, ParseFloat(quantity)));
      data.(nutrition := Some(scaled),
            summary := ClientSummary(DetectorSummary.GenerateSummary(scaled)),
            quantity := Some(quantity),
            unit := Some(unit))
    else data
  }

  /** The result slot after an analysis. */
  function Outcome(fetched: PredictFetch, quantity: string, unit: string): PredictResponse
  {
    match fetched
    case FetchFailed => FailedResponse
    case Responded(data) => Shape(data, quantity, unit)
  }

  /** A quantity parseFloat cannot read (empty, or not a number) turns every field into NaN and every band into high. */
  lemma UnreadableQuantityReadsHigh(data: PredictResponse, quantity: string, unit: string)
    requires Applies(data)
    requires ParseFloat(quantity) == NaN
    ensures var r := Shape(data, quantity, unit);
      && (forall d :: d in r.nutrition.value ==> r.nutrition.value[d] == NaN)
      && (forall d :: d in r.summary.sentences ==> r.summary.sentences[d].band == High)
  {
    var r := Shape(data, quantity, unit);
    assert JsMultiplier(unit, ParseFloat(quantity)) == NaN;
    forall d | d in r.nutrition.value ensures r.nutrition.value[d] == NaN {
      assert Mul(Field(data.nutrition.value, d), NaN) == NaN;
    }
    DetectorSummary.UndefinedReadsHigh(r.nutrition.value);
  }

  /** The defaults, one item, leave a record whose calories are whole and macros in tenths as it was. */
  lemma DefaultQuantityKeepsRecord(data: PredictResponse, base: NutritionMap)
    requires Applies(data)
    requires data.nutrition.value == Lift(base)
    requires Complete(base)
    requires IsWhole(base[Calories])
    requires forall d :: d in base && d != Calories ==> IsTenth(base[d])
    ensures Shape(data, "1", "count").nutrition == Some(Lift(base))
  {
    OneCoercion();
    UnitScaleKeepsRounded(base, "count");
  }

  /** The client summary of 375 kcal, 12 g protein, 7.5 g fat, 30 g carbs: medium, medium, low, medium. */
  lemma ExampleBands()
    ensures var s := DetectorSummary.GenerateSummary(Lift(map[Calories := 375.0, Protein := 12.0, Fat := 7.5, Carbs := 30.0]));
      && s[Calories].band == Medium && s[Protein].band == Medium
      && s[Fat].band == Low && s[Carbs].band == Medium
  {
    var n := Lift(map[Calories := 375.0, Protein := 12.0, Fat := 7.5, Carbs := 30.0]);
    assert Field(n, Calories) == Fin(375.0);
    assert Field(n, Protein) == Fin(12.0);
    assert Field(n, Fat) == Fin(7.5);
    assert Field(n, Carbs) == Fin(30.0);
  }

  /** 250 kcal, 8 g protein, 5 g fat, 20 g carbs per 100 g, at 150 grams: 375 / 12 / 7.5 / 30, bands medium, medium, low, medium. */
  lemma AnalyzeExample(data: PredictResponse)
    requires Applies(data)
    requires data.nutrition.value == Lift(map[Calories := 250.0, Protein := 8.0, Fat := 5.0, Carbs := 20.0])
    ensures var r := Shape(data, "150", "grams");
      && r.nutrition == Some(Lift(map[Calories := 375.0, Protein := 12.0, Fat := 7.5, Carbs := 30.0]))
      && r.summary.sentences[Calories].band == Medium
      && r.summary.sentences[Protein].band == Medium
      && r.summary.sentences[Fat].band == Low
      && r.summary.sentences[Carbs].band == Medium
  {
    GramsCoercion();
    GramsExample();
    ExampleBands();
  }

  /**
   * The four assignments of the scaling block, applied one after the other to
   * the nutrition object: each reads its field before overwriting it, so the
   * result is the record-wide rescaling.
   */
  method RescaleInPlace(nutrition: JsNutrition, m: Num) returns (n: JsNutrition)
    ensures n == ScaleJs(nutrition, m)
  {
    n := nutrition;
    n := n[Calories := RoundNum(Mul(Field(n, Calories), m))];
    n := n[Protein := RoundTenthNum(Mul(Field(n, Protein), m))];
    n := n[Fat := RoundTenthNum(Mul(Field(n, Fat), m))];
    n := n[Carbs := RoundTenthNum(Mul(Field(n, Carbs), m))];
    DimensionsCoverAll();
    assert n.Keys == AllDimensions;
    forall d | d in AllDimensions ensures n[d] == ScaleJs(nutrition, m)[d] {
    }
  }

  /** The FoodDetector component's state slots. */
  class FoodDetector {
    var selectedFile: Option<ImageFile>
    var preview: Option<string>
    var result: Option<PredictResponse>
    var loading: bool
    var foodType: string
    var quantity: string
    var unit: string

    /** The initial state: nothing chosen, international food, one item. */
    constructor ()
      ensures selectedFile == None && preview == None && result == None && !loading
      ensures foodType == "international" && quantity == "1" && unit == "count"
    {
      selectedFile := None;
      preview := None;
      result := None;
      loading := false;
      foodType := "international";
      quantity := "1";
      unit := "count";
    }

    /** handleFileChange: keep the file, drop the old result; the preview is the file's data URL, or nothing. */
    method HandleFileChange(file: Option<ImageFile>, dataUrl: string)
      modifies this
      ensures selectedFile == file && result == None
      ensures preview == if file.Some? then Some(dataUrl) else None
      ensures loading == old(loading) && foodType == old(foodType)
      ensures quantity == old(quantity) && unit == old(unit)
    {
      selectedFile := file;
      result := None;
      if file.Some? {
        preview := Some(dataUrl);
      } else {
        preview := None;
      }
    }

    /** handleDrop: only a dropped file whose MIME type starts with `image/` is taken. */
    method HandleDrop(file: Option<ImageFile>, dataUrl: string)
      modifies this
      ensures file.Some? && "image/" <= file.value.mimeType ==>
        selectedFile == file && result == None && preview == Some(dataUrl)
      ensures !(file.Some? && "image/" <= file.value.mimeType) ==> unchanged(this)
      ensures loading == old(loading) && foodType == old(foodType)
      ensures quantity == old(quantity) && unit == old(unit)
    {
      if file.Some? && "image/" <= file.value.mimeType {
        HandleFileChange(file, dataUrl);
      }
    }

    /** The food-type select. */
    method SetFoodType(value: string)
      modifies this
      ensures foodType == value
      ensures selectedFile == old(selectedFile) && preview == old(preview) && result == old(result)
      ensures loading == old(loading) && quantity == old(quantity) && unit == old(unit)
    {
      foodType := value;
    }

    /** The quantity field, taken as typed: nothing validates it. */
    method SetQuantity(value: string)
      modifies this
      ensures quantity == value
      ensures selectedFile == old(selectedFile) && preview == old(preview) && result == old(result)
      ensures loading == old(loading) && foodType == old(foodType) && unit == old(unit)
    {
      quantity := value;
    }

    /** The unit select. */
    method SetUnit(value: string)
      modifies this
      ensures unit == value
      ensures selectedFile == old(selectedFile) && preview == old(preview) && result == old(result)
      ensures loading == old(loading) && foodType == old(foodType) && quantity == old(quantity)
    {
      unit := value;
    }

    /**
     * handleAnalyze: without a file it only alerts. Otherwise the answer is
     * rewritten in place, field by field, when it carries nutrition and no
     * error, and stored; a failed request stores the fixed error object.
     */
    method HandleAnalyze(fetched: PredictFetch) returns (alerted: bool)
      modifies this
      ensures alerted <==> old(selectedFile).None?
      ensures alerted ==> unchanged(this)
      ensures !alerted ==>
        && result == Some(Outcome(fetched, old(quantity), old(unit)))
        && !loading
        && selectedFile == old(selectedFile) && preview == old(preview)
        && foodType == old(foodType) && quantity == old(quantity) && unit == old(unit)
    {
      if selectedFile.None? {
        return true;
      }
      alerted := false;
      loading := true;
      result := None;
      match fetched {
        case FetchFailed =>
          result := Some(FailedResponse);
        case Responded(data) =>
          if data.nutrition.Some? && !HasError(data) {
            var n := RescaleInPlace(data.nutrition.value, JsMultiplier(unit, ParseFloat(quantity)));
            var shaped := data.(nutrition := Some(n), quantity := Some(quantity), unit := Some(unit));
            shaped := shaped.(summary := ClientSummary(DetectorSummary.GenerateSummary(n)));
            result := Some(shaped);
          } else {
            result := Some(data);
          }
      }
      loading := false;
    }

    /** handleReset: file, preview and result cleared, one item again; the food type stays. */
    method HandleReset()
      modifies this
      ensures selectedFile == None && preview == None && result == None && !loading
      ensures quantity == "1" && unit == "count"
      ensures foodType == old(foodType)
    {
      selectedFile := None;
      preview := None;
      result := None;
      loading := false;
      quantity := "1";
      unit := "count";
    }
  }
}
