/**
 * The image flow's absolute-band summariser and calorie colouring
 * (generateSummary and getNutritionColor of the FoodDetector component).
 */
module DetectorSummary {
  import opened Nutrition
  import opened JsText

  /** One advisory sentence: the band that picks its template and the value it interpolates. */
  datatype Sentence = Sentence(band: Band, value: Num)

  /** The summary object: one sentence per macro key. */
  type Summary = map<Dimension, Sentence>

  /** The lowest value of the medium band. */
  function LowCut(d: Dimension): real
  {
    match d
    case Calories => 300.0
    case Protein => 10.0
    case Fat => 10.0
    case Carbs => 30.0
  }

  /** The highest value of the medium band. */
  function HighCut(d: Dimension): real
  {
    match d
    case Calories => 600.0
    case Protein => 30.0
    case Fat => 25.0
    case Carbs => 70.0
  }

  /** The band a value falls in; both cut-offs belong to the medium band, and NaN falls through to high. */
  function BandOf(d: Dimension, v: Num): (b: Band)
    ensures b == Low <==> v.Fin? && v.v < LowCut(d)
    ensures b == Medium <==> v.Fin? && LowCut(d) <= v.v <= HighCut(d)
    ensures b == High <==> v.NaN? || v.v > HighCut(d)
  {
    if Lt(v, LowCut(d)) then Low
    else if Le(v, HighCut(d)) then Medium
    else High
  }

  /** The sentence for calories: `< 300`, `<= 600`, else high. */
  function CaloriesSentence(v: Num): Sentence
  {
    if Lt(v, 300.0) then Sentence(Low, v)
    else if Le(v, 600.0) then Sentence(Medium, v)
    else Sentence(High, v)
  }

  /** The sentence for protein: `< 10`, `<= 30`, else high. */
  function ProteinSentence(v: Num): Sentence
  {
    if Lt(v, 10.0) then Sentence(Low, v)
    else if Le(v, 30.0) then Sentence(Medium, v)
    else Sentence(High, v)
  }

  /** The sentence for fat: `< 10`, `<= 25`, else high. */
  function FatSentence(v: Num): Sentence
  {
    if Lt(v, 10.0) then Sentence(Low, v)
    else if Le(v, 25.0) then Sentence(Medium, v)
    else Sentence(High, v)
  }

  /** The sentence for carbohydrates: `< 30`, `<= 70`, else high. */
  function CarbsSentence(v: Num): Sentence
  {
    if Lt(v, 30.0) then Sentence(Low, v)
    else if Le(v, 70.0) then Sentence(Medium, v)
    else Sentence(High, v)
  }

  /**
   * generateSummary: exactly the four keys, each set once, each sentence
   * chosen by the band of its own value and interpolating that value.
   */
  function GenerateSummary(n: JsNutrition): (s: Summary)
    ensures s.Keys == AllDimensions
    ensures forall d :: d in s ==> s[d] == Sentence(BandOf(d, Field(n, d)), Field(n, d))
  {
    map[Calories := CaloriesSentence(Field(n, Calories)),
        Protein := ProteinSentence(Field(n, Protein)),
        Fat := FatSentence(Field(n, Fat)),
        Carbs := CarbsSentence(Field(n, Carbs))]
  }

  /** Each key's sentence depends on its own value only. */
  lemma SummaryIsPerDimension(n1: JsNutrition, n2: JsNutrition, d: Dimension)
    requires Field(n1, d) == Field(n2, d)
    ensures GenerateSummary(n1)[d] == GenerateSummary(n2)[d]
  {
    assert d in AllDimensions by { DimensionsCoverAll(); }
  }

  /** The calorie boundaries: 280 is low, 300 and 600 are medium, 601 is high. */
  lemma CaloriesBoundaries()
    ensures BandOf(Calories, Fin(280.0)) == Low
    ensures BandOf(Calories, Fin(300.0)) == Medium
    ensures BandOf(Calories, Fin(600.0)) == Medium
    ensures BandOf(Calories, Fin(601.0)) == High
  {
  }

  /** A value that is NaN or absent matches neither comparison, so every key reads as high. */
  lemma UndefinedReadsHigh(n: JsNutrition)
    requires forall d :: Field(n, d) == NaN
    ensures forall d :: d in GenerateSummary(n) ==> GenerateSummary(n)[d].band == High
  {
  }

  /** The colour class of a displayed nutrition value. */
  datatype Colour = NutritionLow | NutritionMedium | NutritionHigh | NutritionNormal

  /** getNutritionColor: only calories are coloured, at 250 and 500 with the upper bound exclusive. */
  function NutritionColour(value: Num, key: string): (c: Colour)
    ensures c == NutritionNormal <==> key != "calories"
    ensures c == NutritionLow <==> key == "calories" && value.Fin? && value.v < 250.0
    ensures c == NutritionMedium <==> key == "calories" && value.Fin? && 250.0 <= value.v < 500.0
    ensures c == NutritionHigh <==> key == "calories" && (value.NaN? || value.v >= 500.0)
  {
    if key == "calories" then
      if Lt(value, 250.0) then NutritionLow
      else if Lt(value, 500.0) then NutritionMedium
      else NutritionHigh
    else NutritionNormal
  }
}
