/**
 * The target-relative summariser, which the manual-entry component and the
 * backend each implement: every value is compared with a per-meal target
 * scaled by a low and a high ratio.
 */
module TargetSummary {
  import opened Nutrition

  /** One advisory sentence: its band and the (defaulted) value it interpolates. */
  datatype Advice = Advice(band: Band, value: real)

  /** The summary object: one sentence per macro key. */
  type Summary = map<Dimension, Advice>

  /** The per-meal target table. */
  function Target(d: Dimension): real
  {
    match d
    case Calories => 500.0
    case Protein => 25.0
    case Fat => 20.0
    case Carbs => 50.0
  }

  /** Below LowRatio(d) * Target(d) a value is low: 0.7 for protein, 0.5 for the rest. */
  function LowRatio(d: Dimension): real
  {
    if d == Protein then 0.7 else 0.5
  }

  /** Above HighRatio(d) * Target(d) a value is high: 1.3 for protein, 1.2 for the rest. */
  function HighRatio(d: Dimension): real
  {
    if d == Protein then 1.3 else 1.2
  }

  /** The value a summary reads for a key: a missing key counts as 0. */
  function ValueOrZero(n: NutritionMap, d: Dimension): real
  {
    if d in n then n[d] else 0.0
  }

  /** The band of a value: exactly one of low, moderate, high applies. */
  function BandOf(d: Dimension, v: real): (b: Band)
    ensures b == Low <==> v < LowRatio(d) * Target(d)
    ensures b == High <==> v > HighRatio(d) * Target(d)
    ensures b == Medium <==> LowRatio(d) * Target(d) <= v <= HighRatio(d) * Target(d)
  {
    if v < LowRatio(d) * Target(d) then Low
    else if v > HighRatio(d) * Target(d) then High
    else Medium
  }

  /** The specification both implementations are proved against. */
  function Summarise(n: NutritionMap): (s: Summary)
    ensures s.Keys == AllDimensions
  {
    map d | d in AllDimensions :: Advice(BandOf(d, ValueOrZero(n, d)), ValueOrZero(n, d))
  }

  /** The cut-offs written out: calories 250/600, protein 17.5/32.5, fat 10/24, carbs 25/60. */
  lemma CutOffs(v: real)
    ensures BandOf(Calories, v) == Low <==> v < 250.0
    ensures BandOf(Calories, v) == High <==> v > 600.0
    ensures BandOf(Protein, v) == Low <==> v < 17.5
    ensures BandOf(Protein, v) == High <==> v > 32.5
    ensures BandOf(Fat, v) == Low <==> v < 10.0
    ensures BandOf(Fat, v) == High <==> v > 24.0
    ensures BandOf(Carbs, v) == Low <==> v < 25.0
    ensures BandOf(Carbs, v) == High <==> v > 60.0
  {
  }

  /** Protein 0 is low, 25 moderate, 40 high. */
  lemma ProteinExamples()
    ensures BandOf(Protein, 0.0) == Low
    ensures BandOf(Protein, 25.0) == Medium
    ensures BandOf(Protein, 40.0) == High
  {
  }

  /** A missing key is summarised as a low value of 0. */
  lemma MissingKeyIsLowZero(n: NutritionMap, d: Dimension)
    requires d !in n
    ensures Summarise(n)[d] == Advice(Low, 0.0)
  {
    assert d in AllDimensions by { DimensionsCoverAll(); }
  }
}
