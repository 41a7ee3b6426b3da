/** The data model shared by the NutriScope frontend and backend. */
module Nutrition {
  import opened Wrappers
  import opened JsText

  /** The four macro dimensions, keyed in JSON as calories, protein_g, fat_g, carbs_g. */
  datatype Dimension = Calories | Protein | Fat | Carbs

  /** The fixed order in which every summary visits the dimensions. */
  const Dimensions: seq<Dimension> := [Calories, Protein, Fat, Carbs]

  /** The set of all four dimensions: the keys of every complete summary. */
  const AllDimensions: set<Dimension> := {Calories, Protein, Fat, Carbs}

  /** The advisory band a summary sentence is chosen by (low, medium/moderate, high). */
  datatype Band = Low | Medium | High

  /** A nutrition record as the backend holds it: a dictionary that may lack keys. */
  type NutritionMap = map<Dimension, real>

  /** True when the record has all four keys, as a Nutritionix answer always has. */
  predicate Complete(n: NutritionMap)
  {
    Calories in n && Protein in n && Fat in n && Carbs in n
  }

  /** A nutrition object as the browser holds it: each field a JavaScript number, or absent. */
  type JsNutrition = map<Dimension, Num>

  /** `nutrition.<key>` in JavaScript: an absent key reads as undefined, which behaves as NaN. */
  function Field(n: JsNutrition, d: Dimension): Num
  {
    if d in n then n[d] else NaN
  }

  /** An autocomplete entry as `/food-suggestions` returns it. */
  datatype Suggestion = Suggestion(
    foodName: string,
    brandName: Option<string>,
    calories: real,
    servingUnit: string,
    servingQty: real)

  lemma DimensionsCoverAll()
    ensures forall d: Dimension :: d in Dimensions && d in AllDimensions
    ensures |Dimensions| == 4
  {
    forall d: Dimension ensures d in Dimensions && d in AllDimensions {
      match d
      case Calories => assert Dimensions[0] == d;
      case Protein => assert Dimensions[1] == d;
      case Fat => assert Dimensions[2] == d;
      case Carbs => assert Dimensions[3] == d;
    }
  }
}
