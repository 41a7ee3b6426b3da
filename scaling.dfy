/**
 * Quantity scaling. The multiplier is the quantity for `count` and a hundredth
 * of it otherwise (the base record is per item or per 100 g). The client
 * (FoodDetector's analyze handler) rounds with Math.round, the server
 * (manual_nutrition) with Python's round.
 */
module Scaling {
  import opened Nutrition
  import opened JsText
  import opened Rounding

  /** `unit === 'count' ? parseFloat(quantity) : parseFloat(quantity) / 100`. */
  function JsMultiplier(unit: string, quantity: Num): (m: Num)
    ensures m.Fin? <==> quantity.Fin?
    ensures m.Fin? && unit == "count" ==> m.v == quantity.v
    ensures m.Fin? && unit != "count" ==> m.v * 100.0 == quantity.v
  {
    if unit == "count" then quantity else Div(quantity, 100.0)
  }

  /** `unit == "count" and quantity or quantity / 100`: a quantity of 0 falls to the second arm, which is 0 too. */
  function PyMultiplier(unit: string, quantity: real): (m: real)
    ensures m == if unit == "count" then quantity else quantity / 100.0
  {
    if unit == "count" && quantity != 0.0 then quantity else quantity / 100.0
  }

  /** True when x is an integer. */
  predicate IsWhole(x: real)
  {
    x.Floor as real == x
  }

  /** One scaled field on the client: `Math.round(p)` for calories, `Math.round(p * 10) / 10` otherwise. */
  function RoundFieldJs(d: Dimension, p: Num): (r: Num)
    ensures r.Fin? <==> p.Fin?
    ensures r.Fin? && d == Calories ==> IsWhole(r.v) && r.v - 0.5 <= p.v < r.v + 0.5
    ensures r.Fin? && d != Calories ==> IsTenth(r.v) && r.v - 0.05 <= p.v < r.v + 0.05
  {
    if d == Calories then RoundNum(p) else RoundTenthNum(p)
  }

  /** One scaled field on the server: `round(p)` for calories, `round(p, 1)` otherwise. */
  function RoundFieldPy(d: Dimension, p: real): (r: real)
    ensures d == Calories ==> IsWhole(r) && r - 0.5 <= p <= r + 0.5
    ensures d != Calories ==> IsTenth(r) && r - 0.05 <= p <= r + 0.05
  {
    if d == Calories then RoundHalfEven(p) as real else PyRoundTenth(p)
  }

  /**
   * The client's in-place rewrite of the four fields; an absent field or a
   * NaN multiplier leaves NaN in that field.
   */
  function ScaleJs(n: JsNutrition, m: Num): (r: JsNutrition)
    ensures r.Keys == AllDimensions
    ensures forall d :: d in r ==> (r[d].Fin? <==> Field(n, d).Fin? && m.Fin?)
    ensures forall d :: d in r && r[d].Fin? ==> if d == Calories then IsWhole(r[d].v) else IsTenth(r[d].v)
  {
    map d | d in AllDimensions :: RoundFieldJs(d, Mul(Field(n, d), m))
  }

  /** The server's totals; the four keys are read with [] and must be present. */
  function ScalePy(n: NutritionMap, m: real): (r: NutritionMap)
    requires Complete(n)
    ensures r.Keys == AllDimensions
    ensures forall d :: d in r ==> if d == Calories then IsWhole(r[d]) else IsTenth(r[d])
  {
    map d | d in AllDimensions :: RoundFieldPy(d, n[d] * m)
  }

  /** A server record as the client receives it: every field finite. */
  function Lift(n: NutritionMap): (r: JsNutrition)
    ensures r.Keys == n.Keys
    ensures forall d :: d in n ==> r[d] == Fin(n[d])
  {
    map d | d in n :: Fin(n[d])
  }

  /** 250 kcal, 8 g protein, 5 g fat, 20 g carbs per 100 g, at 150 g: 375 / 12 / 7.5 / 30 on both sides. */
  lemma GramsExample()
    ensures var base := map[Calories := 250.0, Protein := 8.0, Fat := 5.0, Carbs := 20.0];
      && ScaleJs(Lift(base), JsMultiplier("grams", Fin(150.0)))
         == Lift(map[Calories := 375.0, Protein := 12.0, Fat := 7.5, Carbs := 30.0])
      && ScalePy(base, PyMultiplier("grams", 150.0))
         == map[Calories := 375.0, Protein := 12.0, Fat := 7.5, Carbs := 30.0]
  {
    JsRoundUnique(375.0, 375);
    JsRoundUnique(120.0, 120);
    JsRoundUnique(75.0, 75);
    JsRoundUnique(300.0, 300);
    RoundingFixesRounded(375);
    RoundingFixesRounded(120);
    RoundingFixesRounded(75);
    RoundingFixesRounded(300);
  }

  /** The same food as two items: 500 / 16 / 10 / 40. */
  lemma CountExample()
    ensures var base := map[Calories := 250.0, Protein := 8.0, Fat := 5.0, Carbs := 20.0];
      ScaleJs(Lift(base), JsMultiplier("count", Fin(2.0)))
      == Lift(map[Calories := 500.0, Protein := 16.0, Fat := 10.0, Carbs := 40.0])
  {
    JsRoundUnique(500.0, 500);
    JsRoundUnique(160.0, 160);
    JsRoundUnique(100.0, 100);
    JsRoundUnique(400.0, 400);
  }

  /** Client and server totals differ on a tie: 5 kcal per item at half an item is 3 on the client, 2 on the server. */
  lemma TieDisagreement()
    ensures var base := map[Calories := 5.0, Protein := 0.0, Fat := 0.0, Carbs := 0.0];
      && ScaleJs(Lift(base), JsMultiplier("count", Fin(0.5)))[Calories] == Fin(3.0)
      && ScalePy(base, PyMultiplier("count", 0.5))[Calories] == 2.0
  {
    TieWitness();
  }

  /** A scaled value p of dimension d is not half-way between two rounding results. */
  predicate NoTie(d: Dimension, p: real)
  {
    if d == Calories then Frac(p) != 0.5 else Frac(p * 10.0) != 0.5
  }

  /** One field: off ties the client's rounding of a product is the server's. */
  lemma {:induction false} FieldAgreesOffTies(d: Dimension, p: real)
    requires NoTie(d, p)
    ensures RoundFieldJs(d, Fin(p)) == Fin(RoundFieldPy(d, p))
  {
    if d == Calories {
      RoundingsAgreeOffTies(p);
    } else {
      RoundingsAgreeOffTies(p * 10.0);
    }
  }

  /** No scaled field of n lands exactly on a rounding tie. */
  predicate OffTies(n: NutritionMap, m: real)
  {
    forall d :: d in n ==> NoTie(d, n[d] * m)
  }

  /** One field of the client's rewrite of a server record. */
  lemma ScaleJsLiftAt(n: NutritionMap, m: real, d: Dimension)
    requires d in n
    ensures ScaleJs(Lift(n), Fin(m))[d] == RoundFieldJs(d, Fin(n[d] * m))
  {
    assert Field(Lift(n), d) == Fin(n[d]);
    assert Mul(Fin(n[d]), Fin(m)) == Fin(n[d] * m);
  }

  /** For a given multiplier, off ties, the client's scaled record is the server's. */
  lemma {:induction false} ScalesAgreeOffTies(n: NutritionMap, m: real)
    requires Complete(n)
    requires OffTies(n, m)
    ensures ScaleJs(Lift(n), Fin(m)) == Lift(ScalePy(n, m))
  {
    var js := ScaleJs(Lift(n), Fin(m));
    var py := Lift(ScalePy(n, m));
    forall d | d in AllDimensions ensures js[d] == py[d] {
      ScaleJsLiftAt(n, m, d);
      FieldAgreesOffTies(d, n[d] * m);
    }
    assert js.Keys == py.Keys;
  }

  /** Off ties the client's rounding and the server's agree, so the two sides compute the same totals. */
  lemma {:induction false} ClientMatchesServerOffTies(n: NutritionMap, unit: string, q: real)
    requires Complete(n)
    requires OffTies(n, PyMultiplier(unit, q))
    ensures ScaleJs(Lift(n), JsMultiplier(unit, Fin(q))) == Lift(ScalePy(n, PyMultiplier(unit, q)))
  {
    assert JsMultiplier(unit, Fin(q)) == Fin(PyMultiplier(unit, q));
    ScalesAgreeOffTies(n, PyMultiplier(unit, q));
  }

  /** One field: rounding a value that is already whole, or already in tenths, gives it back. */
  lemma FieldKeepsRounded(d: Dimension, v: real)
    requires d == Calories ==> IsWhole(v)
    requires d != Calories ==> IsTenth(v)
    ensures RoundFieldPy(d, v) == v
    ensures RoundFieldJs(d, Fin(v)) == Fin(v)
  {
    if d == Calories {
      RoundingFixesRounded(v.Floor);
    } else {
      var k := (v * 10.0).Floor;
      assert v == k as real / 10.0;
      RoundingFixesRounded(k);
    }
  }

  /** Scaling by one (one item, or 100 g) leaves a record that is already rounded unchanged. */
  lemma {:induction false} UnitScaleKeepsRounded(n: NutritionMap, unit: string)
    requires Complete(n)
    requires IsWhole(n[Calories])
    requires forall d :: d in n && d != Calories ==> IsTenth(n[d])
    ensures ScalePy(n, PyMultiplier(unit, if unit == "count" then 1.0 else 100.0)) == n
    ensures ScaleJs(Lift(n), JsMultiplier(unit, Fin(if unit == "count" then 1.0 else 100.0))) == Lift(n)
  {
    assert PyMultiplier(unit, if unit == "count" then 1.0 else 100.0) == 1.0;
    assert JsMultiplier(unit, Fin(if unit == "count" then 1.0 else 100.0)) == Fin(1.0);
    forall d | d in AllDimensions
      ensures d in n && ScalePy(n, 1.0)[d] == n[d]
      ensures ScaleJs(Lift(n), Fin(1.0))[d] == Lift(n)[d]
    {
      assert n[d] * 1.0 == n[d];
      assert Mul(Fin(n[d]), Fin(1.0)) == Fin(n[d]);
      FieldKeepsRounded(d, n[d]);
    }
    assert n.Keys == AllDimensions;
  }
}
