/**
 * The two rounding rules the system uses, over exact reals.
 * The client rounds with JavaScript's Math.round (ties go up, toward +infinity);
 * the server rounds with Python's round (ties go to the even neighbour).
 */
module Rounding {

  /** The fractional part of x, in [0, 1). */
  function Frac(x: real): (f: real)
    ensures 0.0 <= f < 1.0
    ensures x - f == x.Floor as real
  {
    x - x.Floor as real
  }

  /** Math.round: the integer n with n - 1/2 <= x < n + 1/2. */
  function JsRound(x: real): (n: int)
    ensures n as real - 0.5 <= x < n as real + 0.5
  {
    (x + 0.5).Floor
  }

  /** Python's round(x): the nearest integer, and on a tie the even one. */
  function RoundHalfEven(x: real): (n: int)
    ensures n as real - 0.5 <= x <= n as real + 0.5
    ensures (x == n as real - 0.5 || x == n as real + 0.5) ==> n % 2 == 0
  {
    var f := x.Floor;
    var d := x - f as real;
    if d < 0.5 then f
    else if d > 0.5 then f + 1
    else if f % 2 == 0 then f
    else f + 1
  }

  /** Math.round(x * 10) / 10: x to one decimal place, ties up. */
  function JsRoundTenth(x: real): (r: real)
    ensures r - 0.05 <= x < r + 0.05
    ensures IsTenth(r)
  {
    var n := JsRound(x * 10.0);
    TenthOf(n);
    n as real / 10.0
  }

  /** Python's round(x, 1) over exact reals: one decimal place, ties to an even last digit. */
  function PyRoundTenth(x: real): (r: real)
    ensures r - 0.05 <= x <= r + 0.05
    ensures IsTenth(r)
  {
    var n := RoundHalfEven(x * 10.0);
    TenthOf(n);
    n as real / 10.0
  }

  /** n tenths has at most one decimal place. */
  lemma TenthOf(n: int)
    ensures (n as real / 10.0) * 10.0 == n as real
    ensures IsTenth(n as real / 10.0)
  {
    assert (n as real / 10.0) * 10.0 == n as real;
  }

  /** r has at most one decimal place. */
  predicate IsTenth(r: real)
  {
    (r * 10.0).Floor as real == r * 10.0
  }

  /** Math.round is the only integer within half a unit below-inclusive of x. */
  lemma JsRoundUnique(x: real, n: int)
    requires n as real - 0.5 <= x < n as real + 0.5
    ensures JsRound(x) == n
  {
    var m := JsRound(x);
    assert m as real - 0.5 <= x < m as real + 0.5;
    assert n - 1 < m < n + 1;
  }

  /** The two rules agree on every x whose fractional part is not exactly one half. */
  lemma {:induction false} RoundingsAgreeOffTies(x: real)
    requires Frac(x) != 0.5
    ensures JsRound(x) == RoundHalfEven(x)
  {
    var n := RoundHalfEven(x);
    if Frac(x) < 0.5 {
      assert n == x.Floor;
    } else {
      assert n == x.Floor + 1;
    }
    JsRoundUnique(x, n);
  }

  /** On a tie Math.round goes up, to x + 1/2, whatever the parity. */
  lemma JsRoundTiesUp(x: real)
    requires Frac(x) == 0.5
    ensures JsRound(x) as real == x + 0.5
  {
    JsRoundUnique(x, x.Floor + 1);
  }

  /** The rules differ on a tie whose lower neighbour is even: 2.5 is 3 for the client, 2 for the server. */
  lemma TieWitness()
    ensures JsRound(2.5) == 3 && RoundHalfEven(2.5) == 2
  {
    JsRoundUnique(2.5, 3);
  }

  /** Rounding an integer, or a value that already has one decimal, changes nothing. */
  lemma RoundingFixesRounded(k: int)
    ensures JsRound(k as real) == k && RoundHalfEven(k as real) == k
    ensures JsRoundTenth(k as real / 10.0) == k as real / 10.0
    ensures PyRoundTenth(k as real / 10.0) == k as real / 10.0
  {
    JsRoundUnique(k as real, k);
    assert (k as real / 10.0) * 10.0 == k as real;
    JsRoundUnique(k as real, k);
  }
}
