/**
 * The slice of JavaScript's number and string semantics the frontend relies on:
 * NaN-propagating arithmetic, String.prototype.trim, Number(s) (the coercion
 * isNaN applies) and parseFloat. Only plain decimal literals are parsed.
 */
module JsText {
  import opened Wrappers
  import opened Rounding

  /** A JavaScript number: finite, or NaN (what undefined and failed parses become). */
  datatype Num = Fin(v: real) | NaN

  /** a * b; NaN is absorbing. */
  function Mul(a: Num, b: Num): (r: Num)
    ensures r.Fin? <==> a.Fin? && b.Fin?
    ensures r.Fin? ==> r.v == a.v * b.v
  {
    if a.Fin? && b.Fin? then Fin(a.v * b.v) else NaN
  }

  /** a / c for a non-zero constant c. */
  function Div(a: Num, c: real): (r: Num)
    requires c != 0.0
    ensures r.Fin? <==> a.Fin?
    ensures r.Fin? ==> r.v * c == a.v
  {
    if a.Fin? then Fin(a.v / c) else NaN
  }

  /** a < c; every comparison with NaN is false. */
  predicate Lt(a: Num, c: real) { a.Fin? && a.v < c }

  /** a <= c; false for NaN. */
  predicate Le(a: Num, c: real) { a.Fin? && a.v <= c }

  /** a > c; false for NaN. */
  predicate Gt(a: Num, c: real) { a.Fin? && a.v > c }

  /** Math.round on a JavaScript number. */
  function RoundNum(a: Num): (r: Num)
    ensures r.Fin? <==> a.Fin?
    ensures r.Fin? ==> r.v == JsRound(a.v) as real
  {
    if a.Fin? then Fin(JsRound(a.v) as real) else NaN
  }

  /** Math.round(a * 10) / 10 on a JavaScript number. */
  function RoundTenthNum(a: Num): (r: Num)
    ensures r.Fin? <==> a.Fin?
    ensures r.Fin? ==> r.v == JsRoundTenth(a.v)
  {
    if a.Fin? then Fin(JsRoundTenth(a.v)) else NaN
  }

  // ---------------------------------------------------------------- strings

  /** The characters String.prototype.trim removes: WhiteSpace and LineTerminator. */
  predicate IsWhitespace(c: char)
  {
    c == ' ' || c == '\t' || c == '\n' || c == '\r' || c == '\U{000B}' || c == '\U{000C}'
    || c == '\U{00A0}' || c == '\U{FEFF}' || c == '\U{1680}' || ('\U{2000}' <= c <= '\U{200A}')
    || c == '\U{2028}' || c == '\U{2029}' || c == '\U{202F}' || c == '\U{205F}' || c == '\U{3000}'
  }

  /** Every character of s is whitespace (the empty string included). */
  predicate IsBlank(s: string)
  {
    forall i :: 0 <= i < |s| ==> IsWhitespace(s[i])
  }

  /** s without its leading whitespace. */
  function TrimStart(s: string): (t: string)
    ensures |t| <= |s| && t == s[|s| - |t|..]
    ensures IsBlank(s[..|s| - |t|])
    ensures t == [] || !IsWhitespace(t[0])
  {
    if |s| > 0 && IsWhitespace(s[0]) then TrimStart(s[1..]) else s
  }

  /** s without its trailing whitespace. */
  function TrimEnd(s: string): (t: string)
    ensures |t| <= |s| && t == s[..|t|]
    ensures IsBlank(s[|t|..])
    ensures t == [] || !IsWhitespace(t[|t| - 1])
  {
    if |s| > 0 && IsWhitespace(s[|s| - 1]) then
      var t := TrimEnd(s[..|s| - 1]);
      assert s[..|t|] == s[..|s| - 1][..|t|];
      assert s[|t|..] == s[..|s| - 1][|t|..] + [s[|s| - 1]];
      t
    else
      assert s[|s|..] == [];
      s
  }

  /** String.prototype.trim. */
  function Trim(s: string): string
  {
    TrimEnd(TrimStart(s))
  }

  /** `!s.trim()` holds exactly for the blank strings. */
  lemma {:induction false} TrimEmptyIffBlank(s: string)
    ensures Trim(s) == "" <==> IsBlank(s)
  {
    var t := TrimStart(s);
    assert s[..|s|] == s;
    if t != [] {
      assert t[0] == s[|s| - |t|];
      assert t[0..] == t;
    }
  }

  // ------------------------------------------------------- decimal literals

  predicate IsDigit(c: char) { '0' <= c <= '9' }

  /** The length of the run of decimal digits at the front of s. */
  function DigitRun(s: string): (n: nat)
    ensures n <= |s|
    ensures forall i :: 0 <= i < n ==> IsDigit(s[i])
    ensures n < |s| ==> !IsDigit(s[n])
  {
    if |s| > 0 && IsDigit(s[0]) then 1 + DigitRun(s[1..]) else 0
  }

  function Pow10(k: nat): (p: nat)
    ensures p >= 1
  {
    if k == 0 then 1 else 10 * Pow10(k - 1)
  }

  /** The value of a string of decimal digits. */
  function DigitsValue(s: string): (n: nat)
    requires forall i :: 0 <= i < |s| ==> IsDigit(s[i])
    ensures n < Pow10(|s|)
  {
    if |s| == 0 then 0
    else
      var last := s[|s| - 1];
      assert IsDigit(last);
      var high := DigitsValue(s[..|s| - 1]);
      assert high * 10 + 9 < Pow10(|s| - 1) * 10 by {
        assert high + 1 <= Pow10(|s| - 1);
      }
      high * 10 + (last as int - '0' as int)
  }

  /**
   * The longest unsigned decimal literal at the front of s, `digits [. digits]`
   * or `. digits`, as its value and the number of characters it takes.
   */
  function UnsignedPrefix(s: string): (r: Option<(real, nat)>)
    ensures r.Some? ==> 0 < r.value.1 <= |s| && r.value.0 >= 0.0
    ensures r.Some? <==> DigitRun(s) > 0 || (|s| > 1 && s[0] == '.' && IsDigit(s[1]))
  {
    var k := DigitRun(s);
    var whole := DigitsValue(s[..k]) as real;
    if k < |s| && s[k] == '.' then
      var rest := s[k + 1..];
      var k2 := DigitRun(rest);
      if k + k2 == 0 then None
      else Some((whole + DigitsValue(rest[..k2]) as real / Pow10(k2) as real, k + 1 + k2))
    else if k == 0 then None
    else Some((whole, k))
  }

  /** An optionally signed decimal literal at the front of s. */
  function SignedPrefix(s: string): (r: Option<(real, nat)>)
    ensures r.Some? ==> 0 < r.value.1 <= |s|
  {
    if |s| > 0 && (s[0] == '-' || s[0] == '+') then
      match UnsignedPrefix(s[1..])
      case None => None
      case Some((v, n)) => Some((if s[0] == '-' then -v else v, n + 1))
    else UnsignedPrefix(s)
  }

  /** parseFloat(s): skip leading whitespace, read the longest literal, NaN if there is none. */
  function ParseFloat(s: string): (r: Num)
    ensures IsBlank(s) ==> r == NaN
  {
    var t := TrimStart(s);
    assert t != [] ==> t[0] == s[|s| - |t|];
    match SignedPrefix(t)
    case None => NaN
    case Some((v, _)) => Fin(v)
  }

  /** Number(s), the coercion isNaN(s) applies: blank is 0, otherwise the whole trimmed text must be a literal. */
  function ToNumber(s: string): (r: Num)
    ensures IsBlank(s) ==> r == Fin(0.0)
  {
    var t := Trim(s);
    TrimEmptyIffBlank(s);
    if t == "" then Fin(0.0)
    else match SignedPrefix(t)
      case Some((v, n)) => if n == |t| then Fin(v) else NaN
      case None => NaN
  }

  /** Number("  ") is 0 but parseFloat("  ") is NaN: the two coercions disagree on blank text. */
  lemma BlankCoercions()
    ensures ToNumber("  ") == Fin(0.0) && ParseFloat("  ") == NaN
  {
    assert IsBlank("  ");
  }

  /** Text that is not a literal is NaN for both coercions. */
  lemma WordCoercions()
    ensures ToNumber("abc") == NaN && ParseFloat("abc") == NaN
  {
    assert TrimStart("abc") == "abc";
    assert TrimEnd("abc") == "abc";
    assert DigitRun("abc") == 0;
  }

  lemma DigitsValue12()
    ensures DigitsValue("12") == 12
  {
    assert "12"[..1] == "1";
    assert "1"[..0] == "";
  }

  lemma UnsignedPrefix12abc()
    ensures UnsignedPrefix("12abc") == Some((12.0, 2))
  {
    assert DigitRun("12abc") == 2 by {
      assert "12abc"[1..] == "2abc";
      assert "2abc"[1..] == "abc";
    }
    assert "12abc"[..2] == "12";
    DigitsValue12();
  }

  /** "12abc" is NaN for Number but 12 for parseFloat, which reads a prefix. */
  lemma PrefixCoercions()
    ensures ToNumber("12abc") == NaN && ParseFloat("12abc") == Fin(12.0)
  {
    assert TrimStart("12abc") == "12abc";
    assert TrimEnd("12abc") == "12abc";
    UnsignedPrefix12abc();
  }

  /** A signed literal: parseFloat("-1") is -1. */
  lemma SignedCoercion()
    ensures ParseFloat("-1") == Fin(-1.0)
  {
    assert TrimStart("-1") == "-1";
    assert "-1"[1..] == "1";
    assert DigitRun("1") == 1;
    assert "1"[..1] == "1";
    assert DigitsValue("1") == 1 by { assert "1"[..0] == ""; }
    assert UnsignedPrefix("1") == Some((1.0, 1));
  }

  lemma UnsignedPrefix25()
    ensures UnsignedPrefix("2.5") == Some((2.5, 3))
  {
    assert DigitRun("2.5") == 1 by { assert "2.5"[1..] == ".5"; }
    assert "2.5"[..1] == "2";
    assert "2.5"[2..] == "5";
    assert DigitsValue("2") == 2 by { assert "2"[..0] == ""; }
    assert DigitRun("5") == 1;
    assert "5"[..1] == "5";
    assert DigitsValue("5") == 5 by { assert "5"[..0] == ""; }
    assert Pow10(1) == 10;
  }

  /** A fractional literal: parseFloat("2.5") is 2.5. */
  lemma FractionCoercion()
    ensures ParseFloat("2.5") == Fin(2.5)
  {
    assert TrimStart("2.5") == "2.5";
    UnsignedPrefix25();
  }

  /** The detector's default quantity: Number("1") and parseFloat("1") are both 1. */
  lemma OneCoercion()
    ensures ToNumber("1") == Fin(1.0) && ParseFloat("1") == Fin(1.0)
  {
    assert TrimStart("1") == "1";
    assert TrimEnd("1") == "1";
    assert DigitRun("1") == 1;
    assert "1"[..1] == "1";
    assert DigitsValue("1") == 1 by { assert "1"[..0] == ""; }
  }

  lemma DigitsValue150()
    ensures DigitsValue("150") == 150
  {
    assert "150"[..2] == "15";
    assert "15"[..1] == "1";
    assert "1"[..0] == "";
  }

  lemma UnsignedPrefix150()
    ensures UnsignedPrefix("150") == Some((150.0, 3))
  {
    assert DigitRun("150") == 3 by {
      assert "150"[1..] == "50";
      assert "50"[1..] == "0";
      assert "0"[1..] == "";
    }
    assert "150"[..3] == "150";
    DigitsValue150();
  }

  /** A whole number of grams: Number("150") and parseFloat("150") are both 150. */
  lemma GramsCoercion()
    ensures ToNumber("150") == Fin(150.0) && ParseFloat("150") == Fin(150.0)
  {
    assert TrimStart("150") == "150";
    assert TrimEnd("150") == "150";
    assert Trim("150") == "150";
    UnsignedPrefix150();
    assert SignedPrefix("150") == Some((150.0, 3));
  }
}
