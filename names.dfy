/**
 * Food-name normalisation on the backend (normalize_name): lower-case the
 * name, then delete every run of non-word characters. Word characters are
 * letters, digits and the underscore.
 */
module Names {
  predicate IsUpper(c: char) { 'A' <= c <= 'Z' }

  predicate IsWordChar(c: char)
  {
    ('a' <= c <= 'z') || IsUpper(c) || ('0' <= c <= '9') || c == '_'
  }

  /** str.lower on one character. */
  function LowerChar(c: char): (r: char)
    ensures !IsUpper(r)
    ensures IsWordChar(r) <==> IsWordChar(c)
    ensures !IsUpper(c) ==> r == c
  {
    if IsUpper(c) then (c as int + 32) as char else c
  }

  /** str.lower. */
  function Lower(s: string): (r: string)
    ensures |r| == |s|
    ensures forall i :: 0 <= i < |s| ==> r[i] == LowerChar(s[i])
  {
    if |s| == 0 then [] else [LowerChar(s[0])] + Lower(s[1..])
  }

  /** re.sub(r'\W+', '', s): the word characters of s, in order. */
  function WordChars(s: string): (r: string)
    ensures forall i :: 0 <= i < |r| ==> IsWordChar(r[i])
    ensures |r| <= |s|
  {
    if |s| == 0 then []
    else if IsWordChar(s[0]) then [s[0]] + WordChars(s[1..])
    else WordChars(s[1..])
  }

  /** normalize_name. */
  function Normalize(name: string): (r: string)
    ensures forall i :: 0 <= i < |r| ==> IsWordChar(r[i]) && !IsUpper(r[i])
  {
    var lowered := Lower(name);
    LowerHasNoUpper(lowered, name);
    WordCharsKeeps(lowered);
    WordChars(lowered)
  }

  lemma LowerHasNoUpper(lowered: string, name: string)
    requires lowered == Lower(name)
    ensures forall i :: 0 <= i < |lowered| ==> !IsUpper(lowered[i])
  {
  }

  /** Every character of WordChars(s) is a character of s. */
  lemma {:induction false} WordCharsKeeps(s: string)
    ensures forall i :: 0 <= i < |WordChars(s)| ==> WordChars(s)[i] in s
  {
    if |s| > 0 {
      WordCharsKeeps(s[1..]);
      assert forall c :: c in s[1..] ==> c in s;
    }
  }

  /** A string of word characters only is left as it is. */
  lemma {:induction false} WordCharsOfWords(s: string)
    requires forall i :: 0 <= i < |s| ==> IsWordChar(s[i])
    ensures WordChars(s) == s
  {
    if |s| > 0 {
      WordCharsOfWords(s[1..]);
      assert s == [s[0]] + s[1..];
    }
  }

  /** A string without capitals is left as it is by Lower. */
  lemma LowerOfLower(s: string)
    requires forall i :: 0 <= i < |s| ==> !IsUpper(s[i])
    ensures Lower(s) == s
  {
  }

  /** Normalising twice is normalising once. */
  lemma NormalizeIdempotent(name: string)
    ensures Normalize(Normalize(name)) == Normalize(name)
  {
    var n := Normalize(name);
    LowerOfLower(n);
    WordCharsOfWords(n);
  }

  /** Case and punctuation are dropped: "Dal!" normalises to "dal". */
  lemma NormalizeExample()
    ensures Normalize("Dal!") == "dal"
  {
    assert Lower("Dal!") == "dal!" by {
      var r := Lower("Dal!");
      assert r[0] == 'd' && r[1] == 'a' && r[2] == 'l' && r[3] == '!';
    }
    assert "dal!"[1..] == "al!" && "al!"[1..] == "l!" && "l!"[1..] == "!";
    assert WordChars("!") == [] by { assert "!"[1..] == []; }
  }
}
