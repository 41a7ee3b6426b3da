/**
 * Counting over sequences, as the backend's dictionaries and Counter use it:
 * occurrences, the first index of an element and the distinct elements in
 * order of first occurrence (the key order of a Python dict filled left to
 * right).
 */
module Tally {
  /** The number of occurrences of x in s. */
  function Count<T(==)>(s: seq<T>, x: T): (n: nat)
    ensures n <= |s|
    ensures n > 0 <==> x in s
  {
    if |s| == 0 then 0
    else
      assert s == s[..|s| - 1] + [s[|s| - 1]];
      Count(s[..|s| - 1], x) + (if s[|s| - 1] == x then 1 else 0)
  }

  /** The index of the first occurrence of x in s. */
  function FirstIndex<T(==)>(s: seq<T>, x: T): (i: nat)
    requires x in s
    ensures i < |s| && s[i] == x
    ensures forall k :: 0 <= k < i ==> s[k] != x
  {
    if s[0] == x then 0 else 1 + FirstIndex(s[1..], x)
  }

  /** The distinct elements of s, each where it first occurs. */
  function FirstSeen<T(==)>(s: seq<T>): (d: seq<T>)
    ensures forall k :: 0 <= k < |d| ==> d[k] in s
    ensures forall i, j :: 0 <= i < j < |d| ==> d[i] != d[j]
  {
    if |s| == 0 then []
    else
      var init := FirstSeen(s[..|s| - 1]);
      assert s == s[..|s| - 1] + [s[|s| - 1]];
      if s[|s| - 1] in init then init else init + [s[|s| - 1]]
  }

  /** FirstSeen(s) holds exactly the elements of s. */
  lemma {:induction false} FirstSeenMembers<T>(s: seq<T>, x: T)
    ensures x in FirstSeen(s) <==> x in s
  {
    if |s| > 0 {
      assert s == s[..|s| - 1] + [s[|s| - 1]];
      FirstSeenMembers(s[..|s| - 1], x);
    }
  }

  /** Where an element of s stands in FirstSeen(s). */
  lemma FirstSeenPosition<T>(s: seq<T>, x: T) returns (i: nat)
    requires x in s
    ensures i < |FirstSeen(s)| && FirstSeen(s)[i] == x
  {
    FirstSeenMembers(s, x);
    i :| 0 <= i < |FirstSeen(s)| && FirstSeen(s)[i] == x;
  }

  /** Earlier in FirstSeen(s) means first occurring earlier in s. */
  lemma {:induction false} FirstSeenOrder<T>(s: seq<T>, i: nat, j: nat)
    requires i < j < |FirstSeen(s)|
    ensures FirstIndex(s, FirstSeen(s)[i]) < FirstIndex(s, FirstSeen(s)[j])
  {
    var init := s[..|s| - 1];
    var last := s[|s| - 1];
    assert s == init + [last];
    var d := FirstSeen(s);
    var di := FirstSeen(init);
    var x, y := d[i], d[j];
    if last in di {
      assert d == di;
      FirstSeenOrder(init, i, j);
      FirstIndexOfPrefix(init, last, x);
      FirstIndexOfPrefix(init, last, y);
    } else if j < |di| {
      assert d[i] == di[i] && d[j] == di[j];
      FirstSeenOrder(init, i, j);
      FirstIndexOfPrefix(init, last, x);
      FirstIndexOfPrefix(init, last, y);
    } else {
      assert y == last && x == di[i] && x in init;
      FirstIndexOfPrefix(init, last, x);
      FirstSeenMembers(init, last);
      assert FirstIndex(s, y) == |init|;
    }
  }

  /** Appending to s leaves the first index of anything already in s where it was. */
  lemma {:induction false} FirstIndexOfPrefix<T>(s: seq<T>, last: T, x: T)
    requires x in s
    ensures FirstIndex(s + [last], x) == FirstIndex(s, x) < |s|
  {
    var t := s + [last];
    var i := FirstIndex(s, x);
    var k := FirstIndex(t, x);
    assert t[i] == x;
    assert k <= i;
    assert s[k] == t[k];
  }

  /** Counting one more element. */
  lemma CountAppend<T>(s: seq<T>, y: T, x: T)
    ensures Count(s + [y], x) == Count(s, x) + (if y == x then 1 else 0)
  {
    assert (s + [y])[..|s|] == s;
  }
}
