/**
 * The two string tests the quiz screen makes: Kotlin's
 * `String.equals(other, ignoreCase = true)`, here over ASCII letters, and
 * `String.startsWith(prefix)`. Neither trims whitespace.
 */
module Text {

  /** Maps 'A'..'Z' to 'a'..'z' and leaves every other character alone. */
  function LowerAscii(c: char): (l: char)
    ensures 'A' <= c <= 'Z' ==> 'a' <= l <= 'z' && l as int - c as int == 'a' as int - 'A' as int
    ensures !('A' <= c <= 'Z') ==> l == c
  {
    if 'A' <= c <= 'Z' then (c as int - 'A' as int + 'a' as int) as char else c
  }

  /** The lower-case form of a string, character by character. */
  function ToLowerAscii(s: string): (r: string)
    ensures |r| == |s|
    ensures forall i :: 0 <= i < |s| ==> r[i] == LowerAscii(s[i])
  {
    seq(|s|, i requires 0 <= i < |s| => LowerAscii(s[i]))
  }

  /**
   * Character-by-character comparison that ignores ASCII case, as
   * `equals(ignoreCase = true)` does: the lengths must agree first.
   */
  function EqualsIgnoreCase(a: string, b: string): (r: bool)
    ensures r ==> |a| == |b|
    ensures r <==> |a| == |b| && forall i :: 0 <= i < |a| ==> LowerAscii(a[i]) == LowerAscii(b[i])
  {
    if |a| != |b| then false
    else if a == [] then true
    else LowerAscii(a[0]) == LowerAscii(b[0]) && EqualsIgnoreCase(a[1..], b[1..])
  }

  /** Two strings are equal ignoring case exactly when their lower-case forms are equal. */
  lemma EqualsIgnoreCaseIsLowerEquality(a: string, b: string)
    ensures EqualsIgnoreCase(a, b) <==> ToLowerAscii(a) == ToLowerAscii(b)
  {
    var la, lb := ToLowerAscii(a), ToLowerAscii(b);
    if EqualsIgnoreCase(a, b) {
      assert forall i :: 0 <= i < |la| ==> la[i] == lb[i];
    }
    if la == lb {
      assert forall i :: 0 <= i < |a| ==> LowerAscii(a[i]) == la[i] == lb[i] == LowerAscii(b[i]);
    }
  }

  /** Ignoring case is an equivalence, and strings of different lengths never match. */
  lemma EqualsIgnoreCaseIsEquivalence(a: string, b: string, c: string)
    ensures EqualsIgnoreCase(a, a)
    ensures EqualsIgnoreCase(a, b) ==> EqualsIgnoreCase(b, a)
    ensures EqualsIgnoreCase(a, b) && EqualsIgnoreCase(b, c) ==> EqualsIgnoreCase(a, c)
    ensures EqualsIgnoreCase(a, b) ==> |a| == |b|
  {
    EqualsIgnoreCaseIsLowerEquality(a, a);
    EqualsIgnoreCaseIsLowerEquality(a, b);
    EqualsIgnoreCaseIsLowerEquality(b, a);
    EqualsIgnoreCaseIsLowerEquality(b, c);
    EqualsIgnoreCaseIsLowerEquality(a, c);
  }

  /** `s.startsWith(prefix)`: `s` is `prefix` followed by something. */
  function StartsWith(s: string, prefix: string): (b: bool)
    ensures b <==> exists rest :: s == prefix + rest
  {
    if |prefix| <= |s| && s[..|prefix|] == prefix then
      assert s == prefix + s[|prefix|..];
      true
    else
      false
  }

  /** The long s (U+017F) is not an ASCII letter, so "true ſtar" does not match "true star" here. */
  lemma LongSIsNotFolded()
    ensures !EqualsIgnoreCase("true \U{17F}tar", "true star")
  {
    assert LowerAscii('\U{17F}') != LowerAscii('s');
  }

}
