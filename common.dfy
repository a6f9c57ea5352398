/** Small helpers shared by every module: an Option type and the few Python
    built-ins (string prefix tests, slicing, int() and round() on floats)
    whose exact behaviour the sonde notifier relies on. */
module Common {

  datatype Option<+T> = None | Some(value: T)

  /** Python's `s.startswith(p)`. */
  predicate StartsWith(s: string, p: string)
  {
    |p| <= |s| && s[..|p|] == p
  }

  /** Python's `s[-1:]`: the last character as a string, or "" for "". */
  function LastChar(s: string): string
  {
    if |s| == 0 then "" else [s[|s| - 1]]
  }

  /** Python's `s[:-n]`: everything but the last n characters ("" when s is shorter). */
  function DropLast(s: string, n: nat): string
  {
    if |s| >= n then s[..|s| - n] else ""
  }

  /** Python's `int(x)` on a float: truncation toward zero. */
  function Trunc(x: real): int
  {
    if x >= 0.0 then x.Floor else -((-x).Floor)
  }

  lemma TruncTowardZero(x: real)
    ensures x >= 0.0 ==> 0.0 <= Trunc(x) as real <= x < Trunc(x) as real + 1.0
    ensures x < 0.0 ==> Trunc(x) as real - 1.0 < x <= Trunc(x) as real <= 0.0
  {
  }

  /** Python's `round(x)` on a float: nearest integer, ties to the even one. */
  function RoundHalfEven(x: real): int
  {
    var f := x.Floor;
    var d := x - f as real;
    if d < 0.5 then f
    else if d > 0.5 then f + 1
    else if f % 2 == 0 then f
    else f + 1
  }

  lemma RoundHalfEvenNearest(x: real)
    ensures -0.5 <= x - RoundHalfEven(x) as real <= 0.5
    ensures x - RoundHalfEven(x) as real == 0.5 || RoundHalfEven(x) as real - x == 0.5
            ==> RoundHalfEven(x) % 2 == 0
  {
  }

  /** Python's `int(c)` for a one-character string, restricted to ASCII digits. */
  predicate IsDigit(c: char)
  {
    '0' <= c <= '9'
  }

  function DigitValue(c: char): nat
    requires IsDigit(c)
  {
    (c as int) - ('0' as int)
  }

  /** A ring id is `int(key[-1:])`: the value of the key's last character. */
  predicate HasDigitId(key: string)
  {
    |key| > 0 && IsDigit(key[|key| - 1])
  }

  function IdOf(key: string): nat
    requires HasDigitId(key)
  {
    DigitValue(key[|key| - 1])
  }

  lemma StartsWithConcat(p: string, s: string)
    ensures StartsWith(p + s, p)
  {
    assert (p + s)[..|p|] == p;
  }

  /** Two strings that start with prefixes differing at a common position differ. */
  lemma DistinctPrefixes(s: string, t: string, p: string, q: string, i: nat)
    requires StartsWith(s, p) && StartsWith(t, q)
    requires i < |p| && i < |q| && p[i] != q[i]
    ensures s != t
  {
    assert s[i] == s[..|p|][i] == p[i];
    assert t[i] == t[..|q|][i] == q[i];
  }

  /** Index of the first character of `s` in `stops`, or |s| if none is. */
  function IndexOfAny(s: string, stops: set<char>): (i: nat)
    ensures i <= |s|
    ensures forall j :: 0 <= j < i ==> s[j] !in stops
    ensures i < |s| ==> s[i] in stops
  {
    if |s| == 0 || s[0] in stops then 0 else 1 + IndexOfAny(s[1..], stops)
  }
}
