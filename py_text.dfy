/**
 * The few Python string operations the report and the error messages use:
 * `str.join`, `str.endswith`, `str.upper`, `str.replace` of one character,
 * `str.title`, and `str()` of a bool and of an int. Case mapping is the ASCII one.
 */
module PyText {

  /** `sep.join(parts)`. */
  function Join(sep: string, parts: seq<string>): (r: string)
    ensures parts == [] ==> r == ""
    ensures parts != [] ==> parts[0] <= r
    ensures |parts| == 1 ==> r == parts[0]
  {
    if parts == [] then ""
    else if |parts| == 1 then parts[0]
    else parts[0] + sep + Join(sep, parts[1..])
  }

  /** `s.endswith(suffix)`. */
  predicate EndsWith(s: string, suffix: string) {
    |suffix| <= |s| && s[|s| - |suffix|..] == suffix
  }

  predicate IsLower(c: char) { 'a' <= c <= 'z' }

  predicate IsUpper(c: char) { 'A' <= c <= 'Z' }

  /** A character that has a case; Python's `title()` starts a new word after any character that has none. */
  predicate IsCased(c: char) { IsLower(c) || IsUpper(c) }

  function UpperChar(c: char): char {
    if IsLower(c) then (c as int - 'a' as int + 'A' as int) as char else c
  }

  function LowerChar(c: char): char {
    if IsUpper(c) then (c as int - 'A' as int + 'a' as int) as char else c
  }

  /** `s.upper()`. */
  function Upper(s: string): string {
    if s == [] then [] else [UpperChar(s[0])] + Upper(s[1..])
  }

  /** `upper()` maps each character on its own. */
  lemma {:induction false} UpperChars(s: string)
    ensures |Upper(s)| == |s|
    ensures forall i :: 0 <= i < |s| ==> Upper(s)[i] == UpperChar(s[i])
  {
    if s != [] {
      UpperChars(s[1..]);
      assert Upper(s)[1..] == Upper(s[1..]);
    }
  }

  /** `s.replace(from, to)` for single characters. */
  function ReplaceChar(s: string, from: char, to: char): string {
    if s == [] then [] else [if s[0] == from then to else s[0]] + ReplaceChar(s[1..], from, to)
  }

  /**
   * `s.title()`: every cased character that follows a cased character is
   * lower-cased, every other cased character is upper-cased, and the
   * uncased characters (digits, spaces, punctuation) are kept.
   */
  function Title(s: string): string {
    TitleAfter(s, false)
  }

  /** `Title` of the rest of a string whose previous character was cased iff `previousCased`. */
  function TitleAfter(s: string, previousCased: bool): string {
    if s == [] then []
    else
      var c := s[0];
      [if previousCased then LowerChar(c) else UpperChar(c)] + TitleAfter(s[1..], IsCased(c))
  }

  /** `TitleAfter` changes only case: a cased character is upper-cased exactly when it starts a word. */
  lemma {:induction false} TitleAfterCases(s: string, previousCased: bool)
    ensures |TitleAfter(s, previousCased)| == |s|
    ensures forall i :: 0 <= i < |s| ==> LowerChar(TitleAfter(s, previousCased)[i]) == LowerChar(s[i])
    ensures forall i :: 0 <= i < |s| && IsCased(s[i]) ==>
              (IsUpper(TitleAfter(s, previousCased)[i]) <==> !(if i == 0 then previousCased else IsCased(s[i - 1])))
  {
    if s != [] {
      TitleAfterCases(s[1..], IsCased(s[0]));
      var r := TitleAfter(s, previousCased);
      assert r[1..] == TitleAfter(s[1..], IsCased(s[0]));
    }
  }

  /** `s.title()` upper-cases exactly the cased characters that start a word and otherwise changes only case. */
  lemma TitleCases(s: string)
    ensures |Title(s)| == |s|
    ensures forall i :: 0 <= i < |s| ==> LowerChar(Title(s)[i]) == LowerChar(s[i])
    ensures forall i :: 0 <= i < |s| && IsCased(s[i]) ==>
              (IsUpper(Title(s)[i]) <==> i == 0 || !IsCased(s[i - 1]))
  {
    TitleAfterCases(s, false);
  }

  /** `str(b)` of a Python bool. */
  function BoolText(b: bool): string {
    if b then "True" else "False"
  }

  predicate IsDigit(c: char) { '0' <= c <= '9' }

  function DigitChar(d: nat): (c: char)
    requires d < 10
    ensures IsDigit(c)
  {
    (d + '0' as int) as char
  }

  function DigitValue(c: char): nat
    requires IsDigit(c)
  {
    c as int - '0' as int
  }

  /** `str(n)` of a non-negative Python int: its decimal digits, most significant first. */
  function NatText(n: nat): (r: string)
    ensures |r| >= 1
    ensures forall i :: 0 <= i < |r| ==> IsDigit(r[i])
    ensures r[0] == '0' ==> n == 0
  {
    if n < 10 then [DigitChar(n)] else NatText(n / 10) + [DigitChar(n % 10)]
  }

  /** `str(n)` of any Python int. */
  function IntText(n: int): (r: string)
    ensures |r| >= 1
    ensures r[0] == '-' <==> n < 0
  {
    if n < 0 then "-" + NatText(-n) else NatText(n)
  }

  /** The number a string of decimal digits denotes: `int(s)` on digit strings. */
  function DecimalValue(s: string): nat
    requires forall i :: 0 <= i < |s| ==> IsDigit(s[i])
  {
    if s == [] then 0 else DecimalValue(s[..|s| - 1]) * 10 + DigitValue(s[|s| - 1])
  }

  /** Reading back the digits `str(n)` prints gives `n`: the count in the report is printed exactly. */
  lemma {:induction false} NatTextRoundTrip(n: nat)
    ensures DecimalValue(NatText(n)) == n
  {
    var r := NatText(n);
    if n >= 10 {
      NatTextRoundTrip(n / 10);
      assert r[..|r| - 1] == NatText(n / 10);
    }
  }
}
