/**
 * String helpers that the Swift code takes from Foundation and the standard
 * library: `hasPrefix`, `hasSuffix`, substring search, `Bool(String)`,
 * `String(Bool)` and the decimal rendering of integers used by string
 * interpolation.
 */
module Text {
  import opened Wrappers

  // These compare code points; Swift compares grapheme clusters, which agree on ASCII.
  predicate HasPrefix(s: string, prefix: string) {
    |prefix| <= |s| && s[..|prefix|] == prefix
  }

  predicate HasSuffix(s: string, suffix: string) {
    |suffix| <= |s| && s[|s| - |suffix|..] == suffix
  }

  /** `sub` occurs in `s` starting at index `i`. */
  predicate OccursAt(s: string, sub: string, i: nat) {
    i + |sub| <= |s| && s[i..i + |sub|] == sub
  }

  /** Substring search (`rangeOfString(sub) != nil`), scanning from the left. */
  function Contains(s: string, sub: string): (r: bool)
    ensures r <==> exists i: nat :: OccursAt(s, sub, i)
    decreases |s|
  {
    if HasPrefix(s, sub) then
      assert OccursAt(s, sub, 0);
      true
    else if |s| <= |sub| then
      false
    else
      var r := Contains(s[1..], sub);
      assert forall i: nat :: OccursAt(s[1..], sub, i) <==> OccursAt(s, sub, i + 1);
      assert forall i: nat :: OccursAt(s, sub, i) && i > 0 ==> OccursAt(s[1..], sub, i - 1);
      r
  }

  /** Swift's `Bool(_ description: String)`: only the exact texts "true" and "false" parse. */
  function ParseBool(s: string): (r: Option<bool>)
    ensures r.Some? <==> s == "true" || s == "false"
    ensures r == Some(true) <==> s == "true"
  {
    if s == "true" then Some(true)
    else if s == "false" then Some(false)
    else None
  }

  /** Swift's `String(_ value: Bool)`. */
  function BoolText(b: bool): string {
    if b then "true" else "false"
  }

  lemma BoolTextRoundTrip(b: bool)
    ensures ParseBool(BoolText(b)) == Some(b)
  {
  }

  predicate IsDigit(c: char) {
    '0' <= c <= '9'
  }

  function DigitChar(d: nat): (c: char)
    requires d < 10
    ensures IsDigit(c)
  {
    ['0', '1', '2', '3', '4', '5', '6', '7', '8', '9'][d]
  }

  function DigitValue(c: char): (d: nat)
    requires IsDigit(c)
    ensures d < 10
  {
    (c as int - '0' as int) as nat
  }

  /** The decimal text of a non-negative integer, as string interpolation renders it. */
  function Decimal(n: nat): (s: string)
    decreases n
  {
    if n < 10 then [DigitChar(n)] else Decimal(n / 10) + [DigitChar(n % 10)]
  }

  /** The value of a string of decimal digits. */
  function DecimalValue(s: string): nat
    requires forall i :: 0 <= i < |s| ==> IsDigit(s[i])
    decreases |s|
  {
    if s == [] then 0 else DecimalValue(s[..|s| - 1]) * 10 + DigitValue(s[|s| - 1])
  }

  predicate IsDecimalNumeral(s: string) {
    && |s| > 0
    && (forall i :: 0 <= i < |s| ==> IsDigit(s[i]))
    && (|s| > 1 ==> s[0] != '0')
  }

  /** `Decimal` yields a numeral without leading zeros that reads back as `n`. */
  lemma {:induction false} DecimalRoundTrip(n: nat)
    ensures IsDecimalNumeral(Decimal(n))
    ensures DecimalValue(Decimal(n)) == n
    decreases n
  {
    if n >= 10 {
      DecimalRoundTrip(n / 10);
      var s := Decimal(n);
      assert s[..|s| - 1] == Decimal(n / 10);
      assert DigitValue(DigitChar(n % 10)) == n % 10;
    } else {
      assert DigitValue(DigitChar(n)) == n;
    }
  }

  /** Swift's `Int.description`: a minus sign before the magnitude for negative values. */
  function IntText(x: int): string {
    if x < 0 then "-" + Decimal(-x) else Decimal(x)
  }
}
