/**
 * The few pieces of JavaScript semantics the dashboard's decision code relies on:
 * absent-or-present values, truthiness of strings, the decimal rendering a template
 * literal gives a count, `String.prototype.includes` and the leftmost search of a
 * non-global regular expression, and where a regular expression's `.*` stops.
 */
module Js {

  /** `undefined`/`null` (None) or a value (Some). */
  datatype Option<+T> = None | Some(value: T)

  /** JavaScript truthiness of a string that may be absent: `undefined`, `null` and `''` are falsy. */
  predicate Truthy(s: Option<string>)
  {
    s.Some? && s.value != ""
  }

  // ---------------------------------------------------------------------------
  // Decimal rendering of counts (`${d}` for a non-negative integer d)

  predicate IsDigit(c: char)
  {
    '0' <= c <= '9'
  }

  function DigitChar(n: nat): (c: char)
    requires n < 10
    ensures IsDigit(c) && c as int - '0' as int == n
  {
    ('0' as int + n) as char
  }

  function DigitValue(c: char): nat
    requires IsDigit(c)
  {
    c as int - '0' as int
  }

  predicate AllDigits(s: string)
  {
    forall i :: 0 <= i < |s| ==> IsDigit(s[i])
  }

  /** The text a template literal gives for `n`: non-empty, digits only, no leading zero. */
  function Decimal(n: nat): (s: string)
    ensures |s| > 0 && AllDigits(s)
    ensures |s| > 1 ==> s[0] != '0'
    decreases n
  {
    if n < 10 then [DigitChar(n)] else Decimal(n / 10) + [DigitChar(n % 10)]
  }

  /** Reads a string of digits back as a number (the reference reading of `Decimal`). */
  function ParseDecimal(s: string): nat
    requires AllDigits(s)
    decreases |s|
  {
    if s == [] then 0 else ParseDecimal(s[..|s| - 1]) * 10 + DigitValue(s[|s| - 1])
  }

  lemma {:induction false} DecimalRoundTrip(n: nat)
    ensures ParseDecimal(Decimal(n)) == n
    decreases n
  {
    if n >= 10 {
      var s := Decimal(n);
      assert s[..|s| - 1] == Decimal(n / 10);
      DecimalRoundTrip(n / 10);
    }
  }

  /** Different counts are rendered differently. */
  lemma DecimalInjective(a: nat, b: nat)
    requires Decimal(a) == Decimal(b)
    ensures a == b
  {
    DecimalRoundTrip(a);
    DecimalRoundTrip(b);
  }

  // ---------------------------------------------------------------------------
  // Substring search

  /** `pat` occurs in `s` starting at offset `i`. */
  predicate OccursAt(s: string, pat: string, i: nat)
  {
    i + |pat| <= |s| && s[i..i + |pat|] == pat
  }

  /** The leftmost occurrence of `pat` in `s` at or after `from`. */
  function FirstIndexFrom(s: string, pat: string, from: nat): (r: Option<nat>)
    ensures r.Some? ==> from <= r.value && OccursAt(s, pat, r.value)
    ensures r.Some? ==> forall j: nat :: from <= j < r.value ==> !OccursAt(s, pat, j)
    ensures r.None? ==> forall j: nat :: from <= j ==> !OccursAt(s, pat, j)
    decreases |s| - from
  {
    if from + |pat| > |s| then None
    else if OccursAt(s, pat, from) then Some(from)
    else FirstIndexFrom(s, pat, from + 1)
  }

  /** The leftmost occurrence of `pat` in `s`: where a non-global regular expression for it matches. */
  function FirstIndex(s: string, pat: string): (r: Option<nat>)
    ensures r.Some? ==> OccursAt(s, pat, r.value) && forall j: nat :: j < r.value ==> !OccursAt(s, pat, j)
    ensures r.None? <==> forall j: nat :: !OccursAt(s, pat, j)
  {
    FirstIndexFrom(s, pat, 0)
  }

  /** `s.includes(pat)` */
  predicate Includes(s: string, pat: string)
  {
    FirstIndex(s, pat).Some?
  }

  // ---------------------------------------------------------------------------
  // Regular-expression `.`: every character except the four line terminators

  predicate IsLineTerminator(c: char)
  {
    c == '\n' || c == '\r' || c == '\U{2028}' || c == '\U{2029}'
  }

  /** Where a greedy `.*` that starts at `from` stops: the first line terminator, or the end. */
  function LineEnd(s: string, from: nat): (e: nat)
    requires from <= |s|
    ensures from <= e <= |s|
    ensures e < |s| ==> IsLineTerminator(s[e])
    ensures forall j :: from <= j < e ==> !IsLineTerminator(s[j])
    decreases |s| - from
  {
    if from == |s| || IsLineTerminator(s[from]) then from else LineEnd(s, from + 1)
  }
}
