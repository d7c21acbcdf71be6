/** The string operations the pages and the checkout function rely on:
    `toLowerCase`, `includes`, `startsWith` and `String(n)` for a
    non-negative integer. */
module Strings {

  predicate IsUpper(c: char) {
    'A' <= c <= 'Z'
  }

  /** Lower-cases one ASCII letter; every other character is kept. */
  function LowerChar(c: char): char {
    if IsUpper(c) then (c as int + 32) as char else c
  }

  /** `s.toLowerCase()`, character by character. */
  function Lower(s: string): (r: string)
    ensures |r| == |s|
    ensures forall i :: 0 <= i < |s| ==> r[i] == LowerChar(s[i])
  {
    if s == [] then [] else [LowerChar(s[0])] + Lower(s[1..])
  }

  /** A lower-cased string has no upper-case letter left, so lower-casing
      it again changes nothing. */
  lemma LowerIdempotent(s: string)
    ensures Lower(Lower(s)) == Lower(s)
  {
    var l := Lower(s);
    assert forall i :: 0 <= i < |l| ==> !IsUpper(l[i]);
    assert forall i :: 0 <= i < |l| ==> Lower(l)[i] == l[i];
  }

  /** Two strings that differ only in letter case have the same lower-case form. */
  lemma LowerIgnoresCase(a: string, b: string)
    requires |a| == |b|
    requires forall i :: 0 <= i < |a| ==> LowerChar(a[i]) == LowerChar(b[i])
    ensures Lower(a) == Lower(b)
  {
    assert forall i :: 0 <= i < |a| ==> Lower(a)[i] == Lower(b)[i];
  }

  /** `s.startsWith(prefix)`. */
  predicate StartsWith(s: string, prefix: string) {
    |prefix| <= |s| && s[..|prefix|] == prefix
  }

  /** A string starts with whatever it was built from first. */
  lemma StartsWithConcat(prefix: string, rest: string)
    ensures StartsWith(prefix + rest, prefix)
  {
    assert (prefix + rest)[..|prefix|] == prefix;
  }

  /** `t` occurs in `s` starting at index `i`. */
  predicate OccursAt(s: string, t: string, i: int) {
    0 <= i && i + |t| <= |s| && s[i..i + |t|] == t
  }

  /** `s.includes(t)`: tries every starting position from the left. */
  function Contains(s: string, t: string): (r: bool)
    ensures r <==> exists i :: OccursAt(s, t, i)
  {
    if StartsWith(s, t) then
      assert OccursAt(s, t, 0);
      true
    else if s == [] then
      assert forall i :: !OccursAt(s, t, i);
      false
    else
      var r := Contains(s[1..], t);
      if r then
        var i :| OccursAt(s[1..], t, i);
        assert OccursAt(s, t, i + 1);
        true
      else
        assert forall i :: OccursAt(s, t, i) ==> i == 0 || OccursAt(s[1..], t, i - 1);
        false
  }

  /** Every string contains the empty string (`"abc".includes("")` is true). */
  lemma ContainsEmpty(s: string)
    ensures Contains(s, "")
  {
    assert OccursAt(s, "", 0);
  }

  function DigitChar(d: nat): char
    requires d < 10
  {
    ('0' as int + d) as char
  }

  function DigitValue(c: char): int {
    c as int - '0' as int
  }

  predicate IsDigit(c: char) {
    '0' <= c <= '9'
  }

  /** The value of a string of decimal digits, most significant first. */
  function DecimalValue(s: string): int {
    if s == [] then 0 else 10 * DecimalValue(s[..|s| - 1]) + DigitValue(s[|s| - 1])
  }

  /** `String(n)` for a non-negative integer: its decimal digits, with no
      leading zero. */
  function NatToDecimal(n: nat): (r: string)
    ensures 1 <= |r|
    ensures forall i :: 0 <= i < |r| ==> IsDigit(r[i])
    ensures |r| > 1 ==> r[0] != '0'
    ensures n < 10 <==> |r| == 1
  {
    if n < 10 then [DigitChar(n)] else NatToDecimal(n / 10) + [DigitChar(n % 10)]
  }

  /** Reading back the digits of `String(n)` gives `n`. */
  lemma {:induction false} DecimalRoundTrip(n: nat)
    ensures DecimalValue(NatToDecimal(n)) == n
  {
    var r := NatToDecimal(n);
    if n < 10 {
      assert r[..0] == [];
    } else {
      assert r[..|r| - 1] == NatToDecimal(n / 10);
      DecimalRoundTrip(n / 10);
    }
  }
}
