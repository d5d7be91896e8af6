/** Decimal digit strings: the representation of non-negative integers that
    Number.prototype.toString and JSON.stringify produce, and its value. */
module Decimal {

  predicate IsDigit(c: char) {
    '0' <= c <= '9'
  }

  predicate AllDigits(s: string) {
    forall i :: 0 <= i < |s| ==> IsDigit(s[i])
  }

  /** The value 0..9 of a digit character */
  function DigitValue(c: char): (d: nat)
    requires IsDigit(c)
    ensures d < 10
  {
    c as int - '0' as int
  }

  /** The digit character of a value 0..9 */
  function DigitChar(d: nat): (c: char)
    requires d < 10
    ensures IsDigit(c) && DigitValue(c) == d
  {
    ('0' as int + d) as char
  }

  /** The value of a digit string, most significant digit first; "" is 0 */
  function DigitsValue(s: string): nat
    requires AllDigits(s)
  {
    if s == [] then 0 else DigitsValue(s[..|s| - 1]) * 10 + DigitValue(s[|s| - 1])
  }

  /** The shortest decimal representation of n: non-empty, all digits, no leading zero
      unless n is zero itself, and denoting n. */
  function NatToString(n: nat): (s: string)
    ensures |s| >= 1 && AllDigits(s)
    ensures DigitsValue(s) == n
    ensures s[0] == '0' <==> n == 0
    ensures n == 0 ==> s == "0"
    ensures n < 10 <==> |s| == 1
  {
    if n < 10 then [DigitChar(n)]
    else
      var prefix := NatToString(n / 10);
      var s := prefix + [DigitChar(n % 10)];
      assert s[..|s| - 1] == prefix;
      s
  }

  /** A two-digit string denotes tens * 10 + ones */
  lemma TwoDigitsValue(tens: nat, ones: nat)
    requires tens < 10 && ones < 10
    ensures AllDigits([DigitChar(tens), DigitChar(ones)])
    ensures DigitsValue([DigitChar(tens), DigitChar(ones)]) == tens * 10 + ones
  {
    var s := [DigitChar(tens), DigitChar(ones)];
    assert s[..1] == [DigitChar(tens)];
    assert [DigitChar(tens)][..0] == [];
    assert DigitsValue([DigitChar(tens)]) == tens;
    assert DigitsValue(s) == DigitsValue(s[..1]) * 10 + DigitValue(s[1]);
  }

  /** A digit string that does not start with '0' denotes a positive number */
  lemma {:induction false} LeadingDigitPositive(d: string)
    requires AllDigits(d) && |d| >= 1 && d[0] != '0'
    ensures DigitsValue(d) >= 1
    decreases |d|
  {
    if |d| > 1 {
      LeadingDigitPositive(d[..|d| - 1]);
    }
  }

  /** A digit string without a leading zero is the shortest representation of its
      value: NatToString is the only such string for a given number. */
  lemma {:induction false} CanonicalDigits(d: string)
    requires AllDigits(d) && |d| >= 1 && (|d| > 1 ==> d[0] != '0')
    ensures d == NatToString(DigitsValue(d))
    decreases |d|
  {
    var last := d[|d| - 1];
    if |d| == 1 {
      assert d == [last];
      assert DigitsValue(d) == DigitValue(last) by {
        assert d[..0] == [];
      }
    } else {
      var prefix := d[..|d| - 1];
      LeadingDigitPositive(prefix);
      CanonicalDigits(prefix);
      assert d == prefix + [last];
      assert DigitsValue(d) / 10 == DigitsValue(prefix);
      assert DigitsValue(d) % 10 == DigitValue(last);
    }
  }
}
