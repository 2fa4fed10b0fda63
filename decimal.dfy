/**
 * Decimal digit strings and money text, on exact naturals.
 *
 * The page reads quantities with parseInt, writes them back with toString and
 * shows money as '$' followed by toFixed(2). Here a digit string denotes its
 * exact natural number and money is an exact number of cents.
 */
module Decimal {

  predicate IsDigit(c: char)
  {
    '0' <= c <= '9'
  }

  /** Zero or more ASCII digits: the pattern `\d*`. */
  predicate AllDigits(s: string)
  {
    forall i :: 0 <= i < |s| ==> IsDigit(s[i])
  }

  /** One or more ASCII digits and nothing else: the pattern `^\d+$`. */
  predicate IsDigits(s: string)
  {
    |s| > 0 && AllDigits(s)
  }

  function DigitValue(c: char): (d: nat)
    ensures d < 10
  {
    if IsDigit(c) then c as int - '0' as int else 0
  }

  function DigitChar(d: nat): (c: char)
    requires d < 10
    ensures IsDigit(c) && DigitValue(c) == d
  {
    ('0' as int + d) as char
  }

  /** The number a digit string denotes in base ten, leading zeros allowed (parseInt on digits). */
  function DigitsValue(s: string): nat
  {
    if s == [] then 0 else DigitsValue(s[..|s| - 1]) * 10 + DigitValue(s[|s| - 1])
  }

  /** The decimal text of n without leading zeros (Number.prototype.toString on a natural). */
  function NatToString(n: nat): string
  {
    if n < 10 then [DigitChar(n)] else NatToString(n / 10) + [DigitChar(n % 10)]
  }

  /** toString yields digits that parseInt reads back as the same number, with no leading zero. */
  lemma {:induction false} NatToStringRoundTrip(n: nat)
    ensures IsDigits(NatToString(n))
    ensures DigitsValue(NatToString(n)) == n
    ensures n > 0 ==> NatToString(n)[0] != '0'
  {
    var s := NatToString(n);
    if n >= 10 {
      NatToStringRoundTrip(n / 10);
      assert s[..|s| - 1] == NatToString(n / 10);
    }
  }

  /** The value of a two-character digit string. */
  lemma TwoDigitsValue(a: char, b: char)
    ensures DigitsValue([a, b]) == DigitValue(a) * 10 + DigitValue(b)
  {
    assert [a, b][..1] == [a];
    assert [a][..0] == [];
    assert DigitsValue([a]) == DigitValue(a);
  }

  /** '$' followed by the amount with exactly two decimals: '$' + (cents / 100).toFixed(2). */
  function FormatCents(cents: nat): string
  {
    "$" + NatToString(cents / 100) + "." + [DigitChar(cents % 100 / 10), DigitChar(cents % 10)]
  }

  /**
   * The shape of a formatted amount: '$', the whole units in digits, '.', two
   * digits; and the two digit groups read back as the amount.
   */
  lemma FormatCentsReadsBack(cents: nat)
    ensures var r := FormatCents(cents);
      && |r| >= 5 && r[0] == '$' && r[|r| - 3] == '.'
      && IsDigits(r[1..|r| - 3]) && IsDigits(r[|r| - 2..])
      && DigitsValue(r[1..|r| - 3]) * 100 + DigitsValue(r[|r| - 2..]) == cents
  {
    var r := FormatCents(cents);
    var units := NatToString(cents / 100);
    var a, b := DigitChar(cents % 100 / 10), DigitChar(cents % 10);
    NatToStringRoundTrip(cents / 100);
    assert r == "$" + units + "." + [a, b];
    assert r[1..|r| - 3] == units;
    assert r[|r| - 2..] == [a, b];
    TwoDigitsValue(a, b);
  }

  /** The display of no money at all. */
  lemma FormatZero()
    ensures FormatCents(0) == "$0.00"
  {
    assert NatToString(0) == "0";
  }

}
