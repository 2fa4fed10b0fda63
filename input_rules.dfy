/**
 * The edits the cash-count fields accept, and the numbers they denote.
 *
 * A quantity or the check count accepts an edit only when the new text is
 * empty or all ASCII digits. The check total accepts it only when the text is
 * empty or one or more digits, optionally followed by '.' and at most two
 * digits. A rejected edit changes nothing.
 */
module InputRules {
  import opened Options
  import opened Decimal

  /** `value === '' || /^\d+$/.test(value)`: the rule for quantities and the check count. */
  predicate IsQuantityInput(s: string)
  {
    s == "" || IsDigits(s)
  }

  /** `quantity === '' ? 0 : parseInt(quantity)`: an empty quantity counts as none. */
  function QuantityValue(q: string): nat
  {
    if q == "" then 0 else DigitsValue(q)
  }

  /** Quantities: empty or plain digits (leading zeros too); no sign, point, space or letter. */
  lemma QuantityExamples()
    ensures IsQuantityInput("") && IsQuantityInput("0") && IsQuantityInput("007") && IsQuantityInput("12")
    ensures !IsQuantityInput("abc") && !IsQuantityInput("-1") && !IsQuantityInput("1.5") && !IsQuantityInput(" 1")
  {
    assert "abc"[0] == 'a' && !IsDigit('a');
    assert "-1"[0] == '-' && !IsDigit('-');
    assert "1.5"[1] == '.' && !IsDigit('.');
    assert " 1"[0] == ' ' && !IsDigit(' ');
  }

  /**
   * `/^\d+(\.\d{0,2})?$/` read as the pattern it is: a digit prefix of some
   * length i, and then either nothing, or '.' and at most two digits.
   */
  predicate MatchesAmount(s: string)
  {
    exists i :: 0 < i <= |s| && IsDigits(s[..i]) &&
      (i == |s| || (s[i] == '.' && |s| - (i + 1) <= 2 && AllDigits(s[i + 1..])))
  }

  /** `value === '' || /^\d+(\.\d{0,2})?$/.test(value)`: the rule for the check total. */
  predicate IsAmountInput(s: string)
  {
    s == "" || MatchesAmount(s)
  }

  /** The index of the first '.' in s, or |s| when there is none. */
  function DotIndex(s: string): (i: nat)
    ensures i <= |s|
    ensures i < |s| ==> s[i] == '.'
    ensures forall j :: 0 <= j < i ==> s[j] != '.'
  {
    if s == [] then 0 else if s[0] == '.' then 0 else 1 + DotIndex(s[1..])
  }

  /** Cents denoted by at most two fraction digits: "" is 0, "5" is 50, "05" is 5. */
  function FractionCents(f: string): (c: nat)
    requires |f| <= 2
    ensures c < 100
  {
    if |f| == 0 then 0
    else if |f| == 1 then DigitValue(f[0]) * 10
    else DigitValue(f[0]) * 10 + DigitValue(f[1])
  }

  /**
   * The check total in exact cents, as parseFloat reads a text that the amount
   * pattern accepts, found by splitting at the first '.'; None when the text
   * does not have the accepted form.
   */
  function ParseAmount(s: string): Option<nat>
  {
    var i := DotIndex(s);
    if i == 0 || !IsDigits(s[..i]) then None
    else if i == |s| then Some(DigitsValue(s) * 100)
    else if |s| - (i + 1) <= 2 && AllDigits(s[i + 1..]) then
      Some(DigitsValue(s[..i]) * 100 + FractionCents(s[i + 1..]))
    else None
  }

  /** The splitting reader accepts exactly the texts that the amount pattern matches. */
  lemma ParseAmountMatches(s: string)
    ensures ParseAmount(s).Some? <==> MatchesAmount(s)
  {
    var d := DotIndex(s);
    if ParseAmount(s).Some? {
      assert d == |s| ==> s[..d] == s;
      assert 0 < d <= |s| && IsDigits(s[..d]);
    }
    if MatchesAmount(s) {
      var i :| 0 < i <= |s| && IsDigits(s[..i]) &&
        (i == |s| || (s[i] == '.' && |s| - (i + 1) <= 2 && AllDigits(s[i + 1..])));
      assert forall j :: 0 <= j < i ==> s[..i][j] == s[j];
      assert d == i;
      assert i == |s| ==> s[..i] == s;
    }
  }

  /** `if (checks.total && checks.total !== '') total += parseFloat(checks.total)`: an empty check total adds nothing. */
  function CheckTotalCents(s: string): nat
    requires IsAmountInput(s)
  {
    if s == "" then 0
    else
      ParseAmountMatches(s);
      ParseAmount(s).value
  }

  /** The shown text of an amount, without its '$', is itself an accepted check total worth the same cents. */
  lemma FormatCentsIsAmount(cents: nat)
    ensures var r := FormatCents(cents);
      && r[0] == '$'
      && IsAmountInput(r[1..])
      && ParseAmount(r[1..]) == Some(cents)
  {
    FormatCentsReadsBack(cents);
    var r := FormatCents(cents);
    var s := r[1..];
    var i := |s| - 3;
    assert s[..i] == r[1..|r| - 3];
    assert s[i + 1..] == r[|r| - 2..];
    assert s[i] == '.';
    assert DotIndex(s) == i by {
      assert forall j :: 0 <= j < i ==> s[j] == s[..i][j];
    }
    var f := s[i + 1..];
    TwoDigitsValue(f[0], f[1]);
    assert f == [f[0], f[1]];
    ParseAmountMatches(s);
  }

  /** Accepted check totals, and what parseFloat makes of them. */
  lemma AcceptedAmounts()
    ensures ParseAmount("12") == Some(1200) && ParseAmount("12.") == Some(1200)
    ensures ParseAmount("12.5") == Some(1250) && ParseAmount("12.50") == Some(1250)
    ensures ParseAmount("0.05") == Some(5)
  {
    assert "12"[..2] == "12";
    assert "12."[..2] == "12";
    assert "12.5"[..2] == "12";
    assert "12.50"[..2] == "12";
    assert "0.05"[..1] == "0";
    TwoDigitsValue('1', '2');
  }

  /** Rejected check totals: no integer part, three decimals, a second '.', a letter. */
  lemma RejectedAmounts()
    ensures !IsAmountInput(".5") && !IsAmountInput("1.234") && !IsAmountInput("1.2.3") && !IsAmountInput("1a")
  {
    ParseAmountMatches(".5");
    ParseAmountMatches("1.234");
    ParseAmountMatches("1.2.3");
    ParseAmountMatches("1a");
    assert "1.2.3"[2..] == "2.3";
    assert !IsDigit('.');
    assert !IsDigit('a');
  }

}
