/**
 * The denominations the page counts and the total shown beside each one.
 *
 * Bills are keyed by their label ("$1" … "$100") and their face value is read
 * from the label; coins are keyed by name and priced from a table. Money is in
 * exact cents: a bill is worth 100 × face, a coin 1, 5, 10 or 25.
 */
module Denominations {
  import opened Options
  import opened Decimal
  import opened InputRules

  /** The bill keys, in the order the page lists them. */
  const BillLabels: seq<string> := ["$1", "$5", "$10", "$20", "$50", "$100"]

  /** The coin keys, in the order the page lists them. */
  const CoinLabels: seq<string> := ["Pennies", "Nickles", "Dimes", "Quarters"]

  /** The worth of one coin of each kind, in cents. */
  const CoinCents: map<string, nat> := map["Pennies" := 1, "Nickles" := 5, "Dimes" := 10, "Quarters" := 25]

  /** `denomination.replace('$', '')`: the key with its first '$' removed. */
  function WithoutDollar(denomination: string): (r: string)
    ensures '$' in denomination ==> |r| == |denomination| - 1
    ensures '$' !in denomination ==> r == denomination
  {
    if denomination == [] then []
    else if denomination[0] == '$' then denomination[1..]
    else [denomination[0]] + WithoutDollar(denomination[1..])
  }

  /** `parseInt(denomination.replace('$', ''))`: the face value of a bill, in dollars. */
  function FaceValue(denomination: string): nat
  {
    DigitsValue(WithoutDollar(denomination))
  }

  /** calculateBillTotal: the face value times the quantity, shown as money. */
  function BillTotal(denomination: string, quantity: string): string
  {
    FormatCents(FaceValue(denomination) * 100 * QuantityValue(quantity))
  }

  /** calculateCoinTotal: the coin's worth times the quantity, shown as money. */
  function CoinTotal(kind: string, quantity: string): string
    requires kind in CoinCents
  {
    FormatCents(CoinCents[kind] * QuantityValue(quantity))
  }

  /** The six bill labels name the faces 1, 5, 10, 20, 50 and 100 dollars. */
  lemma BillFaces()
    ensures |BillLabels| == 6
    ensures FaceValue(BillLabels[0]) == 1 && FaceValue(BillLabels[1]) == 5
    ensures FaceValue(BillLabels[2]) == 10 && FaceValue(BillLabels[3]) == 20
    ensures FaceValue(BillLabels[4]) == 50 && FaceValue(BillLabels[5]) == 100
  {
    assert WithoutDollar("$1") == "1";
    assert WithoutDollar("$5") == "5";
    assert WithoutDollar("$10") == "10";
    assert WithoutDollar("$20") == "20";
    assert WithoutDollar("$50") == "50";
    assert WithoutDollar("$100") == "100";
    TwoDigitsValue('1', '0');
    TwoDigitsValue('2', '0');
    TwoDigitsValue('5', '0');
    assert "100"[..2] == "10";
  }

  /** Every coin the page lists has a price, and only those do. */
  lemma CoinLabelsPriced()
    ensures forall i :: 0 <= i < |CoinLabels| ==> CoinLabels[i] in CoinCents
    ensures forall k :: k in CoinCents <==> k in CoinLabels
  {
  }

  /**
   * The total shown beside a bill reads back, as an amount, as exactly face
   * value × quantity; an empty quantity shows "$0.00".
   */
  lemma BillTotalMeaning(denomination: string, quantity: string)
    ensures var t := BillTotal(denomination, quantity);
      t[0] == '$' && ParseAmount(t[1..]) == Some(FaceValue(denomination) * 100 * QuantityValue(quantity))
    ensures quantity == "" ==> BillTotal(denomination, quantity) == "$0.00"
  {
    var cents := FaceValue(denomination) * 100 * QuantityValue(quantity);
    assert BillTotal(denomination, quantity) == FormatCents(cents);
    FormatCentsIsAmount(cents);
    if quantity == "" {
      assert cents == 0;
      FormatZero();
    }
  }

  /**
   * The total shown beside a coin reads back, as an amount, as exactly the
   * coin's worth × quantity; an empty quantity shows "$0.00".
   */
  lemma CoinTotalMeaning(kind: string, quantity: string)
    requires kind in CoinCents
    ensures var t := CoinTotal(kind, quantity);
      t[0] == '$' && ParseAmount(t[1..]) == Some(CoinCents[kind] * QuantityValue(quantity))
    ensures quantity == "" ==> CoinTotal(kind, quantity) == "$0.00"
  {
    var cents := CoinCents[kind] * QuantityValue(quantity);
    assert CoinTotal(kind, quantity) == FormatCents(cents);
    FormatCentsIsAmount(cents);
    if quantity == "" {
      assert cents == 0;
      FormatZero();
    }
  }

}
