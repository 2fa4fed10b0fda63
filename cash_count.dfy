/**
 * The cash count as values: the entry kept for each denomination, the check
 * fields, the aggregate they add up to, and the new quantity an increment or
 * decrement button computes.
 */
module CashCount {
  import opened Options
  import opened Decimal
  import opened InputRules
  import opened Denominations

  /** What the page keeps per denomination: the quantity as typed and the total shown beside it. */
  datatype Entry = Entry(quantity: string, total: string)

  /** The two check fields, entered independently of each other. */
  datatype Checks = Checks(count: string, total: string)

  /** The entry of a denomination nobody has counted yet. */
  const EmptyEntry := Entry("", "$0.00")

  /** Every key of the list has an entry. */
  predicate HasKeys(m: map<string, Entry>, keys: seq<string>)
  {
    forall i :: 0 <= i < |keys| ==> keys[i] in m
  }

  /** Every key of the list has a price. */
  predicate ArePriced(keys: seq<string>)
  {
    forall i :: 0 <= i < |keys| ==> keys[i] in CoinCents
  }

  /** No key occurs twice in the list. */
  predicate Distinct(keys: seq<string>)
  {
    forall i, j :: 0 <= i < j < |keys| ==> keys[i] != keys[j]
  }

  /**
   * The bills as the page keeps them: the six denominations, each quantity as
   * the quantity rule accepts, each shown total face value × quantity.
   */
  predicate BillsConsistent(bills: map<string, Entry>)
  {
    && bills.Keys == (set d | d in BillLabels)
    && HasKeys(bills, BillLabels)
    && forall d :: d in bills ==>
         IsQuantityInput(bills[d].quantity) && bills[d].total == BillTotal(d, bills[d].quantity)
  }

  /**
   * The coins as the page keeps them: the four kinds, each quantity as the
   * quantity rule accepts, each shown total worth × quantity.
   */
  predicate CoinsConsistent(coins: map<string, Entry>)
  {
    && coins.Keys == (set k | k in CoinLabels)
    && HasKeys(coins, CoinLabels)
    && forall k :: k in coins ==>
         k in CoinCents && IsQuantityInput(coins[k].quantity) && coins[k].total == CoinTotal(k, coins[k].quantity)
  }

  /** Both check fields as their rules accept. */
  predicate ChecksConsistent(checks: Checks)
  {
    IsQuantityInput(checks.count) && IsAmountInput(checks.total)
  }

  /** An accepted bill edit keeps the bills consistent, under the same keys. */
  lemma BillEditConsistent(bills: map<string, Entry>, d: string, value: string)
    requires BillsConsistent(bills) && d in bills && IsQuantityInput(value)
    ensures bills[d := Entry(value, BillTotal(d, value))].Keys == bills.Keys
    ensures BillsConsistent(bills[d := Entry(value, BillTotal(d, value))])
  {
    var b := bills[d := Entry(value, BillTotal(d, value))];
    assert b.Keys == bills.Keys;
    assert HasKeys(b, BillLabels);
  }

  /** An accepted coin edit keeps the coins consistent, under the same keys. */
  lemma CoinEditConsistent(coins: map<string, Entry>, k: string, value: string)
    requires CoinsConsistent(coins) && k in coins && IsQuantityInput(value)
    ensures k in CoinCents
    ensures coins[k := Entry(value, CoinTotal(k, value))].Keys == coins.Keys
    ensures CoinsConsistent(coins[k := Entry(value, CoinTotal(k, value))])
  {
    var c := coins[k := Entry(value, CoinTotal(k, value))];
    assert c.Keys == coins.Keys;
    assert HasKeys(c, CoinLabels);
  }

  /** Cleared bills are consistent: an empty quantity shows "$0.00". */
  lemma ClearedBillsConsistent(bills: map<string, Entry>)
    requires bills.Keys == (set d | d in BillLabels)
    requires forall d :: d in bills ==> bills[d] == EmptyEntry
    ensures BillsConsistent(bills)
  {
    forall d | d in bills
      ensures bills[d].total == BillTotal(d, bills[d].quantity)
    {
      BillTotalMeaning(d, "");
    }
  }

  /** Cleared coins are consistent: an empty quantity shows "$0.00". */
  lemma ClearedCoinsConsistent(coins: map<string, Entry>)
    requires coins.Keys == (set k | k in CoinLabels)
    requires forall k :: k in coins ==> coins[k] == EmptyEntry
    ensures CoinsConsistent(coins)
  {
    CoinLabelsPriced();
    forall k | k in coins
      ensures k in CoinCents && coins[k].total == CoinTotal(k, coins[k].quantity)
    {
      CoinTotalMeaning(k, "");
    }
  }

  /** The bills of the listed denominations, in cents: Σ 100 × face × quantity. */
  function BillsCents(keys: seq<string>, bills: map<string, Entry>): nat
    requires HasKeys(bills, keys)
  {
    if keys == [] then 0
    else
      var d := keys[|keys| - 1];
      BillsCents(keys[..|keys| - 1], bills) + FaceValue(d) * 100 * QuantityValue(bills[d].quantity)
  }

  /** The coins of the listed kinds, in cents: Σ worth × quantity. */
  function CoinsCents(keys: seq<string>, coins: map<string, Entry>): nat
    requires HasKeys(coins, keys) && ArePriced(keys)
  {
    if keys == [] then 0
    else
      var k := keys[|keys| - 1];
      CoinsCents(keys[..|keys| - 1], coins) + CoinCents[k] * QuantityValue(coins[k].quantity)
  }

  /**
   * The aggregate of the count, in cents: every bill, every coin and the check
   * total. The check count takes no part in it.
   */
  function Aggregate(bills: map<string, Entry>, coins: map<string, Entry>, checks: Checks): nat
    requires HasKeys(bills, BillLabels) && HasKeys(coins, CoinLabels)
    requires IsAmountInput(checks.total)
  {
    CoinLabelsPriced();
    BillsCents(BillLabels, bills) + CoinsCents(CoinLabels, coins) + CheckTotalCents(checks.total)
  }

  /** The bill loop of the aggregate effect: adds face × quantity for each key it walks. */
  method SumBills(keys: seq<string>, bills: map<string, Entry>) returns (cents: nat)
    requires HasKeys(bills, keys)
    ensures cents == BillsCents(keys, bills)
  {
    cents := 0;
    for i := 0 to |keys|
      invariant cents == BillsCents(keys[..i], bills)
    {
      var d := keys[i];
      var quantity := QuantityValue(bills[d].quantity);
      assert keys[..i + 1][..i] == keys[..i];
      cents := cents + FaceValue(d) * 100 * quantity;
    }
    assert keys[..|keys|] == keys;
  }

  /** The coin loop of the aggregate effect: adds worth × quantity for each key it walks. */
  method SumCoins(keys: seq<string>, coins: map<string, Entry>) returns (cents: nat)
    requires HasKeys(coins, keys) && ArePriced(keys)
    ensures cents == CoinsCents(keys, coins)
  {
    cents := 0;
    for i := 0 to |keys|
      invariant cents == CoinsCents(keys[..i], coins)
    {
      var k := keys[i];
      var quantity := QuantityValue(coins[k].quantity);
      assert keys[..i + 1][..i] == keys[..i];
      cents := cents + CoinCents[k] * quantity;
    }
    assert keys[..|keys|] == keys;
  }

  /**
   * The aggregate effect of the page: the bills, then the coins, then the
   * check total when there is one.
   */
  method ComputeAggregate(bills: map<string, Entry>, coins: map<string, Entry>, checks: Checks)
    returns (cents: nat)
    requires HasKeys(bills, BillLabels) && HasKeys(coins, CoinLabels)
    requires IsAmountInput(checks.total)
    ensures cents == Aggregate(bills, coins, checks)
  {
    CoinLabelsPriced();
    var billCents := SumBills(BillLabels, bills);
    var coinCents := SumCoins(CoinLabels, coins);
    cents := billCents + coinCents;
    if checks.total != "" {
      ParseAmountMatches(checks.total);
      cents := cents + ParseAmount(checks.total).value;
    }
  }

  /**
   * The maps the clear operation builds: one empty entry (no quantity, "$0.00")
   * per key it walks.
   */
  method ClearedEntries(keys: seq<string>) returns (m: map<string, Entry>)
    ensures m.Keys == set k | k in keys
    ensures forall k :: k in m ==> m[k] == EmptyEntry
  {
    m := map[];
    for i := 0 to |keys|
      invariant m.Keys == set k | k in keys[..i]
      invariant forall k :: k in m ==> m[k] == EmptyEntry
    {
      assert keys[..i + 1] == keys[..i] + [keys[i]];
      m := m[keys[i] := EmptyEntry];
    }
    assert keys[..|keys|] == keys;
  }

  /**
   * The increment button: an empty field becomes "1", a quantity n becomes the
   * text of n + 1.
   */
  function Incremented(quantity: string): (r: string)
    requires IsQuantityInput(quantity)
    ensures IsDigits(r) && IsQuantityInput(r)
    ensures QuantityValue(r) == QuantityValue(quantity) + 1
    ensures quantity == "" ==> r == "1"
  {
    var next := if quantity == "" then "1" else NatToString(DigitsValue(quantity) + 1);
    NatToStringRoundTrip(DigitsValue(quantity) + 1);
    assert DigitsValue("1") == 1 by {
      assert "1"[..0] == [];
    }
    next
  }

  /**
   * The decrement button: it acts only on a non-empty field whose quantity is
   * above zero, and then gives the text of n - 1; otherwise it does nothing.
   */
  function Decremented(quantity: string): (r: Option<string>)
    requires IsQuantityInput(quantity)
    ensures r.Some? <==> QuantityValue(quantity) > 0
    ensures r.Some? ==> IsDigits(r.value) && QuantityValue(r.value) + 1 == QuantityValue(quantity)
  {
    if quantity != "" && DigitsValue(quantity) > 0 then
      NatToStringRoundTrip(DigitsValue(quantity) - 1);
      Some(NatToString(DigitsValue(quantity) - 1))
    else
      None
  }

  /** Stepping at the edges: "" and "0" cannot go down, "1" goes down to "0" and not to "". */
  lemma StepExamples()
    ensures Decremented("") == None && Decremented("0") == None && Decremented("00") == None
    ensures Decremented("1") == Some("0") && Decremented("10") == Some("9")
    ensures Incremented("") == "1" && Incremented("9") == "10" && Incremented("007") == "8"
  {
    assert "00"[..1] == "0";
    assert "10"[..1] == "1";
    assert "007"[..2] == "00";
    assert "00"[..1] == "0";
    assert "0"[..0] == [];
    assert "1"[..0] == [];
    assert "9"[..0] == [];
    assert NatToString(10) == "10";
  }

  /** A count where nothing was entered adds up to nothing. */
  lemma {:induction false} BillsCentsEmpty(keys: seq<string>, bills: map<string, Entry>)
    requires HasKeys(bills, keys)
    requires forall k :: k in bills ==> bills[k].quantity == ""
    ensures BillsCents(keys, bills) == 0
  {
    if keys != [] {
      BillsCentsEmpty(keys[..|keys| - 1], bills);
    }
  }

  /** A count where no coin was entered adds up to nothing. */
  lemma {:induction false} CoinsCentsEmpty(keys: seq<string>, coins: map<string, Entry>)
    requires HasKeys(coins, keys) && ArePriced(keys)
    requires forall k :: k in coins ==> coins[k].quantity == ""
    ensures CoinsCents(keys, coins) == 0
  {
    if keys != [] {
      CoinsCentsEmpty(keys[..|keys| - 1], coins);
    }
  }

  /** The cleared count: no quantity and no check total make an aggregate of "$0.00". */
  lemma ClearedAggregate(bills: map<string, Entry>, coins: map<string, Entry>, checks: Checks)
    requires HasKeys(bills, BillLabels) && HasKeys(coins, CoinLabels)
    requires forall k :: k in bills ==> bills[k].quantity == ""
    requires forall k :: k in coins ==> coins[k].quantity == ""
    requires checks.total == ""
    ensures Aggregate(bills, coins, checks) == 0
    ensures FormatCents(Aggregate(bills, coins, checks)) == "$0.00"
  {
    CoinLabelsPriced();
    BillsCentsEmpty(BillLabels, bills);
    CoinsCentsEmpty(CoinLabels, coins);
    FormatZero();
  }

  /**
   * The cleared count, as the page opens and as clear leaves it: consistent,
   * adding up to nothing, shown as "$0.00".
   */
  lemma ClearedCount(bills: map<string, Entry>, coins: map<string, Entry>)
    requires bills.Keys == (set d | d in BillLabels) && forall d :: d in bills ==> bills[d] == EmptyEntry
    requires coins.Keys == (set k | k in CoinLabels) && forall k :: k in coins ==> coins[k] == EmptyEntry
    ensures BillsConsistent(bills) && CoinsConsistent(coins) && ChecksConsistent(Checks("", ""))
    ensures Aggregate(bills, coins, Checks("", "")) == 0
    ensures FormatCents(Aggregate(bills, coins, Checks("", ""))) == "$0.00"
  {
    ClearedBillsConsistent(bills);
    ClearedCoinsConsistent(coins);
    ClearedAggregate(bills, coins, Checks("", ""));
  }

  /**
   * Editing one bill moves the bill sum by exactly face × (new - old) and no
   * other denomination's contribution changes.
   */
  lemma {:induction false} BillsCentsUpdate(keys: seq<string>, bills: map<string, Entry>, d: string, e: Entry)
    requires HasKeys(bills, keys) && Distinct(keys)
    requires d in bills
    ensures HasKeys(bills[d := e], keys)
    ensures d in keys ==>
      BillsCents(keys, bills[d := e]) + FaceValue(d) * 100 * QuantityValue(bills[d].quantity)
      == BillsCents(keys, bills) + FaceValue(d) * 100 * QuantityValue(e.quantity)
    ensures d !in keys ==> BillsCents(keys, bills[d := e]) == BillsCents(keys, bills)
  {
    if keys != [] {
      var init := keys[..|keys| - 1];
      assert Distinct(init);
      assert d in keys && keys[|keys| - 1] != d ==> d in init;
      assert keys[|keys| - 1] == d ==> d !in init;
      BillsCentsUpdate(init, bills, d, e);
    }
  }

  /**
   * Editing one coin moves the coin sum by exactly worth × (new - old) and no
   * other kind's contribution changes.
   */
  lemma {:induction false} CoinsCentsUpdate(keys: seq<string>, coins: map<string, Entry>, k: string, e: Entry)
    requires HasKeys(coins, keys) && ArePriced(keys) && Distinct(keys)
    requires k in coins && k in CoinCents
    ensures HasKeys(coins[k := e], keys)
    ensures k in keys ==>
      CoinsCents(keys, coins[k := e]) + CoinCents[k] * QuantityValue(coins[k].quantity)
      == CoinsCents(keys, coins) + CoinCents[k] * QuantityValue(e.quantity)
    ensures k !in keys ==> CoinsCents(keys, coins[k := e]) == CoinsCents(keys, coins)
  {
    if keys != [] {
      var init := keys[..|keys| - 1];
      assert Distinct(init);
      assert k in keys && keys[|keys| - 1] != k ==> k in init;
      assert keys[|keys| - 1] == k ==> k !in init;
      CoinsCentsUpdate(init, coins, k, e);
    }
  }

  /** The check count never contributes to the aggregate. */
  lemma CheckCountIgnored(bills: map<string, Entry>, coins: map<string, Entry>, checks: Checks, count: string)
    requires HasKeys(bills, BillLabels) && HasKeys(coins, CoinLabels)
    requires IsAmountInput(checks.total)
    ensures Aggregate(bills, coins, checks.(count := count)) == Aggregate(bills, coins, checks)
  {
  }

  /** The amount a shown total such as "$12.50" reads as, in cents (0 for a text of another form). */
  function ShownCents(total: string): nat
  {
    if total == [] then 0
    else match ParseAmount(total[1..])
      case Some(c) => c
      case None => 0
  }

  /** The sum of the totals shown beside the listed keys, read back as amounts. */
  function ShownSum(keys: seq<string>, m: map<string, Entry>): nat
    requires HasKeys(m, keys)
  {
    if keys == [] then 0 else ShownSum(keys[..|keys| - 1], m) + ShownCents(m[keys[|keys| - 1]].total)
  }

  lemma {:induction false} BillsCentsShown(keys: seq<string>, bills: map<string, Entry>)
    requires HasKeys(bills, keys)
    requires forall i :: 0 <= i < |keys| ==>
      bills[keys[i]].total == BillTotal(keys[i], bills[keys[i]].quantity)
    ensures BillsCents(keys, bills) == ShownSum(keys, bills)
  {
    if keys != [] {
      var d := keys[|keys| - 1];
      BillTotalMeaning(d, bills[d].quantity);
      BillsCentsShown(keys[..|keys| - 1], bills);
    }
  }

  lemma {:induction false} CoinsCentsShown(keys: seq<string>, coins: map<string, Entry>)
    requires HasKeys(coins, keys) && ArePriced(keys)
    requires forall i :: 0 <= i < |keys| ==>
      coins[keys[i]].total == CoinTotal(keys[i], coins[keys[i]].quantity)
    ensures CoinsCents(keys, coins) == ShownSum(keys, coins)
  {
    if keys != [] {
      var k := keys[|keys| - 1];
      CoinTotalMeaning(k, coins[k].quantity);
      CoinsCentsShown(keys[..|keys| - 1], coins);
    }
  }

  /**
   * On a consistent count the aggregate is the sum of the six bill totals and
   * the four coin totals as shown, plus the check total.
   */
  lemma AggregateIsSumOfShownTotals(bills: map<string, Entry>, coins: map<string, Entry>, checks: Checks)
    requires BillsConsistent(bills) && CoinsConsistent(coins) && ChecksConsistent(checks)
    ensures Aggregate(bills, coins, checks)
      == ShownSum(BillLabels, bills) + ShownSum(CoinLabels, coins) + CheckTotalCents(checks.total)
  {
    CoinLabelsPriced();
    BillsCentsShown(BillLabels, bills);
    CoinsCentsShown(CoinLabels, coins);
  }

  /** No denomination is listed twice. */
  lemma LabelsDistinct()
    ensures Distinct(BillLabels) && Distinct(CoinLabels)
  {
  }

  /**
   * An edit of one bill changes the aggregate by exactly 100 × face × (new
   * quantity - old quantity).
   */
  lemma AggregateAfterBillEdit(bills: map<string, Entry>, coins: map<string, Entry>, checks: Checks, d: string, e: Entry)
    requires HasKeys(bills, BillLabels) && HasKeys(coins, CoinLabels)
    requires IsAmountInput(checks.total)
    requires d in BillLabels
    ensures HasKeys(bills[d := e], BillLabels)
    ensures Aggregate(bills[d := e], coins, checks) + FaceValue(d) * 100 * QuantityValue(bills[d].quantity)
      == Aggregate(bills, coins, checks) + FaceValue(d) * 100 * QuantityValue(e.quantity)
  {
    LabelsDistinct();
    BillsCentsUpdate(BillLabels, bills, d, e);
  }

  /**
   * An edit of one coin changes the aggregate by exactly worth × (new quantity
   * - old quantity).
   */
  lemma AggregateAfterCoinEdit(bills: map<string, Entry>, coins: map<string, Entry>, checks: Checks, k: string, e: Entry)
    requires HasKeys(bills, BillLabels) && HasKeys(coins, CoinLabels)
    requires IsAmountInput(checks.total)
    requires k in CoinLabels
    ensures HasKeys(coins[k := e], CoinLabels) && k in CoinCents
    ensures Aggregate(bills, coins[k := e], checks) + CoinCents[k] * QuantityValue(coins[k].quantity)
      == Aggregate(bills, coins, checks) + CoinCents[k] * QuantityValue(e.quantity)
  {
    LabelsDistinct();
    CoinLabelsPriced();
    CoinsCentsUpdate(CoinLabels, coins, k, e);
  }

  /** No bill and no coin counted. */
  const NoBills := map d | d in BillLabels :: EmptyEntry
  const NoCoins := map k | k in CoinLabels :: EmptyEntry

  /** The worked example of the count: two $1 bills, one $20 bill, four quarters, checks for 5.50. */
  const ExampleBills := NoBills["$1" := Entry("2", "$2.00")]["$20" := Entry("1", "$20.00")]
  const ExampleCoins := NoCoins["Quarters" := Entry("4", "$1.00")]
  const ExampleChecks := Checks("", "5.50")

  lemma ExampleBillsCents()
    ensures HasKeys(ExampleBills, BillLabels) && BillsCents(BillLabels, ExampleBills) == 2200
  {
    BillFaces();
    LabelsDistinct();
    assert QuantityValue("2") == 2 && QuantityValue("1") == 1 by {
      assert "2"[..0] == [] && "1"[..0] == [];
    }
    BillsCentsEmpty(BillLabels, NoBills);
    var one := NoBills["$1" := Entry("2", "$2.00")];
    BillsCentsUpdate(BillLabels, NoBills, "$1", Entry("2", "$2.00"));
    BillsCentsUpdate(BillLabels, one, "$20", Entry("1", "$20.00"));
  }

  lemma ExampleCoinsCents()
    ensures HasKeys(ExampleCoins, CoinLabels) && ArePriced(CoinLabels)
    ensures CoinsCents(CoinLabels, ExampleCoins) == 100
  {
    CoinLabelsPriced();
    LabelsDistinct();
    assert QuantityValue("4") == 4 by {
      assert "4"[..0] == [];
    }
    CoinsCentsEmpty(CoinLabels, NoCoins);
    CoinsCentsUpdate(CoinLabels, NoCoins, "Quarters", Entry("4", "$1.00"));
  }

  lemma ExampleCheckCents()
    ensures IsAmountInput(ExampleChecks.total) && CheckTotalCents(ExampleChecks.total) == 550
  {
    ParseAmountMatches("5.50");
    assert "5.50"[..1] == "5";
    assert "5.50"[2..] == "50";
  }

  lemma ExampleShown()
    ensures FormatCents(2850) == "$28.50"
  {
    assert NatToString(28) == "28";
  }

  /** The worked example adds up to 22.00 + 1.00 + 5.50, shown as "$28.50". */
  lemma WorkedExample()
    ensures HasKeys(ExampleBills, BillLabels) && HasKeys(ExampleCoins, CoinLabels)
    ensures IsAmountInput(ExampleChecks.total)
    ensures Aggregate(ExampleBills, ExampleCoins, ExampleChecks) == 2850
    ensures FormatCents(Aggregate(ExampleBills, ExampleCoins, ExampleChecks)) == "$28.50"
  {
    ExampleBillsCents();
    ExampleCoinsCents();
    ExampleCheckCents();
    ExampleShown();
  }

}
