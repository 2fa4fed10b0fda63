/**
 * The cash-handling page's state and its event handlers.
 *
 * Each handler is one atomic transition. When it replaces the bills, the coins
 * or the checks, the aggregate effect runs right after it and rewrites the
 * total. The object invariant ties every shown total to the current quantities
 * and the aggregate total to the whole count.
 */
module CashHandling {
  import opened Options
  import opened Decimal
  import opened InputRules
  import opened Denominations
  import opened CashCount

  /** The message shown when settling the count fails. */
  const SettleFailure := "Failed to settle cash count. Please try again."

  class CashHandlingPage {
    var bills: map<string, Entry>
    var coins: map<string, Entry>
    var checks: Checks
    var error: Option<string>
    var isLoading: bool
    var totalAmount: string

    /**
     * The same denominations as at the start, every quantity and check field
     * as its rule accepts, and every shown total value × quantity.
     */
    ghost predicate EntriesValid()
      reads this`bills, this`coins, this`checks
    {
      BillsConsistent(bills) && CoinsConsistent(coins) && ChecksConsistent(checks)
    }

    /** The entries are consistent and the aggregate total shown is that of the current count. */
    ghost predicate Valid()
      reads this`bills, this`coins, this`checks, this`totalAmount
    {
      EntriesValid() && totalAmount == FormatCents(Aggregate(bills, coins, checks))
    }

    /** The page as it opens: nothing counted, no error, nothing being submitted. */
    constructor ()
      ensures Valid()
      ensures bills.Keys == (set d | d in BillLabels) && coins.Keys == (set k | k in CoinLabels)
      ensures forall d :: d in bills ==> bills[d] == EmptyEntry
      ensures forall k :: k in coins ==> coins[k] == EmptyEntry
      ensures checks == Checks("", "")
      ensures error == None && !isLoading && totalAmount == "$0.00"
    {
      bills := map["$1" := Entry("", "$0.00"), "$5" := Entry("", "$0.00"), "$10" := Entry("", "$0.00"),
                   "$20" := Entry("", "$0.00"), "$50" := Entry("", "$0.00"), "$100" := Entry("", "$0.00")];
      coins := map["Pennies" := Entry("", "$0.00"), "Nickles" := Entry("", "$0.00"),
                   "Dimes" := Entry("", "$0.00"), "Quarters" := Entry("", "$0.00")];
      checks := Checks("", "");
      totalAmount := "$0.00";
      error := None;
      isLoading := false;
      new;
      ClearedCount(bills, coins);
    }

    /** The aggregate effect: rewrites the total from the current count. */
    method RecomputeTotal()
      requires EntriesValid()
      modifies this`totalAmount
      ensures Valid()
    {
      var cents := ComputeAggregate(bills, coins, checks);
      totalAmount := FormatCents(cents);
    }

    /**
     * A state update followed by the aggregate effect: the bills, the coins and
     * the checks are replaced and the total is rewritten from them.
     */
    method Commit(newBills: map<string, Entry>, newCoins: map<string, Entry>, newChecks: Checks)
      requires BillsConsistent(newBills) && CoinsConsistent(newCoins) && ChecksConsistent(newChecks)
      modifies this`bills, this`coins, this`checks, this`totalAmount
      ensures Valid()
      ensures bills == newBills && coins == newCoins && checks == newChecks
    {
      bills, coins, checks := newBills, newCoins, newChecks;
      RecomputeTotal();
    }

    /**
     * handleBillChange: an accepted edit sets that bill's quantity and shown
     * total and nothing else; a rejected one changes nothing.
     */
    method BillChange(denomination: string, value: string)
      requires Valid() && denomination in bills
      modifies this
      ensures Valid()
      ensures IsQuantityInput(value) ==>
        bills == old(bills)[denomination := Entry(value, BillTotal(denomination, value))]
      ensures !IsQuantityInput(value) ==> bills == old(bills) && totalAmount == old(totalAmount)
      ensures coins == old(coins) && checks == old(checks)
      ensures error == old(error) && isLoading == old(isLoading)
    {
      if value == "" || IsDigits(value) {
        BillTotalMeaning(denomination, value);
        BillEditConsistent(bills, denomination, value);
        var total := if value == "" then "$0.00" else BillTotal(denomination, value);
        Commit(bills[denomination := Entry(value, total)], coins, checks);
      }
    }

    /**
     * handleCoinChange: an accepted edit sets that coin's quantity and shown
     * total and nothing else; a rejected one changes nothing.
     */
    method CoinChange(kind: string, value: string)
      requires Valid() && kind in coins
      modifies this
      ensures Valid() && kind in CoinCents
      ensures IsQuantityInput(value) ==>
        coins == old(coins)[kind := Entry(value, CoinTotal(kind, value))]
      ensures !IsQuantityInput(value) ==> coins == old(coins) && totalAmount == old(totalAmount)
      ensures bills == old(bills) && checks == old(checks)
      ensures error == old(error) && isLoading == old(isLoading)
    {
      CoinLabelsPriced();
      if value == "" || IsDigits(value) {
        CoinTotalMeaning(kind, value);
        CoinEditConsistent(coins, kind, value);
        var total := if value == "" then "$0.00" else CoinTotal(kind, value);
        Commit(bills, coins[kind := Entry(value, total)], checks);
      }
    }

    /** handleCheckCountChange: an accepted edit sets the check count and nothing else. */
    method CheckCountChange(value: string)
      requires Valid()
      modifies this
      ensures Valid()
      ensures checks == if IsQuantityInput(value) then old(checks).(count := value) else old(checks)
      ensures totalAmount == old(totalAmount)
      ensures bills == old(bills) && coins == old(coins)
      ensures error == old(error) && isLoading == old(isLoading)
    {
      if value == "" || IsDigits(value) {
        CheckCountIgnored(bills, coins, checks, value);
        Commit(bills, coins, checks.(count := value));
      }
    }

    /** handleCheckTotalChange: an accepted edit sets the check total and nothing else. */
    method CheckTotalChange(value: string)
      requires Valid()
      modifies this
      ensures Valid()
      ensures checks == if IsAmountInput(value) then old(checks).(total := value) else old(checks)
      ensures !IsAmountInput(value) ==> totalAmount == old(totalAmount)
      ensures bills == old(bills) && coins == old(coins)
      ensures error == old(error) && isLoading == old(isLoading)
    {
      ParseAmountMatches(value);
      if value == "" || ParseAmount(value).Some? {
        Commit(bills, coins, checks.(total := value));
      }
    }

    /** The increment button of a bill. */
    method IncrementBill(denomination: string)
      requires Valid() && denomination in bills
      modifies this
      ensures Valid()
      ensures var q := Incremented(old(bills[denomination].quantity));
        bills == old(bills)[denomination := Entry(q, BillTotal(denomination, q))]
      ensures QuantityValue(bills[denomination].quantity) == QuantityValue(old(bills[denomination].quantity)) + 1
      ensures coins == old(coins) && checks == old(checks)
      ensures error == old(error) && isLoading == old(isLoading)
    {
      var newValue := Incremented(bills[denomination].quantity);
      BillChange(denomination, newValue);
    }

    /** The decrement button of a bill: acts only when the quantity is above zero. */
    method DecrementBill(denomination: string)
      requires Valid() && denomination in bills
      modifies this
      ensures Valid()
      ensures match Decremented(old(bills[denomination].quantity))
        case None => bills == old(bills) && totalAmount == old(totalAmount)
        case Some(q) => bills == old(bills)[denomination := Entry(q, BillTotal(denomination, q))]
      ensures coins == old(coins) && checks == old(checks)
      ensures error == old(error) && isLoading == old(isLoading)
    {
      match Decremented(bills[denomination].quantity)
      case Some(newValue) => BillChange(denomination, newValue);
      case None =>
    }

    /** The increment button of a coin. */
    method IncrementCoin(kind: string)
      requires Valid() && kind in coins
      modifies this
      ensures Valid() && kind in CoinCents
      ensures var q := Incremented(old(coins[kind].quantity));
        coins == old(coins)[kind := Entry(q, CoinTotal(kind, q))]
      ensures QuantityValue(coins[kind].quantity) == QuantityValue(old(coins[kind].quantity)) + 1
      ensures bills == old(bills) && checks == old(checks)
      ensures error == old(error) && isLoading == old(isLoading)
    {
      var newValue := Incremented(coins[kind].quantity);
      CoinChange(kind, newValue);
    }

    /** The decrement button of a coin: acts only when the quantity is above zero. */
    method DecrementCoin(kind: string)
      requires Valid() && kind in coins
      modifies this
      ensures Valid() && kind in CoinCents
      ensures match Decremented(old(coins[kind].quantity))
        case None => coins == old(coins) && totalAmount == old(totalAmount)
        case Some(q) => coins == old(coins)[kind := Entry(q, CoinTotal(kind, q))]
      ensures bills == old(bills) && checks == old(checks)
      ensures error == old(error) && isLoading == old(isLoading)
    {
      match Decremented(coins[kind].quantity)
      case Some(newValue) => CoinChange(kind, newValue);
      case None =>
    }

    /** The increment button of the check count. */
    method IncrementCheckCount()
      requires Valid()
      modifies this
      ensures Valid()
      ensures checks == old(checks).(count := Incremented(old(checks.count)))
      ensures QuantityValue(checks.count) == QuantityValue(old(checks.count)) + 1
      ensures totalAmount == old(totalAmount)
      ensures bills == old(bills) && coins == old(coins)
      ensures error == old(error) && isLoading == old(isLoading)
    {
      var newValue := Incremented(checks.count);
      CheckCountChange(newValue);
    }

    /** The decrement button of the check count: acts only when the count is above zero. */
    method DecrementCheckCount()
      requires Valid()
      modifies this
      ensures Valid()
      ensures match Decremented(old(checks.count))
        case None => checks == old(checks)
        case Some(q) => checks == old(checks).(count := q)
      ensures totalAmount == old(totalAmount)
      ensures bills == old(bills) && coins == old(coins)
      ensures error == old(error) && isLoading == old(isLoading)
    {
      match Decremented(checks.count)
      case Some(newValue) => CheckCountChange(newValue);
      case None =>
    }

    /**
     * handleClear: every quantity empty and every shown total "$0.00" under the
     * same keys, both check fields empty, the error gone, the total "$0.00".
     */
    method Clear()
      requires Valid()
      modifies this
      ensures Valid()
      ensures bills.Keys == old(bills).Keys && coins.Keys == old(coins).Keys
      ensures forall d :: d in bills ==> bills[d] == EmptyEntry
      ensures forall k :: k in coins ==> coins[k] == EmptyEntry
      ensures checks == Checks("", "")
      ensures error == None && isLoading == old(isLoading)
      ensures totalAmount == "$0.00"
    {
      var clearedBills := ClearedEntries(BillLabels);
      var clearedCoins := ClearedEntries(CoinLabels);
      ClearedCount(clearedBills, clearedCoins);
      Commit(clearedBills, clearedCoins, Checks("", ""));
      error := None;
    }

    /** handleSubmit, up to the simulated call: the page is busy until the call resolves. */
    method Submit()
      requires Valid() && !isLoading
      modifies this`isLoading
      ensures Valid() && isLoading
    {
      isLoading := true;
    }

    /**
     * The simulated call resolves: on success the count is cleared; on failure
     * the error is shown and every entered value stays.
     */
    method SettlementResolved(succeeded: bool)
      requires Valid() && isLoading
      modifies this
      ensures Valid() && !isLoading
      ensures succeeded ==>
        && bills.Keys == old(bills).Keys && coins.Keys == old(coins).Keys
        && (forall d :: d in bills ==> bills[d] == EmptyEntry)
        && (forall k :: k in coins ==> coins[k] == EmptyEntry)
        && checks == Checks("", "") && error == None && totalAmount == "$0.00"
      ensures !succeeded ==>
        && bills == old(bills) && coins == old(coins) && checks == old(checks)
        && totalAmount == old(totalAmount) && error == Some(SettleFailure)
    {
      isLoading := false;
      if succeeded {
        Clear();
      } else {
        error := Some(SettleFailure);
      }
    }

    /** Closing the error alert. */
    method DismissError()
      requires Valid()
      modifies this`error
      ensures Valid() && error == None
    {
      error := None;
    }
  }

}
