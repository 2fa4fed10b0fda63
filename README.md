# Cash-handling page: a verified model of the cash count

This project models the bookkeeping of the point-of-sale **cash-handling page**
(`CashHandlingPage` in `src/App.js`). A cashier counts a drawer by entering
quantities: six bills ($1, $5, $10, $20, $50, $100), four coins (pennies,
nickles, dimes, quarters), a check count and a check total. Beside each bill and
coin the page shows value × quantity. Below the grid it shows the aggregate
total. Increment and decrement buttons step a quantity. Clear resets the count.
Settle submits it through a simulated call that either clears the count or
shows an error.

The model works in exact integer **cents**. A bill is worth 100 × its face
value. A coin is worth 1, 5, 10 or 25 cents. A check total with at most two
decimals is an exact number of cents. `toFixed(2)` becomes `FormatCents`
("$" + units + "." + two digits). `parseInt` on a digit string becomes its exact
natural number. `parseFloat` on an accepted check total becomes `ParseAmount`.

Modules:

- `Options`: the `Option` datatype.
- `Decimal`: digit strings, `parseInt`/`toString` on naturals, and money
  formatting, with their round trips.
- `InputRules`: the two input patterns. Quantities and the check count use
  `^\d+$`. The check total uses `^\d+(\.\d{0,2})?$`. The module also reads an
  accepted check total as cents.
- `Denominations`: the bill and coin keys, the face value read from a bill
  label, the coin price table, and `calculateBillTotal` / `calculateCoinTotal`.
- `CashCount`: the per-denomination entries and what they add up to. It holds
  the aggregate as a specification function and the loops of the aggregate
  effect and of clear as methods proved against it. It also holds the values
  the increment and decrement buttons compute, and lemmas about edits, clearing
  and the worked example.
- `CashHandling`: the page as a class. Its fields are `bills`, `coins`,
  `checks`, `error`, `isLoading` and `totalAmount`. Every handler is a method.
  The invariant `Valid()` says two things. Each shown per-denomination total is
  value × quantity for the current quantity. `totalAmount` is the formatted
  aggregate of the current count. Each handler that replaces bills, coins or
  checks runs the aggregate effect (`RecomputeTotal`) right after, as the
  page's effect on `[bills, coins, checks]` does.

The check-total pattern `^\d+(\.\d{0,2})?$` needs at least one digit before
the point, so ".5" is rejected (`InputRules.RejectedAmounts`).

## Model

| member | source | states |
|---|---|---|
| `Decimal.NatToStringRoundTrip` | src/App.js:340-344 | `toString` of a natural gives non-empty ASCII digits with no leading zero, and `parseInt` reads them back as the same number |
| `Decimal.FormatCentsReadsBack` | src/App.js:71 | a formatted amount is "$", digits, ".", exactly two digits, and the two digit groups denote exactly the amount in cents |
| `Decimal.FormatZero` | src/App.js:42-47 | no money at all is shown as "$0.00" |
| `InputRules.QuantityExamples` | src/App.js:88 | the quantity rule accepts "" and plain digits (leading zeros included) and rejects letters, signs, points and spaces |
| `InputRules.ParseAmountMatches` | src/App.js:123 | reading a check total by splitting at its first "." succeeds exactly when the text matches `^\d+(\.\d{0,2})?$`, in both directions |
| `InputRules.FormatCentsIsAmount` | src/App.js:152-156 | a formatted amount without its "$" is itself an accepted check total, and `parseFloat` reads it as the same cents (round trip of `toFixed(2)` and `parseFloat`) |
| `InputRules.AcceptedAmounts` | src/App.js:123 | "12", "12.", "12.5", "12.50" and "0.05" are accepted and read as 1200, 1200, 1250, 1250 and 5 cents |
| `InputRules.RejectedAmounts` | src/App.js:123 | ".5", "1.234", "1.2.3" and "1a" are rejected as check totals |
| `Denominations.BillFaces` | src/App.js:41-47 | the six bill labels, read as `parseInt(label.replace('$', ''))`, are worth 1, 5, 10, 20, 50 and 100 dollars |
| `Denominations.CoinLabelsPriced` | src/App.js:76-81 | the four coin keys of the page are exactly the keys of the price table |
| `Denominations.BillTotalMeaning` | src/App.js:68-72 | a bill's shown total starts with "$" and reads back as exactly 100 × face × quantity cents; an empty quantity shows "$0.00" |
| `Denominations.CoinTotalMeaning` | src/App.js:75-84 | a coin's shown total starts with "$" and reads back as exactly worth × quantity cents; an empty quantity shows "$0.00" |
| `CashCount.SumBills` | src/App.js:133-137 | the bill loop of the aggregate effect computes exactly the sum over the walked keys of 100 × face × quantity |
| `CashCount.SumCoins` | src/App.js:140-149 | the coin loop of the aggregate effect computes exactly the sum over the walked keys of worth × quantity |
| `CashCount.ComputeAggregate` | src/App.js:129-157 | the aggregate effect computes bills + coins + check total (0 when empty) over the current count |
| `CashCount.ClearedEntries` | src/App.js:162-173 | the clear loop builds a map with exactly the walked keys, each holding quantity "" and total "$0.00" |
| `CashCount.Incremented` | src/App.js:340-344 | increment turns "" into "1" and a quantity n into the digits of n + 1 |
| `CashCount.Decremented` | src/App.js:317-322 | decrement acts exactly when the quantity is above zero and then gives the digits of n - 1; on "" or "0" it does nothing |
| `CashCount.StepExamples` | src/App.js:317-455 | "" and "0" cannot go down, "1" goes down to "0" and not to "", "9" goes up to "10", "007" goes up to "8" |
| `CashCount.BillEditConsistent` | src/App.js:87-98 | an accepted bill edit keeps the six bill keys and every shown bill total equal to value × quantity |
| `CashCount.CoinEditConsistent` | src/App.js:101-112 | an accepted coin edit keeps the four coin keys and every shown coin total equal to worth × quantity |
| `CashCount.ClearedAggregate` | src/App.js:160-180 | a count with every quantity empty and no check total adds up to 0, shown as "$0.00" |
| `CashCount.ClearedCount` | src/App.js:41-65 | the cleared count (all entries empty, both check fields empty) is consistent and adds up to "$0.00" |
| `CashCount.BillsCentsUpdate` | src/App.js:87-98 | editing one bill moves the bill sum by 100 × face × (new - old) and leaves every other bill's share unchanged |
| `CashCount.CoinsCentsUpdate` | src/App.js:101-112 | editing one coin moves the coin sum by worth × (new - old) and leaves every other coin's share unchanged |
| `CashCount.AggregateAfterBillEdit` | src/App.js:129-137 | after a bill edit the aggregate changes by exactly 100 × face × (new quantity - old quantity) |
| `CashCount.AggregateAfterCoinEdit` | src/App.js:140-149 | after a coin edit the aggregate changes by exactly worth × (new quantity - old quantity) |
| `CashCount.CheckCountIgnored` | src/App.js:151-154 | the check count never contributes to the aggregate |
| `CashCount.AggregateIsSumOfShownTotals` | src/App.js:129-157 | on a consistent count the aggregate equals the six shown bill totals plus the four shown coin totals, read back as amounts, plus the check total |
| `CashCount.WorkedExample` | src/App.js:129-157 | two $1 bills, one $20 bill, four quarters and a check total of "5.50" add up to 2850 cents, shown as "$28.50" |
| `CashHandling.CashHandlingPage.constructor` | src/App.js:35-65 | the page opens with the six bill and four coin keys all empty at "$0.00", empty checks, no error, not loading, total "$0.00", and the invariant holds |
| `CashHandling.CashHandlingPage.RecomputeTotal` | src/App.js:129-157 | the aggregate effect leaves `totalAmount` equal to the formatted aggregate of the current count, changing nothing else |
| `CashHandling.CashHandlingPage.Commit` | src/App.js:96 | replacing the state objects and running the aggregate effect stores exactly the new objects and restores the invariant |
| `CashHandling.CashHandlingPage.BillChange` | src/App.js:87-98 | an edit is accepted iff it is "" or digits; it sets that key's quantity and its total value × quantity ("$0.00" when empty); every other bill, the coins, the checks and the error stay; a rejected edit changes nothing |
| `CashHandling.CashHandlingPage.CoinChange` | src/App.js:101-112 | an edit is accepted iff it is "" or digits; it sets that coin's quantity and its total worth × quantity; every other coin, the bills, the checks and the error stay; a rejected edit changes nothing |
| `CashHandling.CashHandlingPage.CheckCountChange` | src/App.js:115-119 | an edit is accepted iff it is "" or digits; it sets only the check count, and the total does not move |
| `CashHandling.CashHandlingPage.CheckTotalChange` | src/App.js:122-126 | an edit is accepted iff it matches `^\d+(\.\d{0,2})?$` or is ""; it sets only the check total; a rejected edit changes nothing |
| `CashHandling.CashHandlingPage.IncrementBill` | src/App.js:340-344 | the bill's quantity goes up by one and its shown total follows; nothing else changes |
| `CashHandling.CashHandlingPage.DecrementBill` | src/App.js:317-322 | the bill's quantity goes down by one when above zero and its total follows; otherwise nothing changes |
| `CashHandling.CashHandlingPage.IncrementCoin` | src/App.js:396-400 | the coin's quantity goes up by one and its shown total follows; nothing else changes |
| `CashHandling.CashHandlingPage.DecrementCoin` | src/App.js:373-378 | the coin's quantity goes down by one when above zero and its total follows; otherwise nothing changes |
| `CashHandling.CashHandlingPage.IncrementCheckCount` | src/App.js:451-455 | the check count goes up by one; the total does not move |
| `CashHandling.CashHandlingPage.DecrementCheckCount` | src/App.js:428-433 | the check count goes down by one when above zero, otherwise nothing changes; the total does not move |
| `CashHandling.CashHandlingPage.Clear` | src/App.js:160-180 | same keys, every quantity "" and total "$0.00", both check fields "", error gone, total "$0.00", loading flag untouched, invariant kept |
| `CashHandling.CashHandlingPage.Submit` | src/App.js:183-184 | submitting marks the page busy; the button is disabled while busy, so a second submit waits |
| `CashHandling.CashHandlingPage.SettlementResolved` | src/App.js:186-196 | when the call resolves the page is no longer busy; success clears the count; failure shows the settle error and keeps every entered value and the total |
| `CashHandling.CashHandlingPage.DismissError` | src/App.js:262 | closing the alert removes the error and keeps the count |

## Left out

- Floating point: `0.10 * n`, the floating-point sum of the aggregate, `parseFloat` and `toFixed(2)` are modelled on exact cents. Rounding artefacts of IEEE-754 doubles are not reproduced.
- Very large quantities: `parseInt` loses precision beyond 2^53, and `toFixed` switches to exponent notation at 10^21. The model reads a digit string as its exact natural number and formats any natural. The increment buttons compute `(parseInt(q) + 1).toString()` (src/App.js:342, 398, 453), which gives exponent form from 10^21 on. `^\d+$` rejects that text, so from there the page's increment does nothing, while `Incremented` keeps counting.
- The simulated settlement call: the 1-second `setTimeout` and the `Math.random()` outcome are not modelled. The outcome is the `succeeded` parameter of `SettlementResolved`, and the delay is the gap between `Submit` and `SettlementResolved`.
- React mechanics: each handler is one atomic transition followed at once by the aggregate effect. Batching, re-rendering and stale closures are not modelled.
- Presentation: JSX markup, MUI layout, `useMediaQuery` breakpoints, the navigation tabs and the cash-drawer selector. `handleTabChange` and `handleDrawerChange` are plain setters of fields that nothing in the count reads. They and their fields (`tabValue`, `selectedDrawer`) are not part of this model. No modelled handler touches them.
- Handlers for keys the page does not show: the page only passes its own keys to the bill and coin handlers. So `BillChange` and `CoinChange` require a key that is present, and the case where the source would add a new key (or price a coin as `NaN`) is not modelled.
- `src/App copy.js`: the library account screen (`LibraConnect`), which holds no cash-count logic, is not part of this model.
