# Set-menu price calculator, modelled in Dafny

The system prices an order from a restaurant's set menu. Its `Calculator` has
a fixed menu of seven items (Red 50, Green 40, Blue 30, Yellow 50, Pink 80,
Purple 90, Orange 120) and a fixed set of items eligible for the "double"
discount (Orange, Pink, Green). Its one operation, `calculatePrice(order,
hasMemberCard)`, walks the order's lines:

- a line whose quantity is not positive is skipped, with a warning;
- a line whose name is not exactly a menu key is skipped, with a warning;
- any other line adds price × quantity, times 0.95 when the item is eligible
  and at least two are ordered.

After the walk it takes 10% off the sum once if the customer has a member card.

The model is one module, `Calculator` (`calculator.dfy`):

- The menu, the eligible set and the two multipliers are module constants. The
  source's `Calculator` object has only `readonly` fields and keeps no state
  between calls, so no class is needed.
- An order is a `map<string, real>`. Prices and quantities are exact reals.
- `IsDoubleDiscountEligible` is the eligibility check of main.ts:48-50: the
  item is Orange, Pink or Green and the line's own quantity is at least 2.
- `ClassifyLine` states which branch the engine takes for one line and what it
  charges. `LineContribution` is what that line adds to the total.
- `SumLines`, `OrderSum` and `Total` give the price as a closed form: the sum of
  the per-line contributions, times 0.9 for a member. `SumLines` takes the
  lines of a set in an unspecified order.
- `CalculatePrice` is the loop. Each step picks any remaining key, which stands
  for the unspecified order of JavaScript's `for...in`. It is proved equal to
  `Total` and returns the warnings it emits.

`CalculatorExamples` (`calculator_examples.dfy`) derives the prices of the
concrete orders in `main.test.ts` from the model. Several comments in that
file disagree with the values the tests assert (lines 67, 86, 105 and 144).
The model agrees with the asserted values: 547.2, 385.2, 458 and 13250.

## Model

| member | source | states |
|---|---|---|
| `Calculator.ClassifyLine` | main.ts:24-38 | a line is charged exactly when its quantity is positive and its name is a menu key; a skipped line's warning names that line; a charged amount lies between 0 and price × quantity |
| `Calculator.NonPositiveQuantityIgnored` | main.ts:26-27 | a quantity ≤ 0 gives an invalid-amount warning and contributes 0, whether or not the item is on the menu |
| `Calculator.UnknownItemIgnored` | main.ts:29-37 | a positive quantity of a name that is not a menu key gives an invalid-item warning and contributes 0 |
| `Calculator.MenuIsCaseSensitive` | main.ts:7-15 | menu keys match exactly: `red`, `BLUE`, `YeLLoW` and `NonExistentItem` are not on the menu |
| `Calculator.ValidLinePrice` | main.ts:30-34 | a valid line costs price × quantity × 0.95 when eligible and price × quantity otherwise |
| `Calculator.EligibilityCharacterized` | main.ts:48-50 | a line is eligible exactly when its name is Orange, Pink or Green and its quantity is ≥ 2; every eligible name is on the menu |
| `Calculator.SingleEligibleItemNotDiscounted` | main.test.ts:93 | one Green is not eligible and costs the full 40 |
| `Calculator.LineContributionNonNegative` | main.ts:26-34 | no line adds a negative amount |
| `Calculator.SumLinesPick` | main.ts:23 | any line may be taken first: the sum is that line's contribution plus the sum of the rest |
| `Calculator.SumLinesUnion` | main.ts:23-39 | the sum over two disjoint groups of lines is the sum of the two group sums |
| `Calculator.SumLinesNonNegative` | main.ts:21-39 | the sum over any group of lines is ≥ 0 |
| `Calculator.TotalNonNegative` | main.ts:20-46 | the price is ≥ 0, with or without a member card |
| `Calculator.EmptyOrderIsFree` | main.ts:21-45 | an empty order costs 0, with or without a member card |
| `Calculator.MemberPriceIsNinetyPercent` | main.ts:41-43 | the member price is exactly 0.9 × the non-member price of the same order |
| `Calculator.AddLine` | main.ts:23-39 | adding a new line to an order raises the sum by exactly that line's contribution |
| `Calculator.SkippedLineChangesNothing` | main.ts:26-38 | adding a line with a quantity ≤ 0 or an unknown name leaves the price unchanged |
| `Calculator.SumInOrderIsSumLines` | main.ts:23-39 | walking distinct keys in a given sequence adds up to the sum over the set of those keys |
| `Calculator.IterationOrderIrrelevant` | main.ts:23-45 | every enumeration of an order's keys yields the same price, `Total` |
| `Calculator.CalculatePrice` | main.ts:20-46 | the loop returns `Total(order, hasMemberCard)`, which is ≥ 0; it warns exactly once for each skipped line, with that line's diagnostic, and for no other line |
| `CalculatorExamples.OneRedOneGreen` | main.test.ts:10-20 | {Red:1, Green:1}, no card, costs 90 |
| `CalculatorExamples.MemberCardOnWholeOrder` | main.test.ts:22-32 | {Red:2, Green:1}, with card, costs 126 |
| `CalculatorExamples.ThreeOranges` | main.test.ts:34-43 | {Orange:3}, no card, costs 342 |
| `CalculatorExamples.AllEligibleLinesDiscounted` | main.test.ts:45-56 | {Orange:2, Pink:3, Green:4}, no card, costs 608 |
| `CalculatorExamples.LineAndMemberDiscountsCompound` | main.test.ts:58-69 | the same order with a card costs 547.2 |
| `CalculatorExamples.MixedOrderWithMemberCard` | main.test.ts:71-88 | {Red:1, Green:2, Yellow:3, Pink:2}, with card, costs 385.2 |
| `CalculatorExamples.MixedOrderWithoutMemberCard` | main.test.ts:90-107 | {Red:2, Green:1, Blue:3, Pink:3}, no card, costs 458 |
| `CalculatorExamples.ZeroQuantitiesIgnored` | main.test.ts:109-120 | {Red:2, Green:0, Yellow:0}, no card, costs 100 |
| `CalculatorExamples.NegativeQuantityIgnored` | main.test.ts:122-133 | {Red:1, Green:-2, Yellow:3}, no card, costs 200 |
| `CalculatorExamples.LargeQuantities` | main.test.ts:135-146 | {Red:100, Purple:50, Yellow:75}, no card, costs 13250 |
| `CalculatorExamples.WrongCaseNamesIgnored` | main.test.ts:148-159 | {red:2, BLUE:3, YeLLoW:1}, no card, costs 0 |
| `CalculatorExamples.ItemNotOnMenuIgnored` | main.test.ts:161-171 | {Red:1, NonExistentItem:2}, no card, costs 50 |

## Left out

- IEEE-754 rounding: prices are exact reals, so results such as 547.2 are exact. The source's tests compare with `toBeCloseTo` for this reason.
- `console.warn` (main.ts:27, 37): `CalculatePrice` returns the warnings as a sequence of `Diagnostic` values instead of printing them. The invalid-amount diagnostic also carries the line's name, so that each warning can be tied to its line. The source's message shows only the count.
- The order of the warnings: it follows the iteration order, which the source leaves open, so the model states only which warnings appear.
- JavaScript object quirks: `for...in` visiting inherited enumerable keys, and prototype keys such as `constructor`. A Dafny map has only its own keys, so the order's own-key guard `order.hasOwnProperty(itemName)` (main.ts:29) always holds in the model. The menu guard `this.menu.hasOwnProperty(itemName)` becomes `itemName in Menu`, which is false for every name that is not a menu key.
- CalculatePrice: does not model the TypeError the engine throws when the order has an own key named `hasOwnProperty` (for example `{hasOwnProperty: 0, Red: 1}`). That key shadows the method called at main.ts:29, so the engine throws on reaching any line with a positive quantity, and it does reach one whenever the order has one. The model returns a price for such an order instead.
- NaN and +Infinity quantities, which get past the `<= 0` test at main.ts:26 in the source. Reals have neither. A quantity of -Infinity would be skipped there like any other non-positive quantity.
- The `name` field of each menu entry (main.ts:1-4, 8-14): it always equals the entry's key, so the menu is a map from name to price.
- The top-level example (main.ts:56-64): it prices {Red:1, Green:1} and prints the result. Its value is `CalculatorExamples.OneRedOneGreen`.
- The Jest harness of `main.test.ts`: its orders appear only as the example lemmas.
