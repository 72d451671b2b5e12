# X for $Y bundle discount, modelled in Dafny

The `x-for-y-discount` extension is a Shopify discount function. Its single callback takes the cart lines and a merchant configuration: a bundle quantity X, a bundle price Y, a label, and the product variants the deal covers. It runs these steps:

- keep the lines for the configured variants;
- expand them into single units;
- count how many complete bundles of X units the cart holds;
- take the dearest `bundleCount * X` units, in a stable descending sort by price;
- compute how much the bundle price saves on them;
- spread that saving over the cart lines as fixed per-item discounts, in proportion to each line's share of the selected price.

On every degenerate path it returns an empty list of discounts with the strategy `MAXIMUM`.

The model works in whole cents. The code rounds to cents with `toFixed(2)` in three places:

- The discount total. Both of its terms are whole cents, so rounding leaves it unchanged (`XForYDiscount.DiscountTotalWholeCents`). The model therefore computes it as a plain difference.
- Each line's share. This becomes rounding of an exact rational to the nearest cent, with halves going up (`Money.RoundHalfUp`).
- Each per-item amount. This is rounded the same way.

The two roundings that do change a value stay independent, exactly where the code applies them.

Modules, one file each:

- `Money` (`money.dfy`): cents, rounding, and small arithmetic facts.
- `Cart` (`cart.dfy`): the input and output values, the eligibility filter, the normalisation of the configured numbers, and the expansion into units.
- `StableSort` (`stable_sort.dfy`): the in-place sort by descending price, proved equal to a stable insertion sort (`InsSort`), and the selection of the dearest units.
- `Allocation` (`allocation.dfy`): the insertion-ordered `Map` from line id to `{amount, units}`, built by a loop (`Allocate`) and specified by `AllocationOf`.
- `Distribution` (`distribution.dfy`): each line's discount and the loop that pushes them (`Distribute`), specified by `Distributed`.
- `XForYDiscount` (`x_for_y.dfy`): the callback as a method (`Run`) proved to return the pure `Evaluate`, and the properties of its result.
- `Scenarios` (`scenarios.dfy`): worked carts with their complete results.

The code does not always behave as its description suggests. The model follows the code in each case, and a scenario lemma pins the behaviour down:

- The per-item amounts granted can add up to more than the saving. Take three $1.00 lines and the deal "3 for $2.50": the saving is 50 cents, but each line's share rounds to 17 cents (`SharesExceedDiscountTotal`).
- A line with a positive share can be granted an amount of 0 cents per item. Take three $1.00 units and the deal "3 for $2.99" (`ZeroPerItemAmount`).
- The dearest units are always the ones discounted, even when a cheaper combination would cost less than the bundle price. Take two $1.00 units, one $10.00 unit and the deal "2 for $6.00": $5.00 is still granted (`DearestUnitsTaken`).
- A negative bundle price over free units makes the line's share 0 / 0. The amount emitted is then "NaN" (`NotANumberAmount`).

## Model

| member | source | states |
|---|---|---|
| Cart.EmptyResult | extensions/x-for-y-discount/src/run.ts:95-100 | the empty result has no discounts and the strategy `MAXIMUM` |
| Cart.Eligible | extensions/x-for-y-discount/src/run.ts:29 | a line is kept exactly when its merchandise id is one of the configured variants; no line is added |
| Cart.EligibleAppend | extensions/x-for-y-discount/src/run.ts:29 | the filter keeps cart order: filtering two parts of the cart one after the other gives the filtered whole |
| Cart.NormalisedQuantity | extensions/x-for-y-discount/src/run.ts:34 | the bundle quantity used is at least 1: a configured number of at least 1 is kept, while 0, negatives and non-numbers give 1 |
| Cart.NormalisedPrice | extensions/x-for-y-discount/src/run.ts:35 | a non-numeric bundle price gives 0, and any number is kept, negatives included |
| Cart.LineUnits | extensions/x-for-y-discount/src/run.ts:39 | a line gives `quantity` units, each carrying that line's id and unit price |
| Cart.Expand | extensions/x-for-y-discount/src/run.ts:37-40 | the number of units is the sum of the eligible lines' quantities |
| Cart.ExpandFromLines | extensions/x-for-y-discount/src/run.ts:37-40 | every unit has the id and unit price of one of the lines it was expanded from |
| Cart.ExpandAppend | extensions/x-for-y-discount/src/run.ts:37-40 | units come in line order, then in replication order |
| XForYDiscount.BundleCount | extensions/x-for-y-discount/src/run.ts:42 | the bundle count is the floor of units / bundle quantity: `n*q <= units < (n+1)*q` |
| XForYDiscount.SelectedCount | extensions/x-for-y-discount/src/run.ts:49 | `bundleCount * bundleQuantity` never exceeds the number of units, so the slice takes exactly that many |
| StableSort.SortByPriceDescending | extensions/x-for-y-discount/src/run.ts:47-48 | sorting the array in place leaves it equal to the stable insertion sort of its old contents |
| StableSort.MoveIntoPlace | extensions/x-for-y-discount/src/run.ts:48 | one insertion step leaves the prefix equal to the unit inserted behind every unit priced at least as much, and the rest of the array unchanged |
| StableSort.InsSortCorrect | extensions/x-for-y-discount/src/run.ts:48 | the sort's result is in non-increasing price order and is a permutation of its input |
| StableSort.InsSortStable | extensions/x-for-y-discount/src/run.ts:48 | for every price, the units of that price keep their relative order (the comparator `b.unitPrice - a.unitPrice` under a stable sort) |
| StableSort.SortedUnique | extensions/x-for-y-discount/src/run.ts:48 | every stable descending order of the units equals the insertion sort, so the engine's choice of sort algorithm does not matter |
| StableSort.Select | extensions/x-for-y-discount/src/run.ts:49 | the slice of the sorted units holds exactly `n` units; `SelectCorrect` states which ones |
| StableSort.SelectCorrect | extensions/x-for-y-discount/src/run.ts:47-49 | the discounted set is in non-increasing price order, and together with the unselected units it is exactly the expansion (a sub-multiset); no unselected unit is dearer than a selected one; among equal prices, the earliest units are taken |
| StableSort.SelectFrom | extensions/x-for-y-discount/src/run.ts:49 | every discounted unit is one of the expanded units |
| Cart.SumPricesAppend | extensions/x-for-y-discount/src/run.ts:51 | the summed price of a concatenation is the sum of the parts' summed prices |
| Money.RoundHalfUp | extensions/x-for-y-discount/src/run.ts:68 | the rounded amount lies within half a cent of the exact one, with an exact half rounding up |
| Money.RoundHalfUpUnique | extensions/x-for-y-discount/src/run.ts:68 | those two bounds determine the rounded amount |
| Money.RoundHalfUpMonotone | extensions/x-for-y-discount/src/run.ts:72 | rounding is monotone in the amount rounded |
| Money.RoundHalfUpExact | extensions/x-for-y-discount/src/run.ts:53 | a whole multiple of the divisor rounds to its exact quotient: rounding changes nothing when there is nothing to round |
| XForYDiscount.DiscountTotal | extensions/x-for-y-discount/src/run.ts:51-53 | with a bundle price of zero or more, the saving is at most the selected total; with a negative bundle price, it is at least the selected total |
| XForYDiscount.DiscountTotalWholeCents | extensions/x-for-y-discount/src/run.ts:53 | rounding the discount total to cents leaves it unchanged, since the selected total and `bundleCount * bundlePrice` are whole cents |
| XForYDiscount.NoEligibleLineEmpty | extensions/x-for-y-discount/src/run.ts:29-32 | with no line for a configured variant, the result is the empty result |
| XForYDiscount.TooFewUnitsEmpty | extensions/x-for-y-discount/src/run.ts:42-45 | fewer eligible units than one bundle holds gives the empty result |
| XForYDiscount.BundleNotCheaperEmpty | extensions/x-for-y-discount/src/run.ts:51-57 | when X units at any eligible unit's price cost no more than the bundle price, the discount total is not positive and the result is empty |
| Allocation.Allocate | extensions/x-for-y-discount/src/run.ts:59-63 | the map built by visiting the discounted units in order is `AllocationOf` them |
| Allocation.AllocationOf | extensions/x-for-y-discount/src/run.ts:59-63 | the map's keys, in insertion order, are the lines' first appearances, each listed once. A line is a key exactly when one of the discounted units belongs to it. Its entry is the summed price and count of its units, and every entry counts at least one unit |
| Allocation.FirstAppearances | extensions/x-for-y-discount/src/run.ts:61-62 | the key order lists each line once, and exactly the lines with a discounted unit |
| Allocation.AllocationOfSnoc | extensions/x-for-y-discount/src/run.ts:61-62 | one more unit: a new line is appended to the key order, an existing one keeps its place, and only that line's entry gains the unit's price and one unit |
| Allocation.TallyOfPresent | extensions/x-for-y-discount/src/run.ts:62 | every line in the map has at least one unit, so the per-unit division is defined |
| Allocation.AllocationTotals | extensions/x-for-y-discount/src/run.ts:59-63 | the per-line unit counts add up to the size of the discounted set, and the per-line amounts add up to its total price |
| Allocation.FirstAppearancesOrdered | extensions/x-for-y-discount/src/run.ts:59-63 | the key order is the order of each line's first unit in the sorted discounted set |
| Distribution.LineShare | extensions/x-for-y-discount/src/run.ts:67-68 | the line's share lies within half a cent of its amount / selected total x discount total, and a line whose amount is at most the selected total never gets more than the discount total |
| Distribution.LineDiscount | extensions/x-for-y-discount/src/run.ts:67-82 | a line is skipped exactly when its rounded share is 0. Otherwise it gets one discount targeting it alone, applying to each item, with the label. Its amount is the smaller of its average unit price and its share per unit, each rounded to cents, so it is at most each of them. The amount is "NaN" exactly when the selected total is 0 |
| Distribution.Distributed | extensions/x-for-y-discount/src/run.ts:65-83 | at most one discount per key of the map; each targets a single key, applies to each item and carries the label |
| Distribution.Distribute | extensions/x-for-y-discount/src/run.ts:65-83 | the loop over the map pushes exactly the discounts of `Distributed`, in key order |
| Distribution.DistributedCovers | extensions/x-for-y-discount/src/run.ts:66-71 | a line is targeted exactly when it is a key of the map and its share is not dropped |
| Distribution.DistributedInOrder | extensions/x-for-y-discount/src/run.ts:66 | each discount has a single target, and the discounts follow the key order of the map |
| Distribution.DistributedDistinct | extensions/x-for-y-discount/src/run.ts:75 | no line is targeted by two discounts |
| XForYDiscount.Evaluate | extensions/x-for-y-discount/src/run.ts:28-93 | discounts are granted only when some line is eligible, a bundle is complete and the discount total is positive; a result without discounts is the empty result, with the strategy `MAXIMUM` |
| XForYDiscount.Run | extensions/x-for-y-discount/src/run.ts:28-93 | the callback, with its in-place sort and its two loops, returns `Evaluate` of the cart and configuration |
| XForYDiscount.NonEmptyExactly | extensions/x-for-y-discount/src/run.ts:55-87 | discounts are granted exactly when some line is eligible, a bundle is complete, the discount total is positive, and some discounted line has a positive rounded share or the selected units are free |
| XForYDiscount.DiscountsBounded | extensions/x-for-y-discount/src/run.ts:66-82 | every emitted discount targets one discounted line, applies to each item and carries the label. Its amount is the smaller of that line's average selected unit price and its share per unit, each rounded to cents. "NaN" arises only from a negative bundle price over free units |
| XForYDiscount.TargetsDistinctInSelectionOrder | extensions/x-for-y-discount/src/run.ts:59-83 | no line is targeted twice, and the discounts come in the order of each line's first unit in the sorted discounted set |
| Scenarios.OneBundleOfThree | extensions/x-for-y-discount/src/run.ts:28-93 | three $10.00 units with the deal "2 for $15.00" give one bundle, $5.00 off, as $2.50 per item on the line |
| Scenarios.TwoLinesSharedProportionally | extensions/x-for-y-discount/src/run.ts:66-83 | 2 at $5.00 and 2 at $15.00 with the deal "2 for $18.00" give $1.50 per item on the $15.00 line, then $0.50 per item on the $5.00 line |
| Scenarios.DefaultsGiveUnitAway | extensions/x-for-y-discount/src/run.ts:34-35 | a bundle quantity of 0 and a missing bundle price make each unit a free bundle of one |
| Scenarios.NoSavingNothingGranted | extensions/x-for-y-discount/src/run.ts:51-57 | 2 at $10.00 with the deal "2 for $20.00": the discount total is 0 and the result is empty |
| Scenarios.TiesTakenInCartOrder | extensions/x-for-y-discount/src/run.ts:47-49 | with equal prices, the units of the earlier line are taken, and the later line gets nothing |
| Scenarios.DearestUnitsTaken | extensions/x-for-y-discount/src/run.ts:47-49 | the dearest units are discounted even though two cheaper units cost less than the bundle price |
| Scenarios.ZeroPerItemAmount | extensions/x-for-y-discount/src/run.ts:72-78 | a line with a positive share of one cent is granted 0 cents per item |
| Scenarios.SharesExceedDiscountTotal | extensions/x-for-y-discount/src/run.ts:66-72 | with a discount total of 50 cents, three lines are granted 17 cents each |
| Scenarios.NotANumberAmount | extensions/x-for-y-discount/src/run.ts:67-78 | a negative bundle price over a free unit gives the amount "NaN" |

## Left out

- The host wrapper `run` from `@shopify/shopify_function` and the input and output encoding are not part of this model. `Run` takes the cart lines and the configuration as values and returns the result value.
- Unit prices arrive as decimal strings (`cost.amountPerQuantity.amount`). The model takes them already converted to a whole number of cents.
- Quantities and unit prices are whole and non-negative.
- The configured bundle quantity and bundle price are whole numbers (the price in cents) or non-numeric. A fractional bundle quantity is not modelled.
- Money.RoundHalfUp: the rounding is exact, with halves going up. It does not model IEEE-754 binary arithmetic or the `toFixed` artefacts at binary half-cent ties.
- The `toFixed(2)` text of an amount is not modelled. An amount is a whole number of cents, or "NaN".
- StableSort.Select: its own contract gives only the number of units taken. Which units they are is stated by `SelectCorrect`, `SelectFrom` and `InsSortStable`.
- StableSort.SortByPriceDescending: the engine's sort is modelled as an insertion sort on an array. `SortedUnique` shows that any stable descending sort gives the same order.
- The JavaScript `Map` is modelled by its key order and a map of entries. Only insertion-ordered `get`, `set` and `forEach` are modelled.
- The admin UI, the Shopify Admin GraphQL calls and the Prisma persistence of the configuration are not part of this model.
