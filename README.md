# Take-home pay calculator, modelled in Dafny

This project models the calculation behind the tax calculator's form. The form
takes an income in one of three modes: annual, monthly or hourly, the hourly
mode with hours per week and weeks per year. It also takes a filing status
(single or married) and a state. The calculation then:

1. resolves the annual gross income for the selected mode;
2. taxes the gross through the 2023 federal brackets of the filing status. A
   loop takes each bracket's slice of the remaining income until nothing is
   left;
3. applies the state's flat rate to the whole gross. A state missing from the
   rate table pays 0;
4. projects the take-home pay per year, month (of 12), week (of 52) and hour
   worked. The hourly figure is 0 unless both hours and weeks are positive;
5. spreads the federal tax over the federal spending table, and the state tax
   over the state's table. A state without a table gets no rows. Each amount
   is rounded to whole cents.

Files:

- `Brackets.dfy` holds the bracket table shape, the closed form of the tax
  (a sum over brackets of rate × slice) and the bracket loop. The loop is a
  `method` proved against that closed form. Lemmas cover bounds and
  monotonicity.
- `Allocations.dfy` holds rounding to cents, the expansion of a spending
  table onto a tax total, and how far rounding moves the total.
- `TaxTables.dfy` holds the constant tables: federal brackets, state rates and
  spending shares, and the facts proved about them.
- `TaxCalculator.dfy` holds the inputs, the gross resolver (`method`), state
  tax, net pay, allocations, the whole calculation both as a function
  (`Figures`, `Breakdown`) and as a step-by-step `method` (`Compute`), and
  the properties of the result.

JavaScript numbers are modelled as exact reals. The `Infinity` cap of the top
bracket becomes the `Unbounded` constructor of `Cap`.

## Model

| member | source | states |
|---|---|---|
| Brackets.WellFormed | src/components/TaxCalculator.tsx:17-36 | (predicate, no contract) the shape of a bracket table: finite caps that are positive and strictly increasing, an unbounded last bracket, rates in [0, 1] that never decrease |
| Brackets.BracketTax | src/components/TaxCalculator.tsx:444-449 | (definition, no contract) the closed form of the loop: the sum over all brackets of rate × the bracket's slice of the gross; the loop is proved equal to it |
| Brackets.PrevCap | src/components/TaxCalculator.tsx:445 | the lower edge of bracket i is 0 for the first bracket and the previous cap otherwise; it is non-negative, at least every earlier cap, and below the bracket's own finite cap |
| Brackets.Slice | src/components/TaxCalculator.tsx:446 | the income taxed in bracket i is non-negative, is 0 when the gross does not exceed the bracket's lower edge, and never exceeds the bracket's width |
| Brackets.TaxedPrefix | src/components/TaxCalculator.tsx:444-449 | the slices of brackets 0..k-1 together cover exactly the gross (0 when negative), up to bracket k's lower edge |
| Brackets.AllIncomeTaxed | src/components/TaxCalculator.tsx:444-449 | with the unbounded top bracket, all brackets together cover the whole non-negative gross |
| Brackets.UpperBracketsUntaxed | src/components/TaxCalculator.tsx:444 | brackets whose lower edge is at or above the gross add no tax, so stopping the loop once nothing remains loses nothing |
| Brackets.NonPositiveGrossUntaxed | src/components/TaxCalculator.tsx:442-444 | a gross of 0 or less owes no federal tax |
| Brackets.RemainderAbovePrevCap | src/components/TaxCalculator.tsx:442-448 | while income remains at bracket k, the remainder equals the gross minus bracket k's lower edge |
| Brackets.LoopStep | src/components/TaxCalculator.tsx:445-448 | one pass of the loop body takes exactly bracket k's slice off the remainder and adds rate × slice to the tax, keeping taxed part + remainder = gross |
| Brackets.LoopExit | src/components/TaxCalculator.tsx:444 | when the loop stops (brackets exhausted or remainder ≤ 0), the tax summed so far is the tax on the whole gross and the remainder is min(gross, 0) |
| Brackets.ComputeFederalTax | src/components/TaxCalculator.tsx:440-449 | the loop returns exactly the closed-form bracket tax, leaves remainder 0 for a non-negative gross (the gross itself otherwise) and returns 0 tax for a gross ≤ 0 |
| Brackets.MarginalUpTo | src/components/TaxCalculator.tsx:444-449 | raising the gross never lowers the taxed income of any bracket prefix, and the tax of the prefix rises between the lowest and the highest rate per unit of income |
| Brackets.MarginalRateBounds | src/components/TaxCalculator.tsx:444-449 | between two non-negative incomes, the tax difference lies between the first bracket's rate and the top bracket's rate times the income difference |
| Brackets.BracketTaxMonotone | src/components/TaxCalculator.tsx:444-449 | federal tax never decreases as the gross grows |
| Brackets.BracketTaxBounds | src/components/TaxCalculator.tsx:444-449 | on a non-negative gross the tax lies between the first rate and the top rate times the gross |
| Allocations.RoundCentsUp | src/components/TaxCalculator.tsx:460 | rounding a non-negative amount gives whole cents within half a cent of it |
| Allocations.Round2 | src/components/TaxCalculator.tsx:460 | the two-decimal rounding gives whole cents within half a cent of the input and keeps its sign; a half cent goes away from zero (a non-negative x rounds to more than x − 0.005, a negative x to less than x + 0.005), which fixes the result in every case |
| Allocations.WholeCentsUnchanged | src/components/TaxCalculator.tsx:460 | an amount already in whole cents is left unchanged by rounding |
| Allocations.Round2Idempotent | src/components/TaxCalculator.tsx:460 | rounding twice is the same as rounding once |
| Allocations.Round2HalfCentAwayFromZero | src/components/TaxCalculator.tsx:460 | half cents round away from zero (0.005 → 0.01, -0.005 → -0.01, 1234.565 → 1234.57) |
| Allocations.Entry | src/components/TaxCalculator.tsx:459-460 | (definition, no contract) one allocation row: the share's label and its percent of the tax rounded to cents |
| Allocations.Allocate | src/components/TaxCalculator.tsx:458-461 | the expansion keeps the table's length and order; row i has the table's label and percent × tax rounded to cents |
| Allocations.ExactSumIsPercentOfTax | src/components/TaxCalculator.tsx:458-461 | before rounding, the rows add up to the table's total percent times the tax |
| Allocations.RoundingDrift | src/components/TaxCalculator.tsx:458-461 | rounding moves the total of the rows by at most half a cent per row |
| Allocations.AllocationTotalWithinRounding | src/components/TaxCalculator.tsx:458-461 | the rounded rows add up to the table's total percent times the tax, within half a cent per row |
| Allocations.NothingToAllocate | src/components/TaxCalculator.tsx:458-468 | a tax of 0 expands to rows of 0 |
| TaxTables.FederalBrackets | src/components/TaxCalculator.tsx:17-36 | (table, no contract) the single and married bracket tables, rates 10% to 37%, the top cap unbounded |
| TaxTables.StateTaxRates | src/components/TaxCalculator.tsx:39-47 | (table, no contract) the flat rate of each of the 51 listed codes, none for any other code |
| TaxTables.Spending | src/components/TaxCalculator.tsx:48-416 | (table, no contract) the spending shares for "fed" and each of the 51 listed codes, none for any other code |
| TaxTables.FederalBracketsWellFormed | src/components/TaxCalculator.tsx:17-36 | both federal tables have finite increasing positive caps ending in an unbounded bracket, and non-decreasing rates from 10% to 37% |
| TaxTables.StateRatesInRange | src/components/TaxCalculator.tsx:39-47 | every listed state rate lies between 0 and 9.3% |
| TaxTables.FederalSharesSumToOne | src/components/TaxCalculator.tsx:49-58 | the federal spending table has eight rows whose percents add up to exactly 1 |
| TaxTables.TexasRateIsZero | src/components/TaxCalculator.tsx:45 | Texas's state rate is 0 |
| TaxTables.TexasSpendingTable | src/components/TaxCalculator.tsx:353-359 | Texas has a spending table, and it has five rows |
| TaxCalculator.Gross | src/components/TaxCalculator.tsx:435-438 | (definition, no contract) the annual gross for the selected mode: the annual figure, 12 × the monthly figure, or hourly rate × hours × weeks |
| TaxCalculator.ResolveGross | src/components/TaxCalculator.tsx:435-438 | the gross is the annual figure, 12 × the monthly figure, or hourly rate × hours × weeks, according to the mode, which is the value of `Gross` |
| TaxCalculator.StateRate | src/components/TaxCalculator.tsx:451 | the state rate is the table's entry, or 0 for an unlisted state, and always lies in [0, 0.093] |
| TaxCalculator.StateTax | src/components/TaxCalculator.tsx:452 | (definition, no contract) the state tax is the whole gross times the state's rate |
| TaxCalculator.UnlistedStateUntaxed | src/components/TaxCalculator.tsx:451-452 | an unlisted state pays no state tax whatever the gross |
| TaxCalculator.StateTaxBounds | src/components/TaxCalculator.tsx:451-452 | on a non-negative gross, state tax lies between 0 and 9.3% of it |
| TaxCalculator.Net | src/components/TaxCalculator.tsx:453-456 | take-home + both taxes = gross; the monthly figure × 12 and the weekly figure × 52 are the take-home; the hourly figure × hours × weeks is the take-home when both are positive, and 0 otherwise |
| TaxCalculator.FederalAllocation | src/components/TaxCalculator.tsx:458-461 | the federal allocation has the federal table's eight labels in order, each with its percent of the tax rounded to cents, and its rows add up to the federal tax within four cents |
| TaxCalculator.StateAllocation | src/components/TaxCalculator.tsx:463-468 | a state without a spending table gets no rows; otherwise the rows follow the state's table, each with its percent of the state tax rounded to cents |
| TaxCalculator.Figures | src/components/TaxCalculator.tsx:435-456 | (definition, no contract) the gross, the closed-form federal tax of the filing status's table, the state tax, and their net-pay projection; the lemmas below are stated about it |
| TaxCalculator.Breakdown | src/components/TaxCalculator.tsx:470-480 | (definition, no contract) the stored result: the figures plus the federal and state allocations of the two taxes |
| TaxCalculator.Compute | src/components/TaxCalculator.tsx:434-481 | the step-by-step calculation (gross resolver, bracket loop, state tax, net, both allocations) produces exactly the specified breakdown |
| TaxCalculator.FederalTaxBounds | src/components/TaxCalculator.tsx:440-449 | on a non-negative gross, federal tax lies between 10% and 37% of the gross |
| TaxCalculator.NoFederalTaxWithoutIncome | src/components/TaxCalculator.tsx:442-444 | a gross of 0 or less owes no federal tax |
| TaxCalculator.FederalTaxNonDecreasing | src/components/TaxCalculator.tsx:440-449 | for the same filing status, a larger gross never owes less federal tax |
| TaxCalculator.TakeHomeBounds | src/components/TaxCalculator.tsx:451-453 | on a non-negative gross, take-home pay lies between 53.7% and 90% of the gross |
| TaxCalculator.PeriodsAgree | src/components/TaxCalculator.tsx:454-456 | 12 × monthly = 52 × weekly, and hourly × hours × weeks = 52 × weekly when hours and weeks are positive |
| TaxCalculator.NoHoursNoGross | src/components/TaxCalculator.tsx:438 | hourly mode with 0 hours or 0 weeks has a gross of 0 |
| TaxCalculator.NoIncomeNoFigures | src/components/TaxCalculator.tsx:435-456 | a gross of 0 gives 0 federal tax, 0 state tax and 0 take-home in every period |
| TaxCalculator.NoIncomeNoAllocations | src/components/TaxCalculator.tsx:458-468 | with a gross of 0, every federal and state allocation row is 0 |
| TaxCalculator.FederalAllocationTotal | src/components/TaxCalculator.tsx:458-461 | the result's federal allocation has eight rows adding up to the federal tax within four cents |
| TaxCalculator.UnlistedStateScenario | src/components/TaxCalculator.tsx:451-468 | a state in neither table pays no state tax and gets an empty state allocation |
| TaxCalculator.EmptyStateCodeUnlisted | src/components/TaxCalculator.tsx:39-47 | the empty state code is in neither table |
| TaxCalculator.TexasScenario | src/components/TaxCalculator.tsx:451-468 | Texas pays no state tax but still gets its five allocation rows, each 0 |
| TaxCalculator.SingleFilerScenario | src/components/TaxCalculator.tsx:17-25 | a single filer with an annual gross of 50,000 owes 6,307.50 of federal tax |
| TaxCalculator.HourlyScenario | src/components/TaxCalculator.tsx:438 | 25 an hour for 40 hours a week and 52 weeks gives a gross of 52,000 |
| TaxCalculator.InitialFormScenario | src/components/TaxCalculator.tsx:424-431 | the form as first shown (annual mode, nothing entered) has a gross of 0 |

## Left out

- React state, the `setResult` call, the form's event handlers and all rendering (JSX, currency formatting) are not modelled. `Compute` returns the breakdown that would be stored.
- JavaScript numbers are IEEE doubles; the model uses exact reals. Products, quotients and the bracket subtractions are therefore exact. An empty field reads as 0 in the source, which the model takes as an ordinary input. Infinity and `NaN` arise in the source from double overflow: an entry such as 1e999 gives an infinite gross, and the loop then computes Infinity − Infinity. They also arise from underflow: the guard on the hourly figure tests hours > 0 and weeks > 0, not their product, so positive entries such as 1e-200 for both make `hours * weeks` 0 in doubles. The hourly figure is then ±Infinity, or `NaN` when the take-home is 0. Exact reals neither overflow nor underflow, so the model does not have these values, and its `Net` gives a finite hourly figure in these cases.
- Round2: `+(x).toFixed(2)` is modelled as exact decimal rounding of the real value to cents, half a cent going away from zero. It does not model binary representation effects, for example a double slightly below a half cent rounding down.
- The list of state codes for the dropdown (`allStates`) only feeds the form, so it is not modelled. The state is any string.
- Lookups of keys inherited from JavaScript's object prototype are not modelled. A state such as "toString" would find a function in both tables. Such keys cannot come from the dropdown. In the model, every key outside the listed ones is simply absent.
- The lookup `spending[state]` would also accept "fed" and give the federal table. The model's `Spending` lookup has the same entry, so this is kept.
- TaxTables.FederalSharesSumToOne: only the federal spending table is proved to sum to exactly 1. Each state table also sums to 1 in the source, but a proof over all 51 tables at once is too large to check here. State allocation totals are therefore stated against each table's own percent sum (Allocations.AllocationTotalWithinRounding), not against the state tax.
- The spending row's `label` field is named `category`, because `label` is a reserved word in Dafny.
- Brackets.ComputeFederalTax also returns the final remainder, which the source keeps in a local variable, so that the loop's exit state can be stated.
