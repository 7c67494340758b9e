# Contribution estimate for a rebalanced portfolio

This project models the allocation engine of a spreadsheet script that plans how a new cash contribution (an *aporte*) is invested. The portfolio is split into six macro categories: fixed income, Brazilian stocks, real-estate funds, US stocks, REITs and crypto. Each category has a target weight, and each category sheet lists assets with their own target weights.

The engine runs in four stages:

1. **Category deficits.** Each category's deficit is its target weight minus its current value divided by the portfolio-wide future total (current total plus contribution).
2. **Normalisation.** The deficits are clamped at zero. Each category then receives its clamped deficit's fraction of all positive deficits, times the contribution.
3. **Asset scan.** Each category sheet is scanned for asset rows below target under the category's future total (category total plus its allocation). The dollar categories convert totals and values to reais with the exchange rate first. A row qualifies when its target weight is positive and its deficit is positive. Its line is the row index plus one.
4. **Purchase sizing.** Each candidate gets its deficit's fraction of the category's deficit total, times the allocation. That share becomes a purchase under the category's policy:
   - **Fixed income:** cash, when positive.
   - **Brazilian stocks and funds:** whole shares, truncated, when at least one.
   - **US stocks, REITs and crypto:** a fractional quantity in dollars, when above the 15-dollar minimum ticket.

Modules:

- `RealArith` (arith.dfy) holds small facts of real arithmetic.
- `Macro` (macro.dfy) covers stages 1 and 2 as functions, with lemmas for sign, conservation and positivity.
- `Scanner` (scanner.dfy) covers stage 3.
  - The six scans of the script are one scan with a rate factor, 1 for the categories held in reais.
  - `ScanAssets` is the loop; it is proved equal to the recursive filter `Scan`.
  - Lemmas prove the filter sound, complete and ordered.
- `Purchases` (purchases.dfy) covers stage 4.
  - The six allocators are one loop, `Allocate`, parametrised by a `Policy`; it is proved equal to the recursive `Plan`.
  - Lemmas cover sizing, order, soundness, completeness, share conservation and spending.
- `Engine` (engine.dfy) runs the whole estimate as one loop over the categories.

Money is exact `real` throughout.

## Model

| member | source | states |
|---|---|---|
| Macro.Deficits | index.js:34-50 | every category's deficit is its target weight minus its current value over the same portfolio-wide total, current total plus contribution, in category order |
| Macro.DeficitPositive | index.js:36-43 | a category's deficit is positive exactly when its current value is below its target weight times the future total |
| Macro.SumPositive | index.js:53 | the normalisation denominator, the sum of the deficits clamped at zero, is never negative |
| Macro.SumPositiveZero | index.js:53 | the denominator is zero exactly when no deficit is positive, which is the case the source divides by zero in |
| Macro.Allocations | index.js:52-60 | one allocation per category, in category order; what each one is comes from `AllocationShare`, `AllocationsNonNegative` and `AllocationsConserve` |
| Macro.AllocationShare | index.js:55-59 | each category receives its clamped deficit over the sum of positive deficits, times the contribution |
| Macro.AllocationsNonNegative | index.js:53-59 | a category with a deficit of zero or less receives exactly 0; with a non-negative contribution no category receives a negative amount |
| Macro.AllocationsConserve | index.js:52-60 | when some deficit is positive, the category allocations add up to the whole contribution |
| Macro.ConsistentSheetHasDeficit | index.js:34-60 | when the macro total is the sum of the category values and the weights sum to one, a positive contribution always leaves a positive deficit, so normalisation is defined |
| Scanner.Scan | index.js:73-111 | every candidate has a positive deficit, a line in 3..50, and the quote of a row with positive target weight |
| Scanner.ScanAssets | index.js:88-110 | the scanning loop over rows 2..49 returns exactly the recursive filter `Scan` |
| Scanner.ScanUpToSound | index.js:91-108 | every candidate comes from a row with positive target weight and positive deficit, with that row's data, converted current value and deficit, and line = index + 1 |
| Scanner.ScanUpToComplete | index.js:91-108 | no row with positive target weight and positive deficit is skipped |
| Scanner.ScanUpToOrdered | index.js:91-108 | candidates come out in strictly increasing line order |
| Scanner.ScanListsExactlyQualifying | index.js:199-240 | line i + 1 is listed if and only if row i is an asset row below target under the future total, category total times rate plus allocation, with the current value times rate |
| Scanner.ScanQuotesNonZero | index.js:91-108 | every quote the scan carries is non-zero exactly when every asset row below target has a non-zero quote; rows the scan skips may hold any quote |
| Scanner.ScanEmpty | index.js:91-108 | the scan comes back empty exactly when no asset row is below its target |
| Purchases.Trunc | index.js:365 | truncation toward zero: for a non-negative argument the greatest whole number not above it, for a negative one the least not below it |
| Purchases.DeficitTotal | index.js:340 | the deficit total of a non-empty pool of candidates below target is positive, so the proportions are defined |
| Purchases.Share | index.js:343-344 | a candidate's deficit over the pool's deficit total, times the allocation; `SharesUpToSum` and `SharesConserve` state what the shares add up to |
| Purchases.Size | index.js:343-418 | the purchase one share buys under the category's policy, if any; a zero quote or rate that the script divides by without buying gives no purchase; `CashSizing`, `WholeSharesSizing` and `FractionalSizing` state when it exists and what it holds |
| Purchases.ZeroQuoteSizable | index.js:365-418 | a candidate with a zero quote is admitted exactly when its share buys nothing (a whole-share share of zero or less, a dollar share within the 15-dollar ticket), and then no purchase is made |
| Purchases.CashSizing | index.js:343-353 | fixed income issues a purchase exactly when the share is positive; it costs the share, and the final value is the current value plus the share |
| Purchases.WholeSharesSizing | index.js:363-373 | whole shares are bought exactly when the share covers one quote; the amount is shares times quote, at most the share and within one quote of it; the final quantity is held plus bought |
| Purchases.WholeSharesMonotone | index.js:363-373 | a larger share never buys fewer whole shares: if the smaller share buys some, the larger buys at least as many |
| Purchases.FractionalSizing | index.js:407-418 | a dollar purchase is issued exactly when the share exceeds 15 dollars in reais; its dollars times the rate are the share, its quantity times the quote is its dollars, the final quantity is held plus bought |
| Purchases.SizeKeepsAsset | index.js:347-351 | every purchase keeps its asset's ticker and line |
| Purchases.SizeOutlay | index.js:343-418 | what one share buys costs at most the share; cash spends all of it, whole shares leave less than one quote, fractions at most the minimum ticket |
| Purchases.SumDeficits | index.js:340 | the loop that adds the candidates' deficits returns their deficit total |
| Purchases.Allocate | index.js:339-357 | the allocation loop (sum of deficits, then a share per candidate sized by the policy) returns exactly `Plan` |
| Purchases.Plan | index.js:339-467 | the purchases of a category, one per candidate whose share buys something, in candidate order; `PlanUpToSound`, `PlanUpToComplete`, `PlanUpToOrdered` and the spending lemmas state its properties |
| Purchases.PlanUpToSound | index.js:342-356 | every purchase is what some candidate's share buys |
| Purchases.PlanUpToComplete | index.js:342-356 | every candidate whose share buys something has that purchase in the plan |
| Purchases.PlanUpToOrdered | index.js:342-356 | purchases keep the candidates' increasing line order, so the plan is an ordered subsequence of the candidates |
| Purchases.SharesUpToSum | index.js:343-344 | the shares of the first n candidates are their deficit total over the pool total, times the allocation |
| Purchases.SharesConserve | index.js:340-344 | the candidates' shares add up to the whole category allocation |
| Purchases.PlanUpToWithinShares | index.js:342-356 | over any prefix, what is spent never exceeds the shares; for cash it equals them |
| Purchases.WholeSharesUpToLeftover | index.js:362-378 | over a non-empty prefix, whole shares leave less unspent than the sum of the quotes |
| Purchases.FractionalUpToLeftover | index.js:406-422 | over a prefix of n candidates, fractional purchases leave at most n minimum tickets unspent |
| Purchases.PlanWithinAllocation | index.js:339-467 | a category's purchases never cost more than its allocation |
| Purchases.CashPlanSpendsAll | index.js:339-357 | fixed income spends its whole allocation whenever it has a candidate |
| Purchases.CashPlanUpToCoversAll | index.js:342-356 | with a positive allocation every fixed-income candidate gets a cash purchase of its share, in order, at its line |
| Purchases.WholeSharesLeftover | index.js:359-401 | whole-share categories leave less of the allocation unspent than the sum of their candidates' quotes |
| Purchases.FractionalLeftover | index.js:403-467 | dollar categories leave at most one 15-dollar ticket per candidate unspent |
| Engine.PolicyOf | index.js:328-337 | fixed income buys cash, Brazilian stocks and funds buy whole shares, and US stocks, REITs and crypto buy fractions in dollars |
| Engine.RateFor | index.js:62-71 | the categories held in reais scan with rate 1, the dollar categories with the exchange rate |
| Engine.Candidates | index.js:62-71 | the scan dispatched per category, with rate 1 in reais and the exchange rate in dollars, yields candidates below target whose shares the policy can size; a zero quote or rate is excluded only where a kept row's share would buy an unbounded amount |
| Engine.ZeroAllocationReadable | index.js:339-418 | a category that receives nothing can be read whatever its quotes and the exchange rate, since every share is zero and buys nothing |
| Engine.Estimate | index.js:15-32 | the estimate returns the normalised category allocations, which add up to the contribution, and per category the plan of its scanned candidates under its policy; it demands only that the allocation be defined and that every kept row's share be sizable |
| Engine.EstimateCategory | index.js:62-71 | one category's scan followed by its allocation returns exactly that category's plan |
| Engine.EstimateCategories | index.js:23-27 | the loop over the categories returns, in category order, each category's plan under its allocation |
| Engine.PlansUpToAt | index.js:23-27 | the first n category plans, in category order, are each category's plan under its own allocation |
| Engine.CategoryWithinAllocation | index.js:328-337 | no category's purchases cost more than its allocation |
| Engine.TotalWithinAllocations | index.js:328-337 | summed over the categories, the purchases cost no more than the allocations |
| Engine.EstimateWithinContribution | index.js:15-32 | the planned purchases of a positive contribution never cost more than the contribution |
| Engine.CategoryPlanOrdered | index.js:62-71 | each category's purchases come out in increasing line order |

## Left out

- Spreadsheet reads and writes (`SpreadsheetApp` ranges, `atualizarPlanilha`, `limparAportes`, `efetivarAportes`) are host I/O. The cells they read become parameters: the contribution, the exchange rate, the macro total, the category rows, and each sheet's total and rows.
- `onEdit` is a UI trigger. It only calls the estimate when the contribution is positive.
- `Logger.log` only logs.
- `formatar` wraps a foreign number-formatting library. A cash purchase's final value is kept as the number it formats.
- The sheet columns each category reads are cell addresses. One `Row` record stands for every sheet.
- IEEE-754 rounding is not modelled: money is exact `real`, so conservation holds exactly here and only approximately in the script.
- Macro.Allocations: the `NaN` the script produces when no category deficit is positive (0 divided by 0) is a precondition, a positive sum of positive deficits. `ConsistentSheetHasDeficit` shows that a consistent sheet always meets it.
- Macro.Deficits: the future total must be positive. A zero future total (an empty portfolio with no contribution) makes the division at index.js:43 produce Infinity or NaN. A negative one gives finite deficits with flipped signs; it is excluded too, because a negative macro total is not a portfolio.
- Purchases.Size: a zero quote or a zero exchange rate is excluded by precondition only where the script would push a purchase of Infinity: a positive whole-share share over a zero quote (index.js:365-367), a positive dollar share over a zero rate, or a dollar share above the ticket over a zero quote (index.js:408-411). Where the script divides by zero but buys nothing, `Size` returns no purchase. `Engine.SheetReadable` asks this only of the rows the scan keeps.
- Purchases.PlanWithinAllocation: the spending bounds assume positive quotes for the share and dollar categories, a positive exchange rate for the dollar categories, and a non-negative allocation.
- Engine.Estimate: the macro total, cell B19, is taken as a parameter, as the script reads it. Nothing in the script ties it to the category values.
