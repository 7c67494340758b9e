/**
 * The whole estimate: the contribution is split across the macro categories,
 * each category's sheet is scanned for the assets below target under its own
 * allocation, and each category's allocation is turned into purchases by the
 * category's policy.
 */
module Engine {

  import opened Macro
  import opened Scanner
  import opened Purchases

  /** One category sheet: the total in its header cell and the rows read. */
  datatype Sheet = Sheet(total: real, rows: seq<Row>)

  /** Fixed income is sized as cash, Brazilian stocks and funds in whole shares, the dollar categories in fractions. */
  function PolicyOf(id: CategoryId): Policy
  {
    match id
    case FixedIncome => Cash
    case Equities => WholeShares
    case RealEstateFunds => WholeShares
    case Stocks => Fractional
    case Reits => Fractional
    case Crypto => Fractional
  }

  /** The factor that converts a category's sheet values into reais. */
  function RateFor(id: CategoryId, rate: real): real
  {
    match id
    case FixedIncome => 1.0
    case Equities => 1.0
    case RealEstateFunds => 1.0
    case Stocks => rate
    case Reits => rate
    case Crypto => rate
  }

  /**
   * A sheet the scan and the sizing can read under `allocation`: it has all
   * its rows, and every share of the rows the scan keeps is sizable under the
   * category's policy. Rows the scan skips may carry any quote, and so may
   * rows whose share buys nothing.
   */
  predicate SheetReadable(sheet: Sheet, id: CategoryId, allocation: real, rate: real)
  {
    |sheet.rows| == NumRows
    && var assets := Scan(sheet.rows, sheet.total, allocation, RateFor(id, rate));
       Priceable(assets, allocation, DeficitTotal(assets, |assets|), PolicyOf(id), rate)
  }

  /** The rows the scan keeps have positive quotes where the policy divides by them, and a dollar category has a positive rate. */
  predicate SheetPriced(sheet: Sheet, id: CategoryId, allocation: real, rate: real)
  {
    |sheet.rows| == NumRows
    && (PolicyOf(id) != Cash ==> PositivePrices(Scan(sheet.rows, sheet.total, allocation, RateFor(id, rate)), PolicyOf(id), rate))
  }

  /**
   * A category whose allocation is zero can always be read once it has all
   * its rows, whatever its quotes and the dollar rate: every share is zero and
   * buys nothing.
   */
  lemma ZeroAllocationReadable(sheet: Sheet, id: CategoryId, rate: real)
    requires |sheet.rows| == NumRows
    ensures SheetReadable(sheet, id, 0.0, rate)
  {
    var assets := Scan(sheet.rows, sheet.total, 0.0, RateFor(id, rate));
    if assets != [] {
      ZeroAllocationPriceable(assets, DeficitTotal(assets, |assets|), PolicyOf(id), rate);
    }
  }

  /** The candidates of one category under its allocation. */
  function Candidates(sheet: Sheet, id: CategoryId, allocation: real, rate: real): (assets: seq<Candidate>)
    requires SheetReadable(sheet, id, allocation, rate)
    ensures AllBelowTarget(assets) && Priceable(assets, allocation, DeficitTotal(assets, |assets|), PolicyOf(id), rate)
  {
    Scan(sheet.rows, sheet.total, allocation, RateFor(id, rate))
  }

  /** The purchases of one category under its allocation. */
  function CategoryPlan(sheet: Sheet, id: CategoryId, allocation: real, rate: real): seq<Purchase>
    requires SheetReadable(sheet, id, allocation, rate)
  {
    Plan(Candidates(sheet, id, allocation, rate), allocation, PolicyOf(id), rate)
  }

  /** One category's step of the estimate: scan its sheet, then size its candidates' shares. */
  method EstimateCategory(sheet: Sheet, id: CategoryId, allocation: real, rate: real) returns (purchases: seq<Purchase>)
    requires SheetReadable(sheet, id, allocation, rate)
    ensures purchases == CategoryPlan(sheet, id, allocation, rate)
  {
    var assets := ScanAssets(sheet.rows, sheet.total, allocation, RateFor(id, rate));
    assert assets == Candidates(sheet, id, allocation, rate);
    purchases := Allocate(allocation, assets, PolicyOf(id), rate);
  }

  predicate SheetsReadable(cats: seq<CategoryRow>, sheets: seq<Sheet>, allocations: seq<real>, rate: real)
  {
    |sheets| == |cats| && |allocations| == |cats|
    && forall k :: 0 <= k < |cats| ==> SheetReadable(sheets[k], cats[k].id, allocations[k], rate)
  }

  /**
   * The estimate: the macro deficits under the macro total plus the
   * contribution, the contribution split in proportion to the positive ones,
   * and each category's purchases under its allocation.
   */
  method Estimate(contribution: real, rate: real, macroTotal: real, cats: seq<CategoryRow>, sheets: seq<Sheet>)
    returns (allocations: seq<real>, plans: seq<seq<Purchase>>)
    requires macroTotal + contribution > 0.0
    requires SumPositive(Deficits(cats, macroTotal, contribution)) > 0.0
    requires SheetsReadable(cats, sheets, Allocations(Deficits(cats, macroTotal, contribution), contribution), rate)
    ensures allocations == Allocations(Deficits(cats, macroTotal, contribution), contribution)
    ensures Sum(allocations) == contribution
    ensures |plans| == |cats|
    ensures forall k :: 0 <= k < |cats| ==> plans[k] == CategoryPlan(sheets[k], cats[k].id, allocations[k], rate)
  {
    var deficits := Deficits(cats, macroTotal, contribution);
    allocations := Allocations(deficits, contribution);
    AllocationsConserve(deficits, contribution);
    plans := EstimateCategories(cats, sheets, allocations, rate);
    PlansUpToAt(cats, sheets, allocations, rate, |cats|);
  }

  /** The plans of the first `n` categories, in category order. */
  function PlansUpTo(cats: seq<CategoryRow>, sheets: seq<Sheet>, allocations: seq<real>, rate: real, n: nat): (plans: seq<seq<Purchase>>)
    requires SheetsReadable(cats, sheets, allocations, rate) && n <= |cats|
    ensures |plans| == n
  {
    if n == 0 then []
    else PlansUpTo(cats, sheets, allocations, rate, n - 1) + [CategoryPlan(sheets[n - 1], cats[n - 1].id, allocations[n - 1], rate)]
  }

  /** The `k`-th plan is the `k`-th category's plan under its own allocation. */
  lemma {:induction false} PlansUpToAt(cats: seq<CategoryRow>, sheets: seq<Sheet>, allocations: seq<real>, rate: real, n: nat)
    requires SheetsReadable(cats, sheets, allocations, rate) && n <= |cats|
    ensures forall k :: 0 <= k < n ==>
      PlansUpTo(cats, sheets, allocations, rate, n)[k] == CategoryPlan(sheets[k], cats[k].id, allocations[k], rate)
  {
    if n > 0 {
      var prev := PlansUpTo(cats, sheets, allocations, rate, n - 1);
      PlansUpToAt(cats, sheets, allocations, rate, n - 1);
      assert forall k :: 0 <= k < n - 1 ==> PlansUpTo(cats, sheets, allocations, rate, n)[k] == prev[k];
    }
  }

  /** The per-category loop of the estimate, over the categories in order. */
  method EstimateCategories(cats: seq<CategoryRow>, sheets: seq<Sheet>, allocations: seq<real>, rate: real)
    returns (plans: seq<seq<Purchase>>)
    requires SheetsReadable(cats, sheets, allocations, rate)
    ensures plans == PlansUpTo(cats, sheets, allocations, rate, |cats|)
  {
    plans := [];
    var k := 0;
    while k < |cats|
      invariant 0 <= k <= |cats|
      invariant plans == PlansUpTo(cats, sheets, allocations, rate, k)
    {
      var purchases := EstimateCategory(sheets[k], cats[k].id, allocations[k], rate);
      plans := plans + [purchases];
      k := k + 1;
    }
  }

  /** What the purchases of all categories cost, in reais. */
  function TotalSpent(cats: seq<CategoryRow>, sheets: seq<Sheet>, allocations: seq<real>, rate: real): real
    requires SheetsReadable(cats, sheets, allocations, rate)
  {
    if cats == [] then 0.0
    else
      Spent(CategoryPlan(sheets[0], cats[0].id, allocations[0], rate), rate)
      + TotalSpent(cats[1..], sheets[1..], allocations[1..], rate)
  }

  /** No category's purchases cost more than the category's allocation. */
  lemma CategoryWithinAllocation(sheet: Sheet, id: CategoryId, allocation: real, rate: real)
    requires SheetReadable(sheet, id, allocation, rate) && SheetPriced(sheet, id, allocation, rate)
    requires allocation >= 0.0
    ensures Spent(CategoryPlan(sheet, id, allocation, rate), rate) <= allocation
  {
    var assets := Candidates(sheet, id, allocation, rate);
    PlanWithinAllocation(assets, allocation, PolicyOf(id), rate);
  }

  /** Summed over the categories, the purchases cost no more than the allocations. */
  lemma {:induction false} TotalWithinAllocations(cats: seq<CategoryRow>, sheets: seq<Sheet>, allocations: seq<real>, rate: real)
    requires SheetsReadable(cats, sheets, allocations, rate)
    requires forall k :: 0 <= k < |cats| ==> SheetPriced(sheets[k], cats[k].id, allocations[k], rate) && allocations[k] >= 0.0
    ensures TotalSpent(cats, sheets, allocations, rate) <= Sum(allocations)
  {
    if cats != [] {
      CategoryWithinAllocation(sheets[0], cats[0].id, allocations[0], rate);
      TotalWithinAllocations(cats[1..], sheets[1..], allocations[1..], rate);
    }
  }

  /**
   * The planned purchases of a positive contribution never cost more than the
   * contribution, once every priced asset has a positive quote and, for the
   * dollar categories, the rate is positive.
   */
  lemma {:induction false} EstimateWithinContribution(contribution: real, rate: real, macroTotal: real, cats: seq<CategoryRow>, sheets: seq<Sheet>)
    requires contribution > 0.0 && macroTotal + contribution > 0.0
    requires SumPositive(Deficits(cats, macroTotal, contribution)) > 0.0
    requires SheetsReadable(cats, sheets, Allocations(Deficits(cats, macroTotal, contribution), contribution), rate)
    requires forall k :: 0 <= k < |cats| ==>
      SheetPriced(sheets[k], cats[k].id, Allocations(Deficits(cats, macroTotal, contribution), contribution)[k], rate)
    ensures TotalSpent(cats, sheets, Allocations(Deficits(cats, macroTotal, contribution), contribution), rate) <= contribution
  {
    var deficits := Deficits(cats, macroTotal, contribution);
    AllocationsNonNegative(deficits, contribution);
    AllocationsConserve(deficits, contribution);
    TotalWithinAllocations(cats, sheets, Allocations(deficits, contribution), rate);
  }

  /** A category's purchases come out in increasing sheet-line order. */
  lemma CategoryPlanOrdered(sheet: Sheet, id: CategoryId, allocation: real, rate: real)
    requires SheetReadable(sheet, id, allocation, rate)
    ensures forall j, k :: 0 <= j < k < |CategoryPlan(sheet, id, allocation, rate)| ==>
      CategoryPlan(sheet, id, allocation, rate)[j].line < CategoryPlan(sheet, id, allocation, rate)[k].line
  {
    var assets := Candidates(sheet, id, allocation, rate);
    ScanUpToOrdered(sheet.rows, NumRows, FutureTotal(sheet.total, allocation, RateFor(id, rate)), RateFor(id, rate));
    PlanUpToOrdered(assets, |assets|, allocation, DeficitTotal(assets, |assets|), PolicyOf(id), rate);
  }
}
