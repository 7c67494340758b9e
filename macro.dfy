/**
 * Category level of the rebalancing engine: how far each macro category is
 * below its target weight once the new contribution is counted, and how the
 * contribution is split across the categories in proportion to the positive
 * deficits.
 */
module Macro {

  import opened RealArith

  /** The six macro categories, in the order the macro-allocation sheet lists them. */
  datatype CategoryId = FixedIncome | Equities | RealEstateFunds | Stocks | Reits | Crypto

  /** One category line of the macro-allocation sheet. */
  datatype CategoryRow = CategoryRow(id: CategoryId, targetWeight: real, currentValue: real)

  function Clamp(x: real): (r: real)
    ensures r >= 0.0 && r >= x
    ensures x <= 0.0 ==> r == 0.0
    ensures x > 0.0 ==> r == x
  {
    if x > 0.0 then x else 0.0
  }

  function Sum(xs: seq<real>): real
  {
    if xs == [] then 0.0 else xs[0] + Sum(xs[1..])
  }

  /** The target weights of the categories, in order. */
  function Weights(cats: seq<CategoryRow>): seq<real>
  {
    if cats == [] then [] else [cats[0].targetWeight] + Weights(cats[1..])
  }

  /** The current values of the categories, in order. */
  function Values(cats: seq<CategoryRow>): seq<real>
  {
    if cats == [] then [] else [cats[0].currentValue] + Values(cats[1..])
  }

  /**
   * Deficit of every category, in order: its target weight minus its current
   * share of the portfolio-wide future total (current total plus contribution).
   * The same denominator is used for every category.
   */
  function Deficits(cats: seq<CategoryRow>, currentTotal: real, contribution: real): (ds: seq<real>)
    requires currentTotal + contribution > 0.0
    ensures |ds| == |cats|
    ensures forall i :: 0 <= i < |cats| ==>
      ds[i] == cats[i].targetWeight - cats[i].currentValue / (currentTotal + contribution)
  {
    if cats == [] then []
    else
      [cats[0].targetWeight - cats[0].currentValue / (currentTotal + contribution)]
      + Deficits(cats[1..], currentTotal, contribution)
  }

  /**
   * A category has a positive deficit exactly when its current value is below
   * its target weight of the future total.
   */
  lemma {:induction false} DeficitPositive(cats: seq<CategoryRow>, currentTotal: real, contribution: real, i: nat)
    requires currentTotal + contribution > 0.0
    requires i < |cats|
    ensures Deficits(cats, currentTotal, contribution)[i] > 0.0
        <==> cats[i].currentValue < cats[i].targetWeight * (currentTotal + contribution)
  {
    QuotientBelow(cats[i].currentValue, cats[i].targetWeight, currentTotal + contribution);
  }

  /** Sum of the deficits clamped at zero: the normalisation denominator. */
  function SumPositive(ds: seq<real>): (r: real)
    ensures r >= 0.0
  {
    if ds == [] then 0.0 else Clamp(ds[0]) + SumPositive(ds[1..])
  }

  /** The normalisation denominator is zero exactly when no deficit is positive. */
  lemma {:induction false} SumPositiveZero(ds: seq<real>)
    ensures SumPositive(ds) == 0.0 <==> forall i :: 0 <= i < |ds| ==> ds[i] <= 0.0
  {
    if ds != [] {
      SumPositiveZero(ds[1..]);
      assert forall i :: 1 <= i < |ds| ==> ds[i] == ds[1..][i - 1];
    }
  }

  /**
   * The clamped deficits as fractions of `total`, each multiplied by `amount`:
   * the shares `max(d, 0) / total * amount` that normalisation hands out.
   */
  function Normalised(ds: seq<real>, total: real, amount: real): (r: seq<real>)
    requires total > 0.0
    ensures |r| == |ds|
  {
    if ds == [] then [] else [Clamp(ds[0]) / total * amount] + Normalised(ds[1..], total, amount)
  }

  lemma {:induction false} NormalisedAt(ds: seq<real>, total: real, amount: real, i: nat)
    requires total > 0.0 && i < |ds|
    ensures Normalised(ds, total, amount)[i] == Clamp(ds[i]) / total * amount
  {
    if i > 0 {
      NormalisedAt(ds[1..], total, amount, i - 1);
    }
  }

  /**
   * Normalisation: every category gets its clamped deficit's share of all
   * positive deficits, times the contribution. With no positive deficit the
   * division is by zero, hence the precondition.
   */
  function Allocations(ds: seq<real>, amount: real): (r: seq<real>)
    requires SumPositive(ds) > 0.0
    ensures |r| == |ds|
  {
    Normalised(ds, SumPositive(ds), amount)
  }

  /**
   * Proportionality: each category's allocation is its clamped deficit as a
   * fraction of the sum of all positive deficits, times the contribution.
   */
  lemma {:induction false} AllocationShare(ds: seq<real>, amount: real, i: nat)
    requires SumPositive(ds) > 0.0 && i < |ds|
    ensures Allocations(ds, amount)[i] == Clamp(ds[i]) / SumPositive(ds) * amount
  {
    NormalisedAt(ds, SumPositive(ds), amount, i);
  }

  /**
   * No category gets a negative amount out of a non-negative contribution,
   * and a category whose deficit is not positive gets exactly zero.
   */
  lemma {:induction false} AllocationsNonNegative(ds: seq<real>, amount: real)
    requires SumPositive(ds) > 0.0
    ensures forall i :: 0 <= i < |ds| && ds[i] <= 0.0 ==> Allocations(ds, amount)[i] == 0.0
    ensures amount >= 0.0 ==> forall i :: 0 <= i < |ds| ==> Allocations(ds, amount)[i] >= 0.0
  {
    var total := SumPositive(ds);
    forall i | 0 <= i < |ds|
      ensures ds[i] <= 0.0 ==> Allocations(ds, amount)[i] == 0.0
      ensures amount >= 0.0 ==> Allocations(ds, amount)[i] >= 0.0
    {
      NormalisedAt(ds, total, amount, i);
      ShareOf(Clamp(ds[i]), total, amount);
    }
  }

  lemma {:induction false} NormalisedSum(ds: seq<real>, total: real, amount: real)
    requires total > 0.0
    ensures Sum(Normalised(ds, total, amount)) == SumPositive(ds) / total * amount
  {
    if ds != [] {
      var r := Normalised(ds, total, amount);
      assert r[1..] == Normalised(ds[1..], total, amount);
      NormalisedSum(ds[1..], total, amount);
      AddShares(Clamp(ds[0]), SumPositive(ds[1..]), total, amount);
    }
  }

  /** Conservation: the category allocations add up to the whole contribution. */
  lemma {:induction false} AllocationsConserve(ds: seq<real>, amount: real)
    requires SumPositive(ds) > 0.0
    ensures Sum(Allocations(ds, amount)) == amount
  {
    var total := SumPositive(ds);
    NormalisedSum(ds, total, amount);
    ShareTimesTotal(Sum(Allocations(ds, amount)), total, total, amount);
  }

  lemma {:induction false} SumPositiveBoundsSum(ds: seq<real>)
    ensures Sum(ds) <= SumPositive(ds)
  {
    if ds != [] {
      SumPositiveBoundsSum(ds[1..]);
    }
  }

  lemma {:induction false} DeficitsSum(cats: seq<CategoryRow>, currentTotal: real, contribution: real)
    requires currentTotal + contribution > 0.0
    ensures Sum(Deficits(cats, currentTotal, contribution))
         == Sum(Weights(cats)) - Sum(Values(cats)) / (currentTotal + contribution)
  {
    if cats != [] {
      var future := currentTotal + contribution;
      var ds := Deficits(cats, currentTotal, contribution);
      DeficitsSum(cats[1..], currentTotal, contribution);
      assert ds[1..] == Deficits(cats[1..], currentTotal, contribution);
      assert Weights(cats)[1..] == Weights(cats[1..]);
      assert Values(cats)[1..] == Values(cats[1..]);
      assert cats[0].currentValue / future + Sum(Values(cats[1..])) / future == Sum(Values(cats)) / future;
    }
  }

  /**
   * On a consistent sheet (the current total is the sum of the category
   * values and the target weights add up to one), a positive contribution
   * always leaves some category with a positive deficit, so normalisation
   * never divides by zero.
   */
  lemma {:induction false} ConsistentSheetHasDeficit(cats: seq<CategoryRow>, currentTotal: real, contribution: real)
    requires currentTotal == Sum(Values(cats)) && currentTotal >= 0.0
    requires Sum(Weights(cats)) == 1.0
    requires contribution > 0.0
    ensures SumPositive(Deficits(cats, currentTotal, contribution)) > 0.0
  {
    var future := currentTotal + contribution;
    var ds := Deficits(cats, currentTotal, contribution);
    DeficitsSum(cats, currentTotal, contribution);
    SumPositiveBoundsSum(ds);
    BelowWhole(currentTotal, future);
  }


}
