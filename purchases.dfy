/**
 * Asset level, second half: how a category's allocation is shared among its
 * candidates in proportion to their deficits, and how each share becomes a
 * purchase. The script has six copies of this loop; they differ only in how a
 * share is turned into a purchase, which `Policy` names: fixed income takes
 * the share as cash, Brazilian stocks and real-estate funds buy whole shares,
 * and the dollar categories buy fractions above a minimum ticket.
 */
module Purchases {

  import opened RealArith
  import opened Scanner

  /** The smallest dollar purchase of a fractional asset (exclusive). */
  const MinDollarTicket: real := 15.0

  datatype Option<T> = None | Some(value: T)

  /** How a category turns an asset's share of its allocation into a purchase. */
  datatype Policy = Cash | WholeShares | Fractional

  /**
   * One planned purchase. Cash and whole-share amounts are in reais; a
   * fractional purchase is in dollars.
   */
  datatype Purchase =
    | CashPurchase(ticker: string, amount: real, finalValue: real, line: nat)
    | SharePurchase(ticker: string, shares: int, finalQuantity: real, amount: real, line: nat)
    | FractionalPurchase(ticker: string, dollars: real, quantity: real, finalQuantity: real, line: nat)

  /** Truncation toward zero, as for a number in JavaScript. */
  function Trunc(x: real): (n: int)
    ensures 0.0 <= x ==> 0 <= n && n as real <= x < n as real + 1.0
    ensures x < 0.0 ==> n <= 0 && x <= n as real < x + 1.0
  {
    if x >= 0.0 then x.Floor else -((-x).Floor)
  }

  /** All candidates lie below their target, as every scan guarantees. */
  predicate AllBelowTarget(assets: seq<Candidate>)
  {
    forall k :: 0 <= k < |assets| ==> assets[k].deficit > 0.0
  }

  /**
   * Sizing one share never yields a purchase of an unbounded amount: a
   * positive share of a whole-share asset is divided by a non-zero quote,
   * and a dollar share is converted by a non-zero rate unless it is not
   * positive, and divided by a non-zero quote once it passes the minimum
   * ticket. A division by zero whose result is not bought (a share of zero or
   * less, or a dollar share below the ticket) is allowed.
   */
  predicate Sizable(a: Candidate, share: real, policy: Policy, rate: real)
  {
    match policy
    case Cash => true
    case WholeShares => share > 0.0 ==> a.quote != 0.0
    case Fractional =>
      (rate == 0.0 ==> share <= 0.0)
      && (rate != 0.0 && share / rate > MinDollarTicket ==> a.quote != 0.0)
  }

  /** Every candidate's share of the allocation, against the deficit total `total`, is sizable. */
  predicate Priceable(assets: seq<Candidate>, allocation: real, total: real, policy: Policy, rate: real)
  {
    forall k :: 0 <= k < |assets| ==>
      total != 0.0 && Sizable(assets[k], Share(assets[k], allocation, total), policy, rate)
  }

  /** Every asset has a positive quote, and the dollar rate is positive where the policy converts by it. */
  predicate PositivePrices(assets: seq<Candidate>, policy: Policy, rate: real)
  {
    (forall k :: 0 <= k < |assets| ==> assets[k].quote > 0.0) && (policy == Fractional ==> rate > 0.0)
  }

  /**
   * A candidate with a zero quote is sizable exactly when its share buys
   * nothing: a whole-share share of zero or less, or a dollar share within the
   * minimum ticket; and then no purchase is made.
   */
  lemma ZeroQuoteSizable(a: Candidate, share: real, policy: Policy, rate: real)
    requires a.quote == 0.0
    ensures policy == WholeShares ==> (Sizable(a, share, policy, rate) <==> share <= 0.0)
    ensures policy == Fractional && rate > 0.0 ==> (Sizable(a, share, policy, rate) <==> share <= MinDollarTicket * rate)
    ensures policy != Cash && Sizable(a, share, policy, rate) ==> Size(a, share, policy, rate).None?
  {
    if rate > 0.0 {
      QuotientAbove(share, MinDollarTicket, rate);
    }
  }

  /** A category that receives nothing can size every candidate, whatever the quotes and the rate. */
  lemma ZeroAllocationPriceable(assets: seq<Candidate>, total: real, policy: Policy, rate: real)
    requires total != 0.0
    ensures Priceable(assets, 0.0, total, policy, rate)
  {
  }

  /** Positive prices leave every share sizable. */
  lemma PositivePricesPriceable(assets: seq<Candidate>, allocation: real, total: real, policy: Policy, rate: real)
    requires total != 0.0 && (policy != Cash ==> PositivePrices(assets, policy, rate))
    ensures Priceable(assets, allocation, total, policy, rate)
  {
  }

  /** Sum of the deficits of the first `n` candidates, added left to right. */
  function DeficitTotal(assets: seq<Candidate>, n: nat): (r: real)
    requires n <= |assets|
    ensures AllBelowTarget(assets) && n > 0 ==> r > 0.0
  {
    if n == 0 then 0.0 else DeficitTotal(assets, n - 1) + assets[n - 1].deficit
  }

  /** The asset's deficit as a fraction of the deficit total, times the allocation. */
  function Share(a: Candidate, allocation: real, total: real): real
    requires total != 0.0
  {
    a.deficit / total * allocation
  }

  /**
   * The purchase one share of the allocation buys, if any. Cash: the share
   * itself, when positive. Whole shares: the share divided by the quote and
   * truncated, when at least one. Fractional: the share converted to dollars,
   * when above the minimum ticket, divided by the quote. A zero quote or rate
   * here goes with a share of zero or less, whose quotient is not a number or
   * minus infinity, so nothing is bought.
   */
  function Size(a: Candidate, share: real, policy: Policy, rate: real): Option<Purchase>
    requires Sizable(a, share, policy, rate)
  {
    match policy
    case Cash =>
      if share > 0.0 then Some(CashPurchase(a.ticker, share, a.currentValue + share, a.line)) else None
    case WholeShares =>
      if a.quote == 0.0 then None
      else
        var shares := Trunc(share / a.quote);
        if shares > 0 then Some(SharePurchase(a.ticker, shares, a.quantity + shares as real, shares as real * a.quote, a.line))
        else None
    case Fractional =>
      if rate == 0.0 then None
      else
        var dollars := share / rate;
        if dollars > MinDollarTicket then
          Some(FractionalPurchase(a.ticker, dollars, dollars / a.quote, a.quantity + dollars / a.quote, a.line))
        else None
  }

  /** What a purchase costs in reais. */
  function Cost(p: Purchase, rate: real): real
  {
    match p
    case CashPurchase(_, amount, _, _) => amount
    case SharePurchase(_, _, _, amount, _) => amount
    case FractionalPurchase(_, dollars, _, _, _) => dollars * rate
  }

  /** Whatever the policy, a purchase keeps its asset's ticker and sheet line. */
  lemma SizeKeepsAsset(a: Candidate, share: real, policy: Policy, rate: real)
    requires Sizable(a, share, policy, rate)
    ensures Size(a, share, policy, rate).Some? ==>
      Size(a, share, policy, rate).value.ticker == a.ticker && Size(a, share, policy, rate).value.line == a.line
  {
  }

  /**
   * Cash: every positive share becomes a purchase of exactly that amount, and
   * the final value is the current value plus it.
   */
  lemma CashSizing(a: Candidate, share: real, rate: real)
    ensures Size(a, share, Cash, rate).Some? <==> share > 0.0
    ensures Size(a, share, Cash, rate).Some? ==>
      var p := Size(a, share, Cash, rate).value;
      p.CashPurchase? && Cost(p, rate) == share && p.finalValue - a.currentValue == share
  {
  }

  /**
   * Whole shares: a purchase is made exactly when the share covers one quote;
   * it buys the most whole shares the share pays for, so what it spends is at
   * most the share and what is left is less than one more quote.
   */
  lemma WholeSharesSizing(a: Candidate, share: real, rate: real)
    requires a.quote > 0.0 && share >= 0.0
    ensures Size(a, share, WholeShares, rate).Some? <==> share >= a.quote
    ensures Size(a, share, WholeShares, rate).Some? ==>
      var p := Size(a, share, WholeShares, rate).value;
      p.SharePurchase? && p.shares >= 1
      && p.amount == p.shares as real * a.quote
      && p.amount <= share < p.amount + a.quote
      && p.finalQuantity == a.quantity + p.shares as real
  {
    var units := Trunc(share / a.quote);
    UnitsBounds(share, a.quote, units as real);
    UnitsGate(share, a.quote, units as real);
  }

  /**
   * Whole shares are monotone in the share: a larger share never buys fewer
   * shares, and buys some whenever a smaller one does.
   */
  lemma WholeSharesMonotone(a: Candidate, small: real, large: real, rate: real)
    requires a.quote > 0.0 && 0.0 <= small <= large
    ensures Size(a, small, WholeShares, rate).Some? ==>
      Size(a, large, WholeShares, rate).Some?
      && Size(a, small, WholeShares, rate).value.shares <= Size(a, large, WholeShares, rate).value.shares
  {
    var x := small / a.quote;
    var y := large / a.quote;
    MonotoneQuotient(small, large, a.quote);
    assert Trunc(x) as real <= x <= y < Trunc(y) as real + 1.0;
  }

  /**
   * Fractional: a purchase is made exactly when the share exceeds the minimum
   * ticket converted to reais; it spends the whole share, in dollars, and the
   * quantity bought is worth those dollars at the quote.
   */
  lemma FractionalSizing(a: Candidate, share: real, rate: real)
    requires a.quote > 0.0 && rate > 0.0
    ensures Size(a, share, Fractional, rate).Some? <==> share > MinDollarTicket * rate
    ensures Size(a, share, Fractional, rate).Some? ==>
      var p := Size(a, share, Fractional, rate).value;
      p.FractionalPurchase? && Cost(p, rate) == share
      && p.quantity * a.quote == p.dollars
      && p.finalQuantity == a.quantity + p.quantity
  {
    QuotientAbove(share, MinDollarTicket, rate);
    QuotientTimes(share, rate);
    QuotientTimes(share / rate, a.quote);
  }

  /** The purchase, if any, for candidate `j`. */
  function SizeAt(assets: seq<Candidate>, j: nat, allocation: real, total: real, policy: Policy, rate: real): Option<Purchase>
    requires j < |assets| && total != 0.0 && Priceable(assets, allocation, total, policy, rate)
  {
    Size(assets[j], Share(assets[j], allocation, total), policy, rate)
  }

  function Emit(o: Option<Purchase>): seq<Purchase>
  {
    if o.Some? then [o.value] else []
  }

  /** The purchases for the first `n` candidates, in candidate order. */
  function PlanUpTo(assets: seq<Candidate>, n: nat, allocation: real, total: real, policy: Policy, rate: real): seq<Purchase>
    requires n <= |assets| && (n > 0 ==> total != 0.0) && Priceable(assets, allocation, total, policy, rate)
  {
    if n == 0 then []
    else PlanUpTo(assets, n - 1, allocation, total, policy, rate) + Emit(SizeAt(assets, n - 1, allocation, total, policy, rate))
  }

  /** The purchases for a category: every candidate's share is sized against the category's deficit total. */
  function Plan(assets: seq<Candidate>, allocation: real, policy: Policy, rate: real): seq<Purchase>
    requires AllBelowTarget(assets) && Priceable(assets, allocation, DeficitTotal(assets, |assets|), policy, rate)
  {
    PlanUpTo(assets, |assets|, allocation, DeficitTotal(assets, |assets|), policy, rate)
  }

  /** The deficit total of a pool of candidates, added left to right. */
  method SumDeficits(assets: seq<Candidate>) returns (total: real)
    ensures total == DeficitTotal(assets, |assets|)
  {
    total := 0.0;
    var k := 0;
    while k < |assets|
      invariant 0 <= k <= |assets|
      invariant total == DeficitTotal(assets, k)
    {
      total := total + assets[k].deficit;
      k := k + 1;
    }
  }

  /**
   * The per-category allocation loop: sum the deficits, then size each
   * candidate's share of the allocation and keep the purchases that come out.
   */
  method Allocate(allocation: real, assets: seq<Candidate>, policy: Policy, rate: real)
    returns (purchases: seq<Purchase>)
    requires AllBelowTarget(assets) && Priceable(assets, allocation, DeficitTotal(assets, |assets|), policy, rate)
    ensures purchases == Plan(assets, allocation, policy, rate)
  {
    var total := SumDeficits(assets);
    purchases := [];
    var k := 0;
    while k < |assets|
      invariant 0 <= k <= |assets|
      invariant purchases == PlanUpTo(assets, k, allocation, total, policy, rate)
    {
      var purchase := Size(assets[k], Share(assets[k], allocation, total), policy, rate);
      if purchase.Some? {
        purchases := purchases + [purchase.value];
      }
      k := k + 1;
    }
  }

  /** Every planned purchase is what some earlier candidate's share buys. */
  lemma {:induction false} PlanUpToSound(assets: seq<Candidate>, n: nat, allocation: real, total: real, policy: Policy, rate: real)
    requires n <= |assets| && (n > 0 ==> total != 0.0) && Priceable(assets, allocation, total, policy, rate)
    ensures forall p :: p in PlanUpTo(assets, n, allocation, total, policy, rate) ==>
      exists j :: 0 <= j < n && SizeAt(assets, j, allocation, total, policy, rate) == Some(p)
  {
    if n > 0 {
      PlanUpToSound(assets, n - 1, allocation, total, policy, rate);
    }
  }

  /** Every candidate whose share buys something has its purchase in the plan. */
  lemma {:induction false} PlanUpToComplete(assets: seq<Candidate>, n: nat, allocation: real, total: real, policy: Policy, rate: real)
    requires n <= |assets| && (n > 0 ==> total != 0.0) && Priceable(assets, allocation, total, policy, rate)
    ensures forall j :: 0 <= j < n && SizeAt(assets, j, allocation, total, policy, rate).Some? ==>
      SizeAt(assets, j, allocation, total, policy, rate).value in PlanUpTo(assets, n, allocation, total, policy, rate)
  {
    if n > 0 {
      PlanUpToComplete(assets, n - 1, allocation, total, policy, rate);
    }
  }

  predicate LinesIncrease(assets: seq<Candidate>)
  {
    forall j, k :: 0 <= j < k < |assets| ==> assets[j].line < assets[k].line
  }

  /** Purchases come out in the order of their sheet lines, as the candidates do. */
  lemma {:induction false} PlanUpToOrdered(assets: seq<Candidate>, n: nat, allocation: real, total: real, policy: Policy, rate: real)
    requires n <= |assets| && (n > 0 ==> total != 0.0) && Priceable(assets, allocation, total, policy, rate)
    requires LinesIncrease(assets)
    ensures forall j, k :: 0 <= j < k < |PlanUpTo(assets, n, allocation, total, policy, rate)| ==>
      PlanUpTo(assets, n, allocation, total, policy, rate)[j].line
      < PlanUpTo(assets, n, allocation, total, policy, rate)[k].line
  {
    if n > 0 {
      var prev := PlanUpTo(assets, n - 1, allocation, total, policy, rate);
      var o := SizeAt(assets, n - 1, allocation, total, policy, rate);
      PlanUpToOrdered(assets, n - 1, allocation, total, policy, rate);
      if o.Some? {
        PlanUpToSound(assets, n - 1, allocation, total, policy, rate);
        SizeKeepsAsset(assets[n - 1], Share(assets[n - 1], allocation, total), policy, rate);
        forall k | 0 <= k < |prev|
          ensures prev[k].line < o.value.line
        {
          assert prev[k] in prev;
          var j :| 0 <= j < n - 1 && SizeAt(assets, j, allocation, total, policy, rate) == Some(prev[k]);
          SizeKeepsAsset(assets[j], Share(assets[j], allocation, total), policy, rate);
        }
      }
    }
  }

  /** What an optional purchase costs in reais: nothing when no purchase is made. */
  function Outlay(o: Option<Purchase>, rate: real): real
  {
    if o.Some? then Cost(o.value, rate) else 0.0
  }

  /** Total cost of a list of purchases, in reais. */
  function Spent(ps: seq<Purchase>, rate: real): real
  {
    if ps == [] then 0.0 else Spent(ps[..|ps| - 1], rate) + Cost(ps[|ps| - 1], rate)
  }

  /** Sum of the shares of the first `n` candidates. */
  function SharesUpTo(assets: seq<Candidate>, n: nat, allocation: real, total: real): real
    requires n <= |assets| && total != 0.0
  {
    if n == 0 then 0.0 else SharesUpTo(assets, n - 1, allocation, total) + Share(assets[n - 1], allocation, total)
  }

  /** Sum of the quotes of the first `n` candidates. */
  function SumQuotes(assets: seq<Candidate>, n: nat): real
    requires n <= |assets|
  {
    if n == 0 then 0.0 else SumQuotes(assets, n - 1) + assets[n - 1].quote
  }

  lemma {:induction false} SpentEmit(ps: seq<Purchase>, o: Option<Purchase>, rate: real)
    ensures Spent(ps + Emit(o), rate) == Spent(ps, rate) + Outlay(o, rate)
  {
    if o.Some? {
      assert (ps + [o.value])[..|ps|] == ps;
    } else {
      assert ps + [] == ps;
    }
  }

  /** The shares add up to the deficit total over `total`, times the allocation. */
  lemma {:induction false} SharesUpToSum(assets: seq<Candidate>, n: nat, allocation: real, total: real)
    requires n <= |assets| && total > 0.0
    ensures SharesUpTo(assets, n, allocation, total) == DeficitTotal(assets, n) / total * allocation
  {
    if n > 0 {
      SharesUpToSum(assets, n - 1, allocation, total);
      AddShares(DeficitTotal(assets, n - 1), assets[n - 1].deficit, total, allocation);
    }
  }

  /** Conservation: the candidates' shares add up to the whole allocation. */
  lemma {:induction false} SharesConserve(assets: seq<Candidate>, allocation: real)
    requires AllBelowTarget(assets) && |assets| > 0
    ensures SharesUpTo(assets, |assets|, allocation, DeficitTotal(assets, |assets|)) == allocation
  {
    var total := DeficitTotal(assets, |assets|);
    SharesUpToSum(assets, |assets|, allocation, total);
    WholeShare(total, allocation);
  }

  /**
   * What one share buys costs at most the share. Cash spends all of it, whole
   * shares leave less than one quote, and a fractional purchase leaves at most
   * the minimum ticket in reais.
   */
  lemma SizeOutlay(a: Candidate, share: real, policy: Policy, rate: real)
    requires share >= 0.0
    requires policy != Cash ==> a.quote > 0.0
    requires policy == Fractional ==> rate > 0.0
    ensures Outlay(Size(a, share, policy, rate), rate) <= share
    ensures policy == Cash ==> Outlay(Size(a, share, policy, rate), rate) == share
    ensures policy == WholeShares ==> share - Outlay(Size(a, share, policy, rate), rate) < a.quote
    ensures policy == Fractional ==> share - Outlay(Size(a, share, policy, rate), rate) <= MinDollarTicket * rate
  {
    match policy
    case Cash =>
    case WholeShares =>
      WholeSharesSizing(a, share, rate);
    case Fractional =>
      FractionalSizing(a, share, rate);
  }

  /** `n` minimum tickets, in reais, added one at a time. */
  function Tickets(n: nat, rate: real): real
  {
    if n == 0 then 0.0 else Tickets(n - 1, rate) + MinDollarTicket * rate
  }

  lemma {:induction false} TicketsTimes(n: nat, rate: real)
    ensures Tickets(n, rate) == n as real * (MinDollarTicket * rate)
  {
    if n > 0 {
      TicketsTimes(n - 1, rate);
      assert n as real * (MinDollarTicket * rate) == (n - 1) as real * (MinDollarTicket * rate) + MinDollarTicket * rate;
    }
  }

  lemma LeftoverStep(shares: real, spent: real, share: real, outlay: real, bound: real, step: real)
    requires shares - spent <= bound && share - outlay <= step
    ensures (shares + share) - (spent + outlay) <= bound + step
  {
  }

  /** The step shared by the spending proofs: candidate `n - 1` adds its outlay to the plan and its share to the shares. */
  lemma {:induction false} PlanUpToStep(assets: seq<Candidate>, n: nat, allocation: real, total: real, policy: Policy, rate: real)
    requires 0 < n <= |assets| && total > 0.0 && allocation >= 0.0
    requires AllBelowTarget(assets) && Priceable(assets, allocation, total, policy, rate)
    requires policy != Cash ==> PositivePrices(assets, policy, rate)
    ensures Spent(PlanUpTo(assets, n, allocation, total, policy, rate), rate)
        == Spent(PlanUpTo(assets, n - 1, allocation, total, policy, rate), rate)
           + Outlay(Size(assets[n - 1], Share(assets[n - 1], allocation, total), policy, rate), rate)
    ensures Share(assets[n - 1], allocation, total) >= 0.0
  {
    SpentEmit(PlanUpTo(assets, n - 1, allocation, total, policy, rate), SizeAt(assets, n - 1, allocation, total, policy, rate), rate);
    ShareOf(assets[n - 1].deficit, total, allocation);
  }

  /** Over the first `n` candidates, what is spent never exceeds their shares; for cash it equals them. */
  lemma {:induction false} PlanUpToWithinShares(assets: seq<Candidate>, n: nat, allocation: real, total: real, policy: Policy, rate: real)
    requires n <= |assets| && total > 0.0 && allocation >= 0.0
    requires AllBelowTarget(assets) && Priceable(assets, allocation, total, policy, rate)
    requires policy != Cash ==> PositivePrices(assets, policy, rate)
    ensures Spent(PlanUpTo(assets, n, allocation, total, policy, rate), rate) <= SharesUpTo(assets, n, allocation, total)
    ensures policy == Cash ==>
      Spent(PlanUpTo(assets, n, allocation, total, policy, rate), rate) == SharesUpTo(assets, n, allocation, total)
  {
    if n > 0 {
      PlanUpToWithinShares(assets, n - 1, allocation, total, policy, rate);
      PlanUpToStep(assets, n, allocation, total, policy, rate);
      SizeOutlay(assets[n - 1], Share(assets[n - 1], allocation, total), policy, rate);
    }
  }

  /** Over the first `n` candidates, whole shares leave less unspent than the sum of their quotes. */
  lemma {:induction false} WholeSharesUpToLeftover(assets: seq<Candidate>, n: nat, allocation: real, total: real, rate: real)
    requires 0 < n <= |assets| && total > 0.0 && allocation >= 0.0
    requires AllBelowTarget(assets) && PositivePrices(assets, WholeShares, rate)
    ensures SharesUpTo(assets, n, allocation, total) - Spent(PlanUpTo(assets, n, allocation, total, WholeShares, rate), rate)
        < SumQuotes(assets, n)
  {
    if n > 1 {
      WholeSharesUpToLeftover(assets, n - 1, allocation, total, rate);
    }
    PlanUpToStep(assets, n, allocation, total, WholeShares, rate);
    SizeOutlay(assets[n - 1], Share(assets[n - 1], allocation, total), WholeShares, rate);
  }

  /** Over the first `n` candidates, fractional purchases leave at most `n` minimum tickets unspent. */
  lemma {:induction false} FractionalUpToLeftover(assets: seq<Candidate>, n: nat, allocation: real, total: real, rate: real)
    requires n <= |assets| && total > 0.0 && allocation >= 0.0
    requires AllBelowTarget(assets) && PositivePrices(assets, Fractional, rate)
    ensures SharesUpTo(assets, n, allocation, total) - Spent(PlanUpTo(assets, n, allocation, total, Fractional, rate), rate)
        <= Tickets(n, rate)
  {
    PositivePricesPriceable(assets, allocation, total, Fractional, rate);
    if n > 0 {
      var share := Share(assets[n - 1], allocation, total);
      var outlay := Outlay(Size(assets[n - 1], share, Fractional, rate), rate);
      FractionalUpToLeftover(assets, n - 1, allocation, total, rate);
      PlanUpToStep(assets, n, allocation, total, Fractional, rate);
      SizeOutlay(assets[n - 1], share, Fractional, rate);
      LeftoverStep(SharesUpTo(assets, n - 1, allocation, total), Spent(PlanUpTo(assets, n - 1, allocation, total, Fractional, rate), rate),
        share, outlay, Tickets(n - 1, rate), MinDollarTicket * rate);
    }
  }

  /** A category's purchases never cost more than its allocation. */
  lemma {:induction false} PlanWithinAllocation(assets: seq<Candidate>, allocation: real, policy: Policy, rate: real)
    requires AllBelowTarget(assets) && Priceable(assets, allocation, DeficitTotal(assets, |assets|), policy, rate)
    requires allocation >= 0.0
    requires policy != Cash ==> PositivePrices(assets, policy, rate)
    ensures Spent(Plan(assets, allocation, policy, rate), rate) <= allocation
  {
    if |assets| > 0 {
      var total := DeficitTotal(assets, |assets|);
      PlanUpToWithinShares(assets, |assets|, allocation, total, policy, rate);
      SharesConserve(assets, allocation);
    }
  }

  /** Fixed income spends the whole allocation whenever it has a candidate. */
  lemma {:induction false} CashPlanSpendsAll(assets: seq<Candidate>, allocation: real, rate: real)
    requires AllBelowTarget(assets) && |assets| > 0 && allocation >= 0.0
    ensures Spent(Plan(assets, allocation, Cash, rate), rate) == allocation
  {
    var total := DeficitTotal(assets, |assets|);
    PlanUpToWithinShares(assets, |assets|, allocation, total, Cash, rate);
    SharesConserve(assets, allocation);
  }

  /** Whole shares leave less of the allocation unspent than the sum of the candidates' quotes. */
  lemma {:induction false} WholeSharesLeftover(assets: seq<Candidate>, allocation: real, rate: real)
    requires AllBelowTarget(assets) && PositivePrices(assets, WholeShares, rate) && |assets| > 0 && allocation >= 0.0
    ensures allocation - Spent(Plan(assets, allocation, WholeShares, rate), rate) < SumQuotes(assets, |assets|)
  {
    var total := DeficitTotal(assets, |assets|);
    WholeSharesUpToLeftover(assets, |assets|, allocation, total, rate);
    SharesConserve(assets, allocation);
  }

  /** Fractional purchases leave at most one minimum ticket, in reais, unspent per candidate. */
  lemma {:induction false} FractionalLeftover(assets: seq<Candidate>, allocation: real, rate: real)
    requires AllBelowTarget(assets) && PositivePrices(assets, Fractional, rate) && |assets| > 0 && allocation >= 0.0
    ensures allocation - Spent(Plan(assets, allocation, Fractional, rate), rate)
        <= |assets| as real * (MinDollarTicket * rate)
  {
    var total := DeficitTotal(assets, |assets|);
    FractionalUpToLeftover(assets, |assets|, allocation, total, rate);
    SharesConserve(assets, allocation);
    TicketsTimes(|assets|, rate);
  }

  /**
   * With a positive allocation every fixed-income candidate gets a purchase,
   * in candidate order, at the candidate's own line.
   */
  lemma {:induction false} CashPlanUpToCoversAll(assets: seq<Candidate>, n: nat, allocation: real, total: real, rate: real)
    requires n <= |assets| && total > 0.0 && allocation > 0.0 && AllBelowTarget(assets)
    ensures |PlanUpTo(assets, n, allocation, total, Cash, rate)| == n
    ensures forall k :: 0 <= k < n ==>
      PlanUpTo(assets, n, allocation, total, Cash, rate)[k].line == assets[k].line
      && PlanUpTo(assets, n, allocation, total, Cash, rate)[k].CashPurchase?
      && PlanUpTo(assets, n, allocation, total, Cash, rate)[k].amount == Share(assets[k], allocation, total)
  {
    if n > 0 {
      CashPlanUpToCoversAll(assets, n - 1, allocation, total, rate);
      SharePositive(assets[n - 1].deficit, total, allocation);
    }
  }
}
