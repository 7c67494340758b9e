/** Facts of real arithmetic the proportional splits rest on, kept apart so each proof stays small. */
module RealArith {

  lemma QuotientBelow(v: real, w: real, f: real)
    requires f > 0.0
    ensures v / f < w <==> v < w * f
  {
    var q := v / f;
    assert q * f == v;
    if q < w { assert q * f < w * f; }
    if v < w * f { assert q * f < w * f; }
  }

  lemma ShareTimesTotal(share: real, part: real, total: real, amount: real)
    requires total > 0.0 && share == part / total * amount
    ensures share * total == part * amount
  {
    var q := part / total;
    assert q * total == part;
    assert q * amount * total == q * total * amount;
  }

  /** `part / total * amount`, back in terms of the undivided amount. */
  lemma ShareOf(part: real, total: real, amount: real)
    requires part >= 0.0 && total > 0.0
    ensures part / total * amount * total == part * amount
    ensures part == 0.0 ==> part / total * amount == 0.0
    ensures amount >= 0.0 ==> part / total * amount >= 0.0
  {
    var q := part / total;
    assert q * total == part;
    assert q * amount * total == q * total * amount;
  }

  lemma AddShares(a: real, b: real, total: real, amount: real)
    requires total > 0.0
    ensures a / total * amount + b / total * amount == (a + b) / total * amount
  {
    assert a / total + b / total == (a + b) / total;
  }

  lemma BelowWhole(part: real, whole: real)
    requires 0.0 <= part < whole
    ensures part / whole < 1.0
  {
    var q := part / whole;
    assert q * whole == part;
  }

  lemma QuotientAbove(v: real, w: real, f: real)
    requires f > 0.0
    ensures v / f > w <==> v > w * f
  {
    var q := v / f;
    assert q * f == v;
    if q > w { assert q * f > w * f; }
    if v > w * f { assert q * f > w * f; }
  }

  lemma QuotientTimes(v: real, f: real)
    requires f != 0.0
    ensures v / f * f == v
  {
  }

  lemma LessTimes(a: real, b: real, c: real)
    requires a < b && c > 0.0
    ensures a * c < b * c
  {
  }

  lemma AtMostTimes(a: real, b: real, c: real)
    requires a <= b && c > 0.0
    ensures a * c <= b * c
  {
  }

  lemma TimesBounds(amount: real, quote: real, units: real, q: real)
    requires quote > 0.0 && q * quote == amount && units <= q < units + 1.0
    ensures units * quote <= amount < units * quote + quote
  {
    AtMostTimes(units, q, quote);
    TimesBelow(amount, quote, units, q);
  }

  lemma TimesBelow(amount: real, quote: real, units: real, q: real)
    requires quote > 0.0 && q * quote == amount && q < units + 1.0
    ensures amount < units * quote + quote
  {
    LessTimes(q, units + 1.0, quote);
    assert (units + 1.0) * quote == units * quote + quote;
  }

  /** `units` units of price `quote` fit in `amount` and one more does not. */
  lemma UnitsBounds(amount: real, quote: real, units: real)
    requires quote > 0.0 && units <= amount / quote < units + 1.0
    ensures units * quote <= amount < units * quote + quote
  {
    TimesBounds(amount, quote, units, amount / quote);
  }

  /**
   * Once `units` is a whole number, at least one unit fits exactly when the
   * amount reaches the price.
   */
  lemma UnitsGate(amount: real, quote: real, units: real)
    requires quote > 0.0 && units <= amount / quote < units + 1.0
    ensures units >= 1.0 ==> amount >= quote
    ensures amount >= quote ==> units > 0.0
  {
    UnitsBounds(amount, quote, units);
    if units >= 1.0 {
      assert units * quote >= 1.0 * quote;
    }
    if amount > quote {
      QuotientAbove(amount, 1.0, quote);
    } else if amount == quote {
      assert amount / quote == 1.0;
    }
  }

  lemma MonotoneQuotient(a: real, b: real, f: real)
    requires a <= b && f > 0.0
    ensures a / f <= b / f
  {
    assert a / f * f == a && b / f * f == b;
  }

  lemma WholeShare(total: real, amount: real)
    requires total > 0.0
    ensures total / total * amount == amount
  {
    assert total / total == 1.0;
  }

  lemma SharePositive(part: real, total: real, amount: real)
    requires part > 0.0 && total > 0.0 && amount > 0.0
    ensures part / total * amount > 0.0
  {
    var q := part / total;
    assert q * total == part;
    LessTimes(0.0, q, amount);
  }
}
