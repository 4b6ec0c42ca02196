/** Coupon arithmetic in cents; percentages in hundredths of a percent. */
module Discount {
  import opened Options
  import opened Schema

  const WHOLE := 10_000

  function Min(a: nat, b: nat): nat { if a <= b then a else b }

  /** toFixed(2) of x / 100 cents' worth of percent: the nearest integer to x / WHOLE,
      a half rounds up. */
  function Round(x: nat): nat { (2 * x + WHOLE) / (2 * WHOLE) }

  function PercentOf(amount: nat, percent: nat): nat { Round(amount * percent) }

  /** A stored percentage is used even when it is zero, because a Decimal is an object. */
  function DiscountOf(terms: Terms, amount: nat): nat {
    match terms.percent
    case Some(percent) => PercentOf(amount, percent)
    case None => match terms.fixed case Some(fixed) => Min(fixed, amount) case None => 0
  }

  function FinalAmount(terms: Terms, amount: nat): nat {
    var final := amount - DiscountOf(terms, amount);
    if final < 0 then 0 else final
  }

  /** Rounding moves by at most half a unit, and a half goes up. */
  lemma NearestCent(x: nat)
    ensures -WHOLE < 2 * (Round(x) * WHOLE - x) <= WHOLE
  {
  }

  /** The discount is within half a cent of the exact percentage, ties upwards. */
  lemma DiscountIsNearest(amount: nat, percent: nat)
    ensures -WHOLE < 2 * (PercentOf(amount, percent) * WHOLE - amount * percent) <= WHOLE
  {
    NearestCent(amount * percent);
  }

  lemma RoundIsMonotone(x: nat, y: nat, cents: nat)
    requires x <= y <= x + cents * WHOLE
    ensures Round(x) <= Round(y) <= Round(x) + cents
  {
    NearestCent(x);
    NearestCent(y);
    RoundShift(x, cents);
  }

  /** Whole cents pass through the rounding. */
  lemma RoundShift(x: nat, cents: nat)
    ensures Round(x + cents * WHOLE) == Round(x) + cents
  {
    var n := 2 * x + WHOLE;
    assert 2 * (x + cents * WHOLE) + WHOLE == n + cents * (2 * WHOLE);
  }

  lemma ProductGrows(a: nat, p: nat, q: nat)
    requires p <= q
    ensures a * p <= a * q
  {
  }

  lemma DiscountFits(terms: Terms, amount: nat)
    requires terms.percent.Some? ==> terms.percent.value <= WHOLE
    ensures DiscountOf(terms, amount) <= amount
  {
    if terms.percent.Some? {
      ProductGrows(amount, terms.percent.value, WHOLE);
      RoundIsMonotone(amount * terms.percent.value, amount * WHOLE, amount);
      RoundShift(0, amount);
    }
  }

  /** Discount and final amount add up to the order amount, for every amount, exactly
      when the coupon does not take more than 100 percent. */
  lemma DiscountSplitsAmount(terms: Terms)
    ensures (forall amount: nat :: DiscountOf(terms, amount) + FinalAmount(terms, amount) == amount)
            <==> (terms.percent.Some? ==> terms.percent.value <= WHOLE)
  {
    if terms.percent.Some? && terms.percent.value > WHOLE {
      var amount := WHOLE;
      var percent := terms.percent.value;
      NearestCent(amount * percent);
      ProductGrows(amount, WHOLE + 1, percent);
      assert DiscountOf(terms, amount) + FinalAmount(terms, amount) != amount;
    } else {
      forall amount: nat ensures DiscountOf(terms, amount) + FinalAmount(terms, amount) == amount {
        DiscountFits(terms, amount);
      }
    }
  }

  lemma FinalBounds(terms: Terms, amount: nat)
    ensures 0 <= FinalAmount(terms, amount) <= amount
  {
  }

  /** A dearer order never costs less after the discount. */
  lemma FinalIsMonotone(terms: Terms, a: nat, b: nat)
    requires a <= b
    ensures FinalAmount(terms, a) <= FinalAmount(terms, b)
  {
    if terms.percent.Some? {
      var p := terms.percent.value;
      if p <= WHOLE {
        ProductGrows(b - a, p, WHOLE);
        assert b * p == a * p + (b - a) * p;
        RoundIsMonotone(a * p, b * p, b - a);
      } else {
        TakesAll(b, p);
        TakesAll(a, p);
      }
    }
  }

  lemma TakesAll(amount: nat, percent: nat)
    requires percent >= WHOLE
    ensures PercentOf(amount, percent) >= amount
  {
    ProductGrows(amount, WHOLE, percent);
    NearestCent(amount * percent);
  }

  /** What a coupon takes off, by its kind: a percentage to the nearest cent, a fixed amount up
      to the whole price, or nothing. */
  lemma FinalByKind(terms: Terms, amount: nat)
    ensures terms.percent.Some? && terms.percent.value <= 10_000 ==>
      -10_000 < 2 * (10_000 * (amount - FinalAmount(terms, amount)) - amount * terms.percent.value) <= 10_000
    ensures terms.percent.Some? && terms.percent.value > 10_000 ==> FinalAmount(terms, amount) == 0
    ensures terms.percent.None? && terms.fixed.Some? ==>
      FinalAmount(terms, amount) == if terms.fixed.value <= amount then amount - terms.fixed.value else 0
    ensures terms.percent.None? && terms.fixed.None? ==> FinalAmount(terms, amount) == amount
  {
    if terms.percent.Some? {
      if terms.percent.value <= WHOLE {
        DiscountFits(terms, amount);
        DiscountIsNearest(amount, terms.percent.value);
      } else {
        TakesAll(amount, terms.percent.value);
      }
    }
  }
}
