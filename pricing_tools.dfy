/**
 * The pricing tool: a suggested selling price from a cost and a profit margin
 * (with IVA added), the profit it yields, and a comparison with a competitor's
 * price. Each input is the field's text as `Number.parseFloat` reads it (None
 * for NaN); an unusable input gives the sentinel 0 or no analysis.
 */
module PricingTools {
  import opened Wrappers

  /** The margin never reaches 100% where the division needs it. */
  predicate MarginUsable(cost: Option<real>, margin: Option<real>)
  {
    cost.Some? && margin.Some? ==> margin.value != 100.0
  }

  /** `calculateSuggestedPrice`: `cost / (1 - margin/100) * 1.19`, or 0 when an input does not parse. */
  function SuggestedPrice(cost: Option<real>, margin: Option<real>): (price: real)
    requires MarginUsable(cost, margin)
    ensures cost.None? || margin.None? ==> price == 0.0
    ensures cost.Some? && margin.Some? ==>
              price * (1.0 - margin.value / 100.0) == cost.value * 1.19
  {
    if cost.None? || margin.None? then 0.0
    else
      var basePrice := cost.value / (1.0 - margin.value / 100.0);
      basePrice * 1.19
  }

  /** `calculateProfit`: suggested price minus cost, or 0 when the cost does not parse or the price is 0. */
  function Profit(cost: Option<real>, margin: Option<real>): (profit: real)
    requires MarginUsable(cost, margin)
    ensures cost.None? || margin.None? ==> profit == 0.0
    ensures SuggestedPrice(cost, margin) == 0.0 ==> profit == 0.0
    ensures cost.Some? && margin.Some? ==>
              (profit + cost.value) * (1.0 - margin.value / 100.0) == 1.19 * cost.value
    ensures cost.Some? && margin.Some? && cost.value >= 0.0 && 0.0 <= margin.value < 100.0 ==>
              profit >= 0.19 * cost.value &&
              (margin.value == 0.0 ==> profit == 0.19 * cost.value)
  {
    SuggestedPriceCoversTaxedCostOnInput(cost, margin);
    var suggested := SuggestedPrice(cost, margin);
    if cost.None? || suggested == 0.0 then 0.0 else suggested - cost.value
  }

  function Abs(x: real): (r: real)
    ensures r >= 0.0 && (r == x || r == -x)
  {
    if x < 0.0 then -x else x
  }

  /** The outcome of comparing the suggested price with a competitor's. */
  datatype Analysis = Analysis(difference: real, isHigher: bool, competitive: bool)

  /** The competitor's price is never 0 where the division needs it. */
  predicate CompetitionUsable(cost: Option<real>, margin: Option<real>, competition: Option<real>)
  {
    MarginUsable(cost, margin) &&
    (competition == Some(0.0) ==> SuggestedPrice(cost, margin) == 0.0)
  }

  /**
   * `competitionAnalysis`: the distance of the suggested price from the
   * competitor's, in percent of the latter; within 15% counts as competitive.
   */
  function CompetitionAnalysis(cost: Option<real>, margin: Option<real>, competition: Option<real>): (a: Option<Analysis>)
    requires CompetitionUsable(cost, margin, competition)
    ensures a.None? <==> competition.None? || SuggestedPrice(cost, margin) == 0.0
    ensures a.Some? ==>
              a.value.difference >= 0.0 &&
              a.value.difference * Abs(competition.value) == 100.0 * Abs(SuggestedPrice(cost, margin) - competition.value) &&
              (a.value.isHigher <==> SuggestedPrice(cost, margin) > competition.value) &&
              (a.value.competitive <==> a.value.difference <= 15.0)
  {
    var suggested := SuggestedPrice(cost, margin);
    if competition.None? || suggested == 0.0 then None
    else
      var competitionPrice := competition.value;
      var difference := ((suggested - competitionPrice) / competitionPrice) * 100.0;
      AbsOfQuotient(suggested - competitionPrice, competitionPrice);
      Some(Analysis(Abs(difference), suggested > competitionPrice, Abs(difference) <= 15.0))
  }

  lemma AbsOfQuotient(x: real, y: real)
    requires y != 0.0
    ensures Abs((x / y) * 100.0) * Abs(y) == 100.0 * Abs(x)
  {
    var q := x / y;
    assert q * y == x;
    if y > 0.0 {
      if q < 0.0 { assert x < 0.0; } else { assert x >= 0.0; }
    } else {
      if q < 0.0 { assert x > 0.0; } else { assert x <= 0.0; }
    }
  }

  /** Competitive means the suggested price lies within 15% of the competitor's, either way. */
  lemma CompetitiveWithinBand(cost: Option<real>, margin: Option<real>, competition: Option<real>)
    requires CompetitionUsable(cost, margin, competition)
    requires CompetitionAnalysis(cost, margin, competition).Some?
    ensures CompetitionAnalysis(cost, margin, competition).value.competitive <==>
              Abs(SuggestedPrice(cost, margin) - competition.value) <= 0.15 * Abs(competition.value)
  {
    var a := CompetitionAnalysis(cost, margin, competition).value;
    var c := Abs(competition.value);
    var d := a.difference;
    var gap := Abs(SuggestedPrice(cost, margin) - competition.value);
    assert c > 0.0;
    assert d * c == 100.0 * gap;
    PercentBand(d, c, gap);
  }

  /** With `d` percent of a positive `c` equal to `gap`, `d <= 15` exactly when `gap` is within 15% of `c`. */
  lemma PercentBand(d: real, c: real, gap: real)
    requires c > 0.0 && d * c == 100.0 * gap
    ensures d <= 15.0 <==> gap <= 0.15 * c
  {
    var e := d - 15.0;
    assert e * c == 100.0 * gap - 15.0 * c;
    if e <= 0.0 {
      assert e * c <= 0.0;
    } else {
      assert e * c > 0.0;
    }
  }

  /** Cost 50000 at a 50% margin suggests 119000. */
  lemma SuggestedPriceExample()
    ensures SuggestedPrice(Some(50000.0), Some(50.0)) == 119000.0
  {
  }

  /** For a cost >= 0 and a margin in [0, 100), the price is at least 1.19 x cost, and exactly that at margin 0. */
  lemma SuggestedPriceCoversTaxedCost(cost: real, margin: real)
    requires cost >= 0.0 && 0.0 <= margin < 100.0
    ensures SuggestedPrice(Some(cost), Some(margin)) >= 1.19 * cost
    ensures margin == 0.0 ==> SuggestedPrice(Some(cost), Some(margin)) == 1.19 * cost
  {
    var d := 1.0 - margin / 100.0;
    assert 0.0 < d <= 1.0;
    var b := cost / d;
    assert b * d == cost;
    assert b >= 0.0;
    assert b >= cost by {
      assert b - cost == b * (1.0 - d);
      assert b * (1.0 - d) >= 0.0;
    }
  }
  /** The same bound on the parsed inputs of the form: it holds whenever both parse into that range. */
  lemma SuggestedPriceCoversTaxedCostOnInput(cost: Option<real>, margin: Option<real>)
    requires MarginUsable(cost, margin)
    ensures cost.Some? && margin.Some? && cost.value >= 0.0 && 0.0 <= margin.value < 100.0 ==>
              SuggestedPrice(cost, margin) >= 1.19 * cost.value &&
              (margin.value == 0.0 ==> SuggestedPrice(cost, margin) == 1.19 * cost.value)
  {
    if cost.Some? && margin.Some? && cost.value >= 0.0 && 0.0 <= margin.value < 100.0 {
      SuggestedPriceCoversTaxedCost(cost.value, margin.value);
    }
  }


  /** 119000 against a competitor at 100000 is 19% higher and not competitive. */
  lemma CompetitionExample()
    ensures CompetitionAnalysis(Some(50000.0), Some(50.0), Some(100000.0)) == Some(Analysis(19.0, true, false))
  {
    SuggestedPriceExample();
  }
}
