/** The three revenue scenarios of `generateScenarios` in
    Revenue/backend/services/mlService.js: from the last value and the
    growth rate of the analysed history, a best, a most likely and a worst
    case, each shaken by one random draw and floored at zero. Titles,
    descriptions, colours and factor lists are fixed texts and are
    represented by the scenario's kind. */
module Scenarios {
  import opened Wrappers
  import opened Sums
  import opened Stats
  import opened Analysis
  import opened Forecast

  datatype Kind = BestCase | MostLikely | WorstCase

  datatype Scenario = Scenario(kind: Kind, amount: real, probability: nat)

  /** The scenarios used when the history has fewer than four records. */
  function DefaultScenarios(): (r: seq<Scenario>)
    ensures |r| == 3
    ensures r[0].kind == BestCase && r[1].kind == MostLikely && r[2].kind == WorstCase
    ensures r[0].probability == 25 && r[1].probability == 60 && r[2].probability == 15
    ensures r[0].amount > r[1].amount > r[2].amount > 0.0
  {
    [Scenario(BestCase, 420000.0, 25), Scenario(MostLikely, 380000.0, 60), Scenario(WorstCase, 320000.0, 15)]
  }

  /** The base moved by the growth rate taken `weight` times: unchanged
      without growth, never below a non-negative base when the weighted growth
      is non-negative, and never negative while it is at least −100%. */
  function Projected(base: real, growth: real, weight: real): (p: real)
    ensures growth == 0.0 || weight == 0.0 ==> p == base
    ensures base >= 0.0 && growth * weight >= 0.0 ==> p >= base
    ensures base >= 0.0 && growth * weight >= -1.0 ==> p >= 0.0
  {
    var g := growth * weight;
    var p := base * (1.0 + g);
    GrownBase(base, g, p);
    p
  }

  /** The facts about `base · (1 + g)` that `Projected` states, over plain values. */
  lemma GrownBase(base: real, g: real, p: real)
    requires p == base * (1.0 + g)
    ensures g == 0.0 ==> p == base
    ensures base >= 0.0 && g >= 0.0 ==> p >= base
    ensures base >= 0.0 && g >= -1.0 ==> p >= 0.0
  {
    assert p == base + base * g;
    if base >= 0.0 && g >= 0.0 {
      assert base * g >= 0.0;
    }
    if base >= 0.0 && g >= -1.0 {
      assert base * (1.0 + g) >= 0.0;
    }
  }

  /** The best case before its floor: growth weighted 1.5, uplift up to 20%. */
  function BestAmount(base: real, growth: real, draw: real): (a: real)
    ensures var p := Projected(base, growth, 1.5);
      p >= 0.0 && 0.0 <= draw < 1.0 ==> p <= a <= 1.2 * p
  {
    var p := Projected(base, growth, 1.5);
    var a := p * (1.0 + draw * 0.2);
    if p >= 0.0 && 0.0 <= draw < 1.0 then Scale(p, 1.0 + draw * 0.2, 1.0, 1.2); a else a
  }

  /** The most likely case before its floor: plain growth, noise of ±5%. */
  function LikelyAmount(base: real, growth: real, draw: real): (a: real)
    ensures var p := Projected(base, growth, 1.0);
      p >= 0.0 && 0.0 <= draw < 1.0 ==> 0.95 * p <= a <= 1.05 * p
  {
    var p := Projected(base, growth, 1.0);
    var a := p * (1.0 + (draw - 0.5) * 0.1);
    if p >= 0.0 && 0.0 <= draw < 1.0 then Scale(p, 1.0 + (draw - 0.5) * 0.1, 0.95, 1.05); a else a
  }

  /** The worst case before its floor: growth weighted 0.5, a cut of up to 30%. */
  function WorstAmount(base: real, growth: real, draw: real): (a: real)
    ensures var p := Projected(base, growth, 0.5);
      p >= 0.0 && 0.0 <= draw < 1.0 ==> 0.7 * p <= a <= p
  {
    var p := Projected(base, growth, 0.5);
    var a := p * (1.0 - draw * 0.3);
    if p >= 0.0 && 0.0 <= draw < 1.0 then Scale(p, 1.0 - draw * 0.3, 0.7, 1.0); a else a
  }

  /** The scenarios of a history, with `volatility` its volatility and
      `best`, `likely`, `worst` the three random draws in the order the
      source takes them. */
  function GenerateScenarios(history: seq<Point>, volatility: real,
                             best: real, likely: real, worst: real): (r: seq<Scenario>)
    ensures |r| == 3
    ensures r[0].kind == BestCase && r[1].kind == MostLikely && r[2].kind == WorstCase
    ensures r[0].probability == 25 && r[1].probability == 60 && r[2].probability == 15
    ensures r[0].probability + r[1].probability + r[2].probability == 100
    ensures forall k :: 0 <= k < 3 ==> r[k].amount >= 0.0
    ensures |history| < 4 ==> r == DefaultScenarios()
    ensures |history| >= 4 ==>
      var a := Analyze(history, volatility).value;
      r[0].amount == Max0(BestAmount(a.lastValue, a.growthRate, best)) &&
      r[1].amount == Max0(LikelyAmount(a.lastValue, a.growthRate, likely)) &&
      r[2].amount == Max0(WorstAmount(a.lastValue, a.growthRate, worst))
  {
    match Analyze(history, volatility)
    case None => DefaultScenarios()
    case Some(a) =>
      [Scenario(BestCase, Max0(BestAmount(a.lastValue, a.growthRate, best)), 25),
       Scenario(MostLikely, Max0(LikelyAmount(a.lastValue, a.growthRate, likely)), 60),
       Scenario(WorstCase, Max0(WorstAmount(a.lastValue, a.growthRate, worst)), 15)]
  }

  /** With a non-negative base and growth no worse than −2/3, every draw
      keeps each case inside its band: the best case between its projected
      base and 120% of it, the most likely one within 5% of its base, the
      worst one between 70% of its base and the base. */
  lemma {:induction false} ScenarioBands(base: real, growth: real, best: real, likely: real, worst: real)
    requires 0.0 <= best < 1.0 && 0.0 <= likely < 1.0 && 0.0 <= worst < 1.0
    requires base >= 0.0 && 1.0 + growth * 1.5 >= 0.0
    ensures Projected(base, growth, 1.5) <= BestAmount(base, growth, best) <= 1.2 * Projected(base, growth, 1.5)
    ensures 0.95 * Projected(base, growth, 1.0) <= LikelyAmount(base, growth, likely) <= 1.05 * Projected(base, growth, 1.0)
    ensures 0.7 * Projected(base, growth, 0.5) <= WorstAmount(base, growth, worst) <= Projected(base, growth, 0.5)
  {
    ProjectedNonNegative(base, growth, 1.5);
    ProjectedNonNegative(base, growth, 1.0);
    ProjectedNonNegative(base, growth, 0.5);
  }

  lemma ProjectedNonNegative(base: real, growth: real, weight: real)
    requires base >= 0.0 && 1.0 + growth * 1.5 >= 0.0 && 0.0 <= weight <= 1.5
    ensures Projected(base, growth, weight) >= 0.0
  {
    var f := 1.0 + growth * weight;
    if growth < 0.0 {
      assert growth * weight >= growth * 1.5;
    }
    assert f >= 0.0;
    assert base * f >= 0.0;
  }

  /** For a non-negative base and growth the floored worst case never
      exceeds the floored best case. */
  lemma BestAboveWorst(base: real, growth: real, best: real, worst: real)
    requires 0.0 <= best < 1.0 && 0.0 <= worst < 1.0
    requires base >= 0.0 && growth >= 0.0
    ensures Max0(WorstAmount(base, growth, worst)) <= Max0(BestAmount(base, growth, best))
  {
    ScenarioBands(base, growth, best, 0.0, worst);
    assert Projected(base, growth, 0.5) <= Projected(base, growth, 1.5) by {
      assert Projected(base, growth, 1.5) - Projected(base, growth, 0.5) == base * growth;
      assert base * growth >= 0.0;
    }
  }

  /** With a non-negative last value and a non-negative growth rate the best
      case is never below the worst case, whatever the draws. */
  lemma {:induction false} BestAtLeastWorst(history: seq<Point>, volatility: real,
                                            best: real, likely: real, worst: real)
    requires 0.0 <= best < 1.0 && 0.0 <= worst < 1.0
    requires |history| >= 4
    requires ValueOf(history[|history| - 1]) >= 0.0
    requires GrowthRate(Values(history)) >= 0.0
    ensures GenerateScenarios(history, volatility, best, likely, worst)[2].amount
         <= GenerateScenarios(history, volatility, best, likely, worst)[0].amount
  {
    var a := Analyze(history, volatility).value;
    BestAboveWorst(a.lastValue, a.growthRate, best, worst);
  }
}
