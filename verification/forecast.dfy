/** The three revenue forecasting strategies of
    Revenue/backend/services/mlService.js and the ensemble that averages them:
    a trend-and-season projection with a random walk (`forecastRevenue`),
    exponential smoothing towards the last value, and extrapolation of the
    least-squares line. */
module Forecast {
  import opened Wrappers
  import opened Sums
  import opened Stats
  import opened Analysis

  /** The `trend` label of a prediction: 'up', 'down', 'stable' or 'ensemble'. */
  datatype Direction = Up | Down | Stable | Ensemble

  /** One forecast period (1-based). */
  datatype Prediction = Prediction(period: nat, amount: real, confidence: int, trend: Direction, change: Change)

  /** `Math.max(0, x)`. */
  function Max0(x: real): (r: real)
    ensures r >= 0.0 && r >= x
    ensures r == x || r == 0.0
  {
    if x > 0.0 then x else 0.0
  }

  /** Every draw is a value of `Math.random()`, in `[0, 1)`. */
  predicate UnitDraws(draws: seq<real>)
  {
    forall i :: 0 <= i < |draws| ==> 0.0 <= draws[i] < 1.0
  }

  // ---------------------------------------------------------------------------
  // Trend-and-season projection

  /** The fixed forecast used when no history of four records is available:
      350 000 rising by 15 000 a period, confidence 70, labelled '+4.3%'. */
  function DefaultForecast(horizon: nat): (r: seq<Prediction>)
    ensures |r| == horizon
    ensures forall k :: 0 <= k < horizon ==>
      r[k].period == k + 1 && r[k].confidence == 70 && r[k].trend == Up && r[k].change == DefaultUplift
  {
    seq(horizon, k requires 0 <= k < horizon =>
      Prediction(k + 1, 350000.0 + k as real * 15000.0, 70, Up, DefaultUplift))
  }

  /** The default forecast starts at 350 000 and climbs 15 000 every period. */
  lemma {:induction false} DefaultForecastRising(horizon: nat)
    ensures horizon > 0 ==> DefaultForecast(horizon)[0].amount == 350000.0
    ensures forall k :: 0 <= k < horizon - 1 ==>
      DefaultForecast(horizon)[k + 1].amount == DefaultForecast(horizon)[k].amount + 15000.0
  {
  }

  /** Thirty percent of the seasonal deviation of the bucket `period % 12`, or
      nothing without seasonality. */
  function SeasonalTerm(a: SeriesAnalysis, period: nat): (t: real)
    ensures a.seasonality.None? ==> t == 0.0
    ensures a.seasonality.Some? && |a.seasonality.value| == 12 ==> t == 0.3 * a.seasonality.value[period % 12]
    ensures (a.seasonality.Some? ==> forall i :: 0 <= i < |a.seasonality.value| ==> a.seasonality.value[i] == 0.0)
            ==> t == 0.0
  {
    if a.seasonality.Some? && |a.seasonality.value| > 0
    then a.seasonality.value[period % |a.seasonality.value|] * 0.3
    else 0.0
  }

  /** The deterministic part of the projection `period` steps ahead: last
      value, plus slope times distance, plus the seasonal term. */
  function Projection(a: SeriesAnalysis, period: nat): (x: real)
    ensures a.seasonality.None? ==> (x > a.lastValue <==> a.trend.slope * period as real > 0.0)
    ensures a.trend.slope == 0.0 && SeasonalTerm(a, period) == 0.0 ==> x == a.lastValue
  {
    a.lastValue + a.trend.slope * period as real + SeasonalTerm(a, period)
  }

  /** The random-walk term for one draw: `(draw − 0.5)·volatility·0.1`. */
  function Noise(draw: real, volatility: real): (e: real)
    ensures draw == 0.5 || volatility == 0.0 ==> e == 0.0
    ensures volatility > 0.0 ==> (e > 0.0 <==> draw > 0.5) && (e < 0.0 <==> draw < 0.5)
  {
    (draw - 0.5) * volatility * 0.1
  }

  /** The prediction `period` steps ahead, labelled against the last value. */
  function Project(a: SeriesAnalysis, period: nat, dataLength: nat, draw: real): (p: Prediction)
    ensures p.period == period && p.amount >= 0.0
    ensures p.trend == Up <==> p.amount > a.lastValue
    ensures p.trend == Up || p.trend == Down
  {
    var amount := Max0(Projection(a, period) + Noise(draw, a.volatility));
    Prediction(period, amount, Confidence(a.volatility, a.lastValue, period, dataLength),
               if amount > a.lastValue then Up else Down, PercentChange(a.lastValue, amount))
  }

  /** The history a projection is built from: the caller's history when it
      has four records, otherwise the locally stored one. */
  function SeriesFor(history: seq<Point>, local: seq<Point>): (s: seq<Point>)
    ensures |history| >= 4 ==> s == history
    ensures |history| < 4 ==> s == local
  {
    if |history| < 4 then local else history
  }

  /** Trend-and-season forecast for `horizon` periods. `local` stands for the
      locally stored history, read when the given one is too short;
      `volatility` is the volatility of whichever history is analysed; draw
      `k` is the random number of period `k + 1`. */
  function ForecastRevenue(history: seq<Point>, local: seq<Point>, horizon: nat,
                           volatility: real, draws: seq<real>): (r: seq<Prediction>)
    requires |draws| >= horizon
    ensures |r| == horizon
    ensures forall k :: 0 <= k < horizon ==>
      r[k].period == k + 1 && r[k].amount >= 0.0 && 50 <= r[k].confidence <= 85
    ensures |SeriesFor(history, local)| < 4 ==> r == DefaultForecast(horizon)
    ensures |SeriesFor(history, local)| >= 4 ==>
      var a := Analyze(SeriesFor(history, local), volatility).value;
      forall k :: 0 <= k < horizon ==>
        r[k].confidence == Confidence(volatility, a.lastValue, k + 1, |SeriesFor(history, local)|) &&
        (r[k].trend == Up <==> r[k].amount > a.lastValue) &&
        r[k].change == PercentChange(a.lastValue, r[k].amount)
  {
    var series := SeriesFor(history, local);
    match Analyze(series, volatility)
    case None => DefaultForecast(horizon)
    case Some(a) =>
      seq(horizon, k requires 0 <= k < horizon => Project(a, k + 1, |series|, draws[k]))
  }

  /** A history of four or more records is used as given: the local store is
      not consulted. */
  lemma {:induction false} ForecastIgnoresLocal(history: seq<Point>, local1: seq<Point>, local2: seq<Point>,
                             horizon: nat, volatility: real, draws: seq<real>)
    requires |history| >= 4 && |draws| >= horizon
    ensures ForecastRevenue(history, local1, horizon, volatility, draws)
         == ForecastRevenue(history, local2, horizon, volatility, draws)
  {
  }

  /** Confidence never rises along a forecast. */
  lemma {:induction false} ForecastConfidenceNonIncreasing(history: seq<Point>, local: seq<Point>, horizon: nat,
                                        volatility: real, draws: seq<real>, i: nat, j: nat)
    requires |draws| >= horizon
    requires i <= j < horizon
    ensures ForecastRevenue(history, local, horizon, volatility, draws)[j].confidence
         <= ForecastRevenue(history, local, horizon, volatility, draws)[i].confidence
  {
    var series := SeriesFor(history, local);
    if |series| >= 4 {
      var a := Analyze(series, volatility).value;
      ConfidenceNonIncreasing(volatility, a.lastValue, i + 1, j + 1, |series|);
    }
  }

  /** The random walk moves a prediction at most 5% of the volatility away
      from the deterministic projection, before the floor at zero. */
  lemma {:induction false} ForecastNoiseBounded(history: seq<Point>, local: seq<Point>, horizon: nat,
                             volatility: real, draws: seq<real>, k: nat)
    requires |draws| >= horizon && UnitDraws(draws)
    requires volatility >= 0.0
    requires k < horizon && |SeriesFor(history, local)| >= 4
    ensures
      var a := Analyze(SeriesFor(history, local), volatility).value;
      var amount := ForecastRevenue(history, local, horizon, volatility, draws)[k].amount;
      Max0(Projection(a, k + 1) - 0.05 * volatility) <= amount <= Max0(Projection(a, k + 1) + 0.05 * volatility)
  {
    var series := SeriesFor(history, local);
    var a := Analyze(series, volatility).value;
    assert ForecastRevenue(history, local, horizon, volatility, draws)[k] == Project(a, k + 1, |series|, draws[k]);
    ProjectNoiseBounded(a, k + 1, |series|, draws[k]);
  }

  /** One projection lies within 5% of the volatility of its deterministic part. */
  lemma ProjectNoiseBounded(a: SeriesAnalysis, period: nat, dataLength: nat, draw: real)
    requires 0.0 <= draw < 1.0 && a.volatility >= 0.0
    ensures Max0(Projection(a, period) - 0.05 * a.volatility) <= Project(a, period, dataLength, draw).amount
    ensures Project(a, period, dataLength, draw).amount <= Max0(Projection(a, period) + 0.05 * a.volatility)
  {
    var x := Projection(a, period);
    NoiseBounds(draw, a.volatility);
    assert Project(a, period, dataLength, draw).amount == Max0(x + Noise(draw, a.volatility));
  }

  lemma {:induction false} NoiseBounds(draw: real, volatility: real)
    requires 0.0 <= draw < 1.0 && volatility >= 0.0
    ensures -0.05 * volatility <= Noise(draw, volatility) <= 0.05 * volatility
  {
    assert (draw - 0.5) * volatility <= 0.5 * volatility;
    assert (draw - 0.5) * volatility >= -0.5 * volatility;
  }

  /** A flat, calm history is projected flat: every amount is its value. */
  lemma {:induction false} ForecastOfConstant(history: seq<Point>, local: seq<Point>, horizon: nat,
                           draws: seq<real>, c: real)
    requires |history| >= 4 && |draws| >= horizon
    requires forall i :: 0 <= i < |history| ==> ValueOf(history[i]) == c
    requires c >= 0.0
    ensures forall k :: 0 <= k < horizon ==>
      ForecastRevenue(history, local, horizon, 0.0, draws)[k].amount == c &&
      ForecastRevenue(history, local, horizon, 0.0, draws)[k].trend == Down
  {
    var values := Values(history);
    assert Constant(values);
    TrendOfConstant(values);
    var a := Analyze(history, 0.0).value;
    assert a.trend.slope == 0.0 && a.lastValue == c && a.volatility == 0.0;
    if |history| >= 12 {
      SeasonalityOfConstant(values, c);
    }
    var r := ForecastRevenue(history, local, horizon, 0.0, draws);
    forall k | 0 <= k < horizon
      ensures r[k].amount == c && r[k].trend == Down
    {
      assert r[k] == Project(a, k + 1, |history|, draws[k]);
      FlatProjection(a, k + 1, |history|, draws[k], c);
    }
  }

  /** Without slope, seasonality or volatility a projection stays at the
      last value. */
  lemma FlatProjection(a: SeriesAnalysis, period: nat, dataLength: nat, draw: real, c: real)
    requires a.trend.slope == 0.0 && a.lastValue == c && a.volatility == 0.0 && c >= 0.0
    requires a.seasonality.Some? ==> forall i :: 0 <= i < |a.seasonality.value| ==> a.seasonality.value[i] == 0.0
    ensures Project(a, period, dataLength, draw).amount == c
    ensures Project(a, period, dataLength, draw).trend == Down
  {
    assert SeasonalTerm(a, period) == 0.0;
    assert Noise(draw, a.volatility) == 0.0;
    assert Projection(a, period) == c;
  }

  // ---------------------------------------------------------------------------
  // Exponential smoothing

  /** The smoothed level after `i` steps that each move 30% of the way from
      the current level to `last`, starting from `first`. In closed form the
      gap to `last` shrinks by 0.7 a step. */
  function Smoothed(first: real, last: real, i: nat): (s: real)
    ensures s == last + Pow(0.7, i) * (first - last)
  {
    if i == 0 then first
    else
      var prev := Smoothed(first, last, i - 1);
      var s := 0.3 * last + 0.7 * prev;
      SmoothingStep(first, last, Pow(0.7, i - 1), prev, Pow(0.7, i), s);
      s
  }

  /** One smoothing step shrinks the gap `p·(first − last)` by 0.7. */
  lemma SmoothingStep(first: real, last: real, p: real, q: real, p': real, q': real)
    requires q == last + p * (first - last)
    requires p' == 0.7 * p && q' == 0.3 * last + 0.7 * q
    ensures q' == last + p' * (first - last)
  {
  }

  /** Every smoothed level lies between `first` and `last`. */
  lemma {:induction false} SmoothedBetween(first: real, last: real, i: nat)
    ensures first <= last ==> first <= Smoothed(first, last, i) <= last
    ensures last <= first ==> last <= Smoothed(first, last, i) <= first
  {
    PowBounds(0.7, i);
    GapBetween(Pow(0.7, i), first, last, Smoothed(first, last, i));
  }

  /** Shrinking the gap from `last` to `first` by a factor in `(0, 1]` stays between them. */
  lemma GapBetween(p: real, first: real, last: real, x: real)
    requires 0.0 < p <= 1.0
    requires x == last + p * (first - last)
    ensures first <= last ==> first <= x <= last
    ensures last <= first ==> last <= x <= first
  {
    if first <= last {
      var g := last - first;
      assert p * (first - last) == -(p * g);
      assert 0.0 <= p * g <= g by { assert p * g <= 1.0 * g; }
      assert x == last - p * g;
      assert first <= x;
      assert x <= last;
    } else {
      var g := first - last;
      assert 0.0 <= p * g <= g by { assert p * g <= 1.0 * g; }
      assert x == last + p * g;
    }
  }

  /** Exponential smoothing with factor 0.3: an empty history gives no
      forecast; otherwise period `k + 1` carries the level after `k + 1`
      steps from the first value towards the last, with confidence 75, label
      'stable' and change '0%'. */
  function ExponentialSmoothing(history: seq<Point>, horizon: nat): (r: seq<Prediction>)
    ensures |history| == 0 ==> r == []
    ensures |history| > 0 ==> |r| == horizon
    ensures forall k :: 0 <= k < |r| ==>
      r[k].period == k + 1 && r[k].confidence == 75 && r[k].trend == Stable && r[k].change == NoChange
  {
    var values := Values(history);
    if |values| == 0 then []
    else
      seq(horizon, k requires 0 <= k < horizon =>
        Prediction(k + 1, Smoothed(values[0], values[|values| - 1], k + 1), 75, Stable, NoChange))
  }

  /** Every smoothed amount lies between the first and the last value of the
      history, and equals the closed form `last + 0.7^(k+1)·(first − last)`. */
  lemma {:induction false} ExponentialSmoothingAmounts(history: seq<Point>, horizon: nat, k: nat)
    requires |history| > 0 && k < horizon
    ensures
      var first := ValueOf(history[0]);
      var last := ValueOf(history[|history| - 1]);
      var amount := ExponentialSmoothing(history, horizon)[k].amount;
      amount == last + Pow(0.7, k + 1) * (first - last) &&
      (first <= last ==> first <= amount <= last) &&
      (last <= first ==> last <= amount <= first)
  {
    var values := Values(history);
    SmoothedBetween(values[0], values[|values| - 1], k + 1);
  }

  // ---------------------------------------------------------------------------
  // Linear-regression extrapolation

  /** The fitted line of `values` at position `x`. It passes through the mean
      point: it is the mean value plus the slope times the distance from the
      mean position `Σx / n`. */
  function LineAt(values: seq<real>, x: int): (y: real)
    requires |values| >= 2
    ensures var n := |values| as real;
      y == Sum(values) / n + TrendSlope(values) * (x as real - SumPositions(|values|, 1) as real / n)
  {
    var slope, intercept := TrendSlope(values), TrendIntercept(values);
    var y := slope * x as real + intercept;
    PointSlope(slope, intercept, SumPositions(|values|, 1) as real, |values| as real, Sum(values), x as real, y);
    y
  }

  /** A line whose residuals sum to zero, in point-slope form through the mean point. */
  lemma PointSlope(slope: real, intercept: real, sx: real, n: real, sy: real, x: real, y: real)
    requires n > 0.0 && slope * sx + intercept * n == sy
    requires y == slope * x + intercept
    ensures y == sy / n + slope * (x - sx / n)
  {
    assert intercept == (sy - slope * sx) / n;
    assert slope * (x - sx / n) == slope * x - (slope * sx) / n;
  }

  /** The regression prediction `period` steps past the `n` known values:
      the line `slope·x + intercept` at `x = n + period`, floored at zero,
      labelled by the sign of the slope and by the change from `last` to the
      unfloored line. */
  function LinePrediction(slope: real, intercept: real, n: nat, last: real, period: nat): (p: Prediction)
    ensures p.period == period && p.confidence == 80
    ensures p.amount == Max0(slope * (n + period) as real + intercept)
    ensures p.trend == Up <==> slope > 0.0
    ensures p.trend == Up || p.trend == Down
    ensures p.change == PercentChange(last, slope * (n + period) as real + intercept)
  {
    var line := slope * (n + period) as real + intercept;
    Prediction(period, Max0(line), 80, if slope > 0.0 then Up else Down, PercentChange(last, line))
  }

  /** Extrapolation of the least-squares line: fewer than two values give no
      forecast; otherwise period `k + 1` is the line at position `n + k + 1`,
      floored at zero, with confidence 80, label 'up' exactly when the slope
      is positive, and the change from the last value to the unfloored line. */
  function LinearRegressionForecast(history: seq<Point>, horizon: nat): (r: seq<Prediction>)
    ensures |history| < 2 ==> r == []
    ensures |history| >= 2 ==> |r| == horizon
    ensures forall k :: 0 <= k < |r| ==> r[k].period == k + 1 && r[k].amount >= 0.0 && r[k].confidence == 80
    ensures |history| >= 2 ==>
      var values := Values(history);
      forall k :: 0 <= k < |r| ==>
        r[k] == LinePrediction(TrendSlope(values), TrendIntercept(values), |values|, values[|values| - 1], k + 1)
  {
    var values := Values(history);
    if |values| < 2 then []
    else
      var slope := TrendSlope(values);
      var intercept := TrendIntercept(values);
      var last := values[|values| - 1];
      seq(horizon, k requires 0 <= k < horizon => LinePrediction(slope, intercept, |values|, last, k + 1))
  }

  /** The extrapolated amounts follow the slope: they never fall when it is
      positive and never rise otherwise. */
  lemma {:induction false} LinearRegressionMonotone(history: seq<Point>, horizon: nat, i: nat, j: nat)
    requires |history| >= 2 && i <= j < horizon
    ensures
      var r := LinearRegressionForecast(history, horizon);
      (TrendSlope(Values(history)) > 0.0 ==> r[i].amount <= r[j].amount) &&
      (TrendSlope(Values(history)) <= 0.0 ==> r[j].amount <= r[i].amount)
  {
    var values := Values(history);
    var r := LinearRegressionForecast(history, horizon);
    var slope, intercept, last := TrendSlope(values), TrendIntercept(values), values[|values| - 1];
    assert r[i] == LinePrediction(slope, intercept, |values|, last, i + 1);
    assert r[j] == LinePrediction(slope, intercept, |values|, last, j + 1);
    LinePredictionMonotone(slope, intercept, |values|, last, i + 1, j + 1);
  }

  /** Predictions further along a line follow its slope. */
  lemma LinePredictionMonotone(slope: real, intercept: real, n: nat, last: real, p: nat, q: nat)
    requires p <= q
    ensures slope > 0.0 ==> LinePrediction(slope, intercept, n, last, p).amount <= LinePrediction(slope, intercept, n, last, q).amount
    ensures slope <= 0.0 ==> LinePrediction(slope, intercept, n, last, q).amount <= LinePrediction(slope, intercept, n, last, p).amount
  {
    LineMonotone(slope, intercept, (n + p) as real, (n + q) as real);
  }

  lemma {:induction false} LineMonotone(slope: real, intercept: real, x: real, y: real)
    requires x <= y
    ensures slope > 0.0 ==> Max0(slope * x + intercept) <= Max0(slope * y + intercept)
    ensures slope <= 0.0 ==> Max0(slope * y + intercept) <= Max0(slope * x + intercept)
  {
    var d := slope * y - slope * x;
    assert d == slope * (y - x);
    if slope > 0.0 {
      assert d >= 0.0;
    } else {
      assert -d == (-slope) * (y - x);
      assert d <= 0.0;
    }
  }

  /** A flat non-negative history is extrapolated flat at its value. */
  lemma {:induction false} LinearRegressionOfConstant(history: seq<Point>, horizon: nat, c: real)
    requires |history| >= 2
    requires forall i :: 0 <= i < |history| ==> ValueOf(history[i]) == c
    requires c >= 0.0
    ensures forall k :: 0 <= k < horizon ==>
      LinearRegressionForecast(history, horizon)[k].amount == c &&
      LinearRegressionForecast(history, horizon)[k].trend == Down
  {
    var values := Values(history);
    assert Constant(values);
    TrendOfConstant(values);
    assert TrendSlope(values) == 0.0 && TrendIntercept(values) == c;
  }

  // ---------------------------------------------------------------------------
  // Ensemble

  /** The entries at index `i` of those forecasts that reach that far, in order. */
  function DefinedAt(fs: seq<seq<Prediction>>, i: nat): (d: seq<Prediction>)
    ensures |d| <= |fs|
  {
    if |fs| == 0 then []
    else DefinedAt(fs[..|fs| - 1], i) + (if i < |fs[|fs| - 1]| then [fs[|fs| - 1][i]] else [])
  }

  /** The amounts of some predictions. */
  function Amounts(ps: seq<Prediction>): (r: seq<real>)
    ensures |r| == |ps|
    ensures forall k :: 0 <= k < |ps| ==> r[k] == ps[k].amount
  {
    if |ps| == 0 then [] else Amounts(ps[..|ps| - 1]) + [ps[|ps| - 1].amount]
  }

  /** The confidences of some predictions, a zero one counting as 70. */
  function Confidences(ps: seq<Prediction>): (r: seq<real>)
    ensures |r| == |ps|
    ensures forall k :: 0 <= k < |ps| ==>
      r[k] == if ps[k].confidence == 0 then 70.0 else ps[k].confidence as real
  {
    if |ps| == 0 then []
    else
      var c := ps[|ps| - 1].confidence;
      Confidences(ps[..|ps| - 1]) + [if c == 0 then 70.0 else c as real]
  }

  /** `Math.round`: the nearest integer, halves rounded up. */
  function RoundHalfUp(x: real): (n: int)
    ensures x - 0.5 < n as real <= x + 0.5
  {
    (x + 0.5).Floor
  }

  /** The averaged prediction of the non-empty list `d` of entries for one
      period: mean amount, rounded mean confidence, label 'ensemble', change '0%'. */
  function Average(d: seq<Prediction>, period: nat): (p: Prediction)
    requires |d| > 0
    ensures p.period == period && p.trend == Ensemble && p.change == NoChange
  {
    Prediction(period, Mean(Amounts(d)), RoundHalfUp(Mean(Confidences(d))), Ensemble, NoChange)
  }

  /** The length of the longest forecast. */
  function Reach(fs: seq<seq<Prediction>>): (n: nat)
    ensures forall j :: 0 <= j < |fs| ==> |fs[j]| <= n
    ensures |fs| == 0 ==> n == 0
    ensures |fs| > 0 ==> exists j :: 0 <= j < |fs| && |fs[j]| == n
  {
    if |fs| == 0 then 0
    else
      var rest := Reach(fs[..|fs| - 1]);
      assert forall j :: 0 <= j < |fs| - 1 ==> fs[..|fs| - 1][j] == fs[j];
      if |fs[|fs| - 1]| > rest then |fs[|fs| - 1]| else rest
  }

  /** Some forecast has an entry at index `i` exactly when `i` is below the
      longest forecast's length. */
  lemma {:induction false} DefinedAtReach(fs: seq<seq<Prediction>>, i: nat)
    ensures |DefinedAt(fs, i)| > 0 <==> i < Reach(fs)
  {
    if |fs| > 0 {
      DefinedAtReach(fs[..|fs| - 1], i);
    }
  }

  function Min(a: nat, b: nat): nat
  {
    if a < b then a else b
  }

  /** The averaged prediction for index `i`, which some forecast reaches. */
  function AverageAt(fs: seq<seq<Prediction>>, i: nat): (p: Prediction)
    requires i < Reach(fs)
    ensures p.period == i + 1 && p.trend == Ensemble && p.change == NoChange
  {
    DefinedAtReach(fs, i);
    Average(DefinedAt(fs, i), i + 1)
  }

  /** The per-period average of several forecasts: one prediction for every
      index below `horizon` that at least one forecast reaches. Since the
      forecasts are lists, these indices run without gaps from 0 up to the
      horizon or the longest forecast, whichever ends first. */
  function Combine(fs: seq<seq<Prediction>>, horizon: nat): (r: seq<Prediction>)
    ensures |r| == Min(horizon, Reach(fs)) && |r| <= horizon
    ensures forall k :: 0 <= k < |r| ==>
      r[k].period == k + 1 && r[k].trend == Ensemble && r[k].change == NoChange
  {
    var m := Min(horizon, Reach(fs));
    seq(m, k requires 0 <= k < m => AverageAt(fs, k))
  }

  /** `c` holds the averages of the indices below `i` that some forecast
      reaches. */
  predicate AveragedBelow(fs: seq<seq<Prediction>>, c: seq<Prediction>, i: nat)
  {
    |c| == Min(i, Reach(fs)) &&
    forall k :: 0 <= k < |c| ==> k < Reach(fs) && c[k] == AverageAt(fs, k)
  }

  /** One more index: its average is appended when some forecast reaches it. */
  lemma AveragedStep(fs: seq<seq<Prediction>>, c: seq<Prediction>, i: nat)
    requires AveragedBelow(fs, c, i)
    ensures i < Reach(fs) ==> AveragedBelow(fs, c + [AverageAt(fs, i)], i + 1)
    ensures i >= Reach(fs) ==> AveragedBelow(fs, c, i + 1)
  {
    if i < Reach(fs) {
      var c2 := c + [AverageAt(fs, i)];
      assert |c| == i;
      forall k | 0 <= k < |c2|
        ensures k < Reach(fs) && c2[k] == AverageAt(fs, k)
      {
        if k < |c| {
          assert c2[k] == c[k];
        }
      }
    }
  }

  /** Averages below the horizon are the combined forecast. */
  lemma AveragedAll(fs: seq<seq<Prediction>>, c: seq<Prediction>, horizon: nat)
    requires AveragedBelow(fs, c, horizon)
    ensures c == Combine(fs, horizon)
  {
    var r := Combine(fs, horizon);
    forall k | 0 <= k < |r|
      ensures c[k] == r[k]
    {
      assert r[k] == AverageAt(fs, k);
    }
  }

  /** `combineForecasts`: for each index below the horizon, average the
      entries of the forecasts that reach it, skipping an index none reaches.
      The result is the gapless per-period average. */
  method CombineForecasts(fs: seq<seq<Prediction>>, horizon: nat) returns (combined: seq<Prediction>)
    ensures combined == Combine(fs, horizon)
    ensures forall k :: 0 <= k < |combined| ==> |DefinedAt(fs, k)| > 0
  {
    combined := [];
    var i := 0;
    while i < horizon
      invariant i <= horizon
      invariant AveragedBelow(fs, combined, i)
    {
      var d := DefinedAt(fs, i);
      DefinedAtReach(fs, i);
      AveragedStep(fs, combined, i);
      if |d| > 0 {
        combined := combined + [Average(d, i + 1)];
      }
      i := i + 1;
    }
    AveragedAll(fs, combined, horizon);
    forall k | 0 <= k < |combined|
      ensures |DefinedAt(fs, k)| > 0
    {
      DefinedAtReach(fs, k);
    }
  }

  /** Every entry of `DefinedAt(fs, i)` inherits bounds that hold of entry `i`
      of every forecast. */
  lemma {:induction false} DefinedAtBounded(fs: seq<seq<Prediction>>, i: nat, lo: real, hi: real)
    requires forall j :: 0 <= j < |fs| && i < |fs[j]| ==> lo <= fs[j][i].amount <= hi
    ensures forall m :: 0 <= m < |DefinedAt(fs, i)| ==> lo <= DefinedAt(fs, i)[m].amount <= hi
  {
    if |fs| > 0 {
      assert forall j :: 0 <= j < |fs| - 1 ==> fs[..|fs| - 1][j] == fs[j];
      DefinedAtBounded(fs[..|fs| - 1], i, lo, hi);
    }
  }

  /** Each combined amount lies between any lower and upper bound of the
      amounts it averages. */
  lemma {:induction false} CombinedAmountBetween(fs: seq<seq<Prediction>>, horizon: nat, k: nat, lo: real, hi: real)
    requires k < |Combine(fs, horizon)|
    requires forall j :: 0 <= j < |fs| && k < |fs[j]| ==> lo <= fs[j][k].amount <= hi
    ensures lo <= Combine(fs, horizon)[k].amount <= hi
  {
    DefinedAtReach(fs, k);
    DefinedAtBounded(fs, k, lo, hi);
    var d := DefinedAt(fs, k);
    assert Combine(fs, horizon)[k] == AverageAt(fs, k) == Average(d, k + 1);
    MeanBetween(Amounts(d), lo, hi);
  }

  /** Combining a single forecast returns its amounts unchanged. */
  lemma {:induction false} CombineSingle(f: seq<Prediction>, horizon: nat, k: nat)
    requires k < horizon && k < |f|
    ensures k < |Combine([f], horizon)|
    ensures Combine([f], horizon)[k].amount == f[k].amount
  {
    assert [f][..0] == [];
    assert DefinedAt([f], k) == [f[k]];
    DefinedAtReach([f], k);
    MeanConstant(Amounts([f[k]]), f[k].amount);
  }

  /** The ensemble: the trend-and-season forecast, exponential smoothing and
      the regression line, averaged period by period. The last two read the
      caller's history even when the first falls back to the local one. */
  function EnsembleForecast(history: seq<Point>, local: seq<Point>, horizon: nat,
                            volatility: real, draws: seq<real>): (r: seq<Prediction>)
    requires |draws| >= horizon
    ensures |r| == horizon
    ensures forall k :: 0 <= k < horizon ==>
      r[k].period == k + 1 && r[k].trend == Ensemble && r[k].change == NoChange
  {
    Combine(EnsembleMembers(history, local, horizon, volatility, draws), horizon)
  }

  /** The three forecasts the ensemble averages. */
  function EnsembleMembers(history: seq<Point>, local: seq<Point>, horizon: nat,
                           volatility: real, draws: seq<real>): (fs: seq<seq<Prediction>>)
    requires |draws| >= horizon
    ensures |fs| == 3 && Reach(fs) == horizon
  {
    var fs := [ForecastRevenue(history, local, horizon, volatility, draws),
               ExponentialSmoothing(history, horizon),
               LinearRegressionForecast(history, horizon)];
    assert |fs[0]| == horizon;
    fs
  }

  /** With a non-negative history every strategy forecasts non-negative
      amounts, and so does the ensemble. */
  lemma {:induction false} EnsembleNonNegative(history: seq<Point>, local: seq<Point>, horizon: nat,
                                               volatility: real, draws: seq<real>, k: nat)
    requires |draws| >= horizon && k < horizon
    requires NonNegative(Values(history))
    ensures EnsembleForecast(history, local, horizon, volatility, draws)[k].amount >= 0.0
  {
    var fs: seq<seq<Prediction>> := EnsembleMembers(history, local, horizon, volatility, draws);
    var hi := fs[0][k].amount + (if k < |fs[1]| then fs[1][k].amount else 0.0)
              + (if k < |fs[2]| then fs[2][k].amount else 0.0);
    if k < |fs[1]| {
      ExponentialSmoothingAmounts(history, horizon, k);
      var values := Values(history);
      assert values[0] >= 0.0 && values[|values| - 1] >= 0.0;
    }
    CombinedAmountBetween(fs, horizon, k, 0.0, hi);
  }
}
