/** The forecasting helpers of Revenue/backend/controllers/revenueController.js:
    a moving average that keeps the series' length, a least-squares slope over
    the 0-based positions, and `predictRevenue`, which extends the last value
    along the slope, scales it by the ratio of the last three-month average to
    the last value and by a random factor in [0.95, 1.05), and rounds. The
    random numbers are a parameter: `draws[k]` is the `Math.random()` value of
    period `k + 1`. */
module Legacy {
  import opened Wrappers
  import opened Sums
  import opened Stats
  import Forecast

  // ---------------------------------------------------------------------------
  // Moving average that keeps the series' length

  /** `calculateMovingAverage`: the first `window - 1` values pass through,
      every later position holds the mean of the window ending there; a
      series shorter than the window comes back unchanged. */
  function SmoothedSeries(data: seq<real>, window: nat): (r: seq<real>)
    requires window >= 1
    ensures |r| == |data|
    ensures |data| < window ==> r == data
    ensures |data| >= window ==> r[..window - 1] == data[..window - 1]
    ensures |data| >= window ==> r[window - 1..] == MovingAverage(data, window)
    ensures forall i :: window - 1 <= i < |data| ==> r[i] == Mean(data[i + 1 - window..i + 1])
  {
    if |data| < window then data
    else
      var r := seq(|data|, i requires 0 <= i < |data| =>
        if i < window - 1 then data[i] else Sum(data[i + 1 - window..i + 1]) / window as real);
      assert |r[window - 1..]| == |MovingAverage(data, window)|;
      forall k | 0 <= k < |r| - (window - 1)
        ensures r[window - 1..][k] == MovingAverage(data, window)[k]
      {
        assert r[window - 1..][k] == r[k + window - 1];
        assert |data[k..k + window]| == window;
      }
      r
  }

  /** The smoothed series of a constant series is the same constant series. */
  lemma SmoothedSeriesOfConstant(data: seq<real>, window: nat, c: real)
    requires window >= 1
    requires forall i :: 0 <= i < |data| ==> data[i] == c
    ensures forall i :: 0 <= i < |data| ==> SmoothedSeries(data, window)[i] == c
  {
    var r := SmoothedSeries(data, window);
    if |data| >= window {
      MovingAverageOfConstant(data, window, c);
      forall i | 0 <= i < |data|
        ensures r[i] == c
      {
        if i < window - 1 {
          assert r[i] == r[..window - 1][i];
        } else {
          assert r[i] == r[window - 1..][i - (window - 1)];
        }
      }
    }
  }

  /** The last entry of the smoothed series is the mean of the last `window`
      values. */
  lemma SmoothedSeriesLast(data: seq<real>, window: nat)
    requires 1 <= window <= |data|
    ensures SmoothedSeries(data, window)[|data| - 1] == Mean(data[|data| - window..])
  {
    var n := |data|;
    var r := SmoothedSeries(data, window);
    var w := data[n - window..n];
    assert r[n - 1] == Mean(w);
    assert w == data[n - window..];
  }

  // ---------------------------------------------------------------------------
  // Slope over the positions 0, 1, …, n − 1

  /** `calculateTrend`: the least-squares slope of the values against their
      0-based positions, and 0 for fewer than two values. */
  function LegacyTrend(data: seq<real>): (slope: real)
    ensures |data| >= 2 ==> slope == TrendSlope(data)
    ensures |data| < 2 ==> slope == 0.0
  {
    if |data| < 2 then 0.0
    else
      var n := |data|;
      SumPositionsClosed(n, 0);
      assert n * (n - 1) / 2 == SumPositions(n, 0);
      var q := SumSquaredPositions(n, 0);
      DenominatorNonZero(n);
      var slope := SlopeOf(n as real, (n * (n - 1) / 2) as real, Sum(data), WeightedSum(data, 0), q as real);
      TrendShift(data);
      slope
  }

  /** Counting positions from 1 instead of 0 leaves the least-squares slope
      unchanged. */
  lemma TrendShift(data: seq<real>)
    requires |data| >= 2
    ensures var n := |data|;
      var p := SumPositions(n, 0) as real;
      var q := SumSquaredPositions(n, 0) as real;
      n as real * q - p * p != 0.0 &&
      SlopeOf(n as real, p, Sum(data), WeightedSum(data, 0), q) == TrendSlope(data)
  {
    DenominatorNonZero(|data|);
    SlopeShift(data);
  }

  /** The slope over the positions `0 … n − 1` equals the slope over
      `1 … n`, given that the former's denominator does not vanish. */
  lemma SlopeShift(data: seq<real>)
    requires |data| >= 2
    requires var n := |data|;
      var p := SumPositions(n, 0) as real;
      var q := SumSquaredPositions(n, 0) as real;
      n as real * q - p * p != 0.0
    ensures var n := |data|;
      var p := SumPositions(n, 0) as real;
      var q := SumSquaredPositions(n, 0) as real;
      SlopeOf(n as real, p, Sum(data), WeightedSum(data, 0), q) == TrendSlope(data)
  {
    PositionsShift(|data|);
    WeightedSumShift(data, 0);
    SlopeShiftAlgebra(|data| as real, SumPositions(|data|, 0) as real, SumSquaredPositions(|data|, 0) as real,
      WeightedSum(data, 0), Sum(data),
      SumPositions(|data|, 1) as real, SumSquaredPositions(|data|, 1) as real, WeightedSum(data, 1));
  }

  /** Positions `1 … n` against positions `0 … n − 1`: `Σx` grows by `n` and
      `Σx²` by `2Σx + n`. */
  lemma PositionsShift(n: nat)
    ensures SumPositions(n, 1) as real == SumPositions(n, 0) as real + n as real
    ensures SumSquaredPositions(n, 1) as real ==
      SumSquaredPositions(n, 0) as real + 2.0 * SumPositions(n, 0) as real + n as real
  {
    SumPositionsClosed(n, 0);
    SumPositionsClosed(n, 1);
    SumSquaredPositionsShift(n, 1);
  }

  /** The regression denominator over the positions `0 … n − 1`, in reals. */
  lemma DenominatorNonZero(n: nat)
    requires n >= 2
    ensures var p := SumPositions(n, 0);
      var q := SumSquaredPositions(n, 0);
      n as real * q as real - p as real * p as real > 0.0
  {
    var p := SumPositions(n, 0);
    var q := SumSquaredPositions(n, 0);
    RegressionDenominatorPositive(n, 0);
    CastProduct(n, q);
    CastProduct(p, p);
  }

  /** The algebra behind `TrendShift`: shifting every position by one adds
      `n` to `Σx`, `Σy` to `Σxy` and `2Σx + n` to `Σx²`, and the slope stays. */
  lemma SlopeShiftAlgebra(n: real, p: real, q: real, w: real, s: real, p1: real, q1: real, w1: real)
    requires n * q - p * p != 0.0
    requires p1 == p + n && q1 == q + 2.0 * p + n && w1 == w + s
    ensures n * q1 - p1 * p1 == n * q - p * p
    ensures SlopeOf(n, p1, s, w1, q1) == SlopeOf(n, p, s, w, q)
  {
    assert n * w1 - p1 * s == n * w - p * s;
    assert n * q1 - p1 * p1 == n * q - p * p;
  }

  /** A flat series has no slope. */
  lemma LegacyTrendOfConstant(data: seq<real>, c: real)
    requires forall i :: 0 <= i < |data| ==> data[i] == c
    ensures LegacyTrend(data) == 0.0
  {
    if |data| >= 2 {
      TrendSlopeOfConstant(data, c);
    }
  }

  // ---------------------------------------------------------------------------
  // predictRevenue

  /** The last value of a series. */
  function Last(history: seq<real>): real
    requires |history| > 0
  {
    history[|history| - 1]
  }

  /** The mean of the last three values, the last entry of the controller's
      three-period moving average. */
  function RecentMean(history: seq<real>): (r: real)
    requires |history| >= 3
    ensures var n := |history|; 3.0 * r == history[n - 3] + history[n - 2] + history[n - 1]
  {
    var n := |history|;
    var w := history[n - 3..];
    assert Sum(w) == w[0] + w[1] + w[2] by {
      assert w[..2][..1][..0] == [];
      assert Sum(w[..1]) == w[0];
      assert Sum(w[..2]) == w[0] + w[1];
    }
    Mean(w)
  }

  /** The ratio of the mean of the last three values to the last value. */
  function SeasonalFactor(history: seq<real>): (f: real)
    requires |history| >= 3 && Last(history) != 0.0
    ensures f * Last(history) == RecentMean(history)
  {
    var m, last := RecentMean(history), Last(history);
    DivCancel(m, last);
    m / last
  }

  /** The controller takes the factor from the last entry of its three-period
      moving average: that entry is the recent mean, so the ratio is the
      seasonal factor. */
  lemma SeasonalFactorOfMovingAverage(history: seq<real>)
    requires |history| >= 3
    ensures SmoothedSeries(history, 3)[|history| - 1] == RecentMean(history)
    ensures Last(history) != 0.0 ==>
      SmoothedSeries(history, 3)[|history| - 1] / Last(history) == SeasonalFactor(history)
  {
    SmoothedSeriesLast(history, 3);
  }

  lemma DivCancel(m: real, d: real)
    requires d != 0.0
    ensures (m / d) * d == m
  {
  }

  /** The forecast for period `i` before the random variation: the last value
      extended along the slope, times the seasonal factor. */
  function Base(history: seq<real>, i: nat): (b: real)
    requires |history| >= 3 && Last(history) != 0.0
    ensures b * Last(history) == TrendLine(history, i) * RecentMean(history)
  {
    SeasonallyAdjusted(history, TrendLine(history, i))
  }

  /** The last value extended `i` periods along the slope. */
  function TrendLine(history: seq<real>, i: nat): (y: real)
    requires |history| > 0
    ensures LegacyTrend(history) == 0.0 ==> y == Last(history)
  {
    Last(history) + LegacyTrend(history) * i as real
  }

  /** A value of the trend line times the seasonal factor: times the last
      value it is the line times the recent mean, and the last value itself
      is adjusted to the recent mean. */
  function SeasonallyAdjusted(history: seq<real>, line: real): (b: real)
    requires |history| >= 3 && Last(history) != 0.0
    ensures b * Last(history) == line * RecentMean(history)
    ensures line == Last(history) ==> b == RecentMean(history)
  {
    var f := SeasonalFactor(history);
    ScaledLine(line, f, Last(history), RecentMean(history));
    line * f
  }

  lemma ScaledLine(line: real, f: real, last: real, m: real)
    requires f * last == m && last != 0.0
    ensures (line * f) * last == line * m
    ensures line == last ==> line * f == m
  {
    assert (line * f) * last == line * (f * last);
  }

  /** The random variation factor drawn from a `Math.random()` value. */
  function Variation(draw: real): (v: real)
    ensures 0.0 <= draw < 1.0 ==> 0.95 <= v < 1.05
  {
    0.95 + draw * 0.1
  }

  /** The published prediction for a base with random number `draw`:
      varied, rounded half up and floored at zero. */
  function Published(base: real, draw: real): (v: real)
    ensures v >= 0.0 && v == v.Floor as real
  {
    var n := Forecast.RoundHalfUp(base * Variation(draw));
    (if n > 0 then n else 0) as real
  }

  /** With a last value of zero the seasonal factor `movingAvg / 0` is an
      infinity of the recent mean's sign (not a number when that mean is zero
      too), so each prediction `(0 + trend·i)·factor` is an infinity of the
      sign of trend·mean, or not a number when that product is zero. Only a
      negative infinity comes out finite: `Math.max(0, Math.round(−∞))` is 0. */
  predicate FloorsToZero(history: seq<real>)
    requires |history| >= 3
  {
    Last(history) == 0.0 && LegacyTrend(history) * RecentMean(history) < 0.0
  }

  /** `predictRevenue(history, periods)`. A series with fewer than three
      values predicts its mean for every period; the mean of no values is not
      a number. From a last value of zero every prediction is infinite or not
      a number, except that a negative infinity is floored to 0. `None` stands
      for predictions that are not all finite; no periods give no
      predictions. */
  function PredictRevenue(history: seq<real>, periods: nat, draws: seq<real>): (r: Option<seq<real>>)
    requires |draws| == periods
    ensures r.None? <==> (periods > 0 &&
      (|history| == 0 || (|history| >= 3 && Last(history) == 0.0 && LegacyTrend(history) * RecentMean(history) >= 0.0)))
    ensures r.Some? ==> |r.value| == periods
    ensures r.Some? && |history| < 3 ==> forall k :: 0 <= k < periods ==> r.value[k] == Mean(history)
    ensures r.Some? && |history| >= 3 ==>
      forall k :: 0 <= k < periods ==> r.value[k] >= 0.0 && r.value[k] == r.value[k].Floor as real
    ensures |history| >= 3 && Last(history) == 0.0 && LegacyTrend(history) * RecentMean(history) < 0.0 ==>
      r.Some? && forall k :: 0 <= k < periods ==> r.value[k] == 0.0
  {
    if periods == 0 then Some([])
    else if |history| == 0 then None
    else if |history| < 3 then Some(seq(periods, _ => Mean(history)))
    else if Last(history) == 0.0 then
      if FloorsToZero(history) then Some(seq(periods, _ => 0.0)) else None
    else Some(seq(periods, k requires 0 <= k < periods => Published(Base(history, k + 1), draws[k])))
  }

  /** A history falling to zero, such as 10, 5, 0, is predicted as zeros:
      the slope is −5, the recent mean 5, and every prediction −∞ floored to 0. */
  lemma FallingToZero(draws: seq<real>)
    requires |draws| == 6
    ensures PredictRevenue([10.0, 5.0, 0.0], 6, draws) == Some([0.0, 0.0, 0.0, 0.0, 0.0, 0.0])
  {
    var h := [10.0, 5.0, 0.0];
    assert h[..2] == [10.0, 5.0] && h[..2][..1] == [10.0] && h[..2][..1][..0] == [];
    var h2, h1: seq<real> := [10.0, 5.0], [10.0];
    assert Sum(h1) == 10.0 && WeightedSum(h1, 0) == 0.0;
    assert Sum(h2) == 15.0 && WeightedSum(h2, 0) == 5.0;
    assert Sum(h) == 15.0 && WeightedSum(h, 0) == 5.0;
    assert SumSquaredPositions(3, 0) == 5;
    assert LegacyTrend(h) == -5.0;
    assert h[0..] == h;
    assert RecentMean(h) == 5.0;
    assert FloorsToZero(h);
    assert seq(6, _ => 0.0) == [0.0, 0.0, 0.0, 0.0, 0.0, 0.0];
  }

  /** Each prediction of a non-negative base lies within 5% and half a unit
      of its base, whatever the random number in [0, 1) was. */
  lemma PredictionBand(history: seq<real>, periods: nat, draws: seq<real>, k: nat)
    requires |draws| == periods && k < periods
    requires |history| >= 3 && Last(history) != 0.0
    requires 0.0 <= draws[k] < 1.0
    requires Base(history, k + 1) >= 0.0
    ensures var b := Base(history, k + 1);
      0.95 * b - 0.5 < PredictRevenue(history, periods, draws).value[k] <= 1.05 * b + 0.5
  {
    var r := PredictRevenue(history, periods, draws);
    var b := Base(history, k + 1);
    assert r.value[k] == Published(b, draws[k]);
    PublishedBand(b, draws[k]);
  }

  /** The published value of a non-negative base lies within 5% and half a
      unit of it. */
  lemma PublishedBand(b: real, draw: real)
    requires b >= 0.0 && 0.0 <= draw < 1.0
    ensures 0.95 * b - 0.5 < Published(b, draw) <= 1.05 * b + 0.5
  {
    var v := Variation(draw);
    Scale(b, v, 0.95, 1.05);
    RoundBand(b, b * v);
  }

  /** Rounding a value within 5% of a non-negative base and flooring it at
      zero stays within 5% and half a unit of the base. */
  lemma RoundBand(b: real, x: real)
    requires b >= 0.0 && 0.95 * b <= x <= 1.05 * b
    ensures var n := Forecast.RoundHalfUp(x);
      0.95 * b - 0.5 < (if n > 0 then n else 0) as real <= 1.05 * b + 0.5
  {
  }

  /** A flat positive history of three or more values predicts its own level
      for every period, up to the random 5% and the rounding. */
  lemma FlatHistoryForecast(history: seq<real>, c: real, periods: nat, draws: seq<real>)
    requires |history| >= 3 && c > 0.0
    requires forall i :: 0 <= i < |history| ==> history[i] == c
    requires |draws| == periods
    requires forall k :: 0 <= k < periods ==> 0.0 <= draws[k] < 1.0
    ensures PredictRevenue(history, periods, draws).Some?
    ensures forall k :: 0 <= k < periods ==>
      0.95 * c - 0.5 < PredictRevenue(history, periods, draws).value[k] <= 1.05 * c + 0.5
  {
    LegacyTrendOfConstant(history, c);
    FlatSeasonalFactor(history, c);
    forall k | 0 <= k < periods
      ensures 0.95 * c - 0.5 < PredictRevenue(history, periods, draws).value[k] <= 1.05 * c + 0.5
    {
      assert Base(history, k + 1) == c;
      PredictionBand(history, periods, draws, k);
    }
  }

  /** A flat positive history has a seasonal factor of one. */
  lemma FlatSeasonalFactor(history: seq<real>, c: real)
    requires |history| >= 3 && c > 0.0
    requires forall i :: 0 <= i < |history| ==> history[i] == c
    ensures Last(history) == c && SeasonalFactor(history) == 1.0
  {
    var tail := history[|history| - 3..];
    MeanConstant(tail, c);
    var last, m := Last(history), Mean(tail);
    assert last == c && m == c;
    UnitFactor(SeasonalFactor(history), last, m);
  }

  /** A factor that maps a non-zero value to itself is one. */
  lemma UnitFactor(f: real, x: real, y: real)
    requires f * x == y && x == y && x != 0.0
    ensures f == 1.0
  {
    assert (f - 1.0) * x == 0.0;
  }

  /** Short histories predict a value between their smallest and largest. */
  lemma ShortHistoryWithinRange(history: seq<real>, periods: nat, draws: seq<real>, lo: real, hi: real)
    requires 0 < |history| < 3 && |draws| == periods
    requires forall i :: 0 <= i < |history| ==> lo <= history[i] <= hi
    ensures forall k :: 0 <= k < periods ==> lo <= PredictRevenue(history, periods, draws).value[k] <= hi
  {
    MeanBetween(history, lo, hi);
  }
}
