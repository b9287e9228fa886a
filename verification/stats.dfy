/** The statistics primitives of the forecasting service
    (Revenue/backend/services/mlService.js): trailing moving average,
    least-squares trend, positional seasonality, growth rate, forecast
    confidence and the percentage-change label. */
module Stats {
  import opened Wrappers
  import opened Sums

  // ---------------------------------------------------------------------------
  // Moving average

  /** Trailing moving average: one mean per full window, so the result is
      `window - 1` entries shorter than the input; an input shorter than the
      window comes back unchanged. */
  function MovingAverage(values: seq<real>, window: nat): (r: seq<real>)
    requires window >= 1
    ensures |values| < window ==> r == values
    ensures |values| >= window ==> |r| == |values| - window + 1
    ensures |values| >= window ==>
      forall k :: 0 <= k < |r| ==> r[k] == Mean(values[k..k + window])
  {
    if |values| < window then values else WindowMeans(values, window, window - 1)
  }

  /** The means of the windows ending at indices `i`, `i + 1`, … of `values`. */
  function WindowMeans(values: seq<real>, window: nat, i: nat): (r: seq<real>)
    requires 1 <= window <= i + 1
    requires i <= |values|
    decreases |values| - i
    ensures |r| == |values| - i
    ensures forall k :: 0 <= k < |r| ==> r[k] == Mean(values[i + k + 1 - window..i + k + 1])
  {
    if i == |values| then []
    else [Mean(values[i + 1 - window..i + 1])] + WindowMeans(values, window, i + 1)
  }

  /** A constant series has a constant moving average. */
  lemma MovingAverageOfConstant(values: seq<real>, window: nat, c: real)
    requires window >= 1
    requires forall i :: 0 <= i < |values| ==> values[i] == c
    ensures forall k :: 0 <= k < |MovingAverage(values, window)| ==> MovingAverage(values, window)[k] == c
  {
    var r := MovingAverage(values, window);
    if |values| >= window {
      forall k | 0 <= k < |r|
        ensures r[k] == c
      {
        MeanConstant(values[k..k + window], c);
      }
    }
  }

  // ---------------------------------------------------------------------------
  // Least-squares trend over the positions 1, 2, …, n

  /** Slope and intercept of the fitted line, and its coefficient of determination. */
  datatype Fit = Fit(slope: real, intercept: real, rSquared: real)

  /** `n·Σx² − (Σx)²` for the positions `1 … n`, as a real. */
  function TrendDenominator(n: nat): (d: real)
    requires n >= 2
    ensures d > 0.0
    ensures d == n as real * SumSquaredPositions(n, 1) as real
                 - SumPositions(n, 1) as real * SumPositions(n, 1) as real
  {
    RegressionDenominatorPositive(n, 1);
    CastProduct(n, SumSquaredPositions(n, 1));
    CastProduct(SumPositions(n, 1), SumPositions(n, 1));
    (n * SumSquaredPositions(n, 1) - SumPositions(n, 1) * SumPositions(n, 1)) as real
  }

  /** Least-squares slope from the five sums `n`, `Σx`, `Σy`, `Σxy`, `Σx²`. */
  function SlopeOf(n: real, sx: real, sy: real, sxy: real, sxx: real): real
    requires n * sxx - sx * sx != 0.0
  {
    (n * sxy - sx * sy) / (n * sxx - sx * sx)
  }

  /** Least-squares intercept for a given slope. */
  function InterceptOf(n: real, sx: real, sy: real, slope: real): real
    requires n != 0.0
  {
    (sy - slope * sx) / n
  }

  /** Slope of the least-squares line over the positions `1 … n`. It has the
      sign of the covariance numerator `n·Σxy − Σx·Σy`: the line rises exactly
      when the values grow with their positions. */
  function TrendSlope(values: seq<real>): (s: real)
    requires |values| >= 2
    ensures SameSign(s, |values| as real * WeightedSum(values, 1)
                        - SumPositions(|values|, 1) as real * Sum(values))
  {
    var d := TrendDenominator(|values|);
    var n, sx, sy := |values| as real, SumPositions(|values|, 1) as real, Sum(values);
    var sxy, sxx := WeightedSum(values, 1), SumSquaredPositions(|values|, 1) as real;
    var s := SlopeOf(n, sx, sy, sxy, sxx);
    SlopeSign(n, sx, sy, sxy, sxx, s);
    s
  }

  /** `a` and `b` are both positive, both negative or both zero. */
  predicate SameSign(a: real, b: real)
  {
    (a > 0.0 <==> b > 0.0) && (a < 0.0 <==> b < 0.0)
  }

  /** The slope has the sign of its numerator, since the denominator is positive. */
  lemma SlopeSign(n: real, sx: real, sy: real, sxy: real, sxx: real, s: real)
    requires n * sxx - sx * sx > 0.0
    requires s == SlopeOf(n, sx, sy, sxy, sxx)
    ensures SameSign(s, n * sxy - sx * sy)
  {
    var a, d := n * sxy - sx * sy, n * sxx - sx * sx;
    assert s * d == a;
  }

  /** Intercept of the least-squares line over the positions `1 … n`. Together
      with the slope it satisfies both normal equations of least squares: the
      residuals sum to zero (so the line passes through the mean point) and are
      uncorrelated with the positions. */
  function TrendIntercept(values: seq<real>): (b: real)
    requires |values| >= 2
    ensures NormalEquations(|values| as real, SumPositions(|values|, 1) as real, Sum(values),
                            WeightedSum(values, 1), SumSquaredPositions(|values|, 1) as real,
                            TrendSlope(values), b)
  {
    var n, sx, sy := |values| as real, SumPositions(|values|, 1) as real, Sum(values);
    var sxy, sxx := WeightedSum(values, 1), SumSquaredPositions(|values|, 1) as real;
    var d := TrendDenominator(|values|);
    var b := InterceptOf(n, sx, sy, TrendSlope(values));
    NormalEquationsAlgebra(n, sx, sy, sxy, sxx, TrendSlope(values), b);
    b
  }

  /** Ordinary least-squares fit of the values against their 1-based positions.
      The source yields NaN for fewer than two values; every caller guards
      that, so the model requires two. `rSquared` is 0 when the values have no
      variance at all. */
  function Trend(values: seq<real>): (f: Fit)
    requires |values| >= 2
    ensures f.rSquared <= 1.0
  {
    var slope := TrendSlope(values);
    var intercept := TrendIntercept(values);
    var meanY := Sum(values) / |values| as real;
    var ssRes := SquaredResiduals(values, slope, intercept, 1);
    var ssTot := SquaredDeviation(values, meanY);
    SquaredResidualsNonNegative(values, slope, intercept, 1);
    SquaredDeviationNonNegative(values, meanY);
    Fit(slope, intercept, if ssTot == 0.0 then 0.0 else 1.0 - RatioNonNegative(ssRes, ssTot))
  }

  /** `a / b` for `a >= 0` and `b > 0`, which is never negative. */
  function RatioNonNegative(a: real, b: real): (q: real)
    requires a >= 0.0 && b > 0.0
    ensures q >= 0.0
  {
    a / b
  }

  lemma CastProduct(a: int, b: int)
    ensures (a * b) as real == (a as real) * (b as real)
  {
  }

  /** The two normal equations of least squares for the line
      `slope · x + intercept`, given `n`, `Σx`, `Σy`, `Σxy` and `Σx²`: the
      residuals sum to zero and are uncorrelated with the positions. */
  predicate NormalEquations(n: real, sx: real, sy: real, sxy: real, sxx: real, slope: real, intercept: real)
  {
    slope * sx + intercept * n == sy && slope * sxx + intercept * sx == sxy
  }

  /** The algebra behind the two normal equations, over plain variables. */
  lemma NormalEquationsAlgebra(n: real, sx: real, sy: real, sxy: real, sxx: real, slope: real, intercept: real)
    requires n > 0.0
    requires n * sxx - sx * sx > 0.0
    requires slope == SlopeOf(n, sx, sy, sxy, sxx)
    requires intercept == InterceptOf(n, sx, sy, slope)
    ensures NormalEquations(n, sx, sy, sxy, sxx, slope, intercept)
  {
    var d := n * sxx - sx * sx;
    assert slope * d == n * sxy - sx * sy;
    assert intercept * n == sy - slope * sx;
    calc {
      n * (slope * sxx + intercept * sx);
      slope * (n * sxx) + (intercept * n) * sx;
      slope * (n * sxx) + (sy - slope * sx) * sx;
      slope * (n * sxx - sx * sx) + sy * sx;
      slope * d + sy * sx;
      n * sxy;
    }
  }

  /** The fitted line passes through the point (mean position, mean value). */
  lemma TrendThroughMeans(values: seq<real>)
    requires |values| >= 2
    ensures
      var f := Trend(values);
      var n := |values| as real;
      f.slope * (SumPositions(|values|, 1) as real / n) + f.intercept == Sum(values) / n
  {
    MeanPointAlgebra(TrendSlope(values), TrendIntercept(values), SumPositions(|values|, 1) as real,
                     |values| as real, Sum(values));
  }

  lemma MeanPointAlgebra(slope: real, intercept: real, sx: real, n: real, sy: real)
    requires n > 0.0 && slope * sx + intercept * n == sy
    ensures slope * (sx / n) + intercept == sy / n
  {
    assert slope * (sx / n) == (slope * sx) / n;
  }

  /** A flat series is fitted by a flat line through its value, with `rSquared`
      set to the zero sentinel instead of dividing by a zero total variance. */
  lemma {:induction false} TrendOfConstant(values: seq<real>)
    requires |values| >= 2
    requires Constant(values)
    ensures Trend(values).slope == 0.0
    ensures Trend(values).intercept == values[0]
    ensures Trend(values).rSquared == 0.0
  {
    var c := values[0];
    var n := |values|;
    assert forall i :: 0 <= i < n ==> values[i] == c;
    TrendSlopeOfConstant(values, c);
    SumConstant(values, c);
    var sx := SumPositions(n, 1) as real;
    assert Trend(values).intercept == (Sum(values) - 0.0 * sx) / n as real;
    MeanConstant(values, c);
    ZeroDeviationOfConstant(values, c);
  }

  lemma {:induction false} TrendSlopeOfConstant(values: seq<real>, c: real)
    requires |values| >= 2
    requires forall i :: 0 <= i < |values| ==> values[i] == c
    ensures TrendSlope(values) == 0.0
  {
    var d := TrendDenominator(|values|);
    SumConstant(values, c);
    WeightedSumConstant(values, c, 1);
    FlatSlopeAlgebra(|values| as real, SumPositions(|values|, 1) as real,
                     SumSquaredPositions(|values|, 1) as real, c);
  }

  lemma FlatSlopeAlgebra(n: real, sx: real, sxx: real, c: real)
    requires n * sxx - sx * sx != 0.0
    ensures SlopeOf(n, sx, n * c, sx * c, sxx) == 0.0
  {
    assert n * (sx * c) - sx * (n * c) == 0.0;
  }

  /** A constant series has no squared deviation from its value. */
  lemma {:induction false} ZeroDeviationOfConstant(values: seq<real>, c: real)
    requires forall i :: 0 <= i < |values| ==> values[i] == c
    ensures SquaredDeviation(values, c) == 0.0
  {
    if |values| > 0 {
      ZeroDeviationOfConstant(values[..|values| - 1], c);
    }
  }

  // ---------------------------------------------------------------------------
  // Seasonality: values bucketed by position modulo 12

  /** Sum of the values whose position is `m` modulo 12. */
  function BucketSum(values: seq<real>, m: nat): real
  {
    if |values| == 0 then 0.0
    else BucketSum(values[..|values| - 1], m) + (if (|values| - 1) % 12 == m then values[|values| - 1] else 0.0)
  }

  /** Number of positions below `n` that are `m` modulo 12. */
  function BucketCount(n: nat, m: nat): nat
  {
    if n == 0 then 0 else BucketCount(n - 1, m) + (if (n - 1) % 12 == m then 1 else 0)
  }

  /** Per-bucket average minus the overall average, for a series of at least 12
      values; fewer than 12 values give no seasonality. Buckets are positional,
      not calendar months. */
  function Seasonality(values: seq<real>): (r: Option<seq<real>>)
    ensures r.None? <==> |values| < 12
    ensures r.Some? ==> |r.value| == 12
  {
    if |values| < 12 then None
    else
      var overall := Mean(values);
      Some(seq(12, m requires 0 <= m < 12 => BucketDeviation(values, m, overall)))
  }

  /** Average of bucket `m` minus `overall`, or 0 for an empty bucket: for
      each of the 12 buckets the positions reach, the mean of its residue
      class minus `overall`. */
  function BucketDeviation(values: seq<real>, m: nat, overall: real): (d: real)
    ensures BucketCount(|values|, m) == 0 ==> d == 0.0
    ensures m < 12 && m < |values| ==> |Residue(values, m)| > 0 && d == Mean(Residue(values, m)) - overall
  {
    var d := Deviation(BucketSum(values, m), BucketCount(|values|, m), overall);
    if m < 12 then BucketIsResidue(values, m); d else d
  }

  /** The average of `count` values adding up to `sum`, minus `overall`;
      0 when there are none. */
  function Deviation(sum: real, count: nat, overall: real): real
  {
    if count > 0 then sum / count as real - overall else 0.0
  }

  /** Every one of the 12 buckets receives at least one value once there are 12. */
  lemma {:induction false} BucketsOccupied(n: nat, m: nat)
    requires m < 12 && m < n
    ensures BucketCount(n, m) >= 1
  {
    if n - 1 != m {
      BucketsOccupied(n - 1, m);
    }
  }

  /** Sum of the first `k` bucket sums. */
  function BucketSums(values: seq<real>, k: nat): real
  {
    if k == 0 then 0.0 else BucketSums(values, k - 1) + BucketSum(values, k - 1)
  }

  /** Sum of the first `k` bucket counts. */
  function BucketCounts(n: nat, k: nat): nat
  {
    if k == 0 then 0 else BucketCounts(n, k - 1) + BucketCount(n, k - 1)
  }

  /** Appending one value adds it to exactly the bucket of its position. */
  lemma {:induction false} BucketSumsStep(values: seq<real>, k: nat)
    requires |values| > 0
    ensures BucketSums(values, k)
         == BucketSums(values[..|values| - 1], k) + (if (|values| - 1) % 12 < k then values[|values| - 1] else 0.0)
  {
    if k > 0 {
      BucketSumsStep(values, k - 1);
    }
  }

  lemma {:induction false} BucketCountsStep(n: nat, k: nat)
    requires n > 0
    ensures BucketCounts(n, k) == BucketCounts(n - 1, k) + (if (n - 1) % 12 < k then 1 else 0)
  {
    if k > 0 {
      BucketCountsStep(n, k - 1);
    }
  }

  lemma {:induction false} BucketSumsEmpty(values: seq<real>, k: nat)
    requires |values| == 0
    ensures BucketSums(values, k) == 0.0
  {
    if k > 0 {
      BucketSumsEmpty(values, k - 1);
    }
  }

  /** The 12 buckets partition the series: their sums add up to the total. */
  lemma {:induction false} BucketSumsTotal(values: seq<real>)
    ensures BucketSums(values, 12) == Sum(values)
  {
    if |values| > 0 {
      var n := |values|;
      assert (n - 1) % 12 < 12;
      BucketSumsStep(values, 12);
      BucketSumsTotal(values[..n - 1]);
      assert Sum(values) == Sum(values[..n - 1]) + values[n - 1];
    } else {
      BucketSumsEmpty(values, 12);
    }
  }

  /** The 12 bucket counts add up to the length of the series. */
  lemma {:induction false} BucketCountsTotal(n: nat)
    ensures BucketCounts(n, 12) == n
  {
    if n > 0 {
      BucketCountsStep(n, 12);
      BucketCountsTotal(n - 1);
    }
  }

  /** Sum over the first `k` buckets of count times deviation. */
  function WeightedDeviation(n: nat, dev: seq<real>, k: nat): real
    requires k <= |dev|
  {
    if k == 0 then 0.0 else WeightedDeviation(n, dev, k - 1) + BucketCount(n, k - 1) as real * dev[k - 1]
  }

  /** Bucket `m`'s count times its deviation is its sum minus its share of the mean. */
  predicate BucketBalanced(values: seq<real>, dev: seq<real>, overall: real, m: nat)
    requires m < |dev|
  {
    BucketCount(|values|, m) as real * dev[m] == BucketSum(values, m) - overall * BucketCount(|values|, m) as real
  }

  /** `overall` times the first `k` bucket counts, summed bucket by bucket. */
  function Share(n: nat, overall: real, k: nat): real
  {
    if k == 0 then 0.0 else Share(n, overall, k - 1) + overall * BucketCount(n, k - 1) as real
  }

  lemma {:induction false} ShareIsProduct(n: nat, overall: real, k: nat)
    ensures Share(n, overall, k) == overall * BucketCounts(n, k) as real
  {
    if k > 0 {
      ShareIsProduct(n, overall, k - 1);
      Distribute(overall, BucketCounts(n, k - 1) as real, BucketCount(n, k - 1) as real, BucketCounts(n, k) as real);
    } else {
      assert BucketCounts(n, k) as real == 0.0;
    }
  }

  lemma Distribute(x: real, a: real, b: real, ab: real)
    requires ab == a + b
    ensures x * ab == x * a + x * b
  {
  }

  /** Balanced buckets: the weighted deviations plus the overall mean's
      share add up to the bucket sums. */
  lemma {:induction false} WeightedDeviationSplit(values: seq<real>, dev: seq<real>, k: nat, overall: real)
    requires k <= |dev|
    requires forall m :: 0 <= m < |dev| ==> BucketBalanced(values, dev, overall, m)
    ensures WeightedDeviation(|values|, dev, k) + Share(|values|, overall, k) == BucketSums(values, k)
  {
    if k > 0 {
      WeightedDeviationSplit(values, dev, k - 1, overall);
      assert BucketBalanced(values, dev, overall, k - 1);
    }
  }

  /** Weighted by its count, a deviation is the sum minus the count's share
      of `overall`. */
  lemma DeviationWeighted(sum: real, count: nat, overall: real)
    requires count > 0
    ensures count as real * Deviation(sum, count, overall) == sum - overall * count as real
  {
    var c := count as real;
    assert c * (sum / c) == sum;
  }

  /** The values at the positions congruent to `m` modulo 12, in order. */
  function Residue(values: seq<real>, m: nat): (r: seq<real>)
    requires m < 12
  {
    var c := (|values| + 11 - m) / 12;
    seq(c, j requires 0 <= j < c => values[m + 12 * j])
  }

  /** Appending a value extends the residue class of its position and no other. */
  lemma ResidueStep(values: seq<real>, m: nat)
    requires m < 12 && |values| > 0
    ensures var n := |values|;
      Residue(values, m) == Residue(values[..n - 1], m) + (if (n - 1) % 12 == m then [values[n - 1]] else [])
  {
    var n := |values|;
    var a, b := Residue(values, m), Residue(values[..n - 1], m);
    var c, d := (n + 11 - m) / 12, (n + 10 - m) / 12;
    if (n - 1) % 12 == m {
      assert c == d + 1 && m + 12 * d == n - 1;
      assert a == b + [values[n - 1]];
    } else {
      assert c == d;
      assert a == b;
    }
  }

  /** Bucket `m` holds exactly the residue class of `m`: its sum and its count. */
  lemma {:induction false} BucketIsResidue(values: seq<real>, m: nat)
    requires m < 12
    ensures BucketSum(values, m) == Sum(Residue(values, m))
    ensures BucketCount(|values|, m) == |Residue(values, m)|
  {
    var n := |values|;
    if n > 0 {
      BucketIsResidue(values[..n - 1], m);
      ResidueStep(values, m);
      var tail := if (n - 1) % 12 == m then [values[n - 1]] else [];
      SumAppend(Residue(values[..n - 1], m), tail);
      assert Sum(tail) == if (n - 1) % 12 == m then values[n - 1] else 0.0 by {
        if |tail| == 1 {
          assert tail[..0] == [];
        }
      }
    } else {
      assert Residue(values, m) == [];
    }
  }


  /** Every bucket of the seasonality is balanced around the overall mean. */
  lemma BucketBalancedAt(values: seq<real>, m: nat)
    requires |values| >= 12 && m < 12
    ensures Seasonality(values).Some?
    ensures BucketBalanced(values, Seasonality(values).value, Mean(values), m)
  {
    BucketsOccupied(|values|, m);
    DeviationWeighted(BucketSum(values, m), BucketCount(|values|, m), Mean(values));
  }

  lemma BalanceAlgebra(w: real, overall: real, counts: real, sums: real, n: real)
    requires n != 0.0 && overall == sums / n
    requires w + overall * counts == sums && counts == n
    ensures w == 0.0
  {
  }

  /** The deviations are balanced: weighted by bucket size they sum to zero. */
  lemma SeasonalityBalanced(values: seq<real>)
    requires |values| >= 12
    ensures Seasonality(values).Some?
    ensures WeightedDeviation(|values|, Seasonality(values).value, |Seasonality(values).value|) == 0.0
  {
    var dev := Seasonality(values).value;
    var overall := Mean(values);
    forall m | 0 <= m < 12
      ensures BucketBalanced(values, dev, overall, m)
    {
      BucketBalancedAt(values, m);
    }
    WeightedDeviationSplit(values, dev, 12, overall);
    ShareIsProduct(|values|, overall, 12);
    BucketSumsTotal(values);
    BucketCountsTotal(|values|);
    BalanceAlgebra(WeightedDeviation(|values|, dev, 12), overall, BucketCounts(|values|, 12) as real,
                   BucketSums(values, 12), |values| as real);
  }

  /** Each bucket of a constant series sums to the constant times its size. */
  lemma {:induction false} BucketSumOfConstant(values: seq<real>, m: nat, c: real)
    requires forall i :: 0 <= i < |values| ==> values[i] == c
    ensures BucketSum(values, m) == c * BucketCount(|values|, m) as real
  {
    if |values| > 0 {
      BucketSumOfConstant(values[..|values| - 1], m, c);
    }
  }

  /** `count` copies of `c` deviate from `c` by nothing. */
  lemma DeviationOfConstant(sum: real, count: nat, c: real)
    requires count > 0 && sum == c * count as real
    ensures Deviation(sum, count, c) == 0.0
  {
  }

  /** A constant series has no seasonality: every deviation is zero. */
  lemma SeasonalityOfConstant(values: seq<real>, c: real)
    requires |values| >= 12
    requires forall i :: 0 <= i < |values| ==> values[i] == c
    ensures Seasonality(values).Some?
    ensures forall m :: 0 <= m < 12 ==> Seasonality(values).value[m] == 0.0
  {
    var dev := Seasonality(values).value;
    MeanConstant(values, c);
    forall m | 0 <= m < 12
      ensures dev[m] == 0.0
    {
      BucketsOccupied(|values|, m);
      BucketSumOfConstant(values, m, c);
      DeviationOfConstant(BucketSum(values, m), BucketCount(|values|, m), c);
    }
  }

  // ---------------------------------------------------------------------------
  // Growth rate

  /** Simplified growth: the relative change from first to last value divided
      again by the number of values; 0 for fewer than two values or a zero
      first value. */
  function GrowthRate(values: seq<real>): (g: real)
    ensures |values| < 2 || values[0] == 0.0 ==> g == 0.0
    ensures |values| >= 2 && values[0] != 0.0 ==>
      g * values[0] * |values| as real == values[|values| - 1] - values[0]
  {
    if |values| < 2 then 0.0
    else
      var first := values[0];
      var last := values[|values| - 1];
      if first == 0.0 then 0.0 else (last - first) / first / |values| as real
  }

  /** With a positive first value, the growth rate has the sign of last − first. */
  lemma GrowthRateSign(values: seq<real>)
    requires |values| >= 2 && values[0] > 0.0
    ensures GrowthRate(values) > 0.0 <==> values[|values| - 1] > values[0]
    ensures GrowthRate(values) < 0.0 <==> values[|values| - 1] < values[0]
    ensures GrowthRate(values) == 0.0 <==> values[|values| - 1] == values[0]
  {
    var g := GrowthRate(values);
    var k := values[0] * |values| as real;
    assert k > 0.0;
    assert g * k == values[|values| - 1] - values[0];
    if g > 0.0 {
      assert g * k > 0.0;
    } else if g < 0.0 {
      assert (-g) * k > 0.0;
    }
  }

  // ---------------------------------------------------------------------------
  // Forecast confidence

  /** Heuristic confidence of the forecast `period` steps ahead: 85, minus 2 per
      step beyond the first, minus 10 below 12 data points and another 15
      below 6, minus 10 when volatility exceeds 30% of the last value, clamped
      to [50, 95]. */
  function Confidence(volatility: real, lastValue: real, period: int, dataLength: nat): (c: int)
    ensures 50 <= c <= 95
    ensures period >= 1 ==> c <= 85
  {
    var base := 85 - (period - 1) * 2;
    var sparse := if dataLength < 12 then 10 else 0;
    var scarce := if dataLength < 6 then 15 else 0;
    var volatile := if volatility > lastValue * 0.3 then 10 else 0;
    Clamp(base - sparse - scarce - volatile, 50, 95)
  }

  /** `x` limited to the range `[lo, hi]`. */
  function Clamp(x: int, lo: int, hi: int): (r: int)
    requires lo <= hi
    ensures lo <= r <= hi
    ensures lo <= x <= hi ==> r == x
    ensures x < lo ==> r == lo
    ensures x > hi ==> r == hi
  {
    if x < lo then lo else if x > hi then hi else x
  }

  /** Confidence never rises with the forecast distance. */
  lemma ConfidenceNonIncreasing(volatility: real, lastValue: real, p: int, q: int, dataLength: nat)
    requires p <= q
    ensures Confidence(volatility, lastValue, q, dataLength) <= Confidence(volatility, lastValue, p, dataLength)
  {
  }

  /** More history never lowers confidence. */
  lemma ConfidenceMoreData(volatility: real, lastValue: real, period: int, m: nat, n: nat)
    requires m <= n
    ensures Confidence(volatility, lastValue, period, m) <= Confidence(volatility, lastValue, period, n)
  {
  }

  /** With a year of calm history the confidence drops exactly 2 points per
      period, until it meets the floor of 50. */
  lemma ConfidenceCalm(volatility: real, lastValue: real, period: int, dataLength: nat)
    requires dataLength >= 12 && volatility <= lastValue * 0.3
    requires 1 <= period <= 18
    ensures Confidence(volatility, lastValue, period, dataLength) == 87 - 2 * period
  {
  }

  // ---------------------------------------------------------------------------
  // Percentage change label

  /** The change label of a prediction. `Percent` carries the exact percentage
      that the source prints with one decimal and a '+' when non-negative;
      the other tags stand for the fixed labels '+100%', '0%' and '+4.3%'. */
  datatype Change = Percent(value: real) | PlusHundred | NoChange | DefaultUplift

  /** Relative change from `oldValue` to `newValue` in percent; from a zero
      base the label is '+100%' for a rise and '0%' otherwise. */
  function PercentChange(oldValue: real, newValue: real): (c: Change)
    ensures oldValue == 0.0 ==> (c == PlusHundred <==> newValue > 0.0)
    ensures oldValue == 0.0 ==> (c == NoChange <==> newValue <= 0.0)
    ensures oldValue != 0.0 ==> c.Percent?
  {
    if oldValue == 0.0 then (if newValue > 0.0 then PlusHundred else NoChange)
    else Percent((newValue - oldValue) / oldValue * 100.0)
  }

  /** The percentage recovers the new value: applying it to the old value
      gives the new one back. */
  lemma PercentChangeInverse(oldValue: real, newValue: real)
    requires oldValue != 0.0
    ensures oldValue + oldValue * PercentChange(oldValue, newValue).value / 100.0 == newValue
  {
    var p := (newValue - oldValue) / oldValue * 100.0;
    assert p * oldValue == (newValue - oldValue) * 100.0;
  }

  /** From a positive base the label carries a '+' exactly when the value did not fall. */
  lemma PercentChangeSign(oldValue: real, newValue: real)
    requires oldValue > 0.0
    ensures PercentChange(oldValue, newValue).value >= 0.0 <==> newValue >= oldValue
  {
    var p := PercentChange(oldValue, newValue).value;
    PercentChangeInverse(oldValue, newValue);
    assert oldValue * p / 100.0 == newValue - oldValue;
    if p < 0.0 {
      assert oldValue * (-p) > 0.0;
    } else {
      assert oldValue * p >= 0.0;
    }
  }
}
