/** The time-series analysis every forecast starts from
    (`analyzeTimeSeries` in Revenue/backend/services/mlService.js): raw
    records are reduced to amounts, and a series of at least four amounts is
    summarised by its trend, seasonality, volatility, moving averages, last
    value and growth rate. */
module Analysis {
  import opened Wrappers
  import opened Sums
  import opened Stats

  /** A history record: the amount under `amount` or, for chart-shaped data,
      under `y`. A missing field is 0, which JavaScript's `||` treats exactly
      like an absent one. */
  datatype Point = Point(amount: real, y: real)

  /** The value of a record: `amount`, else `y`, else 0. */
  function ValueOf(p: Point): (v: real)
    ensures p.amount != 0.0 ==> v == p.amount
    ensures p.amount == 0.0 ==> v == p.y
  {
    if p.amount != 0.0 then p.amount else p.y
  }

  /** The values of a history, in order. */
  function Values(data: seq<Point>): (r: seq<real>)
    ensures |r| == |data|
    ensures forall i :: 0 <= i < |data| ==> r[i] == ValueOf(data[i])
  {
    if |data| == 0 then [] else Values(data[..|data| - 1]) + [ValueOf(data[|data| - 1])]
  }

  /** Everything the forecasting strategies read from a history. */
  datatype SeriesAnalysis = SeriesAnalysis(
    trend: Fit,
    seasonality: Option<seq<real>>,
    volatility: real,
    ma3: seq<real>,
    ma7: seq<real>,
    lastValue: real,
    growthRate: real)

  /** Summary of a history of at least four records, or `None` for a shorter
      one. `volatility` is the standard deviation of the period-over-period
      returns, which needs a square root; it is supplied by the caller. */
  function Analyze(data: seq<Point>, volatility: real): (r: Option<SeriesAnalysis>)
    ensures r.None? <==> |data| < 4
    ensures r.Some? ==> r.value.lastValue == ValueOf(data[|data| - 1])
    ensures r.Some? ==> r.value.volatility == volatility
    ensures r.Some? ==> (r.value.seasonality.Some? <==> |data| >= 12)
    ensures r.Some? ==> r.value.seasonality.Some? ==> |r.value.seasonality.value| == 12
    ensures r.Some? ==> |r.value.ma3| == |data| - 2
    ensures r.Some? ==> |r.value.ma7| == if |data| < 7 then |data| else |data| - 6
    ensures r.Some? ==> r.value.trend.rSquared <= 1.0
    ensures r.Some? ==> r.value.trend == Trend(Values(data)) && r.value.growthRate == GrowthRate(Values(data))
  {
    if |data| < 4 then None
    else
      var values := Values(data);
      Some(SeriesAnalysis(
        Trend(values),
        if |values| >= 12 then Seasonality(values) else None,
        volatility,
        MovingAverage(values, 3),
        MovingAverage(values, 7),
        values[|values| - 1],
        GrowthRate(values)))
  }

  /** The analysis of a history is built from the history's values alone:
      two histories with the same values analyse identically. */
  lemma AnalyzeDependsOnValues(a: seq<Point>, b: seq<Point>, volatility: real)
    requires Values(a) == Values(b)
    ensures Analyze(a, volatility) == Analyze(b, volatility)
  {
    assert |a| == |Values(a)| == |Values(b)| == |b|;
    if |a| >= 4 {
      assert ValueOf(a[|a| - 1]) == Values(a)[|a| - 1] == Values(b)[|b| - 1] == ValueOf(b[|b| - 1]);
    }
  }
}
