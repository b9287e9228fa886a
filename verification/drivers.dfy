/** The key revenue drivers of `identifyKeyDrivers` in
    Revenue/backend/services/mlService.js: growth momentum, seasonal
    patterns, revenue volatility and client retention, each reported when
    the analysed history (or the retention rate) shows it, with a fixed
    fallback list when nothing is detected. Icons and descriptions are fixed
    texts and are represented by the driver's factor. */
module Drivers {
  import opened Wrappers
  import opened Stats
  import opened Analysis

  datatype Factor = GrowthMomentum | SeasonalPatterns | RevenueVolatility | ClientRetention

  datatype Level = High | Medium

  datatype Driver = Driver(factor: Factor, impact: Level, confidence: Level)

  /** The position of a factor in the order the drivers are checked. */
  function Rank(f: Factor): nat
  {
    match f
    case GrowthMomentum => 0
    case SeasonalPatterns => 1
    case RevenueVolatility => 2
    case ClientRetention => 3
  }

  /** The factors of a driver list appear in checking order, so none repeats. */
  predicate Ordered(ds: seq<Driver>)
  {
    forall i, j :: 0 <= i < j < |ds| ==> Rank(ds[i].factor) < Rank(ds[j].factor)
  }

  /** Some driver of the list has factor `f`. */
  predicate Has(ds: seq<Driver>, f: Factor)
  {
    exists k :: 0 <= k < |ds| && ds[k].factor == f
  }

  /** The drivers reported when no history of four records is available or
      when none is detected. */
  function DefaultDrivers(): (r: seq<Driver>)
    ensures |r| == 3 && Ordered(r)
    ensures !Has(r, RevenueVolatility)
  {
    [Driver(GrowthMomentum, High, High), Driver(SeasonalPatterns, Medium, Medium), Driver(ClientRetention, High, High)]
  }

  /** The impact and confidence a detected driver carries: growth has high
      impact and high confidence exactly when the fit explains over 70% of
      the variance; seasonality has medium impact; the rest are high. */
  predicate Rated(a: SeriesAnalysis, d: Driver)
  {
    match d.factor
    case GrowthMomentum => d.impact == High && (d.confidence == High <==> a.trend.rSquared > 0.7)
    case SeasonalPatterns => d.impact == Medium && d.confidence == High
    case RevenueVolatility => d.impact == High && d.confidence == High
    case ClientRetention => d.impact == High && d.confidence == High
  }

  /** `drivers.push(d)` when `c` holds; `d` ranks after everything already
      there, and every driver is rated as analysis `a` demands. */
  function PushIf(a: SeriesAnalysis, ds: seq<Driver>, c: bool, d: Driver): (r: seq<Driver>)
    requires Ordered(ds) && Rated(a, d)
    requires forall k :: 0 <= k < |ds| ==> Rank(ds[k].factor) < Rank(d.factor) && Rated(a, ds[k])
    ensures Ordered(r)
    ensures forall k :: 0 <= k < |r| ==> Rank(r[k].factor) <= Rank(d.factor) && Rated(a, r[k])
    ensures forall f :: Has(r, f) <==> Has(ds, f) || (c && d.factor == f)
    ensures |r| == |ds| + (if c then 1 else 0)
  {
    if c then
      var r := ds + [d];
      assert forall f :: Has(ds, f) ==> Has(r, f) by {
        forall f | Has(ds, f) ensures Has(r, f) {
          var k :| 0 <= k < |ds| && ds[k].factor == f;
          assert r[k] == ds[k];
        }
      }
      assert r[|ds|] == d;
      r
    else ds
  }

  /** The condition under which a factor is reported: a rising trend, a
      seasonality, a volatility above 20% of the last value, a retention
      rate above 80%. */
  predicate Shows(a: SeriesAnalysis, retention: real, f: Factor)
  {
    match f
    case GrowthMomentum => a.trend.slope > 0.0
    case SeasonalPatterns => a.seasonality.Some?
    case RevenueVolatility => a.volatility > a.lastValue * 0.2
    case ClientRetention => retention > 0.8
  }

  /** The drivers an analysis shows, given the client retention rate, in the
      order they are checked. */
  function Detected(a: SeriesAnalysis, retention: real): (r: seq<Driver>)
    ensures Ordered(r) && |r| <= 4
    ensures forall f :: Has(r, f) <==> Shows(a, retention, f)
    ensures forall k :: 0 <= k < |r| ==> Rated(a, r[k])
  {
    var r2 := TrendDrivers(a, retention);
    var r3 := PushIf(a, r2, a.volatility > a.lastValue * 0.2, Driver(RevenueVolatility, High, High));
    PushIf(a, r3, retention > 0.8, Driver(ClientRetention, High, High))
  }

  /** The first two checks: growth momentum and seasonal patterns. */
  function TrendDrivers(a: SeriesAnalysis, retention: real): (r: seq<Driver>)
    ensures Ordered(r)
    ensures forall k :: 0 <= k < |r| ==> Rank(r[k].factor) <= 1 && Rated(a, r[k])
    ensures forall f :: Has(r, f) <==> Rank(f) <= 1 && Shows(a, retention, f)
    ensures |r| <= 2
  {
    var r1 := PushIf(a, [], a.trend.slope > 0.0,
      Driver(GrowthMomentum, High, if a.trend.rSquared > 0.7 then High else Medium));
    PushIf(a, r1, a.seasonality.Some?, Driver(SeasonalPatterns, Medium, High))
  }

  /** `identifyKeyDrivers`: the detected drivers of the history's analysis,
      or the default list when the history is too short or nothing is
      detected. `volatility` is the volatility of the history and
      `retention` the client retention rate. */
  function KeyDrivers(history: seq<Point>, volatility: real, retention: real): (r: seq<Driver>)
    ensures 1 <= |r| <= 4 && Ordered(r)
    ensures |history| < 4 ==> r == DefaultDrivers()
    ensures |history| >= 4 ==>
      var a := Analyze(history, volatility).value;
      r == (if Detected(a, retention) == [] then DefaultDrivers() else Detected(a, retention))
  {
    match Analyze(history, volatility)
    case None => DefaultDrivers()
    case Some(a) =>
      var ds := Detected(a, retention);
      if |ds| > 0 then ds else DefaultDrivers()
  }

  /** The rate `analyzeClientRetention` reports: 0.8 when no record names a
      client, the fixed 0.85 otherwise. */
  function RetentionRate(uniqueClients: nat): (rate: real)
    ensures rate > 0.8 <==> uniqueClients > 0
  {
    if uniqueClients == 0 then 0.8 else 0.85
  }

  /** With a retention rate above 80% the retention driver is always
      reported, so the default list never replaces the detected one. */
  lemma {:induction false} RetentionAlwaysReported(history: seq<Point>, volatility: real, uniqueClients: nat)
    requires |history| >= 4 && uniqueClients > 0
    ensures Has(KeyDrivers(history, volatility, RetentionRate(uniqueClients)), ClientRetention)
    ensures KeyDrivers(history, volatility, RetentionRate(uniqueClients))
         == Detected(Analyze(history, volatility).value, RetentionRate(uniqueClients))
  {
    var a := Analyze(history, volatility).value;
    var r := Detected(a, RetentionRate(uniqueClients));
    assert Has(r, ClientRetention);
  }

  /** A falling, calm, short history with no clients falls back to the
      default list. */
  lemma {:induction false} FallbackWhenNothingDetected(history: seq<Point>, volatility: real)
    requires 4 <= |history| < 12
    requires TrendSlope(Values(history)) <= 0.0
    requires volatility <= ValueOf(history[|history| - 1]) * 0.2
    ensures KeyDrivers(history, volatility, RetentionRate(0)) == DefaultDrivers()
  {
    var a := Analyze(history, volatility).value;
    var r := Detected(a, RetentionRate(0));
    if |r| > 0 {
      assert Has(r, r[0].factor);
    }
  }
}
