/** The revenue dashboard of `getRevenueAnalytics` in
    Revenue/backend/controllers/revenueController.js: the confirmed records of
    the selected period grouped by month (keys in first-seen order, which is
    date order because the records arrive sorted by date), the six-month
    prediction of `predictRevenue` over the monthly totals, the breakdown by
    category with 'General' for a record without one, and the KPIs. The
    period's date window and the database query are outside the model: the
    records are the query's result, each carrying its `YYYY-MM` month key. */
module Analytics {
  import opened Wrappers
  import opened Sums
  import opened Grouping
  import Forecast
  import Legacy

  /** A confirmed revenue record of the period. */
  datatype Record = Record(month: string, category: Option<string>, amount: real)

  datatype Kpis = Kpis(
    totalRevenue: real,
    avgMonthlyRevenue: int,
    growthRate: Option<real>,
    totalTransactions: nat)

  /** The response. A month of `historical` is its key, its revenue and its
      number of records; a slice of `categoryBreakdown` is a name and a value.
      `predictions` is `None` where the source's numbers are not finite. */
  datatype Report = Report(
    historical: seq<Group<string>>,
    predictions: Option<seq<real>>,
    categoryBreakdown: seq<Entry<string>>,
    kpis: Kpis)

  /** `item.category || 'General'`: a missing or empty category is 'General'. */
  function CategoryName(c: Option<string>): (name: string)
    ensures name != ""
    ensures c.Some? && c.value != "" ==> name == c.value
    ensures (c.None? || c.value == "") ==> name == "General"
  {
    match c
    case Some(s) => if s == "" then "General" else s
    case None => "General"
  }

  /** The records keyed by month. */
  function MonthEntries(rs: seq<Record>): (es: seq<Entry<string>>)
    ensures |es| == |rs|
    ensures forall i :: 0 <= i < |rs| ==> es[i] == Entry(rs[i].month, rs[i].amount)
  {
    if |rs| == 0 then []
    else MonthEntries(rs[..|rs| - 1]) + [Entry(rs[|rs| - 1].month, rs[|rs| - 1].amount)]
  }

  /** The records keyed by category name. */
  function CategoryEntries(rs: seq<Record>): (es: seq<Entry<string>>)
    ensures |es| == |rs|
    ensures forall i :: 0 <= i < |rs| ==> es[i] == Entry(CategoryName(rs[i].category), rs[i].amount)
  {
    if |rs| == 0 then []
    else CategoryEntries(rs[..|rs| - 1]) + [Entry(CategoryName(rs[|rs| - 1].category), rs[|rs| - 1].amount)]
  }

  /** The group totals in order: `chartData.map(item => item.revenue)`. */
  function GroupTotals(gs: seq<Group<string>>): (r: seq<real>)
    ensures |r| == |gs|
    ensures forall i :: 0 <= i < |gs| ==> r[i] == gs[i].total
    ensures Sum(r) == Totals(gs)
  {
    if |gs| == 0 then []
    else
      var r := GroupTotals(gs[..|gs| - 1]) + [gs[|gs| - 1].total];
      assert r[..|r| - 1] == GroupTotals(gs[..|gs| - 1]);
      r
  }

  /** `Object.entries(categoryBreakdown).map(([name, value]) => …)`. */
  function Slices(gs: seq<Group<string>>): (r: seq<Entry<string>>)
    ensures |r| == |gs|
    ensures forall i :: 0 <= i < |gs| ==> r[i] == Entry(gs[i].key, gs[i].total)
    ensures EntryAmounts(r) == GroupTotals(gs)
  {
    var r := seq(|gs|, i requires 0 <= i < |gs| => Entry(gs[i].key, gs[i].total));
    assert forall i :: 0 <= i < |gs| ==> EntryAmounts(r)[i] == GroupTotals(gs)[i];
    r
  }

  /** Month-over-period growth in percent, rounded to hundredths: 0 with
      fewer than two months; `None` when the first month earned nothing,
      where the source divides by zero. */
  function Growth(months: seq<Group<string>>): (g: Option<real>)
    ensures g.None? <==> |months| >= 2 && months[0].total == 0.0
    ensures |months| < 2 ==> g == Some(0.0)
    ensures g.Some? && |months| >= 2 ==>
      var exact := (months[|months| - 1].total - months[0].total) / months[0].total * 100.0;
      exact - 0.005 < g.value <= exact + 0.005 && g.value * 100.0 == (g.value * 100.0).Floor as real
  {
    if |months| < 2 then Some(0.0)
    else if months[0].total == 0.0 then None
    else
      var exact := (months[|months| - 1].total - months[0].total) / months[0].total * 100.0;
      var n := Forecast.RoundHalfUp(exact * 100.0);
      Some(n as real / 100.0)
  }

  function Max1(n: nat): (m: nat)
    ensures m >= 1 && m >= n
  {
    if n < 1 then 1 else n
  }

  /** The months of the period: one group per month key in first-seen
      order; their revenues add up to the records' total and their counts to
      the number of records. */
  function Monthly(records: seq<Record>): (hs: seq<Group<string>>)
    ensures DistinctKeys(hs)
    ensures Totals(hs) == Sum(EntryAmounts(MonthEntries(records)))
    ensures Counts(hs) == |records|
    ensures |hs| <= |records|
  {
    var es := MonthEntries(records);
    GroupByDistinct(es);
    GroupByTotals(es);
    GroupBy(es)
  }

  /** Each month holds the sum and the number of that month's records, and
      at least one record falls in it. */
  lemma MonthlyContents(records: seq<Record>, i: nat)
    requires i < |Monthly(records)|
    ensures var h := Monthly(records)[i];
      h.total == SumFor(MonthEntries(records), h.key) &&
      h.count == CountFor(MonthEntries(records), h.key) &&
      exists j :: 0 <= j < |records| && records[j].month == h.key
  {
    var es := MonthEntries(records);
    assert Monthly(records) == GroupBy(es);
    GroupByAt(es, i);
    var j :| 0 <= j < |es| && es[j].key == GroupBy(es)[i].key;
    assert records[j].month == es[j].key;
  }

  /** Every record's month is one of the months. */
  lemma MonthlyCovers(records: seq<Record>, j: nat)
    requires j < |records|
    ensures Find(Monthly(records), records[j].month) >= 0
  {
    var es := MonthEntries(records);
    assert Monthly(records) == GroupBy(es);
    GroupByHas(es, j);
    assert es[j].key == records[j].month;
  }

  /** The category breakdown: one slice per category name in first-seen
      order; the values add up to the records' total. */
  function Breakdown(records: seq<Record>): (cs: seq<Entry<string>>)
    ensures forall i, j :: 0 <= i < j < |cs| ==> cs[i].key != cs[j].key
    ensures Sum(EntryAmounts(cs)) == Sum(EntryAmounts(CategoryEntries(records)))
    ensures |cs| <= |records|
  {
    var es := CategoryEntries(records);
    GroupByDistinct(es);
    GroupByTotals(es);
    Slices(GroupBy(es))
  }

  /** Each slice holds the sum of its category's records, and its name is
      never the empty string. */
  lemma BreakdownContents(records: seq<Record>, i: nat)
    requires i < |Breakdown(records)|
    ensures var c := Breakdown(records)[i];
      c.key != "" && c.amount == SumFor(CategoryEntries(records), c.key)
  {
    var es := CategoryEntries(records);
    var gs := GroupBy(es);
    assert Breakdown(records) == Slices(gs);
    GroupByAt(es, i);
    CategoryKeysNamed(records, gs[i].key);
  }

  /** Every key of the category entries is a non-empty name. */
  lemma CategoryKeysNamed(records: seq<Record>, k: string)
    requires Occurs(CategoryEntries(records), k)
    ensures k != ""
  {
    var es := CategoryEntries(records);
    var j :| 0 <= j < |es| && es[j].key == k;
    assert k == CategoryName(records[j].category);
  }

  /** Every record's category name has a slice. */
  lemma BreakdownCovers(records: seq<Record>, j: nat)
    requires j < |records|
    ensures exists i :: 0 <= i < |Breakdown(records)| && Breakdown(records)[i].key == CategoryName(records[j].category)
  {
    var es := CategoryEntries(records);
    var gs := GroupBy(es);
    assert Breakdown(records) == Slices(gs);
    GroupByHas(es, j);
    assert es[j].key == CategoryName(records[j].category);
    var i := Find(gs, es[j].key);
    assert Breakdown(records)[i].key == gs[i].key;
  }

  /** The six-month prediction over the monthly revenues. It is `None` when
      there is no month, or when three or more months end with one that
      earned nothing and the slope does not run against the recent mean;
      when it does, the predictions are all zero. */
  function Predictions(months: seq<Group<string>>, draws: seq<real>): (p: Option<seq<real>>)
    requires |draws| == 6
    ensures p.Some? ==> |p.value| == 6
    ensures var values := GroupTotals(months);
      p.None? <==> (|months| == 0 || (|months| >= 3 && months[|months| - 1].total == 0.0 &&
                                      Legacy.LegacyTrend(values) * Legacy.RecentMean(values) >= 0.0))
    ensures var values := GroupTotals(months);
      |months| >= 3 && months[|months| - 1].total == 0.0 &&
      Legacy.LegacyTrend(values) * Legacy.RecentMean(values) < 0.0 ==>
        p.Some? && forall k :: 0 <= k < 6 ==> p.value[k] == 0.0
  {
    var values := GroupTotals(months);
    assert |values| >= 3 ==> Legacy.Last(values) == months[|months| - 1].total;
    Legacy.PredictRevenue(values, 6, draws)
  }

  /** The KPIs: the total revenue, the average month rounded half up, the
      growth and the number of records. */
  function Indicators(records: seq<Record>, months: seq<Group<string>>): (k: Kpis)
    ensures k.totalTransactions == |records|
    ensures k.totalRevenue == Sum(EntryAmounts(MonthEntries(records)))
    ensures k.growthRate == Growth(months)
    ensures var mean := k.totalRevenue / Max1(|months|) as real;
      mean - 0.5 < k.avgMonthlyRevenue as real <= mean + 0.5
  {
    var total := Sum(EntryAmounts(MonthEntries(records)));
    Kpis(total, Forecast.RoundHalfUp(total / Max1(|months|) as real), Growth(months), |records|)
  }

  /** `getRevenueAnalytics` over the period's records; `draws` are the six
      random numbers `predictRevenue` consumes. */
  function RevenueAnalytics(records: seq<Record>, draws: seq<real>): (r: Report)
    requires |draws| == 6
    ensures r.historical == Monthly(records) && r.categoryBreakdown == Breakdown(records)
    ensures r.predictions == Predictions(r.historical, draws)
    ensures r.kpis == Indicators(records, r.historical)
  {
    var months := Monthly(records);
    Report(months, Predictions(months, draws), Breakdown(records), Indicators(records, months))
  }

  /** The monthly revenues and the category values both add up to the total
      revenue, the monthly counts add up to the number of records, and there
      is a month exactly when there is a record. */
  lemma AnalyticsTotals(records: seq<Record>, draws: seq<real>)
    requires |draws| == 6
    ensures var r := RevenueAnalytics(records, draws);
      Totals(r.historical) == r.kpis.totalRevenue &&
      Sum(EntryAmounts(r.categoryBreakdown)) == r.kpis.totalRevenue &&
      Counts(r.historical) == r.kpis.totalTransactions &&
      (|r.historical| > 0 <==> |records| > 0)
  {
    var r := RevenueAnalytics(records, draws);
    assert EntryAmounts(MonthEntries(records)) == EntryAmounts(CategoryEntries(records));
    assert |r.historical| == 0 ==> Counts(r.historical) == 0;
  }

  /** Record amounts are non-negative by the schema, so the total revenue and
      the monthly average are too. */
  lemma NonNegativeKpis(records: seq<Record>, months: seq<Group<string>>)
    requires forall i :: 0 <= i < |records| ==> records[i].amount >= 0.0
    ensures Indicators(records, months).totalRevenue >= 0.0
    ensures Indicators(records, months).avgMonthlyRevenue >= 0
  {
    var amounts := EntryAmounts(MonthEntries(records));
    assert NonNegative(amounts);
    NonNegativeSum(amounts);
    var total := Sum(amounts);
    assert total / Max1(|months|) as real >= 0.0;
  }

  /** A last month above a paying first month gives non-negative growth, and
      a last month below it negative or zero growth. */
  lemma GrowthSign(months: seq<Group<string>>)
    requires |months| >= 2 && months[0].total > 0.0
    ensures months[|months| - 1].total >= months[0].total ==> Growth(months).value >= 0.0
    ensures months[|months| - 1].total <= months[0].total ==> Growth(months).value <= 0.0
  {
    var first, last := months[0].total, months[|months| - 1].total;
    var exact := (last - first) / first * 100.0;
    assert last >= first ==> exact >= 0.0;
    assert last <= first ==> exact <= 0.0;
  }
}
