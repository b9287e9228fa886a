/** The spending insight of `spendingInsight` in
    Revenue/backend/controllers/predictionController.js: expenses are totalled
    and grouped by category (a missing or empty category counts as
    'Uncategorized'), the largest category is named, exactly one budget
    status sentence is chosen, and the categories holding more than 30% of
    the total are flagged. Sentences are represented by tags carrying the
    figures they print. */
module Spending {
  import opened Wrappers
  import opened Sums
  import opened Grouping

  /** An expense of the request body: a missing category is the empty
      string and a missing amount is 0, both falsy like the absent field. */
  datatype Expense = Expense(category: string, amount: real)

  datatype Status = Exceeded | Approaching | WellBelow | Healthy

  datatype Sentence =
    | TotalSpent(total: real)
    | HighestSpending(category: string, amount: real)
    | BudgetStatus(status: Status)
    | Concentration(categories: seq<string>)

  datatype Insight = Insight(
    sentences: seq<Sentence>,
    total: real,
    overLimit: bool,
    breakdown: seq<Group<string>>,
    topCategory: Option<Group<string>>)

  /** The request ends in the handler's error response (HTTP 500). */
  datatype Failure = InsightFailed

  /** The category an expense is counted under. */
  function CategoryOf(e: Expense): (c: string)
    ensures e.category != "" ==> c == e.category
    ensures e.category == "" ==> c == "Uncategorized"
  {
    if e.category != "" then e.category else "Uncategorized"
  }

  function Entries(expenses: seq<Expense>): (r: seq<Entry<string>>)
    ensures |r| == |expenses|
    ensures forall i :: 0 <= i < |expenses| ==> r[i] == Entry(CategoryOf(expenses[i]), expenses[i].amount)
  {
    if |expenses| == 0 then []
    else Entries(expenses[..|expenses| - 1]) + [Entry(CategoryOf(expenses[|expenses| - 1]), expenses[|expenses| - 1].amount)]
  }

  /** The budget sentence: over the limit, else above 80% of it, else below
      half of it, else healthy. */
  function StatusOf(total: real, limit: real): (s: Status)
    ensures s == Exceeded <==> total > limit
    ensures s == Approaching <==> limit * 0.8 < total <= limit
    ensures s == WellBelow <==> total <= limit * 0.8 && total <= limit && total < limit * 0.5
    ensures s == Healthy <==> total <= limit && total <= limit * 0.8 && total >= limit * 0.5
  {
    if total > limit then Exceeded
    else if total > limit * 0.8 then Approaching
    else if total < limit * 0.5 then WellBelow
    else Healthy
  }

  /** The groups holding more than 30% of the total, in breakdown order. */
  function Concentrated(gs: seq<Group<string>>, total: real): (r: seq<Group<string>>)
    ensures |r| <= |gs|
    ensures forall i :: 0 <= i < |r| ==> r[i].total > total * 0.3
  {
    if |gs| == 0 then []
    else
      var g := gs[|gs| - 1];
      Concentrated(gs[..|gs| - 1], total) + (if g.total > total * 0.3 then [g] else [])
  }

  /** A group is flagged exactly when it holds more than 30% of the total. */
  lemma {:induction false} ConcentratedMembers(gs: seq<Group<string>>, total: real)
    ensures forall g :: g in Concentrated(gs, total) <==> g in gs && g.total > total * 0.3
  {
    if |gs| > 0 {
      var n := |gs| - 1;
      ConcentratedMembers(gs[..n], total);
      assert gs == gs[..n] + [gs[n]];
    }
  }

  /** The concentration sentence, present when some category is flagged. */
  function ConcentrationSentence(gs: seq<Group<string>>, total: real): (r: seq<Sentence>)
    ensures |r| <= 1
    ensures |r| == 1 <==> exists g :: g in gs && g.total > total * 0.3
    ensures |r| == 1 ==> r[0] == Concentration(Keys(Concentrated(gs, total)))
  {
    var flagged := Concentrated(gs, total);
    ConcentratedMembers(gs, total);
    if |flagged| > 0 then
      assert flagged[0] in flagged;
      [Concentration(Keys(flagged))]
    else []
  }

  /** The largest category of a breakdown (the head of the stable
      descending sort), if there is any. */
  function TopCategory(breakdown: seq<Group<string>>): (top: Option<Group<string>>)
    ensures top.Some? <==> |breakdown| > 0
    ensures top.Some? ==> top.value == breakdown[FirstMax(breakdown)]
  {
    if |breakdown| > 0 then
      SortDescHead(breakdown);
      Some(SortDesc(breakdown)[0])
    else None
  }

  /** The sentences in the order they are emitted: the total, the largest
      category if any, the budget status, the concentration if any. */
  function Sentences(total: real, limit: real, top: Option<Group<string>>, breakdown: seq<Group<string>>): (r: seq<Sentence>)
    ensures |r| >= 2 && r[0] == TotalSpent(total)
    ensures var k := if top.Some? then 2 else 1;
      k < |r| && r[k] == BudgetStatus(StatusOf(total, limit)) &&
      (top.Some? ==> r[1] == HighestSpending(top.value.key, top.value.total)) &&
      r[k + 1..] == ConcentrationSentence(breakdown, total)
  {
    var highest := if top.Some? then [HighestSpending(top.value.key, top.value.total)] else [];
    [TotalSpent(total)] + highest + [BudgetStatus(StatusOf(total, limit))] + ConcentrationSentence(breakdown, total)
  }

  /** The insight for a list of expenses. */
  function Insights(expenses: seq<Expense>, limit: real): (r: Insight)
    ensures r.total == Sum(EntryAmounts(Entries(expenses)))
    ensures r.breakdown == GroupBy(Entries(expenses))
    ensures r.overLimit <==> r.total > limit
    ensures r.topCategory.Some? <==> |expenses| > 0
    ensures r.topCategory == TopCategory(r.breakdown)
    ensures r.sentences == Sentences(r.total, limit, r.topCategory, r.breakdown)
  {
    var entries := Entries(expenses);
    var total := Sum(EntryAmounts(entries));
    var breakdown := GroupBy(entries);
    GroupByTotals(entries);
    assert |breakdown| == 0 ==> Counts(breakdown) == 0;
    var top := TopCategory(breakdown);
    Insight(Sentences(total, limit, top, breakdown), total, total > limit, breakdown, top)
  }

  /** `spendingInsight` as written. The request's `expenses` is a `const`
      binding; when it is empty the handler first reads this month's
      approved expenses from the database and then assigns them to that
      binding, which throws a TypeError, so the request always fails. */
  function SpendingInsightAsWritten(expenses: seq<Expense>, limit: real): (r: Result<Insight, Failure>)
    ensures r.Failure? <==> |expenses| == 0
    ensures r.Success? ==> r.value == Insights(expenses, limit)
  {
    if |expenses| == 0 then Failure(InsightFailed) else Success(Insights(expenses, limit))
  }

  /** `spendingInsight` as intended: an empty request falls back to the
      stored expenses `stored` of the current month. */
  function SpendingInsight(expenses: seq<Expense>, stored: seq<Expense>, limit: real): (r: Insight)
    ensures |expenses| > 0 ==> r == Insights(expenses, limit)
    ensures |expenses| == 0 ==> r == Insights(stored, limit)
  {
    Insights(if |expenses| == 0 then stored else expenses, limit)
  }

  /** An empty request body fails as written, while the intended fallback
      reports on the stored expenses. */
  lemma EmptyRequestFails(stored: seq<Expense>, limit: real)
    ensures SpendingInsightAsWritten([], limit).Failure?
    ensures SpendingInsight([], stored, limit) == Insights(stored, limit)
  {
  }

  /** With a non-empty request the two agree. */
  lemma AsWrittenAgreesOnNonEmpty(expenses: seq<Expense>, stored: seq<Expense>, limit: real)
    requires |expenses| > 0
    ensures SpendingInsightAsWritten(expenses, limit) == Success(SpendingInsight(expenses, stored, limit))
  {
  }

  /** The category breakdown adds up to the total, and each category holds
      exactly the amounts of its expenses. */
  lemma {:induction false} BreakdownSums(expenses: seq<Expense>, limit: real, c: string)
    ensures Totals(Insights(expenses, limit).breakdown) == Insights(expenses, limit).total
    ensures DistinctKeys(Insights(expenses, limit).breakdown)
    ensures var gs := Insights(expenses, limit).breakdown;
      var i := Find(gs, c);
      (i >= 0 <==> Occurs(Entries(expenses), c)) &&
      (i >= 0 ==> gs[i].total == SumFor(Entries(expenses), c))
  {
    GroupByTotals(Entries(expenses));
    GroupByDistinct(Entries(expenses));
    GroupByContents(Entries(expenses), c);
  }

  /** No expense is ever counted under the empty category. */
  lemma {:induction false} NoEmptyCategory(expenses: seq<Expense>)
    ensures !Occurs(Entries(expenses), "")
  {
    var es := Entries(expenses);
    forall i | 0 <= i < |es|
      ensures es[i].key != ""
    {
      assert es[i].key == CategoryOf(expenses[i]);
    }
  }

  // ---------------------------------------------------------------------------
  // At most three concentrated categories

  /** Every group total is non-negative. */
  predicate NonNegativeTotals(gs: seq<Group<string>>)
  {
    forall i :: 0 <= i < |gs| ==> gs[i].total >= 0.0
  }

  /** The flagged groups hold no more than all groups together, and more
      than 30% of the total each. */
  lemma {:induction false} ConcentratedBounds(gs: seq<Group<string>>, total: real)
    requires NonNegativeTotals(gs)
    ensures Totals(Concentrated(gs, total)) <= Totals(gs)
    ensures |Concentrated(gs, total)| > 0 ==>
      Totals(Concentrated(gs, total)) > Multiple(|Concentrated(gs, total)|, total * 0.3)
  {
    if |gs| > 0 {
      var n := |gs| - 1;
      var g := gs[n];
      assert NonNegativeTotals(gs[..n]);
      ConcentratedBounds(gs[..n], total);
      var c := Concentrated(gs[..n], total);
      assert gs == gs[..n] + [g];
      TotalsAppend(gs[..n], g);
      if g.total > total * 0.3 {
        assert Concentrated(gs, total) == c + [g];
        TotalsAppend(c, g);
        assert |c| == 0 ==> Totals(c) == 0.0;
        assert Multiple(|c| + 1, total * 0.3) == Multiple(|c|, total * 0.3) + total * 0.3;
      } else {
        assert Concentrated(gs, total) == c;
      }
    }
  }

  /** `m` copies of `t` added up: `m · t` without the product. */
  function Multiple(m: nat, t: real): (r: real)
  {
    if m == 0 then 0.0 else Multiple(m - 1, t) + t
  }

  lemma {:induction false} MultipleIsProduct(m: nat, t: real)
    ensures Multiple(m, t) == m as real * t
  {
    if m > 0 {
      MultipleIsProduct(m - 1, t);
      assert m as real * t == (m - 1) as real * t + t;
    }
  }

  /** With non-negative amounts at most three categories can each hold more
      than 30% of the total. */
  lemma {:induction false} AtMostThreeConcentrated(expenses: seq<Expense>, limit: real)
    requires forall i :: 0 <= i < |expenses| ==> expenses[i].amount >= 0.0
    ensures |Concentrated(Insights(expenses, limit).breakdown, Insights(expenses, limit).total)| <= 3
  {
    var es := Entries(expenses);
    GroupByTotals(es);
    GroupTotalsNonNegative(es);
    NonNegativeSum(EntryAmounts(es));
    AtMostThree(GroupBy(es), Sum(EntryAmounts(es)));
  }

  /** Among groups with non-negative totals adding up to `total`, at most
      three hold more than 30% of it. */
  lemma AtMostThree(gs: seq<Group<string>>, total: real)
    requires NonNegativeTotals(gs) && Totals(gs) == total && total >= 0.0
    ensures |Concentrated(gs, total)| <= 3
  {
    ConcentratedBounds(gs, total);
    CountBound(|Concentrated(gs, total)|, total, Totals(Concentrated(gs, total)));
  }

  /** `m` parts that each exceed 30% of a non-negative total and together
      stay within it number at most 3. */
  lemma CountBound(m: nat, total: real, part: real)
    requires total >= 0.0 && part <= total
    requires m > 0 ==> part > Multiple(m, total * 0.3)
    ensures m <= 3
  {
    if m >= 4 {
      MultipleIsProduct(m, total * 0.3);
      MulMonotone(m as real, 4.0, total * 0.3);
      assert false;
    }
  }

  lemma MulMonotone(a: real, b: real, c: real)
    requires a >= b && c >= 0.0
    ensures a * c >= b * c
  {
    assert a * c - b * c == (a - b) * c;
  }

  /** Every group of non-negative entries has a non-negative total. */
  lemma {:induction false} GroupTotalsNonNegative(es: seq<Entry<string>>)
    requires forall i :: 0 <= i < |es| ==> es[i].amount >= 0.0
    ensures NonNegativeTotals(GroupBy(es))
  {
    if |es| > 0 {
      var n := |es| - 1;
      GroupTotalsNonNegative(es[..n]);
    }
  }
}
