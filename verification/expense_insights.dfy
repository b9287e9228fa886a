/** The expense summary of `getExpenseInsights` and the sentences of
    `generateExpenseInsights` in Revenue/backend/services/mlService.js: the
    total, the per-category totals in first-seen order, the three largest
    categories, the budget verdict and up to three insight sentences,
    represented by tags that carry the figures they print. */
module ExpenseInsights {
  import opened Wrappers
  import opened Sums
  import opened Grouping

  /** A stored expense. A record without a category is filed under the
      object key the source produces for it, the text "undefined". */
  datatype Expense = Expense(category: Option<string>, amount: real)

  datatype Insight =
    | BudgetExceeded(excess: real)
    | HighestSpending(category: string, amount: real)
    | WellBelowBudget

  datatype Summary = Summary(
    total: real,
    byCategory: seq<Group<string>>,
    topCategories: seq<Group<string>>,
    overLimit: bool,
    remainingBudget: real,
    insights: seq<Insight>)

  /** The object key an expense is filed under. */
  function CategoryKey(c: Option<string>): (k: string)
    ensures c.Some? ==> k == c.value
    ensures c.None? ==> k == "undefined"
  {
    match c
    case Some(s) => s
    case None => "undefined"
  }

  /** The expenses as keyed amounts. */
  function Entries(expenses: seq<Expense>): (r: seq<Entry<string>>)
    ensures |r| == |expenses|
    ensures forall i :: 0 <= i < |expenses| ==>
      r[i] == Entry(CategoryKey(expenses[i].category), expenses[i].amount)
  {
    if |expenses| == 0 then []
    else
      var e := expenses[|expenses| - 1];
      Entries(expenses[..|expenses| - 1]) + [Entry(CategoryKey(e.category), e.amount)]
  }

  /** The sum of all expense amounts, which is also the sum of the per-category
      totals. */
  function Total(expenses: seq<Expense>): (t: real)
    ensures t == Totals(GroupBy(Entries(expenses)))
  {
    GroupByTotals(Entries(expenses));
    Sum(EntryAmounts(Entries(expenses)))
  }

  /** The place of a sentence kind in the order they are emitted. */
  function Position(s: Insight): nat
  {
    match s
    case BudgetExceeded(_) => 0
    case HighestSpending(_, _) => 1
    case WellBelowBudget => 2
  }

  /** The sentence on the largest category: the first category with the
      largest total. */
  function Highest(byCategory: seq<Group<string>>): (h: Insight)
    requires |byCategory| > 0
    ensures h.HighestSpending?
    ensures exists i :: 0 <= i < |byCategory| && byCategory[i] == Group(h.category, h.amount, byCategory[i].count)
    ensures forall i :: 0 <= i < |byCategory| ==> byCategory[i].total <= h.amount
  {
    var g := byCategory[FirstMax(byCategory)];
    HighestSpending(g.key, g.total)
  }

  /** The source takes the head of the breakdown sorted by descending total;
      the sort is stable, so that head is the category `Highest` names, and
      no category spent more. */
  lemma HighestIsSortHead(byCategory: seq<Group<string>>)
    requires |byCategory| > 0
    ensures var g := SortDesc(byCategory)[0];
      Highest(byCategory) == HighestSpending(g.key, g.total)
    ensures forall i :: 0 <= i < |byCategory| ==> byCategory[i].total <= Highest(byCategory).amount
  {
    SortDescHead(byCategory);
  }

  /** `generateExpenseInsights`: the overrun when the total exceeds the
      limit, then the largest category if there is any, then a note when
      less than half the budget is spent. */
  function Insights(byCategory: seq<Group<string>>, total: real, limit: real): (r: seq<Insight>)
    ensures |r| <= 3
    ensures forall i, j :: 0 <= i < j < |r| ==> Position(r[i]) < Position(r[j])
  {
    var exceeded := if total > limit then [BudgetExceeded(total - limit)] else [];
    var highest := if |byCategory| > 0 then [Highest(byCategory)] else [];
    var below := if total < limit * 0.5 then [WellBelowBudget] else [];
    var r := exceeded + highest + below;
    assert exceeded != [] ==> r[0] == exceeded[0];
    assert highest != [] ==> r[|exceeded|] == highest[0];
    assert below != [] ==> r[|exceeded| + |highest|] == below[0];
    r
  }

  /** Each sentence appears exactly when its condition holds, carrying the
      overrun and the largest category. */
  lemma InsightsContents(byCategory: seq<Group<string>>, total: real, limit: real)
    ensures var r := Insights(byCategory, total, limit);
      (BudgetExceeded(total - limit) in r <==> total > limit) &&
      (forall s :: s in r && s.BudgetExceeded? ==> s.excess == total - limit)
    ensures var r := Insights(byCategory, total, limit);
      (|byCategory| > 0 ==> Highest(byCategory) in r) &&
      (forall s :: s in r && s.HighestSpending? ==> |byCategory| > 0 && s == Highest(byCategory))
    ensures WellBelowBudget in Insights(byCategory, total, limit) <==> total < limit * 0.5
  {
    var exceeded := if total > limit then [BudgetExceeded(total - limit)] else [];
    var highest := if |byCategory| > 0 then [Highest(byCategory)] else [];
    var below := if total < limit * 0.5 then [WellBelowBudget] else [];
    assert Insights(byCategory, total, limit) == exceeded + highest + below;
  }

  /** `getExpenseInsights` over the stored expenses with a monthly limit. */
  function Summarize(expenses: seq<Expense>, limit: real): (r: Summary)
    ensures r.total == Total(expenses)
    ensures r.overLimit <==> r.total > limit
    ensures r.remainingBudget >= 0.0 && r.remainingBudget >= limit - r.total
    ensures r.remainingBudget == 0.0 || r.remainingBudget == limit - r.total
    ensures r.byCategory == GroupBy(Entries(expenses))
    ensures r.topCategories == Top(r.byCategory, 3)
    ensures |r.topCategories| == if |r.byCategory| < 3 then |r.byCategory| else 3
    ensures SortedDesc(r.topCategories)
    ensures forall t :: t in r.topCategories ==> t in r.byCategory
    ensures r.insights == Insights(r.byCategory, r.total, limit)
  {
    var total := Total(expenses);
    var byCategory := GroupBy(Entries(expenses));
    Summary(total, byCategory, Top(byCategory, 3), total > limit,
            if limit - total > 0.0 then limit - total else 0.0,
            Insights(byCategory, total, limit))
  }

  /** The category totals add up to the total, every category key labels
      one group, and each group holds the sum of its category's expenses. */
  lemma {:induction false} SummaryBreakdown(expenses: seq<Expense>, limit: real, k: string)
    ensures Totals(Summarize(expenses, limit).byCategory) == Summarize(expenses, limit).total
    ensures DistinctKeys(Summarize(expenses, limit).byCategory)
    ensures var gs := Summarize(expenses, limit).byCategory;
      var i := Find(gs, k);
      (i >= 0 <==> Occurs(Entries(expenses), k)) &&
      (i >= 0 ==> gs[i].total == SumFor(Entries(expenses), k))
  {
    GroupByDistinct(Entries(expenses));
    GroupByContents(Entries(expenses), k);
  }

  /** No category left out of the largest three spent more than any of
      them. */
  lemma {:induction false} TopCategoriesLargest(expenses: seq<Expense>, limit: real, g: Group<string>)
    requires g in GroupBy(Entries(expenses))
    requires g !in Top(GroupBy(Entries(expenses)), 3)
    ensures forall t :: t in Summarize(expenses, limit).topCategories ==> t.total >= g.total
  {
    TopDominates(GroupBy(Entries(expenses)), 3, g);
  }

  /** With a non-negative limit the budget is never both exceeded and less
      than half used. */
  lemma ExceededExcludesBelow(expenses: seq<Expense>, limit: real)
    requires limit >= 0.0
    ensures var r := Summarize(expenses, limit);
      !(BudgetExceeded(r.total - limit) in r.insights && WellBelowBudget in r.insights)
  {
    var r := Summarize(expenses, limit);
    InsightsContents(r.byCategory, r.total, limit);
  }
}
