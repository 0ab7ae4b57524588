/** The spending-by-category panel of the dashboard
    (`client/components/dashboard/CategoryAnalytics.tsx`): what it shows
    for an analytics summary, row by row, and its quick insights. */
module CategoryView {
  import opened Types
  import opened Seqs
  import Sorting
  import ExpenseStore
  import StoreAnalytics

  /** `Math.max(...amounts)` over the listed categories. */
  function MaxAmount(shares: seq<CategoryShare>): (m: real)
    requires |shares| > 0
    ensures forall c :: c in shares ==> c.amount <= m
    ensures exists j :: 0 <= j < |shares| && shares[j].amount == m
  {
    if |shares| == 1 then shares[0].amount
    else
      var rest := MaxAmount(shares[1..]);
      if shares[0].amount >= rest then shares[0].amount else rest
  }

  /** In a list ranked largest first, the largest amount is the first one. */
  lemma MaxOfRanked(shares: seq<CategoryShare>)
    requires |shares| > 0
    requires Sorting.Sorted(shares, StoreAnalytics.LargerFirst)
    ensures MaxAmount(shares) == shares[0].amount
  {
    var j :| 0 <= j < |shares| && shares[j].amount == MaxAmount(shares);
    if j > 0 {
      assert StoreAnalytics.LargerFirst(shares[0], shares[j]);
    }
  }

  /** The line under a category with a budget: over or under, and by how much. */
  datatype BudgetLine = BudgetLine(budget: real, over: bool, difference: real)

  /** Shown only for a positive budget (an absent or zero one is falsy).
      The difference is never negative, and it is what separates the amount
      from the budget, in the direction the line names. */
  function BudgetLineOf(c: Category, amount: real): (r: Option<BudgetLine>)
    ensures r.Some? <==> c.budget.Some? && c.budget.value > 0.0
    ensures r.Some? ==>
              && r.value.budget == c.budget.value
              && (r.value.over <==> amount > r.value.budget)
              && r.value.difference >= 0.0
              && (if r.value.over then amount - r.value.difference else amount + r.value.difference)
                 == r.value.budget
  {
    if c.budget.Some? && c.budget.value > 0.0 then
      var b := c.budget.value;
      Some(BudgetLine(b, amount > b, if amount - b < 0.0 then b - amount else amount - b))
    else None
  }

  /** One category row. */
  datatype Row = Row(
    category: Category,
    amount: real,
    percentage: real,
    progress: real,
    highSpending: bool,
    budgetLine: Option<BudgetLine>)

  predicate IsHigh(c: CategoryShare)
  {
    c.percentage > 25.0
  }

  /** `progress` is `amount` as a percentage of `max`. */
  predicate BarOf(progress: real, amount: real, max: real)
  {
    progress * max == amount * 100.0
  }

  /** A row for one category share; `max` is the largest listed amount. */
  function RowOf(c: CategoryShare, category: Category, max: real): (r: Row)
    requires max != 0.0
    ensures r.category == category && r.amount == c.amount && r.percentage == c.percentage
    ensures r.highSpending <==> IsHigh(c)
    ensures BarOf(r.progress, c.amount, max)
    ensures r.budgetLine == BudgetLineOf(category, c.amount)
  {
    Row(category, c.amount, c.percentage, Percent(c.amount, max), IsHigh(c),
        BudgetLineOf(category, c.amount))
  }

  datatype Insight = SavingWell | Overspending | Reduce(categoryName: string) | TrackMore | TrackDaily

  /** The quick insights: each appears at most once, and the daily tip is
      always shown, last. */
  function Insights(a: Analytics, top: CategoryShare, topName: string): (r: seq<Insight>)
    ensures |r| > 0 && r[|r| - 1] == TrackDaily
    ensures forall i, j :: 0 <= i < j < |r| ==> r[i] != r[j]
    ensures SavingWell in r <==> a.savingsRate > 20.0
    ensures Overspending in r <==> a.savingsRate < 0.0
    ensures forall n :: Reduce(n) in r <==> top.percentage > 30.0 && n == topName
    ensures TrackMore in r <==> |a.topCategories| < 3
  {
    (if a.savingsRate > 20.0 then [SavingWell] else [])
    + (if a.savingsRate < 0.0 then [Overspending] else [])
    + (if top.percentage > 30.0 then [Reduce(topName)] else [])
    + (if |a.topCategories| < 3 then [TrackMore] else [])
    + [TrackDaily]
  }

  /** What the panel shows. `Fault` is the type error the page raises when
      a listed category id has no category record. */
  datatype Panel =
    | NoData
    | Fault
    | Shown(dailyAverage: real, topCategory: Category, rows: seq<Row>, insights: seq<Insight>)

  predicate AllResolved(shares: seq<CategoryShare>)
  {
    forall i :: 0 <= i < |shares| ==> shares[i].category.Some?
  }

  function Rows(shares: seq<CategoryShare>, max: real): (r: seq<Row>)
    requires max != 0.0 && AllResolved(shares)
    ensures |r| == |shares|
    ensures forall i :: 0 <= i < |shares| ==> r[i] == RowOf(shares[i], shares[i].category.value, max)
  {
    seq(|shares|, i requires 0 <= i < |shares| => RowOf(shares[i], shares[i].category.value, max))
  }

  /** Dividing by the largest amount needs it to be non-zero. */
  predicate Renderable(a: Analytics)
  {
    |a.topCategories| == 0 || MaxAmount(a.topCategories) != 0.0
  }

  /** The panel for an analytics summary. */
  function Render(a: Analytics): (p: Panel)
    requires Renderable(a)
    ensures p == NoData <==> |a.topCategories| == 0
    ensures p == Fault <==> |a.topCategories| > 0 && !AllResolved(a.topCategories)
    ensures p.Shown? ==>
              var top := a.topCategories;
              && |p.rows| == |top|
              && Some(p.topCategory) == top[0].category
              && p.dailyAverage == a.averageDaily
              && (forall i :: 0 <= i < |top| ==>
                    && Some(p.rows[i].category) == top[i].category
                    && p.rows[i] == RowOf(top[i], p.rows[i].category, MaxAmount(top)))
              && p.insights == Insights(a, top[0], p.topCategory.name)
  {
    var top := a.topCategories;
    if |top| == 0 then NoData
    else if !AllResolved(top) then Fault
    else
      var max := MaxAmount(top);
      Shown(a.averageDaily, top[0].category.value, Rows(top, max), Insights(a, top[0], top[0].category.value.name))
  }

  /** With a positive largest amount and no negative one, every bar lies
      between 0 and 100, and the bar of a largest category is full. */
  lemma ProgressBounds(a: Analytics, i: nat)
    requires Renderable(a) && Render(a).Shown?
    requires MaxAmount(a.topCategories) > 0.0
    requires forall c :: c in a.topCategories ==> c.amount >= 0.0
    requires i < |a.topCategories|
    ensures 0.0 <= Render(a).rows[i].progress <= 100.0
    ensures a.topCategories[i].amount == MaxAmount(a.topCategories) ==> Render(a).rows[i].progress == 100.0
  {
    var top := a.topCategories;
    var max := MaxAmount(top);
    var row := Render(a).rows[i];
    assert row == RowOf(top[i], row.category, max);
    assert top[i] in top;
    BarWithin(row.progress, max, top[i].amount);
  }

  /** A bar `progress` of `amount` against a positive `max` no smaller. */
  lemma BarWithin(progress: real, max: real, amount: real)
    requires max > 0.0 && 0.0 <= amount <= max
    requires BarOf(progress, amount, max)
    ensures 0.0 <= progress <= 100.0
    ensures amount == max ==> progress == 100.0
  {
    assert (progress - 100.0) * max == (amount - max) * 100.0;
    StoreAnalytics.SignOfProduct(progress - 100.0, max);
    assert (-progress) * max == -(amount * 100.0);
    StoreAnalytics.SignOfProduct(-progress, max);
    assert (100.0 - progress) * max == (max - amount) * 100.0;
    StoreAnalytics.SignOfProduct(100.0 - progress, max);
  }

  /** The number of rows flagged as high spending. */
  function HighCount(shares: seq<CategoryShare>): nat
  {
    |Filter(shares, IsHigh)|
  }

  /** Each flagged share takes more than 25 points of the percentages. */
  lemma {:induction false} HighShareSum(shares: seq<CategoryShare>)
    requires forall c :: c in shares ==> c.percentage >= 0.0
    ensures HighCount(shares) as real * 25.0 <= Sum(shares, StoreAnalytics.SharePercentage)
    ensures HighCount(shares) > 0 ==> HighCount(shares) as real * 25.0 < Sum(shares, StoreAnalytics.SharePercentage)
  {
    if |shares| > 0 {
      HighShareSum(shares[1..]);
    }
  }

  /** Percentages that are not negative and add up to at most 100 flag at
      most three categories. */
  lemma AtMostThreeHigh(shares: seq<CategoryShare>)
    requires forall c :: c in shares ==> c.percentage >= 0.0
    requires Sum(shares, StoreAnalytics.SharePercentage) <= 100.0
    ensures HighCount(shares) <= 3
  {
    HighShareSum(shares);
  }

  /** On the store's own summary, with no negative amounts, at most three
      categories are flagged as high spending, and the first row is the
      full bar. */
  lemma StoreSummaryRows(s: ExpenseStore.Store, start: int, now: int)
    requires StoreAnalytics.PercentagesDefined(StoreAnalytics.Window(s.expenses, start, now))
    requires forall i :: 0 <= i < |s.expenses| ==> s.expenses[i].amount >= 0.0
    ensures var a := StoreAnalytics.Analyze(s, start, now);
      && HighCount(a.topCategories) <= 3
      && (|a.topCategories| > 0 ==> MaxAmount(a.topCategories) == a.topCategories[0].amount)
  {
    var w := StoreAnalytics.Window(s.expenses, start, now);
    var a := StoreAnalytics.Analyze(s, start, now);
    assert forall i :: 0 <= i < |w| ==> w[i].amount >= 0.0 by {
      forall i | 0 <= i < |w|
        ensures w[i].amount >= 0.0
      {
        assert w[i] in s.expenses;
      }
    }
    StoreAnalytics.TopPercentages(w, s.categories);
    AtMostThreeHigh(a.topCategories);
    if |a.topCategories| > 0 {
      MaxOfRanked(a.topCategories);
    }
  }

  /** With some income, the saving insight appears exactly when expenses
      stay under 80% of income, and the overspending one exactly when they
      exceed it; the two never appear together. */
  lemma SavingInsights(s: ExpenseStore.Store, start: int, now: int, top: CategoryShare, name: string)
    requires StoreAnalytics.PercentagesDefined(StoreAnalytics.Window(s.expenses, start, now))
    ensures var a := StoreAnalytics.Analyze(s, start, now);
      var r := Insights(a, top, name);
      && !(SavingWell in r && Overspending in r)
      && (a.totalIncome > 0.0 ==>
            && (SavingWell in r <==> a.totalExpenses * 5.0 < a.totalIncome * 4.0)
            && (Overspending in r <==> a.totalExpenses > a.totalIncome))
      && (a.totalIncome <= 0.0 ==> SavingWell !in r && Overspending !in r)
  {
    var a := StoreAnalytics.Analyze(s, start, now);
    StoreAnalytics.SavingsRateSign(s, start, now);
    if a.totalIncome > 0.0 {
      RateAbove20(a.totalIncome, a.totalExpenses);
    }
  }

  lemma RateAbove20(i: real, e: real)
    requires i > 0.0
    ensures StoreAnalytics.SavingsRate(i, e) > 20.0 <==> e * 5.0 < i * 4.0
  {
    var q := StoreAnalytics.SavingsRate(i, e);
    assert (q - 20.0) * i == (i * 4.0 - e * 5.0) * 20.0;
    StoreAnalytics.SignOfProduct(q - 20.0, i);
  }
}
