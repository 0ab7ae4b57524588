/** The budgets page (`client/pages/Budgets.tsx`): the status of one
    budget, creating and deleting budgets, and the totals and progress
    figures shown for them. */
module Budgets {
  import opened Types
  import opened Seqs

  /** A budget as the page keeps it. `createdAt` is an instant. */
  datatype BudgetEntry = BudgetEntry(
    id: string,
    name: string,
    amount: real,
    spent: real,
    category: Category,
    period: BudgetPeriod,
    alertThreshold: real,
    isActive: bool,
    createdAt: int)

  datatype Status = Good | Warning | Exceeded

  /** How far along a status is: good, then at risk, then exceeded. */
  function Severity(s: Status): nat
  {
    match s
    case Good => 0
    case Warning => 1
    case Exceeded => 2
  }

  /** `getBudgetStatus`: exceeded from 100% on, at risk from the alert
      threshold on, on track below both. */
  function StatusOf(spent: real, amount: real, threshold: real): (r: Status)
    requires amount != 0.0
    ensures r == Exceeded <==> Percent(spent, amount) >= 100.0
    ensures r == Warning <==> threshold <= Percent(spent, amount) < 100.0
    ensures r == Good <==> Percent(spent, amount) < threshold && Percent(spent, amount) < 100.0
  {
    var pct := Percent(spent, amount);
    if pct >= 100.0 then Exceeded
    else if pct >= threshold then Warning
    else Good
  }

  /** For a positive budget the status reads directly off the money: it is
      exceeded exactly when everything is spent, at risk exactly when the
      spend has reached the threshold's share of the amount. */
  lemma StatusInMoney(spent: real, amount: real, threshold: real)
    requires amount > 0.0
    ensures StatusOf(spent, amount, threshold) == Exceeded <==> spent >= amount
    ensures StatusOf(spent, amount, threshold) == Warning
            <==> threshold * amount <= spent * 100.0 && spent < amount
  {
    var pct := Percent(spent, amount);
    assert pct * amount == spent * 100.0;
    assert pct >= 100.0 <==> pct * amount >= 100.0 * amount;
    assert pct >= threshold <==> pct * amount >= threshold * amount;
  }

  /** Spending more never moves a positive budget to a milder status. */
  lemma StatusMonotone(s1: real, s2: real, amount: real, threshold: real)
    requires amount > 0.0 && s1 <= s2
    ensures Severity(StatusOf(s1, amount, threshold)) <= Severity(StatusOf(s2, amount, threshold))
  {
    assert Percent(s1, amount) <= Percent(s2, amount) by {
      assert s1 / amount <= s2 / amount;
    }
  }

  /** The progress bar value: the percentage, capped at 100. */
  function Progress(spent: real, amount: real): (r: real)
    requires amount != 0.0
    ensures r <= 100.0
    ensures r == 100.0 <==> StatusOf(spent, amount, 0.0) == Exceeded
    ensures r < 100.0 ==> r == Percent(spent, amount)
  {
    var pct := Percent(spent, amount);
    if pct < 100.0 then pct else 100.0
  }

  /** The remaining amount shown under a budget: never negative, and the
      true remainder whenever the budget is not overspent. */
  function RemainingShown(b: BudgetEntry): (r: real)
    ensures r >= 0.0
    ensures b.spent <= b.amount ==> r == b.amount - b.spent
    ensures b.spent >= b.amount ==> r == 0.0
  {
    if 0.0 >= b.amount - b.spent then 0.0 else b.amount - b.spent
  }

  // ---------------------------------------------------------------------
  // Totals

  function Amount(b: BudgetEntry): real { b.amount }
  function Spent(b: BudgetEntry): real { b.spent }
  function Remainder(b: BudgetEntry): real { b.amount - b.spent }

  datatype Totals = Totals(budgeted: real, spent: real, remaining: real)

  /** The three summary figures over the whole list. With no budgets all
      three are 0; TotalsOne and TotalsAppend fix the rest. */
  function TotalsOf(bs: seq<BudgetEntry>): (r: Totals)
    ensures r.remaining == r.budgeted - r.spent
    ensures bs == [] ==> r == Totals(0.0, 0.0, 0.0)
  {
    var budgeted := Sum(bs, Amount);
    var spent := Sum(bs, Spent);
    Totals(budgeted, spent, budgeted - spent)
  }

  /** A single budget contributes its amount and what was spent on it. */
  lemma TotalsOne(b: BudgetEntry)
    ensures TotalsOf([b]) == Totals(b.amount, b.spent, b.amount - b.spent)
  {
    assert [b][1..] == [];
    assert Sum([b], Amount) == Amount(b) + Sum([], Amount);
    assert Sum([b], Spent) == Spent(b) + Sum([], Spent);
  }

  /** The totals of two lists together are the sums of their totals, figure
      by figure. */
  lemma TotalsAppend(a: seq<BudgetEntry>, b: seq<BudgetEntry>)
    ensures var (ta, tb) := (TotalsOf(a), TotalsOf(b));
      TotalsOf(a + b) == Totals(ta.budgeted + tb.budgeted, ta.spent + tb.spent, ta.remaining + tb.remaining)
  {
    SumAppend(a, b, Amount);
    SumAppend(a, b, Spent);
  }

  /** What remains overall is the sum of what remains of each budget. */
  lemma RemainingIsSumOfRemainders(bs: seq<BudgetEntry>)
    ensures TotalsOf(bs).remaining == Sum(bs, Remainder)
  {
    SumDifference(bs, Amount, Spent, Remainder);
  }

  // ---------------------------------------------------------------------
  // Creating and deleting

  /** The creation form; amount and threshold are the raw input text. */
  datatype BudgetForm = BudgetForm(
    name: string,
    amount: string,
    categoryId: string,
    period: BudgetPeriod,
    alertThreshold: string)

  /** The form as it is after a reset. */
  const BlankForm := BudgetForm("", "", "", MonthlyBudget, "80")

  datatype Page = Page(
    budgets: seq<BudgetEntry>,
    categories: seq<Category>,
    form: BudgetForm,
    dialogOpen: bool)

  datatype CreateOutcome = MissingFields | NoSuchCategory | Created(budget: BudgetEntry)

  /** `handleCreateBudget`. `parseAmount` and `parseThreshold` stand for
      `parseFloat` and `parseInt`; `freshId` and `now` for the clock. */
  function CreateBudget(p: Page, parseAmount: string -> real, parseThreshold: string -> int,
                        freshId: string, now: int): (r: (Page, CreateOutcome))
    ensures r.1 == MissingFields <==> p.form.name == "" || p.form.amount == "" || p.form.categoryId == ""
    ensures r.1 == NoSuchCategory
            <==> r.1 != MissingFields && FindCategory(p.categories, p.form.categoryId) == None
    ensures !r.1.Created? ==> r.0 == p
    ensures r.1.Created? ==>
              var b := r.1.budget;
              && r.0.budgets == p.budgets + [b]
              && r.0.categories == p.categories
              && b.id == freshId && b.name == p.form.name && b.createdAt == now
              && b.amount == parseAmount(p.form.amount)
              && b.alertThreshold == parseThreshold(p.form.alertThreshold) as real
              && Some(b.category) == FindCategory(p.categories, p.form.categoryId)
              && b.period == p.form.period
              && b.spent == 0.0 && b.isActive
              && r.0.form == BlankForm && !r.0.dialogOpen
  {
    var f := p.form;
    if f.name == "" || f.amount == "" || f.categoryId == "" then (p, MissingFields)
    else
      match FindCategory(p.categories, f.categoryId)
      case None => (p, NoSuchCategory)
      case Some(c) =>
        var b := BudgetEntry(freshId, f.name, parseAmount(f.amount), 0.0, c, f.period,
                             parseThreshold(f.alertThreshold) as real, true, now);
        (p.(budgets := p.budgets + [b], form := BlankForm, dialogOpen := false), Created(b))
  }

  /** The filter that keeps the budgets without the given id. */
  function OtherThan(id: string): BudgetEntry -> bool
  {
    (b: BudgetEntry) => b.id != id
  }

  /** `handleDeleteBudget`: every budget with the id goes, the rest stay in order. */
  function DeleteBudget(bs: seq<BudgetEntry>, id: string): (r: seq<BudgetEntry>)
    ensures forall b :: b in r <==> b in bs && b.id != id
    ensures multiset(r) <= multiset(bs)
  {
    Filter(bs, OtherThan(id))
  }

  /** Deleting an id no budget has changes nothing. */
  lemma DeleteAbsent(bs: seq<BudgetEntry>, id: string)
    requires forall i :: 0 <= i < |bs| ==> bs[i].id != id
    ensures DeleteBudget(bs, id) == bs
  {
    FilterAll(bs, OtherThan(id));
  }

  /** Deleting one list's budgets and another's is deleting from both. */
  lemma DeleteSplits(a: seq<BudgetEntry>, b: seq<BudgetEntry>, id: string)
    ensures DeleteBudget(a + b, id) == DeleteBudget(a, id) + DeleteBudget(b, id)
  {
    FilterAppend(a, b, OtherThan(id));
  }

  /** Creating a budget under a fresh id and deleting it again restores
      the list. */
  lemma CreateThenDelete(p: Page, parseAmount: string -> real, parseThreshold: string -> int,
                         freshId: string, now: int)
    requires forall i :: 0 <= i < |p.budgets| ==> p.budgets[i].id != freshId
    ensures var (q, o) := CreateBudget(p, parseAmount, parseThreshold, freshId, now);
      DeleteBudget(q.budgets, freshId) == p.budgets
  {
    var (q, o) := CreateBudget(p, parseAmount, parseThreshold, freshId, now);
    DeleteAbsent(p.budgets, freshId);
    if o.Created? {
      DeleteSplits(p.budgets, [o.budget], freshId);
      assert DeleteBudget([o.budget], freshId) == [] by {
        FilterNone([o.budget], OtherThan(freshId));
      }
    }
  }

  /** A new budget adds its amount to the total budgeted and nothing to
      the total spent. */
  lemma CreateTotals(p: Page, parseAmount: string -> real, parseThreshold: string -> int,
                     freshId: string, now: int)
    ensures var (q, o) := CreateBudget(p, parseAmount, parseThreshold, freshId, now);
      o.Created? ==>
        && TotalsOf(q.budgets).budgeted == TotalsOf(p.budgets).budgeted + o.budget.amount
        && TotalsOf(q.budgets).spent == TotalsOf(p.budgets).spent
  {
    var (q, o) := CreateBudget(p, parseAmount, parseThreshold, freshId, now);
    if o.Created? {
      SumAppend(p.budgets, [o.budget], Amount);
      SumAppend(p.budgets, [o.budget], Spent);
    }
  }
}
