/** `getAnalytics` of `client/lib/expense-store.ts`: totals by type, net
    balance, savings rate, the five largest expense categories and the
    daily average, over the records dated inside a window that ends now. */
module StoreAnalytics {
  import opened Types
  import opened Seqs
  import Sorting
  import ExpenseStore

  datatype Period = Week | Month | Year

  /** The clock: `now`, and the instants one calendar month and one calendar
      year before it (JavaScript's `setMonth` / `setFullYear` arithmetic). */
  datatype Clock = Clock(now: int, monthAgo: int, yearAgo: int)

  /** The window start for each period; a week is exactly seven days back. */
  function WindowStart(p: Period, c: Clock): (r: int)
    ensures p == Week ==> c.now - r == 7 * DayMs
    ensures p == Month ==> r == c.monthAgo
    ensures p == Year ==> r == c.yearAgo
  {
    match p
    case Week => c.now - 7 * DayMs
    case Month => c.monthAgo
    case Year => c.yearAgo
  }

  /** A record belongs to the window when the midnight of its date lies
      between the start and now, both inclusive. */
  predicate InWindow(e: Expense, start: int, now: int)
  {
    start <= DayStart(e.date) <= now
  }

  function Inside(start: int, now: int): Expense -> bool
  {
    e => InWindow(e, start, now)
  }

  function Window(xs: seq<Expense>, start: int, now: int): (r: seq<Expense>)
    ensures forall e :: e in r <==> e in xs && InWindow(e, start, now)
  {
    Filter(xs, Inside(start, now))
  }

  /** A record dated outside the window does not change it. */
  lemma WindowSkips(e: Expense, xs: seq<Expense>, start: int, now: int)
    requires !InWindow(e, start, now)
    ensures Window([e] + xs, start, now) == Window(xs, start, now)
  {
    assert ([e] + xs)[1..] == xs;
  }

  /** A window that every record falls into keeps them all, in order. */
  lemma {:induction false} WindowAll(xs: seq<Expense>, start: int, now: int)
    requires forall i :: 0 <= i < |xs| ==> InWindow(xs[i], start, now)
    ensures Window(xs, start, now) == xs
  {
    if |xs| > 0 {
      WindowAll(xs[1..], start, now);
      assert xs == [xs[0]] + xs[1..];
    }
  }

  /** The sum of the amounts of the records of type `t`, added up from the
      left as `reduce` does. */
  function Total(xs: seq<Expense>, t: TxType): real
  {
    if |xs| == 0 then 0.0
    else Total(xs[..|xs| - 1], t) + (if xs[|xs| - 1].txType == t then xs[|xs| - 1].amount else 0.0)
  }

  /** What was spent in one category: the sum of the amounts of the expense
      records with that category id. */
  function CategorySpend(xs: seq<Expense>, id: string): real
  {
    if |xs| == 0 then 0.0
    else
      var e := xs[|xs| - 1];
      CategorySpend(xs[..|xs| - 1], id)
      + (if e.txType == ExpenseTx && e.category.id == id then e.amount else 0.0)
  }

  /** Some expense record of `xs` has this category id. */
  ghost predicate SpentIn(xs: seq<Expense>, id: string)
  {
    exists i :: 0 <= i < |xs| && xs[i].txType == ExpenseTx && xs[i].category.id == id
  }

  // ---------------------------------------------------------------------
  // The per-category `Map`, kept as its entries in insertion order.

  datatype Tally = Tally(id: string, amount: real)

  function TallyId(t: Tally): string { t.id }
  function TallyAmount(t: Tally): real { t.amount }

  function Keys(ts: seq<Tally>): (r: seq<string>)
    ensures |r| == |ts| && forall k :: 0 <= k < |ts| ==> r[k] == ts[k].id
  {
    seq(|ts|, k requires 0 <= k < |ts| => ts[k].id)
  }

  /** `map.get(id) || 0`. */
  function Lookup(ts: seq<Tally>, id: string): real
  {
    if |ts| == 0 then 0.0 else if ts[0].id == id then ts[0].amount else Lookup(ts[1..], id)
  }

  /** `map.set(id, (map.get(id) || 0) + amount)`: an existing entry keeps its
      place, a new key goes to the end. */
  function AddTo(ts: seq<Tally>, id: string, amount: real): (r: seq<Tally>)
    ensures Keys(r) == if id in Keys(ts) then Keys(ts) else Keys(ts) + [id]
  {
    if |ts| == 0 then [Tally(id, amount)]
    else
      KeysCons(ts[0], ts[1..]);
      assert [ts[0]] + ts[1..] == ts;
      if ts[0].id == id then
        KeysCons(Tally(id, ts[0].amount + amount), ts[1..]);
        [Tally(id, ts[0].amount + amount)] + ts[1..]
      else
        var rest := AddTo(ts[1..], id, amount);
        KeysCons(ts[0], rest);
        [ts[0]] + rest
  }

  lemma KeysCons(t: Tally, ts: seq<Tally>)
    ensures Keys([t] + ts) == [t.id] + Keys(ts)
  {
  }

  /** Adding to an entry raises what `Lookup` finds for that key by the
      amount and leaves every other key alone. */
  lemma {:induction false} AddToLookup(ts: seq<Tally>, id: string, amount: real, key: string)
    ensures Lookup(AddTo(ts, id, amount), key) == Lookup(ts, key) + (if key == id then amount else 0.0)
  {
    if |ts| > 0 && ts[0].id != id {
      AddToLookup(ts[1..], id, amount, key);
      var r := AddTo(ts, id, amount);
      assert r[0] == ts[0] && r[1..] == AddTo(ts[1..], id, amount);
    } else if |ts| > 0 {
      var r := AddTo(ts, id, amount);
      assert r[1..] == ts[1..];
    }
  }

  /** Adding to the map raises the sum of its values by the amount. */
  lemma {:induction false} AddToSum(ts: seq<Tally>, id: string, amount: real)
    ensures Sum(AddTo(ts, id, amount), TallyAmount) == Sum(ts, TallyAmount) + amount
  {
    if |ts| > 0 && ts[0].id != id {
      AddToSum(ts[1..], id, amount);
      var r := AddTo(ts, id, amount);
      assert r[0] == ts[0] && r[1..] == AddTo(ts[1..], id, amount);
    } else if |ts| > 0 {
      var r := AddTo(ts, id, amount);
      assert r[1..] == ts[1..];
    }
  }

  /** The category `Map` after the `forEach` over the expense records. */
  function TallyOf(xs: seq<Expense>): seq<Tally>
  {
    if |xs| == 0 then []
    else
      var e := xs[|xs| - 1];
      var acc := TallyOf(xs[..|xs| - 1]);
      if e.txType == ExpenseTx then AddTo(acc, e.category.id, e.amount) else acc
  }

  /** The map agrees with the reference sums: every key is a category that
      was spent in, keys are distinct, the value for every id is what was
      spent in it, and the values add up to the total of expenses. */
  lemma TallyCorrect(xs: seq<Expense>)
    ensures NoDup(Keys(TallyOf(xs)))
    ensures forall id :: id in Keys(TallyOf(xs)) <==> SpentIn(xs, id)
    ensures forall id :: Lookup(TallyOf(xs), id) == CategorySpend(xs, id)
    ensures Sum(TallyOf(xs), TallyAmount) == Total(xs, ExpenseTx)
  {
    TallyKeys(xs);
    TallyLookup(xs);
    TallySum(xs);
  }

  /** The keys of the map are distinct and are the categories spent in. */
  lemma {:induction false} TallyKeys(xs: seq<Expense>)
    ensures NoDup(Keys(TallyOf(xs)))
    ensures forall id :: id in Keys(TallyOf(xs)) <==> SpentIn(xs, id)
  {
    if |xs| > 0 {
      var init := xs[..|xs| - 1];
      var e := xs[|xs| - 1];
      TallyKeys(init);
      forall id
        ensures SpentIn(xs, id) <==> SpentIn(init, id) || (e.txType == ExpenseTx && e.category.id == id)
      {
        SpentInLast(xs, id);
      }
    }
  }

  /** A record is spent in a category when an earlier one or the last one is. */
  lemma SpentInLast(xs: seq<Expense>, id: string)
    requires |xs| > 0
    ensures var e := xs[|xs| - 1];
      SpentIn(xs, id) <==> SpentIn(xs[..|xs| - 1], id) || (e.txType == ExpenseTx && e.category.id == id)
  {
    var init := xs[..|xs| - 1];
    if SpentIn(xs, id) {
      var i :| 0 <= i < |xs| && xs[i].txType == ExpenseTx && xs[i].category.id == id;
      if i < |xs| - 1 {
        assert init[i] == xs[i];
      }
    }
    if SpentIn(init, id) {
      var i :| 0 <= i < |init| && init[i].txType == ExpenseTx && init[i].category.id == id;
      assert xs[i] == init[i];
    }
  }

  /** The value the map holds for an id is what was spent in it. */
  lemma {:induction false} TallyLookup(xs: seq<Expense>)
    ensures forall id :: Lookup(TallyOf(xs), id) == CategorySpend(xs, id)
  {
    if |xs| > 0 {
      var init := xs[..|xs| - 1];
      var e := xs[|xs| - 1];
      TallyLookup(init);
      forall id
        ensures Lookup(AddTo(TallyOf(init), e.category.id, e.amount), id)
                == Lookup(TallyOf(init), id) + (if id == e.category.id then e.amount else 0.0)
      {
        AddToLookup(TallyOf(init), e.category.id, e.amount, id);
      }
    }
  }

  /** The values of the map add up to the total of expenses. */
  lemma {:induction false} TallySum(xs: seq<Expense>)
    ensures Sum(TallyOf(xs), TallyAmount) == Total(xs, ExpenseTx)
  {
    if |xs| > 0 {
      var init := xs[..|xs| - 1];
      var e := xs[|xs| - 1];
      TallySum(init);
      AddToSum(TallyOf(init), e.category.id, e.amount);
    }
  }

  /** With distinct keys, an entry's value is what `Lookup` finds for its key. */
  lemma {:induction false} LookupEntry(ts: seq<Tally>, k: int)
    requires 0 <= k < |ts|
    requires NoDup(Keys(ts))
    ensures Lookup(ts, ts[k].id) == ts[k].amount
  {
    if k > 0 {
      assert Keys(ts)[0] != Keys(ts)[k];
      assert Keys(ts[1..]) == Keys(ts)[1..];
      LookupEntry(ts[1..], k - 1);
    }
  }

  // ---------------------------------------------------------------------
  // Ranking

  function ShareAmount(c: CategoryShare): real { c.amount }
  function SharePercentage(c: CategoryShare): real { c.percentage }

  /** Comparator `b.amount - a.amount`. */
  predicate LargerFirst(a: CategoryShare, b: CategoryShare)
  {
    a.amount >= b.amount
  }

  lemma LargerFirstIsPreorder()
    ensures Sorting.TotalPreorder(LargerFirst)
  {
  }

  /** `c.percentage` is `c.amount` as a percentage of `total`. */
  predicate PercentOf(c: CategoryShare, total: real)
  {
    c.percentage * total == c.amount * 100.0
  }

  /** One map entry with its looked-up category and its share of `total`. */
  function ShareOf(t: Tally, cats: seq<Category>, total: real): (c: CategoryShare)
    requires total != 0.0
    ensures c.categoryId == t.id && c.amount == t.amount
    ensures c.category == FindCategory(cats, t.id)
    ensures PercentOf(c, total)
    ensures total > 0.0 && t.amount >= 0.0 ==> c.percentage >= 0.0
  {
    CategoryShare(t.id, FindCategory(cats, t.id), t.amount, Percent(t.amount, total))
  }

  function SharesOf(ts: seq<Tally>, cats: seq<Category>, total: real): (r: seq<CategoryShare>)
    requires total != 0.0 || |ts| == 0
    ensures |r| == |ts|
    ensures forall k :: 0 <= k < |ts| ==> r[k] == ShareOf(ts[k], cats, total)
  {
    if |ts| == 0 then [] else [ShareOf(ts[0], cats, total)] + SharesOf(ts[1..], cats, total)
  }

  /** Percentages can be formed: there is a non-zero total to divide by, or
      nothing to divide (in the source, a total of 0 with some expense
      record in the window divides 0 by 0). */
  predicate PercentagesDefined(w: seq<Expense>)
  {
    Total(w, ExpenseTx) != 0.0 || TallyOf(w) == []
  }

  /** The map is empty exactly when the window has no expense record. */
  lemma PercentagesDefinedIff(w: seq<Expense>)
    ensures PercentagesDefined(w)
        <==> Total(w, ExpenseTx) != 0.0 || forall i :: 0 <= i < |w| ==> w[i].txType != ExpenseTx
  {
    TallyCorrect(w);
    if |TallyOf(w)| > 0 {
      assert SpentIn(w, Keys(TallyOf(w))[0]);
    } else {
      forall i | 0 <= i < |w|
        ensures w[i].txType != ExpenseTx
      {
        if w[i].txType == ExpenseTx {
          assert SpentIn(w, w[i].category.id);
        }
      }
    }
  }

  /** Every category share before truncation, largest first. */
  function Ranked(w: seq<Expense>, cats: seq<Category>): (r: seq<CategoryShare>)
    requires PercentagesDefined(w)
    ensures Sorting.Sorted(r, LargerFirst)
    ensures multiset(r) == multiset(SharesOf(TallyOf(w), cats, Total(w, ExpenseTx)))
  {
    var shares := SharesOf(TallyOf(w), cats, Total(w, ExpenseTx));
    LargerFirstIsPreorder();
    Sorting.SortSorted(shares, LargerFirst);
    Sorting.Sort(shares, LargerFirst)
  }

  function Min(a: int, b: int): int { if a <= b then a else b }

  /** No two shares name the same category id. */
  predicate DistinctIds(cs: seq<CategoryShare>)
  {
    forall i, j :: 0 <= i < j < |cs| ==> cs[i].categoryId != cs[j].categoryId
  }

  /** A permutation of shares with distinct ids has distinct ids. */
  lemma DistinctIdsPermutation(a: seq<CategoryShare>, b: seq<CategoryShare>)
    requires multiset(a) == multiset(b) && DistinctIds(a)
    ensures DistinctIds(b)
  {
    forall i, j | 0 <= i < j < |b|
      ensures b[i].categoryId != b[j].categoryId
    {
      assert b[i] in multiset(a) && b[j] in multiset(a);
      var p :| 0 <= p < |a| && a[p] == b[i];
      var q :| 0 <= q < |a| && a[q] == b[j];
      OnlyOnce(a, p);
      if b[j] == b[i] {
        TwiceCount(b, i, j);
      } else {
        assert p != q;
      }
    }
  }

  /** An element found at a single position occurs once. */
  lemma {:induction false} OnlyOnce<T>(s: seq<T>, p: int)
    requires 0 <= p < |s|
    requires forall r :: 0 <= r < |s| && r != p ==> s[r] != s[p]
    ensures multiset(s)[s[p]] == 1
  {
    assert s == s[..p] + [s[p]] + s[p + 1..];
    assert s[p] !in multiset(s[..p]);
    assert s[p] !in multiset(s[p + 1..]);
  }

  /** The listed categories are distinct, as the keys of a `Map` are. */
  lemma TopDistinct(w: seq<Expense>, cats: seq<Category>)
    requires PercentagesDefined(w)
    ensures DistinctIds(Top(w, cats))
  {
    var ts := TallyOf(w);
    var shares := SharesOf(ts, cats, Total(w, ExpenseTx));
    TallyKeys(w);
    assert DistinctIds(shares) by {
      forall i, j | 0 <= i < j < |shares|
        ensures shares[i].categoryId != shares[j].categoryId
      {
        assert Keys(ts)[i] != Keys(ts)[j];
      }
    }
    var ranked := Ranked(w, cats);
    DistinctIdsPermutation(shares, ranked);
  }

  /** The five largest categories: the ranked shares cut after five. */
  function Top(w: seq<Expense>, cats: seq<Category>): (r: seq<CategoryShare>)
    requires PercentagesDefined(w)
    ensures |r| <= 5
    ensures Sorting.Sorted(r, LargerFirst)
    ensures forall c :: c in r ==>
              && SpentIn(w, c.categoryId)
              && c.amount == CategorySpend(w, c.categoryId)
              && c.category == FindCategory(cats, c.categoryId)
              && PercentOf(c, Total(w, ExpenseTx))
  {
    var ranked := Ranked(w, cats);
    var top := ranked[..Min(5, |ranked|)];
    TopFacts(w, cats, top);
    top
  }

  /** `getAnalytics` over the window [start, now]. */
  function Analyze(s: ExpenseStore.Store, start: int, now: int): (r: Analytics)
    requires PercentagesDefined(Window(s.expenses, start, now))
    ensures var w := Window(s.expenses, start, now);
      && r.totalIncome == Total(w, IncomeTx)
      && r.totalExpenses == Total(w, ExpenseTx)
      && r.netBalance == r.totalIncome - r.totalExpenses
      && r.savingsRate == SavingsRate(r.totalIncome, r.totalExpenses)
      && r.averageDaily * 30.0 == r.totalExpenses
      && r.monthlyTrend == []
    ensures r.topCategories == Top(Window(s.expenses, start, now), s.categories)
  {
    var w := Window(s.expenses, start, now);
    var income := Total(w, IncomeTx);
    var expenses := Total(w, ExpenseTx);
    Analytics(
      income,
      expenses,
      income - expenses,
      Top(w, s.categories),
      [],
      expenses / 30.0,
      SavingsRate(income, expenses))
  }

  /** The savings rate: the net balance as a percentage of income, or 0
      without income. */
  function SavingsRate(income: real, expenses: real): (q: real)
    ensures income > 0.0 ==> q * income == (income - expenses) * 100.0
    ensures income <= 0.0 ==> q == 0.0
  {
    if income > 0.0 then ((income - expenses) / income) * 100.0 else 0.0
  }

  lemma TopFacts(w: seq<Expense>, cats: seq<Category>, top: seq<CategoryShare>)
    requires PercentagesDefined(w)
    requires var ranked := Ranked(w, cats); top == ranked[..Min(5, |ranked|)]
    ensures forall c :: c in top ==>
              && SpentIn(w, c.categoryId)
              && c.amount == CategorySpend(w, c.categoryId)
              && c.category == FindCategory(cats, c.categoryId)
              && PercentOf(c, Total(w, ExpenseTx))
  {
    var ranked := Ranked(w, cats);
    var total := Total(w, ExpenseTx);
    var ts := TallyOf(w);
    var shares := SharesOf(ts, cats, total);
    TallyCorrect(w);
    forall c | c in top
      ensures && SpentIn(w, c.categoryId)
              && c.amount == CategorySpend(w, c.categoryId)
              && c.category == FindCategory(cats, c.categoryId)
              && PercentOf(c, total)
    {
      var j :| 0 <= j < |top| && top[j] == c;
      assert ranked[j] == c;
      assert c in multiset(shares);
      var k :| 0 <= k < |shares| && shares[k] == c;
      assert c == ShareOf(ts[k], cats, total);
      assert Keys(ts)[k] == c.categoryId;
      LookupEntry(ts, k);
    }
  }

  // ---------------------------------------------------------------------
  // Properties of the summary

  /** The amounts of the shares are the amounts of the map entries. */
  lemma {:induction false} SharesAmountSum(ts: seq<Tally>, cats: seq<Category>, total: real)
    requires total != 0.0 || |ts| == 0
    ensures Sum(SharesOf(ts, cats, total), ShareAmount) == Sum(ts, TallyAmount)
  {
    if |ts| > 0 {
      SharesAmountSum(ts[1..], cats, total);
      assert SharesOf(ts, cats, total)[1..] == SharesOf(ts[1..], cats, total);
    }
  }

  /** The percentages of the shares are the entries' amounts scaled to `total`. */
  lemma {:induction false} SharesPercentSum(ts: seq<Tally>, cats: seq<Category>, total: real)
    requires total != 0.0
    ensures Sum(SharesOf(ts, cats, total), SharePercentage) * total == Sum(ts, TallyAmount) * 100.0
  {
    if |ts| > 0 {
      var sh := SharesOf(ts, cats, total);
      SharesPercentSum(ts[1..], cats, total);
      assert sh[1..] == SharesOf(ts[1..], cats, total);
      var p, ps := sh[0].percentage, Sum(sh[1..], SharePercentage);
      var a, as_ := ts[0].amount, Sum(ts[1..], TallyAmount);
      assert PercentOf(sh[0], total);
      assert (p + ps) * total == p * total + ps * total;
      assert (a + as_) * 100.0 == a * 100.0 + as_ * 100.0;
    }
  }

  /** When the window has no record, every figure is zero and no category
      is listed. */
  lemma AnalyzeEmpty(s: ExpenseStore.Store, start: int, now: int)
    requires s.expenses == []
    ensures PercentagesDefined(Window(s.expenses, start, now))
    ensures var r := Analyze(s, start, now);
      && r.totalIncome == 0.0 && r.totalExpenses == 0.0 && r.netBalance == 0.0
      && r.savingsRate == 0.0 && r.averageDaily == 0.0 && r.topCategories == []
  {
  }

  /** Adding a record dated outside the window leaves the summary unchanged. */
  lemma AddOutsideWindow(s: ExpenseStore.Store, d: Draft, id: string, at: int, start: int, now: int)
    requires !(start <= DayStart(d.date) <= now)
    requires PercentagesDefined(Window(s.expenses, start, now))
    ensures var t := ExpenseStore.AddExpense(s, d, id, at).0;
      && PercentagesDefined(Window(t.expenses, start, now))
      && Analyze(t, start, now) == Analyze(s, start, now)
  {
    var (t, e) := ExpenseStore.AddExpense(s, d, id, at);
    assert e.date == d.date;
    WindowSkips(e, s.expenses, start, now);
    SameWindowSameSummary(s, t, start, now);
  }

  /** The summary depends only on the records in the window and the categories. */
  lemma SameWindowSameSummary(s: ExpenseStore.Store, t: ExpenseStore.Store, start: int, now: int)
    requires Window(s.expenses, start, now) == Window(t.expenses, start, now)
    requires s.categories == t.categories
    requires PercentagesDefined(Window(s.expenses, start, now))
    ensures PercentagesDefined(Window(t.expenses, start, now))
    ensures Analyze(s, start, now) == Analyze(t, start, now)
  {
  }

  /** With non-negative amounts, a category's spend lies between 0 and the
      total of expenses. */
  lemma {:induction false} SpendWithinTotal(xs: seq<Expense>, id: string)
    requires forall i :: 0 <= i < |xs| ==> xs[i].amount >= 0.0
    ensures 0.0 <= CategorySpend(xs, id) <= Total(xs, ExpenseTx)
  {
    if |xs| > 0 {
      SpendWithinTotal(xs[..|xs| - 1], id);
    }
  }

  /** Every share before truncation is a category's spend in the window. */
  lemma RankedAmounts(w: seq<Expense>, cats: seq<Category>, c: CategoryShare)
    requires PercentagesDefined(w)
    requires c in Ranked(w, cats)
    ensures SpentIn(w, c.categoryId) && c.amount == CategorySpend(w, c.categoryId)
  {
    var ts := TallyOf(w);
    var shares := SharesOf(ts, cats, Total(w, ExpenseTx));
    TallyCorrect(w);
    assert c in multiset(shares);
    var k :| 0 <= k < |shares| && shares[k] == c;
    assert Keys(ts)[k] == c.categoryId;
    LookupEntry(ts, k);
  }

  lemma RankedWithinTotal(w: seq<Expense>, cats: seq<Category>)
    requires PercentagesDefined(w)
    requires forall i :: 0 <= i < |w| ==> w[i].amount >= 0.0
    ensures forall c :: c in Ranked(w, cats) ==> 0.0 <= ShareAmount(c) <= Total(w, ExpenseTx)
  {
    forall c | c in Ranked(w, cats)
      ensures 0.0 <= c.amount <= Total(w, ExpenseTx)
    {
      RankedAmounts(w, cats, c);
      SpendWithinTotal(w, c.categoryId);
    }
  }

  /** Every ranked share carries its percentage of the total of expenses. */
  lemma RankedPercentOf(w: seq<Expense>, cats: seq<Category>, c: CategoryShare)
    requires PercentagesDefined(w)
    requires c in Ranked(w, cats)
    ensures Total(w, ExpenseTx) != 0.0
    ensures PercentOf(c, Total(w, ExpenseTx))
    ensures Total(w, ExpenseTx) > 0.0 && c.amount >= 0.0 ==> c.percentage >= 0.0
  {
    var shares := SharesOf(TallyOf(w), cats, Total(w, ExpenseTx));
    assert c in multiset(shares);
    var k :| 0 <= k < |shares| && shares[k] == c;
  }

  /** The ranked amounts add up to the total of expenses. */
  lemma RankedAmountSum(w: seq<Expense>, cats: seq<Category>)
    requires PercentagesDefined(w)
    ensures Sum(Ranked(w, cats), ShareAmount) == Total(w, ExpenseTx)
  {
    var ts := TallyOf(w);
    var shares := SharesOf(ts, cats, Total(w, ExpenseTx));
    Sorting.SortSum(shares, LargerFirst, ShareAmount);
    SharesAmountSum(ts, cats, Total(w, ExpenseTx));
    TallySum(w);
  }

  /** The ranked percentages add up to 100 when something was spent. */
  lemma RankedPercentSum(w: seq<Expense>, cats: seq<Category>)
    requires PercentagesDefined(w)
    requires Total(w, ExpenseTx) != 0.0
    ensures Sum(Ranked(w, cats), SharePercentage) == 100.0
  {
    TallySum(w);
    SortedPercentSum(TallyOf(w), cats, Total(w, ExpenseTx));
  }

  /** Shares of the sum of a map's values, in any order, add up to 100. */
  lemma SortedPercentSum(ts: seq<Tally>, cats: seq<Category>, total: real)
    requires total != 0.0 && Sum(ts, TallyAmount) == total
    ensures Sum(Sorting.Sort(SharesOf(ts, cats, total), LargerFirst), SharePercentage) == 100.0
  {
    var shares := SharesOf(ts, cats, total);
    Sorting.SortSum(shares, LargerFirst, SharePercentage);
    SharesPercentSum(ts, cats, total);
    WholeIsHundred(Sum(shares, SharePercentage), total);
  }

  /** Parts that make up the whole make up 100 percent of it. */
  lemma WholeIsHundred(x: real, total: real)
    requires total != 0.0
    requires x * total == total * 100.0
    ensures x == 100.0
  {
    assert (x - 100.0) * total == 0.0;
  }

  /** Every category spent in has a ranked share. */
  lemma RankedCovers(w: seq<Expense>, cats: seq<Category>, id: string)
    requires PercentagesDefined(w)
    requires SpentIn(w, id)
    ensures exists c :: c in Ranked(w, cats) && c.categoryId == id
  {
    var ts := TallyOf(w);
    var shares := SharesOf(ts, cats, Total(w, ExpenseTx));
    TallyCorrect(w);
    var k :| 0 <= k < |ts| && Keys(ts)[k] == id;
    assert shares[k] in multiset(Ranked(w, cats));
  }

  /** With non-negative amounts, no listed category exceeds the total of
      expenses, and neither do the listed categories together. */
  lemma TopWithinTotal(w: seq<Expense>, cats: seq<Category>)
    requires PercentagesDefined(w)
    requires forall i :: 0 <= i < |w| ==> w[i].amount >= 0.0
    ensures forall c :: c in Top(w, cats) ==> 0.0 <= c.amount <= Total(w, ExpenseTx)
    ensures Sum(Top(w, cats), ShareAmount) <= Total(w, ExpenseTx)
  {
    var ranked := Ranked(w, cats);
    RankedWithinTotal(w, cats);
    SumPrefixBound(ranked, Min(5, |ranked|), ShareAmount);
    RankedAmountSum(w, cats);
  }

  /** When at most five categories were spent in, every one of them is
      listed, their amounts add up to the total of expenses and their
      percentages to 100. */
  lemma FewCategoriesAllListed(w: seq<Expense>, cats: seq<Category>)
    requires PercentagesDefined(w)
    requires |TallyOf(w)| <= 5
    ensures forall id :: SpentIn(w, id) ==> exists c :: c in Top(w, cats) && c.categoryId == id
    ensures Sum(Top(w, cats), ShareAmount) == Total(w, ExpenseTx)
    ensures Total(w, ExpenseTx) != 0.0 ==> Sum(Top(w, cats), SharePercentage) == 100.0
  {
    var ranked := Ranked(w, cats);
    assert Top(w, cats) == ranked by {
      assert |ranked| == |TallyOf(w)|;
      assert ranked[..|ranked|] == ranked;
    }
    forall id | SpentIn(w, id)
      ensures exists c :: c in ranked && c.categoryId == id
    {
      RankedCovers(w, cats, id);
    }
    RankedAmountSum(w, cats);
    if Total(w, ExpenseTx) != 0.0 {
      RankedPercentSum(w, cats);
    }
  }

  /** A category that was spent in but is not listed is left out only
      because five categories with at least as much spend are listed. */
  lemma TopAreLargest(w: seq<Expense>, cats: seq<Category>, id: string)
    requires PercentagesDefined(w)
    requires SpentIn(w, id)
    requires forall c :: c in Top(w, cats) ==> c.categoryId != id
    ensures |Top(w, cats)| == 5
    ensures forall c :: c in Top(w, cats) ==> c.amount >= CategorySpend(w, id)
  {
    var top := Top(w, cats);
    var ranked := Ranked(w, cats);
    var ts := TallyOf(w);
    var shares := SharesOf(ts, cats, Total(w, ExpenseTx));
    TallyCorrect(w);
    var k :| 0 <= k < |ts| && Keys(ts)[k] == id;
    LookupEntry(ts, k);
    assert shares[k] in multiset(ranked);
    var j :| 0 <= j < |ranked| && ranked[j] == shares[k];
    forall i | 0 <= i < |top|
      ensures top[i].categoryId != id
    {
      assert top[i] in top;
    }
    assert j >= |top|;
    PrefixAtLeast(ranked, |top|, j);
  }

  /** In a ranked list, every element before position `j` has at least
      the amount of the element at `j`. */
  lemma PrefixAtLeast(ranked: seq<CategoryShare>, n: nat, j: nat)
    requires Sorting.Sorted(ranked, LargerFirst)
    requires n <= j < |ranked|
    ensures forall c :: c in ranked[..n] ==> c.amount >= ranked[j].amount
  {
    forall c | c in ranked[..n]
      ensures c.amount >= ranked[j].amount
    {
      var i :| 0 <= i < n && ranked[..n][i] == c;
      assert LargerFirst(ranked[i], ranked[j]);
    }
  }

  /** Ties in amount keep the order in which their categories first
      appeared in the window. */
  lemma RankedStable(w: seq<Expense>, cats: seq<Category>, k: CategoryShare)
    requires PercentagesDefined(w)
    ensures Sorting.Ties(Ranked(w, cats), LargerFirst, k)
         == Sorting.Ties(SharesOf(TallyOf(w), cats, Total(w, ExpenseTx)), LargerFirst, k)
  {
    LargerFirstIsPreorder();
    Sorting.SortStable(SharesOf(TallyOf(w), cats, Total(w, ExpenseTx)), LargerFirst, k);
  }

  /** With some income, the savings rate is positive exactly when income
      exceeds expenses, negative exactly when expenses exceed income, and at
      most 100 when expenses are not negative. */
  lemma SavingsRateSign(s: ExpenseStore.Store, start: int, now: int)
    requires PercentagesDefined(Window(s.expenses, start, now))
    ensures var r := Analyze(s, start, now);
      r.totalIncome > 0.0 ==>
        && (r.savingsRate > 0.0 <==> r.totalIncome > r.totalExpenses)
        && (r.savingsRate < 0.0 <==> r.totalIncome < r.totalExpenses)
        && (r.totalExpenses >= 0.0 ==> r.savingsRate <= 100.0)
  {
    var r := Analyze(s, start, now);
    if r.totalIncome > 0.0 {
      RateFacts(r.totalIncome, r.totalExpenses);
    }
  }

  lemma RateFacts(i: real, e: real)
    requires i > 0.0
    ensures var q := SavingsRate(i, e);
      && (q > 0.0 <==> i > e)
      && (q < 0.0 <==> i < e)
      && (e >= 0.0 ==> q <= 100.0)
  {
    var q := SavingsRate(i, e);
    SignOfProduct(q, i);
    assert (-q) * i == (e - i) * 100.0;
    SignOfProduct(-q, i);
    assert (100.0 - q) * i == e * 100.0;
    SignOfProduct(100.0 - q, i);
  }

  /** A positive factor keeps the sign of the other. */
  lemma SignOfProduct(x: real, y: real)
    requires y > 0.0
    ensures x * y > 0.0 <==> x > 0.0
  {
    if x <= 0.0 {
      assert (-x) * y >= 0.0;
    }
  }

  /** The week window: a record dated today or in the six days before is
      in, one dated after today or more than seven days back is out, and
      one dated exactly seven days back is in only when now is midnight. */
  lemma WeekWindow(c: Clock, e: Expense)
    ensures var today := c.now / DayMs;
      var start := WindowStart(Week, c);
      && (today - 6 <= e.date <= today ==> InWindow(e, start, c.now))
      && (e.date > today || e.date < today - 7 ==> !InWindow(e, start, c.now))
      && (e.date == today - 7 ==> (InWindow(e, start, c.now) <==> c.now % DayMs == 0))
  {
    var today := c.now / DayMs;
    assert c.now == today * DayMs + c.now % DayMs;
    assert 0 <= c.now % DayMs < DayMs;
  }

  /** The figures for one month: 1000 earned, 400 spent on one category
      and 100 on another give a net balance of 500 and a savings rate of
      50%. */
  lemma MonthExample(s: ExpenseStore.Store, start: int, now: int,
                     salary: Expense, food: Expense, bus: Expense)
    requires salary.txType == IncomeTx && salary.amount == 1000.0
    requires food.txType == ExpenseTx && food.amount == 400.0
    requires bus.txType == ExpenseTx && bus.amount == 100.0
    requires food.category.id != bus.category.id
    requires InWindow(salary, start, now) && InWindow(food, start, now) && InWindow(bus, start, now)
    requires s.expenses == [bus, food, salary]
    ensures PercentagesDefined(Window(s.expenses, start, now))
    ensures var r := Analyze(s, start, now);
      && r.totalIncome == 1000.0 && r.totalExpenses == 500.0 && r.netBalance == 500.0
      && r.savingsRate == 50.0
  {
    MonthWindow(s.expenses, start, now, salary, food, bus);
    assert SavingsRate(1000.0, 500.0) == 50.0;
  }

  /** In the same month the larger category comes first, at 80%, and the
      smaller follows at 20%. */
  lemma MonthExampleTop(s: ExpenseStore.Store, start: int, now: int,
                        salary: Expense, food: Expense, bus: Expense)
    requires salary.txType == IncomeTx && salary.amount == 1000.0
    requires food.txType == ExpenseTx && food.amount == 400.0
    requires bus.txType == ExpenseTx && bus.amount == 100.0
    requires food.category.id != bus.category.id
    requires InWindow(salary, start, now) && InWindow(food, start, now) && InWindow(bus, start, now)
    requires s.expenses == [bus, food, salary]
    ensures PercentagesDefined(Window(s.expenses, start, now))
    ensures Analyze(s, start, now).topCategories == [
              CategoryShare(food.category.id, FindCategory(s.categories, food.category.id), 400.0, 80.0),
              CategoryShare(bus.category.id, FindCategory(s.categories, bus.category.id), 100.0, 20.0)]
  {
    MonthWindow(s.expenses, start, now, salary, food, bus);
    MonthTop(Window(s.expenses, start, now), s.categories, bus.category.id, food.category.id);
  }

  /** The month's window holds all three records. */
  lemma MonthWindow(xs: seq<Expense>, start: int, now: int, salary: Expense, food: Expense, bus: Expense)
    requires salary.txType == IncomeTx && salary.amount == 1000.0
    requires food.txType == ExpenseTx && food.amount == 400.0
    requires bus.txType == ExpenseTx && bus.amount == 100.0
    requires food.category.id != bus.category.id
    requires InWindow(salary, start, now) && InWindow(food, start, now) && InWindow(bus, start, now)
    requires xs == [bus, food, salary]
    ensures var w := Window(xs, start, now);
      && Total(w, ExpenseTx) == 500.0
      && Total(w, IncomeTx) == 1000.0
      && TallyOf(w) == [Tally(bus.category.id, 100.0), Tally(food.category.id, 400.0)]
  {
    WindowAll(xs, start, now);
    MonthFigures(salary, food, bus);
  }

  lemma MonthFigures(salary: Expense, food: Expense, bus: Expense)
    requires salary.txType == IncomeTx && salary.amount == 1000.0
    requires food.txType == ExpenseTx && food.amount == 400.0
    requires bus.txType == ExpenseTx && bus.amount == 100.0
    requires food.category.id != bus.category.id
    ensures Total([bus, food, salary], ExpenseTx) == 500.0
    ensures Total([bus, food, salary], IncomeTx) == 1000.0
    ensures TallyOf([bus, food, salary])
         == [Tally(bus.category.id, 100.0), Tally(food.category.id, 400.0)]
  {
    var xs := [bus, food, salary];
    assert xs[..2] == [bus, food] && [bus, food][..1] == [bus] && [bus][..0] == [];
    assert Total([bus], ExpenseTx) == 100.0;
    assert Total([bus], IncomeTx) == Total([], IncomeTx) + 0.0;
    assert Total([bus, food], ExpenseTx) == 500.0 && Total([bus, food], IncomeTx) == 0.0;
    var ts := [Tally(bus.category.id, 100.0), Tally(food.category.id, 400.0)];
    assert TallyOf([bus]) == [Tally(bus.category.id, 100.0)];
    assert AddTo([Tally(bus.category.id, 100.0)], food.category.id, 400.0) == ts by {
      assert [Tally(bus.category.id, 100.0)][1..] == [];
    }
    assert TallyOf([bus, food]) == ts;
  }

  lemma MonthTop(w: seq<Expense>, cats: seq<Category>, b: string, f: string)
    requires TallyOf(w) == [Tally(b, 100.0), Tally(f, 400.0)]
    requires Total(w, ExpenseTx) == 500.0
    ensures PercentagesDefined(w)
    ensures Top(w, cats) == [CategoryShare(f, FindCategory(cats, f), 400.0, 80.0),
                             CategoryShare(b, FindCategory(cats, b), 100.0, 20.0)]
  {
    var fs := CategoryShare(f, FindCategory(cats, f), 400.0, 80.0);
    var bs := CategoryShare(b, FindCategory(cats, b), 100.0, 20.0);
    MonthShares(cats, b, f);
    MonthOrder(bs, fs);
    var ranked := Ranked(w, cats);
    assert ranked == [fs, bs];
    assert ranked[..Min(5, |ranked|)] == ranked;
  }

  lemma MonthShares(cats: seq<Category>, b: string, f: string)
    ensures SharesOf([Tally(b, 100.0), Tally(f, 400.0)], cats, 500.0)
         == [CategoryShare(b, FindCategory(cats, b), 100.0, 20.0),
             CategoryShare(f, FindCategory(cats, f), 400.0, 80.0)]
  {
    assert Percent(100.0, 500.0) == 20.0;
    assert Percent(400.0, 500.0) == 80.0;
  }

  lemma MonthOrder(bs: CategoryShare, fs: CategoryShare)
    requires bs.amount == 100.0 && fs.amount == 400.0
    ensures Sorting.Sort([bs, fs], LargerFirst) == [fs, bs]
  {
    assert Sorting.Sort([fs], LargerFirst) == [fs] by {
      assert [fs][1..] == [];
    }
    assert Sorting.Insert(bs, [fs], LargerFirst) == [fs, bs] by {
      assert [fs][1..] == [];
    }
    assert [bs, fs][1..] == [fs];
  }

  /** With non-negative amounts no ranked percentage is negative. */
  lemma RankedPercentagesSign(w: seq<Expense>, cats: seq<Category>)
    requires PercentagesDefined(w)
    requires forall i :: 0 <= i < |w| ==> w[i].amount >= 0.0
    ensures forall c :: c in Ranked(w, cats) ==> SharePercentage(c) >= 0.0
  {
    forall c | c in Ranked(w, cats)
      ensures SharePercentage(c) >= 0.0
    {
      RankedShareSign(w, cats, c);
    }
  }

  lemma RankedShareSign(w: seq<Expense>, cats: seq<Category>, c: CategoryShare)
    requires PercentagesDefined(w)
    requires forall i :: 0 <= i < |w| ==> w[i].amount >= 0.0
    requires c in Ranked(w, cats)
    ensures c.percentage >= 0.0
  {
    var total := Total(w, ExpenseTx);
    assert 0.0 <= c.amount <= total by {
      RankedAmounts(w, cats, c);
      SpendWithinTotal(w, c.categoryId);
    }
    assert total != 0.0 && (total > 0.0 && c.amount >= 0.0 ==> c.percentage >= 0.0) by {
      RankedPercentOf(w, cats, c);
    }
  }

  /** With non-negative amounts, no listed percentage is negative and the
      listed percentages add up to at most 100. */
  lemma TopPercentages(w: seq<Expense>, cats: seq<Category>)
    requires PercentagesDefined(w)
    requires forall i :: 0 <= i < |w| ==> w[i].amount >= 0.0
    ensures forall c :: c in Top(w, cats) ==> c.percentage >= 0.0
    ensures Sum(Top(w, cats), SharePercentage) <= 100.0
  {
    var ranked := Ranked(w, cats);
    assert |ranked| == |TallyOf(w)| by {
      assert |multiset(ranked)| == |multiset(SharesOf(TallyOf(w), cats, Total(w, ExpenseTx)))|;
    }
    RankedPercentagesSign(w, cats);
    var top := Top(w, cats);
    assert top == ranked[..Min(5, |ranked|)];
    forall c | c in top
      ensures c.percentage >= 0.0
    {
      assert SharePercentage(c) >= 0.0;
    }
    SumPrefixBound(ranked, Min(5, |ranked|), SharePercentage);
    if |ranked| > 0 {
      RankedPercentSum(w, cats);
    }
  }
}
