/** The in-memory transaction store of `client/lib/expense-store.ts`: the
    default category and payment-method catalogues, and add / update /
    delete / query over the ordered list of records. The store is a value;
    each operation returns the next store. Fresh ids and the clock are
    parameters. */
module ExpenseStore {
  import opened Types
  import opened Seqs
  import Sorting
  import Text

  const DefaultCategories: seq<Category> := [
    Category("1", "Food & Dining", "🍽️", "#ef4444", Some(500.0), true),
    Category("2", "Transportation", "🚗", "#3b82f6", Some(300.0), true),
    Category("3", "Shopping", "🛍️", "#8b5cf6", Some(200.0), true),
    Category("4", "Entertainment", "🎬", "#f59e0b", Some(150.0), true),
    Category("5", "Bills & Utilities", "⚡", "#10b981", Some(800.0), true),
    Category("6", "Healthcare", "🏥", "#ec4899", Some(200.0), true),
    Category("7", "Education", "📚", "#6366f1", Some(300.0), true),
    Category("8", "Travel", "✈️", "#14b8a6", Some(400.0), true),
    Category("9", "Income", "💰", "#22c55e", Some(0.0), true),
    Category("10", "Savings", "🏦", "#0ea5e9", Some(0.0), true)
  ]

  const DefaultPaymentMethods: seq<PaymentMethod> := [
    PaymentMethod("1", "Cash", Cash, "💵", "#22c55e"),
    PaymentMethod("2", "Credit Card", Card, "💳", "#3b82f6"),
    PaymentMethod("3", "Debit Card", Card, "💳", "#8b5cf6"),
    PaymentMethod("4", "Bank Transfer", Bank, "🏦", "#0ea5e9"),
    PaymentMethod("5", "PayPal", Digital, "📱", "#0070ba"),
    PaymentMethod("6", "Crypto", Crypto, "₿", "#f7931a")
  ]

  /** With distinct ids, every entry of a catalogue is found by its own id. */
  lemma {:induction false} FindOwnCategory(cats: seq<Category>, i: int)
    requires 0 <= i < |cats|
    requires forall a, b :: 0 <= a < b < |cats| ==> cats[a].id != cats[b].id
    ensures FindCategory(cats, cats[i].id) == Some(cats[i])
  {
    if i > 0 {
      FindOwnCategory(cats[1..], i - 1);
    }
  }

  lemma {:induction false} FindOwnMethod(methods: seq<PaymentMethod>, i: int)
    requires 0 <= i < |methods|
    requires forall a, b :: 0 <= a < b < |methods| ==> methods[a].id != methods[b].id
    ensures FindMethod(methods, methods[i].id) == Some(methods[i])
  {
    if i > 0 {
      FindOwnMethod(methods[1..], i - 1);
    }
  }

  /** The catalogues have 10 and 6 entries with the ids "1", "2", ... in
      order, so every entry is found by its own id. */
  lemma DefaultCatalogues()
    ensures |DefaultCategories| == 10 && |DefaultPaymentMethods| == 6
    ensures forall i :: 0 <= i < |DefaultCategories| ==>
              FindCategory(DefaultCategories, DefaultCategories[i].id) == Some(DefaultCategories[i])
    ensures forall i :: 0 <= i < |DefaultPaymentMethods| ==>
              FindMethod(DefaultPaymentMethods, DefaultPaymentMethods[i].id) == Some(DefaultPaymentMethods[i])
  {
    var ids := seq(10, i requires 0 <= i < 10 => DefaultCategories[i].id);
    assert ids == ["1", "2", "3", "4", "5", "6", "7", "8", "9", "10"];
    forall i | 0 <= i < |DefaultCategories|
      ensures FindCategory(DefaultCategories, DefaultCategories[i].id) == Some(DefaultCategories[i])
    {
      FindOwnCategory(DefaultCategories, i);
    }
    forall i | 0 <= i < |DefaultPaymentMethods|
      ensures FindMethod(DefaultPaymentMethods, DefaultPaymentMethods[i].id) == Some(DefaultPaymentMethods[i])
    {
      FindOwnMethod(DefaultPaymentMethods, i);
    }
  }

  datatype Store = Store(
    expenses: seq<Expense>,
    categories: seq<Category>,
    budgets: seq<Budget>,
    paymentMethods: seq<PaymentMethod>)

  /** The state before anything is loaded or added. */
  const Initial: Store := Store([], DefaultCategories, [], DefaultPaymentMethods)

  /** `i` is the first position of a record with this id. */
  ghost predicate FirstWithId(xs: seq<Expense>, id: string, i: int)
  {
    0 <= i < |xs| && xs[i].id == id && forall j :: 0 <= j < i ==> xs[j].id != id
  }

  ghost predicate HasId(xs: seq<Expense>, id: string)
  {
    exists i :: 0 <= i < |xs| && xs[i].id == id
  }

  /** `findIndex(e => e.id === id)`, with `None` for -1. */
  function IndexOf(xs: seq<Expense>, id: string): (r: Option<nat>)
    ensures r.None? <==> !HasId(xs, id)
    ensures r.Some? ==> FirstWithId(xs, id, r.value)
  {
    if |xs| == 0 then None
    else if xs[0].id == id then Some(0)
    else
      match IndexOf(xs[1..], id)
      case None =>
        assert forall i :: 1 <= i < |xs| ==> xs[i].id == xs[1..][i - 1].id;
        None
      case Some(k) => Some(k + 1)
  }

  /** `addExpense`: the new record gets the fresh id and `now` as both
      timestamps, and goes to the front of the list. */
  function AddExpense(s: Store, d: Draft, freshId: string, now: int): (r: (Store, Expense))
    ensures r.0.expenses == [r.1] + s.expenses
    ensures DraftOf(r.1) == d && r.1.id == freshId
    ensures r.1.createdAt == now && r.1.updatedAt == now
    ensures r.0 == s.(expenses := r.0.expenses)
  {
    var e := Stamp(d, freshId, now, now);
    (s.(expenses := [e] + s.expenses), e)
  }

  /** A `Partial<Expense>`: `None` leaves a field alone. For optional
      fields, `Some(None)` sets the field to undefined. `updatedAt` is not
      listed because the store always overwrites it. */
  datatype Patch = Patch(
    id: Option<string>,
    title: Option<string>,
    amount: Option<real>,
    category: Option<Category>,
    description: Option<Option<string>>,
    date: Option<int>,
    txType: Option<TxType>,
    paymentMethod: Option<PaymentMethod>,
    isRecurring: Option<bool>,
    recurringInterval: Option<Option<Interval>>,
    tags: Option<seq<string>>,
    currency: Option<string>,
    location: Option<Option<string>>,
    attachments: Option<Option<seq<string>>>,
    createdAt: Option<int>)

  const NoChange: Patch :=
    Patch(None, None, None, None, None, None, None, None, None, None, None, None, None, None, None)

  /** `{ ...e, ...p, updatedAt: now }`: each field the patch carries takes
      the patch's value, every other field keeps the record's, and the
      update time is always `now`. */
  function Merge(e: Expense, p: Patch, now: int): (r: Expense)
    ensures p.id.Some? ==> r.id == p.id.value
    ensures p.id.None? ==> r.id == e.id
    ensures p.title.Some? ==> r.title == p.title.value
    ensures p.title.None? ==> r.title == e.title
    ensures p.amount.Some? ==> r.amount == p.amount.value
    ensures p.amount.None? ==> r.amount == e.amount
    ensures p.category.Some? ==> r.category == p.category.value
    ensures p.category.None? ==> r.category == e.category
    ensures p.description.Some? ==> r.description == p.description.value
    ensures p.description.None? ==> r.description == e.description
    ensures p.date.Some? ==> r.date == p.date.value
    ensures p.date.None? ==> r.date == e.date
    ensures p.txType.Some? ==> r.txType == p.txType.value
    ensures p.txType.None? ==> r.txType == e.txType
    ensures p.paymentMethod.Some? ==> r.paymentMethod == p.paymentMethod.value
    ensures p.paymentMethod.None? ==> r.paymentMethod == e.paymentMethod
    ensures p.isRecurring.Some? ==> r.isRecurring == p.isRecurring.value
    ensures p.isRecurring.None? ==> r.isRecurring == e.isRecurring
    ensures p.recurringInterval.Some? ==> r.recurringInterval == p.recurringInterval.value
    ensures p.recurringInterval.None? ==> r.recurringInterval == e.recurringInterval
    ensures p.tags.Some? ==> r.tags == p.tags.value
    ensures p.tags.None? ==> r.tags == e.tags
    ensures p.currency.Some? ==> r.currency == p.currency.value
    ensures p.currency.None? ==> r.currency == e.currency
    ensures p.location.Some? ==> r.location == p.location.value
    ensures p.location.None? ==> r.location == e.location
    ensures p.attachments.Some? ==> r.attachments == p.attachments.value
    ensures p.attachments.None? ==> r.attachments == e.attachments
    ensures p.createdAt.Some? ==> r.createdAt == p.createdAt.value
    ensures p.createdAt.None? ==> r.createdAt == e.createdAt
    ensures r.updatedAt == now
  {
    Expense(
      Pick(p.id, e.id), Pick(p.title, e.title), Pick(p.amount, e.amount),
      Pick(p.category, e.category), Pick(p.description, e.description),
      Pick(p.date, e.date), Pick(p.txType, e.txType),
      Pick(p.paymentMethod, e.paymentMethod), Pick(p.isRecurring, e.isRecurring),
      Pick(p.recurringInterval, e.recurringInterval), Pick(p.tags, e.tags),
      Pick(p.currency, e.currency), Pick(p.location, e.location),
      Pick(p.attachments, e.attachments), Pick(p.createdAt, e.createdAt), now)
  }

  /** An empty patch only refreshes the timestamp. */
  lemma MergeNoChange(e: Expense, now: int)
    ensures Merge(e, NoChange, now) == e.(updatedAt := now)
  {
  }

  /** Applying the same patch twice is the same as applying it once. */
  lemma MergeIdempotent(e: Expense, p: Patch, t1: int, t2: int)
    ensures Merge(Merge(e, p, t1), p, t2) == Merge(e, p, t2)
  {
  }

  /** A patch that sets the amount changes the amount and keeps the id, the
      creation time and every other field except the timestamp. */
  lemma MergeAmount(e: Expense, x: real, now: int)
    ensures var r := Merge(e, NoChange.(amount := Some(x)), now);
      r.amount == x && r.id == e.id && r.createdAt == e.createdAt
      && r == e.(amount := x, updatedAt := now)
  {
  }

  /** `updateExpense`: merges the patch into the first record with the id. */
  function UpdateExpense(s: Store, id: string, p: Patch, now: int): (r: (Store, Option<Expense>))
    ensures !HasId(s.expenses, id) ==> r == (s, None)
    ensures forall i :: FirstWithId(s.expenses, id, i) ==>
              && |r.0.expenses| == |s.expenses|
              && r.0.expenses[i] == Merge(s.expenses[i], p, now)
              && r.1 == Some(r.0.expenses[i])
              && (forall j :: 0 <= j < |s.expenses| && j != i ==> r.0.expenses[j] == s.expenses[j])
    ensures r.0 == s.(expenses := r.0.expenses)
  {
    match IndexOf(s.expenses, id)
    case None => (s, None)
    case Some(i) =>
      var e := Merge(s.expenses[i], p, now);
      (s.(expenses := s.expenses[i := e]), Some(e))
  }

  /** `deleteExpense`: removes the first record with the id. */
  function DeleteExpense(s: Store, id: string): (r: (Store, bool))
    ensures r.1 <==> HasId(s.expenses, id)
    ensures !r.1 ==> r.0 == s
    ensures forall i :: FirstWithId(s.expenses, id, i) ==>
              r.0.expenses == s.expenses[..i] + s.expenses[i + 1..]
    ensures r.0 == s.(expenses := r.0.expenses)
  {
    match IndexOf(s.expenses, id)
    case None => (s, false)
    case Some(i) => (s.(expenses := s.expenses[..i] + s.expenses[i + 1..]), true)
  }

  /** Deleting removes exactly one record: the multiset loses that record
      and nothing else. */
  lemma DeleteRemovesOne(s: Store, id: string, i: int)
    requires FirstWithId(s.expenses, id, i)
    ensures multiset(DeleteExpense(s, id).0.expenses) + multiset{s.expenses[i]}
            == multiset(s.expenses)
  {
    var xs := s.expenses;
    assert xs == xs[..i] + [xs[i]] + xs[i + 1..];
  }

  /** Deleting the record just added restores the store. */
  lemma AddThenDelete(s: Store, d: Draft, freshId: string, now: int)
    ensures DeleteExpense(AddExpense(s, d, freshId, now).0, freshId) == (s, true)
  {
    var t := AddExpense(s, d, freshId, now).0;
    assert FirstWithId(t.expenses, freshId, 0);
    assert t.expenses[..0] + t.expenses[1..] == s.expenses;
  }

  ghost predicate UniqueIds(xs: seq<Expense>)
  {
    forall i, j :: 0 <= i < j < |xs| ==> xs[i].id != xs[j].id
  }

  /** Adding with an id that is not in use keeps ids unique. */
  lemma AddKeepsUnique(s: Store, d: Draft, freshId: string, now: int)
    requires UniqueIds(s.expenses)
    requires !HasId(s.expenses, freshId)
    ensures UniqueIds(AddExpense(s, d, freshId, now).0.expenses)
  {
    var xs := AddExpense(s, d, freshId, now).0.expenses;
    forall i, j | 0 <= i < j < |xs|
      ensures xs[i].id != xs[j].id
    {
      if i == 0 {
        assert xs[j] == s.expenses[j - 1];
      } else {
        assert xs[i] == s.expenses[i - 1] && xs[j] == s.expenses[j - 1];
      }
    }
  }

  /** With unique ids, a deleted id is gone: a second delete reports false. */
  lemma DeleteTwice(s: Store, id: string)
    requires UniqueIds(s.expenses)
    ensures var s1 := DeleteExpense(s, id).0;
      !HasId(s1.expenses, id) && DeleteExpense(s1, id) == (s1, false)
  {
    var xs := s.expenses;
    var ys := DeleteExpense(s, id).0.expenses;
    if HasId(xs, id) {
      var i := IndexOf(xs, id).value;
      assert ys == xs[..i] + xs[i + 1..];
      forall k | 0 <= k < |ys|
        ensures ys[k].id != id
      {
        if k < i {
          assert ys[k] == xs[k];
        } else {
          assert ys[k] == xs[k + 1];
        }
      }
    }
  }

  /** Updating with a patch that leaves the id alone keeps ids unique. */
  lemma UpdateKeepsUnique(s: Store, id: string, p: Patch, now: int)
    requires UniqueIds(s.expenses)
    requires p.id.None?
    ensures UniqueIds(UpdateExpense(s, id, p, now).0.expenses)
  {
    var xs := s.expenses;
    var ys := UpdateExpense(s, id, p, now).0.expenses;
    if HasId(xs, id) {
      var i := IndexOf(xs, id).value;
      assert forall k :: 0 <= k < |ys| ==> ys[k].id == xs[k].id;
    }
  }

  /** Changing a record's amount: afterwards the record with that id has the
      new amount, a later `updatedAt` when the clock moved forward, and the
      same id and creation time. */
  lemma UpdateAmount(s: Store, id: string, x: real, now: int, i: int)
    requires FirstWithId(s.expenses, id, i)
    requires now > s.expenses[i].updatedAt
    ensures var r := UpdateExpense(s, id, NoChange.(amount := Some(x)), now);
      && r.1.Some?
      && r.1.value.amount == x
      && r.1.value.updatedAt > s.expenses[i].updatedAt
      && r.1.value.id == id
      && r.1.value.createdAt == s.expenses[i].createdAt
      && FirstWithId(r.0.expenses, id, i)
  {
    MergeAmount(s.expenses[i], x, now);
  }

  // ---------------------------------------------------------------------
  // Query

  datatype DateRange = DateRange(start: int, end: int)

  /** The optional, conjunctive filters of `getExpenses`. */
  datatype Query = Query(
    txType: Option<TxType>,
    categoryId: Option<string>,
    dateRange: Option<DateRange>,
    search: Option<string>)

  const NoFilters: Query := Query(None, None, None, None)

  /** Case-insensitive match of an already lower-cased term against the
      title, the description (when there is one) or the category name. */
  predicate MatchesText(e: Expense, lowered: string)
  {
    || Text.Contains(Text.ToLower(e.title), lowered)
    || (e.description.Some? && Text.Contains(Text.ToLower(e.description.value), lowered))
    || Text.Contains(Text.ToLower(e.category.name), lowered)
  }

  /** An empty category id or search string is falsy and applies no filter. */
  predicate Matches(q: Query, e: Expense)
  {
    && (q.txType.Some? ==> e.txType == q.txType.value)
    && (q.categoryId.Some? && q.categoryId.value != "" ==> e.category.id == q.categoryId.value)
    && (q.dateRange.Some? ==> q.dateRange.value.start <= e.date <= q.dateRange.value.end)
    && (q.search.Some? && q.search.value != "" ==> MatchesText(e, Text.ToLower(q.search.value)))
  }

  /** Comparator `b.date - a.date`: `a` may stay in front of `b` when it is
      not older. */
  predicate NewerFirst(a: Expense, b: Expense)
  {
    a.date >= b.date
  }

  lemma NewerFirstIsPreorder()
    ensures Sorting.TotalPreorder(NewerFirst)
  {
  }

  /** `getExpenses`: the matching records, newest date first. */
  function GetExpenses(s: Store, q: Query): (r: seq<Expense>)
    ensures forall e :: e in r <==> e in s.expenses && Matches(q, e)
    ensures multiset(r) == multiset(Filter(s.expenses, e => Matches(q, e)))
    ensures Sorting.Sorted(r, NewerFirst)
  {
    var kept := Filter(s.expenses, e => Matches(q, e));
    NewerFirstIsPreorder();
    Sorting.SortSorted(kept, NewerFirst);
    var r := Sorting.Sort(kept, NewerFirst);
    assert forall e :: e in r <==> e in kept by {
      forall e ensures e in r <==> e in kept {
        assert e in r <==> e in multiset(r);
        assert e in kept <==> e in multiset(kept);
      }
    }
    r
  }

  /** Records with the same date keep their order in the store. */
  lemma GetExpensesStable(s: Store, q: Query, k: Expense)
    ensures Sorting.Ties(GetExpenses(s, q), NewerFirst, k)
            == Sorting.Ties(Filter(s.expenses, e => Matches(q, e)), NewerFirst, k)
  {
    NewerFirstIsPreorder();
    Sorting.SortStable(Filter(s.expenses, e => Matches(q, e)), NewerFirst, k);
  }

  /** With no filters the query returns every record of the store. */
  lemma NoFiltersKeepsAll(s: Store)
    ensures multiset(GetExpenses(s, NoFilters)) == multiset(s.expenses)
  {
    FilterAll(s.expenses, e => Matches(NoFilters, e));
  }

  /** No position of `s` holds the character `c`, so no text containing
      `c` occurs in `s`. */
  lemma {:induction false} AbsentCharBlocks(s: string, t: string, i: int)
    requires 0 <= i < |t|
    requires t[i] !in s
    ensures !Text.Contains(s, t)
  {
    Text.ContainsMeansOccurs(s, t);
    forall k | 0 <= k && k + |t| <= |s|
      ensures !Text.OccursAt(s, t, k)
    {
      assert s[k..k + |t|][i] == s[k + i];
      assert s[k + i] in s;
    }
  }

  lemma LowerTitles()
    ensures Text.ToLower("Lunch at café") == "lunch at café"
    ensures Text.ToLower("café") == "café"
  {
  }

  /** The search of "café" finds a record titled "Lunch at café". */
  lemma SearchFindsCafe(e: Expense)
    requires e.title == "Lunch at café"
    ensures Matches(NoFilters.(search := Some("café")), e)
  {
    LowerTitles();
    var hit := "lunch at café";
    assert hit[9..13] == "café";
    assert Text.OccursAt(hit, "café", 9);
    Text.ContainsMeansOccurs(hit, "café");
    assert MatchesText(e, "café");
  }

  /** The same search skips "Lunch at diner" filed under "Food & Dining"
      with no description. */
  lemma SearchSkipsDiner(e: Expense)
    requires e.title == "Lunch at diner" && e.description.None?
    requires e.category.name == "Food & Dining"
    ensures !Matches(NoFilters.(search := Some("café")), e)
  {
    assert Text.ToLower("café") == "café";
    assert 'é' !in e.title && 'é' !in e.category.name;
    Text.LowerKeepsOtherChars(e.title, 'é');
    Text.LowerKeepsOtherChars(e.category.name, 'é');
    AbsentCharBlocks(Text.ToLower(e.title), "café", 3);
    AbsentCharBlocks(Text.ToLower(e.category.name), "café", 3);
  }
}
