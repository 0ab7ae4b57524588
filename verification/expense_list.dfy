/** The dashboard's transaction list
    (`client/components/dashboard/ExpenseList.tsx`): the search box, the
    category and type filters, and the three sort orders. */
module ExpenseList {
  import opened Types
  import opened Seqs
  import Sorting
  import Text
  import ExpenseStore

  datatype SortKey = ByDate | ByAmount | ByCategory

  datatype TypeFilter = AllTypes | OnlyType(txType: TxType)

  /** The list's controls. `categoryFilter` is a category id or the
      literal "all". */
  datatype Controls = Controls(
    search: string,
    categoryFilter: string,
    typeFilter: TypeFilter,
    sortBy: SortKey)

  /** The controls as the list first shows them. */
  const Initial := Controls("", "all", AllTypes, ByDate)

  /** The filter predicate: the search term matches, and each filter is
      either off or equal to the record's value. */
  predicate Keeps(c: Controls, e: Expense)
  {
    && ExpenseStore.MatchesText(e, Text.ToLower(c.search))
    && (c.categoryFilter == "all" || e.category.id == c.categoryFilter)
    && (c.typeFilter.AllTypes? || e.txType == c.typeFilter.txType)
  }

  /** Comparator `b.amount - a.amount`. */
  predicate LargerFirst(a: Expense, b: Expense)
  {
    a.amount >= b.amount
  }

  /** Comparator `a.category.name.localeCompare(b.category.name)`. */
  predicate NameOrder(a: Expense, b: Expense)
  {
    Text.LexLe(a.category.name, b.category.name)
  }

  /** The comparator chosen by the sort key. */
  function Order(k: SortKey): (Expense, Expense) -> bool
  {
    match k
    case ByDate => ExpenseStore.NewerFirst
    case ByAmount => LargerFirst
    case ByCategory => NameOrder
  }

  lemma OrderIsPreorder(k: SortKey)
    ensures Sorting.TotalPreorder(Order(k))
  {
    match k
    case ByDate => ExpenseStore.NewerFirstIsPreorder();
    case ByAmount =>
    case ByCategory =>
      forall a: Expense, b: Expense
        ensures NameOrder(a, b) || NameOrder(b, a)
      {
        Text.LexLeTotal(a.category.name, b.category.name);
      }
      forall a: Expense, b: Expense, c: Expense | NameOrder(a, b) && NameOrder(b, c)
        ensures NameOrder(a, c)
      {
        Text.LexLeTransitive(a.category.name, b.category.name, c.category.name);
      }
  }

  function Kept(c: Controls): Expense -> bool
  {
    e => Keeps(c, e)
  }

  /** `filteredAndSortedExpenses`: the kept records, in the chosen order. */
  function Visible(xs: seq<Expense>, c: Controls): (r: seq<Expense>)
    ensures forall e :: e in r <==> e in xs && Keeps(c, e)
    ensures multiset(r) == multiset(Filter(xs, Kept(c)))
    ensures c.sortBy == ByDate ==> forall i, j :: 0 <= i < j < |r| ==> r[i].date >= r[j].date
    ensures c.sortBy == ByAmount ==> forall i, j :: 0 <= i < j < |r| ==> r[i].amount >= r[j].amount
    ensures c.sortBy == ByCategory ==>
              forall i, j :: 0 <= i < j < |r| ==> Text.LexLe(r[i].category.name, r[j].category.name)
  {
    var kept := Filter(xs, Kept(c));
    SortByKey(kept, c.sortBy);
    Sorting.Sort(kept, Order(c.sortBy))
  }

  /** Sorting by a key puts the records in that key's order and keeps
      exactly the same records. */
  lemma SortByKey(xs: seq<Expense>, k: SortKey)
    ensures Sorting.Sorted(Sorting.Sort(xs, Order(k)), Order(k))
    ensures forall e :: e in Sorting.Sort(xs, Order(k)) <==> e in xs
  {
    OrderIsPreorder(k);
    Sorting.SortSorted(xs, Order(k));
    var r := Sorting.Sort(xs, Order(k));
    forall e
      ensures e in r <==> e in xs
    {
      assert e in r <==> e in multiset(r);
      assert e in xs <==> e in multiset(xs);
    }
  }

  /** Records equal under the chosen key keep their order in the input. */
  lemma VisibleStable(xs: seq<Expense>, c: Controls, k: Expense)
    ensures Sorting.Ties(Visible(xs, c), Order(c.sortBy), k)
            == Sorting.Ties(Filter(xs, Kept(c)), Order(c.sortBy), k)
  {
    OrderIsPreorder(c.sortBy);
    Sorting.SortStable(Filter(xs, Kept(c)), Order(c.sortBy), k);
  }

  /** An empty search with both filters off keeps every record. */
  lemma NoFilterKeepsAll(xs: seq<Expense>, key: SortKey)
    ensures multiset(Visible(xs, Initial.(sortBy := key))) == multiset(xs)
  {
    var c := Initial.(sortBy := key);
    forall e | e in xs
      ensures Kept(c)(e)
    {
      Text.ContainsEmpty(Text.ToLower(e.title));
    }
    FilterAll(xs, Kept(c));
  }

  /** With both filters off, the list's search keeps exactly the records
      the store's search keeps (an empty term keeps everything in both). */
  lemma SearchAgreesWithStore(e: Expense, term: string)
    ensures Keeps(Controls(term, "all", AllTypes, ByDate), e)
            <==> ExpenseStore.Matches(ExpenseStore.NoFilters.(search := Some(term)), e)
  {
    if term == "" {
      Text.ContainsEmpty(Text.ToLower(e.title));
    }
  }
}
