/** The demo account's sample records (`client/lib/sample-data.ts`): who
    gets them, when nothing is added, and the shape of what is added. */
module SampleData {
  import opened Types
  import ExpenseStore
  import Auth

  /** One line of the sample table. */
  datatype SampleEntry = SampleEntry(
    title: string,
    amount: real,
    categoryId: string,
    txType: TxType,
    description: string)

  const Entries: seq<SampleEntry> := [
    SampleEntry("Salary", 3500.0, "9", IncomeTx, "Monthly salary payment"),
    SampleEntry("Freelance Project", 750.0, "9", IncomeTx, "Web development project"),
    SampleEntry("Investment Returns", 120.0, "9", IncomeTx, "Dividend payment"),
    SampleEntry("Grocery Shopping", 85.50, "1", ExpenseTx, "Weekly groceries at supermarket"),
    SampleEntry("Lunch at Work", 12.99, "1", ExpenseTx, "Sandwich and coffee"),
    SampleEntry("Dinner with Friends", 45.00, "1", ExpenseTx, "Italian restaurant"),
    SampleEntry("Coffee Shop", 4.50, "1", ExpenseTx, "Morning latte"),
    SampleEntry("Fast Food", 8.99, "1", ExpenseTx, "Quick lunch"),
    SampleEntry("Gas Station", 55.00, "2", ExpenseTx, "Fuel for car"),
    SampleEntry("Uber Ride", 18.50, "2", ExpenseTx, "Trip to airport"),
    SampleEntry("Public Transport", 2.75, "2", ExpenseTx, "Bus ticket"),
    SampleEntry("Parking Fee", 5.00, "2", ExpenseTx, "Downtown parking"),
    SampleEntry("New Headphones", 199.99, "3", ExpenseTx, "Wireless noise-cancelling headphones"),
    SampleEntry("Clothes Shopping", 89.99, "3", ExpenseTx, "New shirt and jeans"),
    SampleEntry("Online Purchase", 25.99, "3", ExpenseTx, "Book from Amazon"),
    SampleEntry("Movie Tickets", 24.00, "4", ExpenseTx, "Evening movie with partner"),
    SampleEntry("Streaming Service", 15.99, "4", ExpenseTx, "Netflix subscription"),
    SampleEntry("Concert Tickets", 85.00, "4", ExpenseTx, "Live music event"),
    SampleEntry("Electricity Bill", 125.00, "5", ExpenseTx, "Monthly electricity payment"),
    SampleEntry("Internet Bill", 79.99, "5", ExpenseTx, "High-speed internet"),
    SampleEntry("Phone Bill", 45.00, "5", ExpenseTx, "Mobile phone plan"),
    SampleEntry("Rent", 1200.00, "5", ExpenseTx, "Monthly apartment rent"),
    SampleEntry("Doctor Visit", 120.00, "6", ExpenseTx, "Annual checkup"),
    SampleEntry("Pharmacy", 25.50, "6", ExpenseTx, "Prescription medication"),
    SampleEntry("Online Course", 49.99, "7", ExpenseTx, "Programming course on Udemy"),
    SampleEntry("Books", 35.00, "7", ExpenseTx, "Educational books"),
    SampleEntry("Weekend Trip", 300.00, "8", ExpenseTx, "Hotel and activities"),
    SampleEntry("Flight Booking", 450.00, "8", ExpenseTx, "Vacation flight tickets")
  ]

  /** How many days back a record is dated: one of the last 30 days. */
  type DayBack = n: nat | n < 30

  /** A position in the default payment-method catalogue. */
  type MethodIndex = n: nat | n < 6

  /** The random choices for one entry (its day, its payment method, the
      20% recurring and 30% tagged coin flips) together with the fresh id
      and clock reading the store gives it. */
  datatype Draw = Draw(dayBack: DayBack, payment: MethodIndex, recurring: bool, tagged: bool,
                       id: string, at: int)

  /** The category ids the sample table uses. */
  predicate SampleCategoryId(id: string)
  {
    id == "1" || id == "2" || id == "3" || id == "4" || id == "5"
    || id == "6" || id == "7" || id == "8" || id == "9"
  }

  lemma EntryCategoryListed(k: nat)
    requires k < |Entries|
    ensures SampleCategoryId(Entries[k].categoryId)
  {
  }

  /** Every category id the sample table uses names a default category. */
  lemma SampleCategoriesKnown(id: string)
    requires SampleCategoryId(id)
    ensures FindCategory(ExpenseStore.DefaultCategories, id).Some?
  {
    var cats := ExpenseStore.DefaultCategories;
    if id == "1" { assert cats[0].id == id; }
    else if id == "2" { assert cats[1].id == id; }
    else if id == "3" { assert cats[2].id == id; }
    else if id == "4" { assert cats[3].id == id; }
    else if id == "5" { assert cats[4].id == id; }
    else if id == "6" { assert cats[5].id == id; }
    else if id == "7" { assert cats[6].id == id; }
    else if id == "8" { assert cats[7].id == id; }
    else { assert cats[8].id == id; }
  }

  /** The record handed to the store for entry `k`: its default category,
      the picked payment method and day, recurring interval always
      "monthly", tags only on the tagged ones, currency USD, no attachments. */
  function SampleDraft(k: nat, today: int, p: Draw): (d: Draft)
    requires k < |Entries|
    ensures today - 29 <= d.date <= today
    ensures d.category in ExpenseStore.DefaultCategories && d.category.id == Entries[k].categoryId
    ensures d.paymentMethod in ExpenseStore.DefaultPaymentMethods
    ensures d.title == Entries[k].title && d.amount == Entries[k].amount && d.txType == Entries[k].txType
    ensures d.currency == "USD" && d.recurringInterval == Some(Monthly)
    ensures d.tags == [] || d.tags == ["sample", "demo"]
  {
    var e := Entries[k];
    EntryCategoryListed(k);
    SampleCategoriesKnown(e.categoryId);
    Draft(e.title, e.amount, FindCategory(ExpenseStore.DefaultCategories, e.categoryId).value,
          Some(e.description), today - p.dayBack, e.txType,
          ExpenseStore.DefaultPaymentMethods[p.payment], p.recurring, Some(Monthly),
          if p.tagged then ["sample", "demo"] else [], "USD", None, Some([]))
  }

  /** The store after the first `n` entries are added one by one; each
      addition goes to the front, so the first entry ends up last. */
  function AddFirst(s: ExpenseStore.Store, n: nat, today: int, picks: nat -> Draw): (r: ExpenseStore.Store)
    requires n <= |Entries|
    ensures |r.expenses| == |s.expenses| + n
    ensures r.expenses[n..] == s.expenses
    ensures r == s.(expenses := r.expenses)
  {
    if n == 0 then s
    else
      var prev := AddFirst(s, n - 1, today, picks);
      var (r, e) := ExpenseStore.AddExpense(prev, SampleDraft(n - 1, today, picks(n - 1)), picks(n - 1).id, picks(n - 1).at);
      DropFront(e, prev.expenses, n);
      r
  }

  lemma DropFront(e: Expense, xs: seq<Expense>, n: nat)
    requires 0 < n <= |xs| + 1
    ensures ([e] + xs)[n..] == xs[n - 1..]
  {
  }

  /** The last entry added is the first record. */
  lemma AddFirstStep(s: ExpenseStore.Store, n: nat, today: int, picks: nat -> Draw)
    requires 0 < n <= |Entries|
    ensures var p := picks(n - 1);
      AddFirst(s, n, today, picks).expenses
      == [Stamp(SampleDraft(n - 1, today, p), p.id, p.at, p.at)] + AddFirst(s, n - 1, today, picks).expenses
  {
  }

  /** Entry `k` sits at position `n - 1 - k`, with the picked id. */
  lemma {:induction false} AddFirstPlaces(s: ExpenseStore.Store, n: nat, today: int, picks: nat -> Draw, k: nat)
    requires k < n <= |Entries|
    ensures DraftOf(AddFirst(s, n, today, picks).expenses[n - 1 - k]) == SampleDraft(k, today, picks(k))
    ensures AddFirst(s, n, today, picks).expenses[n - 1 - k].id == picks(k).id
  {
    AddFirstStep(s, n, today, picks);
    if k < n - 1 {
      AddFirstPlaces(s, n - 1, today, picks, k);
    }
  }

  /** The guard: sample records are only for the demo address or for no
      address at all (an empty one counts as none), and only for a store
      with no records. */
  predicate Skips(s: ExpenseStore.Store, email: Option<string>)
  {
    (email.Some? && email.value != "" && email.value != Auth.DemoEmail) || s.expenses != []
  }

  /** `generateSampleData`. `today` is the current day and `picks` stands
      for the random choices and fresh ids, entry by entry. */
  function Generate(s: ExpenseStore.Store, email: Option<string>, today: int, picks: nat -> Draw)
    : (r: ExpenseStore.Store)
    ensures Skips(s, email) ==> r == s
    ensures !Skips(s, email) ==>
              && |r.expenses| == |Entries|
              && r == s.(expenses := r.expenses)
              && r == AddFirst(s, |Entries|, today, picks)
  {
    if email.Some? && email.value != "" && email.value != Auth.DemoEmail then s
    else
      ExpenseStore.NoFiltersKeepsAll(s);
      if |ExpenseStore.GetExpenses(s, ExpenseStore.NoFilters)| > 0 then s
      else AddFirst(s, |Entries|, today, picks)
  }

  /** A second run adds nothing, whatever its random choices and day. */
  lemma GenerateTwice(s: ExpenseStore.Store, email: Option<string>, today: int, picks: nat -> Draw,
                      today2: int, picks2: nat -> Draw)
    ensures var once := Generate(s, email, today, picks);
      Generate(once, email, today2, picks2) == once
  {
  }

  /** Every seeded record is dated within the last 30 days, carries a
      default category and payment method, currency USD and the monthly
      interval. */
  lemma SeededShape(s: ExpenseStore.Store, email: Option<string>, today: int, picks: nat -> Draw, x: Expense)
    requires !Skips(s, email)
    requires x in Generate(s, email, today, picks).expenses
    ensures today - 29 <= x.date <= today
    ensures x.category in ExpenseStore.DefaultCategories && x.paymentMethod in ExpenseStore.DefaultPaymentMethods
    ensures x.currency == "USD" && x.recurringInterval == Some(Monthly) && x.attachments == Some([])
  {
    var r := Generate(s, email, today, picks);
    var i :| 0 <= i < |r.expenses| && r.expenses[i] == x;
    var k := |Entries| - 1 - i;
    AddFirstPlaces(s, |Entries|, today, picks, k);
  }

  /** After a successful sign-in, seeding is asked for exactly when the
      address is the demo one, and then an empty store receives 28 records
      while a store with records keeps them; for any other non-empty address
      the generator would leave the store alone even if it were called. */
  lemma LoginSeeds(a: Auth.State, email: string, password: string, s: ExpenseStore.Store,
                   today: int, picks: nat -> Draw)
    requires Auth.Login(a, email, password).1
    ensures Auth.Login(a, email, password).2 <==> email == Auth.DemoEmail
    ensures Auth.Login(a, email, password).2 ==>
              |Generate(s, Some(email), today, picks).expenses| == if s.expenses == [] then 28 else |s.expenses|
    ensures email != Auth.DemoEmail && email != "" ==> Generate(s, Some(email), today, picks) == s
  {
  }
}
