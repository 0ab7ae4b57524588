/** The shared record shapes of the expense tracker: transactions, their
    categories and payment methods, stored budgets, and the analytics
    summary. Amounts are exact reals. A transaction's `date` is a day number
    (days since the epoch, UTC); `createdAt`, `updatedAt` and every "now" are
    instants in milliseconds since the epoch. */
module Types {

  datatype Option<T> = None | Some(value: T)

  /** Milliseconds in a day; a date `d` denotes the instant `d * DayMs`
      (midnight UTC, which is how a `YYYY-MM-DD` string is parsed). */
  const DayMs: int := 86400000

  function DayStart(day: int): int
  {
    day * DayMs
  }

  /** `part` as a percentage of `whole`: `(part / whole) * 100`. */
  function Percent(part: real, whole: real): real
    requires whole != 0.0
  {
    (part / whole) * 100.0
  }

  datatype TxType = ExpenseTx | IncomeTx

  datatype Interval = Daily | Weekly | Monthly | Yearly

  datatype PayKind = Cash | Card | Bank | Digital | Crypto

  datatype Category = Category(
    id: string,
    name: string,
    icon: string,
    color: string,
    budget: Option<real>,
    isDefault: bool)

  datatype PaymentMethod = PaymentMethod(
    id: string,
    name: string,
    kind: PayKind,
    icon: string,
    color: string)

  /** One income or expense record. Optional fields are `Option`s. */
  datatype Expense = Expense(
    id: string,
    title: string,
    amount: real,
    category: Category,
    description: Option<string>,
    date: int,
    txType: TxType,
    paymentMethod: PaymentMethod,
    isRecurring: bool,
    recurringInterval: Option<Interval>,
    tags: seq<string>,
    currency: string,
    location: Option<string>,
    attachments: Option<seq<string>>,
    createdAt: int,
    updatedAt: int)

  /** A record as the caller supplies it to the store: everything but the
      id and the two timestamps. */
  datatype Draft = Draft(
    title: string,
    amount: real,
    category: Category,
    description: Option<string>,
    date: int,
    txType: TxType,
    paymentMethod: PaymentMethod,
    isRecurring: bool,
    recurringInterval: Option<Interval>,
    tags: seq<string>,
    currency: string,
    location: Option<string>,
    attachments: Option<seq<string>>)

  /** The draft part of a stored record. */
  function DraftOf(e: Expense): Draft
  {
    Draft(e.title, e.amount, e.category, e.description, e.date, e.txType,
          e.paymentMethod, e.isRecurring, e.recurringInterval, e.tags,
          e.currency, e.location, e.attachments)
  }

  /** Completes a draft into a stored record. */
  function Stamp(d: Draft, id: string, created: int, updated: int): (e: Expense)
    ensures DraftOf(e) == d
    ensures e.id == id && e.createdAt == created && e.updatedAt == updated
  {
    Expense(id, d.title, d.amount, d.category, d.description, d.date, d.txType,
            d.paymentMethod, d.isRecurring, d.recurringInterval, d.tags,
            d.currency, d.location, d.attachments, created, updated)
  }

  datatype BudgetPeriod = WeeklyBudget | MonthlyBudget | YearlyBudget

  /** A budget as persisted with the store (the store only holds these). */
  datatype Budget = Budget(
    id: string,
    name: string,
    amount: real,
    spent: real,
    period: BudgetPeriod,
    categories: seq<string>,
    startDate: int,
    endDate: int,
    alertThreshold: real,
    isActive: bool)

  /** One entry of the per-category breakdown. `categoryId` is the grouping
      key; `category` is the looked-up record, absent when no category with
      that id is known. */
  datatype CategoryShare = CategoryShare(
    categoryId: string,
    category: Option<Category>,
    amount: real,
    percentage: real)

  datatype TrendPoint = TrendPoint(month: string, income: real, expenses: real)

  datatype Analytics = Analytics(
    totalIncome: real,
    totalExpenses: real,
    netBalance: real,
    topCategories: seq<CategoryShare>,
    monthlyTrend: seq<TrendPoint>,
    averageDaily: real,
    savingsRate: real)

  /** One field of a spread merge `{ ...old, ...patch }`: the patch's value
      when the patch has the key, the old value otherwise. */
  function Pick<T>(o: Option<T>, keep: T): T
  {
    if o.Some? then o.value else keep
  }

  /** `list.find(c => c.id === id)`: the first category with that id. */
  function FindCategory(cats: seq<Category>, id: string): (r: Option<Category>)
    ensures r.None? <==> forall i :: 0 <= i < |cats| ==> cats[i].id != id
    ensures r.Some? ==> r.value in cats && r.value.id == id
  {
    if |cats| == 0 then None
    else if cats[0].id == id then Some(cats[0])
    else FindCategory(cats[1..], id)
  }

  /** `list.find(p => p.id === id)`: the first payment method with that id. */
  function FindMethod(methods: seq<PaymentMethod>, id: string): (r: Option<PaymentMethod>)
    ensures r.None? <==> forall i :: 0 <= i < |methods| ==> methods[i].id != id
    ensures r.Some? ==> r.value in methods && r.value.id == id
  {
    if |methods| == 0 then None
    else if methods[0].id == id then Some(methods[0])
    else FindMethod(methods[1..], id)
  }
}
