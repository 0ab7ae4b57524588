/** The add/edit transaction dialog
    (`client/components/expense/AddExpenseModal.tsx`): tag editing, the
    mapping from form fields to the record handed to the store, and the
    reset on close. */
module ExpenseForm {
  import opened Types
  import opened Seqs
  import Text

  /** The dialog's fields; `amount` is the raw input text and `date` the
      chosen day. */
  datatype Form = Form(
    title: string,
    amount: string,
    categoryId: string,
    paymentMethodId: string,
    description: string,
    date: int,
    txType: TxType,
    isRecurring: bool,
    recurringInterval: Interval,
    currency: string,
    location: string,
    tags: seq<string>)

  /** The form together with the pending text of the tag input. */
  datatype Dialog = Dialog(form: Form, newTag: string)

  /** Every field at its default; the date is today. */
  function BlankForm(today: int): (f: Form)
    ensures f.txType == ExpenseTx && !f.isRecurring && f.currency == "USD" && f.tags == []
    ensures f.title == "" && f.amount == "" && f.categoryId == "" && f.paymentMethodId == ""
    ensures f.description == "" && f.location == "" && f.date == today
    ensures f.recurringInterval == Monthly
  {
    Form("", "", "", "", "", today, ExpenseTx, false, Monthly, "USD", "", [])
  }

  /** `handleClose`: the form goes back to its defaults and the tag input
      is emptied. */
  function Close(today: int): (d: Dialog)
    ensures d.form == BlankForm(today) && d.newTag == ""
  {
    Dialog(BlankForm(today), "")
  }

  // ---------------------------------------------------------------------
  // Tags

  /** `addTag`: the trimmed tag is appended, and the input emptied, only
      when it is not blank and not already listed. */
  function AddTag(d: Dialog): (r: Dialog)
    ensures var t := Text.Trim(d.newTag);
      if t != "" && t !in d.form.tags
      then r.form.tags == d.form.tags + [t] && r.newTag == ""
      else r == d
    ensures r.form == d.form.(tags := r.form.tags)
  {
    var t := Text.Trim(d.newTag);
    if t != "" && t !in d.form.tags
    then Dialog(d.form.(tags := d.form.tags + [t]), "")
    else d
  }

  /** A duplicate-free tag list stays duplicate-free, and no added tag
      has white space at either end. */
  lemma AddTagKeepsNoDup(d: Dialog)
    requires NoDup(d.form.tags)
    ensures NoDup(AddTag(d).form.tags)
    ensures forall t :: t in AddTag(d).form.tags && t !in d.form.tags ==>
              t != "" && !Text.IsSpace(t[0]) && !Text.IsSpace(t[|t| - 1])
  {
    var t := Text.Trim(d.newTag);
    var tags := d.form.tags;
    if t != "" && t !in tags {
      var r := tags + [t];
      assert AddTag(d).form.tags == r;
      forall i, j | 0 <= i < j < |r|
        ensures r[i] != r[j]
      {
        assert r[i] == tags[i];
        if j < |tags| {
          assert r[j] == tags[j];
        }
      }
      forall x | x in r && x !in tags
        ensures x == t
      {
      }
    } else {
      assert AddTag(d) == d;
    }
  }

  function Unequal(tag: string): string -> bool
  {
    t => t != tag
  }

  /** `removeTag`: every occurrence of the tag goes, the others stay in order. */
  function RemoveTag(d: Dialog, tag: string): (r: Dialog)
    ensures forall t :: t in r.form.tags <==> t in d.form.tags && t != tag
    ensures r == d.(form := d.form.(tags := r.form.tags))
  {
    d.(form := d.form.(tags := Filter(d.form.tags, Unequal(tag))))
  }

  /** Removing from a list made of two parts removes from each part and
      keeps the parts in order; with the membership clause of RemoveTag this
      fixes the order of the remaining tags. */
  lemma RemoveTagSplits(d: Dialog, a: seq<string>, b: seq<string>, tag: string)
    requires d.form.tags == a + b
    ensures RemoveTag(d, tag).form.tags
            == RemoveTag(d.(form := d.form.(tags := a)), tag).form.tags
             + RemoveTag(d.(form := d.form.(tags := b)), tag).form.tags
  {
    FilterAppend(a, b, Unequal(tag));
  }

  lemma RemoveTagKeepsNoDup(d: Dialog, tag: string)
    requires NoDup(d.form.tags)
    ensures NoDup(RemoveTag(d, tag).form.tags)
  {
    FilterNoDup(d.form.tags, Unequal(tag));
  }

  /** Removing a tag that was just added restores the tag list. */
  lemma AddThenRemove(d: Dialog)
    requires Text.Trim(d.newTag) != "" && Text.Trim(d.newTag) !in d.form.tags
    ensures RemoveTag(AddTag(d), Text.Trim(d.newTag)).form.tags == d.form.tags
  {
    var t := Text.Trim(d.newTag);
    FilterAppend(d.form.tags, [t], Unequal(t));
    FilterAll(d.form.tags, Unequal(t));
    FilterNone([t], Unequal(t));
  }

  // ---------------------------------------------------------------------
  // Submitting

  /** Empty text is falsy: `text || undefined`. */
  function Optional(text: string): (r: Option<string>)
    ensures r == None <==> text == ""
    ensures r.Some? ==> r.value == text
  {
    if text == "" then None else Some(text)
  }

  /** The record built from the form and the looked-up category and
      payment method; `parseAmount` stands for `parseFloat`. */
  function DraftFrom(f: Form, c: Category, m: PaymentMethod, parseAmount: string -> real): Draft
  {
    Draft(f.title, parseAmount(f.amount), c, Optional(f.description), f.date, f.txType, m,
          f.isRecurring, if f.isRecurring then Some(f.recurringInterval) else None,
          f.tags, f.currency, Optional(f.location), Some([]))
  }

  datatype SubmitOutcome = Unresolved | Saved(draft: Draft)

  /** `handleSubmit`: nothing happens unless both the category and the
      payment method resolve; otherwise the record is handed on and the
      dialog is reset. */
  function Submit(d: Dialog, cats: seq<Category>, methods: seq<PaymentMethod>,
                  parseAmount: string -> real, today: int): (r: (Dialog, SubmitOutcome))
    ensures r.1 == Unresolved <==>
              FindCategory(cats, d.form.categoryId) == None
              || FindMethod(methods, d.form.paymentMethodId) == None
    ensures r.1 == Unresolved ==> r.0 == d
    ensures r.1.Saved? ==>
              var x := r.1.draft;
              && Some(x.category) == FindCategory(cats, d.form.categoryId)
              && Some(x.paymentMethod) == FindMethod(methods, d.form.paymentMethodId)
              && x.title == d.form.title && x.amount == parseAmount(d.form.amount)
              && x.date == d.form.date && x.txType == d.form.txType
              && x.currency == d.form.currency && x.tags == d.form.tags
              && x.description == Optional(d.form.description)
              && x.location == Optional(d.form.location)
              && x.isRecurring == d.form.isRecurring
              && (d.form.isRecurring ==> x.recurringInterval == Some(d.form.recurringInterval))
              && (!d.form.isRecurring ==> x.recurringInterval == None)
              && x.attachments == Some([])
              && r.0 == Close(today)
  {
    match (FindCategory(cats, d.form.categoryId), FindMethod(methods, d.form.paymentMethodId))
    case (Some(c), Some(m)) => (Close(today), Saved(DraftFrom(d.form, c, m, parseAmount)))
    case _ => (d, Unresolved)
  }

  /** The form filled in from an existing record, as the dialog's initial
      state reads it; `show` stands for `toString` on the amount. Missing
      optional fields fall back to their defaults. */
  function FormOf(e: Expense, show: real -> string): Form
  {
    Form(e.title, show(e.amount), e.category.id, e.paymentMethod.id,
         if e.description.Some? then e.description.value else "",
         e.date, e.txType, e.isRecurring,
         if e.recurringInterval.Some? then e.recurringInterval.value else Monthly,
         if e.currency == "" then "USD" else e.currency,
         if e.location.Some? then e.location.value else "",
         e.tags)
  }

  /** Opening a record for editing, as the program is written: the dialog's
      state was set up once, when the dialog was first mounted with no
      record, and nothing loads the record afterwards, so the dialog keeps
      whatever form it holds. */
  function OpenAsWritten(d: Dialog, e: Expense): Dialog
  {
    d
  }

  /** Opening a record for editing as the dialog's initial state intends:
      the form is filled in from the record and the tag input is empty. */
  function OpenForEdit(e: Expense, show: real -> string): Dialog
  {
    Dialog(FormOf(e, show), "")
  }

  /** As written, opening a titled record on a freshly mounted dialog shows
      a blank title, and saving the form unchanged does not hand the record
      back: nothing is saved while no category has the empty id. */
  lemma EditShowsBlankForm(e: Expense, cats: seq<Category>, methods: seq<PaymentMethod>,
                           parseAmount: string -> real, today: int)
    requires e.title != ""
    requires forall i :: 0 <= i < |cats| ==> cats[i].id != ""
    ensures var d := OpenAsWritten(Close(today), e);
      && d.form.title != e.title
      && Submit(d, cats, methods, parseAmount, today).1 == Unresolved
      && Submit(d, cats, methods, parseAmount, today).1 != Saved(DraftOf(e))
  {
  }

  /** Opening a record with its fields loaded and saving it unchanged hands
      back the record's own fields, provided they are in the shape the
      dialog produces and its category and payment method are still listed. */
  lemma EditRoundTrip(e: Expense, cats: seq<Category>, methods: seq<PaymentMethod>,
                      show: real -> string, parseAmount: string -> real, today: int)
    requires FindCategory(cats, e.category.id) == Some(e.category)
    requires FindMethod(methods, e.paymentMethod.id) == Some(e.paymentMethod)
    requires parseAmount(show(e.amount)) == e.amount
    requires e.description != Some("") && e.location != Some("") && e.currency != ""
    requires e.isRecurring <==> e.recurringInterval.Some?
    requires e.attachments == Some([])
    ensures Submit(OpenForEdit(e, show), cats, methods, parseAmount, today).1
            == Saved(DraftOf(e))
  {
  }
}
