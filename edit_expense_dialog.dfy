/** `components/expenses/edit-expense-dialog.jsx`: the form filled from the
    expense being edited, the multipart request built key by key from it,
    and the in-place `Object.assign` of the server's answer onto the
    caller's expense object. */
module EditExpenseDialog {
  import opened Base
  import opened Text
  import opened Dates
  import opened Domain

  /** The amount and hst inputs hold either the number loaded from the
      expense or the text typed since. */
  datatype Numeric = Loaded(cents: int) | Typed(text: string)

  /** The edit form's `formData`. The category id is kept as the decimal
      text `FormData` turns it into. */
  datatype EditForm = EditForm(
    title: string,
    amount: Numeric,
    hst: Numeric,
    category: string,
    description: string,
    expenseDate: Date)

  function InitialForm(today: Date): EditForm {
    EditForm("", Typed(""), Typed(""), "", "", today)
  }

  /** The population effect: title, amount, category and date copied;
      a missing (or zero) hst and a missing (or empty) description become "". */
  function FormFromExpense(e: Expense): (f: EditForm)
    ensures f.title == e.title && f.amount == Loaded(e.amount) && f.expenseDate == e.expenseDate
    ensures f.category == NatToString(e.category)
    ensures e.hst.None? || e.hst.value == 0 ==> f.hst == Typed("")
    ensures e.hst.Some? && e.hst.value != 0 ==> f.hst == Loaded(e.hst.value)
    ensures e.description.Some? ==> f.description == e.description.value
    ensures e.description.None? ==> f.description == ""
  {
    EditForm(
      e.title,
      Loaded(e.amount),
      if e.hst.Some? && e.hst.value != 0 then Loaded(e.hst.value) else Typed(""),
      NatToString(e.category),
      if e.description.Some? then e.description.value else "",
      e.expenseDate)
  }

  /** `parseFloat(value || 0)`: a falsy value ("" or 0) is 0. */
  function NumberOf(v: Numeric): (n: Num)
    ensures v == Typed("") || v == Loaded(0) ==> n == Cents(0)
    ensures v.Loaded? ==> n == Cents(v.cents)
    ensures v.Typed? && v.text != "" ==> n == ParseAmount(v.text)
  {
    match v
    case Loaded(c) => Cents(c)
    case Typed(t) => if t == "" then Cents(0) else ParseAmount(t)
  }

  /** `Object.keys(updatedFormData)`: the keys in declaration order. */
  const FormKeys: seq<string> := ["title", "amount", "hst", "category", "description", "expense_date"]

  /** The value appended for one key: the date formatted, the two numbers
      parsed, every other key verbatim. */
  function Encode(u: EditForm, key: string): FieldValue {
    if key == "expense_date" then Str(FormatIso(u.expenseDate))
    else if key == "amount" then Number(NumberOf(u.amount))
    else if key == "hst" then Number(NumberOf(u.hst))
    else if key == "title" then Str(u.title)
    else if key == "category" then Str(u.category)
    else Str(u.description)
  }

  /** `updatedFormData`: the form with the title replaced by the description. */
  function Updated(form: EditForm): (u: EditForm)
    ensures u.title == form.description
  {
    form.(title := form.description)
  }

  /** The request `handleSubmit` sends. */
  function EditPayload(form: EditForm, file: Option<File>): Payload {
    var u := Updated(form);
    seq(|FormKeys|, i requires 0 <= i < |FormKeys| => (FormKeys[i], Encode(u, FormKeys[i])))
    + (if file.Some? then [("receipt", Attachment(file.value))] else [])
  }

  /** Every form key is sent exactly once, in order, then `receipt` exactly
      when a file was picked. */
  lemma EditPayloadNames(form: EditForm, file: Option<File>)
    ensures file.None? ==> Names(EditPayload(form, file)) == FormKeys
    ensures file.Some? ==> Names(EditPayload(form, file)) == FormKeys + ["receipt"]
    ensures "receipt" in Names(EditPayload(form, file)) <==> file.Some?
  {
    var names := Names(EditPayload(form, file));
    if file.None? {
      assert names == FormKeys;
    } else {
      assert names == FormKeys + ["receipt"];
    }
  }

  /** What each field carries: the title is the description whatever the
      title input holds, the numbers are parsed with "" read as 0, the date
      is formatted and the category goes through verbatim. */
  lemma EditPayloadValues(form: EditForm, file: Option<File>)
    ensures EditPayload(form, file)[0].1 == Str(form.description)
    ensures EditPayload(form, file)[1].1 == Number(NumberOf(form.amount))
    ensures EditPayload(form, file)[2].1 == Number(NumberOf(form.hst))
    ensures EditPayload(form, file)[3].1 == Str(form.category)
    ensures EditPayload(form, file)[4].1 == Str(form.description)
    ensures EditPayload(form, file)[5].1 == Str(FormatIso(form.expenseDate))
    ensures file.Some? ==> EditPayload(form, file)[6].1 == Attachment(file.value)
  {
  }

  /** Saving a freshly loaded expense without edits sends its own amount,
      hst (0 when missing), category, notes as title and description, and
      its date in a form that reads back as that date. */
  lemma UneditedRoundTrip(e: Expense)
    requires WellFormed(e.expenseDate)
    ensures EditPayload(FormFromExpense(e), None)[1].1 == Number(Cents(e.amount))
    ensures EditPayload(FormFromExpense(e), None)[2].1 == Number(Cents(if e.hst.Some? then e.hst.value else 0))
    ensures EditPayload(FormFromExpense(e), None)[3].1 == Str(NatToString(e.category))
    ensures ParseIso(EditPayload(FormFromExpense(e), None)[5].1.s) == Some(e.expenseDate)
    ensures ParseInt(EditPayload(FormFromExpense(e), None)[3].1.s) == Some(e.category)
  {
    EditPayloadValues(FormFromExpense(e), None);
    ParseFormatIso(e.expenseDate);
    ParseIntOfNat(e.category);
  }

  /** A typed amount in the "toFixed(2)" form is sent as exactly that amount. */
  lemma TypedAmountSent(form: EditForm, c: int)
    requires form.amount == Typed(FormatCents(c))
    ensures EditPayload(form, None)[1].1 == Number(Cents(c))
  {
    EditPayloadValues(form, None);
    ParseFormatCents(c);
    assert FormatCents(c) != "" by {
      assert ParseAmount(FormatCents(c)) != NaN;
    }
    assert NumberOf(form.amount) == Cents(c);
  }

  /** The `Object.keys(...).forEach` pass, appending one field per key. */
  method AppendFields(u: EditForm) returns (data: Payload)
    ensures data == seq(|FormKeys|, i requires 0 <= i < |FormKeys| => (FormKeys[i], Encode(u, FormKeys[i])))
  {
    data := [];
    for i := 0 to |FormKeys|
      invariant |data| == i
      invariant forall k :: 0 <= k < i ==> data[k] == (FormKeys[k], Encode(u, FormKeys[k]))
    {
      var key := FormKeys[i];
      var value;
      if key == "expense_date" {
        value := Str(FormatIso(u.expenseDate));
      } else if key == "amount" || key == "hst" {
        var v := if key == "amount" then u.amount else u.hst;
        value := Number(NumberOf(v));
      } else {
        var v := if key == "title" then u.title else if key == "category" then u.category else u.description;
        value := Str(v);
      }
      assert value == Encode(u, key);
      data := data + [(key, value)];
    }
  }

  /** The fields of the server's answer; a missing field is `None`. */
  datatype ExpensePatch = ExpensePatch(
    id: Option<nat>,
    title: Option<string>,
    amount: Option<int>,
    category: Option<nat>,
    categoryName: Option<Option<string>>,
    description: Option<Option<string>>,
    expenseDate: Option<Date>,
    receipt: Option<Option<string>>,
    hst: Option<Option<int>>)

  function Pick<T>(patched: Option<T>, current: T): T {
    if patched.Some? then patched.value else current
  }

  /** `Object.assign(expense, data)`: every field the answer carries
      overwrites the expense's, the others stay. */
  function Apply(e: Expense, p: ExpensePatch): (r: Expense)
    ensures p.title.Some? ==> r.title == p.title.value
    ensures p.title.None? ==> r.title == e.title
    ensures p.amount.Some? ==> r.amount == p.amount.value
    ensures p.amount.None? ==> r.amount == e.amount
    ensures p.expenseDate.Some? ==> r.expenseDate == p.expenseDate.value
    ensures p.expenseDate.None? ==> r.expenseDate == e.expenseDate
    ensures p.id.Some? ==> r.id == p.id.value
    ensures p.id.None? ==> r.id == e.id
    ensures p.category.Some? ==> r.category == p.category.value
    ensures p.category.None? ==> r.category == e.category
    ensures p.categoryName.Some? ==> r.categoryName == p.categoryName.value
    ensures p.categoryName.None? ==> r.categoryName == e.categoryName
    ensures p.description.Some? ==> r.description == p.description.value
    ensures p.description.None? ==> r.description == e.description
    ensures p.receipt.Some? ==> r.receipt == p.receipt.value
    ensures p.receipt.None? ==> r.receipt == e.receipt
    ensures p.hst.Some? ==> r.hst == p.hst.value
    ensures p.hst.None? ==> r.hst == e.hst
  {
    Expense(
      Pick(p.id, e.id), Pick(p.title, e.title), Pick(p.amount, e.amount),
      Pick(p.category, e.category), Pick(p.categoryName, e.categoryName),
      Pick(p.description, e.description), Pick(p.expenseDate, e.expenseDate),
      Pick(p.receipt, e.receipt), Pick(p.hst, e.hst))
  }

  /** Assigning the same answer twice is assigning it once. */
  lemma ApplyIdempotent(e: Expense, p: ExpensePatch)
    ensures Apply(Apply(e, p), p) == Apply(e, p)
  {
  }

  /** An answer carrying every field replaces the expense outright; an
      empty one changes nothing. */
  lemma ApplyExtremes(e: Expense, f: Expense)
    ensures Apply(e, ExpensePatch(Some(f.id), Some(f.title), Some(f.amount), Some(f.category),
                                  Some(f.categoryName), Some(f.description), Some(f.expenseDate),
                                  Some(f.receipt), Some(f.hst))) == f
    ensures Apply(e, ExpensePatch(None, None, None, None, None, None, None, None, None)) == e
  {
  }

  /** The caller's expense object, which the dialog overwrites in place; the
      caller's list holds the same object, so it sees the change. */
  class ExpenseObject {
    var value: Expense

    constructor (e: Expense)
      ensures value == e
    {
      value := e;
    }

    method Assign(p: ExpensePatch)
      modifies this
      ensures value == Apply(old(value), p)
    {
      value := Apply(value, p);
    }
  }

  /** How the PATCH request ended. */
  datatype EditOutcome = Saved(data: ExpensePatch) | Rejected(detail: Option<string>)

  class Dialog {
    var form: EditForm
    var selectedFile: Option<File>
    var loading: bool
    var open: bool

    constructor (isOpen: bool, today: Date)
      ensures form == InitialForm(today) && selectedFile == None && !loading && open == isOpen
    {
      form := InitialForm(today);
      selectedFile := None;
      loading := false;
      open := isOpen;
    }

    /** The population effect, run when the `expense` prop changes. */
    method LoadExpense(expense: Option<Expense>)
      modifies this
      ensures expense.Some? ==> form == FormFromExpense(expense.value)
      ensures expense.None? ==> form == old(form)
      ensures selectedFile == old(selectedFile) && loading == old(loading) && open == old(open)
    {
      if expense.Some? {
        var e := expense.value;
        form := EditForm(
          e.title,
          Loaded(e.amount),
          if e.hst.Some? && e.hst.value != 0 then Loaded(e.hst.value) else Typed(""),
          NatToString(e.category),
          if e.description.Some? then e.description.value else "",
          e.expenseDate);
      }
    }

    /** `handleFileChange`. */
    method HandleFileChange(files: seq<File>)
      modifies this
      ensures |files| > 0 ==> selectedFile == Some(files[0])
      ensures |files| == 0 ==> selectedFile == old(selectedFile)
      ensures form == old(form) && loading == old(loading) && open == old(open)
    {
      if |files| > 0 {
        selectedFile := Some(files[0]);
      }
    }

    /** `handleSubmit`: sends the request; on success the answer is assigned
        onto `expense` in place and the dialog closes, on failure nothing but
        the error toast happens. */
    method HandleSubmit(expense: ExpenseObject, outcome: EditOutcome) returns (sent: Payload, toast: Toast)
      modifies this, expense
      ensures sent == EditPayload(old(form), old(selectedFile))
      ensures outcome.Saved? ==>
                && expense.value == Apply(old(expense.value), outcome.data)
                && toast == Toast(false, "Success", "Expense updated successfully")
                && !open
      ensures outcome.Rejected? ==>
                && expense.value == old(expense.value)
                && toast == Toast(true, "Error", DetailOr(outcome.detail, "Failed to update expense"))
                && open == old(open)
      ensures !loading && form == old(form) && selectedFile == old(selectedFile)
    {
      loading := true;
      var updated := form.(title := form.description);
      sent := AppendFields(updated);
      if selectedFile.Some? {
        sent := sent + [("receipt", Attachment(selectedFile.value))];
      }
      if outcome.Saved? {
        expense.Assign(outcome.data);
        toast := Toast(false, "Success", "Expense updated successfully");
        open := false;
      } else {
        toast := Toast(true, "Error", DetailOr(outcome.detail, "Failed to update expense"));
      }
      loading := false;
    }
  }
}
