/** The expenses page of `app/page.js`: the title search over the fetched
    expenses, the single-receipt create form, and the dialog flags a camera
    capture switches. Fetching expenses, categories and the summary is not
    modelled; the fetched list is a field. */
module HomePage {
  import opened Base
  import opened Text
  import opened Dates
  import opened Domain

  /** The search predicate: the lower-cased title contains the lower-cased query. */
  predicate Matches(e: Expense, query: string) {
    Contains(ToLower(e.title), ToLower(query))
  }

  /** `filteredExpenses`. */
  function FilteredExpenses(expenses: seq<Expense>, query: string): (r: seq<Expense>)
    ensures forall e :: e in r <==> e in expenses && Matches(e, query)
  {
    Filter(expenses, e => Matches(e, query))
  }

  /** An empty search box shows every expense. */
  lemma EmptyQueryKeepsAll(expenses: seq<Expense>)
    ensures FilteredExpenses(expenses, "") == expenses
  {
    forall e | e in expenses ensures Matches(e, "") {
      ContainsEmpty(ToLower(e.title));
    }
    FilterKeepsAll(expenses, e => Matches(e, ""));
  }

  /** The result keeps the input order: searching a concatenation searches
      each part in turn. */
  lemma FilteredExpensesAppend(a: seq<Expense>, b: seq<Expense>, query: string)
    ensures FilteredExpenses(a + b, query) == FilteredExpenses(a, query) + FilteredExpenses(b, query)
  {
    FilterAppend(a, b, e => Matches(e, query));
  }

  lemma {:induction false} ToLowerIdempotent(s: string)
    ensures ToLower(ToLower(s)) == ToLower(s)
  {
    var once := ToLower(s);
    var twice := ToLower(once);
    forall i | 0 <= i < |s| ensures twice[i] == once[i] {
      assert once[i] == LowerChar(s[i]);
    }
  }

  /** The search ignores the letter case of the query. */
  lemma QueryCaseIgnored(expenses: seq<Expense>, query: string)
    ensures FilteredExpenses(expenses, ToLower(query)) == FilteredExpenses(expenses, query)
  {
    ToLowerIdempotent(query);
    FilterSamePredicate(expenses, e => Matches(e, ToLower(query)), e => Matches(e, query));
  }

  /** The create request of this page: the text fields, then `receipt` when
      a file is selected. */
  function PagePayload(form: ExpenseForm, file: Option<File>): Payload {
    CreateFields(form) + (if file.Some? then [("receipt", Attachment(file.value))] else [])
  }

  /** The five text fields come first, then the selected file, if any, under
      `receipt`. */
  lemma PagePayloadShape(form: ExpenseForm, file: Option<File>)
    ensures |PagePayload(form, file)| == if file.Some? then 6 else 5
    ensures PagePayload(form, file)[..5] == CreateFields(form)
    ensures file.Some? ==> PagePayload(form, file)[5] == ("receipt", Attachment(file.value))
  {
    assert PagePayload(form, file)[..5] == CreateFields(form);
  }

  /** `receipt` is among the names sent exactly when a file is selected. */
  lemma ReceiptSentIffSelected(form: ExpenseForm, file: Option<File>)
    ensures "receipt" in Names(PagePayload(form, file)) <==> file.Some?
  {
    var names := Names(PagePayload(form, file));
    CreateFieldsContent(form);
    if file.Some? {
      assert names[5] == "receipt";
    } else {
      assert names == Names(CreateFields(form));
    }
  }

  class Page {
    var expenses: seq<Expense>
    var searchQuery: string
    var selectedFile: Option<File>
    var form: ExpenseForm
    var loading: bool
    var showCameraView: bool
    var showReceiptDialog: bool
    var showExpenseDialog: bool

    constructor (today: Date)
      ensures expenses == [] && searchQuery == "" && selectedFile == None && form == EmptyForm(today)
      ensures loading && !showCameraView && !showReceiptDialog && !showExpenseDialog
    {
      expenses := [];
      searchQuery := "";
      selectedFile := None;
      form := EmptyForm(today);
      loading := true;
      showCameraView := false;
      showReceiptDialog := false;
      showExpenseDialog := false;
    }

    /** The list shown: the fetched expenses matching the search box. */
    function Shown(): seq<Expense>
      reads this
    {
      FilteredExpenses(expenses, searchQuery)
    }

    /** `handleFileChange`: the first picked file becomes the selection; a
        dismissed picker keeps the old one. */
    method HandleFileChange(files: seq<File>)
      modifies this
      ensures |files| > 0 ==> selectedFile == Some(files[0])
      ensures |files| == 0 ==> selectedFile == old(selectedFile)
      ensures expenses == old(expenses) && searchQuery == old(searchQuery) && form == old(form)
      ensures loading == old(loading) && showCameraView == old(showCameraView)
      ensures showReceiptDialog == old(showReceiptDialog) && showExpenseDialog == old(showExpenseDialog)
    {
      if |files| > 0 {
        selectedFile := Some(files[0]);
      }
    }

    /** `removeFile`. */
    method RemoveFile()
      modifies this
      ensures selectedFile == None
      ensures expenses == old(expenses) && searchQuery == old(searchQuery) && form == old(form)
      ensures loading == old(loading) && showCameraView == old(showCameraView)
      ensures showReceiptDialog == old(showReceiptDialog) && showExpenseDialog == old(showExpenseDialog)
    {
      selectedFile := None;
    }

    /** `handleSubmit`: builds the request field by field. On success the
        form is reset and the file cleared; on failure only the error toast
        appears. */
    method HandleSubmit(outcome: Outcome, today: Date) returns (sent: Payload, toast: Toast)
      modifies this
      ensures sent == PagePayload(old(form), old(selectedFile))
      ensures outcome.Succeeded? ==>
                toast == Toast(false, "Success", "Expense created successfully")
                && form == EmptyForm(today) && selectedFile == None
      ensures outcome.Failed? ==>
                toast == Toast(true, "Error", DetailOr(outcome.detail, "Failed to create expense"))
                && form == old(form) && selectedFile == old(selectedFile)
      ensures !loading && expenses == old(expenses) && searchQuery == old(searchQuery)
      ensures showCameraView == old(showCameraView)
      ensures showReceiptDialog == old(showReceiptDialog) && showExpenseDialog == old(showExpenseDialog)
    {
      loading := true;
      sent := PagePayload(form, selectedFile);
      if outcome.Succeeded? {
        toast := Toast(false, "Success", "Expense created successfully");
        form := EmptyForm(today);
        selectedFile := None;
      } else {
        toast := Toast(true, "Error", DetailOr(outcome.detail, "Failed to create expense"));
      }
      loading := false;
    }

    /** `handleCameraCapture`: keeps the photo and swaps the camera view and
        receipt dialog for the expense dialog. */
    method HandleCameraCapture(file: File)
      modifies this
      ensures selectedFile == Some(file)
      ensures !showCameraView && !showReceiptDialog && showExpenseDialog
      ensures expenses == old(expenses) && searchQuery == old(searchQuery) && form == old(form)
      ensures loading == old(loading)
    {
      selectedFile := Some(file);
      showCameraView := false;
      showReceiptDialog := false;
      showExpenseDialog := true;
    }
  }
}
