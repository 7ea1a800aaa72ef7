# Money-Out: a verified model of the client-side rules

Money-Out is a Next.js/React expense tracker. Expenses have a title, an amount,
a category, a date and an optional receipt image. This project models, in
Dafny, the rules the browser client applies underneath the UI wiring:

- the spreadsheet export dialog: the monthly pivot of categories by `YYYY-MM`
  month with a total row, the detailed export (range filter, row mapping,
  file name) and the rule that disables the export button;
- the receipt list of the create-expense dialog (at most four files for most
  operations) and the multipart fields it sends;
- the payloads sent by the home page and by the edit dialog, the title search
  on the home page, and the in-place update of the edited expense;
- the three-step sign-up wizard and how it turns a server error into a message;
- the multi-select toggle and remove operations;
- the filter dialog, the active-filter chips and the mobile search header;
- grouping of the expense list into today / yesterday / this week;
- the client auth store (`access_token`, `refresh_token`, `user`) and the
  axios request and response interceptors.

Modules, one per source file plus four shared ones:

- `Base`: Option, `Filter`;
- `Text`: digits, `padStart`, `parseInt`, split/join, lower/upper case, trim, string order;
- `Dates`: calendar dates, the formats used, month keys, day numbers, weeks starting on Monday;
- `Domain`: expenses, categories, files, form payloads, amounts in cents.

Modelling choices:

- Amounts are integer cents. `parseFloat` of an amount field is `Domain.ParseAmount`.
  It reads `[-]digits[.digits]`, truncates to cents, and gives `NaN` otherwise.
- Dates are `(year, month, day)`. Day numbers are a days-from-civil count.
- A file is an opaque handle. Equality of handles stands for JavaScript
  reference equality, which is what `includes` uses.
- React state setters become field assignments on a class per component.
- `FormData` is a sequence of `(name, value)` pairs.
- `localStorage` is a `map<string, string>` field.
- Network results, today's date and whether a window exists are parameters.
  Each request's outcome is an input datatype, with one variant per way
  the request can end:
  - `Domain.Outcome` (`Succeeded` or `Failed(detail)`) for creating an
    expense, from the create dialog and from the home page;
  - `EditExpenseDialog.EditOutcome` (`Saved(data)` or `Rejected(detail)`)
    for the edit, where `data` is the server's answer that `Object.assign`
    copies onto the expense;
  - `Signup.SignupOutcome` (`Registered` or `Refused(data)`), where `data`
    is the error body the message is built from;
  - `Auth.TokenAnswer` (`Answer(access, refresh, user)`, an error response
    with `detail` and `message`, or no response) for sign-in, and
    `Auth.RefreshAnswer` (`Refreshed(access)` or `RefreshFailed`) for the
    token refresh; both carry the server's answer;
  - `AxiosClient.Settled` (`Fulfilled(response)` or `Rejected(error)`) for
    what the response interceptor receives.

## Model

| member | source | states |
|---|---|---|
| ExportDialog.CategoryKey | components/expenses/export-dialog.jsx:57 | the category of an expense is its category name when that is non-empty, else "Uncategorized" |
| ExportDialog.InitialiseCategories | components/expenses/export-dialog.jsx:49-51 | the loop gives each listed name, in list order, an empty month dictionary |
| ExportDialog.InitialDataKeys | components/expenses/export-dialog.jsx:49-51 | the initial dictionary has exactly the listed category names as keys, each mapped to an empty month map |
| ExportDialog.AddAllExpenses | components/expenses/export-dialog.jsx:54-68 | the loop applies the per-expense update to each expense in turn, in list order |
| ExportDialog.AddAmountAt | components/expenses/export-dialog.jsx:59-67 | one update adds the amount to the entry of its category and month, missing entries counting as 0, and leaves every other entry as it was |
| ExportDialog.AddExpensesSummarises | components/expenses/export-dialog.jsx:54-68 | starting from a dictionary that summarises no expenses, the expense pass yields one that summarises them all |
| ExportDialog.PassSummarises | components/expenses/export-dialog.jsx:49-68 | the two passes together summarise the expenses |
| ExportDialog.BuildCategorizedData | components/expenses/export-dialog.jsx:49-68 | after the loop over expenses, every category/month entry holds the sum of the amounts of the matching expenses, and the keys are exactly the listed and the used categories |
| ExportDialog.LookupIsCellTotal | components/expenses/export-dialog.jsx:86 | reading `categorizedData[c][m] \|\| 0` from a summarising dictionary yields the sum of the amounts of expenses with category c and month m |
| ExportDialog.CellTotalZero | components/expenses/export-dialog.jsx:86 | a cell with no matching expense is 0 |
| ExportDialog.CellTotalIsFilteredSum | components/expenses/export-dialog.jsx:54-68 | a cell is the sum of the amounts of the sub-list of expenses with that category and month |
| ExportDialog.InsertKey | components/expenses/export-dialog.jsx:71-74 | inserting a key into a strictly sorted list keeps it strictly sorted and adds exactly that key |
| ExportDialog.SortDistinct | components/expenses/export-dialog.jsx:71-74 | `[...new Set(keys)].sort()` is strictly sorted and has exactly the elements of its input |
| ExportDialog.SortedUnique | components/expenses/export-dialog.jsx:71-74 | two strictly sorted lists with the same elements are equal, so the month list is determined by the set of keys |
| ExportDialog.MonthKeys | components/expenses/export-dialog.jsx:71-73 | one `YYYY-MM` key per expense, in order |
| ExportDialog.MonthsAreDistinctSortedKeys | components/expenses/export-dialog.jsx:43-74 | the month columns are strictly sorted, have no duplicates, and are exactly the month keys of the expenses; the date range is not an input |
| ExportDialog.MonthsChronological | components/expenses/export-dialog.jsx:56-74 | for years 1000..9999, an earlier column holds an earlier (year, month) than a later column |
| ExportDialog.MonthKeyParts | components/expenses/export-dialog.jsx:78 | splitting a month key at '-' and parsing both parts gives back the year and month |
| ExportDialog.HeaderOf | components/expenses/export-dialog.jsx:79 | `format(new Date(y, m - 1), "MMM yyyy")`: years 0..99 read as 19xx, months outside 1..12 roll over into the year; `HeaderOfMonth` states the direct cases |
| ExportDialog.HeaderOfMonth | components/expenses/export-dialog.jsx:79 | for years of at least 100 and months 1..12, the header is "MMM yyyy" of that year and month |
| ExportDialog.MonthHeaderIsHeaderOf | components/expenses/export-dialog.jsx:78-79 | splitting a date's month key and parsing its parts feeds the date's own year and month to `new Date` |
| ExportDialog.MonthHeader | components/expenses/export-dialog.jsx:77-80 | the header of a month column: the key split at '-', both parts read by `parseInt`, then `HeaderOf`; `MonthHeaderOfKey` states its value for a date's key |
| ExportDialog.MonthHeaderOfKey | components/expenses/export-dialog.jsx:77-80 | the header of a month key is "MMM yyyy" of that year and month |
| ExportDialog.MonthHeadersDefined | components/expenses/export-dialog.jsx:77-80 | every month column has a header, so `format` never sees an invalid date |
| ExportDialog.HeaderRow | components/expenses/export-dialog.jsx:77-80 | the header row starts with "Expense categories" and has one more cell than there are months |
| ExportDialog.CategoryRow | components/expenses/export-dialog.jsx:84-88 | a category row starts with the category name and has one more cell than there are months |
| ExportDialog.CategoryRows | components/expenses/export-dialog.jsx:83-89 | one row per listed category, in list order |
| ExportDialog.TotalRow | components/expenses/export-dialog.jsx:92-98 | the total row starts with "Total" and has one cell per month after it |
| ExportDialog.MonthlyExport | components/expenses/export-dialog.jsx:43-187 | the imperative export builds exactly the pivot sheet, and the file is named `expense_summary_<today>.xlsx` |
| ExportDialog.MonthlySheet | components/expenses/export-dialog.jsx:77-102 | the monthly sheet: the header row, one row per listed category, then the total row; `MonthlySheetContent`, `MonthlySheetCells` and `MonthlySheetTotals` state its contents |
| ExportDialog.MonthlySheetContent | components/expenses/export-dialog.jsx:77-102 | the sheet is headers, one row per category, then the total row, each of width 1 + months; cell (c, m) is the sum for c and m; the total cell of a month is the sum of that column over the category rows |
| ExportDialog.MonthlySheetRows | components/expenses/export-dialog.jsx:77-102 | the sheet is the header row, then one row per listed category in order, then the total row |
| ExportDialog.MonthlySheetCells | components/expenses/export-dialog.jsx:83-89 | the cell of category row i in month column j is the sum for that category and month |
| ExportDialog.MonthlySheetTotals | components/expenses/export-dialog.jsx:92-98 | the total cell of each month column is the sum of that month over the listed categories |
| ExportDialog.HeadersNameMonths | components/expenses/export-dialog.jsx:77-80 | for years ≥ 100, each month header names the month and year of some expense in that column |
| ExportDialog.SumAmountsAppend | components/expenses/export-dialog.jsx:67 | the sum of amounts over a concatenation is the sum of the two parts |
| ExportDialog.CellTotalFilter | components/expenses/export-dialog.jsx:59-67 | dropping expenses of other categories leaves a category's cells unchanged |
| ExportDialog.CategoryRowFilter | components/expenses/export-dialog.jsx:83-89 | a category's row depends only on the expenses of that category |
| ExportDialog.UnlistedInNoRow | components/expenses/export-dialog.jsx:57-89 | the rows are the same once expenses whose category is not listed (including "Uncategorized") are removed |
| ExportDialog.ColumnTotalOfRows | components/expenses/export-dialog.jsx:92-98 | the `reduce` over rows for a column equals the sum over the categories of their cells in that month |
| ExportDialog.NameCountUnlisted | components/expenses/export-dialog.jsx:83-89 | a name that is not listed has no row |
| ExportDialog.NameCountListed | components/expenses/export-dialog.jsx:83-89 | with distinct names, a listed category has exactly one row |
| ExportDialog.CategorySumIsMonthTotal | components/expenses/export-dialog.jsx:92-98 | with distinct listed names and every expense in a listed category, the total of a month is the sum of all that month's expenses |
| ExportDialog.CategorySumEmpty | components/expenses/export-dialog.jsx:92-98 | with no expenses every column total is 0 |
| ExportDialog.DetailedExpenses | components/expenses/export-dialog.jsx:197-206 | the detailed export keeps the expenses inside the inclusive range when both bounds are set, else all of them; `DetailedExpensesKept` and `DetailedExpensesAppend` state what is kept and in which order |
| ExportDialog.DetailedExpensesKept | components/expenses/export-dialog.jsx:197-206 | with both bounds set, an expense is kept iff its date lies in the inclusive range; with either bound missing, all expenses are kept; nothing is added |
| ExportDialog.DetailedExpensesAppend | components/expenses/export-dialog.jsx:197-206 | the filter keeps the original order |
| ExportDialog.ToRow | components/expenses/export-dialog.jsx:214 | Receipt is "Yes" iff a non-empty receipt is present, and "No" otherwise |
| ExportDialog.DetailedRows | components/expenses/export-dialog.jsx:209-215 | one row per kept expense, in order |
| ExportDialog.DetailedRowContent | components/expenses/export-dialog.jsx:210-213 | a detailed row shows the date as `yyyy-MM-dd`, which parses back to the expense date, plus the title, the amount and the category with its fallback |
| ExportDialog.DetailedFileName | components/expenses/export-dialog.jsx:235-241 | the file name is `expenses_<from>_to_<to>.xlsx` when both bounds are set, else `expenses_<today>.xlsx` |
| ExportDialog.DetailedFileNameDates | components/expenses/export-dialog.jsx:235-241 | the dates embedded in the file name, at fixed positions, read back as the range's two bounds, or as today when a bound is missing |
| ExportDialog.ExportDisabled | components/expenses/export-dialog.jsx:345 | disabled iff loading, or detailed mode with exactly one bound set |
| ExportDialog.EnabledRangeComplete | components/expenses/export-dialog.jsx:345 | when enabled in detailed mode, the range has both bounds or neither |
| ExportDialog.Dialog.constructor | components/expenses/export-dialog.jsx:20-25 | detailed mode, an empty range, not loading |
| ExportDialog.Dialog.HandleExport | components/expenses/export-dialog.jsx:27-41 | the chosen mode decides which workbook is written; afterwards loading is off and the dialog is closed |
| CreateExpenseDialog.AppendCapped | components/expenses/create-expense-dialog.jsx:40-76 | the new list is the old files followed by the picked ones, cut to the first four |
| CreateExpenseDialog.AppendCappedKeeps | components/expenses/create-expense-dialog.jsx:40-46 | from a list of at most four files, the result stays within four, keeps the old files as a prefix, and then adds as many picked files as fit |
| CreateExpenseDialog.RemoveAt | components/expenses/create-expense-dialog.jsx:53-55 | the list shrinks by one exactly when the index is in range |
| CreateExpenseDialog.RemoveAtSlices | components/expenses/create-expense-dialog.jsx:53-55 | removing index i leaves the files before i followed by those after it; an index out of range changes nothing |
| CreateExpenseDialog.AddInitial | components/expenses/create-expense-dialog.jsx:34-38 | the initial file is appended iff it is given and not already present |
| CreateExpenseDialog.AddInitialIdempotent | components/expenses/create-expense-dialog.jsx:34-38 | running the initial-file effect twice equals running it once |
| CreateExpenseDialog.ReceiptField | components/expenses/create-expense-dialog.jsx:94-99 | an index has a field name iff it is below four |
| CreateExpenseDialog.ReceiptFieldsDistinct | components/expenses/create-expense-dialog.jsx:94-99 | the four names `receipt`, `receipt2`, `receipt3`, `receipt4` are pairwise distinct |
| CreateExpenseDialog.ReceiptFields | components/expenses/create-expense-dialog.jsx:94-99 | file i of the first four is sent under field i's name; later files are not sent |
| CreateExpenseDialog.SubmitData | components/expenses/create-expense-dialog.jsx:86-99 | the create request: the five form fields, then the receipt fields of the first four files; `SubmitDataFields` states its contents |
| CreateExpenseDialog.SubmitDataFields | components/expenses/create-expense-dialog.jsx:86-99 | the payload has no `hst`, its title is the description, and after the five fields it holds one attachment for each of at most four files |
| CreateExpenseDialog.AppendReceipts | components/expenses/create-expense-dialog.jsx:94-99 | the `forEach` with its if/else chain appends exactly the receipt fields |
| CreateExpenseDialog.Dialog.constructor | components/expenses/create-expense-dialog.jsx:22-32 | no files, camera closed, not loading, an empty form |
| CreateExpenseDialog.Dialog.InitialFileEffect | components/expenses/create-expense-dialog.jsx:34-38 | the file list becomes `AddInitial` of the old list; nothing else changes |
| CreateExpenseDialog.Dialog.HandleFileChange | components/expenses/create-expense-dialog.jsx:40-46 | the file list becomes the capped append; nothing else changes |
| CreateExpenseDialog.Dialog.HandleCameraCapture | components/expenses/create-expense-dialog.jsx:48-51 | the captured file is appended without a cap and the camera closes |
| CreateExpenseDialog.Dialog.RemoveFile | components/expenses/create-expense-dialog.jsx:53-55 | removes the file at the index; nothing else changes |
| CreateExpenseDialog.Dialog.HandleAddMore | components/expenses/create-expense-dialog.jsx:57-79 | with four or more files it only raises the "Maximum files reached" toast; otherwise it appends the picked files, capped, and raises no toast |
| CreateExpenseDialog.Dialog.HandleSubmit | components/expenses/create-expense-dialog.jsx:81-129 | sends the submit payload of the old form and files; on success the form and file list reset and the dialog closes; on failure they stay and the error toast shows the server detail or the default; loading ends either way |
| Domain.CreateFields | app/page.js:122-130 | the five text fields of a create request; `CreateFieldsContent` states names, order and values |
| Domain.CreateFieldsContent | app/page.js:122-130 | title, amount, category, description, expense_date in that order; title is the description, amount is `parseFloat` of the amount, the date is `yyyy-MM-dd` |
| Domain.EmptyForm | app/page.js:148-153 | an empty amount, category and description, dated today |
| Domain.DetailOr | app/page.js:163 | `detail \|\| fallback`: the detail when it is non-empty, else the fallback |
| Domain.ParseAmount | app/page.js:124 | `parseFloat("")` is NaN |
| Domain.ParseFormatCents | app/page.js:124 | an amount written with two decimals parses back to the same number of cents |
| HomePage.FilteredExpenses | app/page.js:103-105 | an expense is shown iff its lower-cased title contains the lower-cased query |
| HomePage.EmptyQueryKeepsAll | app/page.js:103-105 | an empty query keeps every expense |
| HomePage.FilteredExpensesAppend | app/page.js:103-105 | the search keeps the original order |
| HomePage.QueryCaseIgnored | app/page.js:103-105 | lower-casing the query first gives the same result |
| HomePage.PagePayload | app/page.js:122-134 | the home page's create request: the five fields, then `receipt` when a file is selected; `PagePayloadShape` and `ReceiptSentIffSelected` state it |
| HomePage.PagePayloadShape | app/page.js:122-134 | the five form fields first, then the selected file under `receipt` when there is one |
| HomePage.ReceiptSentIffSelected | app/page.js:132-134 | a `receipt` field is sent iff a file is selected |
| HomePage.Page.constructor | app/page.js:35-60 | no expenses, an empty query, no file, an empty form, loading, all dialogs closed |
| HomePage.Page.HandleFileChange | app/page.js:107-111 | the first picked file is selected; with none, the selection stays; nothing else changes |
| HomePage.Page.RemoveFile | app/page.js:113-115 | the selection is cleared; nothing else changes |
| HomePage.Page.HandleSubmit | app/page.js:117-168 | sends the page payload; on success the form resets and the file is cleared; on failure both stay and the error toast shows the detail or the default; loading ends either way |
| HomePage.Page.HandleCameraCapture | app/page.js:170-175 | stores the file, closes the camera view and the receipt dialog, and opens the expense dialog |
| EditExpenseDialog.FormFromExpense | components/expenses/edit-expense-dialog.jsx:96-107 | the form copies title, amount, category and date; a missing or zero `hst` becomes "" and a missing description becomes "" |
| EditExpenseDialog.NumberOf | components/expenses/edit-expense-dialog.jsx:129-130 | a numeric field is sent as a number, and an empty value becomes 0 |
| EditExpenseDialog.Updated | components/expenses/edit-expense-dialog.jsx:121-124 | the submitted title is the description |
| EditExpenseDialog.EditPayloadNames | components/expenses/edit-expense-dialog.jsx:126-138 | each form key is appended exactly once, in order, and `receipt` is appended iff a file was selected |
| EditExpenseDialog.EditPayload | components/expenses/edit-expense-dialog.jsx:121-138 | the edit request: one encoded field per form key, then `receipt` when a file is selected; `EditPayloadNames` and `EditPayloadValues` state it |
| EditExpenseDialog.EditPayloadValues | components/expenses/edit-expense-dialog.jsx:121-138 | the title is the description; amount and hst are numbers; category and description are verbatim; the date is `yyyy-MM-dd`; the receipt is the selected file |
| EditExpenseDialog.UneditedRoundTrip | components/expenses/edit-expense-dialog.jsx:96-134 | submitting an unedited form sends the expense's own amount, hst (or 0), category id and date |
| EditExpenseDialog.TypedAmountSent | components/expenses/edit-expense-dialog.jsx:129-130 | a typed amount with two decimals is sent as that many cents |
| EditExpenseDialog.AppendFields | components/expenses/edit-expense-dialog.jsx:126-134 | the loop over the form keys appends one field per key, encoded |
| EditExpenseDialog.Apply | components/expenses/edit-expense-dialog.jsx:146 | `Object.assign`: for each of the nine expense fields, a value present in the response overwrites the expense's, and an absent one keeps it |
| EditExpenseDialog.ApplyIdempotent | components/expenses/edit-expense-dialog.jsx:146 | assigning the same response twice equals assigning it once |
| EditExpenseDialog.ApplyExtremes | components/expenses/edit-expense-dialog.jsx:146 | a response with every field replaces the expense; an empty response changes nothing |
| EditExpenseDialog.ExpenseObject.Assign | components/expenses/edit-expense-dialog.jsx:146 | the caller's expense object is updated in place by the response |
| EditExpenseDialog.Dialog.constructor | components/expenses/edit-expense-dialog.jsx:87-94 | the initial form, no file, not loading |
| EditExpenseDialog.Dialog.LoadExpense | components/expenses/edit-expense-dialog.jsx:96-107 | with an expense, the form is populated from it; without one, the form stays |
| EditExpenseDialog.Dialog.HandleFileChange | components/expenses/edit-expense-dialog.jsx:109-113 | the first picked file is selected; with none, the selection stays |
| EditExpenseDialog.Dialog.HandleSubmit | components/expenses/edit-expense-dialog.jsx:115-164 | sends the edit payload; on success the expense is assigned in place, the success toast shows and the dialog closes; on failure the expense is unchanged and the error toast shows; loading ends either way |
| Signup.SetField | app/signup/page.js:53-55 | an input change sets the named field and no other |
| Signup.StepAfter | app/signup/page.js:57-59 | next is min(step + 1, 3) and stays within 1..3 |
| Signup.StepBefore | app/signup/page.js:61-63 | previous is max(step - 1, 1) and stays within 1..3 |
| Signup.BackAfterForward | app/signup/page.js:57-63 | on steps 1 and 2, going back after going forward returns to the same step |
| Signup.StepValid | app/signup/page.js:237-252 | step 1 needs non-blank trimmed first and last names; step 2 a non-blank trimmed username and email; step 3 non-empty, equal passwords |
| Signup.BlankNameRejected | app/signup/page.js:240-241 | a first name of spaces only fails step 1 |
| Signup.NextError | app/signup/page.js:258-261 | the message is "Passwords do not match" iff on step 3 with differing passwords, otherwise the fill-in message |
| Signup.Lookup | app/signup/page.js:96-99 | a property is found iff the object has an entry with that name |
| Signup.SignupError | app/signup/page.js:94-111 | precedence: `detail`, then `message`; an array is joined with ", "; an object gives the "key: value" pairs of `Object.entries` joined with ", "; a `null` body shows no toast; anything else gives "Failed to create account" |
| Signup.LookupLast | app/signup/page.js:95-98 | `data.detail` and `data.message` read the value of the last member with that name, as `JSON.parse` keeps it |
| Signup.OwnKeys | app/signup/page.js:101-104 | the keys of the parsed error body in `Object.entries` order; `ObjectEntriesOrder` states the order |
| Signup.ObjectEntries | app/signup/page.js:101-104 | `Object.entries` of the parsed body, as many pairs as keys; `ObjectEntriesOrder` and `ObjectEntriesValue` state which pairs, in which order |
| Signup.ObjectEntriesOrder | app/signup/page.js:101-104 | `Object.entries` lists each member name once: array-index keys first in ascending numeric order, then the other names in the order they first occur |
| Signup.ObjectEntriesValue | app/signup/page.js:101-104 | each listed value is that of the last member with its name |
| Signup.RepeatedMember | app/signup/page.js:101-104 | a member name written twice is listed once, with the second value |
| Signup.IndexMemberFirst | app/signup/page.js:101-104 | an integer-like key is listed before an ordinary key that precedes it in the body |
| Signup.RepeatedFieldShownOnce | app/signup/page.js:101-104 | an error body repeating a field shows "field: last message" once |
| Signup.IndexLessNumeric | app/signup/page.js:101-104 | on array-index keys, the listing order is the order of their numeric values |
| Signup.FieldErrorMessage | app/signup/page.js:100-105 | a field error `{field: [text]}` is shown as "field: text" |
| Signup.Wizard.constructor | app/signup/page.js:38-49 | step 1, an empty form, not loading |
| Signup.Wizard.HandleInputChange | app/signup/page.js:53-55 | updates only the named field |
| Signup.Wizard.NextStep | app/signup/page.js:57-59 | the step becomes `StepAfter` of the old step |
| Signup.Wizard.PrevStep | app/signup/page.js:61-63 | the step becomes `StepBefore` of the old step |
| Signup.Wizard.HandleNext | app/signup/page.js:254-268 | advances iff the current step validates; otherwise the step stays and the toast carries `NextError` |
| Signup.Wizard.HandleSubmit | app/signup/page.js:65-115 | with mismatched passwords, no request is made and an error toast shows; otherwise the registration request is sent, success leads to sign-in, and failure shows `SignupError` |
| MultiSelect.WithoutValue | components/ui/multi-select.jsx:41-48 | keeps exactly the items whose value differs |
| MultiSelect.Toggle | components/ui/multi-select.jsx:21-33 | a present value is removed everywhere; an absent one is appended at the end |
| MultiSelect.ToggleFlips | components/ui/multi-select.jsx:21-33 | toggling flips whether the value is selected |
| MultiSelect.ToggleTwice | components/ui/multi-select.jsx:21-33 | toggling an absent option twice restores the selection |
| MultiSelect.RemoveIdempotent | components/ui/multi-select.jsx:41-48 | removing twice equals removing once |
| MultiSelect.RemoveKeepsOrder | components/ui/multi-select.jsx:41-48 | removal keeps the others in order |
| MultiSelect.Select.constructor | components/ui/multi-select.jsx:18-19 | the selection is the `value` prop and the input is "" |
| MultiSelect.Select.HandleSelect | components/ui/multi-select.jsx:21-39 | the loop computing `isSelected` leads to the toggled selection; `onChange` receives it and the input is cleared |
| MultiSelect.Select.HandleRemove | components/ui/multi-select.jsx:41-48 | removes every item with the value and reports the new selection |
| MultiSelect.Select.SyncValue | components/ui/multi-select.jsx:50-52 | a new `value` prop replaces the selection |
| FilterDialog.CategoryArg | components/expenses/filter-dialog.jsx:27-29 | "all" becomes ""; any other choice passes through |
| FilterDialog.BoundArg | components/expenses/filter-dialog.jsx:30-33 | a bound is formatted `yyyy-MM-dd` iff it is set |
| FilterDialog.BoundArgReadsBack | components/expenses/filter-dialog.jsx:30-33 | a formatted bound parses back to the picked date |
| FilterDialog.Dialog.constructor | components/expenses/filter-dialog.jsx:21-25 | category "all" and an empty range |
| FilterDialog.Dialog.HandleFilter | components/expenses/filter-dialog.jsx:27-36 | emits the mapped category and bounds and closes the dialog |
| FilterDialog.Dialog.HandleReset | components/expenses/filter-dialog.jsx:38-43 | restores "all" and an empty range, emits `{}` and closes |
| SelectedFilter.Chips | components/SelectedFilter.jsx:11-16 | a category has a chip iff the filter has categories and contains its id |
| SelectedFilter.ChipsFollowList | components/SelectedFilter.jsx:11-16 | chips follow the order of the category list |
| SelectedFilter.RemoveCategory | components/SelectedFilter.jsx:22-29 | removes exactly that id and keeps the date range and the other entries |
| SelectedFilter.RemoveCategoryEffect | components/SelectedFilter.jsx:22-29 | the other ids keep their order and the removed category is no longer active |
| SelectedFilter.ClearDates | components/SelectedFilter.jsx:45-56 | both bounds become undefined, the categories stay, and the date chip disappears |
| SelectedFilter.ClearDatesKeepsChips | components/SelectedFilter.jsx:51-56 | clearing the dates leaves the category chips unchanged |
| SelectedFilter.DateLabel | components/SelectedFilter.jsx:59-68 | "MMM d - MMM d, yyyy" with both bounds, "From …" with only from, "Until …" with only to, none otherwise |
| SelectedFilter.DateLabelOfPicked | components/SelectedFilter.jsx:59-68 | the label of bounds set by the filter dialog names the picked dates |
| SearchMobile.NamesOf | components/SearchMobile.jsx:7-11 | the names of the categories, in order |
| SearchMobile.SelectedCategoryNames | components/SearchMobile.jsx:7-11 | null when no categories are active, else the names of the active categories in list order |
| SearchMobile.NamesMatchChips | components/SearchMobile.jsx:7-11 | the header names are the names of the chips shown |
| SearchMobile.CategoryDisplay | components/SearchMobile.jsx:14-16 | "" with no names, else " - " then the names joined by " & " |
| SearchMobile.SingleNameDisplay | components/SearchMobile.jsx:14-16 | a single name shows as " - name" |
| ExpenseList.Classify | components/expenses/expense-list.jsx:19-29 | today iff the same day; yesterday iff the day before; this week iff neither and in the same Monday-based week; dropped otherwise |
| ExpenseList.GroupExpenses | components/expenses/expense-list.jsx:19-29 | the `reduce` fills each bucket with exactly its members, in input order |
| ExpenseList.BucketsDisjoint | components/expenses/expense-list.jsx:19-29 | an expense lands in at most one bucket |
| ExpenseList.ThisWeekMembers | components/expenses/expense-list.jsx:25 | an expense is in this week's bucket iff it is neither today nor yesterday and falls in the current Monday-started week |
| ExpenseList.OlderDropped | components/expenses/expense-list.jsx:19-29 | an expense before the current week, other than yesterday, is in no bucket |
| ExpenseList.BucketsPartition | components/expenses/expense-list.jsx:19-29 | the sizes of the four buckets, the dropped expenses included, add up to exactly the number of expenses, so each expense is counted once |
| ExpenseList.SectionHeader | components/expenses/expense-list.jsx:105-117 | the header of an empty bucket is "" |
| ExpenseList.HeadersOfBuckets | components/expenses/expense-list.jsx:105-117 | a non-empty today bucket is headed "TODAY", a yesterday bucket "YESTERDAY", a this-week bucket its first date upper-cased as "MMM dd, yyyy" |
| ExpenseList.Sections | components/expenses/expense-list.jsx:122-149 | the sections show exactly the non-empty buckets, in the order today, yesterday, this week, each under its own header |
| ExpenseList.CategoryLabel | components/expenses/expense-list.jsx:63 | a missing category name shows as "OFFICE / ADMIN" |
| Auth.Storage.GetItem | lib/auth.js:67-76 | an item is found iff its key is stored |
| Auth.Storage.SetItem | lib/auth.js:14-17 | stores the value under the key |
| Auth.Storage.RemoveItem | lib/auth.js:60-62 | removes the key |
| Auth.SignInError | lib/auth.js:20-27 | the thrown message is `detail`, then `message`, then "Authentication failed" |
| Auth.SignIn | lib/auth.js:5-28 | all three keys are stored only when the response has access, refresh and user, and then the user is authenticated with a bearer header; otherwise nothing is stored and the error is raised |
| Auth.SignOut | lib/auth.js:48-65 | the logout call carries the refresh token when there is one; the three keys are removed whatever happens, and the user is no longer authenticated |
| Auth.RefreshToken | lib/auth.js:30-46 | with no refresh token it signs out and fails; on an answer only `access_token` changes, to the text of `access` ("undefined" when it is missing), and the call resolves with `access` itself; on failure it signs out and fails |
| Auth.IsAuthenticated | lib/auth.js:67-71 | true iff there is a window and a non-empty `access_token` is stored |
| Auth.AuthHeader | lib/auth.js:73-76 | "Bearer " then the token, or "" when none is stored |
| AxiosClient.RequestConfig.constructor | lib/axios.js:13 | holds the given headers and params |
| AxiosClient.WithUsername | lib/axios.js:22-25 | `params.username` is set to the username; other params are kept |
| AxiosClient.InterceptRequest | lib/axios.js:13-32 | without a window or a stored username the config is untouched; otherwise the `X-User-Username` header and `params.username` are set; the same config is returned |
| AxiosClient.InterceptResponse | lib/axios.js:34-45 | successes pass through; "Network Error" becomes the connectivity message; other errors are rethrown unchanged |
| AxiosClient.InterceptResponseIdempotent | lib/axios.js:34-45 | applying the error mapping twice equals applying it once |
| Dates.ParseFormatIso | components/expenses/edit-expense-dialog.jsx:128 | for a valid date, the `yyyy-MM-dd` text reads back as the same date |
| Dates.MonthKeyOrder | components/expenses/export-dialog.jsx:71-74 | for four-digit years, string order of two month keys is the chronological order of their (year, month) |
| Dates.MonthKeyInjective | components/expenses/export-dialog.jsx:71-74 | two dates with the same month key have the same year and month |
| Dates.SameWeek | components/expenses/expense-list.jsx:25 | two days share a Monday-based week iff the first lies in the seven days starting at the other's Monday |
| Text.StrLessIrreflexive | components/expenses/export-dialog.jsx:74 | the default `sort` order never puts a string before itself |
| Text.StrLessTransitive | components/expenses/export-dialog.jsx:74 | the default `sort` order is transitive |
| Text.StrLessTotal | components/expenses/export-dialog.jsx:74 | of two different strings, one comes before the other |
| Text.DigitStringOrder | components/expenses/export-dialog.jsx:74 | digit strings of equal length compare as their values do |
| Text.SplitJoined | components/expenses/export-dialog.jsx:78 | splitting `a-b` at '-' gives `[a, b]` when neither part contains '-' |
| Text.ParseIntOfPadded | components/expenses/export-dialog.jsx:78-79 | `parseInt` of a zero-padded number gives the number |
| Text.TrimEmpty | app/signup/page.js:240-242 | `trim` gives "" iff every character is whitespace |
| Base.FilterSubMultiset | app/page.js:103-105 | a filter only drops elements, never adds or duplicates one |
| HomePage.ToLowerIdempotent | app/page.js:103-105 | lower-casing twice is lower-casing once |
| SearchMobile.JoinCons | components/SearchMobile.jsx:15 | joining two or more names puts the separator between the first and the join of the rest |

## Left out

- Building the XLSX workbook, cell styling (components/expenses/export-dialog.jsx:104-185), column widths and writing the file: the model stops at the sheet contents and the file name.
- All network calls (axios, fetch, the backend logout call, `fetchExpenses`/`fetchSummary`, the `onExpense…` callbacks): their outcomes are inputs, and the refreshes after a request are not modelled.
- `router.push` after sign-up is the `toSignIn` result of `Signup.Wizard.HandleSubmit`.
- Time zones: `new Date("yyyy-MM-dd")` parses as UTC and is read in local time. The model uses calendar dates throughout.
- Floating point in `parseFloat`, `toFixed` and `toLocaleString`: amounts are integer cents.
- Amounts are taken to arrive from the server as numbers. An amount sent as a string would make `+=` at components/expenses/export-dialog.jsx:67 and the `+` of the total row at line 95 concatenate text instead of adding.
- A date range cleared in the calendar: `Domain.DateRange` is always a record with two optional bounds. The model does not cover the calendar handing `undefined` to `setDateRange` (components/expenses/filter-dialog.jsx:83), after which `handleFilter` would fail reading `dateRange.from`; the calendar component is not part of this model.
- Domain.ParseAmount: reads only `[-]digits[.digits]`, truncated to cents. It does not model a leading `+`, leading white space, exponents or `Infinity`; like `parseFloat`, it ignores whatever follows the number.
- Unicode case mapping and white space beyond ASCII letters and the usual space characters in `toLowerCase`, `toUpperCase` and `trim`.
- ExportDialog.MonthsChronological: holds only for years 1000..9999. A year without four digits breaks the lexicographic order, and the source does not pad the year.
- ExportDialog.HeadersNameMonths: stated for years of at least 100, because `new Date(y, m)` reads years 0..99 as 19xx.
- ExportDialog.DetailedExpenses: with `from` after `to`, the model keeps nothing. Depending on the date-fns version, `isWithinInterval` then either throws or swaps the bounds.
- JavaScript object keys such as `__proto__` used as category names are ordinary keys here.
- Auth.RefreshToken: the `signOut` it calls is not awaited. The key removal, which follows the backend call, is modelled as immediate.
- Reading `sessionStorage` for the username (lib/axios.js:18) cannot fail in the model.
- The camera component (components/ui/camera.jsx): browser media APIs. A capture is only a file handed to the dialogs.
- The sign-up progress bar, and the native form submit on steps 1 and 2.
- Signup.SignupError: a non-string `detail`, `message` or array element is rendered by a simplified `String()` on the JSON model. The body is given as its members in text order; `JSON.parse` and `Object.entries` are modelled by `Signup.ObjectEntries` (one property per name, holding the last value, array indices first).
- The hand-off between the filter dialog's single `category` and the `categories` list that the chips read: the parent page doing it is not part of this model.
- Server-side code, the middleware, the identity SDK wrappers, the category management dialog and the presentational components: no client-side rule to state.
