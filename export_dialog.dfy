/** The spreadsheet export of `components/expenses/export-dialog.jsx`: the
    monthly pivot (category x month sums with a total row) and the detailed
    one-row-per-expense export with its optional date range. Workbook
    creation, cell styling and file writing are not modelled; a sheet is
    its array of rows. */
module ExportDialog {
  import opened Base
  import opened Text
  import opened Dates
  import opened Domain

  datatype Mode = Detailed | Monthly

  /** A spreadsheet cell: a text label or a number (cents). */
  datatype Cell = Label(text: string) | Amount(cents: int)

  /** `expense.category_details?.name || "Uncategorized"`. */
  function CategoryKey(e: Expense): (k: string)
    ensures e.categoryName.Some? && e.categoryName.value != "" ==> k == e.categoryName.value
    ensures e.categoryName.None? || e.categoryName.value == "" ==> k == "Uncategorized"
  {
    match e.categoryName
    case Some(n) => if n != "" then n else "Uncategorized"
    case None => "Uncategorized"
  }

  function ExpenseMonth(e: Expense): string {
    MonthKey(e.expenseDate)
  }

  // ===== monthly export: the categorised sums ============================

  /** The sum of the amounts of the expenses filed under category `c` in month `m`. */
  function CellTotal(expenses: seq<Expense>, c: string, m: string): int {
    if expenses == [] then 0
    else
      var e := expenses[|expenses| - 1];
      CellTotal(expenses[..|expenses| - 1], c, m)
      + (if CategoryKey(e) == c && ExpenseMonth(e) == m then e.amount else 0)
  }

  predicate Occurs(expenses: seq<Expense>, c: string, m: string) {
    exists k :: 0 <= k < |expenses| && CategoryKey(expenses[k]) == c && ExpenseMonth(expenses[k]) == m
  }

  predicate IsListed(categories: seq<Category>, c: string) {
    exists k :: 0 <= k < |categories| && categories[k].name == c
  }

  predicate IsUsed(expenses: seq<Expense>, c: string) {
    exists k :: 0 <= k < |expenses| && CategoryKey(expenses[k]) == c
  }

  /** A (category, month) pair no expense has sums to zero. */
  lemma {:induction false} CellTotalZero(expenses: seq<Expense>, c: string, m: string)
    requires !Occurs(expenses, c, m)
    ensures CellTotal(expenses, c, m) == 0
  {
    if expenses != [] {
      var init := expenses[..|expenses| - 1];
      forall k | 0 <= k < |init|
        ensures !(CategoryKey(init[k]) == c && ExpenseMonth(init[k]) == m)
      {
        assert init[k] == expenses[k];
      }
      CellTotalZero(init, c, m);
    }
  }

  /** The first pass of `handleMonthlyExport`: an empty dictionary for the
      name of every listed category. */
  method InitialiseCategories(categories: seq<Category>) returns (data: map<string, map<string, int>>)
    ensures data == InitialData(categories)
  {
    data := map[];
    for i := 0 to |categories|
      invariant data == InitialData(categories[..i])
    {
      ghost var done := categories[..i + 1];
      assert done[..|done| - 1] == categories[..i] && done[|done| - 1] == categories[i];
      data := data[categories[i].name := map[]];
    }
    assert categories[..|categories|] == categories;
  }

  /** The dictionary the first pass builds, category by category. */
  function InitialData(categories: seq<Category>): map<string, map<string, int>> {
    if categories == [] then map[]
    else InitialData(categories[..|categories| - 1])[categories[|categories| - 1].name := map[]]
  }

  /** The first pass has exactly the listed names as keys, each with an
      empty dictionary. */
  lemma {:induction false} InitialDataKeys(categories: seq<Category>)
    ensures forall c :: c in InitialData(categories) <==> IsListed(categories, c)
    ensures forall c :: c in InitialData(categories) ==> InitialData(categories)[c] == map[]
  {
    if categories != [] {
      var n := |categories| - 1;
      InitialDataKeys(categories[..n]);
      ListedStep(categories, n);
      assert categories[..n + 1] == categories;
    }
  }

  lemma ListedStep(categories: seq<Category>, i: nat)
    requires i < |categories|
    ensures forall c :: IsListed(categories[..i + 1], c) <==> IsListed(categories[..i], c) || c == categories[i].name
  {
    forall c ensures IsListed(categories[..i + 1], c) <==> IsListed(categories[..i], c) || c == categories[i].name {
      if IsListed(categories[..i + 1], c) {
        var k :| 0 <= k < i + 1 && categories[..i + 1][k].name == c;
        if k < i { assert categories[..i][k] == categories[k]; }
      }
      if IsListed(categories[..i], c) {
        var k :| 0 <= k < i && categories[..i][k].name == c;
        assert categories[..i + 1][k] == categories[k];
      }
      if c == categories[i].name {
        assert categories[..i + 1][i] == categories[i];
      }
    }
  }

  /** `data` holds exactly the sums of `expenses` for the listed categories. */
  ghost predicate Summarises(data: map<string, map<string, int>>, categories: seq<Category>, expenses: seq<Expense>) {
    && (forall c :: c in data <==> IsListed(categories, c) || IsUsed(expenses, c))
    && (forall c, m :: c in data ==> (m in data[c] <==> Occurs(expenses, c, m)))
    && (forall c, m :: c in data && m in data[c] ==> data[c][m] == CellTotal(expenses, c, m))
  }

  /** The nested dictionary `categorizedData` of `handleMonthlyExport`: one
      entry per listed category name and per category an expense is filed
      under; in each, one entry per month some expense of that category falls
      in, holding the sum of their amounts. */
  method BuildCategorizedData(categories: seq<Category>, expenses: seq<Expense>)
    returns (data: map<string, map<string, int>>)
    ensures Summarises(data, categories, expenses)
  {
    var start := InitialiseCategories(categories);
    data := AddAllExpenses(start, expenses);
    PassSummarises(categories, expenses);
  }

  /** The `expenses.forEach` pass of `handleMonthlyExport`, adding each
      expense's amount to its category and month. */
  method AddAllExpenses(start: map<string, map<string, int>>, expenses: seq<Expense>)
    returns (data: map<string, map<string, int>>)
    ensures data == AddExpenses(start, expenses)
  {
    data := start;
    for i := 0 to |expenses|
      invariant data == AddExpenses(start, expenses[..i])
    {
      var e := expenses[i];
      AddExpensesNext(start, expenses, i);
      data := AddAmount(data, CategoryKey(e), ExpenseMonth(e), e.amount);
    }
    assert expenses[..|expenses|] == expenses;
  }

  lemma AddExpensesNext(start: map<string, map<string, int>>, expenses: seq<Expense>, i: nat)
    requires i < |expenses|
    ensures AddExpenses(start, expenses[..i + 1]) == AddExpense(AddExpenses(start, expenses[..i]), expenses[i])
  {
    var done := expenses[..i + 1];
    assert done[..|done| - 1] == expenses[..i] && done[|done| - 1] == expenses[i];
  }

  /** The two passes together summarise the expenses. */
  lemma PassSummarises(categories: seq<Category>, expenses: seq<Expense>)
    ensures Summarises(AddExpenses(InitialData(categories), expenses), categories, expenses)
  {
    InitialDataKeys(categories);
    InitialSummary(InitialData(categories), categories);
    AddExpensesSummarises(InitialData(categories), categories, expenses);
  }

  /** One iteration of the expense pass: add the amount to the entry of its
      category and month, creating either when it is missing. */
  function AddExpense(data: map<string, map<string, int>>, e: Expense): map<string, map<string, int>> {
    AddAmount(data, CategoryKey(e), ExpenseMonth(e), e.amount)
  }

  /** The body of the `forEach`: create the category's dictionary and the
      month's entry when missing, then add the amount to that entry. */
  function AddAmount(data: map<string, map<string, int>>, c: string, m: string, amount: int): map<string, map<string, int>> {
    var row := if c in data then data[c] else map[];
    var sum := if m in row then row[m] else 0;
    data[c := row[m := sum + amount]]
  }

  /** The expense pass over `expenses`, starting from `start`. */
  function AddExpenses(start: map<string, map<string, int>>, expenses: seq<Expense>): map<string, map<string, int>> {
    if expenses == [] then start
    else AddExpense(AddExpenses(start, expenses[..|expenses| - 1]), expenses[|expenses| - 1])
  }

  /** Starting from the initial dictionary, the pass summarises the expenses. */
  lemma {:induction false} AddExpensesSummarises(start: map<string, map<string, int>>, categories: seq<Category>,
                                                 expenses: seq<Expense>)
    requires Summarises(start, categories, [])
    ensures Summarises(AddExpenses(start, expenses), categories, expenses)
  {
    if expenses != [] {
      var init, e := expenses[..|expenses| - 1], expenses[|expenses| - 1];
      AddExpensesSummarises(start, categories, init);
      var data := AddExpenses(start, init);
      assert expenses == init + [e];
      AddExpenseStep(data, categories, init, e, expenses);
    }
  }

  lemma InitialSummary(data: map<string, map<string, int>>, categories: seq<Category>)
    requires forall c :: c in data <==> IsListed(categories, c)
    requires forall c :: c in data ==> data[c] == map[]
    ensures Summarises(data, categories, [])
  {
  }

  /** One iteration of the expense pass keeps `Summarises`. */
  lemma AddExpenseStep(data: map<string, map<string, int>>, categories: seq<Category>,
                       pre: seq<Expense>, e: Expense, post: seq<Expense>)
    requires Summarises(data, categories, pre)
    requires post == pre + [e]
    ensures Summarises(AddExpense(data, e), categories, post)
  {
    var next := AddExpense(data, e);
    forall c' ensures c' in next <==> IsListed(categories, c') || IsUsed(post, c') {
      UsedStep(pre, e, c');
    }
    forall c', m' | c' in next ensures m' in next[c'] <==> Occurs(post, c', m') {
      OccursStep(pre, e, c', m');
    }
    var c, m := CategoryKey(e), ExpenseMonth(e);
    if c !in data {
      UnusedNowhere(pre, c, m);
    }
    forall c', m' | c' in next && m' in next[c'] ensures next[c'][m'] == CellTotal(post, c', m') {
      CellStep(data, pre, e, c', m');
    }
  }

  /** One entry after an iteration of the expense pass holds the sum over
      the expenses seen so far, given that it did before. */
  lemma CellStep(data: map<string, map<string, int>>, pre: seq<Expense>, e: Expense, c': string, m': string)
    requires c' in AddExpense(data, e) && m' in AddExpense(data, e)[c']
    requires c' in data && m' in data[c'] ==> data[c'][m'] == CellTotal(pre, c', m')
    requires !(CategoryKey(e) in data && ExpenseMonth(e) in data[CategoryKey(e)]) ==>
               !Occurs(pre, CategoryKey(e), ExpenseMonth(e))
    ensures AddExpense(data, e)[c'][m'] == CellTotal(pre + [e], c', m')
  {
    var c, m := CategoryKey(e), ExpenseMonth(e);
    AddAmountAt(data, c, m, e.amount, c', m');
    CellTotalNext(pre, e, c', m');
    if c' == c && m' == m && !(c in data && m in data[c]) {
      CellTotalZero(pre, c, m);
    }
  }

  /** Appending an expense adds its amount to its own cell only. */
  lemma CellTotalNext(pre: seq<Expense>, e: Expense, c: string, m: string)
    ensures CellTotal(pre + [e], c, m)
            == CellTotal(pre, c, m) + (if CategoryKey(e) == c && ExpenseMonth(e) == m then e.amount else 0)
  {
    var post := pre + [e];
    assert post[..|post| - 1] == pre && post[|post| - 1] == e;
  }

  /** A category no expense is filed under occurs in no month. */
  lemma UnusedNowhere(expenses: seq<Expense>, c: string, m: string)
    requires !IsUsed(expenses, c)
    ensures !Occurs(expenses, c, m)
  {
  }

  /** The entries of `AddAmount`: the one it adds to holds the old sum (0
      when missing) plus the amount; every other is as it was. */
  lemma AddAmountAt(data: map<string, map<string, int>>, c: string, m: string, amount: int, c': string, m': string)
    requires c' in AddAmount(data, c, m, amount) && m' in AddAmount(data, c, m, amount)[c']
    ensures c' == c && m' == m ==>
              AddAmount(data, c, m, amount)[c'][m'] == (if c in data && m in data[c] then data[c][m] else 0) + amount
    ensures !(c' == c && m' == m) ==>
              c' in data && m' in data[c'] && AddAmount(data, c, m, amount)[c'][m'] == data[c'][m']
  {
  }

  lemma UsedStep(pre: seq<Expense>, e: Expense, c: string)
    ensures IsUsed(pre + [e], c) <==> IsUsed(pre, c) || c == CategoryKey(e)
  {
    var post := pre + [e];
    assert post[|pre|] == e;
    if IsUsed(pre, c) {
      var k :| 0 <= k < |pre| && CategoryKey(pre[k]) == c;
      assert post[k] == pre[k];
    }
    if IsUsed(post, c) && c != CategoryKey(e) {
      var k :| 0 <= k < |post| && CategoryKey(post[k]) == c;
      assert pre[k] == post[k];
    }
  }

  lemma OccursStep(pre: seq<Expense>, e: Expense, c: string, m: string)
    ensures Occurs(pre + [e], c, m) <==> Occurs(pre, c, m) || (c == CategoryKey(e) && m == ExpenseMonth(e))
  {
    var post := pre + [e];
    assert post[|pre|] == e;
    if Occurs(pre, c, m) {
      var k :| 0 <= k < |pre| && CategoryKey(pre[k]) == c && ExpenseMonth(pre[k]) == m;
      assert post[k] == pre[k];
    }
    if Occurs(post, c, m) && !(c == CategoryKey(e) && m == ExpenseMonth(e)) {
      var k :| 0 <= k < |post| && CategoryKey(post[k]) == c && ExpenseMonth(post[k]) == m;
      assert pre[k] == post[k];
    }
  }

  /** Cell lookup `categorizedData[name][month] || 0`. */
  function Lookup(data: map<string, map<string, int>>, c: string, m: string): int {
    if c in data && m in data[c] then data[c][m] else 0
  }

  /** Every lookup the rows make agrees with the specified sum. */
  lemma LookupIsCellTotal(data: map<string, map<string, int>>, categories: seq<Category>,
                          expenses: seq<Expense>, c: string, m: string)
    requires Summarises(data, categories, expenses)
    ensures Lookup(data, c, m) == CellTotal(expenses, c, m)
  {
    if !(c in data && m in data[c]) {
      if c in data {
        CellTotalZero(expenses, c, m);
      } else {
        assert !IsUsed(expenses, c);
        forall k | 0 <= k < |expenses| ensures CategoryKey(expenses[k]) != c {
          assert !(0 <= k < |expenses| && CategoryKey(expenses[k]) == c);
        }
        CellTotalZero(expenses, c, m);
      }
    }
  }

  // ===== monthly export: the month columns ===============================

  predicate StrictlySorted(s: seq<string>) {
    forall i, j :: 0 <= i < j < |s| ==> StrLess(s[i], s[j])
  }

  lemma ConsSorted(x: string, t: seq<string>)
    requires StrictlySorted(t)
    requires forall y :: y in t ==> StrLess(x, y)
    ensures StrictlySorted([x] + t)
  {
    var s := [x] + t;
    forall i, j | 0 <= i < j < |s| ensures StrLess(s[i], s[j]) {
      if i == 0 {
        assert s[j] == t[j - 1];
        assert s[j] in t;
      } else {
        assert s[i] == t[i - 1] && s[j] == t[j - 1];
      }
    }
  }

  /** Adds one key to a strictly sorted list of distinct keys. */
  function InsertKey(s: seq<string>, k: string): (r: seq<string>)
    requires StrictlySorted(s)
    ensures StrictlySorted(r)
    ensures forall x :: x in r <==> x in s || x == k
  {
    if s == [] then [k]
    else if s[0] == k then s
    else if StrLess(k, s[0]) then
      assert forall y :: y in s ==> StrLess(k, y) by {
        forall y | y in s ensures StrLess(k, y) {
          var j :| 0 <= j < |s| && s[j] == y;
          if j > 0 { StrLessTransitive(k, s[0], y); }
        }
      }
      ConsSorted(k, s);
      [k] + s
    else
      StrLessTotal(k, s[0]);
      var t := InsertKey(s[1..], k);
      assert forall y :: y in t ==> StrLess(s[0], y) by {
        forall y | y in t ensures StrLess(s[0], y) {
          if y != k {
            var j :| 0 <= j < |s[1..]| && s[1..][j] == y;
            assert s[j + 1] == y;
          }
        }
      }
      ConsSorted(s[0], t);
      [s[0]] + t
  }

  /** `[...new Set(keys)].sort()`: the distinct keys in ascending order. */
  function SortDistinct(keys: seq<string>): (r: seq<string>)
    ensures StrictlySorted(r)
    ensures forall x :: x in r <==> x in keys
  {
    if keys == [] then []
    else
      var init := keys[..|keys| - 1];
      assert forall x :: x in keys <==> x in init || x == keys[|keys| - 1] by {
        assert keys == init + [keys[|keys| - 1]];
      }
      InsertKey(SortDistinct(init), keys[|keys| - 1])
  }

  /** A strictly sorted list is determined by its elements: `SortDistinct`
      yields THE ascending list of the distinct keys. */
  lemma {:induction false} SortedUnique(a: seq<string>, b: seq<string>)
    requires StrictlySorted(a) && StrictlySorted(b)
    requires forall x :: x in a <==> x in b
    ensures a == b
  {
    if a != [] { assert a[0] in a; }
    if b != [] { assert b[0] in b; }
    if a != [] && b != [] {
      assert a[0] == b[0] by {
        assert a[0] in a && b[0] in b;
        var i :| 0 <= i < |b| && b[i] == a[0];
        var j :| 0 <= j < |a| && a[j] == b[0];
        if a[0] != b[0] {
          assert StrLess(b[0], a[0]) && StrLess(a[0], b[0]);
          StrLessAsymmetric(a[0], b[0]);
          assert false;
        }
      }
      forall x ensures x in a[1..] <==> x in b[1..] {
        if x in a[1..] {
          var j :| 0 <= j < |a[1..]| && a[1..][j] == x;
          assert StrLess(a[0], x) by { assert a[j + 1] == x; }
          StrLessIrreflexive(x);
          assert x in b;
        }
        if x in b[1..] {
          var j :| 0 <= j < |b[1..]| && b[1..][j] == x;
          assert StrLess(b[0], x) by { assert b[j + 1] == x; }
          StrLessIrreflexive(x);
          assert x in a;
        }
      }
      SortedUnique(a[1..], b[1..]);
      assert a == [a[0]] + a[1..] && b == [b[0]] + b[1..];
    }
  }

  function MonthKeys(expenses: seq<Expense>): (r: seq<string>)
    ensures |r| == |expenses|
    ensures forall i :: 0 <= i < |expenses| ==> r[i] == ExpenseMonth(expenses[i])
  {
    seq(|expenses|, i requires 0 <= i < |expenses| => ExpenseMonth(expenses[i]))
  }

  /** The month columns: the distinct month keys of all expenses, ascending. */
  function Months(expenses: seq<Expense>): seq<string> {
    SortDistinct(MonthKeys(expenses))
  }

  /** The columns are exactly the months some expense falls in, each once,
      in ascending key order. */
  lemma MonthsAreDistinctSortedKeys(expenses: seq<Expense>)
    ensures StrictlySorted(Months(expenses))
    ensures forall m :: m in Months(expenses) <==> exists e :: e in expenses && ExpenseMonth(e) == m
    ensures forall i, j :: 0 <= i < j < |Months(expenses)| ==> Months(expenses)[i] != Months(expenses)[j]
  {
    var ms := Months(expenses);
    var ks := MonthKeys(expenses);
    forall m ensures m in ms <==> exists e :: e in expenses && ExpenseMonth(e) == m {
      if m in ks {
        var i :| 0 <= i < |ks| && ks[i] == m;
        assert expenses[i] in expenses;
      }
      if exists e :: e in expenses && ExpenseMonth(e) == m {
        var e :| e in expenses && ExpenseMonth(e) == m;
        var i :| 0 <= i < |expenses| && expenses[i] == e;
        assert ks[i] == m;
      }
    }
    forall i, j | 0 <= i < j < |ms| ensures ms[i] != ms[j] {
      StrLessIrreflexive(ms[i]);
    }
  }

  /** With four-digit years and valid months, the ascending key order of the
      columns is chronological order. */
  lemma MonthsChronological(expenses: seq<Expense>, i: nat, j: nat)
    requires forall e :: e in expenses ==> 1000 <= e.expenseDate.year <= 9999 && 1 <= e.expenseDate.month <= 12
    requires i < j < |Months(expenses)|
    ensures exists a, b ::
              a in expenses && b in expenses
              && ExpenseMonth(a) == Months(expenses)[i] && ExpenseMonth(b) == Months(expenses)[j]
              && (a.expenseDate.year < b.expenseDate.year
                  || (a.expenseDate.year == b.expenseDate.year && a.expenseDate.month < b.expenseDate.month))
  {
    var ms := Months(expenses);
    MonthsAreDistinctSortedKeys(expenses);
    assert ms[i] in ms && ms[j] in ms;
    var a :| a in expenses && ExpenseMonth(a) == ms[i];
    var b :| b in expenses && ExpenseMonth(b) == ms[j];
    MonthKeyOrder(a.expenseDate, b.expenseDate);
  }

  /** The column header "MMM yyyy" of a month key, computed as the source
      does: split at '-', `parseInt` both parts, `new Date(year, month - 1)`
      (which reads a year below 100 as 19xx and rolls a month outside 1..12
      into the neighbouring years), then format. `None` stands for the
      RangeError `format` throws on an Invalid Date. */
  function MonthHeader(key: string): Option<string> {
    var parts := Split(key, '-');
    var y := ParseInt(parts[0]);
    var m := if |parts| > 1 then ParseInt(parts[1]) else None;
    if y.None? || m.None? then None else HeaderOf(y.value, m.value)
  }

  /** `format(new Date(year, month - 1), 'MMM yyyy')` for parsed numbers. */
  function HeaderOf(y: nat, m: nat): Option<string> {
    var year := if y <= 99 then y + 1900 else y;
    var monthIndex := m as int - 1;
    var fullYear := year + monthIndex / 12;
    if fullYear < 0 then None
    else Some(FormatMonthYear(fullYear, monthIndex % 12 + 1))
  }

  /** For a month in 1..12 and a year from 100 on, no roll-over happens. */
  lemma HeaderOfMonth(y: nat, m: nat)
    requires 100 <= y && 1 <= m <= 12
    ensures HeaderOf(y, m) == Some(FormatMonthYear(y, m))
  {
    var monthIndex: int := m - 1;
    assert monthIndex / 12 == 0 && monthIndex % 12 + 1 == m;
  }

  /** Splitting a month key at '-' and parsing both halves gives back the
      year and the month. */
  lemma MonthKeyParts(d: Date)
    ensures |Split(MonthKey(d), '-')| == 2
    ensures ParseInt(Split(MonthKey(d), '-')[0]) == Some(d.year)
    ensures ParseInt(Split(MonthKey(d), '-')[1]) == Some(d.month)
  {
    var y, m := NatToString(d.year), PadStart2(d.month);
    assert MonthKey(d) == y + ['-'] + m;
    assert '-' !in y && '-' !in m;
    SplitJoined(y, m, '-');
    ParseIntOfNat(d.year);
    ParseIntOfPadded(d.month);
  }

  /** The header of a month key is computed from its year and month. */
  lemma MonthHeaderIsHeaderOf(d: Date)
    ensures MonthHeader(MonthKey(d)) == HeaderOf(d.year, d.month)
  {
    MonthKeyParts(d);
  }

  /** The header of an expense's month key names that month and year. */
  lemma MonthHeaderOfKey(d: Date)
    requires 100 <= d.year && 1 <= d.month <= 12
    ensures MonthHeader(MonthKey(d)) == Some(FormatMonthYear(d.year, d.month))
  {
    MonthHeaderIsHeaderOf(d);
    HeaderOfMonth(d.year, d.month);
  }

  /** Every column header can be formatted. */
  lemma MonthHeadersDefined(expenses: seq<Expense>)
    ensures forall m :: m in Months(expenses) ==> MonthHeader(m).Some?
  {
    MonthsAreDistinctSortedKeys(expenses);
    forall m | m in Months(expenses) ensures MonthHeader(m).Some? {
      var e :| e in expenses && ExpenseMonth(e) == m;
      MonthHeaderIsHeaderOf(e.expenseDate);
    }
  }

  // ===== monthly export: the sheet =======================================

  function HeaderRow(months: seq<string>): (r: seq<Cell>)
    requires forall m :: m in months ==> MonthHeader(m).Some?
    ensures |r| == 1 + |months| && r[0] == Label("Expense categories")
  {
    [Label("Expense categories")] + seq(|months|, j requires 0 <= j < |months| => Label(MonthHeader(months[j]).value))
  }

  /** The row of one category: its name, then its sum for every month. */
  function CategoryRow(expenses: seq<Expense>, months: seq<string>, c: Category): (r: seq<Cell>)
    ensures |r| == 1 + |months| && r[0] == Label(c.name)
  {
    [Label(c.name)] + seq(|months|, j requires 0 <= j < |months| => Amount(CellTotal(expenses, c.name, months[j])))
  }

  function CategoryRows(expenses: seq<Expense>, months: seq<string>, categories: seq<Category>): (rows: seq<seq<Cell>>)
    ensures |rows| == |categories|
  {
    seq(|categories|, i requires 0 <= i < |categories| => CategoryRow(expenses, months, categories[i]))
  }

  /** `row[col] || 0` for a numeric column. */
  function CellNumber(row: seq<Cell>, col: nat): int {
    if col < |row| && row[col].Amount? then row[col].cents else 0
  }

  /** `rows.reduce((sum, row) => sum + (row[col] || 0), 0)`. */
  function ColumnTotal(rows: seq<seq<Cell>>, col: nat): int {
    if rows == [] then 0 else ColumnTotal(rows[..|rows| - 1], col) + CellNumber(rows[|rows| - 1], col)
  }

  function TotalRow(rows: seq<seq<Cell>>, width: nat): (r: seq<Cell>)
    ensures |r| == 1 + width && r[0] == Label("Total")
  {
    [Label("Total")] + seq(width, j requires 0 <= j < width => Amount(ColumnTotal(rows, j + 1)))
  }

  /** The array of arrays handed to `aoa_to_sheet`: headers, one row per
      listed category in list order, and the total row. */
  function MonthlySheet(categories: seq<Category>, expenses: seq<Expense>): seq<seq<Cell>> {
    var months := Months(expenses);
    var rows := CategoryRows(expenses, months, categories);
    MonthHeadersDefined(expenses);
    [HeaderRow(months)] + rows + [TotalRow(rows, |months|)]
  }

  /** `handleMonthlyExport`: builds `categorizedData` step by step, then the
      sheet from it, and names the file after today's date. */
  method MonthlyExport(categories: seq<Category>, expenses: seq<Expense>, today: Date)
    returns (sheet: seq<seq<Cell>>, fileName: string)
    ensures sheet == MonthlySheet(categories, expenses)
    ensures fileName == "expense_summary_" + FormatIso(today) + ".xlsx"
  {
    var data := BuildCategorizedData(categories, expenses);
    var months := Months(expenses);
    MonthHeadersDefined(expenses);
    var headers := [Label("Expense categories")]
      + seq(|months|, j requires 0 <= j < |months| => Label(MonthHeader(months[j]).value));
    var rows := seq(|categories|, i requires 0 <= i < |categories| =>
      [Label(categories[i].name)]
      + seq(|months|, j requires 0 <= j < |months| => Amount(Lookup(data, categories[i].name, months[j]))));
    forall i | 0 <= i < |categories| ensures rows[i] == CategoryRow(expenses, months, categories[i]) {
      forall j | 0 <= j < |months|
        ensures Lookup(data, categories[i].name, months[j]) == CellTotal(expenses, categories[i].name, months[j])
      {
        LookupIsCellTotal(data, categories, expenses, categories[i].name, months[j]);
      }
    }
    assert rows == CategoryRows(expenses, months, categories);
    var totalRow := [Label("Total")]
      + seq(|months|, j requires 0 <= j < |months| => Amount(ColumnTotal(rows, j + 1)));
    sheet := [headers] + rows + [totalRow];
    fileName := "expense_summary_" + FormatIso(today) + ".xlsx";
  }

  // ===== monthly export: what the sheet means ============================

  /** The sum of the amounts of a list of expenses, from the front. */
  function SumAmounts(xs: seq<Expense>): int {
    if xs == [] then 0 else xs[0].amount + SumAmounts(xs[1..])
  }

  lemma {:induction false} SumAmountsAppend(a: seq<Expense>, b: seq<Expense>)
    ensures SumAmounts(a + b) == SumAmounts(a) + SumAmounts(b)
  {
    if a == [] {
      assert a + b == b;
    } else {
      assert (a + b)[1..] == a[1..] + b;
      SumAmountsAppend(a[1..], b);
    }
  }

  /** A cell is the sum of the amounts of exactly the expenses filed under
      its category and falling in its month. */
  lemma {:induction false} CellTotalIsFilteredSum(expenses: seq<Expense>, c: string, m: string)
    ensures CellTotal(expenses, c, m)
         == SumAmounts(Filter(expenses, e => CategoryKey(e) == c && ExpenseMonth(e) == m))
  {
    var p := (e: Expense) => CategoryKey(e) == c && ExpenseMonth(e) == m;
    if expenses != [] {
      var init, last := expenses[..|expenses| - 1], expenses[|expenses| - 1];
      assert expenses == init + [last];
      FilterAppend(init, [last], p);
      SumAmountsAppend(Filter(init, p), Filter([last], p));
      assert [last][1..] == [];
      CellTotalIsFilteredSum(init, c, m);
    }
  }

  /** Removing expenses of other categories leaves a category's cells unchanged. */
  lemma {:induction false} CellTotalFilter(expenses: seq<Expense>, p: Expense -> bool, c: string, m: string)
    requires forall e :: CategoryKey(e) == c ==> p(e)
    ensures CellTotal(Filter(expenses, p), c, m) == CellTotal(expenses, c, m)
  {
    if expenses != [] {
      var init, last := expenses[..|expenses| - 1], expenses[|expenses| - 1];
      assert expenses == init + [last];
      FilterAppend(init, [last], p);
      assert [last][1..] == [];
      CellTotalFilter(init, p, c, m);
      var kept := Filter(init, p) + Filter([last], p);
      if p(last) {
        assert kept[..|kept| - 1] == Filter(init, p);
      } else {
        assert kept == Filter(init, p);
      }
    }
  }

  lemma CategoryRowFilter(expenses: seq<Expense>, p: Expense -> bool, months: seq<string>, c: Category)
    requires forall e :: CategoryKey(e) == c.name ==> p(e)
    ensures CategoryRow(Filter(expenses, p), months, c) == CategoryRow(expenses, months, c)
  {
    var kept := Filter(expenses, p);
    forall j | 0 <= j < |months|
      ensures CellTotal(kept, c.name, months[j]) == CellTotal(expenses, c.name, months[j])
    {
      CellTotalFilter(expenses, p, c.name, months[j]);
    }
    RowsAgree(kept, expenses, months, c);
  }

  /** Two expense lists with the same total in every month give the same row. */
  lemma RowsAgree(x: seq<Expense>, y: seq<Expense>, months: seq<string>, c: Category)
    requires forall j :: 0 <= j < |months| ==> CellTotal(x, c.name, months[j]) == CellTotal(y, c.name, months[j])
    ensures CategoryRow(x, months, c) == CategoryRow(y, months, c)
  {
    var a, b := CategoryRow(x, months, c), CategoryRow(y, months, c);
    forall j | 0 <= j < |a| ensures a[j] == b[j] {
      if j > 0 {
        CategoryRowCell(x, months, c, j - 1);
        CategoryRowCell(y, months, c, j - 1);
      }
    }
  }

  /** Expenses filed under a name that is not in the category list (among
      them every "Uncategorized" one, unless a category bears that name)
      contribute to no row: the rows are those of the listed expenses alone. */
  lemma UnlistedInNoRow(categories: seq<Category>, expenses: seq<Expense>, months: seq<string>)
    ensures CategoryRows(expenses, months, categories)
         == CategoryRows(Filter(expenses, e => IsListed(categories, CategoryKey(e))), months, categories)
  {
    var p := (e: Expense) => IsListed(categories, CategoryKey(e));
    var kept := Filter(expenses, p);
    var a := CategoryRows(expenses, months, categories);
    var b := CategoryRows(kept, months, categories);
    forall i | 0 <= i < |categories| ensures a[i] == b[i] {
      forall e | CategoryKey(e) == categories[i].name ensures p(e) {
        assert categories[i].name == CategoryKey(e);
      }
      CategoryRowFilter(expenses, p, months, categories[i]);
    }
  }

  /** The sum over the category list, in order, of one month's cells. */
  function CategorySum(expenses: seq<Expense>, categories: seq<Category>, m: string): int {
    if categories == [] then 0
    else CategorySum(expenses, categories[..|categories| - 1], m)
         + CellTotal(expenses, categories[|categories| - 1].name, m)
  }

  /** Column `j + 1` of the total row sums that month over the category rows. */
  lemma {:induction false} ColumnTotalOfRows(expenses: seq<Expense>, months: seq<string>,
                                             categories: seq<Category>, j: nat)
    requires j < |months|
    ensures ColumnTotal(CategoryRows(expenses, months, categories), j + 1)
         == CategorySum(expenses, categories, months[j])
  {
    if categories != [] {
      var rows := CategoryRows(expenses, months, categories);
      var init := categories[..|categories| - 1];
      assert rows[..|rows| - 1] == CategoryRows(expenses, months, init);
      ColumnTotalOfRows(expenses, months, init, j);
    }
  }

  /** The monthly sheet is the header row, the category rows and the total row. */
  lemma MonthlySheetRows(categories: seq<Category>, expenses: seq<Expense>)
    ensures forall m :: m in Months(expenses) ==> MonthHeader(m).Some?
    ensures |MonthlySheet(categories, expenses)| == |categories| + 2
    ensures MonthlySheet(categories, expenses)[0] == HeaderRow(Months(expenses))
    ensures forall i :: 0 <= i < |categories| ==>
              MonthlySheet(categories, expenses)[1 + i] == CategoryRow(expenses, Months(expenses), categories[i])
    ensures MonthlySheet(categories, expenses)[|categories| + 1]
         == TotalRow(CategoryRows(expenses, Months(expenses), categories), |Months(expenses)|)
  {
    var months := Months(expenses);
    MonthHeadersDefined(expenses);
    var rows := CategoryRows(expenses, months, categories);
    var sheet := MonthlySheet(categories, expenses);
    assert sheet == [HeaderRow(months)] + rows + [TotalRow(rows, |months|)];
    forall i | 0 <= i < |categories| ensures sheet[1 + i] == CategoryRow(expenses, months, categories[i]) {
      assert sheet[1 + i] == rows[i];
    }
  }

  /** The shape and content of the monthly sheet: a header row, one row per
      listed category in list order (including those without expenses), and
      a total row, each 1 + (number of months) cells long. */
  lemma MonthlySheetContent(categories: seq<Category>, expenses: seq<Expense>)
    ensures |MonthlySheet(categories, expenses)| == |categories| + 2
    ensures forall r :: 0 <= r < |MonthlySheet(categories, expenses)| ==>
              |MonthlySheet(categories, expenses)[r]| == 1 + |Months(expenses)|
    ensures MonthlySheet(categories, expenses)[0][0] == Label("Expense categories")
    ensures forall i :: 0 <= i < |categories| ==> MonthlySheet(categories, expenses)[1 + i][0] == Label(categories[i].name)
    ensures forall i, j :: 0 <= i < |categories| && 0 <= j < |Months(expenses)| ==>
              MonthlySheet(categories, expenses)[1 + i][1 + j]
              == Amount(CellTotal(expenses, categories[i].name, Months(expenses)[j]))
    ensures MonthlySheet(categories, expenses)[|categories| + 1][0] == Label("Total")
    ensures forall j :: 0 <= j < |Months(expenses)| ==>
              MonthlySheet(categories, expenses)[|categories| + 1][1 + j]
              == Amount(CategorySum(expenses, categories, Months(expenses)[j]))
  {
    MonthlySheetRows(categories, expenses);
    MonthlySheetTotals(categories, expenses);
    MonthlySheetCells(categories, expenses);
    var sheet := MonthlySheet(categories, expenses);
    forall r | 0 <= r < |sheet| ensures |sheet[r]| == 1 + |Months(expenses)| {
      if 0 < r <= |categories| {
        assert sheet[1 + (r - 1)] == CategoryRow(expenses, Months(expenses), categories[r - 1]);
      }
    }
  }

  lemma TotalRowCell(rows: seq<seq<Cell>>, width: nat, j: nat)
    requires j < width
    ensures TotalRow(rows, width)[1 + j] == Amount(ColumnTotal(rows, j + 1))
  {
  }

  /** Cell (i, j) of the category rows is the sum for that category and month. */
  lemma MonthlySheetCells(categories: seq<Category>, expenses: seq<Expense>)
    ensures |MonthlySheet(categories, expenses)| == |categories| + 2
    ensures forall i, j :: 0 <= i < |categories| && 0 <= j < |Months(expenses)| ==>
              |MonthlySheet(categories, expenses)[1 + i]| == 1 + |Months(expenses)|
              && MonthlySheet(categories, expenses)[1 + i][1 + j]
                 == Amount(CellTotal(expenses, categories[i].name, Months(expenses)[j]))
  {
    MonthlySheetRows(categories, expenses);
    var months := Months(expenses);
    var sheet := MonthlySheet(categories, expenses);
    forall i, j | 0 <= i < |categories| && 0 <= j < |months|
      ensures |sheet[1 + i]| == 1 + |months|
      ensures sheet[1 + i][1 + j] == Amount(CellTotal(expenses, categories[i].name, months[j]))
    {
      assert sheet[1 + i] == CategoryRow(expenses, months, categories[i]);
      CategoryRowCell(expenses, months, categories[i], j);
    }
  }

  lemma CategoryRowCell(expenses: seq<Expense>, months: seq<string>, c: Category, j: nat)
    requires j < |months|
    ensures CategoryRow(expenses, months, c)[1 + j] == Amount(CellTotal(expenses, c.name, months[j]))
  {
  }

  /** The total row holds, per month, the sum over the categories. */
  lemma MonthlySheetTotals(categories: seq<Category>, expenses: seq<Expense>)
    ensures |MonthlySheet(categories, expenses)| == |categories| + 2
    ensures forall j :: 0 <= j < |Months(expenses)| ==>
              MonthlySheet(categories, expenses)[|categories| + 1][1 + j]
              == Amount(CategorySum(expenses, categories, Months(expenses)[j]))
  {
    MonthlySheetRows(categories, expenses);
    var months := Months(expenses);
    var total := TotalRow(CategoryRows(expenses, months, categories), |months|);
    forall j | 0 <= j < |months|
      ensures total[1 + j] == Amount(CategorySum(expenses, categories, months[j]))
    {
      TotalRowCell(CategoryRows(expenses, months, categories), |months|, j);
      ColumnTotalOfRows(expenses, months, categories, j);
    }
  }

  /** Every month column is headed by the "MMM yyyy" name of the month of
      some expense in it (for years from 100 on, which `new Date` keeps). */
  lemma HeadersNameMonths(categories: seq<Category>, expenses: seq<Expense>, j: nat)
    requires j < |Months(expenses)|
    requires forall e :: e in expenses ==> 100 <= e.expenseDate.year && 1 <= e.expenseDate.month <= 12
    ensures exists e ::
              e in expenses && ExpenseMonth(e) == Months(expenses)[j]
              && MonthlySheet(categories, expenses)[0][1 + j]
                 == Label(FormatMonthYear(e.expenseDate.year, e.expenseDate.month))
  {
    var months := Months(expenses);
    MonthsAreDistinctSortedKeys(expenses);
    MonthHeadersDefined(expenses);
    var m := months[j];
    assert m in months;
    var e :| e in expenses && ExpenseMonth(e) == m;
    MonthHeaderOfKey(e.expenseDate);
    assert MonthlySheet(categories, expenses)[0] == HeaderRow(months);
    assert HeaderRow(months)[1 + j] == Label(MonthHeader(m).value);
  }

  function NameCount(categories: seq<Category>, name: string): nat {
    if categories == [] then 0
    else NameCount(categories[..|categories| - 1], name)
         + (if categories[|categories| - 1].name == name then 1 else 0)
  }

  lemma {:induction false} NameCountUnlisted(categories: seq<Category>, name: string)
    requires !IsListed(categories, name)
    ensures NameCount(categories, name) == 0
  {
    if categories != [] {
      var init := categories[..|categories| - 1];
      assert categories[|categories| - 1].name != name;
      forall k | 0 <= k < |init| ensures init[k].name != name {
        assert init[k] == categories[k];
      }
      NameCountUnlisted(init, name);
    }
  }

  predicate DistinctNames(categories: seq<Category>) {
    forall i, j :: 0 <= i < j < |categories| ==> categories[i].name != categories[j].name
  }

  lemma {:induction false} NameCountListed(categories: seq<Category>, name: string)
    requires DistinctNames(categories) && IsListed(categories, name)
    ensures NameCount(categories, name) == 1
  {
    var init := categories[..|categories| - 1];
    var last := categories[|categories| - 1];
    assert DistinctNames(init) by {
      forall i, j | 0 <= i < j < |init| ensures init[i].name != init[j].name {
        assert init[i] == categories[i] && init[j] == categories[j];
      }
    }
    if last.name == name {
      forall k | 0 <= k < |init| ensures init[k].name != name {
        assert init[k] == categories[k];
      }
      NameCountUnlisted(init, name);
    } else {
      var k :| 0 <= k < |categories| && categories[k].name == name;
      assert init[k] == categories[k];
      NameCountListed(init, name);
    }
  }

  /** The sum of the amounts of the expenses falling in month `m`, whatever their category. */
  function MonthTotal(expenses: seq<Expense>, m: string): int {
    if expenses == [] then 0
    else
      var e := expenses[|expenses| - 1];
      MonthTotal(expenses[..|expenses| - 1], m) + (if ExpenseMonth(e) == m then e.amount else 0)
  }

  lemma {:induction false} CategorySumStep(pre: seq<Expense>, e: Expense, categories: seq<Category>, m: string)
    ensures CategorySum(pre + [e], categories, m)
         == CategorySum(pre, categories, m)
            + (if ExpenseMonth(e) == m then e.amount * NameCount(categories, CategoryKey(e)) else 0)
  {
    var post := pre + [e];
    assert post[..|post| - 1] == pre && post[|post| - 1] == e;
    if categories != [] {
      var init, last := categories[..|categories| - 1], categories[|categories| - 1];
      CategorySumStep(pre, e, init, m);
      var a, n := if ExpenseMonth(e) == m then e.amount else 0, NameCount(init, CategoryKey(e));
      if last.name == CategoryKey(e) {
        assert NameCount(categories, CategoryKey(e)) == n + 1;
        assert CellTotal(post, last.name, m) == CellTotal(pre, last.name, m) + a;
        MultiplyStep(a, n);
      } else {
        assert NameCount(categories, CategoryKey(e)) == n;
        assert CellTotal(post, last.name, m) == CellTotal(pre, last.name, m);
      }
    }
  }

  lemma MultiplyStep(a: int, n: nat)
    ensures a * (n + 1) == a * n + a
  {
  }

  /** When the category names are distinct and every expense is filed
      under a listed one, the total row holds, for every month, the sum of
      all the expenses of that month. */
  lemma {:induction false} CategorySumIsMonthTotal(expenses: seq<Expense>, categories: seq<Category>, m: string)
    requires DistinctNames(categories)
    requires forall e :: e in expenses ==> IsListed(categories, CategoryKey(e))
    ensures CategorySum(expenses, categories, m) == MonthTotal(expenses, m)
  {
    if expenses == [] {
      CategorySumEmpty(categories, m);
    } else {
      var init, last := expenses[..|expenses| - 1], expenses[|expenses| - 1];
      assert expenses == init + [last];
      CategorySumStep(init, last, categories, m);
      NameCountListed(categories, CategoryKey(last));
      CategorySumIsMonthTotal(init, categories, m);
    }
  }

  lemma {:induction false} CategorySumEmpty(categories: seq<Category>, m: string)
    ensures CategorySum([], categories, m) == 0
  {
    if categories != [] {
      CategorySumEmpty(categories[..|categories| - 1], m);
    }
  }

  // ===== detailed export =================================================

  /** `isWithinInterval(date, {start: from, end: to})`, both ends included. */
  predicate InRange(d: Date, from: Date, to: Date) {
    OnOrBefore(from, d) && OnOrBefore(d, to)
  }

  /** The expenses `handleDetailedExport` keeps: those inside the range when
      both bounds are set, all of them otherwise. */
  function DetailedExpenses(expenses: seq<Expense>, range: DateRange): seq<Expense> {
    if range.from.Some? && range.to.Some? then
      Filter(expenses, (e: Expense) => InRange(e.expenseDate, range.from.value, range.to.value))
    else expenses
  }

  /** With both bounds set, exactly the expenses dated inside the inclusive
      range are kept; with either bound missing, every expense is kept. */
  lemma DetailedExpensesKept(expenses: seq<Expense>, range: DateRange)
    ensures range.from.Some? && range.to.Some? ==>
      forall e :: e in DetailedExpenses(expenses, range)
        <==> e in expenses && OnOrBefore(range.from.value, e.expenseDate) && OnOrBefore(e.expenseDate, range.to.value)
    ensures range.from.None? || range.to.None? ==> DetailedExpenses(expenses, range) == expenses
    ensures multiset(DetailedExpenses(expenses, range)) <= multiset(expenses)
  {
    if range.from.Some? && range.to.Some? {
      FilterSubMultiset(expenses, (e: Expense) => InRange(e.expenseDate, range.from.value, range.to.value));
    }
  }

  /** Kept expenses keep their order: exporting a concatenation exports
      each part in turn. */
  lemma DetailedExpensesAppend(a: seq<Expense>, b: seq<Expense>, range: DateRange)
    ensures DetailedExpenses(a + b, range) == DetailedExpenses(a, range) + DetailedExpenses(b, range)
  {
    if range.from.Some? && range.to.Some? {
      FilterAppend(a, b, (e: Expense) => InRange(e.expenseDate, range.from.value, range.to.value));
    }
  }

  /** One object handed to `json_to_sheet`. */
  datatype DetailedRow = DetailedRow(date: string, description: string, amount: int, category: string, receipt: string)

  function ToRow(e: Expense): (r: DetailedRow)
    ensures r.receipt == "Yes" <==> e.receipt.Some? && e.receipt.value != ""
    ensures r.receipt == "Yes" || r.receipt == "No"
  {
    DetailedRow(FormatIso(e.expenseDate), e.title, e.amount, CategoryKey(e),
                if e.receipt.Some? && e.receipt.value != "" then "Yes" else "No")
  }

  function DetailedRows(expenses: seq<Expense>, range: DateRange): (rows: seq<DetailedRow>)
    ensures |rows| == |DetailedExpenses(expenses, range)|
    ensures forall i :: 0 <= i < |rows| ==> rows[i] == ToRow(DetailedExpenses(expenses, range)[i])
  {
    var kept := DetailedExpenses(expenses, range);
    seq(|kept|, i requires 0 <= i < |kept| => ToRow(kept[i]))
  }

  /** Each detailed row shows the expense's date as "yyyy-MM-dd" (which reads
      back as that date), its title, its amount and its category. */
  lemma DetailedRowContent(e: Expense)
    requires WellFormed(e.expenseDate)
    ensures ParseIso(ToRow(e).date) == Some(e.expenseDate)
    ensures ToRow(e).description == e.title && ToRow(e).amount == e.amount
    ensures ToRow(e).category == CategoryKey(e)
  {
    ParseFormatIso(e.expenseDate);
  }

  function DetailedFileName(range: DateRange, today: Date): (name: string)
    ensures range.from.Some? && range.to.Some? ==>
      name == "expenses_" + FormatIso(range.from.value) + "_to_" + FormatIso(range.to.value) + ".xlsx"
    ensures range.from.None? || range.to.None? ==> name == "expenses_" + FormatIso(today) + ".xlsx"
  {
    if range.from.Some? && range.to.Some?
    then "expenses_" + FormatIso(range.from.value) + "_to_" + FormatIso(range.to.value) + ".xlsx"
    else "expenses_" + FormatIso(today) + ".xlsx"
  }

  /** The dates in the file name read back as the range's bounds, or as
      today when the range is incomplete. */
  lemma DetailedFileNameDates(range: DateRange, today: Date)
    requires range.from.Some? ==> WellFormed(range.from.value)
    requires range.to.Some? ==> WellFormed(range.to.value)
    requires WellFormed(today)
    ensures var name := DetailedFileName(range, today);
            if range.from.Some? && range.to.Some? then
              |name| == 38 && name[..9] == "expenses_" && name[19..23] == "_to_" && name[33..] == ".xlsx"
              && ParseIso(name[9..19]) == range.from && ParseIso(name[23..33]) == range.to
            else
              |name| == 24 && name[..9] == "expenses_" && name[19..] == ".xlsx" && ParseIso(name[9..19]) == Some(today)
  {
    if range.from.Some? && range.to.Some? {
      var f, t := FormatIso(range.from.value), FormatIso(range.to.value);
      ParseFormatIso(range.from.value);
      ParseFormatIso(range.to.value);
      IsoLength(f);
      IsoLength(t);
      RangeNameParts(f, t);
    } else {
      var d := FormatIso(today);
      ParseFormatIso(today);
      IsoLength(d);
      TodayNameParts(d);
    }
  }

  lemma RangeNameParts(f: string, t: string)
    requires |f| == 10 && |t| == 10
    ensures var name := "expenses_" + f + "_to_" + t + ".xlsx";
            |name| == 38 && name[..9] == "expenses_" && name[9..19] == f && name[19..23] == "_to_"
            && name[23..33] == t && name[33..] == ".xlsx"
  {
  }

  lemma TodayNameParts(d: string)
    requires |d| == 10
    ensures var name := "expenses_" + d + ".xlsx";
            |name| == 24 && name[..9] == "expenses_" && name[9..19] == d && name[19..] == ".xlsx"
  {
  }

  /** The `disabled` expression of the export button. */
  function ExportDisabled(loading: bool, mode: Mode, range: DateRange): (disabled: bool)
    ensures disabled <==> loading || (mode == Detailed && (range.from.Some? != range.to.Some?))
  {
    loading || (mode == Detailed && ((range.from.Some? && range.to.None?) || (range.from.None? && range.to.Some?)))
  }

  /** Whenever the button is enabled in detailed mode, the range has both
      bounds or neither, so the detailed export either filters by a full
      range or exports everything. */
  lemma EnabledRangeComplete(mode: Mode, range: DateRange)
    requires !ExportDisabled(false, mode, range) && mode == Detailed
    ensures (range.from.Some? && range.to.Some?) || (range.from.None? && range.to.None?)
  {
  }

  /** What one click of the export button writes. */
  datatype Workbook =
    | MonthlyBook(sheet: seq<seq<Cell>>, name: string)
    | DetailedBook(rows: seq<DetailedRow>, name: string)

  /** The dialog's own state: the chosen export type, the picked range, the
      loading flag and whether the dialog is open. */
  class Dialog {
    var mode: Mode
    var range: DateRange
    var loading: bool
    var open: bool

    constructor (isOpen: bool)
      ensures mode == Detailed && range == DateRange(None, None) && !loading && open == isOpen
    {
      mode := Detailed;
      range := DateRange(None, None);
      loading := false;
      open := isOpen;
    }

    /** `handleExport`: runs the export the chosen type asks for, then closes
        the dialog; loading is cleared at the end. The monthly export never
        consults the range. */
    method HandleExport(categories: seq<Category>, expenses: seq<Expense>, today: Date)
      returns (book: Workbook)
      modifies this
      ensures book == (if old(mode) == Monthly
                       then MonthlyBook(MonthlySheet(categories, expenses), "expense_summary_" + FormatIso(today) + ".xlsx")
                       else DetailedBook(DetailedRows(expenses, old(range)), DetailedFileName(old(range), today)))
      ensures !loading && !open
      ensures mode == old(mode) && range == old(range)
    {
      loading := true;
      if mode == Monthly {
        var sheet, name := MonthlyExport(categories, expenses, today);
        book := MonthlyBook(sheet, name);
      } else {
        var r := range;
        var kept := expenses;
        if r.from.Some? && r.to.Some? {
          kept := Filter(expenses, (e: Expense) => InRange(e.expenseDate, r.from.value, r.to.value));
        }
        assert kept == DetailedExpenses(expenses, r);
        book := DetailedBook(seq(|kept|, i requires 0 <= i < |kept| => ToRow(kept[i])),
                             DetailedFileName(range, today));
      }
      open := false;
      loading := false;
    }
  }
}
