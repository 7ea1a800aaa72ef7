/** `components/expenses/expense-list.jsx`: the expenses of today, of
    yesterday and of the rest of the current Monday-based week, each in
    input order, and the heading of each section. Dates are compared as
    day numbers; `today` is a parameter (the clock is not modelled). */
module ExpenseList {
  import opened Base
  import opened Text
  import opened Dates
  import opened Domain

  datatype Bucket = Today | Yesterday | ThisWeek | Dropped

  /** The bucket of a day, tried in the source's order: `isToday`, then
      `isYesterday`, then `isThisWeek` with weeks starting on Monday. */
  function Classify(day: int, today: int): (b: Bucket)
    ensures b == Today <==> day == today
    ensures b == Yesterday <==> day == today - 1
    ensures b == ThisWeek <==> day != today && day != today - 1 && WeekStart(day) == WeekStart(today)
  {
    if day == today then Today
    else if day == today - 1 then Yesterday
    else if WeekStart(day) == WeekStart(today) then ThisWeek
    else Dropped
  }

  function BucketOf(e: Expense, today: int): Bucket {
    Classify(DayNumber(e.expenseDate), today)
  }

  /** The expenses `groupedExpenses` puts in bucket `b`, in input order. */
  function InBucket(expenses: seq<Expense>, today: int, b: Bucket): seq<Expense> {
    Filter(expenses, e => BucketOf(e, today) == b)
  }

  /** The `reduce` that pushes every expense onto the list of its bucket. */
  method GroupExpenses(expenses: seq<Expense>, today: int)
    returns (todayList: seq<Expense>, yesterdayList: seq<Expense>, thisWeekList: seq<Expense>)
    ensures todayList == InBucket(expenses, today, Today)
    ensures yesterdayList == InBucket(expenses, today, Yesterday)
    ensures thisWeekList == InBucket(expenses, today, ThisWeek)
  {
    todayList, yesterdayList, thisWeekList := [], [], [];
    for i := 0 to |expenses|
      invariant todayList == InBucket(expenses[..i], today, Today)
      invariant yesterdayList == InBucket(expenses[..i], today, Yesterday)
      invariant thisWeekList == InBucket(expenses[..i], today, ThisWeek)
    {
      var e := expenses[i];
      var day := DayNumber(e.expenseDate);
      InBucketNext(expenses, i, today, Today);
      InBucketNext(expenses, i, today, Yesterday);
      InBucketNext(expenses, i, today, ThisWeek);
      if day == today {
        todayList := todayList + [e];
      } else if day == today - 1 {
        yesterdayList := yesterdayList + [e];
      } else if WeekStart(day) == WeekStart(today) {
        thisWeekList := thisWeekList + [e];
      }
    }
    assert expenses[..|expenses|] == expenses;
  }

  /** The bucket lists grow by one expense per step of the reduce. */
  lemma InBucketNext(expenses: seq<Expense>, i: nat, today: int, b: Bucket)
    requires i < |expenses|
    ensures InBucket(expenses[..i + 1], today, b)
            == InBucket(expenses[..i], today, b) + (if BucketOf(expenses[i], today) == b then [expenses[i]] else [])
  {
    assert expenses[..i + 1] == expenses[..i] + [expenses[i]];
    BucketStep(expenses[..i], expenses[i], today);
  }

  /** One step of the reduce: the expense joins its own bucket only. */
  lemma BucketStep(pre: seq<Expense>, e: Expense, today: int)
    ensures forall b :: InBucket(pre + [e], today, b)
                        == InBucket(pre, today, b) + (if BucketOf(e, today) == b then [e] else [])
  {
    forall b ensures InBucket(pre + [e], today, b)
                     == InBucket(pre, today, b) + (if BucketOf(e, today) == b then [e] else [])
    {
      FilterAppend(pre, [e], x => BucketOf(x, today) == b);
      assert [e][1..] == [];
    }
  }

  /** No expense lands in two buckets. */
  lemma BucketsDisjoint(expenses: seq<Expense>, today: int, e: Expense, b1: Bucket, b2: Bucket)
    requires e in InBucket(expenses, today, b1) && e in InBucket(expenses, today, b2)
    ensures b1 == b2
  {
  }

  /** The kept expenses: dated today, yesterday, or elsewhere in the
      current week (later days of the week included). */
  lemma ThisWeekMembers(expenses: seq<Expense>, today: int, e: Expense)
    ensures e in InBucket(expenses, today, ThisWeek) <==>
              e in expenses && DayNumber(e.expenseDate) != today && DayNumber(e.expenseDate) != today - 1
              && WeekStart(today) <= DayNumber(e.expenseDate) < WeekStart(today) + 7
  {
    SameWeek(DayNumber(e.expenseDate), today);
  }

  /** An expense dated before the current week's Monday, other than
      yesterday's, appears in no section. */
  lemma OlderDropped(expenses: seq<Expense>, today: int, e: Expense)
    requires e in expenses
    requires DayNumber(e.expenseDate) < WeekStart(today) && DayNumber(e.expenseDate) != today - 1
    ensures BucketOf(e, today) == Dropped
    ensures e !in InBucket(expenses, today, Today) && e !in InBucket(expenses, today, Yesterday)
    ensures e !in InBucket(expenses, today, ThisWeek)
  {
    SameWeek(DayNumber(e.expenseDate), today);
  }

  /** Every expense is counted exactly once across the three lists and the
      dropped ones. */
  lemma {:induction false} BucketsPartition(expenses: seq<Expense>, today: int)
    ensures |InBucket(expenses, today, Today)| + |InBucket(expenses, today, Yesterday)|
            + |InBucket(expenses, today, ThisWeek)| + |InBucket(expenses, today, Dropped)| == |expenses|
  {
    if expenses != [] {
      var init, last := expenses[..|expenses| - 1], expenses[|expenses| - 1];
      assert expenses == init + [last];
      BucketStep(init, last, today);
      BucketsPartition(init, today);
    }
  }

  /** `formatSectionHeader`. */
  function SectionHeader(bucket: seq<Expense>, today: int): (h: string)
    ensures bucket == [] ==> h == ""
  {
    if bucket == [] then ""
    else
      var d := bucket[0].expenseDate;
      if DayNumber(d) == today then "TODAY"
      else if DayNumber(d) == today - 1 then "YESTERDAY"
      else ToUpper(FormatPadded(d))
  }

  /** The heading of each non-empty section: today's reads "TODAY",
      yesterday's "YESTERDAY", and this week's is its first expense's date
      "MMM dd, yyyy" in capitals. */
  lemma HeadersOfBuckets(expenses: seq<Expense>, today: int)
    ensures InBucket(expenses, today, Today) != [] ==> SectionHeader(InBucket(expenses, today, Today), today) == "TODAY"
    ensures InBucket(expenses, today, Yesterday) != [] ==>
              SectionHeader(InBucket(expenses, today, Yesterday), today) == "YESTERDAY"
    ensures InBucket(expenses, today, ThisWeek) != [] ==>
              SectionHeader(InBucket(expenses, today, ThisWeek), today)
              == ToUpper(FormatPadded(InBucket(expenses, today, ThisWeek)[0].expenseDate))
  {
    var t, y, w := InBucket(expenses, today, Today), InBucket(expenses, today, Yesterday), InBucket(expenses, today, ThisWeek);
    if t != [] { assert t[0] in t; }
    if y != [] { assert y[0] in y; }
    if w != [] { assert w[0] in w; }
  }

  datatype Section = Section(header: string, items: seq<Expense>)

  /** The expense lists the sections show, in section order. */
  function Items(r: seq<Section>): seq<seq<Expense>> {
    seq(|r|, i requires 0 <= i < |r| => r[i].items)
  }

  predicate NonEmpty(b: seq<Expense>) {
    b != []
  }

  /** The rendered sections: exactly the non-empty buckets, in the order
      today, yesterday, this week, each under its header. */
  function Sections(expenses: seq<Expense>, today: int): (r: seq<Section>)
    ensures |r| <= 3
    ensures forall i :: 0 <= i < |r| ==> r[i].items != [] && r[i].header == SectionHeader(r[i].items, today)
    ensures Items(r) == Filter([InBucket(expenses, today, Today), InBucket(expenses, today, Yesterday),
                                InBucket(expenses, today, ThisWeek)], NonEmpty)
  {
    var t, y, w := InBucket(expenses, today, Today), InBucket(expenses, today, Yesterday), InBucket(expenses, today, ThisWeek);
    Assemble(t, y, w, today)
  }

  /** The sections of three buckets, in order, skipping empty ones. */
  function Assemble(t: seq<Expense>, y: seq<Expense>, w: seq<Expense>, today: int): (r: seq<Section>)
    ensures |r| <= 3
    ensures forall i :: 0 <= i < |r| ==> r[i].items != [] && r[i].header == SectionHeader(r[i].items, today)
    ensures Items(r) == Filter([t, y, w], NonEmpty)
  {
    var r := SectionOf(t, today) + SectionOf(y, today) + SectionOf(w, today);
    assert forall i :: 0 <= i < |r| ==> r[i] in SectionOf(t, today) || r[i] in SectionOf(y, today) || r[i] in SectionOf(w, today);
    AssembleItems(t, y, w, today);
    r
  }

  /** The items of the assembled sections are the non-empty buckets. */
  lemma AssembleItems(t: seq<Expense>, y: seq<Expense>, w: seq<Expense>, today: int)
    ensures Items(SectionOf(t, today) + SectionOf(y, today) + SectionOf(w, today)) == Filter([t, y, w], NonEmpty)
  {
    var st, sy, sw := SectionOf(t, today), SectionOf(y, today), SectionOf(w, today);
    ItemsAppend(st + sy, sw);
    ItemsAppend(st, sy);
    SectionItems(t, today);
    SectionItems(y, today);
    SectionItems(w, today);
    assert [t, y, w] == [t] + [y] + [w];
    FilterAppend([t] + [y], [w], NonEmpty);
    FilterAppend([t], [y], NonEmpty);
  }

  lemma ItemsAppend(a: seq<Section>, b: seq<Section>)
    ensures Items(a + b) == Items(a) + Items(b)
  {
  }

  /** A bucket's section shows that bucket, unless it is empty. */
  lemma SectionItems(items: seq<Expense>, today: int)
    ensures Items(SectionOf(items, today)) == Filter([items], NonEmpty)
  {
    assert [items][1..] == [];
  }

  /** The section of one bucket, rendered only when the bucket is non-empty. */
  function SectionOf(items: seq<Expense>, today: int): (r: seq<Section>)
    ensures |r| <= 1
    ensures forall s :: s in r ==> s.items != [] && s.header == SectionHeader(s.items, today)
  {
    if items != [] then [Section(SectionHeader(items, today), items)] else []
  }

  /** The category line of an item: the category's name, or "OFFICE / ADMIN". */
  function CategoryLabel(e: Expense): (s: string)
    ensures e.categoryName.Some? && e.categoryName.value != "" ==> s == e.categoryName.value
    ensures e.categoryName.None? || e.categoryName.value == "" ==> s == "OFFICE / ADMIN"
  {
    if e.categoryName.Some? && e.categoryName.value != "" then e.categoryName.value else "OFFICE / ADMIN"
  }
}
