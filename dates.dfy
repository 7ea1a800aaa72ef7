/** Calendar dates as `(year, month, day)` and the date-fns formats the
    components print: `yyyy-MM-dd`, `MMM yyyy`, `MMM d`, `MMM d, yyyy` and
    `MMM dd, yyyy`; the `YYYY-MM` month key of the monthly export; and day
    numbers for "today", "yesterday" and "this week". */
module Dates {
  import opened Base
  import opened Text

  datatype Date = Date(year: nat, month: nat, day: nat)

  /** The dates a `yyyy-MM-dd` string can denote. */
  predicate WellFormed(d: Date) {
    d.year <= 9999 && 1 <= d.month <= 12 && 1 <= d.day <= DaysInMonth(d.year, d.month)
  }

  predicate IsLeapYear(y: nat) {
    (y % 4 == 0 && y % 100 != 0) || y % 400 == 0
  }

  function DaysInMonth(y: nat, m: nat): nat {
    if m == 2 then (if IsLeapYear(y) then 29 else 28)
    else if m == 4 || m == 6 || m == 9 || m == 11 then 30
    else 31
  }

  /** Chronological order of dates (both ends inclusive). */
  predicate OnOrBefore(a: Date, b: Date) {
    a.year < b.year
    || (a.year == b.year && a.month < b.month)
    || (a.year == b.year && a.month == b.month && a.day <= b.day)
  }

  // ----- yyyy-MM-dd -----------------------------------------------------

  function Zeros(k: nat): (s: string)
    ensures |s| == k
    ensures forall i :: 0 <= i < k ==> s[i] == '0'
  {
    if k == 0 then [] else "0" + Zeros(k - 1)
  }

  /** The `yyyy` token: the year padded with zeros to four digits. */
  function Year4(y: nat): (s: string)
    ensures forall i :: 0 <= i < |s| ==> IsDigit(s[i])
    ensures y <= 9999 ==> |s| == 4
  {
    var t := NatToString(y);
    NatToStringLength(y);
    if |t| >= 4 then t else Zeros(4 - |t|) + t
  }

  /** `format(date, "yyyy-MM-dd")`. */
  function FormatIso(d: Date): string {
    Year4(d.year) + "-" + PadStart2(d.month) + "-" + PadStart2(d.day)
  }

  /** Reads a `yyyy-MM-dd` string back into a date; `None` for anything
      else (JavaScript's Invalid Date). */
  function ParseIso(s: string): (r: Option<Date>)
    ensures r.Some? ==> WellFormed(r.value)
  {
    if |s| == 10 && s[4] == '-' && s[7] == '-'
       && (forall i :: 0 <= i < 10 && i != 4 && i != 7 ==> IsDigit(s[i]))
    then
      var d := Date(DigitsValue(s[..4]), DigitsValue(s[5..7]), DigitsValue(s[8..]));
      if WellFormed(d) then Some(d) else None
    else None
  }

  lemma {:induction false} ZerosValue(k: nat)
    ensures DigitsValue(Zeros(k)) == 0
  {
    if k > 0 {
      var z := Zeros(k);
      assert z[..k - 1] == Zeros(k - 1);
      ZerosValue(k - 1);
    }
  }

  /** Leading zeros do not change the value of a digit string. */
  lemma {:induction false} LeadingZeros(k: nat, s: string)
    requires forall i :: 0 <= i < |s| ==> IsDigit(s[i])
    ensures DigitsValue(Zeros(k) + s) == DigitsValue(s)
    decreases |s|
  {
    if s == [] {
      assert Zeros(k) + s == Zeros(k);
      ZerosValue(k);
    } else {
      var z := Zeros(k) + s;
      assert z[..|z| - 1] == Zeros(k) + s[..|s| - 1];
      LeadingZeros(k, s[..|s| - 1]);
    }
  }

  lemma Year4Value(y: nat)
    ensures DigitsValue(Year4(y)) == y
  {
    var t := NatToString(y);
    DigitsOfNat(y);
    if |t| < 4 {
      LeadingZeros(4 - |t|, t);
    }
  }

  lemma PaddedValue(n: nat)
    ensures DigitsValue(PadStart2(n)) == n
  {
    ParseIntOfPadded(n);
    DigitPrefixOfDigits(PadStart2(n));
  }

  /** A text that reads as a date has ten characters. */
  lemma IsoLength(s: string)
    requires ParseIso(s).Some?
    ensures |s| == 10
  {
  }

  /** Parsing what `yyyy-MM-dd` formatting writes gives the date back. */
  lemma ParseFormatIso(d: Date)
    requires WellFormed(d)
    ensures ParseIso(FormatIso(d)) == Some(d)
  {
    var s := FormatIso(d);
    var y, m, dd := Year4(d.year), PadStart2(d.month), PadStart2(d.day);
    assert |y| == 4 && |m| == 2 && |dd| == 2;
    assert s[..4] == y && s[5..7] == m && s[8..] == dd;
    Year4Value(d.year);
    PaddedValue(d.month);
    PaddedValue(d.day);
  }

  // ----- month names ----------------------------------------------------

  /** The `MMM` token. */
  function MonthAbbrev(m: nat): string {
    if m == 1 then "Jan" else if m == 2 then "Feb" else if m == 3 then "Mar"
    else if m == 4 then "Apr" else if m == 5 then "May" else if m == 6 then "Jun"
    else if m == 7 then "Jul" else if m == 8 then "Aug" else if m == 9 then "Sep"
    else if m == 10 then "Oct" else if m == 11 then "Nov" else "Dec"
  }

  /** `format(date, "MMM yyyy")`, e.g. "Jan 2024". */
  function FormatMonthYear(y: nat, m: nat): string {
    MonthAbbrev(m) + " " + Year4(y)
  }

  /** `format(date, "MMM d")`, e.g. "Jan 5". */
  function FormatMonthDay(d: Date): string {
    MonthAbbrev(d.month) + " " + NatToString(d.day)
  }

  /** `format(date, "MMM d, yyyy")`, e.g. "Jan 5, 2024". */
  function FormatLong(d: Date): string {
    FormatMonthDay(d) + ", " + Year4(d.year)
  }

  /** `format(date, "MMM dd, yyyy")`, e.g. "Jan 05, 2024". */
  function FormatPadded(d: Date): string {
    MonthAbbrev(d.month) + " " + PadStart2(d.day) + ", " + Year4(d.year)
  }

  // ----- the monthly export's month key ---------------------------------

  /** `${date.getFullYear()}-${String(date.getMonth() + 1).padStart(2, '0')}`:
      the year is written without padding. */
  function MonthKey(d: Date): (k: string)
    ensures '-' in k
  {
    var k := NatToString(d.year) + "-" + PadStart2(d.month);
    assert k[|NatToString(d.year)|] == '-';
    k
  }

  lemma YearOrder(y1: nat, y2: nat)
    requires 1000 <= y1 <= 9999 && 1000 <= y2 <= 9999
    ensures StrLess(NatToString(y1), NatToString(y2)) <==> y1 < y2
    ensures NatToString(y1) == NatToString(y2) <==> y1 == y2
    ensures |NatToString(y1)| == 4 && |NatToString(y2)| == 4
  {
    NatToStringLength(y1);
    NatToStringLength(y2);
    DigitsOfNat(y1);
    DigitsOfNat(y2);
    DigitStringOrder(NatToString(y1), NatToString(y2));
  }

  lemma MonthOrder(m1: nat, m2: nat)
    requires 1 <= m1 <= 12 && 1 <= m2 <= 12
    ensures StrLess(PadStart2(m1), PadStart2(m2)) <==> m1 < m2
  {
    PaddedValue(m1);
    PaddedValue(m2);
    DigitStringOrder(PadStart2(m1), PadStart2(m2));
  }

  /** With a four-digit year and a zero-padded month, the string order of
      month keys is chronological order of (year, month). */
  lemma MonthKeyOrder(a: Date, b: Date)
    requires 1000 <= a.year <= 9999 && 1000 <= b.year <= 9999
    requires 1 <= a.month <= 12 && 1 <= b.month <= 12
    ensures StrLess(MonthKey(a), MonthKey(b))
            <==> a.year < b.year || (a.year == b.year && a.month < b.month)
  {
    var y1, y2 := NatToString(a.year), NatToString(b.year);
    YearOrder(a.year, b.year);
    MonthOrder(a.month, b.month);
    assert MonthKey(a) == y1 + ("-" + PadStart2(a.month));
    assert MonthKey(b) == y2 + ("-" + PadStart2(b.month));
    StrLessConcatEqual(y1, y2, "-" + PadStart2(a.month), "-" + PadStart2(b.month));
    StrLessCommonPrefix("-", PadStart2(a.month), PadStart2(b.month));
  }

  /** Equal month keys mean the same year and month (for years of at most
      four digits). */
  lemma MonthKeyInjective(a: Date, b: Date)
    requires a.year <= 9999 && b.year <= 9999
    requires 1 <= a.month <= 12 && 1 <= b.month <= 12
    requires MonthKey(a) == MonthKey(b)
    ensures a.year == b.year && a.month == b.month
  {
    var y1, y2 := NatToString(a.year), NatToString(b.year);
    assert '-' !in y1 && '-' !in y2;
    assert '-' !in PadStart2(a.month) && '-' !in PadStart2(b.month);
    SplitJoined(y1, PadStart2(a.month), '-');
    SplitJoined(y2, PadStart2(b.month), '-');
    ParseIntOfNat(a.year);
    ParseIntOfNat(b.year);
    ParseIntOfPadded(a.month);
    ParseIntOfPadded(b.month);
  }

  // ----- day numbers ----------------------------------------------------

  /** Days since 1970-01-01 of a proleptic Gregorian date. */
  function DayNumber(d: Date): int {
    var y := if d.month <= 2 then d.year - 1 else d.year;
    var era := y / 400;
    var yoe := y - era * 400;
    var mp := (d.month + 9) % 12;
    var doy := (153 * mp + 2) / 5 + d.day - 1;
    var doe := yoe * 365 + yoe / 4 - yoe / 100 + doy;
    era * 146097 + doe - 719468
  }

  /** Day of the week, 0 for Monday to 6 for Sunday (1970-01-01 was a Thursday). */
  function Weekday(n: int): (w: int)
    ensures 0 <= w < 7
  {
    (n + 3) % 7
  }

  /** The day number of the Monday that starts the week holding day `n`. */
  function WeekStart(n: int): (s: int)
    ensures s <= n < s + 7
    ensures Weekday(s) == 0
  {
    n - Weekday(n)
  }

  /** Two days share a Monday-based week exactly when the first lies in the
      seven days from the Monday of the second. */
  lemma SameWeek(n: int, m: int)
    ensures WeekStart(n) == WeekStart(m) <==> WeekStart(m) <= n < WeekStart(m) + 7
  {
    var s := WeekStart(m);
    if s <= n < s + 7 {
      var k := n - s;
      var q := (s + 3) / 7;
      assert s + 3 == 7 * q;
      assert n + 3 == 7 * q + k;
      assert Weekday(n) == k;
    }
  }
}
