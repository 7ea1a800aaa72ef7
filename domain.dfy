/** The records the backend returns and the values the forms submit:
    expenses, categories, picked files, the fields of a multipart form, and
    the decimal amounts that travel as strings between form and payload. */
module Domain {
  import opened Base
  import opened Text
  import opened Dates

  /** A file picked in the browser. Two files are the same file exactly when
      their handles are equal (JavaScript compares them by reference). */
  datatype File = File(handle: nat)

  datatype Category = Category(id: nat, name: string)

  /** An expense as the backend serialises it; amounts in cents. */
  datatype Expense = Expense(
    id: nat,
    title: string,
    amount: int,
    category: nat,
    categoryName: Option<string>,  // `category_details?.name`
    description: Option<string>,
    expenseDate: Date,
    receipt: Option<string>,       // URL of the first receipt image
    hst: Option<int>)

  /** A date range picked in a calendar; either bound may be unset. */
  datatype DateRange = DateRange(from: Option<Date>, to: Option<Date>)

  /** A JavaScript number as `parseFloat` yields it: NaN or an amount in cents. */
  datatype Num = NaN | Cents(cents: int)

  /** One value appended to a `FormData`. */
  datatype FieldValue = Str(s: string) | Number(n: Num) | Attachment(file: File)

  /** The ordered (name, value) list of a `FormData`. */
  type Payload = seq<(string, FieldValue)>

  function Names(p: Payload): (r: seq<string>)
    ensures |r| == |p|
    ensures forall i :: 0 <= i < |p| ==> r[i] == p[i].0
  {
    if p == [] then [] else [p[0].0] + Names(p[1..])
  }

  // ----- requests and notifications ------------------------------------

  /** How a request to the backend ended: success, or a failure whose
      response may carry a `detail` string. */
  datatype Outcome = Succeeded | Failed(detail: Option<string>)

  /** A toast notification. */
  datatype Toast = Toast(destructive: bool, title: string, description: string)

  /** `error.response?.data?.detail || fallback`: an empty detail counts as missing. */
  function DetailOr(detail: Option<string>, fallback: string): (t: string)
    ensures detail.Some? && detail.value != "" ==> t == detail.value
    ensures detail.None? || detail.value == "" ==> t == fallback
  {
    if detail.Some? && detail.value != "" then detail.value else fallback
  }

  // ----- the create-expense form ---------------------------------------

  /** The create form's `formData`: free-text amount, category id as text,
      the notes, and the picked date. */
  datatype ExpenseForm = ExpenseForm(amount: string, category: string, description: string, expenseDate: Date)

  /** The form after a reset; `new Date()` is `today`. */
  function EmptyForm(today: Date): (f: ExpenseForm)
    ensures f.amount == "" && f.category == "" && f.description == "" && f.expenseDate == today
  {
    ExpenseForm("", "", "", today)
  }

  /** The text fields every create request starts with. The title sent is the
      description; the amount is `parseFloat` of the typed text; the date is
      formatted "yyyy-MM-dd". */
  function CreateFields(form: ExpenseForm): Payload {
    [("title", Str(form.description)),
     ("amount", Number(ParseAmount(form.amount))),
     ("category", Str(form.category)),
     ("description", Str(form.description)),
     ("expense_date", Str(FormatIso(form.expenseDate)))]
  }

  /** The names and values of the text fields. */
  lemma CreateFieldsContent(form: ExpenseForm)
    ensures Names(CreateFields(form)) == ["title", "amount", "category", "description", "expense_date"]
    ensures CreateFields(form)[0].1 == Str(form.description) && CreateFields(form)[3].1 == Str(form.description)
    ensures CreateFields(form)[1].1 == Number(ParseAmount(form.amount)) && CreateFields(form)[2].1 == Str(form.category)
    ensures CreateFields(form)[4].1 == Str(FormatIso(form.expenseDate))
  {
  }

  // ----- amounts --------------------------------------------------------

  /** Cents from the digits after the decimal point (beyond two truncated). */
  function FractionCents(f: string): (c: nat)
    requires forall i :: 0 <= i < |f| ==> IsDigit(f[i])
    ensures c < 100
  {
    if f == [] then 0
    else if |f| == 1 then 10 * DigitValue(f[0])
    else 10 * DigitValue(f[0]) + DigitValue(f[1])
  }

  /** The unsigned part of `parseFloat`: digits and an optional fraction,
      `None` when there are no digits at all. */
  function ParseMagnitude(body: string): Option<nat> {
    MagnitudeOf(DigitPrefix(body), FractionDigits(body[|DigitPrefix(body)|..]))
  }

  /** The value of the whole and fractional digits read; `None` when both
      are empty. */
  function MagnitudeOf(ip: string, fp: string): Option<nat>
    requires forall i :: 0 <= i < |ip| ==> IsDigit(ip[i])
    requires forall i :: 0 <= i < |fp| ==> IsDigit(fp[i])
  {
    if ip == [] && fp == [] then None
    else Some(DigitsValue(ip) * 100 + FractionCents(fp))
  }

  /** The digits after a leading decimal point; none without one. */
  function FractionDigits(rest: string): (f: string)
    ensures forall i :: 0 <= i < |f| ==> IsDigit(f[i])
  {
    if |rest| > 0 && rest[0] == '.' then DigitPrefix(rest[1..]) else ""
  }

  /** `parseFloat` on a decimal amount: an optional minus sign, digits, and
      an optional fraction; NaN when there are no digits at all. */
  function ParseAmount(s: string): (r: Num)
    ensures s == "" ==> r == NaN
  {
    var neg := |s| > 0 && s[0] == '-';
    match ParseMagnitude(if neg then s[1..] else s)
    case None => NaN
    case Some(v) => Cents(if neg then 0 - v else v)
  }

  /** `amount.toFixed(2)` of an amount in cents. */
  function FormatCents(c: int): string {
    var a := if c < 0 then -c else c;
    (if c < 0 then "-" else "") + NatToString(a / 100) + "." + PadStart2(a % 100)
  }

  lemma {:induction false} DigitPrefixStops(d: string, x: string)
    requires forall i :: 0 <= i < |d| ==> IsDigit(d[i])
    requires x != [] && !IsDigit(x[0])
    ensures DigitPrefix(d + x) == d
  {
    if d == [] {
      assert d + x == x;
    } else {
      assert (d + x)[1..] == d[1..] + x;
      DigitPrefixStops(d[1..], x);
    }
  }

  lemma PaddedCents(r: nat)
    requires r < 100
    ensures |PadStart2(r)| == 2 && FractionCents(PadStart2(r)) == r
  {
    if r >= 10 {
      TwoDigits(r);
    }
  }

  lemma ParseMagnitudeFormatted(a: nat)
    ensures ParseMagnitude(NatToString(a / 100) + "." + PadStart2(a % 100)) == Some(a)
  {
    var q, r := NatToString(a / 100), PadStart2(a % 100);
    WholePart(q, r);
    FractionPart(r);
    PaddedCents(a % 100);
    DigitsOfNat(a / 100);
  }

  lemma FractionPart(r: string)
    requires forall i :: 0 <= i < |r| ==> IsDigit(r[i])
    ensures FractionDigits("." + r) == r
  {
    DigitPrefixOfDigits(r);
    assert ("." + r)[1..] == r;
  }

  lemma WholePart(q: string, r: string)
    requires forall i :: 0 <= i < |q| ==> IsDigit(q[i])
    ensures DigitPrefix(q + "." + r) == q
    ensures (q + "." + r)[|q|..] == "." + r && ("." + r)[1..] == r
  {
    assert q + "." + r == q + ("." + r);
    DigitPrefixStops(q, "." + r);
  }

  /** Reading back a formatted amount gives the amount. */
  lemma ParseFormatCents(c: int)
    ensures ParseAmount(FormatCents(c)) == Cents(c)
  {
    var a := if c < 0 then -c else c;
    var body := NatToString(a / 100) + "." + PadStart2(a % 100);
    var s := FormatCents(c);
    assert s == (if c < 0 then "-" else "") + body;
    assert IsDigit(body[0]);
    ParseMagnitudeFormatted(a);
    if c < 0 {
      assert s[1..] == body;
    } else {
      assert s == body;
    }
  }
}
