/** The sign-up wizard of `app/signup/page.js`: a three-step form whose
    step moves forward only through a validation guard, the submit guard on
    mismatched passwords, and the message shown when the server rejects
    the registration. */
module Signup {
  import opened Base
  import opened Text
  import opened Domain

  /** `steps.length`. */
  const StepCount: int := 3

  datatype Field = FirstName | LastName | Email | Username | Password | ConfirmPassword

  datatype SignupForm = SignupForm(
    firstName: string, lastName: string, email: string,
    username: string, password: string, confirmPassword: string)

  function EmptySignupForm(): SignupForm {
    SignupForm("", "", "", "", "", "")
  }

  function Get(f: SignupForm, field: Field): string {
    match field
    case FirstName => f.firstName
    case LastName => f.lastName
    case Email => f.email
    case Username => f.username
    case Password => f.password
    case ConfirmPassword => f.confirmPassword
  }

  /** `{ ...formData, [name]: value }`. */
  function SetField(f: SignupForm, field: Field, value: string): (r: SignupForm)
    ensures Get(r, field) == value
    ensures forall other :: other != field ==> Get(r, other) == Get(f, other)
  {
    match field
    case FirstName => f.(firstName := value)
    case LastName => f.(lastName := value)
    case Email => f.(email := value)
    case Username => f.(username := value)
    case Password => f.(password := value)
    case ConfirmPassword => f.(confirmPassword := value)
  }

  function Min(a: int, b: int): int { if a <= b then a else b }
  function Max(a: int, b: int): int { if a >= b then a else b }

  /** `Math.min(prev + 1, steps.length)`. */
  function StepAfter(step: int): (s: int)
    ensures 1 <= step <= StepCount ==> 1 <= s <= StepCount
    ensures step < StepCount ==> s == step + 1
    ensures step >= StepCount ==> s == StepCount
  {
    Min(step + 1, StepCount)
  }

  /** `Math.max(prev - 1, 1)`. */
  function StepBefore(step: int): (s: int)
    ensures 1 <= step <= StepCount ==> 1 <= s <= StepCount
    ensures step > 1 ==> s == step - 1
    ensures step <= 1 ==> s == 1
  {
    Max(step - 1, 1)
  }

  /** Going back after going forward returns to the step, except from the last. */
  lemma BackAfterForward(step: int)
    requires 1 <= step < StepCount
    ensures StepBefore(StepAfter(step)) == step
  {
  }

  /** `validateCurrentStep` (its truthy value as a boolean). */
  function StepValid(step: int, f: SignupForm): (ok: bool)
    ensures step == 1 ==> (ok <==> Trim(f.firstName) != "" && Trim(f.lastName) != "")
    ensures step == 2 ==> (ok <==> Trim(f.username) != "" && Trim(f.email) != "")
    ensures step == 3 ==> (ok <==> f.password != "" && f.confirmPassword != "" && f.password == f.confirmPassword)
    ensures step != 1 && step != 2 && step != 3 ==> !ok
  {
    if step == 1 then Trim(f.firstName) != "" && Trim(f.lastName) != ""
    else if step == 2 then Trim(f.username) != "" && Trim(f.email) != ""
    else if step == 3 then f.password != "" && f.confirmPassword != "" && f.password == f.confirmPassword
    else false
  }

  /** A name made only of white space does not pass the first step. */
  lemma BlankNameRejected(f: SignupForm)
    requires forall i :: 0 <= i < |f.firstName| ==> IsSpace(f.firstName[i])
    ensures !StepValid(1, f)
  {
    TrimEmpty(f.firstName);
  }

  /** The message `handleNext` shows when the step does not validate. */
  function NextError(step: int, f: SignupForm): (msg: string)
    ensures msg == "Passwords do not match" <==> step == 3 && f.password != f.confirmPassword
    ensures msg != "Passwords do not match" ==> msg == "Please fill in all required fields"
  {
    if step == 3 && f.password != f.confirmPassword then "Passwords do not match"
    else "Please fill in all required fields"
  }

  // ----- the server's error payload -------------------------------------

  /** A JSON value as `error.response.data` holds it (numbers are integers). */
  datatype Json =
    | JNull
    | JBool(b: bool)
    | JNum(n: int)
    | JStr(s: string)
    | JArr(items: seq<Json>)
    | JObj(entries: seq<(string, Json)>)

  /** `error.response?.data`: `None` when the request got no response. */
  type ResponseData = Option<Json>

  predicate Truthy(v: Json) {
    match v
    case JNull => false
    case JBool(b) => b
    case JNum(n) => n != 0
    case JStr(s) => s != ""
    case _ => true
  }

  function IntToString(n: int): string {
    if n < 0 then "-" + NatToString(0 - n) else NatToString(n)
  }

  /** `String(v)`, as a template literal renders it. */
  function JsString(v: Json): string
    decreases v, 0
  {
    match v
    case JNull => "null"
    case JBool(b) => if b then "true" else "false"
    case JNum(n) => IntToString(n)
    case JStr(s) => s
    case JArr(items) => Join(seq(|items|, i requires 0 <= i < |items| => ElemString(items[i])), ",")
    case JObj(_) => "[object Object]"
  }

  /** How `Array.prototype.join` renders one element: `null` as "". */
  function ElemString(v: Json): string
    decreases v, 1
  {
    if v.JNull? then "" else JsString(v)
  }

  /** `data.key` on a parsed JSON object (the last entry of that name wins);
      `None` for a missing key or a value that is not an object. */
  function Property(v: Json, key: string): Option<Json> {
    if v.JObj? then Lookup(v.entries, key) else None
  }

  function Lookup(entries: seq<(string, Json)>, key: string): (r: Option<Json>)
    ensures r.Some? <==> exists i :: 0 <= i < |entries| && entries[i].0 == key
  {
    if entries == [] then None
    else if entries[|entries| - 1].0 == key then Some(entries[|entries| - 1].1)
    else
      var r := Lookup(entries[..|entries| - 1], key);
      assert forall i :: 0 <= i < |entries| - 1 ==> entries[..|entries| - 1][i] == entries[i];
      r
  }

  predicate HasTruthy(v: Json, key: string) {
    Property(v, key).Some? && Truthy(Property(v, key).value)
  }

  // ----- the properties of a parsed object -----------------------------

  /** The names of the members, as written in the JSON text. */
  function EntryNames(entries: seq<(string, Json)>): (names: seq<string>)
    ensures |names| == |entries|
    ensures forall i :: 0 <= i < |entries| ==> names[i] == entries[i].0
  {
    seq(|entries|, i requires 0 <= i < |entries| => entries[i].0)
  }

  /** An array index: the canonical decimal text of an integer below
      2^32 - 1. `Object.entries` lists such keys before all others. */
  predicate IsArrayIndex(k: string) {
    |k| > 0 && (forall i :: 0 <= i < |k| ==> IsDigit(k[i])) && (|k| == 1 || k[0] != '0')
    && DigitsValue(k) < 0xFFFF_FFFF
  }

  predicate IsOrdinaryKey(k: string) {
    !IsArrayIndex(k)
  }

  /** Numeric order on canonical digit strings: shorter first, then by text. */
  predicate IndexLess(a: string, b: string) {
    |a| < |b| || (|a| == |b| && StrLess(a, b))
  }

  predicate IndexSorted(s: seq<string>) {
    forall i, j :: 0 <= i < j < |s| ==> IndexLess(s[i], s[j])
  }

  lemma IndexLessTransitive(a: string, b: string, c: string)
    requires IndexLess(a, b) && IndexLess(b, c)
    ensures IndexLess(a, c)
  {
    if |a| == |b| == |c| {
      StrLessTransitive(a, b, c);
    }
  }

  lemma IndexLessTotal(a: string, b: string)
    requires a != b
    ensures IndexLess(a, b) || IndexLess(b, a)
  {
    if |a| == |b| {
      StrLessTotal(a, b);
    }
  }

  /** On array indices, `IndexLess` is the order of their numeric values. */
  lemma IndexLessNumeric(a: string, b: string)
    requires IsArrayIndex(a) && IsArrayIndex(b)
    ensures IndexLess(a, b) <==> DigitsValue(a) < DigitsValue(b)
  {
    if |a| == |b| {
      DigitStringOrder(a, b);
    } else if |a| < |b| {
      DigitsBelow(a);
      LeadingDigitBound(b);
      Pow10Monotone(|a|, |b| - 1);
    } else {
      DigitsBelow(b);
      LeadingDigitBound(a);
      Pow10Monotone(|b|, |a| - 1);
    }
  }

  function InsertIndex(s: seq<string>, k: string): (r: seq<string>)
    requires IndexSorted(s)
    ensures IndexSorted(r)
    ensures forall x :: x in r <==> x in s || x == k
  {
    if s == [] then [k]
    else if s[0] == k then s
    else if IndexLess(k, s[0]) then
      assert forall y :: y in s ==> IndexLess(k, y) by {
        forall y | y in s ensures IndexLess(k, y) {
          var j :| 0 <= j < |s| && s[j] == y;
          if j > 0 { IndexLessTransitive(k, s[0], y); }
        }
      }
      [k] + s
    else
      IndexLessTotal(k, s[0]);
      var t := InsertIndex(s[1..], k);
      assert forall y :: y in t ==> IndexLess(s[0], y) by {
        forall y | y in t ensures IndexLess(s[0], y) {
          if y != k {
            var j :| 0 <= j < |s[1..]| && s[1..][j] == y;
            assert s[j + 1] == y;
          }
        }
      }
      [s[0]] + t
  }

  /** The array-index keys in ascending numeric order. */
  function SortIndexKeys(keys: seq<string>): (r: seq<string>)
    ensures IndexSorted(r)
    ensures forall x :: x in r <==> x in keys
  {
    if keys == [] then []
    else
      var init := keys[..|keys| - 1];
      assert forall x :: x in keys <==> x in init || x == keys[|keys| - 1] by {
        assert keys == init + [keys[|keys| - 1]];
      }
      InsertIndex(SortIndexKeys(init), keys[|keys| - 1])
  }

  /** The keys of the object `JSON.parse` builds, in the order
      `Object.entries` lists them: the array indices ascending, then the
      other keys where they first occur (a repeated member only replaces the
      value of the property the first one created). */
  function OwnKeys(entries: seq<(string, Json)>): seq<string> {
    var names := Dedup(EntryNames(entries));
    SortIndexKeys(Filter(names, IsArrayIndex)) + Filter(names, IsOrdinaryKey)
  }

  lemma OwnKeysMembers(entries: seq<(string, Json)>)
    ensures forall k :: k in OwnKeys(entries) <==> k in EntryNames(entries)
  {
  }

  /** `Object.entries(JSON.parse(text))`: each key once, with the value of
      its last member. */
  function ObjectEntries(entries: seq<(string, Json)>): (r: seq<(string, Json)>)
    ensures |r| == |OwnKeys(entries)|
  {
    var keys := OwnKeys(entries);
    OwnKeysMembers(entries);
    seq(|keys|, i requires 0 <= i < |keys| => (keys[i], ValueOf(entries, keys[i])))
  }

  /** The value of the property `key` of the parsed object. */
  function ValueOf(entries: seq<(string, Json)>, key: string): Json
    requires key in EntryNames(entries)
  {
    LookupLast(entries, key);
    Lookup(entries, key).value
  }

  /** A property holds the value of the last member with its name. */
  lemma {:induction false} LookupLast(entries: seq<(string, Json)>, key: string)
    requires key in EntryNames(entries)
    ensures exists j :: 0 <= j < |entries| && entries[j].0 == key && Lookup(entries, key) == Some(entries[j].1)
                        && forall j' :: j < j' < |entries| ==> entries[j'].0 != key
    decreases |entries|
  {
    var n := |entries| - 1;
    if entries[n].0 != key {
      var init := entries[..n];
      var i :| 0 <= i < |entries| && EntryNames(entries)[i] == key;
      assert i < n && EntryNames(init)[i] == key;
      LookupLast(init, key);
      var j :| 0 <= j < |init| && init[j].0 == key && Lookup(init, key) == Some(init[j].1)
               && forall j' :: j < j' < |init| ==> init[j'].0 != key;
      assert entries[j] == init[j];
      forall j' | j < j' < |entries| ensures entries[j'].0 != key {
        if j' < n { assert entries[j'] == init[j']; }
      }
    }
  }

  /** No key is listed twice. */
  lemma OwnKeysDistinct(entries: seq<(string, Json)>)
    ensures forall i, j :: 0 <= i < j < |OwnKeys(entries)| ==> OwnKeys(entries)[i] != OwnKeys(entries)[j]
  {
    var names := Dedup(EntryNames(entries));
    var a, b := SortIndexKeys(Filter(names, IsArrayIndex)), Filter(names, IsOrdinaryKey);
    var keys := OwnKeys(entries);
    assert keys == a + b;
    FilterDistinct(names, IsOrdinaryKey);
    forall i, j | 0 <= i < j < |keys| ensures keys[i] != keys[j] {
      if j < |a| {
        assert IndexLess(a[i], a[j]);
        if |a[i]| == |a[j]| { StrLessIrreflexive(a[i]); }
      } else if i >= |a| {
        assert keys[i] == b[i - |a|] && keys[j] == b[j - |a|];
      } else {
        assert keys[i] in a && keys[j] in b;
      }
    }
  }

  /** The array indices come first, in ascending numeric order. */
  lemma OwnKeysIndicesFirst(entries: seq<(string, Json)>)
    ensures forall i, j :: 0 <= i < j < |OwnKeys(entries)| && IsArrayIndex(OwnKeys(entries)[j]) ==>
              IsArrayIndex(OwnKeys(entries)[i]) && DigitsValue(OwnKeys(entries)[i]) < DigitsValue(OwnKeys(entries)[j])
  {
    var names := Dedup(EntryNames(entries));
    var a, b := SortIndexKeys(Filter(names, IsArrayIndex)), Filter(names, IsOrdinaryKey);
    var keys := OwnKeys(entries);
    assert keys == a + b;
    forall i, j | 0 <= i < j < |keys| && IsArrayIndex(keys[j])
      ensures IsArrayIndex(keys[i]) && DigitsValue(keys[i]) < DigitsValue(keys[j])
    {
      assert keys[i] == a[i] && keys[j] == a[j];
      assert keys[i] in a && IndexLess(a[i], a[j]);
      IndexLessNumeric(keys[i], keys[j]);
    }
  }

  /** The other keys keep the order of their first occurrence. */
  lemma OwnKeysOrdinaryOrder(entries: seq<(string, Json)>)
    ensures Filter(OwnKeys(entries), IsOrdinaryKey) == Filter(Dedup(EntryNames(entries)), IsOrdinaryKey)
  {
    var names := Dedup(EntryNames(entries));
    var a, b := SortIndexKeys(Filter(names, IsArrayIndex)), Filter(names, IsOrdinaryKey);
    FilterAppend(a, b, IsOrdinaryKey);
    FilterNone(a, IsOrdinaryKey);
    FilterKeepsAll(b, IsOrdinaryKey);
    FilterIdempotent(names, IsOrdinaryKey);
  }

  /** What `Object.entries` yields for the parsed error body: every member
      name exactly once; the array indices first, in ascending numeric
      order; the other names in the order they first occur. */
  lemma ObjectEntriesOrder(entries: seq<(string, Json)>)
    ensures var r := ObjectEntries(entries);
            (forall i :: 0 <= i < |r| ==> r[i].0 == OwnKeys(entries)[i])
            && (forall k :: k in OwnKeys(entries) <==> k in EntryNames(entries))
            && (forall i, j :: 0 <= i < j < |r| ==> r[i].0 != r[j].0)
            && (forall i, j :: 0 <= i < j < |r| && IsArrayIndex(r[j].0) ==>
                  IsArrayIndex(r[i].0) && DigitsValue(r[i].0) < DigitsValue(r[j].0))
            && Filter(OwnKeys(entries), IsOrdinaryKey) == Filter(Dedup(EntryNames(entries)), IsOrdinaryKey)
  {
    OwnKeysMembers(entries);
    OwnKeysDistinct(entries);
    OwnKeysIndicesFirst(entries);
    OwnKeysOrdinaryOrder(entries);
  }

  /** Each listed value is that of the last member with its key. */
  lemma ObjectEntriesValue(entries: seq<(string, Json)>, i: int)
    requires 0 <= i < |ObjectEntries(entries)|
    ensures var e := ObjectEntries(entries)[i];
            exists j :: 0 <= j < |entries| && entries[j] == e && forall j' :: j < j' < |entries| ==> entries[j'].0 != e.0
  {
    var key := OwnKeys(entries)[i];
    OwnKeysMembers(entries);
    LookupLast(entries, key);
  }

  /** The `key: value` texts the handler joins. */
  function EntryTexts(entries: seq<(string, Json)>): (r: seq<string>)
    ensures |r| == |entries|
  {
    seq(|entries|, i requires 0 <= i < |entries| => entries[i].0 + ": " + JsString(entries[i].1))
  }

  /** The error message of the sign-up catch block. `None` stands for the
      JSON `null` payload, on which `Object.entries` throws inside the
      handler, so no toast appears. */
  function SignupError(data: ResponseData): (msg: Option<string>)
    ensures data.Some? && HasTruthy(data.value, "detail") ==>
              msg == Some(JsString(Property(data.value, "detail").value))
    ensures data.Some? && !HasTruthy(data.value, "detail") && HasTruthy(data.value, "message") ==>
              msg == Some(JsString(Property(data.value, "message").value))
    ensures data.Some? && data.value.JArr? ==>
              msg == Some(Join(seq(|data.value.items|, i requires 0 <= i < |data.value.items| => ElemString(data.value.items[i])), ", "))
    ensures data.Some? && data.value.JObj? && !HasTruthy(data.value, "detail") && !HasTruthy(data.value, "message") ==>
              msg == Some(Join(EntryTexts(ObjectEntries(data.value.entries)), ", "))
    ensures data.Some? && data.value == JNull ==> msg == None
    ensures data.None? || data.value.JBool? || data.value.JNum? || data.value.JStr? ==>
              msg == Some("Failed to create account")
  {
    if data.None? then Some("Failed to create account")
    else
      var d := data.value;
      if HasTruthy(d, "detail") then Some(JsString(Property(d, "detail").value))
      else if HasTruthy(d, "message") then Some(JsString(Property(d, "message").value))
      else match d
        case JArr(items) => Some(Join(seq(|items|, i requires 0 <= i < |items| => ElemString(items[i])), ", "))
        case JObj(entries) => Some(Join(EntryTexts(ObjectEntries(entries)), ", "))
        case JNull => None
        case _ => Some("Failed to create account")
  }

  /** An object with a single member lists just that member. */
  lemma SingleEntry(k: string, v: Json)
    ensures ObjectEntries([(k, v)]) == [(k, v)]
  {
    var entries := [(k, v)];
    assert EntryNames(entries) == [k];
    assert Dedup([k]) == [k] by { DedupSnoc([], k); assert [] + [k] == [k]; }
    OneKey(entries, k);
    assert Lookup(entries, k) == Some(v);
  }

  /** Members that all share one name give one key. */
  lemma OneKey(entries: seq<(string, Json)>, k: string)
    requires Dedup(EntryNames(entries)) == [k]
    ensures OwnKeys(entries) == [k]
  {
    assert [k][1..] == [];
    if IsArrayIndex(k) {
      assert Filter([k], IsArrayIndex) == [k] && Filter([k], IsOrdinaryKey) == [];
      assert SortIndexKeys([k]) == [k] by { assert [k][..0] == []; }
    } else {
      assert Filter([k], IsArrayIndex) == [] && Filter([k], IsOrdinaryKey) == [k];
    }
  }

  /** A field error in the usual shape `{"username": ["..."]}` reads
      "username: ..." . */
  lemma FieldErrorMessage(field: string, text: string)
    requires field != "detail" && field != "message"
    ensures SignupError(Some(JObj([(field, JArr([JStr(text)]))]))) == Some(field + ": " + text)
  {
    var d := JObj([(field, JArr([JStr(text)]))]);
    SingleEntry(field, JArr([JStr(text)]));
    assert Lookup(d.entries, "detail") == None;
    assert Lookup(d.entries, "message") == None;
    var items := [JStr(text)];
    var shown := seq(|items|, i requires 0 <= i < |items| => ElemString(items[i]));
    assert ElemString(JStr(text)) == text;
    assert shown[0] == text;
    assert shown == [text];
    assert JsString(JArr(items)) == Join(shown, ",");
  }

  /** A repeated member name is listed once, with its last value. */
  lemma RepeatedMember(k: string, v1: Json, v2: Json)
    ensures ObjectEntries([(k, v1), (k, v2)]) == [(k, v2)]
  {
    var entries := [(k, v1), (k, v2)];
    assert EntryNames(entries) == [k, k];
    DedupRepeated(k);
    OneKey(entries, k);
    assert Lookup(entries, k) == Some(v2);
  }

  lemma DedupRepeated(k: string)
    ensures Dedup([k, k]) == [k]
  {
    DedupSnoc([], k);
    DedupSnoc([k], k);
    assert [] + [k] == [k] && [k] + [k] == [k, k];
  }

  /** An array-index member is listed before an earlier ordinary one. */
  lemma IndexMemberFirst(k: string, v: Json, n: string, w: Json)
    requires !IsArrayIndex(k) && IsArrayIndex(n)
    ensures ObjectEntries([(k, v), (n, w)]) == [(n, w), (k, v)]
  {
    var entries := [(k, v), (n, w)];
    IndexKeyFirst(entries, k, n);
    assert Lookup(entries, n) == Some(w) && Lookup(entries, k) == Some(v);
  }

  lemma IndexKeyFirst(entries: seq<(string, Json)>, k: string, n: string)
    requires !IsArrayIndex(k) && IsArrayIndex(n)
    requires EntryNames(entries) == [k, n]
    ensures OwnKeys(entries) == [n, k]
  {
    assert Dedup([k, n]) == [k, n] by {
      DedupSnoc([], k);
      DedupSnoc([k], n);
      assert [] + [k] == [k] && [k] + [n] == [k, n];
    }
    assert [k, n][1..] == [n] && [n][1..] == [];
    assert Filter([k, n], IsArrayIndex) == [n];
    assert Filter([k, n], IsOrdinaryKey) == [k];
    assert SortIndexKeys([n]) == [n] by { assert [n][..0] == []; }
  }

  /** For an error body with a repeated field, the toast names the field
      once, with the last message. */
  lemma RepeatedFieldShownOnce(field: string, first: string, last: string)
    requires field != "detail" && field != "message"
    ensures SignupError(Some(JObj([(field, JStr(first)), (field, JStr(last))]))) == Some(field + ": " + last)
  {
    var entries := [(field, JStr(first)), (field, JStr(last))];
    RepeatedMember(field, JStr(first), JStr(last));
    assert Lookup(entries, "detail") == None && Lookup(entries, "message") == None;
    assert EntryTexts([(field, JStr(last))]) == [field + ": " + last];
  }

  /** The body of `POST /register/`. */
  datatype RegisterRequest = RegisterRequest(
    username: string, email: string, password: string,
    confirmPassword: string, firstName: string, lastName: string)

  /** How the registration request ended. */
  datatype SignupOutcome = Registered | Refused(data: ResponseData)

  class Wizard {
    var step: int
    var form: SignupForm
    var loading: bool

    ghost predicate Valid()
      reads this
    {
      1 <= step <= StepCount
    }

    constructor ()
      ensures Valid() && step == 1 && form == EmptySignupForm() && !loading
    {
      step := 1;
      form := EmptySignupForm();
      loading := false;
    }

    /** `handleInputChange`: only the named field changes. */
    method HandleInputChange(field: Field, value: string)
      requires Valid()
      modifies this
      ensures Valid() && form == SetField(old(form), field, value)
      ensures step == old(step) && loading == old(loading)
    {
      form := SetField(form, field, value);
    }

    /** `nextStep`. */
    method NextStep()
      requires Valid()
      modifies this
      ensures Valid() && step == StepAfter(old(step))
      ensures form == old(form) && loading == old(loading)
    {
      step := Min(step + 1, StepCount);
    }

    /** `prevStep`. */
    method PrevStep()
      requires Valid()
      modifies this
      ensures Valid() && step == StepBefore(old(step))
      ensures form == old(form) && loading == old(loading)
    {
      step := Max(step - 1, 1);
    }

    /** `handleNext`: advances when the current step validates, otherwise
        stays and returns the error toast. */
    method HandleNext() returns (toast: Option<Toast>)
      requires Valid()
      modifies this
      ensures Valid() && form == old(form) && loading == old(loading)
      ensures StepValid(old(step), old(form)) ==> step == StepAfter(old(step)) && toast == None
      ensures !StepValid(old(step), old(form)) ==>
                step == old(step) && toast == Some(Toast(true, "Error", NextError(old(step), old(form))))
    {
      if StepValid(step, form) {
        toast := None;
        NextStep();
      } else {
        var errorMessage := "Please fill in all required fields";
        if step == 3 && form.password != form.confirmPassword {
          errorMessage := "Passwords do not match";
        }
        toast := Some(Toast(true, "Error", errorMessage));
      }
    }

    /** `handleSubmit`. Mismatched passwords stop it before any request;
        otherwise the request carries the form, and the outcome decides the
        toast and whether the browser goes to the sign-in page. */
    method HandleSubmit(outcome: SignupOutcome)
      returns (request: Option<RegisterRequest>, toast: Option<Toast>, toSignIn: bool)
      requires Valid()
      modifies this
      ensures Valid() && step == old(step) && form == old(form)
      ensures form.password != form.confirmPassword ==>
                loading == old(loading) && request == None && !toSignIn && toast == Some(Toast(true, "Error", "Passwords do not match"))
      ensures form.password == form.confirmPassword ==>
                !loading && request == Some(RegisterRequest(form.username, form.email, form.password,
                                                form.confirmPassword, form.firstName, form.lastName))
      ensures form.password == form.confirmPassword && outcome.Registered? ==>
                toSignIn && toast == Some(Toast(false, "Success", "Account created successfully!"))
      ensures form.password == form.confirmPassword && outcome.Refused? ==>
                !toSignIn
                && (SignupError(outcome.data).Some? ==> toast == Some(Toast(true, "Error", SignupError(outcome.data).value)))
                && (SignupError(outcome.data).None? ==> toast == None)
    {
      if form.password != form.confirmPassword {
        request, toast, toSignIn := None, Some(Toast(true, "Error", "Passwords do not match")), false;
        return;
      }
      loading := true;
      request := Some(RegisterRequest(form.username, form.email, form.password,
                                      form.confirmPassword, form.firstName, form.lastName));
      if outcome.Registered? {
        toast, toSignIn := Some(Toast(false, "Success", "Account created successfully!")), true;
      } else {
        toSignIn := false;
        var msg := SignupError(outcome.data);
        toast := if msg.Some? then Some(Toast(true, "Error", msg.value)) else None;
      }
      loading := false;
    }
  }
}
