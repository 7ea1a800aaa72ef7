/** The JavaScript string operations the components rely on, written out on
    `seq<char>`: number-to-string conversion, `padStart`, `parseInt`, `split`,
    `join`, `includes`, `toLowerCase`, `trim` and the default `sort` order. */
module Text {
  import opened Base

  // ----- decimal digits -------------------------------------------------

  predicate IsDigit(c: char) { '0' <= c <= '9' }

  function Digit(n: nat): (c: char)
    requires n < 10
    ensures IsDigit(c)
  {
    (48 + n) as char
  }

  function DigitValue(c: char): (n: nat)
    requires IsDigit(c)
    ensures n < 10 && Digit(n) == c
  {
    (c as int - 48)
  }

  /** Template-literal conversion of a non-negative integer: `${n}`. */
  function NatToString(n: nat): (s: string)
    ensures |s| >= 1
    ensures forall i :: 0 <= i < |s| ==> IsDigit(s[i])
    decreases n
  {
    if n < 10 then [Digit(n)] else NatToString(n / 10) + [Digit(n % 10)]
  }

  /** A two-digit number is written with exactly its two decimal digits. */
  lemma TwoDigits(n: nat)
    requires 10 <= n <= 99
    ensures NatToString(n) == [Digit(n / 10), Digit(n % 10)]
  {
    assert NatToString(n / 10) == [Digit(n / 10)];
  }

  /** The number of digits `${n}` has, for numbers below 10000. */
  lemma {:induction false} NatToStringLength(n: nat)
    ensures n < 10 ==> |NatToString(n)| == 1
    ensures 10 <= n < 100 ==> |NatToString(n)| == 2
    ensures 100 <= n < 1000 ==> |NatToString(n)| == 3
    ensures 1000 <= n < 10000 ==> |NatToString(n)| == 4
    ensures n < 10000 ==> |NatToString(n)| <= 4
    decreases n
  {
    if n >= 10 {
      NatToStringLength(n / 10);
    }
  }

  /** `String(n).padStart(2, '0')`. */
  function PadStart2(n: nat): (s: string)
    ensures |s| >= 2
    ensures forall i :: 0 <= i < |s| ==> IsDigit(s[i])
    ensures n < 100 ==> |s| == 2
  {
    if n < 10 then "0" + NatToString(n)
    else if n < 100 then NatToStringLength(n); NatToString(n)
    else NatToString(n)
  }

  /** The value of a string of decimal digits. */
  function DigitsValue(s: string): nat
    requires forall i :: 0 <= i < |s| ==> IsDigit(s[i])
  {
    if s == [] then 0 else DigitsValue(s[..|s| - 1]) * 10 + DigitValue(s[|s| - 1])
  }

  /** The longest prefix of `s` made of decimal digits. */
  function DigitPrefix(s: string): (p: string)
    ensures |p| <= |s| && p == s[..|p|]
    ensures forall i :: 0 <= i < |p| ==> IsDigit(s[i])
    ensures |p| < |s| ==> !IsDigit(s[|p|])
  {
    if s == [] || !IsDigit(s[0]) then [] else [s[0]] + DigitPrefix(s[1..])
  }

  /** `parseInt(s, 10)` for the unsigned decimal strings it is given here:
      the value of the leading digits, `None` (NaN) when there are none. */
  function ParseInt(s: string): (r: Option<nat>)
    ensures r.None? <==> (s == [] || !IsDigit(s[0]))
  {
    var p := DigitPrefix(s);
    if p == [] then None else Some(DigitsValue(p))
  }

  lemma {:induction false} DigitsOfNat(n: nat)
    ensures DigitsValue(NatToString(n)) == n
    decreases n
  {
    var s := NatToString(n);
    if n >= 10 {
      DigitsOfNat(n / 10);
      assert s[..|s| - 1] == NatToString(n / 10);
    }
  }

  function Pow10(n: nat): (p: nat)
    ensures p >= 1
  {
    if n == 0 then 1 else 10 * Pow10(n - 1)
  }

  lemma {:induction false} Pow10Monotone(m: nat, n: nat)
    requires m <= n
    ensures Pow10(m) <= Pow10(n)
    decreases n
  {
    if m < n {
      Pow10Monotone(m, n - 1);
    }
  }

  /** A string of n digits denotes a number below 10^n. */
  lemma {:induction false} DigitsBelow(s: string)
    requires forall i :: 0 <= i < |s| ==> IsDigit(s[i])
    ensures DigitsValue(s) < Pow10(|s|)
    decreases |s|
  {
    if s != [] {
      var init := s[..|s| - 1];
      DigitsBelow(init);
      assert DigitsValue(init) + 1 <= Pow10(|init|);
      assert DigitsValue(s) == DigitsValue(init) * 10 + DigitValue(s[|s| - 1]);
      assert Pow10(|s|) == 10 * Pow10(|init|);
    }
  }

  /** A string of n digits without a leading zero denotes at least 10^(n-1). */
  lemma {:induction false} LeadingDigitBound(s: string)
    requires |s| > 0 && s[0] != '0'
    requires forall i :: 0 <= i < |s| ==> IsDigit(s[i])
    ensures Pow10(|s| - 1) <= DigitsValue(s)
    decreases |s|
  {
    var init := s[..|s| - 1];
    assert DigitsValue(s) == DigitsValue(init) * 10 + DigitValue(s[|s| - 1]);
    if |s| == 1 {
      assert init == [];
      assert DigitValue(s[0]) >= 1;
    } else {
      assert init[0] == s[0];
      LeadingDigitBound(init);
      assert Pow10(|s| - 1) == 10 * Pow10(|init| - 1);
    }
  }

  /** On digit strings of equal length, string order is numeric order and
      string equality is numeric equality. */
  lemma {:induction false} DigitStringOrder(s: string, t: string)
    requires |s| == |t|
    requires forall i :: 0 <= i < |s| ==> IsDigit(s[i])
    requires forall i :: 0 <= i < |t| ==> IsDigit(t[i])
    ensures StrLess(s, t) <==> DigitsValue(s) < DigitsValue(t)
    ensures s == t <==> DigitsValue(s) == DigitsValue(t)
    decreases |s|
  {
    if s != [] {
      var p, q := s[..|s| - 1], t[..|t| - 1];
      var x, y := s[|s| - 1], t[|t| - 1];
      DigitStringOrder(p, q);
      assert s == p + [x] && t == q + [y];
      StrLessConcatEqual(p, q, [x], [y]);
      assert StrLess([x], [y]) <==> x < y by {
        assert [x][1..] == [] && [y][1..] == [];
      }
      var vx, vy := DigitValue(x), DigitValue(y);
      assert x < y <==> vx < vy;
      assert x == y <==> vx == vy;
    } else {
      StrLessIrreflexive(s);
    }
  }

  lemma {:induction false} DigitPrefixOfDigits(s: string)
    requires forall i :: 0 <= i < |s| ==> IsDigit(s[i])
    ensures DigitPrefix(s) == s
  {
    if s != [] {
      DigitPrefixOfDigits(s[1..]);
    }
  }

  /** `parseInt` reads back what `${n}` writes. */
  lemma ParseIntOfNat(n: nat)
    ensures ParseInt(NatToString(n)) == Some(n)
  {
    DigitPrefixOfDigits(NatToString(n));
    DigitsOfNat(n);
  }

  /** `parseInt` reads back what `padStart(2, '0')` writes. */
  lemma ParseIntOfPadded(n: nat)
    ensures ParseInt(PadStart2(n)) == Some(n)
  {
    var s := PadStart2(n);
    DigitPrefixOfDigits(s);
    if n < 10 {
      assert s[..|s| - 1] == "0";
      assert DigitsValue("0") == 0 by { assert "0"[..0] == []; }
    } else {
      DigitsOfNat(n);
    }
  }

  // ----- split and join -------------------------------------------------

  /** `s.split(c)` for a one-character separator. */
  function Split(s: string, c: char): (parts: seq<string>)
    ensures |parts| >= 1
  {
    if s == [] then [""]
    else
      var rest := Split(s[1..], c);
      if s[0] == c then [""] + rest else [[s[0]] + rest[0]] + rest[1..]
  }

  lemma {:induction false} SplitWithout(s: string, c: char)
    requires c !in s
    ensures Split(s, c) == [s]
  {
    if s != [] {
      SplitWithout(s[1..], c);
      assert [s[0]] + s[1..] == s;
    }
  }

  /** Splitting `a + c + b` at `c` gives back `a` and `b` when neither holds `c`. */
  lemma {:induction false} SplitJoined(a: string, b: string, c: char)
    requires c !in a && c !in b
    ensures Split(a + [c] + b, c) == [a, b]
  {
    if a == [] {
      assert a + [c] + b == [c] + b;
      assert ([c] + b)[1..] == b;
      SplitWithout(b, c);
    } else {
      assert (a + [c] + b)[1..] == a[1..] + [c] + b;
      SplitJoined(a[1..], b, c);
      assert [a[0]] + a[1..] == a;
    }
  }

  /** `parts.join(sep)`. */
  function Join(parts: seq<string>, sep: string): (s: string)
    ensures parts == [] ==> s == ""
    ensures |parts| == 1 ==> s == parts[0]
  {
    if parts == [] then ""
    else if |parts| == 1 then parts[0]
    else parts[0] + sep + Join(parts[1..], sep)
  }

  // ----- search ---------------------------------------------------------

  /** `s.includes(q)`: `q` occurs in `s` at some position. */
  predicate Contains(s: string, q: string) {
    exists i :: 0 <= i <= |s| && OccursAt(s, q, i)
  }

  predicate OccursAt(s: string, q: string, i: nat) {
    i + |q| <= |s| && s[i..i + |q|] == q
  }

  lemma ContainsEmpty(s: string)
    ensures Contains(s, "")
  {
    assert OccursAt(s, "", 0);
  }

  /** Lower-casing of the ASCII letters (the Unicode case mapping of
      `toLowerCase` beyond ASCII is not modelled). */
  function LowerChar(c: char): char {
    if 'A' <= c <= 'Z' then (c as int + 32) as char else c
  }

  function ToLower(s: string): (r: string)
    ensures |r| == |s|
    ensures forall i :: 0 <= i < |s| ==> r[i] == LowerChar(s[i])
  {
    if s == [] then [] else [LowerChar(s[0])] + ToLower(s[1..])
  }

  /** `toUpperCase` on ASCII letters. */
  function UpperChar(c: char): char {
    if 'a' <= c <= 'z' then (c as int - 32) as char else c
  }

  function ToUpper(s: string): (r: string)
    ensures |r| == |s|
    ensures forall i :: 0 <= i < |s| ==> r[i] == UpperChar(s[i])
  {
    if s == [] then [] else [UpperChar(s[0])] + ToUpper(s[1..])
  }

  // ----- trim -----------------------------------------------------------

  /** The white-space and line-terminator characters `trim` removes (the
      Unicode space separators beyond these are not modelled). */
  predicate IsSpace(c: char) {
    c == ' ' || c == '\t' || c == '\n' || c == '\r' || c == '\U{000B}' || c == '\U{000C}'
    || c == '\U{00A0}' || c == '\U{FEFF}' || c == '\U{2028}' || c == '\U{2029}'
  }

  function TrimStart(s: string): (r: string)
    ensures |r| <= |s| && r == s[|s| - |r|..]
    ensures forall i :: 0 <= i < |s| - |r| ==> IsSpace(s[i])
    ensures r != [] ==> !IsSpace(r[0])
  {
    if s != [] && IsSpace(s[0]) then TrimStart(s[1..]) else s
  }

  function TrimEnd(s: string): (r: string)
    ensures |r| <= |s| && r == s[..|r|]
    ensures forall i :: |r| <= i < |s| ==> IsSpace(s[i])
    ensures r != [] ==> !IsSpace(r[|r| - 1])
  {
    if s != [] && IsSpace(s[|s| - 1]) then TrimEnd(s[..|s| - 1]) else s
  }

  /** `s.trim()`. */
  function Trim(s: string): string {
    TrimEnd(TrimStart(s))
  }

  /** A trimmed string is empty (falsy) exactly when the string is all white space. */
  lemma TrimEmpty(s: string)
    ensures Trim(s) == "" <==> forall i :: 0 <= i < |s| ==> IsSpace(s[i])
  {
    var t := TrimStart(s);
    if Trim(s) != "" {
      var r := Trim(s);
      assert r[0] == t[0];
      assert t[0] == s[|s| - |t|];
    }
  }

  // ----- ordering -------------------------------------------------------

  /** The order of the default `Array.prototype.sort` on strings:
      lexicographic by character, a proper prefix first. */
  predicate StrLess(a: string, b: string) {
    if a == [] then b != []
    else if b == [] then false
    else if a[0] != b[0] then a[0] < b[0]
    else StrLess(a[1..], b[1..])
  }

  lemma {:induction false} StrLessIrreflexive(a: string)
    ensures !StrLess(a, a)
  {
    if a != [] {
      StrLessIrreflexive(a[1..]);
    }
  }

  lemma {:induction false} StrLessTransitive(a: string, b: string, c: string)
    requires StrLess(a, b) && StrLess(b, c)
    ensures StrLess(a, c)
  {
    if a != [] && b != [] && c != [] && a[0] == b[0] && b[0] == c[0] {
      StrLessTransitive(a[1..], b[1..], c[1..]);
    }
  }

  lemma {:induction false} StrLessTotal(a: string, b: string)
    requires a != b
    ensures StrLess(a, b) || StrLess(b, a)
  {
    if a != [] && b != [] && a[0] == b[0] {
      assert a == [a[0]] + a[1..] && b == [b[0]] + b[1..];
      StrLessTotal(a[1..], b[1..]);
    }
  }

  lemma {:induction false} StrLessAsymmetric(a: string, b: string)
    requires StrLess(a, b)
    ensures !StrLess(b, a)
  {
    if a != [] && b != [] && a[0] == b[0] {
      StrLessAsymmetric(a[1..], b[1..]);
    }
  }

  /** Comparing two strings whose first parts have equal length: the first
      parts decide unless they are equal. */
  lemma {:induction false} StrLessConcatEqual(x1: string, x2: string, r1: string, r2: string)
    requires |x1| == |x2|
    ensures StrLess(x1 + r1, x2 + r2) <==> StrLess(x1, x2) || (x1 == x2 && StrLess(r1, r2))
  {
    if x1 == [] {
      assert x1 + r1 == r1 && x2 + r2 == r2;
    } else {
      assert (x1 + r1)[0] == x1[0] && (x2 + r2)[0] == x2[0];
      assert (x1 + r1)[1..] == x1[1..] + r1;
      assert (x2 + r2)[1..] == x2[1..] + r2;
      StrLessConcatEqual(x1[1..], x2[1..], r1, r2);
      if x1[0] == x2[0] && x1[1..] == x2[1..] {
        assert x1 == [x1[0]] + x1[1..] && x2 == [x2[0]] + x2[1..];
      }
    }
  }

  /** For strings of equal length sharing a prefix, the order is decided by
      the rest. */
  lemma {:induction false} StrLessCommonPrefix(p: string, a: string, b: string)
    ensures StrLess(p + a, p + b) <==> StrLess(a, b)
  {
    if p != [] {
      assert (p + a)[0] == p[0] == (p + b)[0];
      assert (p + a)[1..] == p[1..] + a;
      assert (p + b)[1..] == p[1..] + b;
      StrLessCommonPrefix(p[1..], a, b);
    } else {
      assert p + a == a && p + b == b;
    }
  }
}
