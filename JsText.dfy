/** The JavaScript string built-ins the screens rely on: `trim`, `parseInt(s, 10)`,
    the decimal rendering of a status code in a template string, and
    `toLowerCase` as far as the status keys need it. */
module JsText {

  /** StrWhiteSpaceChar of ECMAScript: WhiteSpace (TAB, VT, FF, ZWNBSP and the
      space separators) and LineTerminator (LF, CR, LS, PS). */
  predicate IsJsSpace(c: char)
  {
    || c == '\t' || c == '\n' || c == '\U{0B}' || c == '\U{0C}' || c == '\r'
    || c == ' ' || c == '\U{A0}' || c == '\U{1680}'
    || ('\U{2000}' <= c <= '\U{200A}')
    || c == '\U{2028}' || c == '\U{2029}' || c == '\U{202F}' || c == '\U{205F}'
    || c == '\U{3000}' || c == '\U{FEFF}'
  }

  predicate IsDigit(c: char)
  {
    '0' <= c <= '9'
  }

  predicate AllSpace(s: string)
  {
    forall i :: 0 <= i < |s| ==> IsJsSpace(s[i])
  }

  /** Drops the leading white space of `s`. */
  function TrimStart(s: string): (r: string)
    ensures |r| <= |s| && r == s[|s| - |r|..]
    ensures AllSpace(s[..|s| - |r|])
    ensures r != "" ==> !IsJsSpace(r[0])
  {
    if s != "" && IsJsSpace(s[0]) then
      var r := TrimStart(s[1..]);
      assert s[..|s| - |r|] == [s[0]] + s[1..][..|s| - 1 - |r|];
      r
    else s
  }

  /** Drops the trailing white space of `s`. */
  function TrimEnd(s: string): (r: string)
    ensures |r| <= |s| && r == s[..|r|]
    ensures AllSpace(s[|r|..])
    ensures r != "" ==> !IsJsSpace(r[|r| - 1])
  {
    if s != "" && IsJsSpace(s[|s| - 1]) then
      var r := TrimEnd(s[..|s| - 1]);
      assert s[|r|..] == s[..|s| - 1][|r|..] + [s[|s| - 1]];
      r
    else s
  }

  /** `s.trim()`: what is left has no white space at either end. */
  function Trim(s: string): (r: string)
    ensures |r| <= |s|
    ensures r != "" ==> !IsJsSpace(r[0]) && !IsJsSpace(r[|r| - 1])
  {
    TrimEnd(TrimStart(s))
  }

  lemma {:induction false} TrimEndSkipsSpace(s: string, w: string)
    requires AllSpace(w)
    ensures TrimEnd(s + w) == TrimEnd(s)
    decreases |w|
  {
    if w != "" {
      var v := w[..|w| - 1];
      assert (s + w)[..|s + w| - 1] == s + v;
      TrimEndSkipsSpace(s, v);
    } else {
      assert s + w == s;
    }
  }

  /** `trim()` removes exactly the white space around a text that neither
      starts nor ends with white space. */
  lemma {:induction false} TrimPadded(w1: string, m: string, w2: string)
    requires AllSpace(w1) && AllSpace(w2)
    requires m != "" ==> !IsJsSpace(m[0]) && !IsJsSpace(m[|m| - 1])
    ensures Trim(w1 + m + w2) == m
  {
    assert w1 + m + w2 == w1 + (m + w2);
    TrimStartSkipsSpace(w1, m + w2);
    if m == "" {
      assert m + w2 == w2 + "";
      TrimStartSkipsSpace(w2, "");
    } else {
      assert (m + w2)[0] == m[0];
      assert TrimStart(m + w2) == m + w2;
      TrimEndSkipsSpace(m, w2);
      assert TrimEnd(m) == m;
    }
  }

  /** `!s.trim()`: the field is empty once white space is dropped. */
  predicate IsBlank(s: string)
  {
    Trim(s) == ""
  }

  /** A string is blank exactly when every character of it is white space. */
  lemma {:induction false} BlankIffAllSpace(s: string)
    ensures IsBlank(s) <==> AllSpace(s)
  {
    var t := TrimStart(s);
    assert t != "" ==> t[0] == s[|s| - |t|];
    if Trim(s) == "" {
      assert AllSpace(t[0..]);
      assert t == "";
      assert s[..|s|] == s;
    }
  }

  /** Result of `parseInt`: a whole number, or NaN when no digit is found. */
  datatype Num = NaN | Int(value: int)

  function DigitValue(c: char): (d: nat)
    requires IsDigit(c)
    ensures d < 10
  {
    (c as int) - ('0' as int)
  }

  function DigitChar(d: nat): (c: char)
    requires d < 10
    ensures IsDigit(c) && DigitValue(c) == d
  {
    (('0' as int) + d) as char
  }

  predicate AllDigits(s: string)
  {
    forall i :: 0 <= i < |s| ==> IsDigit(s[i])
  }

  /** The longest prefix of `s` made of decimal digits. */
  function DigitPrefix(s: string): (r: string)
    ensures |r| <= |s| && r == s[..|r|]
    ensures AllDigits(r)
    ensures |r| < |s| ==> !IsDigit(s[|r|])
  {
    if s != "" && IsDigit(s[0]) then [s[0]] + DigitPrefix(s[1..]) else ""
  }

  /** The number a digit string denotes in base 10. */
  function DigitsValue(s: string): nat
    requires AllDigits(s)
  {
    if s == "" then 0 else 10 * DigitsValue(s[..|s| - 1]) + DigitValue(s[|s| - 1])
  }

  /** The sign character `parseInt` accepts, if any, and what follows it. */
  function Unsigned(s: string): string
  {
    if s != "" && (s[0] == '-' || s[0] == '+') then s[1..] else s
  }

  /** `parseInt(s, 10)`: leading white space is skipped, one optional sign is
      read, then the longest run of decimal digits; no digit gives NaN.
      Everything after the digits is ignored. */
  function ParseInt(s: string): (n: Num)
    ensures n == NaN <==> DigitPrefix(Unsigned(TrimStart(s))) == ""
  {
    var t := TrimStart(s);
    var z := DigitPrefix(Unsigned(t));
    if z == "" then NaN
    else if t[0] == '-' then Int(0 - DigitsValue(z))
    else Int(DigitsValue(z))
  }

  /** The check `isNaN(p) || p <= 0` fails: the text is a positive count. */
  predicate IsPositiveCount(s: string)
  {
    ParseInt(s).Int? && ParseInt(s).value > 0
  }

  /** A rendered positive number, whatever non-digit text follows it, is a
      positive count; the same digits behind a minus sign are not. */
  lemma {:induction false} PositiveCountOfDecimal(n: nat, rest: string)
    requires n > 0
    requires rest == "" || !IsDigit(rest[0])
    ensures IsPositiveCount(DecimalString(n) + rest)
    ensures !IsPositiveCount("-" + DecimalString(n) + rest)
  {
    ParseIntDecimal(n, rest);
    ParseIntNegDigits(DecimalString(n), rest);
  }

  /** Text made only of white space holds no digit, so it is never a
      positive count. */
  lemma {:induction false} BlankIsNotCount(s: string)
    requires IsBlank(s)
    ensures !IsPositiveCount(s)
  {
    BlankIffAllSpace(s);
    forall i | 0 <= i < |s| ensures !IsDigit(s[i]) {
      assert IsJsSpace(s[i]);
    }
    ParseIntNoDigit(s);
  }

  /** The decimal digits of `n`, as a template string renders a status code:
      no leading zero, except for 0 itself. */
  function DecimalString(n: nat): (s: string)
    ensures s != "" && AllDigits(s)
    ensures DigitsValue(s) == n
    ensures s[0] == '0' <==> n == 0
    ensures n == 0 ==> s == "0"
    decreases n
  {
    if n < 10 then [DigitChar(n)]
    else
      var p := DecimalString(n / 10);
      var s := p + [DigitChar(n % 10)];
      assert s[..|s| - 1] == p;
      s
  }

  lemma {:induction false} DigitPrefixOfDigits(d: string, rest: string)
    requires AllDigits(d)
    requires rest == "" || !IsDigit(rest[0])
    ensures DigitPrefix(d + rest) == d
    decreases |d|
  {
    if d == "" {
      assert d + rest == rest;
    } else {
      assert (d + rest)[1..] == d[1..] + rest;
      DigitPrefixOfDigits(d[1..], rest);
      assert d == [d[0]] + d[1..];
    }
  }

  /** A run of digits followed by a non-digit is read as that run's value. */
  lemma {:induction false} ParseIntDigits(d: string, rest: string)
    requires d != "" && AllDigits(d)
    requires rest == "" || !IsDigit(rest[0])
    ensures ParseInt(d + rest) == Int(DigitsValue(d))
  {
    var s := d + rest;
    assert s[0] == d[0];
    assert IsDigit(s[0]) && !IsJsSpace(s[0]);
    assert TrimStart(s) == s;
    assert Unsigned(s) == s;
    DigitPrefixOfDigits(d, rest);
  }

  /** A plus sign before the run changes nothing. */
  lemma {:induction false} ParseIntPlusDigits(d: string, rest: string)
    requires d != "" && AllDigits(d)
    requires rest == "" || !IsDigit(rest[0])
    ensures ParseInt("+" + d + rest) == Int(DigitsValue(d))
  {
    var m := "+" + d + rest;
    assert m[0] == '+';
    assert TrimStart(m) == m;
    assert Unsigned(m) == d + rest;
    DigitPrefixOfDigits(d, rest);
    assert DigitPrefix(Unsigned(TrimStart(m))) == d;
  }

  /** The same run behind a minus sign is read as its negation. */
  lemma {:induction false} ParseIntNegDigits(d: string, rest: string)
    requires d != "" && AllDigits(d)
    requires rest == "" || !IsDigit(rest[0])
    ensures ParseInt("-" + d + rest) == Int(0 - DigitsValue(d))
  {
    var m := "-" + d + rest;
    assert m[0] == '-';
    assert TrimStart(m) == m;
    assert Unsigned(m) == d + rest;
    DigitPrefixOfDigits(d, rest);
    assert DigitPrefix(Unsigned(TrimStart(m))) == d;
  }

  /** parseInt reads a rendered number back, whatever non-digit text follows
      it. */
  lemma {:induction false} ParseIntDecimal(n: nat, rest: string)
    requires rest == "" || !IsDigit(rest[0])
    ensures ParseInt(DecimalString(n) + rest) == Int(n)
  {
    ParseIntDigits(DecimalString(n), rest);
  }

  lemma {:induction false} TrimStartSkipsSpace(w: string, s: string)
    requires AllSpace(w)
    ensures TrimStart(w + s) == TrimStart(s)
    decreases |w|
  {
    if w != "" {
      assert (w + s)[1..] == w[1..] + s;
      TrimStartSkipsSpace(w[1..], s);
    } else {
      assert w + s == s;
    }
  }

  /** Leading white space never changes what parseInt reads. */
  lemma {:induction false} ParseIntSkipsSpace(w: string, s: string)
    requires AllSpace(w)
    ensures ParseInt(w + s) == ParseInt(s)
  {
    TrimStartSkipsSpace(w, s);
  }

  /** A text with no decimal digit at all is NaN. */
  lemma {:induction false} ParseIntNoDigit(s: string)
    requires forall i :: 0 <= i < |s| ==> !IsDigit(s[i])
    ensures ParseInt(s) == NaN
  {
    var t := TrimStart(s);
    var u := Unsigned(t);
    if u != "" {
      assert u[0] == s[|s| - |u|];
    }
  }

  /** `parseInt("12abc", 10)` is 12: text after the digits is ignored. */
  lemma {:induction false} ParseIntTrailingText()
    ensures ParseInt("12abc") == Int(12)
  {
    var d, rest := "12", "abc";
    assert AllDigits(d) && !IsDigit(rest[0]);
    assert DigitsValue(d) == 12 by { assert d[..1] == "1"; }
    ParseIntDigits(d, rest);
    assert d + rest == "12abc";
  }

  /** `toLowerCase` on one character, over the letters A..Z. */
  function LowerChar(c: char): (r: char)
    ensures !('A' <= r <= 'Z')
    ensures 'A' <= c <= 'Z' ==> r as int == c as int + 32
    ensures !('A' <= c <= 'Z') ==> r == c
  {
    if 'A' <= c <= 'Z' then ((c as int) + 32) as char else c
  }

  /** `s.toLowerCase()` (letters A..Z; see the README for why this is exact
      for the status keys). */
  function ToLower(s: string): (r: string)
    ensures |r| == |s|
    ensures forall i :: 0 <= i < |s| ==> r[i] == LowerChar(s[i])
  {
    if s == "" then "" else [LowerChar(s[0])] + ToLower(s[1..])
  }

  predicate NoCapitals(s: string)
  {
    forall i :: 0 <= i < |s| ==> !('A' <= s[i] <= 'Z')
  }

  /** A text with no capital letter is its own lower-case form. */
  lemma {:induction false} NoCapitalsLowerToSelf(s: string)
    requires NoCapitals(s)
    ensures ToLower(s) == s
  {
    assert forall i :: 0 <= i < |s| ==> ToLower(s)[i] == s[i];
  }

  /** `a` and `b` are the same text up to the case of letters. */
  predicate SameIgnoringCase(a: string, b: string)
  {
    |a| == |b| && forall i :: 0 <= i < |a| ==> LowerChar(a[i]) == LowerChar(b[i])
  }

  /** Comparing `s.toLowerCase()` with a lower-case key is comparing `s`
      with that key up to letter case. */
  lemma {:induction false} ToLowerMatches(s: string, key: string)
    requires NoCapitals(key)
    ensures ToLower(s) == key <==> SameIgnoringCase(s, key)
  {
    NoCapitalsLowerToSelf(key);
    if SameIgnoringCase(s, key) {
      assert forall i :: 0 <= i < |s| ==> ToLower(s)[i] == ToLower(key)[i];
    }
  }
}
