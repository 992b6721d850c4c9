/** Python's base-10 `int(s)`, `str(n)` and `format(n, '03d')` over ASCII digits. */
module Numeral {
  import opened Wrappers
  import opened Text

  predicate IsDigit(c: char)
  {
    '0' <= c <= '9'
  }

  function DigitValue(c: char): nat
    requires IsDigit(c)
  {
    c as int - '0' as int
  }

  function DigitChar(d: nat): (c: char)
    requires d < 10
    ensures IsDigit(c) && DigitValue(c) == d
  {
    ('0' as int + d) as char
  }

  predicate AllDigits(t: string)
  {
    forall i :: 0 <= i < |t| ==> IsDigit(t[i])
  }

  function Pow10(k: nat): nat
  {
    if k == 0 then 1 else 10 * Pow10(k - 1)
  }

  /** The number a run of decimal digits spells, leading zeros included. */
  function Value(t: string): nat
    requires AllDigits(t)
  {
    if t == [] then 0 else Value(t[..|t| - 1]) * 10 + DigitValue(t[|t| - 1])
  }

  /** Appending digits shifts the value left by their count. */
  lemma {:induction false} ValueAppend(x: string, y: string)
    requires AllDigits(x) && AllDigits(y)
    ensures AllDigits(x + y)
    ensures Value(x + y) == Value(x) * Pow10(|y|) + Value(y)
    decreases |y|
  {
    assert AllDigits(x + y) by {
      forall i | 0 <= i < |x + y| ensures IsDigit((x + y)[i]) {
        if i >= |x| { assert (x + y)[i] == y[i - |x|]; }
      }
    }
    if y == [] {
      assert x + y == x;
    } else {
      var y' := y[..|y| - 1];
      var d := y[|y| - 1];
      assert (x + y)[..|x + y| - 1] == x + y';
      ValueAppend(x, y');
      assert Value(x + y) == Value(x + y') * 10 + DigitValue(d);
      assert Pow10(|y|) == 10 * Pow10(|y'|);
      ShiftDigit(Value(x), Pow10(|y'|), Value(y'), DigitValue(d));
    }
  }

  lemma ShiftDigit(a: int, p: int, v: int, d: int)
    ensures (a * p + v) * 10 + d == a * (10 * p) + (v * 10 + d)
  {
  }

  /** `k` zeros. */
  function Zeros(k: nat): (r: string)
    ensures |r| == k && AllDigits(r)
  {
    if k == 0 then [] else Zeros(k - 1) + "0"
  }

  lemma {:induction false} ZerosValue(k: nat)
    ensures Value(Zeros(k)) == 0
  {
    if k > 0 {
      ZerosValue(k - 1);
      assert Zeros(k)[..k - 1] == Zeros(k - 1);
    }
  }

  /** `str(n)` for a natural number: its digits without leading zeros. */
  function Digits(n: nat): (r: string)
    ensures 1 <= |r| && AllDigits(r)
  {
    if n < 10 then [DigitChar(n)] else Digits(n / 10) + [DigitChar(n % 10)]
  }

  /** The digits `str` writes spell the number back. */
  lemma {:induction false} DigitsValue(n: nat)
    ensures Value(Digits(n)) == n
  {
    if n >= 10 {
      DigitsValue(n / 10);
      assert Digits(n)[..|Digits(n)| - 1] == Digits(n / 10);
    }
  }

  lemma {:induction false} DigitsBound(n: nat, k: nat)
    requires 1 <= k && n < Pow10(k)
    ensures |Digits(n)| <= k
  {
    if n >= 10 {
      assert k >= 2;
      DigitsBound(n / 10, k - 1);
    }
  }

  /** `str(n)` */
  function Decimal(n: int): string
  {
    if n < 0 then "-" + Digits(-n) else Digits(n)
  }

  /** Left-pads a digit string with zeros up to `width`. */
  function ZeroPad(t: string, width: nat): (r: string)
  {
    if |t| >= width then t else Zeros(width - |t|) + t
  }

  /** `f"{n:03d}"`: at least three characters, zero-padded after the sign. */
  function Pad3(n: int): string
  {
    if n < 0 then "-" + ZeroPad(Digits(-n), 2) else ZeroPad(Digits(n), 3)
  }

  /** The digit part of Python's `int()`: ASCII digits, with single underscores
      allowed between two digits. */
  function DigitRun(t: string): Option<nat>
  {
    if t == [] || !IsDigit(t[|t| - 1]) then None
    else if |t| == 1 then Some(DigitValue(t[0]))
    else
      var init := t[..|t| - 1];
      var body := if init[|init| - 1] == '_' then init[..|init| - 1] else init;
      match DigitRun(body)
      case None => None
      case Some(v) => Some(v * 10 + DigitValue(t[|t| - 1]))
  }

  /** The whitespace `int()` skips around a number. A non-ASCII `str.isspace()`
      character is turned into a space first, but of the ASCII ones only tab,
      line feed, vertical tab, form feed, carriage return and space are skipped:
      the separators U+001C..U+001F are not. */
  predicate IsIntSpace(c: char)
  {
    IsSpace(c) && !('\U{1C}' <= c <= '\U{1F}')
  }

  /** `s` without the whitespace `int()` skips on either side. */
  function IntTrim(s: string): (r: string)
    ensures |r| <= |s|
    ensures r == [] || (!IsIntSpace(r[0]) && !IsIntSpace(r[|r| - 1]))
    ensures s == [] || (!IsIntSpace(s[0]) && !IsIntSpace(s[|s| - 1])) ==> r == s
    decreases |s|
  {
    if s != [] && IsIntSpace(s[0]) then IntTrim(s[1..])
    else if s != [] && IsIntSpace(s[|s| - 1]) then IntTrim(s[..|s| - 1])
    else s
  }

  /** The bounds of the slice `IntTrim` keeps. */
  lemma {:induction false} IntTrimBounds(s: string) returns (a: nat, b: nat)
    ensures a <= b <= |s| && IntTrim(s) == s[a..b]
    ensures forall i :: 0 <= i < a ==> IsIntSpace(s[i])
    ensures forall i :: b <= i < |s| ==> IsIntSpace(s[i])
    decreases |s|
  {
    if s != [] && IsIntSpace(s[0]) {
      var u := s[1..];
      var a', b' := IntTrimBounds(u);
      a, b := a' + 1, b' + 1;
      assert u[a'..b'] == s[a..b];
      forall i | 0 <= i < a ensures IsIntSpace(s[i]) {
        if i > 0 { assert s[i] == u[i - 1]; }
      }
      forall i | b <= i < |s| ensures IsIntSpace(s[i]) {
        assert s[i] == u[i - 1];
      }
    } else if s != [] && IsIntSpace(s[|s| - 1]) {
      var u := s[..|s| - 1];
      a, b := IntTrimBounds(u);
      assert u[a..b] == s[a..b];
      forall i | b <= i < |s| ensures IsIntSpace(s[i]) {
        if i < |u| { assert s[i] == u[i]; }
      }
    } else {
      a, b := 0, |s|;
    }
  }

  /** `IntTrim` keeps a slice of the text and drops only skipped whitespace on
      each side. */
  lemma IntTrimTrims(s: string)
    ensures exists a, b :: 0 <= a <= b <= |s| && IntTrim(s) == s[a..b] &&
                           (forall i :: 0 <= i < a ==> IsIntSpace(s[i])) &&
                           (forall i :: b <= i < |s| ==> IsIntSpace(s[i]))
  {
    var a, b := IntTrimBounds(s);
  }

  /** `int(s)` with base 10: surrounding whitespace, an optional sign, then a digit
      run; `None` where Python raises `ValueError`. */
  function ParseInt(s: string): (r: Option<int>)
    ensures IntTrim(s) == [] ==> r == None
  {
    var t := IntTrim(s);
    var signed := t != [] && (t[0] == '-' || t[0] == '+');
    match DigitRun(if signed then t[1..] else t)
    case None => None
    case Some(v) => Some(if signed && t[0] == '-' then -(v as int) else v as int)
  }

  /** A run `DigitRun` reads starts with a digit. */
  lemma {:induction false} DigitRunStartsWithDigit(t: string)
    requires DigitRun(t).Some?
    ensures IsDigit(t[0])
    decreases |t|
  {
    if |t| > 1 {
      var init := t[..|t| - 1];
      var body := if init[|init| - 1] == '_' then init[..|init| - 1] else init;
      DigitRunStartsWithDigit(body);
      assert body[0] == t[0];
    }
  }

  lemma {:induction false} IntTrimKeepsFirst(s: string)
    requires s != [] && !IsIntSpace(s[0])
    ensures IntTrim(s) != [] && IntTrim(s)[0] == s[0]
    decreases |s|
  {
    if IsIntSpace(s[|s| - 1]) {
      IntTrimKeepsFirst(s[..|s| - 1]);
    }
  }

  lemma {:induction false} IntTrimKeepsLast(s: string)
    requires s != [] && !IsIntSpace(s[|s| - 1])
    ensures IntTrim(s) != [] && IntTrim(s)[|IntTrim(s)| - 1] == s[|s| - 1]
    decreases |s|
  {
    if IsIntSpace(s[0]) {
      IntTrimKeepsLast(s[1..]);
    }
  }

  /** `int()` does not skip U+001C..U+001F: a number with one of them before or
      after it is rejected, although `str.isspace()` holds for them. */
  lemma SeparatorNotSkipped(c: char, s: string)
    requires '\U{1C}' <= c <= '\U{1F}'
    ensures ParseInt([c] + s) == None
    ensures ParseInt(s + [c]) == None
  {
    var u := [c] + s;
    IntTrimKeepsFirst(u);
    var t := IntTrim(u);
    if DigitRun(t).Some? {
      DigitRunStartsWithDigit(t);
    }
    var v := s + [c];
    IntTrimKeepsLast(v);
    var w := IntTrim(v);
    assert w[|w| - 1] == c;
    if |w| > 1 {
      assert w[1..][|w[1..]| - 1] == c;
    }
  }

  /** A plain run of digits reads as its value. */
  lemma {:induction false} DigitRunOfDigits(t: string)
    requires t != [] && AllDigits(t)
    ensures DigitRun(t) == Some(Value(t))
    decreases |t|
  {
    if |t| > 1 {
      var init := t[..|t| - 1];
      assert IsDigit(init[|init| - 1]);
      DigitRunOfDigits(init);
    }
  }

  lemma TrimDigits(t: string)
    requires t != [] && AllDigits(t)
    ensures IntTrim(t) == t
  {
    assert IsDigit(t[0]) && IsDigit(t[|t| - 1]);
  }

  lemma TrimNegative(t: string)
    requires t != [] && AllDigits(t)
    ensures IntTrim("-" + t) == "-" + t
  {
    assert IsDigit(t[|t| - 1]);
    assert ("-" + t)[|"-" + t| - 1] == t[|t| - 1];
  }

  /** A digit string reads back as its value. */
  lemma ParseUnsigned(t: string)
    requires t != [] && AllDigits(t)
    ensures ParseInt(t) == Some(Value(t) as int)
  {
    DigitRunOfDigits(t);
    TrimDigits(t);
    assert IsDigit(t[0]);
  }

  /** A minus sign followed by a digit string reads back as the negated value. */
  lemma ParseNegative(t: string)
    requires t != [] && AllDigits(t)
    ensures ParseInt("-" + t) == Some(-(Value(t) as int))
  {
    var u := "-" + t;
    TrimNegative(t);
    assert u[0] == '-' && u[1..] == t;
    DigitRunOfDigits(u[1..]);
  }

  lemma ParseSigned(t: string, negative: bool)
    requires t != [] && AllDigits(t)
    ensures ParseInt(if negative then "-" + t else t) == Some(if negative then -(Value(t) as int) else Value(t) as int)
  {
    if negative { ParseNegative(t); } else { ParseUnsigned(t); }
  }

  /** `int(str(n)) == n` */
  lemma ParseIntDecimal(n: int)
    ensures ParseInt(Decimal(n)) == Some(n)
  {
    var m := if n < 0 then -n else n;
    DigitsValue(m);
    ParseSigned(Digits(m), n < 0);
  }

  /** A zero-padded digit string keeps its value. */
  lemma ZeroPadValue(t: string, width: nat)
    requires t != [] && AllDigits(t)
    ensures ZeroPad(t, width) != [] && AllDigits(ZeroPad(t, width))
    ensures Value(ZeroPad(t, width)) == Value(t)
    ensures |ZeroPad(t, width)| == if |t| >= width then |t| else width
  {
    if |t| < width {
      ZerosValue(width - |t|);
      ValueAppend(Zeros(width - |t|), t);
    }
  }

  /** `int(f"{n:03d}") == n`: the padded job number reads back as the number. */
  lemma ParseIntPad3(n: int)
    ensures ParseInt(Pad3(n)) == Some(n)
    ensures 0 <= n < 1000 ==> |Pad3(n)| == 3
  {
    var m := if n < 0 then -n else n;
    DigitsValue(m);
    ZeroPadValue(Digits(m), if n < 0 then 2 else 3);
    ParseSigned(ZeroPad(Digits(m), if n < 0 then 2 else 3), n < 0);
    if 0 <= n < 1000 {
      DigitsBound(n, 3);
    }
  }

  /** Distinct numbers are written as distinct padded strings. */
  lemma Pad3Injective(m: int, n: int)
    requires m != n
    ensures Pad3(m) != Pad3(n)
  {
    ParseIntPad3(m);
    ParseIntPad3(n);
  }

  /** The message `int()` raises for text it cannot read. */
  function IntError(literal: string): string
  {
    "invalid literal for int() with base 10: '" + literal + "'"
  }
}
