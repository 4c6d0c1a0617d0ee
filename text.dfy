/** Strings and the JavaScript string/number conversions the dashboard
    relies on: `split(" ")[0]`, decimal rendering of integers, `toFixed(3)`,
    `parseFloat`, and the default string order (by code point) of `sort()`. */
module Text {
  import opened Maybe
  import opened StableSort

  /** `s.split(" ")[0]`: everything before the first space. */
  function FirstToken(s: string): (r: string)
    ensures r <= s && ' ' !in r
    ensures r == s || s[|r|] == ' '
  {
    if s == [] || s[0] == ' ' then []
    else [s[0]] + FirstToken(s[1..])
  }

  /** `s.split(c)`: the pieces between occurrences of `c`. */
  function Split(s: string, c: char): (r: seq<string>)
    ensures |r| == CountChar(s, c) + 1
    ensures forall k :: 0 <= k < |r| ==> c !in r[k]
  {
    if s == [] then [[]]
    else
      var rest := Split(s[1..], c);
      if s[0] == c then [[]] + rest
      else [[s[0]] + rest[0]] + rest[1..]
  }

  function CountChar(s: string, c: char): nat {
    if s == [] then 0 else (if s[0] == c then 1 else 0) + CountChar(s[1..], c)
  }

  predicate IsDigit(c: char) {
    '0' <= c <= '9'
  }

  function DigitChar(d: nat): (c: char)
    requires d < 10
    ensures IsDigit(c) && (c as int) - ('0' as int) == d
  {
    ('0' as int + d) as char
  }

  /** Decimal rendering of a natural number, as template literals print it. */
  function NatToString(n: nat): (r: string)
    ensures r != [] && forall k :: 0 <= k < |r| ==> IsDigit(r[k])
    ensures DigitsValue(r) == n
  {
    if n < 10 then [DigitChar(n)]
    else
      var r := NatToString(n / 10) + [DigitChar(n % 10)];
      assert r[..|r| - 1] == NatToString(n / 10);
      r
  }

  /** Decimal rendering of an integer, with a leading `-` when negative. */
  function IntToString(i: int): string {
    if i < 0 then "-" + NatToString(-i) else NatToString(i)
  }

  /** Value of a string of decimal digits (0 for the empty string). */
  function DigitsValue(s: string): nat
    requires forall k :: 0 <= k < |s| ==> IsDigit(s[k])
  {
    if s == [] then 0
    else
      assert IsDigit(s[|s| - 1]);
      10 * DigitsValue(s[..|s| - 1]) + ((s[|s| - 1] as int) - ('0' as int))
  }

  /** The longest prefix made of decimal digits. */
  function DigitPrefix(s: string): (r: string)
    ensures r <= s
    ensures forall k :: 0 <= k < |r| ==> IsDigit(r[k])
    ensures r == s || !IsDigit(s[|r|])
  {
    if s == [] || !IsDigit(s[0]) then [] else [s[0]] + DigitPrefix(s[1..])
  }

  function Pow10(n: nat): (p: nat)
    ensures p >= 1
  {
    if n == 0 then 1 else 10 * Pow10(n - 1)
  }

  /** `parseFloat(s)`: an optional sign, digits, an optional fraction, read
      as far as they go; `None` stands for `NaN`, returned when no digit
      can be read. */
  function ParseFloat(s: string): (r: Option<real>)
    ensures r.None? ==> s == [] || !IsDigit(s[0])
  {
    if s != [] && s[0] == '-' then
      match ParseUnsigned(s[1..])
      case None => None
      case Some(v) => Some(-v)
    else if s != [] && s[0] == '+' then ParseUnsigned(s[1..])
    else ParseUnsigned(s)
  }

  /** `parseFloat` after the sign: digits, then optionally a dot and more
      digits. */
  function ParseUnsigned(s: string): (r: Option<real>)
    ensures r.None? ==> s == [] || !IsDigit(s[0])
  {
    var whole := DigitPrefix(s);
    var after := s[|whole|..];
    var frac := if after != [] && after[0] == '.' then DigitPrefix(after[1..]) else [];
    if whole == [] && frac == [] then None
    else Some(DecimalValue(whole, frac))
  }

  /** The value of the decimal numeral "whole.frac". */
  function DecimalValue(whole: string, frac: string): real
    requires forall k :: 0 <= k < |whole| ==> IsDigit(whole[k])
    requires forall k :: 0 <= k < |frac| ==> IsDigit(frac[k])
  {
    DigitsValue(whole) as real + DigitsValue(frac) as real / Pow10(|frac|) as real
  }

  /** `s.replace(/[^0-9.]/g, "")`: keeps only digits and dots. */
  function KeepDecimalChars(s: string): (r: string)
    ensures |r| <= |s|
    ensures forall k :: 0 <= k < |r| ==> IsDigit(r[k]) || r[k] == '.'
  {
    if s == [] then []
    else if IsDigit(s[0]) || s[0] == '.' then [s[0]] + KeepDecimalChars(s[1..])
    else KeepDecimalChars(s[1..])
  }

  /** `(s).padStart(n, c)`: `c` repeated in front up to length `n`. */
  function PadStart(s: string, n: nat, c: char): (r: string)
    ensures |r| == if |s| < n then n else |s|
    ensures r[|r| - |s|..] == s
    ensures forall k :: 0 <= k < |r| - |s| ==> r[k] == c
  {
    if |s| >= n then s else Repeat(c, n - |s|) + s
  }

  /** `c` repeated `z` times. */
  function Repeat(c: char, z: nat): (r: string)
    ensures |r| == z && forall k :: 0 <= k < z ==> r[k] == c
  {
    seq(z, _ => c)
  }

  function Abs(x: real): real {
    if x < 0.0 then -x else x
  }

  /** Thousandths of |x| rounded to nearest, halves up: the integer that
      `x.toFixed(3)` prints (after its sign). */
  function Thousandths(x: real): (m: nat)
    ensures m as real - 0.5 <= Abs(x) * 1000.0 < m as real + 0.5
  {
    (Abs(x) * 1000.0 + 0.5).Floor
  }

  /** The number `x.toFixed(3)` denotes: x rounded to thousandths, halves
      away from zero, never more than half a thousandth from x. */
  function Rounded3(x: real): (r: real)
    ensures -0.0005 <= r - x <= 0.0005
  {
    if x < 0.0 then -(Thousandths(x) as real / 1000.0) else Thousandths(x) as real / 1000.0
  }

  /** `x.toFixed(3)` on exact reals: a `-` when x is negative (even when
      the digits round to zero), the integer part, a dot, three digits. */
  function ToFixed3(x: real): (r: string)
    ensures |r| > 0 && (r[0] == '-' <==> x < 0.0)
  {
    var digits := FixedDigits(Thousandths(x));
    assert digits[0] != '-';
    (if x < 0.0 then "-" else "") + digits
  }

  /** Reading digits stops at the first character that is not one. */
  lemma {:induction false} DigitPrefixOfConcat(a: string, b: string)
    requires forall k :: 0 <= k < |a| ==> IsDigit(a[k])
    requires b == [] || !IsDigit(b[0])
    ensures DigitPrefix(a + b) == a
  {
    if a != [] {
      DigitPrefixOfConcat(a[1..], b);
      assert (a + b)[1..] == a[1..] + b;
    }
  }

  lemma {:induction false} LeadingZero(s: string)
    requires forall k :: 0 <= k < |s| ==> IsDigit(s[k])
    ensures DigitsValue("0" + s) == DigitsValue(s)
  {
    if s != [] {
      LeadingZero(s[..|s| - 1]);
      assert ("0" + s)[..|s|] == "0" + s[..|s| - 1];
    }
  }

  /** Any number of leading zeros keeps the value of a digit string. */
  lemma {:induction false} ZerosValue(z: nat, s: string)
    requires forall k :: 0 <= k < |s| ==> IsDigit(s[k])
    ensures forall k :: 0 <= k < z + |s| ==> IsDigit((Repeat('0', z) + s)[k])
    ensures DigitsValue(Repeat('0', z) + s) == DigitsValue(s)
  {
    if z > 0 {
      var rest := Repeat('0', z - 1) + s;
      ZerosValue(z - 1, s);
      assert Repeat('0', z) + s == "0" + rest;
      LeadingZero(rest);
    } else {
      assert Repeat('0', z) + s == s;
    }
  }

  /** Padding with leading zeros keeps the value of a digit string. */
  lemma PadValue(s: string, n: nat)
    requires forall k :: 0 <= k < |s| ==> IsDigit(s[k])
    ensures forall k :: 0 <= k < |PadStart(s, n, '0')| ==> IsDigit(PadStart(s, n, '0')[k])
    ensures DigitsValue(PadStart(s, n, '0')) == DigitsValue(s)
  {
    if |s| < n {
      ZerosValue(n - |s|, s);
    }
  }

  lemma ShortNumber(n: nat)
    requires n < 1000
    ensures |NatToString(n)| <= 3
  {
    if n >= 10 {
      assert |NatToString(n)| == |NatToString(n / 10)| + 1;
      if n / 10 >= 10 {
        assert |NatToString(n / 10)| == |NatToString(n / 100)| + 1;
      }
    }
  }

  /** `parseFloat` of an unsigned decimal "w.f". */
  lemma ParseDecimal(w: string, f: string)
    requires w != [] && forall k :: 0 <= k < |w| ==> IsDigit(w[k])
    requires forall k :: 0 <= k < |f| ==> IsDigit(f[k])
    ensures ParseFloat(w + "." + f) == Some(DecimalValue(w, f))
  {
    var s := w + ("." + f);
    assert s == w + "." + f;
    assert s[0] == w[0] && s[0] != '-' && s[0] != '+';
    assert ParseFloat(s) == ParseUnsigned(s);
    DigitPrefixOfConcat(w, "." + f);
    assert DigitPrefix(s) == w;
    assert s[|w|..] == "." + f;
    assert ("." + f)[1..] == f;
    DigitPrefixOfConcat(f, []);
    assert f + [] == f;
    assert DigitPrefix(f) == f;
  }

  /** A numeral without a sign or a fraction is read as its value. */
  lemma ParseWhole(w: string)
    requires w != [] && forall k :: 0 <= k < |w| ==> IsDigit(w[k])
    ensures ParseFloat(w) == Some(DigitsValue(w) as real)
  {
    assert w[0] != '-' && w[0] != '+' by { assert IsDigit(w[0]); }
    assert DigitPrefix(w) == w by {
      DigitPrefixOfConcat(w, []);
      assert w + [] == w;
    }
    assert w[|w|..] == [];
    assert DecimalValue(w, []) == DigitsValue(w) as real by {
      assert DigitsValue([]) == 0 && Pow10(0) == 1;
    }
  }

  /** The digits `toFixed(3)` prints for m thousandths. */
  function FixedDigits(m: nat): (r: string)
    ensures r != [] && IsDigit(r[0])
  {
    var w := NatToString(m / 1000);
    assert IsDigit(w[0]);
    w + "." + PadStart(NatToString(m % 1000), 3, '0')
  }

  lemma ThousandthsSplit(m: nat)
    ensures (m / 1000) as real + (m % 1000) as real / 1000.0 == m as real / 1000.0
  {
    var q, r := m / 1000, m % 1000;
    assert m == 1000 * q + r;
    assert m as real == 1000.0 * q as real + r as real;
  }

  lemma FixedDigitsValue(m: nat)
    ensures ParseFloat(FixedDigits(m)) == Some(m as real / 1000.0)
  {
    var w := NatToString(m / 1000);
    var f := PadStart(NatToString(m % 1000), 3, '0');
    ShortNumber(m % 1000);
    PadValue(NatToString(m % 1000), 3);
    assert |f| == 3 && Pow10(3) == 1000;
    assert FixedDigits(m) == w + "." + f;
    ParseDecimal(w, f);
    assert DigitsValue(w) == m / 1000 && DigitsValue(f) == m % 1000;
    assert DecimalValue(w, f) == (m / 1000) as real + (m % 1000) as real / 1000.0;
    ThousandthsSplit(m);
  }

  /** Zeros in front of a decimal numeral do not change what it reads
      back as. */
  lemma ZerosDecimal(z: nat, w: string, f: string)
    requires w != [] && forall k :: 0 <= k < |w| ==> IsDigit(w[k])
    requires forall k :: 0 <= k < |f| ==> IsDigit(f[k])
    ensures ParseFloat(Repeat('0', z) + w + "." + f) == ParseFloat(w + "." + f)
  {
    var w' := Repeat('0', z) + w;
    ZerosValue(z, w);
    assert DecimalValue(w', f) == DecimalValue(w, f);
    ParseDecimal(w', f);
    ParseDecimal(w, f);
  }

  /** Zeros in front of what `toFixed(3)` prints for m thousandths do not
      change what it reads back as. */
  lemma ZerosFixedDigits(m: nat, z: nat)
    ensures ParseFloat(Repeat('0', z) + FixedDigits(m)) == Some(m as real / 1000.0)
  {
    var w := NatToString(m / 1000);
    var f := PadStart(NatToString(m % 1000), 3, '0');
    PadValue(NatToString(m % 1000), 3);
    assert Repeat('0', z) + FixedDigits(m) == Repeat('0', z) + w + "." + f;
    ZerosDecimal(z, w, f);
    FixedDigitsValue(m);
  }

  /** What `toFixed(3)` prints reads back, through `parseFloat`, as the
      value rounded to thousandths, with the sign of the input. */
  lemma ToFixed3ReadsBack(x: real)
    ensures ParseFloat(ToFixed3(x)) ==
      Some(if x < 0.0 then -(Thousandths(x) as real / 1000.0) else Thousandths(x) as real / 1000.0)
  {
    var d := FixedDigits(Thousandths(x));
    FixedDigitsValue(Thousandths(x));
    if x < 0.0 {
      assert ToFixed3(x) == "-" + d;
      assert ("-" + d)[1..] == d;
    } else {
      assert ToFixed3(x) == d;
    }
  }

  /** The same, stated through `Rounded3`: what `toFixed(3)` prints reads
      back within half a thousandth of x. */
  lemma ToFixed3Rounded(x: real)
    ensures ParseFloat(ToFixed3(x)) == Some(Rounded3(x))
  {
    ToFixed3ReadsBack(x);
  }

  /** Padding what `toFixed(3)` prints for m thousandths with zeros keeps
      what it reads back as. */
  lemma PaddedFixedDigits(m: nat, n: nat)
    ensures ParseFloat(PadStart(FixedDigits(m), n, '0')) == Some(m as real / 1000.0)
  {
    var d := FixedDigits(m);
    if |d| >= n {
      assert Repeat('0', 0) + d == d;
      ZerosFixedDigits(m, 0);
    } else {
      ZerosFixedDigits(m, n - |d|);
    }
  }

  /** What `toFixed(3)` of a non-negative value prints, padded with zeros
      to six characters, reads back as the value rounded to thousandths. */
  lemma PaddedReadsBack(x: real)
    requires x >= 0.0
    ensures ParseFloat(PadStart(ToFixed3(x), 6, '0')) == Some(Thousandths(x) as real / 1000.0)
  {
    UnsignedFixed(x);
    PaddedFixedDigits(Thousandths(x), 6);
  }

  /** Without a sign, `toFixed(3)` prints just the digits. */
  lemma UnsignedFixed(x: real)
    ensures x >= 0.0 ==> ToFixed3(x) == FixedDigits(Thousandths(x))
  {
    var d := FixedDigits(Thousandths(x));
    assert "" + d == d;
  }

  /** Default `Array.prototype.sort()` order on strings, taken as
      lexicographic by code point (JavaScript compares UTF-16 code units;
      the two differ only beyond the Basic Multilingual Plane). */
  predicate LexLess(a: string, b: string) {
    if a == [] then b != []
    else if b == [] then false
    else if a[0] != b[0] then a[0] < b[0]
    else LexLess(a[1..], b[1..])
  }

  lemma {:induction false} LexTrans(a: string, b: string, c: string)
    requires LexLess(a, b) && LexLess(b, c)
    ensures LexLess(a, c)
  {
    if a != [] && b != [] && c != [] && a[0] == b[0] && b[0] == c[0] {
      LexTrans(a[1..], b[1..], c[1..]);
    }
  }

  lemma {:induction false} LexTotal(a: string, b: string)
    ensures a == b || LexLess(a, b) || LexLess(b, a)
    ensures !(LexLess(a, b) && LexLess(b, a))
    ensures !LexLess(a, a)
  {
    if a != [] && b != [] && a[0] == b[0] {
      LexTotal(a[1..], b[1..]);
      assert a == [a[0]] + a[1..] && b == [b[0]] + b[1..];
    }
    if a != [] {
      LexTotal(a[1..], a[1..]);
    }
  }

  /** Comparator ordering elements by a string key, as `sort()` or
      `(a, b) => key(a).localeCompare(key(b))` does. */
  function ByStringKey<T>(key: T -> string): (T, T) -> bool {
    (a: T, b: T) => LexLess(key(a), key(b))
  }

  lemma StringKeyOrder<T(!new)>(key: T -> string)
    ensures StrictWeakOrder(ByStringKey(key))
  {
    var before := ByStringKey(key);
    forall a: T, b: T | before(a, b)
      ensures !before(b, a)
    {
      LexTotal(key(a), key(b));
    }
    forall a: T, b: T, c: T | before(a, c)
      ensures before(a, b) || before(b, c)
    {
      LexTotal(key(a), key(b));
      LexTotal(key(b), key(c));
      if !before(a, b) && !before(b, c) {
        if key(b) != key(a) && key(c) != key(b) {
          LexTrans(key(c), key(b), key(a));
        }
        LexTotal(key(a), key(c));
      }
    }
  }
}
