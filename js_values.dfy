/**
 * The JavaScript value conversions the onboarding form relies on:
 * `Number(s)` on a string, `parseFloat(s)`, `Math.round(x)` and the
 * decimal rendering of a non-negative integer in a template literal.
 * Numbers are modelled as exact rationals, not as IEEE doubles.
 */
module JsValues {
  import opened Wrappers

  /** A JavaScript number as the form can obtain it: NaN or a finite value. */
  datatype Num = NaN | Finite(v: real)

  predicate IsDigit(c: char) { '0' <= c <= '9' }

  predicate AllDigits(s: string) { forall i :: 0 <= i < |s| ==> IsDigit(s[i]) }

  /** The value of a decimal digit; only ever applied to digits. */
  function DigitValue(c: char): (d: nat)
    ensures d < 10
  {
    if IsDigit(c) then c as int - '0' as int else 0
  }

  function DigitChar(d: nat): (c: char)
    requires d < 10
    ensures IsDigit(c) && DigitValue(c) == d
  {
    ('0' as int + d) as char
  }

  /** `String(n)` for a non-negative integer: its decimal digits, no leading zero. */
  function NatToString(n: nat): (s: string)
    ensures |s| >= 1 && AllDigits(s)
    ensures |s| > 1 ==> s[0] != '0'
    ensures n < 10 <==> |s| == 1
  {
    if n < 10 then [DigitChar(n)] else NatToString(n / 10) + [DigitChar(n % 10)]
  }

  /** `String(i)` for any integer: a minus sign before the digits of a negative one. */
  function IntToString(i: int): (s: string)
    ensures |s| >= 1
    ensures i < 0 <==> s[0] == '-'
  {
    if i < 0 then "-" + NatToString(-i) else NatToString(i)
  }

  /** The value of a string of decimal digits, read most significant first. */
  function IntegerValue(ds: string): nat
  {
    if ds == [] then 0 else IntegerValue(ds[..|ds| - 1]) * 10 + DigitValue(ds[|ds| - 1])
  }

  /** The value of the digits after a decimal point: d1/10 + d2/100 + ... */
  function FractionValue(ds: string): (r: real)
    ensures 0.0 <= r < 1.0
  {
    if ds == [] then 0.0 else (DigitValue(ds[0]) as real + FractionValue(ds[1..])) / 10.0
  }

  /** Reading back the decimal rendering gives the number that was rendered. */
  lemma {:induction false} IntegerValueOfNatToString(n: nat)
    ensures IntegerValue(NatToString(n)) == n
  {
    if n >= 10 {
      var s := NatToString(n);
      assert s[..|s| - 1] == NatToString(n / 10);
      IntegerValueOfNatToString(n / 10);
    }
  }

  /** Four decimal digits are exactly the integers 1000..9999, rendered without padding. */
  lemma NatToStringLength(n: nat)
    ensures n < 10 ==> |NatToString(n)| == 1
    ensures 10 <= n < 100 ==> |NatToString(n)| == 2
    ensures 1000 <= n < 10000 ==> |NatToString(n)| == 4
  {
    if n >= 10 {
      NatToStringLength(n / 10);
    }
  }

  /**
   * The white space and line terminators that `Number` strips around a
   * numeric string and `parseFloat` skips before it (ECMA-262, section 7.1.4.1,
   * StrWhiteSpaceChar).
   */
  predicate IsJsSpace(c: char)
  {
    c == '\t' || c == '\n' || c == '\U{000B}' || c == '\U{000C}' || c == '\r' || c == ' '
    || c == '\U{00A0}' || c == '\U{1680}' || ('\U{2000}' <= c <= '\U{200A}')
    || c == '\U{2028}' || c == '\U{2029}' || c == '\U{202F}' || c == '\U{205F}'
    || c == '\U{3000}' || c == '\U{FEFF}'
  }

  /** `s` without its leading white space. */
  function TrimStart(s: string): (r: string)
    ensures |r| <= |s| && r == s[|s| - |r|..]
    ensures forall i :: 0 <= i < |s| - |r| ==> IsJsSpace(s[i])
    ensures r != [] ==> !IsJsSpace(r[0])
  {
    if s != [] && IsJsSpace(s[0]) then TrimStart(s[1..]) else s
  }

  /** `s` without its trailing white space. */
  function TrimEnd(s: string): (r: string)
    ensures |r| <= |s| && r == s[..|r|]
    ensures forall i :: |r| <= i < |s| ==> IsJsSpace(s[i])
    ensures r != [] ==> !IsJsSpace(r[|r| - 1])
  {
    if s != [] && IsJsSpace(s[|s| - 1]) then TrimEnd(s[..|s| - 1]) else s
  }

  function Trim(s: string): string
  {
    TrimEnd(TrimStart(s))
  }

  /** The number of decimal digits `s` starts with. */
  function LeadingDigits(s: string): (n: nat)
    ensures n <= |s|
    ensures forall i :: 0 <= i < n ==> IsDigit(s[i])
    ensures n < |s| ==> !IsDigit(s[n])
  {
    if s != [] && IsDigit(s[0]) then 1 + LeadingDigits(s[1..]) else 0
  }

  /** `x` times ten to the power `k`, one factor of ten at a time. */
  function Shift(x: real, k: int): real
    decreases if k < 0 then -k else k
  {
    if k == 0 then x else if k > 0 then 10.0 * Shift(x, k - 1) else Shift(x, k + 1) / 10.0
  }

  /**
   * The length of the longest mantissa `b` starts with: digits, optionally
   * followed by a point and more digits, with at least one digit in all;
   * 0 when `b` starts with none.
   */
  function MantissaLength(b: string): (n: nat)
    ensures n == 0 || LeadingDigits(b) <= n
    ensures n <= |b|
  {
    var i := LeadingDigits(b);
    if i < |b| && b[i] == '.' then
      var f := LeadingDigits(b[i + 1..]);
      if i == 0 && f == 0 then 0 else i + 1 + f
    else i
  }

  /** The value of the mantissa `b` starts with: its integer digits plus the fraction after the point. */
  function MantissaValue(b: string): real
  {
    var i := LeadingDigits(b);
    var m := MantissaLength(b);
    IntegerValue(b[..i]) as real + (if i < m then FractionValue(b[i + 1..m]) else 0.0)
  }

  /**
   * The length of the exponent part `r` starts with: `e` or `E`, an
   * optional sign and at least one digit; 0 when `r` starts with none.
   */
  function ExponentLength(r: string): (n: nat)
    ensures n == 0 || 2 <= n <= |r|
  {
    if r == [] || (r[0] != 'e' && r[0] != 'E') then 0
    else
      var s := if 1 < |r| && (r[1] == '+' || r[1] == '-') then 2 else 1;
      var k := LeadingDigits(r[s..]);
      if k == 0 then 0 else s + k
  }

  /** The power of ten the exponent part at the front of `r` stands for; 0 when there is none. */
  function ExponentValue(r: string): int
  {
    var n := ExponentLength(r);
    if n == 0 then 0
    else if r[1] == '-' then -(IntegerValue(r[2..n]) as int)
    else if r[1] == '+' then IntegerValue(r[2..n])
    else IntegerValue(r[1..n])
  }

  /**
   * The length of the longest unsigned decimal literal `b` starts with:
   * a mantissa and, when one follows it, an exponent part.
   */
  function LiteralLength(b: string): (n: nat)
    ensures n <= |b|
  {
    var m := MantissaLength(b);
    if m == 0 then 0 else m + ExponentLength(b[m..])
  }

  /** The value of the literal at the front of `b`: its mantissa times ten to the power of its exponent. */
  function LiteralValue(b: string): real
  {
    Shift(MantissaValue(b), ExponentValue(b[MantissaLength(b)..]))
  }

  /** An unsigned decimal literal that makes up all of `t`. */
  function UnsignedDecimal(t: string): (r: Option<real>)
    ensures r.Some? <==> t != [] && LiteralLength(t) == |t|
  {
    if t != [] && LiteralLength(t) == |t| then Some(LiteralValue(t)) else None
  }

  function Signed(negative: bool, v: Option<real>): Num
  {
    match v
    case None => NaN
    case Some(x) => Finite(if negative then -x else x)
  }

  /**
   * `Number(s)` for a string: white space around the literal is ignored, a
   * blank string is 0, and anything that is not a whole signed decimal
   * literal is NaN.
   */
  function ToNumber(s: string): Num
  {
    var t := Trim(s);
    if t == "" then Finite(0.0)
    else if t[0] == '-' || t[0] == '+' then Signed(t[0] == '-', UnsignedDecimal(t[1..]))
    else Signed(false, UnsignedDecimal(t))
  }

  /** The longest unsigned decimal literal `b` starts with, if it starts with one. */
  function DecimalPrefix(b: string): (r: Option<real>)
    ensures r.Some? <==> LiteralLength(b) > 0
  {
    if LiteralLength(b) == 0 then None else Some(LiteralValue(b))
  }

  /**
   * `parseFloat(s)`: leading white space is skipped, then the longest signed
   * decimal literal at the front is read and the rest ignored; NaN if there
   * is none (so a blank string is NaN).
   */
  function ParseFloat(s: string): Num
  {
    var t := TrimStart(s);
    if t != [] && (t[0] == '-' || t[0] == '+') then Signed(t[0] == '-', DecimalPrefix(t[1..]))
    else Signed(false, DecimalPrefix(t))
  }

  /** `Math.round(x)` on a finite value: the nearest integer, halves rounded up. */
  function RoundHalfUp(x: real): (r: int)
    ensures r as real - 0.5 <= x < r as real + 0.5
  {
    (x + 0.5).Floor
  }

  /** A blank or all-white-space string converts to zero. */
  lemma BlankIsZero(s: string)
    requires forall i :: 0 <= i < |s| ==> IsJsSpace(s[i])
    ensures ToNumber(s) == Finite(0.0)
  {
    TrimStartOfBlank(s);
  }

  lemma {:induction false} TrimStartOfBlank(s: string)
    requires forall i :: 0 <= i < |s| ==> IsJsSpace(s[i])
    ensures TrimStart(s) == []
  {
    if s != [] {
      TrimStartOfBlank(s[1..]);
    }
  }

  lemma DigitIsNotSpace(c: char)
    requires IsDigit(c)
    ensures !IsJsSpace(c)
  {
  }

  /** A string that starts and ends with a digit has nothing to trim. */
  lemma TrimDigits(s: string)
    requires s != [] && IsDigit(s[0]) && IsDigit(s[|s| - 1])
    ensures TrimStart(s) == s && Trim(s) == s
  {
    DigitIsNotSpace(s[0]);
    DigitIsNotSpace(s[|s| - 1]);
  }

  /** `Number` reads back exactly the integer that `String` wrote. */
  lemma NumberOfNatToString(n: nat)
    ensures ToNumber(NatToString(n)) == Finite(n as real)
  {
    DigitStringValue(NatToString(n));
    IntegerValueOfNatToString(n);
  }

  /** A character that cannot continue a literal that has ended: not a digit, a point or an exponent mark. */
  predicate EndsLiteral(w: string)
  {
    w == [] || (!IsDigit(w[0]) && w[0] != '.' && w[0] != 'e' && w[0] != 'E')
  }

  /** A run of digits is not lengthened by what follows it unless that starts with a digit. */
  lemma {:induction false} LeadingDigitsAppend(a: string, b: string)
    requires LeadingDigits(a) < |a| || b == [] || !IsDigit(b[0])
    ensures LeadingDigits(a + b) == LeadingDigits(a)
  {
    if a == [] {
      assert a + b == b;
    } else if IsDigit(a[0]) {
      assert (a + b)[1..] == a[1..] + b;
      LeadingDigitsAppend(a[1..], b);
    }
  }

  /**
   * A mantissa that stops inside `t`, or that takes all of `t` when what
   * follows cannot continue it, is the same mantissa in `t + w`.
   */
  lemma {:induction false} MantissaLengthAppend(t: string, w: string)
    requires MantissaLength(t) > 0
    requires MantissaLength(t) < |t| || EndsLiteral(w)
    ensures LeadingDigits(t + w) == LeadingDigits(t)
    ensures MantissaLength(t + w) == MantissaLength(t)
  {
    var b := t + w;
    var i := LeadingDigits(t);
    var m := MantissaLength(t);
    assert i < |t| || EndsLiteral(w);
    LeadingDigitsAppend(t, w);
    if i < |t| && t[i] == '.' {
      var f := LeadingDigits(t[i + 1..]);
      assert m == i + 1 + f;
      assert b[i] == '.';
      assert b[i + 1..] == t[i + 1..] + w;
      assert f < |t[i + 1..]| || EndsLiteral(w);
      LeadingDigitsAppend(t[i + 1..], w);
    } else if i < |t| {
      assert b[i] == t[i];
    } else if w != [] {
      assert b[i] == w[0];
    }
  }

  /** Where the mantissa is the same, so is its value. */
  lemma {:induction false} MantissaValueAppend(t: string, w: string)
    requires LeadingDigits(t + w) == LeadingDigits(t)
    requires MantissaLength(t + w) == MantissaLength(t)
    ensures MantissaValue(t + w) == MantissaValue(t)
  {
    var b := t + w;
    var i := LeadingDigits(t);
    var m := MantissaLength(t);
    assert b[..i] == t[..i];
    if i < m {
      assert b[i + 1..m] == t[i + 1..m];
    }
  }

  /** An exponent part that takes all of `r` is the same exponent part when a non-digit follows. */
  lemma {:induction false} ExponentAppend(r: string, w: string)
    requires 0 < ExponentLength(r) == |r|
    requires w == [] || !IsDigit(w[0])
    ensures ExponentLength(r + w) == |r|
    ensures ExponentValue(r + w) == ExponentValue(r)
  {
    var b := r + w;
    var s := if r[1] == '+' || r[1] == '-' then 2 else 1;
    assert b[0] == r[0] && b[1] == r[1];
    assert b[s..] == r[s..] + w;
    LeadingDigitsAppend(r[s..], w);
    assert ExponentLength(b) == |r|;
    assert b[1..|r|] == r[1..|r|];
    assert b[2..|r|] == r[2..|r|];
  }

  /** A whole literal followed by something that cannot continue it keeps its length and value. */
  lemma {:induction false} LiteralAppend(t: string, w: string)
    requires 0 < LiteralLength(t) == |t|
    requires EndsLiteral(w)
    ensures LiteralLength(t + w) == |t|
    ensures LiteralValue(t + w) == LiteralValue(t)
  {
    var b := t + w;
    var m := MantissaLength(t);
    MantissaLengthAppend(t, w);
    MantissaValueAppend(t, w);
    if m == |t| {
      assert b[m..] == w;
      assert ExponentLength(w) == 0 && ExponentValue(w) == 0;
      assert t[m..] == [];
      assert ExponentValue(t[m..]) == 0;
    } else {
      var r := t[m..];
      assert m + ExponentLength(r) == |t|;
      assert b[m..] == r + w;
      ExponentAppend(r, w);
    }
  }

  /** A whole literal followed by something that cannot continue it is read, as a prefix, to its end. */
  lemma DecimalPrefixOfLiteral(t: string, w: string)
    requires UnsignedDecimal(t).Some?
    requires EndsLiteral(w)
    ensures DecimalPrefix(t + w) == UnsignedDecimal(t)
  {
    LiteralAppend(t, w);
  }

  lemma SpaceEndsLiteral(c: char)
    requires IsJsSpace(c)
    ensures EndsLiteral([c])
  {
  }

  /**
   * On every string that `Number` reads as a finite value other than a blank
   * string's zero, `parseFloat` reads the same value.
   */
  lemma {:induction false} ParseFloatAgreesWithNumber(s: string)
    requires Trim(s) != "" && ToNumber(s).Finite?
    ensures ParseFloat(s) == ToNumber(s)
  {
    var u := TrimStart(s);
    var t := Trim(s);
    var w := TrailingSpace(s);
    if t[0] == '-' || t[0] == '+' {
      assert u[0] == t[0] && u[1..] == t[1..] + w by { DropSign(t, w); }
      DecimalPrefixOfLiteral(t[1..], w);
    } else {
      DecimalPrefixOfLiteral(t, w);
    }
  }

  /** What `Trim` removes from the end of `TrimStart(s)`; it cannot continue a literal. */
  lemma {:induction false} TrailingSpace(s: string) returns (w: string)
    ensures TrimStart(s) == Trim(s) + w
    ensures EndsLiteral(w)
  {
    var u := TrimStart(s);
    var t := Trim(s);
    w := u[|t|..];
    assert u == t + w;
    if w != [] {
      assert w[0] == u[|t|];
      SpaceEndsLiteral(w[0]);
    }
  }

  lemma {:induction false} DropSign(t: string, w: string)
    requires t != []
    ensures (t + w)[0] == t[0] && (t + w)[1..] == t[1..] + w
  {
  }

  /** `Number` and `parseFloat` both read a string of digits as its integer value. */
  lemma {:induction false} DigitStringValue(s: string)
    requires s != [] && AllDigits(s)
    ensures ToNumber(s) == Finite(IntegerValue(s) as real)
    ensures ParseFloat(s) == Finite(IntegerValue(s) as real)
  {
    TrimDigits(s);
    assert LeadingDigits(s) == |s|;
    assert MantissaLength(s) == |s|;
    assert s[..|s|] == s && s[|s|..] == [];
    assert UnsignedDecimal(s) == Some(IntegerValue(s) as real);
    ParseFloatAgreesWithNumber(s);
  }

  lemma AllDigitsLeading(d: string)
    requires AllDigits(d)
    ensures LeadingDigits(d) == |d|
  {
  }

  /** The digits `d` followed by an exponent mark: the mantissa is `d` and the exponent starts right after it. */
  lemma {:induction false} MantissaBeforeExponent(d: string, r: string)
    requires d != [] && AllDigits(d)
    requires r != [] && (r[0] == 'e' || r[0] == 'E')
    ensures MantissaLength(d + r) == |d|
    ensures MantissaValue(d + r) == IntegerValue(d) as real
    ensures (d + r)[|d|..] == r
  {
    var t := d + r;
    AllDigitsLeading(d);
    LeadingDigitsAppend(d, r);
    assert t[|d|] == r[0];
    assert t[..|d|] == d;
  }

  /** An exponent part made of a mark, an optional sign and the digits `e`. */
  lemma {:induction false} WholeExponent(mark: char, sign: string, e: string)
    requires mark == 'e' || mark == 'E'
    requires sign == "" || sign == "+" || sign == "-"
    requires e != [] && AllDigits(e)
    ensures ExponentLength([mark] + sign + e) == 1 + |sign| + |e|
    ensures ExponentValue([mark] + sign + e) == if sign == "-" then -(IntegerValue(e) as int) else IntegerValue(e)
  {
    var r := [mark] + sign + e;
    AllDigitsLeading(e);
    assert r[1 + |sign|..] == e;
    assert r[1 + |sign|..|r|] == e;
  }

  /** Digits, an exponent mark, an optional sign and more digits make up one whole literal. */
  lemma {:induction false} ExponentLiteral(d: string, mark: char, sign: string, e: string)
    requires d != [] && AllDigits(d)
    requires mark == 'e' || mark == 'E'
    requires sign == "" || sign == "+" || sign == "-"
    requires e != [] && AllDigits(e)
    ensures var k := if sign == "-" then -(IntegerValue(e) as int) else IntegerValue(e);
      UnsignedDecimal(d + [mark] + sign + e) == Some(Shift(IntegerValue(d) as real, k))
  {
    var r := [mark] + sign + e;
    var t := d + r;
    assert t == d + [mark] + sign + e;
    MantissaBeforeExponent(d, r);
    WholeExponent(mark, sign, e);
  }

  /**
   * Digits, an exponent mark, an optional sign and more digits: `Number`
   * and `parseFloat` both read the first digits times ten to the power
   * the second ones give, negated after a minus sign.
   */
  lemma {:induction false} DigitsWithExponent(d: string, mark: char, sign: string, e: string)
    requires d != [] && AllDigits(d)
    requires mark == 'e' || mark == 'E'
    requires sign == "" || sign == "+" || sign == "-"
    requires e != [] && AllDigits(e)
    ensures var k := if sign == "-" then -(IntegerValue(e) as int) else IntegerValue(e);
      ToNumber(d + [mark] + sign + e) == Finite(Shift(IntegerValue(d) as real, k)) &&
      ParseFloat(d + [mark] + sign + e) == Finite(Shift(IntegerValue(d) as real, k))
  {
    var t := d + [mark] + sign + e;
    ExponentLiteral(d, mark, sign, e);
    assert t[0] == d[0] && t[|t| - 1] == e[|e| - 1];
    TrimDigits(t);
    ParseFloatAgreesWithNumber(t);
  }

  /**
   * Digits followed by an exponent mark with no digits after it: `Number`
   * rejects the string, while `parseFloat` stops before the mark and reads
   * the digits.
   */
  lemma {:induction false} IncompleteExponent(d: string, mark: char)
    requires d != [] && AllDigits(d)
    requires mark == 'e' || mark == 'E'
    ensures ToNumber(d + [mark]) == NaN
    ensures ParseFloat(d + [mark]) == Finite(IntegerValue(d) as real)
  {
    var t := d + [mark];
    MantissaBeforeExponent(d, [mark]);
    assert ExponentLength([mark]) == 0;
    assert LiteralLength(t) == |d|;
    assert IsDigit(t[0]) && !IsJsSpace(t[0]) && !IsJsSpace(t[|t| - 1]);
    assert TrimStart(t) == t && Trim(t) == t;
    assert ExponentValue([mark]) == 0;
  }

  /** "2e2" is 200 to both conversions. */
  lemma ExponentExample(a: string)
    requires a == "2e2"
    ensures ToNumber(a) == Finite(200.0) && ParseFloat(a) == Finite(200.0)
  {
    assert a == "2" + ['e'] + "" + "2";
    DigitsWithExponent("2", 'e', "", "2");
    assert IntegerValue("2") == 2;
    assert Shift(2.0, 2) == 200.0;
  }

  /** "5e-1" is 0.5 to both conversions. */
  lemma NegativeExponentExample(b: string)
    requires b == "5e-1"
    ensures ToNumber(b) == Finite(0.5) && ParseFloat(b) == Finite(0.5)
  {
    assert b == "5" + ['e'] + "-" + "1";
    DigitsWithExponent("5", 'e', "-", "1");
    assert IntegerValue("5") == 5 && IntegerValue("1") == 1;
    assert Shift(5.0, -1) == 0.5;
  }

  /** "1e" is NaN to `Number` but 1 to `parseFloat`. */
  lemma IncompleteExponentExample(c: string)
    requires c == "1e"
    ensures ToNumber(c) == NaN && ParseFloat(c) == Finite(1.0)
  {
    assert c == "1" + ['e'];
    IncompleteExponent("1", 'e');
    assert IntegerValue("1") == 1;
  }
}
