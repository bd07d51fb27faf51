/**
 * The number conversions the application relies on, written out exactly:
 * JavaScript's `parseFloat` (used by the form validators and the vital-sign
 * classifiers), and Python's `int(...)` and `float(...)` (used by the
 * backend when it maps the submitted strings to rows). Values are exact:
 * `real` for floating-point results, `int` for integers.
 */
module Numeros {
  import opened Wrappers
  import opened Text

  predicate AllDigits(s: string) {
    forall i :: 0 <= i < |s| ==> IsDigit(s[i])
  }

  function DigitVal(c: char): (d: nat)
    requires IsDigit(c)
    ensures d < 10
  {
    c as int - '0' as int
  }

  function DigitChar(d: nat): (c: char)
    requires d < 10
    ensures IsDigit(c) && DigitVal(c) == d
  {
    ('0' as int + d) as char
  }

  /** The value of a string of decimal digits, most significant first. */
  function DigitsValue(s: string): nat
    requires AllDigits(s)
  {
    if s == [] then 0 else 10 * DigitsValue(s[..|s| - 1]) + DigitVal(s[|s| - 1])
  }

  function Pow10(k: nat): (p: nat)
    ensures p >= 1
  {
    if k == 0 then 1 else 10 * Pow10(k - 1)
  }

  /** Python's `str(n)` for a natural number: decimal digits, no leading zero. */
  function NatToString(n: nat): (s: string)
    ensures |s| >= 1 && AllDigits(s)
    ensures (s[0] == '0') == (n == 0)
  {
    if n < 10 then [DigitChar(n)] else NatToString(n / 10) + [DigitChar(n % 10)]
  }

  /** Python's `str(n)` for any integer. */
  function IntToString(n: int): (s: string)
    ensures |s| >= 1
    ensures (n < 0) == (s[0] == '-')
  {
    if n < 0 then "-" + NatToString(-n) else NatToString(n)
  }

  /** Reading back the digits `NatToString` writes gives the number again. */
  lemma {:induction false} NatToStringValue(n: nat)
    ensures DigitsValue(NatToString(n)) == n
  {
    if n >= 10 {
      var s := NatToString(n);
      assert s[..|s| - 1] == NatToString(n / 10);
      NatToStringValue(n / 10);
    }
  }

  /** The longest prefix of `s` made of ASCII digits. */
  function LeadingDigits(s: string): (d: string)
    ensures AllDigits(d) && d <= s
    ensures |d| == |s| || !IsDigit(s[|d|])
  {
    if s != [] && IsDigit(s[0]) then [s[0]] + LeadingDigits(s[1..]) else []
  }

  lemma {:induction false} LeadingDigitsAll(s: string)
    requires AllDigits(s)
    ensures LeadingDigits(s) == s
  {
    if s != [] {
      LeadingDigitsAll(s[1..]);
    }
  }

  lemma AllDigitsConcat(a: string, b: string)
    requires AllDigits(a) && AllDigits(b)
    ensures AllDigits(a + b)
  {
    forall i | 0 <= i < |a + b| ensures IsDigit((a + b)[i]) {
      if i >= |a| {
        assert (a + b)[i] == b[i - |a|];
      }
    }
  }

  /** The sign in front of a number: a `-` makes it negative, a `+` is skipped. */
  function SignOf(t: string): (neg: bool) {
    t != [] && t[0] == '-'
  }

  function Unsigned(t: string): (u: string)
    ensures |u| <= |t|
  {
    if t != [] && (t[0] == '-' || t[0] == '+') then t[1..] else t
  }

  function Signed(neg: bool, x: real): real {
    if neg then -x else x
  }

  /** `ip.fp` as an exact decimal. */
  function DecimalValue(ip: string, fp: string): (x: real)
    requires AllDigits(ip) && AllDigits(fp)
    ensures x >= 0.0
  {
    DigitsValue(ip) as real + DigitsValue(fp) as real / Pow10(|fp|) as real
  }

  /** The digits after a leading '.', or nothing when `rest` does not start with '.'. */
  function FractionDigits(rest: string): (fp: string)
    ensures AllDigits(fp)
  {
    if rest != [] && rest[0] == '.' then LeadingDigits(rest[1..]) else []
  }

  /**
   * JavaScript's `parseFloat(s)`: leading white space is skipped, then an
   * optional sign and the longest prefix of the form `digits[.digits]` or
   * `.digits` is read and the rest ignored; when no digit can be read the
   * result is NaN, modelled as `None`.
   */
  function ParseJsFloat(s: string): (r: Option<real>)
  {
    ParseJsNumber(TrimLeft(s, IsJsSpace))
  }

  /** `parseFloat` once the leading white space is skipped. */
  function ParseJsNumber(t: string): (r: Option<real>)
  {
    var u := Unsigned(t);
    var ip := LeadingDigits(u);
    var fp := FractionDigits(u[|ip|..]);
    if |ip| + |fp| == 0 then None
    else Some(Signed(SignOf(t), DecimalValue(ip, fp)))
  }

  /** Strings that JavaScript reads as NaN: a parse needs a digit before any other text. */
  lemma ParseJsFloatNaN(s: string)
    requires forall i :: 0 <= i < |s| ==> !IsDigit(s[i])
    ensures ParseJsFloat(s) == None
  {
    var t := TrimLeft(s, IsJsSpace);
    TrimLeftSuffix(s, IsJsSpace);
    assert forall i :: 0 <= i < |t| ==> t[i] == s[|s| - |t| + i];
    ParseJsNumberNaN(t);
  }

  lemma ParseJsNumberNaN(t: string)
    requires forall i :: 0 <= i < |t| ==> !IsDigit(t[i])
    ensures ParseJsNumber(t) == None
  {
    var u := Unsigned(t);
    if u != [] {
      assert u[0] == t[|t| - |u|];
      assert LeadingDigits(u) == [];
      if u[0] == '.' && |u| > 1 {
        assert u[1..][0] == t[|t| - |u| + 1];
        assert LeadingDigits(u[1..]) == [];
      }
    }
  }

  /** A plain digit string is read as its decimal value. */
  lemma ParseJsFloatDigits(d: string)
    requires |d| >= 1 && AllDigits(d)
    ensures ParseJsFloat(d) == Some(DigitsValue(d) as real)
  {
    assert d + [] == d;
    ParseJsFloatIgnoresTail(d, []);
  }

  /** Whatever follows the number is ignored: "120abc" reads as 120. */
  lemma ParseJsFloatIgnoresTail(d: string, tail: string)
    requires |d| >= 1 && AllDigits(d)
    requires tail == [] || (!IsDigit(tail[0]) && tail[0] != '.')
    ensures ParseJsFloat(d + tail) == Some(DigitsValue(d) as real)
  {
    var s := d + tail;
    assert s[0] == d[0];
    assert !IsJsSpace(s[0]);
    TrimLeftNone(s, IsJsSpace);
    ParseJsNumberIgnoresTail(d, tail);
  }

  lemma ParseJsNumberIgnoresTail(d: string, tail: string)
    requires |d| >= 1 && AllDigits(d)
    requires tail == [] || (!IsDigit(tail[0]) && tail[0] != '.')
    ensures ParseJsNumber(d + tail) == Some(DigitsValue(d) as real)
  {
    var s := d + tail;
    assert s[0] == d[0] && IsDigit(d[0]);
    assert Unsigned(s) == s && !SignOf(s);
    LeadingDigitsPrefix(d, tail);
    assert s[|d|..] == tail;
    assert FractionDigits(tail) == [];
    DecimalValueWhole(d);
  }

  lemma DecimalValueWhole(d: string)
    requires AllDigits(d)
    ensures DecimalValue(d, []) == DigitsValue(d) as real
  {
    assert DigitsValue([]) == 0 && Pow10(0) == 1;
  }

  lemma {:induction false} LeadingDigitsPrefix(d: string, tail: string)
    requires AllDigits(d)
    requires tail == [] || !IsDigit(tail[0])
    ensures LeadingDigits(d + tail) == d
  {
    if d == [] {
    } else {
      assert (d + tail)[1..] == d[1..] + tail;
      LeadingDigitsPrefix(d[1..], tail);
    }
  }

  /** Python's `int(s)` on the texts this model reads: surrounding white
      space, an optional sign, then one or more ASCII digits; anything else
      is `None`, standing for ValueError. Python also accepts `_` between
      digits and non-ASCII decimal digits; this reading does not. */
  function ParsePyInt(s: string): (r: Option<int>)
    ensures r.Some? ==> |PyStrip(s)| >= 1
  {
    ParsePyInteger(PyStrip(s))
  }

  /** `int` once the surrounding white space is stripped. */
  function ParsePyInteger(t: string): (r: Option<int>)
    ensures r.Some? ==> |t| >= 1
  {
    var u := Unsigned(t);
    if u != [] && AllDigits(u) then
      Some(if SignOf(t) then -(DigitsValue(u) as int) else DigitsValue(u))
    else None
  }

  /** `int(str(n)) == n`. */
  lemma IntToStringRoundTrip(n: int)
    ensures ParsePyInt(IntToString(n)) == Some(n)
  {
    var m: nat := if n < 0 then -n else n;
    var d := NatToString(m);
    NatToStringValue(m);
    var s := IntToString(n);
    assert s == if n < 0 then "-" + d else d;
    assert s[|s| - 1] == d[|d| - 1];
    assert !IsPySpace(s[0]) && !IsPySpace(s[|s| - 1]);
    TrimNone(s, IsPySpace);
    ParsePyIntegerDigits(d);
  }

  lemma ParsePyIntegerDigits(d: string)
    requires |d| >= 1 && AllDigits(d)
    ensures ParsePyInteger(d) == Some(DigitsValue(d) as int)
    ensures ParsePyInteger("-" + d) == Some(-(DigitsValue(d) as int))
  {
    assert IsDigit(d[0]);
    assert Unsigned(d) == d;
    assert Unsigned("-" + d) == d;
  }

  /** A string holding a letter is not an integer. */
  lemma ParsePyIntRejectsLetters(s: string, i: nat)
    requires i < |s| && 'a' <= s[i] <= 'z'
    ensures ParsePyInt(s) == None
  {
    TrimKeeps(s, IsPySpace, i);
    var t := PyStrip(s);
    var u := Unsigned(t);
    if t[0] == '-' || t[0] == '+' {
      assert t == [t[0]] + u;
    }
    assert s[i] in u;
    assert !AllDigits(u);
  }

  /**
   * Python's `float(s)` on decimal notation: surrounding white space, an
   * optional sign, then `digits[.digits]`, `digits.` or `.digits` and nothing
   * else; anything else raises ValueError (`None`).
   */
  function ParsePyFloat(s: string): (r: Option<real>)
  {
    ParsePyDecimal(PyStrip(s))
  }

  /** `float` once the surrounding white space is stripped. */
  function ParsePyDecimal(t: string): (r: Option<real>)
  {
    var u := Unsigned(t);
    var ip := LeadingDigits(u);
    var rest := u[|ip|..];
    var fp := FractionDigits(rest);
    var used := |ip| + (if rest != [] && rest[0] == '.' then 1 + |fp| else 0);
    if |ip| + |fp| == 0 || used != |u| then None
    else Some(Signed(SignOf(t), DecimalValue(ip, fp)))
  }

  /** `float(str(n)) == n` for a natural number. */
  lemma NatToStringFloat(n: nat)
    ensures ParsePyFloat(NatToString(n)) == Some(n as real)
  {
    var s := NatToString(n);
    assert IsDigit(s[0]) && IsDigit(s[|s| - 1]);
    assert !IsPySpace(s[0]) && !IsPySpace(s[|s| - 1]);
    TrimNone(s, IsPySpace);
    NatToStringValue(n);
    ParsePyDecimalDigits(s);
  }

  lemma ParsePyDecimalDigits(d: string)
    requires |d| >= 1 && AllDigits(d)
    ensures ParsePyDecimal(d) == Some(DigitsValue(d) as real)
  {
    LeadingDigitsAll(d);
    assert Unsigned(d) == d;
    assert d[|d|..] == [];
    DecimalValueWhole(d);
  }
}
