/** The numeric primitives the widget relies on: `Math.round`, a decimal subset of
    `parseFloat`, and the text of an integer-valued number. */
module Numbers {
  import opened Common

  /** `Math.round`: the nearest integer, a half rounded towards positive infinity. */
  function Round(r: real): (n: int)
    ensures r - 0.5 < n as real <= r + 0.5
  {
    (r + 0.5).Floor
  }

  /** Round picks the only integer in the half-open window (r - 1/2, r + 1/2]. */
  lemma RoundUnique(r: real, n: int)
    requires r - 0.5 < n as real <= r + 0.5
    ensures Round(r) == n
  {
  }

  lemma RoundMonotone(a: real, b: real)
    requires a <= b
    ensures Round(a) <= Round(b)
  {
    assert Round(a) as real <= a + 0.5 <= b + 0.5 < Round(b) as real + 1.0;
  }

  /** Rounding commutes with shifts by whole numbers. */
  lemma RoundShift(r: real, k: int)
    ensures Round(r + k as real) == Round(r) + k
  {
    RoundUnique(r + k as real, Round(r) + k);
  }

  predicate IsDigit(c: char) {
    '0' <= c <= '9'
  }

  predicate AllDigits(s: string) {
    forall i :: 0 <= i < |s| ==> IsDigit(s[i])
  }

  function DigitValue(c: char): (d: nat)
    requires IsDigit(c)
    ensures d < 10
  {
    c as int - '0' as int
  }

  function DigitChar(d: nat): (c: char)
    requires d < 10
    ensures IsDigit(c) && DigitValue(c) == d
  {
    ('0' as int + d) as char
  }

  /** The length of the longest all-digit prefix of `s`. */
  function DigitRun(s: string): (n: nat)
    ensures n <= |s| && AllDigits(s[..n])
    ensures n < |s| ==> !IsDigit(s[n])
  {
    if |s| > 0 && IsDigit(s[0]) then
      var n := 1 + DigitRun(s[1..]);
      assert s[..n] == [s[0]] + s[1..][..n - 1];
      n
    else 0
  }

  /** The number a string of decimal digits denotes, most significant digit first. */
  function DigitsValue(ds: string): nat
    requires AllDigits(ds)
  {
    if |ds| == 0 then 0 else DigitsValue(ds[..|ds| - 1]) * 10 + DigitValue(ds[|ds| - 1])
  }

  predicate IsSpace(c: char) {
    c == ' ' || c == '\t' || c == '\n' || c == '\r'
  }

  function SkipSpaces(s: string): (t: string)
    ensures |t| <= |s| && t == s[|s| - |t|..]
    ensures |t| > 0 ==> !IsSpace(t[0])
  {
    if |s| > 0 && IsSpace(s[0]) then SkipSpaces(s[1..]) else s
  }

  /** `parseFloat` on the decimal grammar: leading blanks, an optional sign, digits with an
      optional fraction (`12`, `12.`, `12.5`, `.5`), and whatever follows ignored. `None`
      stands for `NaN`, the result when no digit starts the text. */
  function ParseFloat(s: string): (r: Option<real>)
  {
    var t := SkipSpaces(s);
    var signed := |t| > 0 && (t[0] == '-' || t[0] == '+');
    var magnitude := ParseUnsigned(if signed then t[1..] else t);
    if signed && t[0] == '-' then Negate(magnitude) else magnitude
  }

  function Negate(v: Option<real>): Option<real> {
    match v
    case Some(x) => Some(-x)
    case None => None
  }

  /** The digits after a leading decimal point, if `s` starts with one. */
  function FractionDigits(s: string): (ds: string)
    ensures AllDigits(ds)
  {
    if |s| > 0 && s[0] == '.' then s[1..][..DigitRun(s[1..])] else ""
  }

  /** The value of the digits written after a decimal point. */
  function FractionValue(ds: string): (f: real)
    requires AllDigits(ds)
    ensures 0.0 <= f < 1.0
  {
    if |ds| == 0 then 0.0 else (DigitValue(ds[0]) as real + FractionValue(ds[1..])) / 10.0
  }

  /** The unsigned part of ParseFloat: a whole part, then an optional fraction. */
  function ParseUnsigned(u: string): (r: Option<real>)
  {
    var n := DigitRun(u);
    var fraction := FractionDigits(u[n..]);
    if n == 0 && |fraction| == 0 then None
    else Some(DigitsValue(u[..n]) as real + FractionValue(fraction))
  }

  lemma ParseUnsignedNeedsDigit(u: string)
    requires ParseUnsigned(u).Some?
    ensures exists i :: 0 <= i < |u| && IsDigit(u[i])
  {
    var n := DigitRun(u);
    if n > 0 {
      assert u[..n][0] == u[0];
    } else {
      assert u[n..] == u;
      assert FractionDigits(u)[0] == u[1];
    }
  }

  /** A number is read only from text that holds a digit: everything else is NaN. */
  lemma ParseFloatNeedsDigit(s: string)
    requires ParseFloat(s).Some?
    ensures exists i :: 0 <= i < |s| && IsDigit(s[i])
  {
    var t := SkipSpaces(s);
    var u := if |t| > 0 && (t[0] == '-' || t[0] == '+') then t[1..] else t;
    assert ParseUnsigned(u).Some?;
    ParseUnsignedNeedsDigit(u);
    assert u == s[|s| - |u|..] by {
      if u != t {
        assert u == t[1..] && t == s[|s| - |t|..];
      }
    }
    DigitInSuffix(s, u);
  }

  lemma DigitInSuffix(s: string, u: string)
    requires |u| <= |s| && u == s[|s| - |u|..]
    requires exists i :: 0 <= i < |u| && IsDigit(u[i])
    ensures exists i :: 0 <= i < |s| && IsDigit(s[i])
  {
    var i :| 0 <= i < |u| && IsDigit(u[i]);
    assert u[i] == s[|s| - |u| + i];
  }

  /** The decimal text of a natural number, as JavaScript writes it below 1e21 (from there
      on JavaScript switches to exponent form, such as `1e+21`). */
  function NatText(n: nat): (s: string)
    ensures |s| > 0 && AllDigits(s)
  {
    if n < 10 then [DigitChar(n)] else NatText(n / 10) + [DigitChar(n % 10)]
  }

  /** The text of an integer-valued number: a minus sign, then its digits. */
  function IntText(i: int): (s: string)
    ensures |s| > 0 && ' ' !in s
  {
    if i < 0 then "-" + NatText(-i) else NatText(i)
  }

  lemma {:induction false} NatTextValue(n: nat)
    ensures DigitsValue(NatText(n)) == n
  {
    if n >= 10 {
      NatTextValue(n / 10);
      var s := NatText(n);
      assert s[..|s| - 1] == NatText(n / 10);
    }
  }

  lemma {:induction false} DigitRunOfDigits(ds: string, rest: string)
    requires AllDigits(ds)
    requires |rest| > 0 ==> !IsDigit(rest[0])
    ensures DigitRun(ds + rest) == |ds|
  {
    if |ds| > 0 {
      assert (ds + rest)[1..] == ds[1..] + rest;
      DigitRunOfDigits(ds[1..], rest);
    }
  }

  /** Text that starts with a digit is read by ParseUnsigned alone. */
  lemma ParseFloatFromDigit(u: string)
    requires |u| > 0 && IsDigit(u[0])
    ensures ParseFloat(u) == ParseUnsigned(u)
  {
    assert SkipSpaces(u) == u;
  }

  /** A minus sign before a digit negates what follows. */
  lemma ParseFloatMinus(s: string, digits: string, rest: string, n: nat)
    requires s == "-" + digits + rest && |digits| > 0 && IsDigit(digits[0])
    requires ParseUnsigned(digits + rest) == Some(n as real)
    ensures ParseFloat(s) == Some(-(n as real))
  {
    assert SkipSpaces(s) == s;
    assert s[1..] == digits + rest;
  }

  lemma NatTextUnsigned(n: nat, rest: string)
    requires |rest| > 0 ==> !IsDigit(rest[0]) && rest[0] != '.'
    ensures ParseUnsigned(NatText(n) + rest) == Some(n as real)
  {
    var s := NatText(n) + rest;
    DigitRunOfDigits(NatText(n), rest);
    assert s[..|NatText(n)|] == NatText(n);
    assert s[|NatText(n)|..] == rest;
    NatTextValue(n);
  }

  /** The text of an integer parses back to it, whatever non-numeric text follows
      (`parseFloat("10px") == 10`). */
  lemma IntTextParses(i: int, rest: string)
    requires |rest| > 0 ==> !IsDigit(rest[0]) && rest[0] != '.'
    ensures ParseFloat(IntText(i) + rest) == Some(i as real)
  {
    if i < 0 {
      NegativeTextParses(i, rest);
    } else {
      NatTextParses(i, rest);
    }
  }

  lemma NatTextParses(n: nat, rest: string)
    requires |rest| > 0 ==> !IsDigit(rest[0]) && rest[0] != '.'
    ensures ParseFloat(NatText(n) + rest) == Some(n as real)
  {
    var u := NatText(n) + rest;
    assert u[0] == NatText(n)[0];
    NatTextUnsigned(n, rest);
    ParseFloatFromDigit(u);
  }

  lemma NegativeTextParses(i: int, rest: string)
    requires |rest| > 0 ==> !IsDigit(rest[0]) && rest[0] != '.'
    requires i < 0
    ensures ParseFloat(IntText(i) + rest) == Some(i as real)
  {
    var n: nat := -i;
    var digits := NatText(n);
    assert IsDigit(digits[0]);
    assert IntText(i) == "-" + digits;
    NatTextUnsigned(n, rest);
    ParseFloatMinus(IntText(i) + rest, digits, rest, n);
  }

  /** Text with no digit before any other character is NaN. */
  lemma ParseFloatWithoutDigits(s: string)
    requires |s| > 0 && !IsDigit(s[0]) && !IsSpace(s[0]) && s[0] !in "+-."
    ensures ParseFloat(s) == None
  {
  }
}
