/**
  Decimal text: Go's `%d` rendering of integers, and the plain-decimal subset of
  strconv.ParseFloat followed by math.Round, computed exactly.
 */
module Decimal {
  import opened Wrappers

  predicate IsDigit(c: char)
  {
    '0' <= c <= '9'
  }

  predicate AllDigits(s: string)
  {
    forall i :: 0 <= i < |s| ==> IsDigit(s[i])
  }

  function DigitValue(c: char): nat
    requires IsDigit(c)
  {
    c as int - '0' as int
  }

  function DigitChar(d: nat): (c: char)
    requires d < 10
    ensures IsDigit(c) && DigitValue(c) == d
  {
    ('0' as int + d) as char
  }

  /** Value of a string of decimal digits, most significant first; the empty string is 0. */
  function DigitsValue(s: string): nat
    requires AllDigits(s)
  {
    if s == [] then 0 else DigitsValue(s[..|s| - 1]) * 10 + DigitValue(s[|s| - 1])
  }

  /** Go's `%d` of a non-negative integer: its decimal digits without leading zeros. */
  function NatToString(n: nat): (s: string)
    ensures |s| >= 1 && AllDigits(s)
    ensures |s| > 1 ==> s[0] != '0'
  {
    if n < 10 then [DigitChar(n)] else NatToString(n / 10) + [DigitChar(n % 10)]
  }

  /** Go's `%d` of an integer: a minus sign before the digits of a negative one. */
  function IntToString(n: int): (s: string)
    ensures |s| >= 1 && (s[0] == '-' <==> n < 0)
    ensures forall k :: 0 < k < |s| ==> IsDigit(s[k])
  {
    if n < 0 then "-" + NatToString(-n) else NatToString(n)
  }

  /** Reading back the digits of n gives n. */
  lemma {:induction false} NatToStringRoundTrip(n: nat)
    ensures DigitsValue(NatToString(n)) == n
  {
    if n >= 10 {
      NatToStringRoundTrip(n / 10);
      var s := NatToString(n);
      assert s[..|s| - 1] == NatToString(n / 10);
    }
  }

  /** A digit string with a non-zero leading digit is worth at least that digit. */
  lemma {:induction false} LeadingDigitBound(s: string)
    requires |s| >= 1 && AllDigits(s)
    ensures DigitsValue(s) >= DigitValue(s[0])
  {
    if |s| > 1 {
      LeadingDigitBound(s[..|s| - 1]);
    }
  }

  /** One more digit on the right multiplies the value by ten and adds the digit. */
  lemma DigitsAppend(s: string, c: char)
    requires AllDigits(s) && IsDigit(c)
    ensures AllDigits(s + [c])
    ensures DigitsValue(s + [c]) == DigitsValue(s) * 10 + DigitValue(c)
  {
    assert (s + [c])[..|s|] == s;
  }

  /** Every digit string without leading zeros is the rendering of its value. */
  lemma {:induction false} DigitsCanonical(s: string)
    requires |s| >= 1 && AllDigits(s) && (|s| > 1 ==> s[0] != '0')
    ensures NatToString(DigitsValue(s)) == s
  {
    if |s| > 1 {
      var p := s[..|s| - 1];
      var last := s[|s| - 1];
      LeadingDigitBound(p);
      DigitsCanonical(p);
      var v := DigitsValue(s);
      assert v == DigitsValue(p) * 10 + DigitValue(last);
      DivTen(DigitsValue(p), DigitValue(last));
      assert DigitChar(DigitValue(last)) == last;
      assert NatToString(v) == NatToString(v / 10) + [DigitChar(v % 10)];
      assert p + [last] == s;
    }
  }

  lemma DivTen(a: nat, d: nat)
    requires d < 10
    ensures (a * 10 + d) / 10 == a && (a * 10 + d) % 10 == d
  {
  }

  function Pow10(k: nat): (p: nat)
    ensures p >= 1
  {
    if k == 0 then 1 else 10 * Pow10(k - 1)
  }

  /** Index of the first c in s, or |s| when there is none. */
  function IndexOf(s: string, c: char): (i: nat)
    ensures i <= |s| && c !in s[..i]
    ensures i < |s| ==> s[i] == c
  {
    if s == [] then 0
    else if s[0] == c then 0
    else
      var j := IndexOf(s[1..], c);
      assert s[..j + 1] == [s[0]] + s[1..][..j];
      j + 1
  }

  /** A finite decimal number: mantissa / 10^scale, negated when negative is set. */
  datatype Dec = Dec(negative: bool, mantissa: nat, scale: nat)
  {
    /** The number times 10^scale, which is an integer. */
    function Scaled(): int
    {
      if negative then -(mantissa as int) else mantissa
    }
  }

  /** The characters strconv.ParseFloat accepts in a plain decimal number. */
  predicate DecimalChar(s: string, k: int)
    requires 0 <= k < |s|
  {
    IsDigit(s[k]) || s[k] == '.' || (k == 0 && (s[k] == '+' || s[k] == '-'))
  }

  /** The number spelled by the digits before and after the point, if they are digits at all. */
  function FromParts(negative: bool, whole: string, frac: string): Option<Dec>
  {
    if AllDigits(whole) && AllDigits(frac) && |whole| + |frac| > 0
    then Some(Dec(negative, DigitsValue(whole + frac), |frac|))
    else None
  }

  /**
    strconv.ParseFloat on texts of the form [+|-] digits [. digits] with at least one
    digit; None stands for its syntax error.
   */
  function ParseDecimal(s: string): Option<Dec>
  {
    if |s| > 0 && (s[0] == '+' || s[0] == '-') then ParseUnsigned(s[0] == '-', s[1..])
    else ParseUnsigned(false, s)
  }

  /** The number after the sign: digits, then optionally a point and more digits. */
  function ParseUnsigned(negative: bool, body: string): Option<Dec>
  {
    var dot := IndexOf(body, '.');
    FromParts(negative, body[..dot], if dot < |body| then body[dot + 1..] else "")
  }

  /** Only a sign, digits and a point can make up a number, and there is a digit. */
  lemma ParseDecimalChars(s: string)
    requires ParseDecimal(s).Some?
    ensures |s| >= 1 && forall k :: 0 <= k < |s| ==> DecimalChar(s, k)
  {
    var off := if |s| > 0 && (s[0] == '+' || s[0] == '-') then 1 else 0;
    var body := s[off..];
    var dot := IndexOf(body, '.');
    var whole := body[..dot];
    var frac := if dot < |body| then body[dot + 1..] else "";
    forall k | 0 <= k < |s| ensures DecimalChar(s, k) {
      if k >= off {
        var b := k - off;
        assert body[b] == s[k];
        if b < dot { assert whole[b] == body[b]; }
        else if b > dot { assert frac[b - dot - 1] == body[b]; }
      }
    }
  }

  /** The point of `whole.frac` is found right after the whole part. */
  lemma IndexOfPoint(whole: string, frac: string)
    requires AllDigits(whole)
    ensures IndexOf(whole + "." + frac, '.') == |whole|
  {
    var body := whole + "." + frac;
    assert body[..|whole|] == whole && body[|whole|] == '.';
    assert forall k :: 0 <= k < |whole| ==> body[k] != '.';
  }

  /** A signed text `whole.frac` of digits parses to the number those digits spell. */
  lemma ParsesFraction(negative: bool, whole: string, frac: string)
    requires AllDigits(whole) && AllDigits(frac) && |whole| + |frac| > 0
    ensures ParseDecimal((if negative then "-" else "") + whole + "." + frac)
         == FromParts(negative, whole, frac)
  {
    var body := whole + "." + frac;
    IndexOfPoint(whole, frac);
    assert body[..|whole|] == whole && body[|whole| + 1..] == frac;
    assert ParseUnsigned(negative, body) == FromParts(negative, whole, frac);
    if negative {
      assert "-" + whole + "." + frac == "-" + body;
      assert ("-" + body)[1..] == body;
    } else {
      assert "" + whole + "." + frac == body;
      assert body[0] != '+' && body[0] != '-' by {
        if |whole| > 0 { assert body[0] == whole[0]; } else { assert body[0] == '.'; }
      }
    }
  }

  function Abs(x: int): nat
  {
    if x < 0 then -x else x
  }

  /**
    Go's math.Round of a decimal: the nearest integer m, a tie going to the m
    farther from zero.
   */
  function RoundHalfAway(d: Dec): (m: int)
    ensures 2 * Abs(d.Scaled() - m * Pow10(d.scale)) <= Pow10(d.scale)
    ensures 2 * Abs(d.Scaled() - m * Pow10(d.scale)) == Pow10(d.scale) ==> Abs(m) * Pow10(d.scale) > Abs(d.Scaled())
  {
    var p := Pow10(d.scale);
    DivMod(d.mantissa, p);
    var q := d.mantissa / p;
    var rem := d.mantissa % p;
    var u := if 2 * rem >= p then q + 1 else q;
    var m := if d.negative then -u else u;
    RoundStep(d.negative, d.mantissa, p, q, rem, u, m);
    m
  }

  lemma DivMod(n: nat, p: nat)
    requires p >= 1
    ensures n == (n / p) * p + n % p && 0 <= n % p < p && n / p >= 0
  {
  }

  /** The rounding step with the division written out: the magnitude rounds, the sign follows. */
  lemma RoundStep(negative: bool, n: nat, p: nat, q: nat, rem: nat, u: nat, m: int)
    requires p >= 1 && n == q * p + rem && rem < p
    requires u == if 2 * rem >= p then q + 1 else q
    requires m == if negative then -(u as int) else u
    ensures var x := if negative then -(n as int) else n;
      2 * Abs(x - m * p) <= p && (2 * Abs(x - m * p) == p ==> Abs(m) * p > Abs(x))
  {
    if 2 * rem >= p {
      assert u * p == q * p + p;
    }
    assert 2 * Abs(n - u * p) <= p;
    if negative {
      assert m * p == -(u * p);
    }
  }

  /** The digits of any integer, with its sign, parse back to it. */
  lemma IntToStringParses(n: int)
    ensures ParseDecimal(IntToString(n)) == Some(Dec(n < 0, Abs(n), 0))
  {
    var digits := NatToString(Abs(n));
    NatToStringRoundTrip(Abs(n));
    assert '.' !in digits;
    if n < 0 {
      assert IntToString(n)[1..] == digits;
    } else {
      assert IsDigit(digits[0]);
    }
    assert digits[..|digits|] + "" == digits;
  }
}
