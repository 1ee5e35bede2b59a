/** The reading of the content-length header as JavaScript's `parseInt` does
    it on the headers that reach the route: an optional sign followed by the
    longest run of decimal digits; no digits at all gives no number (NaN).
    `Render` is the decimal rendering a client writes into the header, and
    `ParseRender` proves that the parser reads it back. */
module Decimal {

  import opened Wrappers

  predicate IsDigit(c: char) {
    '0' <= c <= '9'
  }

  predicate AllDigits(s: string) {
    forall i :: 0 <= i < |s| ==> IsDigit(s[i])
  }

  function DigitValue(c: char): (v: nat)
    requires IsDigit(c)
    ensures v < 10
  {
    c as int - '0' as int
  }

  function DigitChar(v: nat): (c: char)
    requires v < 10
    ensures IsDigit(c) && DigitValue(c) == v
  {
    ('0' as int + v) as char
  }

  /** The longest prefix of `s` made of decimal digits. */
  function LeadingDigits(s: string): (d: string)
    ensures d <= s && AllDigits(d)
    ensures |d| < |s| ==> !IsDigit(s[|d|])
  {
    if s == [] || !IsDigit(s[0]) then [] else [s[0]] + LeadingDigits(s[1..])
  }

  /** The value of a string of digits, most significant digit first. */
  function DigitsValue(d: string): nat
    requires AllDigits(d)
  {
    if d == [] then 0 else DigitsValue(d[..|d| - 1]) * 10 + DigitValue(d[|d| - 1])
  }

  /** `parseInt(s)`: `None` stands for NaN. */
  function ParseInt(s: string): (r: Option<int>)
    ensures r.None? <==> LeadingDigits(Unsigned(s)) == []
    ensures r.Some? && s != [] && s[0] == '-' ==> r.value <= 0
    ensures r.Some? && (s == [] || s[0] != '-') ==> r.value >= 0
  {
    var digits := LeadingDigits(Unsigned(s));
    var magnitude: int := if digits == [] then 0 else DigitsValue(digits);
    if digits == [] then None
    else if s != [] && s[0] == '-' then Some(-magnitude)
    else Some(magnitude)
  }

  /** `s` without its leading sign character, if it has one. */
  function Unsigned(s: string): string {
    if s != [] && (s[0] == '-' || s[0] == '+') then s[1..] else s
  }

  /** The decimal rendering of `n`, without leading zeros. */
  function Render(n: nat): (s: string)
    ensures s != [] && AllDigits(s)
    ensures n >= 10 ==> s[0] != '0'
  {
    if n < 10 then [DigitChar(n)] else Render(n / 10) + [DigitChar(n % 10)]
  }

  lemma {:induction false} LeadingDigitsOfDigits(d: string, rest: string)
    requires AllDigits(d)
    requires rest == [] || !IsDigit(rest[0])
    ensures LeadingDigits(d + rest) == d
  {
    if d != [] {
      assert (d + rest)[1..] == d[1..] + rest;
      LeadingDigitsOfDigits(d[1..], rest);
    }
  }

  lemma {:induction false} RenderValue(n: nat)
    ensures DigitsValue(Render(n)) == n
  {
    if n >= 10 {
      var s := Render(n);
      assert s[..|s| - 1] == Render(n / 10);
      RenderValue(n / 10);
    }
  }

  /** A run of zeros, as may pad a number. */
  predicate AllZeros(z: string) {
    forall i :: 0 <= i < |z| ==> z[i] == '0'
  }

  lemma {:induction false} ZerosValue(z: string)
    requires AllZeros(z)
    ensures AllDigits(z) && DigitsValue(z) == 0
  {
    if z != [] {
      ZerosValue(z[..|z| - 1]);
    }
  }

  /** Leading zeros do not change the value of a string of digits. */
  lemma {:induction false} PaddedValue(z: string, d: string)
    requires AllZeros(z) && AllDigits(d)
    ensures AllDigits(z + d) && DigitsValue(z + d) == DigitsValue(d)
  {
    ZerosValue(z);
    if d == [] {
      assert z + d == z;
    } else {
      var s := z + d;
      assert s[..|s| - 1] == z + d[..|d| - 1];
      assert s[|s| - 1] == d[|d| - 1];
      PaddedValue(z, d[..|d| - 1]);
    }
  }

  /** The parser reads back every rendered number, with an optional sign,
      leading zeros and a non-digit suffix (as in "+05", "-12x", "5.5" or
      "1e9", each read as its signed integer part). */
  lemma ParseRender(sign: string, zeros: string, n: nat, rest: string)
    requires sign == "" || sign == "+" || sign == "-"
    requires AllZeros(zeros)
    requires rest == [] || !IsDigit(rest[0])
    ensures ParseInt(sign + zeros + Render(n) + rest) == Some(if sign == "-" then -(n as int) else n as int)
  {
    var digits := zeros + Render(n);
    assert ParseInt(sign + (digits + rest)) == Some(if sign == "-" then -(n as int) else n as int) by {
      PaddedValue(zeros, Render(n));
      RenderValue(n);
      ParseSigned(sign, digits, rest);
    }
    Regroup(sign, zeros, Render(n), rest);
  }

  /** A sign, a non-empty run of digits and a suffix that does not start
      with a digit: the value of the digits, negated after a minus. */
  lemma ParseSigned(sign: string, digits: string, rest: string)
    requires sign == "" || sign == "+" || sign == "-"
    requires digits != [] && AllDigits(digits)
    requires rest == [] || !IsDigit(rest[0])
    ensures ParseInt(sign + (digits + rest)) ==
      Some(if sign == "-" then -(DigitsValue(digits) as int) else DigitsValue(digits) as int)
  {
    assert (digits + rest)[0] == digits[0];
    UnsignedOf(sign, digits + rest);
    LeadingDigitsOfDigits(digits, rest);
    ParseLeading(sign + (digits + rest), digits);
  }

  /** `ParseInt` once the digits after the sign are known. */
  lemma ParseLeading(s: string, digits: string)
    requires digits != [] && LeadingDigits(Unsigned(s)) == digits
    ensures ParseInt(s) == Some(if s[0] == '-' then -(DigitsValue(digits) as int) else DigitsValue(digits) as int)
  {
  }

  lemma Regroup(a: string, b: string, c: string, d: string)
    ensures a + b + c + d == a + ((b + c) + d)
  {
  }

  /** A sign character in front of a string starting with a digit is what
      `Unsigned` drops. */
  lemma UnsignedOf(sign: string, t: string)
    requires sign == "" || sign == "+" || sign == "-"
    requires t != [] && IsDigit(t[0])
    ensures Unsigned(sign + t) == t
    ensures (sign + t)[0] == '-' <==> sign == "-"
  {
    if sign != "" {
      assert (sign + t)[1..] == t;
    }
  }
}
