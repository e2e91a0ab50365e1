/** The C# `int` arguments of the step handlers and their rendering by
    string interpolation (`Int32.ToString()`: decimal digits, a leading `-`
    for negative values, no leading zeros), with a reader that inverts it. */
module Decimal {
  import opened Text

  /** C#'s 32-bit signed `int`. */
  type Int32 = x: int | -0x8000_0000 <= x < 0x8000_0000

  predicate IsDigit(ch: char) {
    '0' <= ch <= '9'
  }

  predicate AllDigits(s: string) {
    forall i :: 0 <= i < |s| ==> IsDigit(s[i])
  }

  function DigitChar(d: nat): (ch: char)
    requires d < 10
    ensures IsDigit(ch) && ch as int - '0' as int == d
  {
    ('0' as int + d) as char
  }

  /** Decimal digits of a natural number, most significant first. */
  function Digits(n: nat): (r: string)
    ensures |r| > 0 && AllDigits(r)
    ensures r[0] == '0' <==> n == 0
  {
    if n < 10 then [DigitChar(n)] else Digits(n / 10) + [DigitChar(n % 10)]
  }

  /** How interpolation renders an `int` argument. */
  function FormatInt(n: int): (r: string)
    ensures |r| > 0 && (r[0] == '-' <==> n < 0)
    ensures forall i :: 0 <= i < |r| ==> IsDigit(r[i]) || (i == 0 && n < 0)
    ensures n >= 0 ==> (r[0] == '0' <==> n == 0)
    ensures n < 0 ==> |r| > 1 && r[1] != '0'
  {
    if n < 0 then "-" + Digits(-n) else Digits(n)
  }

  /** The value of a string of decimal digits. */
  function DigitsValue(s: string): nat
    requires AllDigits(s)
  {
    if |s| == 0 then 0
    else DigitsValue(s[..|s| - 1]) * 10 + (s[|s| - 1] as int - '0' as int)
  }

  /** Reads an optionally negative decimal integer. */
  function ParseInt(s: string): Option<int> {
    if |s| > 1 && s[0] == '-' && AllDigits(s[1..]) then Some(-(DigitsValue(s[1..]) as int))
    else if |s| > 0 && AllDigits(s) then Some(DigitsValue(s))
    else None
  }

  lemma {:induction false} DigitsRoundTrip(n: nat)
    ensures DigitsValue(Digits(n)) == n
  {
    if n >= 10 {
      DigitsRoundTrip(n / 10);
      var s := Digits(n);
      assert s[..|s| - 1] == Digits(n / 10);
    }
  }

  /** Reading back a rendered integer gives the integer. */
  lemma FormatIntRoundTrip(n: int)
    ensures ParseInt(FormatInt(n)) == Some(n)
  {
    if n < 0 {
      DigitsRoundTrip(-n);
      assert FormatInt(n)[1..] == Digits(-n);
    } else {
      DigitsRoundTrip(n);
    }
  }

  /** Distinct integers render as distinct strings. */
  lemma FormatIntInjective(m: int, n: int)
    requires FormatInt(m) == FormatInt(n)
    ensures m == n
  {
    FormatIntRoundTrip(m);
    FormatIntRoundTrip(n);
  }

  function AsInt32(n: int): Option<Int32> {
    if -0x8000_0000 <= n < 0x8000_0000 then Some(n) else None
  }

  /** Reads the integer inside an `Argument(...)` wrapper: the text up to
      the first `)`, and what follows that `)`. */
  function ParseArgument(s: string): (r: Option<(Int32, string)>)
    ensures r.Some? ==> |r.value.1| < |s|
  {
    match IndexOf(s, ')')
    case None => None
    case Some(i) =>
      match ParseInt(s[..i])
      case None => None
      case Some(n) =>
        match AsInt32(n)
        case None => None
        case Some(v) => Some((v, s[i + 1..]))
  }

  lemma ParseArgumentRoundTrip(n: Int32, rest: string)
    ensures ParseArgument(FormatInt(n) + ")" + rest) == Some((n, rest))
  {
    var s := FormatInt(n) + ")" + rest;
    assert forall i :: 0 <= i < |FormatInt(n)| ==> FormatInt(n)[i] != ')';
    assert ')' !in FormatInt(n);
    IndexOfFirst(FormatInt(n), ')', rest);
    assert s[..|FormatInt(n)|] == FormatInt(n);
    assert s[|FormatInt(n)| + 1..] == rest;
    FormatIntRoundTrip(n);
  }
}
