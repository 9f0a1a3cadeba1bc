/** Decimal rendering and parsing of unsigned integers: Rust's `{}` and `{:02}`
    on unsigned values and `str::parse::<u32>()` / `str::parse::<u64>()`. */
module Decimal {
  import opened Wrappers

  const U32_MAX: nat := 0xFFFF_FFFF
  const U64_MAX: nat := 0xFFFF_FFFF_FFFF_FFFF

  predicate IsDigit(c: char)
  {
    '0' <= c <= '9'
  }

  predicate AllDigits(s: string)
  {
    forall i :: 0 <= i < |s| ==> IsDigit(s[i])
  }

  function DigitChar(d: nat): char
    requires d < 10
  {
    ('0' as int + d) as char
  }

  function DigitValue(c: char): nat
    requires IsDigit(c)
  {
    c as int - '0' as int
  }

  /** Euclidean division is determined by quotient and remainder. */
  lemma ModUnique(a: int, n: int, q: int, r: int)
    requires n > 0 && 0 <= r < n && a == q * n + r
    ensures a % n == r
  {
    var d := q - a / n;
    assert d * n == a % n - r;
    if d >= 1 {
      MulAtLeast(d, n);
      assert false;
    } else if d <= -1 {
      MulAtLeast(-d, n);
      assert false;
    }
  }

  lemma MulAtLeast(d: int, n: int)
    requires d >= 1 && n > 0
    ensures d * n >= n
  {
  }

  /** `{}` on an unsigned integer: no leading zeros, "0" for zero. */
  function Digits(n: nat): (s: string)
    ensures |s| >= 1
    ensures (n < 10) == (|s| == 1)
  {
    if n < 10 then [DigitChar(n)] else Digits(n / 10) + [DigitChar(n % 10)]
  }

  /** Rendered numbers consist of digits, without a leading zero. */
  lemma {:induction false} DigitsShape(n: nat)
    ensures AllDigits(Digits(n)) && AllDigits(Pad2(n))
    ensures |Digits(n)| > 1 ==> Digits(n)[0] != '0'
  {
    if n >= 10 {
      DigitsShape(n / 10);
      assert Digits(n)[0] == Digits(n / 10)[0];
    }
  }

  /** The number a string of decimal digits denotes. */
  function ValueOf(s: string): nat
    requires AllDigits(s)
  {
    if s == [] then 0 else ValueOf(s[..|s| - 1]) * 10 + DigitValue(s[|s| - 1])
  }

  lemma {:induction false} ValueOfDigits(n: nat)
    ensures AllDigits(Digits(n)) && ValueOf(Digits(n)) == n
  {
    DigitsShape(n);
    if n >= 10 {
      var s := Digits(n);
      assert s[..|s| - 1] == Digits(n / 10);
      ValueOfDigits(n / 10);
    }
  }

  /** Digits is injective: different numbers render differently. */
  lemma DigitsInjective(m: nat, n: nat)
    requires Digits(m) == Digits(n)
    ensures m == n
  {
    ValueOfDigits(m);
    ValueOfDigits(n);
  }

  /** A leading zero does not change the value. */
  lemma {:induction false} ValueOfLeadingZero(s: string)
    requires AllDigits(s)
    ensures AllDigits("0" + s) && ValueOf("0" + s) == ValueOf(s)
    decreases |s|
  {
    if s != [] {
      var t := "0" + s;
      assert t[..|t| - 1] == "0" + s[..|s| - 1];
      ValueOfLeadingZero(s[..|s| - 1]);
    }
  }

  /** `{:02}` on an unsigned integer: at least two digits, zero-padded. */
  function Pad2(n: nat): (s: string)
    ensures |s| >= 2
    ensures n < 100 ==> |s| == 2
  {
    if n < 10 then "0" + Digits(n) else Digits(n)
  }

  lemma ValueOfPad2(n: nat)
    ensures AllDigits(Pad2(n)) && ValueOf(Pad2(n)) == n
  {
    DigitsShape(n);
    ValueOfDigits(n);
    if n < 10 {
      ValueOfLeadingZero(Digits(n));
    }
  }

  /** `str::parse` into an unsigned integer type whose largest value is `max`:
      an optional '+', then at least one digit, and no overflow. */
  function ParseUnsigned(s: string, max: nat): (r: Option<nat>)
    ensures r.Some? ==> r.value <= max
  {
    var d := if |s| > 0 && s[0] == '+' then s[1..] else s;
    if d == [] || !AllDigits(d) then None
    else if ValueOf(d) > max then None
    else Some(ValueOf(d))
  }

  /** Parsing a rendered number gives the number back. */
  lemma ParseDigits(n: nat, max: nat)
    requires n <= max
    ensures ParseUnsigned(Digits(n), max) == Some(n)
  {
    ValueOfDigits(n);
  }

  lemma ParsePad2(n: nat, max: nat)
    requires n <= max
    ensures ParseUnsigned(Pad2(n), max) == Some(n)
  {
    ValueOfPad2(n);
  }
}
