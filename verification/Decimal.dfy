/** Decimal numerals. */
module Decimal {
  predicate IsDigit(c: char) {
    '0' <= c <= '9'
  }

  predicate IsDigits(s: string) {
    forall i :: 0 <= i < |s| ==> IsDigit(s[i])
  }

  function Value(s: string): nat
    requires IsDigits(s)
  {
    if s == [] then 0 else 10 * Value(s[..|s| - 1]) + (s[|s| - 1] as int - '0' as int)
  }

  function Pow10(n: nat): (p: nat)
    ensures p > 0
  {
    if n == 0 then 1 else 10 * Pow10(n - 1)
  }

  function Zeros(n: nat): (s: string)
    ensures |s| == n && IsDigits(s)
  {
    seq(n, _ => '0')
  }

  /** The shortest numeral of a number. */
  function Digits(n: nat): (s: string)
    ensures s != [] && IsDigits(s)
  {
    if n < 10 then [('0' as int + n) as char] else Digits(n / 10) + [('0' as int + n % 10) as char]
  }

  lemma {:induction false} DigitsRoundTrip(n: nat)
    ensures Value(Digits(n)) == n
    ensures n > 0 ==> Digits(n)[0] != '0'
  {
    var s := Digits(n);
    if n >= 10 {
      DigitsRoundTrip(n / 10);
      assert s[..|s| - 1] == Digits(n / 10);
    } else {
      assert s[..0] == [];
    }
  }

  lemma {:induction false} LeadingPositive(s: string)
    requires IsDigits(s) && s != [] && s[0] != '0'
    ensures Value(s) >= 1
  {
    if |s| > 1 { LeadingPositive(s[..|s| - 1]); }
  }

  /** A numeral without superfluous zeros is the shortest one of its value. */
  lemma {:induction false} NumeralUnique(s: string)
    requires IsDigits(s) && s != [] && (|s| > 1 ==> s[0] != '0')
    ensures s == Digits(Value(s))
  {
    var t, last := s[..|s| - 1], s[|s| - 1];
    assert s == t + [last];
    if |s| == 1 {
      assert t == [];
    } else {
      LeadingPositive(t);
      NumeralUnique(t);
      assert Value(s) / 10 == Value(t) && Value(s) % 10 == last as int - '0' as int;
    }
  }

  lemma {:induction false} DigitsLonger(m: nat, n: nat)
    requires m <= n
    ensures |Digits(m)| <= |Digits(n)|
  {
    if n >= 10 && m >= 10 { DigitsLonger(m / 10, n / 10); }
  }

  lemma {:induction false} TrailingZeros(s: string, n: nat)
    requires IsDigits(s)
    ensures IsDigits(s + Zeros(n)) && Value(s + Zeros(n)) == Value(s) * Pow10(n)
  {
    if n == 0 {
      assert s + Zeros(0) == s;
    } else {
      TrailingZeros(s, n - 1);
      var t := s + Zeros(n);
      assert t[..|t| - 1] == s + Zeros(n - 1);
      assert Value(t) == 10 * Value(s + Zeros(n - 1));
      TimesTen(Value(s), Pow10(n - 1));
    }
  }

  lemma TimesTen(a: nat, b: nat)
    ensures 10 * (a * b) == a * (10 * b)
  {
  }

  lemma {:induction false} LeadingZero(s: string)
    requires IsDigits(s) && s != [] && s[0] == '0'
    ensures IsDigits(s[1..]) && Value(s[1..]) == Value(s)
  {
    if |s| == 1 {
      assert s[..0] == [];
    } else {
      var t := s[..|s| - 1];
      LeadingZero(t);
      assert s[1..][..|s| - 2] == t[1..];
    }
  }
}
