/** Decimal rendering of ports inside tags, and the prefix tests made on those tags. */
module Text {

  predicate IsDigit(c: char) {
    '0' <= c <= '9'
  }

  predicate AllDigits(s: string) {
    forall i | 0 <= i < |s| :: IsDigit(s[i])
  }

  function Digit(d: nat): (c: char)
    requires d < 10
    ensures IsDigit(c) && DigitValue(c) == d
  {
    ('0' as int + d) as char
  }

  function DigitValue(c: char): nat
    requires IsDigit(c)
  {
    c as int - '0' as int
  }

  function Decimal(n: nat): (s: string)
    ensures |s| > 0 && AllDigits(s)
  {
    if n < 10 then [Digit(n)] else Decimal(n / 10) + [Digit(n % 10)]
  }

  function DecimalValue(s: string): nat
    requires AllDigits(s)
  {
    if s == "" then 0 else 10 * DecimalValue(s[..|s| - 1]) + DigitValue(s[|s| - 1])
  }

  lemma {:induction false} DecimalRoundTrip(n: nat)
    ensures DecimalValue(Decimal(n)) == n
  {
    if n < 10 {
      assert Decimal(n)[..0] == "";
    } else {
      DecimalRoundTrip(n / 10);
      assert Decimal(n)[..|Decimal(n)| - 1] == Decimal(n / 10);
    }
  }

  lemma DecimalInjective(m: nat, n: nat)
    requires Decimal(m) == Decimal(n)
    ensures m == n
  {
    DecimalRoundTrip(m);
    DecimalRoundTrip(n);
  }

  lemma {:induction false} DecimalLeads(n: nat)
    ensures Decimal(n)[0] == '0' <==> n == 0
  {
    if n >= 10 { DecimalLeads(n / 10); }
  }

  /** Digits are how their number is printed iff they have no leading zero. */
  lemma {:induction false} CanonicalDecimal(digits: string)
    requires digits != "" && AllDigits(digits)
    ensures Decimal(DecimalValue(digits)) == digits <==> |digits| == 1 || digits[0] != '0'
  {
    var init, last := digits[..|digits| - 1], DigitValue(digits[|digits| - 1]);
    DecimalLeads(DecimalValue(digits));
    assert digits == init + [Digit(last)];
    if init != "" && digits[0] != '0' {
      CanonicalDecimal(init);
      DecimalLeads(DecimalValue(init));
      assert DecimalValue(digits) / 10 == DecimalValue(init) && DecimalValue(digits) % 10 == last;
    }
  }

  predicate StartsWith(s: string, prefix: string) {
    prefix <= s
  }

  predicate EndsWith(s: string, suffix: string) {
    |suffix| <= |s| && s[|s| - |suffix|..] == suffix
  }

  /** How many digits `s` opens with. */
  function DigitRun(s: string): nat {
    if s == "" || !IsDigit(s[0]) then 0 else 1 + DigitRun(s[1..])
  }

  lemma {:induction false} DigitRunLength(digits: string, rest: string)
    requires AllDigits(digits) && (rest == "" || !IsDigit(rest[0]))
    ensures DigitRun(digits + rest) == |digits|
  {
    if digits == "" {
      assert digits + rest == rest;
    } else {
      assert (digits + rest)[1..] == digits[1..] + rest;
      DigitRunLength(digits[1..], rest);
    }
  }
}
