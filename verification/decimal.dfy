/** The `%d` conversion of sprintf, and the facts the call-site store needs about it. */
module Decimal {
  import opened CStrings

  /** The ASCII digit for a value below ten. */
  function DigitChar(d: nat): (c: char)
    requires d < 10
    ensures '0' <= c <= '9'
  {
    ('0' as int + d) as char
  }

  /** The value of an ASCII digit (0 for any other character). */
  function DigitValue(c: char): nat
  {
    if '0' <= c <= '9' then c as int - '0' as int else 0
  }

  predicate AllDigits(s: string)
  {
    forall i :: 0 <= i < |s| ==> '0' <= s[i] <= '9'
  }

  /** The decimal digits of `n`, most significant first, without leading zeros. */
  function Digits(n: nat): (s: string)
    ensures 1 <= |s| && AllDigits(s)
    decreases n
  {
    if n < 10 then [DigitChar(n)] else Digits(n / 10) + [DigitChar(n % 10)]
  }

  /** What `sprintf(buf, "%d", n)` writes before its terminator. */
  function Decimal(n: int): CString
  {
    if n < 0 then "-" + Digits(-n) else Digits(n)
  }

  /** Reads a string of decimal digits back as a number. */
  function ParseDigits(s: string): int
    decreases |s|
  {
    if s == [] then 0 else 10 * ParseDigits(s[..|s| - 1]) + DigitValue(s[|s| - 1])
  }

  /** Reads an optionally negative decimal numeral back as a number. */
  function ParseDecimal(s: string): int
  {
    if |s| > 0 && s[0] == '-' then -ParseDigits(s[1..]) else ParseDigits(s)
  }

  function Pow10(k: nat): nat
  {
    if k == 0 then 1 else 10 * Pow10(k - 1)
  }

  lemma {:induction false} DigitsRoundTrip(n: nat)
    ensures ParseDigits(Digits(n)) == n
    decreases n
  {
    if n >= 10 {
      var s := Digits(n);
      DigitsRoundTrip(n / 10);
      assert s[..|s| - 1] == Digits(n / 10);
      assert DigitValue(s[|s| - 1]) == n % 10;
    }
  }

  /** `%d` loses nothing: the numeral it prints reads back as the number. */
  lemma DecimalRoundTrip(n: int)
    ensures ParseDecimal(Decimal(n)) == n
  {
    if n < 0 {
      DigitsRoundTrip(-n);
      assert Decimal(n)[1..] == Digits(-n);
    } else {
      DigitsRoundTrip(n);
    }
  }

  /** Two line numbers share a decimal key exactly when they are equal. */
  lemma DecimalInjective(m: int, n: int)
    ensures Decimal(m) == Decimal(n) <==> m == n
  {
    if Decimal(m) == Decimal(n) {
      DecimalRoundTrip(m);
      DecimalRoundTrip(n);
    }
  }

  /** A number below 10^k has at most k digits. */
  lemma {:induction false} DigitsLength(n: nat, k: nat)
    requires 1 <= k && n < Pow10(k)
    ensures |Digits(n)| <= k
    decreases k
  {
    if n >= 10 {
      assert n / 10 < Pow10(k - 1);
      DigitsLength(n / 10, k - 1);
    }
  }
}
