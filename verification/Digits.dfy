/** Decimal numerals. */
module Digits {
  predicate IsDigit(c: char) { '0' <= c <= '9' }

  predicate AllDigits(s: string) {
    s != "" && forall i | 0 <= i < |s| :: IsDigit(s[i])
  }

  /** `int` of a string of decimal digits. */
  function DecimalValue(s: string): nat
    requires forall i | 0 <= i < |s| :: IsDigit(s[i])
  {
    if s == "" then 0 else
      assert IsDigit(s[|s| - 1]);
      10 * DecimalValue(s[..|s| - 1]) + (s[|s| - 1] as int - '0' as int)
  }

  /** `str` of a natural number. */
  function Decimal(n: nat): (s: string)
    ensures s != "" && forall i | 0 <= i < |s| :: IsDigit(s[i])
  {
    if n < 10 then [('0' as int + n) as char] else Decimal(n / 10) + [('0' as int + n % 10) as char]
  }

  lemma {:induction false} DecimalReads(n: nat)
    ensures DecimalValue(Decimal(n)) == n && (n > 0 ==> Decimal(n)[0] != '0')
  {
    if n >= 10 {
      DecimalReads(n / 10);
      assert Decimal(n)[..|Decimal(n)| - 1] == Decimal(n / 10);
    } else {
      assert Decimal(n)[..0] == "";
    }
  }

  /** Without leading zeros a number has one spelling. */
  lemma {:induction false} DecimalPrints(s: string)
    requires AllDigits(s) && s[0] != '0'
    ensures Decimal(DecimalValue(s)) == s && DecimalValue(s) >= 1
    decreases |s|
  {
    var last := s[|s| - 1];
    assert IsDigit(last);
    if |s| > 1 {
      var front := s[..|s| - 1];
      DecimalPrints(front);
      assert DecimalValue(s) == 10 * DecimalValue(front) + (last as int - '0' as int);
      assert s == front + [last];
    }
  }
}
