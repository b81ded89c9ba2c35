/** Decimal numerals: what length prefixes and stream indices are written in. */
module Decimal {
  import opened Framing

  predicate AllDigits(s: string) { forall i :: 0 <= i < |s| ==> IsDigit(s[i]) }

  /** The number a string of digits denotes. */
  function Value(s: string): (n: nat)
    requires AllDigits(s)
  {
    if s == "" then 0 else Value(s[..|s| - 1]) * 10 + DigitValue(s[|s| - 1])
  }

  /** The shortest numeral of a number. */
  function Numeral(n: nat): (s: string)
    ensures s != "" && AllDigits(s) && Value(s) == n
  {
    if n < 10 then
      var s := ['0' + n as char];
      assert s[..|s| - 1] == "";
      s
    else
      var s := Numeral(n / 10) + ['0' + (n % 10) as char];
      assert s[..|s| - 1] == Numeral(n / 10);
      s
  }

  /** An element the framers accept has a length prefix of at most four digits. */
  lemma NumeralWidth(n: nat)
    requires n <= MAX_ELEMENT
    ensures |Numeral(n)| <= 4
  {
    if n >= 10 {
      assert |Numeral(n / 10)| <= 3 by {
        if n >= 100 {
          assert |Numeral(n / 100)| <= 2 by {
            assert n / 10 / 10 == n / 100;
            assert |Numeral(n / 1000)| == 1;
            assert n / 100 / 10 == n / 1000;
          }
        }
      }
    }
  }

  function Power(k: nat): nat { if k == 0 then 1 else 10 * Power(k - 1) }

  lemma {:induction false} NumeralShort(n: nat, k: nat)
    requires k > 0 && n < Power(k)
    ensures |Numeral(n)| <= k
  {
    if n >= 10 {
      assert k > 1 by {
        assert Power(1) == 10 * Power(0) == 10;
      }
      NumeralShort(n / 10, k - 1);
    }
  }

  /** A number of up to ten digits. */
  lemma NumeralTen(n: nat)
    requires n < 10_000_000_000
    ensures |Numeral(n)| <= 10
  {
    assert Power(2) == 100 && Power(4) == 10_000 && Power(6) == 1_000_000;
    assert Power(8) == 100_000_000 && Power(10) == 10_000_000_000;
    NumeralShort(n, 10);
  }
}
