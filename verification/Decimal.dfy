/** Decimal numerals, as a template string writes a number. */
module Decimal {

  function Digit(d: nat): (c: char)
    requires d < 10
    ensures '0' <= c <= '9'
  {
    '0' + d as char
  }

  function Numeral(n: nat): (s: string)
    ensures |s| > 0 && forall i :: 0 <= i < |s| ==> '0' <= s[i] <= '9'
  {
    if n < 10 then [Digit(n)] else Numeral(n / 10) + [Digit(n % 10)]
  }

  function Value(s: string): int {
    if s == [] then 0 else 10 * Value(s[..|s| - 1]) + (s[|s| - 1] as int - '0' as int)
  }

  lemma {:induction false} NumeralReads(n: nat)
    ensures Value(Numeral(n)) == n
  {
    if n < 10 {
      assert Numeral(n)[..0] == [];
    } else {
      NumeralReads(n / 10);
      assert Numeral(n)[..|Numeral(n)| - 1] == Numeral(n / 10);
    }
  }

  /** A prefix and a number are told apart by the number. */
  lemma PrefixedNumeralsDiffer(prefix: string, a: nat, b: nat)
    requires prefix + Numeral(a) == prefix + Numeral(b)
    ensures a == b
  {
    NumeralReads(a);
    NumeralReads(b);
    assert (prefix + Numeral(a))[|prefix|..] == Numeral(a);
    assert (prefix + Numeral(b))[|prefix|..] == Numeral(b);
  }
}
