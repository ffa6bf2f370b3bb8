/** Decimal numerals: Python's int() on digits, and str() of a natural number. */
module Decimal {

  predicate AllDigits(d: string) {
    forall k :: 0 <= k < |d| ==> '0' <= d[k] <= '9'
  }

  function ToInt(d: string): int {
    if d == "" then 0 else 10 * ToInt(d[..|d| - 1]) + (d[|d| - 1] as int - '0' as int)
  }

  function Print(n: nat): (d: string)
    ensures d != "" && AllDigits(d)
  {
    if n < 10 then [('0' as int + n) as char] else Print(n / 10) + [('0' as int + n % 10) as char]
  }

  lemma {:induction false} PrintRoundTrip(n: nat)
    ensures ToInt(Print(n)) == n
  {
    if n >= 10 {
      PrintRoundTrip(n / 10);
      var d := Print(n / 10) + [('0' as int + n % 10) as char];
      assert d[..|d| - 1] == Print(n / 10);
    }
  }
}
