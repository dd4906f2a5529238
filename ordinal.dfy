/** The English ordinal suffix appended to a displayed rank (`getOrdinal`). */
module Ordinal {

  /** The suffix table, indexed by the last digit 0..3 (`ordinals`). */
  const Ordinals: seq<string> := ["th", "st", "nd", "rd"]

  /**
   * Go's `%` on ints, as the Go specification defines it: `a == q * b + r`
   * for some integer quotient `q`, `|r| < b`, and `r` is zero or has the sign
   * of `a` (the quotient truncates toward zero).
   */
  function GoRem(a: int, b: int): (r: int)
    requires b > 0
    ensures exists q :: a == q * b + r
    ensures a >= 0 ==> 0 <= r < b
    ensures a < 0 ==> -b < r <= 0
  {
    if a < 0 then
      assert a == -((-a) / b) * b + -((-a) % b);
      -((-a) % b)
    else
      assert a == (a / b) * b + a % b;
      a % b
  }

  /**
   * `getOrdinal`. Go panics indexing `ordinals` with a negative remainder, so the
   * caller must pass a number whose remainder by 100 is not negative.
   */
  function GetOrdinal(n: int): (s: string)
    requires GoRem(n, 100) >= 0
    ensures s in Ordinals
  {
    var v := GoRem(n, 100);
    if v >= 20 && |Ordinals| > GoRem(v - 20, 10) then Ordinals[GoRem(v - 20, 10)]
    else if |Ordinals| > v then Ordinals[v]
    else Ordinals[0]
  }

  /** The English rule: 11th, 12th, 13th (mod 100), otherwise 1st, 2nd, 3rd by last digit, else th. */
  function EnglishSuffix(n: nat): string {
    if 11 <= n % 100 <= 13 then "th"
    else if n % 10 == 1 then "st"
    else if n % 10 == 2 then "nd"
    else if n % 10 == 3 then "rd"
    else "th"
  }

  /** For every non-negative number the lookup table follows the English rule. */
  lemma OrdinalIsEnglish(n: nat)
    ensures GetOrdinal(n) == EnglishSuffix(n)
  {
    var v := n % 100;
    // The last digit of `n` is the last digit of its remainder by 100.
    assert n % 10 == v % 10 by {
      assert n == 10 * (10 * (n / 100) + v / 10) + v % 10;
    }
    if v >= 20 {
      assert GoRem(v - 20, 10) == (v - 20) % 10 == v % 10;
    }
  }

  /** The suffixes of the ranks that a message most often shows. */
  lemma OrdinalExamples()
    ensures GetOrdinal(1) == "st" && GetOrdinal(2) == "nd" && GetOrdinal(3) == "rd"
    ensures GetOrdinal(4) == "th" && GetOrdinal(11) == "th" && GetOrdinal(12) == "th"
    ensures GetOrdinal(13) == "th" && GetOrdinal(21) == "st" && GetOrdinal(101) == "st"
    ensures GetOrdinal(112) == "th" && GetOrdinal(122) == "nd"
  {
  }
}
