/** Decimal text of natural numbers, as `std::to_string` writes and `std::from_chars` reads it. */
module Decimal {

  predicate Digit(c: char) {
    '0' <= c <= '9'
  }

  function DigitOf(n: nat): (c: char)
    requires n < 10
    ensures Digit(c)
  {
    '0' + n as char
  }

  function ToText(n: nat): (s: string)
    ensures s != [] && forall i | 0 <= i < |s| :: Digit(s[i])
    ensures n > 0 ==> s[0] != '0'
  {
    if n < 10 then [DigitOf(n)] else ToText(n / 10) + [DigitOf(n % 10)]
  }

  /** The value of a run of digits, most significant first. */
  function Value(s: string): nat
    requires forall i | 0 <= i < |s| :: Digit(s[i])
  {
    if s == [] then 0
    else
      assert Digit(s[|s| - 1]);
      10 * Value(s[..|s| - 1]) + (s[|s| - 1] as int - '0' as int)
  }

  lemma {:induction false} ValueOfText(n: nat)
    ensures Value(ToText(n)) == n
  {
    if n < 10 {
      assert ToText(n)[..0] == [];
    } else {
      ValueOfText(n / 10);
      var s := ToText(n);
      assert s[..|s| - 1] == ToText(n / 10);
    }
  }
}
