/**
 The tolerance of `multipleOf`, in exact arithmetic.  The test also runs on integers that the exact test
 refused; here it is shown which of them it lets through.
 */
module Tolerance {
  import opened Json
  import opened Schema
  import opened Semantics
  import opened Standard

  const TWO57: int := 0x200_0000_0000_0000

  function Magnitude(x: real): real {
    if x < 0.0 then -x else x
  }

  function AtLeastOne(x: real): real {
    if x < 1.0 then 1.0 else x
  }

  /** The nearest integer, halves away from zero. */
  function Round(x: real): int {
    if x < 0.0 then -(0.5 - x).Floor else (x + 0.5).Floor
  }

  /** Within 64 units of 2^-63 of an integer, relative to its size. */
  predicate Whole(q: real) {
    Magnitude(q - Round(q) as real) <= 64.0 / 9223372036854775808.0 * AtLeastOne(Magnitude(q))
  }

  predicate Near(x: real, d: real) {
    d > 0.0 && Whole(x / d)
  }

  function ToNearest(f: real): real {
    if f <= 0.5 then f else 1.0 - f
  }

  function Closer(r: int, m: int): int {
    if 2 * r <= m then r else m - r
  }

  /** How far `n` is from a multiple of `m`. */
  function Distance(n: int, m: int): int
    requires m > 0
  {
    Closer(n % m, m)
  }

  function Larger(m: int, n: int): int {
    if n < -m then -n else if n < m then m else n
  }

  lemma {:induction false} FloorIs(x: real, k: int)
    requires k as real <= x < k as real + 1.0
    ensures x.Floor == k
  {
  }

  /** Where the quotient lies past an integer decides how far it is from the rounded one. */
  lemma {:induction false} RoundDistance(q: real, k: int, f: real)
    requires q == k as real + f && 0.0 <= f < 1.0
    ensures Magnitude(q - Round(q) as real) == ToNearest(f)
  {
    if q < 0.0 {
      FloorIs(0.5 - q, if f <= 0.5 then -k else -k - 1);
    } else {
      FloorIs(q + 0.5, if f < 0.5 then k else k + 1);
    }
  }

  lemma {:induction false} Quotient(n: int, m: int)
    requires m > 0
    ensures n as real / m as real == (n / m) as real + (n % m) as real / m as real
    ensures 0.0 <= (n % m) as real / m as real < 1.0
  {
  }

  lemma {:induction false} Scaled(x: real, y: real, d: real, distance: int, size: int)
    requires d > 0.0 && x * d == distance as real && y * d == size as real
    ensures x <= 64.0 / 9223372036854775808.0 * y <==> distance * TWO57 <= size
  {
    assert x * 144115188075855872.0 <= y <==> x * 144115188075855872.0 * d <= y * d;
    assert x * 144115188075855872.0 * d == distance as real * 144115188075855872.0;
  }

  lemma {:induction false} ScaledOrder(x: real, y: real, d: real)
    requires d > 0.0
    ensures x < y <==> x * d < y * d
  {
  }

  lemma {:induction false} ScaledDistance(r: int, m: int, f: real, d: real)
    requires d == m as real > 0.0 && f * d == r as real
    ensures ToNearest(f) * d == Closer(r, m) as real
  {
    ScaledOrder(0.5, f, d);
    assert 0.5 * d == m as real / 2.0;
    assert (1.0 - f) * d == d - f * d;
  }

  lemma {:induction false} BelowOne(n: int, m: int, q: real, d: real)
    requires d == m as real > 0.0 && q * d == n as real
    ensures q < 1.0 <==> n < m
  {
    assert (1.0 - q) * d == d - q * d;
    if q < 1.0 {
      assert (1.0 - q) * d > 0.0;
    } else {
      assert (1.0 - q) * d <= 0.0;
    }
  }

  lemma {:induction false} ScaledSize(n: int, m: int, q: real, d: real)
    requires d == m as real > 0.0 && q * d == n as real
    ensures AtLeastOne(Magnitude(q)) * d == Larger(m, n) as real
  {
    BelowOne(n, m, q, d);
    assert (-q) * d == (-n) as real by { assert (-q) * d == -(q * d); }
    BelowOne(-n, m, -q, d);
    if 1.0 <= q {
      assert AtLeastOne(Magnitude(q)) == q;
    } else if 1.0 <= -q {
      assert AtLeastOne(Magnitude(q)) == -q;
    } else {
      assert AtLeastOne(Magnitude(q)) == 1.0;
    }
  }

  lemma {:induction false} WholeScaled(q: real, k: int, f: real, d: real, distance: int, size: int)
    requires q == k as real + f && 0.0 <= f < 1.0 && d > 0.0
    requires ToNearest(f) * d == distance as real
    requires AtLeastOne(Magnitude(q)) * d == size as real
    ensures Whole(q) <==> distance * TWO57 <= size
  {
    RoundDistance(q, k, f);
    Scaled(ToNearest(f), AtLeastOne(Magnitude(q)), d, distance, size);
  }

  lemma {:induction false} WholeOnIntegers(n: int, m: int, k: int, r: int, q: real, f: real, d: real)
    requires d == m as real > 0.0 && q == k as real + f && 0.0 <= f < 1.0
    requires f * d == r as real && q * d == n as real
    ensures Whole(q) <==> Closer(r, m) * TWO57 <= Larger(m, n)
  {
    ScaledDistance(r, m, f, d);
    ScaledSize(n, m, q, d);
    WholeScaled(q, k, f, d, Closer(r, m), Larger(m, n));
  }

  /** On integers the tolerance lets through what is at most 2^-57 of the larger one away from a multiple. */
  lemma {:induction false} NearOnIntegers(n: int, m: int)
    requires m > 0
    ensures Near(n as real, m as real) <==> Distance(n, m) * TWO57 <= Larger(m, n)
  {
    var d := m as real;
    Quotient(n, m);
    WholeOnIntegers(n, m, n / m, n % m, n as real / d, (n % m) as real / d, d);
  }

  /** The range of integers on which the tolerance changes nothing: up to 2^57 - 1 and no further. */
  lemma {:induction false} ToleranceHarmlessIff(bound: int)
    ensures (forall n, m | 0 < m <= bound && -bound <= n <= bound && Near(n as real, m as real) :: n % m == 0)
       <==> bound < TWO57
  {
    if bound < TWO57 {
      forall n, m | 0 < m <= bound && -bound <= n <= bound && Near(n as real, m as real) ensures n % m == 0 {
        NearOnIntegers(n, m);
      }
    } else {
      NearOnIntegers(TWO57, 3);
    }
  }

  /** On integers the platform computes the test without rounding. */
  ghost predicate Exact(p: Platform) {
    forall n, m | Integral(n) && Integral(m) ::
      p.nearMultiple(n, m) <==> Near(IntValue(n) as real, IntValue(m) as real)
  }

  /** Documents within a bound get the standard's verdict on an exact platform if the bound is below 2^57,
      and no larger bound suits. */
  lemma {:induction false} SuitsIff(p: Platform, bound: int)
    requires Exact(p) && bound <= INT64_MAX
    ensures Suits(p, Range(-bound, bound)) <==> bound < TWO57
  {
    if bound < TWO57 {
      ToleranceHarmlessIff(bound);
    } else {
      NearOnIntegers(TWO57, 3);
      assert p.nearMultiple(Signed(TWO57), Signed(3));
    }
  }

  lemma {:induction false} NearMisses()
    ensures Near(1.0, 0x1000_0000_0000_0000 as real) && Near(0x4000_0000_0000_0001 as real, 2.0)
  {
    NearOnIntegers(1, 0x1000_0000_0000_0000);
    NearOnIntegers(0x4000_0000_0000_0001, 2);
  }

  /** `{"multipleOf": 1152921504606846976}` is satisfied by 1 and `{"multipleOf": 2}` by 4611686018427387905. */
  lemma {:induction false} ToleranceAcceptsNonMultiple(p: Platform, ms: seq<Member>, n: Number, m: Number)
    requires Exact(p) && Alone(p, ms, MultipleOf, Num(m))
    requires (n, m) in {(Signed(1), Signed(0x1000_0000_0000_0000)), (Signed(0x4000_0000_0000_0001), Signed(2))}
    ensures WellKinded(p, Obj(ms))
    ensures Satisfies(Library, p, Num(n), Obj(ms)) && !Satisfies(Mathematical, p, Num(n), Obj(ms))
  {
    NearMisses();
    AloneKinds(p, ms, MultipleOf, Num(m));
    AloneMeaning(Library, p, n, ms, MultipleOf, Num(m));
    AloneMeaning(Mathematical, p, n, ms, MultipleOf, Num(m));
  }
}
