/**
 JSON values as the schema compiler and validator see them: numbers keep their
 storage kind, objects are member lists in iteration order.  Each character of
 a string stands for one byte.
 */
module Json {
  import opened Optional

  const INT64_MAX: int := 0x7FFF_FFFF_FFFF_FFFF
  const TWO64: int := 0x1_0000_0000_0000_0000

  type int64 = x: int | -INT64_MAX - 1 <= x <= INT64_MAX
  type uint64 = x: int | 0 <= x < TWO64

  datatype Double = Finite(r: real) | Infinite(negative: bool) | NaN

  datatype Number = Signed(i: int64) | Unsigned(u: uint64) | Floating(d: Double)

  datatype Json =
    | Null
    | Bool(b: bool)
    | Num(n: Number)
    | Str(s: string)
    | Arr(items: seq<Json>)
    | Obj(members: seq<Member>)

  datatype Member = Member(key: string, val: Json)

  datatype Keyword =
    | Type | Required | Properties | AdditionalProperties | Items | Enum | Const
    | Minimum | Maximum | MultipleOf | MinLength | MaxLength | Pattern
    | MinItems | MaxItems | UniqueItems | MinProperties | MaxProperties
    | AllOf | AnyOf | OneOf | Not
    | Title | Description | SchemaUri | Id | Comment

  /** What the library leaves to the platform: rounding of integers to doubles,
      the regular-expression engine and the floating-point multipleOf test.  The spelling of the
      keywords is kept here too, because no proof depends on it beyond the applicators having
      different names. */
  datatype Platform = Platform(
    kw: Keyword -> string,
    toDouble: int -> real,
    regexValid: string -> bool,
    regexFinds: (string, string) -> bool,
    nearMultiple: (Number, Number) -> bool)

  // ---------------------------------------------------------------- members

  /** The members from index `i` on as a map; on a repeated key the first one counts. */
  function FieldsFrom(ms: seq<Member>, i: nat): map<string, Json>
    requires i <= |ms|
    decreases |ms| - i
  {
    if i == |ms| then map[] else FieldsFrom(ms, i + 1)[ms[i].key := ms[i].val]
  }

  predicate Has(ms: seq<Member>, key: string) {
    key in FieldsFrom(ms, 0)
  }

  function Get(ms: seq<Member>, key: string): (j: Json)
    requires Has(ms, key)
    ensures exists i | 0 <= i < |ms| :: ms[i] == Member(key, j)
  {
    FieldsAreMembers(ms, key, 0);
    FieldsFrom(ms, 0)[key]
  }

  lemma {:induction false} FieldsAreMembers(ms: seq<Member>, key: string, from: nat)
    requires from <= |ms| && key in FieldsFrom(ms, from)
    ensures exists i | from <= i < |ms| :: ms[i] == Member(key, FieldsFrom(ms, from)[key])
    decreases |ms| - from
  {
    if ms[from].key == key {
      assert ms[from] == Member(key, FieldsFrom(ms, from)[key]);
    } else {
      FieldsAreMembers(ms, key, from + 1);
    }
  }

  lemma {:induction false} MembersAreFields(ms: seq<Member>, i: nat, from: nat)
    requires from <= i < |ms|
    ensures ms[i].key in FieldsFrom(ms, from)
    decreases i - from
  {
    if from < i { MembersAreFields(ms, i, from + 1); }
  }

  /** Object keys are distinct at every level, as in a map-backed object. */
  ghost predicate DistinctKeys(j: Json)
    decreases j
  {
    match j
    case Arr(items) => forall i | 0 <= i < |items| :: DistinctKeys(items[i])
    case Obj(ms) =>
      && (forall i, k | 0 <= i < k < |ms| :: ms[i].key != ms[k].key)
      && (forall i | 0 <= i < |ms| :: DistinctKeys(ms[i].val))
    case _ => true
  }

  lemma {:induction false} MemberAt(ms: seq<Member>, i: nat)
    requires i < |ms|
    requires forall a, b | 0 <= a < b < |ms| :: ms[a].key != ms[b].key
    ensures Has(ms, ms[i].key) && Get(ms, ms[i].key) == ms[i].val
  {
    MembersAreFields(ms, i, 0);
  }

  // ---------------------------------------------------------------- numbers

  predicate Integral(n: Number) {
    n.Signed? || n.Unsigned?
  }

  /** The mathematical value of an integral number. */
  function IntValue(n: Number): int
    requires Integral(n)
  {
    match n case Signed(i) => i case Unsigned(u) => u
  }

  /** Reading an integral number as a signed 64-bit integer: large unsigned values wrap. */
  function AsInt64(n: Number): (r: int64)
    requires Integral(n)
  {
    match n
    case Signed(i) => i
    case Unsigned(u) => if u <= INT64_MAX then u else u - TWO64
  }

  function AsDouble(p: Platform, n: Number): Double {
    match n
    case Signed(i) => Finite(p.toDouble(i))
    case Unsigned(u) => Finite(p.toDouble(u))
    case Floating(d) => d
  }

  function Sign(x: real): int {
    if x < 0.0 then -1 else if x > 0.0 then 1 else 0
  }

  function SignInt(x: int): int {
    if x < 0 then -1 else if x > 0 then 1 else 0
  }

  /** Three-way comparison; None is the "number must be finite" failure. */
  function CompareNumbers(p: Platform, a: Number, b: Number): (r: Option<int>) {
    if Integral(a) && Integral(b) then
      if a.Unsigned? && b.Unsigned? then Some(SignInt(a.u - b.u))
      else Some(SignInt(AsInt64(a) - AsInt64(b)))
    else
      var x, y := AsDouble(p, a), AsDouble(p, b);
      if x.Finite? && y.Finite? then Some(Sign(x.r - y.r)) else None
  }

  /** When a mixed comparison still comes out right although the unsigned operand wrapped. */
  predicate WrapHarmless(i: int64, u: uint64) {
    u <= INT64_MAX || i < u - TWO64
  }

  /** Integer comparison is the mathematical one exactly when a mixed signed/unsigned pair does not
      wrap to the wrong side. */
  lemma {:induction false} CompareExact(p: Platform, a: Number, b: Number)
    requires Integral(a) && Integral(b)
    ensures CompareNumbers(p, a, b) == Some(SignInt(IntValue(a) - IntValue(b)))
       <==> match (a, b)
            case (Signed(i), Unsigned(u)) => WrapHarmless(i, u)
            case (Unsigned(u), Signed(i)) => WrapHarmless(i, u)
            case _ => true
  {
    match (a, b)
    case (Signed(i), Unsigned(u)) => assert i < u || u <= INT64_MAX;
    case (Unsigned(u), Signed(i)) => assert i < u || u <= INT64_MAX;
    case _ =>
  }

  predicate NumbersEqual(p: Platform, a: Number, b: Number) {
    if Integral(a) && Integral(b) then
      if a.Unsigned? && b.Unsigned? then a.u == b.u else AsInt64(a) == AsInt64(b)
    else
      var x, y := AsDouble(p, a), AsDouble(p, b);
      !x.NaN? && x == y
  }

  /** Integer equality is the mathematical one exactly when the wrapped operand of a mixed pair is not
      the other one. */
  lemma {:induction false} EqualExact(p: Platform, a: Number, b: Number)
    requires Integral(a) && Integral(b)
    ensures (NumbersEqual(p, a, b) <==> IntValue(a) == IntValue(b))
       <==> match (a, b)
            case (Signed(i), Unsigned(u)) => i != u - TWO64
            case (Unsigned(u), Signed(i)) => i != u - TWO64
            case _ => true
  {
  }

  /** Integer divisibility as the validator computes it, wrap-around included. */
  predicate IntegerMultipleOf(v: Number, m: Number) {
    Integral(v) && Integral(m) &&
    if m.Unsigned? then
      if m.u == 0 then false
      else if v.Unsigned? then v.u % m.u == 0
      else if v.i == 0 then true
      else if v.i < 0 then m.u <= INT64_MAX && v.i % m.u == 0
      else v.i % m.u == 0
    else
      m.i > 0 && AsInt64(v) % m.i == 0
  }

  lemma {:induction false} SameRemainder(v: int, t: int, m: int)
    requires m > 0
    ensures (v - t) % m == 0 <==> v % m == t % m
  {
    var q, r := v / m - t / m, v % m - t % m;
    assert v - t == q * m + r;
    if v % m == t % m {
      assert (v - t) % m == 0 by { ExactMultiple(v - t, q, m); }
    } else if (v - t) % m == 0 {
      var d := (v - t) / m;
      assert v - t == d * m;
      assert r == (d - q) * m;
      NoSmallMultiple(r, d - q, m);
    }
  }

  lemma {:induction false} ExactMultiple(x: int, q: int, m: int)
    requires m > 0 && x == q * m
    ensures x % m == 0
  {
    var r := x % m;
    assert r == (q - x / m) * m;
    if r != 0 { NoSmallMultiple(r, q - x / m, m); }
  }

  lemma {:induction false} NoSmallMultiple(r: int, k: int, m: int)
    requires m > 0 && r == k * m && -m < r < m
    ensures r == 0
  {
    assert k >= 1 ==> k * m >= m;
    assert k <= -1 ==> k * m <= -m;
  }

  /** When reading a large unsigned value as negative does not change whether `m` divides it. */
  predicate WrapKeepsMultiples(v: Number, m: Number)
    requires Integral(v) && Integral(m) && AsInt64(m) > 0
  {
    || m.Unsigned?
    || IntValue(v) <= INT64_MAX
    || TWO64 % m.i == 0
    || (IntValue(v) % m.i != 0 && IntValue(v) % m.i != TWO64 % m.i)
  }

  /** For every divisor the compiler accepts, the integer test is divisibility exactly when the divisor is
      stored unsigned, the value does not wrap, or wrapping keeps it a multiple or a non-multiple. */
  lemma {:induction false} MultipleOfExact(v: Number, m: Number)
    requires Integral(v) && Integral(m) && AsInt64(m) > 0
    ensures (IntegerMultipleOf(v, m) <==> IntValue(v) % IntValue(m) == 0) <==> WrapKeepsMultiples(v, m)
  {
    if m.Signed? && IntValue(v) > INT64_MAX {
      SameRemainder(IntValue(v), TWO64, m.i);
    }
  }

  // ------------------------------------------------- where 64 bits fall short

  /** 2^63 compares below -1. */
  lemma {:induction false} OrderWraps(p: Platform)
    ensures CompareNumbers(p, Unsigned(0x8000_0000_0000_0000), Signed(-1)) == Some(-1)
  {
  }

  /** 2^64 - 1 equals -1. */
  lemma {:induction false} EqualityWraps(p: Platform)
    ensures NumbersEqual(p, Signed(-1), Unsigned(0xFFFF_FFFF_FFFF_FFFF))
  {
  }

  /** 2^64 - 3 leaves 1 when divided by 3, and passes as a multiple of 3. */
  lemma {:induction false} DivisibilityWraps()
    ensures IntegerMultipleOf(Unsigned(0xFFFF_FFFF_FFFF_FFFD), Signed(3))
    ensures IntValue(Unsigned(0xFFFF_FFFF_FFFF_FFFD)) % 3 == 1
  {
  }

  predicate NumberMultipleOf(p: Platform, v: Number, m: Number) {
    IntegerMultipleOf(v, m) || p.nearMultiple(v, m)
  }

  /** Deep equality of JSON values. */
  predicate Equal(p: Platform, a: Json, b: Json)
    decreases a
  {
    match (a, b)
    case (Num(m), Num(n)) => NumbersEqual(p, m, n)
    case (Arr(xs), Arr(ys)) =>
      |xs| == |ys| && forall i | 0 <= i < |xs| :: Equal(p, xs[i], ys[i])
    case (Obj(xs), Obj(ys)) =>
      |xs| == |ys| && forall i | 0 <= i < |xs| :: xs[i].key == ys[i].key && Equal(p, xs[i].val, ys[i].val)
    case (Str(s), Str(t)) => s == t
    case (Bool(x), Bool(y)) => x == y
    case (Null, Null) => true
    case _ => false
  }

  // ---------------------------------------------------------------- measures

  /** Number of JSON nodes. */
  function Size(j: Json): (n: nat)
    ensures n >= 1
    decreases j, 1
  {
    match j
    case Arr(items) => 1 + SizeItems(items, |items|)
    case Obj(ms) => 1 + SizeMembers(ms, |ms|)
    case _ => 1
  }

  function SizeItems(xs: seq<Json>, n: nat): nat
    requires n <= |xs|
    decreases xs, n
  {
    if n == 0 then 0 else SizeItems(xs, n - 1) + Size(xs[n - 1])
  }

  function SizeMembers(ms: seq<Member>, n: nat): nat
    requires n <= |ms|
    decreases ms, n
  {
    if n == 0 then 0 else SizeMembers(ms, n - 1) + Size(ms[n - 1].val)
  }

  function Max(a: nat, b: nat): nat {
    if a < b then b else a
  }

  /** Levels below this node. */
  function Height(j: Json): nat
    decreases j, 1
  {
    match j
    case Arr(items) => HeightItems(items, |items|)
    case Obj(ms) => HeightMembers(ms, |ms|)
    case _ => 0
  }

  function HeightItems(xs: seq<Json>, n: nat): nat
    requires n <= |xs|
    decreases xs, n
  {
    if n == 0 then 0 else Max(HeightItems(xs, n - 1), 1 + Height(xs[n - 1]))
  }

  function HeightMembers(ms: seq<Member>, n: nat): nat
    requires n <= |ms|
    decreases ms, n
  {
    if n == 0 then 0 else Max(HeightMembers(ms, n - 1), 1 + Height(ms[n - 1].val))
  }

  /** Bytes in the longest string or object key. */
  function Longest(j: Json): nat
    decreases j, 1
  {
    match j
    case Str(s) => |s|
    case Arr(items) => LongestItems(items, |items|)
    case Obj(ms) => LongestMembers(ms, |ms|)
    case _ => 0
  }

  function LongestItems(xs: seq<Json>, n: nat): nat
    requires n <= |xs|
    decreases xs, n
  {
    if n == 0 then 0 else Max(LongestItems(xs, n - 1), Longest(xs[n - 1]))
  }

  function LongestMembers(ms: seq<Member>, n: nat): nat
    requires n <= |ms|
    decreases ms, n
  {
    if n == 0 then 0
    else Max(LongestMembers(ms, n - 1), Max(|ms[n - 1].key|, Longest(ms[n - 1].val)))
  }

  /** Element `i` and everything before it fit into the first `n` elements. */
  lemma {:induction false} ItemBounds(xs: seq<Json>, i: nat, n: nat)
    requires i < n <= |xs|
    ensures SizeItems(xs, i) + Size(xs[i]) <= SizeItems(xs, n)
    ensures 1 + Height(xs[i]) <= HeightItems(xs, n)
    ensures Longest(xs[i]) <= LongestItems(xs, n)
  {
    if i < n - 1 { ItemBounds(xs, i, n - 1); }
  }

  lemma {:induction false} MemberBounds(ms: seq<Member>, i: nat, n: nat)
    requires i < n <= |ms|
    ensures SizeMembers(ms, i) + Size(ms[i].val) <= SizeMembers(ms, n)
    ensures 1 + Height(ms[i].val) <= HeightMembers(ms, n)
    ensures Longest(ms[i].val) <= LongestMembers(ms, n) && |ms[i].key| <= LongestMembers(ms, n)
  {
    if i < n - 1 { MemberBounds(ms, i, n - 1); }
  }
}
