/** The ULID generator: a 48-bit time and 80 bits of randomness, written as 26 base-32 characters. */
module Ulid {
  import Strings

  // ------------------------------------------------------------------ numbers

  /** The number whose first `k` digits in base 32 are those of `ds`. */
  function Value32(ds: seq<nat>, k: nat): nat
    requires k <= |ds|
  {
    if k == 0 then 0 else 32 * Value32(ds, k - 1) + ds[k - 1]
  }

  /** The same in base 256. */
  function Value256(bytes: seq<nat>, k: nat): nat
    requires k <= |bytes|
  {
    if k == 0 then 0 else 256 * Value256(bytes, k - 1) + bytes[k - 1]
  }

  ghost predicate Digits(ds: seq<nat>) { forall i | 0 <= i < |ds| :: ds[i] < 32 }

  ghost predicate Bytes(bytes: seq<nat>) { forall i | 0 <= i < |bytes| :: bytes[i] < 256 }

  /** 32 to the `n`. */
  function Power32(n: nat): nat { if n == 0 then 1 else 32 * Power32(n - 1) }

  function Power256(n: nat): nat { if n == 0 then 1 else 256 * Power256(n - 1) }

  const TWO_48: nat := 0x1_0000_0000_0000
  const TWO_80: nat := 0x1_0000_0000_0000_0000_0000

  lemma {:induction false} Bounded256(bytes: seq<nat>, k: nat)
    requires Bytes(bytes) && k <= |bytes|
    ensures Value256(bytes, k) < Power256(k)
  {
    if k > 0 { Bounded256(bytes, k - 1); }
  }

  lemma {:induction false} RandomIsBelow(bytes: seq<nat>)
    requires Bytes(bytes) && |bytes| == 10
    ensures Value256(bytes, 10) < TWO_80
  {
    Bounded256(bytes, 10);
    assert Power256(10) == TWO_80;
  }

  // ------------------------------------------------- order of digits and numbers

  /** Digit strings that differ in value differ first at a digit that is smaller in the smaller one. */
  lemma {:induction false} SmallerDiffersBelow(a: seq<nat>, b: seq<nat>, k: nat) returns (j: nat)
    requires Digits(a) && Digits(b) && k <= |a| && k <= |b| && Value32(a, k) < Value32(b, k)
    ensures j < k && a[..j] == b[..j] && a[j] < b[j]
  {
    if Value32(a, k - 1) == Value32(b, k - 1) {
      SameDigits(a, b, k - 1);
      j := k - 1;
    } else {
      j := SmallerDiffersBelow(a, b, k - 1);
    }
  }

  lemma {:induction false} SameDigits(a: seq<nat>, b: seq<nat>, k: nat)
    requires Digits(a) && Digits(b) && k <= |a| && k <= |b| && Value32(a, k) == Value32(b, k)
    ensures a[..k] == b[..k]
  {
    if k > 0 {
      assert a[k - 1] < 32 && b[k - 1] < 32;
      SameDigits(a, b, k - 1);
      assert a[..k] == a[..k - 1] + [a[k - 1]] && b[..k] == b[..k - 1] + [b[k - 1]];
    }
  }

  // --------------------------------------------------------------- characters

  const CROCKFORD: string := "0123456789ABCDEFGHJKMNPQRSTVWXYZ"

  /** The alphabet leaves out I, L, O and U. */
  function Crockford(d: nat): char
    requires d < 32
  {
    if d < 10 then '0' + d as char
    else if d < 18 then 'A' + (d - 10) as char
    else if d < 20 then 'J' + (d - 18) as char
    else if d < 22 then 'M' + (d - 20) as char
    else if d < 27 then 'P' + (d - 22) as char
    else 'V' + (d - 27) as char
  }

  lemma {:induction false} CrockfordAlphabet(d: nat)
    requires d < 32
    ensures CROCKFORD[d] == Crockford(d)
  {
  }

  function Text(ds: seq<nat>): (s: string)
    requires Digits(ds)
    ensures |s| == |ds| && forall i | 0 <= i < |ds| :: s[i] == Crockford(ds[i])
  {
    seq(|ds|, i requires 0 <= i < |ds| => Crockford(ds[i]))
  }

  lemma {:induction false} FirstDifferenceDecides(s: string, t: string, i: nat, j: nat)
    requires i <= j < |s| && j < |t| && s[..j] == t[..j] && s[j] < t[j]
    ensures Strings.Before(s, t, i)
    decreases j - i
  {
    if i < j {
      assert s[..j][i] == t[..j][i];
      FirstDifferenceDecides(s, t, i + 1, j);
    }
  }

  /** Texts of the same length are ordered like the numbers they denote. */
  lemma {:induction false} TextOrderIsNumeric(a: seq<nat>, b: seq<nat>)
    requires Digits(a) && Digits(b) && |a| == |b|
    ensures Strings.Before(Text(a), Text(b), 0) <==> Value32(a, |a|) < Value32(b, |b|)
  {
    if Value32(a, |a|) < Value32(b, |b|) {
      SmallerIsBefore(a, b);
    } else if Value32(b, |b|) < Value32(a, |a|) {
      SmallerIsBefore(b, a);
      Strings.Trichotomy(Text(a), Text(b), 0);
    } else {
      SameDigits(a, b, |a|);
      assert a == a[..|a|] && b == b[..|b|];
      Strings.Trichotomy(Text(a), Text(b), 0);
    }
  }

  lemma {:induction false} SmallerIsBefore(a: seq<nat>, b: seq<nat>)
    requires Digits(a) && Digits(b) && |a| == |b| && Value32(a, |a|) < Value32(b, |b|)
    ensures Strings.Before(Text(a), Text(b), 0)
  {
    var j := SmallerDiffersBelow(a, b, |a|);
    var s, t := Text(a), Text(b);
    assert s[..j] == t[..j] by {
      forall i | 0 <= i < j ensures s[i] == t[i] {
        assert a[..j][i] == b[..j][i];
      }
    }
    FirstDifferenceDecides(s, t, 0, j);
  }

  // ------------------------------------------------------------------ encoding

  /** `v` in base 32, `n` digits. */
  function DigitsOf(v: nat, n: nat): (ds: seq<nat>)
    ensures |ds| == n && Digits(ds)
  {
    if n == 0 then [] else DigitsOf(v / 32, n - 1) + [v % 32]
  }

  lemma {:induction false} PrefixValue(ds: seq<nat>, more: seq<nat>, k: nat)
    requires k <= |ds|
    ensures Value32(ds + more, k) == Value32(ds, k)
  {
    if k > 0 { PrefixValue(ds, more, k - 1); }
  }

  lemma {:induction false} ValueOfDigits(v: nat, n: nat)
    requires v < Power32(n)
    ensures Value32(DigitsOf(v, n), n) == v
  {
    if n > 0 {
      ValueOfDigits(v / 32, n - 1);
      PrefixValue(DigitsOf(v / 32, n - 1), [v % 32], n - 1);
    }
  }

  /** The number an id stands for. */
  function Number(time: nat, random: seq<nat>): nat
    requires |random| == 10
  {
    time * TWO_80 + Value256(random, 10)
  }

  /** The 26 characters of an id. */
  function UlidText(time: nat, random: seq<nat>): string
    requires |random| == 10
  {
    Text(DigitsOf(Number(time, random), 26))
  }

  lemma {:induction false} NumberFits(time: nat, random: seq<nat>)
    requires Bytes(random) && |random| == 10 && time < TWO_48
    ensures Number(time, random) < Power32(26)
  {
    RandomIsBelow(random);
    assert Power32(9) == 0x2000_0000_0000;
    assert Power32(17) == 0x20_0000_0000_0000_0000_0000;
    assert Power32(26) == 0x4_0000_0000_0000_0000_0000_0000_0000_0000;
  }

  /** Ids are ordered as strings exactly as their numbers are. */
  lemma {:induction false} UlidOrder(t1: nat, r1: seq<nat>, t2: nat, r2: seq<nat>)
    requires Bytes(r1) && |r1| == 10 && t1 < TWO_48 && Bytes(r2) && |r2| == 10 && t2 < TWO_48
    ensures Strings.Before(UlidText(t1, r1), UlidText(t2, r2), 0) <==> Number(t1, r1) < Number(t2, r2)
  {
    NumberFits(t1, r1);
    NumberFits(t2, r2);
    ValueOfDigits(Number(t1, r1), 26);
    ValueOfDigits(Number(t2, r2), 26);
    TextOrderIsNumeric(DigitsOf(Number(t1, r1), 26), DigitsOf(Number(t2, r2), 26));
  }

  // --------------------------------------------------------------------- bits

  /** `b >> n`. */
  function Right(b: nat, n: nat): nat { if n == 0 then b else Right(b, n - 1) / 2 }

  /** `f << n`. */
  function Left(f: nat, n: nat): nat { if n == 0 then f else 2 * Left(f, n - 1) }

  /** Bit `k` of the bytes, most significant first. */
  function Bit(bytes: seq<nat>, k: nat): nat
    requires k / 8 < |bytes|
  {
    Right(bytes[k / 8], 7 - k % 8) % 2
  }

  /** The number made of `n` bits from position `start`. */
  function Field(bytes: seq<nat>, start: nat, n: nat): nat
    requires start + n <= 8 * |bytes|
  {
    if n == 0 then 0 else 2 * Field(bytes, start, n - 1) + Bit(bytes, start + n - 1)
  }

  lemma {:induction false} EightShiftsEmpty(b: nat)
    requires b < 256
    ensures Right(b, 8) == 0
  {
    assert Right(b, 1) < 128;
    assert Right(b, 2) < 64;
    assert Right(b, 3) < 32;
    assert Right(b, 4) < 16;
    assert Right(b, 5) < 8;
    assert Right(b, 6) < 4;
    assert Right(b, 7) < 2;
  }

  /** The first `m` bits of a byte. */
  lemma {:induction false} ByteBits(bytes: seq<nat>, j: nat, m: nat)
    requires Bytes(bytes) && j < |bytes| && m <= 8
    ensures Field(bytes, 8 * j, m) == Right(bytes[j], 8 - m)
  {
    if m == 0 {
      EightShiftsEmpty(bytes[j]);
    } else {
      ByteBits(bytes, j, m - 1);
      var k := 8 * j + m - 1;
      assert k / 8 == j && k % 8 == m - 1;
    }
  }

  /** A field splits into its first bits and the rest. */
  lemma {:induction false} FieldSplits(bytes: seq<nat>, start: nat, m: nat, n: nat)
    requires start + m + n <= 8 * |bytes|
    ensures Field(bytes, start, m + n) == Left(Field(bytes, start, m), n) + Field(bytes, start + m, n)
  {
    if n > 0 { FieldSplits(bytes, start, m, n - 1); }
  }

  lemma {:induction false} ShiftByteAndDigit(f: nat)
    ensures Left(f, 5) == 32 * f && Left(f, 8) == 256 * f
  {
    assert Left(f, 1) == 2 * f;
    assert Left(f, 2) == 4 * f;
    assert Left(f, 3) == 8 * f;
    assert Left(f, 4) == 16 * f;
    assert Left(f, 5) == 32 * f;
    assert Left(f, 6) == 64 * f;
    assert Left(f, 7) == 128 * f;
  }

  /** The first `8 * j` bits are the number of the first `j` bytes. */
  lemma {:induction false} BytesAreBits(bytes: seq<nat>, j: nat)
    requires Bytes(bytes) && j <= |bytes|
    ensures Field(bytes, 0, 8 * j) == Value256(bytes, j)
  {
    if j > 0 {
      BytesAreBits(bytes, j - 1);
      ByteBits(bytes, j - 1, 8);
      FieldSplits(bytes, 0, 8 * (j - 1), 8);
      ShiftByteAndDigit(Field(bytes, 0, 8 * (j - 1)));
    }
  }

  lemma {:induction false} FiveBits(bytes: seq<nat>, start: nat)
    requires start + 5 <= 8 * |bytes|
    ensures Field(bytes, start, 5) < 32
    ensures Field(bytes, 0, start + 5) == 32 * Field(bytes, 0, start) + Field(bytes, start, 5)
  {
    FieldSplits(bytes, 0, start, 5);
    ShiftByteAndDigit(Field(bytes, 0, start));
    ShiftByteAndDigit(1);
    FieldBelow(bytes, start, 5);
  }

  lemma {:induction false} FieldBelow(bytes: seq<nat>, start: nat, n: nat)
    requires start + n <= 8 * |bytes|
    ensures Field(bytes, start, n) < Left(1, n)
  {
    if n > 0 { FieldBelow(bytes, start, n - 1); }
  }

  /** `time` followed by `i` base-32 zeros. */
  function Raised(time: nat, i: nat): nat { if i == 0 then time else 32 * Raised(time, i - 1) }

  lemma {:induction false} RaisedFour(time: nat, i: nat)
    ensures Raised(time, i + 4) == 0x10_0000 * Raised(time, i)
  {
    assert Raised(time, i + 1) == 0x20 * Raised(time, i);
    assert Raised(time, i + 2) == 0x400 * Raised(time, i);
    assert Raised(time, i + 3) == 0x8000 * Raised(time, i);
  }

  lemma {:induction false} RaisedSixteen(time: nat)
    ensures Raised(time, 16) == time * TWO_80
  {
    RaisedFour(time, 0);
    RaisedFour(time, 4);
    RaisedFour(time, 8);
    RaisedFour(time, 12);
  }

  /** Digits that begin with the time and go on with the bits of the random part. */
  lemma {:induction false} TailValue(ds: seq<nat>, time: nat, random: seq<nat>, i: nat)
    requires |ds| == 26 && |random| == 10 && i <= 16 && Value32(ds, 10) == time
    requires forall k | 0 <= k < i :: ds[10 + k] == Field(random, 5 * k, 5)
    ensures Value32(ds, 10 + i) == Raised(time, i) + Field(random, 0, 5 * i)
  {
    if i > 0 {
      TailValue(ds, time, random, i - 1);
      FiveBits(random, 5 * (i - 1));
      assert ds[10 + (i - 1)] == Field(random, 5 * (i - 1), 5);
    }
  }

  lemma {:induction false} DigitsAreUlid(ds: seq<nat>, time: nat, random: seq<nat>)
    requires |ds| == 26 && Digits(ds) && Bytes(random) && |random| == 10 && time < TWO_48
    requires Value32(ds, 10) == time
    requires forall k | 0 <= k < 16 :: ds[10 + k] == Field(random, 5 * k, 5)
    ensures Text(ds) == UlidText(time, random)
  {
    TailValue(ds, time, random, 16);
    BytesAreBits(random, 10);
    RaisedSixteen(time);
    var v := Number(time, random);
    assert Value32(ds, 26) == v;
    NumberFits(time, random);
    ValueOfDigits(v, 26);
    SameDigits(ds, DigitsOf(v, 26), 26);
    assert ds == ds[..26] && DigitsOf(v, 26) == DigitsOf(v, 26)[..26];
  }

  /** The first ten characters: `timestamp & 31`, then `timestamp >>= 5`, from the last one back. */
  method EncodeTime(time: nat, out: array<char>) returns (ghost ds: seq<nat>)
    requires time < TWO_48 && out.Length == 26
    modifies out
    ensures |ds| == 10 && Digits(ds) && Value32(ds, 10) == time
    ensures forall k | 0 <= k < 10 :: out[k] == Crockford(ds[k])
  {
    ds := [];
    var timestamp: nat, i: nat := time, 10;
    while i > 0
      invariant i <= 10 && |ds| == 10 - i && Digits(ds)
      invariant DigitsOf(time, 10) == DigitsOf(timestamp, i) + ds
      invariant forall k | i <= k < 10 :: out[k] == Crockford(ds[k - i])
    {
      i := i - 1;
      out[i] := Crockford(timestamp % 32);
      ds := [timestamp % 32] + ds;
      timestamp := timestamp / 32;
    }
    assert ds == DigitsOf(time, 10);
    TimeFits(time);
  }

  lemma {:induction false} TimeFits(time: nat)
    requires time < TWO_48
    ensures Value32(DigitsOf(time, 10), 10) == time
  {
    assert Power32(10) == 0x4_0000_0000_0000;
    ValueOfDigits(time, 10);
  }

  /** Five bits at a time, most significant first. */
  method EncodeRandom(random: seq<nat>, out: array<char>) returns (ghost ds: seq<nat>)
    requires |random| == 10 && out.Length == 26
    modifies out
    ensures |ds| == 16 && Digits(ds) && forall k | 0 <= k < 16 :: ds[k] == Field(random, 5 * k, 5)
    ensures forall k | 0 <= k < 16 :: out[10 + k] == Crockford(ds[k])
    ensures forall k | 0 <= k < 10 :: out[k] == old(out[k])
  {
    ds := [];
    var bitIndex: nat := 0;
    for i := 10 to 26
      invariant |ds| == i - 10 && bitIndex == 5 * (i - 10) && Digits(ds)
      invariant forall k | 0 <= k < i - 10 :: ds[k] == Field(random, 5 * k, 5) && out[10 + k] == Crockford(ds[k])
      invariant forall k | 0 <= k < 10 :: out[k] == old(out[k])
    {
      var value: nat := 0;
      for bit := 0 to 5
        invariant bitIndex == 5 * (i - 10) + bit
        invariant value == Field(random, 5 * (i - 10), bit)
      {
        value := 2 * value + Bit(random, bitIndex);
        bitIndex := bitIndex + 1;
      }
      FiveBits(random, 5 * (i - 10));
      out[i] := Crockford(value);
      ds := ds + [value];
    }
  }

  /** `encodeUlid`: the characters denote time * 2^80 + random. */
  method EncodeUlid(time: nat, random: seq<nat>) returns (id: string)
    requires time < TWO_48 && |random| == 10 && Bytes(random)
    ensures id == UlidText(time, random)
  {
    var out := new char[26](_ => '0');
    ghost var head := EncodeTime(time, out);
    ghost var tail := EncodeRandom(random, out);
    ghost var ds := head + tail;
    PrefixValue(head, tail, 10);
    DigitsAreUlid(ds, time, random);
    id := out[..];
    assert id == Text(ds);
  }

  // ---------------------------------------------------------------- increment

  ghost predicate AllFull(bytes: seq<nat>) { forall i | 0 <= i < |bytes| :: bytes[i] == 255 }

  ghost predicate AllZero(bytes: seq<nat>) { forall i | 0 <= i < |bytes| :: bytes[i] == 0 }

  /** Adding one at position `p` with only full bytes behind it, which become zero, adds one in all. */
  lemma {:induction false} CarryAddsOne(a: seq<nat>, b: seq<nat>, p: nat, k: nat)
    requires |a| == |b| && p < k <= |a| && a[..p] == b[..p] && b[p] == a[p] + 1
    requires forall i | p < i < |a| :: a[i] == 255 && b[i] == 0
    ensures Value256(b, k) == Value256(a, k) + 1
  {
    if k == p + 1 {
      SamePrefix(a, b, p);
    } else {
      CarryAddsOne(a, b, p, k - 1);
      assert a[k - 1] == 255 && b[k - 1] == 0;
    }
  }

  lemma {:induction false} SamePrefix(a: seq<nat>, b: seq<nat>, k: nat)
    requires k <= |a| && k <= |b| && a[..k] == b[..k]
    ensures Value256(a, k) == Value256(b, k)
  {
    if k > 0 {
      assert a[k - 1] == a[..k][k - 1] == b[..k][k - 1] == b[k - 1];
      assert a[..k - 1] == a[..k][..k - 1] == b[..k - 1];
      SamePrefix(a, b, k - 1);
    }
  }

  lemma {:induction false} FullIsLast(bytes: seq<nat>, k: nat)
    requires k <= |bytes| && AllFull(bytes)
    ensures Value256(bytes, k) == Power256(k) - 1
  {
    if k > 0 { FullIsLast(bytes, k - 1); }
  }

  lemma {:induction false} ZeroIsZero(bytes: seq<nat>, k: nat)
    requires k <= |bytes| && AllZero(bytes)
    ensures Value256(bytes, k) == 0
  {
    if k > 0 { ZeroIsZero(bytes, k - 1); }
  }

  /** `incrementBigEndian`: one more, or back to zero when every byte was full. */
  method IncrementBigEndian(data: array<nat>) returns (ok: bool)
    requires Bytes(data[..])
    modifies data
    ensures Bytes(data[..])
    ensures ok <==> !AllFull(old(data[..]))
    ensures ok ==> Value256(data[..], data.Length) == Value256(old(data[..]), data.Length) + 1
    ensures !ok ==> AllZero(data[..])
  {
    ghost var was := data[..];
    var i := data.Length;
    while i > 0
      invariant 0 <= i <= data.Length && data[..i] == was[..i]
      invariant forall k | i <= k < data.Length :: data[k] == 0 && was[k] == 255
    {
      assert data[i - 1] == was[..i][i - 1];
      data[i - 1] := (data[i - 1] + 1) % 256;
      if data[i - 1] != 0 {
        ghost var now := data[..];
        assert now[..i - 1] == was[..i - 1];
        CarryAddsOne(was, now, i - 1, data.Length);
        assert was[i - 1] != 255;
        return true;
      }
      i := i - 1;
      assert data[..i] == was[..i];
    }
    ok := false;
  }

  // ---------------------------------------------------------------- generator

  /** The kept state; `time` is -1 before the first id. */
  datatype Generator = Generator(time: int, random: seq<nat>)

  /** What one call meets: the clock's answer, and what a fill of the random bytes leaves behind. */
  datatype Input = Input(clock: Clock, fillOk: bool, bytes: seq<nat>)

  datatype Clock = NoClock | Now(ms: int)

  datatype Outcome = Issued(id: string) | ClockFailed | FillFailed | Exhausted

  ghost predicate Valid(g: Generator) {
    |g.random| == 10 && Bytes(g.random) && -1 <= g.time < TWO_48
  }

  ghost predicate ValidInput(x: Input) { |x.bytes| == 10 && Bytes(x.bytes) }

  class UlidGenerator {
    var lastTime: int
    const lastRandom: array<nat>

    ghost function View(): Generator
      reads this, lastRandom
    {
      Generator(lastTime, lastRandom[..])
    }

    constructor ()
      ensures View() == Generator(-1, seq(10, _ => 0)) && fresh(lastRandom)
    {
      lastTime := -1;
      lastRandom := new nat[10](_ => 0);
      new;
      assert lastRandom[..] == seq(10, _ => 0);
    }

    /** `nextUlid`. */
    method NextUlid(x: Input) returns (r: Outcome)
      requires Valid(View()) && ValidInput(x)
      modifies this, lastRandom
      ensures Valid(View()) && Steps(old(View()), x, View(), r)
    {
      if x.clock.NoClock? {
        return ClockFailed;
      }
      var now := x.clock.ms;
      if now < 0 || now >= TWO_48 {
        return ClockFailed;
      }
      if now > lastTime {
        lastTime := now;
        forall k | 0 <= k < 10 { lastRandom[k] := x.bytes[k]; }
        assert lastRandom[..] == x.bytes;
        if !x.fillOk {
          return FillFailed;
        }
        var id := EncodeUlid(lastTime, lastRandom[..]);
        return Issued(id);
      }
      var ok := IncrementBigEndian(lastRandom);
      if !ok {
        return Exhausted;
      }
      var id := EncodeUlid(lastTime, lastRandom[..]);
      r := Issued(id);
    }
  }

  /** One call, as a relation between the states before and after. */
  ghost predicate Steps(g: Generator, x: Input, h: Generator, r: Outcome)
    requires Valid(g) && Valid(h)
  {
    if x.clock.NoClock? || x.clock.ms < 0 || x.clock.ms >= TWO_48 then h == g && r == ClockFailed
    else if x.clock.ms > g.time then
      && h == Generator(x.clock.ms, x.bytes)
      && r == if x.fillOk then Issued(UlidText(h.time, h.random)) else FillFailed
    else if AllFull(g.random) then h.time == g.time && AllZero(h.random) && r == Exhausted
    else
      && h.time == g.time && Value256(h.random, 10) == Value256(g.random, 10) + 1
      && r == Issued(UlidText(h.time, h.random))
  }

  /** A state's position among all ids. */
  ghost function Rank(g: Generator): int
    requires Valid(g)
  {
    g.time * TWO_80 + Value256(g.random, 10)
  }

  /** Every call that is not an exhaustion keeps the rank or raises it; an id always raises it. */
  lemma {:induction false} RankRises(g: Generator, x: Input, h: Generator, r: Outcome)
    requires Valid(g) && Valid(h) && Steps(g, x, h, r) && r != Exhausted
    ensures Rank(g) <= Rank(h)
    ensures r.Issued? ==> Rank(g) < Rank(h) && 0 <= h.time && r.id == UlidText(h.time, h.random)
  {
    RandomIsBelow(g.random);
    RandomIsBelow(h.random);
  }

  datatype Call = Call(x: Input, after: Generator, outcome: Outcome)

  /** A run: any clock, going backwards or not, any random bytes and any failures. */
  ghost predicate Runs(g: Generator, calls: seq<Call>)
    requires Valid(g)
    decreases |calls|
  {
    calls == [] ||
    (&& Valid(calls[0].after) && Steps(g, calls[0].x, calls[0].after, calls[0].outcome)
     && Runs(calls[0].after, calls[1..]))
  }

  lemma {:induction false} LaterIsGreater(g: Generator, calls: seq<Call>, j: nat)
    requires Valid(g) && Runs(g, calls) && j < |calls| && calls[j].outcome.Issued?
    requires forall k | 0 <= k <= j :: calls[k].outcome != Exhausted
    ensures Valid(calls[j].after) && 0 <= calls[j].after.time && Rank(g) < Rank(calls[j].after)
    ensures calls[j].outcome.id == UlidText(calls[j].after.time, calls[j].after.random)
    decreases |calls|
  {
    RankRises(g, calls[0].x, calls[0].after, calls[0].outcome);
    if j > 0 {
      assert calls[1..][j - 1] == calls[j];
      forall k | 0 <= k <= j - 1 ensures calls[1..][k].outcome != Exhausted {
        assert calls[1..][k] == calls[k + 1];
      }
      LaterIsGreater(calls[0].after, calls[1..], j - 1);
    }
  }

  /** In every run, of two ids with no exhaustion error between them the later one is greater as a string. */
  lemma {:induction false} IdsIncrease(g: Generator, calls: seq<Call>, i: nat, j: nat)
    requires Valid(g) && Runs(g, calls) && i < j < |calls|
    requires calls[i].outcome.Issued? && calls[j].outcome.Issued?
    requires forall k | i <= k <= j :: calls[k].outcome != Exhausted
    ensures Strings.Before(calls[i].outcome.id, calls[j].outcome.id, 0)
    decreases |calls|
  {
    if i > 0 {
      assert calls[1..][i - 1] == calls[i] && calls[1..][j - 1] == calls[j];
      forall k | i - 1 <= k <= j - 1 ensures calls[1..][k].outcome != Exhausted {
        assert calls[1..][k] == calls[k + 1];
      }
      IdsIncrease(calls[0].after, calls[1..], i - 1, j - 1);
    } else {
      var a := calls[0].after;
      RankRises(g, calls[0].x, a, calls[0].outcome);
      forall k | 0 <= k <= j - 1 ensures calls[1..][k].outcome != Exhausted {
        assert calls[1..][k] == calls[k + 1];
      }
      assert calls[1..][j - 1] == calls[j];
      LaterIsGreater(a, calls[1..], j - 1);
      var b := calls[j].after;
      UlidOrder(a.time, a.random, b.time, b.random);
    }
  }

  // ---------------------------------------------------------------- exhaustion

  /** Some call up to `j` read a usable time later than `time`. */
  ghost predicate ClockPassed(time: int, calls: seq<Call>, j: nat)
    requires j < |calls|
  {
    exists k | 0 <= k <= j :: Later(time, calls[k].x.clock)
  }

  predicate Later(time: int, clock: Clock) { clock.Now? && time < clock.ms < TWO_48 }

  ghost predicate AnyExhausted(calls: seq<Call>, j: nat)
    requires j <= |calls|
  {
    exists k | 0 <= k < j :: calls[k].outcome == Exhausted
  }

  /** The kept time never goes back, and a later reading moves it on. */
  lemma {:induction false} TimeMoves(g: Generator, calls: seq<Call>, j: nat)
    requires Valid(g) && Runs(g, calls) && j < |calls|
    ensures Valid(calls[j].after) && calls[j].after.time >= g.time
    ensures ClockPassed(g.time, calls, j) ==> calls[j].after.time > g.time
    decreases |calls|
  {
    var a := calls[0].after;
    if j > 0 {
      assert calls[1..][j - 1] == calls[j];
      TimeMoves(a, calls[1..], j - 1);
      if a.time == g.time && ClockPassed(g.time, calls, j) {
        assert ClockPassed(a.time, calls[1..], j - 1);
      }
    }
  }

  /** Without a later reading, the first id is one more than the kept state, or one after an exhaustion,
      which needs a full state. */
  lemma {:induction false} TimeStands(g: Generator, calls: seq<Call>, j: nat)
    requires Valid(g) && Runs(g, calls) && j < |calls| && !ClockPassed(g.time, calls, j)
    requires calls[j].outcome.Issued? && forall k | 0 <= k < j :: !calls[k].outcome.Issued?
    ensures Valid(calls[j].after) && calls[j].after.time == g.time
    ensures AnyExhausted(calls, j) ==> AllFull(g.random) && Value256(calls[j].after.random, 10) == 1
    ensures !AnyExhausted(calls, j) ==> Value256(calls[j].after.random, 10) == Value256(g.random, 10) + 1
    decreases |calls|
  {
    var a := calls[0].after;
    assert !Later(g.time, calls[0].x.clock);
    if j > 0 {
      assert !calls[0].outcome.Issued?;
      assert forall k | 0 <= k < |calls[1..]| :: calls[1..][k] == calls[k + 1];
      TimeStands(a, calls[1..], j - 1);
      if calls[0].outcome == Exhausted { ZeroIsZero(a.random, 10); }
    }
  }

  /** Whatever happens in between, the next id after a state comes after that state's own id exactly when
      no call reported exhaustion or some call read a later time. */
  lemma {:induction false} AfterExhaustionIff(g: Generator, calls: seq<Call>, j: nat)
    requires Valid(g) && 0 <= g.time && Runs(g, calls) && j < |calls|
    requires calls[j].outcome.Issued? && forall k | 0 <= k < j :: !calls[k].outcome.Issued?
    ensures Strings.Before(UlidText(g.time, g.random), calls[j].outcome.id, 0)
       <==> !AnyExhausted(calls, j) || ClockPassed(g.time, calls, j)
  {
    TimeMoves(g, calls, j);
    var h := calls[j].after;
    IssuedText(g, calls, j);
    UlidOrder(g.time, g.random, h.time, h.random);
    RandomIsBelow(g.random);
    RandomIsBelow(h.random);
    if !ClockPassed(g.time, calls, j) {
      TimeStands(g, calls, j);
      if AnyExhausted(calls, j) {
        FullIsLast(g.random, 10);
        assert Power256(10) == TWO_80;
      }
    }
  }

  lemma {:induction false} IssuedText(g: Generator, calls: seq<Call>, j: nat)
    requires Valid(g) && Runs(g, calls) && j < |calls| && calls[j].outcome.Issued?
    ensures Valid(calls[j].after) && 0 <= calls[j].after.time
    ensures calls[j].outcome.id == UlidText(calls[j].after.time, calls[j].after.random)
    decreases |calls|
  {
    if j == 0 {
      RankRises(g, calls[0].x, calls[0].after, calls[0].outcome);
    } else {
      assert calls[1..][j - 1] == calls[j];
      IssuedText(calls[0].after, calls[1..], j - 1);
    }
  }

  /** In every run, of two ids issued one after the other the later one is greater exactly when no call
      between them reported exhaustion or some call since read a time past the earlier id's. */
  lemma {:induction false} ConsecutiveIdsIff(g: Generator, calls: seq<Call>, i: nat, n: nat)
    requires Valid(g) && Runs(g, calls) && i + 1 + n < |calls|
    requires calls[i].outcome.Issued? && calls[i + 1 + n].outcome.Issued?
    requires forall k | i < k < i + 1 + n :: !calls[k].outcome.Issued?
    ensures Strings.Before(calls[i].outcome.id, calls[i + 1 + n].outcome.id, 0)
       <==> !AnyExhausted(calls[i + 1..], n) || ClockPassed(calls[i].after.time, calls[i + 1..], n)
    decreases |calls|
  {
    var rest := calls[1..];
    assert forall k | 0 <= k < |rest| :: rest[k] == calls[k + 1];
    if i == 0 {
      IssuedText(g, calls, 0);
      AfterExhaustionIff(calls[0].after, rest, n);
    } else {
      ConsecutiveIdsIff(calls[0].after, rest, i - 1, n);
      assert rest[i..] == calls[i + 1..];
    }
  }

  /** Such a break is reachable: a full random part, and a clock that stays put. */
  lemma {:induction false} ExhaustionBreaksOrder(bytes: seq<nat>) returns (calls: seq<Call>)
    requires |bytes| == 10 && Bytes(bytes) && AllFull(bytes)
    ensures Runs(Generator(-1, seq(10, _ => 0)), calls) && |calls| == 3
    ensures calls[0].outcome.Issued? && calls[1].outcome == Exhausted && calls[2].outcome.Issued?
    ensures !Strings.Before(calls[0].outcome.id, calls[2].outcome.id, 0)
  {
    var start := Generator(-1, seq(10, _ => 0));
    var x := Input(Now(0), true, bytes);
    var zeros: seq<nat> := seq(10, _ => 0);
    var one := zeros[9 := 1];
    var full, empty, next := Generator(0, bytes), Generator(0, zeros), Generator(0, one);
    CarryAddsOne(zeros, one, 9, 10);
    var a := Call(x, full, Issued(UlidText(0, bytes)));
    var b := Call(x, empty, Exhausted);
    var c := Call(x, next, Issued(UlidText(0, one)));
    assert Steps(start, x, full, a.outcome);
    assert Steps(full, x, empty, b.outcome);
    assert Steps(empty, x, next, c.outcome);
    calls := [a, b, c];
    assert [c][1..] == [];
    assert Runs(empty, [c]);
    assert [b, c][1..] == [c];
    assert Runs(full, [b, c]);
    assert calls[1..] == [b, c];
    assert calls[1..][0] == b && !Later(0, x.clock);
    AfterExhaustionIff(full, [b, c], 1);
  }
}
