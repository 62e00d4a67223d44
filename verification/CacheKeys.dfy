/** Cache keys and the text ids the cache files them under. */
module CacheKeys {

  type Byte = x: nat | x < 256

  datatype CacheKey = CacheKey(ns: seq<Byte>, name: seq<Byte>)

  function HexDigit(d: nat): (c: char)
    requires d < 16
    ensures c != ':'
  {
    if d < 10 then '0' + d as char else 'a' + (d - 10) as char
  }

  /** Two lower-case digits per byte. */
  function Hex(bytes: seq<Byte>): (s: string)
    ensures |s| == 2 * |bytes| && forall i | 0 <= i < |s| :: s[i] != ':'
  {
    if bytes == [] then []
    else
      var n := |bytes| - 1;
      Hex(bytes[..n]) + [HexDigit(bytes[n] / 16), HexDigit(bytes[n] % 16)]
  }

  /** `hexEncode`. */
  method HexEncode(bytes: seq<Byte>) returns (s: string)
    ensures s == Hex(bytes)
  {
    s := [];
    for i := 0 to |bytes|
      invariant s == Hex(bytes[..i])
    {
      assert bytes[..i + 1][..i] == bytes[..i];
      s := s + [HexDigit(bytes[i] / 16), HexDigit(bytes[i] % 16)];
    }
    assert bytes[..|bytes|] == bytes;
  }

  lemma {:induction false} HexInjective(a: seq<Byte>, b: seq<Byte>)
    requires Hex(a) == Hex(b)
    ensures a == b
    decreases |a|
  {
    if a != [] {
      var n := |a| - 1;
      assert |b| == |a|;
      var s, t := Hex(a[..n]), Hex(b[..n]);
      assert s == Hex(a)[..2 * n] && t == Hex(b)[..2 * n];
      HexInjective(a[..n], b[..n]);
      assert Hex(a)[2 * n] == HexDigit(a[n] / 16) && Hex(b)[2 * n] == HexDigit(b[n] / 16);
      assert Hex(a)[2 * n + 1] == HexDigit(a[n] % 16) && Hex(b)[2 * n + 1] == HexDigit(b[n] % 16);
      assert a == a[..n] + [a[n]] && b == b[..n] + [b[n]];
    }
  }

  /** `entryId`. */
  function EntryId(key: CacheKey): string {
    Hex(key.ns) + [':'] + Hex(key.name)
  }

  /** The prefix under which `clearNamespace` looks. */
  function Prefix(ns: seq<Byte>): string { Hex(ns) + [':'] }

  /** The part before the first colon is determined by the whole. */
  lemma {:induction false} ColonSplits(a: string, b: string, x: string, y: string)
    requires forall i | 0 <= i < |a| :: a[i] != ':'
    requires forall i | 0 <= i < |b| :: b[i] != ':'
    requires a + [':'] + x == b + [':'] + y
    ensures a == b && x == y
  {
    var s, t := a + [':'] + x, b + [':'] + y;
    assert s[|a|] == ':' && t[|b|] == ':';
    assert forall i | 0 <= i < |a| :: s[i] == a[i];
    assert forall i | 0 <= i < |b| :: t[i] == b[i];
    assert |a| == |b|;
    assert a == s[..|a|] && b == t[..|b|];
    assert x == s[|a| + 1..] && y == t[|b| + 1..];
  }

  /** Different keys have different ids. */
  lemma {:induction false} EntryIdInjective(j: CacheKey, k: CacheKey)
    requires EntryId(j) == EntryId(k)
    ensures j == k
  {
    ColonSplits(Hex(j.ns), Hex(k.ns), Hex(j.name), Hex(k.name));
    HexInjective(j.ns, k.ns);
    HexInjective(j.name, k.name);
  }

  /** An id lies under a namespace's prefix exactly when the key is of that namespace. */
  lemma {:induction false} PrefixMeansNamespace(key: CacheKey, ns: seq<Byte>)
    ensures Prefix(ns) <= EntryId(key) <==> key.ns == ns
  {
    if Prefix(ns) <= EntryId(key) {
      var rest := EntryId(key)[|Prefix(ns)|..];
      assert EntryId(key) == Prefix(ns) + rest;
      ColonSplits(Hex(key.ns), Hex(ns), Hex(key.name), rest);
      HexInjective(key.ns, ns);
    }
  }
}
