/** JSON Pointer (RFC 6901): escaping, appending and resolving. */
module Pointer {
  import opened Optional
  import opened Json
  import Decimal

  function EscapeChar(c: char): (r: string)
    ensures '/' !in r && |r| > 0
  {
    if c == '~' then ['~', '0'] else if c == '/' then ['~', '1'] else [c]
  }

  function Escape(token: string): (r: string)
    ensures '/' !in r
  {
    if token == [] then [] else EscapeChar(token[0]) + Escape(token[1..])
  }

  method EscapeToken(token: string) returns (out: string)
    ensures out == Escape(token)
  {
    out := [];
    var i: nat := 0;
    while i < |token|
      invariant i <= |token|
      invariant out + Escape(token[i..]) == Escape(token)
    {
      EscapeOne(token, i, out);
      if token[i] == '~' {
        out := out + ['~', '0'];
      } else if token[i] == '/' {
        out := out + ['~', '1'];
      } else {
        out := out + [token[i]];
      }
      i := i + 1;
    }
  }

  /** One more character of the token moves to the output. */
  lemma {:induction false} EscapeOne(token: string, i: nat, out: string)
    requires i < |token|
    ensures out + Escape(token[i..]) == (out + EscapeChar(token[i])) + Escape(token[i + 1..])
  {
    assert token[i..][1..] == token[i + 1..];
  }

  function AppendKey(base: string, token: string): string {
    base + "/" + Escape(token)
  }

  function AppendIndex(base: string, i: nat): string {
    base + "/" + Decimal.ToText(i)
  }

  // ------------------------------------------------------------- resolution

  /** Section 4 of RFC 6901: "~1" denotes '/', "~0" denotes '~'. */
  function Unescape(s: string): string {
    if s == [] then []
    else if |s| >= 2 && s[0] == '~' && s[1] == '1' then "/" + Unescape(s[2..])
    else if |s| >= 2 && s[0] == '~' && s[1] == '0' then "~" + Unescape(s[2..])
    else [s[0]] + Unescape(s[1..])
  }

  /** Position of the last '/', or -1. */
  function LastSlash(s: string): (k: int)
    ensures -1 <= k < |s|
    ensures k >= 0 ==> s[k] == '/'
    ensures forall i | k < i < |s| :: s[i] != '/'
  {
    if s == [] then -1
    else if s[|s| - 1] == '/' then |s| - 1
    else LastSlash(s[..|s| - 1])
  }

  /** An array index token: digits without a superfluous leading zero. */
  function ParseIndex(t: string): Option<nat> {
    if t == [] || (exists i | 0 <= i < |t| :: !Decimal.Digit(t[i])) then None
    else if |t| > 1 && t[0] == '0' then None
    else Some(Decimal.Value(t))
  }

  function Step(j: Json, token: string): Option<Json> {
    match j
    case Obj(ms) => if Has(ms, token) then Some(Get(ms, token)) else None
    case Arr(items) =>
      (match ParseIndex(token)
       case Some(i) => if i < |items| then Some(items[i]) else None
       case None => None)
    case _ => None
  }

  /** What a pointer refers to in a document: each "/token" steps into the value reached before it. */
  function Resolve(root: Json, pointer: string): Option<Json> {
    if pointer == [] then Some(root)
    else
      var k := LastSlash(pointer);
      if k < 0 then None
      else
        match Resolve(root, pointer[..k])
        case None => None
        case Some(j) => Step(j, Unescape(pointer[k + 1..]))
  }

  // ------------------------------------------------------------------ laws

  lemma {:induction false} EscapeRoundTrip(token: string)
    ensures Unescape(Escape(token)) == token
  {
    if token != [] {
      EscapeRoundTrip(token[1..]);
      var e, rest := Escape(token), Escape(token[1..]);
      if token[0] == '~' || token[0] == '/' {
        assert e[2..] == rest;
      } else {
        assert e[1..] == rest;
      }
      assert token == [token[0]] + token[1..];
    }
  }

  lemma {:induction false} PlainUnescape(s: string)
    requires '~' !in s
    ensures Unescape(s) == s
  {
    if s != [] {
      PlainUnescape(s[1..]);
      assert s == [s[0]] + s[1..];
    }
  }

  lemma {:induction false} LastSlashOfAppend(base: string, e: string)
    requires '/' !in e
    ensures LastSlash(base + "/" + e) == |base|
  {
    var s := base + "/" + e;
    if e != [] {
      LastSlashOfAppend(base, e[..|e| - 1]);
      assert s[..|s| - 1] == base + "/" + e[..|e| - 1];
    }
  }

  /** Appending an escaped token takes exactly one more step. */
  lemma {:induction false} ResolveAppend(root: Json, base: string, e: string)
    requires '/' !in e
    requires Resolve(root, base).Some?
    ensures Resolve(root, base + "/" + e) == Step(Resolve(root, base).value, Unescape(e))
  {
    var s := base + "/" + e;
    LastSlashOfAppend(base, e);
    assert s[..|base|] == base;
    assert s[|base| + 1..] == e;
  }

  /** `appendPointer` with a key goes to that member of an object. */
  lemma {:induction false} ResolveKey(root: Json, base: string, key: string)
    requires Resolve(root, base).Some? && Resolve(root, base).value.Obj?
    ensures Resolve(root, AppendKey(base, key)) ==
            if Has(Resolve(root, base).value.members, key)
            then Some(Get(Resolve(root, base).value.members, key)) else None
  {
    EscapeRoundTrip(key);
    ResolveAppend(root, base, Escape(key));
  }

  /** `appendPointer` with an index goes to that element of an array. */
  lemma {:induction false} ResolveIndex(root: Json, base: string, i: nat)
    requires Resolve(root, base).Some? && Resolve(root, base).value.Arr?
    requires i < |Resolve(root, base).value.items|
    ensures Resolve(root, AppendIndex(base, i)) == Some(Resolve(root, base).value.items[i])
  {
    var t := Decimal.ToText(i);
    assert '/' !in t && '~' !in t;
    PlainUnescape(t);
    ResolveAppend(root, base, t);
    Decimal.ValueOfText(i);
    assert |t| > 1 ==> t[0] != '0' by {
      if i < 10 { assert |t| == 1; }
    }
  }

  lemma {:induction false} MemberResolves(root: Json, base: string, ms: seq<Member>, i: nat)
    requires Resolve(root, base) == Some(Obj(ms))
    requires DistinctKeys(Obj(ms)) && i < |ms|
    ensures Resolve(root, AppendKey(base, ms[i].key)) == Some(ms[i].val)
  {
    MemberAt(ms, i);
    ResolveKey(root, base, ms[i].key);
  }
}
