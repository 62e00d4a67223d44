/**
 The verdict and the standard.  `Agreement` shows that the validator decides `Satisfies` with the library's
 64-bit arithmetic; here that is shown to be `Satisfies` with mathematical arithmetic wherever no integer is
 above the signed 64-bit range and the tolerance of `multipleOf` lets no other integers through.
 */
module Standard {
  import opened Json
  import opened Strings
  import opened Schema
  import opened Validation
  import opened Semantics

  // --------------------------------------------------- documents and platforms

  /** The integers from `low` to `high`. */
  datatype Range = Range(low: int, high: int)

  predicate Contains(r: Range, n: Number) {
    Integral(n) ==> r.low <= IntValue(n) <= r.high
  }

  /** Every integer is in the range, and members stand in key order, as a map-backed object keeps them. */
  ghost predicate Ordinary(r: Range, j: Json)
    decreases j
  {
    match j
    case Num(n) => Contains(r, n)
    case Arr(xs) => forall i | 0 <= i < |xs| :: Ordinary(r, xs[i])
    case Obj(ms) => Ascending(ms) && forall i | 0 <= i < |ms| :: Ordinary(r, ms[i].val)
    case _ => true
  }

  predicate Ascending(ms: seq<Member>) {
    forall i, j | 0 <= i < j < |ms| :: Before(ms[i].key, ms[j].key, 0)
  }

  /** No integer of the range wraps, and the tolerance adds no multiples to those of the range. */
  ghost predicate Suits(p: Platform, r: Range) {
    && r.high <= INT64_MAX
    && forall n, m | Integral(n) && Integral(m) && Contains(r, n) && Contains(r, m) && p.nearMultiple(n, m) ::
         Divides(n, m)
  }

  /** The documents lie in a range that suits the platform. */
  ghost predicate Faithful(p: Platform, v: Json, s: Json) {
    exists r :: Suits(p, r) && Ordinary(r, v) && Ordinary(r, s)
  }

  lemma {:induction false} OrdinaryMember(r: Range, ms: seq<Member>, key: string)
    requires Ordinary(r, Obj(ms)) && Has(ms, key)
    ensures Ordinary(r, Get(ms, key))
  {
    var i :| 0 <= i < |ms| && ms[i] == Member(key, Get(ms, key));
  }

  // ------------------------------------------------------------------ leaves

  lemma {:induction false} SameOrder(p: Platform, r: Range, m: Number, n: Number)
    requires Suits(p, r) && Contains(r, m) && Contains(r, n)
    ensures Order(Library, p, m, n) == Order(Mathematical, p, m, n)
  {
    if Integral(m) && Integral(n) { CompareExact(p, m, n); }
  }

  lemma {:induction false} SameMultiple(p: Platform, r: Range, n: Number, m: Number)
    requires Suits(p, r) && Contains(r, m) && Contains(r, n)
    ensures Multiple(Library, p, n, m) <==> Multiple(Mathematical, p, n, m)
  {
    if Integral(m) && Integral(n) && AsInt64(m) > 0 { MultipleOfExact(n, m); }
  }

  lemma {:induction false} AscendingDistinct(ms: seq<Member>)
    requires Ascending(ms)
    ensures forall i, j | 0 <= i < j < |ms| :: ms[i].key != ms[j].key
  {
    forall i, j | 0 <= i < j < |ms| ensures ms[i].key != ms[j].key {
      Trichotomy(ms[i].key, ms[j].key, 0);
    }
  }

  predicate KeysAmong(xs: seq<Member>, ys: seq<Member>) {
    forall i | 0 <= i < |xs| :: Has(ys, xs[i].key)
  }

  /** Two objects in key order with the same keys have them at the same positions. */
  lemma {:induction false} SameKeys(xs: seq<Member>, ys: seq<Member>, n: nat)
    requires Ascending(xs) && Ascending(ys) && KeysAmong(xs, ys) && KeysAmong(ys, xs) && n <= |xs|
    ensures n <= |ys| && forall i | 0 <= i < n :: xs[i].key == ys[i].key
  {
    if n > 0 {
      var k := n - 1;
      SameKeys(xs, ys, k);
      AscendingDistinct(xs);
      AscendingDistinct(ys);
      var j :| 0 <= j < |ys| && ys[j] == Member(xs[k].key, Get(ys, xs[k].key));
      assert k <= j;
      var i :| 0 <= i < |xs| && xs[i] == Member(ys[k].key, Get(xs, ys[k].key));
      assert k <= i;
      Trichotomy(xs[k].key, ys[k].key, 0);
    }
  }

  predicate Aligned(xs: seq<Member>, ys: seq<Member>) {
    |xs| == |ys| && forall i | 0 <= i < |xs| :: xs[i].key == ys[i].key
  }

  /** On objects in key order, looking members up by key is comparing them position by position. */
  lemma {:induction false} LookupIsPosition(p: Platform, xs: seq<Member>, ys: seq<Member>)
    requires Ascending(xs) && Ascending(ys)
    ensures SameValue(p, Obj(xs), Obj(ys)) <==>
              Aligned(xs, ys) && forall i | 0 <= i < |xs| :: SameValue(p, xs[i].val, ys[i].val)
  {
    if KeysAmong(xs, ys) && KeysAmong(ys, xs) {
      SameKeys(xs, ys, |xs|);
      SameKeys(ys, xs, |ys|);
    }
    if Aligned(xs, ys) {
      AscendingDistinct(xs);
      AscendingDistinct(ys);
      forall i | 0 <= i < |xs|
        ensures Has(xs, ys[i].key) && Has(ys, xs[i].key) && Get(ys, xs[i].key) == ys[i].val
      {
        MemberAt(xs, i);
        MemberAt(ys, i);
      }
    }
  }

  lemma {:induction false} SameEquality(p: Platform, r: Range, x: Json, y: Json)
    requires Suits(p, r) && Ordinary(r, x) && Ordinary(r, y)
    ensures Equal(p, x, y) <==> SameValue(p, x, y)
    decreases x
  {
    match (x, y) {
      case (Num(m), Num(n)) => if Integral(m) && Integral(n) { EqualExact(p, m, n); }
      case (Arr(xs), Arr(ys)) =>
        if |xs| == |ys| {
          forall i | 0 <= i < |xs| ensures Equal(p, xs[i], ys[i]) <==> SameValue(p, xs[i], ys[i]) {
            SameEquality(p, r, xs[i], ys[i]);
          }
        }
      case (Obj(xs), Obj(ys)) =>
        LookupIsPosition(p, xs, ys);
        if |xs| == |ys| {
          forall i | 0 <= i < |xs| ensures Equal(p, xs[i].val, ys[i].val) <==> SameValue(p, xs[i].val, ys[i].val) {
            SameEquality(p, r, xs[i].val, ys[i].val);
          }
        }
      case _ =>
    }
  }

  // -------------------------------------------------------- one schema object

  lemma {:induction false} SameDifferent(p: Platform, r: Range, xs: seq<Json>)
    requires Suits(p, r) && Ordinary(r, Arr(xs))
    ensures AllDifferent(Library, p, xs) <==> AllDifferent(Mathematical, p, xs)
  {
    forall i, j | 0 <= i < j < |xs| ensures Alike(Library, p, xs[i], xs[j]) <==> Alike(Mathematical, p, xs[i], xs[j]) {
      SameEquality(p, r, xs[i], xs[j]);
    }
  }

  lemma {:induction false} SameNumberHolds(p: Platform, r: Range, n: Number, ms: seq<Member>)
    requires Suits(p, r) && LocalKinds(p, ms) && Contains(r, n) && Ordinary(r, Obj(ms))
    ensures NumberHolds(Library, p, n, ms) <==> NumberHolds(Mathematical, p, n, ms)
  {
    if On(p, ms, Minimum) {
      OrdinaryMember(r, ms, p.kw(Minimum));
      SameOrder(p, r, n, At(p, ms, Minimum).n);
    }
    if On(p, ms, Maximum) {
      OrdinaryMember(r, ms, p.kw(Maximum));
      SameOrder(p, r, n, At(p, ms, Maximum).n);
    }
    if On(p, ms, MultipleOf) {
      OrdinaryMember(r, ms, p.kw(MultipleOf));
      SameMultiple(p, r, n, At(p, ms, MultipleOf).n);
    }
  }

  lemma {:induction false} SameShape(p: Platform, r: Range, v: Json, ms: seq<Member>)
    requires Suits(p, r) && LocalKinds(p, ms) && Ordinary(r, v) && Ordinary(r, Obj(ms))
    ensures ShapeHolds(Library, p, v, ms) <==> ShapeHolds(Mathematical, p, v, ms)
  {
    match v
    case Arr(xs) => SameDifferent(p, r, xs);
    case Num(n) => SameNumberHolds(p, r, n, ms);
    case _ =>
  }

  lemma {:induction false} SameEnum(p: Platform, r: Range, v: Json, items: seq<Json>)
    requires Suits(p, r) && Ordinary(r, v) && Ordinary(r, Arr(items))
    ensures (exists i | 0 <= i < |items| :: Alike(Library, p, items[i], v))
       <==> (exists i | 0 <= i < |items| :: Alike(Mathematical, p, items[i], v))
  {
    forall i | 0 <= i < |items| ensures Alike(Library, p, items[i], v) <==> Alike(Mathematical, p, items[i], v) {
      SameEquality(p, r, items[i], v);
    }
  }

  lemma {:induction false} SameValueHolds(p: Platform, r: Range, v: Json, ms: seq<Member>)
    requires Suits(p, r) && LocalKinds(p, ms) && Ordinary(r, v) && Ordinary(r, Obj(ms))
    ensures ValueHolds(Library, p, v, ms) <==> ValueHolds(Mathematical, p, v, ms)
  {
    if On(p, ms, Enum) {
      OrdinaryMember(r, ms, p.kw(Enum));
      SameEnum(p, r, v, At(p, ms, Enum).items);
    }
    if On(p, ms, Const) {
      OrdinaryMember(r, ms, p.kw(Const));
      SameEquality(p, r, v, At(p, ms, Const));
    }
  }

  // -------------------------------------------------------------- sub-schemas

  /** The members of a list of schemas mean the same, so any combination of them does. */
  lemma {:induction false} SameList(p: Platform, r: Range, v: Json, ss: seq<Json>)
    requires Suits(p, r) && AllWellKinded(p, ss) && Ordinary(r, v) && Ordinary(r, Arr(ss))
    ensures AllHold(Library, p, v, ss) <==> AllHold(Mathematical, p, v, ss)
    ensures SomeHolds(Library, p, v, ss) <==> SomeHolds(Mathematical, p, v, ss)
    ensures ExactlyOneHolds(Library, p, v, ss) <==> ExactlyOneHolds(Mathematical, p, v, ss)
    decreases ss, 0
  {
    forall i | 0 <= i < |ss| ensures Satisfies(Library, p, v, ss[i]) <==> Satisfies(Mathematical, p, v, ss[i]) {
      SameMeaning(p, r, v, ss[i]);
    }
  }

  lemma {:induction false} SameListAt(p: Platform, r: Range, v: Json, ms: seq<Member>, k: Keyword)
    requires Suits(p, r) && ListKinds(p, ms, k) && Ordinary(r, v) && Ordinary(r, Obj(ms)) && On(p, ms, k)
    ensures AllHold(Library, p, v, At(p, ms, k).items) <==> AllHold(Mathematical, p, v, At(p, ms, k).items)
    ensures SomeHolds(Library, p, v, At(p, ms, k).items) <==> SomeHolds(Mathematical, p, v, At(p, ms, k).items)
    ensures ExactlyOneHolds(Library, p, v, At(p, ms, k).items) <==>
              ExactlyOneHolds(Mathematical, p, v, At(p, ms, k).items)
    decreases ms, 0
  {
    OrdinaryMember(r, ms, p.kw(k));
    SameList(p, r, v, At(p, ms, k).items);
  }

  lemma {:induction false} SameInPlace(p: Platform, r: Range, v: Json, ms: seq<Member>)
    requires ListKinds(p, ms, AllOf) && ListKinds(p, ms, AnyOf) && ListKinds(p, ms, OneOf) && SchemaKinds(p, ms, Not)
    requires Suits(p, r) && Ordinary(r, v) && Ordinary(r, Obj(ms))
    ensures InPlaceHolds(Library, p, v, ms) <==> InPlaceHolds(Mathematical, p, v, ms)
    decreases ms, 1
  {
    if On(p, ms, AllOf) { SameListAt(p, r, v, ms, AllOf); }
    if On(p, ms, AnyOf) { SameListAt(p, r, v, ms, AnyOf); }
    if On(p, ms, OneOf) { SameListAt(p, r, v, ms, OneOf); }
    if On(p, ms, Not) {
      OrdinaryMember(r, ms, p.kw(Not));
      SameMeaning(p, r, v, At(p, ms, Not));
    }
  }

  lemma {:induction false} SameProperties(p: Platform, r: Range, vms: seq<Member>, props: seq<Member>)
    requires Suits(p, r) && ValuesWellKinded(p, props) && Ordinary(r, Obj(vms)) && Ordinary(r, Obj(props))
    ensures PropertiesHold(Library, p, vms, props) <==> PropertiesHold(Mathematical, p, vms, props)
    decreases props, 0
  {
    forall i | 0 <= i < |props| && Has(vms, props[i].key)
      ensures Satisfies(Library, p, Get(vms, props[i].key), props[i].val) <==>
                Satisfies(Mathematical, p, Get(vms, props[i].key), props[i].val)
    {
      OrdinaryMember(r, vms, props[i].key);
      SameMeaning(p, r, Get(vms, props[i].key), props[i].val);
    }
  }

  lemma {:induction false} SameAdditional(p: Platform, r: Range, vms: seq<Member>, ms: seq<Member>, extra: Json)
    requires Suits(p, r) && (extra.Bool? || WellKinded(p, extra))
    requires Ordinary(r, Obj(vms)) && Ordinary(r, extra)
    ensures AdditionalHold(Library, p, vms, ms, extra) <==> AdditionalHold(Mathematical, p, vms, ms, extra)
    decreases extra, 2
  {
    if !extra.Bool? {
      forall i | 0 <= i < |vms|
        ensures Satisfies(Library, p, vms[i].val, extra) <==> Satisfies(Mathematical, p, vms[i].val, extra)
      {
        SameMeaning(p, r, vms[i].val, extra);
      }
    }
  }

  lemma {:induction false} SameItems(p: Platform, r: Range, xs: seq<Json>, item: Json)
    requires Suits(p, r) && WellKinded(p, item) && Ordinary(r, Arr(xs)) && Ordinary(r, item)
    ensures ItemsHold(Library, p, xs, item) <==> ItemsHold(Mathematical, p, xs, item)
    decreases item, 2
  {
    forall i | 0 <= i < |xs| ensures Satisfies(Library, p, xs[i], item) <==> Satisfies(Mathematical, p, xs[i], item) {
      SameMeaning(p, r, xs[i], item);
    }
  }

  lemma {:induction false} SameChildren(p: Platform, r: Range, v: Json, ms: seq<Member>)
    requires Suits(p, r) && PropertiesKinds(p, ms) && AdditionalKinds(p, ms) && SchemaKinds(p, ms, Items)
    requires Ordinary(r, v) && Ordinary(r, Obj(ms))
    ensures ChildrenHold(Library, p, v, ms) <==> ChildrenHold(Mathematical, p, v, ms)
    decreases ms, 1
  {
    if v.Obj? && On(p, ms, Properties) {
      OrdinaryMember(r, ms, p.kw(Properties));
      SameProperties(p, r, v.members, At(p, ms, Properties).members);
    }
    if v.Obj? && On(p, ms, AdditionalProperties) {
      OrdinaryMember(r, ms, p.kw(AdditionalProperties));
      SameAdditional(p, r, v.members, ms, At(p, ms, AdditionalProperties));
    }
    if v.Arr? && On(p, ms, Items) {
      OrdinaryMember(r, ms, p.kw(Items));
      SameItems(p, r, v.items, At(p, ms, Items));
    }
  }

  /** On documents in a range that suits the platform, what the library computes is the standard's meaning. */
  lemma {:induction false} SameMeaning(p: Platform, r: Range, v: Json, s: Json)
    requires Suits(p, r) && WellKinded(p, s) && Ordinary(r, v) && Ordinary(r, s)
    ensures Satisfies(Library, p, v, s) <==> Satisfies(Mathematical, p, v, s)
    decreases s, 1
  {
    var ms := s.members;
    SameValueHolds(p, r, v, ms);
    SameShape(p, r, v, ms);
    SameInPlace(p, r, v, ms);
    SameChildren(p, r, v, ms);
  }

  // ---------------------------------------------------- the bound is needed

  /** The schema has the one keyword `k`, the name of no other. */
  ghost predicate Alone(p: Platform, ms: seq<Member>, k: Keyword, x: Json) {
    ms == [Member(p.kw(k), x)] && forall j: Keyword | j != k :: p.kw(j) != p.kw(k)
  }

  lemma {:induction false} AloneOn(p: Platform, ms: seq<Member>, k: Keyword, x: Json)
    requires Alone(p, ms, k, x)
    ensures On(p, ms, k) && At(p, ms, k) == x && forall j: Keyword | j != k :: !On(p, ms, j)
  {
    assert FieldsFrom(ms, 1) == map[];
    assert FieldsFrom(ms, 0) == map[p.kw(k) := x];
  }

  lemma {:induction false} AloneLocal(p: Platform, ms: seq<Member>, k: Keyword, x: Json)
    requires Alone(p, ms, k, x) && (k == Const || (k == MultipleOf && x.Num?))
    ensures LocalKinds(p, ms)
  {
    AloneOn(p, ms, k, x);
  }

  lemma {:induction false} AloneKinds(p: Platform, ms: seq<Member>, k: Keyword, x: Json)
    requires Alone(p, ms, k, x) && (k == Const || (k == MultipleOf && x.Num?))
    ensures WellKinded(p, Obj(ms))
  {
    AloneOn(p, ms, k, x);
    AloneLocal(p, ms, k, x);
    assert ListKinds(p, ms, AllOf) && ListKinds(p, ms, AnyOf) && ListKinds(p, ms, OneOf);
    assert SchemaKinds(p, ms, Not) && SchemaKinds(p, ms, Items);
  }

  lemma {:induction false} AloneInPlace(a: Arithmetic, p: Platform, v: Json, ms: seq<Member>)
    requires !On(p, ms, AllOf) && !On(p, ms, AnyOf) && !On(p, ms, OneOf) && !On(p, ms, Not)
    ensures InPlaceHolds(a, p, v, ms)
  {
  }

  lemma {:induction false} AloneValue(a: Arithmetic, p: Platform, v: Json, ms: seq<Member>)
    requires !On(p, ms, Type) && !On(p, ms, Enum)
    ensures ValueHolds(a, p, v, ms) <==> (On(p, ms, Const) ==> Alike(a, p, v, At(p, ms, Const)))
  {
  }

  lemma {:induction false} AloneShape(a: Arithmetic, p: Platform, n: Number, ms: seq<Member>)
    requires LocalKinds(p, ms) && Integral(n) && !On(p, ms, Minimum) && !On(p, ms, Maximum)
    ensures ShapeHolds(a, p, Num(n), ms) <==> (On(p, ms, MultipleOf) ==> Multiple(a, p, n, At(p, ms, MultipleOf).n))
  {
  }

  /** What an integer has to satisfy if the schema is just a `const` or a `multipleOf`. */
  lemma {:induction false} AloneMeaning(a: Arithmetic, p: Platform, n: Number, ms: seq<Member>, k: Keyword, x: Json)
    requires Alone(p, ms, k, x) && (k == Const || (k == MultipleOf && x.Num?)) && Integral(n)
    requires WellKinded(p, Obj(ms))
    ensures Satisfies(a, p, Num(n), Obj(ms)) <==> if k == Const then Alike(a, p, Num(n), x) else Multiple(a, p, n, x.n)
  {
    AloneOn(p, ms, k, x);
    AloneValue(a, p, Num(n), ms);
    AloneShape(a, p, n, ms);
    AloneInPlace(a, p, Num(n), ms);
  }

  lemma {:induction false} WrappedAlike(p: Platform, n: Number, x: Number)
    requires n == Unsigned(0xFFFF_FFFF_FFFF_FFFF) && x == Signed(-1)
    ensures Alike(Library, p, Num(n), Num(x)) && !Alike(Mathematical, p, Num(n), Num(x))
  {
  }

  /** `{"const": -1}` is satisfied by 2^64 - 1. */
  lemma {:induction false} ConstAcceptsWrapped(p: Platform, ms: seq<Member>, n: Number)
    requires Alone(p, ms, Const, Num(Signed(-1))) && n == Unsigned(0xFFFF_FFFF_FFFF_FFFF)
    ensures WellKinded(p, Obj(ms))
    ensures Satisfies(Library, p, Num(n), Obj(ms)) && !Satisfies(Mathematical, p, Num(n), Obj(ms))
  {
    AloneKinds(p, ms, Const, Num(Signed(-1)));
    AloneMeaning(Library, p, n, ms, Const, Num(Signed(-1)));
    AloneMeaning(Mathematical, p, n, ms, Const, Num(Signed(-1)));
    WrappedAlike(p, n, Signed(-1));
  }
}
