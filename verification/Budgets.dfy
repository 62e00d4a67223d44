/** When the checks inside the recursion can fire at all. */
module Budgets {
  import opened Json
  import opened Schema
  import opened Validation
  import opened Visits

  ghost predicate Lacks(es: seq<Error>, r: Reason) {
    forall i | 0 <= i < |es| :: es[i].reason != r
  }

  /** No depth error; and no node error either, when `counted` says the counter has room. */
  ghost predicate Clean(es: seq<Error>, counted: bool) {
    Lacks(es, TooDeep) && (counted ==> Lacks(es, TooManyNodes))
  }

  ghost predicate Fits(c: Config, v: Json, size: nat, depth: nat, n: nat, counted: bool) {
    depth + Height(v) <= c.lim.maxDepth && (counted ==> n + Area(Size(v), size) <= c.lim.maxNodes)
  }

  lemma {:induction false} CleanJoin(a: seq<Error>, b: seq<Error>, counted: bool)
    requires Clean(a, counted) && Clean(b, counted)
    ensures Clean(a + b, counted)
  {
  }

  lemma {:induction false} GatherClean(g: nat -> seq<Error>, i: nat)
    requires forall k: nat | k < i :: Clean(g(k), true)
    ensures Clean(Gather(g, i), true)
  {
    if i > 0 {
      GatherClean(g, i - 1);
      CleanJoin(Gather(g, i - 1), g(i - 1), true);
    }
  }

  /** Two limit errors and then a clean list. */
  lemma {:induction false} LimitsClean(b1: bool, e1: Error, b2: bool, e2: Error, rest: seq<Error>)
    requires e1.reason != TooDeep && e1.reason != TooManyNodes && e2.reason != TooDeep && e2.reason != TooManyNodes
    requires Clean(rest, true)
    ensures Clean(When(b1, e1) + When(b2, e2) + rest, true)
  {
    CleanWhen(b1, e1);
    CleanWhen(b2, e2);
    CleanJoin(When(b1, e1), When(b2, e2), true);
    CleanJoin(When(b1, e1) + When(b2, e2), rest, true);
  }

  lemma {:induction false} AbsentClean(p: Platform, vms: seq<Member>, names: seq<Json>, at: Place)
    requires AllStrings(names)
    ensures Clean(Gather(AbsentAt(p, vms, names, at), |names|), true)
  {
    GatherClean(AbsentAt(p, vms, names, at), |names|);
  }

  lemma {:induction false} CopiesClean(p: Platform, xs: seq<Json>, at: Place)
    ensures Clean(Gather(CopyAt(p, xs, at), |xs|), true)
  {
    GatherClean(CopyAt(p, xs, at), |xs|);
  }

  lemma {:induction false} ObjectClean(p: Platform, vms: seq<Member>, ms: seq<Member>, at: Place)
    requires LocalKinds(p, ms)
    ensures Clean(ObjectErrors(p, vms, ms, at), true)
  {
    var rest := [];
    if On(p, ms, Required) {
      var names := At(p, ms, Required).items;
      AbsentClean(p, vms, names, at);
      rest := Gather(AbsentAt(p, vms, names, at), |names|);
    }
    LimitsClean(Fewer(p, |vms|, ms, MinProperties), Fault(p, at, MinProperties, TooFewProperties),
                More(p, |vms|, ms, MaxProperties), Fault(p, at, MaxProperties, TooManyProperties), rest);
  }

  lemma {:induction false} ArrayClean(p: Platform, xs: seq<Json>, ms: seq<Member>, at: Place)
    requires LocalKinds(p, ms)
    ensures Clean(ArrayErrors(p, xs, ms, at), true)
  {
    CopiesClean(p, xs, at);
    var unique := On(p, ms, UniqueItems) && At(p, ms, UniqueItems).b;
    LimitsClean(Fewer(p, |xs|, ms, MinItems), Fault(p, at, MinItems, TooFewItems),
                More(p, |xs|, ms, MaxItems), Fault(p, at, MaxItems, TooManyItems),
                if unique then Gather(CopyAt(p, xs, at), |xs|) else []);
  }

  lemma {:induction false} CleanWhen(b: bool, e: Error)
    requires e.reason != TooDeep && e.reason != TooManyNodes
    ensures Clean(When(b, e), true)
  {
  }

  lemma {:induction false} ThreeClean(b1: bool, e1: Error, b2: bool, e2: Error, b3: bool, e3: Error)
    requires forall e | e in [e1, e2, e3] :: e.reason != TooDeep && e.reason != TooManyNodes
    ensures Clean(When(b1, e1) + When(b2, e2) + When(b3, e3), true)
  {
    assert e1 in [e1, e2, e3] && e2 in [e1, e2, e3] && e3 in [e1, e2, e3];
    CleanWhen(b1, e1);
    CleanWhen(b2, e2);
    CleanWhen(b3, e3);
    CleanJoin(When(b1, e1), When(b2, e2), true);
    CleanJoin(When(b1, e1) + When(b2, e2), When(b3, e3), true);
  }

  lemma {:induction false} StringClean(c: Config, text: string, ms: seq<Member>, at: Place)
    requires LocalKinds(c.p, ms)
    ensures Clean(StringErrors(c, text, ms, at), true)
  {
    var n := Utf8Length(text);
    var over, e1 := |text| > c.lim.maxStringLength, Error(at.path, at.schemaPath, StringTooLong);
    var short, e2 := Fewer(c.p, n, ms, MinLength), Fault(c.p, at, MinLength, TooShort);
    var long, e3 := More(c.p, n, ms, MaxLength), Fault(c.p, at, MaxLength, TooLong);
    var odd := On(c.p, ms, Pattern) && !c.p.regexFinds(At(c.p, ms, Pattern).s, text);
    ThreeClean(over, e1, short, e2, long, e3);
    CleanWhen(odd, Fault(c.p, at, Pattern, NoPatternMatch));
    CleanJoin(When(over, e1) + When(short, e2) + When(long, e3), When(odd, Fault(c.p, at, Pattern, NoPatternMatch)),
              true);
  }

  lemma {:induction false} FiniteClean(p: Platform, n: Number, ms: seq<Member>, at: Place)
    requires On(p, ms, Minimum) ==> At(p, ms, Minimum).Num?
    requires On(p, ms, Maximum) ==> At(p, ms, Maximum).Num?
    requires On(p, ms, MultipleOf) ==> At(p, ms, MultipleOf).Num?
    ensures Clean(FiniteErrors(p, n, ms, at), true)
  {
    ThreeClean(On(p, ms, Minimum) && Below(p, n, At(p, ms, Minimum).n), Fault(p, at, Minimum, BelowMinimum),
               On(p, ms, Maximum) && Above(p, n, At(p, ms, Maximum).n), Fault(p, at, Maximum, AboveMaximum),
               On(p, ms, MultipleOf) && !NumberMultipleOf(p, n, At(p, ms, MultipleOf).n),
               Fault(p, at, MultipleOf, NotMultiple));
  }

  lemma {:induction false} NumberClean(p: Platform, n: Number, ms: seq<Member>, at: Place)
    requires LocalKinds(p, ms)
    ensures Clean(NumberErrors(p, n, ms, at), true)
  {
    FiniteClean(p, n, ms, at);
  }

  lemma {:induction false} ValueClean(p: Platform, v: Json, ms: seq<Member>, at: Place)
    requires LocalKinds(p, ms)
    ensures Clean(ValueErrors(p, v, ms, at), true)
  {
  }

  lemma {:induction false} QuietClean(c: Config, v: Json, ms: seq<Member>, at: Place)
    requires ListKinds(c.p, ms, AnyOf) && ListKinds(c.p, ms, OneOf) && SchemaKinds(c.p, ms, Not)
    ensures Clean(QuietErrors(c, v, ms, at), true)
  {
    var any, one, not := AnyOfErrors(c, v, ms, at), OneOfErrors(c, v, ms, at), NotErrors(c, v, ms, at);
    CleanJoin(any, one, true);
    CleanJoin(any + one, not, true);
  }

  lemma {:induction false} ShapeClean(c: Config, v: Json, ms: seq<Member>, at: Place)
    requires LocalKinds(c.p, ms)
    ensures Clean(ShapeErrors(c, v, ms, at), true)
  {
    match v
    case Obj(vms) => ObjectClean(c.p, vms, ms, at);
    case Arr(xs) => ArrayClean(c.p, xs, ms, at);
    case Str(text) => StringClean(c, text, ms, at);
    case Num(n) => NumberClean(c.p, n, ms, at);
    case _ =>
  }

  lemma {:induction false} ChainClean(f: Round, w: nat -> nat, i: nat, n: nat, counted: bool)
    requires forall k: nat, m: nat | k < i :: f(k, m).nodes <= m + w(k)
    requires forall k: nat, m: nat | k < i && m <= n + Sum(w, k) :: Clean(f(k, m).errors, counted)
    ensures Clean(Chain(f, i, n).errors, counted)
  {
    if i > 0 {
      ChainClean(f, w, i - 1, n, counted);
      ChainVisits(f, w, i - 1, n);
      var r := Chain(f, i - 1, n);
      CleanJoin(r.errors, f(i - 1, r.nodes).errors, counted);
    }
  }

  lemma {:induction false} AllOfClean(c: Config, v: Json, ss: seq<Json>, at: Place, n: nat, counted: bool)
    requires Distinguishes(c.p) && AllWellKinded(c.p, ss)
    requires Fits(c, v, SizeItems(ss, |ss|), at.depth, n, counted)
    ensures Clean(Chain(AllOfRound(c, v, ss, at), |ss|, n).errors, counted)
    decreases ss, 1
  {
    var f, w := AllOfRound(c, v, ss, at), ItemWeight(Size(v), ss);
    AllOfRoundsVisit(c, v, ss, at);
    ItemWeights(Size(v), ss, |ss|);
    forall k: nat, m: nat | k < |ss| && m <= n + Sum(w, k) ensures Clean(f(k, m).errors, counted) {
      SumGrows(w, k, |ss|);
      RunClean(c, v, ss[k], at.Under(c.p.kw(AllOf), k), m, counted);
    }
    ChainClean(f, w, |ss|, n, counted);
  }

  lemma {:induction false} PropertyClean(
    c: Config, vms: seq<Member>, props: seq<Member>, at: Place, k: nat, m: nat, counted: bool)
    requires Distinguishes(c.p) && ValuesWellKinded(c.p, props) && k < |props|
    requires at.depth + Height(Obj(vms)) <= c.lim.maxDepth
    requires counted ==> m + MemberWeight(Size(Obj(vms)), props)(k) <= c.lim.maxNodes
    ensures Clean(PropertyRound(c, vms, props, at)(k, m).errors, counted)
    decreases props, 0
  {
    var key, s := props[k].key, props[k].val;
    if Has(vms, key) {
      var i :| 0 <= i < |vms| && vms[i] == Member(key, Get(vms, key));
      MemberBounds(vms, i, |vms|);
      AreaMonotone(Size(vms[i].val), Size(Obj(vms)), Size(s), Size(s));
      RunClean(c, Get(vms, key), s, at.Property(c.p, key), m, counted);
    }
  }

  lemma {:induction false} PropertiesClean(
    c: Config, vms: seq<Member>, props: seq<Member>, at: Place, n: nat, counted: bool)
    requires Distinguishes(c.p) && ValuesWellKinded(c.p, props)
    requires Fits(c, Obj(vms), SizeMembers(props, |props|), at.depth, n, counted)
    ensures Clean(Chain(PropertyRound(c, vms, props, at), |props|, n).errors, counted)
    decreases props, 1
  {
    var f, w := PropertyRound(c, vms, props, at), MemberWeight(Size(Obj(vms)), props);
    PropertyRoundsVisit(c, vms, props, at);
    MemberWeights(Size(Obj(vms)), props, |props|);
    forall k: nat, m: nat | k < |props| && m <= n + Sum(w, k) ensures Clean(f(k, m).errors, counted) {
      SumGrows(w, k, |props|);
      PropertyClean(c, vms, props, at, k, m, counted);
    }
    ChainClean(f, w, |props|, n, counted);
  }

  lemma {:induction false} ExtraClean(
    c: Config, vms: seq<Member>, ms: seq<Member>, extra: Json, at: Place, k: nat, m: nat, counted: bool)
    requires Distinguishes(c.p) && (extra.Bool? || WellKinded(c.p, extra)) && k < |vms|
    requires at.depth + Height(Obj(vms)) <= c.lim.maxDepth
    requires counted ==> m + ValueWeight(vms, Size(extra))(k) <= c.lim.maxNodes
    ensures Clean(AdditionalRound(c, vms, ms, extra, at)(k, m).errors, counted)
    decreases extra, 2
  {
    MemberBounds(vms, k, |vms|);
    var out := AdditionalRound(c, vms, ms, extra, at)(k, m);
    if Declared(c.p, ms, vms[k].key) || extra == Bool(true) {
      assert out.errors == [];
    } else if extra.Bool? {
      assert out.errors == [ExtraError(c.p, at, vms[k].key)];
    } else {
      RunClean(c, vms[k].val, extra, at.Additional(c.p, vms[k].key), m, counted);
    }
  }

  lemma {:induction false} AdditionalClean(
    c: Config, vms: seq<Member>, ms: seq<Member>, extra: Json, at: Place, n: nat, counted: bool)
    requires Distinguishes(c.p) && (extra.Bool? || WellKinded(c.p, extra))
    requires Fits(c, Obj(vms), Size(extra), at.depth, n, counted)
    ensures Clean(Chain(AdditionalRound(c, vms, ms, extra, at), |vms|, n).errors, counted)
    decreases extra, 3
  {
    var f, w := AdditionalRound(c, vms, ms, extra, at), ValueWeight(vms, Size(extra));
    AdditionalRoundsVisit(c, vms, ms, extra, at);
    ValueWeights(vms, Size(extra), |vms|);
    AreaMonotone(SizeMembers(vms, |vms|), Size(Obj(vms)), Size(extra), Size(extra));
    forall k: nat, m: nat | k < |vms| && m <= n + Sum(w, k) ensures Clean(f(k, m).errors, counted) {
      SumGrows(w, k, |vms|);
      ExtraClean(c, vms, ms, extra, at, k, m, counted);
    }
    ChainClean(f, w, |vms|, n, counted);
  }

  lemma {:induction false} ItemsClean(c: Config, xs: seq<Json>, item: Json, at: Place, n: nat, counted: bool)
    requires Distinguishes(c.p) && WellKinded(c.p, item)
    requires Fits(c, Arr(xs), Size(item), at.depth, n, counted)
    ensures Clean(Chain(ItemRound(c, xs, item, at), |xs|, n).errors, counted)
    decreases item, 2
  {
    var f, w := ItemRound(c, xs, item, at), ElementWeight(xs, Size(item));
    ItemRoundsVisit(c, xs, item, at);
    ElementWeights(xs, Size(item), |xs|);
    AreaMonotone(SizeItems(xs, |xs|), Size(Arr(xs)), Size(item), Size(item));
    forall k: nat, m: nat | k < |xs| && m <= n + Sum(w, k) ensures Clean(f(k, m).errors, counted) {
      SumGrows(w, k, |xs|);
      ItemBounds(xs, k, |xs|);
      RunClean(c, xs[k], item, at.Item(c.p, k), m, counted);
    }
    ChainClean(f, w, |xs|, n, counted);
  }

  lemma {:induction false} ChildrenClean(c: Config, v: Json, ms: seq<Member>, at: Place, n: nat, counted: bool)
    requires Distinguishes(c.p) && PropertiesKinds(c.p, ms) && AdditionalKinds(c.p, ms) && SchemaKinds(c.p, ms, Items)
    requires at.depth + Height(v) <= c.lim.maxDepth
    requires counted ==>
      n + Area(Size(v), Nodes(c.p, ms, Properties)) + Area(Size(v), Nodes(c.p, ms, AdditionalProperties))
      + Area(Size(v), Nodes(c.p, ms, Items)) <= c.lim.maxNodes
    ensures Clean(ChildrenPart(c, v, ms, at, n).errors, counted)
    decreases ms, 2
  {
    match v
    case Obj(vms) =>
      if On(c.p, ms, Properties) {
        var props := At(c.p, ms, Properties).members;
        AreaMonotone(Size(v), Size(v), SizeMembers(props, |props|), Nodes(c.p, ms, Properties));
        PropertiesClean(c, vms, props, at, n, counted);
      }
      PropertiesVisits(c, vms, ms, at, n);
      var m := PropertiesPart(c, vms, ms, at, n);
      if On(c.p, ms, AdditionalProperties) {
        AdditionalClean(c, vms, ms, At(c.p, ms, AdditionalProperties), at, m.nodes, counted);
      }
      CleanJoin(m.errors, AdditionalPart(c, vms, ms, at, m.nodes).errors, counted);
      assert ChildrenPart(c, v, ms, at, n) == ObjectKids(c, vms, ms, at, n);
    case Arr(xs) =>
      if On(c.p, ms, Items) { ItemsClean(c, xs, At(c.p, ms, Items), at, n, counted); }
    case _ =>
  }

  lemma {:induction false} AllOfPartClean(c: Config, v: Json, ms: seq<Member>, at: Place, n: nat, counted: bool)
    requires Distinguishes(c.p) && ListKinds(c.p, ms, AllOf)
    requires Fits(c, v, Nodes(c.p, ms, AllOf), at.depth, n, counted)
    ensures Clean(AllOfPart(c, v, ms, at, n).errors, counted)
    decreases ms, 2
  {
    if On(c.p, ms, AllOf) {
      var ss := At(c.p, ms, AllOf).items;
      AreaMonotone(Size(v), Size(v), SizeItems(ss, |ss|), Nodes(c.p, ms, AllOf));
      AllOfClean(c, v, ss, at, n, counted);
    }
  }

  lemma {:induction false} FivePartsClean(
    a: seq<Error>, b: seq<Error>, d: seq<Error>, e: seq<Error>, f: seq<Error>, counted: bool)
    requires Clean(a, true) && Clean(b, counted) && Clean(d, true) && Clean(e, true) && Clean(f, counted)
    ensures Clean(a + b + d + e + f, counted)
  {
    CleanJoin(a, b, counted);
    CleanJoin(a + b, d, counted);
    CleanJoin(a + b + d, e, counted);
    CleanJoin(a + b + d + e, f, counted);
  }

  lemma {:induction false} BodyClean(c: Config, v: Json, ms: seq<Member>, at: Place, n: nat, counted: bool)
    requires Distinguishes(c.p) && WellKinded(c.p, Obj(ms))
    requires n >= 1 && Fits(c, v, Size(Obj(ms)), at.depth, n - 1, counted)
    ensures Clean(BodyRun(c, v, ms, at, n).errors, counted)
    decreases ms, 3
  {
    ApplicatorsFit(c.p, ms);
    AreaOfParts(Size(v), Nodes(c.p, ms, AllOf), Nodes(c.p, ms, Properties), Nodes(c.p, ms, AdditionalProperties),
                Nodes(c.p, ms, Items), Size(Obj(ms)));
    var all := AllOfPart(c, v, ms, at, n);
    AllOfPartClean(c, v, ms, at, n, counted);
    AllOfVisits(c, v, ms, at, n);
    ChildrenClean(c, v, ms, at, all.nodes, counted);
    ShapeClean(c, v, ms, at);
    ValueClean(c.p, v, ms, at);
    QuietClean(c, v, ms, at);
    FivePartsClean(ValueErrors(c.p, v, ms, at), all.errors, QuietErrors(c, v, ms, at), ShapeErrors(c, v, ms, at),
                   ChildrenPart(c, v, ms, at, all.nodes).errors, counted);
  }

  /** Once the value's height fits, no depth error occurs; once |value| * |schema| fits, no node error
      occurs either. */
  lemma {:induction false} RunClean(c: Config, v: Json, s: Json, at: Place, n: nat, counted: bool)
    requires Distinguishes(c.p) && WellKinded(c.p, s)
    requires Fits(c, v, Size(s), at.depth, n, counted)
    ensures Clean(ValueRun(c, v, s, at, n).errors, counted)
    decreases s, 1
  {
    AreaGrows(Size(v), 0, Size(s));
    if !Refused(c, at, n) { TypedClean(c, v, s, at, n + 1, counted); }
  }

  lemma {:induction false} TypedClean(c: Config, v: Json, s: Json, at: Place, n: nat, counted: bool)
    requires Distinguishes(c.p) && WellKinded(c.p, s)
    requires n >= 1 && Fits(c, v, Size(s), at.depth, n - 1, counted)
    ensures Clean(TypedRun(c, v, s, at, n).errors, counted)
    decreases s, 0
  {
    if !TypeMismatch(c.p, v, s.members) { BodyClean(c, v, s.members, at, n, counted); }
  }
}
