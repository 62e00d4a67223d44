/** Every reported location exists: pointers resolve by section 4 of RFC 6901. */
module Locations {
  import opened Optional
  import opened Json
  import opened Pointer
  import opened Schema
  import opened Validation

  /** A pointer to a member that its object lacks. */
  ghost predicate Missing(root: Json, path: string, parent: string, name: string) {
    && path == AppendKey(parent, name)
    && Resolve(root, parent).Some?
    && Resolve(root, parent).value.Obj?
    && !Has(Resolve(root, parent).value.members, name)
  }

  ghost predicate Located(value: Json, schema: Json, e: Error) {
    && Resolve(schema, e.schemaPath).Some?
    && if e.reason == MissingRequired
       then exists parent, name :: Missing(value, e.path, parent, name)
       else Resolve(value, e.path).Some?
  }

  ghost predicate AllLocated(value: Json, schema: Json, es: seq<Error>) {
    forall e | e in es :: Located(value, schema, e)
  }

  /** The pointers of `at` lead to this value and this schema. */
  ghost predicate Standing(value: Json, schema: Json, v: Json, s: Json, at: Place) {
    && Resolve(value, at.path) == Some(v) && DistinctKeys(v)
    && Resolve(schema, at.schemaPath) == Some(s) && DistinctKeys(s)
  }

  lemma {:induction false} KeywordResolves(p: Platform, schema: Json, ms: seq<Member>, path: string, k: Keyword)
    requires Resolve(schema, path) == Some(Obj(ms)) && On(p, ms, k)
    ensures Resolve(schema, AppendKey(path, p.kw(k))) == Some(At(p, ms, k))
  {
    ResolveKey(schema, path, p.kw(k));
  }

  lemma {:induction false} FaultLocated(
    p: Platform, value: Json, schema: Json, v: Json, ms: seq<Member>, at: Place, k: Keyword, reason: Reason)
    requires Standing(value, schema, v, Obj(ms), at) && On(p, ms, k) && reason != MissingRequired
    ensures Located(value, schema, Fault(p, at, k, reason))
  {
    KeywordResolves(p, schema, ms, at.schemaPath, k);
  }

  lemma {:induction false} Joined(value: Json, schema: Json, a: seq<Error>, b: seq<Error>)
    requires AllLocated(value, schema, a) && AllLocated(value, schema, b)
    ensures AllLocated(value, schema, a + b)
  {
  }

  /** `When(b, Fault(...))` for a keyword that is present. */
  lemma {:induction false} FaultWhen(
    p: Platform, value: Json, schema: Json, v: Json, ms: seq<Member>, at: Place, b: bool, k: Keyword, reason: Reason)
    requires Standing(value, schema, v, Obj(ms), at) && (b ==> On(p, ms, k)) && reason != MissingRequired
    ensures AllLocated(value, schema, When(b, Fault(p, at, k, reason)))
  {
    if b { FaultLocated(p, value, schema, v, ms, at, k, reason); }
  }

  lemma {:induction false} ValueErrorsLocated(
    p: Platform, value: Json, schema: Json, v: Json, ms: seq<Member>, at: Place)
    requires LocalKinds(p, ms) && Standing(value, schema, v, Obj(ms), at)
    ensures AllLocated(value, schema, ValueErrors(p, v, ms, at))
  {
    FaultWhen(p, value, schema, v, ms, at, On(p, ms, Enum) && !InEnum(p, v, At(p, ms, Enum).items), Enum, NotInEnum);
    FaultWhen(p, value, schema, v, ms, at, On(p, ms, Const) && !Equal(p, v, At(p, ms, Const)), Const, NotConst);
  }

  lemma {:induction false} AbsentLocated(
    p: Platform, value: Json, schema: Json, vms: seq<Member>, ms: seq<Member>, at: Place, name: string)
    requires Standing(value, schema, Obj(vms), Obj(ms), at) && On(p, ms, Required) && !Has(vms, name)
    ensures Located(value, schema, AbsentError(p, at, name))
  {
    KeywordResolves(p, schema, ms, at.schemaPath, Required);
    assert Missing(value, AppendKey(at.path, name), at.path, name);
  }

  lemma {:induction false} CopyLocated(
    p: Platform, value: Json, schema: Json, xs: seq<Json>, ms: seq<Member>, at: Place, j: nat)
    requires Standing(value, schema, Arr(xs), Obj(ms), at) && On(p, ms, UniqueItems) && j < |xs|
    ensures Located(value, schema, CopyError(p, at, j))
  {
    ResolveIndex(value, at.path, j);
    KeywordResolves(p, schema, ms, at.schemaPath, UniqueItems);
  }

  lemma {:induction false} GatherLocated(value: Json, schema: Json, g: nat -> seq<Error>, i: nat)
    requires forall k: nat | k < i :: AllLocated(value, schema, g(k))
    ensures AllLocated(value, schema, Gather(g, i))
  {
    if i > 0 {
      GatherLocated(value, schema, g, i - 1);
      Joined(value, schema, Gather(g, i - 1), g(i - 1));
    }
  }

  lemma {:induction false} RequiredLocated(
    p: Platform, value: Json, schema: Json, vms: seq<Member>, ms: seq<Member>, at: Place, names: seq<Json>)
    requires Standing(value, schema, Obj(vms), Obj(ms), at) && On(p, ms, Required) && AllStrings(names)
    ensures AllLocated(value, schema, Gather(AbsentAt(p, vms, names, at), |names|))
  {
    var g := AbsentAt(p, vms, names, at);
    forall k: nat | k < |names| ensures AllLocated(value, schema, g(k)) {
      if !Has(vms, names[k].s) { AbsentLocated(p, value, schema, vms, ms, at, names[k].s); }
    }
    GatherLocated(value, schema, g, |names|);
  }

  lemma {:induction false} ObjectErrorsLocated(
    p: Platform, value: Json, schema: Json, vms: seq<Member>, ms: seq<Member>, at: Place)
    requires LocalKinds(p, ms) && Standing(value, schema, Obj(vms), Obj(ms), at)
    ensures AllLocated(value, schema, ObjectErrors(p, vms, ms, at))
  {
    FaultWhen(p, value, schema, Obj(vms), ms, at, Fewer(p, |vms|, ms, MinProperties), MinProperties, TooFewProperties);
    FaultWhen(p, value, schema, Obj(vms), ms, at, More(p, |vms|, ms, MaxProperties), MaxProperties, TooManyProperties);
    if On(p, ms, Required) {
      RequiredLocated(p, value, schema, vms, ms, at, At(p, ms, Required).items);
    }
  }

  lemma {:induction false} CopyAtLocated(
    p: Platform, value: Json, schema: Json, xs: seq<Json>, ms: seq<Member>, at: Place, k: nat)
    requires Standing(value, schema, Arr(xs), Obj(ms), at) && On(p, ms, UniqueItems) && k < |xs|
    ensures AllLocated(value, schema, CopyAt(p, xs, at)(k))
  {
    CopyWhenLocated(p, value, schema, xs, ms, at, FirstCopy(p, xs, k, k + 1));
  }

  lemma {:induction false} CopyWhenLocated(
    p: Platform, value: Json, schema: Json, xs: seq<Json>, ms: seq<Member>, at: Place, copy: nat)
    requires Standing(value, schema, Arr(xs), Obj(ms), at) && On(p, ms, UniqueItems)
    ensures AllLocated(value, schema, When(copy < |xs|, CopyError(p, at, copy)))
  {
    if copy < |xs| { CopyLocated(p, value, schema, xs, ms, at, copy); }
  }

  lemma {:induction false} UniqueLocated(
    p: Platform, value: Json, schema: Json, xs: seq<Json>, ms: seq<Member>, at: Place)
    requires Standing(value, schema, Arr(xs), Obj(ms), at) && On(p, ms, UniqueItems)
    ensures AllLocated(value, schema, Gather(CopyAt(p, xs, at), |xs|))
  {
    var g := CopyAt(p, xs, at);
    forall k: nat | k < |xs| ensures AllLocated(value, schema, g(k)) {
      CopyAtLocated(p, value, schema, xs, ms, at, k);
    }
    GatherLocated(value, schema, g, |xs|);
  }

  lemma {:induction false} ArrayErrorsLocated(
    p: Platform, value: Json, schema: Json, xs: seq<Json>, ms: seq<Member>, at: Place)
    requires LocalKinds(p, ms) && Standing(value, schema, Arr(xs), Obj(ms), at)
    ensures AllLocated(value, schema, ArrayErrors(p, xs, ms, at))
  {
    FaultWhen(p, value, schema, Arr(xs), ms, at, Fewer(p, |xs|, ms, MinItems), MinItems, TooFewItems);
    FaultWhen(p, value, schema, Arr(xs), ms, at, More(p, |xs|, ms, MaxItems), MaxItems, TooManyItems);
    if On(p, ms, UniqueItems) { UniqueLocated(p, value, schema, xs, ms, at); }
  }

  /** An error at the value itself, blamed on the schema or on one of its keywords. */
  ghost predicate Plain(p: Platform, ms: seq<Member>, at: Place, e: Error) {
    && e.path == at.path && e.reason != MissingRequired
    && (e.schemaPath == at.schemaPath
        || exists k: Keyword :: On(p, ms, k) && e.schemaPath == AppendKey(at.schemaPath, p.kw(k)))
  }

  lemma {:induction false} StringErrorsPlain(c: Config, text: string, ms: seq<Member>, at: Place)
    requires LimitKind(c.p, ms, MinLength) && LimitKind(c.p, ms, MaxLength)
    requires On(c.p, ms, Pattern) ==> At(c.p, ms, Pattern).Str?
    ensures forall e | e in StringErrors(c, text, ms, at) :: Plain(c.p, ms, at, e)
  {
  }

  lemma {:induction false} NumberErrorsPlain(p: Platform, n: Number, ms: seq<Member>, at: Place)
    requires On(p, ms, Minimum) ==> At(p, ms, Minimum).Num?
    requires On(p, ms, Maximum) ==> At(p, ms, Maximum).Num?
    requires On(p, ms, MultipleOf) ==> At(p, ms, MultipleOf).Num?
    ensures forall e | e in NumberErrors(p, n, ms, at) :: Plain(p, ms, at, e)
  {
  }

  lemma {:induction false} PlainLocated(
    p: Platform, value: Json, schema: Json, v: Json, ms: seq<Member>, at: Place, es: seq<Error>)
    requires Standing(value, schema, v, Obj(ms), at) && forall e | e in es :: Plain(p, ms, at, e)
    ensures AllLocated(value, schema, es)
  {
    forall e | e in es ensures Located(value, schema, e) {
      if e.schemaPath != at.schemaPath {
        var k: Keyword :| On(p, ms, k) && e.schemaPath == AppendKey(at.schemaPath, p.kw(k));
        KeywordResolves(p, schema, ms, at.schemaPath, k);
      }
    }
  }

  lemma {:induction false} ShapeErrorsLocated(
    c: Config, value: Json, schema: Json, v: Json, ms: seq<Member>, at: Place)
    requires LocalKinds(c.p, ms) && Standing(value, schema, v, Obj(ms), at)
    ensures AllLocated(value, schema, ShapeErrors(c, v, ms, at))
  {
    match v
    case Obj(vms) => ObjectErrorsLocated(c.p, value, schema, vms, ms, at);
    case Arr(xs) => ArrayErrorsLocated(c.p, value, schema, xs, ms, at);
    case Str(text) =>
      StringErrorsPlain(c, text, ms, at);
      PlainLocated(c.p, value, schema, v, ms, at, StringErrors(c, text, ms, at));
    case Num(n) =>
      NumberErrorsPlain(c.p, n, ms, at);
      PlainLocated(c.p, value, schema, v, ms, at, NumberErrors(c.p, n, ms, at));
    case _ =>
  }

  // ------------------------------------------------------------ sub-schemas

  lemma {:induction false} ChainLocated(value: Json, schema: Json, f: Round, i: nat, n: nat)
    requires forall k: nat, m: nat | k < i :: AllLocated(value, schema, f(k, m).errors)
    ensures AllLocated(value, schema, Chain(f, i, n).errors)
  {
    if i > 0 {
      ChainLocated(value, schema, f, i - 1, n);
      var r := Chain(f, i - 1, n);
      Joined(value, schema, r.errors, f(i - 1, r.nodes).errors);
    }
  }

  lemma {:induction false} UnderStands(
    p: Platform, value: Json, schema: Json, v: Json, ms: seq<Member>, at: Place, k: Keyword, i: nat)
    requires Standing(value, schema, v, Obj(ms), at) && On(p, ms, k)
    requires At(p, ms, k).Arr? && i < |At(p, ms, k).items|
    ensures Standing(value, schema, v, At(p, ms, k).items[i], at.Under(p.kw(k), i))
  {
    KeywordResolves(p, schema, ms, at.schemaPath, k);
    KeyedDistinct(p, ms, k);
    ResolveIndex(schema, AppendKey(at.schemaPath, p.kw(k)), i);
  }

  lemma {:induction false} KeyedDistinct(p: Platform, ms: seq<Member>, k: Keyword)
    requires DistinctKeys(Obj(ms)) && On(p, ms, k)
    ensures DistinctKeys(At(p, ms, k))
  {
    var i :| 0 <= i < |ms| && ms[i] == Member(p.kw(k), At(p, ms, k));
    assert DistinctKeys(ms[i].val);
  }

  lemma {:induction false} AllOfLocated(
    c: Config, value: Json, schema: Json, v: Json, ms: seq<Member>, at: Place, n: nat)
    requires ListKinds(c.p, ms, AllOf) && Standing(value, schema, v, Obj(ms), at)
    ensures AllLocated(value, schema, AllOfPart(c, v, ms, at, n).errors)
    decreases ms, 1
  {
    if On(c.p, ms, AllOf) {
      var ss := At(c.p, ms, AllOf).items;
      var f := AllOfRound(c, v, ss, at);
      forall k: nat, m: nat | k < |ss| ensures AllLocated(value, schema, f(k, m).errors) {
        UnderStands(c.p, value, schema, v, ms, at, AllOf, k);
        RunLocated(c, value, schema, v, ss[k], at.Under(c.p.kw(AllOf), k), m);
      }
      ChainLocated(value, schema, f, |ss|, n);
    }
  }

  lemma {:induction false} PropertyStands(
    p: Platform, value: Json, schema: Json, vms: seq<Member>, ms: seq<Member>, at: Place, k: nat)
    requires Standing(value, schema, Obj(vms), Obj(ms), at) && On(p, ms, Properties) && At(p, ms, Properties).Obj?
    requires k < |At(p, ms, Properties).members| && Has(vms, At(p, ms, Properties).members[k].key)
    ensures var prop := At(p, ms, Properties).members[k];
            Standing(value, schema, Get(vms, prop.key), prop.val, at.Property(p, prop.key))
  {
    var props := At(p, ms, Properties).members;
    KeywordResolves(p, schema, ms, at.schemaPath, Properties);
    KeyedDistinct(p, ms, Properties);
    MemberResolves(schema, AppendKey(at.schemaPath, p.kw(Properties)), props, k);
    ResolveKey(value, at.path, props[k].key);
  }

  lemma {:induction false} PropertiesLocated(
    c: Config, value: Json, schema: Json, vms: seq<Member>, ms: seq<Member>, at: Place, n: nat)
    requires PropertiesKinds(c.p, ms) && Standing(value, schema, Obj(vms), Obj(ms), at)
    ensures AllLocated(value, schema, PropertiesPart(c, vms, ms, at, n).errors)
    decreases ms, 1
  {
    if On(c.p, ms, Properties) {
      var props := At(c.p, ms, Properties).members;
      var f := PropertyRound(c, vms, props, at);
      forall k: nat, m: nat | k < |props| ensures AllLocated(value, schema, f(k, m).errors) {
        if Has(vms, props[k].key) {
          PropertyStands(c.p, value, schema, vms, ms, at, k);
          RunLocated(c, value, schema, Get(vms, props[k].key), props[k].val, at.Property(c.p, props[k].key), m);
        }
      }
      ChainLocated(value, schema, f, |props|, n);
    }
  }

  lemma {:induction false} AdditionalStands(
    p: Platform, value: Json, schema: Json, vms: seq<Member>, ms: seq<Member>, at: Place, k: nat)
    requires Standing(value, schema, Obj(vms), Obj(ms), at) && On(p, ms, AdditionalProperties) && k < |vms|
    ensures Standing(value, schema, vms[k].val, At(p, ms, AdditionalProperties), at.Additional(p, vms[k].key))
    ensures Located(value, schema, ExtraError(p, at, vms[k].key))
  {
    KeywordResolves(p, schema, ms, at.schemaPath, AdditionalProperties);
    KeyedDistinct(p, ms, AdditionalProperties);
    MemberResolves(value, at.path, vms, k);
    assert DistinctKeys(vms[k].val);
  }

  lemma {:induction false} AdditionalOneLocated(
    c: Config, value: Json, schema: Json, vms: seq<Member>, ms: seq<Member>, at: Place, k: nat, m: nat)
    requires AdditionalKinds(c.p, ms) && Standing(value, schema, Obj(vms), Obj(ms), at)
    requires On(c.p, ms, AdditionalProperties) && k < |vms|
    ensures AllLocated(value, schema, AdditionalRound(c, vms, ms, At(c.p, ms, AdditionalProperties), at)(k, m).errors)
    decreases ms, 0
  {
    var extra := At(c.p, ms, AdditionalProperties);
    AdditionalStands(c.p, value, schema, vms, ms, at, k);
    if !extra.Bool? {
      RunLocated(c, value, schema, vms[k].val, extra, at.Additional(c.p, vms[k].key), m);
    }
  }

  lemma {:induction false} AdditionalLocated(
    c: Config, value: Json, schema: Json, vms: seq<Member>, ms: seq<Member>, at: Place, n: nat)
    requires AdditionalKinds(c.p, ms) && Standing(value, schema, Obj(vms), Obj(ms), at)
    ensures AllLocated(value, schema, AdditionalPart(c, vms, ms, at, n).errors)
    decreases ms, 1
  {
    if On(c.p, ms, AdditionalProperties) {
      var extra := At(c.p, ms, AdditionalProperties);
      var f := AdditionalRound(c, vms, ms, extra, at);
      forall k: nat, m: nat | k < |vms| ensures AllLocated(value, schema, f(k, m).errors) {
        AdditionalOneLocated(c, value, schema, vms, ms, at, k, m);
      }
      ChainLocated(value, schema, f, |vms|, n);
    }
  }

  lemma {:induction false} ItemStands(
    p: Platform, value: Json, schema: Json, xs: seq<Json>, ms: seq<Member>, at: Place, k: nat)
    requires Standing(value, schema, Arr(xs), Obj(ms), at) && On(p, ms, Items) && k < |xs|
    ensures Standing(value, schema, xs[k], At(p, ms, Items), at.Item(p, k))
  {
    KeywordResolves(p, schema, ms, at.schemaPath, Items);
    KeyedDistinct(p, ms, Items);
    ResolveIndex(value, at.path, k);
  }

  lemma {:induction false} ItemsLocated(
    c: Config, value: Json, schema: Json, xs: seq<Json>, ms: seq<Member>, at: Place, n: nat)
    requires SchemaKinds(c.p, ms, Items) && Standing(value, schema, Arr(xs), Obj(ms), at)
    ensures AllLocated(value, schema, ItemsPart(c, xs, ms, at, n).errors)
    decreases ms, 1
  {
    if On(c.p, ms, Items) {
      var item := At(c.p, ms, Items);
      var f := ItemRound(c, xs, item, at);
      forall k: nat, m: nat | k < |xs| ensures AllLocated(value, schema, f(k, m).errors) {
        ItemStands(c.p, value, schema, xs, ms, at, k);
        RunLocated(c, value, schema, xs[k], item, at.Item(c.p, k), m);
      }
      ChainLocated(value, schema, f, |xs|, n);
    }
  }

  lemma {:induction false} ChildrenLocated(
    c: Config, value: Json, schema: Json, v: Json, ms: seq<Member>, at: Place, n: nat)
    requires PropertiesKinds(c.p, ms) && AdditionalKinds(c.p, ms) && SchemaKinds(c.p, ms, Items)
    requires Standing(value, schema, v, Obj(ms), at)
    ensures AllLocated(value, schema, ChildrenPart(c, v, ms, at, n).errors)
    decreases ms, 2
  {
    match v
    case Obj(vms) =>
      PropertiesLocated(c, value, schema, vms, ms, at, n);
      AdditionalLocated(c, value, schema, vms, ms, at, PropertiesPart(c, vms, ms, at, n).nodes);
    case Arr(xs) => ItemsLocated(c, value, schema, xs, ms, at, n);
    case _ =>
  }

  lemma {:induction false} QuietErrorsPlain(c: Config, v: Json, ms: seq<Member>, at: Place)
    requires ListKinds(c.p, ms, AnyOf) && ListKinds(c.p, ms, OneOf) && SchemaKinds(c.p, ms, Not)
    ensures forall e | e in QuietErrors(c, v, ms, at) :: Plain(c.p, ms, at, e)
  {
    assert forall e | e in AnyOfErrors(c, v, ms, at) :: Plain(c.p, ms, at, e);
    assert forall e | e in OneOfErrors(c, v, ms, at) :: Plain(c.p, ms, at, e);
    assert forall e | e in NotErrors(c, v, ms, at) :: Plain(c.p, ms, at, e);
  }

  lemma {:induction false} BodyLocated(
    c: Config, value: Json, schema: Json, v: Json, ms: seq<Member>, at: Place, n: nat)
    requires WellKinded(c.p, Obj(ms)) && Standing(value, schema, v, Obj(ms), at)
    ensures AllLocated(value, schema, BodyRun(c, v, ms, at, n).errors)
    decreases ms, 3
  {
    ValueErrorsLocated(c.p, value, schema, v, ms, at);
    AllOfLocated(c, value, schema, v, ms, at, n);
    QuietErrorsPlain(c, v, ms, at);
    PlainLocated(c.p, value, schema, v, ms, at, QuietErrors(c, v, ms, at));
    ShapeErrorsLocated(c, value, schema, v, ms, at);
    ChildrenLocated(c, value, schema, v, ms, at, AllOfPart(c, v, ms, at, n).nodes);
  }

  lemma {:induction false} TypedLocated(
    c: Config, value: Json, schema: Json, v: Json, s: Json, at: Place, n: nat)
    requires WellKinded(c.p, s) && Standing(value, schema, v, s, at)
    ensures AllLocated(value, schema, TypedRun(c, v, s, at, n).errors)
    decreases s, 0
  {
    if TypeMismatch(c.p, v, s.members) {
      FaultLocated(c.p, value, schema, v, s.members, at, Type, WrongType);
    } else {
      BodyLocated(c, value, schema, v, s.members, at, n);
    }
  }

  /** Every error of a run names a schema location and a value location that exist, except that a
      missing required property is named under the object that lacks it. */
  lemma {:induction false} RunLocated(c: Config, value: Json, schema: Json, v: Json, s: Json, at: Place, n: nat)
    requires WellKinded(c.p, s) && Standing(value, schema, v, s, at)
    ensures AllLocated(value, schema, ValueRun(c, v, s, at, n).errors)
    decreases s, 1
  {
    if Refused(c, at, n) {
    } else {
      TypedLocated(c, value, schema, v, s, at, n + 1);
    }
  }
}
