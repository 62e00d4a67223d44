/**
 Declarative meaning of the supported keywords, after sections 6 and 10.2 of the JSON Schema
 2020-12 Validation and Core documents: no traversal order, no budgets, no error lists.
 */
module Semantics {
  import opened Optional
  import opened Json
  import opened Schema
  import opened Validation

  // -------------------------------------------------------------- arithmetic

  /** How integers are compared and divided: by the library on 64 bits and with a tolerance, or by their
      mathematical values, which is what the standard means.  Doubles are the platform's either way. */
  datatype Arithmetic = Library | Mathematical

  function Order(a: Arithmetic, p: Platform, m: Number, n: Number): Option<int> {
    if a.Mathematical? && Integral(m) && Integral(n) then Some(SignInt(IntValue(m) - IntValue(n)))
    else CompareNumbers(p, m, n)
  }

  predicate SameNumber(p: Platform, m: Number, n: Number) {
    if Integral(m) && Integral(n) then IntValue(m) == IntValue(n) else NumbersEqual(p, m, n)
  }

  predicate Divides(n: Number, m: Number)
    requires Integral(n) && Integral(m)
  {
    IntValue(m) > 0 && IntValue(n) % IntValue(m) == 0
  }

  predicate Multiple(a: Arithmetic, p: Platform, n: Number, m: Number) {
    if a.Mathematical? && Integral(n) && Integral(m)
    then Divides(n, m)
    else NumberMultipleOf(p, n, m)
  }

  /** Equality of JSON values by the mathematical values of their integers, whatever the order of members. */
  predicate SameValue(p: Platform, x: Json, y: Json)
    decreases x
  {
    match (x, y)
    case (Num(m), Num(n)) => SameNumber(p, m, n)
    case (Arr(xs), Arr(ys)) => |xs| == |ys| && forall i | 0 <= i < |xs| :: SameValue(p, xs[i], ys[i])
    case (Obj(xs), Obj(ys)) =>
      && (forall i | 0 <= i < |xs| :: Has(ys, xs[i].key) && SameValue(p, xs[i].val, Get(ys, xs[i].key)))
      && (forall i | 0 <= i < |ys| :: Has(xs, ys[i].key))
    case _ => x == y
  }

  predicate Alike(a: Arithmetic, p: Platform, x: Json, y: Json) {
    if a.Library? then Equal(p, x, y) else SameValue(p, x, y)
  }

  // ---------------------------------------------------------------- keywords

  ghost predicate RequiredPresent(vms: seq<Member>, names: seq<Json>)
    requires AllStrings(names)
  {
    forall i | 0 <= i < |names| :: Has(vms, names[i].s)
  }

  ghost predicate AllDifferent(a: Arithmetic, p: Platform, xs: seq<Json>) {
    forall i, j | 0 <= i < j < |xs| :: !Alike(a, p, xs[i], xs[j])
  }

  ghost predicate ObjectHolds(p: Platform, vms: seq<Member>, ms: seq<Member>)
    requires LimitKind(p, ms, MinProperties) && LimitKind(p, ms, MaxProperties)
    requires On(p, ms, Required) ==> At(p, ms, Required).Arr? && AllStrings(At(p, ms, Required).items)
  {
    && (On(p, ms, MinProperties) ==> SizeOf(At(p, ms, MinProperties)) <= |vms|)
    && (On(p, ms, MaxProperties) ==> |vms| <= SizeOf(At(p, ms, MaxProperties)))
    && (On(p, ms, Required) ==> RequiredPresent(vms, At(p, ms, Required).items))
  }

  ghost predicate ArrayHolds(a: Arithmetic, p: Platform, xs: seq<Json>, ms: seq<Member>)
    requires LimitKind(p, ms, MinItems) && LimitKind(p, ms, MaxItems)
    requires On(p, ms, UniqueItems) ==> At(p, ms, UniqueItems).Bool?
  {
    && (On(p, ms, MinItems) ==> SizeOf(At(p, ms, MinItems)) <= |xs|)
    && (On(p, ms, MaxItems) ==> |xs| <= SizeOf(At(p, ms, MaxItems)))
    && (On(p, ms, UniqueItems) && At(p, ms, UniqueItems).b ==> AllDifferent(a, p, xs))
  }

  ghost predicate StringHolds(p: Platform, text: string, ms: seq<Member>)
    requires LimitKind(p, ms, MinLength) && LimitKind(p, ms, MaxLength)
    requires On(p, ms, Pattern) ==> At(p, ms, Pattern).Str?
  {
    && (On(p, ms, MinLength) ==> SizeOf(At(p, ms, MinLength)) <= Utf8Length(text))
    && (On(p, ms, MaxLength) ==> Utf8Length(text) <= SizeOf(At(p, ms, MaxLength)))
    && (On(p, ms, Pattern) ==> p.regexFinds(At(p, ms, Pattern).s, text))
  }

  ghost predicate NumberHolds(a: Arithmetic, p: Platform, n: Number, ms: seq<Member>)
    requires On(p, ms, Minimum) ==> At(p, ms, Minimum).Num?
    requires On(p, ms, Maximum) ==> At(p, ms, Maximum).Num?
    requires On(p, ms, MultipleOf) ==> At(p, ms, MultipleOf).Num?
  {
    && (n.Floating? ==> n.d.Finite?)
    && (On(p, ms, Minimum) ==> Order(a, p, n, At(p, ms, Minimum).n) != Some(-1))
    && (On(p, ms, Maximum) ==> Order(a, p, n, At(p, ms, Maximum).n) != Some(1))
    && (On(p, ms, MultipleOf) ==> Multiple(a, p, n, At(p, ms, MultipleOf).n))
  }

  /** The assertions of one schema object on a value of each kind. */
  ghost predicate ShapeHolds(a: Arithmetic, p: Platform, v: Json, ms: seq<Member>)
    requires LocalKinds(p, ms)
  {
    match v
    case Obj(vms) => ObjectHolds(p, vms, ms)
    case Arr(xs) => ArrayHolds(a, p, xs, ms)
    case Str(text) => StringHolds(p, text, ms)
    case Num(n) => NumberHolds(a, p, n, ms)
    case _ => true
  }

  ghost predicate ValueHolds(a: Arithmetic, p: Platform, v: Json, ms: seq<Member>)
    requires On(p, ms, Type) ==> At(p, ms, Type).Str? || (At(p, ms, Type).Arr? && AllStrings(At(p, ms, Type).items))
    requires On(p, ms, Enum) ==> At(p, ms, Enum).Arr?
  {
    && (On(p, ms, Type) ==> MatchesTypeSpec(v, At(p, ms, Type)))
    && (On(p, ms, Enum) ==> exists i | 0 <= i < |At(p, ms, Enum).items| :: Alike(a, p, At(p, ms, Enum).items[i], v))
    && (On(p, ms, Const) ==> Alike(a, p, v, At(p, ms, Const)))
  }

  ghost predicate AllHold(a: Arithmetic, p: Platform, v: Json, ss: seq<Json>)
    requires AllWellKinded(p, ss)
    decreases ss, 0
  {
    forall i | 0 <= i < |ss| :: Satisfies(a, p, v, ss[i])
  }

  ghost predicate SomeHolds(a: Arithmetic, p: Platform, v: Json, ss: seq<Json>)
    requires AllWellKinded(p, ss)
    decreases ss, 0
  {
    exists i | 0 <= i < |ss| :: Satisfies(a, p, v, ss[i])
  }

  ghost predicate ExactlyOneHolds(a: Arithmetic, p: Platform, v: Json, ss: seq<Json>)
    requires AllWellKinded(p, ss)
    decreases ss, 0
  {
    exists i | 0 <= i < |ss| ::
      Satisfies(a, p, v, ss[i]) && forall j | 0 <= j < |ss| && j != i :: !Satisfies(a, p, v, ss[j])
  }

  /** allOf, anyOf, oneOf and not, applied to the value itself. */
  ghost predicate InPlaceHolds(a: Arithmetic, p: Platform, v: Json, ms: seq<Member>)
    requires ListKinds(p, ms, AllOf) && ListKinds(p, ms, AnyOf) && ListKinds(p, ms, OneOf)
    requires SchemaKinds(p, ms, Not)
    decreases ms, 1
  {
    && (On(p, ms, AllOf) ==> AllHold(a, p, v, At(p, ms, AllOf).items))
    && (On(p, ms, AnyOf) ==> SomeHolds(a, p, v, At(p, ms, AnyOf).items))
    && (On(p, ms, OneOf) ==> ExactlyOneHolds(a, p, v, At(p, ms, OneOf).items))
    && (On(p, ms, Not) ==> !Satisfies(a, p, v, At(p, ms, Not)))
  }

  ghost predicate PropertiesHold(a: Arithmetic, p: Platform, vms: seq<Member>, props: seq<Member>)
    requires ValuesWellKinded(p, props)
    decreases props, 0
  {
    forall i | 0 <= i < |props| && Has(vms, props[i].key) :: Satisfies(a, p, Get(vms, props[i].key), props[i].val)
  }

  ghost predicate AdditionalHold(a: Arithmetic, p: Platform, vms: seq<Member>, ms: seq<Member>, extra: Json)
    requires extra.Bool? || WellKinded(p, extra)
    decreases extra, 2
  {
    forall i | 0 <= i < |vms| && !Declared(p, ms, vms[i].key) ::
      if extra.Bool? then extra.b else Satisfies(a, p, vms[i].val, extra)
  }

  ghost predicate ItemsHold(a: Arithmetic, p: Platform, xs: seq<Json>, item: Json)
    requires WellKinded(p, item)
    decreases item, 2
  {
    forall i | 0 <= i < |xs| :: Satisfies(a, p, xs[i], item)
  }

  /** properties, additionalProperties and items, applied to the children of the value. */
  ghost predicate ChildrenHold(a: Arithmetic, p: Platform, v: Json, ms: seq<Member>)
    requires PropertiesKinds(p, ms) && AdditionalKinds(p, ms)
    requires SchemaKinds(p, ms, Items)
    decreases ms, 1
  {
    match v
    case Obj(vms) =>
      && (On(p, ms, Properties) ==> PropertiesHold(a, p, vms, At(p, ms, Properties).members))
      && (On(p, ms, AdditionalProperties) ==> AdditionalHold(a, p, vms, ms, At(p, ms, AdditionalProperties)))
    case Arr(xs) => On(p, ms, Items) ==> ItemsHold(a, p, xs, At(p, ms, Items))
    case _ => true
  }

  ghost predicate Satisfies(a: Arithmetic, p: Platform, v: Json, s: Json)
    requires WellKinded(p, s)
    decreases s, 1
  {
    && ValueHolds(a, p, v, s.members)
    && ShapeHolds(a, p, v, s.members)
    && InPlaceHolds(a, p, v, s.members)
    && ChildrenHold(a, p, v, s.members)
  }
}
