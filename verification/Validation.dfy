/**
 What a validation run reports, as a function of the value, the schema and the budgets: the whole
 error list in order, and how often `validateValue` was entered.  Stopping early at `maxErrors` is
 not part of this function; the imperative validator is proved to report a prefix of it.
 */
module Validation {
  import opened Json
  import opened Pointer
  import opened Schema
  import opened TreeBudget

  datatype Reason =
    | TooDeep | TooManyNodes | StringTooLong
    | WrongType | NotInEnum | NotConst | NoAnyOf | NotOneOf | Forbidden
    | TooFewProperties | TooManyProperties | MissingRequired | AdditionalNotAllowed
    | TooFewItems | TooManyItems | NotUnique
    | TooShort | TooLong | NoPatternMatch
    | NotFinite | BelowMinimum | AboveMaximum | NotMultiple
    | ZeroMaxErrors | SchemaRejected | ValueOverBudget

  datatype Error = Error(path: string, schemaPath: string, reason: Reason)

  /** Everything a run depends on besides the bound on reported errors. */
  datatype Config = Config(p: Platform, lim: TreeLimits)

  /** Where the validator stands: value pointer, schema pointer, value depth. */
  datatype Place = Place(path: string, schemaPath: string, depth: nat) {
    function Under(keyword: string, i: nat): Place {
      Place(path, AppendIndex(AppendKey(schemaPath, keyword), i), depth)
    }

    function Keyword(keyword: string): Place {
      Place(path, AppendKey(schemaPath, keyword), depth)
    }

    function Property(p: Platform, key: string): Place {
      Place(AppendKey(path, key), AppendKey(AppendKey(schemaPath, p.kw(Properties)), key), depth + 1)
    }

    function Additional(p: Platform, key: string): Place {
      Place(AppendKey(path, key), AppendKey(schemaPath, p.kw(AdditionalProperties)), depth + 1)
    }

    function Item(p: Platform, i: nat): Place {
      Place(AppendIndex(path, i), AppendKey(schemaPath, p.kw(Items)), depth + 1)
    }
  }

  datatype Outcome = Outcome(errors: seq<Error>, nodes: nat)

  function Then(a: Outcome, b: Outcome): Outcome {
    Outcome(a.errors + b.errors, b.nodes)
  }

  function When(b: bool, e: Error): seq<Error> {
    if b then [e] else []
  }

  function Fault(p: Platform, at: Place, k: Keyword, reason: Reason): Error {
    Error(at.path, AppendKey(at.schemaPath, p.kw(k)), reason)
  }

  // ------------------------------------------------- errors of one schema object

  ghost predicate TypeMismatch(p: Platform, v: Json, ms: seq<Member>)
    requires (On(p, ms, Type) ==> At(p, ms, Type).Str? || (At(p, ms, Type).Arr? && AllStrings(At(p, ms, Type).items)))
  {
    On(p, ms, Type) && !MatchesTypeSpec(v, At(p, ms, Type))
  }

  predicate InEnum(p: Platform, v: Json, allowed: seq<Json>) {
    exists i | 0 <= i < |allowed| :: Equal(p, allowed[i], v)
  }

  ghost function ValueErrors(p: Platform, v: Json, ms: seq<Member>, at: Place): seq<Error>
    requires (On(p, ms, Enum) ==> At(p, ms, Enum).Arr?)
  {
    When(On(p, ms, Enum) && !InEnum(p, v, At(p, ms, Enum).items), Fault(p, at, Enum, NotInEnum))
    + When(On(p, ms, Const) && !Equal(p, v, At(p, ms, Const)), Fault(p, at, Const, NotConst))
  }

  /** The error lists of the first `i` rounds of a loop, in order. */
  ghost function Gather(g: nat -> seq<Error>, i: nat): seq<Error> {
    if i == 0 then [] else Gather(g, i - 1) + g(i - 1)
  }

  function AbsentError(p: Platform, at: Place, name: string): Error {
    Error(AppendKey(at.path, name), AppendKey(at.schemaPath, p.kw(Required)), MissingRequired)
  }

  function AbsentAt(p: Platform, vms: seq<Member>, names: seq<Json>, at: Place): nat -> seq<Error>
    requires AllStrings(names)
  {
    (k: nat) => if k < |names| then When(!Has(vms, names[k].s), AbsentError(p, at, names[k].s)) else []
  }

  predicate Fewer(p: Platform, size: nat, ms: seq<Member>, k: Keyword)
    requires On(p, ms, k) ==> SizeNumber(At(p, ms, k))
  {
    On(p, ms, k) && size < SizeOf(At(p, ms, k))
  }

  predicate More(p: Platform, size: nat, ms: seq<Member>, k: Keyword)
    requires On(p, ms, k) ==> SizeNumber(At(p, ms, k))
  {
    On(p, ms, k) && size > SizeOf(At(p, ms, k))
  }

  ghost function ObjectErrors(p: Platform, vms: seq<Member>, ms: seq<Member>, at: Place): seq<Error>
    requires LimitKind(p, ms, MinProperties) && LimitKind(p, ms, MaxProperties)
    requires On(p, ms, Required) ==> At(p, ms, Required).Arr? && AllStrings(At(p, ms, Required).items)
  {
    When(Fewer(p, |vms|, ms, MinProperties), Fault(p, at, MinProperties, TooFewProperties))
    + When(More(p, |vms|, ms, MaxProperties), Fault(p, at, MaxProperties, TooManyProperties))
    + (if On(p, ms, Required)
       then Gather(AbsentAt(p, vms, At(p, ms, Required).items, at), |At(p, ms, Required).items|)
       else [])
  }

  /** The first index from `j` on that holds a copy of element `i`, or |xs|. */
  function FirstCopy(p: Platform, xs: seq<Json>, i: nat, j: nat): (r: nat)
    requires i < |xs| && j <= |xs|
    ensures j <= r <= |xs|
    decreases |xs| - j
  {
    if j == |xs| || Equal(p, xs[i], xs[j]) then j else FirstCopy(p, xs, i, j + 1)
  }

  function CopyError(p: Platform, at: Place, j: nat): Error {
    Error(AppendIndex(at.path, j), AppendKey(at.schemaPath, p.kw(UniqueItems)), NotUnique)
  }

  /** At most one error per element, at its first later copy. */
  function CopyAt(p: Platform, xs: seq<Json>, at: Place): nat -> seq<Error> {
    (k: nat) =>
      if k < |xs|
      then When(FirstCopy(p, xs, k, k + 1) < |xs|, CopyError(p, at, FirstCopy(p, xs, k, k + 1)))
      else []
  }

  ghost function ArrayErrors(p: Platform, xs: seq<Json>, ms: seq<Member>, at: Place): seq<Error>
    requires LimitKind(p, ms, MinItems) && LimitKind(p, ms, MaxItems)
    requires On(p, ms, UniqueItems) ==> At(p, ms, UniqueItems).Bool?
  {
    When(Fewer(p, |xs|, ms, MinItems), Fault(p, at, MinItems, TooFewItems))
    + When(More(p, |xs|, ms, MaxItems), Fault(p, at, MaxItems, TooManyItems))
    + (if On(p, ms, UniqueItems) && At(p, ms, UniqueItems).b then Gather(CopyAt(p, xs, at), |xs|) else [])
  }

  /** Code points of a UTF-8 text: bytes that are not continuation bytes. */
  function Utf8Length(s: string): nat {
    if s == [] then 0
    else Utf8Length(s[..|s| - 1]) + (if 0x80 <= s[|s| - 1] as int < 0xC0 then 0 else 1)
  }

  ghost function StringErrors(c: Config, text: string, ms: seq<Member>, at: Place): seq<Error>
    requires LimitKind(c.p, ms, MinLength) && LimitKind(c.p, ms, MaxLength)
    requires On(c.p, ms, Pattern) ==> At(c.p, ms, Pattern).Str?
  {
    When(|text| > c.lim.maxStringLength, Error(at.path, at.schemaPath, StringTooLong))
    + When(Fewer(c.p, Utf8Length(text), ms, MinLength), Fault(c.p, at, MinLength, TooShort))
    + When(More(c.p, Utf8Length(text), ms, MaxLength), Fault(c.p, at, MaxLength, TooLong))
    + When(On(c.p, ms, Pattern) && !c.p.regexFinds(At(c.p, ms, Pattern).s, text),
           Fault(c.p, at, Pattern, NoPatternMatch))
  }

  predicate Below(p: Platform, n: Number, bound: Number) {
    var cmp := CompareNumbers(p, n, bound);
    cmp.None? || cmp.value < 0
  }

  predicate Above(p: Platform, n: Number, bound: Number) {
    var cmp := CompareNumbers(p, n, bound);
    cmp.None? || cmp.value > 0
  }

  ghost function FiniteErrors(p: Platform, n: Number, ms: seq<Member>, at: Place): seq<Error>
    requires On(p, ms, Minimum) ==> At(p, ms, Minimum).Num?
    requires On(p, ms, Maximum) ==> At(p, ms, Maximum).Num?
    requires On(p, ms, MultipleOf) ==> At(p, ms, MultipleOf).Num?
  {
    When(On(p, ms, Minimum) && Below(p, n, At(p, ms, Minimum).n), Fault(p, at, Minimum, BelowMinimum))
    + When(On(p, ms, Maximum) && Above(p, n, At(p, ms, Maximum).n), Fault(p, at, Maximum, AboveMaximum))
    + When(On(p, ms, MultipleOf) && !NumberMultipleOf(p, n, At(p, ms, MultipleOf).n),
           Fault(p, at, MultipleOf, NotMultiple))
  }

  ghost function NumberErrors(p: Platform, n: Number, ms: seq<Member>, at: Place): seq<Error>
    requires On(p, ms, Minimum) ==> At(p, ms, Minimum).Num?
    requires On(p, ms, Maximum) ==> At(p, ms, Maximum).Num?
    requires On(p, ms, MultipleOf) ==> At(p, ms, MultipleOf).Num?
  {
    if n.Floating? && !n.d.Finite? then [Error(at.path, at.schemaPath, NotFinite)] else FiniteErrors(p, n, ms, at)
  }

  /** The errors that depend on the kind of the value but not on any sub-schema. */
  ghost function ShapeErrors(c: Config, v: Json, ms: seq<Member>, at: Place): seq<Error>
    requires LocalKinds(c.p, ms)
  {
    match v
    case Obj(vms) => ObjectErrors(c.p, vms, ms, at)
    case Arr(xs) => ArrayErrors(c.p, xs, ms, at)
    case Str(text) => StringErrors(c, text, ms, at)
    case Num(n) => NumberErrors(c.p, n, ms, at)
    case _ => []
  }

  // ------------------------------------------------------------ sub-schemas

  ghost predicate AllWellKinded(p: Platform, ss: seq<Json>) {
    forall i {:trigger WellKinded(p, ss[i])} | 0 <= i < |ss| :: WellKinded(p, ss[i])
  }

  ghost predicate ValuesWellKinded(p: Platform, ms: seq<Member>) {
    forall i {:trigger WellKinded(p, ms[i].val)} | 0 <= i < |ms| :: WellKinded(p, ms[i].val)
  }

  /** One round of a loop over sub-runs: round number and node counter in, outcome out. */
  type Round = (nat, nat) -> Outcome

  /** The first `i` rounds in order, threading the node counter. */
  ghost function Chain(f: Round, i: nat, n: nat): Outcome {
    if i == 0 then Outcome([], n)
    else
      var r := Chain(f, i - 1, n);
      Then(r, f(i - 1, r.nodes))
  }

  ghost function Count(q: nat -> bool, i: nat): nat {
    if i == 0 then 0 else Count(q, i - 1) + (if q(i - 1) then 1 else 0)
  }

  ghost function AllOfRound(c: Config, v: Json, ss: seq<Json>, at: Place): Round
    requires AllWellKinded(c.p, ss)
    decreases ss, 0
  {
    (k: nat, m: nat) => if k < |ss| then ValueRun(c, v, ss[k], at.Under(c.p.kw(AllOf), k), m) else Outcome([], m)
  }

  ghost function PropertyRound(c: Config, vms: seq<Member>, props: seq<Member>, at: Place): Round
    requires ValuesWellKinded(c.p, props)
    decreases props, 0
  {
    (k: nat, m: nat) =>
      if k < |props| && Has(vms, props[k].key)
      then ValueRun(c, Get(vms, props[k].key), props[k].val, at.Property(c.p, props[k].key), m)
      else Outcome([], m)
  }

  /** Whether `properties` names this member. */
  predicate Declared(p: Platform, ms: seq<Member>, key: string) {
    On(p, ms, Properties) && At(p, ms, Properties).Obj? && Has(At(p, ms, Properties).members, key)
  }

  function ExtraError(p: Platform, at: Place, key: string): Error {
    Error(AppendKey(at.path, key), AppendKey(at.schemaPath, p.kw(AdditionalProperties)), AdditionalNotAllowed)
  }

  ghost function AdditionalRound(c: Config, vms: seq<Member>, ms: seq<Member>, extra: Json, at: Place): Round
    requires extra.Bool? || WellKinded(c.p, extra)
    decreases extra, 2
  {
    (k: nat, m: nat) =>
      if k >= |vms| || Declared(c.p, ms, vms[k].key) || extra == Bool(true) then Outcome([], m)
      else if extra.Bool? then Outcome([ExtraError(c.p, at, vms[k].key)], m)
      else ValueRun(c, vms[k].val, extra, at.Additional(c.p, vms[k].key), m)
  }

  ghost function ItemRound(c: Config, xs: seq<Json>, item: Json, at: Place): Round
    requires WellKinded(c.p, item)
    decreases item, 2
  {
    (k: nat, m: nat) => if k < |xs| then ValueRun(c, xs[k], item, at.Item(c.p, k), m) else Outcome([], m)
  }

  /** A sub-schema run on its own, with a fresh node counter, keeping only the verdict. */
  ghost predicate Quiet(c: Config, v: Json, s: Json, at: Place)
    requires WellKinded(c.p, s)
    decreases s, 2
  {
    ValueRun(c, v, s, at, 0).errors == []
  }

  ghost function QuietAt(c: Config, v: Json, ss: seq<Json>, at: Place, k: Keyword): nat -> bool
    requires AllWellKinded(c.p, ss)
    decreases ss, 0
  {
    (i: nat) => i < |ss| && Quiet(c, v, ss[i], at.Under(c.p.kw(k), i))
  }

  ghost function AnyOfErrors(c: Config, v: Json, ms: seq<Member>, at: Place): seq<Error>
    requires ListKinds(c.p, ms, AnyOf)
    decreases ms, 1
  {
    if On(c.p, ms, AnyOf) then
      var q := QuietAt(c, v, At(c.p, ms, AnyOf).items, at, AnyOf);
      When(Count(q, |At(c.p, ms, AnyOf).items|) == 0, Fault(c.p, at, AnyOf, NoAnyOf))
    else []
  }

  ghost function OneOfErrors(c: Config, v: Json, ms: seq<Member>, at: Place): seq<Error>
    requires ListKinds(c.p, ms, OneOf)
    decreases ms, 1
  {
    if On(c.p, ms, OneOf) then
      var q := QuietAt(c, v, At(c.p, ms, OneOf).items, at, OneOf);
      When(Count(q, |At(c.p, ms, OneOf).items|) != 1, Fault(c.p, at, OneOf, NotOneOf))
    else []
  }

  ghost function NotErrors(c: Config, v: Json, ms: seq<Member>, at: Place): seq<Error>
    requires SchemaKinds(c.p, ms, Not)
    decreases ms, 1
  {
    When(On(c.p, ms, Not) && Quiet(c, v, At(c.p, ms, Not), at.Keyword(c.p.kw(Not))), Fault(c.p, at, Not, Forbidden))
  }

  /** anyOf, oneOf and not: errors decided by quiet runs only. */
  ghost function QuietErrors(c: Config, v: Json, ms: seq<Member>, at: Place): seq<Error>
    requires ListKinds(c.p, ms, AnyOf) && ListKinds(c.p, ms, OneOf) && SchemaKinds(c.p, ms, Not)
    decreases ms, 2
  {
    AnyOfErrors(c, v, ms, at) + OneOfErrors(c, v, ms, at) + NotErrors(c, v, ms, at)
  }

  ghost function AllOfPart(c: Config, v: Json, ms: seq<Member>, at: Place, n: nat): Outcome
    requires ListKinds(c.p, ms, AllOf)
    decreases ms, 1
  {
    if On(c.p, ms, AllOf)
    then Chain(AllOfRound(c, v, At(c.p, ms, AllOf).items, at), |At(c.p, ms, AllOf).items|, n)
    else Outcome([], n)
  }

  ghost function PropertiesPart(c: Config, vms: seq<Member>, ms: seq<Member>, at: Place, n: nat): Outcome
    requires PropertiesKinds(c.p, ms)
    decreases ms, 1
  {
    if On(c.p, ms, Properties)
    then Chain(PropertyRound(c, vms, At(c.p, ms, Properties).members, at), |At(c.p, ms, Properties).members|, n)
    else Outcome([], n)
  }

  ghost function AdditionalPart(c: Config, vms: seq<Member>, ms: seq<Member>, at: Place, n: nat): Outcome
    requires AdditionalKinds(c.p, ms)
    decreases ms, 1
  {
    if On(c.p, ms, AdditionalProperties)
    then Chain(AdditionalRound(c, vms, ms, At(c.p, ms, AdditionalProperties), at), |vms|, n)
    else Outcome([], n)
  }

  ghost function ItemsPart(c: Config, xs: seq<Json>, ms: seq<Member>, at: Place, n: nat): Outcome
    requires SchemaKinds(c.p, ms, Items)
    decreases ms, 1
  {
    if On(c.p, ms, Items) then Chain(ItemRound(c, xs, At(c.p, ms, Items), at), |xs|, n) else Outcome([], n)
  }

  ghost function ObjectKids(c: Config, vms: seq<Member>, ms: seq<Member>, at: Place, n: nat): Outcome
    requires PropertiesKinds(c.p, ms) && AdditionalKinds(c.p, ms)
    decreases ms, 2
  {
    var props := PropertiesPart(c, vms, ms, at, n);
    Then(props, AdditionalPart(c, vms, ms, at, props.nodes))
  }

  /** The runs on members or elements of the value. */
  ghost function ChildrenPart(c: Config, v: Json, ms: seq<Member>, at: Place, n: nat): Outcome
    requires PropertiesKinds(c.p, ms) && AdditionalKinds(c.p, ms)
    requires SchemaKinds(c.p, ms, Items)
    decreases ms, 3
  {
    match v
    case Obj(vms) => ObjectKids(c, vms, ms, at, n)
    case Arr(xs) => ItemsPart(c, xs, ms, at, n)
    case _ => Outcome([], n)
  }

  /** The budget check turns the value away. */
  predicate Refused(c: Config, at: Place, n: nat) {
    at.depth > c.lim.maxDepth || n + 1 > c.lim.maxNodes
  }

  function Refusal(c: Config, at: Place, n: nat): Outcome {
    if at.depth > c.lim.maxDepth then Outcome([Error(at.path, at.schemaPath, TooDeep)], n)
    else Outcome([Error(at.path, at.schemaPath, TooManyNodes)], n + 1)
  }

  /** One entry of `validateValue` with node counter `n`. */
  ghost function ValueRun(c: Config, v: Json, s: Json, at: Place, n: nat): Outcome
    requires WellKinded(c.p, s)
    decreases s, 1
  {
    if Refused(c, at, n) then Refusal(c, at, n) else TypedRun(c, v, s, at, n + 1)
  }

  /** The type test comes after the budget; on a mismatch nothing else is looked at. */
  ghost function TypedRun(c: Config, v: Json, s: Json, at: Place, n: nat): Outcome
    requires WellKinded(c.p, s)
    decreases s, 0
  {
    if TypeMismatch(c.p, v, s.members) then Outcome([Fault(c.p, at, Type, WrongType)], n)
    else BodyRun(c, v, s.members, at, n)
  }

  /** The keywords after the budget and the type test. */
  ghost function BodyRun(c: Config, v: Json, ms: seq<Member>, at: Place, n: nat): Outcome
    requires WellKinded(c.p, Obj(ms))
    decreases ms, 4
  {
    var all := AllOfPart(c, v, ms, at, n);
    var kids := ChildrenPart(c, v, ms, at, all.nodes);
    Outcome(ValueErrors(c.p, v, ms, at) + all.errors
            + QuietErrors(c, v, ms, at) + ShapeErrors(c, v, ms, at) + kids.errors, kids.nodes)
  }
}
