/** Schema keywords, the kinds of value they must hold, and what the compiler accepts. */
module Schema {
  import opened Optional
  import opened Json

  function Spelling(k: Keyword): string {
    match k
    case Type => "type"
    case Required => "required"
    case Properties => "properties"
    case AdditionalProperties => "additionalProperties"
    case Items => "items"
    case Enum => "enum"
    case Const => "const"
    case Minimum => "minimum"
    case Maximum => "maximum"
    case MultipleOf => "multipleOf"
    case MinLength => "minLength"
    case MaxLength => "maxLength"
    case Pattern => "pattern"
    case MinItems => "minItems"
    case MaxItems => "maxItems"
    case UniqueItems => "uniqueItems"
    case MinProperties => "minProperties"
    case MaxProperties => "maxProperties"
    case AllOf => "allOf"
    case AnyOf => "anyOf"
    case OneOf => "oneOf"
    case Not => "not"
    case Title => "title"
    case Description => "description"
    case SchemaUri => "$schema"
    case Id => "$id"
    case Comment => "$comment"
  }

  predicate SupportedKeyword(p: Platform, key: string) {
    exists k: Keyword :: p.kw(k) == key
  }

  predicate On(p: Platform, ms: seq<Member>, k: Keyword) {
    Has(ms, p.kw(k))
  }

  function At(p: Platform, ms: seq<Member>, k: Keyword): (j: Json)
    requires On(p, ms, k)
  {
    Get(ms, p.kw(k))
  }

  // ------------------------------------------------------------------ types

  datatype JsonType = NullType | BooleanType | IntegerType | NumberType | StringType | ObjectType | ArrayType

  function TypeNamed(name: string): Option<JsonType> {
    if name == "null" then Some(NullType)
    else if name == "boolean" then Some(BooleanType)
    else if name == "integer" then Some(IntegerType)
    else if name == "number" then Some(NumberType)
    else if name == "string" then Some(StringType)
    else if name == "object" then Some(ObjectType)
    else if name == "array" then Some(ArrayType)
    else None
  }

  predicate MatchesType(v: Json, t: JsonType) {
    match t
    case NullType => v.Null?
    case BooleanType => v.Bool?
    case IntegerType => v.Num? && Integral(v.n)
    case NumberType => v.Num?
    case StringType => v.Str?
    case ObjectType => v.Obj?
    case ArrayType => v.Arr?
  }

  /** A number without a fractional part, however it is stored. */
  predicate Whole(n: Number) {
    Integral(n) || (n.Floating? && n.d.Finite? && n.d.r == n.d.r.Floor as real)
  }

  /** The type `integer` is that of whole numbers exactly on values that are not whole doubles. */
  lemma {:induction false} IntegerTypeExact(n: Number)
    ensures (MatchesType(Num(n), IntegerType) <==> Whole(n)) <==> !(n.Floating? && Whole(n))
  {
  }

  lemma {:induction false} WholeDoubleIsNoInteger()
    ensures Whole(Floating(Finite(1.0))) && !MatchesType(Num(Floating(Finite(1.0))), IntegerType)
  {
  }

  predicate MatchesName(v: Json, name: string) {
    TypeNamed(name).Some? && MatchesType(v, TypeNamed(name).value)
  }

  predicate AllStrings(items: seq<Json>) {
    forall i | 0 <= i < |items| :: items[i].Str?
  }

  predicate MatchesTypeSpec(v: Json, spec: Json)
    requires spec.Str? || (spec.Arr? && AllStrings(spec.items))
  {
    if spec.Str? then MatchesName(v, spec.s)
    else exists i | 0 <= i < |spec.items| :: MatchesName(v, spec.items[i].s)
  }

  // ------------------------------------------------------------------ kinds

  predicate FiniteNumber(j: Json) {
    j.Num? && (j.n.Floating? ==> j.n.d.Finite?)
  }

  predicate SizeNumber(j: Json) {
    j.Num? && Integral(j.n) && IntValue(j.n) >= 0
  }

  function SizeOf(j: Json): nat
    requires SizeNumber(j)
  {
    IntValue(j.n)
  }

  predicate LimitKind(p: Platform, ms: seq<Member>, k: Keyword) {
    On(p, ms, k) ==> SizeNumber(At(p, ms, k))
  }

  /** Every keyword of one schema object can be read as the kind the validator expects. */
  predicate LocalKinds(p: Platform, ms: seq<Member>) {
    && (On(p, ms, Type) ==> At(p, ms, Type).Str? || (At(p, ms, Type).Arr? && AllStrings(At(p, ms, Type).items)))
    && (On(p, ms, Required) ==> At(p, ms, Required).Arr? && AllStrings(At(p, ms, Required).items))
    && (On(p, ms, Enum) ==> At(p, ms, Enum).Arr?)
    && (On(p, ms, Pattern) ==> At(p, ms, Pattern).Str? && p.regexValid(At(p, ms, Pattern).s))
    && (On(p, ms, Minimum) ==> FiniteNumber(At(p, ms, Minimum)))
    && (On(p, ms, Maximum) ==> FiniteNumber(At(p, ms, Maximum)))
    && (On(p, ms, MultipleOf) ==> At(p, ms, MultipleOf).Num?)
    && LimitKind(p, ms, MinLength) && LimitKind(p, ms, MaxLength)
    && LimitKind(p, ms, MinItems) && LimitKind(p, ms, MaxItems)
    && LimitKind(p, ms, MinProperties) && LimitKind(p, ms, MaxProperties)
    && (On(p, ms, UniqueItems) ==> At(p, ms, UniqueItems).Bool?)
  }

  /** The value of `k`, when present, is a list of schemas. */
  ghost predicate ListKinds(p: Platform, ms: seq<Member>, k: Keyword)
    decreases ms, 0
  {
    On(p, ms, k) ==>
      At(p, ms, k).Arr? && forall i {:trigger WellKinded(p, At(p, ms, k).items[i])} | 0 <= i < |At(p, ms, k).items| ::
           WellKinded(p, At(p, ms, k).items[i])
  }

  /** The value of `k`, when present, is a schema. */
  ghost predicate SchemaKinds(p: Platform, ms: seq<Member>, k: Keyword)
    decreases ms, 0
  {
    On(p, ms, k) ==> WellKinded(p, At(p, ms, k))
  }

  ghost predicate PropertiesKinds(p: Platform, ms: seq<Member>)
    decreases ms, 0
  {
    On(p, ms, Properties) ==>
      && At(p, ms, Properties).Obj?
      && forall i {:trigger WellKinded(p, At(p, ms, Properties).members[i].val)}
              | 0 <= i < |At(p, ms, Properties).members| :: WellKinded(p, At(p, ms, Properties).members[i].val)
  }

  ghost predicate AdditionalKinds(p: Platform, ms: seq<Member>)
    decreases ms, 0
  {
    On(p, ms, AdditionalProperties) ==>
      At(p, ms, AdditionalProperties).Bool? || WellKinded(p, At(p, ms, AdditionalProperties))
  }

  /** At every depth, no keyword the validator reads is ill-kinded. */
  ghost predicate WellKinded(p: Platform, s: Json)
    decreases s, 0
  {
    && s.Obj?
    && LocalKinds(p, s.members)
    && PropertiesKinds(p, s.members)
    && AdditionalKinds(p, s.members)
    && SchemaKinds(p, s.members, Items)
    && ListKinds(p, s.members, AllOf)
    && ListKinds(p, s.members, AnyOf)
    && ListKinds(p, s.members, OneOf)
    && SchemaKinds(p, s.members, Not)
  }

  // ------------------------------------------------------------- acceptance

  datatype SchemaOptions = SchemaOptions(maxDepth: nat, maxNodes: nat, maxStringLength: nat, allowUnknown: bool)

  predicate DistinctStrings(items: seq<Json>)
    requires AllStrings(items)
  {
    forall i, j | 0 <= i < j < |items| :: items[i].s != items[j].s
  }

  predicate TypeAccepted(j: Json) {
    if j.Str? then TypeNamed(j.s).Some?
    else
      && j.Arr? && j.items != [] && AllStrings(j.items) && DistinctStrings(j.items)
      && forall i | 0 <= i < |j.items| :: TypeNamed(j.items[i].s).Some?
  }

  predicate RequiredAccepted(j: Json) {
    j.Arr? && AllStrings(j.items) && DistinctStrings(j.items)
  }

  predicate EnumAccepted(p: Platform, j: Json) {
    j.Arr? && j.items != [] && forall a, b | 0 <= a < b < |j.items| :: !Equal(p, j.items[a], j.items[b])
  }

  predicate NoteAccepted(p: Platform, ms: seq<Member>, k: Keyword, max: nat) {
    On(p, ms, k) ==> At(p, ms, k).Str? && |At(p, ms, k).s| <= max
  }

  predicate RangeAccepted(p: Platform, ms: seq<Member>) {
    && (On(p, ms, Minimum) ==> FiniteNumber(At(p, ms, Minimum)))
    && (On(p, ms, Maximum) ==> FiniteNumber(At(p, ms, Maximum)))
    && (On(p, ms, Minimum) && On(p, ms, Maximum) ==>
          CompareNumbers(p, At(p, ms, Minimum).n, At(p, ms, Maximum).n) != Some(1))
  }

  predicate MultipleOfAccepted(j: Json) {
    && j.Num?
    && match j.n
       case Floating(d) => d.Finite? && d.r > 0.0
       case _ => AsInt64(j.n) > 0
  }

  /** Of the integers, exactly those from 1 to 2^63 - 1 are accepted, so a large divisor is refused. */
  lemma {:induction false} MultipleOfAcceptedIff(n: Number)
    requires Integral(n)
    ensures MultipleOfAccepted(Num(n)) <==> 0 < IntValue(n) <= INT64_MAX
  {
  }

  lemma {:induction false} LargeDivisorRefused()
    ensures !MultipleOfAccepted(Num(Unsigned(0x8000_0000_0000_0000)))
  {
  }

  function LimitOf(p: Platform, ms: seq<Member>, k: Keyword): Option<nat>
    requires LimitKind(p, ms, k)
  {
    if On(p, ms, k) then Some(SizeOf(At(p, ms, k))) else None
  }

  predicate Ordered(least: Option<nat>, most: Option<nat>) {
    least.Some? && most.Some? ==> least.value <= most.value
  }

  predicate SizesAccepted(p: Platform, ms: seq<Member>, lo: Keyword, hi: Keyword) {
    LimitKind(p, ms, lo) && LimitKind(p, ms, hi) && Ordered(LimitOf(p, ms, lo), LimitOf(p, ms, hi))
  }

  /** The checks the compiler makes before it enters the first sub-schema. */
  ghost predicate HeadAccepted(p: Platform, o: SchemaOptions, ms: seq<Member>) {
    && (o.allowUnknown || forall i | 0 <= i < |ms| :: SupportedKeyword(p, ms[i].key))
    && (On(p, ms, Type) ==> TypeAccepted(At(p, ms, Type)))
    && (On(p, ms, Required) ==> RequiredAccepted(At(p, ms, Required)))
    && (On(p, ms, Enum) ==> EnumAccepted(p, At(p, ms, Enum)))
    && NoteAccepted(p, ms, Title, o.maxStringLength) && NoteAccepted(p, ms, Description, o.maxStringLength)
    && NoteAccepted(p, ms, SchemaUri, o.maxStringLength) && NoteAccepted(p, ms, Id, o.maxStringLength)
    && NoteAccepted(p, ms, Comment, o.maxStringLength)
    && (On(p, ms, Pattern) ==> At(p, ms, Pattern).Str? && p.regexValid(At(p, ms, Pattern).s))
  }

  /** The numeric and size checks it makes between `items` and `allOf`. */
  predicate BoundsAccepted(p: Platform, ms: seq<Member>) {
    && RangeAccepted(p, ms)
    && (On(p, ms, MultipleOf) ==> MultipleOfAccepted(At(p, ms, MultipleOf)))
    && SizesAccepted(p, ms, MinLength, MaxLength)
    && SizesAccepted(p, ms, MinItems, MaxItems)
    && SizesAccepted(p, ms, MinProperties, MaxProperties)
    && (On(p, ms, UniqueItems) ==> At(p, ms, UniqueItems).Bool?)
  }

  ghost predicate ListAccepted(p: Platform, o: SchemaOptions, ms: seq<Member>, k: Keyword)
    decreases ms, 0
  {
    On(p, ms, k) ==>
      && At(p, ms, k).Arr? && At(p, ms, k).items != []
      && forall i | 0 <= i < |At(p, ms, k).items| :: Accepted(p, o, At(p, ms, k).items[i])
  }

  ghost predicate SchemaAccepted(p: Platform, o: SchemaOptions, ms: seq<Member>, k: Keyword)
    decreases ms, 0
  {
    On(p, ms, k) ==> Accepted(p, o, At(p, ms, k))
  }

  ghost predicate PropertiesAccepted(p: Platform, o: SchemaOptions, ms: seq<Member>, k: Keyword)
    decreases ms, 0
  {
    On(p, ms, k) ==>
      At(p, ms, k).Obj? && forall i | 0 <= i < |At(p, ms, k).members| :: Accepted(p, o, At(p, ms, k).members[i].val)
  }

  ghost predicate AdditionalAccepted(p: Platform, o: SchemaOptions, ms: seq<Member>, k: Keyword)
    decreases ms, 0
  {
    On(p, ms, k) ==> At(p, ms, k).Bool? || Accepted(p, o, At(p, ms, k))
  }

  ghost predicate BodyAccepted(p: Platform, o: SchemaOptions, ms: seq<Member>)
    decreases ms, 1
  {
    && PropertiesAccepted(p, o, ms, Properties)
    && AdditionalAccepted(p, o, ms, AdditionalProperties)
    && SchemaAccepted(p, o, ms, Items)
    && BoundsAccepted(p, ms)
    && ListAccepted(p, o, ms, AllOf)
    && ListAccepted(p, o, ms, AnyOf)
    && ListAccepted(p, o, ms, OneOf)
    && SchemaAccepted(p, o, ms, Not)
  }

  /** A well-formed schema, stated without any budget or traversal order. */
  ghost predicate Accepted(p: Platform, o: SchemaOptions, s: Json)
    decreases s
  {
    && s.Obj?
    && HeadAccepted(p, o, s.members)
    && BodyAccepted(p, o, s.members)
  }

  lemma {:induction false} SafeList(p: Platform, o: SchemaOptions, ms: seq<Member>, k: Keyword)
    requires ListAccepted(p, o, ms, k)
    ensures ListKinds(p, ms, k)
    decreases ms, 0
  {
    if On(p, ms, k) {
      forall i | 0 <= i < |At(p, ms, k).items| ensures WellKinded(p, At(p, ms, k).items[i]) {
        AcceptedIsWellKinded(p, o, At(p, ms, k).items[i]);
      }
    }
  }

  lemma {:induction false} SafeSchema(p: Platform, o: SchemaOptions, ms: seq<Member>, k: Keyword)
    requires SchemaAccepted(p, o, ms, k)
    ensures SchemaKinds(p, ms, k)
    decreases ms, 0
  {
    if On(p, ms, k) { AcceptedIsWellKinded(p, o, At(p, ms, k)); }
  }

  lemma {:induction false} SafeProperties(p: Platform, o: SchemaOptions, ms: seq<Member>)
    requires PropertiesAccepted(p, o, ms, Properties)
    ensures PropertiesKinds(p, ms)
    decreases ms, 0
  {
    if On(p, ms, Properties) {
      var ps := At(p, ms, Properties).members;
      forall i | 0 <= i < |ps| ensures WellKinded(p, ps[i].val) {
        AcceptedIsWellKinded(p, o, ps[i].val);
      }
    }
  }

  lemma {:induction false} SafeAdditional(p: Platform, o: SchemaOptions, ms: seq<Member>)
    requires AdditionalAccepted(p, o, ms, AdditionalProperties)
    ensures AdditionalKinds(p, ms)
    decreases ms, 0
  {
    if On(p, ms, AdditionalProperties) && !At(p, ms, AdditionalProperties).Bool? {
      AcceptedIsWellKinded(p, o, At(p, ms, AdditionalProperties));
    }
  }

  /** Acceptance makes interpretation safe: every keyword read is well-kinded at every depth. */
  lemma {:induction false} AcceptedIsWellKinded(p: Platform, o: SchemaOptions, s: Json)
    requires Accepted(p, o, s)
    ensures WellKinded(p, s)
    decreases s
  {
    SafeProperties(p, o, s.members);
    SafeAdditional(p, o, s.members);
    SafeSchema(p, o, s.members, Items);
    SafeList(p, o, s.members, AllOf);
    SafeList(p, o, s.members, AnyOf);
    SafeList(p, o, s.members, OneOf);
    SafeSchema(p, o, s.members, Not);
  }

  // ----------------------------------------------------- sub-schema budgets

  /** Nodes held under one key, 0 when it is absent. */
  function Held(ms: seq<Member>, k: string): nat {
    if Has(ms, k) then Size(Get(ms, k)) else 0
  }

  function HeldBy(ms: seq<Member>, ks: seq<string>, n: nat): nat
    requires n <= |ks|
  {
    if n == 0 then 0 else HeldBy(ms, ks, n - 1) + Held(ms, ks[n - 1])
  }

  /** Nodes held by the first `n` members whose key is not in `ks`. */
  ghost function Others(ms: seq<Member>, ks: set<string>, n: nat): nat
    requires n <= |ms|
  {
    if n == 0 then 0 else Others(ms, ks, n - 1) + (if ms[n - 1].key in ks then 0 else Size(ms[n - 1].val))
  }

  lemma {:induction false} OthersShrink(ms: seq<Member>, ks: set<string>, k: string, n: nat)
    requires n <= |ms|
    ensures Others(ms, ks + {k}, n) <= Others(ms, ks, n)
  {
    if n > 0 { OthersShrink(ms, ks, k, n - 1); }
  }

  lemma {:induction false} TakeMember(ms: seq<Member>, ks: set<string>, i: nat, n: nat)
    requires i < n <= |ms| && ms[i].key !in ks
    ensures Others(ms, ks, n) >= Size(ms[i].val) + Others(ms, ks + {ms[i].key}, n)
  {
    if i < n - 1 { TakeMember(ms, ks, i, n - 1); } else { OthersShrink(ms, ks, ms[i].key, n - 1); }
  }

  lemma {:induction false} TakeKey(ms: seq<Member>, ks: set<string>, k: string)
    requires k !in ks
    ensures Others(ms, ks, |ms|) >= Held(ms, k) + Others(ms, ks + {k}, |ms|)
  {
    if Has(ms, k) {
      var i :| 0 <= i < |ms| && ms[i] == Member(k, Get(ms, k));
      TakeMember(ms, ks, i, |ms|);
    } else {
      OthersShrink(ms, ks, k, |ms|);
    }
  }

  lemma {:induction false} OthersOfNone(ms: seq<Member>, n: nat)
    requires n <= |ms|
    ensures Others(ms, {}, n) == SizeMembers(ms, n)
  {
    if n > 0 { OthersOfNone(ms, n - 1); }
  }

  ghost function FirstOf(ks: seq<string>, n: nat): (r: set<string>)
    requires n <= |ks|
    ensures forall k | k in r :: exists i | 0 <= i < n :: ks[i] == k
  {
    if n == 0 then {} else FirstOf(ks, n - 1) + {ks[n - 1]}
  }

  lemma {:induction false} HeldAndOthers(ms: seq<Member>, ks: seq<string>, n: nat)
    requires n <= |ks|
    requires forall i, j | 0 <= i < j < |ks| :: ks[i] != ks[j]
    ensures HeldBy(ms, ks, n) + Others(ms, FirstOf(ks, n), |ms|) <= Others(ms, {}, |ms|)
  {
    if n > 0 {
      HeldAndOthers(ms, ks, n - 1);
      TakeKey(ms, FirstOf(ks, n - 1), ks[n - 1]);
    }
  }

  /** Members under distinct keys share the nodes of their object without overlap. */
  lemma {:induction false} HeldFit(ms: seq<Member>, ks: seq<string>)
    requires forall i, j | 0 <= i < j < |ks| :: ks[i] != ks[j]
    ensures HeldBy(ms, ks, |ks|) < Size(Obj(ms))
  {
    OthersOfNone(ms, |ms|);
    HeldAndOthers(ms, ks, |ks|);
  }

  /** Nodes a keyword holds, 0 when it is absent. */
  function Nodes(p: Platform, ms: seq<Member>, k: Keyword): nat {
    Held(ms, p.kw(k))
  }

  const APPLICATORS: seq<Keyword> := [Properties, AdditionalProperties, Items, AllOf, AnyOf, OneOf, Not]

  /** The keywords that hold sub-schemas have pairwise different names. */
  ghost predicate Distinguishes(p: Platform) {
    forall i, j | 0 <= i < j < |APPLICATORS| :: p.kw(APPLICATORS[i]) != p.kw(APPLICATORS[j])
  }

  /** Nodes held by all keywords that contain sub-schemas. */
  function NodesInAll(p: Platform, ms: seq<Member>): nat {
    Nodes(p, ms, Properties) + Nodes(p, ms, AdditionalProperties) + Nodes(p, ms, Items)
    + Nodes(p, ms, AllOf) + Nodes(p, ms, AnyOf) + Nodes(p, ms, OneOf) + Nodes(p, ms, Not)
  }

  lemma {:induction false} SevenHeld(ms: seq<Member>, ks: seq<string>)
    requires |ks| == 7 && forall i, j | 0 <= i < j < |ks| :: ks[i] != ks[j]
    ensures Held(ms, ks[0]) + Held(ms, ks[1]) + Held(ms, ks[2]) + Held(ms, ks[3])
            + Held(ms, ks[4]) + Held(ms, ks[5]) + Held(ms, ks[6]) < Size(Obj(ms))
  {
    HeldFit(ms, ks);
    assert HeldBy(ms, ks, 1) == Held(ms, ks[0]);
    assert HeldBy(ms, ks, 2) == Held(ms, ks[0]) + Held(ms, ks[1]);
    assert HeldBy(ms, ks, 4) == HeldBy(ms, ks, 2) + Held(ms, ks[2]) + Held(ms, ks[3]);
    assert HeldBy(ms, ks, 6) == HeldBy(ms, ks, 4) + Held(ms, ks[4]) + Held(ms, ks[5]);
  }

  lemma {:induction false} ApplicatorsFit(p: Platform, ms: seq<Member>)
    requires Distinguishes(p)
    ensures NodesInAll(p, ms) < Size(Obj(ms))
  {
    var ks := seq(7, i requires 0 <= i < 7 => p.kw(APPLICATORS[i]));
    SevenHeld(ms, ks);
  }

  lemma {:induction false} SpellingDistinguishes(p: Platform)
    requires p.kw == Spelling
    ensures Distinguishes(p)
  {
    assert "items"[0] != "allOf"[0] && "items"[0] != "anyOf"[0] && "items"[0] != "oneOf"[0];
    assert "allOf"[0] != "oneOf"[0] && "anyOf"[0] != "oneOf"[0] && "allOf"[1] != "anyOf"[1];
  }
}
