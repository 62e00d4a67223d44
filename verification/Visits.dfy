/** How often one validation context can enter `validateValue`. */
module Visits {
  import opened Json
  import opened Schema
  import opened Validation

  /** `v * s`, by repeated addition so that proofs about sums stay linear. */
  function Area(v: nat, s: nat): nat {
    if s == 0 then 0 else Area(v, s - 1) + v
  }

  lemma {:induction false} AreaIsProduct(v: nat, s: nat)
    ensures Area(v, s) == v * s
  {
    if s > 0 {
      AreaIsProduct(v, s - 1);
      assert v * s == v * (s - 1) + v;
    }
  }

  lemma {:induction false} AreaOfSum(v: nat, a: nat, b: nat)
    ensures Area(v, a + b) == Area(v, a) + Area(v, b)
  {
    if b > 0 { AreaOfSum(v, a, b - 1); }
  }

  lemma {:induction false} AreaOfSumLeft(v: nat, w: nat, s: nat)
    ensures Area(v + w, s) == Area(v, s) + Area(w, s)
  {
    if s > 0 { AreaOfSumLeft(v, w, s - 1); }
  }

  lemma {:induction false} AreaMonotone(v: nat, w: nat, a: nat, b: nat)
    requires v <= w && a <= b
    ensures Area(v, a) <= Area(w, b)
  {
    AreaOfSum(w, a, b - a);
    AreaOfSumLeft(v, w - v, a);
  }

  lemma {:induction false} MemberOfValue(vms: seq<Member>, key: string)
    requires Has(vms, key)
    ensures Size(Get(vms, key)) < Size(Obj(vms))
  {
    var i :| 0 <= i < |vms| && vms[i] == Member(key, Get(vms, key));
    MemberBounds(vms, i, |vms|);
  }

  ghost function Sum(w: nat -> nat, i: nat): nat {
    if i == 0 then 0 else Sum(w, i - 1) + w(i - 1)
  }

  lemma {:induction false} SumGrows(w: nat -> nat, k: nat, i: nat)
    requires k < i
    ensures Sum(w, k) + w(k) <= Sum(w, i)
  {
    if k < i - 1 { SumGrows(w, k, i - 1); }
  }

  /** If round `k` adds at most `w(k)` nodes, the chain adds at most their sum. */
  lemma {:induction false} ChainVisits(f: Round, w: nat -> nat, i: nat, n: nat)
    requires forall k: nat, m: nat | k < i :: f(k, m).nodes <= m + w(k)
    ensures Chain(f, i, n).nodes <= n + Sum(w, i)
  {
    if i > 0 { ChainVisits(f, w, i - 1, n); }
  }

  function ItemWeight(v: nat, ss: seq<Json>): nat -> nat {
    (k: nat) => if k < |ss| then Area(v, Size(ss[k])) else 0
  }

  function MemberWeight(v: nat, ms: seq<Member>): nat -> nat {
    (k: nat) => if k < |ms| then Area(v, Size(ms[k].val)) else 0
  }

  function ValueWeight(vms: seq<Member>, s: nat): nat -> nat {
    (k: nat) => if k < |vms| then Area(Size(vms[k].val), s) else 0
  }

  function ElementWeight(xs: seq<Json>, s: nat): nat -> nat {
    (k: nat) => if k < |xs| then Area(Size(xs[k]), s) else 0
  }

  lemma {:induction false} ItemWeights(v: nat, ss: seq<Json>, i: nat)
    requires i <= |ss|
    ensures Sum(ItemWeight(v, ss), i) == Area(v, SizeItems(ss, i))
  {
    if i > 0 {
      ItemWeights(v, ss, i - 1);
      AreaOfSum(v, SizeItems(ss, i - 1), Size(ss[i - 1]));
    }
  }

  lemma {:induction false} MemberWeights(v: nat, ms: seq<Member>, i: nat)
    requires i <= |ms|
    ensures Sum(MemberWeight(v, ms), i) == Area(v, SizeMembers(ms, i))
  {
    if i > 0 {
      MemberWeights(v, ms, i - 1);
      AreaOfSum(v, SizeMembers(ms, i - 1), Size(ms[i - 1].val));
    }
  }

  lemma {:induction false} ValueWeights(vms: seq<Member>, s: nat, i: nat)
    requires i <= |vms|
    ensures Sum(ValueWeight(vms, s), i) == Area(SizeMembers(vms, i), s)
  {
    if i > 0 {
      ValueWeights(vms, s, i - 1);
      AreaOfSumLeft(SizeMembers(vms, i - 1), Size(vms[i - 1].val), s);
    } else {
      AreaOfNone(s);
    }
  }

  lemma {:induction false} ElementWeights(xs: seq<Json>, s: nat, i: nat)
    requires i <= |xs|
    ensures Sum(ElementWeight(xs, s), i) == Area(SizeItems(xs, i), s)
  {
    if i > 0 {
      ElementWeights(xs, s, i - 1);
      AreaOfSumLeft(SizeItems(xs, i - 1), Size(xs[i - 1]), s);
    } else {
      AreaOfNone(s);
    }
  }

  lemma {:induction false} AreaOfNone(s: nat)
    ensures Area(0, s) == 0
  {
    if s > 0 { AreaOfNone(s - 1); }
  }

  lemma {:induction false} AllOfRoundsVisit(c: Config, v: Json, ss: seq<Json>, at: Place)
    requires Distinguishes(c.p) && AllWellKinded(c.p, ss)
    ensures forall k: nat, m: nat | k < |ss| ::
              AllOfRound(c, v, ss, at)(k, m).nodes <= m + ItemWeight(Size(v), ss)(k)
    decreases ss, 0
  {
    forall k: nat, m: nat | k < |ss|
      ensures AllOfRound(c, v, ss, at)(k, m).nodes <= m + ItemWeight(Size(v), ss)(k)
    {
      VisitBound(c, v, ss[k], at.Under(c.p.kw(AllOf), k), m);
    }
  }

  lemma {:induction false} PropertyRoundVisits(
    c: Config, vms: seq<Member>, props: seq<Member>, at: Place, k: nat, m: nat)
    requires Distinguishes(c.p)
    requires ValuesWellKinded(c.p, props) && k < |props|
    ensures PropertyRound(c, vms, props, at)(k, m).nodes <= m + MemberWeight(Size(Obj(vms)), props)(k)
    decreases props, 0
  {
    var key, s := props[k].key, props[k].val;
    if Has(vms, key) {
      VisitBound(c, Get(vms, key), s, at.Property(c.p, key), m);
      MemberOfValue(vms, key);
      AreaMonotone(Size(Get(vms, key)), Size(Obj(vms)), Size(s), Size(s));
    }
  }

  lemma {:induction false} PropertyRoundsVisit(c: Config, vms: seq<Member>, props: seq<Member>, at: Place)
    requires Distinguishes(c.p) && ValuesWellKinded(c.p, props)
    ensures forall k: nat, m: nat | k < |props| ::
              PropertyRound(c, vms, props, at)(k, m).nodes <= m + MemberWeight(Size(Obj(vms)), props)(k)
    decreases props, 1
  {
    forall k: nat, m: nat | k < |props|
      ensures PropertyRound(c, vms, props, at)(k, m).nodes <= m + MemberWeight(Size(Obj(vms)), props)(k)
    {
      PropertyRoundVisits(c, vms, props, at, k, m);
    }
  }

  lemma {:induction false} AdditionalRoundsVisit(
    c: Config, vms: seq<Member>, ms: seq<Member>, extra: Json, at: Place)
    requires Distinguishes(c.p) && (extra.Bool? || WellKinded(c.p, extra))
    ensures forall k: nat, m: nat | k < |vms| ::
              AdditionalRound(c, vms, ms, extra, at)(k, m).nodes <= m + ValueWeight(vms, Size(extra))(k)
    decreases extra, 2
  {
    forall k: nat, m: nat | k < |vms|
      ensures AdditionalRound(c, vms, ms, extra, at)(k, m).nodes <= m + ValueWeight(vms, Size(extra))(k)
    {
      if !extra.Bool? { VisitBound(c, vms[k].val, extra, at.Additional(c.p, vms[k].key), m); }
    }
  }

  lemma {:induction false} ItemRoundsVisit(c: Config, xs: seq<Json>, item: Json, at: Place)
    requires Distinguishes(c.p) && WellKinded(c.p, item)
    ensures forall k: nat, m: nat | k < |xs| ::
              ItemRound(c, xs, item, at)(k, m).nodes <= m + ElementWeight(xs, Size(item))(k)
    decreases item, 2
  {
    forall k: nat, m: nat | k < |xs|
      ensures ItemRound(c, xs, item, at)(k, m).nodes <= m + ElementWeight(xs, Size(item))(k)
    {
      VisitBound(c, xs[k], item, at.Item(c.p, k), m);
    }
  }

  lemma {:induction false} AllOfChainVisits(c: Config, v: Json, ss: seq<Json>, at: Place, n: nat)
    requires Distinguishes(c.p) && AllWellKinded(c.p, ss)
    ensures Chain(AllOfRound(c, v, ss, at), |ss|, n).nodes <= n + Area(Size(v), SizeItems(ss, |ss|))
    decreases ss, 1
  {
    AllOfRoundsVisit(c, v, ss, at);
    ChainVisits(AllOfRound(c, v, ss, at), ItemWeight(Size(v), ss), |ss|, n);
    ItemWeights(Size(v), ss, |ss|);
  }

  lemma {:induction false} PropertiesChainVisits(c: Config, vms: seq<Member>, props: seq<Member>, at: Place, n: nat)
    requires Distinguishes(c.p) && ValuesWellKinded(c.p, props)
    ensures Chain(PropertyRound(c, vms, props, at), |props|, n).nodes
            <= n + Area(Size(Obj(vms)), SizeMembers(props, |props|))
    decreases props, 2
  {
    PropertyRoundsVisit(c, vms, props, at);
    ChainVisits(PropertyRound(c, vms, props, at), MemberWeight(Size(Obj(vms)), props), |props|, n);
    MemberWeights(Size(Obj(vms)), props, |props|);
  }

  lemma {:induction false} AdditionalChainVisits(
    c: Config, vms: seq<Member>, ms: seq<Member>, extra: Json, at: Place, n: nat)
    requires Distinguishes(c.p) && (extra.Bool? || WellKinded(c.p, extra))
    ensures Chain(AdditionalRound(c, vms, ms, extra, at), |vms|, n).nodes
            <= n + Area(SizeMembers(vms, |vms|), Size(extra))
    decreases extra, 3
  {
    AdditionalRoundsVisit(c, vms, ms, extra, at);
    ChainVisits(AdditionalRound(c, vms, ms, extra, at), ValueWeight(vms, Size(extra)), |vms|, n);
    ValueWeights(vms, Size(extra), |vms|);
  }

  lemma {:induction false} ItemsChainVisits(c: Config, xs: seq<Json>, item: Json, at: Place, n: nat)
    requires Distinguishes(c.p) && WellKinded(c.p, item)
    ensures Chain(ItemRound(c, xs, item, at), |xs|, n).nodes <= n + Area(SizeItems(xs, |xs|), Size(item))
    decreases item, 3
  {
    ItemRoundsVisit(c, xs, item, at);
    ChainVisits(ItemRound(c, xs, item, at), ElementWeight(xs, Size(item)), |xs|, n);
    ElementWeights(xs, Size(item), |xs|);
  }

  lemma {:induction false} AllOfVisits(c: Config, v: Json, ms: seq<Member>, at: Place, n: nat)
    requires Distinguishes(c.p) && ListKinds(c.p, ms, AllOf)
    ensures AllOfPart(c, v, ms, at, n).nodes <= n + Area(Size(v), Nodes(c.p, ms, AllOf))
    decreases ms, 1
  {
    if On(c.p, ms, AllOf) {
      var ss := At(c.p, ms, AllOf).items;
      AllOfChainVisits(c, v, ss, at, n);
      AreaMonotone(Size(v), Size(v), SizeItems(ss, |ss|), Nodes(c.p, ms, AllOf));
    }
  }

  lemma {:induction false} PropertiesVisits(c: Config, vms: seq<Member>, ms: seq<Member>, at: Place, n: nat)
    requires Distinguishes(c.p) && PropertiesKinds(c.p, ms)
    ensures PropertiesPart(c, vms, ms, at, n).nodes <= n + Area(Size(Obj(vms)), Nodes(c.p, ms, Properties))
    decreases ms, 1
  {
    if On(c.p, ms, Properties) {
      var props := At(c.p, ms, Properties).members;
      PropertiesChainVisits(c, vms, props, at, n);
      AreaMonotone(Size(Obj(vms)), Size(Obj(vms)), SizeMembers(props, |props|), Nodes(c.p, ms, Properties));
    }
  }

  lemma {:induction false} AdditionalVisits(c: Config, vms: seq<Member>, ms: seq<Member>, at: Place, n: nat)
    requires Distinguishes(c.p) && AdditionalKinds(c.p, ms)
    ensures AdditionalPart(c, vms, ms, at, n).nodes
            <= n + Area(Size(Obj(vms)), Nodes(c.p, ms, AdditionalProperties))
    decreases ms, 1
  {
    if On(c.p, ms, AdditionalProperties) {
      var extra := At(c.p, ms, AdditionalProperties);
      AdditionalChainVisits(c, vms, ms, extra, at, n);
      AreaMonotone(SizeMembers(vms, |vms|), Size(Obj(vms)), Size(extra), Size(extra));
    }
  }

  lemma {:induction false} ItemsVisits(c: Config, xs: seq<Json>, ms: seq<Member>, at: Place, n: nat)
    requires Distinguishes(c.p) && SchemaKinds(c.p, ms, Items)
    ensures ItemsPart(c, xs, ms, at, n).nodes <= n + Area(Size(Arr(xs)), Nodes(c.p, ms, Items))
    decreases ms, 1
  {
    if On(c.p, ms, Items) {
      var item := At(c.p, ms, Items);
      ItemsChainVisits(c, xs, item, at, n);
      AreaMonotone(SizeItems(xs, |xs|), Size(Arr(xs)), Size(item), Size(item));
    }
  }

  lemma {:induction false} ChildrenVisits(c: Config, v: Json, ms: seq<Member>, at: Place, n: nat)
    requires Distinguishes(c.p)
    requires PropertiesKinds(c.p, ms) && AdditionalKinds(c.p, ms)
    requires SchemaKinds(c.p, ms, Items)
    ensures ChildrenPart(c, v, ms, at, n).nodes
            <= n + Area(Size(v), Nodes(c.p, ms, Properties)) + Area(Size(v), Nodes(c.p, ms, AdditionalProperties))
               + Area(Size(v), Nodes(c.p, ms, Items))
    decreases ms, 2
  {
    match v
    case Obj(vms) =>
      PropertiesVisits(c, vms, ms, at, n);
      AdditionalVisits(c, vms, ms, at, PropertiesPart(c, vms, ms, at, n).nodes);
    case Arr(xs) => ItemsVisits(c, xs, ms, at, n);
    case _ =>
  }

  lemma {:induction false} AreaGrows(v: nat, h: nat, s: nat)
    requires v >= 1 && h < s
    ensures 1 + Area(v, h) <= Area(v, s)
  {
    if s > h + 1 { AreaGrows(v, h, s - 1); }
  }

  lemma {:induction false} AreaOfParts(v: nat, a: nat, b: nat, d: nat, e: nat, s: nat)
    requires v >= 1 && a + b + d + e < s
    ensures 1 + Area(v, a) + (Area(v, b) + Area(v, d) + Area(v, e)) <= Area(v, s)
  {
    AreaOfSum(v, a, b);
    AreaOfSum(v, a + b, d);
    AreaOfSum(v, a + b + d, e);
    AreaGrows(v, a + b + d + e, s);
  }

  lemma {:induction false} BodyVisits(c: Config, v: Json, ms: seq<Member>, at: Place, n: nat)
    requires Distinguishes(c.p)
    requires WellKinded(c.p, Obj(ms))
    ensures 1 + BodyRun(c, v, ms, at, n).nodes <= n + Area(Size(v), Size(Obj(ms)))
    decreases ms, 3
  {
    ApplicatorsFit(c.p, ms);
    AreaOfParts(Size(v), Nodes(c.p, ms, AllOf), Nodes(c.p, ms, Properties), Nodes(c.p, ms, AdditionalProperties),
                Nodes(c.p, ms, Items), Size(Obj(ms)));
    AllOfVisits(c, v, ms, at, n);
    ChildrenVisits(c, v, ms, at, AllOfPart(c, v, ms, at, n).nodes);
  }

  lemma {:induction false} VisitBound(c: Config, v: Json, s: Json, at: Place, n: nat)
    requires Distinguishes(c.p)
    requires WellKinded(c.p, s)
    ensures ValueRun(c, v, s, at, n).nodes <= n + Area(Size(v), Size(s))
    decreases s, 1
  {
    AreaGrows(Size(v), 0, Size(s));
    BodyVisits(c, v, s.members, at, n + 1);
  }

  /** At most |value| * |schema| entries, whatever the budgets are. */
  lemma {:induction false} VisitsAtMostProduct(c: Config, v: Json, s: Json, at: Place)
    requires Distinguishes(c.p)
    requires WellKinded(c.p, s)
    ensures ValueRun(c, v, s, at, 0).nodes <= Size(v) * Size(s)
  {
    VisitBound(c, v, s, at, 0);
    AreaIsProduct(Size(v), Size(s));
  }
}
