/** The validator's verdict is the declarative meaning of the schema, whenever its budgets suffice. */
module Agreement {
  import opened Optional
  import opened Json
  import opened Schema
  import opened Validation
  import opened Semantics
  import opened Visits

  // ------------------------------------------------- one schema object

  lemma {:induction false} GatherEmpty(g: nat -> seq<Error>, i: nat)
    ensures Gather(g, i) == [] <==> forall k: nat | k < i :: g(k) == []
  {
    if i > 0 { GatherEmpty(g, i - 1); }
  }

  lemma {:induction false} RequiredAgrees(p: Platform, vms: seq<Member>, names: seq<Json>, at: Place)
    requires AllStrings(names)
    ensures Gather(AbsentAt(p, vms, names, at), |names|) == [] <==> RequiredPresent(vms, names)
  {
    var g := AbsentAt(p, vms, names, at);
    GatherEmpty(g, |names|);
    assert forall k: nat | k < |names| :: g(k) == [] <==> Has(vms, names[k].s);
  }

  lemma {:induction false} UniqueAgrees(p: Platform, xs: seq<Json>, at: Place)
    ensures Gather(CopyAt(p, xs, at), |xs|) == [] <==> AllDifferent(Library, p, xs)
  {
    var g := CopyAt(p, xs, at);
    GatherEmpty(g, |xs|);
    forall k: nat | k < |xs| ensures g(k) == [] <==> forall j | k < j < |xs| :: !Equal(p, xs[k], xs[j]) {
      CopyAgrees(p, xs, at, k);
    }
  }

  lemma {:induction false} CopyAgrees(p: Platform, xs: seq<Json>, at: Place, k: nat)
    requires k < |xs|
    ensures CopyAt(p, xs, at)(k) == [] <==> forall j | k < j < |xs| :: !Equal(p, xs[k], xs[j])
  {
    FirstCopyIsFirst(p, xs, k, k + 1);
    var copy := FirstCopy(p, xs, k, k + 1);
    if copy < |xs| { assert Equal(p, xs[k], xs[copy]); }
  }

  lemma {:induction false} FirstCopyIsFirst(p: Platform, xs: seq<Json>, i: nat, j: nat)
    requires i < |xs| && j <= |xs|
    ensures FirstCopy(p, xs, i, j) < |xs| ==> Equal(p, xs[i], xs[FirstCopy(p, xs, i, j)])
    ensures forall k | j <= k < FirstCopy(p, xs, i, j) :: !Equal(p, xs[i], xs[k])
    decreases |xs| - j
  {
    if j < |xs| && !Equal(p, xs[i], xs[j]) { FirstCopyIsFirst(p, xs, i, j + 1); }
  }

  lemma {:induction false} ObjectAgrees(p: Platform, vms: seq<Member>, ms: seq<Member>, at: Place)
    requires LocalKinds(p, ms)
    ensures ObjectErrors(p, vms, ms, at) == [] <==> ObjectHolds(p, vms, ms)
  {
    if On(p, ms, Required) { RequiredAgrees(p, vms, At(p, ms, Required).items, at); }
  }

  lemma {:induction false} ArrayAgrees(p: Platform, xs: seq<Json>, ms: seq<Member>, at: Place)
    requires LocalKinds(p, ms)
    ensures ArrayErrors(p, xs, ms, at) == [] <==> ArrayHolds(Library, p, xs, ms)
  {
    UniqueAgrees(p, xs, at);
  }

  lemma {:induction false} StringAgrees(c: Config, text: string, ms: seq<Member>, at: Place)
    requires LocalKinds(c.p, ms) && |text| <= c.lim.maxStringLength
    ensures StringErrors(c, text, ms, at) == [] <==> StringHolds(c.p, text, ms)
  {
  }

  lemma {:induction false} FiniteComparison(p: Platform, a: Number, b: Number)
    requires FiniteNumber(Num(a)) && FiniteNumber(Num(b))
    ensures CompareNumbers(p, a, b) in {Some(-1), Some(0), Some(1)}
  {
  }

  lemma {:induction false} NumberAgrees(p: Platform, n: Number, ms: seq<Member>, at: Place)
    requires LocalKinds(p, ms)
    ensures NumberErrors(p, n, ms, at) == [] <==> NumberHolds(Library, p, n, ms)
  {
    if FiniteNumber(Num(n)) {
      if On(p, ms, Minimum) { FiniteComparison(p, n, At(p, ms, Minimum).n); }
      if On(p, ms, Maximum) { FiniteComparison(p, n, At(p, ms, Maximum).n); }
    }
  }

  lemma {:induction false} ShapeAgrees(c: Config, v: Json, ms: seq<Member>, at: Place)
    requires LocalKinds(c.p, ms) && Longest(v) <= c.lim.maxStringLength
    ensures ShapeErrors(c, v, ms, at) == [] <==> ShapeHolds(Library, c.p, v, ms)
  {
    match v
    case Obj(vms) => ObjectAgrees(c.p, vms, ms, at);
    case Arr(xs) => ArrayAgrees(c.p, xs, ms, at);
    case Str(text) => StringAgrees(c, text, ms, at);
    case Num(n) => NumberAgrees(c.p, n, ms, at);
    case _ =>
  }

  lemma {:induction false} ValueAgrees(p: Platform, v: Json, ms: seq<Member>, at: Place)
    requires LocalKinds(p, ms)
    ensures !TypeMismatch(p, v, ms) && ValueErrors(p, v, ms, at) == [] <==> ValueHolds(Library, p, v, ms)
  {
  }

  // ------------------------------------------------------------- loops

  /** A chain of rounds is silent exactly when every round, met with an affordable counter, is. */
  lemma {:induction false} ChainAgrees(f: Round, w: nat -> nat, good: nat -> bool, i: nat, n: nat)
    requires forall k: nat, m: nat | k < i :: f(k, m).nodes <= m + w(k)
    requires forall k: nat, m: nat | k < i && m <= n + Sum(w, k) :: f(k, m).errors == [] <==> good(k)
    ensures Chain(f, i, n).errors == [] <==> forall k: nat | k < i :: good(k)
  {
    if i > 0 {
      ChainAgrees(f, w, good, i - 1, n);
      ChainVisits(f, w, i - 1, n);
    }
  }

  lemma {:induction false} CountZero(q: nat -> bool, i: nat)
    ensures Count(q, i) == 0 <==> forall k: nat | k < i :: !q(k)
  {
    if i > 0 { CountZero(q, i - 1); }
  }

  ghost predicate OnlyAt(q: nat -> bool, i: nat, k: nat) {
    k < i && q(k) && forall j: nat | j < i && j != k :: !q(j)
  }

  lemma {:induction false} CountOne(q: nat -> bool, i: nat)
    ensures Count(q, i) == 1 <==> exists k: nat :: OnlyAt(q, i, k)
  {
    if i > 0 {
      CountOne(q, i - 1);
      CountZero(q, i - 1);
      if Count(q, i) == 1 {
        if q(i - 1) {
          assert OnlyAt(q, i, i - 1);
        } else {
          var k: nat :| OnlyAt(q, i - 1, k);
          assert OnlyAt(q, i, k);
        }
      }
      if k: nat :| OnlyAt(q, i, k) {
        if k < i - 1 {
          assert OnlyAt(q, i - 1, k);
        }
      }
    }
  }

  // -------------------------------------------------------- sub-schemas

  /** Room for a run on `v` whose schema part has `size` nodes, starting from counter `n`. */
  ghost predicate Room(c: Config, v: Json, size: nat, depth: nat, n: nat) {
    && depth + Height(v) <= c.lim.maxDepth
    && n + Area(Size(v), size) <= c.lim.maxNodes
    && Longest(v) <= c.lim.maxStringLength
  }

  ghost function Good(p: Platform, v: Json, ss: seq<Json>): nat -> bool
    requires AllWellKinded(p, ss)
  {
    (k: nat) => k < |ss| && Satisfies(Library, p, v, ss[k])
  }

  lemma {:induction false} PartRoom(c: Config, v: Json, part: nat, size: nat, depth: nat, n: nat)
    requires Room(c, v, size, depth, n) && part <= size
    ensures Room(c, v, part, depth, n)
  {
    AreaMonotone(Size(v), Size(v), part, size);
  }

  lemma {:induction false} AllOfRoundAgrees(
    c: Config, v: Json, ss: seq<Json>, at: Place, k: nat, n: nat, m: nat)
    requires Distinguishes(c.p)
    requires AllWellKinded(c.p, ss) && k < |ss|
    requires Room(c, v, SizeItems(ss, |ss|), at.depth, n) && m <= n + Sum(ItemWeight(Size(v), ss), k)
    ensures AllOfRound(c, v, ss, at)(k, m).errors == [] <==> Good(c.p, v, ss)(k)
    decreases ss, 0
  {
    SumGrows(ItemWeight(Size(v), ss), k, |ss|);
    ItemWeights(Size(v), ss, |ss|);
    Agrees(c, v, ss[k], at.Under(c.p.kw(AllOf), k), m);
  }

  lemma {:induction false} AllOfRoundsAgree(c: Config, v: Json, ss: seq<Json>, at: Place, n: nat)
    requires Distinguishes(c.p) && AllWellKinded(c.p, ss)
    requires Room(c, v, SizeItems(ss, |ss|), at.depth, n)
    ensures forall k: nat, m: nat | k < |ss| && m <= n + Sum(ItemWeight(Size(v), ss), k) ::
              AllOfRound(c, v, ss, at)(k, m).errors == [] <==> Good(c.p, v, ss)(k)
    decreases ss, 1
  {
    forall k: nat, m: nat | k < |ss| && m <= n + Sum(ItemWeight(Size(v), ss), k)
      ensures AllOfRound(c, v, ss, at)(k, m).errors == [] <==> Good(c.p, v, ss)(k)
    {
      AllOfRoundAgrees(c, v, ss, at, k, n, m);
    }
  }

  lemma {:induction false} AllGood(p: Platform, v: Json, ss: seq<Json>)
    requires AllWellKinded(p, ss)
    ensures (forall k: nat | k < |ss| :: Good(p, v, ss)(k)) <==> AllHold(Library, p, v, ss)
  {
    var good := Good(p, v, ss);
    assert forall k: nat | k < |ss| :: good(k) <==> Satisfies(Library, p, v, ss[k]);
  }

  lemma {:induction false} AllOfAgrees(c: Config, v: Json, ss: seq<Json>, at: Place, n: nat)
    requires Distinguishes(c.p) && AllWellKinded(c.p, ss)
    requires Room(c, v, SizeItems(ss, |ss|), at.depth, n)
    ensures Chain(AllOfRound(c, v, ss, at), |ss|, n).errors == [] <==> AllHold(Library, c.p, v, ss)
    decreases ss, 2
  {
    AllOfRoundsVisit(c, v, ss, at);
    AllOfRoundsAgree(c, v, ss, at, n);
    ChainAgrees(AllOfRound(c, v, ss, at), ItemWeight(Size(v), ss), Good(c.p, v, ss), |ss|, n);
    AllGood(c.p, v, ss);
  }

  lemma {:induction false} QuietAgrees(c: Config, v: Json, s: Json, at: Place)
    requires Distinguishes(c.p) && WellKinded(c.p, s)
    requires Room(c, v, Size(s), at.depth, 0)
    ensures Quiet(c, v, s, at) <==> Satisfies(Library, c.p, v, s)
    decreases s, 2
  {
    Agrees(c, v, s, at, 0);
  }

  lemma {:induction false} QuietListAgrees(c: Config, v: Json, ss: seq<Json>, at: Place, keyword: Keyword, k: nat)
    requires Distinguishes(c.p) && AllWellKinded(c.p, ss) && k < |ss|
    requires Room(c, v, SizeItems(ss, |ss|), at.depth, 0)
    ensures QuietAt(c, v, ss, at, keyword)(k) <==> Satisfies(Library, c.p, v, ss[k])
    decreases ss, 0
  {
    ItemBounds(ss, k, |ss|);
    PartRoom(c, v, Size(ss[k]), SizeItems(ss, |ss|), at.depth, 0);
    QuietAgrees(c, v, ss[k], at.Under(c.p.kw(keyword), k));
  }

  lemma {:induction false} AnyOfAgrees(c: Config, v: Json, ss: seq<Json>, at: Place)
    requires Distinguishes(c.p) && AllWellKinded(c.p, ss)
    requires Room(c, v, SizeItems(ss, |ss|), at.depth, 0)
    ensures Count(QuietAt(c, v, ss, at, AnyOf), |ss|) != 0 <==> SomeHolds(Library, c.p, v, ss)
    decreases ss, 1
  {
    var q := QuietAt(c, v, ss, at, AnyOf);
    forall k: nat | k < |ss| ensures q(k) <==> Satisfies(Library, c.p, v, ss[k]) {
      QuietListAgrees(c, v, ss, at, AnyOf, k);
    }
    CountZero(q, |ss|);
  }

  lemma {:induction false} OneOfAgrees(c: Config, v: Json, ss: seq<Json>, at: Place)
    requires Distinguishes(c.p) && AllWellKinded(c.p, ss)
    requires Room(c, v, SizeItems(ss, |ss|), at.depth, 0)
    ensures Count(QuietAt(c, v, ss, at, OneOf), |ss|) == 1 <==> ExactlyOneHolds(Library, c.p, v, ss)
    decreases ss, 1
  {
    var q := QuietAt(c, v, ss, at, OneOf);
    forall k: nat | k < |ss| ensures q(k) <==> Satisfies(Library, c.p, v, ss[k]) {
      QuietListAgrees(c, v, ss, at, OneOf, k);
    }
    CountOne(q, |ss|);
    OnlyOneHolds(c.p, v, ss, q);
  }

  lemma {:induction false} OnlyOneHolds(p: Platform, v: Json, ss: seq<Json>, q: nat -> bool)
    requires AllWellKinded(p, ss)
    requires forall k: nat | k < |ss| :: q(k) <==> Satisfies(Library, p, v, ss[k])
    ensures (exists k: nat :: OnlyAt(q, |ss|, k)) <==> ExactlyOneHolds(Library, p, v, ss)
  {
    if k: nat :| OnlyAt(q, |ss|, k) {
      assert Satisfies(Library, p, v, ss[k]);
    }
    if ExactlyOneHolds(Library, p, v, ss) {
      var i :| && 0 <= i < |ss| && Satisfies(Library, p, v, ss[i])
               && forall j | 0 <= j < |ss| && j != i :: !Satisfies(Library, p, v, ss[j]);
      assert OnlyAt(q, |ss|, i);
    }
  }

  // ------------------------------------------------------------ children

  ghost function PropertyGood(p: Platform, vms: seq<Member>, props: seq<Member>): nat -> bool
    requires ValuesWellKinded(p, props)
  {
    (k: nat) => k < |props| && (Has(vms, props[k].key) ==> Satisfies(Library, p, Get(vms, props[k].key), props[k].val))
  }

  ghost function AdditionalGood(p: Platform, vms: seq<Member>, ms: seq<Member>, extra: Json): nat -> bool
    requires extra.Bool? || WellKinded(p, extra)
  {
    (k: nat) =>
      k < |vms| &&
      (Declared(p, ms, vms[k].key) || (if extra.Bool? then extra.b else Satisfies(Library, p, vms[k].val, extra)))
  }

  ghost function ItemGood(p: Platform, xs: seq<Json>, item: Json): nat -> bool
    requires WellKinded(p, item)
  {
    (k: nat) => k < |xs| && Satisfies(Library, p, xs[k], item)
  }

  lemma {:induction false} MemberRoom(c: Config, vms: seq<Member>, key: string, s: Json, depth: nat, m: nat)
    requires Has(vms, key)
    requires depth + Height(Obj(vms)) <= c.lim.maxDepth && Longest(Obj(vms)) <= c.lim.maxStringLength
    requires m + Area(Size(Obj(vms)), Size(s)) <= c.lim.maxNodes
    ensures Room(c, Get(vms, key), Size(s), depth + 1, m)
  {
    var i :| 0 <= i < |vms| && vms[i] == Member(key, Get(vms, key));
    MemberBounds(vms, i, |vms|);
    AreaMonotone(Size(vms[i].val), Size(Obj(vms)), Size(s), Size(s));
  }

  lemma {:induction false} PropertyRoundAgrees(
    c: Config, vms: seq<Member>, props: seq<Member>, at: Place, k: nat, n: nat, m: nat)
    requires Distinguishes(c.p) && ValuesWellKinded(c.p, props) && k < |props|
    requires Room(c, Obj(vms), SizeMembers(props, |props|), at.depth, n)
    requires m <= n + Sum(MemberWeight(Size(Obj(vms)), props), k)
    ensures PropertyRound(c, vms, props, at)(k, m).errors == [] <==> PropertyGood(c.p, vms, props)(k)
    decreases props, 0
  {
    SumGrows(MemberWeight(Size(Obj(vms)), props), k, |props|);
    MemberWeights(Size(Obj(vms)), props, |props|);
    var key, s := props[k].key, props[k].val;
    if Has(vms, key) {
      MemberRoom(c, vms, key, s, at.depth, m);
      Agrees(c, Get(vms, key), s, at.Property(c.p, key), m);
    }
  }

  lemma {:induction false} AdditionalRoundAgrees(
    c: Config, vms: seq<Member>, ms: seq<Member>, extra: Json, at: Place, k: nat, n: nat, m: nat)
    requires Distinguishes(c.p) && (extra.Bool? || WellKinded(c.p, extra)) && k < |vms|
    requires Room(c, Obj(vms), Size(extra), at.depth, n)
    requires m <= n + Sum(ValueWeight(vms, Size(extra)), k)
    ensures AdditionalRound(c, vms, ms, extra, at)(k, m).errors == [] <==> AdditionalGood(c.p, vms, ms, extra)(k)
    decreases extra, 2
  {
    if !extra.Bool? {
      SumGrows(ValueWeight(vms, Size(extra)), k, |vms|);
      ValueWeights(vms, Size(extra), |vms|);
      AreaMonotone(SizeMembers(vms, |vms|), Size(Obj(vms)), Size(extra), Size(extra));
      MemberBounds(vms, k, |vms|);
      Agrees(c, vms[k].val, extra, at.Additional(c.p, vms[k].key), m);
    }
  }

  lemma {:induction false} ItemRoundAgrees(c: Config, xs: seq<Json>, item: Json, at: Place, k: nat, n: nat, m: nat)
    requires Distinguishes(c.p) && WellKinded(c.p, item) && k < |xs|
    requires Room(c, Arr(xs), Size(item), at.depth, n)
    requires m <= n + Sum(ElementWeight(xs, Size(item)), k)
    ensures ItemRound(c, xs, item, at)(k, m).errors == [] <==> ItemGood(c.p, xs, item)(k)
    decreases item, 2
  {
    SumGrows(ElementWeight(xs, Size(item)), k, |xs|);
    ElementWeights(xs, Size(item), |xs|);
    AreaMonotone(SizeItems(xs, |xs|), Size(Arr(xs)), Size(item), Size(item));
    ItemBounds(xs, k, |xs|);
    Agrees(c, xs[k], item, at.Item(c.p, k), m);
  }

  lemma {:induction false} PropertyRoundsAgree(c: Config, vms: seq<Member>, props: seq<Member>, at: Place, n: nat)
    requires Distinguishes(c.p) && ValuesWellKinded(c.p, props)
    requires Room(c, Obj(vms), SizeMembers(props, |props|), at.depth, n)
    ensures forall k: nat, m: nat | k < |props| && m <= n + Sum(MemberWeight(Size(Obj(vms)), props), k) ::
              PropertyRound(c, vms, props, at)(k, m).errors == [] <==> PropertyGood(c.p, vms, props)(k)
    decreases props, 1
  {
    forall k: nat, m: nat | k < |props| && m <= n + Sum(MemberWeight(Size(Obj(vms)), props), k)
      ensures PropertyRound(c, vms, props, at)(k, m).errors == [] <==> PropertyGood(c.p, vms, props)(k)
    {
      PropertyRoundAgrees(c, vms, props, at, k, n, m);
    }
  }

  lemma {:induction false} AdditionalRoundsAgree(
    c: Config, vms: seq<Member>, ms: seq<Member>, extra: Json, at: Place, n: nat)
    requires Distinguishes(c.p) && (extra.Bool? || WellKinded(c.p, extra))
    requires Room(c, Obj(vms), Size(extra), at.depth, n)
    ensures forall k: nat, m: nat | k < |vms| && m <= n + Sum(ValueWeight(vms, Size(extra)), k) ::
              AdditionalRound(c, vms, ms, extra, at)(k, m).errors == [] <==> AdditionalGood(c.p, vms, ms, extra)(k)
    decreases extra, 3
  {
    forall k: nat, m: nat | k < |vms| && m <= n + Sum(ValueWeight(vms, Size(extra)), k)
      ensures AdditionalRound(c, vms, ms, extra, at)(k, m).errors == [] <==> AdditionalGood(c.p, vms, ms, extra)(k)
    {
      AdditionalRoundAgrees(c, vms, ms, extra, at, k, n, m);
    }
  }

  lemma {:induction false} ItemRoundsAgree(c: Config, xs: seq<Json>, item: Json, at: Place, n: nat)
    requires Distinguishes(c.p) && WellKinded(c.p, item)
    requires Room(c, Arr(xs), Size(item), at.depth, n)
    ensures forall k: nat, m: nat | k < |xs| && m <= n + Sum(ElementWeight(xs, Size(item)), k) ::
              ItemRound(c, xs, item, at)(k, m).errors == [] <==> ItemGood(c.p, xs, item)(k)
    decreases item, 3
  {
    forall k: nat, m: nat | k < |xs| && m <= n + Sum(ElementWeight(xs, Size(item)), k)
      ensures ItemRound(c, xs, item, at)(k, m).errors == [] <==> ItemGood(c.p, xs, item)(k)
    {
      ItemRoundAgrees(c, xs, item, at, k, n, m);
    }
  }

  lemma {:induction false} AllPropertiesGood(p: Platform, vms: seq<Member>, props: seq<Member>)
    requires ValuesWellKinded(p, props)
    ensures (forall k: nat | k < |props| :: PropertyGood(p, vms, props)(k)) <==> PropertiesHold(Library, p, vms, props)
  {
    var good := PropertyGood(p, vms, props);
    assert forall k: nat | k < |props| ::
        good(k) <==> (Has(vms, props[k].key) ==> Satisfies(Library, p, Get(vms, props[k].key), props[k].val));
  }

  lemma {:induction false} AllAdditionalGood(p: Platform, vms: seq<Member>, ms: seq<Member>, extra: Json)
    requires extra.Bool? || WellKinded(p, extra)
    ensures (forall k: nat | k < |vms| :: AdditionalGood(p, vms, ms, extra)(k))
       <==> AdditionalHold(Library, p, vms, ms, extra)
  {
    var good := AdditionalGood(p, vms, ms, extra);
    assert forall k: nat | k < |vms| ::
        good(k) <==>
          (Declared(p, ms, vms[k].key) || (if extra.Bool? then extra.b else Satisfies(Library, p, vms[k].val, extra)));
  }

  lemma {:induction false} AllItemsGood(p: Platform, xs: seq<Json>, item: Json)
    requires WellKinded(p, item)
    ensures (forall k: nat | k < |xs| :: ItemGood(p, xs, item)(k)) <==> ItemsHold(Library, p, xs, item)
  {
    var good := ItemGood(p, xs, item);
    assert forall k: nat | k < |xs| :: good(k) <==> Satisfies(Library, p, xs[k], item);
  }

  lemma {:induction false} PropertiesAgrees(c: Config, vms: seq<Member>, props: seq<Member>, at: Place, n: nat)
    requires Distinguishes(c.p) && ValuesWellKinded(c.p, props)
    requires Room(c, Obj(vms), SizeMembers(props, |props|), at.depth, n)
    ensures Chain(PropertyRound(c, vms, props, at), |props|, n).errors == []
       <==> PropertiesHold(Library, c.p, vms, props)
    decreases props, 2
  {
    PropertyRoundsVisit(c, vms, props, at);
    PropertyRoundsAgree(c, vms, props, at, n);
    ChainAgrees(PropertyRound(c, vms, props, at), MemberWeight(Size(Obj(vms)), props),
                PropertyGood(c.p, vms, props), |props|, n);
    AllPropertiesGood(c.p, vms, props);
  }

  lemma {:induction false} AdditionalAgrees(
    c: Config, vms: seq<Member>, ms: seq<Member>, extra: Json, at: Place, n: nat)
    requires Distinguishes(c.p) && (extra.Bool? || WellKinded(c.p, extra))
    requires Room(c, Obj(vms), Size(extra), at.depth, n)
    ensures Chain(AdditionalRound(c, vms, ms, extra, at), |vms|, n).errors == []
       <==> AdditionalHold(Library, c.p, vms, ms, extra)
    decreases extra, 4
  {
    AdditionalRoundsVisit(c, vms, ms, extra, at);
    AdditionalRoundsAgree(c, vms, ms, extra, at, n);
    ChainAgrees(AdditionalRound(c, vms, ms, extra, at), ValueWeight(vms, Size(extra)),
                AdditionalGood(c.p, vms, ms, extra), |vms|, n);
    AllAdditionalGood(c.p, vms, ms, extra);
  }

  lemma {:induction false} ItemsAgrees(c: Config, xs: seq<Json>, item: Json, at: Place, n: nat)
    requires Distinguishes(c.p) && WellKinded(c.p, item)
    requires Room(c, Arr(xs), Size(item), at.depth, n)
    ensures Chain(ItemRound(c, xs, item, at), |xs|, n).errors == [] <==> ItemsHold(Library, c.p, xs, item)
    decreases item, 4
  {
    ItemRoundsVisit(c, xs, item, at);
    ItemRoundsAgree(c, xs, item, at, n);
    ChainAgrees(ItemRound(c, xs, item, at), ElementWeight(xs, Size(item)), ItemGood(c.p, xs, item), |xs|, n);
    AllItemsGood(c.p, xs, item);
  }

  // ------------------------------------------------------------ the whole

  lemma {:induction false} ObjectKidsAgrees(c: Config, vms: seq<Member>, ms: seq<Member>, at: Place, n: nat)
    requires Distinguishes(c.p) && PropertiesKinds(c.p, ms) && AdditionalKinds(c.p, ms)
    requires Room(c, Obj(vms), 0, at.depth, n)
    requires n + Area(Size(Obj(vms)), Nodes(c.p, ms, Properties))
             + Area(Size(Obj(vms)), Nodes(c.p, ms, AdditionalProperties)) <= c.lim.maxNodes
    ensures ObjectKids(c, vms, ms, at, n).errors == []
       <==> && (On(c.p, ms, Properties) ==> PropertiesHold(Library, c.p, vms, At(c.p, ms, Properties).members))
            && (On(c.p, ms, AdditionalProperties) ==>
                  AdditionalHold(Library, c.p, vms, ms, At(c.p, ms, AdditionalProperties)))
    decreases ms, 1
  {
    PropertiesVisits(c, vms, ms, at, n);
    if On(c.p, ms, Properties) {
      var props := At(c.p, ms, Properties).members;
      PartRoom(c, Obj(vms), SizeMembers(props, |props|), Nodes(c.p, ms, Properties), at.depth, n);
      PropertiesAgrees(c, vms, props, at, n);
    }
    if On(c.p, ms, AdditionalProperties) {
      AdditionalAgrees(c, vms, ms, At(c.p, ms, AdditionalProperties), at, PropertiesPart(c, vms, ms, at, n).nodes);
    }
  }

  lemma {:induction false} ChildrenAgrees(c: Config, v: Json, ms: seq<Member>, at: Place, n: nat)
    requires Distinguishes(c.p) && PropertiesKinds(c.p, ms) && AdditionalKinds(c.p, ms) && SchemaKinds(c.p, ms, Items)
    requires Room(c, v, 0, at.depth, n)
    requires n + Area(Size(v), Nodes(c.p, ms, Properties)) + Area(Size(v), Nodes(c.p, ms, AdditionalProperties))
             + Area(Size(v), Nodes(c.p, ms, Items)) <= c.lim.maxNodes
    ensures ChildrenPart(c, v, ms, at, n).errors == [] <==> ChildrenHold(Library, c.p, v, ms)
    decreases ms, 2
  {
    match v
    case Obj(vms) => ObjectKidsAgrees(c, vms, ms, at, n);
    case Arr(xs) =>
      if On(c.p, ms, Items) { ItemsAgrees(c, xs, At(c.p, ms, Items), at, n); }
    case _ =>
  }

  lemma {:induction false} ListRoom(c: Config, v: Json, ms: seq<Member>, k: Keyword, depth: nat, n: nat)
    requires On(c.p, ms, k) && At(c.p, ms, k).Arr? && Room(c, v, Nodes(c.p, ms, k), depth, n)
    ensures Room(c, v, SizeItems(At(c.p, ms, k).items, |At(c.p, ms, k).items|), depth, n)
  {
    PartRoom(c, v, SizeItems(At(c.p, ms, k).items, |At(c.p, ms, k).items|), Nodes(c.p, ms, k), depth, n);
  }

  lemma {:induction false} QuietErrorsAgree(c: Config, v: Json, ms: seq<Member>, at: Place)
    requires Distinguishes(c.p) && ListKinds(c.p, ms, AnyOf) && ListKinds(c.p, ms, OneOf) && SchemaKinds(c.p, ms, Not)
    requires Room(c, v, Nodes(c.p, ms, AnyOf), at.depth, 0) && Room(c, v, Nodes(c.p, ms, OneOf), at.depth, 0)
    requires Room(c, v, Nodes(c.p, ms, Not), at.depth, 0)
    ensures QuietErrors(c, v, ms, at) == []
       <==> && (On(c.p, ms, AnyOf) ==> SomeHolds(Library, c.p, v, At(c.p, ms, AnyOf).items))
            && (On(c.p, ms, OneOf) ==> ExactlyOneHolds(Library, c.p, v, At(c.p, ms, OneOf).items))
            && (On(c.p, ms, Not) ==> !Satisfies(Library, c.p, v, At(c.p, ms, Not)))
    decreases ms, 1
  {
    if On(c.p, ms, AnyOf) {
      ListRoom(c, v, ms, AnyOf, at.depth, 0);
      AnyOfAgrees(c, v, At(c.p, ms, AnyOf).items, at);
    }
    if On(c.p, ms, OneOf) {
      ListRoom(c, v, ms, OneOf, at.depth, 0);
      OneOfAgrees(c, v, At(c.p, ms, OneOf).items, at);
    }
    if On(c.p, ms, Not) {
      QuietAgrees(c, v, At(c.p, ms, Not), at.Keyword(c.p.kw(Not)));
    }
  }

  lemma {:induction false} InPlaceAgrees(c: Config, v: Json, ms: seq<Member>, at: Place, n: nat)
    requires Distinguishes(c.p) && ListKinds(c.p, ms, AllOf) && ListKinds(c.p, ms, AnyOf)
    requires ListKinds(c.p, ms, OneOf) && SchemaKinds(c.p, ms, Not)
    requires Room(c, v, Nodes(c.p, ms, AllOf), at.depth, n)
    requires Room(c, v, Nodes(c.p, ms, AnyOf), at.depth, 0) && Room(c, v, Nodes(c.p, ms, OneOf), at.depth, 0)
    requires Room(c, v, Nodes(c.p, ms, Not), at.depth, 0)
    ensures AllOfPart(c, v, ms, at, n).errors == [] && QuietErrors(c, v, ms, at) == []
       <==> InPlaceHolds(Library, c.p, v, ms)
    decreases ms, 2
  {
    if On(c.p, ms, AllOf) {
      ListRoom(c, v, ms, AllOf, at.depth, n);
      AllOfAgrees(c, v, At(c.p, ms, AllOf).items, at, n);
    }
    QuietErrorsAgree(c, v, ms, at);
  }

  lemma {:induction false} BodyRoom(c: Config, v: Json, ms: seq<Member>, depth: nat, n: nat)
    requires Distinguishes(c.p) && Room(c, v, Size(Obj(ms)), depth, n)
    ensures n + 1 + Area(Size(v), Nodes(c.p, ms, AllOf)) + (Area(Size(v), Nodes(c.p, ms, Properties))
            + Area(Size(v), Nodes(c.p, ms, AdditionalProperties)) + Area(Size(v), Nodes(c.p, ms, Items)))
            <= c.lim.maxNodes
    ensures Room(c, v, Nodes(c.p, ms, AnyOf), depth, 0) && Room(c, v, Nodes(c.p, ms, OneOf), depth, 0)
    ensures Room(c, v, Nodes(c.p, ms, Not), depth, 0)
  {
    ApplicatorsFit(c.p, ms);
    AreaOfParts(Size(v), Nodes(c.p, ms, AllOf), Nodes(c.p, ms, Properties), Nodes(c.p, ms, AdditionalProperties),
                Nodes(c.p, ms, Items), Size(Obj(ms)));
    PartRoom(c, v, Nodes(c.p, ms, AnyOf), Size(Obj(ms)), depth, n);
    PartRoom(c, v, Nodes(c.p, ms, OneOf), Size(Obj(ms)), depth, n);
    PartRoom(c, v, Nodes(c.p, ms, Not), Size(Obj(ms)), depth, n);
  }

  lemma {:induction false} BodyAgrees(c: Config, v: Json, ms: seq<Member>, at: Place, n: nat)
    requires Distinguishes(c.p) && WellKinded(c.p, Obj(ms))
    requires n >= 1 && Room(c, v, Size(Obj(ms)), at.depth, n - 1)
    ensures !TypeMismatch(c.p, v, ms) && BodyRun(c, v, ms, at, n).errors == []
       <==> Satisfies(Library, c.p, v, Obj(ms))
    decreases ms, 3
  {
    BodyRoom(c, v, ms, at.depth, n - 1);
    ValueAgrees(c.p, v, ms, at);
    ShapeAgrees(c, v, ms, at);
    InPlaceAgrees(c, v, ms, at, n);
    AllOfVisits(c, v, ms, at, n);
    ChildrenAgrees(c, v, ms, at, AllOfPart(c, v, ms, at, n).nodes);
  }

  lemma {:induction false} TypedAgrees(c: Config, v: Json, s: Json, at: Place, n: nat)
    requires Distinguishes(c.p) && WellKinded(c.p, s)
    requires n >= 1 && Room(c, v, Size(s), at.depth, n - 1)
    ensures TypedRun(c, v, s, at, n).errors == [] <==> Satisfies(Library, c.p, v, s)
    decreases s, 0
  {
    BodyAgrees(c, v, s.members, at, n);
    assert s == Obj(s.members);
  }

  /** Within budget, a run reports nothing exactly when the value satisfies the schema. */
  lemma {:induction false} Agrees(c: Config, v: Json, s: Json, at: Place, n: nat)
    requires Distinguishes(c.p) && WellKinded(c.p, s)
    requires Room(c, v, Size(s), at.depth, n)
    ensures ValueRun(c, v, s, at, n).errors == [] <==> Satisfies(Library, c.p, v, s)
    decreases s, 1
  {
    AreaGrows(Size(v), 0, Size(s));
    TypedAgrees(c, v, s, at, n + 1);
  }
}
