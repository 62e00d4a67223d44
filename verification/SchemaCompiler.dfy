/** The schema compiler: one traversal that accepts or rejects, under its own node and depth budget. */
module SchemaCompiler {
  import opened Optional
  import opened Json
  import opened Schema
  import opened TreeBudget

  class CompileContext {
    const platform: Platform
    const options: SchemaOptions
    var nodes: nat

    constructor (platform: Platform, options: SchemaOptions)
      ensures this.platform == platform && this.options == options && nodes == 0
    {
      this.platform := platform;
      this.options := options;
      nodes := 0;
    }
  }

  method CompileType(j: Json) returns (ok: bool)
    ensures ok <==> TypeAccepted(j)
  {
    if j.Str? {
      return TypeNamed(j.s).Some?;
    }
    if !j.Arr? || j.items == [] {
      return false;
    }
    var seen: seq<string> := [];
    for i := 0 to |j.items|
      invariant |seen| == i
      invariant forall k | 0 <= k < i :: j.items[k].Str? && seen[k] == j.items[k].s && TypeNamed(seen[k]).Some?
      invariant forall a, b | 0 <= a < b < i :: seen[a] != seen[b]
    {
      if !j.items[i].Str? {
        return false;
      }
      var name := j.items[i].s;
      if TypeNamed(name).None? {
        return false;
      }
      if name in seen {
        assert exists k | 0 <= k < i :: j.items[k].s == name;
        return false;
      }
      seen := seen + [name];
    }
    ok := true;
  }

  method CompileRequired(j: Json) returns (ok: bool)
    ensures ok <==> RequiredAccepted(j)
  {
    if !j.Arr? {
      return false;
    }
    var seen: seq<string> := [];
    for i := 0 to |j.items|
      invariant |seen| == i
      invariant forall k | 0 <= k < i :: j.items[k].Str? && seen[k] == j.items[k].s
      invariant forall a, b | 0 <= a < b < i :: seen[a] != seen[b]
    {
      if !j.items[i].Str? {
        return false;
      }
      var name := j.items[i].s;
      if name in seen {
        assert exists k | 0 <= k < i :: j.items[k].s == name;
        return false;
      }
      seen := seen + [name];
    }
    ok := true;
  }

  method CompileEnum(p: Platform, j: Json) returns (ok: bool)
    ensures ok <==> EnumAccepted(p, j)
  {
    if !j.Arr? || j.items == [] {
      return false;
    }
    for a := 0 to |j.items|
      invariant forall x, y | 0 <= x < a && x < y < |j.items| :: !Equal(p, j.items[x], j.items[y])
    {
      for b := a + 1 to |j.items|
        invariant forall y | a < y < b :: !Equal(p, j.items[a], j.items[y])
      {
        if Equal(p, j.items[a], j.items[b]) {
          return false;
        }
      }
    }
    ok := true;
  }

  method CheckKeywords(p: Platform, ms: seq<Member>, allowUnknown: bool) returns (ok: bool)
    ensures ok <==> allowUnknown || forall i | 0 <= i < |ms| :: SupportedKeyword(p, ms[i].key)
  {
    for i := 0 to |ms|
      invariant allowUnknown || forall k | 0 <= k < i :: SupportedKeyword(p, ms[k].key)
    {
      if !allowUnknown && !SupportedKeyword(p, ms[i].key) {
        return false;
      }
    }
    ok := true;
  }

  method CompileHead(p: Platform, o: SchemaOptions, ms: seq<Member>) returns (ok: bool)
    ensures ok <==> HeadAccepted(p, o, ms)
  {
    ok := CheckKeywords(p, ms, o.allowUnknown);
    if !ok { return; }
    if On(p, ms, Type) {
      ok := CompileType(At(p, ms, Type));
      if !ok { return; }
    }
    if On(p, ms, Required) {
      ok := CompileRequired(At(p, ms, Required));
      if !ok { return; }
    }
    if On(p, ms, Enum) {
      ok := CompileEnum(p, At(p, ms, Enum));
      if !ok { return; }
    }
    ok := CompileNotes(p, ms, o.maxStringLength);
    if !ok { return; }
    ok := !On(p, ms, Pattern) || (At(p, ms, Pattern).Str? && p.regexValid(At(p, ms, Pattern).s));
  }

  method CompileBounds(p: Platform, ms: seq<Member>) returns (ok: bool)
    ensures ok <==> BoundsAccepted(p, ms)
  {
    ok := CompileRange(p, ms);
    if !ok { return; }
    if On(p, ms, MultipleOf) {
      ok := CompileMultipleOf(At(p, ms, MultipleOf));
      if !ok { return; }
    }
    ok := CompileSizes(p, ms, MinLength, MaxLength);
    if !ok { return; }
    ok := CompileSizes(p, ms, MinItems, MaxItems);
    if !ok { return; }
    ok := CompileSizes(p, ms, MinProperties, MaxProperties);
    if !ok { return; }
    ok := !On(p, ms, UniqueItems) || At(p, ms, UniqueItems).Bool?;
  }

  method CompileNotes(p: Platform, ms: seq<Member>, max: nat) returns (ok: bool)
    ensures ok <==>
      && NoteAccepted(p, ms, Title, max) && NoteAccepted(p, ms, Description, max)
      && NoteAccepted(p, ms, SchemaUri, max) && NoteAccepted(p, ms, Id, max) && NoteAccepted(p, ms, Comment, max)
  {
    var notes := [Title, Description, SchemaUri, Id, Comment];
    for i := 0 to |notes|
      invariant forall k | 0 <= k < i :: NoteAccepted(p, ms, notes[k], max)
    {
      if On(p, ms, notes[i]) {
        var note := At(p, ms, notes[i]);
        if !note.Str? || |note.s| > max {
          assert !NoteAccepted(p, ms, notes[i], max);
          return false;
        }
      }
    }
    assert notes[0] == Title && notes[1] == Description && notes[2] == SchemaUri;
    assert notes[3] == Id && notes[4] == Comment;
    ok := true;
  }

  method CompileRange(p: Platform, ms: seq<Member>) returns (ok: bool)
    ensures ok <==> RangeAccepted(p, ms)
  {
    if On(p, ms, Minimum) && !At(p, ms, Minimum).Num? { return false; }
    if On(p, ms, Maximum) && !At(p, ms, Maximum).Num? { return false; }
    if On(p, ms, Minimum) && !FiniteNumber(At(p, ms, Minimum)) { return false; }
    if On(p, ms, Maximum) && !FiniteNumber(At(p, ms, Maximum)) { return false; }
    if On(p, ms, Minimum) && On(p, ms, Maximum) {
      var cmp := CompareNumbers(p, At(p, ms, Minimum).n, At(p, ms, Maximum).n);
      if cmp.None? || cmp.value > 0 { return false; }
    }
    ok := true;
  }

  method CompileMultipleOf(j: Json) returns (ok: bool)
    ensures ok <==> MultipleOfAccepted(j)
  {
    if !j.Num? {
      return false;
    }
    if j.n.Floating? {
      return j.n.d.Finite? && j.n.d.r > 0.0;
    }
    if AsInt64(j.n) <= 0 {
      return false;
    }
    ok := true;
  }

  method CompileSize(p: Platform, ms: seq<Member>, k: Keyword) returns (ok: bool, size: Option<nat>)
    ensures ok <==> LimitKind(p, ms, k)
    ensures ok ==> size == LimitOf(p, ms, k)
  {
    if !On(p, ms, k) {
      return true, None;
    }
    if !SizeNumber(At(p, ms, k)) {
      return false, None;
    }
    return true, Some(SizeOf(At(p, ms, k)));
  }

  method CompileSizes(p: Platform, ms: seq<Member>, lo: Keyword, hi: Keyword) returns (ok: bool)
    ensures ok <==> SizesAccepted(p, ms, lo, hi)
  {
    var least, most;
    ok, least := CompileSize(p, ms, lo);
    if !ok { return; }
    ok, most := CompileSize(p, ms, hi);
    if !ok { return; }
    ok := Ordered(least, most);
  }

  /** The budget left is enough for the whole tree below. */
  ghost predicate Affordable(o: SchemaOptions, used: nat, depth: nat, s: Json) {
    used + Size(s) <= o.maxNodes && depth + Height(s) <= o.maxDepth && Longest(s) <= o.maxStringLength
  }

  /** The budget left is enough for `need` nodes held by members of `ms`. */
  ghost predicate Spare(o: SchemaOptions, used: nat, need: nat, depth: nat, ms: seq<Member>) {
    && used + need <= o.maxNodes
    && depth + HeightMembers(ms, |ms|) <= o.maxDepth + 1
    && LongestMembers(ms, |ms|) <= o.maxStringLength
  }

  lemma {:induction false} SpareIsAffordable(
    p: Platform, o: SchemaOptions, used: nat, need: nat, depth: nat, ms: seq<Member>, k: Keyword)
    requires Spare(o, used, need, depth, ms) && On(p, ms, k) && Nodes(p, ms, k) <= need
    ensures Affordable(o, used, depth, At(p, ms, k))
  {
    var i :| 0 <= i < |ms| && ms[i] == Member(p.kw(k), At(p, ms, k));
    MemberBounds(ms, i, |ms|);
  }

  lemma {:induction false} AffordableMember(o: SchemaOptions, used: nat, now: nat, depth: nat, ms: seq<Member>, i: nat)
    requires i < |ms| && now <= used + SizeMembers(ms, i) && Affordable(o, used, depth, Obj(ms))
    ensures Affordable(o, now, depth, ms[i].val)
  {
    MemberBounds(ms, i, |ms|);
  }

  lemma {:induction false} AffordableItem(o: SchemaOptions, used: nat, now: nat, depth: nat, xs: seq<Json>, i: nat)
    requires i < |xs| && now <= used + SizeItems(xs, i) && Affordable(o, used, depth, Arr(xs))
    ensures Affordable(o, now, depth, xs[i])
  {
    ItemBounds(xs, i, |xs|);
  }

  ghost predicate AllAccepted(p: Platform, o: SchemaOptions, xs: seq<Json>) {
    forall i | 0 <= i < |xs| :: Accepted(p, o, xs[i])
  }

  ghost predicate ValuesAccepted(p: Platform, o: SchemaOptions, ms: seq<Member>) {
    forall i | 0 <= i < |ms| :: Accepted(p, o, ms[i].val)
  }

  method CompileMembers(ps: seq<Member>, depth: nat, context: CompileContext) returns (ok: bool)
    requires Distinguishes(context.platform)
    modifies context
    ensures ok ==> ValuesAccepted(context.platform, context.options, ps)
    ensures !ok ==> !ValuesAccepted(context.platform, context.options, ps)
                    || !Affordable(context.options, old(context.nodes), depth, Obj(ps))
    ensures old(context.nodes) <= context.nodes <= old(context.nodes) + SizeMembers(ps, |ps|)
    decreases ps, 0
  {
    ghost var used := context.nodes;
    for i := 0 to |ps|
      invariant forall n | 0 <= n < i :: Accepted(context.platform, context.options, ps[n].val)
      invariant used <= context.nodes <= used + SizeMembers(ps, i)
    {
      ghost var now := context.nodes;
      ok := CompileSchema(ps[i].val, depth, context);
      if !ok {
        MemberBounds(ps, i, |ps|);
        if Affordable(context.options, used, depth, Obj(ps)) {
          AffordableMember(context.options, used, now, depth, ps, i);
        }
        return;
      }
    }
    ok := true;
  }

  method CompileItems(xs: seq<Json>, depth: nat, context: CompileContext) returns (ok: bool)
    requires Distinguishes(context.platform)
    modifies context
    ensures ok ==> AllAccepted(context.platform, context.options, xs)
    ensures !ok ==> !AllAccepted(context.platform, context.options, xs)
                    || !Affordable(context.options, old(context.nodes), depth, Arr(xs))
    ensures old(context.nodes) <= context.nodes <= old(context.nodes) + SizeItems(xs, |xs|)
    decreases xs, 0
  {
    ghost var used := context.nodes;
    for i := 0 to |xs|
      invariant forall n | 0 <= n < i :: Accepted(context.platform, context.options, xs[n])
      invariant used <= context.nodes <= used + SizeItems(xs, i)
    {
      ghost var now := context.nodes;
      ok := CompileSchema(xs[i], depth, context);
      if !ok {
        ItemBounds(xs, i, |xs|);
        if Affordable(context.options, used, depth, Arr(xs)) {
          AffordableItem(context.options, used, now, depth, xs, i);
        }
        return;
      }
    }
    ok := true;
  }

  method CompileProperties(ms: seq<Member>, k: Keyword, depth: nat, context: CompileContext) returns (ok: bool)
    requires Distinguishes(context.platform)
    modifies context
    ensures ok ==> PropertiesAccepted(context.platform, context.options, ms, k)
    ensures PropertiesAccepted(context.platform, context.options, ms, k)
            && Spare(context.options, old(context.nodes), Nodes(context.platform, ms, k), depth, ms)
            ==> ok
    ensures old(context.nodes) <= context.nodes <= old(context.nodes) + Nodes(context.platform, ms, k)
    decreases ms, 0
  {
    if !On(context.platform, ms, k) {
      return true;
    }
    if !At(context.platform, ms, k).Obj? {
      return false;
    }
    if Spare(context.options, context.nodes, Nodes(context.platform, ms, k), depth, ms) {
      SpareIsAffordable(context.platform, context.options, context.nodes, Nodes(context.platform, ms, k), depth, ms, k);
    }
    ok := CompileMembers(At(context.platform, ms, k).members, depth, context);
  }

  method CompileList(ms: seq<Member>, k: Keyword, depth: nat, context: CompileContext) returns (ok: bool)
    requires Distinguishes(context.platform)
    modifies context
    ensures ok ==> ListAccepted(context.platform, context.options, ms, k)
    ensures ListAccepted(context.platform, context.options, ms, k)
            && Spare(context.options, old(context.nodes), Nodes(context.platform, ms, k), depth, ms)
            ==> ok
    ensures old(context.nodes) <= context.nodes <= old(context.nodes) + Nodes(context.platform, ms, k)
    decreases ms, 0
  {
    if !On(context.platform, ms, k) {
      return true;
    }
    if !At(context.platform, ms, k).Arr? || At(context.platform, ms, k).items == [] {
      return false;
    }
    if Spare(context.options, context.nodes, Nodes(context.platform, ms, k), depth, ms) {
      SpareIsAffordable(context.platform, context.options, context.nodes, Nodes(context.platform, ms, k), depth, ms, k);
    }
    ok := CompileItems(At(context.platform, ms, k).items, depth, context);
  }

  method CompileOne(ms: seq<Member>, k: Keyword, depth: nat, context: CompileContext) returns (ok: bool)
    requires Distinguishes(context.platform)
    modifies context
    ensures ok ==> SchemaAccepted(context.platform, context.options, ms, k)
    ensures SchemaAccepted(context.platform, context.options, ms, k)
            && Spare(context.options, old(context.nodes), Nodes(context.platform, ms, k), depth, ms)
            ==> ok
    ensures old(context.nodes) <= context.nodes <= old(context.nodes) + Nodes(context.platform, ms, k)
    decreases ms, 0
  {
    if !On(context.platform, ms, k) {
      return true;
    }
    if !At(context.platform, ms, k).Obj? {
      assert !Accepted(context.platform, context.options, At(context.platform, ms, k));
      return false;
    }
    if Spare(context.options, context.nodes, Nodes(context.platform, ms, k), depth, ms) {
      SpareIsAffordable(context.platform, context.options, context.nodes, Nodes(context.platform, ms, k), depth, ms, k);
    }
    ok := CompileSchema(At(context.platform, ms, k), depth, context);
  }

  method CompileAdditional(ms: seq<Member>, k: Keyword, depth: nat, context: CompileContext) returns (ok: bool)
    requires Distinguishes(context.platform)
    modifies context
    ensures ok ==> AdditionalAccepted(context.platform, context.options, ms, k)
    ensures AdditionalAccepted(context.platform, context.options, ms, k)
            && Spare(context.options, old(context.nodes), Nodes(context.platform, ms, k), depth, ms)
            ==> ok
    ensures old(context.nodes) <= context.nodes <= old(context.nodes) + Nodes(context.platform, ms, k)
    decreases ms, 0
  {
    if !On(context.platform, ms, k) || At(context.platform, ms, k).Bool? {
      return true;
    }
    if !At(context.platform, ms, k).Obj? {
      assert !Accepted(context.platform, context.options, At(context.platform, ms, k));
      return false;
    }
    if Spare(context.options, context.nodes, Nodes(context.platform, ms, k), depth, ms) {
      SpareIsAffordable(context.platform, context.options, context.nodes, Nodes(context.platform, ms, k), depth, ms, k);
    }
    ok := CompileSchema(At(context.platform, ms, k), depth, context);
  }

  /** The sub-schemas of a schema, with the bounds checks where the compiler makes them. */
  method CompileBody(ms: seq<Member>, depth: nat, context: CompileContext) returns (ok: bool)
    requires Distinguishes(context.platform)
    modifies context
    ensures ok ==> BodyAccepted(context.platform, context.options, ms)
    ensures BodyAccepted(context.platform, context.options, ms)
            && Spare(context.options, old(context.nodes), NodesInAll(context.platform, ms), depth, ms)
            ==> ok
    ensures old(context.nodes) <= context.nodes <= old(context.nodes) + NodesInAll(context.platform, ms)
    decreases ms, 1
  {
    ok := CompileProperties(ms, Properties, depth, context);
    if !ok { return; }
    ok := CompileAdditional(ms, AdditionalProperties, depth, context);
    if !ok { return; }
    ok := CompileOne(ms, Items, depth, context);
    if !ok { return; }
    ok := CompileBounds(context.platform, ms);
    if !ok { return; }
    ok := CompileList(ms, AllOf, depth, context);
    if !ok { return; }
    ok := CompileList(ms, AnyOf, depth, context);
    if !ok { return; }
    ok := CompileList(ms, OneOf, depth, context);
    if !ok { return; }
    ok := CompileOne(ms, Not, depth, context);
  }

  /** Sound without any assumption; complete whenever the tree fits the remaining budget.  The
      compiler never counts more nodes than the tree has. */
  method CompileSchema(s: Json, depth: nat, context: CompileContext) returns (ok: bool)
    requires Distinguishes(context.platform)
    modifies context
    ensures ok ==> Accepted(context.platform, context.options, s)
    ensures Accepted(context.platform, context.options, s)
            && Affordable(context.options, old(context.nodes), depth, s)
            ==> ok
    ensures old(context.nodes) <= context.nodes <= old(context.nodes) + Size(s)
    decreases s
  {
    var o := context.options;
    if depth > o.maxDepth {
      return false;
    }
    context.nodes := context.nodes + 1;
    if context.nodes > o.maxNodes {
      return false;
    }
    if s.Str? && |s.s| > o.maxStringLength {
      return false;
    }
    if !s.Obj? {
      return false;
    }
    ok := CompileHead(context.platform, o, s.members);
    if !ok { return; }
    ApplicatorsFit(context.platform, s.members);
    ok := CompileBody(s.members, depth + 1, context);
  }

  /** `compileSchema` with its pre-pass: the traversal budget can never be what rejects a schema,
      so acceptance is exactly well-formedness within the tree limits. */
  method Compile(p: Platform, o: SchemaOptions, s: Json) returns (ok: bool)
    requires Distinguishes(p) && DistinctKeys(s)
    ensures ok <==> Accepted(p, o, s) && Within(s, TreeLimits(o.maxDepth, o.maxNodes, o.maxStringLength), 0, 0)
  {
    var error, _ := CheckTree(s, "", 0, TreeLimits(o.maxDepth, o.maxNodes, o.maxStringLength), 0, s);
    if error.Some? {
      return false;
    }
    var context := new CompileContext(p, o);
    ok := CompileSchema(s, 0, context);
  }
}
