/** The pre-pass that bounds depth, node count and string lengths of a whole JSON tree. */
module TreeBudget {
  import opened Optional
  import opened Json
  import opened Pointer

  datatype TreeLimits = TreeLimits(maxDepth: nat, maxNodes: nat, maxStringLength: nat)

  /** What the pre-pass promises, stated on the tree alone. */
  predicate Within(j: Json, lim: TreeLimits, depth: nat, used: nat) {
    && depth + Height(j) <= lim.maxDepth
    && used + Size(j) <= lim.maxNodes
    && Longest(j) <= lim.maxStringLength
  }

  /** The first place, in document order, that breaks a limit when `n` nodes come before `j`. */
  function Excess(j: Json, path: string, depth: nat, lim: TreeLimits, n: nat): Option<string>
    decreases j, 1
  {
    if depth > lim.maxDepth || n + 1 > lim.maxNodes || (j.Str? && |j.s| > lim.maxStringLength) then Some(path)
    else match j
      case Obj(ms) => ExcessMembers(ms, 0, path, depth, lim, n + 1)
      case Arr(xs) => ExcessItems(xs, 0, path, depth, lim, n + 1)
      case _ => None
  }

  function ExcessMember(ms: seq<Member>, i: nat, path: string, depth: nat, lim: TreeLimits, n: nat): Option<string>
    requires i < |ms|
    decreases ms, 0
  {
    var at := AppendKey(path, ms[i].key);
    if |ms[i].key| > lim.maxStringLength then Some(at) else Excess(ms[i].val, at, depth + 1, lim, n)
  }

  function ExcessMembers(ms: seq<Member>, i: nat, path: string, depth: nat, lim: TreeLimits, n: nat): Option<string>
    requires i <= |ms|
    decreases ms, 1 + |ms| - i
  {
    if i == |ms| then None
    else
      var e := ExcessMember(ms, i, path, depth, lim, n);
      if e.Some? then e else ExcessMembers(ms, i + 1, path, depth, lim, n + Size(ms[i].val))
  }

  function ExcessItem(xs: seq<Json>, i: nat, path: string, depth: nat, lim: TreeLimits, n: nat): Option<string>
    requires i < |xs|
    decreases xs, 0
  {
    Excess(xs[i], AppendIndex(path, i), depth + 1, lim, n)
  }

  function ExcessItems(xs: seq<Json>, i: nat, path: string, depth: nat, lim: TreeLimits, n: nat): Option<string>
    requires i <= |xs|
    decreases xs, 1 + |xs| - i
  {
    if i == |xs| then None
    else
      var e := ExcessItem(xs, i, path, depth, lim, n);
      if e.Some? then e else ExcessItems(xs, i + 1, path, depth, lim, n + Size(xs[i]))
  }

  /** Nothing is over a limit exactly in the trees within the limits. */
  lemma {:induction false} ExcessIff(j: Json, path: string, depth: nat, lim: TreeLimits, n: nat)
    ensures Excess(j, path, depth, lim, n).None? <==> Within(j, lim, depth, n)
    decreases j, 1
  {
    if depth <= lim.maxDepth && n + 1 <= lim.maxNodes {
      match j
      case Obj(ms) => ExcessMembersIff(ms, 0, path, depth, lim, n + 1);
      case Arr(xs) => ExcessItemsIff(xs, 0, path, depth, lim, n + 1);
      case _ =>
    }
  }

  lemma {:induction false} ExcessMembersIff(
    ms: seq<Member>, i: nat, path: string, depth: nat, lim: TreeLimits, n: nat)
    requires i <= |ms|
    requires depth + HeightMembers(ms, i) <= lim.maxDepth && n + SizeMembers(ms, i) <= lim.maxNodes
    requires LongestMembers(ms, i) <= lim.maxStringLength
    ensures ExcessMembers(ms, i, path, depth, lim, n + SizeMembers(ms, i)).None? <==>
              && depth + HeightMembers(ms, |ms|) <= lim.maxDepth
              && n + SizeMembers(ms, |ms|) <= lim.maxNodes
              && LongestMembers(ms, |ms|) <= lim.maxStringLength
    decreases ms, 0, |ms| - i
  {
    if i < |ms| {
      var before := n + SizeMembers(ms, i);
      ExcessIff(ms[i].val, AppendKey(path, ms[i].key), depth + 1, lim, before);
      MemberBounds(ms, i, |ms|);
      if ExcessMember(ms, i, path, depth, lim, before).None? {
        ExcessMembersIff(ms, i + 1, path, depth, lim, n);
      }
    }
  }

  lemma {:induction false} ExcessItemsIff(xs: seq<Json>, i: nat, path: string, depth: nat, lim: TreeLimits, n: nat)
    requires i <= |xs|
    requires depth + HeightItems(xs, i) <= lim.maxDepth && n + SizeItems(xs, i) <= lim.maxNodes
    requires LongestItems(xs, i) <= lim.maxStringLength
    ensures ExcessItems(xs, i, path, depth, lim, n + SizeItems(xs, i)).None? <==>
              && depth + HeightItems(xs, |xs|) <= lim.maxDepth
              && n + SizeItems(xs, |xs|) <= lim.maxNodes
              && LongestItems(xs, |xs|) <= lim.maxStringLength
    decreases xs, 0, |xs| - i
  {
    if i < |xs| {
      var before := n + SizeItems(xs, i);
      ExcessIff(xs[i], AppendIndex(path, i), depth + 1, lim, before);
      ItemBounds(xs, i, |xs|);
      if ExcessItem(xs, i, path, depth, lim, before).None? {
        ExcessItemsIff(xs, i + 1, path, depth, lim, n);
      }
    }
  }

  /** Accepts exactly the trees within the limits, counting every node once; a rejection names the
      first place over a limit, which exists in the document. */
  method CheckTree(j: Json, path: string, depth: nat, lim: TreeLimits, nodes: nat, ghost root: Json)
    returns (error: Option<string>, after: nat)
    requires DistinctKeys(j) && Resolve(root, path) == Some(j)
    ensures error == Excess(j, path, depth, lim, nodes)
    ensures error.None? <==> Within(j, lim, depth, nodes)
    ensures error.None? ==> after == nodes + Size(j)
    ensures error.Some? ==> Resolve(root, error.value).Some?
    decreases j, 1
  {
    ExcessIff(j, path, depth, lim, nodes);
    if depth > lim.maxDepth {
      return Some(path), nodes;
    }
    after := nodes + 1;
    if after > lim.maxNodes {
      return Some(path), after;
    }
    if j.Str? && |j.s| > lim.maxStringLength {
      return Some(path), after;
    }
    error := None;
    if j.Obj? {
      error, after := CheckMembers(j.members, path, depth, lim, after, root);
    } else if j.Arr? {
      error, after := CheckItems(j.items, path, depth, lim, after, root);
    }
  }

  /** One member: its key counts against the string limit before its value is looked at. */
  method CheckMember(ms: seq<Member>, i: nat, path: string, depth: nat, lim: TreeLimits, nodes: nat, ghost root: Json)
    returns (error: Option<string>, after: nat)
    requires i < |ms| && DistinctKeys(Obj(ms)) && Resolve(root, path) == Some(Obj(ms))
    ensures error == ExcessMember(ms, i, path, depth, lim, nodes)
    ensures error.None? ==> after == nodes + Size(ms[i].val)
    ensures error.Some? ==> Resolve(root, error.value).Some?
    decreases ms, 0
  {
    MemberResolves(root, path, ms, i);
    if |ms[i].key| > lim.maxStringLength {
      return Some(AppendKey(path, ms[i].key)), nodes;
    }
    error, after := CheckTree(ms[i].val, AppendKey(path, ms[i].key), depth + 1, lim, nodes, root);
  }

  method CheckMembers(ms: seq<Member>, path: string, depth: nat, lim: TreeLimits, nodes: nat, ghost root: Json)
    returns (error: Option<string>, after: nat)
    requires DistinctKeys(Obj(ms)) && Resolve(root, path) == Some(Obj(ms))
    ensures error == ExcessMembers(ms, 0, path, depth, lim, nodes)
    ensures error.None? ==> after == nodes + SizeMembers(ms, |ms|)
    ensures error.Some? ==> Resolve(root, error.value).Some?
    decreases ms, 1
  {
    after := nodes;
    for i := 0 to |ms|
      invariant after == nodes + SizeMembers(ms, i)
      invariant ExcessMembers(ms, i, path, depth, lim, after) == ExcessMembers(ms, 0, path, depth, lim, nodes)
    {
      error, after := CheckMember(ms, i, path, depth, lim, after, root);
      if error.Some? {
        return;
      }
    }
    error := None;
  }

  method CheckItem(xs: seq<Json>, i: nat, path: string, depth: nat, lim: TreeLimits, nodes: nat, ghost root: Json)
    returns (error: Option<string>, after: nat)
    requires i < |xs| && DistinctKeys(Arr(xs)) && Resolve(root, path) == Some(Arr(xs))
    ensures error == ExcessItem(xs, i, path, depth, lim, nodes)
    ensures error.None? ==> after == nodes + Size(xs[i])
    ensures error.Some? ==> Resolve(root, error.value).Some?
    decreases xs, 0
  {
    ResolveIndex(root, path, i);
    error, after := CheckTree(xs[i], AppendIndex(path, i), depth + 1, lim, nodes, root);
  }

  method CheckItems(xs: seq<Json>, path: string, depth: nat, lim: TreeLimits, nodes: nat, ghost root: Json)
    returns (error: Option<string>, after: nat)
    requires DistinctKeys(Arr(xs)) && Resolve(root, path) == Some(Arr(xs))
    ensures error == ExcessItems(xs, 0, path, depth, lim, nodes)
    ensures error.None? ==> after == nodes + SizeItems(xs, |xs|)
    ensures error.Some? ==> Resolve(root, error.value).Some?
    decreases xs, 1
  {
    after := nodes;
    for i := 0 to |xs|
      invariant after == nodes + SizeItems(xs, i)
      invariant ExcessItems(xs, i, path, depth, lim, after) == ExcessItems(xs, 0, path, depth, lim, nodes)
    {
      error, after := CheckItem(xs, i, path, depth, lim, after, root);
      if error.Some? {
        return;
      }
    }
    error := None;
  }
}
