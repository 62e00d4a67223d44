/**
 What the cache means: a sequence of items, most recently used first.  `since` remembers for each key the
 other keys used after its own last use, which is what eviction is judged by.
 */
module Recency {
  import opened Optional

  datatype Item = Item(id: string, value: string, expires: Option<int>)

  predicate Expired(item: Item, now: int) {
    item.expires.Some? && now >= item.expires.value
  }

  function Ids(list: seq<Item>): set<string> {
    set i | 0 <= i < |list| :: list[i].id
  }

  ghost predicate Distinct(list: seq<Item>) {
    forall i, j | 0 <= i < j < |list| :: list[i].id != list[j].id
  }

  /** The items whose ids are in `ids`, in order. */
  function Keep(list: seq<Item>, ids: set<string>): seq<Item>
    decreases |list|
  {
    if list == [] then []
    else
      var n := |list| - 1;
      Keep(list[..n], ids) + (if list[n].id in ids then [list[n]] else [])
  }

  function FreshIds(list: seq<Item>, now: int): set<string> {
    set i | 0 <= i < |list| && !Expired(list[i], now) :: list[i].id
  }

  function Fresh(list: seq<Item>, now: int): seq<Item> { Keep(list, FreshIds(list, now)) }

  function Without(list: seq<Item>, id: string): seq<Item> { Keep(list, Ids(list) - {id}) }

  function Used(list: seq<Item>, item: Item): seq<Item> { [item] + Without(list, item.id) }

  function Truncated(list: seq<Item>, max: nat): seq<Item> { if |list| > max then list[..max] else list }

  // --------------------------------------------------------------- about Keep

  lemma {:induction false} KeepMember(list: seq<Item>, ids: set<string>, item: Item)
    ensures item in Keep(list, ids) <==> item in list && item.id in ids
    decreases |list|
  {
    if list != [] {
      var n := |list| - 1;
      KeepMember(list[..n], ids, item);
      assert list == list[..n] + [list[n]];
    }
  }

  lemma {:induction false} KeepKeep(list: seq<Item>, a: set<string>, b: set<string>)
    ensures Keep(Keep(list, a), b) == Keep(list, a * b)
    decreases |list|
  {
    if list != [] {
      var n := |list| - 1;
      KeepKeep(list[..n], a, b);
      var k := Keep(list[..n], a);
      if list[n].id in a {
        assert (k + [list[n]])[..|k|] == k;
      } else {
        assert k + [] == k;
      }
    }
  }

  lemma {:induction false} KeepSame(list: seq<Item>, a: set<string>, b: set<string>)
    requires forall i | 0 <= i < |list| :: list[i].id in a <==> list[i].id in b
    ensures Keep(list, a) == Keep(list, b)
    decreases |list|
  {
    if list != [] {
      var n := |list| - 1;
      assert list[n].id in a <==> list[n].id in b;
      KeepSame(list[..n], a, b);
    }
  }

  lemma {:induction false} KeepAll(list: seq<Item>, ids: set<string>)
    requires forall i | 0 <= i < |list| :: list[i].id in ids
    ensures Keep(list, ids) == list
    decreases |list|
  {
    if list != [] {
      var n := |list| - 1;
      KeepAll(list[..n], ids);
      assert list == list[..n] + [list[n]];
    }
  }

  lemma {:induction false} KeepDistinct(list: seq<Item>, ids: set<string>)
    requires Distinct(list)
    ensures Distinct(Keep(list, ids)) && |Keep(list, ids)| <= |list|
    decreases |list|
  {
    if list != [] {
      var n := |list| - 1;
      KeepDistinct(list[..n], ids);
      var k := Keep(list[..n], ids);
      forall i | 0 <= i < |k| ensures k[i].id != list[n].id {
        KeepMember(list[..n], ids, k[i]);
        assert k[i] in k;
        var j :| 0 <= j < n && list[..n][j] == k[i];
      }
    }
  }

  // --------------------------------------------------------------- operations

  datatype Op =
    | Get(id: string, now: int)
    | Put(item: Item, now: int)
    | Remove(id: string)
    | Clear
    | ClearPrefix(prefix: string)
    | Compact(now: int)
    | Expire(now: int)

  /** The item filed under `id`. */
  function Find(list: seq<Item>, id: string): (r: Option<Item>)
    ensures r.Some? <==> id in Ids(list)
    ensures r.Some? ==> r.value in list && r.value.id == id
    decreases |list|
  {
    if list == [] then None
    else
      var n := |list| - 1;
      assert list == list[..n] + [list[n]];
      if list[n].id == id then Some(list[n]) else Find(list[..n], id)
  }

  /** `id` starts with `prefix`. */
  predicate Under(prefix: string, id: string) { prefix <= id }

  function NotUnder(list: seq<Item>, prefix: string): set<string> {
    set i | 0 <= i < |list| && !Under(prefix, list[i].id) :: list[i].id
  }

  /** A `put` is refused when the cache may hold nothing. */
  function Next(max: nat, list: seq<Item>, op: Op): seq<Item> {
    match op
    case Get(id, now) =>
      var young := Fresh(list, now);
      if Find(young, id).Some? then Used(young, Find(young, id).value) else young
    case Put(item, now) => if max == 0 then list else Truncated(Used(Fresh(list, now), item), max)
    case Remove(id) => Without(list, id)
    case Clear => []
    case ClearPrefix(prefix) => Keep(list, NotUnder(list, prefix))
    case Compact(now) => Truncated(Fresh(list, now), max)
    case Expire(now) => Fresh(list, now)
  }

  /** The key an operation uses: a put, or a get that hits. */
  function Uses(max: nat, list: seq<Item>, op: Op): Option<string> {
    match op
    case Get(id, now) => if Find(Fresh(list, now), id).Some? then Some(id) else None
    case Put(item, _) => if max == 0 then None else Some(item.id)
    case _ => None
  }

  type History = map<string, set<string>>

  /** After `x` is used it is among those used since every other key, and nothing is since itself. */
  function AfterUse(since: History, x: string): History {
    map k | k in since.Keys + {x} :: if k == x then {} else since[k] + {x}
  }

  function Remember(since: History, used: Option<string>): History {
    if used.Some? then AfterUse(since, used.value) else since
  }

  // ---------------------------------------------------------------- invariant

  /** Whatever stands before an item was used after it. */
  ghost predicate Ranked(list: seq<Item>, since: History) {
    && (forall p | 0 <= p < |list| :: list[p].id in since)
    && (forall q, p | 0 <= q < p < |list| :: list[q].id in since[list[p].id])
  }

  ghost predicate Inv(max: nat, list: seq<Item>, since: History) {
    Distinct(list) && |list| <= max && Ranked(list, since)
  }

  lemma {:induction false} KeepRanked(list: seq<Item>, ids: set<string>, since: History)
    requires Ranked(list, since)
    ensures Ranked(Keep(list, ids), since)
    decreases |list|
  {
    if list != [] {
      var n := |list| - 1;
      KeepRanked(list[..n], ids, since);
      var k := Keep(list[..n], ids);
      forall i | 0 <= i < |k| ensures k[i].id in since[list[n].id] {
        KeepMember(list[..n], ids, k[i]);
        assert k[i] in k;
        var j :| 0 <= j < n && list[..n][j] == k[i];
        assert list[j] == k[i];
      }
    }
  }

  lemma {:induction false} KeepInv(max: nat, list: seq<Item>, ids: set<string>, since: History)
    requires Inv(max, list, since)
    ensures Inv(max, Keep(list, ids), since)
  {
    KeepDistinct(list, ids);
    KeepRanked(list, ids, since);
  }

  /** Using an item puts it first, with everything else behind it in the old order. */
  lemma {:induction false} UsedRanked(list: seq<Item>, item: Item, since: History)
    requires Distinct(list) && Ranked(list, since)
    ensures Distinct(Used(list, item)) && Ranked(Used(list, item), AfterUse(since, item.id))
    ensures |Used(list, item)| <= |list| + 1
  {
    var rest := Without(list, item.id);
    KeepDistinct(list, Ids(list) - {item.id});
    KeepRanked(list, Ids(list) - {item.id}, since);
    forall i | 0 <= i < |rest| ensures rest[i].id != item.id {
      KeepMember(list, Ids(list) - {item.id}, rest[i]);
      assert rest[i] in rest;
    }
  }

  /** A present item that is used again leaves room for no more than before. */
  lemma {:induction false} HitKeepsSize(list: seq<Item>, item: Item)
    requires Distinct(list) && item.id in Ids(list)
    ensures |Used(list, item)| <= |list|
    decreases |list|
  {
    var n := |list| - 1;
    var shorter := list[..n];
    var others := Ids(list) - {item.id};
    if list[n].id == item.id {
      KeepDistinct(shorter, others);
    } else {
      forall i | 0 <= i < n ensures shorter[i].id in others <==> shorter[i].id in Ids(shorter) - {item.id} { }
      KeepSame(shorter, others, Ids(shorter) - {item.id});
      HitKeepsSize(shorter, item);
    }
  }

  lemma {:induction false} StepKeeps(max: nat, list: seq<Item>, since: History, op: Op)
    requires Inv(max, list, since)
    ensures Inv(max, Next(max, list, op), Remember(since, Uses(max, list, op)))
  {
    match op {
      case Get(id, now) =>
        KeepInv(max, list, FreshIds(list, now), since);
        var young := Fresh(list, now);
        if Find(young, id).Some? {
          UsedRanked(young, Find(young, id).value, since);
          HitKeepsSize(young, Find(young, id).value);
        }
      case Put(item, now) =>
        KeepInv(max, list, FreshIds(list, now), since);
        UsedRanked(Fresh(list, now), item, since);
      case Remove(id) => KeepInv(max, list, Ids(list) - {id}, since);
      case Clear =>
      case ClearPrefix(prefix) => KeepInv(max, list, NotUnder(list, prefix), since);
      case Compact(now) => KeepInv(max, list, FreshIds(list, now), since);
      case Expire(now) => KeepInv(max, list, FreshIds(list, now), since);
    }
  }

  // --------------------------------------------------------------------- runs

  function RunList(max: nat, ops: seq<Op>): seq<Item>
    decreases |ops|
  {
    if ops == [] then [] else Next(max, RunList(max, ops[..|ops| - 1]), ops[|ops| - 1])
  }

  function RunHistory(max: nat, ops: seq<Op>): History
    decreases |ops|
  {
    if ops == [] then map[]
    else
      var before := ops[..|ops| - 1];
      Remember(RunHistory(max, before), Uses(max, RunList(max, before), ops[|ops| - 1]))
  }

  /** After every run: no key twice, no more than the maximum, most recently used first. */
  lemma {:induction false} RunKeeps(max: nat, ops: seq<Op>)
    ensures Inv(max, RunList(max, ops), RunHistory(max, ops))
    decreases |ops|
  {
    if ops != [] {
      var before := ops[..|ops| - 1];
      RunKeeps(max, before);
      StepKeeps(max, RunList(max, before), RunHistory(max, before), ops[|ops| - 1]);
    }
  }

  lemma {:induction false} PrefixIds(list: seq<Item>, p: nat)
    requires Distinct(list) && p <= |list|
    ensures |Ids(list[..p])| == p
  {
    if p > 0 {
      PrefixIds(list, p - 1);
      assert list[..p] == list[..p - 1] + [list[p - 1]];
      assert Ids(list[..p]) == Ids(list[..p - 1]) + {list[p - 1].id};
      assert list[p - 1].id !in Ids(list[..p - 1]);
    }
  }

  /** At position `p` at least `p` other keys have been used since. */
  lemma {:induction false} RankCounts(list: seq<Item>, since: History, p: nat)
    requires Distinct(list) && Ranked(list, since) && p < |list|
    ensures |since[list[p].id]| >= p
  {
    PrefixIds(list, p);
    var ahead, s := Ids(list[..p]), since[list[p].id];
    forall id | id in ahead ensures id in s {
      var i :| 0 <= i < p && list[i].id == id;
    }
    assert s == ahead + (s - ahead);
  }

  /** The operation itself asks for the removal of `id`. */
  predicate Discards(op: Op, id: string) {
    op.Clear? || (op.Remove? && op.id == id) || (op.ClearPrefix? && Under(op.prefix, id))
  }

  predicate TimedOut(op: Op, item: Item) {
    match op
    case Get(_, now) => Expired(item, now)
    case Put(_, now) => Expired(item, now)
    case Compact(now) => Expired(item, now)
    case Expire(now) => Expired(item, now)
    case _ => false
  }

  lemma {:induction false} FreshHas(list: seq<Item>, now: int, item: Item)
    requires item in list && !Expired(item, now)
    ensures item in Fresh(list, now)
  {
    KeepMember(list, FreshIds(list, now), item);
  }

  lemma {:induction false} UsedHas(list: seq<Item>, used: Item, item: Item)
    requires item in list
    ensures item.id in Ids(Used(list, used))
  {
    if item.id == used.id {
      assert Used(list, used)[0] == used;
    } else {
      KeepMember(list, Ids(list) - {used.id}, item);
      var i :| 0 <= i < |Without(list, used.id)| && Without(list, used.id)[i] == item;
      assert Used(list, used)[i + 1] == item;
    }
  }

  /** What truncation drops stands at position `max` or later. */
  lemma {:induction false} CutOff(list: seq<Item>, max: nat, id: string) returns (p: nat)
    requires id in Ids(list) && id !in Ids(Truncated(list, max))
    ensures max <= p < |list| && list[p].id == id
  {
    p :| 0 <= p < |list| && list[p].id == id;
    assert forall i | 0 <= i < |Truncated(list, max)| :: Truncated(list, max)[i] == list[i];
  }

  /** In every run, an item that disappears although it has not expired and nobody asked for its removal
      had at least `max` other keys used since its own last use. */
  lemma {:induction false} EvictedOnlyWhenStale(max: nat, ops: seq<Op>, op: Op, item: Item)
    requires item in RunList(max, ops) && !TimedOut(op, item) && !Discards(op, item.id)
    requires item.id !in Ids(Next(max, RunList(max, ops), op))
    ensures item.id in RunHistory(max, ops + [op]) && |RunHistory(max, ops + [op])[item.id]| >= max
  {
    var list, since := RunList(max, ops), RunHistory(max, ops);
    RunKeeps(max, ops);
    assert (ops + [op])[..|ops|] == ops;
    match op {
      case Put(newer, now) =>
        FreshHas(list, now, item);
        KeepInv(max, list, FreshIds(list, now), since);
        var full := Used(Fresh(list, now), newer);
        UsedHas(Fresh(list, now), newer, item);
        UsedRanked(Fresh(list, now), newer, since);
        var p := CutOff(full, max, item.id);
        RankCounts(full, AfterUse(since, newer.id), p);
      case _ => StaysPut(max, list, since, op, item);
    }
  }

  /** No other operation drops anything but expired items and what it was asked to remove. */
  lemma {:induction false} StaysPut(max: nat, list: seq<Item>, since: History, op: Op, item: Item)
    requires Inv(max, list, since) && item in list && !op.Put? && !TimedOut(op, item) && !Discards(op, item.id)
    ensures item.id in Ids(Next(max, list, op))
  {
    match op {
      case Get(id, now) =>
        FreshHas(list, now, item);
        if Find(Fresh(list, now), id).Some? { UsedHas(Fresh(list, now), Find(Fresh(list, now), id).value, item); }
      case Remove(id) =>
        KeepMember(list, Ids(list) - {id}, item);
      case ClearPrefix(prefix) =>
        KeepMember(list, NotUnder(list, prefix), item);
      case Compact(now) =>
        FreshHas(list, now, item);
        KeepInv(max, list, FreshIds(list, now), since);
      case Expire(now) =>
        FreshHas(list, now, item);
    }
  }

  // ------------------------------------------------------- what a get returns

  predicate Puts(op: Op, id: string) { op.Put? && op.item.id == id }

  /** The last item a run put under `id`. */
  function LastPut(ops: seq<Op>, id: string): Option<Item>
    decreases |ops|
  {
    if ops == [] then None
    else
      var n := |ops| - 1;
      if Puts(ops[n], id) then Some(ops[n].item) else LastPut(ops[..n], id)
  }

  lemma {:induction false} UsedMembers(list: seq<Item>, used: Item, x: Item)
    requires x in Used(list, used)
    ensures x == used || (x in list && x.id != used.id)
  {
    if x != used {
      assert x in Without(list, used.id);
      KeepMember(list, Ids(list) - {used.id}, x);
    }
  }

  /** An operation keeps old items as they are; a put replaces the item of its key. */
  lemma {:induction false} NextMembers(max: nat, list: seq<Item>, op: Op, x: Item)
    requires max > 0 && x in Next(max, list, op)
    ensures if Puts(op, x.id) then x == op.item else x in list
  {
    match op {
      case Get(id, now) =>
        var young := Fresh(list, now);
        if Find(young, id).Some? { UsedMembers(young, Find(young, id).value, x); }
        assert x in young;
        KeepMember(list, FreshIds(list, now), x);
      case Put(item, now) =>
        var full := Used(Fresh(list, now), item);
        assert x in full;
        UsedMembers(Fresh(list, now), item, x);
        KeepMember(list, FreshIds(list, now), x);
      case Remove(id) => KeepMember(list, Ids(list) - {id}, x);
      case Clear =>
      case ClearPrefix(prefix) => KeepMember(list, NotUnder(list, prefix), x);
      case Compact(now) =>
        assert x in Fresh(list, now);
        KeepMember(list, FreshIds(list, now), x);
      case Expire(now) => KeepMember(list, FreshIds(list, now), x);
    }
  }

  /** After every run, what is listed under a key is what was last put under it. */
  lemma {:induction false} ListedIsLastPut(max: nat, ops: seq<Op>, x: Item)
    requires max > 0 && x in RunList(max, ops)
    ensures LastPut(ops, x.id) == Some(x)
    decreases |ops|
  {
    var n := |ops| - 1;
    NextMembers(max, RunList(max, ops[..n]), ops[n], x);
    if !Puts(ops[n], x.id) { ListedIsLastPut(max, ops[..n], x); }
  }

  /** So a get that hits, after any run, returns the value of the last put of its key. */
  lemma {:induction false} HitIsLastPut(max: nat, ops: seq<Op>, id: string, now: int)
    requires max > 0 && Find(Fresh(RunList(max, ops), now), id).Some?
    ensures Find(Fresh(RunList(max, ops), now), id) == LastPut(ops, id)
    ensures !Expired(LastPut(ops, id).value, now)
  {
    var list := RunList(max, ops);
    var x := Find(Fresh(list, now), id).value;
    KeepMember(list, FreshIds(list, now), x);
    ListedIsLastPut(max, ops, x);
    var i :| 0 <= i < |list| && !Expired(list[i], now) && list[i].id == id;
    ListedIsLastPut(max, ops, list[i]);
  }

  /** At least `max` other keys have been used since `id` was. */
  ghost predicate Crowded(max: nat, ops: seq<Op>, id: string) {
    id in RunHistory(max, ops) && |RunHistory(max, ops)[id]| >= max
  }

  /** The operation leaves `item` alone as far as its own key and its time go. */
  predicate Spares(op: Op, item: Item) { !Puts(op, item.id) && !Discards(op, item.id) && !TimedOut(op, item) }

  lemma {:induction false} SparedOrCrowded(max: nat, ops: seq<Op>, op: Op, item: Item)
    requires max > 0 && item in RunList(max, ops) && Spares(op, item)
    ensures item in RunList(max, ops + [op]) || Crowded(max, ops + [op], item.id)
  {
    var run := ops + [op];
    assert run[..|ops|] == ops;
    if item.id in Ids(RunList(max, run)) {
      var i :| 0 <= i < |RunList(max, run)| && RunList(max, run)[i].id == item.id;
      ListedIsLastPut(max, run, RunList(max, run)[i]);
      ListedIsLastPut(max, ops, item);
    } else {
      EvictedOnlyWhenStale(max, ops, op, item);
    }
  }

  /** The history of a put and what follows it. */
  function Since(before: seq<Op>, put: Op, later: seq<Op>, j: nat): seq<Op>
    requires j <= |later|
  {
    before + [put] + later[..j]
  }

  lemma {:induction false} PutStays(max: nat, before: seq<Op>, item: Item, now: int, later: seq<Op>, j: nat)
    requires max > 0 && j <= |later| && forall k | 0 <= k < |later| :: Spares(later[k], item)
    ensures || item in RunList(max, Since(before, Put(item, now), later, j))
            || exists k: nat | k <= j :: Crowded(max, Since(before, Put(item, now), later, k), item.id)
    decreases j
  {
    var put := Put(item, now);
    var run := Since(before, put, later, j);
    if j == 0 {
      assert run == before + [put] && run[..|before|] == before;
      assert RunList(max, run)[0] == item;
    } else {
      PutStays(max, before, item, now, later, j - 1);
      var prior := Since(before, put, later, j - 1);
      assert run == prior + [later[j - 1]];
      if item in RunList(max, prior) { SparedOrCrowded(max, prior, later[j - 1], item); }
    }
  }

  /** A get any time after a put returns the value put, unless the key was put again or discarded, the item
      expired, or at some moment at least `max` other keys had been used since the key was. */
  lemma {:induction false} GetAfterPut(max: nat, before: seq<Op>, item: Item, now: int, later: seq<Op>, soon: int)
    requires max > 0 && (forall k | 0 <= k < |later| :: Spares(later[k], item)) && !Expired(item, soon)
    ensures || Find(Fresh(RunList(max, Since(before, Put(item, now), later, |later|)), soon), item.id) == Some(item)
            || exists k: nat | k <= |later| :: Crowded(max, Since(before, Put(item, now), later, k), item.id)
  {
    PutStays(max, before, item, now, later, |later|);
    var run := Since(before, Put(item, now), later, |later|);
    var list := RunList(max, run);
    RunKeeps(max, run);
    if item in list {
      FreshHas(list, soon, item);
      KeepDistinct(list, FreshIds(list, soon));
    }
  }
}
