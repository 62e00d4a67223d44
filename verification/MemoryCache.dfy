/** The in-memory cache as it runs: a map of entries and a recency list, changed in place. */
module MemoryCache {
  import opened Optional
  import opened CacheKeys
  import opened Recency

  datatype Entry = Entry(value: string, expires: Option<int>)

  function Listed(id: string, e: Entry): Item { Item(id, e.value, e.expires) }

  ghost predicate NoRepeats(lru: seq<string>) {
    forall i, j | 0 <= i < j < |lru| :: lru[i] != lru[j]
  }

  /** The list and the map hold the same ids, each once. */
  ghost predicate Matched(lru: seq<string>, entries: map<string, Entry>) {
    NoRepeats(lru) && forall id :: id in lru <==> id in entries
  }

  /** The recency sequence the two fields stand for. */
  function Items(lru: seq<string>, entries: map<string, Entry>): (r: seq<Item>)
    requires forall i | 0 <= i < |lru| :: lru[i] in entries
    ensures |r| == |lru| && forall i | 0 <= i < |lru| :: r[i] == Listed(lru[i], entries[lru[i]])
  {
    seq(|lru|, i requires 0 <= i < |lru| => Listed(lru[i], entries[lru[i]]))
  }

  function Erased(lru: seq<string>, id: string): seq<string>
    decreases |lru|
  {
    if lru == [] then []
    else
      var n := |lru| - 1;
      Erased(lru[..n], id) + (if lru[n] == id then [] else [lru[n]])
  }

  lemma {:induction false} ErasedMember(lru: seq<string>, id: string, x: string)
    ensures x in Erased(lru, id) <==> x in lru && x != id
    decreases |lru|
  {
    if lru != [] {
      var n := |lru| - 1;
      ErasedMember(lru[..n], id, x);
      assert lru == lru[..n] + [lru[n]];
    }
  }

  lemma {:induction false} ErasedNoRepeats(lru: seq<string>, id: string)
    requires NoRepeats(lru)
    ensures NoRepeats(Erased(lru, id))
    decreases |lru|
  {
    if lru != [] {
      var n := |lru| - 1;
      ErasedNoRepeats(lru[..n], id);
      ErasedMember(lru[..n], id, lru[n]);
    }
  }

  /** Erasing an id from the list keeps the items of the others. */
  lemma {:induction false} ErasedItems(lru: seq<string>, entries: map<string, Entry>, id: string, ids: set<string>)
    requires forall i | 0 <= i < |lru| :: lru[i] in entries && (lru[i] in ids <==> lru[i] != id)
    ensures forall i | 0 <= i < |Erased(lru, id)| :: Erased(lru, id)[i] in entries
    ensures Items(Erased(lru, id), entries) == Keep(Items(lru, entries), ids)
    decreases |lru|
  {
    if lru != [] {
      var n := |lru| - 1;
      ErasedItems(lru[..n], entries, id, ids);
      assert Items(lru, entries)[..n] == Items(lru[..n], entries);
      assert lru[n] in ids <==> lru[n] != id;
    }
  }

  lemma {:induction false} SameItems(lru: seq<string>, a: map<string, Entry>, b: map<string, Entry>)
    requires forall i | 0 <= i < |lru| :: lru[i] in a && lru[i] in b && a[lru[i]] == b[lru[i]]
    ensures Items(lru, a) == Items(lru, b)
  {
  }

  lemma {:induction false} ItemsIds(lru: seq<string>, entries: map<string, Entry>)
    requires Matched(lru, entries)
    ensures Ids(Items(lru, entries)) == entries.Keys
    ensures Distinct(Items(lru, entries))
  {
    var r := Items(lru, entries);
    forall id | id in entries ensures id in Ids(r) {
      var i :| 0 <= i < |lru| && lru[i] == id;
      assert r[i].id == id;
    }
    forall id | id in Ids(r) ensures id in entries {
      var i :| 0 <= i < |r| && r[i].id == id;
    }
  }

  /** Removing an id from both fields is keeping the others. */
  lemma {:induction false} Discarding(lru: seq<string>, entries: map<string, Entry>, id: string)
    requires Matched(lru, entries)
    ensures Matched(Erased(lru, id), entries - {id})
    ensures Items(Erased(lru, id), entries - {id}) == Keep(Items(lru, entries), entries.Keys - {id})
  {
    forall x ensures x in Erased(lru, id) <==> x in entries - {id} { ErasedMember(lru, id, x); }
    ErasedNoRepeats(lru, id);
    assert forall i | 0 <= i < |lru| :: lru[i] in lru;
    ErasedItems(lru, entries, id, entries.Keys - {id});
    forall i | 0 <= i < |Erased(lru, id)| ensures Erased(lru, id)[i] in entries - {id} {
      assert Erased(lru, id)[i] in Erased(lru, id);
    }
    SameItems(Erased(lru, id), entries, entries - {id});
  }

  lemma {:induction false} FilingMatched(lru: seq<string>, entries: map<string, Entry>, id: string, e: Entry)
    requires Matched(lru, entries)
    ensures Matched([id] + Erased(lru, id), entries[id := e])
  {
    var rest := Erased(lru, id);
    ErasedNoRepeats(lru, id);
    ErasedMember(lru, id, id);
    assert forall i | 0 <= i < |rest| :: rest[i] in rest;
    forall x ensures x in [id] + rest <==> x in entries[id := e] { ErasedMember(lru, id, x); }
  }

  /** Filing an id first with a new entry is using it. */
  lemma {:induction false} Filing(lru: seq<string>, entries: map<string, Entry>, id: string, e: Entry)
    requires Matched(lru, entries)
    ensures Matched([id] + Erased(lru, id), entries[id := e])
    ensures Items([id] + Erased(lru, id), entries[id := e]) == Used(Items(lru, entries), Listed(id, e))
  {
    FilingMatched(lru, entries, id, e);
    Discarding(lru, entries, id);
    ItemsIds(lru, entries);
    FilingItems(Erased(lru, id), entries - {id}, entries[id := e], id);
  }

  lemma {:induction false} FilingItems(rest: seq<string>, a: map<string, Entry>, b: map<string, Entry>, id: string)
    requires Matched(rest, a) && id in b && forall x | x in a :: x in b && a[x] == b[x]
    ensures forall i | 0 <= i < |[id] + rest| :: ([id] + rest)[i] in b
    ensures Items([id] + rest, b) == [Listed(id, b[id])] + Items(rest, a)
  {
    assert forall i | 0 <= i < |rest| :: rest[i] in rest;
  }

  lemma {:induction false} NotListed(lru: seq<string>, id: string)
    requires id !in lru
    ensures Erased(lru, id) == lru
    decreases |lru|
  {
    if lru != [] {
      var n := |lru| - 1;
      assert lru == lru[..n] + [lru[n]];
      NotListed(lru[..n], id);
    }
  }

  lemma {:induction false} SameSize(lru: seq<string>, entries: map<string, Entry>)
    requires Matched(lru, entries)
    ensures |entries| == |lru|
  {
    ItemsIds(lru, entries);
    var r := Items(lru, entries);
    PrefixIds(r, |r|);
    assert r[..|r|] == r;
    assert |entries.Keys| == |entries|;
  }

  datatype Options = Options(maxEntries: nat, maxValueBytes: nat, defaultTtl: Option<int>)

  datatype GetResult = Hit(value: string) | NotFound | BadKey

  datatype PutResult = Stored | Invalid | TooLarge

  datatype RemoveResult = Removed | Absent | BadRemoveKey

  predicate ContainsNull(text: seq<Byte>) { exists i | 0 <= i < |text| :: text[i] == 0 }

  predicate ValidKey(key: CacheKey) {
    key.name != [] && !ContainsNull(key.ns) && !ContainsNull(key.name)
  }

  /** The requests `put` refuses before it takes the lock, apart from oversized values. */
  predicate PutInvalid(options: Options, key: CacheKey, ttl: Option<int>) {
    || !ValidKey(key)
    || (ttl.Some? && ttl.value <= 0)
    || (options.defaultTtl.Some? && options.defaultTtl.value <= 0)
    || options.maxEntries == 0
  }

  function ExpiresAt(options: Options, ttl: Option<int>, now: int): Option<int> {
    var chosen := if ttl.Some? then ttl else options.defaultTtl;
    if chosen.Some? then Some(now + chosen.value) else None
  }

  class Cache {
    const options: Options
    var entries: map<string, Entry>
    var lru: seq<string>

    ghost predicate Valid()
      reads this
    {
      Matched(lru, entries)
    }

    ghost function View(): seq<Item>
      reads this
      requires Valid()
    {
      assert forall i | 0 <= i < |lru| :: lru[i] in lru;
      Items(lru, entries)
    }

    constructor (options: Options)
      ensures Valid() && View() == [] && this.options == options
    {
      this.options := options;
      entries, lru := map[], [];
    }

    /** What is left of `list` are the items still in the map. */
    ghost predicate Remains(list: seq<Item>)
      reads this
    {
      Valid() && View() == Keep(list, entries.Keys)
    }

    /** `lru_.erase` and `entries_.erase` for one entry. */
    method Discard(id: string, ghost list: seq<Item>)
      requires Remains(list)
      modifies this
      ensures Remains(list) && entries == old(entries) - {id}
    {
      Discarding(lru, entries, id);
      KeepKeep(list, entries.Keys, entries.Keys - {id});
      assert entries.Keys * (entries.Keys - {id}) == (entries - {id}).Keys;
      lru := Erased(lru, id);
      entries := entries - {id};
    }

    /** One turn of an eviction loop: the entry at `id` goes if `drop` says so. */
    method Sift(
      id: string, drop: bool,
      ghost list: seq<Item>, ghost all: map<string, Entry>, ghost doomed: set<string>, ghost todo: set<string>)
      requires Remains(list) && Sifted(all, entries, doomed, todo) && id in todo && (drop <==> id in doomed)
      modifies this
      ensures Remains(list) && Sifted(all, entries, doomed, todo - {id})
    {
      PassOne(all, doomed, todo, id);
      if drop {
        Discard(id, list);
      }
    }

    method EvictExpired(now: int)
      requires Valid()
      modifies this
      ensures Valid() && View() == Fresh(old(View()), now)
    {
      ghost var all, list := entries, View();
      ghost var doomed := ExpiredIds(entries, now);
      AllRemain(lru, entries);
      var todo := entries.Keys;
      while todo != {}
        invariant Remains(list) && Sifted(all, entries, doomed, todo)
        decreases todo
      {
        var id :| id in todo;
        Sift(id, Expired(Listed(id, entries[id]), now), list, all, doomed, todo);
        todo := todo - {id};
      }
      LeftAreFresh(old(lru), all, entries.Keys, now);
    }

    /** `touchEntry`. */
    method Touch(id: string)
      requires Valid() && id in entries
      modifies this`lru
      ensures Valid() && View() == Used(old(View()), Listed(id, entries[id]))
    {
      Filing(lru, entries, id, entries[id]);
      assert entries[id := entries[id]] == entries;
      lru := [id] + Erased(lru, id);
    }

    /** Drops the least recently used entry. */
    method DropLast(ghost list: seq<Item>)
      requires Valid() && |lru| <= |list| && View() == list[..|lru|] && lru != []
      modifies this
      ensures Valid() && |lru| == |old(lru)| - 1 && View() == list[..|lru|]
    {
      var n := |lru| - 1;
      var id := lru[n];
      lru := lru[..n];
      entries := entries - {id};
    }

    method EvictOverflow()
      requires Valid()
      modifies this
      ensures Valid() && View() == Truncated(old(View()), options.maxEntries)
    {
      ghost var list := View();
      SameSize(lru, entries);
      while |entries| > options.maxEntries && lru != []
        invariant Valid() && |lru| <= |list| && View() == list[..|lru|] && |entries| == |lru|
        invariant |lru| == |list| || |lru| >= options.maxEntries
        decreases |lru|
      {
        DropLast(list);
        SameSize(lru, entries);
      }
    }

    // ------------------------------------------------------------ operations

    method Get(key: CacheKey, now: int) returns (r: GetResult)
      requires Valid()
      modifies this
      ensures Valid()
      ensures !ValidKey(key) ==> r == BadKey && View() == old(View())
      ensures ValidKey(key) ==>
                && View() == Next(options.maxEntries, old(View()), Recency.Get(EntryId(key), now))
                && var found := Find(Fresh(old(View()), now), EntryId(key));
                r == if found.Some? then Hit(found.value.value) else NotFound
    {
      if !ValidKey(key) {
        return BadKey;
      }
      EvictExpired(now);
      var id := EntryId(key);
      ItemsIds(lru, entries);
      if id !in entries {
        return NotFound;
      }
      Touch(id);
      r := Hit(entries[id].value);
    }

    /** `put`; the clock is read once to expire old entries and once more for the new deadline. */
    method Put(key: CacheKey, value: string, ttl: Option<int>, now: int, later: int) returns (r: PutResult)
      requires Valid()
      modifies this
      ensures Valid()
      ensures r == if PutInvalid(options, key, ttl) then Invalid
                   else if options.maxValueBytes != 0 && |value| > options.maxValueBytes then TooLarge
                   else Stored
      ensures View() ==
                if r.Stored? then
                  Next(options.maxEntries, old(View()),
                       Recency.Put(Item(EntryId(key), value, ExpiresAt(options, ttl, later)), now))
                else old(View())
    {
      if PutInvalid(options, key, ttl) {
        return Invalid;
      }
      if options.maxValueBytes != 0 && |value| > options.maxValueBytes {
        return TooLarge;
      }
      EvictExpired(now);
      var id, e := EntryId(key), Entry(value, ExpiresAt(options, ttl, later));
      Filing(lru, entries, id, e);
      if id in entries {
        entries := entries[id := e];
        lru := [id] + Erased(lru, id);
      } else {
        NotListed(lru, id);
        lru := [id] + lru;
        entries := entries[id := e];
      }
      EvictOverflow();
      r := Stored;
    }

    method Remove(key: CacheKey) returns (r: RemoveResult)
      requires Valid()
      modifies this
      ensures Valid()
      ensures r == if !ValidKey(key) then BadRemoveKey else if EntryId(key) in Ids(old(View())) then Removed else Absent
      ensures View() ==
                if ValidKey(key) then Next(options.maxEntries, old(View()), Recency.Remove(EntryId(key)))
                else old(View())
    {
      if !ValidKey(key) {
        return BadRemoveKey;
      }
      var id := EntryId(key);
      ItemsIds(lru, entries);
      AllRemain(lru, entries);
      if id !in entries {
        assert entries.Keys - {id} == entries.Keys;
        return Absent;
      }
      ghost var list := View();
      Discard(id, list);
      assert entries.Keys == Ids(list) - {id};
      r := Removed;
    }

    method Clear()
      modifies this
      ensures Valid() && View() == []
    {
      entries, lru := map[], [];
    }

    /** The loop of `clearNamespace`. */
    method DiscardUnder(prefix: string)
      requires Valid()
      modifies this
      ensures Valid() && View() == Keep(old(View()), NotUnder(old(View()), prefix))
    {
      ghost var all, list := entries, View();
      ghost var doomed := IdsUnder(entries, prefix);
      AllRemain(lru, entries);
      var todo := entries.Keys;
      while todo != {}
        invariant Remains(list) && Sifted(all, entries, doomed, todo)
        decreases todo
      {
        var id :| id in todo;
        Sift(id, Under(prefix, id), list, all, doomed, todo);
        todo := todo - {id};
      }
      LeftAreOutside(old(lru), all, entries.Keys, prefix);
    }

    method ClearNamespace(ns: seq<Byte>) returns (ok: bool)
      requires Valid()
      modifies this
      ensures Valid() && ok == !ContainsNull(ns)
      ensures View() == if ok then Next(options.maxEntries, old(View()), ClearPrefix(Prefix(ns))) else old(View())
    {
      if ContainsNull(ns) {
        return false;
      }
      var hex := HexEncode(ns);
      DiscardUnder(hex + [':']);
      ok := true;
    }

    method Compact(now: int)
      requires Valid()
      modifies this
      ensures Valid() && View() == Next(options.maxEntries, old(View()), Recency.Compact(now))
    {
      EvictExpired(now);
      EvictOverflow();
    }

    method Size(now: int) returns (n: nat)
      requires Valid()
      modifies this
      ensures Valid() && View() == Next(options.maxEntries, old(View()), Expire(now)) && n == |View()|
    {
      EvictExpired(now);
      SameSize(lru, entries);
      n := |entries|;
    }
  }

  lemma {:induction false} AllRemain(lru: seq<string>, entries: map<string, Entry>)
    requires Matched(lru, entries)
    ensures Keep(Items(lru, entries), entries.Keys) == Items(lru, entries)
  {
    assert forall i | 0 <= i < |lru| :: lru[i] in lru;
    KeepAll(Items(lru, entries), entries.Keys);
  }

  function ExpiredIds(entries: map<string, Entry>, now: int): set<string> {
    set id | id in entries && Expired(Listed(id, entries[id]), now)
  }

  function IdsUnder(entries: map<string, Entry>, prefix: string): set<string> {
    set id | id in entries && Under(prefix, id)
  }

  /** Whether the map is what is left of `all` once the doomed ids not in `todo` are gone. */
  ghost predicate Sifted(all: map<string, Entry>, entries: map<string, Entry>, doomed: set<string>, todo: set<string>) {
    doomed <= all.Keys && todo <= all.Keys && entries == all - (doomed - todo)
  }

  /** One more id has been looked at. */
  lemma {:induction false} PassOne(all: map<string, Entry>, doomed: set<string>, todo: set<string>, id: string)
    requires doomed <= all.Keys && id in todo && todo <= all.Keys
    ensures id in all - (doomed - todo) && (all - (doomed - todo))[id] == all[id]
    ensures all - (doomed - (todo - {id})) == (all - (doomed - todo)) - (if id in doomed then {id} else {})
  {
  }

  /** Once every entry has been looked at, those left are the fresh ones. */
  lemma {:induction false} LeftAreFresh(lru: seq<string>, all: map<string, Entry>, left: set<string>, now: int)
    requires Matched(lru, all)
    requires left == all.Keys - ExpiredIds(all, now)
    ensures Keep(Items(lru, all), left) == Fresh(Items(lru, all), now)
  {
    assert forall i | 0 <= i < |lru| :: lru[i] in lru;
    var list := Items(lru, all);
    forall i | 0 <= i < |list| ensures list[i].id in left <==> list[i].id in FreshIds(list, now) {
      assert list[i] == Listed(lru[i], all[lru[i]]);
    }
    KeepSame(list, left, FreshIds(list, now));
  }

  lemma {:induction false} LeftAreOutside(lru: seq<string>, all: map<string, Entry>, left: set<string>, prefix: string)
    requires Matched(lru, all)
    requires left == all.Keys - IdsUnder(all, prefix)
    ensures Keep(Items(lru, all), left) == Keep(Items(lru, all), NotUnder(Items(lru, all), prefix))
  {
    assert forall i | 0 <= i < |lru| :: lru[i] in lru;
    var list := Items(lru, all);
    KeepSame(list, left, NotUnder(list, prefix));
  }

  /** `clearNamespace` drops exactly the items of keys of that namespace. */
  lemma {:induction false} ClearsExactlyNamespace(max: nat, list: seq<Item>, ns: seq<Byte>, key: CacheKey, item: Item)
    requires item in list && item.id == EntryId(key)
    ensures item in Next(max, list, ClearPrefix(Prefix(ns))) <==> key.ns != ns
  {
    KeepMember(list, NotUnder(list, Prefix(ns)), item);
    PrefixMeansNamespace(key, ns);
  }
}
