/** `list` in both stores. */
module BlobListing {
  import opened BlobStore
  import opened MemoryBlobStore
  import opened BlobOrder

  /** `pathsOk` accepts the namespace and prefix of a listing, `under` tells whether a path lies in the
      directory of a namespace; zero means no bound. */
  datatype ListRules = ListRules(
    pathsOk: (string, string) -> bool, under: (string, string) -> bool, maxItems: nat, maxScan: nat)

  /** Paths are built below the directory of the key's namespace. */
  ghost predicate PathsNest(env: Env, rules: ListRules) {
    forall k: BlobKey :: rules.under(k.ns, env.stem(k))
  }

  predicate Refused(env: Env, rules: ListRules, q: ListOptions) {
    || q.limit == 0
    || !rules.pathsOk(q.ns, q.prefix)
    || (rules.maxItems != 0 && q.limit > rules.maxItems)
    || DecodeCursor(env, q.cursor).BadCursor?
  }

  datatype ListResult = Listed(items: seq<BlobInfo>, next: string) | ListFailed

  function KeysOf(items: seq<BlobInfo>): (keys: seq<BlobKey>)
    ensures |keys| == |items| && forall i | 0 <= i < |items| :: keys[i] == items[i].key
  {
    seq(|items|, i requires 0 <= i < |items| => items[i].key)
  }

  // --------------------------------------------------------- filesystem store

  function Scanned(rules: ListRules, d: Disk, q: ListOptions): set<string> {
    set p | p in d && p.Meta? && (q.ns == [] || rules.under(q.ns, p.stem)) :: p.stem
  }

  ghost predicate AllReadableAt(env: Env, d: Disk, stems: set<string>) {
    forall stem | stem in stems :: Meta(stem) in d && ReadableAt(env, d, stem)
  }

  ghost predicate ScanFails(env: Env, rules: ListRules, d: Disk, q: ListOptions) {
    || (rules.maxScan != 0 && |Scanned(rules, d, q)| > rules.maxScan)
    || !AllReadableAt(env, d, Scanned(rules, d, q))
  }

  /** The keys of the metadata files at `stems`. */
  function KeysAt(d: Disk, stems: set<string>): set<BlobKey> {
    set stem | stem in stems && Meta(stem) in d && d[Meta(stem)].Metadata? :: d[Meta(stem)].info.key
  }

  /** The keys whose metadata is on disk, in its place. */
  function StoredKeys(env: Env, d: Disk): set<BlobKey> {
    set p | p in d && p.Meta? && d[p].Metadata? && env.stem(d[p].info.key) == p.stem :: d[p].info.key
  }

  /** The items are the metadata on disk. */
  ghost predicate FromDisk(env: Env, d: Disk, items: seq<BlobInfo>) {
    forall i | 0 <= i < |items| ::
      Meta(env.stem(items[i].key)) in d && d[Meta(env.stem(items[i].key))] == Metadata(items[i])
  }

  /** The first position from `i` on whose key is not before `key`. */
  function LowerFrom(candidates: seq<BlobInfo>, key: BlobKey, i: nat): (pos: nat)
    requires i <= |candidates|
    ensures i <= pos <= |candidates|
    decreases |candidates| - i
  {
    if i < |candidates| && Before(candidates[i].key, key) then LowerFrom(candidates, key, i + 1) else i
  }

  /** In an ascending list that is the place of a new key. */
  lemma {:induction false} LowerFromIsLowerBound(candidates: seq<BlobInfo>, key: BlobKey, i: nat)
    requires i <= |candidates| && Ascending(KeysOf(candidates)) && key !in KeysOf(candidates)
    requires forall k | 0 <= k < i :: Before(candidates[k].key, key)
    ensures LowerBound(KeysOf(candidates), key, LowerFrom(candidates, key, i))
    decreases |candidates| - i
  {
    var keys := KeysOf(candidates);
    if i < |candidates| && Before(candidates[i].key, key) {
      LowerFromIsLowerBound(candidates, key, i + 1);
    } else {
      forall k | i <= k < |keys| ensures Before(key, keys[k]) {
        assert keys[i] in keys;
        Trichotomy(keys[i], key);
        if k > i { Transitive(key, keys[i], keys[k]); }
      }
    }
  }

  function Put(candidates: seq<BlobInfo>, pos: nat, info: BlobInfo): seq<BlobInfo>
    requires pos <= |candidates|
  {
    candidates[..pos] + [info] + candidates[pos..]
  }

  function Capped(items: seq<BlobInfo>, cap: nat): seq<BlobInfo> {
    if |items| > cap then items[..|items| - 1] else items
  }

  lemma {:induction false} KeysPut(candidates: seq<BlobInfo>, pos: nat, info: BlobInfo)
    requires pos <= |candidates|
    ensures KeysOf(Put(candidates, pos, info)) == Inserted(KeysOf(candidates), pos, info.key)
  {
  }

  lemma {:induction false} KeysCut(items: seq<BlobInfo>, n: nat)
    requires n <= |items|
    ensures KeysOf(items[..n]) == KeysOf(items)[..n]
  {
  }

  lemma {:induction false} KeysCapped(candidates: seq<BlobInfo>, pos: nat, info: BlobInfo, cap: nat)
    requires pos <= |candidates|
    ensures KeysOf(Capped(Put(candidates, pos, info), cap)) ==
              CappedKeys(Inserted(KeysOf(candidates), pos, info.key), cap)
  {
    var q := Put(candidates, pos, info);
    KeysPut(candidates, pos, info);
    if |q| > cap { KeysCut(q, |q| - 1); }
  }

  lemma {:induction false} PutPage(seen: set<BlobKey>, cap: nat, candidates: seq<BlobInfo>, pos: nat, info: BlobInfo)
    requires cap > 0 && IsPage(seen, cap, KeysOf(candidates)) && info.key !in seen
    requires LowerBound(KeysOf(candidates), info.key, pos)
    ensures IsPage(seen + {info.key}, cap, KeysOf(Capped(Put(candidates, pos, info), cap)))
  {
    InsertKeepsPage(seen, cap, KeysOf(candidates), info.key, pos);
    KeysCapped(candidates, pos, info, cap);
  }

  lemma {:induction false} PutFromDisk(env: Env, d: Disk, candidates: seq<BlobInfo>, pos: nat, info: BlobInfo, cap: nat)
    requires FromDisk(env, d, candidates) && FromDisk(env, d, [info]) && pos <= |candidates|
    ensures FromDisk(env, d, Capped(Put(candidates, pos, info), cap))
  {
    var q := Put(candidates, pos, info);
    assert [info][0] == info;
    forall i | 0 <= i < |q| ensures q[i] == info || (exists j | 0 <= j < |candidates| :: q[i] == candidates[j]) {
      if i != pos { assert q[i] == candidates[if i < pos then i else i - 1]; }
    }
  }

  /** One bounded insertion at the lower bound. */
  method Insert(candidates: seq<BlobInfo>, info: BlobInfo, cap: nat) returns (r: seq<BlobInfo>)
    ensures r == Capped(Put(candidates, LowerFrom(candidates, info.key, 0), info), cap)
  {
    var pos: nat := 0;
    while pos < |candidates| && Before(candidates[pos].key, info.key)
      invariant pos <= |candidates| && LowerFrom(candidates, info.key, 0) == LowerFrom(candidates, info.key, pos)
    {
      pos := pos + 1;
    }
    r := candidates[..pos] + [info] + candidates[pos..];
    if |r| > cap {
      r := r[..|r| - 1];
    }
  }

  /** `FileSystemBlobStore::list`: metadata files come in any order. */
  method ListFiles(env: Env, rules: ListRules, d: Disk, q: ListOptions) returns (r: ListResult)
    requires PathsNest(env, rules)
    ensures r.ListFailed? <==> Refused(env, rules, q) || ScanFails(env, rules, d, q)
    ensures r.Listed? ==> FromDisk(env, d, r.items)
    ensures r.Listed? ==> Answers(StoredKeys(env, d), q, DecodeCursor(env, q.cursor), KeysOf(r.items), r.next)
  {
    if Refused(env, rules, q) {
      return ListFailed;
    }
    var from := DecodeCursor(env, q.cursor);
    var ok, candidates := ScanPage(env, rules, d, q, from);
    if !ok {
      return ListFailed;
    }
    ScopeIsEnough(env, rules, d, q, from);
    FirstOfCandidates(Wanted(StoredKeys(env, d), q, from), q.limit, candidates);
    var items := if |candidates| > q.limit then candidates[..q.limit] else candidates;
    var next := if |candidates| > q.limit then EncodeCursor(items[|items| - 1].key) else [];
    r := Listed(items, next);
  }

  /** Of one candidate more than the limit, the page is all but that one. */
  lemma {:induction false} FirstOfCandidates(wanted: set<BlobKey>, limit: nat, candidates: seq<BlobInfo>)
    requires IsPage(wanted, limit + 1, KeysOf(candidates))
    ensures |candidates| > limit ==>
              && IsPage(wanted, limit, KeysOf(candidates[..limit]))
              && exists k :: k in wanted && k !in KeysOf(candidates[..limit])
    ensures |candidates| <= limit ==>
              && IsPage(wanted, limit, KeysOf(candidates))
              && forall k | k in wanted :: k in KeysOf(candidates)
  {
    if candidates != [] {
      PagePrefix(wanted, limit, KeysOf(candidates));
      if |candidates| > limit { KeysCut(candidates, limit); }
    }
  }

  /** The scan under the listing's directory finds every wanted key of the store. */
  lemma {:induction false} ScopeIsEnough(env: Env, rules: ListRules, d: Disk, q: ListOptions, from: Cursor)
    requires PathsNest(env, rules)
    requires forall stem | stem in Scanned(rules, d, q) :: ReadableAt(env, d, stem)
    ensures Wanted(KeysAt(d, Scanned(rules, d, q)), q, from) == Wanted(StoredKeys(env, d), q, from)
  {
    forall k | k in StoredKeys(env, d) && Matches(k, q) ensures k in KeysAt(d, Scanned(rules, d, q)) {
      assert Meta(env.stem(k)) in d;
    }
    forall k | k in KeysAt(d, Scanned(rules, d, q)) ensures k in StoredKeys(env, d) {
      var stem :| && stem in Scanned(rules, d, q)
                  && Meta(stem) in d && d[Meta(stem)].Metadata? && d[Meta(stem)].info.key == k;
      assert ReadableAt(env, d, stem);
    }
  }

  /** After the metadata files at `done`: all were readable and the candidates are their first page. */
  ghost predicate Progress(
    env: Env, d: Disk, q: ListOptions, from: Cursor, done: set<string>, candidates: seq<BlobInfo>)
  {
    && AllReadableAt(env, d, done)
    && FromDisk(env, d, candidates)
    && IsPage(Wanted(KeysAt(d, done), q, from), q.limit + 1, KeysOf(candidates))
  }

  method Consider(
    env: Env, d: Disk, q: ListOptions, from: Cursor, ghost done: set<string>, stem: string, candidates: seq<BlobInfo>)
    returns (r: seq<BlobInfo>)
    requires Progress(env, d, q, from, done, candidates)
    requires stem !in done && Meta(stem) in d && ReadableAt(env, d, stem)
    ensures Progress(env, d, q, from, done + {stem}, r)
  {
    var info := d[Meta(stem)].info;
    OneMore(env, d, done, stem, q, from);
    if Matches(info.key, q) && Beyond(from, info.key) {
      r := Insert(candidates, info, q.limit + 1);
      LowerFromIsLowerBound(candidates, info.key, 0);
      ghost var pos := LowerFrom(candidates, info.key, 0);
      PutPage(Wanted(KeysAt(d, done), q, from), q.limit + 1, candidates, pos, info);
      PutFromDisk(env, d, candidates, pos, info, q.limit + 1);
    } else {
      r := candidates;
    }
  }

  lemma {:induction false} NoProgress(env: Env, d: Disk, q: ListOptions, from: Cursor)
    ensures Progress(env, d, q, from, {}, [])
  {
    assert KeysOf([]) == [];
  }

  method ScanPage(env: Env, rules: ListRules, d: Disk, q: ListOptions, from: Cursor)
    returns (ok: bool, candidates: seq<BlobInfo>)
    ensures ok <==> !ScanFails(env, rules, d, q)
    ensures ok ==> Progress(env, d, q, from, Scanned(rules, d, q), candidates)
  {
    candidates := [];
    var todo, scanned := Scanned(rules, d, q), 0;
    ghost var all, done := todo, {};
    NoProgress(env, d, q, from);
    while todo != {}
      invariant todo <= all && done == all - todo && scanned + |todo| == |all|
      invariant rules.maxScan == 0 || scanned <= rules.maxScan
      invariant Progress(env, d, q, from, done, candidates)
      decreases todo
    {
      var stem :| stem in todo;
      ghost var before := done;
      todo, done := todo - {stem}, done + {stem};
      scanned := scanned + 1;
      if rules.maxScan != 0 && scanned > rules.maxScan {
        return false, [];
      }
      if !ReadableAt(env, d, stem) {
        return false, [];
      }
      candidates := Consider(env, d, q, from, before, stem, candidates);
    }
    assert done == all;
    ok := true;
  }

  lemma {:induction false} OneMore(env: Env, d: Disk, done: set<string>, stem: string, q: ListOptions, from: Cursor)
    requires stem !in done && Meta(stem) in d && ReadableAt(env, d, stem)
    requires forall s | s in done :: Meta(s) in d && ReadableAt(env, d, s)
    ensures var key := d[Meta(stem)].info.key;
            && key !in KeysAt(d, done)
            && Wanted(KeysAt(d, done + {stem}), q, from) ==
                 Wanted(KeysAt(d, done), q, from) + (if Matches(key, q) && Beyond(from, key) then {key} else {})
  {
    assert KeysAt(d, done + {stem}) == KeysAt(d, done) + {d[Meta(stem)].info.key};
  }

  // ------------------------------------------------------------- memory store

  ghost predicate WellKeyed(m: Memory) {
    forall k | k in m :: m[k].info.key == k
  }

  ghost predicate FromMemory(m: Memory, items: seq<BlobInfo>) {
    forall i | 0 <= i < |items| :: items[i].key in m && m[items[i].key].info == items[i]
  }

  /** The items are exactly the wanted keys among `done`, in order. */
  ghost predicate Collected(q: ListOptions, from: Cursor, done: set<BlobKey>, page: seq<BlobKey>) {
    Ascending(page) && forall k :: k in page <==> k in Wanted(done, q, from)
  }

  ghost predicate AllBefore(done: set<BlobKey>, todo: set<BlobKey>) {
    forall j, k | j in done && k in todo :: Before(j, k)
  }

  ghost predicate IsLeast(key: BlobKey, keys: set<BlobKey>) {
    key in keys && forall j | j in keys && j != key :: Before(key, j)
  }

  lemma {:induction false} Collect(q: ListOptions, from: Cursor, done: set<BlobKey>, page: seq<BlobKey>, key: BlobKey)
    requires Collected(q, from, done, page) && AllBefore(done, {key})
    ensures Matches(key, q) && Beyond(from, key) ==> Collected(q, from, done + {key}, page + [key])
    ensures !(Matches(key, q) && Beyond(from, key)) ==> Collected(q, from, done + {key}, page)
  {
    if Matches(key, q) && Beyond(from, key) {
      assert Wanted(done + {key}, q, from) == Wanted(done, q, from) + {key};
      var r := page + [key];
      forall i, j | 0 <= i < j < |r| ensures Before(r[i], r[j]) {
        assert page[i] in page;
      }
    } else {
      assert Wanted(done + {key}, q, from) == Wanted(done, q, from);
    }
  }

  /** Having collected `limit` keys in order, or all there are, is having the page. */
  lemma {:induction false} CollectedIsPage(
    q: ListOptions, from: Cursor, done: set<BlobKey>, todo: set<BlobKey>, page: seq<BlobKey>)
    requires Collected(q, from, done, page) && AllBefore(done, todo)
    requires |page| == q.limit || (|page| <= q.limit && todo == {})
    ensures IsPage(Wanted(done + todo, q, from), q.limit, page)
  {
    forall i | 0 <= i < |page| ensures page[i] in Wanted(done, q, from) {
      assert page[i] in page;
    }
  }

  lemma {:induction false} KeysAppend(items: seq<BlobInfo>, info: BlobInfo)
    ensures KeysOf(items + [info]) == KeysOf(items) + [info.key]
  {
  }

  method LeastOf(keys: set<BlobKey>) returns (k: BlobKey)
    requires keys != {}
    ensures IsLeast(k, keys)
  {
    ghost var w := Least(keys);
    assert IsLeast(w, keys);
    k :| k in keys && forall j | j in keys && j != k :: Before(k, j);
  }

  lemma {:induction false} TakeLeast(done: set<BlobKey>, todo: set<BlobKey>, key: BlobKey)
    requires AllBefore(done, todo) && IsLeast(key, todo)
    ensures AllBefore(done, {key}) && AllBefore(done + {key}, todo - {key})
  {
  }

  /** The loop of `MemoryBlobStore::list` over the map in key order. */
  method CollectPage(m: Memory, q: ListOptions, from: Cursor) returns (items: seq<BlobInfo>)
    requires WellKeyed(m) && q.limit > 0 && !from.BadCursor?
    ensures FromMemory(m, items) && IsPage(Wanted(m.Keys, q, from), q.limit, KeysOf(items))
  {
    items := [];
    var pastCursor, todo := from.Start?, m.Keys;
    ghost var done := {};
    assert KeysOf([]) == [];
    while todo != {}
      invariant todo <= m.Keys && done == m.Keys - todo && AllBefore(done, todo)
      invariant |items| < q.limit && FromMemory(m, items) && Collected(q, from, done, KeysOf(items))
      invariant if pastCursor then forall k | k in todo :: Beyond(from, k) else from.Past?
      decreases todo
    {
      var key := LeastOf(todo);
      TakeLeast(done, todo, key);
      Collect(q, from, done, KeysOf(items), key);
      todo, done := todo - {key}, done + {key};
      if !pastCursor {
        if !Before(from.key, key) {
          continue;
        }
        pastCursor := true;
        PastStaysPast(from.key, key, todo);
      }
      if !Matches(key, q) {
        continue;
      }
      KeysAppend(items, m[key].info);
      items := items + [m[key].info];
      if |items| >= q.limit {
        break;
      }
    }
    CollectedIsPage(q, from, done, todo, KeysOf(items));
    assert done + todo == m.Keys;
  }

  lemma {:induction false} PastStaysPast(from: BlobKey, key: BlobKey, todo: set<BlobKey>)
    requires Before(from, key) && IsLeast(key, todo + {key})
    ensures forall k | k in todo :: Before(from, k)
  {
    forall k | k in todo ensures Before(from, k) {
      if k != key { Transitive(from, key, k); }
    }
  }

  /** Looks for a matching key past `last`, in order. */
  method MoreAfter(m: Memory, q: ListOptions, last: BlobKey) returns (more: bool)
    ensures more <==> Wanted(m.Keys, q, Past(last)) != {}
  {
    var rest := set k | k in m && Before(last, k);
    ghost var passed := {};
    while rest != {}
      invariant rest + passed == set k | k in m && Before(last, k)
      invariant forall k | k in passed :: !Matches(k, q)
      decreases rest
    {
      var key := LeastOf(rest);
      if Matches(key, q) {
        assert key in Wanted(m.Keys, q, Past(last));
        return true;
      }
      rest, passed := rest - {key}, passed + {key};
    }
    more := false;
    assert Wanted(m.Keys, q, Past(last)) <= passed;
  }

  /** `MemoryBlobStore::list`. */
  method ListMemory(env: Env, rules: ListRules, m: Memory, q: ListOptions) returns (r: ListResult)
    requires WellKeyed(m)
    ensures r.ListFailed? <==> Refused(env, rules, q)
    ensures r.Listed? ==> FromMemory(m, r.items)
    ensures r.Listed? ==> Answers(m.Keys, q, DecodeCursor(env, q.cursor), KeysOf(r.items), r.next)
  {
    if Refused(env, rules, q) {
      return ListFailed;
    }
    var from := DecodeCursor(env, q.cursor);
    var items := CollectPage(m, q, from);
    var next := [];
    if |items| == q.limit {
      var last := items[|items| - 1].key;
      assert KeysOf(items)[|items| - 1] == last;
      Remainder(m.Keys, q, from, KeysOf(items));
      var more := MoreAfter(m, q, last);
      if more {
        ghost var k :| k in Wanted(m.Keys, q, Past(last));
        assert k in Wanted(m.Keys, q, from) && k !in KeysOf(items);
        next := EncodeCursor(last);
      } else {
        assert forall k :: k in Wanted(m.Keys, q, from) && k !in KeysOf(items) ==> k in Wanted(m.Keys, q, Past(last));
      }
    }
    r := Listed(items, next);
  }

  // ---------------------------------------------------------------- agreement

  /** Where the stores agree, they store the same keys with the same metadata. */
  lemma {:induction false} AgreedKeys(env: Env, keys: iset<BlobKey>, d: Disk, m: Memory)
    requires Injective(env, keys) && Agree(env, keys, d, m)
    requires forall k | k in m :: k in keys && env.keyOk(k)
    ensures StoredKeys(env, d) == m.Keys
    ensures forall k | k in m :: Meta(env.stem(k)) in d && d[Meta(env.stem(k))] == Metadata(m[k].info)
  {
    forall k | k in StoredKeys(env, d) ensures k in m {
      var p :| p in d && p.Meta? && d[p].Metadata? && env.stem(d[p].info.key) == p.stem && d[p].info.key == k;
      assert p == Meta(p.stem);
    }
    forall k | k in m
      ensures Meta(env.stem(k)) in d && d[Meta(env.stem(k))] == Metadata(m[k].info) && k in StoredKeys(env, d)
    {
    }
  }

  /** Any two listings of agreeing stores return the same items and the same next cursor. */
  lemma {:induction false} SameListing(
    env: Env, keys: iset<BlobKey>, d: Disk, m: Memory, q: ListOptions, fs: ListResult, mem: ListResult)
    requires Injective(env, keys) && Agree(env, keys, d, m)
    requires forall k | k in m :: k in keys && env.keyOk(k)
    requires fs.Listed? && FromDisk(env, d, fs.items)
    requires Answers(StoredKeys(env, d), q, DecodeCursor(env, q.cursor), KeysOf(fs.items), fs.next)
    requires mem.Listed? && FromMemory(m, mem.items)
    requires Answers(m.Keys, q, DecodeCursor(env, q.cursor), KeysOf(mem.items), mem.next)
    ensures fs == mem
  {
    AgreedKeys(env, keys, d, m);
    AnswersUnique(m.Keys, q, DecodeCursor(env, q.cursor), KeysOf(fs.items), fs.next, KeysOf(mem.items), mem.next);
    forall i | 0 <= i < |fs.items| ensures fs.items[i] == mem.items[i] {
      assert KeysOf(fs.items)[i] == KeysOf(mem.items)[i];
    }
  }
}
