/** The order of blob keys, pages of keys in that order, and the cursors that connect pages. */
module BlobOrder {
  import opened BlobStore
  import Decimal
  import Strings

  // -------------------------------------------------------------------- order

  predicate Before(a: BlobKey, b: BlobKey) {
    Strings.Before(a.ns, b.ns, 0) || (a.ns == b.ns && Strings.Before(a.name, b.name, 0))
  }

  lemma {:induction false} Trichotomy(a: BlobKey, b: BlobKey)
    ensures a == b ==> !Before(a, b)
    ensures a != b ==> (Before(a, b) <==> !Before(b, a))
  {
    Strings.Trichotomy(a.ns, b.ns, 0);
    Strings.Trichotomy(b.ns, a.ns, 0);
    Strings.Trichotomy(a.name, b.name, 0);
  }

  lemma {:induction false} Transitive(a: BlobKey, b: BlobKey, c: BlobKey)
    requires Before(a, b) && Before(b, c)
    ensures Before(a, c)
  {
    if a.ns != b.ns && b.ns != c.ns {
      Strings.Transitive(a.ns, b.ns, c.ns, 0);
    } else if a.ns == b.ns && b.ns == c.ns {
      Strings.Trichotomy(a.ns, b.ns, 0);
      Strings.Transitive(a.name, b.name, c.name, 0);
    }
  }

  // -------------------------------------------------------------------- pages

  ghost predicate Ascending(page: seq<BlobKey>) {
    forall i, j | 0 <= i < j < |page| :: Before(page[i], page[j])
  }

  /** `page` holds the first `limit` of `keys`, in order. */
  ghost predicate IsPage(keys: set<BlobKey>, limit: nat, page: seq<BlobKey>) {
    && Ascending(page)
    && |page| <= limit
    && (forall i | 0 <= i < |page| :: page[i] in keys)
    && (forall k | k in keys && k !in page :: |page| == limit && forall i | 0 <= i < |page| :: Before(page[i], k))
  }

  /** Two pages of the same keys cannot differ first in that one is earlier than the other. */
  lemma {:induction false} NoEarlier(keys: set<BlobKey>, limit: nat, p: seq<BlobKey>, q: seq<BlobKey>, i: nat)
    requires IsPage(keys, limit, p) && IsPage(keys, limit, q)
    requires i < |p| && i < |q| && p[..i] == q[..i]
    ensures !Before(p[i], q[i])
  {
    if Before(p[i], q[i]) {
      Trichotomy(p[i], q[i]);
      if p[i] in q {
        var j :| 0 <= j < |q| && q[j] == p[i];
        if j < i {
          assert p[j] == q[j] by { assert p[..i][j] == q[..i][j]; }
          Trichotomy(p[j], p[i]);
        }
      }
    }
  }

  lemma {:induction false} SamePrefix(keys: set<BlobKey>, limit: nat, p: seq<BlobKey>, q: seq<BlobKey>, i: nat)
    requires IsPage(keys, limit, p) && IsPage(keys, limit, q)
    requires i <= |p| && i <= |q|
    ensures p[..i] == q[..i]
  {
    if i > 0 {
      SamePrefix(keys, limit, p, q, i - 1);
      NoEarlier(keys, limit, p, q, i - 1);
      NoEarlier(keys, limit, q, p, i - 1);
      Trichotomy(p[i - 1], q[i - 1]);
    }
  }

  lemma {:induction false} NotLonger(keys: set<BlobKey>, limit: nat, p: seq<BlobKey>, q: seq<BlobKey>)
    requires IsPage(keys, limit, p) && IsPage(keys, limit, q)
    ensures |q| <= |p|
  {
    if |p| < |q| {
      SamePrefix(keys, limit, p, q, |p|);
      var k := q[|p|];
      if k in p {
        var j :| 0 <= j < |p| && p[j] == k;
        assert q[..|p|][j] == p[..|p|][j];
        Trichotomy(q[j], k);
      }
    }
  }

  /** There is only one page. */
  lemma {:induction false} PageUnique(keys: set<BlobKey>, limit: nat, p: seq<BlobKey>, q: seq<BlobKey>)
    requires IsPage(keys, limit, p) && IsPage(keys, limit, q)
    ensures p == q
  {
    NotLonger(keys, limit, p, q);
    NotLonger(keys, limit, q, p);
    SamePrefix(keys, limit, p, q, |p|);
    assert p == p[..|p|] && q == q[..|q|];
  }

  function Inserted(page: seq<BlobKey>, pos: nat, key: BlobKey): seq<BlobKey>
    requires pos <= |page|
  {
    page[..pos] + [key] + page[pos..]
  }

  /** `pos` is where `std::lower_bound` puts `key`. */
  ghost predicate LowerBound(page: seq<BlobKey>, key: BlobKey, pos: nat) {
    && pos <= |page|
    && (forall i | 0 <= i < pos :: Before(page[i], key))
    && (forall i | pos <= i < |page| :: Before(key, page[i]))
  }

  lemma {:induction false} InsertedAscending(page: seq<BlobKey>, key: BlobKey, pos: nat)
    requires Ascending(page) && LowerBound(page, key, pos)
    ensures Ascending(Inserted(page, pos, key))
    ensures forall k :: k in Inserted(page, pos, key) <==> k == key || k in page
  {
    var q := Inserted(page, pos, key);
    forall i, j | 0 <= i < j < |q| ensures Before(q[i], q[j]) {
      if i < pos && j > pos {
        assert q[i] == page[i] && q[j] == page[j - 1];
      }
    }
    forall k ensures k in q <==> k == key || k in page {
      if k in page {
        var i :| 0 <= i < |page| && page[i] == k;
        assert q[if i < pos then i else i + 1] == k;
      }
      assert q[pos] == key;
    }
  }

  function CappedKeys(keys: seq<BlobKey>, cap: nat): seq<BlobKey> {
    if |keys| > cap then keys[..|keys| - 1] else keys
  }

  /** Inserting into a page and dropping what no longer fits gives the page of one more key. */
  lemma {:induction false} InsertKeepsPage(keys: set<BlobKey>, cap: nat, page: seq<BlobKey>, key: BlobKey, pos: nat)
    requires cap > 0 && IsPage(keys, cap, page) && key !in keys && LowerBound(page, key, pos)
    ensures IsPage(keys + {key}, cap, CappedKeys(Inserted(page, pos, key), cap))
  {
    InsertedAscending(page, key, pos);
    var r := CappedKeys(Inserted(page, pos, key), cap);
    forall k | k in keys + {key} && k !in r ensures |r| == cap && forall i | 0 <= i < |r| :: Before(r[i], k) {
      LeftOutIsLate(keys, cap, page, key, pos, k);
    }
  }

  /** A key that is not on the new page comes after it. */
  lemma {:induction false} LeftOutIsLate(
    keys: set<BlobKey>, cap: nat, page: seq<BlobKey>, key: BlobKey, pos: nat, k: BlobKey)
    requires cap > 0 && IsPage(keys, cap, page) && LowerBound(page, key, pos)
    requires k in keys + {key} && k !in CappedKeys(Inserted(page, pos, key), cap)
    ensures var r := CappedKeys(Inserted(page, pos, key), cap);
            |r| == cap && forall i | 0 <= i < |r| :: Before(r[i], k)
  {
    InsertedAscending(page, key, pos);
    var q := Inserted(page, pos, key);
    if k in q {
      assert k == q[|q| - 1];
    } else {
      LateStaysLate(page, key, pos, k);
    }
  }

  lemma {:induction false} LateStaysLate(page: seq<BlobKey>, key: BlobKey, pos: nat, late: BlobKey)
    requires LowerBound(page, key, pos) && page != [] && forall i | 0 <= i < |page| :: Before(page[i], late)
    ensures var q := Inserted(page, pos, key); forall i | 0 <= i < |q| - 1 :: Before(q[i], late)
  {
    var q := Inserted(page, pos, key);
    forall i | 0 <= i < |q| - 1 ensures Before(q[i], late) {
      if i == pos {
        assert q[i] == key;
        Transitive(key, page[pos], late);
      } else {
        assert q[i] == page[if i < pos then i else i - 1];
      }
    }
  }

  /** Cutting a page gives a shorter page of the same keys. */
  lemma {:induction false} PagePrefix(keys: set<BlobKey>, limit: nat, page: seq<BlobKey>)
    requires IsPage(keys, limit + 1, page) && |page| > 0
    ensures |page| > limit ==>
              IsPage(keys, limit, page[..limit]) && page[limit] in keys && page[limit] !in page[..limit]
    ensures |page| <= limit ==> IsPage(keys, limit, page) && forall k | k in keys :: k in page
  {
    if |page| > limit {
      var q := page[..limit];
      forall k | k in keys && k !in q ensures forall i | 0 <= i < |q| :: Before(q[i], k) {
        assert page == q + page[limit..];
      }
      if page[limit] in q {
        var j :| 0 <= j < limit && page[j] == page[limit];
        Trichotomy(page[j], page[limit]);
      }
    }
  }

  // ------------------------------------------------------------------ cursors

  const MAX_SIZE: nat := 0x1_0000_0000_0000_0000

  datatype Cursor = Start | Past(key: BlobKey) | BadCursor

  /** `encodeBlobCursor`. */
  function EncodeCursor(key: BlobKey): string {
    Decimal.ToText(|key.ns|) + [':'] + key.ns + key.name
  }

  /** `decodeBlobCursor`: the length prefix must be all digits, fit a 64-bit size and leave both parts
      of the key non-empty, and the key must be valid. */
  function DecodeCursor(env: Env, cursor: string): Cursor {
    if cursor == [] then Start
    else
      var colon := Strings.FindFrom(cursor, ':', 0);
      if colon == |cursor| || colon == 0 || exists i | 0 <= i < colon :: !Decimal.Digit(cursor[i]) then BadCursor
      else
        var size := Decimal.Value(cursor[..colon]);
        var payload := cursor[colon + 1..];
        if size >= MAX_SIZE || size == 0 || size >= |payload| then BadCursor
        else
          var key := BlobKey(payload[..size], payload[size..]);
          if env.keyOk(key) then Past(key) else BadCursor
  }

  /** Every valid key survives the trip through its cursor. */
  lemma {:induction false} CursorRoundTrip(env: Env, key: BlobKey)
    requires env.keyOk(key) && key.ns != [] && key.name != [] && |key.ns| < MAX_SIZE
    ensures DecodeCursor(env, EncodeCursor(key)) == Past(key)
  {
    var digits := Decimal.ToText(|key.ns|);
    var cursor := EncodeCursor(key);
    assert cursor == digits + ([':'] + key.ns + key.name);
    assert forall i | 0 <= i < |digits| :: cursor[i] == digits[i];
    assert cursor[|digits|] == ':';
    var colon := Strings.FindFrom(cursor, ':', 0);
    assert colon == |digits|;
    assert cursor[..colon] == digits;
    assert cursor[colon + 1..] == key.ns + key.name;
    Decimal.ValueOfText(|key.ns|);
  }

  // ------------------------------------------------------------------- paging

  datatype ListOptions = ListOptions(ns: string, prefix: string, limit: nat, cursor: string)

  /** `matches`. */
  predicate Matches(key: BlobKey, q: ListOptions) {
    (q.ns == [] || key.ns == q.ns) && (q.prefix == [] || q.prefix <= key.name)
  }

  predicate Beyond(from: Cursor, key: BlobKey) {
    from.Past? ==> Before(from.key, key)
  }

  /** The keys a listing from `from` still has to deliver. */
  function Wanted(keys: set<BlobKey>, q: ListOptions, from: Cursor): set<BlobKey> {
    set k | k in keys && Matches(k, q) && Beyond(from, k)
  }

  /** The page and the next cursor a listing must answer with. */
  ghost predicate Answers(keys: set<BlobKey>, q: ListOptions, from: Cursor, page: seq<BlobKey>, next: string) {
    var wanted := Wanted(keys, q, from);
    && IsPage(wanted, q.limit, page)
    && next == if |page| == q.limit > 0 && exists k :: k in wanted && k !in page
               then EncodeCursor(page[|page| - 1]) else []
  }

  lemma {:induction false} AnswersUnique(
    keys: set<BlobKey>, q: ListOptions, from: Cursor, p: seq<BlobKey>, n: string, p': seq<BlobKey>, n': string)
    requires Answers(keys, q, from, p, n) && Answers(keys, q, from, p', n')
    ensures p == p' && n == n'
  {
    PageUnique(Wanted(keys, q, from), q.limit, p, p');
  }

  /** Following the cursors: each page answers for the cursor before it, the last has no next cursor. */
  ghost predicate Followed(env: Env, keys: set<BlobKey>, q: ListOptions, pages: seq<seq<BlobKey>>)
    decreases |pages|
  {
    && pages != []
    && exists next :: FollowedBy(env, keys, q, pages, next)
  }

  ghost predicate FollowedBy(env: Env, keys: set<BlobKey>, q: ListOptions, pages: seq<seq<BlobKey>>, next: string)
    requires pages != []
    decreases |pages|, 0
  {
    && Answers(keys, q, DecodeCursor(env, q.cursor), pages[0], next)
    && if next == [] then |pages| == 1 else Followed(env, keys, q.(cursor := next), pages[1..])
  }

  function Flatten(pages: seq<seq<BlobKey>>): seq<BlobKey>
    decreases |pages|
  {
    if pages == [] then [] else pages[0] + Flatten(pages[1..])
  }

  /** The pages deliver each wanted key exactly once, in increasing order, and there are few of them. */
  ghost predicate Enumerates(wanted: set<BlobKey>, pages: seq<seq<BlobKey>>) {
    && Ascending(Flatten(pages))
    && (forall k :: k in Flatten(pages) <==> k in wanted)
    && |pages| <= |wanted| + 1
  }

  ghost predicate ValidKeys(env: Env, keys: set<BlobKey>) {
    forall k | k in keys :: env.keyOk(k) && k.ns != [] && k.name != [] && |k.ns| < MAX_SIZE
  }

  /** What is wanted past the last key of a page is what the page left out. */
  lemma {:induction false} Remainder(keys: set<BlobKey>, q: ListOptions, from: Cursor, page: seq<BlobKey>)
    requires IsPage(Wanted(keys, q, from), q.limit, page) && page != []
    ensures Wanted(keys, q, Past(page[|page| - 1])) == set k | k in Wanted(keys, q, from) && k !in page
  {
    var last := page[|page| - 1];
    assert last in Wanted(keys, q, from);
    forall k | k in Wanted(keys, q, Past(last)) ensures k in Wanted(keys, q, from) && k !in page {
      if from.Past? { Transitive(from.key, last, k); }
      if k in page {
        var j :| 0 <= j < |page| && page[j] == k;
        Trichotomy(last, k);
        Trichotomy(k, last);
      }
    }
  }

  /** Following the cursors from any point delivers every wanted key exactly once, in increasing order,
      in at most one page more than there are keys. */
  lemma {:induction false} FollowingEnumerates(env: Env, keys: set<BlobKey>, q: ListOptions, pages: seq<seq<BlobKey>>)
    requires ValidKeys(env, keys) && Followed(env, keys, q, pages) && q.limit > 0
    ensures Enumerates(Wanted(keys, q, DecodeCursor(env, q.cursor)), pages)
    decreases |pages|
  {
    var next :| FollowedBy(env, keys, q, pages, next);
    var from := DecodeCursor(env, q.cursor);
    if next == [] {
    } else {
      var last := pages[0][|pages[0]| - 1];
      CursorRoundTrip(env, last);
      FollowingEnumerates(env, keys, q.(cursor := next), pages[1..]);
      assert Wanted(keys, q.(cursor := next), Past(last)) == Wanted(keys, q, Past(last));
      MorePages(keys, q, from, pages);
    }
  }

  lemma {:induction false} MorePages(keys: set<BlobKey>, q: ListOptions, from: Cursor, pages: seq<seq<BlobKey>>)
    requires pages != [] && pages[0] != [] && IsPage(Wanted(keys, q, from), q.limit, pages[0])
    requires Enumerates(Wanted(keys, q, Past(pages[0][|pages[0]| - 1])), pages[1..])
    ensures Enumerates(Wanted(keys, q, from), pages)
  {
    var page, rest := pages[0], Wanted(keys, q, Past(pages[0][|pages[0]| - 1]));
    Remainder(keys, q, from, page);
    JoinAscending(page, Flatten(pages[1..]));
    Smaller(rest, Wanted(keys, q, from));
  }

  /** Every set of keys has a page: take the least key, then the page of the rest. */
  lemma {:induction false} Least(keys: set<BlobKey>) returns (k: BlobKey)
    requires keys != {}
    ensures k in keys && forall j | j in keys && j != k :: Before(k, j)
  {
    var x :| x in keys;
    if keys == {x} {
      k := x;
    } else {
      var y := Least(keys - {x});
      Trichotomy(x, y);
      k := if Before(x, y) then x else y;
      forall j | j in keys && j != k ensures Before(k, j) {
        if k == x && j != y { Transitive(x, y, j); }
      }
    }
  }

  lemma {:induction false} PageExists(keys: set<BlobKey>, limit: nat) returns (page: seq<BlobKey>)
    ensures IsPage(keys, limit, page)
    decreases limit
  {
    if limit == 0 || keys == {} {
      page := [];
    } else {
      var k := Least(keys);
      var rest := PageExists(keys - {k}, limit - 1);
      page := [k] + rest;
      forall i, j | 0 <= i < j < |page| ensures Before(page[i], page[j]) {
        if i == 0 { assert page[j] == rest[j - 1]; }
      }
    }
  }

  /** From every cursor the cursors lead to an end. */
  lemma {:induction false} FollowingTerminates(env: Env, keys: set<BlobKey>, q: ListOptions)
    returns (pages: seq<seq<BlobKey>>)
    requires ValidKeys(env, keys) && q.limit > 0
    ensures Followed(env, keys, q, pages)
    decreases |Wanted(keys, q, DecodeCursor(env, q.cursor))|
  {
    var from := DecodeCursor(env, q.cursor);
    var wanted := Wanted(keys, q, from);
    var page := PageExists(wanted, q.limit);
    if k :| k in wanted && k !in page {
      var last := page[|page| - 1];
      var later := q.(cursor := EncodeCursor(last));
      CursorRoundTrip(env, last);
      Remainder(keys, q, from, page);
      assert Wanted(keys, later, Past(last)) == Wanted(keys, q, Past(last));
      Smaller(Wanted(keys, q, Past(last)), wanted);
      var rest := FollowingTerminates(env, keys, later);
      pages := [page] + rest;
      assert pages[1..] == rest;
      assert FollowedBy(env, keys, q, pages, later.cursor);
    } else {
      pages := [page];
      assert FollowedBy(env, keys, q, pages, []);
    }
  }

  lemma {:induction false} JoinAscending(p: seq<BlobKey>, q: seq<BlobKey>)
    requires Ascending(p) && Ascending(q) && p != []
    requires forall k | k in q :: Before(p[|p| - 1], k)
    ensures Ascending(p + q)
  {
    forall i, j | 0 <= i < j < |p + q| ensures Before((p + q)[i], (p + q)[j]) {
      if i < |p| <= j {
        assert q[j - |p|] in q;
        if i < |p| - 1 { Transitive(p[i], p[|p| - 1], q[j - |p|]); }
      }
    }
  }

  lemma {:induction false} Smaller(a: set<BlobKey>, b: set<BlobKey>)
    requires a < b
    ensures |a| < |b|
  {
    assert b == a + (b - a);
  }
}
