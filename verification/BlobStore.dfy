/**
 The filesystem blob store: a metadata file per key, content files named by checksum beside it, and a
 write protocol made of all-or-nothing file operations.  `Disk` is what is on disk between two
 operations, so every value it takes is a state a crash can leave behind.
 */
module BlobStore {
  import opened Optional

  type Bytes = seq<bv8>

  datatype BlobKey = BlobKey(ns: string, name: string)

  datatype BlobInfo = BlobInfo(
    key: BlobKey, contentType: string, size: nat, checksum: string,
    metadata: map<string, string>, createdAt: int, updatedAt: int)

  datatype Blob = Blob(info: BlobInfo, data: Bytes)

  /** `stem` is the path of a key without the file suffix; two keys may share one.  `metadataFits`
      says whether the encoded metadata is within the size the reader accepts. */
  datatype Env = Env(
    stem: BlobKey -> string,
    hash: Bytes -> string,
    keyOk: BlobKey -> bool,
    optionsOk: (string, map<string, string>) -> bool,
    metadataFits: BlobInfo -> bool,
    maxBlobBytes: Option<nat>,
    maxScan: nat)

  datatype Path = Meta(stem: string) | Content(stem: string, checksum: string) | Temp(id: nat) | Other(name: string)

  datatype File = Metadata(info: BlobInfo) | Data(bytes: Bytes) | Text(text: string)

  type Disk = map<Path, File>

  // ------------------------------------------------------------------ reading

  predicate WithinLimit(env: Env, size: nat) {
    env.maxBlobBytes.Some? ==> size <= env.maxBlobBytes.value
  }

  /** What the metadata reader accepts: small enough, and not created after its last update. */
  predicate Readable(env: Env, info: BlobInfo) {
    env.metadataFits(info) && info.createdAt <= info.updatedAt
  }

  datatype InfoAnswer = NoInfo | Info(info: BlobInfo) | BadInfo

  /** `readInfo`: the metadata file of this key, if it is this key's. */
  function ReadInfo(env: Env, d: Disk, key: BlobKey): InfoAnswer {
    var path := Meta(env.stem(key));
    if path !in d then NoInfo
    else
      match d[path]
      case Metadata(info) => if Readable(env, info) && info.key == key then Info(info) else BadInfo
      case _ => BadInfo
  }

  datatype Answer = Missing | Found(blob: Blob) | Failed

  /** `get`. */
  function Get(env: Env, d: Disk, key: BlobKey): Answer {
    if !env.keyOk(key) then Failed
    else
      match ReadInfo(env, d, key)
      case NoInfo => Missing
      case BadInfo => Failed
      case Info(info) =>
        var path := Content(env.stem(info.key), info.checksum);
        if !WithinLimit(env, info.size) || path !in d then Failed
        else
          match d[path]
          case Data(bytes) =>
            if |bytes| == info.size && env.hash(bytes) == info.checksum then Found(Blob(info, bytes)) else Failed
          case _ => Failed
  }

  /** Whatever the paths, a key is only ever answered with its own, intact blob. */
  lemma {:induction false} GetIsOwn(env: Env, d: Disk, key: BlobKey)
    requires Get(env, d, key).Found?
    ensures var blob := Get(env, d, key).blob;
            && blob.info.key == key && |blob.data| == blob.info.size && env.hash(blob.data) == blob.info.checksum
            && d[Meta(env.stem(key))] == Metadata(blob.info)
  {
  }

  /** Every metadata file lies at its key's path, and the content it names is there and intact. */
  ghost predicate Sound(env: Env, d: Disk) {
    forall stem | Meta(stem) in d :: SoundAt(env, d, stem)
  }

  ghost predicate SoundAt(env: Env, d: Disk, stem: string)
    requires Meta(stem) in d
  {
    && d[Meta(stem)].Metadata?
    && var info := d[Meta(stem)].info;
    && env.stem(info.key) == stem
    && WithinLimit(env, info.size)
    && Content(stem, info.checksum) in d
    && d[Content(stem, info.checksum)].Data?
    && |d[Content(stem, info.checksum)].bytes| == info.size
    && env.hash(d[Content(stem, info.checksum)].bytes) == info.checksum
  }

  // ---------------------------------------------------------------------- put

  datatype PutArgs = PutArgs(
    key: BlobKey, data: Bytes, contentType: string, metadata: map<string, string>, replace: bool, now: int)

  /** The checks `put` makes before it writes anything. */
  predicate PutRejected(env: Env, d: Disk, a: PutArgs) {
    || !env.keyOk(a.key)
    || !env.optionsOk(a.contentType, a.metadata)
    || !WithinLimit(env, |a.data|)
    || (Meta(env.stem(a.key)) in d && (!a.replace || ReadInfo(env, d, a.key).BadInfo?))
  }

  function Previous(env: Env, d: Disk, key: BlobKey): Option<BlobInfo> {
    match ReadInfo(env, d, key)
    case Info(info) => Some(info)
    case _ => None
  }

  /** The metadata `put` writes: the creation time survives a replacement. */
  function NewInfo(env: Env, d: Disk, a: PutArgs): BlobInfo {
    var prev := Previous(env, d, a.key);
    BlobInfo(a.key, a.contentType, |a.data|, env.hash(a.data), a.metadata,
             if prev.Some? then prev.value.createdAt else a.now, a.now)
  }

  function NewContent(env: Env, a: PutArgs): Path {
    Content(env.stem(a.key), env.hash(a.data))
  }

  /** The three disk states `put` goes through after the first write. */
  function AfterContent(env: Env, d: Disk, a: PutArgs): Disk {
    d[NewContent(env, a) := Data(a.data)]
  }

  function AfterMetadata(env: Env, d: Disk, a: PutArgs): Disk {
    AfterContent(env, d, a)[Meta(env.stem(a.key)) := Metadata(NewInfo(env, d, a))]
  }

  function AfterCleanup(env: Env, d: Disk, a: PutArgs): Disk {
    var prev := Previous(env, d, a.key);
    if prev.Some? && prev.value.checksum != env.hash(a.data)
    then AfterMetadata(env, d, a) - {Content(env.stem(a.key), prev.value.checksum)}
    else AfterMetadata(env, d, a)
  }

  /** What `get` answers once the new metadata is in place. */
  function NewAnswer(env: Env, d: Disk, a: PutArgs): Answer {
    var info := NewInfo(env, d, a);
    if Readable(env, info) then Found(Blob(info, a.data)) else Failed
  }

  /** The key's current content has the new checksum but other bytes. */
  ghost predicate Collides(env: Env, d: Disk, a: PutArgs) {
    && NewContent(env, a) in d
    && d[NewContent(env, a)].Data?
    && d[NewContent(env, a)].bytes != a.data
    && Meta(env.stem(a.key)) in d
    && d[Meta(env.stem(a.key))].Metadata?
    && d[Meta(env.stem(a.key))].info.checksum == env.hash(a.data)
  }

  // ------------------------------------------------------ answers at each stage

  /** Before the metadata is replaced no key's answer changes, the written key's included. */
  lemma {:induction false} ContentIsInvisible(env: Env, d: Disk, a: PutArgs, key: BlobKey)
    requires Sound(env, d) && !Collides(env, d, a)
    ensures Get(env, AfterContent(env, d, a), key) == Get(env, d, key)
    ensures Sound(env, AfterContent(env, d, a))
  {
    var e := AfterContent(env, d, a);
    forall stem | Meta(stem) in e ensures SoundAt(env, e, stem) {
      assert SoundAt(env, d, stem);
    }
    if Meta(env.stem(key)) in d { assert SoundAt(env, d, env.stem(key)); }
  }

  /** Once the metadata is replaced the new blob answers. */
  lemma {:induction false} MetadataCommits(env: Env, d: Disk, a: PutArgs)
    requires Sound(env, d) && !Collides(env, d, a) && !PutRejected(env, d, a)
    ensures Get(env, AfterMetadata(env, d, a), a.key) == NewAnswer(env, d, a)
    ensures Sound(env, AfterMetadata(env, d, a))
  {
    ContentIsInvisible(env, d, a, a.key);
    var c, e := AfterContent(env, d, a), AfterMetadata(env, d, a);
    forall stem | Meta(stem) in e ensures SoundAt(env, e, stem) {
      if stem != env.stem(a.key) { assert SoundAt(env, c, stem); }
    }
  }

  /** Deleting the old content changes no answer. */
  lemma {:induction false} CleanupIsInvisible(env: Env, d: Disk, a: PutArgs, key: BlobKey)
    requires Sound(env, d) && !Collides(env, d, a) && !PutRejected(env, d, a)
    ensures Get(env, AfterCleanup(env, d, a), key) == Get(env, AfterMetadata(env, d, a), key)
    ensures Sound(env, AfterCleanup(env, d, a))
  {
    MetadataCommits(env, d, a);
    var e, f := AfterMetadata(env, d, a), AfterCleanup(env, d, a);
    forall stem | Meta(stem) in f ensures SoundAt(env, f, stem) {
      assert SoundAt(env, e, stem);
    }
    if Meta(env.stem(key)) in e { assert SoundAt(env, e, env.stem(key)); }
  }

  // ------------------------------------------------------------- crash safety

  /** No blob that another key could read has changed, and keys on other stems see no difference. */
  ghost predicate OthersSafe(env: Env, d: Disk, key: BlobKey, e: Disk) {
    forall k: BlobKey | k != key ::
      && (Get(env, d, k).Found? ==> Get(env, e, k) == Get(env, d, k))
      && (env.stem(k) != env.stem(key) ==> Get(env, e, k) == Get(env, d, k))
  }

  /** A state `put` can be interrupted in. */
  ghost predicate PutState(env: Env, d: Disk, a: PutArgs, e: Disk) {
    || e == d
    || (!PutRejected(env, d, a)
        && (e == AfterContent(env, d, a) || e == AfterMetadata(env, d, a) || e == AfterCleanup(env, d, a)))
  }

  /** Crash safety of `put`: at every point the key answers with its complete old answer or its
      complete new one, the store stays sound, and no other key's blob changes. */
  lemma {:induction false} PutCrashSafe(env: Env, d: Disk, a: PutArgs, e: Disk)
    requires Sound(env, d) && !Collides(env, d, a) && PutState(env, d, a, e)
    ensures Get(env, e, a.key) == Get(env, d, a.key) || Get(env, e, a.key) == NewAnswer(env, d, a)
    ensures Sound(env, e)
    ensures OthersSafe(env, d, a.key, e)
  {
    if e != d {
      ContentIsInvisible(env, d, a, a.key);
      MetadataCommits(env, d, a);
      CleanupIsInvisible(env, d, a, a.key);
    }
  }

  /** With content written and metadata not, the key answers with all of the old or all of the new exactly
      when the checksum does not collide with other current content, the metadata stays the same, or the
      new metadata cannot be read and the lengths differ, so that both read as failures. */
  lemma {:induction false} PutSafeIff(env: Env, d: Disk, a: PutArgs)
    requires Sound(env, d) && !PutRejected(env, d, a)
    ensures Get(env, AfterContent(env, d, a), a.key) in {Get(env, d, a.key), NewAnswer(env, d, a)}
       <==> || !Collides(env, d, a)
            || Previous(env, d, a.key) == Some(NewInfo(env, d, a))
            || (!Readable(env, NewInfo(env, d, a)) && Previous(env, d, a.key).Some?
                && Previous(env, d, a.key).value.size != |a.data|)
  {
    if Collides(env, d, a) {
      assert SoundAt(env, d, env.stem(a.key));
    } else {
      ContentIsInvisible(env, d, a, a.key);
    }
  }

  /** Two contents with one checksum: until the second put reaches its metadata, the key answers with the
      old metadata and the new content, which is neither blob. */
  lemma {:induction false} CollisionMixesBlobs(env: Env, key: BlobKey, first: Bytes, second: Bytes)
    requires env.keyOk(key) && env.optionsOk("a/b", map[])
    requires WithinLimit(env, |first|) && first != second && |first| == |second| && env.hash(first) == env.hash(second)
    requires forall now: int :: env.metadataFits(BlobInfo(key, "a/b", |first|, env.hash(first), map[], 1, now))
    ensures var a := PutArgs(key, first, "a/b", map[], true, 1);
            var b := PutArgs(key, second, "a/b", map[], true, 2);
            var d := AfterCleanup(env, map[], a);
            && !PutRejected(env, map[], a) && !PutRejected(env, d, b)
            && Get(env, d, key) == Found(Blob(NewInfo(env, map[], a), first))
            && NewAnswer(env, d, b) == Found(Blob(NewInfo(env, d, b), second))
            && Get(env, AfterContent(env, d, b), key) == Found(Blob(NewInfo(env, map[], a), second))
            && Get(env, AfterContent(env, d, b), key) !in {Get(env, d, key), NewAnswer(env, d, b)}
  {
    var a := PutArgs(key, first, "a/b", map[], true, 1);
    var b := PutArgs(key, second, "a/b", map[], true, 2);
    MetadataCommits(env, map[], a);
    CleanupIsInvisible(env, map[], a, key);
    var d := AfterCleanup(env, map[], a);
    assert env.metadataFits(NewInfo(env, map[], a)) && env.metadataFits(NewInfo(env, d, b));
    PutSafeIff(env, d, b);
  }

  /** A committed `put` can be read back exactly when the clock has not gone behind the recorded
      creation time and the metadata fits the reader's limit. */
  lemma {:induction false} PutReadBackIff(env: Env, d: Disk, a: PutArgs)
    requires Sound(env, d) && !PutRejected(env, d, a) && !Collides(env, d, a)
    ensures Get(env, AfterCleanup(env, d, a), a.key) == Found(Blob(NewInfo(env, d, a), a.data))
       <==> && env.metadataFits(NewInfo(env, d, a))
            && (Previous(env, d, a.key).Some? ==> Previous(env, d, a.key).value.createdAt <= a.now)
  {
    MetadataCommits(env, d, a);
    CleanupIsInvisible(env, d, a, a.key);
  }

  /** Otherwise the key is stuck: it cannot be read, replaced or removed any more. */
  lemma {:induction false} UnreadableIsStuck(env: Env, d: Disk, a: PutArgs, later: PutArgs)
    requires Sound(env, d) && !PutRejected(env, d, a) && !Collides(env, d, a)
    requires !Readable(env, NewInfo(env, d, a)) && later.key == a.key
    ensures var e := AfterCleanup(env, d, a);
            Get(env, e, a.key) == Failed && PutRejected(env, e, later) && RemoveRejected(env, e, a.key)
  {
    MetadataCommits(env, d, a);
    CleanupIsInvisible(env, d, a, a.key);
  }

  /** A clock that steps back between two puts of one key reaches the stuck state. */
  lemma {:induction false} ClockStepBackLosesBlob(env: Env, key: BlobKey, first: Bytes, second: Bytes)
    requires env.keyOk(key) && env.optionsOk("a/b", map[])
    requires WithinLimit(env, |first|) && WithinLimit(env, |second|) && first != second
    requires env.hash(first) != env.hash(second)
    requires env.metadataFits(BlobInfo(key, "a/b", |first|, env.hash(first), map[], 1, 1))
    ensures var a := PutArgs(key, first, "a/b", map[], true, 1);
            var b := PutArgs(key, second, "a/b", map[], true, 0);
            var d1 := AfterCleanup(env, map[], a);
            var d2 := AfterCleanup(env, d1, b);
            && !PutRejected(env, map[], a) && Get(env, d1, key).Found?
            && !PutRejected(env, d1, b) && Get(env, d2, key) == Failed
  {
    var a := PutArgs(key, first, "a/b", map[], true, 1);
    var b := PutArgs(key, second, "a/b", map[], true, 0);
    var d1 := AfterCleanup(env, map[], a);
    MetadataCommits(env, map[], a);
    CleanupIsInvisible(env, map[], a, key);
    MetadataCommits(env, d1, b);
    CleanupIsInvisible(env, d1, b, key);
  }

  /** A key that shares the stem of a newly written one is the only kind of key whose answer can
      change, and it changes exactly when the stem was free before. */
  lemma {:induction false} SharedStemAnswer(env: Env, d: Disk, a: PutArgs, other: BlobKey)
    requires !PutRejected(env, d, a)
    requires other != a.key && env.keyOk(other) && env.stem(other) == env.stem(a.key)
    ensures Get(env, AfterMetadata(env, d, a), other) == Get(env, d, other) <==> Meta(env.stem(a.key)) in d
  {
  }

  /** A key is missing until a key on the same path is written to an empty store; then it fails. */
  lemma {:induction false} SharedStemBreaksOther(env: Env, a: PutArgs, other: BlobKey)
    requires !PutRejected(env, map[], a)
    requires other != a.key && env.keyOk(other) && env.stem(other) == env.stem(a.key)
    ensures Get(env, map[], other) == Missing && Get(env, AfterCleanup(env, map[], a), other) == Failed
  {
    SharedStemAnswer(env, map[], a, other);
  }

  // ------------------------------------------------------------------- remove

  predicate RemoveRejected(env: Env, d: Disk, key: BlobKey) {
    !env.keyOk(key) || ReadInfo(env, d, key).BadInfo?
  }

  function AfterUnlink(env: Env, d: Disk, key: BlobKey): Disk {
    d - {Meta(env.stem(key))}
  }

  function AfterErase(env: Env, d: Disk, key: BlobKey): Disk {
    match ReadInfo(env, d, key)
    case Info(info) => AfterUnlink(env, d, key) - {Content(env.stem(key), info.checksum)}
    case _ => d
  }

  ghost predicate RemoveState(env: Env, d: Disk, key: BlobKey, e: Disk) {
    || e == d
    || (!RemoveRejected(env, d, key) && ReadInfo(env, d, key).Info?
        && (e == AfterUnlink(env, d, key) || e == AfterErase(env, d, key)))
  }

  /** Crash safety of `remove`: the key answers as before or is missing, nothing else changes. */
  lemma {:induction false} RemoveCrashSafe(env: Env, d: Disk, key: BlobKey, e: Disk)
    requires Sound(env, d) && RemoveState(env, d, key, e)
    ensures Get(env, e, key) == Get(env, d, key) || Get(env, e, key) == Missing
    ensures e != d ==> Get(env, e, key) == Missing
    ensures Sound(env, e)
    ensures OthersSafe(env, d, key, e)
  {
    forall stem | Meta(stem) in e ensures SoundAt(env, e, stem) {
      assert SoundAt(env, d, stem);
    }
    forall k: BlobKey | k != key
      ensures Get(env, d, k).Found? ==> Get(env, e, k) == Get(env, d, k)
      ensures env.stem(k) != env.stem(key) ==> Get(env, e, k) == Get(env, d, k)
    {
    }
  }

  // --------------------------------------------------------------- compaction

  /** The metadata at `stem` names the content file `p`. */
  predicate Refers(env: Env, d: Disk, stem: string, p: Path) {
    && Meta(stem) in d
    && d[Meta(stem)].Metadata?
    && p == Content(env.stem(d[Meta(stem)].info.key), d[Meta(stem)].info.checksum)
  }

  /** Compaction can read this metadata file, and the content it names has the recorded size. */
  predicate ReadableAt(env: Env, d: Disk, stem: string)
    requires Meta(stem) in d
  {
    && d[Meta(stem)].Metadata?
    && var info := d[Meta(stem)].info;
    && Readable(env, info) && env.stem(info.key) == stem
    && var content := Content(env.stem(info.key), info.checksum);
    && content in d && d[content].Data? && |d[content].bytes| == info.size
  }

  ghost predicate AllReadable(env: Env, d: Disk) {
    forall stem | Meta(stem) in d :: ReadableAt(env, d, stem)
  }

  /** What compaction keeps: metadata, foreign files, and content some metadata names. */
  ghost predicate Kept(env: Env, d: Disk, p: Path) {
    p.Meta? || p.Other? || (p.Content? && exists stem :: Refers(env, d, stem, p))
  }

  /** `e` is `d` without some files that are not kept. */
  ghost predicate Trimmed(env: Env, d: Disk, e: Disk) {
    && (forall p | p in e :: p in d && e[p] == d[p])
    && (forall p | p in d && Kept(env, d, p) :: p in e)
  }

  /** At every point of a compaction, finished or not, every key answers as before. */
  lemma {:induction false} CompactionIsInvisible(env: Env, d: Disk, e: Disk, key: BlobKey)
    requires Sound(env, d) && Trimmed(env, d, e)
    ensures Get(env, e, key) == Get(env, d, key)
    ensures Sound(env, e)
  {
    forall stem | Meta(stem) in d
      ensures Meta(stem) in e && e[Meta(stem)] == d[Meta(stem)]
      ensures var path := Content(stem, d[Meta(stem)].info.checksum); path in e && e[path] == d[path]
    {
      assert SoundAt(env, d, stem);
      assert Refers(env, d, stem, Content(stem, d[Meta(stem)].info.checksum));
    }
    forall stem | Meta(stem) in e ensures SoundAt(env, e, stem) {
      assert SoundAt(env, d, stem);
    }
  }

  /** A sound store always passes the scan, unless a metadata file has become unreadable. */
  lemma {:induction false} SoundIsScannable(env: Env, d: Disk)
    requires Sound(env, d)
    ensures AllReadable(env, d)
       <==> forall stem | Meta(stem) in d :: d[Meta(stem)].Metadata? && Readable(env, d[Meta(stem)].info)
  {
    forall stem | Meta(stem) in d
      ensures ReadableAt(env, d, stem) <==> d[Meta(stem)].Metadata? && Readable(env, d[Meta(stem)].info)
    {
      assert SoundAt(env, d, stem);
    }
  }
}
