/** The in-memory store, and its use as the reference for the filesystem store: whatever crashes and
    write failures interrupt a run, the disk answers like a memory store that performed each operation
    entirely or not at all. */
module MemoryBlobStore {
  import opened BlobStore
  import opened BlobStoreFiles

  type Memory = map<BlobKey, Blob>

  predicate MemoryPutRejected(env: Env, m: Memory, a: PutArgs) {
    || !env.keyOk(a.key)
    || !env.optionsOk(a.contentType, a.metadata)
    || !WithinLimit(env, |a.data|)
    || (a.key in m && !a.replace)
  }

  function MemoryPut(env: Env, m: Memory, a: PutArgs): Memory {
    if MemoryPutRejected(env, m, a) then m
    else
      var created := if a.key in m then m[a.key].info.createdAt else a.now;
      m[a.key := Blob(BlobInfo(a.key, a.contentType, |a.data|, env.hash(a.data), a.metadata, created, a.now), a.data)]
  }

  function MemoryGet(env: Env, m: Memory, key: BlobKey): Answer {
    if !env.keyOk(key) then Failed else if key in m then Found(m[key]) else Missing
  }

  function MemoryRemove(env: Env, m: Memory, key: BlobKey): Memory {
    if env.keyOk(key) then m - {key} else m
  }

  class MemoryStore {
    const env: Env
    var blobs: Memory

    constructor (env: Env)
      ensures this.env == env && blobs == map[]
    {
      this.env := env;
      blobs := map[];
    }

    method Put(a: PutArgs) returns (ok: bool)
      modifies this
      ensures ok <==> !MemoryPutRejected(env, old(blobs), a)
      ensures blobs == MemoryPut(env, old(blobs), a)
    {
      if !env.keyOk(a.key) || !env.optionsOk(a.contentType, a.metadata) || !WithinLimit(env, |a.data|) {
        return false;
      }
      if a.key in blobs && !a.replace {
        return false;
      }
      var created := a.now;
      if a.key in blobs {
        created := blobs[a.key].info.createdAt;
      }
      var info := BlobInfo(a.key, a.contentType, |a.data|, env.hash(a.data), a.metadata, created, a.now);
      blobs := blobs[a.key := Blob(info, a.data)];
      ok := true;
    }

    method Remove(key: BlobKey) returns (ok: bool)
      modifies this
      ensures ok <==> env.keyOk(key)
      ensures blobs == MemoryRemove(env, old(blobs), key)
    {
      if !env.keyOk(key) {
        return false;
      }
      blobs := blobs - {key};
      ok := true;
    }
  }

  // --------------------------------------------------------------- refinement

  datatype Operation = Put(a: PutArgs) | Remove(key: BlobKey) | Compact

  /** One operation on the disk, interrupted or failing anywhere unless `done`. */
  ghost predicate DiskStep(env: Env, d: Disk, op: Operation, done: bool, e: Disk) {
    match op
    case Put(a) =>
      if done then !PutRejected(env, d, a) && (e == AfterMetadata(env, d, a) || e == AfterCleanup(env, d, a))
      else PutState(env, d, a, e)
    case Remove(key) =>
      if done then !RemoveRejected(env, d, key) && e == AfterErase(env, d, key)
      else RemoveState(env, d, key, e)
    case Compact => Trimmed(env, d, e)
  }

  /** The methods of the filesystem store take exactly these steps, seen without temporary files. */
  lemma {:induction false} CompactIsStep(env: Env, before: Disk, after: Disk)
    requires Trimmed(env, before, after)
    ensures DiskStep(env, Visible(before), Compact, true, Visible(after))
  {
    forall p | p in Visible(before) && Kept(env, Visible(before), p) ensures p in Visible(after) {
      assert Kept(env, before, p) by {
        if p.Content? {
          var stem :| Refers(env, Visible(before), stem, p);
          assert Refers(env, before, stem, p);
        }
      }
    }
  }

  function MemoryStep(env: Env, m: Memory, op: Operation): Memory {
    match op
    case Put(a) => MemoryPut(env, m, a)
    case Remove(key) => MemoryRemove(env, m, key)
    case Compact => m
  }

  /** No two keys of `keys` share a path. */
  ghost predicate Injective(env: Env, keys: iset<BlobKey>) {
    forall j, k | j in keys && k in keys && env.stem(j) == env.stem(k) :: j == k
  }

  /** The operation is about `keys`, and a put neither collides nor writes unreadable metadata. */
  ghost predicate Regular(env: Env, keys: iset<BlobKey>, d: Disk, op: Operation) {
    match op
    case Put(a) => a.key in keys && !Collides(env, d, a) && Readable(env, NewInfo(env, d, a))
    case Remove(key) => key in keys
    case Compact => true
  }

  /** Every metadata file belongs to a valid key of `keys`. */
  ghost predicate Owned(env: Env, keys: iset<BlobKey>, d: Disk) {
    forall stem | Meta(stem) in d && d[Meta(stem)].Metadata? ::
      d[Meta(stem)].info.key in keys && env.keyOk(d[Meta(stem)].info.key)
  }

  ghost predicate Agree(env: Env, keys: iset<BlobKey>, d: Disk, m: Memory) {
    && Sound(env, d)
    && Owned(env, keys, d)
    && forall k | k in keys :: Get(env, d, k) == MemoryGet(env, m, k)
  }

  /** Both stores accept and refuse the same operations. */
  lemma {:induction false} SameRefusals(env: Env, keys: iset<BlobKey>, d: Disk, m: Memory, a: PutArgs)
    requires Injective(env, keys) && Agree(env, keys, d, m) && a.key in keys
    ensures PutRejected(env, d, a) <==> MemoryPutRejected(env, m, a)
    ensures RemoveRejected(env, d, a.key) <==> !env.keyOk(a.key)
  {
  }

  lemma {:induction false} PutAgrees(env: Env, keys: iset<BlobKey>, d: Disk, m: Memory, a: PutArgs, e: Disk)
    requires Injective(env, keys) && Agree(env, keys, d, m) && Regular(env, keys, d, Put(a))
    requires !PutRejected(env, d, a) && (e == AfterMetadata(env, d, a) || e == AfterCleanup(env, d, a))
    ensures Agree(env, keys, e, MemoryPut(env, m, a))
  {
    SameRefusals(env, keys, d, m, a);
    MetadataCommits(env, d, a);
    CleanupIsInvisible(env, d, a, a.key);
    PutCrashSafe(env, d, a, e);
    forall k | k in keys ensures Get(env, e, k) == MemoryGet(env, MemoryPut(env, m, a), k) {
      if k != a.key { assert Get(env, e, k) == Get(env, d, k); }
    }
  }

  lemma {:induction false} RemoveAgrees(env: Env, keys: iset<BlobKey>, d: Disk, m: Memory, key: BlobKey, e: Disk)
    requires Injective(env, keys) && Agree(env, keys, d, m) && key in keys && env.keyOk(key)
    requires RemoveState(env, d, key, e) && (e == d ==> Meta(env.stem(key)) !in d)
    ensures Agree(env, keys, e, MemoryRemove(env, m, key))
  {
    RemoveCrashSafe(env, d, key, e);
    forall k | k in keys ensures Get(env, e, k) == MemoryGet(env, MemoryRemove(env, m, key), k) {
      if k != key { assert Get(env, e, k) == Get(env, d, k); }
    }
  }

  /** One step of the disk is one whole memory operation or none; a completed one is the operation. */
  lemma {:induction false} StepRefines(
    env: Env, keys: iset<BlobKey>, d: Disk, m: Memory, op: Operation, done: bool, e: Disk)
    requires Injective(env, keys) && Agree(env, keys, d, m) && Regular(env, keys, d, op)
    requires DiskStep(env, d, op, done, e)
    ensures Agree(env, keys, e, MemoryStep(env, m, op)) || (!done && Agree(env, keys, e, m))
  {
    match op {
      case Put(a) =>
        if !PutRejected(env, d, a) && (e == AfterMetadata(env, d, a) || e == AfterCleanup(env, d, a)) {
          PutAgrees(env, keys, d, m, a, e);
        } else if e != d {
          ContentKeepsAgreement(env, keys, d, m, a);
        }
      case Remove(key) =>
        if e != d {
          RemoveAgrees(env, keys, d, m, key, e);
        } else if done {
          RemoveAgrees(env, keys, d, m, key, e);
        }
      case Compact =>
        forall k ensures Get(env, e, k) == Get(env, d, k) && Sound(env, e) {
          CompactionIsInvisible(env, d, e, k);
        }
    }
  }

  lemma {:induction false} ContentKeepsAgreement(env: Env, keys: iset<BlobKey>, d: Disk, m: Memory, a: PutArgs)
    requires Agree(env, keys, d, m) && !Collides(env, d, a)
    ensures Agree(env, keys, AfterContent(env, d, a), m)
  {
    forall k ensures Get(env, AfterContent(env, d, a), k) == Get(env, d, k) && Sound(env, AfterContent(env, d, a)) {
      ContentIsInvisible(env, d, a, k);
    }
  }

  // --------------------------------------------------------------------- runs

  /** A run of the filesystem store: any operations, each finished or cut short anywhere. */
  datatype Event = Event(op: Operation, done: bool, after: Disk)

  ghost predicate DiskRun(env: Env, keys: iset<BlobKey>, d: Disk, run: seq<Event>)
    decreases |run|
  {
    run == [] ||
    (&& DiskStep(env, d, run[0].op, run[0].done, run[0].after)
     && Regular(env, keys, d, run[0].op)
     && DiskRun(env, keys, run[0].after, run[1..]))
  }

  /** `memories` is a memory-store run that takes each operation of `run` or, unless it finished, skips it. */
  ghost predicate MemoryRun(env: Env, m: Memory, run: seq<Event>, memories: seq<Memory>)
    decreases |run|
  {
    && |memories| == |run|
    && (run == [] ||
        (&& (memories[0] == MemoryStep(env, m, run[0].op) || (!run[0].done && memories[0] == m))
         && MemoryRun(env, memories[0], run[1..], memories[1..])))
  }

  /** For every run there is a memory run that agrees with the disk after every event. */
  lemma {:induction false} RunRefines(env: Env, keys: iset<BlobKey>, d: Disk, m: Memory, run: seq<Event>)
    returns (memories: seq<Memory>)
    requires Injective(env, keys) && Agree(env, keys, d, m) && DiskRun(env, keys, d, run)
    ensures MemoryRun(env, m, run, memories)
    ensures forall i | 0 <= i < |run| :: Agree(env, keys, run[i].after, memories[i])
    decreases |run|
  {
    if run == [] {
      memories := [];
    } else {
      var event := run[0];
      StepRefines(env, keys, d, m, event.op, event.done, event.after);
      var taken := MemoryStep(env, m, event.op);
      var next := if Agree(env, keys, event.after, taken) then taken else m;
      var rest := RunRefines(env, keys, event.after, next, run[1..]);
      memories := [next] + rest;
      assert memories[1..] == rest;
      forall i | 0 <= i < |run| ensures Agree(env, keys, run[i].after, memories[i]) {
        if i > 0 { assert run[i] == run[1..][i - 1]; }
      }
    }
  }

  /** Every run of a new store is matched by a run of a new memory store. */
  lemma {:induction false} NewStoreRefines(env: Env, keys: iset<BlobKey>, run: seq<Event>)
    returns (memories: seq<Memory>)
    requires Injective(env, keys) && DiskRun(env, keys, map[], run)
    ensures MemoryRun(env, map[], run, memories)
    ensures forall i | 0 <= i < |run| :: Agree(env, keys, run[i].after, memories[i])
  {
    memories := RunRefines(env, keys, map[], map[], run);
  }

  /** When every operation finishes, the memory run is the plain one: the final answers are those of
      performing the same operations on the memory store. */
  function Performed(env: Env, m: Memory, run: seq<Event>): Memory
    decreases |run|
  {
    if run == [] then m else Performed(env, MemoryStep(env, m, run[0].op), run[1..])
  }

  function LastDisk(d: Disk, run: seq<Event>): Disk {
    if run == [] then d else run[|run| - 1].after
  }

  lemma {:induction false} SuccessfulRunAgrees(
    env: Env, keys: iset<BlobKey>, d: Disk, m: Memory, run: seq<Event>, key: BlobKey)
    requires Injective(env, keys) && Agree(env, keys, d, m) && DiskRun(env, keys, d, run)
    requires forall i | 0 <= i < |run| :: run[i].done
    requires key in keys
    ensures Get(env, LastDisk(d, run), key) == MemoryGet(env, Performed(env, m, run), key)
    decreases |run|
  {
    if run != [] {
      StepRefines(env, keys, d, m, run[0].op, true, run[0].after);
      SuccessfulRunAgrees(env, keys, run[0].after, MemoryStep(env, m, run[0].op), run[1..], key);
      assert LastDisk(d, run) == LastDisk(run[0].after, run[1..]);
    }
  }

  // ------------------------------------------------------- any path mapping

  /** Puts, removes and compactions, cut short anywhere, of any keys: only colliding checksums are ruled out. */
  ghost predicate CrashRun(env: Env, d: Disk, run: seq<Event>)
    decreases |run|
  {
    run == [] ||
    (&& DiskStep(env, d, run[0].op, run[0].done, run[0].after)
     && (run[0].op.Put? ==> !Collides(env, d, run[0].op.a))
     && CrashRun(env, run[0].after, run[1..]))
  }

  /** The key an operation is about may change its answer; a blob of any other key stays. */
  predicate Concerns(op: Operation, key: BlobKey) {
    match op
    case Put(a) => a.key == key
    case Remove(k) => k == key
    case Compact => false
  }

  lemma {:induction false} CrashStep(env: Env, d: Disk, event: Event, key: BlobKey)
    requires Sound(env, d) && DiskStep(env, d, event.op, event.done, event.after)
    requires event.op.Put? ==> !Collides(env, d, event.op.a)
    ensures Sound(env, event.after)
    ensures Get(env, d, key).Found? && !Concerns(event.op, key) ==> Get(env, event.after, key) == Get(env, d, key)
  {
    match event.op {
      case Put(a) => PutCrashSafe(env, d, a, event.after);
      case Remove(k) =>
        if event.after != d { RemoveCrashSafe(env, d, k, event.after); }
      case Compact => CompactionIsInvisible(env, d, event.after, key);
    }
  }

  /** Key isolation over whole runs: whichever keys share paths, whatever is cut short, the store stays
      sound and a stored blob is unchanged until an operation on its own key. */
  lemma {:induction false} BlobsAreIsolated(env: Env, d: Disk, run: seq<Event>, key: BlobKey)
    requires Sound(env, d) && CrashRun(env, d, run)
    ensures Sound(env, LastDisk(d, run))
    ensures Get(env, d, key).Found? && (forall i | 0 <= i < |run| :: !Concerns(run[i].op, key)) ==>
              Get(env, LastDisk(d, run), key) == Get(env, d, key)
    decreases |run|
  {
    if run != [] {
      CrashStep(env, d, run[0], key);
      BlobsAreIsolated(env, run[0].after, run[1..], key);
      assert LastDisk(d, run) == LastDisk(run[0].after, run[1..]);
      assert forall i | 0 <= i < |run[1..]| :: run[1..][i] == run[i + 1];
    }
  }

  /** So from every state such a run can leave, a compaction changes no answer. */
  lemma {:induction false} CompactionAfterCrashes(env: Env, run: seq<Event>, after: Disk, key: BlobKey)
    requires CrashRun(env, map[], run) && Trimmed(env, LastDisk(map[], run), after)
    ensures Get(env, after, key) == Get(env, LastDisk(map[], run), key)
  {
    BlobsAreIsolated(env, map[], run, key);
    CompactionIsInvisible(env, LastDisk(map[], run), after, key);
  }
}
