/** The store as it runs: each file operation changes the disk once and may fail; `trace` records the
    disk after every operation, which is every state a crash can leave. */
module BlobStoreFiles {
  import opened Optional
  import opened BlobStore

  /** The disk without temporary files, which no read ever looks at. */
  function Visible(d: Disk): Disk {
    map p | p in d && !p.Temp? :: d[p]
  }

  class FileSystemBlobStore {
    const env: Env
    var disk: Disk
    ghost var trace: seq<Disk>

    constructor (env: Env, disk: Disk)
      ensures this.env == env && this.disk == disk && trace == [disk]
    {
      this.env := env;
      this.disk := disk;
      trace := [disk];
    }

    /** `writeFileAtomic`: a temporary file, then a rename; a failure may leave the temporary file. */
    method WriteFile(path: Path, file: File) returns (ok: bool)
      requires !path.Temp?
      modifies this
      ensures Visible(disk) == if ok then Visible(old(disk))[path := file] else Visible(old(disk))
      ensures old(trace) <= trace
      ensures forall i | |old(trace)| <= i < |trace| ::
                Visible(trace[i]) == Visible(old(disk)) || Visible(trace[i]) == Visible(disk)
    {
      var id := FreshTemp(disk);
      ghost var before := disk;
      disk := disk[Temp(id) := file];
      trace := trace + [disk];
      assert Visible(disk) == Visible(before);
      ok := *;
      if !ok {
        var leftover: bool := *;
        if !leftover {
          disk := disk - {Temp(id)};
        }
        trace := trace + [disk];
        assert Visible(disk) == Visible(before);
        return;
      }
      disk := (disk - {Temp(id)})[path := file];
      trace := trace + [disk];
      assert Visible(disk) == Visible(before)[path := file];
    }

    method RemoveFile(path: Path) returns (ok: bool)
      modifies this
      ensures disk == if ok then old(disk) - {path} else old(disk)
      ensures trace == old(trace) + [disk]
    {
      ok := *;
      if ok {
        disk := disk - {path};
      }
      trace := trace + [disk];
    }

    /** Every disk since `start` shows one of the states `put` goes through from `d`. */
    ghost predicate PutTrace(d: Disk, a: PutArgs, start: nat)
      reads this
    {
      start <= |trace| && forall i | start <= i < |trace| :: PutState(env, d, a, Visible(trace[i]))
    }

    /** `put`, with every file operation allowed to fail.  Success leaves the new blob committed;
        failure leaves the old one; no intermediate disk shows anything else. */
    method Put(a: PutArgs) returns (ok: bool)
      modifies this
      ensures PutTrace(Visible(old(disk)), a, |old(trace)|) && PutState(env, Visible(old(disk)), a, Visible(disk))
      ensures PutRejected(env, Visible(old(disk)), a) ==> !ok && disk == old(disk)
      ensures ok ==>
                Visible(disk) in {AfterMetadata(env, Visible(old(disk)), a), AfterCleanup(env, Visible(old(disk)), a)}
      ensures !ok ==> Visible(disk) in {Visible(old(disk)), AfterContent(env, Visible(old(disk)), a)}
    {
      ghost var d := Visible(disk);
      if !env.keyOk(a.key) || !env.optionsOk(a.contentType, a.metadata) || !WithinLimit(env, |a.data|) {
        return false;
      }
      var stem := env.stem(a.key);
      var occupied := Meta(stem) in disk;
      if occupied && !a.replace {
        return false;
      }
      var previous: Option<BlobInfo> := None;
      if occupied {
        match ReadInfo(env, disk, a.key) {
          case Info(info) => previous := Some(info);
          case _ => return false;
        }
      }
      assert ReadInfo(env, disk, a.key) == ReadInfo(env, d, a.key);
      ok := Commit(a, previous);
    }

    /** The writing half of `put`, once its checks have passed. */
    method Commit(a: PutArgs, previous: Option<BlobInfo>) returns (ok: bool)
      requires !PutRejected(env, Visible(disk), a) && previous == Previous(env, Visible(disk), a.key)
      modifies this
      ensures PutTrace(Visible(old(disk)), a, |old(trace)|) && PutState(env, Visible(old(disk)), a, Visible(disk))
      ensures ok ==>
                Visible(disk) in {AfterMetadata(env, Visible(old(disk)), a), AfterCleanup(env, Visible(old(disk)), a)}
      ensures !ok ==> Visible(disk) in {Visible(old(disk)), AfterContent(env, Visible(old(disk)), a)}
    {
      ghost var d, start := Visible(disk), |trace|;
      var info := BlobInfo(a.key, a.contentType, |a.data|, env.hash(a.data), a.metadata,
                           if previous.Some? then previous.value.createdAt else a.now, a.now);
      var content := NewContent(env, a);
      var existed := content in disk;
      ok := WriteFile(content, Data(a.data));
      if !ok {
        return;
      }
      ok := WriteFile(Meta(env.stem(a.key)), Metadata(info));
      if !ok {
        if !existed && (previous.None? || previous.value.checksum != info.checksum) {
          ghost var was := disk;
          var removed := RemoveFile(content);
          if removed {
            assert Visible(disk) == Visible(was) - {content};
            assert AfterContent(env, d, a) - {content} == d;
          }
        }
        return;
      }
      if previous.Some? && previous.value.checksum != info.checksum {
        ghost var was := disk;
        var removed := RemoveFile(Content(env.stem(a.key), previous.value.checksum));
        if removed {
          assert Visible(disk) == Visible(was) - {Content(env.stem(a.key), previous.value.checksum)};
        }
      }
    }

    ghost predicate RemoveTrace(d: Disk, key: BlobKey, start: nat)
      reads this
    {
      start <= |trace| && forall i | start <= i < |trace| :: RemoveState(env, d, key, Visible(trace[i]))
    }

    /** `remove`: metadata first, then content; a key that is not there is removed already. */
    method Remove(key: BlobKey) returns (ok: bool)
      modifies this
      ensures RemoveTrace(Visible(old(disk)), key, |old(trace)|)
      ensures RemoveState(env, Visible(old(disk)), key, Visible(disk))
      ensures RemoveRejected(env, Visible(old(disk)), key) ==> !ok && disk == old(disk)
      ensures ok ==> Visible(disk) == AfterErase(env, Visible(old(disk)), key)
    {
      ghost var d := Visible(disk);
      assert ReadInfo(env, disk, key) == ReadInfo(env, d, key);
      if !env.keyOk(key) {
        return false;
      }
      match ReadInfo(env, disk, key) {
        case NoInfo => return true;
        case BadInfo => return false;
        case Info(info) =>
          ok := RemoveFile(Meta(env.stem(key)));
          if !ok {
            return;
          }
          assert Visible(disk) == AfterUnlink(env, d, key);
          ok := RemoveFile(Content(env.stem(info.key), info.checksum));
          assert ok ==> Visible(disk) == AfterErase(env, d, key);
      }
    }

    /** Every disk since `start` is `d` without some files that nothing refers to. */
    ghost predicate TrimTrace(d: Disk, start: nat)
      reads this
    {
      start <= |trace| && forall i | start <= i < |trace| :: Trimmed(env, d, trace[i])
    }

    /** Deletes the files `doomed` one by one, stopping at the first failure. */
    method RemoveAll(doomed: set<Path>, ghost d: Disk, ghost start: nat) returns (ok: bool)
      requires Trimmed(env, d, disk) && TrimTrace(d, start)
      requires forall p | p in doomed :: !Kept(env, d, p)
      modifies this
      ensures Trimmed(env, d, disk) && TrimTrace(d, start)
      ensures ok ==> disk == old(disk) - doomed
    {
      var todo := doomed;
      ok := true;
      while todo != {}
        invariant todo <= doomed && Trimmed(env, d, disk) && TrimTrace(d, start)
        invariant disk == old(disk) - (doomed - todo)
        decreases todo
      {
        var p :| p in todo;
        ok := RemoveFile(p);
        if !ok {
          return;
        }
        todo := todo - {p};
      }
    }

    /** `compact`: a full scan that must find every metadata file readable and its content in place,
        then deletion of temporary files and of content nothing refers to. */
    method Compact() returns (ok: bool)
      modifies this
      ensures Trimmed(env, old(disk), disk) && TrimTrace(old(disk), |old(trace)|)
      ensures ok ==> disk == map p | p in old(disk) && Kept(env, old(disk), p) :: old(disk)[p]
      ensures ok ==> AllReadable(env, old(disk))
    {
      ghost var d, start := disk, |trace|;
      var temps, contents, referenced;
      ok, temps, contents, referenced := Scan();
      if !ok {
        return;
      }
      ok := RemoveAll(temps, d, start);
      if !ok {
        return;
      }
      ok := RemoveAll(contents - referenced, d, start);
    }

    method Scan() returns (ok: bool, temps: set<Path>, contents: set<Path>, referenced: set<Path>)
      ensures ok ==> AllReadable(env, disk)
      ensures ok ==> temps == set p | p in disk && p.Temp?
      ensures ok ==> contents == set p | p in disk && p.Content?
      ensures ok ==> forall p | p in disk && p.Content? :: p in referenced <==> Kept(env, disk, p)
    {
      temps, contents, referenced := {}, {}, {};
      var todo, scanned := disk.Keys, 0;
      while todo != {}
        invariant todo <= disk.Keys
        invariant temps == set p | p in disk && p !in todo && p.Temp?
        invariant contents == set p | p in disk && p !in todo && p.Content?
        invariant forall stem | Meta(stem) in disk && Meta(stem) !in todo :: ReadableAt(env, disk, stem)
        invariant forall p | p in referenced :: exists stem :: Refers(env, disk, stem, p)
        invariant forall stem, p | Meta(stem) !in todo && Refers(env, disk, stem, p) :: p in referenced
        decreases todo
      {
        var p :| p in todo;
        todo := todo - {p};
        scanned := scanned + 1;
        if env.maxScan != 0 && scanned > env.maxScan {
          return false, temps, contents, referenced;
        }
        match p {
          case Temp(_) => temps := temps + {p};
          case Content(_, _) => contents := contents + {p};
          case Other(_) =>
          case Meta(stem) =>
            if !ReadableAt(env, disk, stem) {
              return false, temps, contents, referenced;
            }
            var info := disk[p].info;
            var content := Content(env.stem(info.key), info.checksum);
            assert Refers(env, disk, stem, content);
            referenced := referenced + {content};
        }
      }
      ok := true;
    }
  }

  method FreshTemp(d: Disk) returns (id: nat)
    ensures Temp(id) !in d
  {
    var ids := set p | p in d && p.Temp? :: p.id;
    id := 0;
    ghost var left := ids;
    while id in ids
      invariant left == set i | i in ids && i >= id
      decreases left
    {
      ghost var was := left;
      left := set i | i in ids && i >= id + 1;
      assert id in was && id !in left;
      id := id + 1;
    }
  }
}
