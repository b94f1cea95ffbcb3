/**
 * The filesystem-backed cache store, `FsCache<Read>` and `FsCache<ReadWrite>`.
 *
 * The filesystem is a `FileSystem` object mapping each directory path that
 * exists to its permissions flag and its entries (name to bytes). A store is a
 * value naming its directory and its access mode. Whatever the operating system
 * decides on its own (a lock or an open that fails, a listing that fails, a
 * timeout) is an explicit input.
 */
module Fs {
  import opened Wrappers
  import opened Primitives
  import opened Errors
  import opened Keys

  type Path = string

  /** `WRITE_LOCK_COUNT`, subtracted from the item limit in the admission check. */
  const WRITE_LOCK_COUNT: usize := 2

  /** A directory that exists: whether its permissions are read-only, and its entries. */
  datatype DirState = DirState(readOnly: bool, entries: map<string, Bytes>)

  /** Every directory that exists, by path. */
  type Dirs = map<Path, DirState>

  /** The capability marker: `Read`, or `ReadWrite` with its item limit. */
  datatype Access = Read | ReadWrite(limit: usize)

  /** `FsCache<T>`: the directory path and the capability marker. */
  datatype FsCache = FsCache(path: Path, access: Access)

  /** The entry `key` of directory `path`, if both exist. */
  function Entry(dirs: Dirs, path: Path, key: string): Option<Bytes>
  {
    if path in dirs && key in dirs[path].entries then Some(dirs[path].entries[key]) else None
  }

  // ---------------------------------------------------------------------------
  // get

  /** What can go wrong once `get` has found the entry: open, shared lock, read, or the 5 s timeout. */
  datatype ReadFault = ReadOk | ReadOpenFailed | ReadLockFailed | ReadFailed | ReadTimedOut

  /**
   * `FsCache::get`: the stored bytes when the key is valid, the entry exists and
   * nothing fails on the way; `None` in every other case. No error escapes.
   */
  function Get(dirs: Dirs, c: FsCache, key: string, fault: ReadFault): (r: Option<Bytes>)
    ensures r.Some? <==> ValidKey(key) && Entry(dirs, c.path, key).Some? && fault == ReadOk
    ensures r.Some? ==> r == Entry(dirs, c.path, key)
  {
    if ValidateKey(key).Err? then None
    else if c.path !in dirs || key !in dirs[c.path].entries then None
    else if fault != ReadOk then None
    else Some(dirs[c.path].entries[key])
  }

  // ---------------------------------------------------------------------------
  // new_read

  /** What can go wrong while `new_read` checks an existing path. */
  datatype OpenFault = DirOpenOk | DirOpenFailed(kind: IoKind) | DirLockBusy | DirOpenTimedOut

  /**
   * `FsCache<Read>::new_read`: a missing path is `NotFound`, a failed shared lock
   * `ResourceBusy`, a writable directory `PermissionDenied`; only a read-only
   * directory gives a store, holding the given path.
   */
  function NewRead(dirs: Dirs, path: Path, fault: OpenFault): (r: Result<FsCache, IoKind>)
    ensures r.Ok? <==> path in dirs && dirs[path].readOnly && fault == DirOpenOk
    ensures r.Ok? ==> r.value == FsCache(path, Read)
    ensures fault == DirOpenTimedOut ==> r == Err(TimedOut)
    ensures fault != DirOpenTimedOut && path !in dirs ==> r == Err(IoKind.NotFound)
    ensures path in dirs && fault == DirLockBusy ==> r == Err(ResourceBusy)
    ensures path in dirs && fault == DirOpenOk && !dirs[path].readOnly ==> r == Err(PermissionDenied)
  {
    if fault == DirOpenTimedOut then Err(TimedOut)
    else if path !in dirs then Err(IoKind.NotFound)
    else if fault.DirOpenFailed? then Err(fault.kind)
    else if fault == DirLockBusy then Err(ResourceBusy)
    else if dirs[path].readOnly then Ok(FsCache(path, Read))
    else Err(PermissionDenied)
  }

  // ---------------------------------------------------------------------------
  // create_dir, kept abstract

  /**
   * How `create_dir` ends for a missing directory: it is created (writable and
   * empty), or the `mkdir` error is discarded and `Ok` returned with no directory,
   * or a locking step fails.
   */
  datatype CreateOutcome = Created | MkdirIgnored | CreateFailed(kind: IoKind)

  function CreatedDirs(dirs: Dirs, path: Path, create: CreateOutcome): Dirs
  {
    if path !in dirs && create.Created? then dirs[path := DirState(false, map[])] else dirs
  }

  /**
   * `create_dir` AS WRITTEN: for a missing directory it first opens the file
   * `.directory.lock` inside that directory, without create, so the open fails
   * with `NotFound` and no directory is ever created.
   */
  function CreateDirAsWritten(dirs: Dirs, path: Path): (r: Result<(), IoKind>)
    ensures r.Ok? <==> path in dirs
    ensures path !in dirs ==> r == Err(IoKind.NotFound)
  {
    if path in dirs then Ok(()) else Err(IoKind.NotFound)
  }

  /** `create_dir` fails only for a missing directory whose creation fails. */
  predicate CreateFails(dirs: Dirs, path: Path, create: CreateOutcome)
  {
    path !in dirs && create.CreateFailed?
  }

  // ---------------------------------------------------------------------------
  // The admission check of put, as written

  /**
   * `tokio::fs::read_dir(..).await.iter().count()`: iterating the `Result` yields
   * one item when the directory can be listed and none otherwise.
   */
  function ListedCount(listed: bool): (n: nat)
    ensures n <= 1
    ensures n == 1 <==> listed
  {
    if listed then 1 else 0
  }

  /** `limit - WRITE_LOCK_COUNT` on `usize`, which wraps around below 2. */
  function AdmissionThreshold(limit: usize): (t: usize)
    ensures limit >= WRITE_LOCK_COUNT ==> t == limit - WRITE_LOCK_COUNT
    ensures limit < WRITE_LOCK_COUNT ==> t >= USIZE_BOUND - WRITE_LOCK_COUNT
  {
    WrappingSub(limit, WRITE_LOCK_COUNT)
  }

  /**
   * The admission check refuses the put: the listed count reaches the threshold
   * and `get(key)` found nothing. A key that `get` finds always passes.
   */
  predicate CapacityRejects(listed: bool, limit: usize, probe: Option<Bytes>)
    ensures CapacityRejects(listed, limit, probe) ==> probe.None?
  {
    ListedCount(listed) >= AdmissionThreshold(limit) && probe.None?
  }

  /**
   * What the admission check amounts to: it refuses a key `get` cannot find when
   * the limit is 2, or when it is 3 and the directory can be listed, and never
   * otherwise, however many entries the directory holds.
   */
  lemma CapacityRejectsIff(listed: bool, limit: usize, probe: Option<Bytes>)
    ensures CapacityRejects(listed, limit, probe) <==> probe.None? && (limit == 2 || (limit == 3 && listed))
  {
    if limit < 2 {
      assert AdmissionThreshold(limit) >= USIZE_BOUND - 2;
    }
  }

  // ---------------------------------------------------------------------------
  // The blocking part of put: write the temporary entry, rename it onto the key

  /** What `metadata()` reports for a temporary entry that already exists. */
  datatype TmpMetadata = TmpMetadata(symlink: bool, readOnly: bool)

  /** The first step of the blocking write that fails, if any. */
  datatype StepFault =
    | StepsOk
    | LockOpenFails(kind: IoKind)
    | LockFails(kind: IoKind)
    | TmpOpenFails(kind: IoKind)
    | TmpLockFails(kind: IoKind)
    | WriteFails(kind: IoKind)
    | RenameFails(kind: IoKind)

  datatype StepOutcome = StepOutcome(result: Result<(), IoKind>, dirs: Dirs)

  /** Sets directory `path`'s entry `name` to `b`. */
  function SetEntry(dirs: Dirs, path: Path, name: string, b: Bytes): Dirs
    requires path in dirs
  {
    dirs[path := dirs[path].(entries := dirs[path].entries[name := b])]
  }

  /**
   * The guard on an existing temporary entry as intended: with metadata that does not
   * follow links (`symlink_metadata`), a symbolic link is `InvalidInput`, a read-only
   * file `PermissionDenied`.
   */
  function TmpGuard(dirs: Dirs, path: Path, key: string, meta: TmpMetadata): (r: Option<IoKind>)
    ensures r.None? <==> Entry(dirs, path, TmpName(key)).None? || (!meta.symlink && !meta.readOnly)
    ensures r.Some? ==> r.value == (if meta.symlink then InvalidInput else PermissionDenied)
  {
    if Entry(dirs, path, TmpName(key)).None? then None
    else if meta.symlink then Some(InvalidInput)
    else if meta.readOnly then Some(PermissionDenied)
    else None
  }

  /**
   * The guard AS WRITTEN: `metadata()` follows a symbolic link, so `is_symlink()` is
   * never true of what it returns; only a read-only entry (or link target) is refused.
   */
  function TmpGuardAsWritten(dirs: Dirs, path: Path, key: string, meta: TmpMetadata): (r: Option<IoKind>)
    ensures r.None? <==> Entry(dirs, path, TmpName(key)).None? || !meta.readOnly
    ensures r.Some? ==> r.value == PermissionDenied
  {
    if Entry(dirs, path, TmpName(key)).None? then None
    else if meta.readOnly then Some(PermissionDenied)
    else None
  }

  /**
   * A temporary entry that is a link to a writable file passes the guard as written,
   * so the write goes on through the link, while the intended guard refuses it.
   */
  lemma AsWrittenGuardPassesLink(dirs: Dirs, path: Path, key: string)
    requires Entry(dirs, path, TmpName(key)).Some?
    ensures TmpGuardAsWritten(dirs, path, key, TmpMetadata(true, false)).None?
    ensures TmpGuard(dirs, path, key, TmpMetadata(true, false)) == Some(InvalidInput)
  {
  }

  /**
   * The blocking write AS WRITTEN: the lock and temporary files are opened with
   * `File::open`, which neither creates a file nor opens it for writing. A missing
   * lock or temporary entry is `NotFound`, and when both exist the write through
   * the read-only handle fails (`EBADF`). It never succeeds and changes nothing.
   * Its guard is the one as written, which lets a link through.
   */
  function WriteThenRenameAsWritten(dirs: Dirs, path: Path, key: string, data: Bytes, meta: TmpMetadata, step: StepFault)
    : (o: StepOutcome)
    ensures o.result.Err? && o.dirs == dirs
  {
    StepOutcome(Err(AsWrittenWriteError(dirs, path, key, meta, step)), dirs)
  }

  /** The error the blocking write as written stops at, step by step. */
  function AsWrittenWriteError(dirs: Dirs, path: Path, key: string, meta: TmpMetadata, step: StepFault): IoKind
  {
    var guard := TmpGuardAsWritten(dirs, path, key, meta);
    if guard.Some? then guard.value
    else if Entry(dirs, path, LockName(key)).None? then IoKind.NotFound
    else if step.LockOpenFails? || step.LockFails? then step.kind
    else if Entry(dirs, path, TmpName(key)).None? then IoKind.NotFound
    else if step.TmpOpenFails? || step.TmpLockFails? then step.kind
    else Uncategorized
  }

  /**
   * The blocking write as evidently intended: the lock entry is opened with create
   * (kept if present), the temporary entry created or truncated, `data` written to
   * it and the temporary entry renamed onto the key. Opening anything inside a
   * missing directory is `NotFound`. A failing write leaves the temporary entry empty.
   */
  function WriteThenRename(dirs: Dirs, path: Path, key: string, data: Bytes, meta: TmpMetadata, step: StepFault)
    : (w: StepOutcome)
    ensures w.result.Ok? <==> TmpGuard(dirs, path, key, meta).None? && path in dirs && step.StepsOk?
    ensures TmpGuard(dirs, path, key, meta).Some? || path !in dirs ==> w.dirs == dirs
    ensures w.result.Ok? ==>
      && Entry(w.dirs, path, key) == Some(data)
      && Entry(w.dirs, path, TmpName(key)).None?
      && Entry(w.dirs, path, LockName(key)).Some?
  {
    var tmp := TmpName(key);
    var lock := LockName(key);
    SideNamesDistinct(key);
    var guard := TmpGuard(dirs, path, key, meta);
    if guard.Some? then StepOutcome(Err(guard.value), dirs)
    else if path !in dirs then StepOutcome(Err(IoKind.NotFound), dirs)
    else if step.LockOpenFails? then StepOutcome(Err(step.kind), dirs)
    else
      var d1 := if lock in dirs[path].entries then dirs else SetEntry(dirs, path, lock, []);
      if step.LockFails? || step.TmpOpenFails? then StepOutcome(Err(step.kind), d1)
      else
        var d2 := SetEntry(d1, path, tmp, []);
        if step.TmpLockFails? || step.WriteFails? then StepOutcome(Err(step.kind), d2)
        else
          var d3 := SetEntry(d2, path, tmp, data);
          if step.RenameFails? then StepOutcome(Err(step.kind), d3)
          else
            var renamed := (d3[path].entries - {tmp})[key := data];
            RenamedEntries(d1, path, key, tmp, lock, data);
            StepOutcome(Ok(()), d3[path := d3[path].(entries := renamed)])
  }

  // ---------------------------------------------------------------------------
  // put, as a function of the state before it

  /** How the 5 s timeout around the blocking write ends; an abandoned write may still finish. */
  datatype Deadline = InTime | Elapsed(workFinished: bool)

  /** Everything `put` learns from the operating system. */
  datatype PutIo = PutIo(
    create: CreateOutcome,   // create_dir, when the directory is missing
    listed: bool,            // whether read_dir of the directory succeeds
    probe: ReadFault,        // the get(key) of the admission check
    tmpMeta: TmpMetadata,    // metadata of an existing temporary entry
    step: StepFault,         // the blocking write
    deadline: Deadline)      // the timeout around the blocking write

  datatype PutOutcome = PutOutcome(result: Result<(), CacheableError>, dirs: Dirs)

  /** The admission check as `put` runs it, on the state after the directory step. */
  predicate AdmissionRejects(dirs: Dirs, c: FsCache, key: string, io: PutIo)
    requires c.access.ReadWrite?
  {
    CapacityRejects(io.listed && c.path in dirs, c.access.limit, Get(dirs, c, key, io.probe))
  }

  /**
   * `FsCache<ReadWrite>::put` with the corrected blocking write `WriteThenRename`
   * (as written, the write always fails: `WriteThenRenameAsWritten`): the result
   * and the directories afterwards. The checks
   * come in this order and each rejection leaves every entry as it was: invalid
   * key, empty data (`EmptyBuffer`), read-only directory (`ReadOnlyFilesystem`), a
   * failed `create_dir`, and the admission check (`StorageFull`).
   */
  function PutSpec(dirs: Dirs, c: FsCache, key: string, data: Bytes, io: PutIo): (o: PutOutcome)
    requires c.access.ReadWrite?
    ensures !ValidKey(key) ==> o == PutOutcome(Err(ValidateKey(key).error), dirs)
    ensures ValidKey(key) && data == [] ==> o == PutOutcome(Err(EmptyBuffer), dirs)
    ensures ValidKey(key) && data != [] && c.path in dirs && dirs[c.path].readOnly ==>
      o == PutOutcome(Err(Io(ReadOnlyFilesystem)), dirs)
    ensures ValidKey(key) && data != [] && CreateFails(dirs, c.path, io.create) ==>
      o == PutOutcome(Err(Io(io.create.kind)), dirs)
    ensures (ValidKey(key) && data != [] && !(c.path in dirs && dirs[c.path].readOnly)
             && !CreateFails(dirs, c.path, io.create)
             && AdmissionRejects(CreatedDirs(dirs, c.path, io.create), c, key, io)) ==>
      o == PutOutcome(Err(Io(StorageFull)), CreatedDirs(dirs, c.path, io.create))
    ensures io.deadline.Elapsed? ==> o.result.Err?
  {
    var v := ValidateKey(key);
    if v.Err? then PutOutcome(Err(v.error), dirs)
    else if data == [] then PutOutcome(Err(EmptyBuffer), dirs)
    else if c.path in dirs && dirs[c.path].readOnly then PutOutcome(Err(Io(ReadOnlyFilesystem)), dirs)
    else if CreateFails(dirs, c.path, io.create) then PutOutcome(Err(Io(io.create.kind)), dirs)
    else
      var d1 := CreatedDirs(dirs, c.path, io.create);
      if AdmissionRejects(d1, c, key, io) then PutOutcome(Err(Io(StorageFull)), d1)
      else
        var w := WriteThenRename(d1, c.path, key, data, io.tmpMeta, io.step);
        match io.deadline
        case InTime => PutOutcome(if w.result.Ok? then Ok(()) else Err(Io(w.result.error)), w.dirs)
        case Elapsed(finished) => PutOutcome(Err(Tokio), if finished then w.dirs else d1)
  }

  /**
   * A put that returns `Ok` has stored `data` under the key: a `get` that meets no
   * fault returns exactly `data`.
   */
  lemma {:induction false} PutThenGet(dirs: Dirs, c: FsCache, key: string, data: Bytes, io: PutIo)
    requires c.access.ReadWrite?
    ensures PutSpec(dirs, c, key, data, io).result.Ok? ==>
      Get(PutSpec(dirs, c, key, data, io).dirs, c, key, ReadOk) == Some(data)
  {
    var d1 := CreatedDirs(dirs, c.path, io.create);
    var o := PutSpec(dirs, c, key, data, io);
    if o.result.Ok? {
      assert ValidKey(key) && data != [] && !(c.path in dirs && dirs[c.path].readOnly);
      assert !CreateFails(dirs, c.path, io.create) && !AdmissionRejects(d1, c, key, io);
      SideNamesDistinct(key);
      var w := WriteThenRename(d1, c.path, key, data, io.tmpMeta, io.step);
      assert w.result.Ok? && o.dirs == w.dirs;
    }
  }

  /**
   * A put that fails before its timeout leaves the key's own entry as it was: the
   * temporary and lock entries are the only ones a failing write changes.
   */
  lemma {:induction false} FailedPutKeepsEntry(dirs: Dirs, c: FsCache, key: string, data: Bytes, io: PutIo)
    requires c.access.ReadWrite?
    requires io.deadline == InTime
    ensures PutSpec(dirs, c, key, data, io).result.Err? ==>
      Entry(PutSpec(dirs, c, key, data, io).dirs, c.path, key) == Entry(dirs, c.path, key)
  {
    var d1 := CreatedDirs(dirs, c.path, io.create);
    if ValidKey(key) && data != [] && !(c.path in dirs && dirs[c.path].readOnly)
       && !CreateFails(dirs, c.path, io.create) && !AdmissionRejects(d1, c, key, io) {
      SideNamesDistinct(key);
      FailedWriteKeepsEntry(d1, c.path, key, data, io.tmpMeta, io.step);
      assert Entry(d1, c.path, key) == Entry(dirs, c.path, key);
    }
  }

  /** A blocking write that fails changes only the temporary and lock entries. */
  lemma FailedWriteKeepsEntry(dirs: Dirs, path: Path, key: string, data: Bytes, meta: TmpMetadata, step: StepFault)
    requires key != TmpName(key) && key != LockName(key)
    ensures WriteThenRename(dirs, path, key, data, meta, step).result.Err? ==>
      Entry(WriteThenRename(dirs, path, key, data, meta, step).dirs, path, key) == Entry(dirs, path, key)
  {
    var w := WriteThenRename(dirs, path, key, data, meta, step);
    if TmpGuard(dirs, path, key, meta).Some? || path !in dirs {
      assert w.dirs == dirs;
    } else if step.LockOpenFails? {
      assert w.dirs == dirs;
    } else {
      var lock := LockName(key);
      var d1 := if lock in dirs[path].entries then dirs else SetEntry(dirs, path, lock, []);
      assert Entry(d1, path, key) == Entry(dirs, path, key);
      FailedStepsKeepEntry(d1, path, key, TmpName(key), data, step);
    }
  }

  /** The steps after the lock entry is opened leave the key's entry alone until the rename. */
  lemma FailedStepsKeepEntry(d1: Dirs, path: Path, key: string, tmp: string, data: Bytes, step: StepFault)
    requires path in d1 && key != tmp
    ensures var d2 := SetEntry(d1, path, tmp, []);
      && Entry(d2, path, key) == Entry(d1, path, key)
      && Entry(SetEntry(d2, path, tmp, data), path, key) == Entry(d1, path, key)
  {
  }

  /**
   * From `before` to `after`, nothing changed outside directory `path` and, inside
   * it, nothing but the entries in `names`; no directory disappeared or changed its
   * permissions, and only `path` may have appeared.
   */
  ghost predicate OnlyNamesChanged(before: Dirs, after: Dirs, path: Path, names: set<string>)
  {
    && (forall p :: p in before ==> p in after && after[p].readOnly == before[p].readOnly)
    && (forall p :: p in after && p !in before ==> p == path)
    && (forall p, n :: p != path ==> Entry(after, p, n) == Entry(before, p, n))
    && (forall n :: n !in names ==> Entry(after, path, n) == Entry(before, path, n))
  }

  lemma OnlyNamesChangedTrans(d0: Dirs, d1: Dirs, d2: Dirs, path: Path, names: set<string>)
    requires OnlyNamesChanged(d0, d1, path, names) && OnlyNamesChanged(d1, d2, path, names)
    ensures OnlyNamesChanged(d0, d2, path, names)
  {
  }

  lemma SetEntryTouchesOnlyItsName(dirs: Dirs, path: Path, name: string, b: Bytes, names: set<string>)
    requires path in dirs && name in names
    ensures OnlyNamesChanged(dirs, SetEntry(dirs, path, name, b), path, names)
  {
  }

  lemma WriteThenRenameTouchesOnlyItsNames(dirs: Dirs, path: Path, key: string, data: Bytes, meta: TmpMetadata, step: StepFault)
    ensures OnlyNamesChanged(dirs, WriteThenRename(dirs, path, key, data, meta, step).dirs, path,
                             {key, TmpName(key), LockName(key)})
  {
    var tmp := TmpName(key);
    var lock := LockName(key);
    var names := {key, tmp, lock};
    var after := WriteThenRename(dirs, path, key, data, meta, step).dirs;
    if TmpGuard(dirs, path, key, meta).Some? || path !in dirs || step.LockOpenFails? {
      assert after == dirs;
      return;
    }
    var d1 := if lock in dirs[path].entries then dirs else SetEntry(dirs, path, lock, []);
    if lock !in dirs[path].entries {
      SetEntryTouchesOnlyItsName(dirs, path, lock, [], names);
    }
    if step.LockFails? || step.TmpOpenFails? {
      assert after == d1;
      return;
    }
    var d2 := SetEntry(d1, path, tmp, []);
    SetEntryTouchesOnlyItsName(d1, path, tmp, [], names);
    OnlyNamesChangedTrans(dirs, d1, d2, path, names);
    if step.TmpLockFails? || step.WriteFails? {
      assert after == d2;
      return;
    }
    var d3 := SetEntry(d2, path, tmp, data);
    SetEntryTouchesOnlyItsName(d2, path, tmp, data, names);
    OnlyNamesChangedTrans(dirs, d2, d3, path, names);
    if step.RenameFails? {
      assert after == d3;
      return;
    }
    var d4 := d3[path := d3[path].(entries := (d3[path].entries - {tmp})[key := data])];
    assert after == d4;
    RenameTouchesOnlyItsNames(d3, path, tmp, key, data, names);
    OnlyNamesChangedTrans(dirs, d3, d4, path, names);
  }

  lemma CreatedDirsAddsNoEntry(dirs: Dirs, path: Path, create: CreateOutcome, names: set<string>)
    ensures OnlyNamesChanged(dirs, CreatedDirs(dirs, path, create), path, names)
  {
  }

  lemma RenameTouchesOnlyItsNames(dirs: Dirs, path: Path, from: string, to: string, b: Bytes, names: set<string>)
    requires path in dirs && from in names && to in names
    ensures OnlyNamesChanged(dirs, dirs[path := dirs[path].(entries := (dirs[path].entries - {from})[to := b])], path, names)
  {
  }

  /**
   * A put changes nothing outside its own directory, and inside it only the key,
   * its temporary entry and its lock entry. Directories keep their permissions,
   * none disappears, and only the store's own directory may appear.
   */
  lemma {:induction false} PutTouchesOnlyItsNames(dirs: Dirs, c: FsCache, key: string, data: Bytes, io: PutIo)
    requires c.access.ReadWrite?
    ensures OnlyNamesChanged(dirs, PutSpec(dirs, c, key, data, io).dirs, c.path, {key, TmpName(key), LockName(key)})
  {
    var names := {key, TmpName(key), LockName(key)};
    var after := PutSpec(dirs, c, key, data, io).dirs;
    var d1 := CreatedDirs(dirs, c.path, io.create);
    CreatedDirsAddsNoEntry(dirs, c.path, io.create, names);
    if !ValidKey(key) || data == [] || (c.path in dirs && dirs[c.path].readOnly) || CreateFails(dirs, c.path, io.create) {
      assert after == dirs;
      return;
    }
    if AdmissionRejects(d1, c, key, io) {
      assert after == d1;
      return;
    }
    var w := WriteThenRename(d1, c.path, key, data, io.tmpMeta, io.step);
    if io.deadline.Elapsed? && !io.deadline.workFinished {
      assert after == d1;
    } else {
      assert after == w.dirs;
      WriteThenRenameTouchesOnlyItsNames(d1, c.path, key, data, io.tmpMeta, io.step);
      OnlyNamesChangedTrans(dirs, d1, w.dirs, c.path, names);
    }
  }

  /**
   * When nothing fails, a put into a writable directory stores the data: for any
   * limit other than 2 and 3 always (0 and 1 wrap around to a huge threshold), and
   * for any limit when the key already has an entry (an overwrite is never refused
   * by the admission check). A leftover temporary entry that is neither a link nor
   * read-only is overwritten. The temporary entry is gone afterwards and the lock
   * entry stays behind.
   */
  lemma {:induction false} PutStoresWhenNothingFails(dirs: Dirs, c: FsCache, key: string, data: Bytes, io: PutIo)
    requires c.access.ReadWrite?
    requires ValidKey(key) && data != []
    requires c.path in dirs && !dirs[c.path].readOnly
    requires (c.access.limit != 2 && c.access.limit != 3) || (Entry(dirs, c.path, key).Some? && io.probe == ReadOk)
    requires TmpGuard(dirs, c.path, key, io.tmpMeta).None?
    requires io.step == StepsOk && io.deadline == InTime
    ensures PutSpec(dirs, c, key, data, io).result == Ok(())
    ensures Entry(PutSpec(dirs, c, key, data, io).dirs, c.path, key) == Some(data)
    ensures Entry(PutSpec(dirs, c, key, data, io).dirs, c.path, TmpName(key)).None?
    ensures Entry(PutSpec(dirs, c, key, data, io).dirs, c.path, LockName(key)).Some?
  {
    SideNamesDistinct(key);
    assert CreatedDirs(dirs, c.path, io.create) == dirs;
    CapacityRejectsIff(io.listed && c.path in dirs, c.access.limit, Get(dirs, c, key, io.probe));
    assert !AdmissionRejects(dirs, c, key, io);
    var w := WriteThenRename(dirs, c.path, key, data, io.tmpMeta, io.step);
    assert PutSpec(dirs, c, key, data, io) == PutOutcome(Ok(()), w.dirs) by {
      assert TmpGuard(dirs, c.path, key, io.tmpMeta).None?;
      assert w.result.Ok?;
    }
  }

  /** After the temporary entry is filled and renamed onto the key, the lock entry remains. */
  lemma RenamedEntries(d1: Dirs, path: Path, key: string, tmp: string, lock: string, data: Bytes)
    requires path in d1 && lock in d1[path].entries
    requires key != tmp && lock != tmp
    ensures var d3 := SetEntry(SetEntry(d1, path, tmp, []), path, tmp, data);
      var e := (d3[path].entries - {tmp})[key := data];
      lock in e && tmp !in e && key in e && e[key] == data
  {
  }

  /**
   * The write of any key into an empty directory (`key1` in the crate's
   * tests): the blocking write as written fails with `NotFound`, because the lock
   * entry does not exist, while the corrected write stores the data.
   */
  lemma AsWrittenPutFailsInEmptyDirectory(dirs: Dirs, path: Path, key: string, data: Bytes)
    requires path in dirs && dirs[path].entries == map[]
    ensures WriteThenRenameAsWritten(dirs, path, key, data, TmpMetadata(false, false), StepsOk).result
      == Err(IoKind.NotFound)
    ensures WriteThenRename(dirs, path, key, data, TmpMetadata(false, false), StepsOk).result == Ok(())
    ensures Entry(WriteThenRename(dirs, path, key, data, TmpMetadata(false, false), StepsOk).dirs, path, key)
      == Some(data)
  {
    assert Entry(dirs, path, TmpName(key)).None? && Entry(dirs, path, LockName(key)).None?;
  }

  // ---------------------------------------------------------------------------
  // The filesystem, and the operations that change it

  class FileSystem {
    var dirs: Dirs

    constructor (dirs: Dirs)
      ensures this.dirs == dirs
    {
      this.dirs := dirs;
    }

    /**
     * `create_dir`: nothing to do when the directory exists; otherwise the abstract
     * outcome decides whether it now exists and whether an error is returned.
     */
    method CreateDir(path: Path, create: CreateOutcome) returns (r: Result<(), IoKind>)
      modifies this
      ensures dirs == CreatedDirs(old(dirs), path, create)
      ensures r.Err? <==> CreateFails(old(dirs), path, create)
      ensures r.Err? ==> r.error == create.kind
    {
      if path in dirs {
        return Ok(());
      }
      match create
      case Created =>
        dirs := dirs[path := DirState(false, map[])];
        r := Ok(());
      case MkdirIgnored =>
        r := Ok(());
      case CreateFailed(kind) =>
        r := Err(kind);
    }

    /**
     * `FsCache<ReadWrite>::new_write`: creates a missing directory and returns the
     * store with the given limit, unless `create_dir` fails.
     */
    method NewWrite(path: Path, limit: usize, create: CreateOutcome) returns (r: Result<FsCache, IoKind>)
      modifies this
      ensures dirs == CreatedDirs(old(dirs), path, create)
      ensures CreateFails(old(dirs), path, create) ==> r == Err(create.kind)
      ensures !CreateFails(old(dirs), path, create) ==> r == Ok(FsCache(path, ReadWrite(limit)))
    {
      if path !in dirs {
        var made := CreateDir(path, create);
        if made.Err? {
          return Err(made.error);
        }
      }
      return Ok(FsCache(path, ReadWrite(limit)));
    }

    /** Replaces the entries of directory `path`, which exists. */
    method SetEntries(path: Path, entries: map<string, Bytes>)
      requires path in dirs
      modifies this
      ensures dirs == old(dirs)[path := old(dirs)[path].(entries := entries)]
    {
      dirs := dirs[path := dirs[path].(entries := entries)];
    }

    /** The blocking closure of `put`, step by step, with the opens corrected to create. */
    method WriteThenRenameSteps(path: Path, key: string, data: Bytes, meta: TmpMetadata, step: StepFault)
      returns (r: Result<(), IoKind>)
      modifies this
      ensures StepOutcome(r, dirs) == WriteThenRename(old(dirs), path, key, data, meta, step)
    {
      var tmp := TmpName(key);
      var lock := LockName(key);
      var guard := TmpGuard(dirs, path, key, meta);
      if guard.Some? {
        return Err(guard.value);
      }
      if path !in dirs {
        return Err(IoKind.NotFound);
      }
      if step.LockOpenFails? {
        return Err(step.kind);
      }
      var entries := dirs[path].entries;
      if lock !in entries {
        entries := entries[lock := []];
        SetEntries(path, entries);
      }
      if step.LockFails? || step.TmpOpenFails? {
        return Err(step.kind);
      }
      entries := entries[tmp := []];
      SetEntries(path, entries);
      if step.TmpLockFails? || step.WriteFails? {
        return Err(step.kind);
      }
      entries := entries[tmp := data];
      SetEntries(path, entries);
      if step.RenameFails? {
        return Err(step.kind);
      }
      entries := (entries - {tmp})[key := data];
      SetEntries(path, entries);
      r := Ok(());
    }

    /** `FsCache<ReadWrite>::put`, step by step, with the corrected blocking write. */
    method Put(c: FsCache, key: string, data: Bytes, io: PutIo) returns (r: Result<(), CacheableError>)
      requires c.access.ReadWrite?
      modifies this
      ensures PutOutcome(r, dirs) == PutSpec(old(dirs), c, key, data, io)
    {
      var v := ValidateKey(key);
      if v.Err? {
        return Err(v.error);
      }
      if |data| == 0 {
        return Err(EmptyBuffer);
      }
      if c.path !in dirs {
        var made := CreateDir(c.path, io.create);
        if made.Err? {
          return Err(Io(made.error));
        }
      } else if dirs[c.path].readOnly {
        return Err(Io(ReadOnlyFilesystem));
      }
      var count := ListedCount(io.listed && c.path in dirs);
      if count >= AdmissionThreshold(c.access.limit) && Get(dirs, c, key, io.probe).None? {
        return Err(Io(StorageFull));
      }
      var w: Result<(), IoKind> := Ok(());
      if io.deadline.InTime? || io.deadline.workFinished {
        w := WriteThenRenameSteps(c.path, key, data, io.tmpMeta, io.step);
      }
      if io.deadline.Elapsed? {
        return Err(Tokio);
      }
      r := if w.Ok? then Ok(()) else Err(Io(w.error));
    }
  }
}
