/**
 * The configuration records and their conversions into cache tiers: `MemoryCfg`
 * into an LRU cache, `DiskCfg` into a read-write store, `SideloadCfg` into a
 * read-only store. Each conversion is a short chain of checks with a distinct
 * error per case.
 */
module Configuration {
  import opened Wrappers
  import opened Primitives
  import opened Errors
  import Lru
  import opened Fs

  /** `ConfigurationError`; only its `Io` variant arises from the conversions. */
  datatype ConfigurationError = Io(kind: IoKind)

  // ---------------------------------------------------------------------------
  // Memory

  datatype MemoryCfg = MemoryCfg(disabled: bool, items: Option<usize>) {

    /**
     * `MemoryCfg::lru_cache`: disabled is `Other` whatever `items` says; a missing
     * or zero item count is `InvalidInput`; otherwise an empty cache of that capacity.
     */
    function LruCache(): (r: Result<Lru.LruCache, IoKind>)
      ensures disabled ==> r == Err(Other)
      ensures !disabled && items.None? ==> r == Err(InvalidInput)
      ensures !disabled && items == Some(0) ==> r == Err(InvalidInput)
      ensures r.Ok? <==> !disabled && items.Some? && items.value > 0
      ensures r.Ok? ==> r.value.Valid() && r.value.cap == items.value && r.value.Len() == 0
    {
      if disabled then Err(Other)
      else if items.Some? then
        if items.value > 0 then Ok(Lru.New(items.value)) else Err(InvalidInput)
      else Err(InvalidInput)
    }
  }

  /** `MemoryCfg::DEFAULT`. */
  const MEMORY_DEFAULT: MemoryCfg := MemoryCfg(false, None)

  /** The default memory configuration is enabled but has no item count, so it cannot be converted. */
  lemma MemoryDefaultIsInvalid()
    ensures !MEMORY_DEFAULT.disabled && MEMORY_DEFAULT.items.None?
    ensures MEMORY_DEFAULT.LruCache() == Err(InvalidInput)
  {
  }

  // ---------------------------------------------------------------------------
  // Disk

  datatype DiskCfg = DiskCfg(disabled: bool, path: Option<Path>, items: Option<usize>) {

    /**
     * `DiskCfg::as_fs_cache`: disabled is `Other`, checked first; a missing path or
     * item count is `InvalidInput`; with both present the result is exactly that of
     * `new_write(path, items)`, the item count passed on unvalidated.
     */
    function Converted(dirs: Dirs, create: CreateOutcome): (r: Result<FsCache, IoKind>)
      ensures disabled ==> r == Err(Other)
      ensures !disabled && (path.None? || items.None?) ==> r == Err(InvalidInput)
      ensures !disabled && path.Some? && items.Some? ==>
        r == (if CreateFails(dirs, path.value, create) then Err(create.kind)
              else Ok(FsCache(path.value, ReadWrite(items.value))))
    {
      if disabled then Err(Other)
      else if path.Some? && items.Some? then
        if CreateFails(dirs, path.value, create) then Err(create.kind)
        else Ok(FsCache(path.value, ReadWrite(items.value)))
      else Err(InvalidInput)
    }

    /** The directories after `as_fs_cache`: only an accepted configuration reaches `new_write`. */
    function DirsAfter(dirs: Dirs, create: CreateOutcome): Dirs
    {
      if !disabled && path.Some? && items.Some? then CreatedDirs(dirs, path.value, create) else dirs
    }

    /** `DiskCfg::as_fs_cache` on the filesystem object. */
    method AsFsCache(fs: FileSystem, create: CreateOutcome) returns (r: Result<FsCache, IoKind>)
      modifies fs
      ensures r == Converted(old(fs.dirs), create)
      ensures fs.dirs == DirsAfter(old(fs.dirs), create)
    {
      if disabled {
        return Err(Other);
      }
      if path.Some? && items.Some? {
        r := fs.NewWrite(path.value, items.value, create);
      } else {
        r := Err(InvalidInput);
      }
    }
  }

  /** `DiskCfg::DEFAULT`. */
  const DISK_DEFAULT: DiskCfg := DiskCfg(false, None, None)

  /** The default disk configuration has neither path nor item count, so it cannot be converted. */
  lemma DiskDefaultIsInvalid()
    ensures DISK_DEFAULT.path.None? && DISK_DEFAULT.items.None?
    ensures forall dirs, create :: DISK_DEFAULT.Converted(dirs, create) == Err(InvalidInput)
  {
  }

  // ---------------------------------------------------------------------------
  // Sideload

  /** `SideloadCfg`; `items` is an entry count that no conversion reads. */
  datatype SideloadCfg = SideloadCfg(disabled: bool, path: Option<Path>, items: Option<nat>) {

    /**
     * `SideloadCfg::new`: enabled, holding the path, with the number of entries of
     * the directory, or 0 when it does not exist. Listing an existing directory can
     * fail (`listing`), and that error is returned.
     */
    static function New(path: Path, dirs: Dirs, listing: Option<IoKind>): (r: Result<SideloadCfg, IoKind>)
      ensures path !in dirs ==> r == Ok(SideloadCfg(false, Some(path), Some(0)))
      ensures path in dirs && listing.Some? ==> r == Err(listing.value)
      ensures path in dirs && listing.None? ==>
        r == Ok(SideloadCfg(false, Some(path), Some(|dirs[path].entries|)))
    {
      if path in dirs then
        if listing.Some? then Err(listing.value)
        else Ok(SideloadCfg(false, Some(path), Some(|dirs[path].entries|)))
      else Ok(SideloadCfg(false, Some(path), Some(0)))
    }

    /**
     * `SideloadCfg::as_fs_cache`: disabled is `Other` before anything else; a
     * missing path field `InvalidInput`; a path that does not exist `NotFound`,
     * without `new_read` being consulted; otherwise exactly `new_read(path)`.
     */
    function AsFsCache(dirs: Dirs, fault: OpenFault): (r: Result<FsCache, IoKind>)
      ensures disabled ==> r == Err(Other)
      ensures !disabled && path.None? ==> r == Err(InvalidInput)
      ensures !disabled && path.Some? && path.value !in dirs ==> r == Err(IoKind.NotFound)
      ensures !disabled && path.Some? && path.value in dirs ==> r == NewRead(dirs, path.value, fault)
      ensures r.Ok? ==> path.Some? && r.value == FsCache(path.value, Read) && dirs[path.value].readOnly
    {
      if disabled then Err(Other)
      else if path.Some? then
        if path.value !in dirs then Err(IoKind.NotFound)
        else NewRead(dirs, path.value, fault)
      else Err(InvalidInput)
    }
  }

  /** `SideloadCfg::DEFAULT`. */
  const SIDELOAD_DEFAULT: SideloadCfg := SideloadCfg(false, None, None)

  /** The `items` field has no influence on `as_fs_cache`. */
  lemma SideloadItemsIrrelevant(cfg: SideloadCfg, items: Option<nat>, dirs: Dirs, fault: OpenFault)
    ensures cfg.(items := items).AsFsCache(dirs, fault) == cfg.AsFsCache(dirs, fault)
  {
  }

  /**
   * The existence check comes before `new_read`: a missing sideload directory is
   * `NotFound` even when `new_read` would have timed out.
   */
  lemma MissingSideloadIsNotFound(p: Path, dirs: Dirs)
    requires p !in dirs
    ensures SideloadCfg(false, Some(p), None).AsFsCache(dirs, DirOpenTimedOut) == Err(IoKind.NotFound)
    ensures NewRead(dirs, p, DirOpenTimedOut) == Err(TimedOut)
  {
  }

  /**
   * A configuration built by `new` converts into a read-only store exactly when
   * its directory exists, is read-only and can be opened and locked.
   */
  lemma {:induction false} NewThenAsFsCache(p: Path, dirs: Dirs, listing: Option<IoKind>, fault: OpenFault)
    requires SideloadCfg.New(p, dirs, listing).Ok?
    ensures var r := SideloadCfg.New(p, dirs, listing).value.AsFsCache(dirs, fault);
      && (r.Ok? <==> p in dirs && dirs[p].readOnly && fault == DirOpenOk)
      && (r.Ok? ==> r.value == FsCache(p, Read))
  {
  }

  // ---------------------------------------------------------------------------
  // The whole configuration

  /** `OmneCacheCfg`: each tier's configuration, if any. */
  datatype OmneCacheCfg = OmneCacheCfg(
    memory: Option<MemoryCfg>,
    sideload: Option<SideloadCfg>,
    disk: Option<DiskCfg>)
}
