/**
 * `OmneCache`, the tiered orchestrator: an optional memory tier (an LRU cache),
 * an optional read-only sideload store and an optional read-write disk store.
 * A lookup descends memory, sideload, disk and promotes a store hit into memory;
 * a write goes to memory and then to the disk.
 */
module OmneCache {
  import opened Wrappers
  import opened Primitives
  import opened Errors
  import opened Keys
  import opened Lru
  import opened Fs
  import Configuration

  /**
   * `build_key`: the physical key is the type's prefix, an underscore and the
   * entry's own key; the prefix and the key can be read back from it.
   */
  function BuildKey(prefix: string, key: string): (k: string)
    ensures |k| == |prefix| + 1 + |key|
    ensures k[..|prefix|] == prefix && k[|prefix|] == '_' && k[|prefix| + 1..] == key
  {
    prefix + "_" + key
  }

  /** Under one prefix, distinct keys give distinct physical keys. */
  lemma {:induction false} BuildKeyInjective(prefix: string, a: string, b: string)
    ensures BuildKey(prefix, a) == BuildKey(prefix, b) ==> a == b
  {
    if BuildKey(prefix, a) == BuildKey(prefix, b) {
      calc {
        a;
        BuildKey(prefix, a)[|prefix| + 1..];
        BuildKey(prefix, b)[|prefix| + 1..];
        b;
      }
    }
  }

  /** Across prefixes the underscore is ambiguous: two types can share a physical key. */
  lemma BuildKeyCollidesAcrossPrefixes()
    ensures BuildKey("a", "_b") == BuildKey("a_", "b") == "a__b"
  {
  }

  /** The physical key the tests look up for the entry `key1` of `String`. */
  lemma BuildKeyOfKey1()
    ensures BuildKey("CustomString", "key1") == "CustomString_key1"
  {
  }

  /**
   * The memory tier after a write of `k |-> v` to the tier `before`: still absent
   * when disabled, otherwise the LRU put.
   */
  ghost predicate Promoted(before: Option<LruCache>, after: Option<LruCache>, k: string, v: Bytes)
  {
    && (before.None? ==> after.None?)
    && (before.Some? ==> after.Some? && after.value.Valid() && IsPutOf(before.value, after.value, k, v))
  }

  /** What a store answers for `key`, or `None` when the tier is absent. */
  function StoreHit(store: Option<FsCache>, dirs: Dirs, key: string, fault: ReadFault): Option<Bytes>
  {
    if store.Some? then Fs.Get(dirs, store.value, key, fault) else None
  }

  /** A memory configuration `try_from` accepts: absent, disabled, or with a positive count. */
  predicate MemoryAccepted(cfg: Option<Configuration.MemoryCfg>)
  {
    cfg.None? || cfg.value.disabled || (cfg.value.items.Some? && cfg.value.items.value > 0)
  }

  /** A sideload configuration `try_from` accepts: absent, or enabled on a read-only directory it can lock. */
  predicate SideloadAccepted(cfg: Option<Configuration.SideloadCfg>, dirs: Dirs, fault: OpenFault)
  {
    cfg.None? ||
    (!cfg.value.disabled && cfg.value.path.Some? && cfg.value.path.value in dirs
     && dirs[cfg.value.path.value].readOnly && fault == DirOpenOk)
  }

  /** A disk configuration `try_from` accepts: absent, or enabled with a path and a count, and a directory that exists or can be made. */
  predicate DiskAccepted(cfg: Option<Configuration.DiskCfg>, dirs: Dirs, create: CreateOutcome)
  {
    cfg.None? ||
    (!cfg.value.disabled && cfg.value.path.Some? && cfg.value.items.Some?
     && !CreateFails(dirs, cfg.value.path.value, create))
  }

  /** The tiers `try_from` builds, in the order it builds them; the first error wins. */
  function Tiers(cfg: Configuration.OmneCacheCfg, dirs: Dirs, sideFault: OpenFault, create: CreateOutcome)
    : (r: Result<(Option<LruCache>, Option<FsCache>, Option<FsCache>), IoKind>)
    ensures r.Ok? <==>
      MemoryAccepted(cfg.memory) && SideloadAccepted(cfg.sideload, dirs, sideFault) && DiskAccepted(cfg.disk, dirs, create)
    ensures r.Ok? ==> (r.value ==
      (MemoryTier(cfg.memory).value, SideloadTier(cfg.sideload, dirs, sideFault).value, DiskTier(cfg.disk, dirs, create).value))
    ensures !MemoryAccepted(cfg.memory) ==> r == Err(MemoryTier(cfg.memory).error)
    ensures MemoryAccepted(cfg.memory) && !SideloadAccepted(cfg.sideload, dirs, sideFault) ==>
      r == Err(SideloadTier(cfg.sideload, dirs, sideFault).error)
    ensures (MemoryAccepted(cfg.memory) && SideloadAccepted(cfg.sideload, dirs, sideFault)
             && !DiskAccepted(cfg.disk, dirs, create)) ==> r == Err(DiskTier(cfg.disk, dirs, create).error)
    ensures cfg.sideload.Some? && cfg.sideload.value.disabled ==> r.Err?
    ensures cfg.disk.Some? && cfg.disk.value.disabled ==> r.Err?
    ensures r.Ok? ==> (r.value.1.Some? <==> cfg.sideload.Some?) && (r.value.2.Some? <==> cfg.disk.Some?)
    ensures r.Ok? && r.value.0.Some? ==> r.value.0.value.Valid()
  {
    var memory := MemoryTier(cfg.memory);
    var sideload := SideloadTier(cfg.sideload, dirs, sideFault);
    var disk := DiskTier(cfg.disk, dirs, create);
    if memory.Err? then Err(memory.error)
    else if sideload.Err? then Err(sideload.error)
    else if disk.Err? then Err(disk.error)
    else Ok((memory.value, sideload.value, disk.value))
  }

  /**
   * The memory tier: built only from a present, enabled configuration, as the LRU
   * cache `lru_cache` returns, with the configured capacity; its only error is
   * `InvalidInput`.
   */
  function MemoryTier(cfg: Option<Configuration.MemoryCfg>): (r: Result<Option<LruCache>, IoKind>)
    ensures (cfg.None? || cfg.value.disabled) ==> r == Ok(None)
    ensures r.Ok? <==> MemoryAccepted(cfg)
    ensures cfg.Some? && !cfg.value.disabled ==>
      r == (if cfg.value.LruCache().Ok? then Ok(Some(cfg.value.LruCache().value)) else Err(cfg.value.LruCache().error))
    ensures r.Ok? && r.value.Some? ==>
      && r.value.value.Valid() && r.value.value.Len() == 0
      && cfg.Some? && cfg.value.items.Some? && r.value.value.cap == cfg.value.items.value
    ensures r.Err? ==> r.error == InvalidInput
  {
    if cfg.Some? && !cfg.value.disabled then
      var l := cfg.value.LruCache();
      if l.Ok? then Ok(Some(l.value)) else Err(l.error)
    else Ok(None)
  }

  /**
   * The sideload tier: built from a present configuration, whether or not it is
   * disabled, as `as_fs_cache` returns: a read store on the configured path.
   */
  function SideloadTier(cfg: Option<Configuration.SideloadCfg>, dirs: Dirs, fault: OpenFault)
    : (r: Result<Option<FsCache>, IoKind>)
    ensures cfg.None? ==> r == Ok(None)
    ensures cfg.Some? && cfg.value.disabled ==> r == Err(Other)
    ensures r.Ok? <==> SideloadAccepted(cfg, dirs, fault)
    ensures cfg.Some? && r.Ok? ==> r.value == Some(FsCache(cfg.value.path.value, Read))
    ensures cfg.Some? && r.Err? ==> r.error == cfg.value.AsFsCache(dirs, fault).error
  {
    if cfg.Some? then
      var s := cfg.value.AsFsCache(dirs, fault);
      if s.Ok? then Ok(Some(s.value)) else Err(s.error)
    else Ok(None)
  }

  /**
   * The disk tier: built from a present configuration, whether or not it is
   * disabled, as `as_fs_cache` returns: a read-write store on the configured path
   * with the configured limit.
   */
  function DiskTier(cfg: Option<Configuration.DiskCfg>, dirs: Dirs, create: CreateOutcome)
    : (r: Result<Option<FsCache>, IoKind>)
    ensures cfg.None? ==> r == Ok(None)
    ensures cfg.Some? && cfg.value.disabled ==> r == Err(Other)
    ensures r.Ok? <==> DiskAccepted(cfg, dirs, create)
    ensures cfg.Some? && r.Ok? ==> r.value == Some(FsCache(cfg.value.path.value, ReadWrite(cfg.value.items.value)))
    ensures cfg.Some? && r.Err? ==> r.error == cfg.value.Converted(dirs, create).error
  {
    if cfg.Some? then
      var d := cfg.value.Converted(dirs, create);
      if d.Ok? then Ok(Some(d.value)) else Err(d.error)
    else Ok(None)
  }

  /** `try_from` touches the filesystem only through the disk conversion, which it reaches last. */
  function DirsAfterTiers(cfg: Configuration.OmneCacheCfg, dirs: Dirs, sideFault: OpenFault, create: CreateOutcome): Dirs
  {
    if MemoryTier(cfg.memory).Ok? && SideloadTier(cfg.sideload, dirs, sideFault).Ok? && cfg.disk.Some? then
      cfg.disk.value.DirsAfter(dirs, create)
    else dirs
  }

  class OmneCache {
    var memory: Option<LruCache>
    var sideload: Option<FsCache>
    var disk: Option<FsCache>

    /** The tiers' types: a non-zero capacity, a read-only sideload, a read-write disk. */
    ghost predicate Valid()
      reads this
    {
      && (memory.Some? ==> memory.value.Valid())
      && (sideload.Some? ==> sideload.value.access == Read)
      && (disk.Some? ==> disk.value.access.ReadWrite?)
    }

    /** The struct literal the tests build. */
    constructor (memory: Option<LruCache>, sideload: Option<FsCache>, disk: Option<FsCache>)
      requires memory.Some? ==> memory.value.Valid()
      requires sideload.Some? ==> sideload.value.access == Read
      requires disk.Some? ==> disk.value.access.ReadWrite?
      ensures this.memory == memory && this.sideload == sideload && this.disk == disk
      ensures Valid()
    {
      this.memory := memory;
      this.sideload := sideload;
      this.disk := disk;
    }

    /**
     * `OmneCache::try_from`: builds memory (only when configured and enabled),
     * then sideload, then disk; the first conversion error is returned as a
     * `ConfigurationError`.
     */
    static method TryFrom(cfg: Configuration.OmneCacheCfg, fs: FileSystem, sideFault: OpenFault, create: CreateOutcome)
      returns (r: Result<OmneCache, Configuration.ConfigurationError>)
      modifies fs
      ensures var t := Tiers(cfg, old(fs.dirs), sideFault, create);
        && (t.Err? ==> r == Err(Configuration.ConfigurationError.Io(t.error)))
        && (t.Ok? ==> r.Ok? && fresh(r.value) && r.value.Valid()
                      && (r.value.memory, r.value.sideload, r.value.disk) == t.value)
      ensures fs.dirs == DirsAfterTiers(cfg, old(fs.dirs), sideFault, create)
    {
      var dirs := fs.dirs;
      var memory := MemoryTier(cfg.memory);
      if memory.Err? {
        assert Tiers(cfg, dirs, sideFault, create) == Err(memory.error);
        return Err(Configuration.ConfigurationError.Io(memory.error));
      }
      var sideload := SideloadTier(cfg.sideload, dirs, sideFault);
      if sideload.Err? {
        assert Tiers(cfg, dirs, sideFault, create) == Err(sideload.error);
        return Err(Configuration.ConfigurationError.Io(sideload.error));
      }
      var disk: Option<FsCache> := None;
      if cfg.disk.Some? {
        var d := cfg.disk.value.AsFsCache(fs, create);
        assert d == cfg.disk.value.Converted(dirs, create);
        if d.Err? {
          assert Tiers(cfg, dirs, sideFault, create) == Err(d.error);
          return Err(Configuration.ConfigurationError.Io(d.error));
        }
        disk := Some(d.value);
      }
      assert DiskTier(cfg.disk, dirs, create) == Ok(disk);
      assert Tiers(cfg, dirs, sideFault, create) == Ok((memory.value, sideload.value, disk));
      var cache := new OmneCache(memory.value, sideload.value, disk);
      r := Ok(cache);
    }

    /** `memory.put(key, value)`; a full cache evicts one entry other than `key`. */
    method PutMemory(key: string, value: Bytes)
      requires Valid()
      modifies this
      ensures Valid() && sideload == old(sideload) && disk == old(disk)
      ensures Promoted(old(memory), memory, key, value)
    {
      if memory.Some? {
        var m := memory.value;
        var victim := key;
        if m.MustEvict(key) {
          NonEmptyHasKey(m.entries);
          victim :| victim in m.entries;
        }
        memory := Some(m.Put(key, value, victim));
      }
    }

    /**
     * `OmneCache::get`: a memory hit is returned with nothing else consulted; else a
     * sideload hit, promoted into memory, without the disk being consulted; else a
     * disk hit, promoted into memory; else `NotFound` with nothing written. No store
     * is ever written.
     */
    method Get(fs: FileSystem, prefix: string, natural: string, sideFault: ReadFault, diskFault: ReadFault)
      returns (r: Result<Bytes, CacheableError>)
      requires Valid()
      modifies this
      ensures Valid() && sideload == old(sideload) && disk == old(disk)
      ensures var key := BuildKey(prefix, natural);
        var sideHit := StoreHit(sideload, fs.dirs, key, sideFault);
        var diskHit := StoreHit(disk, fs.dirs, key, diskFault);
        if old(memory).Some? && old(memory).value.Get(key).Some? then
          r == Ok(old(memory).value.Get(key).value) && memory == old(memory)
        else if sideHit.Some? then
          r == Ok(sideHit.value) && Promoted(old(memory), memory, key, sideHit.value)
        else if diskHit.Some? then
          r == Ok(diskHit.value) && Promoted(old(memory), memory, key, diskHit.value)
        else
          r == Err(CacheableError.NotFound) && memory == old(memory)
    {
      var key := BuildKey(prefix, natural);
      if memory.Some? {
        var data := memory.value.Get(key);
        if data.Some? {
          return Ok(data.value);
        }
      }
      if sideload.Some? {
        var data := Fs.Get(fs.dirs, sideload.value, key, sideFault);
        if data.Some? {
          PutMemory(key, data.value);
          return Ok(data.value);
        }
      }
      if disk.Some? {
        var data := Fs.Get(fs.dirs, disk.value, key, diskFault);
        if data.Some? {
          PutMemory(key, data.value);
          return Ok(data.value);
        }
      }
      r := Err(CacheableError.NotFound);
    }

    /**
     * `OmneCache::put`: with memory enabled the value goes into memory first and
     * stays there whatever the disk answers; the disk put's result is returned. With
     * memory disabled only the disk is written, and with neither tier the result is
     * an `Other` I/O error. The sideload directory is never written.
     */
    method Put(fs: FileSystem, prefix: string, natural: string, value: Bytes, io: PutIo)
      returns (r: Result<(), CacheableError>)
      requires Valid()
      modifies this, fs
      ensures Valid() && sideload == old(sideload) && disk == old(disk)
      ensures Promoted(old(memory), memory, BuildKey(prefix, natural), value)
      ensures disk.Some? ==>
        PutOutcome(r, fs.dirs) == PutSpec(old(fs.dirs), disk.value, BuildKey(prefix, natural), value, io)
      ensures disk.None? && memory.Some? ==> r == Ok(()) && fs.dirs == old(fs.dirs)
      ensures disk.None? && memory.None? ==> r == Err(CacheableError.Io(Other)) && fs.dirs == old(fs.dirs)
      ensures sideload.Some? && (disk.None? || disk.value.path != sideload.value.path) ==>
        forall n :: Entry(fs.dirs, sideload.value.path, n) == Entry(old(fs.dirs), sideload.value.path, n)
    {
      var key := BuildKey(prefix, natural);
      if disk.Some? {
        PutTouchesOnlyItsNames(fs.dirs, disk.value, key, value, io);
      }
      if memory.Some? {
        PutMemory(key, value);
        if disk.Some? {
          r := fs.Put(disk.value, key, value, io);
          return;
        }
        return Ok(());
      }
      if disk.Some? {
        r := fs.Put(disk.value, key, value, io);
        return;
      }
      r := Err(CacheableError.Io(Other));
    }
  }

  /**
   * A put followed by a get of the same entry. With memory enabled the get returns
   * the value put, whatever the disk answered. With memory disabled a successful
   * disk put is read back, unless the sideload tier holds the key: it is consulted
   * first and shadows the disk.
   */
  method PutThenGetEntry(cache: OmneCache, fs: FileSystem, prefix: string, natural: string, value: Bytes,
                         io: PutIo, sideFault: ReadFault)
    returns (put: Result<(), CacheableError>, got: Result<Bytes, CacheableError>)
    requires cache.Valid()
    modifies cache, fs
    ensures old(cache.memory).Some? ==> got == Ok(value)
    ensures old(cache.memory).None? && put.Ok? ==>
      var sideHit := StoreHit(cache.sideload, fs.dirs, BuildKey(prefix, natural), sideFault);
      got == Ok(if sideHit.Some? then sideHit.value else value)
  {
    put := cache.Put(fs, prefix, natural, value, io);
    if cache.disk.Some? {
      Fs.PutThenGet(old(fs.dirs), cache.disk.value, BuildKey(prefix, natural), value, io);
    }
    got := cache.Get(fs, prefix, natural, sideFault, ReadOk);
  }

  /** The bytes of an ASCII string. */
  function AsciiBytes(s: string): Bytes
  {
    seq(|s|, i requires 0 <= i < |s| => (s[i] as int) % 256)
  }

  /** A `PutIo` in which nothing fails. */
  const QUIET_IO: PutIo := PutIo(Created, true, ReadOk, TmpMetadata(false, false), StepsOk, InTime)

  /**
   * The sequence of `test_key_collision`: a memory-only cache of capacity 100
   * misses `key1`, holds exactly one entry after putting it, misses `key2`, and
   * after putting `key2` returns each value under its own key.
   */
  method KeyCollisionScenario()
    returns (miss1: Result<Bytes, CacheableError>, p1: Result<(), CacheableError>, len: nat,
             stored: Option<Bytes>, miss2: Result<Bytes, CacheableError>, p2: Result<(), CacheableError>,
             got1: Result<Bytes, CacheableError>, got2: Result<Bytes, CacheableError>)
    ensures miss1 == Err(CacheableError.NotFound) && miss2 == Err(CacheableError.NotFound)
    ensures p1 == Ok(()) && p2 == Ok(())
    ensures len == 1 && stored == Some(AsciiBytes("hello world!"))
    ensures got1 == Ok(AsciiBytes("hello world!")) && got2 == Ok(AsciiBytes("hello world 2!"))
  {
    var v1, v2 := AsciiBytes("hello world!"), AsciiBytes("hello world 2!");
    var k1, k2 := BuildKey("CustomString", "key1"), BuildKey("CustomString", "key2");
    BuildKeyOfKey1();
    assert k1 != k2 by {
      BuildKeyInjective("CustomString", "key1", "key2");
      assert "key1"[3] != "key2"[3];
    }
    var fs := new FileSystem(map[]);
    var cache := new OmneCache(Some(Lru.New(100)), None, None);
    miss1 := cache.Get(fs, "CustomString", "key1", ReadOk, ReadOk);
    p1 := cache.Put(fs, "CustomString", "key1", v1, QUIET_IO);
    assert cache.memory.value.entries == map[k1 := v1];
    len := cache.memory.value.Len();
    stored := cache.memory.value.Get("CustomString_key1");
    miss2 := cache.Get(fs, "CustomString", "key2", ReadOk, ReadOk);
    assert cache.memory.value.entries == map[k1 := v1];
    p2 := cache.Put(fs, "CustomString", "key2", v2, QUIET_IO);
    assert cache.memory.value.entries == map[k1 := v1, k2 := v2];
    got1 := cache.Get(fs, "CustomString", "key1", ReadOk, ReadOk);
    assert cache.memory.value.entries == map[k1 := v1, k2 := v2];
    got2 := cache.Get(fs, "CustomString", "key2", ReadOk, ReadOk);
  }

  /**
   * The sequence of `test_insert_duplicate_key`: a second put on the same entry
   * replaces the value and the memory tier still holds one entry.
   */
  method DuplicateKeyScenario()
    returns (miss: Result<Bytes, CacheableError>, p1: Result<(), CacheableError>, len1: nat,
             p2: Result<(), CacheableError>, len2: nat, got: Result<Bytes, CacheableError>)
    ensures miss == Err(CacheableError.NotFound)
    ensures p1 == Ok(()) && p2 == Ok(())
    ensures len1 == 1 && len2 == 1
    ensures got == Ok(AsciiBytes("hello world 2!"))
  {
    var v1, v2 := AsciiBytes("hello world!"), AsciiBytes("hello world 2!");
    var k := BuildKey("CustomString", "key");
    var fs := new FileSystem(map[]);
    var cache := new OmneCache(Some(Lru.New(100)), None, None);
    miss := cache.Get(fs, "CustomString", "key", ReadOk, ReadOk);
    p1 := cache.Put(fs, "CustomString", "key", v1, QUIET_IO);
    assert cache.memory.value.entries == map[k := v1];
    len1 := cache.memory.value.Len();
    var g := cache.Get(fs, "CustomString", "key", ReadOk, ReadOk);
    assert cache.memory.value.entries == map[k := v1];
    p2 := cache.Put(fs, "CustomString", "key", v2, QUIET_IO);
    assert cache.memory.value.entries == map[k := v2];
    len2 := cache.memory.value.Len();
    got := cache.Get(fs, "CustomString", "key", ReadOk, ReadOk);
  }

  /**
   * With memory and disk enabled, an empty value is refused by the disk
   * (`EmptyBuffer`), yet memory already holds it and a get returns it.
   */
  method EmptyValueScenario() returns (put: Result<(), CacheableError>, got: Result<Bytes, CacheableError>)
    ensures put == Err(EmptyBuffer)
    ensures got == Ok([])
  {
    var k := BuildKey("CustomString", "key1");
    var disk := FsCache("cache", ReadWrite(100));
    var fs := new FileSystem(map["cache" := DirState(false, map[])]);
    var cache := new OmneCache(Some(Lru.New(100)), None, Some(disk));
    assert ValidKey(k) by {
      BuildKeyOfKey1();
      CustomStringKey1IsValid();
    }
    assert PutSpec(fs.dirs, disk, k, [], QUIET_IO).result == Err(EmptyBuffer);
    put := cache.Put(fs, "CustomString", "key1", [], QUIET_IO);
    assert cache.memory.value.entries == map[k := []];
    got := cache.Get(fs, "CustomString", "key1", ReadOk, ReadOk);
  }

  /** A quiet put into a writable directory with no leftover temporary entry is read back. */
  lemma DiskPutThenHit(dirs: Dirs, disk: FsCache, key: string, data: Bytes)
    requires disk.access == ReadWrite(100) && disk.path in dirs && !dirs[disk.path].readOnly
    requires ValidKey(key) && data != [] && Entry(dirs, disk.path, TmpName(key)).None?
    ensures PutSpec(dirs, disk, key, data, QUIET_IO).result == Ok(())
    ensures StoreHit(Some(disk), PutSpec(dirs, disk, key, data, QUIET_IO).dirs, key, ReadOk) == Some(data)
    ensures Entry(PutSpec(dirs, disk, key, data, QUIET_IO).dirs, disk.path, LockName(key)).Some?
  {
    PutStoresWhenNothingFails(dirs, disk, key, data, QUIET_IO);
  }

  /**
   * A disk-only cache: a put into an empty writable directory succeeds, a get reads
   * the value back from the disk, and the lock entry of the key stays behind.
   */
  method DiskOnlyScenario(prefix: string, natural: string, data: Bytes)
    returns (put: Result<(), CacheableError>, got: Result<Bytes, CacheableError>, lockLeft: bool)
    requires ValidKey(BuildKey(prefix, natural)) && data != []
    ensures put == Ok(()) && got == Ok(data)
    ensures lockLeft
  {
    var k := BuildKey(prefix, natural);
    var disk := FsCache("cache", ReadWrite(100));
    var fs := new FileSystem(map["cache" := DirState(false, map[])]);
    var cache := new OmneCache(None, None, Some(disk));
    DiskPutThenHit(fs.dirs, disk, k, data);
    ghost var spec := PutSpec(fs.dirs, disk, k, data, QUIET_IO);
    put := cache.Put(fs, prefix, natural, data, QUIET_IO);
    assert put == spec.result && fs.dirs == spec.dirs;
    got := cache.Get(fs, prefix, natural, ReadOk, ReadOk);
    lockLeft := Entry(fs.dirs, "cache", LockName(k)).Some?;
  }

  /**
   * A sideload hit is returned and promoted into memory even though the disk holds
   * another value and would have timed out; the next get is answered by memory
   * although the sideload read would now fail.
   */
  method SideloadScenario(prefix: string, natural: string, v: Bytes, w: Bytes)
    returns (first: Result<Bytes, CacheableError>, second: Result<Bytes, CacheableError>)
    requires ValidKey(BuildKey(prefix, natural))
    ensures first == Ok(v) && second == Ok(v)
  {
    var k := BuildKey(prefix, natural);
    var side := FsCache("side", Read);
    var disk := FsCache("cache", ReadWrite(100));
    var fs := new FileSystem(map["side" := DirState(true, map[k := v]), "cache" := DirState(false, map[k := w])]);
    var cache := new OmneCache(Some(Lru.New(100)), Some(side), Some(disk));
    assert Entry(fs.dirs, "side", k) == Some(v);
    assert StoreHit(Some(side), fs.dirs, k, ReadOk) == Some(v);
    assert Lru.New(100).Get(k).None?;
    first := cache.Get(fs, prefix, natural, ReadOk, ReadTimedOut);
    assert cache.memory.value.Get(k) == Some(v);
    second := cache.Get(fs, prefix, natural, ReadTimedOut, ReadOk);
  }

  /** The physical key of `key1` passes `validate_key`. */
  lemma CustomStringKey1IsValid()
    ensures ValidKey("CustomString_key1")
  {
    var k := "CustomString_key1";
    assert forall i :: 0 <= i < |k| ==> k[i] != '/' && (k[i] as int) < 0x80;
    SingleNameIsValid(k);
  }

  lemma NonEmptyHasKey(m: map<string, Bytes>)
    requires |m| > 0
    ensures exists k :: k in m
  {
    assert m.Keys != {} by {
      assert |m.Keys| == |m|;
    }
  }
}
