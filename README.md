# OmneCache in Dafny

A model of the core of OmneCache (`byte-cache`), a tiered byte cache. It covers:

- the filesystem store `FsCache<T>`:
  - key validation (`validate_key`);
  - the naming of the temporary and lock entries with `Path::with_extension`;
  - `get`, `new_read`, `new_write` and `put`;
- the orchestrator `OmneCache` with its optional memory, sideload and disk tiers (`try_from`, `build_key`, `get`, `put`);
- the configuration conversions `MemoryCfg::lru_cache`, `DiskCfg::as_fs_cache`, `SideloadCfg::new` and `SideloadCfg::as_fs_cache`.

Files and modules:

- `Wrappers.dfy`: `Option` and `Result`.
- `Primitives.dfy`: bytes, `usize` and its wrapping subtraction.
- `Errors.dfy`: `CacheableError` and the `std::io::ErrorKind`s the core produces.
- `Keys.dfy`: `validate_key` over Unix `Path::components`, UTF-8 byte length, and `with_extension`.
- `Lru.dfy`: the memory tier as a bounded map with `get`, `put` and `len`.
- `Fs.dfy`: the filesystem and the store.
  - A `FileSystem` object maps each existing directory to its read-only flag and its entries.
  - `get` and `new_read` are functions of that state.
  - `create_dir`, `new_write` and `put` are methods that change it.
  - `put` is proved against the specification function `PutSpec`, and the properties of `put` are lemmas about `PutSpec`.
- `Configuration.dfy`: the configuration records and their conversions.
- `OmneCache.dfy`: the orchestrator class, and the sequences of the crate's own tests as methods with proved outcomes.

Everything the operating system decides is an explicit input, never a guess:

- a failing open or lock, and the 5-second timeouts;
- whether `read_dir` succeeds;
- how `create_dir` ends;
- the metadata flags of an existing temporary file.

The following behaviours of the code are modelled as written:

- `validate_key` accepts `a/b`, `.hidden` and keys containing NUL, because it only checks that every path component is a plain name. The doc comment of `validate_key` says `/` is refused. The model follows the code.
- The length limit counts UTF-8 bytes (`str::len`), not characters.
- `with_extension(".tmp")` turns `key1` into `key1..tmp` and `a.b` into `a..tmp`. So the keys `a.b` and `a.c` share their temporary and lock names. These side names are themselves valid keys (`Keys.SideNamesAreKeys`).
- The admission check of `put` counts the `Result` of `read_dir`, which is one item when the listing succeeds and none otherwise. It compares that count with `limit - 2` in wrapping `usize` arithmetic. So it refuses a key that `get` cannot find only when the limit is 2, or when the limit is 3 and the directory can be listed. It never looks at the number of entries (`Fs.CapacityRejectsIff`).
- With memory enabled, `OmneCache::put` writes memory before the disk, and memory keeps the value when the disk refuses it. So an empty value is refused with `EmptyBuffer` and is still returned by the next `get` (`OmneCache.EmptyValueScenario`).
- The lock entry of a key is never removed.

Every member about a successful disk `put` (`Fs.PutSpec`, `Fs.FileSystem.Put`, `Fs.PutThenGet`, `Fs.PutStoresWhenNothingFails`, `OmneCache.OmneCache.Put`, `OmneCache.DiskPutThenHit`, `OmneCache.DiskOnlyScenario`) uses the corrected blocking write `Fs.WriteThenRename` described under "## Findings". As written, every disk `put` that reaches the blocking write fails (`Fs.WriteThenRenameAsWritten`) and changes no entry. Two consequences hold only with the corrected write:

- A `put` of `a.b` overwrites and then renames away a value stored under the key `a..tmp`, whose entry is gone afterwards (`Fs.WriteThenRename`, `Keys.SideNamesAreKeys`). It also opens and locks the entry of the key `a..lock`.
- A temporary entry that is a link to a writable file passes the guard as written (`Fs.AsWrittenGuardPassesLink`). The corrected write would then write through the link to its target. As written, the write through the read-only handle fails instead.

## Model

| member | source | states |
|---|---|---|
| Primitives.WrappingSub | src/fs.rs:358 | `usize` subtraction: the plain difference when it is not negative, otherwise the difference wrapped modulo 2^64 |
| Keys.Utf8Width | src/fs.rs:440 | one character takes 1 to 4 bytes, and exactly 1 iff it is ASCII |
| Keys.Utf8LenBounds | src/fs.rs:440 | a key's byte length lies between its character count and four times it, and equals the count iff the key is ASCII |
| Keys.Split | src/fs.rs:447-448 | splitting a path at `/` always gives at least one segment |
| Keys.Components | src/fs.rs:446-447 | Unix `Path::components`: a root comes first exactly for an absolute path; a `.` component appears only first in a relative path; every other component is `..` or a plain name that is never empty, `.` or `..` |
| Keys.ValidateKey | src/fs.rs:434-461 | an empty key, and only an empty key, gives `EmptyKey`; a non-empty key over 255 bytes gives `InvalidInput`; no other error is possible |
| Keys.SegmentComponentsNormal | src/fs.rs:447-458 | once a root and a leading `.` are set aside, every component is a plain name iff no segment is `..` |
| Keys.KeyAcceptedIff | src/fs.rs:434-461 | a key is accepted iff it is non-empty, at most 255 bytes, does not start with `/`, has no leading `.` segment and no `..` segment |
| Keys.LengthLimitIsInBytes | src/fs.rs:440-445 | 255 one-byte characters pass and 256 do not; 128 two-byte characters (256 bytes) do not pass either |
| Keys.AcceptsSeparatorBetweenNames | src/fs.rs:447-460 | `a/b` is accepted |
| Keys.AcceptsLeadingDotName | src/fs.rs:447-460 | `.hidden` is accepted |
| Keys.AcceptsNul | src/fs.rs:434-461 | a key containing NUL is accepted |
| Keys.RejectedShapes | src/fs.rs:447-458 | `/a`, `./a`, `.` and `a/../b` are refused |
| Keys.SingleNameIsValid | src/fs.rs:434-461 | a non-empty ASCII name of at most 255 characters, without `/` and other than `.` and `..`, is accepted |
| Keys.TrimTrailing | src/fs.rs:371-372 | the trimmed path is a prefix of the path that ends in neither `/` nor a `/.` segment; everything removed is a `/` or a `.` right after a `/`; a path ending in an ordinary character is kept whole |
| Keys.NameStart | src/fs.rs:371-372 | the file name starts at 0 or right after a `/`, and holds no `/`; so it starts right after the last `/` |
| Keys.LastDot | src/fs.rs:371-372 | the position found holds a `.` and no later position does; when none is found the name has no `.` |
| Keys.Stem | src/fs.rs:371-372 | the file stem is a prefix of the name; when shorter, it is not empty and is followed by the name's last `.` |
| Keys.StemCutsAtInnerDot | src/fs.rs:371-372 | the stem is shorter than the name iff the name is not `..` and has a `.` past its first character; with `Keys.Stem` this puts the cut at the last such `.` |
| Keys.WithExtension | src/fs.rs:371-372 | for a non-empty extension the result ends in `.` and the extension, and what comes before is a prefix of the path (the exact kept part is `Keys.WithExtensionOfPath`) |
| Keys.WithExtensionOfPath | src/fs.rs:371-372 | a path made of a directory part (empty or ending in `/`) and a last name that is a file name (not `.` or `..`) becomes the directory part, the name's stem, `.` and the extension as given: `a/b.c` with `.tmp` gives `a/b..tmp` |
| Keys.WithExtensionIgnoresTrailingSlash | src/fs.rs:371-372 | a trailing `/` does not change the result |
| Keys.WithExtensionIgnoresTrailingCurDir | src/fs.rs:371-372 | a trailing `/.` segment does not change the result |
| Keys.TmpName | src/fs.rs:372 | the temporary name never equals the key |
| Keys.TmpNameOfPath | src/fs.rs:372 | a key made of a directory part and a last name that is a file name (not `.` or `..`) gets the temporary name: directory part, stem, `.`, `.tmp` |
| Keys.LockName | src/fs.rs:371 | the lock name never equals the key |
| Keys.LockNameOfPath | src/fs.rs:371 | a key made of a directory part and a last name that is a file name (not `.` or `..`) gets the lock name: directory part, stem, `.`, `.lock` |
| Keys.WithDottedExtensionDiffers | src/fs.rs:371-372 | an extension that starts with `.` and ends in an ordinary character never gives back the path it extends |
| Keys.SideNamesDistinct | src/fs.rs:371-372 | the temporary name, the lock name and the key are three different names |
| Keys.SideNamesOfDotlessName | src/fs.rs:371-372 | a key that is one name with no `.` and no `/` keeps all of itself before `..tmp` and `..lock` |
| Keys.SideNamesOfKey1 | src/fs.rs:371-372 | `key1` gives `key1..tmp` and `key1..lock` |
| Keys.StemOfAB | src/fs.rs:371-372 | the names `a.b` and `a.c` have the same stem `a` |
| Keys.KeysAB | src/fs.rs:434-461 | `a.b` and `a.c` are valid keys |
| Keys.DistinctKeysShareSideNames | src/fs.rs:371-372 | the keys `a.b` and `a.c` share the temporary name `a..tmp` and the lock name `a..lock` |
| Keys.SideNamesAreKeys | src/fs.rs:371-372 | the temporary and lock names of every ASCII single-name key of at most 249 bytes other than `.` and `..` are themselves valid keys |
| Keys.TmpNameIsKey | src/fs.rs:372 | the temporary name of such a key passes `validate_key` |
| Keys.LockNameIsKey | src/fs.rs:371 | the lock name of such a key passes `validate_key` |
| Lru.LruCache.Get | src/lib.rs:192 | a lookup finds a value iff the key is present, and returns the stored value |
| Lru.LruCache.Put | src/lib.rs:202 | a put keeps the capacity bound; the key then maps to the new value; other entries are kept unless one is evicted; a full cache evicts only for a new key |
| Lru.New | src/configuration/memory_conf.rs:62-64 | a new cache is empty and has the requested non-zero capacity |
| Lru.PutPresentKeepsLen | src/lib.rs:381-387 | replacing a present key keeps the number of entries |
| Fs.Get | src/fs.rs:98-139 | `get` returns bytes iff the key is valid, the entry exists and nothing fails; they are exactly the stored bytes; every other case is `None` |
| Fs.NewRead | src/fs.rs:156-195 | a timeout gives `TimedOut`; a missing path gives `NotFound`; a failed lock gives `ResourceBusy`; a writable directory gives `PermissionDenied`; only a read-only directory gives a read store holding the given path |
| Fs.CreateDirAsWritten | src/fs.rs:214-247 | as written, `create_dir` succeeds iff the directory already exists; for a missing directory it fails with `NotFound` |
| Fs.ListedCount | src/fs.rs:357 | counting the `read_dir` result gives 1 exactly when the listing succeeds, and 0 otherwise |
| Fs.AdmissionThreshold | src/fs.rs:358 | `limit - WRITE_LOCK_COUNT` is the plain difference for a limit of at least 2; below 2 it wraps to at least 2^64 - 2 |
| Fs.CapacityRejects | src/fs.rs:357-366 | the admission check refuses only a key that `get` cannot find |
| Fs.CapacityRejectsIff | src/fs.rs:357-366 | the admission check refuses iff `get` finds nothing and the limit is 2, or the limit is 3 and the directory can be listed |
| Fs.WriteThenRenameAsWritten | src/fs.rs:370-413 | as written, the blocking write always fails and changes no entry |
| Fs.TmpGuardAsWritten | src/fs.rs:374-390 | as written, `metadata()` follows links, so the guard refuses an existing temporary entry only when it (or the file it links to) is read-only, with `PermissionDenied`; it never gives `InvalidInput` |
| Fs.AsWrittenGuardPassesLink | src/fs.rs:374-390 | an existing temporary entry that links to a writable file passes the guard as written, and is refused with `InvalidInput` by the corrected guard |
| Fs.TmpGuard | src/fs.rs:374-390 | the corrected guard of "## Findings" (metadata that does not follow links): an existing temporary entry that is a link gives `InvalidInput`, one that is read-only gives `PermissionDenied`; a missing one, or an ordinary writable one, passes |
| Fs.WriteThenRename | src/fs.rs:370-413 | the corrected blocking write succeeds iff the temporary-entry guard passes, the directory exists and no step fails; a refusal by the guard or a missing directory changes nothing; on success the key holds the data, the temporary entry is gone and the lock entry exists |
| Fs.PutSpec | src/fs.rs:320-416 | `put`, with the corrected blocking write of "## Findings": it rejects in order: invalid key, empty data (`EmptyBuffer`), read-only directory (`ReadOnlyFilesystem`), failed directory creation, admission check (`StorageFull`); each rejection leaves every entry unchanged; an elapsed timeout is always an error |
| Fs.PutThenGet | src/fs.rs:368-412 | after a `put` that returns `Ok`, a `get` that meets no fault returns exactly the data put |
| Fs.FailedPutKeepsEntry | src/fs.rs:368-412 | a `put` that fails before its timeout leaves the key's own entry as it was |
| Fs.WriteThenRenameTouchesOnlyItsNames | src/fs.rs:370-413 | the blocking write changes only the key, its temporary entry and its lock entry, in its own directory |
| Fs.PutTouchesOnlyItsNames | src/fs.rs:320-416 | `put` changes only the key, its temporary entry and its lock entry in its own directory; no directory disappears or changes permissions; only its own directory can appear |
| Fs.PutStoresWhenNothingFails | src/fs.rs:340-412 | with the corrected blocking write and no faults, a `put` into a writable directory succeeds and stores the data for any limit other than 2 and 3, and for any limit when the key already has an entry; a leftover temporary entry that is neither a link nor read-only is overwritten; afterwards the temporary entry is gone and the lock entry stays |
| Fs.AsWrittenPutFailsInEmptyDirectory | src/fs.rs:392-397 | in an empty directory, the write of any key (`key1` in the tests) as written fails with `NotFound`, while the corrected write stores the data |
| Fs.FileSystem.CreateDir | src/fs.rs:214-247 | an existing directory is left alone; otherwise the outcome decides whether a writable empty directory appears and whether an error is returned |
| Fs.FileSystem.NewWrite | src/fs.rs:270-283 | the directory is created when missing; the result is a read-write store with the given limit, unless `create_dir` fails |
| Fs.FileSystem.WriteThenRenameSteps | src/fs.rs:370-413 | the step-by-step blocking write leaves the result and entries that `WriteThenRename` specifies |
| Fs.FileSystem.Put | src/fs.rs:320-416 | the step-by-step `put`, with the corrected blocking write, returns the result and leaves the entries that `PutSpec` specifies |
| Configuration.MemoryCfg.LruCache | src/configuration/memory_conf.rs:54-77 | disabled gives `Other` whatever `items` is; missing or zero `items` gives `InvalidInput`; otherwise an empty cache of capacity `items` |
| Configuration.MemoryDefaultIsInvalid | src/configuration/memory_conf.rs:94-98 | the default is enabled with no item count, so converting it gives `InvalidInput` |
| Configuration.DiskCfg.Converted | src/configuration/disk_conf.rs:80-96 | disabled gives `Other`, checked first; a missing path or item count gives `InvalidInput`; otherwise exactly the outcome of `new_write(path, items)`, with `items` unvalidated |
| Configuration.DiskCfg.AsFsCache | src/configuration/disk_conf.rs:80-96 | the conversion returns what `Converted` specifies and touches the filesystem only through `new_write` |
| Configuration.DiskDefaultIsInvalid | src/configuration/disk_conf.rs:114-118 | the default has neither path nor item count, so converting it gives `InvalidInput` |
| Configuration.SideloadCfg.New | src/configuration/sideload_conf.rs:55-68 | the result is enabled and holds the path; `items` is the directory's entry count, or 0 when the path does not exist; a listing error is returned |
| Configuration.SideloadCfg.AsFsCache | src/configuration/sideload_conf.rs:94-120 | disabled gives `Other` first; no path gives `InvalidInput`; a path that does not exist gives `NotFound`; otherwise exactly `new_read(path)` |
| Configuration.SideloadItemsIrrelevant | src/configuration/sideload_conf.rs:94-120 | the `items` field has no influence on the conversion |
| Configuration.MissingSideloadIsNotFound | src/configuration/sideload_conf.rs:106-113 | a missing directory gives `NotFound` even where `new_read` would have timed out |
| Configuration.NewThenAsFsCache | src/configuration/sideload_conf.rs:55-120 | a configuration built by `new` converts iff its directory exists, is read-only and can be opened and locked, and the store holds that path |
| OmneCache.BuildKey | src/lib.rs:169-171 | the physical key is the prefix, `_` and the key, and both parts can be read back from it |
| OmneCache.BuildKeyInjective | src/lib.rs:169-171 | under one prefix, distinct keys give distinct physical keys |
| OmneCache.BuildKeyCollidesAcrossPrefixes | src/lib.rs:170 | prefix `a` with key `_b` and prefix `a_` with key `b` give the same physical key |
| OmneCache.BuildKeyOfKey1 | src/lib.rs:330-340 | the entry `key1` of the test type has the physical key `CustomString_key1` |
| OmneCache.CustomStringKey1IsValid | src/fs.rs:434-461 | `CustomString_key1` passes key validation |
| OmneCache.Tiers | src/lib.rs:141-165 | construction succeeds iff the memory config is absent, disabled or has a positive count, the sideload config is absent or enabled on an existing read-only directory that can be locked, and the disk config is absent or enabled with a path and a count whose directory exists or is created; the tiers are then exactly those the three conversions return; otherwise the first failing conversion's error, in the order memory, sideload, disk |
| OmneCache.MemoryTier | src/lib.rs:143-146 | an absent or disabled memory config gives no tier; an enabled one gives exactly what `lru_cache` returns: an empty valid cache with the configured capacity, or `InvalidInput` |
| OmneCache.SideloadTier | src/lib.rs:149-152 | an absent config gives no tier; a present one gives what `as_fs_cache` returns, even when disabled (then `Other`): a read store on the configured path exactly when it names an existing read-only directory that can be locked, and otherwise that conversion's error |
| OmneCache.DiskTier | src/lib.rs:155-158 | an absent config gives no tier; a present one gives what `as_fs_cache` returns, even when disabled (then `Other`): a read-write store with the configured path and limit exactly when both are set and the directory exists or is created, and otherwise that conversion's error |
| OmneCache.OmneCache.constructor | src/lib.rs:129-138 | the three tiers are stored as given |
| OmneCache.OmneCache.TryFrom | src/lib.rs:141-165 | construction returns the tiers `Tiers` builds, or its first error as a `ConfigurationError`; only the disk conversion touches the filesystem |
| OmneCache.OmneCache.PutMemory | src/lib.rs:231 | the memory tier, when enabled, receives the put, and no other tier changes |
| OmneCache.OmneCache.Get | src/lib.rs:187-222 | a memory hit returns with memory unchanged; otherwise a sideload hit, then a disk hit, is returned and promoted into memory; a sideload hit does not depend on the disk; a miss everywhere gives `NotFound` with memory unchanged |
| OmneCache.OmneCache.Put | src/lib.rs:224-255 | memory receives the value when enabled, whatever the disk answers; the disk result is `PutSpec`'s; no disk gives `Ok` with memory enabled and `Io(Other)` without; the sideload directory is never written |
| OmneCache.PutThenGetEntry | src/lib.rs:187-255 | with memory enabled, a get after a put returns the value put; with memory disabled, a successful disk put is read back unless the sideload tier holds the key |
| OmneCache.KeyCollisionScenario | src/lib.rs:302-358 | the test's sequence: misses, both puts return `Ok`, one entry after the first put, and each value under its own key after both puts |
| OmneCache.DuplicateKeyScenario | src/lib.rs:360-395 | both puts return `Ok`; the second put on the same entry replaces the value and the memory tier keeps one entry |
| OmneCache.EmptyValueScenario | src/lib.rs:229-243 | with memory and disk, an empty value gives `EmptyBuffer` but is still returned by the next get |
| OmneCache.DiskPutThenHit | src/lib.rs:246-249 | with the corrected blocking write, a quiet put into a writable disk directory of limit 100 with no leftover temporary entry succeeds, a disk read of the key then returns the value, and the lock entry is present |
| OmneCache.DiskOnlyScenario | src/lib.rs:246-249 | with the corrected blocking write of "## Findings", a disk-only cache stores and reads back any non-empty value under any valid physical key, and the key's lock entry stays behind (as written, the put fails: `Fs.AsWrittenPutFailsInEmptyDirectory`) |
| OmneCache.SideloadScenario | src/lib.rs:198-218 | for any valid physical key, a sideload hit wins over a disk holding another value and is promoted; the next get is answered by memory although the sideload read then fails |

## Left out

- The file-descriptor limit check of `put` (src/fs.rs:322-338): it reads operating-system state (`getrlimit`, `/proc/self/fd`).
- Tokio: `spawn_blocking` and `timeout` are sequential steps. A timeout is an input. In `put` an abandoned blocking write may or may not complete (`Deadline.Elapsed`).
- Advisory locks (`fs2`) and `UnlockGuard`: only their visible outcomes are kept. In `get` a failed lock gives `None`; in `new_read` it gives `ResourceBusy`; in `put` it is the error of that step.
- `create_dir` is abstract (`CreateOutcome`). The outcome `MkdirIgnored` stands for the `mkdir` error discarded at src/fs.rs:231-239. The 0o700 mode is not modelled.
- `BufWriter`, `sync_all` and rename atomicity. A failing write leaves the temporary entry empty; partial contents are not modelled.
- Failures of `metadata()` calls (src/fs.rs:175, 346 and 375) are not modelled as errors. Symlink handling of the temporary file is reduced to two input flags: whether the entry is a link, and whether it (or the file it links to) is read-only. A dangling link is not modelled; `exists()` reports it missing.
- Keys.WithExtension: its own contract states only that the result ends in `.` and the extension after a prefix of the path. The exact result is given by `Keys.WithExtensionOfPath`, with `Keys.WithExtensionIgnoresTrailingSlash` and `Keys.WithExtensionIgnoresTrailingCurDir` for trailing `/` and `/.`; together they fix it for every path whose last component is a file name, so for every valid key. For a path whose last component is not a file name (empty, `/`, `.`, `..`) Rust leaves the path unchanged while the model appends the extension; `validate_key` rejects every such key, so `put` never names one.
- Fs.TmpGuard: models the guard as evidently intended, which detects a link; as written it never does (`Fs.TmpGuardAsWritten`, see "## Findings"). The corrected `put` uses it.
- Directory structure below a store: a key containing `/` is one name in its directory's map. Subdirectories, and keys that name directories, are not modelled.
- The eviction order of `lru::LruCache`, and the recency update a memory `get` performs: the evicted entry is any one other than the key put.
- `C::Value::try_from`: values are returned as bytes, as the test type's conversion does. `Cacheable::key` is a given string and `PREFIX` a parameter. `Request::fetch` is never called by the cache.
- TOML (de)serialisation, `Display` strings, `From` conversions, the `Nix` and payload-carrying variants of the errors, and the parse variants of `ConfigurationError`.
- In a debug build, `limit - WRITE_LOCK_COUNT` panics when `limit < 2`. The model follows the release build, which wraps.
- Configuration.SideloadCfg.New: the entry count is a `nat`, not bounded by `usize`.
- A path that exists is taken to be a directory. `new_read` and `put` check the path only with `exists()` and the read-only flag, so a regular file at the store path is not modelled: the model has no files outside a directory's entries.
- OmneCache.OmneCache.Get: does not model the recency update of the LRU on a memory hit; memory is stated unchanged.

## Findings

| source | as written | input that shows it | evidently intended | confidence | as-written member | corrected member |
|---|---|---|---|---|---|---|
| src/fs.rs:392-408 | the lock and temporary files are opened with `File::open`, which neither creates a file nor opens it for writing | `put("key1", [1])` into an empty writable directory: opening `key1..lock` fails with `NotFound`; had both files existed, the write through the read-only handle would fail | open the lock file with create and the temporary file with create, write and truncate, so the data is written and renamed onto the key (`Fs.PutThenGet`, `Fs.PutStoresWhenNothingFails`) | not executed | Fs.WriteThenRenameAsWritten | Fs.WriteThenRename |
| src/fs.rs:375-377 | `tmp_path.metadata()` follows symbolic links, so `is_symlink()` on its result is never true | a temporary entry `key1..tmp` that is a link to a writable file: the guard passes (`Fs.AsWrittenGuardPassesLink`); with the corrected write the data then goes through the link to its target (as written, the write through the read-only handle fails) | read the entry with `symlink_metadata()`, so a link is refused with `InvalidInput` | not executed | Fs.TmpGuardAsWritten | Fs.TmpGuard |
| src/fs.rs:222-225 | `create_dir` opens `.directory.lock` inside the directory it is about to create, without create | `new_write("cache", 100)` when `cache` does not exist: the open fails with `NotFound` and no directory is created | create the missing directory (`Fs.FileSystem.CreateDir` with the outcome `Created`) | not executed | Fs.CreateDirAsWritten | Fs.FileSystem.CreateDir |
