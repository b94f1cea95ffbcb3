/**
 * Cache-key validation (`validate_key`) and the names of the temporary and lock
 * entries that `put` derives from a key with `Path::with_extension`.
 *
 * Keys are Rust `&str`s: a `string` here, whose length in bytes is the length of
 * its UTF-8 encoding. Paths follow the Unix rules of `Path::components`.
 */
module Keys {
  import opened Wrappers
  import opened Errors

  /** The longest key, in bytes, that `validate_key` admits. */
  const MAX_KEY_BYTES: nat := 255

  // ---------------------------------------------------------------------------
  // Byte length of a key

  /** Number of bytes in the UTF-8 encoding of one scalar value. */
  function Utf8Width(c: char): (w: nat)
    ensures 1 <= w <= 4
    ensures w == 1 <==> (c as int) < 0x80
  {
    if (c as int) < 0x80 then 1
    else if (c as int) < 0x800 then 2
    else if (c as int) < 0x10000 then 3
    else 4
  }

  /** `str::len`: the number of bytes of the UTF-8 encoding of `s`. */
  function Utf8Len(s: string): nat
  {
    if s == [] then 0 else Utf8Width(s[0]) + Utf8Len(s[1..])
  }

  predicate IsAscii(s: string)
  {
    forall i :: 0 <= i < |s| ==> (s[i] as int) < 0x80
  }

  /** Every character takes at least one byte, and exactly one when it is ASCII. */
  lemma {:induction false} Utf8LenBounds(s: string)
    ensures |s| <= Utf8Len(s) <= 4 * |s|
    ensures Utf8Len(s) == |s| <==> IsAscii(s)
  {
    if s != [] {
      Utf8LenBounds(s[1..]);
      assert IsAscii(s) <==> (s[0] as int) < 0x80 && IsAscii(s[1..]) by {
        if (s[0] as int) < 0x80 && IsAscii(s[1..]) {
          forall i | 0 <= i < |s| ensures (s[i] as int) < 0x80 {
            if i > 0 { assert s[i] == s[1..][i - 1]; }
          }
        }
        if IsAscii(s) {
          forall i | 0 <= i < |s[1..]| ensures (s[1..][i] as int) < 0x80 {
            assert s[1..][i] == s[i + 1];
          }
        }
      }
    }
  }

  // ---------------------------------------------------------------------------
  // Path::components on Unix

  datatype Component = RootDir | CurDir | ParentDir | Normal(name: string)

  /** The text between separators: `s` split at every `'/'`, empty pieces kept. */
  function Split(s: string): (segs: seq<string>)
    ensures |segs| >= 1
  {
    if s == [] then [[]]
    else if s[0] == '/' then [[]] + Split(s[1..])
    else var rest := Split(s[1..]); [[s[0]] + rest[0]] + rest[1..]
  }

  predicate HasRoot(path: string)
  {
    path != [] && path[0] == '/'
  }

  /** A relative path whose first segment is `.` yields a leading `CurDir`. */
  predicate HasCurDir(path: string)
  {
    !HasRoot(path) && Split(path)[0] == "."
  }

  /** The components of the segments after the root or leading `.`: empty and `.` segments vanish. */
  function SegmentComponents(segs: seq<string>): (cs: seq<Component>)
    ensures forall i :: 0 <= i < |cs| ==> cs[i] == ParentDir || PlainName(cs[i])
  {
    if segs == [] then [] else SegmentHead(segs[0]) + SegmentComponents(segs[1..])
  }

  /** The components one segment contributes. */
  function SegmentHead(s: string): seq<Component>
  {
    if s == [] || s == "." then [] else if s == ".." then [ParentDir] else [Normal(s)]
  }

  /** A `Normal` component: never empty, `.` or `..`. */
  predicate PlainName(c: Component)
  {
    c.Normal? && c.name != [] && c.name != "." && c.name != ".."
  }

  /**
   * `Path::components` on Unix: a root comes first, a leading `.` only in a relative
   * path, and every other component is `..` or a plain name.
   */
  function Components(path: string): (cs: seq<Component>)
    ensures HasRoot(path) <==> |cs| > 0 && cs[0] == RootDir
    ensures forall i :: 0 <= i < |cs| && cs[i] == CurDir ==> i == 0 && !HasRoot(path)
    ensures forall i :: 0 <= i < |cs| ==> cs[i] == RootDir || cs[i] == CurDir ==> i == 0
    ensures forall i :: 0 <= i < |cs| && cs[i].Normal? ==> PlainName(cs[i])
  {
    var segs := Split(path);
    (if HasRoot(path) then [RootDir] else [])
    + (if HasCurDir(path) then [CurDir] else [])
    + SegmentComponents(if HasCurDir(path) then segs[1..] else segs)
  }

  predicate AllNormal(cs: seq<Component>)
  {
    forall i :: 0 <= i < |cs| ==> cs[i].Normal?
  }

  // ---------------------------------------------------------------------------
  // validate_key

  /**
   * `validate_key`: an empty key is `EmptyKey`; a key over 255 bytes, or one with a
   * component that is not a plain name, is an `InvalidInput` I/O error.
   */
  function ValidateKey(key: string): (r: Result<(), CacheableError>)
    ensures key == [] <==> r == Err(EmptyKey)
    ensures key != [] && Utf8Len(key) > MAX_KEY_BYTES ==> r == Err(Io(InvalidInput))
    ensures r.Err? ==> r.error in {EmptyKey, Io(InvalidInput)}
  {
    if key == [] then Err(EmptyKey)
    else if Utf8Len(key) > MAX_KEY_BYTES then Err(Io(InvalidInput))
    else if !AllNormal(Components(key)) then Err(Io(InvalidInput))
    else Ok(())
  }

  predicate ValidKey(key: string)
  {
    ValidateKey(key).Ok?
  }

  /** Only `..` segments turn into non-`Normal` components once root and leading `.` are gone. */
  lemma {:induction false} SegmentComponentsNormal(segs: seq<string>)
    ensures AllNormal(SegmentComponents(segs)) <==> ".." !in segs
  {
    if segs != [] {
      var s := segs[0];
      SegmentComponentsNormal(segs[1..]);
      AllNormalConcat(SegmentHead(s), SegmentComponents(segs[1..]));
      if s == ".." {
        assert SegmentHead(s)[0] == ParentDir;
      }
      assert ".." in segs <==> s == ".." || ".." in segs[1..] by {
        assert segs == [s] + segs[1..];
      }
    }
  }

  lemma AllNormalConcat(a: seq<Component>, b: seq<Component>)
    ensures AllNormal(a + b) <==> AllNormal(a) && AllNormal(b)
  {
    if AllNormal(a + b) {
      forall i | 0 <= i < |a| ensures a[i].Normal? {
        assert (a + b)[i] == a[i];
      }
      forall i | 0 <= i < |b| ensures b[i].Normal? {
        assert (a + b)[|a| + i] == b[i];
      }
    }
  }

  /**
   * What `validate_key` accepts, said without components: a non-empty key of at most
   * 255 bytes that does not start with `/`, has no leading `.` segment and no `..`
   * segment. Nothing else (a `/` between names, a leading dot in a name, a NUL) is refused.
   */
  lemma KeyAcceptedIff(key: string)
    ensures ValidKey(key) <==>
      && key != []
      && Utf8Len(key) <= MAX_KEY_BYTES
      && key[0] != '/'
      && Split(key)[0] != "."
      && ".." !in Split(key)
  {
    var segs := Split(key);
    if key != [] && !HasRoot(key) {
      if HasCurDir(key) {
        assert Components(key)[0] == CurDir;
      } else {
        assert Components(key) == SegmentComponents(segs);
        SegmentComponentsNormal(segs);
      }
    } else if key != [] {
      assert Components(key)[0] == RootDir;
    }
  }

  /** A key without `/` is a single segment. */
  lemma {:induction false} SplitNoSeparator(s: string)
    requires forall i :: 0 <= i < |s| ==> s[i] != '/'
    ensures Split(s) == [s]
  {
    if s != [] {
      SplitNoSeparator(s[1..]);
      assert [s[0]] + s[1..] == s;
    }
  }

  /** A single ASCII name other than `.` and `..`, short enough, is a valid key. */
  lemma SingleNameIsValid(k: string)
    requires 0 < |k| <= MAX_KEY_BYTES && IsAscii(k)
    requires forall i :: 0 <= i < |k| ==> k[i] != '/'
    requires k != "." && k != ".."
    ensures ValidKey(k)
  {
    SplitNoSeparator(k);
    Utf8LenBounds(k);
    KeyAcceptedIff(k);
  }

  /** Exactly 255 one-byte characters pass; 256 do not; 128 two-byte characters do not either. */
  lemma LengthLimitIsInBytes()
    ensures ValidKey(seq(255, _ => 'k'))
    ensures ValidateKey(seq(256, _ => 'k')) == Err(Io(InvalidInput))
    ensures ValidateKey(seq(128, _ => 'é')) == Err(Io(InvalidInput))
  {
    var k255: string := seq(255, _ => 'k');
    Utf8LenBounds(k255);
    Utf8LenBounds(seq(256, _ => 'k'));
    SplitNoSeparator(k255);
    KeyAcceptedIff(k255);
    Utf8TwoByteLen(seq(128, _ => 'é'));
  }

  lemma {:induction false} Utf8TwoByteLen(s: string)
    requires forall i :: 0 <= i < |s| ==> s[i] == 'é'
    ensures Utf8Len(s) == 2 * |s|
  {
    if s != [] { Utf8TwoByteLen(s[1..]); }
  }

  /** A segment without `/` followed by a separator splits off as the first piece. */
  lemma {:induction false} SplitAtSeparator(a: string, rest: string)
    requires forall i :: 0 <= i < |a| ==> a[i] != '/'
    ensures Split(a + "/" + rest) == [a] + Split(rest)
  {
    if a == [] {
      assert a + "/" + rest == ['/'] + rest;
      assert (['/'] + rest)[1..] == rest;
    } else {
      SplitAtSeparator(a[1..], rest);
      assert (a + "/" + rest)[1..] == a[1..] + "/" + rest;
      assert [a[0]] + a[1..] == a;
    }
  }

  /** The code accepts a `/` between two names, which its doc comment says is refused. */
  lemma AcceptsSeparatorBetweenNames()
    ensures ValidKey("a/b")
  {
    SplitNoSeparator("b");
    SplitAtSeparator("a", "b");
    assert "a" + "/" + "b" == "a/b";
    Utf8LenBounds("a/b");
    KeyAcceptedIff("a/b");
  }

  /** A name with a leading dot is a plain component and is accepted. */
  lemma AcceptsLeadingDotName()
    ensures ValidKey(".hidden")
  {
    SplitNoSeparator(".hidden");
    Utf8LenBounds(".hidden");
    KeyAcceptedIff(".hidden");
  }

  /** NUL is never looked for. */
  lemma AcceptsNul()
    ensures ValidKey("a\U{0}b")
  {
    SplitNoSeparator("a\U{0}b");
    Utf8LenBounds("a\U{0}b");
    KeyAcceptedIff("a\U{0}b");
  }

  /** A root, a leading `.` segment and a `..` segment are each refused. */
  lemma RejectedShapes()
    ensures !ValidKey("/a") && !ValidKey("./a") && !ValidKey(".") && !ValidKey("a/../b")
  {
    KeyAcceptedIff("/a");
    RejectsCurDir();
    RejectsParentDir();
  }

  lemma RejectsCurDir()
    ensures !ValidKey("./a") && !ValidKey(".")
  {
    SplitAtSeparator(".", "a");
    assert "." + "/" + "a" == "./a";
    KeyAcceptedIff("./a");
    SplitNoSeparator(".");
    KeyAcceptedIff(".");
  }

  lemma RejectsParentDir()
    ensures !ValidKey("a/../b")
  {
    SplitAtSeparator("..", "b");
    SplitAtSeparator("a", "../b");
    assert ".." + "/" + "b" == "../b";
    assert "a" + "/" + "../b" == "a/../b";
    assert ".." in Split("a/../b");
    KeyAcceptedIff("a/../b");
  }

  // ---------------------------------------------------------------------------
  // Path::with_extension, which names the temporary and lock entries of a key

  /** Drops the trailing separators and trailing `.` segments that `components` ignores. */
  function TrimTrailing(path: string): (t: string)
    ensures |t| <= |path| && t == path[..|t|]
    ensures t == [] || (t[|t| - 1] != '/' && !(|t| >= 2 && t[|t| - 2] == '/' && t[|t| - 1] == '.'))
    ensures forall j {:trigger path[j]} :: |t| <= j < |path| ==> path[j] == '/' || (path[j] == '.' && 0 < j && path[j - 1] == '/')
    ensures path != [] && path[|path| - 1] != '/' && path[|path| - 1] != '.' ==> t == path
    decreases |path|
  {
    if |path| >= 1 && path[|path| - 1] == '/' then
      var shorter := path[..|path| - 1];
      var t := TrimTrailing(shorter);
      assert forall j :: 0 <= j < |shorter| ==> path[j] == shorter[j];
      t
    else if |path| >= 2 && path[|path| - 2] == '/' && path[|path| - 1] == '.' then
      var shorter := path[..|path| - 2];
      var t := TrimTrailing(shorter);
      assert forall j :: 0 <= j < |shorter| ==> path[j] == shorter[j];
      t
    else path
  }

  /** Where the last segment of `s` begins: just past its last `/`, or 0. */
  function NameStart(s: string): (i: nat)
    ensures i <= |s|
    ensures i == 0 || s[i - 1] == '/'
    ensures forall j :: i <= j < |s| ==> s[j] != '/'
  {
    if s == [] then 0
    else if s[|s| - 1] == '/' then |s|
    else NameStart(s[..|s| - 1])
  }

  /** The position of the last `.` of `s`, if any. */
  function LastDot(s: string): (r: Option<nat>)
    ensures r.Some? ==> r.value < |s| && s[r.value] == '.'
    ensures r.Some? ==> forall j :: r.value < j < |s| ==> s[j] != '.'
    ensures r.None? ==> forall j :: 0 <= j < |s| ==> s[j] != '.'
  {
    if s == [] then None
    else if s[|s| - 1] == '.' then Some(|s| - 1)
    else LastDot(s[..|s| - 1])
  }

  /**
   * `Path::file_stem` of a file name: the name up to its last `.`, or the whole name
   * when it has no dot or its only dot leads it. (`..` is kept whole too, as in
   * `rsplit_file_at_dot`, although `file_name` never yields `..`.)
   */
  function Stem(name: string): (stem: string)
    ensures |stem| <= |name| && stem == name[..|stem|]
    ensures |stem| < |name| ==> 0 < |stem| && name[|stem|] == '.' && forall j :: |stem| < j < |name| ==> name[j] != '.'
  {
    if name == ".." then name
    else match LastDot(name)
      case None => name
      case Some(i) => if i == 0 then name else name[..i]
  }

  /**
   * `file_stem` cuts a name exactly when it has a `.` past its first character and
   * is not `..`; the cut is then at the last `.`.
   */
  lemma StemCutsAtInnerDot(name: string)
    ensures |Stem(name)| < |name| <==> name != ".." && exists j :: 0 < j < |name| && name[j] == '.'
  {
    if name != ".." && exists j :: 0 < j < |name| && name[j] == '.' {
      var j :| 0 < j < |name| && name[j] == '.';
      var d := LastDot(name);
      assert d.Some? && d.value >= j;
    }
  }

  /**
   * `Path::with_extension(ext)` for a key `validate_key` accepts: the path up to the
   * end of its file name's stem, then `.` and `ext`. The extension given replaces the
   * old one whole, so `".tmp"` yields a double dot. Rust leaves a path whose last
   * component is not a file name (empty, `/`, `.`, `..`) unchanged; this function
   * does not, but `validate_key` rejects every such key before it is named.
   */
  function WithExtension(path: string, ext: string): (r: string)
    ensures ext != [] ==> |r| > 0 && r[|r| - 1] == ext[|ext| - 1]
    ensures ext != [] ==> |r| > |ext| && r[|r| - |ext| - 1..] == "." + ext
    ensures ext != [] ==> |r| - |ext| - 1 <= |path| && r[..|r| - |ext| - 1] == path[..|r| - |ext| - 1]
  {
    var t := TrimTrailing(path);
    var start := NameStart(t);
    var stem := Stem(t[start..]);
    var kept := t[..start] + stem;
    KeptIsPrefix(path, t, start, stem);
    var tail := if ext == [] then "" else "." + ext;
    var r := kept + tail;
    assert r[..|kept|] == kept && r[|kept|..] == tail;
    r
  }

  /** What `with_extension` keeps of the path, up to the end of the stem, is a prefix of it. */
  lemma KeptIsPrefix(path: string, t: string, start: nat, stem: string)
    requires |t| <= |path| && t == path[..|t|]
    requires start <= |t| && |stem| <= |t| - start && stem == t[start..][..|stem|]
    ensures |t[..start] + stem| <= |path| && t[..start] + stem == path[..|t[..start] + stem|]
  {
    assert stem == t[start..start + |stem|];
    assert t[..start] + stem == t[..start + |stem|];
  }

  /** The temporary entry `put` writes before renaming it onto the key. */
  function TmpName(key: string): (r: string)
    ensures r != key
  {
    WithDottedExtensionDiffers(key, ".tmp");
    WithExtension(key, ".tmp")
  }

  /** The per-key lock entry `put` opens and locks. */
  function LockName(key: string): (r: string)
    ensures r != key
  {
    WithDottedExtensionDiffers(key, ".lock");
    WithExtension(key, ".lock")
  }

  /**
   * The temporary entry of a key whose last segment `name` follows a directory part
   * `dir` (empty or ending in `/`): the directory part, the name's stem, `.` and
   * `.tmp`, so `a/b.c` gives `a/b..tmp` and `key1` gives `key1..tmp`.
   */
  lemma TmpNameOfPath(dir: string, name: string)
    requires dir == [] || dir[|dir| - 1] == '/'
    requires name != [] && '/' !in name && name != "." && name != ".."
    ensures TmpName(dir + name) == dir + Stem(name) + "." + ".tmp"
  {
    WithExtensionOfPath(dir, name, ".tmp");
  }

  /** The lock entry of a key `dir + name`: the directory part, the name's stem, `.` and `.lock`. */
  lemma LockNameOfPath(dir: string, name: string)
    requires dir == [] || dir[|dir| - 1] == '/'
    requires name != [] && '/' !in name && name != "." && name != ".."
    ensures LockName(dir + name) == dir + Stem(name) + "." + ".lock"
  {
    WithExtensionOfPath(dir, name, ".lock");
  }

  /**
   * For a path made of a directory part `dir` (empty or ending in `/`) and a last
   * segment `name` that is a file name (not `.` or `..`), the new path keeps `dir`,
   * then the name's stem, a `.`, and the extension as given.
   */
  lemma WithExtensionOfPath(dir: string, name: string, ext: string)
    requires dir == [] || dir[|dir| - 1] == '/'
    requires name != [] && '/' !in name && name != "." && name != ".."
    requires ext != []
    ensures WithExtension(dir + name, ext) == dir + Stem(name) + "." + ext
  {
    var p := dir + name;
    TrimmedPathKept(dir, name);
    var t := TrimTrailing(p);
    LastSegmentStart(dir, name);
    var start := NameStart(t);
    assert t[..start] == dir && t[start..] == name;
    assert WithExtension(p, ext) == dir + Stem(name) + ("." + ext);
    Regroup(dir + Stem(name), ".", ext);
  }

  /** A trailing `/.` segment does not change the result either. */
  lemma WithExtensionIgnoresTrailingCurDir(path: string, ext: string)
    ensures WithExtension(path + "/.", ext) == WithExtension(path, ext)
  {
    var p := path + "/.";
    assert p[..|p| - 2] == path;
    assert TrimTrailing(p) == TrimTrailing(path);
  }

  /** Concatenation regroups. */
  lemma Regroup(a: string, b: string, c: string)
    ensures a + b + c == a + (b + c)
  {
  }

  /** A path whose last segment is a name other than `.` has nothing for `components` to ignore. */
  lemma TrimmedPathKept(dir: string, name: string)
    requires dir == [] || dir[|dir| - 1] == '/'
    requires name != [] && '/' !in name && name != "."
    ensures TrimTrailing(dir + name) == dir + name
  {
    var p := dir + name;
    assert p[|p| - 1] == name[|name| - 1];
    if |name| >= 2 {
      assert p[|p| - 2] == name[|name| - 2];
    }
  }

  /** The last segment of `dir + name` starts right after the directory part. */
  lemma LastSegmentStart(dir: string, name: string)
    requires dir == [] || dir[|dir| - 1] == '/'
    requires '/' !in name
    ensures NameStart(dir + name) == |dir|
  {
    var p := dir + name;
    assert forall j :: |dir| <= j < |p| ==> p[j] == name[j - |dir|];
    assert dir != [] ==> p[|dir| - 1] == '/';
  }

  /** A trailing `/` does not change the result: `with_extension` works on the last name. */
  lemma WithExtensionIgnoresTrailingSlash(path: string, ext: string)
    ensures WithExtension(path + "/", ext) == WithExtension(path, ext)
  {
    var p := path + "/";
    assert p[..|p| - 1] == path;
    assert TrimTrailing(p) == TrimTrailing(path);
  }

  /**
   * An extension that starts with `.` never gives back the path it extends, provided
   * it ends in an ordinary character.
   */
  lemma WithDottedExtensionDiffers(path: string, ext: string)
    requires |ext| >= 2 && ext[0] == '.' && ext[|ext| - 1] != '/' && ext[|ext| - 1] != '.'
    ensures WithExtension(path, ext) != path
  {
    if path != [] && path[|path| - 1] != '/' && path[|path| - 1] != '.' {
      ExtendedNameDiffers(path, ext);
    }
  }

  /** For a path ending in an ordinary character, the new file name differs from the old one. */
  lemma ExtendedNameDiffers(path: string, ext: string)
    requires |ext| >= 2 && ext[0] == '.'
    requires path != [] && path[|path| - 1] != '/' && path[|path| - 1] != '.'
    ensures WithExtension(path, ext) != path
  {
    var t := TrimTrailing(path);
    assert t == path;
    var start := NameStart(t);
    var name := t[start..];
    var stem := Stem(name);
    var r := WithExtension(path, ext);
    assert r == t[..start] + stem + ("." + ext);
    if |r| == |path| {
      assert |stem| + 1 < |name|;
      assert r[start + |stem| + 1] == ext[0];
      assert name[|stem| + 1] == path[start + |stem| + 1];
    }
  }

  /** The temporary, lock and final entries of a key are three different names. */
  lemma SideNamesDistinct(key: string)
    ensures TmpName(key) != key
    ensures LockName(key) != key
    ensures TmpName(key) != LockName(key)
  {
    WithDottedExtensionDiffers(key, ".tmp");
    WithDottedExtensionDiffers(key, ".lock");
    var a := TmpName(key);
    var b := LockName(key);
    assert a[|a| - 1] == 'p' && b[|b| - 1] == 'k';
  }

  /** A key that is one name without any dot keeps all of it before `..tmp` and `..lock`. */
  lemma SideNamesOfDotlessName(key: string)
    requires key != [] && forall j :: 0 <= j < |key| ==> key[j] != '.' && key[j] != '/'
    ensures TmpName(key) == key + "." + ".tmp"
    ensures LockName(key) == key + "." + ".lock"
  {
    assert '/' !in key && key[|key| - 1] != '.';
    assert LastDot(key) == None;
    assert Stem(key) == key;
    assert [] + key == key;
    TmpNameOfPath([], key);
    LockNameOfPath([], key);
  }

  /** `key1` becomes `key1..tmp` and `key1..lock`. */
  lemma SideNamesOfKey1()
    ensures TmpName("key1") == "key1..tmp"
    ensures LockName("key1") == "key1..lock"
  {
    SideNamesOfDotlessName("key1");
  }

  /** Two names that differ only after their last dot share one stem. */
  lemma StemOfAB()
    ensures Stem("a.b") == "a" && Stem("a.c") == "a"
  {
    assert LastDot("a.b") == Some(1) by { assert "a.b"[..2] == "a."; }
    assert LastDot("a.c") == Some(1) by { assert "a.c"[..2] == "a."; }
  }

  /** `a.b` and `a.c` are both valid keys. */
  lemma KeysAB()
    ensures ValidKey("a.b") && ValidKey("a.c")
  {
    SplitNoSeparator("a.b");
    SplitNoSeparator("a.c");
    Utf8LenBounds("a.b");
    Utf8LenBounds("a.c");
    KeyAcceptedIff("a.b");
    KeyAcceptedIff("a.c");
  }

  /** The keys `a.b` and `a.c` share the temporary name `a..tmp` and the lock name `a..lock`. */
  lemma DistinctKeysShareSideNames()
    ensures TmpName("a.b") == TmpName("a.c") == "a..tmp"
    ensures LockName("a.b") == LockName("a.c") == "a..lock"
  {
    assert TrimTrailing("a.b") == "a.b" && TrimTrailing("a.c") == "a.c";
    assert NameStart("a.b") == 0 by {
      assert "a.b"[..2] == "a.";
      assert "a."[..1] == "a";
      assert "a"[..0] == "";
    }
    assert NameStart("a.c") == 0 by {
      assert "a.c"[..2] == "a.";
      assert "a."[..1] == "a";
      assert "a"[..0] == "";
    }
    StemOfAB();
  }

  /**
   * The side names of a short single-name key are themselves valid keys: with the
   * corrected blocking write, a `put` of `a.b` writes its temporary entry where the
   * key `a..tmp` is stored, and locks the entry of the key `a..lock`.
   */
  lemma SideNamesAreKeys(key: string)
    requires key != [] && |key| + 6 <= MAX_KEY_BYTES && IsAscii(key)
    requires '/' !in key && key != "." && key != ".."
    ensures ValidKey(TmpName(key)) && ValidKey(LockName(key))
  {
    StemIsPlain(key);
    ExtensionsArePlain();
    TmpNameIsKey(key);
    LockNameIsKey(key);
  }

  /** The temporary name of a short single-name key is a valid key. */
  lemma TmpNameIsKey(key: string)
    requires key != [] && |key| + 6 <= MAX_KEY_BYTES && '/' !in key && key != "." && key != ".."
    requires IsAscii(Stem(key)) && '/' !in Stem(key) && IsAscii(".tmp") && '/' !in ".tmp"
    ensures ValidKey(TmpName(key))
  {
    assert [] + key == key;
    TmpNameOfPath([], key);
    DottedNameIsValid(Stem(key), ".tmp");
  }

  /** The lock name of a short single-name key is a valid key. */
  lemma LockNameIsKey(key: string)
    requires key != [] && |key| + 6 <= MAX_KEY_BYTES && '/' !in key && key != "." && key != ".."
    requires IsAscii(Stem(key)) && '/' !in Stem(key) && IsAscii(".lock") && '/' !in ".lock"
    ensures ValidKey(LockName(key))
  {
    assert [] + key == key;
    LockNameOfPath([], key);
    DottedNameIsValid(Stem(key), ".lock");
  }

  /** The stem of an ASCII name without `/` is ASCII and has no `/`. */
  lemma StemIsPlain(name: string)
    requires IsAscii(name) && '/' !in name
    ensures IsAscii(Stem(name)) && '/' !in Stem(name)
  {
    var stem := Stem(name);
    assert forall i :: 0 <= i < |stem| ==> stem[i] == name[i];
  }

  /** The two extensions `put` uses are ASCII and hold no `/`. */
  lemma ExtensionsArePlain()
    ensures IsAscii(".tmp") && '/' !in ".tmp"
    ensures IsAscii(".lock") && '/' !in ".lock"
  {
  }

  /** An ASCII stem without `/`, then `.` and an extension such as `.tmp`, is a valid key. */
  lemma DottedNameIsValid(stem: string, ext: string)
    requires |stem| + 1 + |ext| <= MAX_KEY_BYTES && IsAscii(stem) && '/' !in stem
    requires |ext| >= 2 && IsAscii(ext) && '/' !in ext
    ensures ValidKey(stem + "." + ext)
  {
    var k := stem + "." + ext;
    assert forall i :: 0 <= i < |stem| ==> k[i] == stem[i];
    assert k[|stem|] == '.';
    assert forall i :: |stem| < i < |k| ==> k[i] == ext[i - |stem| - 1];
    assert IsAscii(k) && '/' !in k && |k| >= 3;
    SingleNameIsValid(k);
  }
}
