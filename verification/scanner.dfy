/** The source-collecting script: which files of the repository it reads
    (a fixed list at the top level, source files under the core directory
    tree minus excluded and hidden directories, and one sample puzzle), in
    the order it reads them. Paths are POSIX strings; the directory tree,
    directory listings and the working directory are parameters. */
module Scanner {
  import opened Basics
  import opened Text

  /** Top-level files read by name. */
  const CoreRootFiles: set<string> := {"server.py"}
  /** Directories walked recursively (`os.path.join("frontend", "src")`). */
  const CoreDirs: seq<string> := ["frontend/src"]
  /** Extensions, compared case-sensitively, of the files read inside the walk. */
  const TargetExtensions: set<string> := {".py", ".js", ".jsx", ".css"}
  /** File and directory names never read or entered. */
  const AlwaysExclude: set<string> :=
    {"node_modules", "dist", "build", "package-lock.json", "yarn.lock", ".git", "vite.svg", "react.svg"}
  /** Extensions, compared after lower-casing, that mark a file as binary. */
  const BinaryExtensions: set<string> := {".png", ".jpg", ".jpeg", ".gif", ".ico", ".exe", ".dll", ".pyc"}
  const PuzzlesDir := "puzzles"

  // ---------------------------------------------------------------- paths

  /** Index of the last occurrence of `c` in `s`, or -1 (Python's `rfind`). */
  function LastIndexOf(s: string, c: char): (i: int)
    ensures -1 <= i < |s|
    ensures i >= 0 ==> s[i] == c
    ensures forall k :: i < k < |s| ==> s[k] != c
  {
    if s == [] then -1
    else if s[|s| - 1] == c then |s| - 1
    else LastIndexOf(s[..|s| - 1], c)
  }

  /** The three properties of `LastIndexOf` determine it. */
  lemma LastIndexOfUnique(s: string, c: char, j: int)
    requires -1 <= j < |s|
    requires j >= 0 ==> s[j] == c
    requires forall k :: j < k < |s| ==> s[k] != c
    ensures LastIndexOf(s, c) == j
  {
  }

  /** The last path component: everything after the last separator. */
  function BaseName(p: string): (b: string)
    ensures EndsWith(p, b) && '/' !in b
  {
    p[LastIndexOf(p, '/') + 1..]
  }

  /** A dot of `b` that some character other than a dot precedes: only
      such a dot can start an extension, so leading dots never do. */
  predicate HasInnerDot(b: string) {
    exists i, k :: 0 <= k < i < |b| && b[k] != '.' && b[i] == '.'
  }

  /** The extension of a single path component: from its last dot to the
      end, provided a character other than a dot comes before that dot;
      otherwise empty. */
  function ComponentExtension(b: string): (ext: string)
    ensures ext != [] <==> HasInnerDot(b)
    ensures ext != [] ==> ext[0] == '.' && EndsWith(b, ext)
    ensures forall k :: 1 <= k < |ext| ==> ext[k] != '.'
  {
    var dot := LastIndexOf(b, '.');
    if exists k :: 0 <= k < dot && b[k] != '.' then b[dot..] else []
  }

  /** `os.path.splitext(p)[1]` on POSIX. The result is non-empty exactly
      when the last path component has a dot after a character other than
      a dot; it is then the suffix of that component from its last dot. */
  function Extension(p: string): (ext: string)
    ensures ext != [] <==> HasInnerDot(BaseName(p))
    ensures ext != [] ==> ext[0] == '.' && EndsWith(BaseName(p), ext)
    ensures forall k :: 1 <= k < |ext| ==> ext[k] != '.'
    ensures EndsWith(p, ext) && '/' !in ext
  {
    ComponentExtension(BaseName(p))
  }

  /** A leading dot does not start an extension. */
  lemma DotFileHasNoExtension()
    ensures Extension(".bashrc") == []
  {
    LastIndexOfUnique(".bashrc", '/', -1);
    assert BaseName(".bashrc") == ".bashrc";
    LastIndexOfUnique(".bashrc", '.', 0);
  }

  /** Only the last dot of the last component starts the extension. */
  lemma LastDotStartsExtension()
    ensures Extension("src/a.tar.gz") == ".gz"
  {
    LastIndexOfUnique("src/a.tar.gz", '/', 3);
    assert BaseName("src/a.tar.gz") == "a.tar.gz";
    LastIndexOfUnique("a.tar.gz", '.', 5);
    assert "a.tar.gz"[0] != '.';
  }

  /** What `os.path.join(root, name)` puts before `name`: nothing when
      `name` is absolute, `root` when it is empty or ends with a separator,
      and `root` plus a separator otherwise. */
  function JoinPrefix(root: string, name: string): (pre: string)
    ensures pre == [] || pre[|pre| - 1] == '/'
  {
    if StartsWith(name, "/") then []
    else if root == [] || EndsWith(root, "/") then root
    else root + "/"
  }

  /** `os.path.join(root, name)`. */
  function Join(root: string, name: string): string {
    JoinPrefix(root, name) + name
  }

  /** `os.path.abspath(p)` relative to the working directory `cwd`, without
      the normalisation of `.`, `..` and repeated separators. */
  function AbsPath(cwd: string, p: string): string {
    if StartsWith(p, "/") then p else Join(cwd, p)
  }

  lemma {:induction false} LastIndexOfAfterSlash(pre: string, name: string, c: char)
    requires pre == [] || pre[|pre| - 1] == '/'
    ensures c in name ==> LastIndexOf(pre + name, c) == |pre| + LastIndexOf(name, c)
    ensures c !in name ==> LastIndexOf(pre + name, c) == LastIndexOf(pre, c)
  {
    var s := pre + name;
    if c in name {
      var j := LastIndexOf(name, c);
      assert j >= 0;
      forall k | |pre| + j < k < |s| ensures s[k] != c {
        assert s[k] == name[k - |pre|];
      }
      LastIndexOfUnique(s, c, |pre| + j);
    } else {
      var j := LastIndexOf(pre, c);
      forall k | j < k < |s| ensures s[k] != c {
        if k >= |pre| {
          assert s[k] == name[k - |pre|];
        }
      }
      LastIndexOfUnique(s, c, j);
    }
  }

  /** Joining a directory in front of a single path component does not
      change the component's extension. */
  lemma ExtensionOfJoin(root: string, name: string)
    requires '/' !in name
    ensures Extension(Join(root, name)) == Extension(name)
  {
    var pre := JoinPrefix(root, name);
    LastIndexOfAfterSlash(pre, name, '/');
    LastIndexOfAfterSlash([], name, '/');
    assert [] + name == name;
    assert BaseName(pre + name) == name;
    assert BaseName(name) == name;
  }

  // ------------------------------------------------------- file predicates

  predicate BinaryExtension(ext: string) {
    ext in BinaryExtensions
  }

  /** `is_binary`: the lower-cased extension is one of the binary ones. */
  predicate IsBinary(path: string) {
    BinaryExtension(AsciiLower(Extension(path)))
  }

  lemma {:induction false} AsciiLowerIdempotent(s: string)
    ensures AsciiLower(AsciiLower(s)) == AsciiLower(s)
  {
    var t := AsciiLower(s);
    forall k | 0 <= k < |s| ensures AsciiLower(t)[k] == t[k] {
      assert LowerChar(LowerChar(s[k])) == LowerChar(s[k]);
    }
  }

  lemma {:induction false} AsciiLowerKeepsLastIndex(s: string, c: char)
    requires c == '/' || c == '.'
    ensures LastIndexOf(AsciiLower(s), c) == LastIndexOf(s, c)
  {
    var t := AsciiLower(s);
    var j := LastIndexOf(s, c);
    forall k | j < k < |t| ensures t[k] != c {
      assert s[k] != c;
    }
    LastIndexOfUnique(t, c, j);
  }

  lemma AsciiLowerSlice(s: string, i: nat)
    requires i <= |s|
    ensures AsciiLower(s)[i..] == AsciiLower(s[i..])
  {
  }

  /** Lower-casing neither creates nor removes dots. */
  lemma AsciiLowerKeepsDots(b: string, dot: int)
    requires dot <= |b|
    ensures (exists k :: 0 <= k < dot && b[k] != '.') ==> (exists k :: 0 <= k < dot && AsciiLower(b)[k] != '.')
    ensures (exists k :: 0 <= k < dot && AsciiLower(b)[k] != '.') ==> (exists k :: 0 <= k < dot && b[k] != '.')
  {
    var low := AsciiLower(b);
    if exists k :: 0 <= k < dot && b[k] != '.' {
      var k :| 0 <= k < dot && b[k] != '.';
      assert low[k] == LowerChar(b[k]);
      assert low[k] != '.';
    }
    if exists k :: 0 <= k < dot && low[k] != '.' {
      var k :| 0 <= k < dot && low[k] != '.';
      assert low[k] == LowerChar(b[k]);
      assert b[k] != '.';
    }
  }

  lemma ComponentExtensionOfLower(b: string)
    ensures ComponentExtension(AsciiLower(b)) == AsciiLower(ComponentExtension(b))
  {
    var low := AsciiLower(b);
    AsciiLowerKeepsLastIndex(b, '.');
    var dot := LastIndexOf(b, '.');
    AsciiLowerKeepsDots(b, dot);
    if dot >= 0 {
      AsciiLowerSlice(b, dot);
    }
    assert AsciiLower([]) == [];
  }

  lemma ExtensionOfLower(path: string)
    ensures Extension(AsciiLower(path)) == AsciiLower(Extension(path))
    ensures AsciiLower(Extension(AsciiLower(path))) == AsciiLower(Extension(path))
  {
    var low := AsciiLower(path);
    AsciiLowerKeepsLastIndex(path, '/');
    AsciiLowerSlice(path, LastIndexOf(path, '/') + 1);
    assert BaseName(low) == AsciiLower(BaseName(path));
    ComponentExtensionOfLower(BaseName(path));
    AsciiLowerIdempotent(Extension(path));
  }

  /** The binary test ignores case: `.PNG` is as binary as `.png`. */
  lemma IsBinaryIgnoresCase(path: string)
    ensures IsBinary(AsciiLower(path)) == IsBinary(path)
  {
    ExtensionOfLower(path);
  }

  /** Every binary extension is a dot followed by characters other than dots. */
  lemma BinaryExtensionShape(e: string)
    requires BinaryExtension(e)
    ensures |e| >= 2 && e[0] == '.' && forall k :: 1 <= k < |e| ==> e[k] != '.'
  {
  }

  /** A suffix of `c` that starts with its only dot starts at the last dot of `c`. */
  lemma SuffixFromOnlyDot(c: string, x: string)
    requires EndsWith(c, x) && x != [] && x[0] == '.' && forall k :: 1 <= k < |x| ==> x[k] != '.'
    ensures LastIndexOf(c, '.') == |c| - |x|
  {
    var j := |c| - |x|;
    forall k | j < k < |c| ensures c[k] != '.' {
      assert c[k] == x[k - j];
    }
    assert c[j] == x[0];
    LastIndexOfUnique(c, '.', j);
  }

  /** Two suffixes of `c` that each start with their only dot are equal. */
  lemma SuffixesFromOnlyDot(c: string, x: string, y: string)
    requires EndsWith(c, x) && x != [] && x[0] == '.' && forall k :: 1 <= k < |x| ==> x[k] != '.'
    requires EndsWith(c, y) && y != [] && y[0] == '.' && forall k :: 1 <= k < |y| ==> y[k] != '.'
    ensures x == y
  {
    SuffixFromOnlyDot(c, x);
    SuffixFromOnlyDot(c, y);
  }

  lemma LowerKeepsInnerDot(b: string)
    ensures HasInnerDot(AsciiLower(b)) <==> HasInnerDot(b)
  {
    var low := AsciiLower(b);
    if HasInnerDot(b) {
      var i, k :| 0 <= k < i < |b| && b[k] != '.' && b[i] == '.';
      assert low[k] == LowerChar(b[k]) && low[i] == LowerChar(b[i]);
    }
    if HasInnerDot(low) {
      var i, k :| 0 <= k < i < |low| && low[k] != '.' && low[i] == '.';
      assert low[k] == LowerChar(b[k]) && low[i] == LowerChar(b[i]);
    }
  }

  /** `is_binary` by the name alone: a path is binary exactly when its last
      component has a dot after a character other than a dot and, once
      lower-cased, ends with one of the binary extensions. */
  lemma IsBinaryByName(path: string)
    ensures IsBinary(path) <==>
      HasInnerDot(BaseName(path)) && exists e :: BinaryExtension(e) && EndsWith(AsciiLower(BaseName(path)), e)
  {
    var b := BaseName(path);
    var low := AsciiLower(b);
    ComponentExtensionOfLower(b);
    LowerKeepsInnerDot(b);
    var ext := ComponentExtension(low);
    assert IsBinary(path) == BinaryExtension(ext);
    if BinaryExtension(ext) {
      BinaryExtensionShape(ext);
    }
    if HasInnerDot(b) && exists e :: BinaryExtension(e) && EndsWith(low, e) {
      var e :| BinaryExtension(e) && EndsWith(low, e);
      BinaryExtensionShape(e);
      SuffixesFromOnlyDot(low, ext, e);
    }
  }

  /** `should_process_file(root, filename)`, with `cwd` the working
      directory that `os.path.abspath` consults. */
  predicate ShouldProcessFile(cwd: string, root: string, filename: string) {
    var absPath := AbsPath(cwd, Join(root, filename));
    if filename in AlwaysExclude || StartsWith(filename, ".") then false
    else if Contains(absPath, PuzzlesDir) && Extension(filename) == ".json" then true
    else Extension(filename) in TargetExtensions
  }

  /** What the file filter decides: excluded and hidden names are refused;
      an accepted file has a target extension or is a `.json` file; any
      other file with a target extension is accepted, and a `.json` file is
      accepted exactly when its absolute path mentions `puzzles`. */
  lemma ShouldProcessFileDecides(cwd: string, root: string, filename: string)
    ensures filename in AlwaysExclude || StartsWith(filename, ".") ==> !ShouldProcessFile(cwd, root, filename)
    ensures ShouldProcessFile(cwd, root, filename) ==>
      Extension(filename) in TargetExtensions || Extension(filename) == ".json"
    ensures filename !in AlwaysExclude && !StartsWith(filename, ".") ==>
      (Extension(filename) in TargetExtensions ==> ShouldProcessFile(cwd, root, filename))
      && (Extension(filename) == ".json" ==>
            (ShouldProcessFile(cwd, root, filename) <==> Contains(AbsPath(cwd, Join(root, filename)), PuzzlesDir)))
  {
    JsonIsNoTarget();
  }

  /** `.json` is not among the target extensions: it is longer than all of them. */
  lemma JsonIsNoTarget()
    ensures ".json" !in TargetExtensions
  {
    forall t | t in TargetExtensions ensures |t| <= 4 {
    }
  }

  /** The last letters of the binary extensions. */
  predicate BinaryEnding(c: char) {
    c == 'g' || c == 'f' || c == 'o' || c == 'e' || c == 'l' || c == 'c'
  }

  lemma BinaryExtensionEnding(b: string)
    requires BinaryExtension(b)
    ensures b != [] && BinaryEnding(b[|b| - 1])
  {
  }

  /** The accepted extensions end in a lower-case letter that no binary
      extension ends with. */
  lemma TextExtensionEnding(e: string)
    requires e in TargetExtensions || e == ".json"
    ensures e != [] && (e[|e| - 1] == 'y' || e[|e| - 1] == 's' || e[|e| - 1] == 'x' || e[|e| - 1] == 'n')
  {
  }

  /** None of the extensions the file filter accepts is a binary one. */
  lemma AcceptedExtensionsAreText(e: string)
    requires e in TargetExtensions || e == ".json"
    ensures !BinaryExtension(AsciiLower(e))
  {
    var low := AsciiLower(e);
    TextExtensionEnding(e);
    if BinaryExtension(low) {
      BinaryExtensionEnding(low);
    }
  }

  /** The binary check after `should_process_file` never rejects anything:
      every accepted extension is a text one. */
  lemma BinaryCheckIsRedundant(cwd: string, root: string, filename: string)
    requires '/' !in filename
    requires ShouldProcessFile(cwd, root, filename)
    ensures !IsBinary(Join(root, filename))
  {
    ShouldProcessFileDecides(cwd, root, filename);
    ExtensionOfJoin(root, filename);
    AcceptedExtensionsAreText(Extension(filename));
  }

  // ------------------------------------------------------- directory walk

  /** A directory is entered unless its name is excluded or hidden. */
  predicate KeepDir(name: string) {
    name !in AlwaysExclude && !StartsWith(name, ".")
  }

  /** The pruning of `dirs` during the walk: the kept names, in order.
      A name survives exactly when it is kept. */
  function Prune(dirs: seq<string>): (kept: seq<string>)
    ensures |kept| <= |dirs|
    ensures forall d :: d in kept <==> d in dirs && KeepDir(d)
  {
    if dirs == [] then []
    else
      assert dirs == [dirs[0]] + dirs[1..];
      (if KeepDir(dirs[0]) then [dirs[0]] else []) + Prune(dirs[1..])
  }

  /** A directory entry as `os.walk` sees it. */
  datatype Entry = File(name: string) | Dir(name: string, entries: seq<Entry>)

  /** Every name in the tree is a single path component. */
  predicate Listed(e: Entry) {
    && '/' !in e.name
    && (e.Dir? ==> forall i :: 0 <= i < |e.entries| ==> Listed(e.entries[i]))
  }

  /** A file of directory `root` is read when it passes both checks. */
  predicate Reads(cwd: string, root: string, name: string) {
    ShouldProcessFile(cwd, root, name) && !IsBinary(Join(root, name))
  }

  /** Paths of the files of one directory listing that are read, in order. */
  function FilesRead(cwd: string, root: string, entries: seq<Entry>): seq<string> {
    if entries == [] then []
    else
      var last := entries[|entries| - 1];
      FilesRead(cwd, root, entries[..|entries| - 1])
        + (if last.File? && Reads(cwd, root, last.name) then [Join(root, last.name)] else [])
  }

  /** The files read by the top-down walk of `e` at path `root`: this
      directory's files first, then each kept subdirectory's walk in listing
      order. Walking a plain file reads nothing. */
  function Walk(cwd: string, root: string, e: Entry): seq<string>
    decreases e, 1, 0
  {
    if e.File? then [] else FilesRead(cwd, root, e.entries) + Descend(cwd, root, e, 0)
  }

  /** The walks of the kept subdirectories among `d.entries[i..]`. */
  function Descend(cwd: string, root: string, d: Entry, i: nat): seq<string>
    requires d.Dir? && i <= |d.entries|
    decreases d, 0, |d.entries| - i
  {
    if i == |d.entries| then []
    else
      var e := d.entries[i];
      (if e.Dir? && KeepDir(e.name) then Walk(cwd, Join(root, e.name), e) else [])
        + Descend(cwd, root, d, i + 1)
  }

  /** Names of the subdirectories of a listing, in order. */
  function DirNames(entries: seq<Entry>): seq<string> {
    if entries == [] then []
    else (if entries[0].Dir? then [entries[0].name] else []) + DirNames(entries[1..])
  }

  /** The subdirectory entries of a listing that survive pruning, in order. */
  function KeptDirs(entries: seq<Entry>): seq<Entry> {
    if entries == [] then []
    else (if entries[0].Dir? && KeepDir(entries[0].name) then [entries[0]] else []) + KeptDirs(entries[1..])
  }

  /** Their names are the pruned list of subdirectory names. */
  lemma {:induction false} KeptDirsArePruned(entries: seq<Entry>)
    ensures DirNames(KeptDirs(entries)) == Prune(DirNames(entries))
  {
    if entries != [] {
      var e := entries[0];
      var rest := entries[1..];
      KeptDirsArePruned(rest);
      var kept := KeptDirs(rest);
      if e.Dir? {
        assert DirNames(entries) == [e.name] + DirNames(rest);
        assert ([e.name] + DirNames(rest))[1..] == DirNames(rest);
        if KeepDir(e.name) {
          assert KeptDirs(entries) == [e] + kept;
          assert ([e] + kept)[1..] == kept;
        } else {
          assert KeptDirs(entries) == kept;
        }
      } else {
        assert DirNames(entries) == DirNames(rest);
        assert KeptDirs(entries) == kept;
      }
    }
  }

  /** The walks of the directories `ds`, one after the other, each at its
      own path under `root`. */
  function WalkAll(cwd: string, root: string, ds: seq<Entry>): seq<string> {
    if ds == [] then [] else Walk(cwd, Join(root, ds[0].name), ds[0]) + WalkAll(cwd, root, ds[1..])
  }

  /** `Descend` walks exactly the kept subdirectories, in listing order. */
  lemma {:induction false} DescendWalksKeptDirs(cwd: string, root: string, d: Entry, i: nat)
    requires d.Dir? && i <= |d.entries|
    ensures Descend(cwd, root, d, i) == WalkAll(cwd, root, KeptDirs(d.entries[i..]))
    decreases |d.entries| - i
  {
    if i < |d.entries| {
      DescendWalksKeptDirs(cwd, root, d, i + 1);
      var e := d.entries[i];
      var kept := KeptDirs(d.entries[i + 1..]);
      assert d.entries[i..][0] == e && d.entries[i..][1..] == d.entries[i + 1..];
      if e.Dir? && KeepDir(e.name) {
        assert KeptDirs(d.entries[i..]) == [e] + kept;
        assert ([e] + kept)[0] == e && ([e] + kept)[1..] == kept;
      } else {
        assert KeptDirs(d.entries[i..]) == kept;
      }
    } else {
      assert d.entries[i..] == [];
    }
  }

  /** The walk of a directory reads its own files, then walks exactly the
      subdirectories whose names make up the pruned list, in that order, as
      `os.walk` does after `dirs[:]` is replaced by the pruned list. */
  lemma WalkVisitsPrunedDirs(cwd: string, root: string, d: Entry)
    requires d.Dir?
    ensures Walk(cwd, root, d) == FilesRead(cwd, root, d.entries) + WalkAll(cwd, root, KeptDirs(d.entries))
    ensures DirNames(KeptDirs(d.entries)) == Prune(DirNames(d.entries))
  {
    DescendWalksKeptDirs(cwd, root, d, 0);
    assert d.entries[0..] == d.entries;
    KeptDirsArePruned(d.entries);
  }

  /** What the walk may read: a target-extension file, or a `.json` file
      whose absolute path mentions `puzzles`. */
  predicate SourceLike(cwd: string, p: string) {
    Extension(p) in TargetExtensions || (Extension(p) == ".json" && Contains(AbsPath(cwd, p), PuzzlesDir))
  }

  lemma ReadFileIsSourceLike(cwd: string, root: string, name: string)
    requires '/' !in name && Reads(cwd, root, name)
    ensures SourceLike(cwd, Join(root, name))
  {
    ShouldProcessFileDecides(cwd, root, name);
    ExtensionOfJoin(root, name);
  }

  lemma {:induction false} FilesReadAreSourceLike(cwd: string, root: string, entries: seq<Entry>)
    requires forall i :: 0 <= i < |entries| ==> '/' !in entries[i].name
    ensures forall p :: p in FilesRead(cwd, root, entries) ==> SourceLike(cwd, p)
  {
    if entries != [] {
      var last := entries[|entries| - 1];
      FilesReadAreSourceLike(cwd, root, entries[..|entries| - 1]);
      if last.File? && Reads(cwd, root, last.name) {
        ReadFileIsSourceLike(cwd, root, last.name);
      }
    }
  }

  /** Every file the walk reads is a source file by extension, or a puzzle
      `.json` file. */
  lemma {:induction false} WalkReadsOnlySources(cwd: string, root: string, e: Entry)
    requires Listed(e)
    ensures forall p :: p in Walk(cwd, root, e) ==> SourceLike(cwd, p)
    decreases e, 1, 0
  {
    if e.Dir? {
      FilesReadAreSourceLike(cwd, root, e.entries);
      DescendReadsOnlySources(cwd, root, e, 0);
    }
  }

  lemma {:induction false} DescendReadsOnlySources(cwd: string, root: string, d: Entry, i: nat)
    requires d.Dir? && i <= |d.entries| && Listed(d)
    ensures forall p :: p in Descend(cwd, root, d, i) ==> SourceLike(cwd, p)
    decreases d, 0, |d.entries| - i
  {
    if i < |d.entries| {
      var e := d.entries[i];
      if e.Dir? && KeepDir(e.name) {
        WalkReadsOnlySources(cwd, Join(root, e.name), e);
      }
      DescendReadsOnlySources(cwd, root, d, i + 1);
    }
  }

  lemma AppendAssoc(a: seq<string>, b: seq<string>, c: seq<string>)
    ensures (a + b) + c == a + (b + c)
  {
  }

  lemma FilesReadSnoc(cwd: string, root: string, entries: seq<Entry>, i: nat)
    requires i < |entries|
    ensures FilesRead(cwd, root, entries[..i + 1]) == FilesRead(cwd, root, entries[..i])
      + (if entries[i].File? && Reads(cwd, root, entries[i].name) then [Join(root, entries[i].name)] else [])
  {
    assert entries[..i + 1][..i] == entries[..i];
  }

  /** The loop over one directory's files: each file that passes
      `ShouldProcessFile` and is not binary is read, in listing order. */
  method ReadFiles(cwd: string, root: string, entries: seq<Entry>) returns (paths: seq<string>)
    ensures paths == FilesRead(cwd, root, entries)
  {
    paths := [];
    for i := 0 to |entries|
      invariant paths == FilesRead(cwd, root, entries[..i])
    {
      FilesReadSnoc(cwd, root, entries, i);
      var f := entries[i];
      if f.File? && Reads(cwd, root, f.name) {
        paths := paths + [Join(root, f.name)];
      }
    }
    assert entries[..|entries|] == entries;
  }

  /** The top-down walk as a method: this directory's files, then a loop
      over the kept subdirectories, each walked recursively. */
  method WalkDir(cwd: string, root: string, e: Entry) returns (paths: seq<string>)
    ensures paths == Walk(cwd, root, e)
    decreases e
  {
    if e.File? {
      return [];
    }
    paths := ReadFiles(cwd, root, e.entries);
    for j := 0 to |e.entries|
      invariant paths + Descend(cwd, root, e, j) == Walk(cwd, root, e)
    {
      ghost var before := paths;
      var sub := e.entries[j];
      ghost var part := if sub.Dir? && KeepDir(sub.name) then Walk(cwd, Join(root, sub.name), sub) else [];
      assert Descend(cwd, root, e, j) == part + Descend(cwd, root, e, j + 1);
      if sub.Dir? && KeepDir(sub.name) {
        var more := WalkDir(cwd, Join(root, sub.name), sub);
        paths := paths + more;
      }
      assert paths == before + part;
      AppendAssoc(before, part, Descend(cwd, root, e, j + 1));
    }
  }

  // ------------------------------------------------ root files and sample

  /** The top-level names that are read, in listing order. */
  function RootFiles(listing: seq<string>): (read: seq<string>)
    ensures forall f :: f in read <==> f in listing && f in CoreRootFiles
    ensures forall f :: multiset(read)[f] == if f in CoreRootFiles then multiset(listing)[f] else 0
  {
    if listing == [] then []
    else
      var last := listing[|listing| - 1];
      assert listing == listing[..|listing| - 1] + [last];
      RootFiles(listing[..|listing| - 1]) + (if last in CoreRootFiles then [last] else [])
  }

  /** With a single core root name, the root scan reads that name once
      per occurrence in the listing and nothing else, so its order is
      fixed. */
  lemma RootFilesAreServerPy(listing: seq<string>)
    ensures forall i :: 0 <= i < |RootFiles(listing)| ==> RootFiles(listing)[i] == "server.py"
    ensures |RootFiles(listing)| == multiset(listing)["server.py"]
  {
    var read := RootFiles(listing);
    assert |read| == |multiset(read)|;
    forall i | 0 <= i < |read| ensures read[i] == "server.py" {
      assert read[i] in read;
    }
    assert multiset(read) == multiset{}[("server.py") := multiset(read)["server.py"]] by {
      forall f ensures multiset(read)[f] == multiset{}[("server.py") := multiset(read)["server.py"]][f] {
      }
    }
  }

  lemma {:induction false} RootFilesWithoutCoreNames(listing: seq<string>)
    requires forall f :: f in CoreRootFiles ==> f !in listing
    ensures RootFiles(listing) == []
  {
    if listing != [] {
      RootFilesWithoutCoreNames(listing[..|listing| - 1]);
    }
  }

  /** A directory listing names each entry once, so at most one top-level
      file, the single core file, is read. */
  lemma {:induction false} RootScanReadsAtMostOne(listing: seq<string>)
    requires Distinct(listing)
    ensures |RootFiles(listing)| <= |CoreRootFiles|
  {
    if listing != [] {
      var init := listing[..|listing| - 1];
      var last := listing[|listing| - 1];
      assert Distinct(init);
      RootScanReadsAtMostOne(init);
      if last in CoreRootFiles {
        assert last !in init;
        RootFilesWithoutCoreNames(init);
      }
    }
  }

  method ScanRoot(listing: seq<string>) returns (read: seq<string>)
    ensures read == RootFiles(listing)
  {
    read := [];
    for i := 0 to |listing|
      invariant read == RootFiles(listing[..i])
    {
      assert listing[..i + 1][..i] == listing[..i];
      if listing[i] in CoreRootFiles {
        read := read + [listing[i]];
      }
    }
    assert listing[..|listing|] == listing;
  }

  /** The sample puzzle: the first listed name ending in `.json`, if any. */
  function FirstJson(listing: seq<string>): (r: Option<string>)
    ensures r.None? <==> forall i :: 0 <= i < |listing| ==> !EndsWith(listing[i], ".json")
    ensures r.Some? ==> exists i :: 0 <= i < |listing| && listing[i] == r.value
                          && EndsWith(listing[i], ".json")
                          && forall j :: 0 <= j < i ==> !EndsWith(listing[j], ".json")
  {
    if listing == [] then None
    else if EndsWith(listing[0], ".json") then Some(listing[0])
    else
      var r := FirstJson(listing[1..]);
      assert forall i :: 1 <= i < |listing| ==> listing[i] == listing[1..][i - 1];
      if r.Some? then
        var i :| 0 <= i < |listing[1..]| && listing[1..][i] == r.value
                 && EndsWith(listing[1..][i], ".json")
                 && forall j :: 0 <= j < i ==> !EndsWith(listing[1..][j], ".json");
        assert listing[i + 1] == r.value;
        assert forall j :: 0 <= j < i + 1 ==> !EndsWith(listing[j], ".json") by {
          forall j | 0 <= j < i + 1 ensures !EndsWith(listing[j], ".json") {
            if j > 0 { assert listing[j] == listing[1..][j - 1]; }
          }
        }
        r
      else r
  }

  /** What the path `puzzles` is on disk: missing, a regular file, or a
      directory with its listing. */
  datatype PuzzlesPath = NoPuzzles | PuzzlesFile | PuzzlesListing(names: seq<string>)

  const NotADirectory := "NotADirectoryError: 'puzzles'"

  /** The sample name: none when `puzzles` is missing, otherwise the first
      `.json` name of its listing, if any. Listing a regular file raises. */
  function SampleName(puzzles: PuzzlesPath): Result<Option<string>, string> {
    match puzzles
    case NoPuzzles => Success(None)
    case PuzzlesFile => Failure(NotADirectory)
    case PuzzlesListing(names) => Success(FirstJson(names))
  }

  /** The sampled puzzle path, at most one; the scan fails exactly when
      `puzzles` exists but is not a directory. */
  function Sample(puzzles: PuzzlesPath): (r: Result<seq<string>, string>)
    ensures r.Failure? <==> puzzles.PuzzlesFile?
    ensures r.Success? ==> |r.value| <= 1
    ensures r.Success? ==>
      (r.value != [] <==> puzzles.PuzzlesListing? && exists i :: 0 <= i < |puzzles.names| && EndsWith(puzzles.names[i], ".json"))
    ensures r.Success? && r.value != [] ==>
      puzzles.PuzzlesListing? && FirstJson(puzzles.names).Some? && r.value == [Join(PuzzlesDir, FirstJson(puzzles.names).value)]
  {
    match SampleName(puzzles)
    case Failure(e) => Failure(e)
    case Success(None) => Success([])
    case Success(Some(f)) => Success([Join(PuzzlesDir, f)])
  }

  /** The files under the core directories; `trees[i]` is the tree at
      `CoreDirs[i]`, `None` when that path does not exist. */
  function CoreFiles(cwd: string, trees: seq<Option<Entry>>): seq<string>
    requires |trees| <= |CoreDirs|
  {
    if trees == [] then []
    else
      var n := |trees| - 1;
      CoreFiles(cwd, trees[..n])
        + (match trees[n] case None => [] case Some(t) => Walk(cwd, CoreDirs[n], t))
  }

  /** The loop over the core directories: each one that exists is walked,
      in order. */
  method WalkCoreDirs(cwd: string, trees: seq<Option<Entry>>) returns (paths: seq<string>)
    requires |trees| == |CoreDirs|
    ensures paths == CoreFiles(cwd, trees)
  {
    paths := [];
    for i := 0 to |CoreDirs|
      invariant paths == CoreFiles(cwd, trees[..i])
    {
      assert trees[..i + 1][..i] == trees[..i];
      match trees[i]
      case None =>
      case Some(t) =>
        var more := WalkDir(cwd, CoreDirs[i], t);
        paths := paths + more;
    }
    assert trees[..|CoreDirs|] == trees;
  }

  /** `collect_files`: the paths it reads, in order, and the count it
      reports, which is the number of paths; or the error that ends the
      scan when `puzzles` is a regular file. */
  method CollectFiles(cwd: string, rootListing: seq<string>, trees: seq<Option<Entry>>, puzzles: PuzzlesPath)
    returns (r: Result<seq<string>, string>, processed: nat)
    requires |trees| == |CoreDirs|
    ensures r.Failure? <==> puzzles.PuzzlesFile?
    ensures r.Success? ==>
      Sample(puzzles).Success? && r.value == RootFiles(rootListing) + CoreFiles(cwd, trees) + Sample(puzzles).value
    ensures r.Success? ==> processed == |r.value|
  {
    var root := ScanRoot(rootListing);
    var core := WalkCoreDirs(cwd, trees);
    var paths := root + core;
    processed := |paths|;
    var sample := SampleName(puzzles);
    if sample.Failure? {
      return Failure(sample.error), processed;
    }
    if sample.value.Some? {
      paths := paths + [Join(PuzzlesDir, sample.value.value)];
      processed := processed + 1;
    }
    r := Success(paths);
  }
}
