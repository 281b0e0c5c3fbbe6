/**
 * An abstract filesystem: a set of directories and a map from file paths to
 * contents, with paths as sequences of segments. What the core asks of the real
 * filesystem (is_dir, is_file, recursive mkdir, file_put_contents) is stated on
 * this value, and the class FileSystem is the mutable filesystem those calls act on.
 */
module FileSystem {
  import opened Strings
  import opened Outcomes

  type Path = seq<string>

  /** The segments of a split path that name something: empty and "." segments are dropped. */
  function Segments(parts: seq<string>): (p: Path)
    ensures |p| <= |parts|
    ensures forall i :: 0 <= i < |p| ==> p[i] != "" && p[i] != "."
  {
    if parts == [] then []
    else (if parts[0] == "" || parts[0] == "." then [] else [parts[0]]) + Segments(parts[1..])
  }

  /** How the operating system reads a path string: runs of `/` separate segments and "." is
      the directory itself. Every path is taken as absolute. */
  function Resolve(s: string): Path
  {
    Segments(Split(s, '/'))
  }

  lemma {:induction false} SegmentsConcat(a: seq<string>, b: seq<string>)
    ensures Segments(a + b) == Segments(a) + Segments(b)
    decreases |a|
  {
    if a != [] {
      assert (a + b)[1..] == a[1..] + b;
      SegmentsConcat(a[1..], b);
    } else {
      assert a + b == b;
    }
  }

  /** Joining two path strings with a slash joins their resolved paths. */
  lemma ResolveConcat(a: string, b: string)
    ensures Resolve(a + "/" + b) == Resolve(a) + Resolve(b)
  {
    SplitConcat(a, b, '/');
    SegmentsConcat(Split(a, '/'), Split(b, '/'));
  }

  /** A name with no slash that is neither empty nor "." resolves to itself. */
  lemma ResolveName(name: string)
    requires '/' !in name && name != "" && name != "."
    ensures Resolve(name) == [name]
  {
    SplitWithout(name, '/');
  }

  /** Every prefix of a path, the path itself and the root included. */
  function Prefixes(p: Path): (r: set<Path>)
    ensures p in r && [] in r
  {
    assert p[..|p|] == p && p[..0] == [];
    set k | 0 <= k <= |p| :: p[..k]
  }

  /** A snapshot of the filesystem. */
  datatype Tree = Tree(dirs: set<Path>, files: map<Path, string>)

  /** What every real filesystem satisfies: the root is a directory, the ancestors of a
      directory are directories, a file lives in a directory, and nothing is both. */
  ghost predicate Valid(t: Tree)
  {
    && [] in t.dirs
    && (forall d, k :: d in t.dirs && 0 <= k <= |d| ==> d[..k] in t.dirs)
    && (forall f :: f in t.files ==> f != [] && f[..|f| - 1] in t.dirs)
    && (forall d :: d in t.dirs ==> d !in t.files)
  }

  /** mkdir($path, $mode, true): fails when the path already exists or when one of its
      prefixes (the path included) is a file; otherwise creates every missing ancestor. */
  function MakeDirectories(t: Tree, p: Path): Option<Tree>
  {
    if p in t.dirs || (exists k :: 0 <= k <= |p| && p[..k] in t.files) then None
    else Some(Tree(t.dirs + Prefixes(p), t.files))
  }

  /** file_put_contents($path, $data): the number of bytes written, or None for PHP's
      false when the path is a directory or its parent is not one. An existing file is
      overwritten. */
  function WriteFile(t: Tree, p: Path, data: string): (Tree, Option<nat>)
  {
    if p == [] || p in t.dirs || p[..|p| - 1] !in t.dirs then (t, None)
    else (Tree(t.dirs, t.files[p := data]), Some(|data|))
  }

  /** A recursive mkdir keeps the filesystem well formed. */
  lemma MakeDirectoriesValid(t: Tree, p: Path)
    requires Valid(t) && MakeDirectories(t, p).Some?
    ensures Valid(MakeDirectories(t, p).value)
  {
    var u := MakeDirectories(t, p).value;
    forall d, k | d in u.dirs && 0 <= k <= |d| ensures d[..k] in u.dirs {
      if d !in t.dirs {
        var j :| 0 <= j <= |p| && d == p[..j];
        assert d[..k] == p[..k];
      }
    }
    forall d | d in u.dirs ensures d !in u.files {
      if d !in t.dirs {
        var j :| 0 <= j <= |p| && d == p[..j];
        assert d !in t.files;
      }
    }
  }

  /** On a well-formed filesystem, a recursive mkdir of a missing directory fails exactly when
      a prefix of the path is a file; when it succeeds the path and all its ancestors are
      directories, and nothing else changes. */
  lemma MakeDirectoriesOutcome(t: Tree, p: Path)
    requires Valid(t) && p !in t.dirs
    ensures MakeDirectories(t, p).None? <==> exists k :: 0 <= k <= |p| && p[..k] in t.files
    ensures MakeDirectories(t, p).Some? ==>
      var u := MakeDirectories(t, p).value;
      && u.files == t.files && t.dirs <= u.dirs
      && (forall k :: 0 <= k <= |p| ==> p[..k] in u.dirs)
      && (forall d :: d in u.dirs && d !in t.dirs ==> exists k :: 0 <= k <= |p| && d == p[..k])
  {
  }

  /** A successful write keeps the filesystem well formed. */
  lemma WriteFileValid(t: Tree, p: Path, data: string)
    requires Valid(t) && WriteFile(t, p, data).1.Some?
    ensures Valid(WriteFile(t, p, data).0)
  {
  }

  /** The mutable filesystem the project writes into. */
  class FileSystem {
    var dirs: set<Path>
    var files: map<Path, string>

    constructor (t: Tree)
      ensures Snapshot() == t
    {
      dirs := t.dirs;
      files := t.files;
    }

    function Snapshot(): Tree
      reads this
    {
      Tree(dirs, files)
    }

    /** is_dir($path) */
    predicate IsDir(p: Path)
      reads this
    {
      p in dirs
    }

    /** is_file($path) */
    predicate IsFile(p: Path)
      reads this
    {
      p in files
    }

    /** mkdir($path, $mode, true) */
    method Mkdir(p: Path) returns (ok: bool)
      modifies this
      ensures ok == MakeDirectories(old(Snapshot()), p).Some?
      ensures Snapshot() == if ok then MakeDirectories(old(Snapshot()), p).value else old(Snapshot())
    {
      if p in dirs || exists k :: 0 <= k <= |p| && p[..k] in files {
        ok := false;
      } else {
        dirs := dirs + Prefixes(p);
        ok := true;
      }
    }

    /** file_put_contents($path, $data) */
    method PutContents(p: Path, data: string) returns (written: Option<nat>)
      modifies this
      ensures (Snapshot(), written) == WriteFile(old(Snapshot()), p, data)
    {
      if p == [] || p in dirs || p[..|p| - 1] !in dirs {
        written := None;
      } else {
        files := files[p := data];
        written := Some(|data|);
      }
    }
  }
}
