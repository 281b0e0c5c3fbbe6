/**
 * The progress lines a console-aware project prints: `+dir` when it actually created
 * a directory and `+file` when it wrote a file, each followed by a readable path made
 * of the last component of the project root and the trimmed relative path.
 */
module ConsoleAware {
  import opened Strings

  /** basename(rtrim(root, '/')) . '/' . trim(path, '/') */
  function ReadablePath(root: string, path: string): string
  {
    Basename(TrimRight(root, '/')) + "/" + Trim(path, '/')
  }

  function DirLine(root: string, directory: string): string
  {
    "<info>+dir</info> <comment>" + ReadablePath(root, directory) + "</comment>"
  }

  function FileLine(root: string, path: string): string
  {
    "<info>+file</info> <comment>" + ReadablePath(root, path) + "</comment>"
  }

  /** Only the last component of the project root shows: wherever the root lives and
      however many slashes end it, the readable path is that component, a slash and the
      trimmed relative path. */
  lemma {:induction false} ReadablePathUsesLastComponent(parent: string, name: string, slashes: string, path: string)
    requires name != "" && '/' !in name
    requires forall i :: 0 <= i < |slashes| ==> slashes[i] == '/'
    ensures ReadablePath(parent + "/" + name + slashes, path) == name + "/" + Trim(path, '/')
  {
    var root := parent + "/" + name + slashes;
    var bare := parent + "/" + name;
    TrailingSlashes(bare, slashes);
    assert TrimRight(root, '/') == bare;
    TrimRightNoop(bare);
    assert Basename(bare) == LastSegment(bare);
    assert bare == parent + ['/'] + name;
    SplitConcat(parent, name, '/');
    SplitWithout(name, '/');
    var parts := Split(bare, '/');
    assert parts == Split(parent, '/') + [name];
    assert LastSegment(bare) == parts[|parts| - 1] == name;
  }

  lemma {:induction false} TrailingSlashes(s: string, slashes: string)
    requires s != [] && s[|s| - 1] != '/'
    requires forall i :: 0 <= i < |slashes| ==> slashes[i] == '/'
    ensures TrimRight(s + slashes, '/') == s
    decreases |slashes|
  {
    if slashes != [] {
      var t := s + slashes;
      assert t[..|t| - 1] == s + slashes[..|slashes| - 1];
      TrailingSlashes(s, slashes[..|slashes| - 1]);
    } else {
      assert s + slashes == s;
    }
  }

  lemma TrimRightNoop(s: string)
    requires s != [] && s[|s| - 1] != '/'
    ensures TrimRight(s, '/') == s
  {
  }
}
