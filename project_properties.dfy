/**
 * What a project's operations guarantee, proved on the value-level semantics of
 * ProjectSpec (which the class Projection.Project is proved to follow).
 */
module ProjectProperties {
  import opened Strings
  import opened Outcomes
  import opened FileSystem
  import opened Twig
  import opened ConsoleAware
  import opened ProjectSpec

  /** Nothing is ever removed: directories stay directories and files stay files. */
  predicate Grows(t: Tree, u: Tree)
  {
    t.dirs <= u.dirs && t.files.Keys <= u.files.Keys
  }

  // ---------------------------------------------------------------------------
  // createDirectory

  /** createDirectory's three outcomes: false with nothing changed when the directory
      exists; true when it was missing and no prefix of it is a file, with the directory
      and all its ancestors now present, no other directory added and no file touched;
      otherwise a RuntimeException naming the trimmed directory and the root, with
      nothing changed. */
  lemma CreateDirectoryOutcome(kind: Kind, root: string, w: World, directory: string)
    ensures var (w1, r) := CreateDirectory(kind, root, w, directory);
            var target := DirectoryTarget(root, directory);
            && (r == Ok(false) <==> target in w.tree.dirs)
            && (r == Ok(true) <==> target !in w.tree.dirs && forall k :: 0 <= k <= |target| ==> target[..k] !in w.tree.files)
            && (r.Err? <==> target !in w.tree.dirs && exists k :: 0 <= k <= |target| && target[..k] in w.tree.files)
            && (r == Ok(false) || r.Err? ==> w1.tree == w.tree)
            && (r == Ok(true) ==> && w1.tree.files == w.tree.files && w.tree.dirs <= w1.tree.dirs
                                  && (forall k :: 0 <= k <= |target| ==> target[..k] in w1.tree.dirs)
                                  && forall d :: d in w1.tree.dirs && d !in w.tree.dirs ==>
                                       exists k :: 0 <= k <= |target| && d == target[..k])
            && (r.Err? ==> r.error == Runtime(DirectoryMessage(Trim(directory, '/'), root), None))
  {
    var target := DirectoryTarget(root, directory);
    if target !in w.tree.dirs && MakeDirectories(w.tree, target).Some? {
      var t := MakeDirectories(w.tree, target).value;
      forall k | 0 <= k <= |target| ensures target[..k] in t.dirs {
        assert target[..k] in Prefixes(target);
      }
    }
  }

  /** createDirectory is idempotent: once it has returned normally, calling it again returns
      false and changes nothing, the log included. */
  lemma CreateDirectoryTwice(kind: Kind, root: string, w: World, directory: string)
    requires CreateDirectory(kind, root, w, directory).1.Ok?
    ensures var w1 := CreateDirectory(kind, root, w, directory).0;
            CreateDirectory(kind, root, w1, directory) == (w1, Ok(false))
  {
    CreateDirectoryOutcome(kind, root, w, directory);
    var target := DirectoryTarget(root, directory);
    assert target == target[..|target|];
  }

  /** On a missing directory the two calls in a row return true, then false. */
  lemma CreateDirectoryTrueThenFalse(kind: Kind, root: string, w: World, directory: string)
    requires DirectoryTarget(root, directory) !in w.tree.dirs
    requires CreateDirectory(kind, root, w, directory).1.Ok?
    ensures CreateDirectory(kind, root, w, directory).1 == Ok(true)
    ensures var w1 := CreateDirectory(kind, root, w, directory).0;
            CreateDirectory(kind, root, w1, directory).1 == Ok(false)
  {
    CreateDirectoryTwice(kind, root, w, directory);
  }

  /** The console-aware createDirectory has exactly the parent's result and filesystem
      effect, and appends one `+dir` line exactly when the parent created the directory. */
  lemma ConsoleCreateDirectoryLog(root: string, w: World, directory: string)
    ensures var (w1, r) := CreateDirectory(ConsoleAware, root, w, directory);
            var (p1, pr) := CreateDirectory(Plain, root, w, directory);
            && r == pr && w1.tree == p1.tree
            && w1.output == w.output + (if r == Ok(true) then [DirLine(root, directory)] else [])
  {
    var (b1, br) := BaseCreateDirectory(root, w, directory);
    assert b1.output == w.output;
    if br == Ok(true) {
      assert CreateDirectory(ConsoleAware, root, w, directory) == (b1.(output := w.output + [DirLine(root, directory)]), br);
    } else {
      assert CreateDirectory(ConsoleAware, root, w, directory) == (b1, br);
      assert w.output + [] == w.output;
    }
  }

  /** A recursive mkdir keeps the filesystem well formed, so does createDirectory. */
  lemma CreateDirectoryValid(kind: Kind, root: string, w: World, directory: string)
    requires Valid(w.tree)
    ensures Valid(CreateDirectory(kind, root, w, directory).0.tree)
  {
    var target := DirectoryTarget(root, directory);
    if target !in w.tree.dirs && MakeDirectories(w.tree, target).Some? {
      MakeDirectoriesValid(w.tree, target);
    }
  }

  /** What createDirectory does to the filesystem, and what it returns, depends on the
      filesystem alone: not on the log, nor on whether the project is console aware. */
  lemma CreateDirectorySameEffect(k1: Kind, k2: Kind, root: string, w1: World, w2: World, directory: string)
    requires w1.tree == w2.tree
    ensures CreateDirectory(k1, root, w1, directory).0.tree == CreateDirectory(k2, root, w2, directory).0.tree
    ensures CreateDirectory(k1, root, w1, directory).1 == CreateDirectory(k2, root, w2, directory).1
  {
    CreateDirectoryBase(k1, root, w1, directory);
    CreateDirectoryBase(k2, root, w2, directory);
    var target := DirectoryTarget(root, directory);
    if target !in w1.tree.dirs {
      assert MakeDirectories(w1.tree, target) == MakeDirectories(w2.tree, target);
    }
  }

  /** Whichever class runs it, createDirectory has the parent's filesystem effect and result. */
  lemma CreateDirectoryBase(kind: Kind, root: string, w: World, directory: string)
    ensures CreateDirectory(kind, root, w, directory).0.tree == BaseCreateDirectory(root, w, directory).0.tree
    ensures CreateDirectory(kind, root, w, directory).1 == BaseCreateDirectory(root, w, directory).1
  {
    if kind == ConsoleAware {
      var (b, r) := BaseCreateDirectory(root, w, directory);
      assert CreateDirectory(kind, root, w, directory) ==
        if r == Ok(true) then (b.(output := b.output + [DirLine(root, directory)]), r) else (b, r);
    }
  }

  // ---------------------------------------------------------------------------
  // createFile

  /** A template that cannot be loaded is an InvalidArgumentException chaining Twig's error,
      raised before anything is touched: the filesystem and the log are as they were. */
  lemma CreateFileTemplateMissing(kind: Kind, root: string, env: Environment, w: World,
                                  template: string, path: string, vars: Vars)
    requires env.render(template, vars).NotLoadable?
    ensures CreateFile(kind, root, env, w, template, path, vars) ==
      (w, Fail(InvalidArgument(TemplateMessage(template), Some(TwigError(env.render(template, vars).reason)))))
  {
  }

  /** createDirectory never changes a file. */
  lemma CreateDirectoryKeepsFiles(kind: Kind, root: string, w: World, directory: string)
    ensures CreateDirectory(kind, root, w, directory).0.tree.files == w.tree.files
    ensures w.tree.dirs <= CreateDirectory(kind, root, w, directory).0.tree.dirs
  {
    CreateDirectoryOutcome(kind, root, w, directory);
  }

  /** The is_dir check and the parent's creation never change a file or lose a directory. */
  lemma EnsureParentKeepsFiles(kind: Kind, root: string, w: World, path: string)
    ensures EnsureParent(kind, root, w, path).0.tree.files == w.tree.files
    ensures w.tree.dirs <= EnsureParent(kind, root, w, path).0.tree.dirs
  {
    if FileParent(root, path) !in w.tree.dirs {
      CreateDirectoryKeepsFiles(kind, root, w, Dirname(Trim(path, '/')));
    }
  }

  /** A write that counts as success stored non-empty text at the target, inside a
      directory, and changed nothing else. */
  lemma PutRenderedWrites(root: string, w: World, path: string, contents: string)
    requires PutRendered(root, w, path, contents).1.Pass?
    ensures var target := FileTarget(root, path);
            var u := PutRendered(root, w, path, contents).0.tree;
            && contents != ""
            && target != [] && target[..|target| - 1] in u.dirs
            && u == Tree(w.tree.dirs, w.tree.files[target := contents])
  {
  }

  /** The console-aware createFile has the parent's filesystem effect and outcome. */
  lemma CreateFileBase(kind: Kind, root: string, env: Environment, w: World,
                       template: string, path: string, vars: Vars)
    ensures CreateFile(kind, root, env, w, template, path, vars).0.tree == BaseCreateFile(kind, root, env, w, template, path, vars).0.tree
    ensures CreateFile(kind, root, env, w, template, path, vars).1 == BaseCreateFile(kind, root, env, w, template, path, vars).1
  {
  }

  /** createFile in steps: a template that does not render changes nothing; otherwise the
      parent's creation, then, unless it threw, the write. */
  lemma CreateFileSteps(kind: Kind, root: string, env: Environment, w: World,
                        template: string, path: string, vars: Vars)
    ensures !env.render(template, vars).Rendered? ==>
      && CreateFile(kind, root, env, w, template, path, vars).0.tree == w.tree
      && CreateFile(kind, root, env, w, template, path, vars).1.Fail?
    ensures env.render(template, vars).Rendered? ==>
      var contents := env.render(template, vars).text;
      var (w1, r1) := EnsureParent(kind, root, w, path);
      && CreateFile(kind, root, env, w, template, path, vars).0.tree ==
           (if r1.Err? then w1.tree else WriteFile(w1.tree, FileTarget(root, path), contents).0)
      && CreateFile(kind, root, env, w, template, path, vars).1 ==
           (if r1.Err? then Fail(r1.error) else PutRendered(root, w1, path, contents).1)
  {
    CreateFileBase(kind, root, env, w, template, path, vars);
    if env.render(template, vars).Rendered? {
      var contents := env.render(template, vars).text;
      assert BaseCreateFile(kind, root, env, w, template, path, vars) == StoreRendered(kind, root, w, path, contents);
    }
  }

  /** A createFile that returns normally leaves exactly the rendered, non-empty text at
      rtrim(root, '/') . '/' . trim(path, '/'), overwriting what was there, inside a
      directory; every other file is as it was, and no directory disappears. */
  lemma CreateFileWrites(kind: Kind, root: string, env: Environment, w: World,
                         template: string, path: string, vars: Vars)
    requires CreateFile(kind, root, env, w, template, path, vars).1.Pass?
    ensures env.render(template, vars).Rendered?
    ensures var contents := env.render(template, vars).text;
            var target := FileTarget(root, path);
            var u := CreateFile(kind, root, env, w, template, path, vars).0.tree;
            && contents != ""
            && target != [] && target[..|target| - 1] in u.dirs
            && w.tree.dirs <= u.dirs
            && u.files == w.tree.files[target := contents]
  {
    CreateFileSteps(kind, root, env, w, template, path, vars);
    var contents := env.render(template, vars).text;
    var w1 := EnsureParent(kind, root, w, path).0;
    EnsureParentKeepsFiles(kind, root, w, path);
    PutRenderedWrites(root, w1, path, contents);
  }

  /** Hence: the target holds the rendered text and every other file is untouched. */
  lemma CreateFileOthersUntouched(kind: Kind, root: string, env: Environment, w: World,
                                  template: string, path: string, vars: Vars)
    requires CreateFile(kind, root, env, w, template, path, vars).1.Pass?
    ensures var u := CreateFile(kind, root, env, w, template, path, vars).0.tree;
            && FileTarget(root, path) in u.files
            && u.files[FileTarget(root, path)] == env.render(template, vars).text
            && w.tree.files.Keys <= u.files.Keys
            && forall f :: f in u.files && f != FileTarget(root, path) ==> f in w.tree.files && u.files[f] == w.tree.files[f]
  {
    CreateFileWrites(kind, root, env, w, template, path, vars);
  }

  /** The only exception the parent's creation raises names the file's trimmed directory. */
  lemma EnsureParentError(kind: Kind, root: string, w: World, path: string)
    ensures EnsureParent(kind, root, w, path).1.Err? ==>
      EnsureParent(kind, root, w, path).1.error == Runtime(DirectoryMessage(Trim(Dirname(Trim(path, '/')), '/'), root), None)
  {
    if FileParent(root, path) !in w.tree.dirs {
      CreateDirectoryOutcome(kind, root, w, Dirname(Trim(path, '/')));
    }
  }

  /** Empty rendered text is always an error: file_put_contents writes 0 bytes, which the
      code takes for failure, unless creating the parent directory failed first. */
  lemma CreateFileEmpty(kind: Kind, root: string, env: Environment, w: World,
                        template: string, path: string, vars: Vars)
    requires env.render(template, vars) == Rendered("")
    ensures var r := CreateFile(kind, root, env, w, template, path, vars).1;
            r == Fail(Runtime(FileMessage(Trim(path, '/'), root), None))
            || r == Fail(Runtime(DirectoryMessage(Trim(Dirname(Trim(path, '/')), '/'), root), None))
  {
    CreateFileBase(kind, root, env, w, template, path, vars);
    EnsureParentError(kind, root, w, path);
    var (w1, r1) := EnsureParent(kind, root, w, path);
    assert BaseCreateFile(kind, root, env, w, template, path, vars) == StoreRendered(kind, root, w, path, "");
    if r1.Ok? {
      assert StoreRendered(kind, root, w, path, "") == PutRendered(root, w1, path, "");
    }
  }

  /** The empty file is written before the error: when the parent step returned normally
      and the target can be written, the filesystem after createFile is the one after the
      parent step with the target holding "", and the error is "Cannot create file". */
  lemma CreateFileEmptyWritten(kind: Kind, root: string, env: Environment, w: World,
                               template: string, path: string, vars: Vars)
    requires env.render(template, vars) == Rendered("")
    requires EnsureParent(kind, root, w, path).1.Ok?
    requires var p := FileTarget(root, path);
             var t := EnsureParent(kind, root, w, path).0.tree;
             p != [] && p !in t.dirs && p[..|p| - 1] in t.dirs
    ensures var t := EnsureParent(kind, root, w, path).0.tree;
            var (w2, r) := CreateFile(kind, root, env, w, template, path, vars);
            && w2.tree == Tree(t.dirs, t.files[FileTarget(root, path) := ""])
            && r == Fail(Runtime(FileMessage(Trim(path, '/'), root), None))
  {
    CreateFileBase(kind, root, env, w, template, path, vars);
    var (w1, r1) := EnsureParent(kind, root, w, path);
    assert BaseCreateFile(kind, root, env, w, template, path, vars) == StoreRendered(kind, root, w, path, "");
    assert StoreRendered(kind, root, w, path, "") == PutRendered(root, w1, path, "");
  }

  /** What the is_dir check and the parent's creation do to the filesystem depends on the
      filesystem alone. */
  lemma EnsureParentSameEffect(k1: Kind, k2: Kind, root: string, w1: World, w2: World, path: string)
    requires w1.tree == w2.tree
    ensures EnsureParent(k1, root, w1, path).0.tree == EnsureParent(k2, root, w2, path).0.tree
    ensures EnsureParent(k1, root, w1, path).1 == EnsureParent(k2, root, w2, path).1
  {
    if FileParent(root, path) !in w1.tree.dirs {
      CreateDirectorySameEffect(k1, k2, root, w1, w2, Dirname(Trim(path, '/')));
    }
  }

  /** What createFile does to the filesystem, and its outcome, depend on the filesystem
      alone, whichever class handles the virtual calls. */
  lemma CreateFileSameEffect(k1: Kind, k2: Kind, root: string, env: Environment, w1: World, w2: World,
                             template: string, path: string, vars: Vars)
    requires w1.tree == w2.tree
    ensures CreateFile(k1, root, env, w1, template, path, vars).0.tree == CreateFile(k2, root, env, w2, template, path, vars).0.tree
    ensures CreateFile(k1, root, env, w1, template, path, vars).1 == CreateFile(k2, root, env, w2, template, path, vars).1
  {
    CreateFileBase(k1, root, env, w1, template, path, vars);
    CreateFileBase(k2, root, env, w2, template, path, vars);
    EnsureParentSameEffect(k1, k2, root, w1, w2, path);
  }

  /** The console-aware is_dir check and parent creation log one `+dir` line exactly when
      the parent directory was missing and was created. */
  lemma EnsureParentLog(root: string, w: World, path: string)
    ensures var (w1, r) := EnsureParent(ConsoleAware, root, w, path);
            w1.output == w.output + (if FileParent(root, path) !in w.tree.dirs && r == Ok(true)
                                     then [DirLine(root, Dirname(Trim(path, '/')))] else [])
  {
    if FileParent(root, path) !in w.tree.dirs {
      ConsoleCreateDirectoryLog(root, w, Dirname(Trim(path, '/')));
    } else {
      assert w.output + [] == w.output;
    }
  }

  /** The parent's createFile logs only through the parent-directory creation, and returns
      normally only after rendering and after that creation returned normally. */
  lemma BaseCreateFileOutput(root: string, env: Environment, w: World,
                             template: string, path: string, vars: Vars)
    ensures var (b, r) := BaseCreateFile(ConsoleAware, root, env, w, template, path, vars);
            && b.output == (if env.render(template, vars).Rendered? then EnsureParent(ConsoleAware, root, w, path).0.output else w.output)
            && (r.Pass? ==> env.render(template, vars).Rendered? && EnsureParent(ConsoleAware, root, w, path).1.Ok?)
  {
    match env.render(template, vars)
    case NotLoadable(_) =>
    case Failed(_) =>
    case Rendered(contents) =>
      assert BaseCreateFile(ConsoleAware, root, env, w, template, path, vars) == StoreRendered(ConsoleAware, root, w, path, contents);
      var (w1, r1) := EnsureParent(ConsoleAware, root, w, path);
      if r1.Ok? {
        assert StoreRendered(ConsoleAware, root, w, path, contents) == PutRendered(root, w1, path, contents);
      }
  }

  /** The console-aware createFile logs `+file` after a normal return, preceded by `+dir`
      when it had to create the missing parent; on an exception it logs no `+file` line,
      though a `+dir` line for a parent it created stays. */
  lemma ConsoleCreateFileLog(root: string, env: Environment, w: World,
                             template: string, path: string, vars: Vars)
    ensures var (w1, r) := CreateFile(ConsoleAware, root, env, w, template, path, vars);
            var dir := Dirname(Trim(path, '/'));
            && (r.Pass? && FileParent(root, path) in w.tree.dirs ==>
                  w1.output == w.output + [FileLine(root, path)])
            && (r.Pass? && FileParent(root, path) !in w.tree.dirs && DirectoryTarget(root, dir) !in w.tree.dirs ==>
                  w1.output == w.output + [DirLine(root, dir), FileLine(root, path)])
            && (r.Fail? ==> w1.output == w.output || w1.output == w.output + [DirLine(root, dir)])
  {
    var dir := Dirname(Trim(path, '/'));
    var (b1, br) := BaseCreateFile(ConsoleAware, root, env, w, template, path, vars);
    assert CreateFile(ConsoleAware, root, env, w, template, path, vars) ==
      if br.Pass? then (b1.(output := b1.output + [FileLine(root, path)]), br) else (b1, br);
    BaseCreateFileOutput(root, env, w, template, path, vars);
    EnsureParentLog(root, w, path);
    if FileParent(root, path) !in w.tree.dirs {
      CreateDirectoryOutcome(ConsoleAware, root, w, dir);
      if br.Pass? && DirectoryTarget(root, dir) !in w.tree.dirs {
        var d := DirLine(root, dir);
        var f := FileLine(root, path);
        assert EnsureParent(ConsoleAware, root, w, path).1 == Ok(true);
        assert b1.output == w.output + [d];
        AppendTwo(w.output, d, f);
      }
    }
  }

  lemma AppendTwo(s: seq<string>, a: string, b: string)
    ensures (s + [a]) + [b] == s + [a, b]
  {
  }

  // ---------------------------------------------------------------------------
  // Growth and well-formedness

  lemma CreateDirectoryGrows(kind: Kind, root: string, w: World, directory: string)
    ensures Grows(w.tree, CreateDirectory(kind, root, w, directory).0.tree)
  {
    CreateDirectoryKeepsFiles(kind, root, w, directory);
  }

  /** createFile, whatever its outcome, removes nothing (a failed write may still have left
      the parent directory, or an empty file). */
  lemma CreateFileGrows(kind: Kind, root: string, env: Environment, w: World,
                        template: string, path: string, vars: Vars)
    ensures Grows(w.tree, CreateFile(kind, root, env, w, template, path, vars).0.tree)
  {
    CreateFileSteps(kind, root, env, w, template, path, vars);
    EnsureParentKeepsFiles(kind, root, w, path);
  }

  /** createFile keeps the filesystem well formed. */
  lemma CreateFileValid(kind: Kind, root: string, env: Environment, w: World,
                        template: string, path: string, vars: Vars)
    requires Valid(w.tree)
    ensures Valid(CreateFile(kind, root, env, w, template, path, vars).0.tree)
  {
    CreateFileSteps(kind, root, env, w, template, path, vars);
    if env.render(template, vars).Rendered? {
      var contents := env.render(template, vars).text;
      var w1 := EnsureParent(kind, root, w, path).0;
      if FileParent(root, path) !in w.tree.dirs {
        CreateDirectoryValid(kind, root, w, Dirname(Trim(path, '/')));
      }
      assert Valid(w1.tree);
      var target := FileTarget(root, path);
      if WriteFile(w1.tree, target, contents).1.Some? {
        WriteFileValid(w1.tree, target, contents);
      }
    }
  }

  // ---------------------------------------------------------------------------
  // Derived directories

  /** getSourceDirectory() is the source directory followed by one directory per
      namespace segment (a namespace keeps no `/`, the validator having turned each into `\`). */
  lemma SourceDirectoryResolves(s: Settings)
    requires '/' !in s.namespace
    ensures Resolve(SourceDirectory(s)) == Resolve(s.srcDir) + Segments(Split(s.namespace, '\\'))
  {
    ResolveConcat(s.srcDir, NamespacePath(s));
    TranslateSplit(s.namespace, '\\', '/');
  }

  /** getTestsDirectory() is the tests directory, the namespace segments, then `Tests`. */
  lemma TestsDirectoryResolves(s: Settings)
    requires '/' !in s.namespace
    ensures Resolve(TestsDirectory(s)) == Resolve(TestsDir(s)) + Segments(Split(s.namespace, '\\')) + ["Tests"]
  {
    var inner := TestsDir(s) + "/" + NamespacePath(s);
    assert TestsDirectory(s) == inner + "/" + "Tests";
    ResolveConcat(inner, "Tests");
    ResolveConcat(TestsDir(s), NamespacePath(s));
    TranslateSplit(s.namespace, '\\', '/');
    ResolveName("Tests");
  }
}
