/**
 * What createStructure guarantees: it removes nothing, keeps the filesystem well
 * formed, does the same to the filesystem whichever class runs it, creates every entry
 * when it returns normally, and on an exception stops at the item that failed, reports
 * that item and leaves what the earlier items made.
 */
module StructureProperties {
  import opened Strings
  import opened Outcomes
  import opened FileSystem
  import opened Twig
  import opened ProjectSpec
  import opened ProjectProperties

  /** base/item for an entry, as the loop builds it. */
  function ItemPath(base: string, entry: (string, Option<string>)): string
  {
    base + "/" + Trim(entry.0, '/')
  }

  /** Where an entry lands: a directory entry is a directory, a file entry a file. */
  predicate Present(t: Tree, root: string, base: string, entry: (string, Option<string>))
  {
    match entry.1
    case None => DirectoryTarget(root, ItemPath(base, entry)) in t.dirs
    case Some(_) => FileTarget(root, ItemPath(base, entry)) in t.files
  }

  lemma GrowsTransitive(t: Tree, u: Tree, v: Tree)
    requires Grows(t, u) && Grows(u, v)
    ensures Grows(t, v)
  {
  }

  /** An entry once present stays present as the filesystem grows. */
  lemma PresentStays(t: Tree, u: Tree, root: string, base: string, entry: (string, Option<string>))
    requires Present(t, root, base, entry) && Grows(t, u)
    ensures Present(u, root, base, entry)
  {
  }

  /** The entries before the last present in one tree, the last in a grown one: all are
      present in the grown one. */
  lemma PresentExtend(t: Tree, u: Tree, root: string, base: string, entries: Structure)
    requires entries != [] && Grows(t, u)
    requires forall j :: 0 <= j < |entries| - 1 ==> Present(t, root, base, entries[j])
    requires Present(u, root, base, entries[|entries| - 1])
    ensures forall j :: 0 <= j < |entries| ==> Present(u, root, base, entries[j])
  {
    forall j | 0 <= j < |entries| ensures Present(u, root, base, entries[j]) {
      if j < |entries| - 1 {
        PresentStays(t, u, root, base, entries[j]);
      }
    }
  }

  // ---------------------------------------------------------------------------
  // One entry

  /** What an entry's own call leaves behind, before the loop's catch. */
  function EntryWorld(kind: Kind, root: string, env: Environment, w: World,
                      base: string, entry: (string, Option<string>), vars: Vars): World
  {
    match entry.1
    case None => CreateDirectory(kind, root, w, ItemPath(base, entry)).0
    case Some(template) => CreateFile(kind, root, env, w, template, ItemPath(base, entry), vars).0
  }

  /** The loop's catch applied to an entry's outcome. */
  function Caught(item: string, base: string, r: Outcome): Outcome
  {
    if r.Fail? && r.error.Runtime? then Fail(Runtime(ItemMessage(item, base), Some(r.error))) else r
  }

  /** One loop step is the entry's own call followed by the catch. */
  lemma CreateItemParts(kind: Kind, root: string, env: Environment, w: World,
                        base: string, entry: (string, Option<string>), vars: Vars)
    ensures CreateItem(kind, root, env, w, base, entry, vars) ==
      (EntryWorld(kind, root, env, w, base, entry, vars), Caught(Trim(entry.0, '/'), base, EntryError(kind, root, env, w, base, entry, vars)))
  {
  }

  lemma CreateItemSameEffect(k1: Kind, k2: Kind, root: string, env: Environment, w1: World, w2: World,
                             base: string, entry: (string, Option<string>), vars: Vars)
    requires w1.tree == w2.tree
    ensures CreateItem(k1, root, env, w1, base, entry, vars).0.tree == CreateItem(k2, root, env, w2, base, entry, vars).0.tree
    ensures CreateItem(k1, root, env, w1, base, entry, vars).1 == CreateItem(k2, root, env, w2, base, entry, vars).1
  {
    CreateItemParts(k1, root, env, w1, base, entry, vars);
    CreateItemParts(k2, root, env, w2, base, entry, vars);
    match entry.1
    case None => CreateDirectorySameEffect(k1, k2, root, w1, w2, ItemPath(base, entry));
    case Some(template) => CreateFileSameEffect(k1, k2, root, env, w1, w2, template, ItemPath(base, entry), vars);
  }

  lemma CreateItemGrows(kind: Kind, root: string, env: Environment, w: World,
                        base: string, entry: (string, Option<string>), vars: Vars)
    ensures Grows(w.tree, CreateItem(kind, root, env, w, base, entry, vars).0.tree)
  {
    CreateItemParts(kind, root, env, w, base, entry, vars);
    match entry.1
    case None => CreateDirectoryGrows(kind, root, w, ItemPath(base, entry));
    case Some(template) => CreateFileGrows(kind, root, env, w, template, ItemPath(base, entry), vars);
  }

  lemma CreateItemValid(kind: Kind, root: string, env: Environment, w: World,
                        base: string, entry: (string, Option<string>), vars: Vars)
    requires Valid(w.tree)
    ensures Valid(CreateItem(kind, root, env, w, base, entry, vars).0.tree)
  {
    CreateItemParts(kind, root, env, w, base, entry, vars);
    match entry.1
    case None => CreateDirectoryValid(kind, root, w, ItemPath(base, entry));
    case Some(template) => CreateFileValid(kind, root, env, w, template, ItemPath(base, entry), vars);
  }

  /** An entry that returned normally is present afterwards. */
  lemma CreateItemPresent(kind: Kind, root: string, env: Environment, w: World,
                          base: string, entry: (string, Option<string>), vars: Vars)
    requires CreateItem(kind, root, env, w, base, entry, vars).1.Pass?
    ensures Present(CreateItem(kind, root, env, w, base, entry, vars).0.tree, root, base, entry)
  {
    var path := ItemPath(base, entry);
    match entry.1
    case None =>
      var (w1, d) := CreateDirectory(kind, root, w, path);
      assert CreateItem(kind, root, env, w, base, entry, vars).0 == w1;
      var target := DirectoryTarget(root, path);
      CreateDirectoryOutcome(kind, root, w, path);
      assert target == target[..|target|];
      assert target in w1.tree.dirs;
    case Some(template) =>
      assert CreateItem(kind, root, env, w, base, entry, vars) == CreateFile(kind, root, env, w, template, path, vars);
      CreateFileOthersUntouched(kind, root, env, w, template, path, vars);
  }

  /** A directory entry that is there already changes nothing, the log included. */
  lemma CreateItemPresentDirectory(kind: Kind, root: string, env: Environment, w: World,
                                   base: string, entry: (string, Option<string>), vars: Vars)
    requires entry.1.None? && Present(w.tree, root, base, entry)
    ensures CreateItem(kind, root, env, w, base, entry, vars) == (w, Pass)
  {
    CreateDirectoryOutcome(kind, root, w, ItemPath(base, entry));
    assert CreateDirectory(kind, root, w, ItemPath(base, entry)) == (w, Ok(false));
  }

  /** createFile throws a RuntimeException (from the filesystem), an
      InvalidArgumentException (a template that cannot be loaded) or a Twig error. */
  lemma CreateFileError(kind: Kind, root: string, env: Environment, w: World,
                        template: string, path: string, vars: Vars)
    requires CreateFile(kind, root, env, w, template, path, vars).1.Fail?
    ensures var e := CreateFile(kind, root, env, w, template, path, vars).1.error;
            e.Runtime? || e.InvalidArgument? || e.TwigError?
  {
    CreateFileBase(kind, root, env, w, template, path, vars);
    match env.render(template, vars)
    case NotLoadable(_) =>
    case Failed(_) =>
    case Rendered(contents) =>
      StoreRenderedError(kind, root, w, path, contents);
  }

  /** Once rendered, the only exceptions are the filesystem's RuntimeExceptions. */
  lemma StoreRenderedError(kind: Kind, root: string, w: World, path: string, contents: string)
    ensures StoreRendered(kind, root, w, path, contents).1.Fail? ==> StoreRendered(kind, root, w, path, contents).1.error.Runtime?
  {
    EnsureParentError(kind, root, w, path);
  }

  /** The error an entry's own call throws, before the loop's catch. */
  function EntryError(kind: Kind, root: string, env: Environment, w: World,
                      base: string, entry: (string, Option<string>), vars: Vars): Outcome
  {
    match entry.1
    case None =>
      var d := CreateDirectory(kind, root, w, ItemPath(base, entry)).1;
      if d.Ok? then Pass else Fail(d.error)
    case Some(template) => CreateFile(kind, root, env, w, template, ItemPath(base, entry), vars).1
  }

  lemma EntryErrorKinds(kind: Kind, root: string, env: Environment, w: World,
                        base: string, entry: (string, Option<string>), vars: Vars)
    ensures var r := EntryError(kind, root, env, w, base, entry, vars);
            r.Fail? ==> r.error.Runtime? || r.error.InvalidArgument? || r.error.TwigError?
  {
    match entry.1
    case None =>
      CreateDirectoryOutcome(kind, root, w, ItemPath(base, entry));
    case Some(template) =>
      if CreateFile(kind, root, env, w, template, ItemPath(base, entry), vars).1.Fail? {
        CreateFileError(kind, root, env, w, template, ItemPath(base, entry), vars);
      }
  }

  /** The loop's catch: a RuntimeException is rethrown as one naming the item and the base,
      chaining the original; a template error or a Twig error passes through unchanged. */
  lemma CreateItemError(kind: Kind, root: string, env: Environment, w: World,
                        base: string, entry: (string, Option<string>), vars: Vars)
    requires CreateItem(kind, root, env, w, base, entry, vars).1.Fail?
    ensures var e := CreateItem(kind, root, env, w, base, entry, vars).1.error;
            && (e.Runtime? || e.InvalidArgument? || e.TwigError?)
            && (e.Runtime? ==> e.message == ItemMessage(Trim(entry.0, '/'), base)
                               && e.previous.Some? && e.previous.value.Runtime?)
  {
    EntryErrorKinds(kind, root, env, w, base, entry, vars);
    CreateItemParts(kind, root, env, w, base, entry, vars);
  }

  // ---------------------------------------------------------------------------
  // The whole loop

  /** The loop over a non-empty structure: the loop over all but the last entry, then the
      last entry unless an earlier one failed. */
  lemma WalkLast(kind: Kind, root: string, env: Environment, w: World,
                 base: string, entries: Structure, vars: Vars)
    requires entries != []
    ensures var (v, r) := Walk(kind, root, env, w, base, entries[..|entries| - 1], vars);
            Walk(kind, root, env, w, base, entries, vars) ==
              if r.Fail? then (v, r) else CreateItem(kind, root, env, v, base, entries[|entries| - 1], vars)
  {
  }

  /** Removing the output log changes no filesystem outcome: the loop does the same to the
      filesystem, with the same outcome, for either class. */
  lemma {:induction false} WalkSameEffect(k1: Kind, k2: Kind, root: string, env: Environment, w1: World, w2: World,
                                          base: string, entries: Structure, vars: Vars)
    requires w1.tree == w2.tree
    ensures Walk(k1, root, env, w1, base, entries, vars).0.tree == Walk(k2, root, env, w2, base, entries, vars).0.tree
    ensures Walk(k1, root, env, w1, base, entries, vars).1 == Walk(k2, root, env, w2, base, entries, vars).1
    decreases |entries|
  {
    if entries != [] {
      WalkLast(k1, root, env, w1, base, entries, vars);
      WalkLast(k2, root, env, w2, base, entries, vars);
      var init := entries[..|entries| - 1];
      WalkSameEffect(k1, k2, root, env, w1, w2, base, init, vars);
      var (v1, r1) := Walk(k1, root, env, w1, base, init, vars);
      var (v2, r2) := Walk(k2, root, env, w2, base, init, vars);
      if r1.Pass? {
        CreateItemSameEffect(k1, k2, root, env, v1, v2, base, entries[|entries| - 1], vars);
      }
    }
  }

  /** createStructure removes nothing, whatever its outcome. */
  lemma {:induction false} WalkGrows(kind: Kind, root: string, env: Environment, w: World,
                                     base: string, entries: Structure, vars: Vars)
    ensures Grows(w.tree, Walk(kind, root, env, w, base, entries, vars).0.tree)
    decreases |entries|
  {
    if entries != [] {
      WalkLast(kind, root, env, w, base, entries, vars);
      var init := entries[..|entries| - 1];
      WalkGrows(kind, root, env, w, base, init, vars);
      var (v, r) := Walk(kind, root, env, w, base, init, vars);
      if r.Pass? {
        CreateItemGrows(kind, root, env, v, base, entries[|entries| - 1], vars);
        GrowsTransitive(w.tree, v.tree, Walk(kind, root, env, w, base, entries, vars).0.tree);
      }
    }
  }

  /** createStructure keeps the filesystem well formed. */
  lemma {:induction false} WalkValid(kind: Kind, root: string, env: Environment, w: World,
                                     base: string, entries: Structure, vars: Vars)
    requires Valid(w.tree)
    ensures Valid(Walk(kind, root, env, w, base, entries, vars).0.tree)
    decreases |entries|
  {
    if entries != [] {
      WalkLast(kind, root, env, w, base, entries, vars);
      var init := entries[..|entries| - 1];
      WalkValid(kind, root, env, w, base, init, vars);
      var (v, r) := Walk(kind, root, env, w, base, init, vars);
      if r.Pass? {
        CreateItemValid(kind, root, env, v, base, entries[|entries| - 1], vars);
      }
    }
  }

  /** When createStructure returns normally every entry is there: each directory entry is a
      directory and each file entry a file. */
  lemma {:induction false} WalkPassCreatesAll(kind: Kind, root: string, env: Environment, w: World,
                                              base: string, entries: Structure, vars: Vars)
    requires Walk(kind, root, env, w, base, entries, vars).1.Pass?
    ensures forall j :: 0 <= j < |entries| ==> Present(Walk(kind, root, env, w, base, entries, vars).0.tree, root, base, entries[j])
    decreases |entries|
  {
    if entries != [] {
      var n := |entries| - 1;
      var init := entries[..n];
      var (v, r) := Walk(kind, root, env, w, base, init, vars);
      WalkPassCreatesAll(kind, root, env, w, base, init, vars);
      assert Walk(kind, root, env, w, base, entries, vars) == CreateItem(kind, root, env, v, base, entries[n], vars);
      var u := CreateItem(kind, root, env, v, base, entries[n], vars).0.tree;
      CreateItemGrows(kind, root, env, v, base, entries[n], vars);
      CreateItemPresent(kind, root, env, v, base, entries[n], vars);
      forall j | 0 <= j < n ensures Present(v.tree, root, base, entries[j]) {
        assert entries[j] == init[j];
      }
      PresentExtend(v.tree, u, root, base, entries);
    }
  }

  /** The loop stops at entry k: the entries before it returned normally and entry k threw. */
  predicate StopsAt(kind: Kind, root: string, env: Environment, w: World,
                    base: string, entries: Structure, vars: Vars, k: nat)
  {
    && k < |entries|
    && Walk(kind, root, env, w, base, entries[..k], vars).1.Pass?
    && Walk(kind, root, env, w, base, entries[..k + 1], vars).1.Fail?
  }

  /** A loop that throws stops at some entry. */
  lemma {:induction false} WalkStopIndex(kind: Kind, root: string, env: Environment, w: World,
                                         base: string, entries: Structure, vars: Vars) returns (k: nat)
    requires Walk(kind, root, env, w, base, entries, vars).1.Fail?
    ensures StopsAt(kind, root, env, w, base, entries, vars, k)
    decreases |entries|
  {
    var n := |entries| - 1;
    var init := entries[..n];
    if Walk(kind, root, env, w, base, init, vars).1.Fail? {
      k := WalkStopIndex(kind, root, env, w, base, init, vars);
      assert init[..k] == entries[..k] && init[..k + 1] == entries[..k + 1];
    } else {
      k := n;
      assert entries[..n + 1] == entries;
    }
  }

  /** An exception out of createStructure comes from the entry the loop stopped at: the walk
      ends as that entry's iteration does, so the exception is a RuntimeException naming that
      item (with the cause chained), or a template or Twig error passed through. */
  lemma WalkError(kind: Kind, root: string, env: Environment, w: World,
                  base: string, entries: Structure, vars: Vars)
    requires Walk(kind, root, env, w, base, entries, vars).1.Fail?
    ensures var e := Walk(kind, root, env, w, base, entries, vars).1.error;
            && (e.Runtime? || e.InvalidArgument? || e.TwigError?)
            && (e.Runtime? ==> e.previous.Some? && e.previous.value.Runtime?)
            && exists k: nat :: StopsAt(kind, root, env, w, base, entries, vars, k)
                 && Walk(kind, root, env, w, base, entries, vars) ==
                      CreateItem(kind, root, env, Walk(kind, root, env, w, base, entries[..k], vars).0, base, entries[k], vars)
                 && (e.Runtime? ==> e.message == ItemMessage(Trim(entries[k].0, '/'), base))
  {
    var k := WalkStopIndex(kind, root, env, w, base, entries, vars);
    WalkStops(kind, root, env, w, base, entries, vars, k + 1);
    WalkStep(kind, root, env, w, base, entries, vars, k);
    var v := Walk(kind, root, env, w, base, entries[..k], vars).0;
    CreateItemError(kind, root, env, v, base, entries[k], vars);
  }

  /** No rollback: when the loop stops at entry k, the walk ends there and every entry
      before k is still on disk. */
  lemma FailureKeepsEarlier(kind: Kind, root: string, env: Environment, w: World,
                            base: string, entries: Structure, vars: Vars, k: nat)
    requires StopsAt(kind, root, env, w, base, entries, vars, k)
    ensures Walk(kind, root, env, w, base, entries, vars) == Walk(kind, root, env, w, base, entries[..k + 1], vars)
    ensures forall j :: 0 <= j < k ==> Present(Walk(kind, root, env, w, base, entries, vars).0.tree, root, base, entries[j])
  {
    WalkStops(kind, root, env, w, base, entries, vars, k + 1);
    var prefix := entries[..k];
    var v := Walk(kind, root, env, w, base, prefix, vars).0;
    WalkPassCreatesAll(kind, root, env, w, base, prefix, vars);
    WalkStep(kind, root, env, w, base, entries, vars, k);
    var u := Walk(kind, root, env, w, base, entries, vars).0.tree;
    CreateItemGrows(kind, root, env, v, base, entries[k], vars);
    forall j | 0 <= j < k ensures Present(u, root, base, entries[j]) {
      assert prefix[j] == entries[j];
      PresentStays(v.tree, u, root, base, entries[j]);
    }
  }

  /** A structure of directories only that is all present already is a no-op: nothing
      changes and the call returns normally, the log included. */
  lemma {:induction false} WalkPresentDirectories(kind: Kind, root: string, env: Environment, w: World,
                                                  base: string, entries: Structure, vars: Vars)
    requires forall j :: 0 <= j < |entries| ==> entries[j].1.None? && Present(w.tree, root, base, entries[j])
    ensures Walk(kind, root, env, w, base, entries, vars) == (w, Pass)
    decreases |entries|
  {
    if entries != [] {
      var n := |entries| - 1;
      assert forall j :: 0 <= j < n ==> entries[..n][j] == entries[j];
      WalkPresentDirectories(kind, root, env, w, base, entries[..n], vars);
      CreateItemPresentDirectory(kind, root, env, w, base, entries[n], vars);
      WalkLast(kind, root, env, w, base, entries, vars);
    }
  }

  /** Running a directories-only structure a second time, after it returned normally, changes
      nothing and returns normally. */
  lemma DirectoriesIdempotent(kind: Kind, root: string, env: Environment, w: World,
                              base: string, entries: Structure, vars: Vars)
    requires forall j :: 0 <= j < |entries| ==> entries[j].1.None?
    requires Walk(kind, root, env, w, base, entries, vars).1.Pass?
    ensures var w1 := Walk(kind, root, env, w, base, entries, vars).0;
            Walk(kind, root, env, w1, base, entries, vars) == (w1, Pass)
  {
    WalkPassCreatesAll(kind, root, env, w, base, entries, vars);
    WalkPresentDirectories(kind, root, env, Walk(kind, root, env, w, base, entries, vars).0, base, entries, vars);
  }
}
