/**
 * What a project does to the filesystem and to its progress log, stated on values.
 * The project configuration is an explicit record; the derived source and tests
 * directories are functions of it; and createDirectory, createFile and
 * createStructure are functions from the state before the call (filesystem and
 * progress log) to the state after it and the call's outcome. The class
 * Projection.Project is proved to behave exactly like these functions.
 *
 * `kind` is the runtime class of the project object: Project itself, or its
 * console-aware subclass, whose overriding createDirectory/createFile also report
 * progress. Project::createFile creates a missing parent with a virtual call, so
 * that call goes through the override when the object is console aware.
 */
module ProjectSpec {
  import opened Strings
  import opened Outcomes
  import opened FileSystem
  import opened Twig
  import opened ConsoleAware

  /** The `tests` setting: false, or the tests directory. */
  datatype Tests = NoTests | TestsIn(dir: string)

  /** The project configuration kept in `.projection.yml`. */
  datatype Settings = Settings(
    name: string, namespace: string,
    authorName: string, authorEmail: string,
    licenseType: string, licenseYears: string,
    srcDir: string, docsDir: string,
    tests: Tests)

  /** The configuration as the nested array the templates receive. */
  function SettingsValue(s: Settings): Value
  {
    Table(map[
      "project" := Table(map["name" := Text(s.name), "namespace" := Text(s.namespace)]),
      "author"  := Table(map["name" := Text(s.authorName), "email" := Text(s.authorEmail)]),
      "license" := Table(map["type" := Text(s.licenseType), "years" := Text(s.licenseYears)]),
      "src"     := Table(map["dir" := Text(s.srcDir)]),
      "docs"    := Table(map["dir" := Text(s.docsDir)]),
      "tests"   := match s.tests
                   case NoTests => Flag(false)
                   case TestsIn(d) => Table(map["dir" := Text(d)])])
  }

  /** The namespace as a relative path: every `\` becomes `/`. */
  function NamespacePath(s: Settings): string
  {
    Translate(s.namespace, '\\', '/')
  }

  /** getSourceDirectory() */
  function SourceDirectory(s: Settings): string
  {
    s.srcDir + "/" + NamespacePath(s)
  }

  /** The configured tests directory; PHP reads null, hence "", when tests are disabled. */
  function TestsDir(s: Settings): string
  {
    match s.tests
    case NoTests => ""
    case TestsIn(d) => d
  }

  /** getTestsDirectory() */
  function TestsDirectory(s: Settings): string
  {
    TestsDir(s) + "/" + NamespacePath(s) + "/Tests"
  }

  /** YAML, abstracted: what parsing a configuration file gives and what dumping a
      configuration writes. */
  datatype Parsed = Parsed(settings: Settings) | Unparsable(reason: string)
  datatype Yaml = Yaml(parse: string -> Parsed, dump: Settings -> string)

  /** The runtime class of a project object. */
  datatype Kind = Plain | ConsoleAware

  /** What the project operations change: the filesystem and the progress log. */
  datatype World = World(tree: Tree, output: seq<string>)

  /** A structure: relative paths in insertion order, each with a template, or None for a
      directory. */
  type Structure = seq<(string, Option<string>)>

  function ConfigPath(root: string): string
  {
    root + "/.projection.yml"
  }

  /** The existence check and parse of Project::createFromConfig. */
  function LoadConfig(t: Tree, root: string, yaml: Yaml): Result<Settings>
  {
    var configPath := ConfigPath(root);
    if Resolve(configPath) !in t.files then
      Err(InvalidArgument("\"" + root + "\" is not a project path (\"" + configPath + "\" does not exist).", None))
    else
      match yaml.parse(t.files[Resolve(configPath)])
      case Parsed(s) => Ok(s)
      case Unparsable(reason) =>
        Err(Runtime("Cannot parse \"" + configPath + "\": " + reason, Some(Runtime(reason, None))))
  }

  function DirectoryMessage(directory: string, root: string): string
  {
    "Cannot create directory \"" + directory + "\" in \"" + root + "\"."
  }

  function FileMessage(path: string, root: string): string
  {
    "Cannot create file \"" + path + "\" in \"" + root + "\"."
  }

  function TemplateMessage(template: string): string
  {
    "Cannot load template \"" + template + "\"."
  }

  function ItemMessage(item: string, base: string): string
  {
    "Cannot create item \"" + item + "\" in \"" + base + "\"."
  }

  /** The directory createDirectory($directory) acts on. */
  function DirectoryTarget(root: string, directory: string): Path
  {
    Resolve(root + "/" + Trim(directory, '/'))
  }

  /** The file createFile($template, $path) writes. */
  function FileTarget(root: string, path: string): Path
  {
    Resolve(TrimRight(root, '/') + "/" + Trim(path, '/'))
  }

  /** The directory createFile checks with is_dir before writing. */
  function FileParent(root: string, path: string): Path
  {
    Resolve(Dirname(TrimRight(root, '/') + "/" + Trim(path, '/')))
  }

  /** Project::createDirectory: false when the directory exists; otherwise a recursive
      mkdir and true, or a RuntimeException naming the trimmed directory and the root. */
  function BaseCreateDirectory(root: string, w: World, directory: string): (World, Result<bool>)
  {
    var target := DirectoryTarget(root, directory);
    if target in w.tree.dirs then (w, Ok(false))
    else
      match MakeDirectories(w.tree, target)
      case None => (w, Err(Runtime(DirectoryMessage(Trim(directory, '/'), root), None)))
      case Some(t) => (w.(tree := t), Ok(true))
  }

  /** ConsoleAwareProject::createDirectory: the parent's call, then a `+dir` line when it
      returned true. */
  function ConsoleCreateDirectory(root: string, w: World, directory: string): (World, Result<bool>)
  {
    var (w1, r) := BaseCreateDirectory(root, w, directory);
    if r == Ok(true) then (w1.(output := w1.output + [DirLine(root, directory)]), r) else (w1, r)
  }

  /** $this->createDirectory($directory): the method of the object's runtime class. */
  function CreateDirectory(kind: Kind, root: string, w: World, directory: string): (World, Result<bool>)
  {
    match kind
    case Plain => BaseCreateDirectory(root, w, directory)
    case ConsoleAware => ConsoleCreateDirectory(root, w, directory)
  }

  /** The is_dir check on the file's directory and, when it is missing, the virtual
      createDirectory(dirname($path)); no call is made (and nothing changes) otherwise. */
  function EnsureParent(kind: Kind, root: string, w: World, path: string): (World, Result<bool>)
  {
    if FileParent(root, path) in w.tree.dirs then (w, Ok(false))
    else CreateDirectory(kind, root, w, Dirname(Trim(path, '/')))
  }

  /** file_put_contents of the rendered text; a falsy result, including 0 bytes written for
      empty contents, is a RuntimeException naming the trimmed path and the root. */
  function PutRendered(root: string, w: World, path: string, contents: string): (World, Outcome)
  {
    var (t, written) := WriteFile(w.tree, FileTarget(root, path), contents);
    (w.(tree := t),
     if written == None || written == Some(0) then Fail(Runtime(FileMessage(Trim(path, '/'), root), None)) else Pass)
  }

  /** Project::createFile: render first (a load failure is an InvalidArgumentException and
      touches nothing; any other Twig error passes through), then make sure the parent
      exists, then write. */
  function BaseCreateFile(kind: Kind, root: string, env: Environment, w: World,
                          template: string, path: string, vars: Vars): (World, Outcome)
  {
    match env.render(template, vars)
    case NotLoadable(reason) => (w, Fail(InvalidArgument(TemplateMessage(template), Some(TwigError(reason)))))
    case Failed(reason) => (w, Fail(TwigError(reason)))
    case Rendered(contents) => StoreRendered(kind, root, w, path, contents)
  }

  /** What createFile does once the template is rendered: make sure the parent exists,
      then write; an exception from the parent's creation passes through. */
  function StoreRendered(kind: Kind, root: string, w: World, path: string, contents: string): (World, Outcome)
  {
    var (w1, r1) := EnsureParent(kind, root, w, path);
    if r1.Err? then (w1, Fail(r1.error)) else PutRendered(root, w1, path, contents)
  }

  /** ConsoleAwareProject::createFile: the parent's call, then a `+file` line when it
      returned normally. */
  function ConsoleCreateFile(root: string, env: Environment, w: World,
                             template: string, path: string, vars: Vars): (World, Outcome)
  {
    var (w1, r) := BaseCreateFile(ConsoleAware, root, env, w, template, path, vars);
    if r.Pass? then (w1.(output := w1.output + [FileLine(root, path)]), r) else (w1, r)
  }

  /** $this->createFile(...): the method of the object's runtime class. */
  function CreateFile(kind: Kind, root: string, env: Environment, w: World,
                      template: string, path: string, vars: Vars): (World, Outcome)
  {
    match kind
    case Plain => BaseCreateFile(Plain, root, env, w, template, path, vars)
    case ConsoleAware => ConsoleCreateFile(root, env, w, template, path, vars)
  }

  /** One iteration of createStructure's loop, under the trimmed base path: a directory or a
      file at base/item; a RuntimeException is rethrown wrapped with the item and the base,
      anything else passes through. */
  function CreateItem(kind: Kind, root: string, env: Environment, w: World,
                      base: string, entry: (string, Option<string>), vars: Vars): (World, Outcome)
  {
    var item := Trim(entry.0, '/');
    var itemPath := base + "/" + item;
    var (w1, r) :=
      match entry.1
      case None =>
        var (w1, d) := CreateDirectory(kind, root, w, itemPath);
        (w1, if d.Ok? then Pass else Fail(d.error))
      case Some(template) => CreateFile(kind, root, env, w, template, itemPath, vars);
    if r.Fail? && r.error.Runtime? then (w1, Fail(Runtime(ItemMessage(item, base), Some(r.error))))
    else (w1, r)
  }

  /** The loop over the entries in order, stopping at the first failure; what earlier entries
      did stays. */
  function Walk(kind: Kind, root: string, env: Environment, w: World,
                base: string, entries: Structure, vars: Vars): (World, Outcome)
    decreases |entries|
  {
    if entries == [] then (w, Pass)
    else
      var (w1, r1) := Walk(kind, root, env, w, base, entries[..|entries| - 1], vars);
      if r1.Fail? then (w1, r1)
      else CreateItem(kind, root, env, w1, base, entries[|entries| - 1], vars)
  }

  /** The loop's step: the first i+1 entries are the first i, then entry i (unless an
      earlier entry failed). */
  lemma WalkStep(kind: Kind, root: string, env: Environment, w: World,
                 base: string, entries: Structure, vars: Vars, i: nat)
    requires i < |entries|
    ensures Walk(kind, root, env, w, base, entries[..i + 1], vars) ==
      var (w1, r1) := Walk(kind, root, env, w, base, entries[..i], vars);
      if r1.Fail? then (w1, r1) else CreateItem(kind, root, env, w1, base, entries[i], vars)
  {
    assert entries[..i + 1][..i] == entries[..i];
  }

  /** Fail-fast: once the first k entries fail, the walk over all of them ends the same way,
      so later entries are never attempted. */
  lemma {:induction false} WalkStops(kind: Kind, root: string, env: Environment, w: World,
                                     base: string, entries: Structure, vars: Vars, k: nat)
    requires k <= |entries|
    requires Walk(kind, root, env, w, base, entries[..k], vars).1.Fail?
    ensures Walk(kind, root, env, w, base, entries, vars) == Walk(kind, root, env, w, base, entries[..k], vars)
    decreases |entries| - k
  {
    if k < |entries| {
      WalkStep(kind, root, env, w, base, entries, vars, k);
      WalkStops(kind, root, env, w, base, entries, vars, k + 1);
    } else {
      assert entries[..k] == entries;
    }
  }

  /** Project::createStructure($path, $structure, $variables) */
  function CreateStructure(kind: Kind, root: string, env: Environment, w: World,
                           path: string, structure: Structure, vars: Vars): (World, Outcome)
  {
    Walk(kind, root, env, w, Trim(path, '/'), structure, vars)
  }

  /** Project::writeConfig(): the dumped configuration through the pass-through template. */
  function WriteConfig(kind: Kind, root: string, env: Environment, w: World,
                       settings: Settings, yaml: Yaml): (World, Outcome)
  {
    CreateFile(kind, root, env, w, "txt/void.twig", "/.projection.yml",
               map["contents" := Text(yaml.dump(settings))])
  }
}
