/**
 * What the two generator commands guarantee: every refusal before any filesystem work
 * leaves the filesystem and the log untouched, and on exit code 0 everything the
 * command set out to create is on disk.
 */
module CommandProperties {
  import opened Strings
  import opened Outcomes
  import opened FileSystem
  import opened Twig
  import opened ProjectSpec
  import opened Validators
  import opened CommandInput
  import opened ProjectProperties
  import opened StructureProperties
  import opened GenerateClass
  import opened GenerateProject

  // ---------------------------------------------------------------------------
  // generate:class

  /** Outside a project directory the command fails with a LogicException chaining the
      project's InvalidArgumentException, and touches nothing. */
  lemma ClassOutsideProject(cwd: string, t: Tree, resources: Environment, yaml: Yaml, input: Input, confirm: bool)
    requires Resolve(ConfigPath(cwd)) !in t.files
    ensures var (w, r) := ClassCommand(cwd, t, resources, yaml, input, confirm);
            && w == World(t, [])
            && r.Err? && r.error.Logic? && r.error.message == NotAProjectMessage
            && r.error.previous == Some(LoadConfig(t, cwd, yaml).error)
            && r.error.previous.value.InvalidArgument?
  {
  }

  /** Without a name option the command fails with the RuntimeException naming it, and
      touches nothing. */
  lemma ClassWithoutName(cwd: string, t: Tree, resources: Environment, yaml: Yaml, input: Input, confirm: bool)
    requires LoadConfig(t, cwd, yaml).Ok? && "name" !in input.options
    ensures ClassCommand(cwd, t, resources, yaml, input, confirm) == (World(t, []), Err(Runtime(RequiredMessage("name"), None)))
  {
    assert FirstMissing(["name"], input.options) == Some(0);
  }

  /** Declining the confirmation exits with 1 and touches nothing. */
  lemma ClassDeclined(cwd: string, t: Tree, resources: Environment, yaml: Yaml, input: Input)
    requires LoadConfig(t, cwd, yaml).Ok? && "name" in input.options && input.options["name"] != ""
    requires input.interactive
    ensures ClassCommand(cwd, t, resources, yaml, input, false) == (World(t, []), Ok(1))
  {
    assert FirstMissing(["name"], input.options) == None;
  }

  /** A name ending in a namespace separator leaves an empty class, on which PHP throws
      before anything is created. */
  lemma ClassNameEndingInSeparator(cwd: string, t: Tree, resources: Environment, yaml: Yaml,
                                   input: Input, confirm: bool)
    requires LoadConfig(t, cwd, yaml).Ok? && "name" in input.options
    requires var name := input.options["name"]; name != "" && (name[|name| - 1] == '/' || name[|name| - 1] == '\\')
    requires !input.interactive || confirm
    ensures ClassCommand(cwd, t, resources, yaml, input, confirm) == (World(t, []), Err(EmptyStringOffset))
  {
    assert FirstMissing(["name"], input.options) == None;
    var given := input.options["name"];
    var name := ValidateClassName(given).value;
    assert name[|name| - 1] == '\\';
    var init := name[..|name| - 1];
    assert name == init + ['\\'] + "";
    SplitConcat(init, "", '\\');
  }

  /** Exit code 0 means the class file exists, and so does the test case when the project
      has tests; nothing was removed, and a well-formed filesystem stays well formed. */
  lemma ClassCreated(cwd: string, t: Tree, resources: Environment, yaml: Yaml, input: Input, confirm: bool)
    requires ClassCommand(cwd, t, resources, yaml, input, confirm).1 == Ok(0)
    ensures var s := LoadConfig(t, cwd, yaml).value;
            var name := ValidateClassName(input.options["name"]).value;
            var u := ClassCommand(cwd, t, resources, yaml, input, confirm).0.tree;
            && FileTarget(cwd, ItemPath(Trim("/", '/'), (ClassFile(s, name), Some(ClassTemplate)))) in u.files
            && (s.tests.TestsIn? ==> FileTarget(cwd, ItemPath(Trim("/", '/'), (TestFile(s, name), Some(TestTemplate)))) in u.files)
            && Grows(t, u)
            && (Valid(t) ==> Valid(u))
  {
    var s := LoadConfig(t, cwd, yaml).value;
    assert FirstMissing(["name"], input.options) == None;
    var name := ValidateClassName(Given(GetOption(input, "name"))).value;
    var (namespace, className) := SplitClassName(name);
    var vars := ClassVars(s, className, namespace, VarName(className).value);
    var structure := ClassStructure(s, name);
    var start := World(t, []);
    var base := Trim("/", '/');
    WalkPassCreatesAll(ConsoleAware, cwd, resources, start, base, structure, vars);
    WalkGrows(ConsoleAware, cwd, resources, start, base, structure, vars);
    if Valid(t) {
      WalkValid(ConsoleAware, cwd, resources, start, base, structure, vars);
    }
    ClassStructureShape(s, name);
    var u := Walk(ConsoleAware, cwd, resources, start, base, structure, vars).0.tree;
    assert Present(u, cwd, base, structure[0]);
    if s.tests.TestsIn? && ClassFile(s, name) != TestFile(s, name) {
      assert Present(u, cwd, base, structure[1]);
    }
  }

  // ---------------------------------------------------------------------------
  // generate:project

  /** A missing required option, an invalid option or a declined confirmation ends the
      command before the project exists: nothing is created and nothing is logged. */
  lemma ProjectRefusedEarly(cwd: string, t: Tree, resources: Environment, yaml: Yaml,
                            isEmail: string -> bool, input: Input, confirm: bool)
    requires RequireOptions(Required, input.options).Fail?
             || ValidateOptions(input, isEmail).Err?
             || (input.interactive && !confirm)
    ensures ProjectCommand(cwd, t, resources, yaml, isEmail, input, confirm).0 == World(t, [])
    ensures RequireOptions(Required, input.options).Fail? ==>
      ProjectCommand(cwd, t, resources, yaml, isEmail, input, confirm).1 == Err(RequireOptions(Required, input.options).error)
    ensures RequireOptions(Required, input.options).Pass? && ValidateOptions(input, isEmail).Err? ==>
      ProjectCommand(cwd, t, resources, yaml, isEmail, input, confirm).1 == Err(ValidateOptions(input, isEmail).error)
    ensures RequireOptions(Required, input.options).Pass? && ValidateOptions(input, isEmail).Ok? ==>
      ProjectCommand(cwd, t, resources, yaml, isEmail, input, confirm).1 == Ok(1)
  {
  }

  /** What a call has made sure of once it returned normally: a structure's entries exist,
      and the configuration file exists. */
  predicate Done(t: Tree, root: string, c: Call)
  {
    match c
    case MakeStructure(entries, _) => forall j :: 0 <= j < |entries| ==> Present(t, root, Trim("/", '/'), entries[j])
    case SaveConfig => FileTarget(root, "/.projection.yml") in t.files
  }

  lemma DoneStays(t: Tree, u: Tree, root: string, c: Call)
    requires Done(t, root, c) && Grows(t, u)
    ensures Done(u, root, c)
  {
    if c.MakeStructure? {
      forall j | 0 <= j < |c.entries| ensures Present(u, root, Trim("/", '/'), c.entries[j]) {
        PresentStays(t, u, root, Trim("/", '/'), c.entries[j]);
      }
    }
  }

  /** One call removes nothing and, when it returns normally, has done its work. */
  lemma RunCallDone(root: string, env: Environment, w: World, s: Settings, yaml: Yaml, c: Call)
    ensures Grows(w.tree, RunCall(root, env, w, s, yaml, c).0.tree)
    ensures RunCall(root, env, w, s, yaml, c).1.Pass? ==> Done(RunCall(root, env, w, s, yaml, c).0.tree, root, c)
  {
    match c
    case MakeStructure(entries, vars) =>
      WalkGrows(ConsoleAware, root, env, w, Trim("/", '/'), entries, vars);
      if RunCall(root, env, w, s, yaml, c).1.Pass? {
        WalkPassCreatesAll(ConsoleAware, root, env, w, Trim("/", '/'), entries, vars);
      }
    case SaveConfig =>
      var vars := map["contents" := Text(yaml.dump(s))];
      CreateFileGrows(ConsoleAware, root, env, w, "txt/void.twig", "/.projection.yml", vars);
      if RunCall(root, env, w, s, yaml, c).1.Pass? {
        CreateFileOthersUntouched(ConsoleAware, root, env, w, "txt/void.twig", "/.projection.yml", vars);
      }
  }

  /** The calls remove nothing; when all returned normally, each has done its work. */
  lemma {:induction false} RunDone(root: string, env: Environment, w: World, s: Settings, yaml: Yaml, calls: seq<Call>)
    ensures Grows(w.tree, Run(root, env, w, s, yaml, calls).0.tree)
    ensures Run(root, env, w, s, yaml, calls).1.Pass? ==>
      forall i :: 0 <= i < |calls| ==> Done(Run(root, env, w, s, yaml, calls).0.tree, root, calls[i])
    decreases |calls|
  {
    if calls != [] {
      var (w1, o) := RunCall(root, env, w, s, yaml, calls[0]);
      RunCallDone(root, env, w, s, yaml, calls[0]);
      if o.Pass? {
        var rest := calls[1..];
        RunDone(root, env, w1, s, yaml, rest);
        var u := Run(root, env, w1, s, yaml, rest).0.tree;
        assert Run(root, env, w, s, yaml, calls).0.tree == u;
        if Run(root, env, w1, s, yaml, rest).1.Pass? {
          forall i | 0 <= i < |calls| ensures Done(u, root, calls[i]) {
            if i == 0 {
              DoneStays(w1.tree, u, root, calls[0]);
            } else {
              assert calls[i] == rest[i - 1];
            }
          }
        }
      }
    }
  }

  /** The calls in order: the directories first, the tests directories only with tests,
      then the configuration, then the files (README, LICENSE and, with tests, the PHPUnit
      files) rendered with the configuration. */
  lemma PlanOrder(s: Settings)
    ensures |Plan(s)| == (if s.tests.TestsIn? then 4 else 3)
    ensures Plan(s)[0] == MakeStructure(DirectoryStructure(s), map[])
    ensures s.tests.TestsIn? ==> Plan(s)[1] == MakeStructure(TestsStructure(s), map[])
    ensures Plan(s)[|Plan(s)| - 2] == SaveConfig
    ensures Plan(s)[|Plan(s)| - 1] == MakeStructure(FileStructure(s), map["config" := SettingsValue(s)])
  {
  }

  /** Exit code 0 means every directory and file of the plan exists in the new project's
      directory, the configuration file included, and nothing was removed. */
  lemma ProjectCreated(cwd: string, t: Tree, resources: Environment, yaml: Yaml,
                       isEmail: string -> bool, input: Input, confirm: bool)
    requires ProjectCommand(cwd, t, resources, yaml, isEmail, input, confirm).1 == Ok(0)
    ensures var options := ValidateOptions(input, isEmail).value;
            var u := ProjectCommand(cwd, t, resources, yaml, isEmail, input, confirm).0.tree;
            && Grows(t, u)
            && forall i :: 0 <= i < |Plan(options.settings)| ==> Done(u, cwd + "/" + options.directory, Plan(options.settings)[i])
  {
    var options := ValidateOptions(input, isEmail).value;
    RunDone(cwd + "/" + options.directory, resources, World(t, []), options.settings, yaml, Plan(options.settings));
  }
}
