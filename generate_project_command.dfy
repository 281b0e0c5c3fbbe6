/**
 * generate:project (GenerateProjectCommand::execute): validate the options, then in
 * the directory `dir` under the current directory create the project directories,
 * the tests directories when tests are enabled, the configuration file and the
 * README, LICENSE and (with tests) PHPUnit files, in that order, through one
 * console-aware project. The first exception ends the command; nothing is undone.
 */
module GenerateProject {
  import opened Strings
  import opened Outcomes
  import opened FileSystem
  import opened Twig
  import opened ProjectSpec
  import opened OrderedMaps
  import opened Validators
  import opened CommandInput
  import opened Projection

  /** The base path of every createStructure call: the project root. */
  const Base := "/"

  /** The options that must be given, checked in this order. */
  const Required: seq<string> := ["name", "author-name", "author-email"]

  /** What the validated options amount to: the configuration and the project directory. */
  datatype Options = Options(settings: Settings, directory: string)

  /** The validators in the order execute() calls them; the tests directory is validated
      only without --no-tests. */
  function ValidateOptions(input: Input, isEmail: string -> bool): Result<Options>
  {
    match ValidateProjectName(Opt(input, "name"))
    case Err(e) => Err(e)
    case Ok(name) =>
    match ValidateDirectory(Opt(input, "dir"))
    case Err(e) => Err(e)
    case Ok(directory) =>
    match ValidateNamespace(Opt(input, "namespace"))
    case Err(e) => Err(e)
    case Ok(namespace) =>
    match ValidateName(Opt(input, "author-name"))
    case Err(e) => Err(e)
    case Ok(authorName) =>
    match ValidateEmail(isEmail, Opt(input, "author-email"))
    case Err(e) => Err(e)
    case Ok(authorEmail) =>
    match ValidateLicense(Opt(input, "license"))
    case Err(e) => Err(e)
    case Ok(license) =>
    match ValidateLicenseYears(Opt(input, "license-years"))
    case Err(e) => Err(e)
    case Ok(years) =>
    match ValidateDirectory(Opt(input, "src-dir"))
    case Err(e) => Err(e)
    case Ok(srcDir) =>
    match ValidateDirectory(Opt(input, "docs-dir"))
    case Err(e) => Err(e)
    case Ok(docsDir) =>
    match (if input.noTests then Ok(NoTests) else TestsSetting(Opt(input, "tests-dir")))
    case Err(e) => Err(e)
    case Ok(tests) =>
      Ok(Options(Settings(name, namespace, authorName, authorEmail, license, years, srcDir, docsDir, tests), directory))
  }

  /** An option as the validators read it: "" when it was not given. */
  function Opt(input: Input, name: string): string
  {
    Given(GetOption(input, name))
  }

  function TestsSetting(testsDir: string): Result<Tests>
  {
    match ValidateDirectory(testsDir)
    case Err(e) => Err(e)
    case Ok(d) => Ok(TestsIn(d))
  }

  /** The configuration execute() builds: each field is its option as validated, with what
      its validator guarantees (a name character in the project name, the namespace pattern
      without `/`, the licence-years pattern); `tests` is false exactly under --no-tests and
      the tests directory otherwise. */
  lemma ValidatedSettings(input: Input, isEmail: string -> bool)
    requires ValidateOptions(input, isEmail).Ok?
    ensures var o := ValidateOptions(input, isEmail).value;
            var s := o.settings;
            && o.directory == Opt(input, "dir") != ""
            && s.name == Opt(input, "name") && FindNameChar(s.name).Some?
            && s.namespace == Translate(Opt(input, "namespace"), '/', '\\') && '/' !in s.namespace
            && NamespaceRun(BeforeEnd(s.namespace))
            && s.authorName == Opt(input, "author-name") != ""
            && s.authorEmail == Opt(input, "author-email") && isEmail(s.authorEmail)
            && s.licenseType == Opt(input, "license")
            && (s.licenseType == "gpl" || s.licenseType == "mit" || s.licenseType == "lgpl")
            && s.licenseYears == Opt(input, "license-years") && YearsShape(BeforeEnd(s.licenseYears))
            && s.srcDir == Opt(input, "src-dir") != ""
            && s.docsDir == Opt(input, "docs-dir") != ""
            && (s.tests.NoTests? <==> input.noTests)
            && (s.tests.TestsIn? ==> s.tests.dir == Opt(input, "tests-dir") != "")
  {
    TranslateRemoves(Opt(input, "namespace"), '/', '\\');
  }

  /** Every option the validators refuse is an InvalidArgumentException. */
  lemma ValidateOptionsError(input: Input, isEmail: string -> bool)
    requires ValidateOptions(input, isEmail).Err?
    ensures ValidateOptions(input, isEmail).error.InvalidArgument?
  {
  }

  /** The first structure: the project root, the source directory, the namespace's directory
      in it and the documentation directory. */
  function DirectoryStructure(s: Settings): Structure
  {
    Literal(DirectoryEntries(s))
  }

  /** The pairs of the first structure's array literal. */
  function DirectoryEntries(s: Settings): Structure
  {
    [("/", None), (s.srcDir, None), (SourceDirectory(s), None), (s.docsDir, None)]
  }

  /** The second structure, made only with tests: the tests directory and the namespace's
      Tests directory in it. */
  function TestsStructure(s: Settings): Structure
  {
    Literal(TestsEntries(s))
  }

  function TestsEntries(s: Settings): Structure
  {
    [(TestsDir(s), None), (TestsDirectory(s), None)]
  }

  function CasePath(s: Settings): string
  {
    TestsDirectory(s) + "/TestCase.php"
  }

  /** The last structure: README and LICENSE, then `+=` the PHPUnit files when there are
      tests. */
  function FileStructure(s: Settings): Structure
  {
    var structure := Literal([(ReadmeFile, Some(ReadmeTemplate)), (LicenseFile, Some(LicenseTemplate(s)))]);
    if s.tests.NoTests? then structure
    else Union(structure, Literal([(PhpunitFile, Some(PhpunitTemplate)), (CasePath(s), Some(CaseTemplate))]))
  }

  const ReadmeFile := "/README.md"
  const ReadmeTemplate := "txt/README.md.twig"
  const LicenseFile := "/LICENSE"
  const PhpunitFile := "/phpunit.xml.dist"
  const PhpunitTemplate := "phpunit/phpunit.xml.dist.twig"
  const CaseTemplate := "phpunit/TestCase.php.twig"

  /** The license text of the configured license. */
  function LicenseTemplate(s: Settings): string
  {
    "txt/licenses/" + s.licenseType + ".txt.twig"
  }

  /** With four different paths the first structure is exactly those entries, in order;
      a repeated path (src-dir equal to docs-dir, say) occurs once, at its first place. */
  lemma DirectoryStructureShape(s: Settings)
    requires DistinctKeys(DirectoryEntries(s))
    ensures DirectoryStructure(s) == DirectoryEntries(s)
  {
    LiteralOfDistinct(DirectoryEntries(s));
  }

  /** Whatever the paths, no structure lists a path twice. */
  lemma StructuresDistinct(s: Settings)
    ensures DistinctKeys(DirectoryStructure(s))
    ensures DistinctKeys(TestsStructure(s))
  {
    LiteralDistinct(DirectoryEntries(s));
    LiteralDistinct(TestsEntries(s));
  }

  /** The files: README then LICENSE; with tests, phpunit.xml.dist then the TestCase after
      them, all four different as long as the TestCase path is none of the other three. */
  lemma FileStructureShape(s: Settings)
    ensures s.tests.NoTests? ==>
      FileStructure(s) == [(ReadmeFile, Some(ReadmeTemplate)), (LicenseFile, Some(LicenseTemplate(s)))]
    ensures s.tests.TestsIn? && CasePath(s) != ReadmeFile && CasePath(s) != LicenseFile && CasePath(s) != PhpunitFile ==>
      FileStructure(s) == [(ReadmeFile, Some(ReadmeTemplate)), (LicenseFile, Some(LicenseTemplate(s))),
                           (PhpunitFile, Some(PhpunitTemplate)), (CasePath(s), Some(CaseTemplate))]
  {
    var readme := (ReadmeFile, Some(ReadmeTemplate));
    var license := (LicenseFile, Some(LicenseTemplate(s)));
    assert |ReadmeFile| != |LicenseFile| && |PhpunitFile| != |ReadmeFile| && |PhpunitFile| != |LicenseFile|;
    LiteralPair(readme, license);
    if s.tests.TestsIn? && CasePath(s) != ReadmeFile && CasePath(s) != LicenseFile && CasePath(s) != PhpunitFile {
      UnionOfPairs(readme, license, (PhpunitFile, Some(PhpunitTemplate)), (CasePath(s), Some(CaseTemplate)));
    }
  }

  /** One call execute() makes on the project: createStructure('/', ...) or writeConfig(). */
  datatype Call = MakeStructure(entries: Structure, vars: Vars) | SaveConfig

  /** The calls, in order: the directory structures, then the configuration and the files. */
  function Plan(s: Settings): seq<Call>
  {
    PlanOf(s, StructuresOf(s))
  }

  /** The three structures execute() builds. */
  datatype Structures = Structures(directories: Structure, tests: Structure, files: Structure)

  function StructuresOf(s: Settings): Structures
  {
    Structures(DirectoryStructure(s), TestsStructure(s), FileStructure(s))
  }

  /** The calls, for given structures. */
  function PlanOf(s: Settings, st: Structures): seq<Call>
  {
    DirectoryCalls(s, st) + FileCalls(s, st)
  }

  /** The first structure, and the second when there are tests. */
  function DirectoryCalls(s: Settings, st: Structures): seq<Call>
  {
    [MakeStructure(st.directories, map[])]
    + (if s.tests.NoTests? then [] else [MakeStructure(st.tests, map[])])
  }

  /** writeConfig(), then the last structure, rendered with the configuration. */
  function FileCalls(s: Settings, st: Structures): seq<Call>
  {
    [SaveConfig, MakeStructure(st.files, map["config" := SettingsValue(s)])]
  }

  function RunCall(root: string, env: Environment, w: World, s: Settings, yaml: Yaml, c: Call): (World, Outcome)
  {
    match c
    case MakeStructure(entries, vars) => CreateStructure(ConsoleAware, root, env, w, Base, entries, vars)
    case SaveConfig => WriteConfig(ConsoleAware, root, env, w, s, yaml)
  }

  /** The calls one after the other, up to the first exception. */
  function Run(root: string, env: Environment, w: World, s: Settings, yaml: Yaml, calls: seq<Call>): (World, Outcome)
    decreases |calls|
  {
    if calls == [] then (w, Pass)
    else
      var (w1, o) := RunCall(root, env, w, s, yaml, calls[0]);
      if o.Fail? then (w1, o) else Run(root, env, w1, s, yaml, calls[1..])
  }

  /** execute(), on values: the filesystem and the lines the project logged, and the exit
      code or the exception. `isEmail` stands for filter_var's email check and `confirm`
      for the answer to the confirmation question. */
  function ProjectCommand(cwd: string, t: Tree, resources: Environment, yaml: Yaml,
                          isEmail: string -> bool, input: Input, confirm: bool): (World, Result<int>)
  {
    var start := World(t, []);
    match RequireOptions(Required, input.options)
    case Fail(e) => (start, Err(e))
    case Pass =>
      match ValidateOptions(input, isEmail)
      case Err(e) => (start, Err(e))
      case Ok(options) =>
        if input.interactive && !confirm then (start, Ok(1))
        else Scaffold(cwd, t, resources, yaml, options)
  }

  /** The project in cwd/dir, built from a filesystem `t`: what it logged and the exit code or
      the exception. */
  function Scaffold(cwd: string, t: Tree, resources: Environment, yaml: Yaml, options: Options): (World, Result<int>)
  {
    var (w, o) := Run(cwd + "/" + options.directory, resources, World(t, []), options.settings, yaml, Plan(options.settings));
    (w, if o.Pass? then Ok(0) else Err(o.error))
  }

  /** Running two plans one after the other is running their concatenation: the second
      starts where the first ended, unless the first threw. */
  lemma {:induction false} RunAppend(root: string, env: Environment, w: World, s: Settings, yaml: Yaml,
                                     a: seq<Call>, b: seq<Call>)
    ensures Run(root, env, w, s, yaml, a + b) ==
      var (w1, o) := Run(root, env, w, s, yaml, a);
      if o.Fail? then (w1, o) else Run(root, env, w1, s, yaml, b)
    decreases |a|
  {
    if a == [] {
      assert a + b == b;
    } else {
      assert (a + b)[0] == a[0] && (a + b)[1..] == a[1..] + b;
      var (w1, o) := RunCall(root, env, w, s, yaml, a[0]);
      if o.Pass? {
        RunAppend(root, env, w1, s, yaml, a[1..], b);
      }
    }
  }

  /** The plan in two parts: the directories, then, unless they threw, the files. */
  lemma PlanSplit(root: string, env: Environment, s: Settings, st: Structures, yaml: Yaml,
                  start: World, middle: World, first: Outcome, end: World, last: Outcome)
    requires (middle, first) == Run(root, env, start, s, yaml, DirectoryCalls(s, st))
    requires first.Fail? ==> (end, last) == (middle, first)
    requires first.Pass? ==> (end, last) == Run(root, env, middle, s, yaml, FileCalls(s, st))
    ensures (end, last) == Run(root, env, start, s, yaml, PlanOf(s, st))
  {
    RunAppend(root, env, start, s, yaml, DirectoryCalls(s, st), FileCalls(s, st));
  }

  /** GenerateProjectCommand::execute. The returned log is what the project wrote to the
      console. */
  method Execute(cwd: string, fs: FileSystem, resources: Environment, yaml: Yaml,
                 isEmail: string -> bool, input: Input, confirm: bool) returns (r: Result<int>, log: seq<string>)
    modifies fs
    ensures (World(fs.Snapshot(), log), r) == ProjectCommand(cwd, old(fs.Snapshot()), resources, yaml, isEmail, input, confirm)
  {
    var required := CheckRequired(Required, input);
    if required.Fail? {
      return Err(required.error), [];
    }
    var validated := ValidateOptions(input, isEmail);
    if validated.Err? {
      return Err(validated.error), [];
    }
    if input.interactive && !confirm {
      return Ok(1), [];
    }
    r, log := Build(cwd, fs, resources, yaml, validated.value);
  }

  /** The new console-aware project in cwd/dir, and the calls made on it. */
  method Build(cwd: string, fs: FileSystem, resources: Environment, yaml: Yaml, options: Options)
    returns (r: Result<int>, log: seq<string>)
    modifies fs
    ensures (World(fs.Snapshot(), log), r) == Scaffold(cwd, old(fs.Snapshot()), resources, yaml, options)
  {
    var project := new Project(ConsoleAware, cwd + "/" + options.directory, options.settings, fs, resources);
    var outcome := Generate(project, yaml, StructuresOf(options.settings));
    log := project.output;
    r := if outcome.Pass? then Ok(0) else Err(outcome.error);
  }

  /** The calls execute() makes on the new project, up to the first exception. */
  method Generate(project: Project, yaml: Yaml, st: Structures) returns (outcome: Outcome)
    requires project.kind == ConsoleAware
    modifies project.fs, project`output, project`twig
    ensures (project.State(), outcome) ==
      Run(project.path, old(project.ActiveTwig()), old(project.State()), project.config, yaml, PlanOf(project.config, st))
  {
    ghost var env, start := project.ActiveTwig(), project.State();
    outcome := MakeDirectories(project, yaml, st);
    ghost var middle, first := project.State(), outcome;
    if outcome.Pass? {
      outcome := MakeFiles(project, yaml, st);
    }
    PlanSplit(project.path, env, project.config, st, yaml, start, middle, first, project.State(), outcome);
  }

  /** createStructure for the project directories, then for the tests directories. */
  method MakeDirectories(project: Project, yaml: Yaml, st: Structures) returns (outcome: Outcome)
    requires project.kind == ConsoleAware
    modifies project.fs, project`output, project`twig
    ensures (project.State(), outcome) ==
      Run(project.path, old(project.ActiveTwig()), old(project.State()), project.config, yaml, DirectoryCalls(project.config, st))
    ensures project.ActiveTwig() == old(project.ActiveTwig())
  {
    var settings := project.config;
    var directories := MakeStructure(st.directories, map[]);
    var tests := MakeStructure(st.tests, map[]);
    assert DirectoryCalls(settings, st) == if settings.tests.TestsIn? then [directories, tests] else [directories];
    ghost var env, start := project.ActiveTwig(), project.State();
    outcome := Perform(project, yaml, directories);
    ghost var middle, first := project.State(), outcome;
    if outcome.Pass? && settings.tests.TestsIn? {
      outcome := Perform(project, yaml, tests);
    }
    RunUpToTwo(project.path, env, settings, yaml, directories, tests, settings.tests.TestsIn?,
               start, middle, first, project.State(), outcome);
  }

  /** writeConfig(), then createStructure for the files. */
  method MakeFiles(project: Project, yaml: Yaml, st: Structures) returns (outcome: Outcome)
    requires project.kind == ConsoleAware
    modifies project.fs, project`output, project`twig
    ensures (project.State(), outcome) ==
      Run(project.path, old(project.ActiveTwig()), old(project.State()), project.config, yaml, FileCalls(project.config, st))
    ensures project.ActiveTwig() == old(project.ActiveTwig())
  {
    var files := MakeStructure(st.files, map["config" := SettingsValue(project.config)]);
    assert FileCalls(project.config, st) == [SaveConfig, files];
    ghost var env, start := project.ActiveTwig(), project.State();
    outcome := Perform(project, yaml, SaveConfig);
    ghost var middle, first := project.State(), outcome;
    if outcome.Pass? {
      outcome := Perform(project, yaml, files);
    }
    RunUpToTwo(project.path, env, project.config, yaml, SaveConfig, files, true, start, middle, first, project.State(), outcome);
  }

  /** A call, then, when `second` holds and the first returned normally, another where the
      first ended. */
  lemma RunUpToTwo(root: string, env: Environment, s: Settings, yaml: Yaml, a: Call, b: Call, second: bool,
                   start: World, middle: World, first: Outcome, end: World, last: Outcome)
    requires (middle, first) == RunCall(root, env, start, s, yaml, a)
    requires first.Fail? || !second ==> (end, last) == (middle, first)
    requires first.Pass? && second ==> (end, last) == RunCall(root, env, middle, s, yaml, b)
    ensures (end, last) == Run(root, env, start, s, yaml, if second then [a, b] else [a])
  {
    var calls := if second then [a, b] else [a];
    assert calls[0] == a;
    var rest := calls[1..];
    assert rest == if second then [b] else [];
    if first.Pass? {
      if second {
        assert rest[0] == b && rest[1..] == [];
        assert Run(root, env, end, s, yaml, []) == (end, Pass);
        assert Run(root, env, middle, s, yaml, rest) == (end, last);
      } else {
        assert Run(root, env, middle, s, yaml, rest) == (middle, Pass);
      }
    }
  }

  /** One call on the project: createStructure('/', ...) or writeConfig(). */
  method Perform(project: Project, yaml: Yaml, c: Call) returns (outcome: Outcome)
    requires project.kind == ConsoleAware
    modifies project.fs, project`output, project`twig
    ensures (project.State(), outcome) ==
      RunCall(project.path, old(project.ActiveTwig()), old(project.State()), project.config, yaml, c)
    ensures project.ActiveTwig() == old(project.ActiveTwig())
  {
    match c
    case MakeStructure(entries, vars) =>
      outcome := project.CreateStructure(Base, entries, vars);
    case SaveConfig =>
      outcome := project.WriteConfig(yaml);
  }
}
