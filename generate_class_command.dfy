/**
 * generate:class (GenerateClassCommand::execute): in the project of the current
 * directory, create a class file from `php/class.php.twig` under the source directory
 * and, when the project has tests, a test case from `phpunit/test.php.twig` under the
 * tests directory. The class name comes from the `name` option, with `/` or `\` as the
 * namespace separator.
 */
module GenerateClass {
  import opened Strings
  import opened Outcomes
  import opened FileSystem
  import opened Twig
  import opened ProjectSpec
  import opened OrderedMaps
  import opened Validators
  import opened CommandInput
  import opened Projection

  const ClassTemplate := "php/class.php.twig"
  const TestTemplate := "phpunit/test.php.twig"
  const ClassSuffix := ".php"
  const TestSuffix := "Test.php"

  /** The class name as a relative path: every `\` becomes `/`. */
  function ClassPath(name: string): string
  {
    Translate(name, '\\', '/')
  }

  /** A file in `directory` named by the class path and a suffix. */
  function Under(directory: string, name: string, suffix: string): string
  {
    directory + "/" + ClassPath(name) + suffix
  }

  /** $path: the class file, under the source directory. */
  function ClassFile(s: Settings, name: string): string
  {
    Under(SourceDirectory(s), name, ClassSuffix)
  }

  /** $testPath: the test case, under the tests directory. */
  function TestFile(s: Settings, name: string): string
  {
    Under(TestsDirectory(s), name, TestSuffix)
  }

  /** The structure handed to createStructure: the class file, then `+=` the test case when
      `config['tests']` is truthy (a tests table is, `false` is not). */
  function ClassStructure(s: Settings, name: string): Structure
  {
    var structure := Literal([(ClassFile(s, name), Some(ClassTemplate))]);
    if s.tests.TestsIn? then Union(structure, [(TestFile(s, name), Some(TestTemplate))]) else structure
  }

  /** explode('\\', $name), array_pop and implode: the namespace and the class. */
  function SplitClassName(name: string): (string, string)
  {
    var parts := Split(name, '\\');
    (Join('\\', parts[..|parts| - 1]), parts[|parts| - 1])
  }

  /** $varName[0] = strtolower($varName[0]): the class with its first character lowered;
      on an empty class PHP refuses to store the empty string strtolower gives. */
  function VarName(className: string): (r: Result<string>)
    ensures r.Err? <==> className == ""
    ensures r.Err? ==> r.error == EmptyStringOffset
  {
    if className == "" then Err(EmptyStringOffset) else Ok([LowerChar(className[0])] + className[1..])
  }

  /** The template variables: the configuration and the class. */
  function ClassVars(s: Settings, className: string, namespace: string, varName: string): Vars
  {
    map["config" := SettingsValue(s),
        "class" := Table(map["name" := Text(className), "namespace" := Text(namespace), "varName" := Text(varName)])]
  }

  const NotAProjectMessage := "This is not a project directory."

  /** The catch around getProject(): only an InvalidArgumentException means there is no
      project here; anything else passes through. */
  function NotAProject(e: Error): Error
  {
    if e.InvalidArgument? then Logic(NotAProjectMessage, Some(e)) else e
  }

  /** execute(), on values: the filesystem of the current directory `cwd` and the lines the
      project logged, and the exit code or the exception. `confirm` is the answer to the
      confirmation question, asked only when the input is interactive. */
  function ClassCommand(cwd: string, t: Tree, resources: Environment, yaml: Yaml,
                        input: Input, confirm: bool): (World, Result<int>)
  {
    var start := World(t, []);
    match LoadConfig(t, cwd, yaml)
    case Err(e) => (start, Err(NotAProject(e)))
    case Ok(settings) =>
      match RequireOptions(["name"], input.options)
      case Fail(e) => (start, Err(e))
      case Pass =>
        match ValidateClassName(Given(GetOption(input, "name")))
        case Err(e) => (start, Err(e))
        case Ok(name) =>
          if input.interactive && !confirm then (start, Ok(1))
          else
            var (namespace, className) := SplitClassName(name);
            match VarName(className)
            case Err(e) => (start, Err(e))
            case Ok(varName) =>
              var (w, o) := CreateStructure(ConsoleAware, cwd, resources, start, "/",
                                            ClassStructure(settings, name),
                                            ClassVars(settings, className, namespace, varName));
              (w, if o.Pass? then Ok(0) else Err(o.error))
  }

  /** GenerateClassCommand::execute: the project is the console-aware one of `cwd`; the
      returned log is what it wrote to the console. */
  method Execute(cwd: string, fs: FileSystem, resources: Environment, yaml: Yaml,
                 input: Input, confirm: bool) returns (r: Result<int>, log: seq<string>)
    modifies fs
    ensures (World(fs.Snapshot(), log), r) == ClassCommand(cwd, old(fs.Snapshot()), resources, yaml, input, confirm)
  {
    log := [];
    var loaded := Project.CreateFromConfig(ConsoleAware, cwd, fs, resources, yaml);
    if loaded.Err? {
      return Err(NotAProject(loaded.error)), log;
    }
    var project := loaded.value;
    var required := CheckRequired(["name"], input);
    if required.Fail? {
      return Err(required.error), log;
    }
    var validated := ValidateClassName(Given(GetOption(input, "name")));
    if validated.Err? {
      return Err(validated.error), log;
    }
    var name := validated.value;
    if input.interactive && !confirm {
      return Ok(1), log;
    }
    var structure := ClassStructure(project.config, name);
    var (namespace, className) := SplitClassName(name);
    var varName := VarName(className);
    if varName.Err? {
      return Err(varName.error), log;
    }
    var outcome := project.CreateStructure("/", structure, ClassVars(project.config, className, namespace, varName.value));
    log := project.output;
    r := if outcome.Pass? then Ok(0) else Err(outcome.error);
  }

  // ---------------------------------------------------------------------------
  // Properties of the derivation

  /** The class file comes first; a test case follows exactly when the project has tests,
      unless the two paths coincide, in which case `+=` keeps only the class file. */
  lemma ClassStructureShape(s: Settings, name: string)
    ensures s.tests.NoTests? ==> ClassStructure(s, name) == [(ClassFile(s, name), Some(ClassTemplate))]
    ensures s.tests.TestsIn? && ClassFile(s, name) != TestFile(s, name) ==>
      ClassStructure(s, name) == [(ClassFile(s, name), Some(ClassTemplate)), (TestFile(s, name), Some(TestTemplate))]
    ensures s.tests.TestsIn? && ClassFile(s, name) == TestFile(s, name) ==>
      ClassStructure(s, name) == [(ClassFile(s, name), Some(ClassTemplate))]
  {
    var structure := [(ClassFile(s, name), Some(ClassTemplate))];
    assert Literal(structure) == structure by {
      LiteralOfDistinct(structure);
    }
    if s.tests.TestsIn? {
      if ClassFile(s, name) != TestFile(s, name) {
        UnionDisjoint(structure, [(TestFile(s, name), Some(TestTemplate))]);
      } else {
        var b := [(TestFile(s, name), Some(TestTemplate))];
        assert Keys(structure)[0] == b[0].0;
        assert b[1..] == [];
        assert Union(structure, b) == Union(structure, b[1..]);
      }
    }
  }

  /** The class is the part after the last `\` and holds none; the namespace is what comes
      before it, and putting the two back together gives the name. */
  lemma SplitClassNameRejoins(name: string)
    ensures '\\' !in SplitClassName(name).1
    ensures '\\' !in name ==> SplitClassName(name) == ("", name)
    ensures '\\' in name ==> SplitClassName(name).0 + "\\" + SplitClassName(name).1 == name
  {
    var parts := Split(name, '\\');
    SplitPieces(name, '\\');
    if '\\' !in name {
      SplitWithout(name, '\\');
    } else {
      JoinSplit(name, '\\');
      var init := parts[..|parts| - 1];
      assert init + [parts[|parts| - 1]] == parts;
      JoinSnoc('\\', init, parts[|parts| - 1]);
    }
  }

  /** varName is the class with only its first character lower-cased. */
  lemma VarNameShape(className: string)
    requires className != ""
    ensures |VarName(className).value| == |className|
    ensures VarName(className).value[0] == LowerChar(className[0])
    ensures VarName(className).value[1..] == className[1..]
  {
  }

  /** With the validated name (no `/`), the class file lies in the source directory, one
      directory per namespace segment. */
  lemma ClassFileResolves(s: Settings, name: string)
    requires '/' !in name
    ensures Resolve(ClassFile(s, name)) == Resolve(SourceDirectory(s)) + Segments(Split(name + ClassSuffix, '\\'))
  {
    ClassUnder(SourceDirectory(s), name);
  }

  /** ... and the test case likewise in the tests directory. */
  lemma TestFileResolves(s: Settings, name: string)
    requires '/' !in name
    ensures Resolve(TestFile(s, name)) == Resolve(TestsDirectory(s)) + Segments(Split(name + TestSuffix, '\\'))
  {
    TestUnder(TestsDirectory(s), name);
  }

  lemma ClassUnder(directory: string, name: string)
    requires '/' !in name
    ensures Resolve(Under(directory, name, ClassSuffix)) == Resolve(directory) + Segments(Split(name + ClassSuffix, '\\'))
  {
    SuffixesPlain();
    FileUnder(directory, name, ClassSuffix);
  }

  lemma TestUnder(directory: string, name: string)
    requires '/' !in name
    ensures Resolve(Under(directory, name, TestSuffix)) == Resolve(directory) + Segments(Split(name + TestSuffix, '\\'))
  {
    SuffixesPlain();
    FileUnder(directory, name, TestSuffix);
  }

  lemma SuffixesPlain()
    ensures '/' !in ClassSuffix && '\\' !in ClassSuffix
    ensures '/' !in TestSuffix && '\\' !in TestSuffix
  {
  }

  /** A file named by a class path and a suffix, inside a directory. */
  lemma FileUnder(directory: string, name: string, suffix: string)
    requires '/' !in name && '/' !in suffix && '\\' !in suffix
    ensures Resolve(Under(directory, name, suffix)) == Resolve(directory) + Segments(Split(name + suffix, '\\'))
  {
    TranslateAppend(name, suffix);
    var p := Translate(name + suffix, '\\', '/');
    assert Under(directory, name, suffix) == directory + "/" + p;
    ResolveConcat(directory, p);
    TranslateSplit(name + suffix, '\\', '/');
  }

  /** strtr on a name followed by a suffix without `\` translates the name alone. */
  lemma TranslateAppend(name: string, suffix: string)
    requires '\\' !in suffix
    ensures Translate(name + suffix, '\\', '/') == Translate(name, '\\', '/') + suffix
  {
    var l := Translate(name + suffix, '\\', '/');
    var r := Translate(name, '\\', '/') + suffix;
    forall i | 0 <= i < |l| ensures l[i] == r[i] {
      if i >= |name| {
        assert (name + suffix)[i] == suffix[i - |name|];
      }
    }
  }
}
