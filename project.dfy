/**
 * The project object (Projection\Project and its console-aware subclass). It acts on
 * a filesystem it does not own and keeps its own progress log. Each method is proved
 * to change the filesystem and the log exactly as the corresponding ProjectSpec
 * function says.
 *
 * Dafny classes have no inheritance here, so the runtime class is the constant
 * `kind`: BaseCreateDirectory/BaseCreateFile are Project's own methods,
 * ConsoleCreateDirectory/ConsoleCreateFile are the subclass's overrides, and
 * CreateDirectory/CreateFile are the virtual calls that pick one by `kind`.
 */
module Projection {
  import opened Strings
  import opened Outcomes
  import opened FileSystem
  import opened Twig
  import opened ConsoleAware
  import opened ProjectSpec

  class Project {
    const kind: Kind
    /** The filesystem the project's path lives in. */
    const fs: FileSystem
    /** The environment getTwig() builds when none was set: the templates shipped with the tool. */
    const resources: Environment
    var path: string
    var config: Settings
    var twig: Option<Environment>
    /** The lines written to the console output (only a console-aware project writes any). */
    var output: seq<string>

    constructor (kind: Kind, path: string, config: Settings, fs: FileSystem, resources: Environment)
      ensures this.kind == kind && this.path == path && this.config == config
      ensures this.fs == fs && this.resources == resources
      ensures twig == None && output == []
    {
      this.kind := kind;
      this.path := path;
      this.config := config;
      this.fs := fs;
      this.resources := resources;
      twig := None;
      output := [];
    }

    function State(): World
      reads this, fs
    {
      World(fs.Snapshot(), output)
    }

    /** The environment rendering uses: the one set, or else the default one. */
    function ActiveTwig(): Environment
      reads this
    {
      if twig.Some? then twig.value else resources
    }

    /** Project::createFromConfig($path): the project whose `.projection.yml` is at `path`. */
    static method CreateFromConfig(kind: Kind, path: string, fs: FileSystem, resources: Environment, yaml: Yaml)
      returns (r: Result<Project>)
      ensures r.Ok? <==> LoadConfig(fs.Snapshot(), path, yaml).Ok?
      ensures r.Err? ==> r.error == LoadConfig(fs.Snapshot(), path, yaml).error
      ensures r.Ok? ==> && fresh(r.value)
                        && r.value.kind == kind && r.value.path == path && r.value.fs == fs
                        && r.value.config == LoadConfig(fs.Snapshot(), path, yaml).value
                        && r.value.resources == resources
                        && r.value.twig == None && r.value.output == []
    {
      var configPath := ConfigPath(path);
      if !fs.IsFile(Resolve(configPath)) {
        return Err(InvalidArgument("\"" + path + "\" is not a project path (\"" + configPath + "\" does not exist).", None));
      }
      match yaml.parse(fs.files[Resolve(configPath)])
      case Unparsable(reason) =>
        return Err(Runtime("Cannot parse \"" + configPath + "\": " + reason, Some(Runtime(reason, None))));
      case Parsed(settings) =>
        var project := new Project(kind, path, settings, fs, resources);
        return Ok(project);
    }

    method SetConfig(settings: Settings)
      modifies this`config
      ensures config == settings
    {
      config := settings;
    }

    method SetTwig(env: Environment)
      modifies this`twig
      ensures twig == Some(env)
    {
      twig := Some(env);
    }

    /** getTwig(): builds the default environment on first use and keeps it. */
    method GetTwig() returns (env: Environment)
      modifies this`twig
      ensures env == old(ActiveTwig()) && twig == Some(env)
    {
      if twig.None? {
        twig := Some(resources);
      }
      env := twig.value;
    }

    /** Project::createDirectory */
    method BaseCreateDirectory(directory: string) returns (r: Result<bool>)
      modifies fs
      ensures (State(), r) == ProjectSpec.BaseCreateDirectory(path, old(State()), directory)
    {
      var trimmed := Trim(directory, '/');
      var target := Resolve(path + "/" + trimmed);
      if fs.IsDir(target) {
        return Ok(false);
      }
      var ok := fs.Mkdir(target);
      if !ok {
        return Err(Runtime(DirectoryMessage(trimmed, path), None));
      }
      return Ok(true);
    }

    /** ConsoleAwareProject::createDirectory */
    method ConsoleCreateDirectory(directory: string) returns (r: Result<bool>)
      requires kind == ConsoleAware
      modifies fs, this`output
      ensures (State(), r) == ProjectSpec.ConsoleCreateDirectory(path, old(State()), directory)
    {
      r := BaseCreateDirectory(directory);
      if r.Ok? && r.value {
        output := output + [DirLine(path, directory)];
      }
    }

    /** $this->createDirectory($directory) */
    method CreateDirectory(directory: string) returns (r: Result<bool>)
      modifies fs, this`output
      ensures (State(), r) == ProjectSpec.CreateDirectory(kind, path, old(State()), directory)
    {
      if kind == ConsoleAware {
        r := ConsoleCreateDirectory(directory);
      } else {
        r := BaseCreateDirectory(directory);
      }
    }

    /** Project::createFile */
    method BaseCreateFile(template: string, file: string, vars: Vars) returns (r: Outcome)
      modifies fs, this`output, this`twig
      ensures (State(), r) == ProjectSpec.BaseCreateFile(kind, path, old(ActiveTwig()), old(State()), template, file, vars)
      ensures twig == Some(old(ActiveTwig()))
    {
      var env := GetTwig();
      match env.render(template, vars)
      case NotLoadable(reason) =>
        return Fail(InvalidArgument(TemplateMessage(template), Some(TwigError(reason))));
      case Failed(reason) =>
        return Fail(TwigError(reason));
      case Rendered(contents) =>
        r := StoreRendered(file, contents);
    }

    /** The part of Project::createFile after rendering. */
    method StoreRendered(file: string, contents: string) returns (r: Outcome)
      modifies fs, this`output
      ensures (State(), r) == ProjectSpec.StoreRendered(kind, path, old(State()), file, contents)
    {
      var d := EnsureParent(file);
      if d.Err? {
        return Fail(d.error);
      }
      var trimmed := Trim(file, '/');
      var fullPath := TrimRight(path, '/') + "/" + trimmed;
      ghost var middle := State();
      assert FileTarget(path, file) == Resolve(fullPath);
      var written := fs.PutContents(Resolve(fullPath), contents);
      ghost var expected := WriteFile(middle.tree, Resolve(fullPath), contents);
      assert fs.Snapshot() == expected.0 && written == expected.1;
      if written == None || written == Some(0) {
        r := Fail(Runtime(FileMessage(trimmed, path), None));
      } else {
        r := Pass;
      }
      assert (State(), r) == PutRendered(path, middle, file, contents);
    }

    /** createFile's is_dir check on dirname($fullPath) and the virtual
        createDirectory(dirname($path)) when it fails. */
    method EnsureParent(file: string) returns (d: Result<bool>)
      modifies fs, this`output
      ensures (State(), d) == ProjectSpec.EnsureParent(kind, path, old(State()), file)
    {
      var trimmed := Trim(file, '/');
      var fullPath := TrimRight(path, '/') + "/" + trimmed;
      assert Resolve(Dirname(fullPath)) == FileParent(path, file);
      d := Ok(false);
      if !fs.IsDir(Resolve(Dirname(fullPath))) {
        d := CreateDirectory(Dirname(trimmed));
      }
    }

    /** ConsoleAwareProject::createFile */
    method ConsoleCreateFile(template: string, file: string, vars: Vars) returns (r: Outcome)
      requires kind == ConsoleAware
      modifies fs, this`output, this`twig
      ensures (State(), r) == ProjectSpec.ConsoleCreateFile(path, old(ActiveTwig()), old(State()), template, file, vars)
      ensures twig == Some(old(ActiveTwig()))
    {
      r := BaseCreateFile(template, file, vars);
      if r.Pass? {
        output := output + [FileLine(path, file)];
      }
    }

    /** $this->createFile($template, $path, $variables) */
    method CreateFile(template: string, file: string, vars: Vars) returns (r: Outcome)
      modifies fs, this`output, this`twig
      ensures (State(), r) == ProjectSpec.CreateFile(kind, path, old(ActiveTwig()), old(State()), template, file, vars)
      ensures twig == Some(old(ActiveTwig()))
    {
      if kind == ConsoleAware {
        r := ConsoleCreateFile(template, file, vars);
      } else {
        r := BaseCreateFile(template, file, vars);
      }
    }

    /** Project::createStructure */
    method CreateStructure(base: string, structure: Structure, vars: Vars) returns (r: Outcome)
      modifies fs, this`output, this`twig
      ensures (State(), r) == ProjectSpec.CreateStructure(kind, path, old(ActiveTwig()), old(State()), base, structure, vars)
      ensures ActiveTwig() == old(ActiveTwig())
    {
      var trimmedBase := Trim(base, '/');
      ghost var env := ActiveTwig();
      ghost var start := State();
      var i := 0;
      while i < |structure|
        invariant 0 <= i <= |structure|
        invariant ActiveTwig() == env
        invariant (State(), Pass) == Walk(kind, path, env, start, trimmedBase, structure[..i], vars)
      {
        ghost var before := State();
        var outcome := CreateItem(trimmedBase, structure[i], vars);
        WalkStep(kind, path, env, start, trimmedBase, structure, vars, i);
        assert (State(), outcome) == Walk(kind, path, env, start, trimmedBase, structure[..i + 1], vars);
        if outcome.Fail? {
          WalkStops(kind, path, env, start, trimmedBase, structure, vars, i + 1);
          return outcome;
        }
        i := i + 1;
      }
      assert structure[..i] == structure;
      return Pass;
    }

    /** One iteration of createStructure's foreach, with the try/catch around it. */
    method CreateItem(trimmedBase: string, entry: (string, Option<string>), vars: Vars) returns (r: Outcome)
      modifies fs, this`output, this`twig
      ensures (State(), r) == ProjectSpec.CreateItem(kind, path, old(ActiveTwig()), old(State()), trimmedBase, entry, vars)
      ensures ActiveTwig() == old(ActiveTwig())
    {
      var (key, template) := entry;
      var item := Trim(key, '/');
      var itemPath := trimmedBase + "/" + item;
      var outcome: Outcome;
      if template.None? {
        var d := CreateDirectory(itemPath);
        outcome := if d.Ok? then Pass else Fail(d.error);
      } else {
        outcome := CreateFile(template.value, itemPath, vars);
      }
      if outcome.Fail? && outcome.error.Runtime? {
        return Fail(Runtime(ItemMessage(item, trimmedBase), Some(outcome.error)));
      }
      return outcome;
    }

    /** Project::writeConfig */
    method WriteConfig(yaml: Yaml) returns (r: Outcome)
      modifies fs, this`output, this`twig
      ensures (State(), r) == ProjectSpec.WriteConfig(kind, path, old(ActiveTwig()), old(State()), config, yaml)
      ensures ActiveTwig() == old(ActiveTwig())
    {
      r := CreateFile("txt/void.twig", "/.projection.yml", map["contents" := Text(yaml.dump(config))]);
    }
  }
}
