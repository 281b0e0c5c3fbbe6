# Projection, modelled in Dafny

Projection is a command-line scaffolding tool for PHP projects. `generate:project`
validates its options and then builds a project skeleton in `dir`. The skeleton has:

- the project, source, namespace and documentation directories;
- optionally, the tests directories;
- the `.projection.yml` configuration;
- README, LICENSE, `phpunit.xml.dist` and a TestCase, each rendered from a Twig template.

`generate:class` runs in an existing project, found by its `.projection.yml`. It creates a
class file under the source directory and, when the project has tests, a test case under
the tests directory.

All of the filesystem work goes through one object, `Projection\Project`, and its
subclass `ConsoleAwareProject`. Four methods do it:

- `createDirectory`: an idempotent recursive mkdir. It returns `false` when the
  directory is already there.
- `createFile`: render the template, create the parent directory when it is missing,
  then call `file_put_contents`.
- `createStructure`: a fail-fast loop over an ordered map of paths to templates.
  `null` marks a directory. Only a RuntimeException is wrapped with the item and the base.
- `writeConfig`: the configuration goes through the pass-through template.

The subclass overrides `createDirectory` and `createFile` to print one `+dir` or `+file`
line after each success.

## How it is modelled

**Files and modules.**
- `strings.dfy` (`Strings`): the PHP string built-ins the code uses. These are `trim`,
  `rtrim`, `strtr`, `explode`, `implode`, `basename`, `dirname` and `strtolower` on one
  character.
- `filesystem.dfy` (`FileSystem`): a filesystem value `Tree` and `Valid`, its
  well-formedness rule. It also holds a mutable `FileSystem` class with `Mkdir` and
  `PutContents`.
- `project_spec.dfy` (`ProjectSpec`): the semantics of every project operation, as a
  function from the state before the call (filesystem and progress log) to the state
  after it and the outcome.
- `project.dfy` (`Projection.Project`): the project object as a class. Each method is
  proved to change the filesystem and the log exactly as the matching `ProjectSpec`
  function says.
- `project_properties.dfy` and `structure_properties.dfy`: what those operations
  guarantee.
- `ordered_maps.dfy`: PHP array literals and `+=`.
- `validators.dfy`, `command_input.dfy`: the option checks.
- `generate_class_command.dfy`, `generate_project_command.dfy` and
  `command_properties.dfy`: the two commands and what they guarantee.

**Choices behind the model.**
- **Overrides.** Dafny classes have no inheritance here. The runtime class of a project
  is the constant `kind` (`Plain` or `ConsoleAware`). `CreateDirectory` and `CreateFile`
  model the virtual calls: each picks the base method or the override by `kind`.
- **Exceptions.** They are values: `Outcome` (`Pass | Fail(error)`) and
  `Result<T>`. An `Error` keeps the exception class, the message and the chained
  previous exception.
- **Paths.** A path string becomes a sequence of segments (`Resolve`). Runs of `/`
  separate segments and `.` is dropped, as the operating system reads them.
- **Templates.** Twig is a function from a template name and variables to rendered
  text, a loader failure or a rendering failure.
- **Inputs that are not computed here.** YAML is a pair of functions, parse and dump.
  `filter_var`'s email check is a predicate parameter `isEmail`. The answer to the
  confirmation question is a boolean parameter.
- **PHP version.** The model follows PHP 8.0 and later where versions differ. The one
  place this matters is assigning to offset 0 of an empty string, which throws an
  Error from 8.0 on (`EmptyStringOffset`).
- **Trailing newline in validators.** The two validators whose pattern ends in PCRE's
  `$` are modelled with the exact PCRE meaning: the subject may end in one newline.

**Behaviour of the code worth knowing:**
- `createFile` creates a missing parent through the virtual `$this->createDirectory`,
  so a console-aware project logs a `+dir` line for it (`ConsoleCreateFileLog`).
- `createStructure` wraps only RuntimeExceptions with the item and the base. A missing
  template's InvalidArgumentException passes through unwrapped (`CreateItemError`,
  `WalkError`).
- `file_put_contents` returning 0 is falsy, so rendering a template to the empty string
  ends in "Cannot create file" after the empty file has been written (`CreateFileEmpty`,
  `CreateFileEmptyWritten`).
- `validateProjectName`'s pattern is unanchored. Any name with one letter, digit, `_` or
  `-` is accepted (`ProjectNameAccepted`).
- The `license` option's help text offers `lesser-gpl`, but `validateLicense` refuses it
  (`LicenseExamples`).

## Model

| member | source | states |
|---|---|---|
| FileSystem.FileSystem.Mkdir | src/Projection/Project.php:257 | recursive mkdir returns true exactly when the target is missing and no prefix of it is a file, and then adds the target and its ancestors; otherwise nothing changes |
| FileSystem.FileSystem.PutContents | src/Projection/Project.php:227 | file_put_contents stores the data and returns its length, or returns false (None) and changes nothing when the target is a directory or its parent is not one |
| FileSystem.MakeDirectoriesOutcome | src/Projection/Project.php:257-263 | on a well-formed filesystem a mkdir of a missing path fails exactly when a prefix is a file; on success the path and every ancestor are directories, files are unchanged and the only new directories are prefixes of the path |
| FileSystem.MakeDirectoriesValid | src/Projection/Project.php:257 | a successful recursive mkdir keeps the filesystem well formed |
| FileSystem.WriteFileValid | src/Projection/Project.php:227 | a successful write keeps the filesystem well formed |
| FileSystem.ResolveConcat | src/Projection/Project.php:251 | joining two path strings with `/` concatenates their resolved segment lists |
| Strings.Trim | src/Projection/Project.php:220 | trim($s, '/') as rtrim of ltrim; what it leaves is stated by TrimPiece, TrimEnds and TrimIdempotent |
| Strings.TrimLeft | src/Projection/Project.php:220 | ltrim leaves a suffix that does not start with the character, and everything removed was that character |
| Strings.TrimRight | src/Projection/Project.php:221 | rtrim leaves a prefix that does not end with the character, and everything removed was that character |
| Strings.TrimPiece | src/Projection/Project.php:220 | trim leaves a contiguous slice of the input; everything cut off on either side is the trimmed character |
| Strings.TrimEnds | src/Projection/Project.php:250 | the result of trim neither starts nor ends with the trimmed character |
| Strings.TrimIdempotent | src/Projection/Project.php:250 | trimming an already trimmed path changes nothing |
| Strings.Translate | src/Projection/Project.php:168 | strtr keeps the length and replaces exactly the occurrences of one character |
| Strings.TranslateRemoves | src/Projection/Console/Command/Validators.php:38 | after strtr no occurrence of the replaced character is left |
| Strings.TranslateNoop | src/Projection/Console/Command/Validators.php:114 | strtr on a string without the character returns it unchanged |
| Strings.TranslateSplit | src/Projection/Project.php:168 | renaming the separator with strtr keeps the pieces: exploding on the new one gives the pieces of the old one |
| Strings.Split | src/Projection/Console/Command/GenerateClassCommand.php:99 | explode always returns at least one piece |
| Strings.SplitPieces | src/Projection/Console/Command/GenerateClassCommand.php:99 | no piece of explode contains the separator |
| Strings.Join | src/Projection/Console/Command/GenerateClassCommand.php:101 | implode($sep, $parts): the pieces with the separator between them; JoinSplit and SplitJoin state how it relates to explode |
| Strings.JoinSplit | src/Projection/Console/Command/GenerateClassCommand.php:99-101 | implode undoes explode |
| Strings.SplitJoin | src/Projection/Console/Command/GenerateClassCommand.php:99-101 | explode undoes implode of pieces without the separator |
| Strings.SplitWithout | src/Projection/Console/Command/GenerateClassCommand.php:99 | exploding a string without the separator gives the string alone |
| Strings.SplitConcat | src/Projection/Console/Command/GenerateClassCommand.php:99 | explode distributes over a separator: the pieces of `a.sep.b` are those of `a` then those of `b` |
| Strings.LastSegment | src/Projection/Console/ConsoleAwareProject.php:63 | the part after the last `/` holds no `/` |
| Strings.Basename | src/Projection/Console/ConsoleAwareProject.php:63 | basename holds no `/` |
| Strings.DropLastSegment | src/Projection/Project.php:223 | dirname's first step: removes just the characters after the last `/`, leaving a prefix that is empty or ends in `/` |
| Strings.Dirname | src/Projection/Project.php:223 | dirname($s) by PHP's rules; what it returns is stated by DirnameShape, DirnameNoSlash, DirnameOnlySlashes, DirnameTrailingSlash and DirnameChild |
| Strings.DirnameShape | src/Projection/Project.php:223-224 | dirname is "" exactly for "", and otherwise "." or a prefix of the path that is "/" or does not end in `/` |
| Strings.DirnameNoSlash | src/Projection/Project.php:223-224 | dirname of a non-empty path without `/` is "." |
| Strings.DirnameOnlySlashes | src/Projection/Project.php:223-224 | dirname of a path made only of slashes is "/" |
| Strings.DirnameTrailingSlash | src/Projection/Project.php:223-224 | a trailing slash does not change dirname |
| Strings.DirnameChild | src/Projection/Project.php:223-224 | dirname of `a/b`, for a last component `b`, is `a` without its trailing slashes, or "/" when `a` is only slashes or empty |
| Strings.LowerChar | src/Projection/Console/Command/GenerateClassCommand.php:104 | strtolower on one character changes it exactly when it is A-Z, and then into a-z |
| ConsoleAware.ReadablePathUsesLastComponent | src/Projection/Console/ConsoleAwareProject.php:63 | the readable path is the last component of the project root (whatever precedes it and however many slashes end it), `/`, and the trimmed relative path |
| ProjectSpec.WalkStep | src/Projection/Project.php:281-298 | the loop over the first i+1 entries is the loop over the first i, then entry i unless an earlier entry threw |
| ProjectSpec.WalkStops | src/Projection/Project.php:291-297 | once the first k entries have thrown, later entries are never attempted: the result is that of the first k |
| Projection.Project.constructor | src/Projection/Project.php:88-94 | a new project has the given path and configuration, no Twig environment set and an empty log |
| Projection.Project.CreateFromConfig | src/Projection/Project.php:57-78 | a project is returned exactly when `path/.projection.yml` is a file that parses; otherwise the InvalidArgumentException (missing file) or RuntimeException (parse error) |
| Projection.Project.SetConfig | src/Projection/Project.php:113-117 | replaces the configuration |
| Projection.Project.SetTwig | src/Projection/Project.php:136-139 | sets the Twig environment |
| Projection.Project.GetTwig | src/Projection/Project.php:149-159 | returns the environment set, or creates the default one and keeps it; later calls return the same one |
| Projection.Project.BaseCreateDirectory | src/Projection/Project.php:248-266 | the filesystem and result are exactly `ProjectSpec.BaseCreateDirectory` of the old state (false if present, mkdir then true, or the RuntimeException) |
| Projection.Project.ConsoleCreateDirectory | src/Projection/Console/ConsoleAwareProject.php:71-82 | the override's effect is exactly the parent's, plus a `+dir` line when it returned true |
| Projection.Project.CreateDirectory | src/Projection/Project.php:287 | the virtual createDirectory call behaves as the method of the object's runtime class |
| Projection.Project.BaseCreateFile | src/Projection/Project.php:209-234 | the effect and outcome are exactly `ProjectSpec.BaseCreateFile` under the active Twig environment, which stays in place |
| Projection.Project.StoreRendered | src/Projection/Project.php:220-233 | after rendering: the parent check and creation, then the write, as `ProjectSpec.StoreRendered` |
| Projection.Project.EnsureParent | src/Projection/Project.php:220-225 | is_dir on dirname of the full path, and the virtual createDirectory(dirname($path)) only when it fails |
| Projection.Project.ConsoleCreateFile | src/Projection/Console/ConsoleAwareProject.php:58-66 | the override's effect is exactly the parent's, plus a `+file` line after a normal return |
| Projection.Project.CreateFile | src/Projection/Project.php:289 | the virtual createFile call behaves as the method of the object's runtime class |
| Projection.Project.CreateStructure | src/Projection/Project.php:277-299 | the loop over the structure leaves exactly the state and outcome of `ProjectSpec.CreateStructure` (the fail-fast walk under the trimmed base) |
| Projection.Project.CreateItem | src/Projection/Project.php:282-297 | one iteration: directory or file at base/item, a RuntimeException rethrown wrapped with the item and base |
| Projection.Project.WriteConfig | src/Projection/Project.php:190-195 | createFile of the dumped configuration to `/.projection.yml` through `txt/void.twig` |
| ProjectProperties.CreateDirectoryOutcome | src/Projection/Project.php:248-266 | false exactly when the directory exists, true exactly when it was missing with no file on any prefix, the RuntimeException otherwise; only true changes the filesystem, adding the directory and its ancestors, no other directory, and touching no file |
| ProjectProperties.CreateDirectoryTwice | src/Projection/Project.php:253-255 | after a normal return a second createDirectory returns false and changes nothing, log included |
| ProjectProperties.CreateDirectoryTrueThenFalse | src/Projection/Project.php:248-266 | on a missing directory two calls in a row return true, then false |
| ProjectProperties.ConsoleCreateDirectoryLog | src/Projection/Console/ConsoleAwareProject.php:71-82 | the console-aware call returns what the parent returns, has its filesystem effect, and appends one `+dir` line exactly when the result is true |
| ProjectProperties.CreateDirectoryValid | src/Projection/Project.php:257 | createDirectory keeps the filesystem well formed |
| ProjectProperties.CreateDirectorySameEffect | src/Projection/Console/ConsoleAwareProject.php:71-82 | the effect on the filesystem and the result depend on the filesystem alone, not on the log nor on the class |
| ProjectProperties.CreateDirectoryBase | src/Projection/Console/ConsoleAwareProject.php:73-81 | an unfolding step used by the other proofs: whichever class runs it, createDirectory has the parent's filesystem effect and result |
| ProjectProperties.CreateDirectoryKeepsFiles | src/Projection/Project.php:248-266 | createDirectory changes no file and removes no directory |
| ProjectProperties.CreateDirectoryGrows | src/Projection/Project.php:248-266 | createDirectory removes nothing |
| ProjectProperties.CreateFileTemplateMissing | src/Projection/Project.php:211-218 | a template that cannot be loaded is an InvalidArgumentException chaining Twig's error, raised with the filesystem and log untouched |
| ProjectProperties.EnsureParentKeepsFiles | src/Projection/Project.php:223-225 | the parent check and creation change no file and remove no directory |
| ProjectProperties.EnsureParentError | src/Projection/Project.php:223-225 | the only exception from the parent's creation names the file's trimmed directory and the root |
| ProjectProperties.EnsureParentSameEffect | src/Projection/Project.php:223-225 | the parent's creation does the same to the filesystem whichever class runs it |
| ProjectProperties.EnsureParentLog | src/Projection/Project.php:223-225 | the console-aware parent creation logs one `+dir` line exactly when the parent was missing and got created |
| ProjectProperties.PutRenderedWrites | src/Projection/Project.php:227-233 | a write counted as success stored non-empty text at the target, inside a directory, and changed nothing else |
| ProjectProperties.CreateFileBase | src/Projection/Console/ConsoleAwareProject.php:58-66 | the console-aware createFile has the parent's filesystem effect and outcome |
| ProjectProperties.CreateFileSteps | src/Projection/Project.php:209-234 | an unfolding step used by the other proofs: a template that does not render changes nothing and throws; otherwise the parent creation and then, unless it threw, the write |
| ProjectProperties.CreateFileWrites | src/Projection/Project.php:209-234 | a normal return means the rendered text was non-empty and is now at rtrim(root).'/'.trim(path) inside a directory, every other file as before, no directory lost |
| ProjectProperties.CreateFileOthersUntouched | src/Projection/Project.php:227 | after a normal return the target holds exactly the rendered text, and every other file is present and unchanged |
| ProjectProperties.CreateFileEmpty | src/Projection/Project.php:227-233 | an empty rendering always ends in "Cannot create file" (0 bytes is falsy), unless creating the parent failed first |
| ProjectProperties.CreateFileEmptyWritten | src/Projection/Project.php:220-233 | when the parent step returned normally and the target can be written, an empty rendering leaves the target holding "" (the filesystem after the parent step with that one file set) and still throws "Cannot create file" |
| ProjectProperties.CreateFileSameEffect | src/Projection/Console/ConsoleAwareProject.php:58-66 | createFile's effect on the filesystem and its outcome depend on the filesystem alone, whichever class handles the virtual calls |
| ProjectProperties.BaseCreateFileOutput | src/Projection/Project.php:209-234 | the parent createFile logs only through the parent-directory creation, and returns normally only after rendering and a normal parent creation |
| ProjectProperties.ConsoleCreateFileLog | src/Projection/Console/ConsoleAwareProject.php:58-66 | after a normal return the log gains `+file`, preceded by `+dir` when the parent was created; after an exception no `+file` line, at most the `+dir` of a created parent |
| ProjectProperties.CreateFileGrows | src/Projection/Project.php:209-234 | createFile, whatever its outcome, removes nothing |
| ProjectProperties.CreateFileValid | src/Projection/Project.php:209-234 | createFile keeps the filesystem well formed |
| ProjectProperties.SourceDirectoryResolves | src/Projection/Project.php:166-171 | getSourceDirectory is the source directory followed by one segment per namespace part |
| ProjectProperties.TestsDirectoryResolves | src/Projection/Project.php:178-183 | getTestsDirectory is the tests directory, one segment per namespace part, then `Tests` |
| StructureProperties.CreateItemParts | src/Projection/Project.php:285-297 | an unfolding step used by the other proofs: one iteration is the entry's own createDirectory/createFile followed by the catch that wraps RuntimeExceptions |
| StructureProperties.CreateItemSameEffect | src/Projection/Project.php:285-297 | one iteration does the same to the filesystem, with the same outcome, whichever class runs it |
| StructureProperties.CreateItemGrows | src/Projection/Project.php:285-297 | one iteration removes nothing |
| StructureProperties.CreateItemValid | src/Projection/Project.php:285-297 | one iteration keeps the filesystem well formed |
| StructureProperties.CreateItemPresent | src/Projection/Project.php:286-290 | an entry that returned normally is present afterwards: a directory entry as a directory, a file entry as a file |
| StructureProperties.CreateItemPresentDirectory | src/Projection/Project.php:287 | a directory entry already present changes nothing, log included, and returns normally |
| StructureProperties.CreateFileError | src/Projection/Project.php:209-234 | createFile throws only a RuntimeException, an InvalidArgumentException (template not loadable) or a Twig error |
| StructureProperties.StoreRenderedError | src/Projection/Project.php:220-233 | once rendered, only RuntimeExceptions are thrown |
| StructureProperties.EntryErrorKinds | src/Projection/Project.php:286-290 | an entry's own call throws only those three kinds |
| StructureProperties.CreateItemError | src/Projection/Project.php:291-297 | a RuntimeException out of an iteration is "Cannot create item" naming the item and the base with the original chained; the other kinds pass through unchanged |
| StructureProperties.WalkLast | src/Projection/Project.php:281-298 | an unfolding step used by the other proofs: the loop over a non-empty structure is the loop over all but the last entry, then the last entry unless an earlier one threw |
| StructureProperties.WalkSameEffect | src/Projection/Project.php:277-299 | the console-aware project does the same to the filesystem, with the same outcome, as the plain one: removing the log changes no filesystem outcome |
| StructureProperties.WalkGrows | src/Projection/Project.php:277-299 | createStructure removes nothing that existed before the call, whatever its outcome |
| StructureProperties.WalkValid | src/Projection/Project.php:277-299 | createStructure keeps the filesystem well formed |
| StructureProperties.WalkPassCreatesAll | src/Projection/Project.php:277-299 | a normal return means every entry is present: each directory entry a directory, each file entry a file |
| StructureProperties.WalkStopIndex | src/Projection/Project.php:281-298 | a loop that throws stops at some entry k: the first k entries return normally and entry k throws |
| StructureProperties.WalkError | src/Projection/Project.php:277-299 | an exception out of createStructure comes from the entry k the loop stopped at: the walk ends as that entry's iteration does, and the exception is a RuntimeException naming that item with the cause chained, or a template or Twig error passed through |
| StructureProperties.FailureKeepsEarlier | src/Projection/Project.php:281-298 | no rollback: when the loop stops at entry k the walk ends there, and every entry before k is still present |
| StructureProperties.WalkPresentDirectories | src/Projection/Project.php:277-299 | a directories-only structure that is all present already changes nothing, log included, and returns normally |
| StructureProperties.DirectoriesIdempotent | src/Projection/Project.php:277-299 | running a directories-only structure again after a normal return changes nothing and returns normally |
| OrderedMaps.Store | src/Projection/Console/Command/GenerateProjectCommand.php:120-125 | `$a[$k] = $v` keeps the key order when the key is there, and appends the pair otherwise |
| OrderedMaps.StoreOverwrites | src/Projection/Console/Command/GenerateProjectCommand.php:120-125 | storing under a present key changes that key's value and nothing else |
| OrderedMaps.StoreDistinct | src/Projection/Console/Command/GenerateProjectCommand.php:120-125 | storing keeps the keys distinct |
| OrderedMaps.LiteralDistinct | src/Projection/Console/Command/GenerateProjectCommand.php:120-125 | an array literal never holds a key twice |
| OrderedMaps.LiteralOfDistinct | src/Projection/Console/Command/GenerateProjectCommand.php:120-125 | a literal with distinct keys keeps its pairs in order |
| OrderedMaps.LiteralPair | src/Projection/Console/Command/GenerateProjectCommand.php:136-139 | a two-pair literal with different keys keeps both pairs in order |
| OrderedMaps.UnionPrefix | src/Projection/Console/Command/GenerateProjectCommand.php:144-147 | `$a += $b` leaves the pairs of `$a` in place with their values |
| OrderedMaps.UnionAddsNew | src/Projection/Console/Command/GenerateProjectCommand.php:144-147 | what `+=` appends are pairs of `$b` whose keys `$a` lacks |
| OrderedMaps.UnionCovers | src/Projection/Console/Command/GenerateProjectCommand.php:144-147 | every key of `$b` is a key of `$a += $b` |
| OrderedMaps.UnionDisjoint | src/Projection/Console/Command/GenerateClassCommand.php:94-96 | with no shared keys, `$a += $b` is `$b` appended to `$a` |
| OrderedMaps.UnionOfPairs | src/Projection/Console/Command/GenerateProjectCommand.php:136-147 | two two-pair literals over four different keys: `+=` gives the four pairs in order |
| Validators.FindNameChar | src/Projection/Console/Command/Validators.php:26 | the leftmost character of the class [a-zA-Z0-9_-], if any: where the unanchored search succeeds |
| Validators.OnlyNamespaceCharsExactly | src/Projection/Console/Command/Validators.php:40 | the anchored run matches exactly when every character is in [a-zA-Z0-9\\_] |
| Validators.ValidateProjectName | src/Projection/Console/Command/Validators.php:24-34 | the name is returned unchanged or refused with the fixed message |
| Validators.ProjectNameAccepted | src/Projection/Console/Command/Validators.php:24-34 | a name is accepted exactly when one of its characters is a letter, a digit, `_` or `-` |
| Validators.ProjectNameExamples | src/Projection/Console/Command/Validators.php:26 | "my project!" is accepted, " ?" and the empty name are refused |
| Validators.ValidateNamespace | src/Projection/Console/Command/Validators.php:36-47 | returns the namespace with `/` turned into `\`, or the fixed message |
| Validators.NamespaceAccepted | src/Projection/Console/Command/Validators.php:36-47 | without newlines: accepted exactly when non-empty and every character is a letter, digit, `_`, `\` or `/` |
| Validators.NamespaceNormalised | src/Projection/Console/Command/Validators.php:38-46 | an accepted namespace holds no `/` and is accepted again unchanged |
| Validators.NamespaceFinalNewline | src/Projection/Console/Command/Validators.php:40 | PCRE's `$` lets one final newline through: an accepted namespace followed by "\n" is accepted, newline kept |
| Validators.ValidateName | src/Projection/Console/Command/Validators.php:49-58 | accepted exactly when not empty (null reads as empty), returned unchanged |
| Validators.ValidateEmail | src/Projection/Console/Command/Validators.php:60-69 | accepted exactly when the email check holds, returned unchanged |
| Validators.ValidateLicense | src/Projection/Console/Command/Validators.php:71-84 | accepted exactly when gpl, mit or lgpl; the message lists the three |
| Validators.LicenseExamples | src/Projection/Console/Command/Validators.php:71-84 | `lesser-gpl`, offered by the option's help text, is refused; `mit` is accepted |
| Validators.ValidateLicenseYears | src/Projection/Console/Command/Validators.php:86-95 | returned unchanged when it matches `^([0-9]{4})(\-[0-9]{4})?$`, or the fixed message |
| Validators.LicenseYearsAccepted | src/Projection/Console/Command/Validators.php:88 | every single four-digit year and every pair of years is accepted, in either order |
| Validators.LicenseYearsLength | src/Projection/Console/Command/Validators.php:88 | without a final newline accepted years are four digits or four digits, `-`, four digits |
| Validators.LicenseYearsExamples | src/Projection/Console/Command/Validators.php:88 | "2024-2012" and "2024\n" are accepted; "24", "2012-24" and "2012/2024" are refused |
| Validators.ValidateDirectory | src/Projection/Console/Command/Validators.php:97-106 | accepted exactly when not empty, returned unchanged |
| Validators.ValidateClassName | src/Projection/Console/Command/Validators.php:108-115 | accepted exactly when not empty; the result is the name with each `/` replaced by `\` and holds no `/` |
| Validators.ClassNameIdempotent | src/Projection/Console/Command/Validators.php:108-115 | an accepted class name is accepted again unchanged |
| CommandInput.FirstMissing | src/Projection/Console/Command/GenerateProjectCommand.php:56-63 | the first required option that is absent, all earlier ones present; none exactly when all are present |
| CommandInput.CheckRequired | src/Projection/Console/Command/GenerateProjectCommand.php:56-63 | the foreach over required options ends as `RequireOptions` says |
| CommandInput.RequireOptionsOutcome | src/Projection/Console/Command/GenerateProjectCommand.php:56-63 | passes exactly when all required options are given; otherwise the RuntimeException names the first missing one |
| GenerateClass.VarName | src/Projection/Console/Command/GenerateClassCommand.php:103-104 | fails with PHP 8's empty-string-offset Error exactly when the class is empty |
| GenerateClass.VarNameShape | src/Projection/Console/Command/GenerateClassCommand.php:103-104 | varName is the class with only its first character lower-cased |
| GenerateClass.SplitClassNameRejoins | src/Projection/Console/Command/GenerateClassCommand.php:99-101 | the class holds no `\`; without `\` the namespace is empty; otherwise namespace, `\` and class give back the name |
| GenerateClass.ClassStructureShape | src/Projection/Console/Command/GenerateClassCommand.php:87-97 | the class file entry, then the test case entry exactly when the project has tests (unless both paths coincide) |
| GenerateClass.ClassFileResolves | src/Projection/Console/Command/GenerateClassCommand.php:84-85 | the class file is the source directory, then one segment per namespace part, the last ending in `.php` |
| GenerateClass.TestFileResolves | src/Projection/Console/Command/GenerateClassCommand.php:92 | the test case is the tests directory, then one segment per namespace part, the last ending in `Test.php` |
| GenerateClass.Execute | src/Projection/Console/Command/GenerateClassCommand.php:44-117 | the filesystem, the project's log and the exit code or exception are exactly `ClassCommand` of the initial filesystem |
| GenerateProject.ValidatedSettings | src/Projection/Console/Command/GenerateProjectCommand.php:65-116 | the configuration holds each option as validated: a project name with at least one `[a-zA-Z0-9_-]` character, a namespace that matches the namespace pattern and holds no `/`, licence years of the `YYYY` or `YYYY-YYYY` shape, a non-empty author name and non-empty directories, a valid email and licence; tests false exactly under --no-tests |
| GenerateProject.ValidateOptionsError | src/Projection/Console/Command/GenerateProjectCommand.php:65-77 | every refused option is an InvalidArgumentException |
| GenerateProject.DirectoryStructureShape | src/Projection/Console/Command/GenerateProjectCommand.php:120-125 | with four different paths the first structure is root, source, namespace and documentation directories, in that order |
| GenerateProject.StructuresDistinct | src/Projection/Console/Command/GenerateProjectCommand.php:120-132 | no directory structure lists a path twice |
| GenerateProject.FileStructureShape | src/Projection/Console/Command/GenerateProjectCommand.php:136-148 | README then LICENSE; with tests, phpunit.xml.dist then the TestCase after them |
| GenerateProject.RunAppend | src/Projection/Console/Command/GenerateProjectCommand.php:120-152 | running two call lists in a row is running their concatenation; the second starts where the first ended unless it threw |
| GenerateProject.PlanSplit | src/Projection/Console/Command/GenerateProjectCommand.php:120-152 | an unfolding step used by the other proofs: the plan is the directory calls, then, unless they threw, the file calls |
| GenerateProject.RunUpToTwo | src/Projection/Console/Command/GenerateProjectCommand.php:127-132 | an unfolding step used by the methods' proofs: a call followed, when there is a second and the first returned normally, by another is the run of that list |
| GenerateProject.Execute | src/Projection/Console/Command/GenerateProjectCommand.php:54-158 | the filesystem, the project's log and the exit code or exception are exactly `ProjectCommand` of the initial filesystem |
| GenerateProject.Build | src/Projection/Console/Command/GenerateProjectCommand.php:95-152 | the new console-aware project in cwd/dir runs the plan, as `Scaffold` says |
| GenerateProject.Generate | src/Projection/Console/Command/GenerateProjectCommand.php:120-152 | the calls on the project leave exactly the state and outcome of `Run` over the plan |
| GenerateProject.MakeDirectories | src/Projection/Console/Command/GenerateProjectCommand.php:120-132 | the directory structure, then the tests structure when there are tests, as `Run` over the directory calls |
| GenerateProject.MakeFiles | src/Projection/Console/Command/GenerateProjectCommand.php:134-152 | writeConfig, then the file structure rendered with the configuration, as `Run` over the file calls |
| GenerateProject.Perform | src/Projection/Console/Command/GenerateProjectCommand.php:150-152 | one call on the project behaves as `RunCall` |
| CommandProperties.ClassOutsideProject | src/Projection/Console/Command/GenerateClassCommand.php:46-50 | outside a project the command throws the LogicException chaining the InvalidArgumentException and touches nothing |
| CommandProperties.ClassWithoutName | src/Projection/Console/Command/GenerateClassCommand.php:55-62 | without a name the command throws the RuntimeException naming the option and touches nothing |
| CommandProperties.ClassDeclined | src/Projection/Console/Command/GenerateClassCommand.php:66-80 | declining the confirmation exits with 1 and touches nothing |
| CommandProperties.ClassNameEndingInSeparator | src/Projection/Console/Command/GenerateClassCommand.php:99-104 | a name ending in `/` or `\` leaves an empty class; PHP 8 throws before anything is created |
| CommandProperties.ClassCreated | src/Projection/Console/Command/GenerateClassCommand.php:44-117 | exit code 0 means the class file exists, and the test case too when the project has tests; nothing removed, well-formedness kept |
| CommandProperties.ProjectRefusedEarly | src/Projection/Console/Command/GenerateProjectCommand.php:56-93 | a missing option, an invalid option or a declined confirmation ends the command with nothing created or logged, with that exception or exit code 1 |
| CommandProperties.RunCallDone | src/Projection/Console/Command/GenerateProjectCommand.php:120-152 | one call removes nothing and, after a normal return, its entries or the configuration file exist |
| CommandProperties.RunDone | src/Projection/Console/Command/GenerateProjectCommand.php:120-152 | the calls remove nothing; when all returned normally each has done its work |
| CommandProperties.PlanOrder | src/Projection/Console/Command/GenerateProjectCommand.php:120-152 | directories first, tests directories only with tests, then writeConfig, then the files rendered with the configuration |
| CommandProperties.ProjectCreated | src/Projection/Console/Command/GenerateProjectCommand.php:54-158 | exit code 0 means every directory and file of the plan, the configuration included, exists in the new project's directory, and nothing was removed |

## Left out

- The real filesystem and Twig. These are foreign code. The model states what the PHP
  code asks of them: is_dir, is_file, recursive mkdir, file_put_contents and rendering.
- Filesystem failures other than path conflicts: permissions, modes (the `$mode` argument
  is ignored), a full disk. `..` in paths is not interpreted.
- YAML parsing and dumping. They are abstract functions, so the round trip
  `load(save(config)) == config` is not proved. Symfony's YAML is not part of this model.
- Validators.ValidateEmail: `filter_var(..., FILTER_VALIDATE_EMAIL)` is the predicate
  parameter `isEmail`, not a model of RFC 5322 addresses.
- The interactive `interact()` prompts, DialogHelper, Application and the commands'
  `configure()`. The option defaults (`mit`, `date('Y')`, `src`, `doc`, `tests`) are
  taken to be present in the input already.
- `getcwd()` is a parameter. The memo in `Command::getProject`, which creates the
  project once per command object, is not modelled.
- `setOutput`: the log of a new project starts empty. The commands' own console writes
  (blank lines, "Operation aborted.", the final message) are not part of the log.
- In generate:project, `new ConsoleAwareProject(...)` followed by `setConfig(...)` is
  one constructor call with the configuration.
- Multibyte `strtolower` and PHP's conversion of numeric-string array keys to integers:
  strings are sequences of characters and keys stay strings.
- ProjectProperties.SourceDirectoryResolves: stated only for namespaces without `/`,
  which validateNamespace guarantees for new projects. A hand-edited configuration is
  not covered.
- ProjectProperties.TestsDirectoryResolves: the same restriction on the namespace.
- GenerateClass.ClassFileResolves: stated only for names without `/`, which
  validateClassName guarantees. The same holds for GenerateClass.TestFileResolves.
- Validators.NamespaceAccepted: characterised only for input without newlines.
  Validators.NamespaceFinalNewline covers a single final newline.
- Validators.LicenseYearsLength: the shape is stated only for input without a final
  newline.
- ProjectProperties.ConsoleCreateFileLog: the log after a normal return is not stated
  for one case. That is when is_dir of `dirname($fullPath)` fails but createDirectory
  finds its own target present, so the two checks disagree.
- GenerateProject.DirectoryStructureShape: the exact entries are stated only when the
  four paths differ. Otherwise only distinctness is stated, by
  GenerateProject.StructuresDistinct.
- GenerateProject.FileStructureShape: the result is not spelled out when the TestCase
  path coincides with README, LICENSE or phpunit.xml.dist.
- GenerateClass.VarName: follows PHP 8.0 and later, where `$varName[0] = ...` on an
  empty class name throws an Error. PHP 7.1 to 7.4 only warn and carry on, and older
  versions turn the empty string into an array. Either way createStructure then runs.
  For `--name 'Foo\'` it creates `<src>/<ns>/Foo/.php`, plus `Foo/Test.php` when the
  project has tests. That path is not modelled.
- CommandProperties.ClassNameEndingInSeparator: the throw with nothing created is
  PHP 8.0 behaviour. Older versions create the files named under GenerateClass.VarName.
