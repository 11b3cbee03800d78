# goservegen in Dafny

goservegen is a command-line generator. It is run as
`goservegen <project-dir> <module-path>` and writes a Go web-service
skeleton. This project models the part of that program where the output
depends on its inputs:

- **Names.** `strings.ToLower` and `capitalizeFirstLetter` derive a
  lower-case and a capitalised name from the feature name (here always
  `sample`). The identifiers, import paths and file paths built from those
  two names are modelled too.
- **Templates.** The four per-feature source files (DTO, model, service,
  controller) are `fmt.Sprintf` templates with positional `%s` holes and
  `%%` escapes. The generators fill them from their argument lists.
- **File-system steps.** `createDir`, `createFile` and `generateApiFeature`
  with its four generators run over an abstract file system. That file
  system fails at chosen paths. `generateApi` and `generateRSAKeyPair` are
  modelled as `main` calls them.
- **Argument checks.** `main` checks its command line in order.

How the model is arranged:

- **`Naming`**: ASCII `ToLower`/`ToUpper`, `capitalizeFirstLetter`, and the
  lower/caps pair (`Names`) that each generator recomputes.
- **`Formatting`**: the `%s`/`%%` part of `fmt.Sprintf`. This includes
  `fmt`'s `%!s(MISSING)` and `%!(EXTRA …)` output. The same formatter also
  works on a sequence of segments, each literal text (`Lit`) or a hole
  (`Hole`).
- **`Templates`**: a template is a list of lines. Each hole says which
  variant of the name it needs: the lower-case name, the capitalised name,
  or the module path. An argument list is a sequence of such tags.
- **`Artifacts`**: the four templates and their argument lists, transcribed
  from `main.go`. This module holds the proofs about arity and about the
  names the files share.
- **`Paths`, `Layout`**: `filepath.Join`, the directory part and the last
  element of a path, and every path the generator creates.
- **`Files`**: a file system is a set of directories plus a map from path to
  content.
  - A `Step` is one `os.MkdirAll` or one `os.WriteFile`.
  - `MakeDirs` follows Go's `os.MkdirAll`. It creates the missing
    directories from the top down. When one of them cannot be made, the
    directories above it stay created and the error names the one that
    failed, not the path asked for.
  - `Run` applies steps in order and stops at the first error.
  - The `FileSystem` class holds `dirs` and `files` as fields. Its
    `MkdirAll` and `WriteFile` methods update them, and each is specified by
    `Run`.
- **`Generator`**: one method per Go function.
  - A `Call` stands for one thing `main` or `generateApi` does. It is either
    a `createDir`, which halts the program when it fails (`log.Fatalf`), or a
    function whose error is dropped.
  - `RunCalls` runs a list of calls. It ends with the reached state and the
    fatal message, if there was one.
- **`Feature`**: proofs about a whole `generateApiFeature`. It shows that the
  feature's paths can be created, and that running it again over its own
  output changes nothing.
- **`Cli`**: `main`. This covers the argument checks, the methods in call
  order, and the whole run of a fresh project.

`log.Fatal*` is modelled as a returned message, not as a process exit.

The randomly generated RSA key reaches the model as a parameter. It is
already PEM-encoded, or `None` when making it failed.

The fourth argument check (main.go:29-30) rejects an empty module path with
the same message as the project-name check. The model keeps that message
as written.

## Model

| member | source | states |
|---|---|---|
| Naming.ToLower | main.go:427 | same length; every character lowered by the ASCII rule; no upper-case letter remains |
| Naming.ToUpper | main.go:423 | same length; every character raised by the ASCII rule |
| Naming.Capitalize | main.go:419-424 | `""` maps to `""`; otherwise same length, first character upper-cased, the rest unchanged |
| Naming.LowerIdempotent | main.go:455 | lower-casing an already lowered name changes nothing |
| Naming.LowerKeepsLower | main.go:511 | a string with no upper-case letter is its own lower-case form |
| Naming.CapitalizeLowersBack | main.go:456 | lower-casing the capitalised form of a lower-case name gives the name back |
| Naming.LowerKeepsSlashes | main.go:427-428 | the lowered name holds a slash exactly when the feature name does |
| Naming.Derive | main.go:455-456 | the lower/caps pair: both as long as the feature, lower has no capitals, caps lowers back to lower, caps differs from lower only at its first character, which is upper-cased |
| Naming.RecomputeAgrees | main.go:581-582 | every generator recomputes the pair from the already lowered name and gets the pair `generateApiFeature` would compute once |
| Naming.SampleNames | main.go:43 | the feature `sample` gives `sample` and `Sample` |
| Formatting.SprintfUnparse | main.go:500 | the format string written out from segments, given to `fmt.Sprintf`, yields exactly the segment formatter's result |
| Formatting.SprintfLiteral | main.go:488-494 | text whose percent signs are doubled renders as the text itself |
| Formatting.FormatAppend | main.go:575 | when a first part gets exactly as many arguments as it has holes, formatting a concatenation is the concatenation of the two results |
| Formatting.FormatSurplus | main.go:625 | surplus arguments leave the holes alone and are reported after the text as `%!(EXTRA …)` |
| Formatting.FormatMissing | main.go:691 | a hole left without an argument shows up as `%!s(MISSING)` in the output |
| Templates.Args | main.go:625 | an argument list has one string per tag, and each is the value of its tag |
| Templates.Instantiate | main.go:500 | when the argument tags are what the holes need, the hole count equals the argument count, the format string uses only `%s`/`%%`, and `fmt.Sprintf` renders every line with the variant its holes need |
| Artifacts.DtoArity | main.go:459-500 | the DTO template has 7 holes and 7 arguments, each the capitalised name its identifier needs; the `%%` of the validation messages take none |
| Artifacts.ModelArity | main.go:515-575 | the model template has 10 holes and 10 arguments, the first the lower-case name, the rest the capitalised one, each as its hole needs |
| Artifacts.ServiceArity | main.go:585-625 | the service template has 18 holes and 18 arguments, in the order and variant the holes need |
| Artifacts.ControllerArity | main.go:635-691 | the controller template has 12 holes and 12 arguments, in the order and variant the holes need |
| Artifacts.DtoText | main.go:500 | the DTO text is the template's lines rendered from the pair |
| Artifacts.ModelText | main.go:575 | the model text is the template's lines rendered from the pair |
| Artifacts.ServiceText | main.go:625 | the service text is the template's lines rendered from the module path and pair |
| Artifacts.ControllerText | main.go:691 | the controller text is the template's lines rendered from the module path and pair |
| Artifacts.DtoDeclares | main.go:469-479 | the DTO declares `Info<Caps>`, `EmptyInfo<Caps>` and its `GetValue` |
| Artifacts.ModelDeclares | main.go:528-538 | the model declares the collection `<lower>s`, the type `<Caps>` and `New<Caps>` |
| Artifacts.ServiceImports | main.go:585-589 | the service is package `<lower>` and imports `<module>/api/<lower>/dto` and `/model` |
| Artifacts.ServiceDeclares | main.go:598-615 | the service declares `Find<Caps>` returning `*model.<Caps>`, the field `<lower>QueryBuilder` over `model.<Caps>` and the cache over `dto.Info<Caps>` |
| Artifacts.ServiceUsesItsFields | main.go:610-618 | the constructor sets, and the finder queries, the very fields the struct declares |
| Artifacts.ControllerImports | main.go:635-656 | the controller is package `<lower>`, imports the feature's dto package and `<module>/utils`, and mounts its routes under `/<lower>` |
| Artifacts.ControllerHandler | main.go:663-683 | the registered route names the handler declared; the handler calls `Find<Caps>` and maps to `dto.Info<Caps>` |
| Artifacts.NamesAgree | main.go:469-683 | formatted from one pair, each name one file declares (`Info<Caps>`, `<Caps>`, `Find<Caps>`) is the name another file uses |
| Paths.Parent | main.go:428 | the directory part is a prefix of the path, strictly shorter when the path is non-empty |
| Paths.Ancestry | main.go:430 | the directories `os.MkdirAll` may create, the path and those above it, include the path itself and never the empty path |
| Paths.AncestryClosed | main.go:430 | the directories above any created directory are created too |
| Paths.ParentBaseJoin | main.go:428 | `filepath.Join(a, b)`, `b` without a slash, has directory `a` and last element `b` |
| Layout.FileNames | main.go:457-633 | the four file names format to `dto/create_<lower>.go`, `model/<lower>.go`, `service.go`, `controller.go` |
| Layout.FilesBelow | main.go:457-633 | each of the four files is the feature directory, a slash and its file name |
| Layout.FeatureFilesDistinct | main.go:457-633 | the four file paths are pairwise distinct and all lie under the feature directory |
| Layout.FeatureFilesParents | main.go:450-633 | the DTO file sits in `dto`, the model file in `model`, and service and controller in the feature directory, the directories the generators create |
| Layout.PackageIsDirectory | main.go:583-585 | the service and controller lie in a directory whose last element is the lower-case name, also the package they declare |
| Layout.ImportsMatchDirectories | main.go:588-642 | the dto, model and utils imports, with the module path removed, equal the created directories with the project directory removed |
| Files.MakeDirsEffect | main.go:51-53 | `os.MkdirAll` never touches files; it succeeds exactly when the path is not empty and no directory on the way to it is blocked by a file or a refusal, and then it adds the path and every directory above it; otherwise it fails at the topmost blocked directory, naming that directory with `mkdir` and leaving created exactly the directories above it |
| Files.MakeDirsErrorPath | main.go:51-53 | a failing `os.MkdirAll` of a non-empty path reports `mkdir` on the path or on one of the directories above it |
| Files.PartialMkdirAll | main.go:51-53 | on an empty disk that refuses `a/b`, `os.MkdirAll("a/b")` leaves `a` created and fails on `a/b` |
| Files.ExecValid | main.go:51-61 | one `os.MkdirAll` or `os.WriteFile`, whether it succeeds or fails, keeps the file system consistent: directories rooted, every file in an existing directory, no path both |
| Files.RunValid | main.go:430-446 | any run of steps keeps the file system consistent |
| Files.RunAppend | main.go:430-446 | running two step lists one after the other is running them in sequence, the second only when the first succeeded |
| Files.RunStopsAtFirstFailure | main.go:430-446 | the completed prefix succeeds; the run fails exactly when a step is left, and then it ends with that step's own outcome on the state the prefix left, partial effects of the failing step included |
| Files.LaterStepsIgnored | main.go:430-446 | the steps after the first failing one are never attempted: replacing them changes nothing |
| Files.MkdirChild | main.go:451 | creating a directory inside a rooted one adds that one directory and nothing more |
| Files.WriteInto | main.go:502 | writing a file that is not a directory, into an existing directory, succeeds and sets that one file |
| Files.WriteOverwrites | main.go:502 | `os.WriteFile` sets the file whatever it held and leaves every other path and all directories alone; when it fails, it changes nothing and reports `open` on its own path |
| Files.MkdirExisting | main.go:430 | `os.MkdirAll` on an existing directory changes nothing |
| Files.FileSystem.MkdirAll | main.go:430 | the new state and error are those of a one-step run of `Mkdir` on the old state, partial creation on failure included (`MakeDirsEffect` describes them) |
| Files.FileSystem.WriteFile | main.go:502 | the new state and error are those of a one-step run of `Write` on the old state |
| Generator.DirFatal | main.go:53 | the message is `error creating directory: ` followed by the directory |
| Generator.FileFatal | main.go:59 | the message is `error creating file: ` followed by the file |
| Generator.CreateDirectoryCall | main.go:51-55 | `createDir` ends in the state its `os.MkdirAll` reached, directories made before a failure included, and halts with its message exactly when that call failed |
| Generator.CreateDir | main.go:51-55 | the new state and fatal message are those of the one call |
| Generator.CreateFile | main.go:57-61 | the new state is that of the one `os.WriteFile` step; the fatal message is `error creating file: <file>` exactly when that step fails |
| Generator.RunCallsAppend | main.go:36-43 | calls in sequence: the later ones run only if the earlier ones did not halt |
| Generator.RunCallsValid | main.go:36-43 | the program's calls keep the file system consistent |
| Generator.OnlyDirectoryHalts | main.go:413-417 | the program halts exactly when `createDir` fails, keeping the directories it made; after it succeeds, a dropped error never halts the program and only cuts the steps short |
| Generator.GenerateDto | main.go:449-503 | the new state and error are those of the two steps `mkdir dto`, write `dto/create_<lower>.go` |
| Generator.GenerateModel | main.go:505-578 | the new state and error are those of the two steps `mkdir model`, write `model/<lower>.go` |
| Generator.GenerateService | main.go:580-628 | the new state and error are those of writing `service.go` |
| Generator.GenerateController | main.go:630-694 | the new state and error are those of writing `controller.go` |
| Generator.GenerateApiFeature | main.go:426-447 | the new state and error are those of running the feature directory's step and the four generators' steps in order, stopping at the first failure |
| Generator.GenerateApi | main.go:413-417 | `createDir(dir/api)`, then the feature with its error dropped |
| Generator.GenerateRsaKeyPair | main.go:696-744 | `createDir(dir/keys)`, then the two key files; once the directory exists, the returned error is the key's failure or the first failing create |
| Generator.KeyFilesWritten | main.go:700-743 | with `keys` in place: no key means nothing written and `GenerationFailed`; with a key, no error exactly when neither key path is a directory or refused, and then both files hold the key's PEM text and nothing else changed; a create error is `open` on one of the two key files |
| Feature.FeatureNames | main.go:427-428 | the lowered name is non-empty and slash-free, and the generators' recomputed pair is the pair derived from the feature |
| Feature.FeatureRun | main.go:430-446 | on free paths below a rooted directory, every step succeeds, adding the three directories and the four files |
| Feature.FeatureSucceeds | main.go:426-447 | on a consistent file system with `api` present and the feature's paths free, `generateApiFeature` succeeds and adds the feature, `dto` and `model` directories and the four sources, touching nothing else |
| Feature.FeatureFilesTwice | main.go:502-693 | setting the four distinct files again to the same contents changes nothing |
| Feature.FeatureRerun | main.go:426-447 | running `generateApiFeature` again over its own output succeeds and leaves the file system as the first run left it |
| Cli.ValidateArgs | main.go:17-31 | no message exactly when all four checks pass, and then both arguments are present and non-empty; otherwise the message of the first failing check, all earlier checks passing |
| Cli.Execute | main.go:16-48 | the new state and fatal message are those of `Program`; when validation fails, that message and an unchanged file system |
| Cli.KeysStage | main.go:696-744 | in a fresh project directory, `generateRSAKeyPair` adds `keys` and the two key files (none when making the key failed) |
| Cli.ApiStage | main.go:413-417 | next to `keys`, `generateApi` adds `api`, the `sample` directories and its four sources |
| Cli.ProjectRun | main.go:36-43 | on an empty file system, `main`'s calls do not halt and leave the project directories, the key files and the sample sources |
| Cli.SampleProject | main.go:16-43 | with a program name, a project directory and a module path on an empty file system, `main` ends without a fatal message, with exactly the expected directories and files |

## Left out

- The static emitters `generateGoMod`, `generateEnvs`, `generateIgnores`, `generateUtils`, `generateConfig`, `generateStartup`, `generateCmd`, `generateMongoInit` and `generateDocker` (main.go:37-41, 44-47) are not modelled. They copy fixed text, with `%s` holes for three inputs: the module path; in `generateDocker`, the last element of the project directory, three times (main.go:93, 98-104); and in `generateStartup`, the feature name as the `%sModel` import alias (main.go:248, 254).
- `executeTidy` (main.go:48, 63-71) is not modelled. It runs `go mod tidy` as an external process.
- Cli.Execute: the static emitters between `createDir(dir)` and `generateRSAKeyPair`, and those after `generateApi`, are not modelled. A failure in one of them would halt the run earlier than the model does.
- Cli.SampleProject: the final state has no files from the static emitters, for the same reason.
- Generator.GenerateRsaKeyPair: RSA key generation, `Validate`, the DER encoding and `pem.Encode` are not modelled. They use randomness and Go's crypto libraries. The key arrives already PEM-encoded, or `None` for any failure before the files are created.
- Generator.GenerateRsaKeyPair: a `pem.Encode` that fails after `os.Create` succeeded, leaving a partial file, is not modelled. A file created there holds the whole PEM text.
- Generator.GenerateRsaKeyPair: an `x509.MarshalPKIXPublicKey` that fails after `private.pem` was written (main.go:723-726) is not modelled. It would leave `private.pem` without `public.pem`, a state `KeySteps` cannot reach: the public key's encoding is taken to succeed whenever the pair exists.
- Naming.ToLower: `strings.ToLower` and `strings.ToUpper` are modelled for ASCII letters only. Other Unicode characters are left unchanged.
- Naming.Capitalize: upper-cases the first character. The source upper-cases the first byte converted to a rune, which differs only for non-ASCII input.
- `filepath.Join` is modelled without `Clean`. `..`, `.`, repeated slashes and trailing slashes are not normalised.
- File permissions, disk errors and other OS failures are not modelled as such. They are a set of `broken` paths where `os.MkdirAll` or `os.WriteFile` fails.
- Only the template lines that hold a `%s` or a `%%` are transcribed. The text between them passes through `fmt` unchanged and is not part of this model.
- `fmt` verbs other than `%s` and `%%` are not modelled. The templates use none.
- File contents are symbolic: a `Content` names the generator and the strings it formats with, and `Bytes` gives the text.
- `log.Fatalln` and `log.Fatalf` are modelled as a returned message. Process exit, and the log output's prefix and timestamp, are not modelled.
- Concurrency is not modelled. The generator runs sequentially.
- The runtime behaviour of the generated Go code is not modelled.
