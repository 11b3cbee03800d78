/**
 * `main`: the checks on the command line, in order, and the calls that
 * build the project. Of those calls the model keeps the ones that create
 * directories or write derived files: the project directory, the key pair
 * and the sample feature.
 */
module Cli {
  import opened Paths
  import opened Naming
  import opened Layout
  import opened Artifacts
  import opened Files
  import opened Generator
  import opened Feature

  /** The messages of `main`'s four checks; the fourth repeats the second. */
  const Messages: seq<string> := [
    "project name is required",
    "project name should be non-empty string",
    "project module name is required",
    "project name should be non-empty string"
  ]

  /** Check `i` of `main` fails on `args` (`args[0]` is the program itself). */
  predicate Violated(args: seq<string>, i: nat) {
    if i == 0 then |args| < 2
    else if i == 1 then |args| >= 2 && args[1] == ""
    else if i == 2 then |args| < 3
    else i == 3 && |args| >= 3 && args[2] == ""
  }

  /** The message `log.Fatalln` prints for the first check that fails, if any. */
  function ValidateArgs(args: seq<string>): (r: Option<string>)
    ensures r.None? <==> forall i :: 0 <= i < 4 ==> !Violated(args, i)
    ensures r.None? ==> |args| >= 3 && args[1] != "" && args[2] != ""
    ensures r.Some? ==> exists i :: (0 <= i < 4 && Violated(args, i) && r.value == Messages[i]
      && forall j :: 0 <= j < i ==> !Violated(args, j))
  {
    if |args| < 2 then
      assert Violated(args, 0);
      Some("project name is required")
    else if args[1] == "" then
      assert Violated(args, 1) && !Violated(args, 0);
      Some("project name should be non-empty string")
    else if |args| < 3 then
      assert Violated(args, 2) && !Violated(args, 0) && !Violated(args, 1);
      Some("project module name is required")
    else if args[2] == "" then
      assert Violated(args, 3) && !Violated(args, 0) && !Violated(args, 1) && !Violated(args, 2);
      Some("project name should be non-empty string")
    else
      assert !Violated(args, 0) && !Violated(args, 1) && !Violated(args, 2) && !Violated(args, 3);
      None
  }

  /** What `main` does once the arguments pass: project directory, keys, then the `sample` feature. */
  function ProjectCalls(dir: string, modulePath: string, pair: Option<KeyPair>): seq<Call> {
    [CreateDirectory(dir)] + (KeyCalls(dir, pair) + ApiCalls(modulePath, dir, "sample"))
  }

  /** `main` on the command line `args`, where `pair` is the key `generateRSAKeyPair` makes. */
  function Program(s: FsState, broken: set<string>, args: seq<string>, pair: Option<KeyPair>): Halted {
    match ValidateArgs(args)
    case Some(msg) => Halted(s, Some(msg))
    case None => RunCalls(s, broken, ProjectCalls(args[1], args[2], pair))
  }

  /** `main`. */
  method Execute(fs: FileSystem, args: seq<string>, pair: Option<KeyPair>) returns (fatal: Option<string>)
    modifies fs
    ensures Halted(fs.State(), fatal) == Program(old(fs.State()), fs.broken, args, pair)
    ensures ValidateArgs(args).Some? ==> fatal == ValidateArgs(args) && fs.State() == old(fs.State())
  {
    fatal := ValidateArgs(args);
    if fatal.Some? {
      return;
    }
    var dir := args[1];
    var modulePath := args[2];
    ghost var keys, api := KeyCalls(dir, pair), ApiCalls(modulePath, dir, "sample");
    RunCallsAppend(fs.State(), fs.broken, [CreateDirectory(dir)], keys + api);
    fatal := CreateDir(fs, dir);
    if fatal.Some? {
      return;
    }
    RunCallsAppend(fs.State(), fs.broken, keys, api);
    var keyErr;
    fatal, keyErr := GenerateRsaKeyPair(fs, dir, pair);
    if fatal.Some? {
      return;
    }
    fatal := GenerateApi(fs, modulePath, dir, "sample");
  }

  /** The key files `generateRSAKeyPair` leaves, none when making the key failed. */
  function KeyFiles(dir: string, pair: Option<KeyPair>): map<string, Content> {
    if pair.None? then map[]
    else map[PrivateKeyFile(dir) := Literal(pair.value.privatePem)][PublicKeyFile(dir) := Literal(pair.value.publicPem)]
  }

  /** The paths of the project directory's first levels. */
  lemma ProjectPaths(dir: string)
    requires dir != ""
    ensures KeysDir(dir) == dir + "/" + "keys" && ApiDir(dir) == dir + "/" + "api"
    ensures PrivateKeyFile(dir) == KeysDir(dir) + "/" + "private.pem" && PublicKeyFile(dir) == KeysDir(dir) + "/" + "public.pem"
    ensures |PrivateKeyFile(dir)| == |dir| + 17 && |PublicKeyFile(dir)| == |dir| + 16
    ensures Parent(PrivateKeyFile(dir)) == KeysDir(dir) && Parent(PublicKeyFile(dir)) == KeysDir(dir)
    ensures PrivateKeyFile(dir)[|dir| + 1] == 'k' && PublicKeyFile(dir) != PrivateKeyFile(dir)
  {
    SplitLast(KeysDir(dir), "private.pem");
    SplitLast(KeysDir(dir), "public.pem");
  }

  /** A fresh file system: creating the project directory gives it and the directories above it. */
  lemma ProjectDirStage(dir: string)
    requires dir != ""
    ensures RunCalls(FsState({}, map[]), {}, [CreateDirectory(dir)]) == Halted(FsState(Ancestry(dir), map[]), None)
    ensures Rooted(FsState(Ancestry(dir), map[]), dir)
  {
    var s := FsState({}, map[]);
    MakeDirsEffect(s, {}, dir);
    CreateDirectoryCall(s, {}, dir);
  }

  /** Then `generateRSAKeyPair` creates `keys` and writes the key files. */
  lemma KeysStage(dir: string, pair: Option<KeyPair>)
    requires dir != ""
    requires Rooted(FsState(Ancestry(dir), map[]), dir)
    ensures RunCalls(FsState(Ancestry(dir), map[]), {}, KeyCalls(dir, pair))
      == Halted(FsState(Ancestry(dir) + {KeysDir(dir)}, KeyFiles(dir, pair)), None)
    ensures Rooted(FsState(Ancestry(dir) + {KeysDir(dir)}, KeyFiles(dir, pair)), dir)
  {
    var s := FsState(Ancestry(dir), map[]);
    var t := FsState(Ancestry(dir) + {KeysDir(dir)}, map[]);
    ProjectPaths(dir);
    MkdirChild(s, {}, dir, "keys");
    RootedAfterMkdir(s, dir, KeysDir(dir));
    CreateDirectoryCall(s, {}, KeysDir(dir));
    RunTwoCalls(s, {}, CreateDirectory(KeysDir(dir)), IgnoringError(KeySteps(dir, pair)));
    assert [IgnoringError(KeySteps(dir, pair))][1..] == [];
    if pair.Some? {
      var c1, c2 := Literal(pair.value.privatePem), Literal(pair.value.publicPem);
      AncestryBound(dir, PrivateKeyFile(dir));
      AncestryBound(dir, PublicKeyFile(dir));
      KeyFilesWritten(t, {}, dir, pair);
      RootedAfterWrite(t, dir, PrivateKeyFile(dir), c1);
      RootedAfterWrite(FsState(t.dirs, t.files[PrivateKeyFile(dir) := c1]), dir, PublicKeyFile(dir), c2);
    }
  }

  /** A path longer than `p` is not among the directories above `p`. */
  lemma AncestryBound(p: string, q: string)
    requires |q| > |p|
    ensures q !in Ancestry(p)
  {
    if q in Ancestry(p) {
      AncestryShorter(p, q);
    }
  }

  /** The paths of the `sample` feature, next to the key files. */
  lemma SamplePaths(dir: string)
    requires dir != ""
    ensures var fd := FeatureDir(dir, "sample");
      && fd == ApiDir(dir) + "/" + "sample" && |fd| == |dir| + 11
      && ModelDir(fd)[|dir| + 1] == 'a'
  {
    var fd := FeatureDir(dir, "sample");
    assert fd == dir + "/" + "api" + "/" + "sample";
    assert ModelDir(fd) == dir + "/" + "api" + "/" + "sample" + "/" + "model";
  }

  /** `createDir(dir/api)` next to `keys`. */
  lemma ApiDirCall(s: FsState, dir: string)
    requires dir != "" && Rooted(s, dir) && s.files.Keys <= {PrivateKeyFile(dir), PublicKeyFile(dir)}
    ensures RunCalls(s, {}, [CreateDirectory(ApiDir(dir))]) == Halted(FsState(s.dirs + {ApiDir(dir)}, s.files), None)
    ensures Rooted(FsState(s.dirs + {ApiDir(dir)}, s.files), ApiDir(dir))
  {
    ProjectPaths(dir);
    MkdirChild(s, {}, dir, "api");
    CreateDirectoryCall(s, {}, ApiDir(dir));
  }

  /** The `sample` feature's paths are free once the keys and `api` exist. */
  lemma SampleClear(s: FsState, dir: string)
    requires dir != ""
    requires s.dirs == Ancestry(dir) + {KeysDir(dir)} + {ApiDir(dir)}
    requires s.files.Keys <= {PrivateKeyFile(dir), PublicKeyFile(dir)}
    ensures Clear(s, {}, FeatureDir(dir, "sample"), "sample")
  {
    var fd := FeatureDir(dir, "sample");
    ProjectPaths(dir);
    SamplePaths(dir);
    FeatureLengths(fd, "sample");
    AncestryBound(dir, DtoFile(fd, "sample"));
    AncestryBound(dir, ModelFile(fd, "sample"));
    AncestryBound(dir, ServiceFile(fd));
    AncestryBound(dir, ControllerFile(fd));
  }

  /** The steps of `generateApiFeature` for the `sample` feature. */
  lemma SampleSteps(modulePath: string, dir: string)
    requires dir != ""
    ensures var fd, n := ApiDir(dir) + "/" + "sample", Names("sample", "Sample");
      FeatureSteps(modulePath, ApiDir(dir), "sample") == [Mkdir(fd)] + (DtoSteps(fd, n) + (ModelSteps(fd, n)
        + (ServiceSteps(modulePath, fd, n) + ControllerSteps(modulePath, fd, n))))
  {
    SampleNames();
    FeatureNames(dir, "sample");
  }

  /** With the project directory and `keys` in place, `generateApi` creates `api` and the `sample` feature. */
  lemma {:induction false} ApiStage(s: FsState, dir: string, modulePath: string)
    requires dir != "" && Rooted(s, dir)
    requires s.dirs == Ancestry(dir) + {KeysDir(dir)}
    requires s.files.Keys <= {PrivateKeyFile(dir), PublicKeyFile(dir)}
    ensures var fd := FeatureDir(dir, "sample");
      RunCalls(s, {}, ApiCalls(modulePath, dir, "sample"))
        == Halted(FsState(s.dirs + {ApiDir(dir)} + {fd} + {DtoDir(fd)} + {ModelDir(fd)},
                          FeatureFiles(s.files, modulePath, fd, Names("sample", "Sample"))), None)
  {
    var api := ApiDir(dir);
    var fd := FeatureDir(dir, "sample");
    var t := FsState(s.dirs + {api}, s.files);
    ApiDirCall(s, dir);
    SampleClear(t, dir);
    SampleSteps(modulePath, dir);
    SamplePaths(dir);
    FeatureRun(t, {}, modulePath, api, "sample", Names("sample", "Sample"));
    DirThenIgnored(s, {}, api, FeatureSteps(modulePath, api, "sample"), t, Run(t, {}, FeatureSteps(modulePath, api, "sample")));
  }

  /** The calls `main` makes once its arguments pass, on an empty file system where nothing is broken. */
  lemma ProjectRun(dir: string, modulePath: string, pair: Option<KeyPair>)
    requires dir != ""
    ensures var fd := FeatureDir(dir, "sample");
      RunCalls(FsState({}, map[]), {}, ProjectCalls(dir, modulePath, pair))
        == Halted(FsState(Ancestry(dir) + {KeysDir(dir)} + {ApiDir(dir)} + {fd} + {DtoDir(fd)} + {ModelDir(fd)},
                          FeatureFiles(KeyFiles(dir, pair), modulePath, fd, Names("sample", "Sample"))), None)
  {
    var s1 := FsState(Ancestry(dir), map[]);
    var keys, api := KeyCalls(dir, pair), ApiCalls(modulePath, dir, "sample");
    ProjectDirStage(dir);
    KeysStage(dir, pair);
    ApiStage(FsState(Ancestry(dir) + {KeysDir(dir)}, KeyFiles(dir, pair)), dir, modulePath);
    RunCallsAppend(FsState({}, map[]), {}, [CreateDirectory(dir)], keys + api);
    RunCallsAppend(s1, {}, keys, api);
  }

  /**
   * `main` with a project name and module path on an empty file system
   * where nothing is broken: no fatal message, and the project holds exactly
   * the project directory and the directories above it, `keys`, `api`, the
   * `sample` feature's directories, the key files and its four sources.
   */
  lemma SampleProject(program: string, dir: string, modulePath: string, pair: Option<KeyPair>)
    requires dir != "" && modulePath != ""
    ensures var fd := FeatureDir(dir, "sample");
      Program(FsState({}, map[]), {}, [program, dir, modulePath], pair)
        == Halted(FsState(Ancestry(dir) + {KeysDir(dir)} + {ApiDir(dir)} + {fd} + {DtoDir(fd)} + {ModelDir(fd)},
                          FeatureFiles(KeyFiles(dir, pair), modulePath, fd, Names("sample", "Sample"))), None)
  {
    assert ValidateArgs([program, dir, modulePath]) == None;
    ProjectRun(dir, modulePath, pair);
  }
}
