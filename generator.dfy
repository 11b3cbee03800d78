/**
 * The generator's side-effecting functions: `createDir` and `createFile`,
 * which halt the program when the call fails, the four per-file generators
 * and `generateApiFeature`, which return the first error, and the two
 * callers whose errors nobody looks at: `generateApi` drops the error of
 * `generateApiFeature`, and `main` drops the error of `generateRSAKeyPair`.
 *
 * Each Go function is a method over a `FileSystem`, specified by the list of
 * `Step`s it performs; `Files.Run` gives that list's meaning.
 */
module Generator {
  import opened Formatting
  import opened Paths
  import opened Naming
  import opened Layout
  import opened Artifacts
  import opened Files

  /** The message of `log.Fatalf("error creating directory: %s", dir)`. */
  function DirFatal(dir: string): (msg: string)
    ensures msg == "error creating directory: " + dir
  {
    var t := [Lit("error creating directory: "), Hole];
    assert t[1..] == [Hole] && [dir][1..] == [];
    assert Format([Hole], [dir]) == dir + Format([], []);
    Format(t, [dir])
  }

  /** The message of `log.Fatalf("error creating file: %s", file)`. */
  function FileFatal(file: string): (msg: string)
    ensures msg == "error creating file: " + file
  {
    var t := [Lit("error creating file: "), Hole];
    assert t[1..] == [Hole] && [file][1..] == [];
    assert Format([Hole], [file]) == file + Format([], []);
    Format(t, [file])
  }

  /** `generateDto`: create the `dto` directory, then write `dto/create_<lower>.go`. */
  function DtoSteps(featureDir: string, n: Names): seq<Step> {
    [Mkdir(DtoDir(featureDir)), Write(DtoFile(featureDir, n.lower), Generated(DtoSource(n)))]
  }

  /** `generateModel`: create the `model` directory, then write `model/<lower>.go`. */
  function ModelSteps(featureDir: string, n: Names): seq<Step> {
    [Mkdir(ModelDir(featureDir)), Write(ModelFile(featureDir, n.lower), Generated(ModelSource(n)))]
  }

  /** `generateService`: write `service.go` in the feature directory. */
  function ServiceSteps(modulePath: string, featureDir: string, n: Names): seq<Step> {
    [Write(ServiceFile(featureDir), Generated(ServiceSource(modulePath, n)))]
  }

  /** `generateController`: write `controller.go` in the feature directory. */
  function ControllerSteps(modulePath: string, featureDir: string, n: Names): seq<Step> {
    [Write(ControllerFile(featureDir), Generated(ControllerSource(modulePath, n)))]
  }

  /** `generateApiFeature(module, dir, feature)`: the feature directory, then the four generators in order. */
  function FeatureSteps(modulePath: string, dir: string, feature: string): seq<Step> {
    var featureName := ToLower(feature);
    var featureDir := Join(dir, featureName);
    var n := Recompute(featureName);
    [Mkdir(featureDir)]
      + (DtoSteps(featureDir, n)
      + (ModelSteps(featureDir, n)
      + (ServiceSteps(modulePath, featureDir, n)
      + ControllerSteps(modulePath, featureDir, n))))
  }

  /**
   * A call made by `main` or `generateApi`: `createDir`, which halts the
   * program when it fails, or a function whose returned error is dropped.
   */
  datatype Call = CreateDirectory(dir: string) | IgnoringError(steps: seq<Step>)

  /** Where a program stops: its last state, and the message of `log.Fatalf` if it halted. */
  datatype Halted = Halted(state: FsState, fatal: Option<string>)

  function RunCalls(s: FsState, broken: set<string>, calls: seq<Call>): Halted
    decreases |calls|
  {
    if calls == [] then Halted(s, None)
    else match calls[0]
      case CreateDirectory(d) =>
        var o := Run(s, broken, [Mkdir(d)]);
        if o.err.Some? then Halted(o.state, Some(DirFatal(d))) else RunCalls(o.state, broken, calls[1..])
      case IgnoringError(steps) =>
        RunCalls(Run(s, broken, steps).state, broken, calls[1..])
  }

  /** Calls in sequence: the second part runs only if the first did not halt. */
  lemma {:induction false} RunCallsAppend(s: FsState, broken: set<string>, a: seq<Call>, c: seq<Call>)
    ensures var h := RunCalls(s, broken, a);
      RunCalls(s, broken, a + c) == if h.fatal.Some? then h else RunCalls(h.state, broken, c)
    decreases |a|
  {
    if a == [] {
      assert a + c == c;
    } else {
      assert (a + c)[0] == a[0];
      assert (a + c)[1..] == a[1..] + c;
      match a[0]
      case CreateDirectory(d) =>
        var o := Run(s, broken, [Mkdir(d)]);
        if o.err.None? {
          RunCallsAppend(o.state, broken, a[1..], c);
        }
      case IgnoringError(steps) =>
        RunCallsAppend(Run(s, broken, steps).state, broken, a[1..], c);
    }
  }

  /** Calls keep the file system consistent. */
  lemma {:induction false} RunCallsValid(s: FsState, broken: set<string>, calls: seq<Call>)
    requires Valid(s)
    ensures Valid(RunCalls(s, broken, calls).state)
    decreases |calls|
  {
    if calls != [] {
      match calls[0]
      case CreateDirectory(d) =>
        RunValid(s, broken, [Mkdir(d)]);
        RunCallsValid(Run(s, broken, [Mkdir(d)]).state, broken, calls[1..]);
      case IgnoringError(steps) =>
        RunValid(s, broken, steps);
        RunCallsValid(Run(s, broken, steps).state, broken, calls[1..]);
    }
  }

  /** `generateApi(module, dir, feature)`: create `dir/api`, then generate the feature, dropping its error. */
  function ApiCalls(modulePath: string, dir: string, feature: string): seq<Call> {
    [CreateDirectory(ApiDir(dir)), IgnoringError(FeatureSteps(modulePath, ApiDir(dir), feature))]
  }

  /** The two keys in PEM form, as `pem.Encode` writes them. */
  datatype KeyPair = KeyPair(privatePem: string, publicPem: string)

  /** Why `generateRSAKeyPair` returned an error: making the key failed, or `os.Create` did. */
  datatype KeyError = GenerationFailed | CreateFailed(e: PathError)

  /** The two key files, written once the key exists; nothing is written when making it failed. */
  function KeySteps(dir: string, pair: Option<KeyPair>): seq<Step> {
    if pair.None? then []
    else [Write(PrivateKeyFile(dir), Literal(pair.value.privatePem)), Write(PublicKeyFile(dir), Literal(pair.value.publicPem))]
  }

  /** `generateRSAKeyPair(dir)` as `main` sees it: `createDir(dir/keys)`, then the key files, error dropped. */
  function KeyCalls(dir: string, pair: Option<KeyPair>): seq<Call> {
    [CreateDirectory(KeysDir(dir)), IgnoringError(KeySteps(dir, pair))]
  }

  /** The error `generateRSAKeyPair` returns once its directory exists. */
  function KeyResult(o: Outcome, pair: Option<KeyPair>): (err: Option<KeyError>) {
    if pair.None? then Some(GenerationFailed)
    else if o.err.Some? then Some(CreateFailed(o.err.value))
    else None
  }

  /**
   * Once `keys` exists, what `generateRSAKeyPair` returns says what it
   * wrote. Without a key nothing is written. With one, there is no error
   * exactly when neither key path is a directory or refused, and then both
   * files hold the key's PEM text and nothing else changed; a create error
   * is an `open` error on one of the two key files.
   */
  lemma KeyFilesWritten(t: FsState, broken: set<string>, dir: string, pair: Option<KeyPair>)
    requires KeysDir(dir) in t.dirs
    ensures var o := Run(t, broken, KeySteps(dir, pair));
      var err := KeyResult(o, pair);
      var priv, pub := PrivateKeyFile(dir), PublicKeyFile(dir);
      && (pair.None? ==> o.state == t && err == Some(GenerationFailed))
      && (pair.Some? ==> (err.None? <==> priv !in t.dirs && priv !in broken && pub !in t.dirs && pub !in broken))
      && (pair.Some? && err.None? ==>
            o.state == FsState(t.dirs, t.files[priv := Literal(pair.value.privatePem)][pub := Literal(pair.value.publicPem)]))
      && (err.Some? && err.value.CreateFailed? ==> err.value.e.op == "open" && (err.value.e.path == priv || err.value.e.path == pub))
  {
    var keys := KeysDir(dir);
    assert keys != "";
    SplitLast(keys, "private.pem");
    SplitLast(keys, "public.pem");
    if pair.Some? {
      RunTwoSteps(t, broken, Write(PrivateKeyFile(dir), Literal(pair.value.privatePem)),
        Write(PublicKeyFile(dir), Literal(pair.value.publicPem)));
      RunOne(t, broken, Write(PrivateKeyFile(dir), Literal(pair.value.privatePem)));
      var t1 := Exec(t, broken, Write(PrivateKeyFile(dir), Literal(pair.value.privatePem))).state;
      RunOne(t1, broken, Write(PublicKeyFile(dir), Literal(pair.value.publicPem)));
    }
  }

  lemma RunTwoCalls(s: FsState, broken: set<string>, x: Call, y: Call)
    ensures var h := RunCalls(s, broken, [x]);
      RunCalls(s, broken, [x, y]) == if h.fatal.Some? then h else RunCalls(h.state, broken, [y])
  {
    assert [x, y] == [x] + [y];
    RunCallsAppend(s, broken, [x], [y]);
  }

  /** A `createDir` that succeeds, then steps whose error is dropped: the program goes on from where the steps stop. */
  lemma DirThenIgnored(s: FsState, broken: set<string>, d: string, steps: seq<Step>, t: FsState, o: Outcome)
    requires RunCalls(s, broken, [CreateDirectory(d)]) == Halted(t, None)
    requires Run(t, broken, steps) == o
    ensures RunCalls(s, broken, [CreateDirectory(d), IgnoringError(steps)]) == Halted(o.state, None)
  {
    RunTwoCalls(s, broken, CreateDirectory(d), IgnoringError(steps));
    assert [IgnoringError(steps)][1..] == [];
  }

  /**
   * `createDir(d)`, then steps whose error is dropped, as in `generateApi`
   * and in `main`'s call of `generateRSAKeyPair`: the program halts exactly
   * when `os.MkdirAll(d)` fails, keeping the directories it made before
   * failing, and a failing step only cuts the steps short, leaving the state
   * it reached.
   */
  lemma OnlyDirectoryHalts(s: FsState, broken: set<string>, d: string, steps: seq<Step>)
    ensures var h, o := RunCalls(s, broken, [CreateDirectory(d), IgnoringError(steps)]), Exec(s, broken, Mkdir(d));
      && (h.fatal.Some? <==> o.err.Some?)
      && (h.fatal.Some? ==> h == Halted(o.state, Some(DirFatal(d))))
      && (h.fatal.None? ==> h.state == Run(o.state, broken, steps).state)
  {
    CreateDirectoryCall(s, broken, d);
    RunTwoCalls(s, broken, CreateDirectory(d), IgnoringError(steps));
    assert [IgnoringError(steps)][1..] == [];
  }

  /**
   * A lone `createDir` ends where its `os.MkdirAll` ended, directories made
   * before a failure included, and halts exactly when that call failed.
   */
  lemma CreateDirectoryCall(s: FsState, broken: set<string>, d: string)
    ensures var h, o := RunCalls(s, broken, [CreateDirectory(d)]), Exec(s, broken, Mkdir(d));
      && h.state == o.state
      && (h.fatal.None? <==> o.err.None?)
      && (h.fatal.Some? ==> h.fatal == Some(DirFatal(d)))
  {
    assert [CreateDirectory(d)][1..] == [];
    RunOne(s, broken, Mkdir(d));
  }

  /** `createDir(dir)`: `os.MkdirAll`, halting with a message when it fails. */
  method CreateDir(fs: FileSystem, dir: string) returns (fatal: Option<string>)
    modifies fs
    ensures Halted(fs.State(), fatal) == RunCalls(old(fs.State()), fs.broken, [CreateDirectory(dir)])
  {
    var err := fs.MkdirAll(dir);
    fatal := if err.Some? then Some(DirFatal(dir)) else None;
  }

  /** `createFile(file, content)`: `os.WriteFile`, halting with a message when it fails. */
  method CreateFile(fs: FileSystem, file: string, content: string) returns (fatal: Option<string>)
    modifies fs
    ensures var o := Run(old(fs.State()), fs.broken, [Write(file, Literal(content))]);
      fs.State() == o.state && fatal == if o.err.Some? then Some(FileFatal(file)) else None
  {
    var err := fs.WriteFile(file, Literal(content));
    fatal := if err.Some? then Some(FileFatal(file)) else None;
  }

  /** Two steps in sequence, the second attempted only if the first succeeded. */
  lemma RunTwoSteps(s: FsState, broken: set<string>, x: Step, y: Step)
    ensures Run(s, broken, [x, y]) == Then(Run(s, broken, [x]), broken, [y])
  {
    assert [x, y] == [x] + [y];
    RunAppend(s, broken, [x], [y]);
  }

  method GenerateDto(fs: FileSystem, featureDir: string, featureName: string) returns (err: Option<PathError>)
    modifies fs
    ensures Outcome(fs.State(), err) == Run(old(fs.State()), fs.broken, DtoSteps(featureDir, Recompute(featureName)))
  {
    var steps := DtoSteps(featureDir, Recompute(featureName));
    RunTwoSteps(fs.State(), fs.broken, steps[0], steps[1]);
    err := fs.MkdirAll(DtoDir(featureDir));
    if err.Some? {
      return;
    }
    var featureLower := ToLower(featureName);
    var featureCaps := Capitalize(featureName);
    err := fs.WriteFile(DtoFile(featureDir, featureLower), Generated(DtoSource(Names(featureLower, featureCaps))));
  }

  method GenerateModel(fs: FileSystem, featureDir: string, featureName: string) returns (err: Option<PathError>)
    modifies fs
    ensures Outcome(fs.State(), err) == Run(old(fs.State()), fs.broken, ModelSteps(featureDir, Recompute(featureName)))
  {
    var steps := ModelSteps(featureDir, Recompute(featureName));
    RunTwoSteps(fs.State(), fs.broken, steps[0], steps[1]);
    err := fs.MkdirAll(ModelDir(featureDir));
    if err.Some? {
      return;
    }
    var featureLower := ToLower(featureName);
    var featureCaps := Capitalize(featureName);
    err := fs.WriteFile(ModelFile(featureDir, featureLower), Generated(ModelSource(Names(featureLower, featureCaps))));
  }

  method GenerateService(fs: FileSystem, modulePath: string, featureDir: string, featureName: string)
    returns (err: Option<PathError>)
    modifies fs
    ensures Outcome(fs.State(), err) == Run(old(fs.State()), fs.broken, ServiceSteps(modulePath, featureDir, Recompute(featureName)))
  {
    var featureLower := ToLower(featureName);
    var featureCaps := Capitalize(featureName);
    err := fs.WriteFile(ServiceFile(featureDir), Generated(ServiceSource(modulePath, Names(featureLower, featureCaps))));
  }

  method GenerateController(fs: FileSystem, modulePath: string, featureDir: string, featureName: string)
    returns (err: Option<PathError>)
    modifies fs
    ensures Outcome(fs.State(), err) == Run(old(fs.State()), fs.broken, ControllerSteps(modulePath, featureDir, Recompute(featureName)))
  {
    var featureLower := ToLower(featureName);
    var featureCaps := Capitalize(featureName);
    err := fs.WriteFile(ControllerFile(featureDir), Generated(ControllerSource(modulePath, Names(featureLower, featureCaps))));
  }

  /** `generateApiFeature`: each step in order, returning the first error. */
  method GenerateApiFeature(fs: FileSystem, modulePath: string, dir: string, feature: string)
    returns (err: Option<PathError>)
    modifies fs
    ensures Outcome(fs.State(), err) == Run(old(fs.State()), fs.broken, FeatureSteps(modulePath, dir, feature))
  {
    var featureName := ToLower(feature);
    var featureDir := Join(dir, featureName);
    ghost var b := fs.broken;
    ghost var n := Recompute(featureName);
    ghost var dto := DtoSteps(featureDir, n);
    ghost var model := ModelSteps(featureDir, n);
    ghost var service := ServiceSteps(modulePath, featureDir, n);
    ghost var controller := ControllerSteps(modulePath, featureDir, n);
    RunAppend(fs.State(), b, [Mkdir(featureDir)], dto + (model + (service + controller)));
    err := fs.MkdirAll(featureDir);
    if err.Some? {
      return;
    }
    RunAppend(fs.State(), b, dto, model + (service + controller));
    err := GenerateDto(fs, featureDir, featureName);
    if err.Some? {
      return;
    }
    RunAppend(fs.State(), b, model, service + controller);
    err := GenerateModel(fs, featureDir, featureName);
    if err.Some? {
      return;
    }
    RunAppend(fs.State(), b, service, controller);
    err := GenerateService(fs, modulePath, featureDir, featureName);
    if err.Some? {
      return;
    }
    err := GenerateController(fs, modulePath, featureDir, featureName);
  }

  /** `generateApi`: `createDir(dir/api)`, then the feature; the feature's error goes nowhere. */
  method GenerateApi(fs: FileSystem, modulePath: string, dir: string, feature: string) returns (fatal: Option<string>)
    modifies fs
    ensures Halted(fs.State(), fatal) == RunCalls(old(fs.State()), fs.broken, ApiCalls(modulePath, dir, feature))
  {
    var calls := ApiCalls(modulePath, dir, feature);
    RunTwoCalls(fs.State(), fs.broken, calls[0], calls[1]);
    var d := ApiDir(dir);
    fatal := CreateDir(fs, d);
    if fatal.Some? {
      return;
    }
    var _ := GenerateApiFeature(fs, modulePath, d, feature);
    assert [IgnoringError(FeatureSteps(modulePath, d, feature))][1..] == [];
  }

  /**
   * `generateRSAKeyPair(dir)`: `createDir(dir/keys)`, then the two key files.
   * `pair` is the key `rsa.GenerateKey` made, already in PEM form, or `None`
   * when making or encoding it failed.
   */
  method GenerateRsaKeyPair(fs: FileSystem, dir: string, pair: Option<KeyPair>)
    returns (fatal: Option<string>, err: Option<KeyError>)
    modifies fs
    ensures Halted(fs.State(), fatal) == RunCalls(old(fs.State()), fs.broken, KeyCalls(dir, pair))
    ensures fatal.None? ==>
      err == KeyResult(Run(Exec(old(fs.State()), fs.broken, Mkdir(KeysDir(dir))).state, fs.broken, KeySteps(dir, pair)), pair)
  {
    var calls := KeyCalls(dir, pair);
    ghost var s0 := fs.State();
    RunTwoCalls(s0, fs.broken, calls[0], calls[1]);
    assert [calls[1]][1..] == [];
    fatal := CreateDir(fs, KeysDir(dir));
    if fatal.Some? {
      err := None;
      return;
    }
    CreateDirectoryCall(s0, fs.broken, KeysDir(dir));
    if pair.None? {
      assert Run(fs.State(), fs.broken, []) == Outcome(fs.State(), None);
      err := Some(GenerationFailed);
      return;
    }
    RunTwoSteps(fs.State(), fs.broken, Write(PrivateKeyFile(dir), Literal(pair.value.privatePem)),
      Write(PublicKeyFile(dir), Literal(pair.value.publicPem)));
    var e := fs.WriteFile(PrivateKeyFile(dir), Literal(pair.value.privatePem));
    if e.Some? {
      err := Some(CreateFailed(e.value));
      return;
    }
    e := fs.WriteFile(PublicKeyFile(dir), Literal(pair.value.publicPem));
    err := if e.Some? then Some(CreateFailed(e.value)) else None;
  }
}
