/**
 * What one run of `generateApiFeature` leaves behind: on a file system where
 * the feature's paths are free, every step succeeds, the three directories
 * are created and the four files hold the sources formatted from the
 * feature's names, whatever those files held before; and running it again
 * over its own output succeeds and changes nothing.
 */
module Feature {
  import opened Paths
  import opened Naming
  import opened Layout
  import opened Artifacts
  import opened Files
  import opened Generator

  /**
   * The feature's paths are free: its directories are not files and are not
   * refused, and its files are not directories and are not refused.
   */
  predicate Clear(s: FsState, broken: set<string>, fd: string, lower: string) {
    && fd !in s.files && fd !in broken
    && DtoDir(fd) !in s.files && DtoDir(fd) !in broken
    && ModelDir(fd) !in s.files && ModelDir(fd) !in broken
    && DtoFile(fd, lower) !in s.dirs && DtoFile(fd, lower) !in broken
    && ModelFile(fd, lower) !in s.dirs && ModelFile(fd, lower) !in broken
    && ServiceFile(fd) !in s.dirs && ServiceFile(fd) !in broken
    && ControllerFile(fd) !in s.dirs && ControllerFile(fd) !in broken
  }

  /** The four files of feature directory `fd`, set over `files`. */
  function FeatureFiles(files: map<string, Content>, modulePath: string, fd: string, n: Names): map<string, Content> {
    files[DtoFile(fd, n.lower) := Generated(DtoSource(n))]
         [ModelFile(fd, n.lower) := Generated(ModelSource(n))]
         [ServiceFile(fd) := Generated(ServiceSource(modulePath, n))]
         [ControllerFile(fd) := Generated(ControllerSource(modulePath, n))]
  }

  /** Where each file of feature directory `fd` lies, and how long its path is. */
  lemma FilesParent(fd: string, lower: string)
    requires fd != "" && '/' !in lower
    ensures DtoDir(fd) == fd + "/" + "dto" && ModelDir(fd) == fd + "/" + "model"
    ensures Parent(DtoFile(fd, lower)) == DtoDir(fd) && |DtoFile(fd, lower)| > |DtoDir(fd)|
    ensures Parent(ModelFile(fd, lower)) == ModelDir(fd) && |ModelFile(fd, lower)| > |ModelDir(fd)|
    ensures Parent(ServiceFile(fd)) == fd && Parent(ControllerFile(fd)) == fd
    ensures ServiceFile(fd) != "" && ControllerFile(fd) != ""
  {
    FilesInPackageDirs(fd, lower);
    FilesBelow(fd, lower);
    LeavesHaveNoSlash(lower);
    SplitLast(DtoDir(fd), "create_" + lower + ".go");
    SplitLast(ModelDir(fd), lower + ".go");
    SplitLast(fd, "service.go");
    SplitLast(fd, "controller.go");
  }

  /** The lengths that keep the feature's directories and files apart. */
  lemma FeatureLengths(fd: string, lower: string)
    requires fd != ""
    ensures |DtoDir(fd)| == |fd| + 4 && |ModelDir(fd)| == |fd| + 6
    ensures |DtoFile(fd, lower)| == |fd| + 15 + |lower|
    ensures |ModelFile(fd, lower)| == |fd| + 10 + |lower|
    ensures |ServiceFile(fd)| == |fd| + 11 && |ControllerFile(fd)| == |fd| + 14
  {
    FilesBelow(fd, lower);
  }

  /** The last two steps: two files written into an existing directory `fd`. */
  lemma {:induction false} TwoFiles(s: FsState, broken: set<string>, fd: string, sf: string, cf: string, c3: Content, c4: Content)
    requires fd in s.dirs && Parent(sf) == fd && Parent(cf) == fd && sf != "" && cf != ""
    requires sf !in s.dirs && sf !in broken && cf !in s.dirs && cf !in broken
    ensures Run(s, broken, [Write(sf, c3)] + [Write(cf, c4)]) == Outcome(FsState(s.dirs, s.files[sf := c3][cf := c4]), None)
  {
    WriteInto(s, broken, sf, c3);
    RunChain(s, broken, [Write(sf, c3)], [Write(cf, c4)], FsState(s.dirs, s.files[sf := c3]));
    WriteInto(FsState(s.dirs, s.files[sf := c3]), broken, cf, c4);
  }

  /** A package directory `fd/pkg` with its file, then the two files of `fd`. */
  lemma {:induction false} PackageThenFiles(s: FsState, broken: set<string>, fd: string, pkg: string,
                                            f: string, sf: string, cf: string, c: Content, c3: Content, c4: Content)
    requires Rooted(s, fd) && '/' !in pkg
    requires fd + "/" + pkg !in s.files && fd + "/" + pkg !in broken
    requires Parent(f) == fd + "/" + pkg && f !in s.dirs && f !in broken && |f| > |fd + "/" + pkg|
    requires Parent(sf) == fd && Parent(cf) == fd && |sf| > |fd + "/" + pkg| && |cf| > |fd + "/" + pkg|
    requires sf !in s.dirs && sf !in broken && cf !in s.dirs && cf !in broken
    ensures var d := fd + "/" + pkg;
      Run(s, broken, [Mkdir(d), Write(f, c)] + ([Write(sf, c3)] + [Write(cf, c4)]))
        == Outcome(FsState(s.dirs + {d}, s.files[f := c][sf := c3][cf := c4]), None)
  {
    var d := fd + "/" + pkg;
    var t := FsState(s.dirs + {d}, s.files[f := c]);
    MkdirThenWrite(s, broken, fd, pkg, f, c);
    RunChain(s, broken, [Mkdir(d), Write(f, c)], [Write(sf, c3)] + [Write(cf, c4)], t);
    TwoFiles(t, broken, fd, sf, cf, c3, c4);
  }

  /** Two package directories with a file each, then the two files of `fd`. */
  lemma {:induction false} TwoPackagesThenFiles(s: FsState, broken: set<string>, fd: string,
                                                df: string, mf: string, sf: string, cf: string,
                                                c1: Content, c2: Content, c3: Content, c4: Content)
    requires Rooted(s, fd)
    requires fd + "/" + "dto" !in s.files && fd + "/" + "dto" !in broken
    requires fd + "/" + "model" !in s.files && fd + "/" + "model" !in broken
    requires Parent(df) == fd + "/" + "dto" && Parent(mf) == fd + "/" + "model"
    requires Parent(sf) == fd && Parent(cf) == fd
    requires |df| > |fd| + 6 && |mf| > |fd| + 6 && |sf| > |fd| + 6 && |cf| > |fd| + 6
    requires df !in s.dirs && df !in broken && mf !in s.dirs && mf !in broken
    requires sf !in s.dirs && sf !in broken && cf !in s.dirs && cf !in broken
    ensures var dd, md := fd + "/" + "dto", fd + "/" + "model";
      Run(s, broken, [Mkdir(dd), Write(df, c1)] + ([Mkdir(md), Write(mf, c2)] + ([Write(sf, c3)] + [Write(cf, c4)])))
        == Outcome(FsState(s.dirs + {dd} + {md}, s.files[df := c1][mf := c2][sf := c3][cf := c4]), None)
  {
    var dd, md := fd + "/" + "dto", fd + "/" + "model";
    var t := FsState(s.dirs + {dd}, s.files[df := c1]);
    MkdirThenWrite(s, broken, fd, "dto", df, c1);
    RootedAfterMkdir(s, fd, dd);
    RootedAfterWrite(FsState(s.dirs + {dd}, s.files), fd, df, c1);
    RunChain(s, broken, [Mkdir(dd), Write(df, c1)], [Mkdir(md), Write(mf, c2)] + ([Write(sf, c3)] + [Write(cf, c4)]), t);
    PackageThenFiles(t, broken, fd, "model", mf, sf, cf, c2, c3, c4);
  }

  /**
   * Seven steps shaped like a feature's: a directory `fd` inside `api`, two
   * package directories inside it with one file each, and two files in `fd`
   * itself. Where the paths are free, every step succeeds.
   */
  lemma {:induction false} SevenSteps(s: FsState, broken: set<string>, api: string, name: string,
                                      df: string, mf: string, sf: string, cf: string,
                                      c1: Content, c2: Content, c3: Content, c4: Content)
    requires Rooted(s, api) && '/' !in name
    requires var fd := api + "/" + name;
      && fd !in s.files && fd !in broken
      && fd + "/" + "dto" !in s.files && fd + "/" + "dto" !in broken
      && fd + "/" + "model" !in s.files && fd + "/" + "model" !in broken
      && Parent(df) == fd + "/" + "dto" && Parent(mf) == fd + "/" + "model"
      && Parent(sf) == fd && Parent(cf) == fd
      && |df| > |fd| + 6 && |mf| > |fd| + 6 && |sf| > |fd| + 6 && |cf| > |fd| + 6
    requires df !in s.dirs && df !in broken && mf !in s.dirs && mf !in broken
    requires sf !in s.dirs && sf !in broken && cf !in s.dirs && cf !in broken
    ensures var fd := api + "/" + name;
      var dd, md := fd + "/" + "dto", fd + "/" + "model";
      Run(s, broken, [Mkdir(fd)] + ([Mkdir(dd), Write(df, c1)] + ([Mkdir(md), Write(mf, c2)] + ([Write(sf, c3)] + [Write(cf, c4)]))))
        == Outcome(FsState(s.dirs + {fd} + {dd} + {md}, s.files[df := c1][mf := c2][sf := c3][cf := c4]), None)
  {
    var fd := api + "/" + name;
    var dd, md := fd + "/" + "dto", fd + "/" + "model";
    var t := FsState(s.dirs + {fd}, s.files);
    MkdirChildRun(s, broken, api, name);
    RunChain(s, broken, [Mkdir(fd)], [Mkdir(dd), Write(df, c1)] + ([Mkdir(md), Write(mf, c2)] + ([Write(sf, c3)] + [Write(cf, c4)])), t);
    TwoPackagesThenFiles(t, broken, fd, df, mf, sf, cf, c1, c2, c3, c4);
  }

  /** The steps of `generateApiFeature` for feature directory `api/name` and names `n`, run on a state where their paths are free. */
  lemma FeatureRun(s: FsState, broken: set<string>, modulePath: string, api: string, name: string, n: Names)
    requires Rooted(s, api) && '/' !in name && '/' !in n.lower
    requires Clear(s, broken, api + "/" + name, n.lower)
    ensures var fd := api + "/" + name;
      Run(s, broken, [Mkdir(fd)] + (DtoSteps(fd, n) + (ModelSteps(fd, n)
        + (ServiceSteps(modulePath, fd, n) + ControllerSteps(modulePath, fd, n)))))
        == Outcome(FsState(s.dirs + {fd} + {DtoDir(fd)} + {ModelDir(fd)}, FeatureFiles(s.files, modulePath, fd, n)), None)
  {
    var fd := api + "/" + name;
    FeatureLengths(fd, n.lower);
    FilesParent(fd, n.lower);
    SevenSteps(s, broken, api, name, DtoFile(fd, n.lower), ModelFile(fd, n.lower),
      ServiceFile(fd), ControllerFile(fd), Generated(DtoSource(n)), Generated(ModelSource(n)),
      Generated(ServiceSource(modulePath, n)), Generated(ControllerSource(modulePath, n)));
  }

  /** The feature's names as every generator recomputes them, and its directory. */
  lemma FeatureNames(dir: string, feature: string)
    requires feature != "" && '/' !in feature
    ensures var name := ToLower(feature);
      && Recompute(name) == Derive(feature)
      && Derive(feature).lower == name
      && name != "" && '/' !in name
      && FeatureDir(dir, name) == ApiDir(dir) + "/" + name
  {
    RecomputeAgrees(feature);
    LowerKeepsSlashes(feature);
  }

  /**
   * On a consistent file system where `dir/api` exists and the feature's
   * paths are free, `generateApiFeature` succeeds: it creates the feature
   * directory with its `dto` and `model` directories and sets the four files
   * to the sources formatted from the feature's names, overwriting what was
   * there and touching no other path.
   */
  lemma FeatureSucceeds(s: FsState, broken: set<string>, modulePath: string, dir: string, feature: string)
    requires Valid(s) && ApiDir(dir) in s.dirs && feature != "" && '/' !in feature
    requires Clear(s, broken, FeatureDir(dir, ToLower(feature)), ToLower(feature))
    ensures var fd := FeatureDir(dir, ToLower(feature));
      Run(s, broken, FeatureSteps(modulePath, ApiDir(dir), feature))
        == Outcome(FsState(s.dirs + {fd} + {DtoDir(fd)} + {ModelDir(fd)}, FeatureFiles(s.files, modulePath, fd, Derive(feature))), None)
  {
    FeatureNames(dir, feature);
    ValidRooted(s, ApiDir(dir));
    FeatureRun(s, broken, modulePath, ApiDir(dir), ToLower(feature), Derive(feature));
  }

  /** Setting four distinct files a second time to the same contents changes nothing. */
  lemma FeatureFilesTwice(files: map<string, Content>, modulePath: string, fd: string, n: Names)
    requires var ps := [DtoFile(fd, n.lower), ModelFile(fd, n.lower), ServiceFile(fd), ControllerFile(fd)];
      forall i, j :: 0 <= i < j < 4 ==> ps[i] != ps[j]
    ensures FeatureFiles(FeatureFiles(files, modulePath, fd, n), modulePath, fd, n) == FeatureFiles(files, modulePath, fd, n)
  {
    var ps := [DtoFile(fd, n.lower), ModelFile(fd, n.lower), ServiceFile(fd), ControllerFile(fd)];
    assert ps[0] != ps[1] && ps[0] != ps[2] && ps[0] != ps[3] && ps[1] != ps[2] && ps[1] != ps[3] && ps[2] != ps[3];
    var once := FeatureFiles(files, modulePath, fd, n);
    var twice := FeatureFiles(once, modulePath, fd, n);
    assert twice.Keys == once.Keys;
    forall k | k in once
      ensures twice[k] == once[k]
    {
    }
  }

  /** A successful run leaves the feature's paths as free as it found them. */
  lemma ClearAgain(s: FsState, broken: set<string>, modulePath: string, fd: string, n: Names)
    requires fd != "" && Clear(s, broken, fd, n.lower)
    ensures Clear(FsState(s.dirs + {fd} + {DtoDir(fd)} + {ModelDir(fd)}, FeatureFiles(s.files, modulePath, fd, n)), broken, fd, n.lower)
  {
    FeatureLengths(fd, n.lower);
  }

  /**
   * `os.WriteFile` overwrites and `os.MkdirAll` accepts existing
   * directories, so running `generateApiFeature` again over its own output
   * succeeds and leaves the file system exactly as the first run left it.
   */
  lemma FeatureRerun(s: FsState, broken: set<string>, modulePath: string, dir: string, feature: string)
    requires Valid(s) && ApiDir(dir) in s.dirs && feature != "" && '/' !in feature
    requires Clear(s, broken, FeatureDir(dir, ToLower(feature)), ToLower(feature))
    ensures var steps := FeatureSteps(modulePath, ApiDir(dir), feature);
      var t := Run(s, broken, steps).state;
      Run(t, broken, steps) == Outcome(t, None)
  {
    var name := ToLower(feature);
    var fd := FeatureDir(dir, name);
    var n := Derive(feature);
    var steps := FeatureSteps(modulePath, ApiDir(dir), feature);
    FeatureNames(dir, feature);
    FeatureSucceeds(s, broken, modulePath, dir, feature);
    var t := Run(s, broken, steps).state;
    RunValid(s, broken, steps);
    FeatureDirNonEmpty(dir, name);
    ClearAgain(s, broken, modulePath, fd, n);
    FeatureFilesDistinct(dir, name);
    FeatureSucceeds(t, broken, modulePath, dir, feature);
    FeatureFilesTwice(s.files, modulePath, fd, n);
    assert t.dirs + {fd} + {DtoDir(fd)} + {ModelDir(fd)} == t.dirs;
  }
}
