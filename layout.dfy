/**
 * Where the generator puts a feature's packages and files, and the import
 * paths the generated code uses to reach them.
 */
module Layout {
  import opened Formatting
  import opened Paths

  /** `filepath.Join(dir, "api")` in `generateApi`. */
  function ApiDir(dir: string): string { Join(dir, "api") }

  /**
   * `filepath.Join(dir, featureName)` in `generateApiFeature`, whose `dir` is
   * the api directory `ApiDir(dir)` of the project directory `dir` given here.
   */
  function FeatureDir(dir: string, lower: string): string { Join(ApiDir(dir), lower) }

  function DtoDir(featureDir: string): string { Join(featureDir, "dto") }

  function ModelDir(featureDir: string): string { Join(featureDir, "model") }

  /** `fmt.Sprintf("dto/create_%s.go", featureLower)` */
  function DtoFileName(lower: string): string { Format([Lit("dto/create_"), Hole, Lit(".go")], [lower]) }

  /** `fmt.Sprintf("model/%s.go", featureLower)` */
  function ModelFileName(lower: string): string { Format([Lit("model/"), Hole, Lit(".go")], [lower]) }

  /** `fmt.Sprintf("%sservice.go", "")` */
  function ServiceFileName(): string { Format([Hole, Lit("service.go")], [""]) }

  /** `fmt.Sprintf("%scontroller.go", "")` */
  function ControllerFileName(): string { Format([Hole, Lit("controller.go")], [""]) }

  function DtoFile(featureDir: string, lower: string): string { Join(featureDir, DtoFileName(lower)) }

  function ModelFile(featureDir: string, lower: string): string { Join(featureDir, ModelFileName(lower)) }

  function ServiceFile(featureDir: string): string { Join(featureDir, ServiceFileName()) }

  function ControllerFile(featureDir: string): string { Join(featureDir, ControllerFileName()) }

  /** `filepath.Join(dir, "utils")` in `generateUtils`. */
  function UtilsDir(dir: string): string { Join(dir, "utils") }

  /** `filepath.Join(dir, "keys")` and the two key files under it in `generateRSAKeyPair`. */
  function KeysDir(dir: string): string { Join(dir, "keys") }

  function PrivateKeyFile(dir: string): string { Join(KeysDir(dir), "private.pem") }

  function PublicKeyFile(dir: string): string { Join(KeysDir(dir), "public.pem") }

  /** The import path a generated file uses for package `pkg` of the feature: `"%s/api/%s/<pkg>"`. */
  function ImportPath(modulePath: string, lower: string, pkg: string): string {
    modulePath + "/api/" + lower + "/" + pkg
  }

  /** The import path of the shared utilities package: `"%s/utils"`. */
  function UtilsImport(modulePath: string): string { modulePath + "/utils" }

  /** The four `fmt.Sprintf` file names come out as the literal names they spell. */
  lemma FileNames(lower: string)
    ensures DtoFileName(lower) == "dto/create_" + lower + ".go"
    ensures ModelFileName(lower) == "model/" + lower + ".go"
    ensures ServiceFileName() == "service.go"
    ensures ControllerFileName() == "controller.go"
  {
    assert Format([Lit(".go")], []) == ".go";
    assert [Hole, Lit(".go")][1..] == [Lit(".go")] && [lower][1..] == [];
    assert Format([Hole, Lit(".go")], [lower]) == lower + ".go";
    assert [Hole, Lit("service.go")][1..] == [Lit("service.go")];
    assert [Hole, Lit("controller.go")][1..] == [Lit("controller.go")];
    assert Format([Lit("service.go")], []) == "service.go";
    assert Format([Lit("controller.go")], []) == "controller.go";
  }

  /** The api directory, and so every feature directory, is never the empty path. */
  lemma FeatureDirNonEmpty(dir: string, lower: string)
    ensures ApiDir(dir) != "" && FeatureDir(dir, lower) != ""
  {
  }

  /** Each generated file is the feature directory, a slash, and its own name. */
  lemma FilesBelow(fd: string, lower: string)
    requires fd != ""
    ensures DtoFile(fd, lower) == fd + "/" + ("dto/create_" + lower + ".go")
    ensures ModelFile(fd, lower) == fd + "/" + ("model/" + lower + ".go")
    ensures ServiceFile(fd) == fd + "/" + "service.go"
    ensures ControllerFile(fd) == fd + "/" + "controller.go"
  {
    FileNames(lower);
  }

  lemma PrefixedAt(fd: string, name: string)
    requires name != ""
    ensures |fd + "/" + name| > |fd| + 1
    ensures (fd + "/" + name)[..|fd| + 1] == fd + "/"
    ensures (fd + "/" + name)[|fd| + 1] == name[0]
  {
  }

  /**
   * The four generated files are pairwise distinct and each lies below the
   * feature directory.
   */
  lemma FeatureFilesDistinct(dir: string, lower: string)
    ensures var fd := FeatureDir(dir, lower);
      var files := [DtoFile(fd, lower), ModelFile(fd, lower), ServiceFile(fd), ControllerFile(fd)];
      && (forall i, j :: 0 <= i < j < 4 ==> files[i] != files[j])
      && (forall i :: 0 <= i < 4 ==> |files[i]| > |fd| + 1 && files[i][..|fd| + 1] == fd + "/")
  {
    var fd := FeatureDir(dir, lower);
    FilesBelow(fd, lower);
    var names := ["dto/create_" + lower + ".go", "model/" + lower + ".go", "service.go", "controller.go"];
    var files := [DtoFile(fd, lower), ModelFile(fd, lower), ServiceFile(fd), ControllerFile(fd)];
    assert names[0][0] == 'd' && names[1][0] == 'm' && names[2][0] == 's' && names[3][0] == 'c';
    forall i | 0 <= i < 4
      ensures |files[i]| > |fd| + 1 && files[i][..|fd| + 1] == fd + "/" && files[i][|fd| + 1] == names[i][0]
    {
      PrefixedAt(fd, names[i]);
    }
  }

  lemma LeavesHaveNoSlash(lower: string)
    requires '/' !in lower
    ensures '/' !in "create_" + lower + ".go"
    ensures '/' !in lower + ".go"
  {
  }

  lemma FilesInPackageDirs(fd: string, lower: string)
    requires fd != ""
    ensures DtoFile(fd, lower) == DtoDir(fd) + "/" + ("create_" + lower + ".go")
    ensures ModelFile(fd, lower) == ModelDir(fd) + "/" + (lower + ".go")
  {
    FilesBelow(fd, lower);
  }

  /** Each generated file sits in the directory the generator creates for it. */
  lemma FeatureFilesParents(dir: string, lower: string)
    requires '/' !in lower
    ensures var fd := FeatureDir(dir, lower);
      && Parent(DtoFile(fd, lower)) == DtoDir(fd)
      && Parent(ModelFile(fd, lower)) == ModelDir(fd)
      && Parent(ServiceFile(fd)) == fd
      && Parent(ControllerFile(fd)) == fd
  {
    var fd := FeatureDir(dir, lower);
    FilesBelow(fd, lower);
    FilesInPackageDirs(fd, lower);
    LeavesHaveNoSlash(lower);
    SplitLast(DtoDir(fd), "create_" + lower + ".go");
    SplitLast(ModelDir(fd), lower + ".go");
    SplitLast(fd, "service.go");
    SplitLast(fd, "controller.go");
  }

  /**
   * The service and controller files lie in a directory whose last element is
   * the feature's lower-case name, which is also the package they declare.
   */
  lemma PackageIsDirectory(dir: string, lower: string)
    requires lower != "" && '/' !in lower
    ensures Base(Parent(ServiceFile(FeatureDir(dir, lower)))) == lower
    ensures Base(Parent(ControllerFile(FeatureDir(dir, lower)))) == lower
  {
    FeatureFilesParents(dir, lower);
    ParentBaseJoin(ApiDir(dir), lower);
  }

  lemma SplitAt(a: string, b: string)
    ensures (a + b)[..|a|] == a && (a + b)[|a|..] == b
  {
  }

  /**
   * An import path, stripped of the module path, and the package's directory,
   * stripped of the project directory, are the same relative path: the
   * imports the generated code uses resolve to the directories created.
   */
  lemma ImportsMatchDirectories(dir: string, modulePath: string, lower: string)
    requires dir != "" && lower != ""
    ensures var fd := FeatureDir(dir, lower);
      && ImportPath(modulePath, lower, "dto")[..|modulePath|] == modulePath
      && DtoDir(fd)[..|dir|] == dir
      && ImportPath(modulePath, lower, "dto")[|modulePath|..] == DtoDir(fd)[|dir|..]
      && ImportPath(modulePath, lower, "model")[..|modulePath|] == modulePath
      && ModelDir(fd)[..|dir|] == dir
      && ImportPath(modulePath, lower, "model")[|modulePath|..] == ModelDir(fd)[|dir|..]
      && UtilsImport(modulePath)[..|modulePath|] == modulePath
      && UtilsDir(dir)[..|dir|] == dir
      && UtilsImport(modulePath)[|modulePath|..] == UtilsDir(dir)[|dir|..]
  {
    var fd := FeatureDir(dir, lower);
    var dtoRel := "/api/" + lower + "/dto";
    var modelRel := "/api/" + lower + "/model";
    assert DtoDir(fd) == dir + dtoRel;
    assert ImportPath(modulePath, lower, "dto") == modulePath + dtoRel;
    assert ModelDir(fd) == dir + modelRel;
    assert ImportPath(modulePath, lower, "model") == modulePath + modelRel;
    SplitAt(dir, dtoRel);
    SplitAt(modulePath, dtoRel);
    SplitAt(dir, modelRel);
    SplitAt(modulePath, modelRel);
    SplitAt(dir, "/utils");
    SplitAt(modulePath, "/utils");
  }
}
