/**
 * The part of the operating system the generator touches: a set of
 * directories and a map from file paths to contents, changed by
 * `os.MkdirAll` and `os.WriteFile`.
 *
 * Which paths the system refuses to create (permissions, a read-only disk)
 * is not something the generator decides; it is a set `broken` fixed with
 * the file system. Everything else about a step's outcome follows from the
 * state. `os.MkdirAll` works as Go's `os` package does: it returns at once
 * when the path is a directory, fails when it is a file, and otherwise makes
 * the directory above it first and then the path itself, so that a failure
 * part-way leaves the directories already made and reports the path that
 * could not be made. `os.WriteFile` fails on the empty path, on a
 * directory, on a refused path and when the directory it writes into does
 * not exist.
 */
module Files {
  import opened Paths
  import opened Artifacts

  datatype Option<T> = None | Some(value: T)

  /** The `*PathError` the two calls return: the failed operation and the path it failed on. */
  datatype PathError = PathError(op: string, path: string)

  /** What the generator writes: a source file formatted from a template, or text given as it is (a key in PEM form). */
  datatype Content = Generated(src: Source) | Literal(text: string)

  /** The bytes of a file. */
  function Bytes(c: Content): string {
    match c
    case Generated(src) => Text(src)
    case Literal(text) => text
  }

  datatype FsState = FsState(dirs: set<string>, files: map<string, Content>)

  /**
   * A consistent state: every directory's ancestors are directories, every
   * file lies in an existing directory (or the working directory), and no
   * path is both a file and a directory.
   */
  predicate Valid(s: FsState) {
    && "" !in s.dirs
    && (forall d :: d in s.dirs ==> Ancestry(d) <= s.dirs)
    && (forall f :: f in s.files ==> f != "" && f !in s.dirs && (Parent(f) == "" || Parent(f) in s.dirs))
  }

  /** One side-effecting call: `os.MkdirAll(path)` or `os.WriteFile(path, content)`. */
  datatype Step = Mkdir(path: string) | Write(path: string, content: Content)

  datatype Outcome = Outcome(state: FsState, err: Option<PathError>)

  /**
   * `os.MkdirAll(p)`: nothing to do for a directory; `mkdir` error for a file
   * or the empty path; otherwise the directory above `p` first (its error
   * returned as it is), then `p`, which fails when the system refuses it.
   */
  function MakeDirs(s: FsState, broken: set<string>, p: string): Outcome
    decreases |p|
  {
    if p in s.dirs then Outcome(s, None)
    else if p in s.files || p == "" then Outcome(s, Some(PathError("mkdir", p)))
    else
      var above := if Parent(p) == "" then Outcome(s, None) else MakeDirs(s, broken, Parent(p));
      if above.err.Some? then above
      else if p in broken then Outcome(above.state, Some(PathError("mkdir", p)))
      else Outcome(FsState(above.state.dirs + {p}, above.state.files), None)
  }

  /** `os.WriteFile(p, c)`: create or truncate `p`; an `open` error leaves everything as it was. */
  function WriteOne(s: FsState, broken: set<string>, p: string, c: Content): Outcome {
    if p == "" || p in s.dirs || p in broken || (Parent(p) != "" && Parent(p) !in s.dirs) then
      Outcome(s, Some(PathError("open", p)))
    else Outcome(FsState(s.dirs, s.files[p := c]), None)
  }

  /** What one step leaves and returns. */
  function Exec(s: FsState, broken: set<string>, step: Step): Outcome {
    match step
    case Mkdir(p) => MakeDirs(s, broken, p)
    case Write(p, c) => WriteOne(s, broken, p, c)
  }

  predicate Fails(s: FsState, broken: set<string>, step: Step) {
    Exec(s, broken, step).err.Some?
  }

  /** The steps in order, stopping at the first one that fails, with what that step left and its error. */
  function Run(s: FsState, broken: set<string>, steps: seq<Step>): Outcome
    decreases |steps|
  {
    if steps == [] then Outcome(s, None)
    else
      var o := Exec(s, broken, steps[0]);
      if o.err.Some? then o else Run(o.state, broken, steps[1..])
  }

  /** Carry on with further steps only if nothing has failed yet. */
  function Then(o: Outcome, broken: set<string>, steps: seq<Step>): Outcome {
    if o.err.Some? then o else Run(o.state, broken, steps)
  }

  /** How many steps succeeded before one failed (all of them if none did). */
  function Completed(s: FsState, broken: set<string>, steps: seq<Step>): (k: nat)
    ensures k <= |steps|
    decreases |steps|
  {
    if steps == [] || Fails(s, broken, steps[0]) then 0
    else 1 + Completed(Exec(s, broken, steps[0]).state, broken, steps[1..])
  }

  /** `q` stops `os.MkdirAll`: it is not a directory and cannot become one, being a file or a refused path. */
  predicate Blocks(s: FsState, broken: set<string>, q: string) {
    q !in s.dirs && (q in s.files || q in broken)
  }

  /** `e` is the first path on the way down to `p` that blocks `os.MkdirAll`. */
  predicate FirstBlock(s: FsState, broken: set<string>, p: string, e: string) {
    e in Ancestry(p) && Blocks(s, broken, e) && forall q :: q in Ancestry(Parent(e)) ==> !Blocks(s, broken, q)
  }

  /**
   * `os.MkdirAll(p)` on a consistent state. It succeeds exactly when `p` is
   * not empty and nothing on the way down to it blocks, and then every
   * directory down to `p` exists. Otherwise it fails on the first path that
   * blocks, having made all the directories above that path and no others,
   * and reports that path. It never touches a file.
   */
  lemma {:induction false} MakeDirsEffect(s: FsState, broken: set<string>, p: string)
    requires Valid(s)
    ensures var o := MakeDirs(s, broken, p);
      && o.state.files == s.files
      && (o.err.None? <==> p != "" && forall q :: q in Ancestry(p) ==> !Blocks(s, broken, q))
      && (o.err.None? ==> o.state.dirs == s.dirs + Ancestry(p))
      && (p == "" ==> o == Outcome(s, Some(PathError("mkdir", ""))))
      && (o.err.Some? && p != "" ==> exists e :: (FirstBlock(s, broken, p, e)
            && o == Outcome(FsState(s.dirs + Ancestry(Parent(e)), s.files), Some(PathError("mkdir", e)))))
    decreases |p|
  {
    var o := MakeDirs(s, broken, p);
    if p in s.dirs {
      forall q | q in Ancestry(p)
        ensures !Blocks(s, broken, q)
      {
      }
    } else if p in s.files {
      assert Blocks(s, broken, p);
      assert Ancestry(Parent(p)) <= s.dirs;
      assert FirstBlock(s, broken, p, p);
      assert s.dirs + Ancestry(Parent(p)) == s.dirs;
    } else if p != "" {
      var par := Parent(p);
      assert Ancestry(p) == {p} + Ancestry(par);
      if par != "" {
        MakeDirsEffect(s, broken, par);
        var above := MakeDirs(s, broken, par);
        if above.err.Some? {
          var e :| FirstBlock(s, broken, par, e)
            && above == Outcome(FsState(s.dirs + Ancestry(Parent(e)), s.files), Some(PathError("mkdir", e)));
          assert FirstBlock(s, broken, p, e);
        } else if p in broken {
          assert FirstBlock(s, broken, p, p);
        }
      } else if p in broken {
        assert FirstBlock(s, broken, p, p);
      }
    }
  }

  /** The `mkdir` error reports a path on the way down to the directory asked for. */
  lemma MakeDirsErrorPath(s: FsState, broken: set<string>, p: string)
    requires Valid(s) && p != "" && Fails(s, broken, Mkdir(p))
    ensures Exec(s, broken, Mkdir(p)).err.value.op == "mkdir"
    ensures Exec(s, broken, Mkdir(p)).err.value.path in Ancestry(p)
  {
    MakeDirsEffect(s, broken, p);
  }

  /**
   * `os.MkdirAll("a/b")` on an empty file system that refuses `a/b`: `a` is
   * made, and the error names `a/b`.
   */
  lemma PartialMkdirAll()
    ensures Exec(FsState({}, map[]), {"a/b"}, Mkdir("a/b")) == Outcome(FsState({"a"}, map[]), Some(PathError("mkdir", "a/b")))
  {
    assert Parent("a/b") == "a" by { SplitLast("a", "b"); }
    assert Parent("a") == "" by { assert "a"[..0] == ""; }
  }

  /** Adding the directories down to a path that nothing blocks keeps the state consistent. */
  lemma AddDirsValid(s: FsState, broken: set<string>, r: string)
    requires Valid(s) && forall q :: q in Ancestry(r) ==> !Blocks(s, broken, q)
    ensures Valid(FsState(s.dirs + Ancestry(r), s.files))
  {
    var t := FsState(s.dirs + Ancestry(r), s.files);
    forall d | d in t.dirs
      ensures Ancestry(d) <= t.dirs
    {
      if d in Ancestry(r) {
        AncestryClosed(r, d);
      }
    }
  }

  /** A step keeps the state consistent, whether it succeeds or fails part-way. */
  lemma ExecValid(s: FsState, broken: set<string>, step: Step)
    requires Valid(s)
    ensures Valid(Exec(s, broken, step).state)
  {
    match step
    case Mkdir(p) =>
      MakeDirsEffect(s, broken, p);
      var o := MakeDirs(s, broken, p);
      if o.err.None? {
        AddDirsValid(s, broken, p);
      } else if p != "" {
        var e :| FirstBlock(s, broken, p, e)
          && o == Outcome(FsState(s.dirs + Ancestry(Parent(e)), s.files), Some(PathError("mkdir", e)));
        AddDirsValid(s, broken, Parent(e));
      }
    case Write(p, c) =>
  }

  /** Running steps keeps the state consistent. */
  lemma {:induction false} RunValid(s: FsState, broken: set<string>, steps: seq<Step>)
    requires Valid(s)
    ensures Valid(Run(s, broken, steps).state)
    decreases |steps|
  {
    if steps != [] {
      ExecValid(s, broken, steps[0]);
      if !Fails(s, broken, steps[0]) {
        RunValid(Exec(s, broken, steps[0]).state, broken, steps[1..]);
      }
    }
  }

  /** A step never removes a directory or a file. */
  lemma {:induction false} MakeDirsGrows(s: FsState, broken: set<string>, p: string)
    ensures s.dirs <= MakeDirs(s, broken, p).state.dirs
    ensures MakeDirs(s, broken, p).state.files == s.files
    decreases |p|
  {
    if p !in s.dirs && p !in s.files && p != "" && Parent(p) != "" {
      MakeDirsGrows(s, broken, Parent(p));
    }
  }

  /** A run of one step is that step. */
  lemma RunOne(s: FsState, broken: set<string>, x: Step)
    ensures Run(s, broken, [x]) == Exec(s, broken, x)
  {
    assert [x][1..] == [];
  }

  /** A first step that succeeds hands its new state to the rest. */
  lemma RunCons(s: FsState, broken: set<string>, x: Step, rest: seq<Step>)
    requires !Fails(s, broken, x)
    ensures Run(s, broken, [x] + rest) == Run(Exec(s, broken, x).state, broken, rest)
  {
    assert ([x] + rest)[1..] == rest;
  }

  /** Running a sequence of steps is running its first part, then, if that succeeded, the rest. */
  lemma {:induction false} RunAppend(s: FsState, broken: set<string>, a: seq<Step>, b: seq<Step>)
    ensures Run(s, broken, a + b) == Then(Run(s, broken, a), broken, b)
    decreases |a|
  {
    if a == [] {
      assert a + b == b;
    } else {
      assert (a + b)[0] == a[0];
      assert (a + b)[1..] == a[1..] + b;
      if !Fails(s, broken, a[0]) {
        RunAppend(Exec(s, broken, a[0]).state, broken, a[1..], b);
      }
    }
  }

  /**
   * Stopping at the first failure: the steps before it all succeed; the run
   * fails exactly when a step is left over, and then it ends with what that
   * step left behind and its error, in the state the completed ones reached.
   */
  lemma {:induction false} RunStopsAtFirstFailure(s: FsState, broken: set<string>, steps: seq<Step>)
    ensures var k, o := Completed(s, broken, steps), Run(s, broken, steps);
      var pre := Run(s, broken, steps[..k]);
      && pre.err.None?
      && (o.err.None? <==> k == |steps|)
      && (k == |steps| ==> o == pre)
      && (k < |steps| ==> Fails(pre.state, broken, steps[k]) && o == Exec(pre.state, broken, steps[k]))
    decreases |steps|
  {
    if steps != [] && !Fails(s, broken, steps[0]) {
      var t := Exec(s, broken, steps[0]).state;
      var k := Completed(s, broken, steps);
      RunStopsAtFirstFailure(t, broken, steps[1..]);
      assert steps[..k][0] == steps[0];
      assert steps[..k][1..] == steps[1..][..k - 1];
      if k < |steps| {
        assert steps[1..][k - 1] == steps[k];
      } else {
        assert steps[..k] == steps;
      }
    } else if steps != [] {
      assert steps[..0] == [];
    }
  }

  /** The steps after the first failing one are never attempted: replacing them changes nothing. */
  lemma {:induction false} LaterStepsIgnored(s: FsState, broken: set<string>, steps: seq<Step>, other: seq<Step>)
    requires Completed(s, broken, steps) < |steps|
    ensures var k := Completed(s, broken, steps);
      Run(s, broken, steps[..k + 1] + other) == Run(s, broken, steps)
    decreases |steps|
  {
    if !Fails(s, broken, steps[0]) {
      var k := Completed(s, broken, steps);
      LaterStepsIgnored(Exec(s, broken, steps[0]).state, broken, steps[1..], other);
      assert (steps[..k + 1] + other)[1..] == steps[1..][..k] + other;
    }
  }

  /** Directory `d` exists with all the directories above it, and none of them is a file. */
  predicate Rooted(s: FsState, d: string) {
    d in s.dirs && Ancestry(d) <= s.dirs && forall q :: q in Ancestry(d) ==> q !in s.files
  }

  /** In a consistent state every directory is rooted. */
  lemma ValidRooted(s: FsState, d: string)
    requires Valid(s) && d in s.dirs
    ensures Rooted(s, d)
  {
  }

  /** Creating `parent/name` inside a rooted directory adds that one directory, which is rooted in turn. */
  lemma MkdirChild(s: FsState, broken: set<string>, parent: string, name: string)
    requires Rooted(s, parent) && '/' !in name
    requires parent + "/" + name !in s.files && parent + "/" + name !in broken
    ensures Exec(s, broken, Mkdir(parent + "/" + name)) == Outcome(FsState(s.dirs + {parent + "/" + name}, s.files), None)
    ensures Rooted(FsState(s.dirs + {parent + "/" + name}, s.files), parent + "/" + name)
  {
    var p := parent + "/" + name;
    SplitLast(parent, name);
    assert Ancestry(p) == {p} + Ancestry(parent);
    if p in s.dirs {
      assert FsState(s.dirs + {p}, s.files) == s;
    } else if parent != "" {
      assert MakeDirs(s, broken, parent) == Outcome(s, None);
    }
  }

  /** Writing a file longer than a rooted directory's path keeps that directory rooted. */
  lemma RootedAfterWrite(s: FsState, d: string, p: string, c: Content)
    requires Rooted(s, d) && |p| > |d|
    ensures Rooted(FsState(s.dirs, s.files[p := c]), d)
  {
    forall q | q in Ancestry(d)
      ensures q != p
    {
      AncestryShorter(d, q);
    }
  }

  /** Adding directories keeps a directory rooted. */
  lemma RootedAfterMkdir(s: FsState, d: string, e: string)
    requires Rooted(s, d)
    ensures Rooted(FsState(s.dirs + {e}, s.files), d)
  {
  }

  /** Every directory above `p` is a prefix of it. */
  lemma {:induction false} AncestryShorter(p: string, q: string)
    requires q in Ancestry(p)
    ensures |q| <= |p|
    decreases |p|
  {
    if q != p {
      AncestryShorter(Parent(p), q);
    }
  }

  /** Once `a` has run without error, `a + c` goes on as `c` from where `a` stopped. */
  lemma RunChain(s: FsState, broken: set<string>, a: seq<Step>, c: seq<Step>, t: FsState)
    requires Run(s, broken, a) == Outcome(t, None)
    ensures Run(s, broken, a + c) == Run(t, broken, c)
  {
    RunAppend(s, broken, a, c);
  }

  /** Creating `parent/name` inside a rooted directory, as a one-step run. */
  lemma MkdirChildRun(s: FsState, broken: set<string>, parent: string, name: string)
    requires Rooted(s, parent) && '/' !in name
    requires parent + "/" + name !in s.files && parent + "/" + name !in broken
    ensures var d := parent + "/" + name;
      && Run(s, broken, [Mkdir(d)]) == Outcome(FsState(s.dirs + {d}, s.files), None)
      && Rooted(FsState(s.dirs + {d}, s.files), d)
  {
    var d := parent + "/" + name;
    MkdirChild(s, broken, parent, name);
    RunCons(s, broken, Mkdir(d), []);
    assert [Mkdir(d)] + [] == [Mkdir(d)];
  }

  /** Writing a file that is not a directory, into an existing directory, succeeds. */
  lemma WriteInto(s: FsState, broken: set<string>, p: string, c: Content)
    requires p != "" && p !in s.dirs && p !in broken && Parent(p) in s.dirs
    ensures Run(s, broken, [Write(p, c)]) == Outcome(FsState(s.dirs, s.files[p := c]), None)
  {
    RunCons(s, broken, Write(p, c), []);
    assert [Write(p, c)] + [] == [Write(p, c)];
  }

  /** Creating a directory inside a rooted one and writing a file into it succeeds. */
  lemma MkdirThenWrite(s: FsState, broken: set<string>, parent: string, name: string, p: string, c: Content)
    requires Rooted(s, parent) && '/' !in name
    requires parent + "/" + name !in s.files && parent + "/" + name !in broken
    requires Parent(p) == parent + "/" + name && p !in s.dirs && p !in broken && |p| > |parent + "/" + name|
    ensures var d := parent + "/" + name;
      Run(s, broken, [Mkdir(d), Write(p, c)]) == Outcome(FsState(s.dirs + {d}, s.files[p := c]), None)
  {
    var d := parent + "/" + name;
    MkdirChildRun(s, broken, parent, name);
    RunChain(s, broken, [Mkdir(d)], [Write(p, c)], FsState(s.dirs + {d}, s.files));
    assert [Mkdir(d)] + [Write(p, c)] == [Mkdir(d), Write(p, c)];
    WriteInto(FsState(s.dirs + {d}, s.files), broken, p, c);
  }

  /**
   * `os.WriteFile` sets the file's contents, whatever it held before, and
   * leaves every other path alone; when it fails nothing changes.
   */
  lemma WriteOverwrites(s: FsState, broken: set<string>, p: string, c: Content, q: string)
    ensures var o := Exec(s, broken, Write(p, c));
      && o.state.dirs == s.dirs
      && (o.err.None? ==> p in o.state.files && o.state.files[p] == c)
      && (o.err.Some? ==> o == Outcome(s, Some(PathError("open", p))))
      && (q != p ==> (q in o.state.files <==> q in s.files))
      && (q != p && q in s.files ==> o.state.files[q] == s.files[q])
  {
  }

  /** `os.MkdirAll` on a directory that exists already succeeds and changes nothing. */
  lemma MkdirExisting(s: FsState, broken: set<string>, p: string)
    requires p in s.dirs
    ensures Exec(s, broken, Mkdir(p)) == Outcome(s, None)
  {
  }

  /**
   * The file system the generator runs against. `broken` is the fixed set
   * of paths the system refuses to create.
   */
  class FileSystem {
    var dirs: set<string>
    var files: map<string, Content>
    const broken: set<string>

    function State(): FsState
      reads this
    {
      FsState(dirs, files)
    }

    constructor(dirs0: set<string>, files0: map<string, Content>, broken0: set<string>)
      ensures State() == FsState(dirs0, files0) && broken == broken0
    {
      dirs, files, broken := dirs0, files0, broken0;
    }

    /** `os.MkdirAll(path, os.ModePerm)`. */
    method MkdirAll(path: string) returns (err: Option<PathError>)
      modifies this
      ensures Outcome(State(), err) == Run(old(State()), broken, [Mkdir(path)])
    {
      var o := MakeDirs(State(), broken, path);
      dirs, files, err := o.state.dirs, o.state.files, o.err;
    }

    /** `os.WriteFile(path, content, os.ModePerm)`: creates or truncates the file. */
    method WriteFile(path: string, content: Content) returns (err: Option<PathError>)
      modifies this
      ensures Outcome(State(), err) == Run(old(State()), broken, [Write(path, content)])
    {
      if path == "" || path in dirs || path in broken || (Parent(path) != "" && Parent(path) !in dirs) {
        err := Some(PathError("open", path));
      } else {
        files := files[path := content];
        err := None;
      }
    }
  }
}
