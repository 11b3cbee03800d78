/**
 * Slash-separated paths: `filepath.Join` for the generator's arguments, the
 * parent step `os.MkdirAll` takes when it walks up a path, and the last
 * element of a path (what `filepath.Base` gives for a non-empty path with no
 * trailing slash).
 * Path cleaning (`..`, repeated or trailing slashes) is not modelled.
 */
module Paths {

  /** `filepath.Join(a, b)`: empty elements are dropped, the others joined by one slash. */
  function Join(a: string, b: string): string {
    if a == "" then b else if b == "" then a else a + "/" + b
  }

  /**
   * The parent `os.MkdirAll` makes before the path itself: everything before
   * the last slash, and the empty string (no parent to make) when there is
   * none. This is not `filepath.Dir`, which gives "." there.
   */
  function Parent(p: string): (r: string)
    ensures |r| <= |p|
    ensures p != [] ==> |r| < |p|
    ensures r == p[..|r|]
    decreases |p|
  {
    if p == [] then []
    else if p[|p| - 1] == '/' then p[..|p| - 1]
    else Parent(p[..|p| - 1])
  }

  /** Everything after the last slash. */
  function Base(p: string): string
    decreases |p|
  {
    if p == [] then []
    else if p[|p| - 1] == '/' then []
    else Base(p[..|p| - 1]) + [p[|p| - 1]]
  }

  /**
   * A path and the directories above it, down to the first element: what
   * `os.MkdirAll` creates.
   */
  function Ancestry(p: string): (r: set<string>)
    ensures p != "" ==> p in r
    ensures "" !in r
    decreases |p|
  {
    if p == "" then {} else {p} + Ancestry(Parent(p))
  }

  /** Every directory above a member of a path's ancestry is in that ancestry too. */
  lemma {:induction false} AncestryClosed(p: string, q: string)
    requires q in Ancestry(p)
    ensures Ancestry(q) <= Ancestry(p)
    decreases |p|
  {
    if q != p {
      AncestryClosed(Parent(p), q);
    }
  }

  /** The directory of `a/b` is `a` and its last element is `b`, when `b` holds no slash. */
  lemma {:induction false} ParentBaseJoin(a: string, b: string)
    requires a != "" && b != "" && '/' !in b
    ensures Parent(Join(a, b)) == a
    ensures Base(Join(a, b)) == b
  {
    SplitLast(a, b);
  }

  lemma {:induction false} SplitLast(a: string, b: string)
    requires '/' !in b
    ensures Parent(a + "/" + b) == a
    ensures Base(a + "/" + b) == b
  {
    var p := a + "/" + b;
    if b == [] {
      assert p == a + "/";
      assert p[..|p| - 1] == a;
    } else {
      var b' := b[..|b| - 1];
      assert b[|b| - 1] in b;
      assert forall c :: c in b' ==> c in b;
      SplitLast(a, b');
      assert p[..|p| - 1] == a + "/" + b';
      assert p[|p| - 1] == b[|b| - 1];
      assert b' + [b[|b| - 1]] == b;
    }
  }
}
