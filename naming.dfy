/**
 * Identifier derivation: the lower-case package/file name and the capitalised
 * type name that the generator derives from one feature name.
 *
 * Go's `strings.ToLower`/`strings.ToUpper` are modelled on their ASCII part;
 * every other character is left unchanged.
 */
module Naming {

  predicate IsUpperAscii(c: char) { 'A' <= c <= 'Z' }

  predicate IsLowerAscii(c: char) { 'a' <= c <= 'z' }

  function LowerChar(c: char): char {
    if IsUpperAscii(c) then (c as int + 32) as char else c
  }

  function UpperChar(c: char): char {
    if IsLowerAscii(c) then (c as int - 32) as char else c
  }

  /** No character of `s` is an ASCII upper-case letter. */
  predicate NoUpper(s: string) {
    forall i :: 0 <= i < |s| ==> !IsUpperAscii(s[i])
  }

  /** `strings.ToLower`: maps every character, keeps the length, leaves no upper-case letter. */
  function ToLower(s: string): (r: string)
    ensures |r| == |s|
    ensures forall i :: 0 <= i < |s| ==> r[i] == LowerChar(s[i])
    ensures NoUpper(r)
  {
    if s == [] then [] else [LowerChar(s[0])] + ToLower(s[1..])
  }

  /** `strings.ToUpper`: maps every character and keeps the length. */
  function ToUpper(s: string): (r: string)
    ensures |r| == |s|
    ensures forall i :: 0 <= i < |s| ==> r[i] == UpperChar(s[i])
  {
    if s == [] then [] else [UpperChar(s[0])] + ToUpper(s[1..])
  }

  /** `capitalizeFirstLetter`: the empty string stays empty; otherwise only the first character is upper-cased. */
  function Capitalize(s: string): (r: string)
    ensures s == [] ==> r == []
    ensures |r| == |s|
    ensures s != [] ==> r[0] == UpperChar(s[0]) && r[1..] == s[1..]
  {
    if |s| == 0 then s else ToUpper(s[..1]) + s[1..]
  }

  /** Lower-casing changes nothing in a string that is already lower-case. */
  lemma {:induction false} LowerKeepsLower(s: string)
    requires NoUpper(s)
    ensures ToLower(s) == s
  {
    if s != [] {
      LowerKeepsLower(s[1..]);
    }
  }

  /** Lower-casing is idempotent. */
  lemma LowerIdempotent(s: string)
    ensures ToLower(ToLower(s)) == ToLower(s)
  {
    LowerKeepsLower(ToLower(s));
  }

  /** Lower-casing the capitalised form of a lower-case name gives the name back. */
  lemma CapitalizeLowersBack(s: string)
    requires NoUpper(s)
    ensures ToLower(Capitalize(s)) == s
  {
    var r := ToLower(Capitalize(s));
    forall i | 0 <= i < |s|
      ensures r[i] == s[i]
    {
      if i > 0 {
        assert Capitalize(s)[i] == Capitalize(s)[1..][i - 1] == s[i];
      }
    }
  }

  /** Lower-casing neither adds nor removes a path separator. */
  lemma LowerKeepsSlashes(s: string)
    ensures ('/' in ToLower(s)) == ('/' in s)
  {
    if '/' in s {
      var i :| 0 <= i < |s| && s[i] == '/';
      assert ToLower(s)[i] == '/';
    }
    if '/' in ToLower(s) {
      var i :| 0 <= i < |s| && ToLower(s)[i] == '/';
      assert s[i] == '/';
    }
  }

  /** The two spellings of one feature that every generated file uses. */
  datatype Names = Names(lower: string, caps: string)

  /**
   * The names `generateApiFeature` derives once: `lower` for packages, files,
   * routes and collections, `caps` for exported types and functions.
   */
  function Derive(feature: string): (n: Names)
    ensures |n.lower| == |feature| && |n.caps| == |feature|
    ensures NoUpper(n.lower)
    ensures ToLower(n.caps) == n.lower
    ensures feature != [] ==> n.caps[0] == UpperChar(n.lower[0]) && n.caps[1..] == n.lower[1..]
  {
    var lower := ToLower(feature);
    CapitalizeLowersBack(lower);
    Names(lower, Capitalize(lower))
  }

  /** The names each of the four generators recomputes from the name it is handed. */
  function Recompute(featureName: string): Names {
    Names(ToLower(featureName), Capitalize(featureName))
  }

  /**
   * Every generator is handed the already lower-cased name, so its own
   * recomputation yields exactly the names derived once: all four files share
   * one lower/caps pair.
   */
  lemma RecomputeAgrees(feature: string)
    ensures Recompute(ToLower(feature)) == Derive(feature)
  {
    LowerIdempotent(feature);
  }

  /** The feature the project generator uses. */
  lemma SampleNames()
    ensures Derive("sample") == Names("sample", "Sample")
  {
    assert ToLower("sample") == "sample" by { LowerKeepsLower("sample"); }
    assert ToUpper("s") == "S";
  }
}
