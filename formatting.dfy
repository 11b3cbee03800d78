/**
 * The part of Go's `fmt.Sprintf` the generator relies on: format strings whose
 * only verbs are `%s` (substitute the next argument) and `%%` (a literal
 * percent sign), with `fmt`'s own rendering of a missing argument
 * (`%!s(MISSING)`) and of unused arguments (`%!(EXTRA string=..., ...)`).
 *
 * A format string is also described as a sequence of segments: literal text,
 * as it appears in the output, and `%s` holes. `Unparse` writes the segments
 * out as the string `fmt` reads, doubling every percent sign of the text.
 */
module Formatting {

  datatype Segment = Lit(text: string) | Hole

  /** Number of `%s` holes; percent signs of the text do not count. */
  function Holes(t: seq<Segment>): nat {
    if t == [] then 0 else (if t[0] == Hole then 1 else 0) + Holes(t[1..])
  }

  /** Literal text as it is written in a format string: `%` becomes `%%`. */
  function Escape(s: string): string {
    if s == [] then [] else EscapeChar(s[0]) + Escape(s[1..])
  }

  function EscapeChar(c: char): string {
    if c == '%' then "%%" else [c]
  }

  /** The format string: the escaped text, and `%s` for a hole. */
  function Unparse(t: seq<Segment>): string {
    if t == [] then ""
    else (match t[0] case Lit(s) => Escape(s) case Hole => "%s") + Unparse(t[1..])
  }

  /** Every `%` of the format string starts a `%s` or a `%%`. */
  predicate StringVerbsOnly(f: string)
    decreases |f|
  {
    if f == [] then true
    else if f[0] != '%' then StringVerbsOnly(f[1..])
    else |f| >= 2 && (f[1] == 's' || f[1] == '%') && StringVerbsOnly(f[2..])
  }

  const Missing: string := "%!s(MISSING)"

  function ExtraList(args: seq<string>): string
    requires args != []
  {
    if |args| == 1 then "string=" + args[0] else "string=" + args[0] + ", " + ExtraList(args[1..])
  }

  /** What `fmt` appends for arguments that no verb consumed. */
  function Extra(args: seq<string>): string {
    if args == [] then "" else "%!(EXTRA " + ExtraList(args) + ")"
  }

  /** `fmt.Sprintf(f, args...)` with string arguments. */
  function Sprintf(f: string, args: seq<string>): string
    requires StringVerbsOnly(f)
    decreases |f|
  {
    if f == [] then Extra(args)
    else if f[0] != '%' then [f[0]] + Sprintf(f[1..], args)
    else if f[1] == '%' then "%" + Sprintf(f[2..], args)
    else if args == [] then Missing + Sprintf(f[2..], [])
    else args[0] + Sprintf(f[2..], args[1..])
  }

  /** The same formatting, read directly off the segments. */
  function Format(t: seq<Segment>, args: seq<string>): string {
    if t == [] then Extra(args)
    else match t[0]
      case Lit(s) => s + Format(t[1..], args)
      case Hole =>
        if args == [] then Missing + Format(t[1..], [])
        else args[0] + Format(t[1..], args[1..])
  }

  lemma {:induction false} SprintfLiteral(s: string, rest: string, args: seq<string>)
    requires StringVerbsOnly(rest)
    ensures StringVerbsOnly(Escape(s) + rest)
    ensures Sprintf(Escape(s) + rest, args) == s + Sprintf(rest, args)
  {
    if s != [] {
      SprintfLiteral(s[1..], rest, args);
      EscapeSplit(s, rest);
      SprintfEscapeChar(s[0], Escape(s[1..]) + rest, args);
      assert [s[0]] + s[1..] == s;
    } else {
      assert Escape(s) + rest == rest;
    }
  }

  lemma EscapeSplit(s: string, rest: string)
    requires s != []
    ensures Escape(s) + rest == EscapeChar(s[0]) + (Escape(s[1..]) + rest)
  {
    var h, t := EscapeChar(s[0]), Escape(s[1..]);
    assert Escape(s) == h + t;
    assert (h + t) + rest == h + (t + rest);
  }

  lemma SprintfEscapeChar(c: char, tail: string, args: seq<string>)
    requires StringVerbsOnly(tail)
    ensures StringVerbsOnly(EscapeChar(c) + tail)
    ensures Sprintf(EscapeChar(c) + tail, args) == [c] + Sprintf(tail, args)
  {
    if c == '%' {
      SprintfPercent(tail, args);
    } else {
      SprintfChar(c, tail, args);
    }
  }

  lemma SprintfPercent(tail: string, args: seq<string>)
    requires StringVerbsOnly(tail)
    ensures StringVerbsOnly("%%" + tail)
    ensures Sprintf("%%" + tail, args) == "%" + Sprintf(tail, args)
  {
    assert ("%%" + tail)[2..] == tail;
  }

  lemma SprintfChar(c: char, tail: string, args: seq<string>)
    requires c != '%' && StringVerbsOnly(tail)
    ensures StringVerbsOnly([c] + tail)
    ensures Sprintf([c] + tail, args) == [c] + Sprintf(tail, args)
  {
    assert ([c] + tail)[1..] == tail;
  }

  /**
   * Writing the segments out and handing the string to `fmt.Sprintf` gives the
   * segment formatter's result: the segment model is faithful to `fmt`.
   */
  lemma {:induction false} SprintfUnparse(t: seq<Segment>, args: seq<string>)
    ensures StringVerbsOnly(Unparse(t))
    ensures Sprintf(Unparse(t), args) == Format(t, args)
  {
    if t != [] {
      var rest := Unparse(t[1..]);
      match t[0]
      case Lit(s) =>
        SprintfUnparse(t[1..], args);
        SprintfLiteral(s, rest, args);
      case Hole =>
        SprintfUnparse(t[1..], if args == [] then [] else args[1..]);
        assert ("%s" + rest)[2..] == rest;
    }
  }

  /** With exactly as many arguments as holes, formatting a concatenation splits. */
  lemma {:induction false} FormatAppend(t1: seq<Segment>, t2: seq<Segment>, a1: seq<string>, a2: seq<string>)
    requires Holes(t1) == |a1|
    ensures Format(t1 + t2, a1 + a2) == Format(t1, a1) + Format(t2, a2)
  {
    if t1 == [] {
      assert t1 + t2 == t2;
      assert a1 + a2 == a2;
    } else {
      assert (t1 + t2)[1..] == t1[1..] + t2;
      if t1[0] == Hole {
        assert (a1 + a2)[1..] == a1[1..] + a2;
        FormatAppend(t1[1..], t2, a1[1..], a2);
      } else {
        FormatAppend(t1[1..], t2, a1, a2);
      }
    }
  }

  /**
   * Surplus arguments do not disturb the holes; they are reported after the
   * formatted text as `%!(EXTRA ...)`.
   */
  lemma {:induction false} FormatSurplus(t: seq<Segment>, args: seq<string>)
    requires Holes(t) <= |args|
    ensures Format(t, args) == Format(t, args[..Holes(t)]) + Extra(args[Holes(t)..])
  {
    if t == [] {
    } else if t[0] == Hole {
      FormatSurplus(t[1..], args[1..]);
      assert args[1..][..Holes(t[1..])] == args[..Holes(t)][1..];
      assert args[1..][Holes(t[1..])..] == args[Holes(t)..];
    } else {
      FormatSurplus(t[1..], args);
    }
  }

  /** `w` occurs in `text` at position `i`. */
  predicate OccursAt(text: string, w: string, i: int) {
    0 <= i && i + |w| <= |text| && text[i..i + |w|] == w
  }

  ghost predicate Contains(text: string, w: string) {
    exists i :: OccursAt(text, w, i)
  }

  lemma ContainsSuffix(w: string, a: string, b: string)
    requires Contains(b, w)
    ensures Contains(a + b, w)
  {
    var i :| OccursAt(b, w, i);
    assert (a + b)[|a| + i..|a| + i + |w|] == w;
    assert OccursAt(a + b, w, |a| + i);
  }

  /** A hole left without an argument shows up as `%!s(MISSING)` in the output. */
  lemma {:induction false} FormatMissing(t: seq<Segment>, args: seq<string>)
    requires Holes(t) > |args|
    ensures Contains(Format(t, args), Missing)
  {
    if t[0] == Hole && args == [] {
      var out := Format(t, args);
      assert out == Missing + Format(t[1..], []);
      assert out[0..|Missing|] == Missing;
      assert OccursAt(out, Missing, 0);
    } else if t[0] == Hole {
      FormatMissing(t[1..], args[1..]);
      ContainsSuffix(Missing, args[0], Format(t[1..], args[1..]));
    } else {
      FormatMissing(t[1..], args);
      ContainsSuffix(Missing, t[0].text, Format(t[1..], args));
    }
  }
}
