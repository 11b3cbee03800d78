/**
 * `fmt.Sprintf` templates whose holes are annotated with the string each one
 * must receive. A line is a sequence of parts: text, written as it appears in
 * the output, and slots. `Erase` gives the segments `fmt` sees, every line
 * followed by a newline, and `Needs` lists the annotations hole by hole, so a
 * generator's argument list is right exactly when it equals `Needs`.
 */
module Templates {
  import opened Formatting

  /** Which derived string an argument of a `fmt.Sprintf` call is. */
  datatype Tag = Lower | Caps | ModulePath

  /** The strings behind the tags for one call. */
  datatype Env = Env(modulePath: string, lower: string, caps: string)

  function Value(t: Tag, e: Env): string {
    match t
    case Lower => e.lower
    case Caps => e.caps
    case ModulePath => e.modulePath
  }

  /** The strings a generator hands to `fmt.Sprintf` for a list of tags. */
  function Args(tags: seq<Tag>, e: Env): (r: seq<string>)
    ensures |r| == |tags|
    ensures forall i :: 0 <= i < |tags| ==> r[i] == Value(tags[i], e)
  {
    if tags == [] then [] else [Value(tags[0], e)] + Args(tags[1..], e)
  }

  datatype Part = Txt(s: string) | Slot(need: Tag)

  type Line = seq<Part>

  type Template = seq<Line>

  function EraseLine(l: Line): seq<Segment> {
    if l == [] then []
    else
      [match l[0] case Txt(s) => Lit(s) case Slot(_) => Hole] + EraseLine(l[1..])
  }

  /** The segments `fmt` sees: every line followed by a newline, annotations forgotten. */
  function Erase(t: Template): seq<Segment> {
    if t == [] then [] else EraseLine(t[0]) + [Lit("\n")] + Erase(t[1..])
  }

  function SlotNeeds(p: Part): seq<Tag> { if p.Slot? then [p.need] else [] }

  function LineNeeds(l: Line): seq<Tag> {
    if l == [] then [] else SlotNeeds(l[0]) + LineNeeds(l[1..])
  }

  /** The variant each hole needs, in the order of the holes. */
  function Needs(t: Template): seq<Tag> {
    if t == [] then [] else LineNeeds(t[0]) + Needs(t[1..])
  }

  function PartText(p: Part, e: Env): string {
    match p
    case Txt(s) => s
    case Slot(need) => Value(need, e)
  }

  /** A line with every hole holding the variant it needs. */
  function RenderLine(l: Line, e: Env): string {
    if l == [] then "" else PartText(l[0], e) + RenderLine(l[1..], e)
  }

  function RenderLines(t: Template, e: Env): seq<string> {
    seq(|t|, k requires 0 <= k < |t| => RenderLine(t[k], e))
  }

  function Unlines(ls: seq<string>): string {
    if ls == [] then "" else ls[0] + "\n" + Unlines(ls[1..])
  }

  lemma {:induction false} HolesOfLine(l: Line)
    ensures Holes(EraseLine(l)) == |LineNeeds(l)|
  {
    if l != [] {
      HolesOfLine(l[1..]);
      assert EraseLine(l)[1..] == EraseLine(l[1..]);
    }
  }

  lemma {:induction false} HolesOfTemplate(t: Template)
    ensures Holes(Erase(t)) == |Needs(t)|
  {
    if t != [] {
      HolesOfLine(t[0]);
      HolesOfTemplate(t[1..]);
      HolesAppend(EraseLine(t[0]) + [Lit("\n")], Erase(t[1..]));
      HolesAppend(EraseLine(t[0]), [Lit("\n")]);
    }
  }

  lemma {:induction false} HolesAppend(a: seq<Segment>, b: seq<Segment>)
    ensures Holes(a + b) == Holes(a) + Holes(b)
  {
    if a == [] {
      assert a + b == b;
    } else {
      HolesAppend(a[1..], b);
      assert (a + b)[1..] == a[1..] + b;
    }
  }

  lemma ArgsAppend(a: seq<Tag>, b: seq<Tag>, e: Env)
    ensures Args(a + b, e) == Args(a, e) + Args(b, e)
  {
  }

  /** Formatting one erased line with the arguments its holes need renders the line. */
  lemma {:induction false} FormatLine(l: Line, e: Env)
    ensures Format(EraseLine(l), Args(LineNeeds(l), e)) == RenderLine(l, e)
  {
    if l != [] {
      FormatLine(l[1..], e);
      var rest := Args(LineNeeds(l[1..]), e);
      assert EraseLine(l)[1..] == EraseLine(l[1..]);
      match l[0]
      case Txt(s) =>
        assert LineNeeds(l) == LineNeeds(l[1..]);
      case Slot(need) =>
        assert LineNeeds(l) == [need] + LineNeeds(l[1..]);
        assert Args(LineNeeds(l), e) == [Value(need, e)] + rest;
        assert Args(LineNeeds(l), e)[1..] == rest;
    }
  }

  /**
   * With arguments that give every hole the variant it needs, `fmt` renders
   * the template as its lines with the holes filled in: no `%!s(MISSING)`, no
   * `%!(EXTRA ...)`.
   */
  lemma {:induction false} FormatRenders(t: Template, e: Env)
    ensures Format(Erase(t), Args(Needs(t), e)) == Unlines(RenderLines(t, e))
  {
    if t != [] {
      FormatRenders(t[1..], e);
      HolesOfLine(t[0]);
      var head := EraseLine(t[0]) + [Lit("\n")];
      assert Erase(t) == head + Erase(t[1..]);
      ArgsAppend(LineNeeds(t[0]), Needs(t[1..]), e);
      HolesAppend(EraseLine(t[0]), [Lit("\n")]);
      FormatAppend(head, Erase(t[1..]), Args(LineNeeds(t[0]), e), Args(Needs(t[1..]), e));
      FormatAppend(EraseLine(t[0]), [Lit("\n")], Args(LineNeeds(t[0]), e), []);
      assert Args(LineNeeds(t[0]), e) + [] == Args(LineNeeds(t[0]), e);
      FormatLine(t[0], e);
      assert Format([Lit("\n")], []) == "\n";
      assert RenderLines(t, e)[1..] == RenderLines(t[1..], e);
    }
  }

  /**
   * The whole instantiation contract: when the argument list is exactly the
   * list of variants the holes need, the number of arguments equals the
   * number of `%s` holes (`%%` escapes excluded), and `fmt.Sprintf` on the
   * template string renders every line with its holes filled as annotated.
   */
  lemma Instantiate(t: Template, tags: seq<Tag>, e: Env)
    requires Needs(t) == tags
    ensures Holes(Erase(t)) == |tags|
    ensures StringVerbsOnly(Unparse(Erase(t)))
    ensures Sprintf(Unparse(Erase(t)), Args(tags, e)) == Unlines(RenderLines(t, e))
  {
    HolesOfTemplate(t);
    SprintfUnparse(Erase(t), Args(tags, e));
    FormatRenders(t, e);
  }

  /** Every line of a template is one of its rendered lines. */
  lemma RenderedAt(t: Template, k: nat, e: Env)
    requires k < |t|
    ensures RenderLine(t[k], e) in RenderLines(t, e)
  {
    assert RenderLines(t, e)[k] == RenderLine(t[k], e);
  }

  lemma RenderLineCons(l: Line, e: Env)
    requires l != []
    ensures RenderLine(l, e) == PartText(l[0], e) + RenderLine(l[1..], e)
  {
  }

  lemma RenderLine1(l: Line, e: Env)
    requires |l| == 1
    ensures RenderLine(l, e) == PartText(l[0], e)
  {
    RenderLineCons(l, e);
    assert l[1..] == [];
  }

  lemma RenderLine2(l: Line, e: Env)
    requires |l| == 2
    ensures RenderLine(l, e) == PartText(l[0], e) + PartText(l[1], e)
  {
    RenderLineCons(l, e);
    RenderLine1(l[1..], e);
  }

  lemma RenderLine3(l: Line, e: Env)
    requires |l| == 3
    ensures RenderLine(l, e) == PartText(l[0], e) + (PartText(l[1], e) + PartText(l[2], e))
  {
    RenderLineCons(l, e);
    RenderLine2(l[1..], e);
  }

  lemma RenderLine4(l: Line, e: Env)
    requires |l| == 4
    ensures RenderLine(l, e) == PartText(l[0], e) + (PartText(l[1], e) + (PartText(l[2], e) + PartText(l[3], e)))
  {
    RenderLineCons(l, e);
    RenderLine3(l[1..], e);
  }

  lemma RenderLine5(l: Line, e: Env)
    requires |l| == 5
    ensures RenderLine(l, e) == PartText(l[0], e) + (PartText(l[1], e) + (PartText(l[2], e) + (PartText(l[3], e) + PartText(l[4], e))))
  {
    RenderLineCons(l, e);
    RenderLine4(l[1..], e);
  }

  lemma LineNeedsCons(l: Line)
    requires l != []
    ensures LineNeeds(l) == SlotNeeds(l[0]) + LineNeeds(l[1..])
  {
  }

  lemma LineNeeds1(l: Line)
    requires |l| == 1
    ensures LineNeeds(l) == SlotNeeds(l[0])
  {
    LineNeedsCons(l);
    assert l[1..] == [];
  }

  lemma LineNeeds2(l: Line)
    requires |l| == 2
    ensures LineNeeds(l) == SlotNeeds(l[0]) + SlotNeeds(l[1])
  {
    LineNeedsCons(l);
    LineNeeds1(l[1..]);
  }

  lemma LineNeeds3(l: Line)
    requires |l| == 3
    ensures LineNeeds(l) == SlotNeeds(l[0]) + (SlotNeeds(l[1]) + SlotNeeds(l[2]))
  {
    LineNeedsCons(l);
    LineNeeds2(l[1..]);
  }

  lemma LineNeeds4(l: Line)
    requires |l| == 4
    ensures LineNeeds(l) == SlotNeeds(l[0]) + (SlotNeeds(l[1]) + (SlotNeeds(l[2]) + SlotNeeds(l[3])))
  {
    LineNeedsCons(l);
    LineNeeds3(l[1..]);
  }

  lemma LineNeeds5(l: Line)
    requires |l| == 5
    ensures LineNeeds(l) == SlotNeeds(l[0]) + (SlotNeeds(l[1]) + (SlotNeeds(l[2]) + (SlotNeeds(l[3]) + SlotNeeds(l[4]))))
  {
    LineNeedsCons(l);
    LineNeeds4(l[1..]);
  }

  lemma NeedsCons(t: Template)
    requires t != []
    ensures Needs(t) == LineNeeds(t[0]) + Needs(t[1..])
  {
  }

  lemma Needs2(t: Template)
    requires |t| == 2
    ensures Needs(t) == LineNeeds(t[0]) + LineNeeds(t[1])
  {
    NeedsCons(t);
    NeedsCons(t[1..]);
    assert t[1..][1..] == [];
  }

  lemma Needs3(t: Template)
    requires |t| == 3
    ensures Needs(t) == LineNeeds(t[0]) + (LineNeeds(t[1]) + LineNeeds(t[2]))
  {
    NeedsCons(t);
    Needs2(t[1..]);
  }

  lemma Needs4(t: Template)
    requires |t| == 4
    ensures Needs(t) == LineNeeds(t[0]) + (LineNeeds(t[1]) + (LineNeeds(t[2]) + LineNeeds(t[3])))
  {
    NeedsCons(t);
    Needs3(t[1..]);
  }

  lemma Needs5(t: Template)
    requires |t| == 5
    ensures Needs(t) == LineNeeds(t[0]) + (LineNeeds(t[1]) + (LineNeeds(t[2]) + (LineNeeds(t[3]) +
      LineNeeds(t[4]))))
  {
    NeedsCons(t);
    Needs4(t[1..]);
  }

  lemma Needs6(t: Template)
    requires |t| == 6
    ensures Needs(t) == LineNeeds(t[0]) + (LineNeeds(t[1]) + (LineNeeds(t[2]) + (LineNeeds(t[3]) +
      (LineNeeds(t[4]) + LineNeeds(t[5])))))
  {
    NeedsCons(t);
    Needs5(t[1..]);
  }

  lemma Needs7(t: Template)
    requires |t| == 7
    ensures Needs(t) == LineNeeds(t[0]) + (LineNeeds(t[1]) + (LineNeeds(t[2]) + (LineNeeds(t[3]) +
      (LineNeeds(t[4]) + (LineNeeds(t[5]) + LineNeeds(t[6]))))))
  {
    NeedsCons(t);
    Needs6(t[1..]);
  }

  lemma Needs8(t: Template)
    requires |t| == 8
    ensures Needs(t) == LineNeeds(t[0]) + (LineNeeds(t[1]) + (LineNeeds(t[2]) + (LineNeeds(t[3]) +
      (LineNeeds(t[4]) + (LineNeeds(t[5]) + (LineNeeds(t[6]) + LineNeeds(t[7])))))))
  {
    NeedsCons(t);
    Needs7(t[1..]);
  }

  lemma Needs9(t: Template)
    requires |t| == 9
    ensures Needs(t) == LineNeeds(t[0]) + (LineNeeds(t[1]) + (LineNeeds(t[2]) + (LineNeeds(t[3]) +
      (LineNeeds(t[4]) + (LineNeeds(t[5]) + (LineNeeds(t[6]) + (LineNeeds(t[7]) +
      LineNeeds(t[8]))))))))
  {
    NeedsCons(t);
    Needs8(t[1..]);
  }

  lemma Needs10(t: Template)
    requires |t| == 10
    ensures Needs(t) == LineNeeds(t[0]) + (LineNeeds(t[1]) + (LineNeeds(t[2]) + (LineNeeds(t[3]) +
      (LineNeeds(t[4]) + (LineNeeds(t[5]) + (LineNeeds(t[6]) + (LineNeeds(t[7]) + (LineNeeds(t[8]) +
      LineNeeds(t[9])))))))))
  {
    NeedsCons(t);
    Needs9(t[1..]);
  }
}
