/** The ASCII STL text the exporter writes: one `facet` block of seven lines
    per triangle (`writeFacetNormal`, `writeOuterLoop`, `writeVertex`), a list of
    blocks per solid (`writeSolid`), and the `solid` / `endsolid` wrapper.

    A line is kept as a token carrying its numbers; how a number is spelled is
    a parameter of `Render`. */
module StlText {
  import opened Geometry
  import opened Optional

  datatype Line =
    | SolidLine
    | FacetNormal(n: Vec3)
    | OuterLoop
    | VertexLine(v: Vec3)
    | EndLoop
    | EndFacet
    | EndSolidLine

  /** The block `writeFacetNormal` writes for one triangle: the normal, then the
      three vertices in array order inside `outer loop` ... `endloop`. */
  function FacetLines(t: Triangle): (ls: seq<Line>)
    ensures ParseFacets(ls) == Some([t])
    ensures SolidLine !in ls && EndSolidLine !in ls
  {
    var ls := [FacetNormal(t.normal), OuterLoop, VertexLine(t.v0), VertexLine(t.v1),
               VertexLine(t.v2), EndLoop, EndFacet];
    assert ParseFacets(ls[7..]) == Some([]) by { assert ls[7..] == []; }
    assert StartsWithFacet(ls) && Triangle(ls[0].n, ls[2].v, ls[3].v, ls[4].v) == t;
    assert [t] + [] == [t];
    ls
  }

  /** The blocks of a list of triangles, in list order. */
  function SolidLines(ts: seq<Triangle>): (ls: seq<Line>)
    ensures |ls| == 7 * |ts|
  {
    if ts == [] then [] else FacetLines(ts[0]) + SolidLines(ts[1..])
  }

  /** A whole STL solid: the blocks wrapped in `solid` and `endsolid`. */
  function SolidFile(ts: seq<Triangle>): seq<Line> {
    [SolidLine] + SolidLines(ts) + [EndSolidLine]
  }

  lemma {:induction false} SolidLinesAppend(ts: seq<Triangle>, t: Triangle)
    ensures SolidLines(ts + [t]) == SolidLines(ts) + FacetLines(t)
    decreases |ts|
  {
    if ts == [] {
      assert ts + [t] == [t];
      assert SolidLines([t]) == FacetLines(t) + SolidLines([]);
    } else {
      assert (ts + [t])[1..] == ts[1..] + [t];
      SolidLinesAppend(ts[1..], t);
    }
  }

  /** The blocks of two lists written one after the other are the blocks of
      the joined list: appending to one stream is writing the concatenation. */
  lemma {:induction false} SolidLinesConcat(a: seq<Triangle>, b: seq<Triangle>)
    ensures SolidLines(a + b) == SolidLines(a) + SolidLines(b)
    decreases |a|
  {
    if a == [] {
      assert a + b == b;
    } else {
      assert (a + b)[1..] == a[1..] + b;
      SolidLinesConcat(a[1..], b);
    }
  }

  /** Facet blocks never contain the `solid` or `endsolid` wrapper lines. */
  lemma {:induction false} BlocksHaveNoWrapper(ts: seq<Triangle>)
    ensures SolidLine !in SolidLines(ts) && EndSolidLine !in SolidLines(ts)
    decreases |ts|
  {
    if ts != [] {
      BlocksHaveNoWrapper(ts[1..]);
    }
  }

  /** `writeSolid`: one block per triangle, in order; returns the number of
      triangles written. */
  method WriteSolid(ts: seq<Triangle>) returns (lines: seq<Line>, count: nat)
    ensures lines == SolidLines(ts)
    ensures count == |ts| && |lines| == 7 * count
  {
    lines := [];
    var i := 0;
    while i != |ts|
      invariant 0 <= i <= |ts|
      invariant lines == SolidLines(ts[..i])
    {
      SolidLinesAppend(ts[..i], ts[i]);
      assert ts[..i + 1] == ts[..i] + [ts[i]];
      lines := lines + FacetLines(ts[i]);
      i := i + 1;
    }
    assert ts[..i] == ts;
    count := |ts|;
  }

  /** Whether `ls` starts with a well-formed facet block. */
  predicate StartsWithFacet(ls: seq<Line>) {
    && |ls| >= 7
    && ls[0].FacetNormal? && ls[1] == OuterLoop
    && ls[2].VertexLine? && ls[3].VertexLine? && ls[4].VertexLine?
    && ls[5] == EndLoop && ls[6] == EndFacet
  }

  /** Reads a sequence of facet blocks back into triangles; `None` when the
      lines are not exactly such a sequence. */
  function ParseFacets(ls: seq<Line>): Option<seq<Triangle>>
    decreases |ls|
  {
    if ls == [] then Some([])
    else if !StartsWithFacet(ls) then None
    else
      match ParseFacets(ls[7..])
      case None => None
      case Some(rest) => Some([Triangle(ls[0].n, ls[2].v, ls[3].v, ls[4].v)] + rest)
  }

  /** Reading back what was written gives the same triangles in the same order. */
  lemma {:induction false} ParseSolidLines(ts: seq<Triangle>)
    ensures ParseFacets(SolidLines(ts)) == Some(ts)
    decreases |ts|
  {
    if ts != [] {
      var ls := SolidLines(ts);
      assert ls[7..] == SolidLines(ts[1..]);
      ParseSolidLines(ts[1..]);
      assert [ts[0]] + ts[1..] == ts;
    }
  }

  /** Conversely, lines that parse are exactly the serialization of what they
      parse to: the block format has no other spelling. */
  lemma {:induction false} ParsedLinesAreSolidLines(ls: seq<Line>, ts: seq<Triangle>)
    requires ParseFacets(ls) == Some(ts)
    ensures ls == SolidLines(ts)
    decreases |ls|
  {
    if ls != [] {
      var rest := ParseFacets(ls[7..]).value;
      ParsedLinesAreSolidLines(ls[7..], rest);
      assert ts[1..] == rest;
      assert ls == ls[..7] + ls[7..];
    }
  }

  /** Reads a whole solid back: the wrapper lines, then facet blocks. */
  function ParseSolidFile(ls: seq<Line>): Option<seq<Triangle>> {
    if |ls| >= 2 && ls[0] == SolidLine && ls[|ls| - 1] == EndSolidLine then
      ParseFacets(ls[1..|ls| - 1])
    else
      None
  }

  lemma ParseSolidFileRoundTrip(ts: seq<Triangle>)
    ensures ParseSolidFile(SolidFile(ts)) == Some(ts)
  {
    var f := SolidFile(ts);
    assert f[1..|f| - 1] == SolidLines(ts);
    ParseSolidLines(ts);
  }

  /** The word a line of each kind starts with. */
  function Keyword(l: Line): string {
    match l
    case SolidLine => "solid"
    case FacetNormal(_) => "facet"
    case OuterLoop => "outer"
    case VertexLine(_) => "vertex"
    case EndLoop => "endloop"
    case EndFacet => "endfacet"
    case EndSolidLine => "endsolid"
  }

  /** The text of a line; `num` spells a coordinate (the stream's float
      formatting). Every line starts with its kind's word. */
  function Render(l: Line, num: real -> string): (text: string)
    ensures Keyword(l) <= text
  {
    match l
    case SolidLine => "solid"
    case FacetNormal(n) => "facet normal " + num(n.x) + " " + num(n.y) + " " + num(n.z)
    case OuterLoop => "outer loop"
    case VertexLine(v) => "vertex " + num(v.x) + " " + num(v.y) + " " + num(v.z)
    case EndLoop => "endloop"
    case EndFacet => "endfacet"
    case EndSolidLine => "endsolid"
  }

  predicate SameKind(a: Line, b: Line) {
    match a
    case SolidLine => b.SolidLine?
    case FacetNormal(_) => b.FacetNormal?
    case OuterLoop => b.OuterLoop?
    case VertexLine(_) => b.VertexLine?
    case EndLoop => b.EndLoop?
    case EndFacet => b.EndFacet?
    case EndSolidLine => b.EndSolidLine?
  }

  /** The keyword at the head of a rendered line tells which kind of line it
      is, whatever the numbers print as, so parsing the tokens above is parsing
      the text. */
  lemma RenderedKindIsUnambiguous(a: Line, b: Line, num: real -> string)
    requires Render(a, num) == Render(b, num)
    ensures SameKind(a, b)
  {
    var s := Render(a, num);
    if a.FacetNormal? || b.FacetNormal? || a.VertexLine? || b.VertexLine? {
      assert s[0] == Render(b, num)[0];
      if a.FacetNormal? || a.VertexLine? {
        assert |s| > 1 && s[1] == Render(b, num)[1];
      }
    }
  }
}
