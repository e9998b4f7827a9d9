/** The fixed unit-cube tessellation the box exporter draws from: 36 corner
    entries (three per triangle) and one outward axis normal per triangle. */
module BoxTable {
  import opened Geometry

  /** Entry j of `g_box_vertex_data`; triangle i is entries 3i, 3i+1, 3i+2. */
  function BoxVertex(j: nat): (v: Vec3)
    requires j < 36
    ensures IsCorner(v)
  {
    match j
    case 0 => Vec3(-1.0, -1.0, -1.0)
    case 1 => Vec3(-1.0, -1.0, 1.0)
    case 2 => Vec3(-1.0, 1.0, 1.0)
    case 3 => Vec3(1.0, 1.0, -1.0)
    case 4 => Vec3(-1.0, -1.0, -1.0)
    case 5 => Vec3(-1.0, 1.0, -1.0)
    case 6 => Vec3(1.0, -1.0, 1.0)
    case 7 => Vec3(-1.0, -1.0, -1.0)
    case 8 => Vec3(1.0, -1.0, -1.0)
    case 9 => Vec3(1.0, 1.0, -1.0)
    case 10 => Vec3(1.0, -1.0, -1.0)
    case 11 => Vec3(-1.0, -1.0, -1.0)
    case 12 => Vec3(-1.0, -1.0, -1.0)
    case 13 => Vec3(-1.0, 1.0, 1.0)
    case 14 => Vec3(-1.0, 1.0, -1.0)
    case 15 => Vec3(1.0, -1.0, 1.0)
    case 16 => Vec3(-1.0, -1.0, 1.0)
    case 17 => Vec3(-1.0, -1.0, -1.0)
    case 18 => Vec3(-1.0, 1.0, 1.0)
    case 19 => Vec3(-1.0, -1.0, 1.0)
    case 20 => Vec3(1.0, -1.0, 1.0)
    case 21 => Vec3(1.0, 1.0, 1.0)
    case 22 => Vec3(1.0, -1.0, -1.0)
    case 23 => Vec3(1.0, 1.0, -1.0)
    case 24 => Vec3(1.0, -1.0, -1.0)
    case 25 => Vec3(1.0, 1.0, 1.0)
    case 26 => Vec3(1.0, -1.0, 1.0)
    case 27 => Vec3(1.0, 1.0, 1.0)
    case 28 => Vec3(1.0, 1.0, -1.0)
    case 29 => Vec3(-1.0, 1.0, -1.0)
    case 30 => Vec3(1.0, 1.0, 1.0)
    case 31 => Vec3(-1.0, 1.0, -1.0)
    case 32 => Vec3(-1.0, 1.0, 1.0)
    case 33 => Vec3(1.0, 1.0, 1.0)
    case 34 => Vec3(-1.0, 1.0, 1.0)
    case _ => Vec3(1.0, -1.0, 1.0)
  }

  /** Entry i of `g_box_normal_data`: the normal of triangle i. */
  function BoxNormal(i: nat): (n: Vec3)
    requires i < 12
    ensures IsAxis(n)
  {
    match i
    case 0 => Vec3(-1.0, 0.0, 0.0)
    case 1 => Vec3(0.0, 0.0, -1.0)
    case 2 => Vec3(0.0, -1.0, 0.0)
    case 3 => Vec3(0.0, 0.0, -1.0)
    case 4 => Vec3(-1.0, 0.0, 0.0)
    case 5 => Vec3(0.0, -1.0, 0.0)
    case 6 => Vec3(0.0, 0.0, 1.0)
    case 7 => Vec3(1.0, 0.0, 0.0)
    case 8 => Vec3(1.0, 0.0, 0.0)
    case 9 => Vec3(0.0, 1.0, 0.0)
    case 10 => Vec3(0.0, 1.0, 0.0)
    case _ => Vec3(0.0, 0.0, 1.0)
  }

  /** The vertex table as a whole. */
  function BoxVertexData(): seq<Vec3> {
    seq(36, j requires 0 <= j < 36 => BoxVertex(j))
  }

  /** The normal table as a whole. */
  function BoxNormalData(): seq<Vec3> {
    seq(12, i requires 0 <= i < 12 => BoxNormal(i))
  }

  predicate IsUnit(c: real) { c == 1.0 || c == -1.0 }

  /** A corner of the cube [-1, 1]^3. */
  predicate IsCorner(v: Vec3) { IsUnit(v.x) && IsUnit(v.y) && IsUnit(v.z) }

  /** One of the six signed unit axis vectors. */
  predicate IsAxis(n: Vec3) {
    || (IsUnit(n.x) && n.y == 0.0 && n.z == 0.0)
    || (n.x == 0.0 && IsUnit(n.y) && n.z == 0.0)
    || (n.x == 0.0 && n.y == 0.0 && IsUnit(n.z))
  }

  function Corners(): set<Vec3> {
    { Vec3(-1.0, -1.0, -1.0), Vec3(-1.0, -1.0, 1.0), Vec3(-1.0, 1.0, -1.0), Vec3(-1.0, 1.0, 1.0),
      Vec3(1.0, -1.0, -1.0), Vec3(1.0, -1.0, 1.0), Vec3(1.0, 1.0, -1.0), Vec3(1.0, 1.0, 1.0) }
  }

  function Axes(): set<Vec3> {
    { Vec3(1.0, 0.0, 0.0), Vec3(-1.0, 0.0, 0.0), Vec3(0.0, 1.0, 0.0),
      Vec3(0.0, -1.0, 0.0), Vec3(0.0, 0.0, 1.0), Vec3(0.0, 0.0, -1.0) }
  }

  /** Number of triangles among the first `k` whose normal is `a`. */
  function NormalCount(a: Vec3, k: nat): nat
    requires k <= 12
  {
    if k == 0 then 0 else NormalCount(a, k - 1) + (if BoxNormal(k - 1) == a then 1 else 0)
  }

  /** The table's entries are exactly the eight cube corners: none is missing. */
  lemma AllCornersOccur()
    ensures (set j | 0 <= j < 36 :: BoxVertexData()[j]) == Corners()
  {
    var t := BoxVertexData();
    var used := set j | 0 <= j < 36 :: t[j];
    forall v | v in used ensures v in Corners() {
      var j :| 0 <= j < 36 && t[j] == v;
      assert IsCorner(t[j]);
    }
    assert t[0] in used && t[1] in used && t[2] in used && t[3] in used;
    assert t[5] in used && t[6] in used && t[8] in used && t[21] in used;
  }

  /** The normals used are exactly the six signed axes. */
  lemma AllAxesOccur()
    ensures (set i | 0 <= i < 12 :: BoxNormalData()[i]) == Axes()
  {
    var t := BoxNormalData();
    var used := set i | 0 <= i < 12 :: t[i];
    forall n | n in used ensures n in Axes() {
      var i :| 0 <= i < 12 && t[i] == n;
      assert IsAxis(t[i]);
    }
    assert t[0] in used && t[1] in used && t[2] in used;
    assert t[6] in used && t[7] in used && t[9] in used;
  }

  /** Vertices `a`, `b`, `c` lie in the face plane `v . n = 1` of the cube. */
  predicate OnFace(a: Vec3, b: Vec3, c: Vec3, n: Vec3) {
    Dot(a, n) == 1.0 && Dot(b, n) == 1.0 && Dot(c, n) == 1.0
  }

  /** `(b - a) x (c - a)` is a positive multiple (4, twice the area) of `n`: the
      triangle `a, b, c` winds counter-clockwise seen from where `n` points. */
  predicate CounterClockwise(a: Vec3, b: Vec3, c: Vec3, n: Vec3) {
    Cross(Sub(b, a), Sub(c, a)) == Scale(4.0, n)
  }

  /** The triangle is a facet of the cube's surface with `n` as its outward normal
      and the right-hand winding the STL format asks for. */
  predicate FacetOk(a: Vec3, b: Vec3, c: Vec3, n: Vec3) {
    OnFace(a, b, c, n) && CounterClockwise(a, b, c, n)
  }

  /** Triangle `t` of the table with its normal. */
  predicate TableFacetOk(t: nat)
    requires t < 12
  {
    FacetOk(BoxVertex(3 * t), BoxVertex(3 * t + 1), BoxVertex(3 * t + 2), BoxNormal(t))
  }

  /** `v == Vec3(x, y, z)` spelled component-wise. Stating a table entry this
      way lets a proof use its coordinates without the solver first rebuilding
      the datatype value; the scaled-face lemmas rely on it. */
  predicate At(v: Vec3, x: real, y: real, z: real) {
    v.x == x && v.y == y && v.z == z
  }

  // One group of lemmas per table triangle, each doing one small step: the plane
  // equations and the cross product on the triangle's own numbers, then each
  // tied to the table entries, then both to `TableFacetOk`. The repetition is
  // deliberate. A single lemma over all twelve triangles asks the solver to
  // unfold the 36-way vertex match together with the real arithmetic, and that
  // query does not finish within a reasonable resource budget; each lemma here
  // is one small query on literal values. `TriangleK(t)` takes `t` with
  // `requires t == K`, so that its conclusion is literally `TableFacetOk(t)` and
  // the dispatcher below can use it in the branch for `t == K` with no
  // rewriting.

  lemma Face0()
    ensures OnFace(Vec3(-1.0, -1.0, -1.0), Vec3(-1.0, -1.0, 1.0), Vec3(-1.0, 1.0, 1.0), Vec3(-1.0, 0.0, 0.0))
  {
  }

  lemma Edges0()
    ensures Cross(Vec3(0.0, 0.0, 2.0), Vec3(0.0, 2.0, 2.0)) == Scale(4.0, Vec3(-1.0, 0.0, 0.0))
  {
  }

  lemma OnTableFace0()
    ensures OnFace(BoxVertex(0), BoxVertex(1), BoxVertex(2), BoxNormal(0))
  {
    assert BoxVertex(0) == Vec3(-1.0, -1.0, -1.0);
    assert BoxVertex(1) == Vec3(-1.0, -1.0, 1.0);
    assert BoxVertex(2) == Vec3(-1.0, 1.0, 1.0);
    assert BoxNormal(0) == Vec3(-1.0, 0.0, 0.0);
    Face0();
  }

  lemma TableWinding0()
    ensures CounterClockwise(BoxVertex(0), BoxVertex(1), BoxVertex(2), BoxNormal(0))
  {
    assert BoxVertex(0) == Vec3(-1.0, -1.0, -1.0);
    assert BoxVertex(1) == Vec3(-1.0, -1.0, 1.0);
    assert BoxVertex(2) == Vec3(-1.0, 1.0, 1.0);
    assert BoxNormal(0) == Vec3(-1.0, 0.0, 0.0);
    assert Sub(Vec3(-1.0, -1.0, 1.0), Vec3(-1.0, -1.0, -1.0)) == Vec3(0.0, 0.0, 2.0);
    assert Sub(Vec3(-1.0, 1.0, 1.0), Vec3(-1.0, -1.0, -1.0)) == Vec3(0.0, 2.0, 2.0);
    Edges0();
  }

  lemma Face1()
    ensures OnFace(Vec3(1.0, 1.0, -1.0), Vec3(-1.0, -1.0, -1.0), Vec3(-1.0, 1.0, -1.0), Vec3(0.0, 0.0, -1.0))
  {
  }

  lemma Edges1()
    ensures Cross(Vec3(-2.0, -2.0, 0.0), Vec3(-2.0, 0.0, 0.0)) == Scale(4.0, Vec3(0.0, 0.0, -1.0))
  {
  }

  lemma OnTableFace1()
    ensures OnFace(BoxVertex(3), BoxVertex(4), BoxVertex(5), BoxNormal(1))
  {
    assert BoxVertex(3) == Vec3(1.0, 1.0, -1.0);
    assert BoxVertex(4) == Vec3(-1.0, -1.0, -1.0);
    assert BoxVertex(5) == Vec3(-1.0, 1.0, -1.0);
    assert BoxNormal(1) == Vec3(0.0, 0.0, -1.0);
    Face1();
  }

  lemma TableWinding1()
    ensures CounterClockwise(BoxVertex(3), BoxVertex(4), BoxVertex(5), BoxNormal(1))
  {
    assert BoxVertex(3) == Vec3(1.0, 1.0, -1.0);
    assert BoxVertex(4) == Vec3(-1.0, -1.0, -1.0);
    assert BoxVertex(5) == Vec3(-1.0, 1.0, -1.0);
    assert BoxNormal(1) == Vec3(0.0, 0.0, -1.0);
    assert Sub(Vec3(-1.0, -1.0, -1.0), Vec3(1.0, 1.0, -1.0)) == Vec3(-2.0, -2.0, 0.0);
    assert Sub(Vec3(-1.0, 1.0, -1.0), Vec3(1.0, 1.0, -1.0)) == Vec3(-2.0, 0.0, 0.0);
    Edges1();
  }

  lemma Face2()
    ensures OnFace(Vec3(1.0, -1.0, 1.0), Vec3(-1.0, -1.0, -1.0), Vec3(1.0, -1.0, -1.0), Vec3(0.0, -1.0, 0.0))
  {
  }

  lemma Edges2()
    ensures Cross(Vec3(-2.0, 0.0, -2.0), Vec3(0.0, 0.0, -2.0)) == Scale(4.0, Vec3(0.0, -1.0, 0.0))
  {
  }

  lemma OnTableFace2()
    ensures OnFace(BoxVertex(6), BoxVertex(7), BoxVertex(8), BoxNormal(2))
  {
    assert BoxVertex(6) == Vec3(1.0, -1.0, 1.0);
    assert BoxVertex(7) == Vec3(-1.0, -1.0, -1.0);
    assert BoxVertex(8) == Vec3(1.0, -1.0, -1.0);
    assert BoxNormal(2) == Vec3(0.0, -1.0, 0.0);
    Face2();
  }

  lemma TableWinding2()
    ensures CounterClockwise(BoxVertex(6), BoxVertex(7), BoxVertex(8), BoxNormal(2))
  {
    assert BoxVertex(6) == Vec3(1.0, -1.0, 1.0);
    assert BoxVertex(7) == Vec3(-1.0, -1.0, -1.0);
    assert BoxVertex(8) == Vec3(1.0, -1.0, -1.0);
    assert BoxNormal(2) == Vec3(0.0, -1.0, 0.0);
    assert Sub(Vec3(-1.0, -1.0, -1.0), Vec3(1.0, -1.0, 1.0)) == Vec3(-2.0, 0.0, -2.0);
    assert Sub(Vec3(1.0, -1.0, -1.0), Vec3(1.0, -1.0, 1.0)) == Vec3(0.0, 0.0, -2.0);
    Edges2();
  }

  lemma Face3()
    ensures OnFace(Vec3(1.0, 1.0, -1.0), Vec3(1.0, -1.0, -1.0), Vec3(-1.0, -1.0, -1.0), Vec3(0.0, 0.0, -1.0))
  {
  }

  lemma Edges3()
    ensures Cross(Vec3(0.0, -2.0, 0.0), Vec3(-2.0, -2.0, 0.0)) == Scale(4.0, Vec3(0.0, 0.0, -1.0))
  {
  }

  lemma OnTableFace3()
    ensures OnFace(BoxVertex(9), BoxVertex(10), BoxVertex(11), BoxNormal(3))
  {
    assert BoxVertex(9) == Vec3(1.0, 1.0, -1.0);
    assert BoxVertex(10) == Vec3(1.0, -1.0, -1.0);
    assert BoxVertex(11) == Vec3(-1.0, -1.0, -1.0);
    assert BoxNormal(3) == Vec3(0.0, 0.0, -1.0);
    Face3();
  }

  lemma TableWinding3()
    ensures CounterClockwise(BoxVertex(9), BoxVertex(10), BoxVertex(11), BoxNormal(3))
  {
    assert BoxVertex(9) == Vec3(1.0, 1.0, -1.0);
    assert BoxVertex(10) == Vec3(1.0, -1.0, -1.0);
    assert BoxVertex(11) == Vec3(-1.0, -1.0, -1.0);
    assert BoxNormal(3) == Vec3(0.0, 0.0, -1.0);
    assert Sub(Vec3(1.0, -1.0, -1.0), Vec3(1.0, 1.0, -1.0)) == Vec3(0.0, -2.0, 0.0);
    assert Sub(Vec3(-1.0, -1.0, -1.0), Vec3(1.0, 1.0, -1.0)) == Vec3(-2.0, -2.0, 0.0);
    Edges3();
  }

  lemma Face4()
    ensures OnFace(Vec3(-1.0, -1.0, -1.0), Vec3(-1.0, 1.0, 1.0), Vec3(-1.0, 1.0, -1.0), Vec3(-1.0, 0.0, 0.0))
  {
  }

  lemma Edges4()
    ensures Cross(Vec3(0.0, 2.0, 2.0), Vec3(0.0, 2.0, 0.0)) == Scale(4.0, Vec3(-1.0, 0.0, 0.0))
  {
  }

  lemma OnTableFace4()
    ensures OnFace(BoxVertex(12), BoxVertex(13), BoxVertex(14), BoxNormal(4))
  {
    assert BoxVertex(12) == Vec3(-1.0, -1.0, -1.0);
    assert BoxVertex(13) == Vec3(-1.0, 1.0, 1.0);
    assert BoxVertex(14) == Vec3(-1.0, 1.0, -1.0);
    assert BoxNormal(4) == Vec3(-1.0, 0.0, 0.0);
    Face4();
  }

  lemma TableWinding4()
    ensures CounterClockwise(BoxVertex(12), BoxVertex(13), BoxVertex(14), BoxNormal(4))
  {
    assert BoxVertex(12) == Vec3(-1.0, -1.0, -1.0);
    assert BoxVertex(13) == Vec3(-1.0, 1.0, 1.0);
    assert BoxVertex(14) == Vec3(-1.0, 1.0, -1.0);
    assert BoxNormal(4) == Vec3(-1.0, 0.0, 0.0);
    assert Sub(Vec3(-1.0, 1.0, 1.0), Vec3(-1.0, -1.0, -1.0)) == Vec3(0.0, 2.0, 2.0);
    assert Sub(Vec3(-1.0, 1.0, -1.0), Vec3(-1.0, -1.0, -1.0)) == Vec3(0.0, 2.0, 0.0);
    Edges4();
  }

  lemma Face5()
    ensures OnFace(Vec3(1.0, -1.0, 1.0), Vec3(-1.0, -1.0, 1.0), Vec3(-1.0, -1.0, -1.0), Vec3(0.0, -1.0, 0.0))
  {
  }

  lemma Edges5()
    ensures Cross(Vec3(-2.0, 0.0, 0.0), Vec3(-2.0, 0.0, -2.0)) == Scale(4.0, Vec3(0.0, -1.0, 0.0))
  {
  }

  lemma OnTableFace5()
    ensures OnFace(BoxVertex(15), BoxVertex(16), BoxVertex(17), BoxNormal(5))
  {
    assert BoxVertex(15) == Vec3(1.0, -1.0, 1.0);
    assert BoxVertex(16) == Vec3(-1.0, -1.0, 1.0);
    assert BoxVertex(17) == Vec3(-1.0, -1.0, -1.0);
    assert BoxNormal(5) == Vec3(0.0, -1.0, 0.0);
    Face5();
  }

  lemma TableWinding5()
    ensures CounterClockwise(BoxVertex(15), BoxVertex(16), BoxVertex(17), BoxNormal(5))
  {
    assert BoxVertex(15) == Vec3(1.0, -1.0, 1.0);
    assert BoxVertex(16) == Vec3(-1.0, -1.0, 1.0);
    assert BoxVertex(17) == Vec3(-1.0, -1.0, -1.0);
    assert BoxNormal(5) == Vec3(0.0, -1.0, 0.0);
    assert Sub(Vec3(-1.0, -1.0, 1.0), Vec3(1.0, -1.0, 1.0)) == Vec3(-2.0, 0.0, 0.0);
    assert Sub(Vec3(-1.0, -1.0, -1.0), Vec3(1.0, -1.0, 1.0)) == Vec3(-2.0, 0.0, -2.0);
    Edges5();
  }

  lemma Face6()
    ensures OnFace(Vec3(-1.0, 1.0, 1.0), Vec3(-1.0, -1.0, 1.0), Vec3(1.0, -1.0, 1.0), Vec3(0.0, 0.0, 1.0))
  {
  }

  lemma Edges6()
    ensures Cross(Vec3(0.0, -2.0, 0.0), Vec3(2.0, -2.0, 0.0)) == Scale(4.0, Vec3(0.0, 0.0, 1.0))
  {
  }

  lemma OnTableFace6()
    ensures OnFace(BoxVertex(18), BoxVertex(19), BoxVertex(20), BoxNormal(6))
  {
    assert BoxVertex(18) == Vec3(-1.0, 1.0, 1.0);
    assert BoxVertex(19) == Vec3(-1.0, -1.0, 1.0);
    assert BoxVertex(20) == Vec3(1.0, -1.0, 1.0);
    assert BoxNormal(6) == Vec3(0.0, 0.0, 1.0);
    Face6();
  }

  lemma TableWinding6()
    ensures CounterClockwise(BoxVertex(18), BoxVertex(19), BoxVertex(20), BoxNormal(6))
  {
    assert BoxVertex(18) == Vec3(-1.0, 1.0, 1.0);
    assert BoxVertex(19) == Vec3(-1.0, -1.0, 1.0);
    assert BoxVertex(20) == Vec3(1.0, -1.0, 1.0);
    assert BoxNormal(6) == Vec3(0.0, 0.0, 1.0);
    assert Sub(Vec3(-1.0, -1.0, 1.0), Vec3(-1.0, 1.0, 1.0)) == Vec3(0.0, -2.0, 0.0);
    assert Sub(Vec3(1.0, -1.0, 1.0), Vec3(-1.0, 1.0, 1.0)) == Vec3(2.0, -2.0, 0.0);
    Edges6();
  }

  lemma Face7()
    ensures OnFace(Vec3(1.0, 1.0, 1.0), Vec3(1.0, -1.0, -1.0), Vec3(1.0, 1.0, -1.0), Vec3(1.0, 0.0, 0.0))
  {
  }

  lemma Edges7()
    ensures Cross(Vec3(0.0, -2.0, -2.0), Vec3(0.0, 0.0, -2.0)) == Scale(4.0, Vec3(1.0, 0.0, 0.0))
  {
  }

  lemma OnTableFace7()
    ensures OnFace(BoxVertex(21), BoxVertex(22), BoxVertex(23), BoxNormal(7))
  {
    assert BoxVertex(21) == Vec3(1.0, 1.0, 1.0);
    assert BoxVertex(22) == Vec3(1.0, -1.0, -1.0);
    assert BoxVertex(23) == Vec3(1.0, 1.0, -1.0);
    assert BoxNormal(7) == Vec3(1.0, 0.0, 0.0);
    Face7();
  }

  lemma TableWinding7()
    ensures CounterClockwise(BoxVertex(21), BoxVertex(22), BoxVertex(23), BoxNormal(7))
  {
    assert BoxVertex(21) == Vec3(1.0, 1.0, 1.0);
    assert BoxVertex(22) == Vec3(1.0, -1.0, -1.0);
    assert BoxVertex(23) == Vec3(1.0, 1.0, -1.0);
    assert BoxNormal(7) == Vec3(1.0, 0.0, 0.0);
    assert Sub(Vec3(1.0, -1.0, -1.0), Vec3(1.0, 1.0, 1.0)) == Vec3(0.0, -2.0, -2.0);
    assert Sub(Vec3(1.0, 1.0, -1.0), Vec3(1.0, 1.0, 1.0)) == Vec3(0.0, 0.0, -2.0);
    Edges7();
  }

  lemma Face8()
    ensures OnFace(Vec3(1.0, -1.0, -1.0), Vec3(1.0, 1.0, 1.0), Vec3(1.0, -1.0, 1.0), Vec3(1.0, 0.0, 0.0))
  {
  }

  lemma Edges8()
    ensures Cross(Vec3(0.0, 2.0, 2.0), Vec3(0.0, 0.0, 2.0)) == Scale(4.0, Vec3(1.0, 0.0, 0.0))
  {
  }

  lemma OnTableFace8()
    ensures OnFace(BoxVertex(24), BoxVertex(25), BoxVertex(26), BoxNormal(8))
  {
    assert BoxVertex(24) == Vec3(1.0, -1.0, -1.0);
    assert BoxVertex(25) == Vec3(1.0, 1.0, 1.0);
    assert BoxVertex(26) == Vec3(1.0, -1.0, 1.0);
    assert BoxNormal(8) == Vec3(1.0, 0.0, 0.0);
    Face8();
  }

  lemma TableWinding8()
    ensures CounterClockwise(BoxVertex(24), BoxVertex(25), BoxVertex(26), BoxNormal(8))
  {
    assert BoxVertex(24) == Vec3(1.0, -1.0, -1.0);
    assert BoxVertex(25) == Vec3(1.0, 1.0, 1.0);
    assert BoxVertex(26) == Vec3(1.0, -1.0, 1.0);
    assert BoxNormal(8) == Vec3(1.0, 0.0, 0.0);
    assert Sub(Vec3(1.0, 1.0, 1.0), Vec3(1.0, -1.0, -1.0)) == Vec3(0.0, 2.0, 2.0);
    assert Sub(Vec3(1.0, -1.0, 1.0), Vec3(1.0, -1.0, -1.0)) == Vec3(0.0, 0.0, 2.0);
    Edges8();
  }

  lemma Face9()
    ensures OnFace(Vec3(1.0, 1.0, 1.0), Vec3(1.0, 1.0, -1.0), Vec3(-1.0, 1.0, -1.0), Vec3(0.0, 1.0, 0.0))
  {
  }

  lemma Edges9()
    ensures Cross(Vec3(0.0, 0.0, -2.0), Vec3(-2.0, 0.0, -2.0)) == Scale(4.0, Vec3(0.0, 1.0, 0.0))
  {
  }

  lemma OnTableFace9()
    ensures OnFace(BoxVertex(27), BoxVertex(28), BoxVertex(29), BoxNormal(9))
  {
    assert BoxVertex(27) == Vec3(1.0, 1.0, 1.0);
    assert BoxVertex(28) == Vec3(1.0, 1.0, -1.0);
    assert BoxVertex(29) == Vec3(-1.0, 1.0, -1.0);
    assert BoxNormal(9) == Vec3(0.0, 1.0, 0.0);
    Face9();
  }

  lemma TableWinding9()
    ensures CounterClockwise(BoxVertex(27), BoxVertex(28), BoxVertex(29), BoxNormal(9))
  {
    assert BoxVertex(27) == Vec3(1.0, 1.0, 1.0);
    assert BoxVertex(28) == Vec3(1.0, 1.0, -1.0);
    assert BoxVertex(29) == Vec3(-1.0, 1.0, -1.0);
    assert BoxNormal(9) == Vec3(0.0, 1.0, 0.0);
    assert Sub(Vec3(1.0, 1.0, -1.0), Vec3(1.0, 1.0, 1.0)) == Vec3(0.0, 0.0, -2.0);
    assert Sub(Vec3(-1.0, 1.0, -1.0), Vec3(1.0, 1.0, 1.0)) == Vec3(-2.0, 0.0, -2.0);
    Edges9();
  }

  lemma Face10()
    ensures OnFace(Vec3(1.0, 1.0, 1.0), Vec3(-1.0, 1.0, -1.0), Vec3(-1.0, 1.0, 1.0), Vec3(0.0, 1.0, 0.0))
  {
  }

  lemma Edges10()
    ensures Cross(Vec3(-2.0, 0.0, -2.0), Vec3(-2.0, 0.0, 0.0)) == Scale(4.0, Vec3(0.0, 1.0, 0.0))
  {
  }

  lemma OnTableFace10()
    ensures OnFace(BoxVertex(30), BoxVertex(31), BoxVertex(32), BoxNormal(10))
  {
    assert BoxVertex(30) == Vec3(1.0, 1.0, 1.0);
    assert BoxVertex(31) == Vec3(-1.0, 1.0, -1.0);
    assert BoxVertex(32) == Vec3(-1.0, 1.0, 1.0);
    assert BoxNormal(10) == Vec3(0.0, 1.0, 0.0);
    Face10();
  }

  lemma TableWinding10()
    ensures CounterClockwise(BoxVertex(30), BoxVertex(31), BoxVertex(32), BoxNormal(10))
  {
    assert BoxVertex(30) == Vec3(1.0, 1.0, 1.0);
    assert BoxVertex(31) == Vec3(-1.0, 1.0, -1.0);
    assert BoxVertex(32) == Vec3(-1.0, 1.0, 1.0);
    assert BoxNormal(10) == Vec3(0.0, 1.0, 0.0);
    assert Sub(Vec3(-1.0, 1.0, -1.0), Vec3(1.0, 1.0, 1.0)) == Vec3(-2.0, 0.0, -2.0);
    assert Sub(Vec3(-1.0, 1.0, 1.0), Vec3(1.0, 1.0, 1.0)) == Vec3(-2.0, 0.0, 0.0);
    Edges10();
  }

  lemma Face11()
    ensures OnFace(Vec3(1.0, 1.0, 1.0), Vec3(-1.0, 1.0, 1.0), Vec3(1.0, -1.0, 1.0), Vec3(0.0, 0.0, 1.0))
  {
  }

  lemma Edges11()
    ensures Cross(Vec3(-2.0, 0.0, 0.0), Vec3(0.0, -2.0, 0.0)) == Scale(4.0, Vec3(0.0, 0.0, 1.0))
  {
  }

  lemma OnTableFace11()
    ensures OnFace(BoxVertex(33), BoxVertex(34), BoxVertex(35), BoxNormal(11))
  {
    assert BoxVertex(33) == Vec3(1.0, 1.0, 1.0);
    assert BoxVertex(34) == Vec3(-1.0, 1.0, 1.0);
    assert BoxVertex(35) == Vec3(1.0, -1.0, 1.0);
    assert BoxNormal(11) == Vec3(0.0, 0.0, 1.0);
    Face11();
  }

  lemma TableWinding11()
    ensures CounterClockwise(BoxVertex(33), BoxVertex(34), BoxVertex(35), BoxNormal(11))
  {
    assert BoxVertex(33) == Vec3(1.0, 1.0, 1.0);
    assert BoxVertex(34) == Vec3(-1.0, 1.0, 1.0);
    assert BoxVertex(35) == Vec3(1.0, -1.0, 1.0);
    assert BoxNormal(11) == Vec3(0.0, 0.0, 1.0);
    assert Sub(Vec3(-1.0, 1.0, 1.0), Vec3(1.0, 1.0, 1.0)) == Vec3(-2.0, 0.0, 0.0);
    assert Sub(Vec3(1.0, -1.0, 1.0), Vec3(1.0, 1.0, 1.0)) == Vec3(0.0, -2.0, 0.0);
    Edges11();
  }

  /** Triangle `t` of the table lies in the face its normal points out of and
      is wound by the right-hand rule. */
  lemma Triangle0(t: nat)
    requires t == 0
    ensures TableFacetOk(t)
  {
    assert BoxVertex(3 * t) == BoxVertex(0);
    assert BoxVertex(3 * t + 1) == BoxVertex(1);
    assert BoxVertex(3 * t + 2) == BoxVertex(2);
    OnTableFace0();
    TableWinding0();
  }

  lemma Triangle1(t: nat)
    requires t == 1
    ensures TableFacetOk(t)
  {
    assert BoxVertex(3 * t) == BoxVertex(3);
    assert BoxVertex(3 * t + 1) == BoxVertex(4);
    assert BoxVertex(3 * t + 2) == BoxVertex(5);
    OnTableFace1();
    TableWinding1();
  }

  lemma Triangle2(t: nat)
    requires t == 2
    ensures TableFacetOk(t)
  {
    assert BoxVertex(3 * t) == BoxVertex(6);
    assert BoxVertex(3 * t + 1) == BoxVertex(7);
    assert BoxVertex(3 * t + 2) == BoxVertex(8);
    OnTableFace2();
    TableWinding2();
  }

  lemma Triangle3(t: nat)
    requires t == 3
    ensures TableFacetOk(t)
  {
    assert BoxVertex(3 * t) == BoxVertex(9);
    assert BoxVertex(3 * t + 1) == BoxVertex(10);
    assert BoxVertex(3 * t + 2) == BoxVertex(11);
    OnTableFace3();
    TableWinding3();
  }

  lemma Triangle4(t: nat)
    requires t == 4
    ensures TableFacetOk(t)
  {
    assert BoxVertex(3 * t) == BoxVertex(12);
    assert BoxVertex(3 * t + 1) == BoxVertex(13);
    assert BoxVertex(3 * t + 2) == BoxVertex(14);
    OnTableFace4();
    TableWinding4();
  }

  lemma Triangle5(t: nat)
    requires t == 5
    ensures TableFacetOk(t)
  {
    assert BoxVertex(3 * t) == BoxVertex(15);
    assert BoxVertex(3 * t + 1) == BoxVertex(16);
    assert BoxVertex(3 * t + 2) == BoxVertex(17);
    OnTableFace5();
    TableWinding5();
  }

  lemma Triangle6(t: nat)
    requires t == 6
    ensures TableFacetOk(t)
  {
    assert BoxVertex(3 * t) == BoxVertex(18);
    assert BoxVertex(3 * t + 1) == BoxVertex(19);
    assert BoxVertex(3 * t + 2) == BoxVertex(20);
    OnTableFace6();
    TableWinding6();
  }

  lemma Triangle7(t: nat)
    requires t == 7
    ensures TableFacetOk(t)
  {
    assert BoxVertex(3 * t) == BoxVertex(21);
    assert BoxVertex(3 * t + 1) == BoxVertex(22);
    assert BoxVertex(3 * t + 2) == BoxVertex(23);
    OnTableFace7();
    TableWinding7();
  }

  lemma Triangle8(t: nat)
    requires t == 8
    ensures TableFacetOk(t)
  {
    assert BoxVertex(3 * t) == BoxVertex(24);
    assert BoxVertex(3 * t + 1) == BoxVertex(25);
    assert BoxVertex(3 * t + 2) == BoxVertex(26);
    OnTableFace8();
    TableWinding8();
  }

  lemma Triangle9(t: nat)
    requires t == 9
    ensures TableFacetOk(t)
  {
    assert BoxVertex(3 * t) == BoxVertex(27);
    assert BoxVertex(3 * t + 1) == BoxVertex(28);
    assert BoxVertex(3 * t + 2) == BoxVertex(29);
    OnTableFace9();
    TableWinding9();
  }

  lemma Triangle10(t: nat)
    requires t == 10
    ensures TableFacetOk(t)
  {
    assert BoxVertex(3 * t) == BoxVertex(30);
    assert BoxVertex(3 * t + 1) == BoxVertex(31);
    assert BoxVertex(3 * t + 2) == BoxVertex(32);
    OnTableFace10();
    TableWinding10();
  }

  lemma Triangle11(t: nat)
    requires t == 11
    ensures TableFacetOk(t)
  {
    assert BoxVertex(3 * t) == BoxVertex(33);
    assert BoxVertex(3 * t + 1) == BoxVertex(34);
    assert BoxVertex(3 * t + 2) == BoxVertex(35);
    OnTableFace11();
    TableWinding11();
  }

  lemma TableTriangleIsFacet(t: nat)
    requires t < 12
    ensures TableFacetOk(t)
  {
    match t
    case 0 => Triangle0(t);
    case 1 => Triangle1(t);
    case 2 => Triangle2(t);
    case 3 => Triangle3(t);
    case 4 => Triangle4(t);
    case 5 => Triangle5(t);
    case 6 => Triangle6(t);
    case 7 => Triangle7(t);
    case 8 => Triangle8(t);
    case 9 => Triangle9(t);
    case 10 => Triangle10(t);
    case _ => Triangle11(t);
  }

  /** Every table triangle is an outward, counter-clockwise facet of the cube. */
  lemma FacesAreOutwardAndCounterClockwise()
    ensures forall t :: 0 <= t < 12 ==> TableFacetOk(t)
  {
    forall t | 0 <= t < 12 ensures TableFacetOk(t) {
      TableTriangleIsFacet(t);
    }
  }

  // One counting lemma per signed axis, for the same reason as above.

  lemma CountPlusX(a: Vec3)
    requires At(a, 1.0, 0.0, 0.0)
    ensures NormalCount(a, 12) == 2
  {
  }

  lemma CountMinusX(a: Vec3)
    requires At(a, -1.0, 0.0, 0.0)
    ensures NormalCount(a, 12) == 2
  {
  }

  lemma CountPlusY(a: Vec3)
    requires At(a, 0.0, 1.0, 0.0)
    ensures NormalCount(a, 12) == 2
  {
  }

  lemma CountMinusY(a: Vec3)
    requires At(a, 0.0, -1.0, 0.0)
    ensures NormalCount(a, 12) == 2
  {
  }

  lemma CountPlusZ(a: Vec3)
    requires At(a, 0.0, 0.0, 1.0)
    ensures NormalCount(a, 12) == 2
  {
  }

  lemma CountMinusZ(a: Vec3)
    requires At(a, 0.0, 0.0, -1.0)
    ensures NormalCount(a, 12) == 2
  {
  }

  /** Each signed axis is the normal of exactly two triangles: the twelve
      triangles cover the six faces two by two. */
  lemma EachFaceHasTwoTriangles(a: Vec3)
    requires IsAxis(a)
    ensures NormalCount(a, 12) == 2
  {
    if a.x == 1.0 {
      CountPlusX(a);
    } else if a.x == -1.0 {
      CountMinusX(a);
    } else if a.y == 1.0 {
      CountPlusY(a);
    } else if a.y == -1.0 {
      CountMinusY(a);
    } else if a.z == 1.0 {
      CountPlusZ(a);
    } else {
      CountMinusZ(a);
    }
  }
}
