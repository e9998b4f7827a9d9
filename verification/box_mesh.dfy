/** `writeBox`: the twelve table triangles of the unit cube, scaled by the box's
    half-extents and placed by its pose, written as one list of facets. */
module BoxMesh {
  import opened Geometry
  import opened BoxTable
  import opened StlText

  /** Triangle `t` of a box: table entries 3t, 3t+1, 3t+2 in that order, each
      through the same model matrix; the table normal is written as it is. */
  function BoxTriangle(pose: Pose, halfExtents: Vec3, t: nat): (tri: Triangle)
    requires t < 12
    ensures tri.normal == BoxNormal(t)
    ensures Unrotated(pose) ==>
      && Sub(tri.v0, pose.p) == Mul(halfExtents, BoxVertex(3 * t))
      && Sub(tri.v1, pose.p) == Mul(halfExtents, BoxVertex(3 * t + 1))
      && Sub(tri.v2, pose.p) == Mul(halfExtents, BoxVertex(3 * t + 2))
  {
    Triangle(BoxNormal(t),
             ModelPoint(pose, halfExtents, BoxVertex(3 * t)),
             ModelPoint(pose, halfExtents, BoxVertex(3 * t + 1)),
             ModelPoint(pose, halfExtents, BoxVertex(3 * t + 2)))
  }

  function BoxTriangles(pose: Pose, halfExtents: Vec3): (ts: seq<Triangle>)
    ensures |ts| == 12
  {
    seq(12, t requires 0 <= t < 12 => BoxTriangle(pose, halfExtents, t))
  }

  /** `writeBox`: builds the twelve triangles in table order and writes them. */
  method WriteBox(pose: Pose, halfExtents: Vec3) returns (lines: seq<Line>, count: nat)
    ensures count == 12
    ensures lines == SolidLines(BoxTriangles(pose, halfExtents))
  {
    var triangles: seq<Triangle> := [];
    var i := 0;
    while i != 12
      invariant 0 <= i <= 12
      invariant |triangles| == i
      invariant forall t :: 0 <= t < i ==> triangles[t] == BoxTriangle(pose, halfExtents, t)
    {
      var v0 := ModelPoint(pose, halfExtents, BoxVertex(i * 3));
      var v1 := ModelPoint(pose, halfExtents, BoxVertex(i * 3 + 1));
      var v2 := ModelPoint(pose, halfExtents, BoxVertex(i * 3 + 2));
      triangles := triangles + [Triangle(BoxNormal(i), v0, v1, v2)];
      i := i + 1;
    }
    assert triangles == BoxTriangles(pose, halfExtents);
    lines, count := WriteSolid(triangles);
  }

  /** The pose and size of a box change where its facets are, never how many
      there are nor which normals they carry. */
  lemma NormalsIgnorePlacement(p1: Pose, h1: Vec3, p2: Pose, h2: Vec3)
    ensures forall t :: 0 <= t < 12 ==>
      BoxTriangles(p1, h1)[t].normal == BoxTriangles(p2, h2)[t].normal == BoxNormal(t)
  {
  }

  /** The half-extent of the box along the axis of the signed unit axis `n`. */
  function HalfExtent(halfExtents: Vec3, n: Vec3): real {
    if n.x != 0.0 then halfExtents.x else if n.y != 0.0 then halfExtents.y else halfExtents.z
  }

  /** The corners `a`, `b`, `c`, scaled by `h`, lie in the face of the box
      `[-h, h]` whose outward normal is `n`. */
  predicate ScaledOnFace(h: Vec3, a: Vec3, b: Vec3, c: Vec3, n: Vec3) {
    && Dot(Mul(h, a), n) == HalfExtent(h, n)
    && Dot(Mul(h, b), n) == HalfExtent(h, n)
    && Dot(Mul(h, c), n) == HalfExtent(h, n)
  }

  // One lemma per face; each only needs the coordinate the face fixes.

  lemma ScaledFaceMinusX(h: Vec3, a: Vec3, b: Vec3, c: Vec3, n: Vec3)
    requires At(n, -1.0, 0.0, 0.0) && a.x == -1.0 && b.x == -1.0 && c.x == -1.0
    ensures ScaledOnFace(h, a, b, c, n)
  {
  }

  lemma ScaledFacePlusX(h: Vec3, a: Vec3, b: Vec3, c: Vec3, n: Vec3)
    requires At(n, 1.0, 0.0, 0.0) && a.x == 1.0 && b.x == 1.0 && c.x == 1.0
    ensures ScaledOnFace(h, a, b, c, n)
  {
  }

  lemma ScaledFaceMinusY(h: Vec3, a: Vec3, b: Vec3, c: Vec3, n: Vec3)
    requires At(n, 0.0, -1.0, 0.0) && a.y == -1.0 && b.y == -1.0 && c.y == -1.0
    ensures ScaledOnFace(h, a, b, c, n)
  {
  }

  lemma ScaledFacePlusY(h: Vec3, a: Vec3, b: Vec3, c: Vec3, n: Vec3)
    requires At(n, 0.0, 1.0, 0.0) && a.y == 1.0 && b.y == 1.0 && c.y == 1.0
    ensures ScaledOnFace(h, a, b, c, n)
  {
  }

  lemma ScaledFaceMinusZ(h: Vec3, a: Vec3, b: Vec3, c: Vec3, n: Vec3)
    requires At(n, 0.0, 0.0, -1.0) && a.z == -1.0 && b.z == -1.0 && c.z == -1.0
    ensures ScaledOnFace(h, a, b, c, n)
  {
  }

  lemma ScaledFacePlusZ(h: Vec3, a: Vec3, b: Vec3, c: Vec3, n: Vec3)
    requires At(n, 0.0, 0.0, 1.0) && a.z == 1.0 && b.z == 1.0 && c.z == 1.0
    ensures ScaledOnFace(h, a, b, c, n)
  {
  }

  lemma ScaledTableTriangle(h: Vec3, t: nat)
    requires t < 12
    ensures ScaledOnFace(h, BoxVertex(3 * t), BoxVertex(3 * t + 1), BoxVertex(3 * t + 2), BoxNormal(t))
  {
    var a, b, c, n := BoxVertex(3 * t), BoxVertex(3 * t + 1), BoxVertex(3 * t + 2), BoxNormal(t);
    match t
    case 0 => ScaledFaceMinusX(h, a, b, c, n);
    case 1 => ScaledFaceMinusZ(h, a, b, c, n);
    case 2 => ScaledFaceMinusY(h, a, b, c, n);
    case 3 => ScaledFaceMinusZ(h, a, b, c, n);
    case 4 => ScaledFaceMinusX(h, a, b, c, n);
    case 5 => ScaledFaceMinusY(h, a, b, c, n);
    case 6 => ScaledFacePlusZ(h, a, b, c, n);
    case 7 => ScaledFacePlusX(h, a, b, c, n);
    case 8 => ScaledFacePlusX(h, a, b, c, n);
    case 9 => ScaledFacePlusY(h, a, b, c, n);
    case 10 => ScaledFacePlusY(h, a, b, c, n);
    case _ => ScaledFacePlusZ(h, a, b, c, n);
  }

  /** For an unrotated box, every vertex of facet `t`, taken relative to the
      box's centre, lies in the plane of the face the facet's normal points out
      of, at the half-extent along that axis: the facets tile the box's surface
      and their normals point outward. */
  lemma UnrotatedBoxFacetsLieOnFaces(pose: Pose, halfExtents: Vec3, t: nat)
    requires Unrotated(pose)
    requires t < 12
    ensures var tri := BoxTriangles(pose, halfExtents)[t];
      && Dot(Sub(tri.v0, pose.p), tri.normal) == HalfExtent(halfExtents, tri.normal)
      && Dot(Sub(tri.v1, pose.p), tri.normal) == HalfExtent(halfExtents, tri.normal)
      && Dot(Sub(tri.v2, pose.p), tri.normal) == HalfExtent(halfExtents, tri.normal)
  {
    ScaledTableTriangle(halfExtents, t);
  }
}
