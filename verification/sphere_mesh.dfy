/** `writeSphere`: the unit-sphere lattice of 20 rings by 20 sectors, each quad but
    the last split into two triangles, scaled by the radius, placed by the pose
    and written as one list of facets. */
module SphereMesh {
  import opened Geometry
  import opened SphereLattice
  import opened StlText

  const Rings: nat := 20
  const Sectors: nat := 20

  /** Index entry `j` names a written slot of `slots`. Reading a slot `resize`
      created but the fill loop never wrote yields an indeterminate value, so
      the tessellator may only read written ones. */
  predicate Readable(slots: seq<Slot>, indices: seq<int>, j: nat) {
    j < |indices| && 0 <= indices[j] < |slots| && slots[indices[j]].Filled?
  }

  /** The first `n` index entries all name written slots. */
  predicate ReadsFilled(slots: seq<Slot>, indices: seq<int>, n: nat) {
    forall j :: 0 <= j < n ==> Readable(slots, indices, j)
  }

  /** The value of the slot that index entry `j` names. The tessellator's
      precondition keeps it to readable entries; any other entry is given the
      origin so that the function is total. */
  function SlotAt(slots: seq<Slot>, indices: seq<int>, j: nat): Vec3 {
    if Readable(slots, indices, j) then slots[indices[j]].v else Vec3(0.0, 0.0, 0.0)
  }

  /** The two triangles of quad `q`, whose index entries are `4q .. 4q + 3`. The
      first takes vertex slots 2, 1, 0 and the normal averaged from slots 0, 1, 2;
      the second takes vertex slots 3, 2, 0 and the normal averaged from slots 0,
      2 and 2. Every vertex goes through `place`, the model matrix; normals are
      averaged by `mean` and not transformed. */
  function QuadTriangles(place: Vec3 -> Vec3, mean: (Vec3, Vec3, Vec3) -> Vec3,
                         vertices: seq<Slot>, normals: seq<Slot>, indices: seq<int>,
                         q: nat): (ts: seq<Triangle>)
    ensures |ts| == 2
    ensures ts[0].v0 == ts[1].v1 && ts[0].v2 == ts[1].v2
  {
    var i := 4 * q;
    [Triangle(mean(SlotAt(normals, indices, i), SlotAt(normals, indices, i + 1),
                   SlotAt(normals, indices, i + 2)),
              place(SlotAt(vertices, indices, i + 2)),
              place(SlotAt(vertices, indices, i + 1)),
              place(SlotAt(vertices, indices, i))),
     Triangle(mean(SlotAt(normals, indices, i), SlotAt(normals, indices, i + 2),
                   SlotAt(normals, indices, i + 2)),
              place(SlotAt(vertices, indices, i + 3)),
              place(SlotAt(vertices, indices, i + 2)),
              place(SlotAt(vertices, indices, i)))]
  }

  /** The triangles of the first `n` quads, in order. */
  function Tessellation(place: Vec3 -> Vec3, mean: (Vec3, Vec3, Vec3) -> Vec3,
                        vertices: seq<Slot>, normals: seq<Slot>, indices: seq<int>,
                        n: nat): (ts: seq<Triangle>)
    ensures |ts| == 2 * n
  {
    if n == 0 then []
    else Tessellation(place, mean, vertices, normals, indices, n - 1) +
         QuadTriangles(place, mean, vertices, normals, indices, n - 1)
  }

  /** The tessellation loop of `writeSphere`: step over the index list four
      entries at a time while `i != indices.size() - 4`, so the last quad is never
      visited, and push the two triangles of each visited quad. */
  method TessellateQuads(place: Vec3 -> Vec3, mean: (Vec3, Vec3, Vec3) -> Vec3,
                         vertices: seq<Slot>, normals: seq<Slot>, indices: seq<int>,
                         ghost last: nat) returns (triangles: seq<Triangle>)
    requires |indices| == 4 * last + 4
    requires ReadsFilled(vertices, indices, |indices| - 4)
    requires ReadsFilled(normals, indices, |indices| - 4)
    ensures |triangles| == 2 * last
    ensures triangles == Tessellation(place, mean, vertices, normals, indices, last)
  {
    triangles := [];
    var i := 0;
    var q := 0;  // i / 4
    while i != |indices| - 4
      invariant i == 4 * q && q <= last
      invariant triangles == Tessellation(place, mean, vertices, normals, indices, q)
      decreases |indices| - i
    {
      triangles := triangles + QuadTriangles(place, mean, vertices, normals, indices, q);
      i, q := i + 4, q + 1;
    }
    assert q == last;
  }

  /** The lattice point behind corner `m` of quad `q`. */
  function CornerPoint(point: (nat, nat) -> Vec3, sectors: nat, q: nat, m: nat): Vec3
    requires sectors > 0 && m < 4
  {
    LatticePoint(point, sectors, QuadCorner(sectors, q, m))
  }

  /** The two triangles of quad `q` stated directly over the lattice: corners
      2, 1, 0 and then 3, 2, 0, with normals averaged from corners 0, 1, 2 and
      0, 2, 2. */
  function LatticeQuadTriangles(place: Vec3 -> Vec3, mean: (Vec3, Vec3, Vec3) -> Vec3,
                                point: (nat, nat) -> Vec3, sectors: nat, q: nat): seq<Triangle>
    requires sectors > 0
  {
    var p0, p1 := CornerPoint(point, sectors, q, 0), CornerPoint(point, sectors, q, 1);
    var p2, p3 := CornerPoint(point, sectors, q, 2), CornerPoint(point, sectors, q, 3);
    [Triangle(mean(p0, p1, p2), place(p2), place(p1), place(p0)),
     Triangle(mean(p0, p2, p2), place(p3), place(p2), place(p0))]
  }

  /** The triangles of the first `n` quads of the lattice. */
  function LatticeTessellation(place: Vec3 -> Vec3, mean: (Vec3, Vec3, Vec3) -> Vec3,
                               point: (nat, nat) -> Vec3, sectors: nat, n: nat): (ts: seq<Triangle>)
    requires sectors > 0
    ensures |ts| == 2 * n
  {
    if n == 0 then []
    else LatticeTessellation(place, mean, point, sectors, n - 1) +
         LatticeQuadTriangles(place, mean, point, sectors, n - 1)
  }

  /** What the fill loop leaves in the vertex and normal arrays: the first
      `rings * sectors` slots of each hold the lattice points in order. */
  predicate HoldsLattice(point: (nat, nat) -> Vec3, rings: nat, sectors: nat,
                         vertices: seq<Slot>, normals: seq<Slot>)
  {
    && sectors > 0
    && rings * sectors <= |vertices| && rings * sectors <= |normals|
    && forall k :: 0 <= k < rings * sectors ==>
         vertices[k] == Filled(LatticePoint(point, sectors, k)) && normals[k] == vertices[k]
  }

  /** Every index the tessellation loop reads, that is every entry of every
      quad but the last, is below `rings * sectors`: it names a written slot. */
  lemma ReadsStayInFilledPart(point: (nat, nat) -> Vec3, rings: nat, sectors: nat,
                              vertices: seq<Slot>, normals: seq<Slot>, indices: seq<int>)
    requires rings >= 2 && sectors >= 1 && rings * sectors < 32768
    requires HoldsLattice(point, rings, sectors, vertices, normals)
    requires IsCornerList(sectors, QuadCount(rings, sectors), indices)
    ensures |indices| == 4 * ((rings - 1) * sectors) && |indices| >= 4
    ensures forall j :: 0 <= j < |indices| - 4 ==> 0 <= indices[j] < rings * sectors
    ensures ReadsFilled(vertices, indices, |indices| - 4)
    ensures ReadsFilled(normals, indices, |indices| - 4)
  {
    QuadInFilledPart(rings, sectors, 0);
    forall j | 0 <= j < |indices| - 4
      ensures 0 <= indices[j] < rings * sectors
    {
      QuadInFilledPart(rings, sectors, j / 4);
    }
  }

  /** Entry `4q + m` of the index list names the slot of corner `m` of quad `q`,
      and that slot holds the corner's lattice point. */
  lemma SlotIsCorner(point: (nat, nat) -> Vec3, rings: nat, sectors: nat,
                     vertices: seq<Slot>, normals: seq<Slot>, indices: seq<int>,
                     q: nat, m: nat, j: nat)
    requires rings >= 2 && sectors >= 1 && rings * sectors < 32768
    requires HoldsLattice(point, rings, sectors, vertices, normals)
    requires IsCornerList(sectors, QuadCount(rings, sectors), indices)
    requires q + 1 < QuadCount(rings, sectors) && m < 4 && j == 4 * q + m
    ensures Readable(vertices, indices, j) && Readable(normals, indices, j)
    ensures SlotAt(vertices, indices, j) == CornerPoint(point, sectors, q, m)
    ensures SlotAt(normals, indices, j) == CornerPoint(point, sectors, q, m)
  {
    QuadInFilledPart(rings, sectors, q);
    DivModUnique(j, 4, q, m);
  }

  /** The slots a quad's index entries name hold the lattice points of its
      four corners. */
  predicate SlotsHoldCorners(point: (nat, nat) -> Vec3, sectors: nat,
                             vertices: seq<Slot>, normals: seq<Slot>, indices: seq<int>, q: nat)
    requires sectors > 0
  {
    && SlotAt(vertices, indices, 4 * q) == CornerPoint(point, sectors, q, 0)
    && SlotAt(vertices, indices, 4 * q + 1) == CornerPoint(point, sectors, q, 1)
    && SlotAt(vertices, indices, 4 * q + 2) == CornerPoint(point, sectors, q, 2)
    && SlotAt(vertices, indices, 4 * q + 3) == CornerPoint(point, sectors, q, 3)
    && SlotAt(normals, indices, 4 * q) == CornerPoint(point, sectors, q, 0)
    && SlotAt(normals, indices, 4 * q + 1) == CornerPoint(point, sectors, q, 1)
    && SlotAt(normals, indices, 4 * q + 2) == CornerPoint(point, sectors, q, 2)
  }

  /** Every quad but the last reads its corners' lattice points. */
  lemma QuadSlotsHoldCorners(point: (nat, nat) -> Vec3, rings: nat, sectors: nat,
                             vertices: seq<Slot>, normals: seq<Slot>, indices: seq<int>, q: nat)
    requires rings >= 2 && sectors >= 1 && rings * sectors < 32768
    requires HoldsLattice(point, rings, sectors, vertices, normals)
    requires IsCornerList(sectors, QuadCount(rings, sectors), indices)
    requires q + 1 < QuadCount(rings, sectors)
    ensures SlotsHoldCorners(point, sectors, vertices, normals, indices, q)
  {
    SlotIsCorner(point, rings, sectors, vertices, normals, indices, q, 0, 4 * q);
    SlotIsCorner(point, rings, sectors, vertices, normals, indices, q, 1, 4 * q + 1);
    SlotIsCorner(point, rings, sectors, vertices, normals, indices, q, 2, 4 * q + 2);
    SlotIsCorner(point, rings, sectors, vertices, normals, indices, q, 3, 4 * q + 3);
  }

  /** A quad whose slots hold its corners' lattice points yields the lattice's
      two triangles for that quad. */
  lemma QuadFollowsLattice(place: Vec3 -> Vec3, mean: (Vec3, Vec3, Vec3) -> Vec3,
                           point: (nat, nat) -> Vec3, sectors: nat,
                           vertices: seq<Slot>, normals: seq<Slot>, indices: seq<int>, q: nat)
    requires sectors > 0
    requires SlotsHoldCorners(point, sectors, vertices, normals, indices, q)
    ensures QuadTriangles(place, mean, vertices, normals, indices, q) ==
      LatticeQuadTriangles(place, mean, point, sectors, q)
  {
  }

  /** The tessellation loop computes, quad by quad, the triangles of the lattice. */
  lemma {:induction false} TessellationFollowsLattice(
    place: Vec3 -> Vec3, mean: (Vec3, Vec3, Vec3) -> Vec3, point: (nat, nat) -> Vec3,
    rings: nat, sectors: nat, vertices: seq<Slot>, normals: seq<Slot>, indices: seq<int>, n: nat)
    requires rings >= 2 && sectors >= 1 && rings * sectors < 32768
    requires HoldsLattice(point, rings, sectors, vertices, normals)
    requires IsCornerList(sectors, QuadCount(rings, sectors), indices)
    requires n + 1 <= QuadCount(rings, sectors)
    ensures Tessellation(place, mean, vertices, normals, indices, n) ==
      LatticeTessellation(place, mean, point, sectors, n)
    decreases n
  {
    if n > 0 {
      TessellationFollowsLattice(place, mean, point, rings, sectors, vertices, normals, indices, n - 1);
      QuadSlotsHoldCorners(point, rings, sectors, vertices, normals, indices, n - 1);
      QuadFollowsLattice(place, mean, point, sectors, vertices, normals, indices, n - 1);
    }
  }

  /** The model matrix of `writeSphere`: a uniform scale by the radius, then the pose. */
  function SpherePlace(pose: Pose, radius: real): (place: Vec3 -> Vec3)
    ensures forall v :: Unrotated(pose) ==> Sub(place(v), pose.p) == Scale(radius, v)
  {
    v => ModelPoint(pose, Vec3(radius, radius, radius), v)
  }

  /** The sphere's triangles, stated over the lattice: the two triangles of each
      of the first `(rings - 1) * sectors - 1` quads. */
  function SphereTriangles(pose: Pose, radius: real, point: (nat, nat) -> Vec3,
                           rings: nat, sectors: nat): seq<Triangle>
    requires rings >= 2 && sectors >= 1
  {
    LatticeTessellation(SpherePlace(pose, radius), Mean3, point, sectors,
                        QuadCount(rings, sectors) - 1)
  }

  /** The buffers of a lattice of at least two rings that fits `short`
      indices, as `createSphereVerticesAndNormals` leaves them. */
  predicate LatticeBuffers(point: (nat, nat) -> Vec3, rings: nat, sectors: nat,
                           vertices: seq<Slot>, normals: seq<Slot>, indices: seq<int>)
  {
    && rings >= 2 && sectors >= 1 && rings * sectors < 32768
    && HoldsLattice(point, rings, sectors, vertices, normals)
    && IsCornerList(sectors, QuadCount(rings, sectors), indices)
  }

  /** `createSphereVerticesAndNormals` on a lattice of at least two rings
      that fits `short` indices: its buffers hold the lattice and its index list
      lists the corners of `(rings - 1) * sectors` quads. */
  method CreateLattice(point: (nat, nat) -> Vec3, rings: nat, sectors: nat)
    returns (vertices: seq<Slot>, normals: seq<Slot>, indices: seq<int>)
    requires rings >= 2 && sectors >= 1 && rings * sectors < 32768
    ensures LatticeBuffers(point, rings, sectors, vertices, normals, indices)
    ensures QuadCount(rings, sectors) == (rings - 1) * sectors
  {
    vertices, normals, indices := CreateSphereVerticesAndNormals(point, rings, sectors);
    IndicesFitShort(rings, sectors, indices);
  }

  /** The tessellation loop, run on `indices` up to quad `n`, reads only
      written slots and computes the first `n` quads of the lattice. */
  predicate TessellatesLattice(place: Vec3 -> Vec3, mean: (Vec3, Vec3, Vec3) -> Vec3,
                               point: (nat, nat) -> Vec3, sectors: nat,
                               vertices: seq<Slot>, normals: seq<Slot>, indices: seq<int>, n: nat)
  {
    && sectors > 0
    && |indices| == 4 * (n + 1)
    && ReadsFilled(vertices, indices, |indices| - 4)
    && ReadsFilled(normals, indices, |indices| - 4)
    && Tessellation(place, mean, vertices, normals, indices, n) ==
       LatticeTessellation(place, mean, point, sectors, n)
  }

  /** On the lattice's buffers the tessellation loop only reads written slots,
      and it computes the lattice's triangles. */
  lemma LatticeIsTessellated(place: Vec3 -> Vec3, mean: (Vec3, Vec3, Vec3) -> Vec3,
                             point: (nat, nat) -> Vec3, rings: nat, sectors: nat,
                             vertices: seq<Slot>, normals: seq<Slot>, indices: seq<int>, n: nat)
    requires LatticeBuffers(point, rings, sectors, vertices, normals, indices)
    requires n + 1 == QuadCount(rings, sectors)
    ensures TessellatesLattice(place, mean, point, sectors, vertices, normals, indices, n)
  {
    ReadsStayInFilledPart(point, rings, sectors, vertices, normals, indices);
    TessellationFollowsLattice(place, mean, point, rings, sectors, vertices, normals, indices, n);
  }

  /** The triangle-building part of `writeSphere` for a lattice of `rings` by
      `sectors`, with the model matrix `place` and the normal averaging `mean`:
      build the lattice and split every quad but the last into two triangles. */
  method TessellateLattice(place: Vec3 -> Vec3, mean: (Vec3, Vec3, Vec3) -> Vec3,
                           point: (nat, nat) -> Vec3, rings: nat, sectors: nat)
    returns (triangles: seq<Triangle>)
    requires rings >= 2 && sectors >= 1 && rings * sectors < 32768
    ensures QuadCount(rings, sectors) == (rings - 1) * sectors
    ensures triangles == LatticeTessellation(place, mean, point, sectors, QuadCount(rings, sectors) - 1)
  {
    var vertices, normals, indices := CreateLattice(point, rings, sectors);
    ghost var last := QuadCount(rings, sectors) - 1;
    LatticeIsTessellated(place, mean, point, rings, sectors, vertices, normals, indices, last);
    triangles := TessellateQuads(place, mean, vertices, normals, indices, last);
  }

  /** `writeSphere` for a lattice of `rings` by `sectors`: write the triangles
      of every quad but the last and return their number. */
  method WriteLatticeSphere(pose: Pose, radius: real, point: (nat, nat) -> Vec3,
                            rings: nat, sectors: nat) returns (lines: seq<Line>, count: nat)
    requires rings >= 2 && sectors >= 1 && rings * sectors < 32768
    ensures count == 2 * ((rings - 1) * sectors - 1)
    ensures lines == SolidLines(SphereTriangles(pose, radius, point, rings, sectors))
  {
    var triangles := TessellateLattice(SpherePlace(pose, radius), Mean3, point, rings, sectors);
    lines, count := WriteSolid(triangles);
  }

  /** `writeSphere`: the fixed lattice of 20 rings by 20 sectors gives 758
      triangles. */
  method WriteSphere(pose: Pose, radius: real, point: (nat, nat) -> Vec3)
    returns (lines: seq<Line>, count: nat)
    ensures count == 758
    ensures lines == SolidLines(SphereTriangles(pose, radius, point, Rings, Sectors))
  {
    lines, count := WriteLatticeSphere(pose, radius, point, Rings, Sectors);
  }

  /** The mean the second triangle's normal is taken from counts its middle
      corner twice: it is the mean of its three corners exactly when the third
      corner equals the middle one. */
  lemma RepeatedMean(a: Vec3, b: Vec3, c: Vec3)
    ensures Mean3(a, b, b) == Mean3(a, b, c) <==> b == c
  {
    if Mean3(a, b, b) == Mean3(a, b, c) {
      assert Add(Add(a, b), b) == Add(Add(a, b), c);
    }
  }

  /** The normal of the second triangle of quad `q` never depends on corner 3:
      it equals the mean of the triangle's own corners 0, 2 and 3 exactly when
      the lattice points of corners 2 and 3 coincide. */
  lemma SecondNormalSkipsCornerThree(place: Vec3 -> Vec3, point: (nat, nat) -> Vec3,
                                     sectors: nat, q: nat)
    requires sectors > 0
    ensures LatticeQuadTriangles(place, Mean3, point, sectors, q)[1].normal ==
      Mean3(CornerPoint(point, sectors, q, 0), CornerPoint(point, sectors, q, 2),
            CornerPoint(point, sectors, q, 2))
    ensures LatticeQuadTriangles(place, Mean3, point, sectors, q)[1].normal ==
      Mean3(CornerPoint(point, sectors, q, 0), CornerPoint(point, sectors, q, 2),
            CornerPoint(point, sectors, q, 3))
      <==> CornerPoint(point, sectors, q, 2) == CornerPoint(point, sectors, q, 3)
  {
    RepeatedMean(CornerPoint(point, sectors, q, 0), CornerPoint(point, sectors, q, 2),
                 CornerPoint(point, sectors, q, 3));
  }
}
