/** `createSphereVerticesAndNormals`: a `rings` x `sectors` lattice of points on
    the unit sphere, stored ring by ring, and the four-corner index lists of the
    quads between neighbouring rings.

    The point of ring `r`, sector `s` is computed with `sin` and `cos`; here it is
    the parameter `point`. */
module SphereLattice {
  import opened Geometry

  /** The C++ conversion of an `int` to `short`: two's-complement wrap-around. */
  function ToShort(x: int): int {
    (x + 32768) % 65536 - 32768
  }

  /** `ToShort` lands in the `short` range, agrees with its argument modulo 2^16,
      and is the identity on values that already fit. */
  lemma ToShortWraps(x: int)
    ensures -32768 <= ToShort(x) < 32768
    ensures (x - ToShort(x)) % 65536 == 0
    ensures -32768 <= x < 32768 ==> ToShort(x) == x
  {
  }

  /** Corner `m` of quad `k`, where `k = r * sectors + s` is the lattice index of
      the quad's first corner: (r, s), (r, s + 1), (r + 1, s + 1), (r + 1, s) in
      flat indices. The sector is never reduced modulo `sectors`. */
  function QuadCorner(sectors: nat, k: nat, m: nat): nat
    requires m < 4
  {
    if m == 0 then k
    else if m == 1 then k + 1
    else if m == 2 then k + sectors + 1
    else k + sectors
  }

  /** The number of quads the index loop emits before it stops. */
  function QuadCount(rings: nat, sectors: nat): nat {
    if rings >= 2 && sectors >= 1 then (rings - 1) * sectors else rings * sectors
  }

  lemma MulSucc(a: int, b: int)
    ensures (a + 1) * b == a * b + b
  {
  }

  lemma {:induction false} MulMono(a: nat, b: nat, c: nat)
    requires a <= b
    ensures a * c <= b * c
    decreases b - a
  {
    if a < b {
      MulMono(a, b - 1, c);
      MulSucc(b - 1, c);
    }
  }

  /** Euclidean division has one quotient and one remainder. */
  lemma DivModUnique(x: nat, d: nat, q: nat, m: nat)
    requires d > 0 && m < d && x == q * d + m
    ensures x / d == q && x % d == m
  {
    var q2, m2 := x / d, x % d;
    assert x == q2 * d + m2;
    if q > q2 {
      MulMono(q2 + 1, q, d);
      MulSucc(q2, d);
    } else if q < q2 {
      MulMono(q + 1, q2, d);
      MulSucc(q, d);
    }
  }

  /** The early-return test of the index loop fires exactly at the last sector
      of the next-to-last ring. */
  lemma ReturnCondition(r: nat, s: nat, rings: nat, sectors: nat)
    requires r < rings && s < sectors
    ensures (r + 1) * sectors + (s + 1) == rings * sectors <==>
      rings >= 2 && r == rings - 2 && s == sectors - 1
  {
    MulSucc(r + 1, sectors);
    if r == rings - 1 {
      // The last ring: its quads reach past the lattice, so the test never fires.
      MulSucc(r, sectors);
    } else if rings >= 2 {
      MulSucc(rings - 1, sectors);
      MulMono(r + 2, rings, sectors);
      if r < rings - 2 {
        MulMono(r + 3, rings, sectors);
        MulSucc(r + 2, sectors);
      }
    }
  }

  /** The four corners of quad `k` as the loop pushes them, each stored as `short`. */
  function QuadIndices(sectors: nat, k: nat): (ix: seq<int>)
    ensures |ix| == 4
    ensures forall m :: 0 <= m < 4 ==> -32768 <= ix[m] < 32768
  {
    ToShortWraps(QuadCorner(sectors, k, 0));
    ToShortWraps(QuadCorner(sectors, k, 1));
    ToShortWraps(QuadCorner(sectors, k, 2));
    ToShortWraps(QuadCorner(sectors, k, 3));
    [ToShort(QuadCorner(sectors, k, 0)), ToShort(QuadCorner(sectors, k, 1)),
     ToShort(QuadCorner(sectors, k, 2)), ToShort(QuadCorner(sectors, k, 3))]
  }

  /** The index list after the first `n` quads. */
  function IndexPrefix(sectors: nat, n: nat): (ix: seq<int>)
    ensures |ix| == 4 * n
  {
    if n == 0 then [] else IndexPrefix(sectors, n - 1) + QuadIndices(sectors, n - 1)
  }

  /** Entry `j` of the index list is corner `j % 4` of quad `j / 4`. */
  lemma {:induction false} IndexPrefixAt(sectors: nat, n: nat, j: nat)
    requires j < 4 * n
    ensures IndexPrefix(sectors, n)[j] == ToShort(QuadCorner(sectors, j / 4, j % 4))
    decreases n
  {
    var before := IndexPrefix(sectors, n - 1);
    assert IndexPrefix(sectors, n) == before + QuadIndices(sectors, n - 1);
    if j < 4 * (n - 1) {
      IndexPrefixAt(sectors, n - 1, j);
    } else {
      assert j / 4 == n - 1 && j % 4 == j - 4 * (n - 1);
    }
  }

  /** One step of the index loop at ring `r`, sector `s`: what it pushes is
      quad `r * sectors + s`, and its return test fires exactly when that quad
      is the last one `QuadCount` allows. */
  lemma PushedQuad(r: nat, s: nat, rings: nat, sectors: nat)
    requires r < rings && s < sectors
    ensures IndexPrefix(sectors, r * sectors + s + 1) == IndexPrefix(sectors, r * sectors + s) +
      [ToShort(r * sectors + s), ToShort(r * sectors + (s + 1)),
       ToShort(r * sectors + sectors + (s + 1)), ToShort(r * sectors + sectors + s)]
    ensures r * sectors + sectors + (s + 1) == rings * sectors <==>
      rings >= 2 && r == rings - 2 && s == sectors - 1
    ensures r * sectors + sectors + (s + 1) == rings * sectors ==>
      r * sectors + s + 1 == QuadCount(rings, sectors)
  {
    MulSucc(r, sectors);
    ReturnCondition(r, s, rings, sectors);
    MulSucc(rings - 1, sectors);
  }

  /** One pass of the inner (sector) loop of the index part, at ring `r`: push
      the quads of the ring in order, and report whether the return test fired. */
  method PushRing(rings: nat, sectors: nat, r: nat, filled: nat, start: seq<int>)
    returns (indices: seq<int>, stopped: bool)
    requires r < rings && filled == rings * sectors
    requires rings >= 2 && sectors >= 1 ==> r <= rings - 2
    requires start == IndexPrefix(sectors, r * sectors)
    ensures stopped ==> indices == IndexPrefix(sectors, QuadCount(rings, sectors))
    ensures !stopped ==> indices == IndexPrefix(sectors, (r + 1) * sectors)
    ensures !stopped && rings >= 2 && sectors >= 1 ==> r < rings - 2
  {
    indices, stopped := start, false;
    var s := 0;
    while s < sectors
      invariant 0 <= s <= sectors
      invariant indices == IndexPrefix(sectors, r * sectors + s)
      invariant rings >= 2 && sectors >= 1 && r == rings - 2 ==> s < sectors
    {
      PushedQuad(r, s, rings, sectors);
      indices := indices + [ToShort(r * sectors + s), ToShort(r * sectors + (s + 1)),
                            ToShort(r * sectors + sectors + (s + 1)), ToShort(r * sectors + sectors + s)];
      if r * sectors + sectors + (s + 1) == filled {
        return indices, true;
      }
      s := s + 1;
    }
    MulSucc(r, sectors);
  }

  /** The index part of `createSphereVerticesAndNormals`: for each ring and
      sector in order, push the quad's four corners (stored as `short`), and stop
      right after the quad whose third corner equals the number of lattice
      points. */
  method CreateSphereIndices(rings: nat, sectors: nat) returns (indices: seq<int>)
    ensures indices == IndexPrefix(sectors, QuadCount(rings, sectors))
  {
    var filled := rings * sectors;  // sphere_vertices.size() / 3
    indices := [];
    var r := 0;
    while r < rings
      invariant 0 <= r <= rings
      invariant indices == IndexPrefix(sectors, r * sectors)
      invariant rings >= 2 && sectors >= 1 ==> r <= rings - 2
    {
      var stopped;
      indices, stopped := PushRing(rings, sectors, r, filled, indices);
      if stopped {
        return;
      }
      r := r + 1;
    }
  }

  /** Entry `j` of the generated list is corner `j % 4` of quad `j / 4`, and the
      list holds `QuadCount` quads. */
  lemma CreatedIndices(rings: nat, sectors: nat, indices: seq<int>)
    requires indices == IndexPrefix(sectors, QuadCount(rings, sectors))
    ensures |indices| == 4 * QuadCount(rings, sectors)
    ensures forall j :: 0 <= j < |indices| ==>
      indices[j] == ToShort(QuadCorner(sectors, j / 4, j % 4))
  {
    forall j | 0 <= j < |indices|
      ensures indices[j] == ToShort(QuadCorner(sectors, j / 4, j % 4))
    {
      IndexPrefixAt(sectors, QuadCount(rings, sectors), j);
    }
  }

  /** A slot of the vertex or normal array: `resize` creates slots the fill
      loop may never write, whose value the exporter must not rely on. */
  datatype Slot = Unset | Filled(v: Vec3)

  /** The radius the lattice is built with. */
  const LatticeRadius: real := 1.0

  /** The lattice point stored at flat index `k`: ring `k / sectors`, sector
      `k % sectors`. */
  function LatticePoint(point: (nat, nat) -> Vec3, sectors: nat, k: nat): Vec3
    requires sectors > 0
  {
    point(k / sectors, k % sectors)
  }

  /** The vertex part of `createSphereVerticesAndNormals`: both arrays are
      resized to `3 * rings * sectors` slots, then the nested ring/sector loop
      writes point `(r, s)`, scaled by the radius, to the next slot of each. */
  method CreateSphereVertices(point: (nat, nat) -> Vec3, rings: nat, sectors: nat)
    returns (vertices: seq<Slot>, normals: seq<Slot>)
    ensures |vertices| == |normals| == 3 * (rings * sectors)
    ensures forall k :: 0 <= k < rings * sectors ==>
      vertices[k] == Filled(LatticePoint(point, sectors, k)) && normals[k] == vertices[k]
    ensures forall k :: rings * sectors <= k < |vertices| ==>
      vertices[k] == Unset && normals[k] == Unset
  {
    vertices := seq(3 * (rings * sectors), _ => Unset);
    normals := vertices;
    var k := 0;  // the position of the output iterators
    var r := 0;
    while r < rings
      invariant 0 <= r <= rings && k == r * sectors
      invariant |vertices| == |normals| == 3 * (rings * sectors)
      invariant forall j :: 0 <= j < k ==>
        vertices[j] == Filled(LatticePoint(point, sectors, j)) && normals[j] == vertices[j]
      invariant forall j :: k <= j < |vertices| ==> vertices[j] == Unset && normals[j] == Unset
    {
      MulMono(r + 1, rings, sectors);
      MulSucc(r, sectors);
      var s := 0;
      while s < sectors
        invariant 0 <= s <= sectors && k == r * sectors + s
        invariant |vertices| == |normals| == 3 * (rings * sectors)
        invariant forall j :: 0 <= j < k ==>
          vertices[j] == Filled(LatticePoint(point, sectors, j)) && normals[j] == vertices[j]
        invariant forall j :: k <= j < |vertices| ==> vertices[j] == Unset && normals[j] == Unset
      {
        DivModUnique(k, sectors, r, s);
        var p := point(r, s);
        vertices := vertices[k := Filled(Scale(LatticeRadius, p))];
        normals := normals[k := Filled(p)];
        k, s := k + 1, s + 1;
      }
      r := r + 1;
    }
  }

  /** `createSphereVerticesAndNormals` as a whole. */
  method CreateSphereVerticesAndNormals(point: (nat, nat) -> Vec3, rings: nat, sectors: nat)
    returns (vertices: seq<Slot>, normals: seq<Slot>, indices: seq<int>)
    ensures |vertices| == |normals| == 3 * (rings * sectors)
    ensures forall k :: 0 <= k < rings * sectors ==>
      vertices[k] == Filled(LatticePoint(point, sectors, k)) && normals[k] == vertices[k]
    ensures forall k :: rings * sectors <= k < |vertices| ==>
      vertices[k] == Unset && normals[k] == Unset
    ensures indices == IndexPrefix(sectors, QuadCount(rings, sectors))
  {
    vertices, normals := CreateSphereVertices(point, rings, sectors);
    indices := CreateSphereIndices(rings, sectors);
  }

  /** On a lattice of at least two rings, the loop emits `(rings - 1) * sectors`
      quads, and every corner of every quad but the last is a filled slot; the
      last quad, and only it, reaches the first unfilled slot `rings * sectors`. */
  lemma QuadInFilledPart(rings: nat, sectors: nat, q: nat)
    requires rings >= 2 && sectors >= 1 && q < QuadCount(rings, sectors)
    ensures QuadCount(rings, sectors) == (rings - 1) * sectors
    ensures forall m :: 0 <= m < 4 ==> QuadCorner(sectors, q, m) <= rings * sectors
    ensures (forall m :: 0 <= m < 4 ==> QuadCorner(sectors, q, m) < rings * sectors) <==>
      q + 1 < QuadCount(rings, sectors)
    ensures q + 1 == QuadCount(rings, sectors) ==> QuadCorner(sectors, q, 2) == rings * sectors
  {
    MulSucc(rings - 1, sectors);
    assert QuadCorner(sectors, q, 2) == q + sectors + 1;
  }

  /** The lattice points behind the corners of the quad at ring `r`, sector `s`.
      The sector is not reduced modulo `sectors`: at the last sector, corners 1
      and 2 are the first points of the next ring and of the ring after it. */
  lemma QuadCornerPoints(point: (nat, nat) -> Vec3, sectors: nat, r: nat, s: nat)
    requires s < sectors
    ensures LatticePoint(point, sectors, QuadCorner(sectors, r * sectors + s, 0)) == point(r, s)
    ensures LatticePoint(point, sectors, QuadCorner(sectors, r * sectors + s, 1)) ==
      if s + 1 < sectors then point(r, s + 1) else point(r + 1, 0)
    ensures LatticePoint(point, sectors, QuadCorner(sectors, r * sectors + s, 2)) ==
      if s + 1 < sectors then point(r + 1, s + 1) else point(r + 2, 0)
    ensures LatticePoint(point, sectors, QuadCorner(sectors, r * sectors + s, 3)) == point(r + 1, s)
  {
    MulSucc(r, sectors);
    MulSucc(r + 1, sectors);
    DivModUnique(r * sectors + s, sectors, r, s);
    DivModUnique((r + 1) * sectors + s, sectors, r + 1, s);
    if s + 1 < sectors {
      DivModUnique(r * sectors + s + 1, sectors, r, s + 1);
      DivModUnique((r + 1) * sectors + s + 1, sectors, r + 1, s + 1);
    } else {
      DivModUnique((r + 1) * sectors, sectors, r + 1, 0);
      DivModUnique((r + 2) * sectors, sectors, r + 2, 0);
    }
  }

  /** `indices` lists, four entries per quad, the corners of the first `n`
      quads, with no `short` wrap-around. */
  predicate IsCornerList(sectors: nat, n: nat, indices: seq<int>) {
    && |indices| == 4 * n
    && forall j :: 0 <= j < |indices| ==> indices[j] == QuadCorner(sectors, j / 4, j % 4)
  }

  /** When the lattice has fewer than 2^15 points, storing the indices as `short`
      loses nothing: entry `j` is exactly corner `j % 4` of quad `j / 4`. */
  lemma IndicesFitShort(rings: nat, sectors: nat, indices: seq<int>)
    requires rings >= 2 && sectors >= 1 && rings * sectors < 32768
    requires indices == IndexPrefix(sectors, QuadCount(rings, sectors))
    ensures QuadCount(rings, sectors) == (rings - 1) * sectors
    ensures IsCornerList(sectors, QuadCount(rings, sectors), indices)
  {
    CreatedIndices(rings, sectors, indices);
    MulSucc(rings - 1, sectors);
    forall j | 0 <= j < |indices|
      ensures indices[j] == QuadCorner(sectors, j / 4, j % 4)
    {
      QuadInFilledPart(rings, sectors, j / 4);
      ToShortWraps(QuadCorner(sectors, j / 4, j % 4));
    }
  }
}
