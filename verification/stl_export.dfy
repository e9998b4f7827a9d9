/** `writeRigidActor` and `outputStl`: which triangles an actor contributes, and
    how the facets of a list of actors are laid out over output files, either
    one `solid` per actor or all facets in one file. */
module StlExport {
  import opened Geometry
  import opened StlText
  import opened Decimal
  import opened Optional
  import opened BoxMesh
  import opened SphereMesh

  /** The geometry kinds of a PhysX shape (`PxGeometryType`), with the parameters
      the exporter reads for the two kinds it writes. */
  datatype ShapeGeometry =
    | SphereGeometry(radius: real)
    | PlaneGeometry
    | CapsuleGeometry
    | BoxGeometry(halfExtents: Vec3)
    | ConvexMeshGeometry
    | TriangleMeshGeometry
    | HeightFieldGeometry

  /** A shape of an actor with its global pose (`PxShapeExt::getGlobalPose`),
      which the physics library computes and is given here. */
  datatype Shape = Shape(geometry: ShapeGeometry, globalPose: Pose)

  /** A rigid actor: its shapes in the order `getShapes` returns them. */
  datatype Actor = Actor(shapes: seq<Shape>)

  /** The exporter reads `shapes[0]` without looking at the shape count. */
  predicate HasShape(a: Actor) {
    |a.shapes| > 0
  }

  predicate AllHaveShapes(actors: seq<Actor>) {
    forall i :: 0 <= i < |actors| ==> HasShape(actors[i])
  }

  /** The triangles written for an actor: a box's twelve or a sphere's 758 from
      its first shape, and none for any other kind. The other shapes are never
      looked at. `point` is the unit-sphere lattice. */
  function ActorTriangles(a: Actor, point: (nat, nat) -> Vec3): (ts: seq<Triangle>)
    requires HasShape(a)
    ensures a.shapes[0].geometry.BoxGeometry? ==> |ts| == 12
    ensures a.shapes[0].geometry.SphereGeometry? ==> |ts| == 758
    ensures !a.shapes[0].geometry.BoxGeometry? && !a.shapes[0].geometry.SphereGeometry? ==> ts == []
  {
    var shape := a.shapes[0];
    match shape.geometry
    case BoxGeometry(halfExtents) => BoxTriangles(shape.globalPose, halfExtents)
    case SphereGeometry(radius) => SphereTriangles(shape.globalPose, radius, point, Rings, Sectors)
    case _ => []
  }

  /** `writeRigidActor`: writes the first shape's facets and returns how many. */
  method WriteRigidActor(a: Actor, point: (nat, nat) -> Vec3) returns (lines: seq<Line>, count: nat)
    requires HasShape(a)
    ensures lines == SolidLines(ActorTriangles(a, point))
    ensures count == |ActorTriangles(a, point)|
  {
    var shape := a.shapes[0];
    match shape.geometry
    case BoxGeometry(halfExtents) =>
      lines, count := WriteBox(shape.globalPose, halfExtents);
    case SphereGeometry(radius) =>
      lines, count := WriteSphere(shape.globalPose, radius, point);
    case _ =>
      lines, count := [], 0;
  }

  /** Shapes after the first change nothing in what an actor writes. */
  lemma OnlyFirstShapeCounts(s: Shape, rest: seq<Shape>, point: (nat, nat) -> Vec3)
    ensures ActorTriangles(Actor([s] + rest), point) == ActorTriangles(Actor([s]), point)
  {
  }

  /** The triangles of all actors, in buffer order. */
  function AllTriangles(actors: seq<Actor>, point: (nat, nat) -> Vec3): seq<Triangle>
    requires AllHaveShapes(actors)
  {
    if actors == [] then []
    else AllTriangles(actors[..|actors| - 1], point) + ActorTriangles(actors[|actors| - 1], point)
  }

  /** The sum of what `writeRigidActor` returns over all actors. */
  function CountSum(actors: seq<Actor>, point: (nat, nat) -> Vec3): nat
    requires AllHaveShapes(actors)
  {
    if actors == [] then 0
    else CountSum(actors[..|actors| - 1], point) + |ActorTriangles(actors[|actors| - 1], point)|
  }

  /** The reported total is the number of facets in all the actors together. */
  lemma {:induction false} CountSumIsFacetCount(actors: seq<Actor>, point: (nat, nat) -> Vec3)
    requires AllHaveShapes(actors)
    ensures CountSum(actors, point) == |AllTriangles(actors, point)|
    decreases |actors|
  {
    if actors != [] {
      CountSumIsFacetCount(actors[..|actors| - 1], point);
    }
  }

  /** The file names split mode uses for the first `n` actors. */
  function ActorFileNames(path: string, n: nat): set<string> {
    set i | 0 <= i < n :: ActorFileName(path, i)
  }

  /** Actor `n`'s file name is new: none of the first `n` actors uses it. */
  lemma NextActorFileName(path: string, n: nat)
    ensures ActorFileName(path, n) !in ActorFileNames(path, n)
    ensures ActorFileNames(path, n + 1) == ActorFileNames(path, n) + {ActorFileName(path, n)}
  {
    forall j | 0 <= j < n {
      ActorFileNamesDistinct(path, j, n);
    }
  }

  /** Split mode writes one distinct file per actor. */
  lemma {:induction false} OneFilePerActor(path: string, n: nat)
    ensures |ActorFileNames(path, n)| == n
  {
    if n > 0 {
      OneFilePerActor(path, n - 1);
      NextActorFileName(path, n - 1);
    }
  }

  /** The file split mode writes for each actor: its facets wrapped in `solid` /
      `endsolid`, only the wrapper when the actor wrote nothing. */
  function ActorFiles(actors: seq<Actor>, point: (nat, nat) -> Vec3): (contents: seq<seq<Line>>)
    requires AllHaveShapes(actors)
    ensures |contents| == |actors|
  {
    seq(|actors|, i requires 0 <= i < |actors| => SolidFile(ActorTriangles(actors[i], point)))
  }

  /** After the first `n` files of split mode: file `i` holds `contents[i]`, and
      every other file is as it was. */
  predicate FilesUpTo(fs: map<string, seq<Line>>, files: map<string, seq<Line>>,
                      path: string, contents: seq<seq<Line>>, n: nat)
    requires n <= |contents|
  {
    && files.Keys == fs.Keys + ActorFileNames(path, n)
    && (forall i :: 0 <= i < n ==> files[ActorFileName(path, i)] == contents[i])
    && (forall name :: name in fs && name !in ActorFileNames(path, n) ==> files[name] == fs[name])
  }

  /** What split mode leaves behind: one file per actor holding that actor's
      solid, and every other file as it was. */
  predicate SplitLayout(fs: map<string, seq<Line>>, files: map<string, seq<Line>>,
                        path: string, actors: seq<Actor>, point: (nat, nat) -> Vec3)
    requires AllHaveShapes(actors)
  {
    FilesUpTo(fs, files, path, ActorFiles(actors, point), |actors|)
  }

  /** Writing file `n` keeps the files before it: the names are distinct. */
  lemma SplitStep(fs: map<string, seq<Line>>, files: map<string, seq<Line>>,
                  path: string, contents: seq<seq<Line>>, n: nat)
    requires n < |contents|
    requires FilesUpTo(fs, files, path, contents, n)
    ensures FilesUpTo(fs, files[ActorFileName(path, n) := contents[n]], path, contents, n + 1)
  {
    var name := ActorFileName(path, n);
    var next := files[name := contents[n]];
    NextActorFileName(path, n);
    assert next.Keys == fs.Keys + ActorFileNames(path, n + 1);
    forall i | 0 <= i < n + 1
      ensures next[ActorFileName(path, i)] == contents[i]
    {
      if i < n {
        ActorFileNamesDistinct(path, i, n);
      }
    }
    forall other | other in fs && other !in ActorFileNames(path, n + 1)
      ensures next[other] == fs[other]
    {
      assert other != name;
    }
  }

  /** What aggregated mode leaves behind: `output.stl` holds every actor's facet
      blocks in buffer order, and every other file is as it was. */
  predicate AggregatedLayout(fs: map<string, seq<Line>>, files: map<string, seq<Line>>,
                             path: string, actors: seq<Actor>, point: (nat, nat) -> Vec3)
    requires AllHaveShapes(actors)
  {
    && files.Keys == fs.Keys + {AggregateFileName(path)}
    && files[AggregateFileName(path)] == SolidLines(AllTriangles(actors, point))
    && (forall name :: name in fs && name != AggregateFileName(path) ==> files[name] == fs[name])
  }

  /** The first `i + 1` actors are the first `i` and actor `i`. */
  lemma GrowPrefix(actors: seq<Actor>, i: nat, point: (nat, nat) -> Vec3)
    requires AllHaveShapes(actors) && i < |actors|
    ensures AllHaveShapes(actors[..i]) && AllHaveShapes(actors[..i + 1])
    ensures AllTriangles(actors[..i + 1], point) ==
            AllTriangles(actors[..i], point) + ActorTriangles(actors[i], point)
    ensures CountSum(actors[..i + 1], point) ==
            CountSum(actors[..i], point) + |ActorTriangles(actors[i], point)|
  {
    assert actors[..i + 1][..i] == actors[..i];
  }

  /** Split mode of `outputStl`: for each actor in turn, open file `i` afresh,
      write `solid`, the actor's facets and `endsolid`, and close it. */
  method OutputSplit(fs: map<string, seq<Line>>, path: string, actors: seq<Actor>,
                     point: (nat, nat) -> Vec3)
    returns (files: map<string, seq<Line>>, total: nat)
    requires AllHaveShapes(actors)
    ensures SplitLayout(fs, files, path, actors, point)
    ensures total == CountSum(actors, point)
  {
    ghost var contents := ActorFiles(actors, point);
    files, total := fs, 0;
    var i := 0;
    while i != |actors|
      invariant 0 <= i <= |actors|
      invariant AllHaveShapes(actors[..i])
      invariant FilesUpTo(fs, files, path, contents, i)
      invariant total == CountSum(actors[..i], point)
    {
      var lines, count := WriteRigidActor(actors[i], point);
      SplitStep(fs, files, path, contents, i);
      files := files[ActorFileName(path, i) := [SolidLine] + lines + [EndSolidLine]];
      GrowPrefix(actors, i, point);
      total := total + count;
      i := i + 1;
    }
    assert actors[..i] == actors;
  }

  /** Aggregated mode of `outputStl`: open `output.stl` afresh once, then append
      every actor's facets with no `solid` / `endsolid` around them. */
  method OutputAggregated(fs: map<string, seq<Line>>, path: string, actors: seq<Actor>,
                          point: (nat, nat) -> Vec3)
    returns (files: map<string, seq<Line>>, total: nat)
    requires AllHaveShapes(actors)
    ensures AggregatedLayout(fs, files, path, actors, point)
    ensures total == CountSum(actors, point)
  {
    var out := AggregateFileName(path);
    files, total := fs[out := []], 0;
    var i := 0;
    while i != |actors|
      invariant 0 <= i <= |actors|
      invariant AllHaveShapes(actors[..i])
      invariant files.Keys == fs.Keys + {out}
      invariant files[out] == SolidLines(AllTriangles(actors[..i], point))
      invariant forall name :: name in fs && name != out ==> files[name] == fs[name]
      invariant total == CountSum(actors[..i], point)
    {
      var lines, count := WriteRigidActor(actors[i], point);
      GrowPrefix(actors, i, point);
      SolidLinesConcat(AllTriangles(actors[..i], point), ActorTriangles(actors[i], point));
      files := files[out := files[out] + lines];
      total := total + count;
      i := i + 1;
    }
    assert actors[..i] == actors;
  }

  /** `outputStl`: lays the actors' facets out over the files `fs` in the mode
      `divide` selects and returns the total number of facets written. */
  method OutputStl(fs: map<string, seq<Line>>, path: string, actors: seq<Actor>,
                   point: (nat, nat) -> Vec3, divide: bool)
    returns (files: map<string, seq<Line>>, total: nat)
    requires AllHaveShapes(actors)
    ensures divide ==> SplitLayout(fs, files, path, actors, point)
    ensures !divide ==> AggregatedLayout(fs, files, path, actors, point)
    ensures total == CountSum(actors, point)
  {
    if divide {
      files, total := OutputSplit(fs, path, actors, point);
    } else {
      files, total := OutputAggregated(fs, path, actors, point);
    }
  }

  /** Reading a split-mode file back gives exactly that actor's triangles, and
      the reported total is the number of facets over all the files. */
  lemma SplitFilesReadBack(fs: map<string, seq<Line>>, files: map<string, seq<Line>>,
                           path: string, actors: seq<Actor>, point: (nat, nat) -> Vec3, i: nat)
    requires AllHaveShapes(actors) && SplitLayout(fs, files, path, actors, point)
    requires i < |actors|
    ensures ActorFileName(path, i) in files
    ensures ParseSolidFile(files[ActorFileName(path, i)]) == Some(ActorTriangles(actors[i], point))
  {
    assert ActorFileName(path, i) in ActorFileNames(path, |actors|);
    ParseSolidFileRoundTrip(ActorTriangles(actors[i], point));
  }

  /** Reading the aggregated file back gives every actor's triangles in buffer
      order, as many as the reported total; it carries no `solid` / `endsolid`
      line, so it does not read back as a whole solid. */
  lemma AggregatedFileReadsBack(fs: map<string, seq<Line>>, files: map<string, seq<Line>>,
                                path: string, actors: seq<Actor>, point: (nat, nat) -> Vec3)
    requires AllHaveShapes(actors) && AggregatedLayout(fs, files, path, actors, point)
    ensures ParseFacets(files[AggregateFileName(path)]) == Some(AllTriangles(actors, point))
    ensures |AllTriangles(actors, point)| == CountSum(actors, point)
    ensures SolidLine !in files[AggregateFileName(path)]
    ensures EndSolidLine !in files[AggregateFileName(path)]
    ensures ParseSolidFile(files[AggregateFileName(path)]) == None
  {
    ParseSolidLines(AllTriangles(actors, point));
    CountSumIsFacetCount(actors, point);
    BlocksHaveNoWrapper(AllTriangles(actors, point));
  }
}
