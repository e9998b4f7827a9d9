# STL export of PhysX rigid actors, in Dafny

This project models the STL exporter of PhysXPitagora (`StlOutput` in
`stl_output.cpp` / `stl_output.h`). The exporter writes the shapes of a list
of PhysX rigid actors as ASCII STL facets.

- **Boxes** come from a fixed table of 12 triangles over the unit cube. The
  table is scaled by the box's half-extents and placed by its global pose
  (`writeBox`).
- **Spheres** come from a 20 x 20 lattice of unit-sphere points and a list of
  four-corner quads (`createSphereVerticesAndNormals`). Each quad but the last
  is split into two triangles (`writeSphere`).
- **Triangles** are written as seven-line `facet` blocks (`writeSolid`,
  `writeFacetNormal`, `writeOuterLoop`, `writeVertex`).
- **Actors**: only the first shape of each actor is looked at. A box or sphere
  is written; any other kind writes nothing (`writeRigidActor`).
- **Files**: the facets go either to one file per actor, named by the actor's
  ordinal and wrapped in `solid` / `endsolid`, or all to one `output.stl` with
  no wrapper (`outputStl`). The total number of facets is reported.

Modules, one per part of the program:

| file | module | models |
|---|---|---|
| geometry.dfy | `Geometry` | vectors, poses, the model matrix, the `Triangle` record |
| box_table.dfy | `BoxTable` | `g_box_vertex_data`, `g_box_normal_data` and their geometry |
| box_mesh.dfy | `BoxMesh` | `writeBox` |
| sphere_lattice.dfy | `SphereLattice` | `createSphereVerticesAndNormals` |
| sphere_mesh.dfy | `SphereMesh` | `writeSphere` |
| stl_text.dfy | `StlText` | `writeSolid`, `writeFacetNormal`, `writeOuterLoop`, `writeVertex`, and a reader for what they write |
| decimal.dfy | `Decimal` | `stringstream << i` and the output file names |
| stl_export.dfy | `StlExport` | `writeRigidActor`, `outputStl` |
| optional.dfy | `Optional` | the `Option` result type |

Modelling choices:

- Coordinates are reals.
- A pose is an opaque rotation function plus a translation.
- The sine/cosine lattice is a parameter `point: (nat, nat) -> Vec3` giving the
  unit-sphere point of ring `r`, sector `s`.
- An output line is a token carrying its numbers. `StlText.Render` spells it,
  with the float formatting as a parameter.
- The file system is a `map<string, seq<Line>>`. Opening a file with
  `ios::out` replaces its contents.
- The sphere's index list is stored as `short`, with an explicit two's-complement
  wrap (`SphereLattice.ToShort`).
- The vertex and normal arrays are `seq<Slot>`. A slot `resize` created but the
  fill loop never wrote is `Unset`, and the tessellator is proved never to read
  one.
- The program is modelled as written, including these quirks:
  - the second triangle of each sphere quad takes its normal from slots 0, 2
    and 2 (`SphereMesh.SecondNormalSkipsCornerThree`);
  - the loop `i != indices.size() - 4` drops the last quad, giving 758
    triangles, not 760 (`SphereLattice.QuadInFilledPart`,
    `SphereMesh.WriteSphere`);
  - box and sphere normals are written as they are, never rotated with the
    pose: the box writes its table normals, the sphere the average of
    unit-sphere normals (`BoxMesh.NormalsIgnorePlacement`,
    `SphereMesh.QuadTriangles`);
  - the aggregated `output.stl` gets no `solid` / `endsolid` wrapper, so it is
    not a complete ASCII STL solid (`StlExport.AggregatedFileReadsBack`).

## Model

| member | source | states |
|---|---|---|
| Geometry.ModelPoint | PhysXPitagora/PhysXPitagora/stl_output.cpp:156-158 | with no rotation, a placed point minus the pose's translation is the point scaled component-wise: scale first, then rotate, then translate |
| Geometry.Mean3 | PhysXPitagora/PhysXPitagora/stl_output.cpp:199-209 | three times the averaged normal is the sum of the three corner normals, component by component |
| BoxTable.BoxVertex | PhysXPitagora/PhysXPitagora/stl_output.cpp:11-59 | every entry of the vertex table is a corner of the cube [-1, 1]^3 |
| BoxTable.BoxNormal | PhysXPitagora/PhysXPitagora/stl_output.cpp:61-74 | every entry of the normal table is a signed unit axis |
| BoxTable.AllCornersOccur | PhysXPitagora/PhysXPitagora/stl_output.cpp:11-59 | the 36 vertex entries are cube corners (every coordinate is +1 or -1), and all eight corners occur |
| BoxTable.AllAxesOccur | PhysXPitagora/PhysXPitagora/stl_output.cpp:61-74 | the 12 normals are signed unit axes, and all six occur |
| BoxTable.TableTriangleIsFacet | PhysXPitagora/PhysXPitagora/stl_output.cpp:11-74 | for triangle t, every vertex v has v . n_t = 1, and (v1 - v0) x (v2 - v0) = 4 n_t: it lies in the face n_t points out of and winds counter-clockwise seen from outside |
| BoxTable.FacesAreOutwardAndCounterClockwise | PhysXPitagora/PhysXPitagora/stl_output.cpp:11-74 | the face and winding property holds for all 12 table triangles |
| BoxTable.EachFaceHasTwoTriangles | PhysXPitagora/PhysXPitagora/stl_output.cpp:61-74 | each of the six signed axes is the normal of exactly two triangles |
| BoxMesh.BoxTriangle | PhysXPitagora/PhysXPitagora/stl_output.cpp:164-170 | triangle i carries table normal i unchanged; with no rotation its vertices, relative to the box centre, are table entries 3i, 3i+1, 3i+2 scaled by the half-extents |
| BoxMesh.BoxTriangles | PhysXPitagora/PhysXPitagora/stl_output.cpp:160-171 | a box is always exactly 12 triangles, whatever its pose and size |
| BoxMesh.WriteBox | PhysXPitagora/PhysXPitagora/stl_output.cpp:154-174 | returns 12 and writes the facet blocks of triangle i = table entries 3i, 3i+1, 3i+2 through the model matrix, with table normal i, in table order |
| BoxMesh.NormalsIgnorePlacement | PhysXPitagora/PhysXPitagora/stl_output.cpp:162-171 | the facet normals are the table's normals untransformed, the same for every pose and half-extents |
| BoxMesh.UnrotatedBoxFacetsLieOnFaces | PhysXPitagora/PhysXPitagora/stl_output.cpp:154-171 | for an unrotated box, every vertex of facet t, relative to the box centre, lies on the box face its normal points out of, at the half-extent along that axis |
| SphereLattice.ToShort | PhysXPitagora/PhysXPitagora/stl_output.cpp:254-257 | the conversion of a pushed index to `short`, a two's-complement wrap; its range, congruence and identity on fitting values are stated by `SphereLattice.ToShortWraps` |
| SphereLattice.QuadCorner | PhysXPitagora/PhysXPitagora/stl_output.cpp:254-257 | corner m of the quad at flat index k; the lattice points these corners name, with no sector wrap, are stated by `SphereLattice.QuadCornerPoints` |
| SphereLattice.QuadIndices | PhysXPitagora/PhysXPitagora/stl_output.cpp:254-257 | one step pushes four entries, each already a value of the `short` range |
| SphereLattice.ToShortWraps | PhysXPitagora/PhysXPitagora/stl_output.cpp:254-257 | storing an index in a `short` yields a value in [-2^15, 2^15), congruent to it modulo 2^16, and unchanged when it already fits |
| SphereLattice.ReturnCondition | PhysXPitagora/PhysXPitagora/stl_output.cpp:259-261 | the early return fires exactly at ring rings-2, sector sectors-1 |
| SphereLattice.PushedQuad | PhysXPitagora/PhysXPitagora/stl_output.cpp:253-261 | one step pushes the four corners of quad r*sectors+s, and its return test holds exactly when that quad is the last one the count allows |
| SphereLattice.PushRing | PhysXPitagora/PhysXPitagora/stl_output.cpp:253-262 | one pass of the sector loop either returns with the complete list or extends the list by one ring of quads, and never completes the ring before the last one |
| SphereLattice.CreateSphereIndices | PhysXPitagora/PhysXPitagora/stl_output.cpp:252-262 | the index list is the corner lists of the first QuadCount quads in order, which is (rings-1)*sectors quads |
| SphereLattice.IndexPrefixAt | PhysXPitagora/PhysXPitagora/stl_output.cpp:253-257 | entry j of the index list is corner j mod 4 of quad j div 4, stored as `short` |
| SphereLattice.CreatedIndices | PhysXPitagora/PhysXPitagora/stl_output.cpp:252-262 | the generated list has 4*QuadCount entries, each corner j mod 4 of quad j div 4 |
| SphereLattice.CreateSphereVertices | PhysXPitagora/PhysXPitagora/stl_output.cpp:236-250 | both arrays have 3*rings*sectors slots; slot k < rings*sectors holds the point of ring k div sectors, sector k mod sectors, in both arrays; every later slot is never written |
| SphereLattice.CreateSphereVerticesAndNormals | PhysXPitagora/PhysXPitagora/stl_output.cpp:229-263 | the vertex fill and the index list together |
| SphereLattice.QuadInFilledPart | PhysXPitagora/PhysXPitagora/stl_output.cpp:236-261 | with at least two rings there are (rings-1)*sectors quads; every corner is at most rings*sectors; all four corners are written slots exactly when the quad is not the last; the last quad's corner 2 is the first unwritten slot |
| SphereLattice.QuadCornerPoints | PhysXPitagora/PhysXPitagora/stl_output.cpp:242-257 | the lattice points behind a quad's corners; at the last sector the sector is not wrapped, and corners 1 and 2 land on sector 0 of the next ring and of the ring after it |
| SphereLattice.IndicesFitShort | PhysXPitagora/PhysXPitagora/stl_output.cpp:252-257 | when rings*sectors < 2^15 the `short` storage loses nothing |
| SphereMesh.QuadTriangles | PhysXPitagora/PhysXPitagora/stl_output.cpp:194-211 | a quad is split into exactly two triangles along the diagonal from corner 2 to corner 0: both triangles contain that edge |
| SphereMesh.SpherePlace | PhysXPitagora/PhysXPitagora/stl_output.cpp:179-181 | with no rotation, a placed point minus the pose's translation is the unit-sphere point scaled by the radius |
| SphereMesh.TessellateQuads | PhysXPitagora/PhysXPitagora/stl_output.cpp:192-212 | the loop visits every quad but the last and pushes exactly its two triangles each time, 2*(quads-1) in all |
| SphereMesh.ReadsStayInFilledPart | PhysXPitagora/PhysXPitagora/stl_output.cpp:192-209 | every index the loop reads is below rings*sectors, so it only reads slots the fill loop wrote |
| SphereMesh.SlotIsCorner | PhysXPitagora/PhysXPitagora/stl_output.cpp:196-209 | the slot named by entry 4q+m holds the lattice point of corner m of quad q |
| SphereMesh.TessellationFollowsLattice | PhysXPitagora/PhysXPitagora/stl_output.cpp:192-212 | what the loop computes from the arrays equals the triangles stated directly over the lattice: corners 2, 1, 0 with the normal from corners 0, 1, 2, then corners 3, 2, 0 with the normal from corners 0, 2, 2 |
| SphereMesh.CreateLattice | PhysXPitagora/PhysXPitagora/stl_output.cpp:229-263 | the buffers hold the lattice and the exact corner lists of (rings-1)*sectors quads |
| SphereMesh.LatticeIsTessellated | PhysXPitagora/PhysXPitagora/stl_output.cpp:191-212 | for such buffers the loop is safe to run and yields the lattice's triangles |
| SphereMesh.TessellateLattice | PhysXPitagora/PhysXPitagora/stl_output.cpp:186-212 | building the lattice and tessellating it yields the lattice triangles of all quads but the last |
| SphereMesh.WriteLatticeSphere | PhysXPitagora/PhysXPitagora/stl_output.cpp:177-214 | a rings x sectors sphere writes 2*((rings-1)*sectors - 1) facets, placed by the radius and the pose |
| SphereMesh.WriteSphere | PhysXPitagora/PhysXPitagora/stl_output.cpp:177-214 | `writeSphere` returns 758 = 2*(19*20 - 1), the count for the fixed 20 x 20 lattice |
| SphereMesh.RepeatedMean | PhysXPitagora/PhysXPitagora/stl_output.cpp:208-209 | the mean of a, b, b equals the mean of a, b, c exactly when b = c |
| SphereMesh.SecondNormalSkipsCornerThree | PhysXPitagora/PhysXPitagora/stl_output.cpp:203-211 | the second triangle's normal is the mean of corners 0, 2, 2; it equals the mean of the triangle's own corners 0, 2, 3 exactly when corners 2 and 3 are the same point |
| StlText.FacetLines | PhysXPitagora/PhysXPitagora/stl_output.cpp:265-283 | one triangle's block reads back as exactly that triangle and holds no `solid` or `endsolid` line |
| StlText.SolidLines | PhysXPitagora/PhysXPitagora/stl_output.cpp:216-225 | t triangles give exactly 7t lines |
| StlText.SolidLinesConcat | PhysXPitagora/PhysXPitagora/stl_output.cpp:219-223 | writing two lists one after the other writes their concatenation |
| StlText.WriteSolid | PhysXPitagora/PhysXPitagora/stl_output.cpp:216-225 | one block per triangle, in input order, and the return value is the number of triangles |
| StlText.ParseSolidLines | PhysXPitagora/PhysXPitagora/stl_output.cpp:265-283 | reading the written blocks back gives the same triangles in the same order: normal, then vertices 0, 1, 2 |
| StlText.ParsedLinesAreSolidLines | PhysXPitagora/PhysXPitagora/stl_output.cpp:265-283 | any lines that read back as triangles are exactly what writing those triangles produces |
| StlText.ParseSolidFileRoundTrip | PhysXPitagora/PhysXPitagora/stl_output.cpp:99-113 | a `solid` ... `endsolid` file reads back as its triangles |
| StlText.BlocksHaveNoWrapper | PhysXPitagora/PhysXPitagora/stl_output.cpp:265-283 | facet blocks never contain a `solid` or `endsolid` line |
| StlText.Render | PhysXPitagora/PhysXPitagora/stl_output.cpp:265-283 | every printed line starts with the keyword of its kind (`solid`, `facet`, `outer`, `vertex`, `endloop`, `endfacet`, `endsolid`) |
| StlText.RenderedKindIsUnambiguous | PhysXPitagora/PhysXPitagora/stl_output.cpp:267-282 | the keyword of a printed line identifies its kind, whatever the numbers print as |
| Decimal.Decimal | PhysXPitagora/PhysXPitagora/stl_output.cpp:100-101 | the ordinal is spelled as one or more decimal digits with no leading zero |
| Decimal.ActorFileName | PhysXPitagora/PhysXPitagora/stl_output.cpp:100-102 | actor i's split-mode file name is the output path, then more text, then `.stl` |
| Decimal.AggregateFileName | PhysXPitagora/PhysXPitagora/stl_output.cpp:92 | the aggregated file name is the output path followed by `output.stl` |
| Decimal.DecimalRoundTrip | PhysXPitagora/PhysXPitagora/stl_output.cpp:100-101 | the ordinal's decimal spelling reads back as the ordinal |
| Decimal.DecimalInjective | PhysXPitagora/PhysXPitagora/stl_output.cpp:100-101 | two ordinals have the same spelling exactly when they are equal |
| Decimal.ActorFileNamesDistinct | PhysXPitagora/PhysXPitagora/stl_output.cpp:97-102 | two actors get the same split-mode file exactly when they are the same actor |
| Decimal.ActorFileIsNotAggregateFile | PhysXPitagora/PhysXPitagora/stl_output.cpp:90-102 | no split-mode file is the aggregated `output.stl` |
| StlExport.OnlyFirstShapeCounts | PhysXPitagora/PhysXPitagora/stl_output.cpp:124-127 | the shapes after an actor's first change nothing it writes |
| StlExport.ActorTriangles | PhysXPitagora/PhysXPitagora/stl_output.cpp:121-151 | an actor contributes 12 triangles when its first shape is a box, 758 when it is a sphere, and none otherwise |
| StlExport.WriteRigidActor | PhysXPitagora/PhysXPitagora/stl_output.cpp:121-151 | writes the first shape's facet blocks and returns their number |
| StlExport.CountSumIsFacetCount | PhysXPitagora/PhysXPitagora/stl_output.cpp:95-107 | the sum of the per-actor returns is the number of facets of all actors together |
| StlExport.OneFilePerActor | PhysXPitagora/PhysXPitagora/stl_output.cpp:97-102 | split mode uses exactly n distinct file names for n actors |
| StlExport.NextActorFileName | PhysXPitagora/PhysXPitagora/stl_output.cpp:97-102 | actor n's file name is new among the first n |
| StlExport.SplitStep | PhysXPitagora/PhysXPitagora/stl_output.cpp:97-113 | writing actor n's file keeps the earlier actors' files and every unrelated file |
| StlExport.OutputSplit | PhysXPitagora/PhysXPitagora/stl_output.cpp:84-119 | split mode: file i holds `solid`, actor i's facet blocks and `endsolid` (only the wrapper when the actor wrote nothing); no other file changes; the total is the sum of the per-actor returns |
| StlExport.OutputAggregated | PhysXPitagora/PhysXPitagora/stl_output.cpp:84-119 | aggregated mode: `output.stl` holds all actors' facet blocks in buffer order, with no wrapper, and nothing else; no other file changes; the total is the sum of the per-actor returns |
| StlExport.OutputStl | PhysXPitagora/PhysXPitagora/stl_output.cpp:84-119 | the layout the `divide_file` flag selects, and the total |
| StlExport.SplitFilesReadBack | PhysXPitagora/PhysXPitagora/stl_output.cpp:97-113 | each split-mode file reads back, as a whole solid, as exactly its actor's triangles |
| StlExport.AggregatedFileReadsBack | PhysXPitagora/PhysXPitagora/stl_output.cpp:90-107 | the aggregated file reads back as all actors' triangles in buffer order, as many as the reported total; having no `solid`/`endsolid` lines, it does not read as a whole solid |

## Left out

- Floating point: every coordinate is a real. Single-precision rounding, the
  `/ 3.0f` of the normal average and the `float` step constants `kR` and `kS`
  are not modelled.
- The sine and cosine of the sphere lattice are left out. The lattice point of
  ring r, sector s is the parameter `point`.
- The rotation part of a pose is an opaque function. Only the unrotated case
  is proved geometrically (`BoxMesh.UnrotatedBoxFacetsLieOnFaces`).
- `PxShapeExt::getGlobalPose` and the shape queries belong to the physics
  library. Each shape carries its global pose and geometry as data.
- Number formatting (`fixed << setprecision(3)`, sticky on the stream) is left
  out. Lines carry their numbers, and `Render` takes the spelling as a
  parameter.
- The console messages of `outputStl` and `writeRigidActor` are left out.
- Stream failures are not modelled: opening or writing a file always
  succeeds.
- The aggregated stream is never closed by the program; this is not modelled.
- Memory management is left out: the `new[]` / `delete` mismatch and the
  leaked `shapes` array.
- `SphereMesh.TessellateQuads`: requires at least one quad. With an empty
  index list, `indices.size() - 4` wraps around `size_t` and the loop would
  run off the list. `createSphereVerticesAndNormals` never yields an empty
  list for two or more rings and at least one sector, the sizes this model
  takes.
- `SphereMesh.WriteLatticeSphere`: takes at least two rings, at least one
  sector and fewer than 2^15 lattice points, so that the `short` indices do
  not wrap. `writeSphere` itself fixes 20 x 20. `createSphereVerticesAndNormals`
  is modelled for every size, wrap-around included.
- `SphereMesh.SlotAt` gives the origin for a slot that was never written. The
  program would read an indeterminate value there; the model proves such a
  read never happens.
- `StlExport.WriteRigidActor`: requires at least one shape. The program reads
  `shapes[0]` unchecked, so an actor without shapes has no defined behaviour.
- The scene programs that build and simulate actors are not part of this
  model. The one call of `outputStl` there is commented out.
