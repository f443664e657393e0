# Procedural mesh building, spawning and mushroom breeding — a Dafny model

This project models the core of a Unity assignment on procedural design:

- the `MeshBuilder` that accumulates a mesh in three append-only lists (positions, UVs, triangle indices), with double-sided triangles, quads, cuboids, an automatic vertical UV range and the wrap pass `ShiftUvsTowardsOrigin`;
- the two ear-clipping triangulators (the one in `Extrude`, which restarts its scan after every ear, and the one in `MeshBuilder`, which resumes it);
- the extrusion of a polygon into a prism (`Extrude.UpdateMesh`);
- the lathe (`LatheMeshBuilder`), which sweeps a profile around an axis;
- the cube stacks and cube trees of `CreateCubes`;
- the free-cell pool of `RandomSpawner` and the `GridCell` that gives a cell back;
- the `UvRange` value, the `ArgMin` fold of `EnumerableExtensions`;
- the crossover, mutation, parent choice and culling of `MushroomField`.

Floats are exact reals. Matrices, quaternions and the automatic UV projection are opaque values or function parameters. Random draws and ray casts are parameters. Where the source changes state in place (the builder's lists, the spawner's pool, the mushroom field, a gene array) the model is a class whose methods are proved to perform a pure step function on the old state; the properties are proved about those functions.

Modules: `Wrappers`, `Geometry`, `Lists` (shared helpers); `UvRanges`, `UvWrap`, `MeshModel` (mesh data and builder steps as functions); `MeshBuilding` (the builder class); `EarClipping` (both triangulators); `Extrusion`, `Lathe`, `Cubes` (the drivers); `Spawning`; `Enumerables`; `Mushrooms`.

Where the repository's own description and its code differ, the model follows the code:

- `LatheMeshBuilder.Add` adds no extra seam column, joins no ring to the previous call's rings, and overwrites `previousRotated` instead of composing it.
- The clones of a double-sided triangle pass through the offset, the UV remap and the wrap pass again.
- `Extrude.TriangulatePolygon` refuses only fewer than two points, although its message speaks of three.

## Model

| member | source | states |
|---|---|---|
| Lists.RemoveAt | Assets/MyScripts/RandomSpawner.cs:68 | `List.RemoveAt`: one shorter, the elements before `k` in place and the ones after it moved down by one |
| Lists.RemoveAtTakesOne | Assets/MyScripts/RandomSpawner.cs:68 | removing at `k` takes exactly the one element `s[k]` out of the multiset |
| UvRanges.RangeFloat.Lerp | Assets/MyScripts/MeshBuilder.cs:77 | interpolation gives `min` at 0 and `max` at 1 |
| UvRanges.UvRange.Horizontal | Assets/MyScripts/UvRange.cs:12 | the horizontal range starts at the rect's x and spans its width |
| UvRanges.UvRange.Vertical | Assets/MyScripts/UvRange.cs:13 | the vertical range starts at the rect's y and spans its height |
| UvRanges.NewUvRange | Assets/MyScripts/UvRange.cs:15-20 | the constructor stores the rect and both repeat counts unchanged |
| UvRanges.DefaultRepeats | Assets/MyScripts/UvRange.cs:15 | omitted repeat counts are 1 |
| UvRanges.VerticalSpansRect | Assets/MyScripts/UvRange.cs:13 | for a rect of non-negative height, interpolating through the vertical range at t in [0,1] stays between yMin and yMax |
| UvWrap.UvRangeY | Assets/MyScripts/MeshBuilder.cs:26 | without a range the vertical range is [0, 1]; with one it starts at the rect's y and spans its height |
| UvWrap.MaxOf | Assets/MyScripts/MeshBuilder.cs:268 | the largest listed `y`: a member of the list and no smaller than any of it |
| UvWrap.MinOf | Assets/MyScripts/MeshBuilder.cs:268 | the smallest listed `y`: a member of the list and no larger than any of it |
| UvWrap.ApplyShiftAt | Assets/MyScripts/MeshBuilder.cs:285-288 | the shift loop keeps every `x` and moves each `y` by the shift once per time its index is listed |
| UvWrap.ZeroShift | Assets/MyScripts/MeshBuilder.cs:270-288 | a zero shift leaves every UV as it was |
| UvWrap.ApplyShiftDistinct | Assets/MyScripts/MeshBuilder.cs:283-288 | with distinct indices, the listed UVs move by exactly the shift in `y` and every other UV is unchanged |
| UvWrap.HalfTowardZero | Assets/MyScripts/MeshBuilder.cs:263 | C#'s `numTiles / 2` rounds towards zero: twice the result lies within one of the count, on zero's side |
| UvWrap.ZeroCountMovesNothing | Assets/MyScripts/MeshBuilder.cs:262-288 | with `numRepeatsVertical == 0` the target is NaN, neither comparison holds, and the pass leaves every UV as it was |
| UvWrap.FlatRangeMovesNothing | Assets/MyScripts/MeshBuilder.cs:266-288 | with a zero rect height the pass is finite only when the midpoint already sits on the target, and then it moves nothing |
| UvWrap.WrapPassMovesByTiles | Assets/MyScripts/MeshBuilder.cs:262-288 | the wrap pass moves every listed `y` by the same whole number of tile heights and leaves `x` and all other UVs alone |
| UvWrap.WrapPassKeepsShape | Assets/MyScripts/MeshBuilder.cs:283-288 | whatever the tile count, the pass keeps every pairwise difference of the listed `y` values |
| UvWrap.MidYShift | Assets/MyScripts/MeshBuilder.cs:268 | shifting the listed vertices by `s` moves the midpoint of their `y` extent by `s` |
| UvWrap.ShiftedExtremes | Assets/MyScripts/MeshBuilder.cs:268 | shifting every value by `s` shifts the maximum and the minimum by `s` |
| UvWrap.TileStepsLand | Assets/MyScripts/MeshBuilder.cs:272-279 | the floored step count brings the current value within one tile height of the target without passing it |
| UvWrap.WrapPassLands | Assets/MyScripts/MeshBuilder.cs:262-279 | when some listed `y` is out of range, the pass lands the midpoint within one tile height of the target |
| UvWrap.TileHeightSign | Assets/MyScripts/MeshBuilder.cs:266 | the tile height is positive exactly when the rect's height is non-zero and has the sign of the tile count |
| UvWrap.TileStepsNear | Assets/MyScripts/MeshBuilder.cs:272-279 | with a positive tile height, a value already within one tile of the target takes zero steps |
| UvWrap.WrapPassIdempotent | Assets/MyScripts/MeshBuilder.cs:256-279 | for a zero tile count or a positive tile height, a second pass over the same distinct vertices changes nothing |
| UvWrap.DownwardRangeAlternates | Assets/MyScripts/MeshBuilder.cs:272-279 | with a negative rect height a single vertex flips between 0.25 and -0.75 on every pass, so the pass is not idempotent there |
| UvWrap.SingleVertexPass | Assets/MyScripts/MeshBuilder.cs:260-288 | a single vertex outside the range moves by the step count times the tile height |
| MeshModel.RemapWithoutRange | Assets/MyScripts/MeshBuilder.cs:26 | without an automatic range the UV remap leaves a UV unchanged |
| MeshModel.AppendVertex | Assets/MyScripts/MeshBuilder.cs:71-81 | AddVertex appends exactly one position and one UV, keeps all earlier entries and the triangles, and keeps the lists parallel and every index valid |
| MeshModel.CloneVertex | Assets/MyScripts/MeshBuilder.cs:83-86 | Clone appends exactly one vertex and keeps the lists parallel |
| MeshModel.CloneIsCopyIff | Assets/MyScripts/MeshBuilder.cs:83-86 | a clone equals its source vertex, position and UV, exactly when the offset is zero and the vertical remap fixes the source's `y` |
| MeshModel.CloneWithDefaults | Assets/MyScripts/MeshBuilder.cs:83-86 | with no offset and no range a clone is an exact copy |
| MeshModel.IndicesOfThree | Assets/MyScripts/MeshBuilder.cs:297 | three indices are valid exactly when each one is |
| MeshModel.TriangleInternal | Assets/MyScripts/MeshBuilder.cs:293-303 | AddTriangleInternal appends exactly `v0, v1, v2`, leaves the positions alone and keeps the indices valid |
| MeshModel.Triangle | Assets/MyScripts/MeshBuilder.cs:94-101 | AddTriangle adds no vertex and 3 indices single-sided, or 3 vertices and 6 indices double-sided, keeping the mesh well formed |
| MeshModel.TriangleSingleSided | Assets/MyScripts/MeshBuilder.cs:94-98 | single-sided, AddTriangle appends exactly `v0, v1, v2` and no vertex |
| MeshModel.TriangleDoubleSided | Assets/MyScripts/MeshBuilder.cs:98-100 | double-sided, it also appends clones of `v0, v2, v1`, offset once more, and the reverse triangle on them |
| MeshModel.EarTriangles | Assets/MyScripts/MeshBuilder.cs:330-334 | the ears the triangulation emits append exactly their indices and no vertex |
| MeshModel.EarTriangleIsOnePass | Assets/MyScripts/MeshBuilder.cs:330-334 | for a zero tile count or a positive tile height, the two wrap passes before an ear's triangle act like one |
| MeshModel.Quad | Assets/MyScripts/MeshBuilder.cs:170-188 | AddQuad adds 6 indices single-sided, or 6 vertices and 12 indices double-sided, keeping the mesh well formed |
| MeshModel.SplitQuad | Assets/MyScripts/MeshBuilder.cs:177-187 | the split along the 00-11 diagonal: six indices, the triangle `(v00, v11, v10)` then `(v00, v01, v11)`; the lathe's rings and the cuboid's faces use this one split |
| MeshModel.QuadSplit | Assets/MyScripts/MeshBuilder.cs:177-187 | single-sided, AddQuad appends exactly SplitQuad's six indices |
| MeshModel.VertexTriangle | Assets/MyScripts/MeshBuilder.cs:149-160 | the position-and-UV triangle adds 3 or 6 vertices and 3 or 6 indices, all valid |
| MeshModel.VertexQuad | Assets/MyScripts/MeshBuilder.cs:190-203 | the position-and-UV quad adds 4 or 10 vertices and 6 or 12 indices, all valid |
| MeshModel.ProjectedTriangle | Assets/MyScripts/MeshBuilder.cs:127-147 | the projected triangle adds 3 or 6 vertices and 3 or 6 indices, all valid |
| MeshModel.ProjectedTriangleSingleSided | Assets/MyScripts/MeshBuilder.cs:142-146 | single-sided it adds its three offset corners and one triangle on exactly those |
| MeshModel.ProjectedQuad | Assets/MyScripts/MeshBuilder.cs:205-228 | the projected quad adds 4 or 10 vertices and 6 or 12 indices, all valid |
| MeshModel.ProjectedQuadSingleSided | Assets/MyScripts/MeshBuilder.cs:222-227 | single-sided it adds its four offset corners and the two triangles of the split on exactly those |
| MeshModel.Cuboid | Assets/MyScripts/MeshBuilder.cs:239-250 | AddCuboid fails exactly when it is not given 8 positions; otherwise it adds 36 indices (72 double-sided) to a well-formed mesh |
| MeshModel.CuboidSingleSided | Assets/MyScripts/MeshBuilder.cs:244-249 | the six faces in the source's order, each on its own four new corners |
| MeshModel.CuboidCounts | Assets/MyScripts/MeshBuilder.cs:239-250 | single-sided, a cuboid adds exactly 24 vertices and 36 indices |
| MeshModel.CuboidIndicesFresh | Assets/MyScripts/MeshBuilder.cs:239-250 | every index a single-sided cuboid adds is one of its 24 new vertices |
| MeshModel.CuboidTriangles | Assets/MyScripts/MeshBuilder.cs:244-249 | the cuboid's indices are the six quad splits over the 24 new vertices |
| MeshModel.DefaultAppend | Assets/MyScripts/MeshBuilder.cs:71-81 | on a default builder AddVertex appends the position and the UV unchanged |
| MeshModel.DefaultTriangle | Assets/MyScripts/MeshBuilder.cs:94-101 | on a default builder AddTriangle only appends the three indices |
| MeshModel.DefaultQuad | Assets/MyScripts/MeshBuilder.cs:170-188 | on a default builder AddQuad only appends the six indices of its split |
| MeshBuilding.MeshBuilder.constructor | Assets/MyScripts/MeshBuilder.cs:31-38 | a new builder is empty and has the default settings |
| MeshBuilding.MeshBuilder.VertexCount | Assets/MyScripts/MeshBuilder.cs:24 | `vertexCount` is the number of vertices |
| MeshBuilding.MeshBuilder.Reset | Assets/MyScripts/MeshBuilder.cs:52-65 | Reset empties all three lists and restores every default setting |
| MeshBuilding.MeshBuilder.AddVertex | Assets/MyScripts/MeshBuilder.cs:71-81 | returns the old vertex count and performs AppendVertex |
| MeshBuilding.MeshBuilder.Clone | Assets/MyScripts/MeshBuilder.cs:83-86 | returns the old vertex count and performs CloneVertex |
| MeshBuilding.MeshBuilder.ShiftUvsTowardsOrigin | Assets/MyScripts/MeshBuilder.cs:254-291 | the loop over the indices rewrites the UVs to the wrap pass's result and changes nothing else; it asks only that the pass never divide a distance by a zero tile height |
| MeshBuilding.MeshBuilder.TileShift | Assets/MyScripts/MeshBuilder.cs:262-279 | the target, tile height, midpoint and floored steps it computes give exactly the pass's shift `WrapShift` |
| MeshBuilding.MeshBuilder.ShiftVertices | Assets/MyScripts/MeshBuilder.cs:285-288 | the `foreach` moves each listed UV by the shift, in list order, and leaves the vertices, triangles and settings unchanged |
| MeshBuilding.MeshBuilder.AddTriangleInternal | Assets/MyScripts/MeshBuilder.cs:293-303 | performs TriangleInternal |
| MeshBuilding.MeshBuilder.AddTriangle | Assets/MyScripts/MeshBuilder.cs:94-101 | performs Triangle |
| MeshBuilding.MeshBuilder.AddTriangleWithUvs | Assets/MyScripts/MeshBuilder.cs:149-160 | performs VertexTriangle |
| MeshBuilding.MeshBuilder.AddProjectedTriangle | Assets/MyScripts/MeshBuilder.cs:127-147 | performs ProjectedTriangle |
| MeshBuilding.MeshBuilder.AddQuad | Assets/MyScripts/MeshBuilder.cs:170-188 | performs Quad |
| MeshBuilding.MeshBuilder.AddQuadWithUvs | Assets/MyScripts/MeshBuilder.cs:190-203 | performs VertexQuad |
| MeshBuilding.MeshBuilder.AddProjectedQuad | Assets/MyScripts/MeshBuilder.cs:205-228 | performs ProjectedQuad |
| MeshBuilding.MeshBuilder.AddCuboid | Assets/MyScripts/MeshBuilder.cs:239-250 | performs Cuboid; when it is not given 8 positions it reports the error and changes nothing |
| MeshBuilding.MeshBuilder.AddEar | Assets/MyScripts/MeshBuilder.cs:330-334 | performs EarTriangle: the wrap pass, then AddTriangleInternal |
| MeshBuilding.MeshBuilder.TriangulatePolygon | Assets/MyScripts/MeshBuilder.cs:310-345 | the loop with `i--` ends in the outcome of the resuming scan and appends exactly its triangles |
| MeshBuilding.EarAt | Assets/MyScripts/MeshBuilder.cs:316-327 | the clockwise test and the search for another corner inside the triangle together decide exactly IsEar; Extrude.cs:111-122 makes the same two tests, and its loop calls this method too |
| EarClipping.TurnRotates | Assets/MyScripts/MeshBuilder.cs:348-354 | the turn of three points is invariant under rotating them |
| EarClipping.TurnReverses | Assets/MyScripts/MeshBuilder.cs:348-354 | reversing three points negates their turn |
| EarClipping.ClockwiseCyclic | Assets/ScriptsHandout/Extrude.cs:141-147 | Clockwise is invariant under rotation, and a clockwise triple is not clockwise when reversed |
| EarClipping.Clockwise | Assets/MyScripts/MeshBuilder.cs:347-354 | a clockwise triple has three distinct points (collinear ones are not clockwise), and it is clockwise exactly when the reversed walk turns anticlockwise; Extrude.cs:140-147 is the same test |
| EarClipping.InsideTriangle | Assets/MyScripts/MeshBuilder.cs:356-363 | the test includes the boundary: each of the triangle's own corners counts as inside; Extrude.cs:149-156 is the same test |
| EarClipping.InsideEitherWinding | Assets/ScriptsHandout/Extrude.cs:150-156 | for a non-degenerate triangle, InsideTriangle does not depend on the winding |
| EarClipping.ScanFrom | Assets/ScriptsHandout/Extrude.cs:109-137 | the scan keeps points and indices the same length, never grows them, and never reports too few points |
| EarClipping.Triangulate | Assets/ScriptsHandout/Extrude.cs:102-138 | the restarting triangulation refuses the input exactly when it has fewer than 2 points |
| EarClipping.TriangulateResuming | Assets/MyScripts/MeshBuilder.cs:310-345 | the resuming triangulation refuses the input exactly when it has fewer than 3 points |
| EarClipping.NoEarBelowThree | Assets/ScriptsHandout/Extrude.cs:111-122 | a polygon of at most 2 points has no ear |
| EarClipping.ScanEmitsTriples | Assets/ScriptsHandout/Extrude.cs:125-127 | the scan emits whole triangles |
| EarClipping.ScanCounts | Assets/ScriptsHandout/Extrude.cs:109-131 | a successful scan had at least 3 points, emits exactly 3(n-2) indices and leaves 2 points |
| EarClipping.ScanUsesInputIndices | Assets/ScriptsHandout/Extrude.cs:125-130 | every emitted and every remaining index comes from the input indices |
| EarClipping.FirstTriangleIsEar | Assets/ScriptsHandout/Extrude.cs:117-127 | the first emitted triangle is an ear of the input at or after the start position |
| EarClipping.RestartFailsOnlyWithoutEar | Assets/ScriptsHandout/Extrude.cs:129-137 | the restarting scan gives up only when the polygon left has no ear at all |
| EarClipping.ScanClipsEars | Assets/ScriptsHandout/Extrude.cs:109-134 | every triple either scan emits, success or not, was an ear of the outline left at the moment it was clipped (ClipsEars) |
| EarClipping.TriangulateOutcome | Assets/ScriptsHandout/Extrude.cs:102-138 | whole triangles, 3(n-2) indices on success, only input indices, failure only without an ear, and every emitted triangle an ear of the outline at the time it was clipped |
| EarClipping.TwoPointsFail | Assets/ScriptsHandout/Extrude.cs:104-137 | two points pass the guard but find no ear |
| EarClipping.AnticlockwiseTriangleFails | Assets/ScriptsHandout/Extrude.cs:109-137 | an anticlockwise triangle fails and emits nothing |
| EarClipping.ClockwiseTriangleSucceeds | Assets/ScriptsHandout/Extrude.cs:117-131 | a clockwise triangle succeeds with exactly its own indices |
| EarClipping.NotEarWitness | Assets/ScriptsHandout/Extrude.cs:119-122 | a corner with another point inside or on its triangle is not an ear |
| EarClipping.EarOfThree | Assets/ScriptsHandout/Extrude.cs:117-122 | a clockwise triangle is an ear of itself |
| EarClipping.ScanSkips | Assets/ScriptsHandout/Extrude.cs:117-122 | a corner that is not an ear is passed over |
| EarClipping.ScanClips | Assets/ScriptsHandout/Extrude.cs:124-134 | an ear of 4 or more points is emitted, its middle point leaves both lists, and the scan goes on from 0 (restart) or the same position (resume) |
| EarClipping.ScanFinishes | Assets/ScriptsHandout/Extrude.cs:124-131 | an ear of the last three points ends the scan successfully |
| EarClipping.ResumeGivesUpOnNotch | Assets/MyScripts/MeshBuilder.cs:341 | on a simple clockwise pentagon the resuming scan gives up although the triangle left is an ear |
| EarClipping.RestartTriangulatesNotch | Assets/ScriptsHandout/Extrude.cs:134 | the restarting scan triangulates that pentagon fully |
| Extrusion.TriangulatePolygon | Assets/ScriptsHandout/Extrude.cs:102-138 | the loop with `i = -1` ends in the outcome of the restarting scan |
| Extrusion.EarHasThreeCorners | Assets/ScriptsHandout/Extrude.cs:117-122 | an ear needs at least three points |
| Extrusion.Iota | Assets/ScriptsHandout/Extrude.cs:42-46 | the indices `0 .. n-1` in order |
| Extrusion.CornerIndices | Assets/ScriptsHandout/Extrude.cs:42-46 | the loop builds exactly `0 .. n-1` |
| Extrusion.BackFaceMirrors | Assets/ScriptsHandout/Extrude.cs:75-78 | each back triangle is its front triangle offset by `n` with the winding reversed |
| Extrusion.BackFaceRange | Assets/ScriptsHandout/Extrude.cs:75-78 | every back-face index addresses the back vertices `n .. 2n-1` |
| Extrusion.SideVertexAt | Assets/ScriptsHandout/Extrude.cs:83-89 | the four vertices of side `i` are corners `i` and `i+1 mod n`, at depth 0 then at the height |
| Extrusion.SideTrianglesAt | Assets/ScriptsHandout/Extrude.cs:91-92 | side `i` emits `(v, v+2, v+1)` and `(v+1, v+2, v+3)` on its own four vertices |
| Extrusion.SideTrianglesRange | Assets/ScriptsHandout/Extrude.cs:81-93 | every side index addresses a side vertex |
| Extrusion.PrismIsWellFormed | Assets/ScriptsHandout/Extrude.cs:54-93 | the prism has 6n vertices, 2t + 6n indices, parallel lists and only valid indices |
| Extrusion.BackTriangleMirrorsFront | Assets/ScriptsHandout/Extrude.cs:58-78 | a back triangle's corners sit above the front triangle's corners, in reverse order |
| Extrusion.SideQuadJoinsEdge | Assets/ScriptsHandout/Extrude.cs:81-93 | side `i` is a quad joining edge `(i, i+1 mod n)` of the front face to the same edge of the back face |
| Extrusion.SideQuadTriangles | Assets/ScriptsHandout/Extrude.cs:91-92 | the six indices side `i` contributes |
| Extrusion.SideQuadVertices | Assets/ScriptsHandout/Extrude.cs:85-89 | the four vertices side `i` contributes |
| Extrusion.PrismCounts | Assets/ScriptsHandout/Extrude.cs:52-93 | after a successful triangulation: at least 3 corners, 6n vertices and 12n - 12 indices, all valid |
| Extrusion.AddFaceVertices | Assets/ScriptsHandout/Extrude.cs:58-61 | the loop appends the polygon's corners at the given depth with blank UVs |
| Extrusion.AddFrontTriangles | Assets/ScriptsHandout/Extrude.cs:63-67 | the loop appends exactly the triangulation's indices |
| Extrusion.AddBackTriangles | Assets/ScriptsHandout/Extrude.cs:75-78 | the loop appends exactly the mirrored back face |
| Extrusion.AddSide | Assets/ScriptsHandout/Extrude.cs:83-92 | one side: four new corners and its two triangles |
| Extrusion.AddSides | Assets/ScriptsHandout/Extrude.cs:81-93 | the loop appends all side vertices and side triangles |
| Extrusion.UpdateMesh | Assets/ScriptsHandout/Extrude.cs:37-96 | fails exactly when the triangulation does, with its status; otherwise builds exactly the prism |
| Lathe.SweptCount | Assets/MyScripts/LatheMeshBuilder.cs:30-46 | `count` profile points add `count * numSplines` vertices |
| Lathe.RingVertexAt | Assets/MyScripts/LatheMeshBuilder.cs:37-45 | the `s`-th vertex of a ring is the point placed on spline `s` |
| Lathe.GetIndex | Assets/MyScripts/LatheMeshBuilder.cs:91-95 | for a spline of the ring, the index minus the offset divides by `numSplines` into the profile point and leaves the spline: the 2D location is recovered from the 1D index |
| Lathe.GetIndexFindsVertex | Assets/MyScripts/LatheMeshBuilder.cs:92-95 | GetIndex(s, p) addresses exactly the vertex of spline `s` on profile point `p` |
| Lathe.RingStripAt | Assets/MyScripts/LatheMeshBuilder.cs:73-81 | quad `s` of a ring joins splines `s` and `s+1` between points `p-1` and `p` |
| Lathe.RingJoinsNeighbours | Assets/MyScripts/LatheMeshBuilder.cs:71-89 | a ring has `numSplines` quads, each joining spline `s` to spline `s+1 mod numSplines` |
| Lathe.RingsCount | Assets/MyScripts/LatheMeshBuilder.cs:51-54 | `count` profile points add `6 * numSplines * (count - 1)` indices |
| Lathe.IndexInCall | Assets/MyScripts/LatheMeshBuilder.cs:92-95 | every GetIndex of the call lies in `[offset, offset + count * numSplines)` |
| Lathe.RingsStayInCall | Assets/MyScripts/LatheMeshBuilder.cs:51-54 | every ring index lies among the call's own vertices: no ring joins two calls |
| Lathe.NoSplinesWrapQuad | Assets/MyScripts/LatheMeshBuilder.cs:83-88 | with no splines, two points add no vertex yet a quad on index `offset - 1` |
| Lathe.LatheMeshBuilder.constructor | Assets/MyScripts/LatheMeshBuilder.cs:11-17 | a new lathe has an empty default builder and the identity as previous transform |
| Lathe.LatheMeshBuilder.Reset | Assets/MyScripts/LatheMeshBuilder.cs:20 | empties the builder and leaves `previousRotated` alone |
| Lathe.LatheMeshBuilder.Add | Assets/MyScripts/LatheMeshBuilder.cs:23-55 | appends the swept vertices and the rings from the entry vertex count; `previousRotated` becomes the last point's segment transform |
| Lathe.LatheMeshBuilder.AddProfileVertices | Assets/MyScripts/LatheMeshBuilder.cs:30-46 | the outer vertex loop appends one ring per profile point |
| Lathe.LatheMeshBuilder.AddRing | Assets/MyScripts/LatheMeshBuilder.cs:37-45 | the inner loop appends one vertex per spline |
| Lathe.LatheMeshBuilder.AddRings | Assets/MyScripts/LatheMeshBuilder.cs:51-54 | the ring loop appends a ring per point after the first |
| Lathe.LatheMeshBuilder.AddTrianglesRing | Assets/MyScripts/LatheMeshBuilder.cs:71-89 | appends the strip quads and the wrap quad |
| Cubes.CubeIndicesFresh | Assets/ScriptsHandout/CreateCubes.cs:143-155 | a cube's indices are exactly its own 8 vertices |
| Cubes.CubesIndicesAt | Assets/ScriptsHandout/CreateCubes.cs:143-155 | the `i`-th cube of a batch uses the `i`-th block of 8 vertices |
| Cubes.CubesIndicesInBatch | Assets/ScriptsHandout/CreateCubes.cs:143-155 | every index of a batch addresses a vertex of that batch |
| Cubes.WithCubesAppend | Assets/ScriptsHandout/CreateCubes.cs:110-115 | adding two batches of cubes one after the other is adding their concatenation |
| Cubes.WithCubesIsWellFormed | Assets/ScriptsHandout/CreateCubes.cs:132-156 | adding cubes keeps the mesh well formed, its indices valid, and adds 8 vertices per cube |
| Cubes.SeriesAt | Assets/ScriptsHandout/CreateCubes.cs:107-116 | the `k`-th of a series' `count` transforms is the start composed with the steps cycled by `k mod |steps|` |
| Cubes.GeometricSumFront | Assets/ScriptsHandout/CreateCubes.cs:121-127 | one cube plus `k` subtrees of depth `d - 1` |
| Cubes.BranchesCount | Assets/ScriptsHandout/CreateCubes.cs:124-127 | `k` branches of depth `d - 1` hold `k` times the geometric sum |
| Cubes.TreeCount | Assets/ScriptsHandout/CreateCubes.cs:118-128 | a tree of depth `s` over `k` steps has `1 + k + ... + k^s` cubes |
| Cubes.StackSteps | Assets/ScriptsHandout/CreateCubes.cs:67-92 | the tree stack has 2 transforms, every other stack type 1 |
| Cubes.AddCube | Assets/ScriptsHandout/CreateCubes.cs:132-156 | appends the 8 transformed corners and the 12 triangles on them |
| Cubes.AddCubeCorners | Assets/ScriptsHandout/CreateCubes.cs:134-141 | the 8 AddVertex calls return consecutive indices and append the 8 corners |
| Cubes.AddCubeFaces | Assets/ScriptsHandout/CreateCubes.cs:143-155 | the 12 AddTriangle calls append exactly their triples |
| Cubes.CubeVerticesInOrder | Assets/ScriptsHandout/CreateCubes.cs:134-141 | eight single appends are the cube's corner list |
| Cubes.CubeTrianglesInOrder | Assets/ScriptsHandout/CreateCubes.cs:143-155 | the twelve triples are the cube's index list |
| Cubes.AddSeriesCube | Assets/ScriptsHandout/CreateCubes.cs:112 | the cube added at step `k` extends the first `k` cubes of the series to the first `k + 1` |
| Cubes.AddCubeSeries | Assets/ScriptsHandout/CreateCubes.cs:107-116 | adds one cube per step, the `k`-th at the series' `k`-th transform; when steps are wanted but the list is empty it adds the first cube and then fails (a modulo by zero) |
| Cubes.AddCubeTree | Assets/ScriptsHandout/CreateCubes.cs:118-128 | adds exactly the cubes of the tree, root first, depth first |
| Cubes.AddSubtrees | Assets/ScriptsHandout/CreateCubes.cs:124-127 | the `foreach` adds, step by step in list order, the subtree one level shallower of the cube times that step |
| Cubes.UpdateMesh | Assets/ScriptsHandout/CreateCubes.cs:48-105 | picks the scene or stack transforms, builds a tree for Branch and a series otherwise, and fails exactly on an alternating series over an empty list |
| Spawning.Rem | Assets/MyScripts/RandomSpawner.cs:70 | C#'s remainder and quotient recombine to the dividend |
| Spawning.Side | Assets/MyScripts/RandomSpawner.cs:36-37 | the side is the floor of range / cellSize, but at least 1 |
| Spawning.Cells | Assets/MyScripts/RandomSpawner.cs:41 | the pool `0 .. n-1` in order |
| Spawning.CellsAreTheGrid | Assets/MyScripts/RandomSpawner.cs:41 | the fresh pool is sorted, repeat-free and holds exactly the grid's cells |
| Spawning.GridCoordinates | Assets/MyScripts/RandomSpawner.cs:70-71 | a cell's column and row lie in `[0, side)` and recombine to the cell |
| Spawning.CellPosition | Assets/MyScripts/RandomSpawner.cs:70-76 | the drop point is `maxHeight` above the spawner and, for a cell of the grid, at most `side / 2` cells before and `(side - 1) / 2` cells after it along x and z: the grid is centred on the spawner |
| Spawning.CellPositionIdentifiesCell | Assets/MyScripts/RandomSpawner.cs:70-77 | two cells get the same drop position only when they are the same cell |
| Spawning.GridPointIdentifiesCell | Assets/MyScripts/RandomSpawner.cs:73-77 | distinct grid coordinates give distinct positions |
| Spawning.SearchSorted | Assets/MyScripts/RandomSpawner.cs:103 | in a sorted pool a failed search means the key is absent |
| Spawning.BinarySearch | Assets/MyScripts/RandomSpawner.cs:103 | a non-negative result is a position holding the key |
| Spawning.Freed | Assets/MyScripts/RandomSpawner.cs:101-110 | FreeCell grows the pool by exactly one |
| Spawning.FreedAddsCell | Assets/MyScripts/RandomSpawner.cs:101-110 | FreeCell adds the cell once and keeps every other cell |
| Spawning.FreedAppendsMissingCell | Assets/MyScripts/RandomSpawner.cs:104-107 | a missing cell is appended, so the pool stays sorted exactly when no larger cell is in it |
| Spawning.FreedKeepsDuplicateSorted | Assets/MyScripts/RandomSpawner.cs:103-109 | a cell already present is inserted next to its copy and the pool stays sorted |
| Spawning.MakeThenFreeRestoresPool | Assets/MyScripts/RandomSpawner.cs:66-68 | Make followed by freeing the drawn cell gives back the same multiset of cells |
| Spawning.Spawn | Assets/MyScripts/RandomSpawner.cs:44-56 | Regenerate makes at most `numToSpawn` objects and at most as many as there were cells |
| Spawning.SpawnConsumes | Assets/MyScripts/RandomSpawner.cs:44-56 | every Make takes one cell, the failed one included; fewer objects only when the pool ran dry or a placement failed |
| Spawning.SpawnStep | Assets/MyScripts/RandomSpawner.cs:49-55 | one round: stop on an empty pool, stop after consuming a cell whose ray misses, or count one and go on |
| Spawning.RandomSpawner.constructor | Assets/MyScripts/RandomSpawner.cs:22-25 | a new spawner is reset |
| Spawning.RandomSpawner.Reset | Assets/MyScripts/RandomSpawner.cs:32-42 | the side, the cell count `side * side` and the pool `0 .. numCells-1` |
| Spawning.RandomSpawner.Make | Assets/MyScripts/RandomSpawner.cs:58-80 | nothing on an empty pool; otherwise the drawn cell leaves the pool, and an object exists exactly when the ray from above that cell hits |
| Spawning.RandomSpawner.Generate | Assets/MyScripts/RandomSpawner.cs:112-123 | an object exists exactly when the ray hits, and its GridCell is initialised with this spawner and the cell |
| Spawning.RandomSpawner.FreeCell | Assets/MyScripts/RandomSpawner.cs:101-110 | the pool becomes Freed of the old pool |
| Spawning.RandomSpawner.Regenerate | Assets/MyScripts/RandomSpawner.cs:44-56 | the countdown loop ends in Spawn's pool and count over a fresh pool |
| Spawning.GridCell.constructor | Assets/MyScripts/GridCell.cs:8-11 | a new cell is not initialised |
| Spawning.GridCell.Initialize | Assets/MyScripts/GridCell.cs:13-21 | only an uninitialised cell may be initialised; it stores the spawner and the cell |
| Spawning.GridCell.OnDestroy | Assets/MyScripts/GridCell.cs:23-29 | only an initialised cell may be destroyed; it frees its cell if the spawner is alive, otherwise nothing |
| Enumerables.Aggregate | Assets/MyScripts/EnumerableExtensions.cs:10-12 | the fold's result is an element of the sequence |
| Enumerables.ArgMin | Assets/MyScripts/EnumerableExtensions.cs:8-13 | fails exactly on an empty sequence; otherwise returns one of its elements |
| Enumerables.ArgMinIsFirstMinimum | Assets/MyScripts/EnumerableExtensions.cs:10-12 | null only when all are null; otherwise no element is smaller and every earlier element is strictly larger |
| Enumerables.ArgMinOfNonNull | Assets/MyScripts/EnumerableExtensions.cs:10-12 | over non-null elements: a minimal element, the first of the ties |
| Enumerables.ArgMinOfOne | Assets/MyScripts/EnumerableExtensions.cs:10 | a single element is returned as it is |
| Mushrooms.Crossover | Assets/MyScripts/MushroomField.cs:127-138 | the child has the parents' length, A's genes before the crossover index and B's from it on |
| Mushrooms.CrossoverExtremes | Assets/MyScripts/MushroomField.cs:133-135 | index 0 copies B and the full length copies A |
| Mushrooms.CrossoverSharesGenes | Assets/MyScripts/MushroomField.cs:134-135 | the two complementary children hold between them both parents' genes at every position |
| Mushrooms.Mutated | Assets/MyScripts/MushroomField.cs:140-149 | mutation keeps the number of genes |
| Mushrooms.MutationIsBounded | Assets/MyScripts/MushroomField.cs:142-148 | every gene is kept or scaled by its factor; it keeps its sign and its size changes by at most half |
| Mushrooms.ScaledIsBounded | Assets/MyScripts/MushroomField.cs:146 | scaling by a factor in [0.5, 1.5] keeps the sign and bounds the size |
| Mushrooms.MutationRateExtremes | Assets/MyScripts/MushroomField.cs:144 | a rate of at most 0 mutates nothing, a rate above 1 mutates every gene |
| Mushrooms.Mutate | Assets/MyScripts/MushroomField.cs:140-149 | the in-place loop leaves the array holding Mutated of its old contents |
| Mushrooms.Living | Assets/MyScripts/MushroomField.cs:68 | `RemoveAll(m => !m)`: every survivor is in the list and not destroyed, and every mushroom not destroyed survives |
| Mushrooms.LivingFilters | Assets/MyScripts/MushroomField.cs:68 | the removal is a filter: one mushroom stays exactly when not destroyed, and the survivors of a concatenation are those of the first part followed by those of the second (order and repeats kept) |
| Mushrooms.LivingKeepsOrder | Assets/MyScripts/MushroomField.cs:68 | each entry keeps its place: the survivors before it, then itself unless destroyed, then the survivors after it |
| Mushrooms.Fitness | Assets/MyScripts/MushroomField.cs:71-76 | the fitness is never positive, and it is 0 exactly when genes 5, 6 and 7 are all 0 |
| Mushrooms.ArgMinIsLeastFit | Assets/MyScripts/MushroomField.cs:71-78 | ArgMin with the fitness selector picks the first least-fit mushroom |
| Mushrooms.ParentsAreDistinct | Assets/MyScripts/MushroomField.cs:94-99 | drawing B after removing A picks a different entry |
| Mushrooms.MushroomField.constructor | Assets/MyScripts/MushroomField.cs:14-19 | a new field has no mushrooms |
| Mushrooms.MushroomField.SetParameters | Assets/MyScripts/MushroomField.cs:82-107 | drops the destroyed; with fewer than 2 left or no breeding the genes are random, otherwise the mutated crossover of two distinct parents |
| Mushrooms.MushroomField.DestroyLeastFitMushroom | Assets/MyScripts/MushroomField.cs:66-80 | drops the destroyed; picks nothing exactly when at most 2 remain, otherwise the first least-fit mushroom |

## Left out

- Automatic UV projection: the normal, the face rotation and the scaling of `AddTriangle(Vector3 x3)` and `AddQuad(Vector3 x4)` are a function parameter (`TriangleProjection`, `QuadProjection`) whose result is opaque.
- `CreateMesh`, `ApplyToMesh` and the Unity `Mesh` calls: the model ends with the three lists.
- `MeshBuilder(int estimateNumVertices)`: it only sets list capacities, which the model has no notion of.
- `triangleSubdivisionEnabled`: stored and reset, with no other effect.
- `RangeFloat` is not part of this model's sources. It is taken to interpolate without clamping and to contain `min` but not `max`.
- MeshBuilding.MeshBuilder.ShiftUvsTowardsOrigin: requires, when some listed UV is out of range and the tile count is non-zero, a non-zero rect height or a midpoint already on the target. Otherwise the C# divides a distance by a zero tile height and writes infinities times zero (NaN) into the UVs, which reals cannot represent. A zero count (NaN target, no shift) and negative counts are modelled.
- MeshModel.Shiftable: the operations that add triangles (AddTriangle, AddQuad, AddCuboid, TriangulatePolygon and the drivers) ask this per-setting form of the same condition: a zero tile count or a non-zero rect height. With a zero height and a non-zero count no UV is in the empty range, so the only faces it excludes are those whose midpoint sits exactly on the rect's `y`, where the C# shift would be 0.
- MeshBuilding.MeshBuilder.AddCuboid: Unity's `Assert.AreEqual` only logs, and release builds drop it. So the C# builds the cuboid from the first 8 of 9 or more positions. With 7 it appends the first two quads and then throws `IndexOutOfRangeException` at `pos[7]` (MeshBuilder.cs:246). With 6 or fewer it throws at the first quad (`pos[6]`), before appending anything. The model treats any count other than 8 as a failed precondition instead: an error result that appends nothing.
- MeshBuilding.MeshBuilder.TriangulatePolygon: the C# `Assert` on fewer than 3 points only logs, and the loop then finds no clockwise ear and reaches the same "No suitable triangulation" exception as a polygon without an ear (MeshBuilder.cs:344). The model reports that case as the separate status `TooFewPoints`, and the final exception becomes `NoEarFound`, returned with the lists that remain. The method returns these lists instead of shrinking the caller's.
- Extrusion.TriangulatePolygon: it returns the triangles and the remaining lists instead of mutating the caller's lists, and statuses instead of exceptions.
- When an automatic UV range is set, or the builder is double-sided, triangle indices must address existing UVs (and, double-sided, existing positions); the C# would throw while reading them. Otherwise any index is accepted, as in the C#.
- Matrices and quaternions (`Matrix4x4.TRS`, `MultiplyPoint`, `Quaternion.Euler`, the lathe's segment transform) are symbolic values; where a point lands is a function parameter (`PointMap`, `Placement`).
- Cubes.AddCubeSeries: the `DivideByZeroException` of the modulo is a returned `thrown` flag, and so it is for `Cubes.UpdateMesh`.
- Cubes.AddCubeTree: requires `steps >= 0` unless the step list is empty. With a negative depth and a non-empty list the C# recursion never reaches its base case and overflows the stack.
- Spawning.RandomSpawner.constructor: requires a non-zero `cellSize`, and so do `Reset` and `Regenerate`. With a zero `cellSize` the float quotient `range / cellSize` in the C# (RandomSpawner.cs:36) is an infinity, or NaN when `range` is 0, not an exception; the model leaves it out as the float line below says.
- `numCellsSide * numCellsSide` may overflow a 32-bit int in C# for huge ranges; the model's integers do not overflow.
- `RandomSpawner.Clear`, the destruction of children, `Instantiate`, the random rotation and the hit point of `Generate`, and the inspector editor class are left out. Generate and Make return a `GridCell` for the spawned object, and the ray cast is a function parameter.
- Spawning.RandomSpawner.Regenerate: returns the number of objects made, which the C# only leaves behind as children; the random draws are a sequence parameter.
- Unity defers `Destroy` in play mode, so a cell destroyed by `Clear` during `Reset` may free its cell into the new pool. This engine timing is not modelled.
- `List.BinarySearch` is library code and is modelled by the classic recursive search on `lo .. hi`.
- Mushrooms.Mutate: the draws are parameters. `values[i]` is the draw compared with the rate, and `factors[i]` the factor in [0.5, 1.5]. The model takes a factor for every gene, while the C# draws one only when it mutates.
- `ProceduralMushroom` (`Randomize`, `GetGenes`, `SetGenes`) is not part of this model. A `Mushroom` class with a `genes` field stands in, and `Randomize` is the `randomGenes` parameter.
- `MakeMushroom`, the spawn coroutine, DOTween scaling and `DestroyMushroomOnClick` (mouse input and a sphere cast) are Unity plumbing and are left out. Which mushrooms Unity has destroyed is a set parameter.
- Mushrooms.Fitness: requires at least 8 genes. The C# would throw an index error on fewer. DestroyLeastFitMushroom asks this only of the survivors, and only when more than 2 remain, since otherwise it returns before computing any fitness.
- Mushrooms.MushroomField.DestroyLeastFitMushroom: returns the mushroom it would destroy; the destruction itself is Unity's.
- Spawning.GridCell.Initialize: requires a cell that is not yet initialised, the `Assert.IsFalse` of GridCell.cs:15. A Unity Assert only logs, so the C# would log and re-initialise the cell. Every call site in the sources initialises a fresh cell once.
- Spawning.GridCell.OnDestroy: requires an initialised cell, the `Assert.IsTrue` of GridCell.cs:25. The C# would log and then return, since an uninitialised cell has no spawner. Every cell in the sources is initialised as soon as it is made.
- Mushrooms.Crossover: requires parents of equal length, the `Assert.AreEqual` of MushroomField.cs:129, although a Unity Assert only logs. The C# would log and go on: with B shorter, the second `Array.Copy` throws an `ArgumentException`; with A shorter, the child has A's length and takes its tail from B.
- `OnTheSameLine` and `IntersectionTestLineSegments` are unused helpers over float tolerances.
- Floats are exact reals: rounding, NaN and infinities are not modelled.

## Findings

| source | as written | input that shows it | evidently intended | confidence | as-written member | corrected member |
|---|---|---|---|---|---|---|
| Assets/MyScripts/MeshBuilder.cs:341 | after clipping an ear the scan resumes at the same `i` (`i--`), so an ear clipped at the last position ends the loop and the method throws although an ear remains | the simple clockwise pentagon (0,0), (0,2), (2,1), (1,0), (1,1): after two ears the triangle (0,2), (2,1), (1,1) is left, which is an ear, and the scan gives up | restart the scan from 0 after every ear, as the comment on that line says and as `Extrude.TriangulatePolygon` does | not executed | EarClipping.ResumeGivesUpOnNotch | EarClipping.RestartFailsOnlyWithoutEar |

The corrected scan is `EarClipping.Triangulate`. `EarClipping.RestartTriangulatesNotch` shows it triangulates the same pentagon, and `EarClipping.TriangulateOutcome` states its properties. The extrusion uses it. `MeshBuilding.MeshBuilder.TriangulatePolygon` keeps the resuming scan, as written, since nothing in the sources calls it.
