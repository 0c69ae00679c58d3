# Geometry cores of an interactive computer-graphics course project

This project is a Dafny model of the geometry that the four WebGL exercises
compute before anything is drawn. Each part says what the geometry is and
proves properties about it.

- **Logo animation (`MP1/mp1.js`, module `Logo`).**
  - The two logo vertex arrays: logo I has 120 vertices in the plane z = 0, and logo L has 96 vertices in the plane z = 1.
  - The in-place "non-uniform transformation" of logo I.
  - The counters of the first animation: rotation angle, scale, scale direction and transformation stage.
  - The radio-button handler.
  - The counters move in steps of 0.5 degrees and 0.125 scale units, so they are kept exactly as integers. `defAngle` is counted in half-degrees modulo 720, and `scaleSize` in eighths, from 0 to 80.
  - The stage advances when the scale's decimal string has no fractional part, that is, when the scale is a whole number. In the model, that is when `scaleSize % 8 == 0`.
- **Terrain (`MP2/Terrain.js`, modules `TerrainModel` and `TerrainObject`).**
  - A `(div + 1) x (div + 1)` grid of vertices over a rectangle, with two triangles per grid square. Vertex `(i, j)` sits at offset `3 (i (div + 1) + j)`.
  - The height pass:
    - N random cutting planes, each raising the vertices on one side by `delta` and lowering the rest by `delta`;
    - one 3x3 weighted smoothing pass over the interior;
    - a shift that puts the lowest vertex at height 0;
    - recording of the lowest and highest heights.
  - Per-vertex normals from the fan of neighbouring triangles.
  - The wireframe edge list.
  - `Terrain` is a class whose buffers are `seq` fields that its methods update in place. Each method is proved against a specification function on the buffers.
- **Triangle mesh (`MP3/TriMesh.js`, modules `ObjText` and `TriMeshModel`).**
  - Loading an OBJ file. The text is split into lines and each line into tokens with `split(/\b\s+(?!$)/)`. `v` lines add three coordinates and `f` lines add three zero-based vertex indices.
  - Area-weighted per-vertex normals: each face's cross product is added at its three corners, and every sum is then normalised.
  - The wireframe edge list.
  - The axis-aligned bounding box.
- **Sphere (`MP4/simpleModeling.js`, module `SimpleModeling`).**
  - The recursive subdivision of a tetrahedron's four faces into `4 * 4^n` triangles.
  - Each triangle's corners are appended to the vertex array and to the normal array.

Floating-point numbers are modelled as mathematical reals. Functions the code takes from libraries are parameters of the model:
- `vec3.normalize` and `vec4.normalize`, as a `Normalizer` / `Normalizer4` function;
- `parseFloat` and `parseInt`;
- `Math.random`, as the sequence of fault planes it would draw.

`Vectors` holds the vector arithmetic of gl-matrix that the code uses. `FlatBuffers` holds the flat buffer layout, the edge list and the running minimum and maximum scans shared by the terrain and the mesh.

## Model

| member | source | states |
|---|---|---|
| FlatBuffers.EdgesLayout | MP3/TriMesh.js:240-253 | the edge list has six entries per triangle; entry 6u+m is corner 0,1,1,2,2,0 (for m = 0..5) of triangle u, so the pairs are (v0,v1), (v1,v2), (v2,v0) |
| FlatBuffers.EdgesOfFaces | MP2/Terrain.js:470-484 | the wireframe is twice as long as the face list and names only vertices that some face names |
| FlatBuffers.AxisBounds | MP3/TriMesh.js:52-81 | the running minimum and maximum of a coordinate bound that coordinate of every vertex scanned, and each bound is attained by one of them |
| ObjText.SplitOn | MP3/TriMesh.js:105 | splitting on a character always yields at least one piece |
| ObjText.SplitOnRoundTrip | MP3/TriMesh.js:105 | joining the lines with the newline character gives back the file text, and no line contains a newline |
| ObjText.RunEnd | MP3/TriMesh.js:107 | the end of a whitespace run: everything before it is white space and it stops at a non-space character or at the end of the line |
| ObjText.MatchEnd | MP3/TriMesh.js:107 | a match of the token separator at q follows a word character, is a non-empty whitespace run and stops before the end of the line |
| ObjText.Tokenize | MP3/TriMesh.js:107 | splitting a line always yields at least one element |
| ObjText.RunEndShift | MP3/TriMesh.js:107 | a whitespace run ends at the same place whether or not the line has a prefix |
| ObjText.MatchEndShift | MP3/TriMesh.js:107 | a prefix that does not end in a word character does not change where the separator matches |
| ObjText.PiecesShift | MP3/TriMesh.js:107 | splitting the tail behind such a prefix gives the same tokens as splitting the tail alone |
| ObjText.PiecesSkipWord | MP3/TriMesh.js:107 | no cut falls inside a run of non-space characters |
| ObjText.FirstCut | MP3/TriMesh.js:107 | a token followed by one space and a non-space character is cut off as the first element |
| ObjText.TokenizeJoin | MP3/TriMesh.js:107 | round trip: tokens joined by single spaces split back into exactly those tokens |
| ObjText.FirstToken | MP3/TriMesh.js:107-108 | the first element of a split line is a prefix of the line, and it is non-empty when the line is |
| ObjText.FirstPiece | MP3/TriMesh.js:107 | the first element of a split starting at p is the text from p up to the first cut |
| TriMeshModel.VertexTokens | MP3/TriMesh.js:108-112 | a line whose first token is "v" contributes three numbers, parsed from tokens 1 to 3; any other line contributes none |
| TriMeshModel.FaceTokens | MP3/TriMesh.js:113-117 | a line whose first token is "f" contributes three indices, each parsed and lowered by one; any other line contributes none |
| TriMeshModel.LineVertices | MP3/TriMesh.js:106-112 | the vertex numbers one line contributes: none or three |
| TriMeshModel.LineFaces | MP3/TriMesh.js:106-117 | the face indices one line contributes: none or three |
| TriMeshModel.ObjVertices | MP3/TriMesh.js:105-119 | the vertex buffer read from a file holds three numbers per vertex |
| TriMeshModel.ObjFaces | MP3/TriMesh.js:105-119 | the face buffer read from a file holds three indices per face |
| TriMeshModel.ObjAppend | MP3/TriMesh.js:105-119 | lines are read independently: the buffers of concatenated line lists are the concatenated buffers |
| TriMeshModel.IndentedLineIgnored | MP3/TriMesh.js:107-118 | a line that starts with white space contributes nothing, because its first element is not "v" or "f" |
| TriMeshModel.JoinedLineRead | MP3/TriMesh.js:107-118 | a line of tokens separated by single spaces is read from exactly those tokens |
| TriMeshModel.QuadKeepsFirstTriangle | MP3/TriMesh.js:113-117 | a quadrilateral face "f 1 2 3 4" adds only the triangle of its first three corners |
| TriMeshModel.SignedVertexParsed | MP3/TriMesh.js:108-112 | a vertex line with a signed and a fractional coordinate is read as those three numbers |
| TriMeshModel.FaceNormals | MP3/TriMesh.js:294-312 | one face normal per triangle of the face buffer |
| TriMeshModel.NormalSumUnused | MP3/TriMesh.js:286-319 | a vertex that no face names keeps the zero sum |
| TriMeshModel.FaceNormalPerpendicular | MP3/TriMesh.js:303-311 | each face normal (cross product of the two edges from the first corner) is perpendicular to both edges |
| TriMeshModel.CrossPerpendicular | MP3/TriMesh.js:311 | a cross product is perpendicular to both of its factors |
| TriMeshModel.Translate | MP3/HelloMesh.js:441-444 | moving every vertex keeps the buffer length |
| TriMeshModel.TranslateVertex | MP3/HelloMesh.js:441-444 | moving every vertex by d (as the centring translation does) moves each vertex by d |
| TriMeshModel.FaceNormalTranslate | MP3/TriMesh.js:303-311 | a face normal does not change when the mesh is moved |
| TriMeshModel.FaceNormalsTranslate | MP3/TriMesh.js:294-312 | no face normal changes when the mesh is moved |
| TriMeshModel.TriMesh.constructor | MP3/TriMesh.js:11-39 | the mesh starts unloaded, with empty buffers, zero counts and a zero bounding box |
| TriMeshModel.TriMesh.Loaded | MP3/TriMesh.js:44-46 | reports whether the buffers have been filled |
| TriMeshModel.TriMesh.ComputeAABB | MP3/TriMesh.js:52-81 | each axis of the box holds the running minimum and maximum of that coordinate over all vertices |
| TriMeshModel.ArrayPut | MP3/TriMesh.js:89-95 | a script array after `a[k] = x`: entry k is x, the array grows by one when k is its length, and every other entry stays |
| TriMeshModel.TriMesh.GetAABB | MP3/TriMesh.js:88-96 | the caller's arrays, of any length (including the one-element `[3]` the caller passes), come back holding the box in entries 0 to 2, at least three entries long, with any further entries unchanged |
| TriMeshModel.TriMesh.GenerateLines | MP3/TriMesh.js:240-253 | appends the wireframe of the face buffer to the edge buffer |
| TriMeshModel.TriMesh.SetVertex | MP3/TriMesh.js:263-268 | vertex id becomes (x, y, z) and every other vertex is unchanged |
| TriMeshModel.TriMesh.GetVertex | MP3/TriMesh.js:275-280 | the first three slots of the caller's array receive vertex id; the rest are untouched |
| TriMeshModel.TriMesh.GenerateNormals | MP3/TriMesh.js:285-329 | numNormals equals numVertices, and normal i is the normalised sum of the face normals of every face naming vertex i |
| TriMeshModel.TriMesh.ReadLines | MP3/TriMesh.js:105-119 | the buffers grow by exactly what the lines contribute, with the counts kept in step |
| TriMeshModel.TriMesh.ReadLine | MP3/TriMesh.js:107-118 | the buffers grow by exactly what one line contributes |
| TriMeshModel.TriMesh.LoadFromOBJ | MP3/TriMesh.js:102-137 | the buffers hold the file's vertices and faces, the normals and wireframe are generated from them, the mesh is loaded and the box bounds the vertices |
| TriMeshModel.AccumulateFaces | MP3/TriMesh.js:290-319 | starting from zeros, each slot ends holding its vertex's sum over all faces |
| TriMeshModel.AddToCorners | MP3/TriMesh.js:314-318 | one face's normal is added at each of its three corners; every other slot is unchanged |
| TriMeshModel.AccumulateStep | MP3/TriMesh.js:313-318 | adding one face at its corners turns the sums over the first t faces into the sums over the first t + 1 |
| TriMeshModel.NormalizeAll | MP3/TriMesh.js:320-328 | every vertex's sum is replaced by its normalised value |
| TriMeshModel.NormalizeVertex | MP3/TriMesh.js:321-327 | vertex i's three slots are normalised together; the others are unchanged |
| SimpleModeling.FlattenLayout | MP4/simpleModeling.js:13-17 | pushing points one after another lays out x, y, z of point i at offsets 3i, 3i+1, 3i+2 |
| SimpleModeling.FlattenAppend | MP4/simpleModeling.js:13-17 | pushing two runs of points is pushing the first run and then the second |
| SimpleModeling.SoupIsFlattenedPoints | MP4/simpleModeling.js:31-67 | the numbers subdivision appends are x, y, z of the corners it emits, in order |
| SimpleModeling.PointsCount | MP4/simpleModeling.js:31-67 | subdividing n times emits 3 * 4^n corners (a depth of 0 or less is the base case) |
| SimpleModeling.SoupLength | MP4/simpleModeling.js:31-67 | subdividing n times appends 9 * 4^n numbers to each array |
| SimpleModeling.OneLevelOrder | MP4/simpleModeling.js:36-51 | one level emits the triangles (a, ab, ac), (ab, b, bc), (bc, c, ac), (ab, bc, ac) in that order |
| SimpleModeling.ClosureMonotone | MP4/simpleModeling.js:36-46 | more starting points reach more midpoints |
| SimpleModeling.ClosureCompose | MP4/simpleModeling.js:36-46 | midpoints of one round followed by k more rounds are within k + 1 rounds |
| SimpleModeling.PointsFromCorners | MP4/simpleModeling.js:31-67 | every emitted corner is reachable from a, b, c by at most n rounds of normalised midpoints |
| SimpleModeling.PushVertex | MP4/simpleModeling.js:13-17 | the array grows by x, y, z of the vertex |
| SimpleModeling.SphDivideTriangle | MP4/simpleModeling.js:31-67 | returns 4^n triangles and appends the same subdivided corners to both arrays |
| SimpleModeling.SphereSize | MP4/simpleModeling.js:78-91 | the sphere has 12 * 4^n corners, and each array receives their x, y, z: 36 * 4^n numbers |
| SimpleModeling.SphereFromCorners | MP4/simpleModeling.js:78-91 | every corner of the sphere is reachable from the tetrahedron's four corners by n rounds of normalised midpoints |
| SimpleModeling.SphereFromSubdivision | MP4/simpleModeling.js:78-91 | returns 4 * 4^n triangles and appends the four subdivided faces, in the program's order, to both arrays |
| Logo.LayoutShape | MP1/mp1.js:244-287 | a logo array holds nine numbers per triangle, and every third number is the plane's z |
| Logo.LogoITriangles | MP1/mp1.js:244-287 | logo I is 40 triangles |
| Logo.LogoLTriangles | MP1/mp1.js:376-411 | logo L is 32 triangles |
| Logo.FirVertices | MP1/mp1.js:244-287 | logo I is 120 vertices (numVertices[0]), all in the plane z = 0 |
| Logo.SecVerticesOfL | MP1/mp1.js:374-411 | logo L is 96 vertices (numVertices[2]), all in the plane z = 1 |
| Logo.NonUniformChanges | MP1/mp1.js:294-328 | entry k changes exactly when entry k + 1 holds the stage's row value and entry k is one the stage moves (-22/22, or -12/12 in stage 3); those become -17/17 (-6/6) |
| Logo.TickInRange | MP1/mp1.js:731-746 | a tick keeps the angle below 360 degrees, the scale in [0, 10] and the stage in [0, 6] |
| Logo.TicksFromStart | MP1/mp1.js:731-746 | k ticks after a restart: the angle is k/2 degrees mod 360; the scale follows a triangle wave between 0 and 10 with a period of 160 ticks, starting at 1 and rising; the stage is (k / 8) mod 7 |
| Logo.AngleAfter | MP1/mp1.js:733 | the angle k ticks after a restart |
| Logo.ScaleAfter | MP1/mp1.js:735-739 | the scale and its direction k ticks after a restart |
| Logo.StageAfter | MP1/mp1.js:741-743 | the stage k ticks after a restart advances once every 8 ticks |
| Logo.WaveStep | MP1/mp1.js:735-739 | the direction flip at 0 and 10 followed by a step of 1/8 moves one step along the triangle wave |
| Logo.WaveWhole | MP1/mp1.js:741-742 | the scale is a whole number exactly every 8 ticks |
| Logo.LogoState.constructor | MP1/mp1.js:46-63 | the globals' initial values: angle 0, scale 1, increasing, stage 0, first animation |
| Logo.LogoState.ResetFirVertices | MP1/mp1.js:244-287 | logo I becomes a fresh copy of its original vertices |
| Logo.LogoState.ResetSecVertices | MP1/mp1.js:374-411 | both logos become fresh copies of their original vertices |
| Logo.LogoState.NonUniTransform | MP1/mp1.js:294-328 | the in-place loop leaves the rule applied to the unmodified array |
| Logo.LogoState.AnimateFir | MP1/mp1.js:731-746 | the counters advance by one tick and stay in range |
| Logo.LogoState.Click | MP1/mp1.js:809-828 | the first button restarts the first animation; the other selects the second animation with angle 0 and decreasing direction; both reset the logos to their literals (the arrays before the closing `setupBuffers`) |
| TerrainModel.GridVertices | MP2/Terrain.js:181-186 | the grid has (div + 1)^2 vertices, three numbers each |
| TerrainModel.GridFaces | MP2/Terrain.js:188-198 | the grid has 2 div^2 triangles, three indices each |
| TerrainModel.GridVertexAt | MP2/Terrain.js:181-186 | vertex (i, j) is (minX + deltaX j, minY + deltaY i, 0) |
| TerrainModel.GridQuadAt | MP2/Terrain.js:188-198 | the six indices of square (i, j) sit at offset 6 (i div + j) |
| TerrainModel.QuadCornerInGrid | MP2/Terrain.js:190-197 | every corner of a square names a grid vertex |
| TerrainModel.GridFacesInRange | MP2/Terrain.js:188-198 | every face index names one of the (div + 1)^2 vertices |
| TerrainModel.VidInGrid | MP2/Terrain.js:65 | the index of a grid vertex is below the vertex count |
| TerrainModel.VidInjective | MP2/Terrain.js:65 | distinct grid positions have distinct indices |
| TerrainModel.ApplyFault | MP2/Terrain.js:230-238 | one fault keeps the buffer length |
| TerrainModel.ApplyFaults | MP2/Terrain.js:221-239 | the faults keep the buffer length |
| TerrainModel.FaultBound | MP2/Terrain.js:230-238 | one fault changes only heights, each by delta up or down |
| TerrainModel.FaultsKeepPlan | MP2/Terrain.js:221-239 | the faults never move a vertex's x or y |
| TerrainModel.FaultsBound | MP2/Terrain.js:221-239 | after N faults every height is within N delta of where it started |
| TerrainModel.SetHeight | MP2/Terrain.js:265-266 | writing one height keeps the grid's size |
| TerrainModel.SetHeightKeepsPlan | MP2/Terrain.js:265-266 | writing a height moves no x or y |
| TerrainModel.SetHeightKeeps | MP2/Terrain.js:265-266 | the written vertex gets the height and every other vertex keeps its height |
| TerrainModel.SmoothAt | MP2/Terrain.js:244-266 | smoothing one vertex keeps the grid's size |
| TerrainModel.SmoothTo | MP2/Terrain.js:242-267 | smoothing a prefix of the interior keeps the grid's size |
| TerrainModel.Smoothed | MP2/Terrain.js:242-267 | the smoothing pass keeps the grid's size |
| TerrainModel.SmoothKeeps | MP2/Terrain.js:242-267 | smoothing moves no x or y and leaves the border heights alone |
| TerrainModel.SmoothBounds | MP2/Terrain.js:242-267 | smoothing keeps all heights within any bounds they started in, even though it reads already-smoothed neighbours |
| TerrainModel.AverageBounds | MP2/Terrain.js:258-264 | the weighted average (4 for the vertex, 2 for side neighbours, 1 for diagonal ones, over 16) lies between the lowest and highest height |
| TerrainModel.SmoothFlat | MP2/Terrain.js:242-267 | a terrain of equal heights is unchanged in height by smoothing |
| TerrainModel.ShiftHeights | MP2/Terrain.js:278-285 | the shift keeps the buffer length |
| TerrainModel.ShiftExtremes | MP2/Terrain.js:278-285 | shifting every height by d shifts the lowest and highest height by d |
| TerrainModel.RestOnZero | MP2/Terrain.js:269-285 | lowering by the lowest height keeps the buffer length |
| TerrainModel.Partitioned | MP2/Terrain.js:214-297 | the height pass keeps the grid's size |
| TerrainModel.RestsOnZero | MP2/Terrain.js:269-296 | after the shift the lowest height is 0, some vertex is at 0 and every height lies between 0 and the highest |
| TerrainModel.RestSpan | MP2/Terrain.js:278-285 | after the shift x and y are unchanged and every height lies in [0, hi - lo] |
| TerrainModel.PartitionBounds | MP2/Terrain.js:214-297 | partitioning a flat grid moves no x or y and puts every height in [0, 2 N delta] |
| TerrainModel.OffsetsFan | MP2/Terrain.js:316-421 | the neighbours: six round an interior vertex, four along a border, two or three at a corner; all on the grid; consecutive pairs turn counter-clockwise, closing round only for interior vertices |
| TerrainModel.FanNormals | MP2/Terrain.js:328-335 | one face normal per consecutive neighbour pair (wrapping round only when the fan is closed) |
| TerrainModel.SumVecsAppend | MP2/Terrain.js:337-339 | summing two lists of normals is adding their sums |
| TerrainModel.SumCopies | MP2/Terrain.js:337-339 | summing n copies of one normal is scaling it by n |
| TerrainModel.AliasedIsLastFace | MP2/Terrain.js:329-339 | the sum as written is the fan's last face normal times the number of faces |
| TerrainModel.AsWrittenSumAtLastFace | MP2/Terrain.js:313-434 | at every grid vertex the fan has at least one face, and the sum as written is its last face normal times the number of faces |
| TerrainModel.FanNormalsRotate | MP2/Terrain.js:330-335 | starting a closed fan at its second neighbour rotates its face normals by one |
| TerrainModel.FanSumRotate | MP2/Terrain.js:316-340 | the summed normal of a closed fan does not depend on which neighbour comes first |
| TerrainModel.ExampleNormalAt | MP2/Terrain.js:330-335 | the face normals of the example fan |
| TerrainModel.ExampleNormalsSum | MP2/Terrain.js:338-339 | the sum of the example fan's face normals |
| TerrainModel.ExampleFanSum | MP2/Terrain.js:316-340 | the intended sum for the example fan is (-2, -1, 6) |
| TerrainModel.ExampleAliasedSums | MP2/Terrain.js:329-339 | the sum as written for the example fan is (-6, -6, 6), and (-6, 0, 6) when the fan starts one neighbour later |
| TerrainModel.AliasedNormalWrong | MP2/Terrain.js:329-339 | for one interior fan the sum as written differs in direction from the sum of the face normals, and changes with the starting neighbour |
| TerrainModel.FlatCross | MP2/Terrain.js:331-333 | on a level grid the cross product of a counter-clockwise pair points straight up with length deltaX deltaY |
| TerrainModel.FlatFan | MP2/Terrain.js:328-339 | on a level grid a fan's summed normal is (0, 0, count deltaX deltaY) |
| TerrainModel.NeighbourPoints | MP2/Terrain.js:316-421 | one neighbour point per offset |
| TerrainModel.NeighbourPointsAt | MP2/Terrain.js:316-421 | neighbour k is the grid vertex at offset k |
| TerrainModel.ValuesToLength | MP2/Terrain.js:311-312 | a row-by-row scan pushes three numbers per vertex visited |
| TerrainModel.ValuesToAt | MP2/Terrain.js:436-438 | the three numbers pushed for vertex (a, b) sit at its vertex index |
| TerrainModel.GridNormalAt | MP2/Terrain.js:304-440 | the normal buffer is as long as the vertex buffer and holds at vertex (i, j) the normalised intended sum of its fan (as written, see AsWrittenSumAtLastFace) |
| TerrainModel.PointSteps | MP2/Terrain.js:178-185 | neighbouring grid points are deltaX apart along a row and deltaY apart along a column |
| TerrainModel.GridRowStep | MP2/Terrain.js:181-186 | in the generated buffer, consecutive vertices of a row are (deltaX, 0, 0) apart |
| TerrainModel.GridColumnStep | MP2/Terrain.js:181-186 | in the generated buffer, consecutive vertices of a column are (0, deltaY, 0) apart |
| TerrainModel.GridVerticesLevel | MP2/Terrain.js:181-186 | the generated grid is a level grid with steps deltaX and deltaY |
| TerrainModel.LevelStep | MP2/Terrain.js:181-186 | on a level grid, vertices one step apart differ by (b deltaX, a deltaY, 0) |
| TerrainModel.LevelFanUp | MP2/Terrain.js:328-339 | on a level grid with positive steps, a fan of counter-clockwise pairs sums to a normal pointing straight up |
| TerrainModel.LevelNormalsUp | MP2/Terrain.js:313-434 | on a level grid every vertex's summed normal points straight up |
| TerrainModel.FlatGridNormalsUp | MP2/Terrain.js:177-202 | on the freshly generated grid of a non-empty rectangle every vertex's summed normal points straight up |
| TerrainObject.VertexPush | MP2/Terrain.js:181-186 | the vertex buffer up to vertex (i, j) is the buffer before it plus the numbers pushed for it |
| TerrainObject.QuadEntries | MP2/Terrain.js:190-197 | the six indices of square (i, j) are vid, vid+1, vid+div+1, vid+1, vid+div+2, vid+div+1 |
| TerrainObject.QuadPush | MP2/Terrain.js:188-198 | the face buffer up to square (i, j) is the buffer before it plus the six indices pushed for it |
| TerrainObject.ExtremesStep | MP2/Terrain.js:291-296 | the conditional updates of the lowest and highest height extend the running minimum and maximum by one vertex |
| TerrainObject.ApplyFaultAt | MP2/Terrain.js:232-237 | one fault changes a vertex's height by its side's delta and leaves its x and y |
| TerrainObject.ShiftAt | MP2/Terrain.js:282-284 | the shift adds d to a vertex's height and leaves its x and y |
| TerrainObject.WeightedEight | MP2/Terrain.js:258-264 | the loop over the eight neighbours weights the even ones (side) by 2 and the odd ones (diagonal) by 1 |
| TerrainObject.GridVerticesFlat | MP2/Terrain.js:185 | every generated height is 0 |
| TerrainObject.PartitionRelief | MP2/Terrain.js:37-40 | partitioning the generated grid keeps its x and y and puts every height in [0, 2 N delta] |
| TerrainObject.HighestInRange | MP2/Terrain.js:287-296 | the highest height of such a relief lies in [0, 2 N delta] |
| TerrainObject.PutVertex | MP2/Terrain.js:64-69 | writing one vertex keeps the grid's size |
| TerrainObject.GetAfterPut | MP2/Terrain.js:64-84 | reading a vertex just written gives what was written, and every other vertex reads as before |
| TerrainObject.FaultPut | MP2/Terrain.js:232-237 | writing back a vertex with its faulted height extends the faulted prefix by one vertex |
| TerrainObject.SmoothPut | MP2/Terrain.js:244-266 | writing back a vertex with its weighted average is smoothing that vertex |
| TerrainObject.Terrain.constructor | MP2/Terrain.js:17-54 | the terrain holds the grid of the rectangle with 100 faults of 0.005 applied, smoothed and resting on 0, with heights in [0, 1]; its faces, its normals (the intended sums) and its wireframe |
| TerrainObject.Terrain.Build | MP2/Terrain.js:37-47 | the four generating steps, in order, fill the buffers as the constructor states, the normals being the intended sums |
| TerrainObject.Terrain.BuildHeights | MP2/Terrain.js:37-41 | grid generation followed by the height pass |
| TerrainObject.Terrain.BuildNormalsAndLines | MP2/Terrain.js:43-47 | normals (the intended sums) and wireframe of the finished grid |
| TerrainObject.Terrain.Area | MP2/Terrain.js:18-22 | the rectangle the terrain was built over |
| TerrainObject.Terrain.SetVertex | MP2/Terrain.js:64-69 | vertex (i, j) of the buffer becomes v |
| TerrainObject.Terrain.GetVertex | MP2/Terrain.js:79-84 | returns the three numbers at vertex (i, j)'s index |
| TerrainObject.Terrain.GenerateTriangles | MP2/Terrain.js:177-202 | appends the grid's vertices and faces and sets the counts to the buffers' vertex and face numbers |
| TerrainObject.Terrain.PushGridVertices | MP2/Terrain.js:181-186 | appends the grid's vertices row by row |
| TerrainObject.Terrain.PushGridFaces | MP2/Terrain.js:188-198 | appends two triangles per grid square, row by row |
| TerrainObject.Terrain.SetHeightsByPartition | MP2/Terrain.js:214-297 | the buffer becomes faulted, smoothed and rested on 0; the recorded lowest height is its minimum, which is 0, and the highest is its maximum |
| TerrainObject.Terrain.FaultAll | MP2/Terrain.js:221-239 | applies the faults one after the other |
| TerrainObject.Terrain.RestOnZeroInPlace | MP2/Terrain.js:269-296 | lowers every height by the lowest and records the new lowest (0) and highest heights |
| TerrainObject.Terrain.ApplyFaultInPlace | MP2/Terrain.js:229-238 | the in-place pass over all vertices applies one fault |
| TerrainObject.Terrain.FaultRow | MP2/Terrain.js:231-238 | one row of the pass extends the faulted prefix by a row |
| TerrainObject.Terrain.FaultVertex | MP2/Terrain.js:232-237 | one vertex of the pass extends the faulted prefix by that vertex |
| TerrainObject.Terrain.SmoothInPlace | MP2/Terrain.js:242-267 | the in-place pass is the smoothing pass, each vertex reading neighbours already smoothed |
| TerrainObject.Terrain.SmoothRow | MP2/Terrain.js:243-267 | one interior row of the pass |
| TerrainObject.Terrain.SmoothedHeight | MP2/Terrain.js:244-264 | returns the weighted average of vertex (i, j) and its eight neighbours |
| TerrainObject.Terrain.LowestHeight | MP2/Terrain.js:269-276 | returns the running minimum height over all vertices |
| TerrainObject.Terrain.ShiftInPlace | MP2/Terrain.js:278-285 | adds d to every height |
| TerrainObject.Terrain.ShiftRow | MP2/Terrain.js:281-285 | one row of the shift extends the shifted prefix by a row |
| TerrainObject.Terrain.SetHeightRange | MP2/Terrain.js:287-296 | records the running minimum and maximum height |
| TerrainObject.Terrain.SetNormals | MP2/Terrain.js:304-440 | appends, row by row, the normalised summed fan normal of every vertex |
| TerrainObject.Terrain.VertexNormalSum | MP2/Terrain.js:313-434 | returns the intended sum of the face normals of vertex (i, j)'s fan (as written, see AsWrittenSumAtLastFace) |
| TerrainObject.Terrain.GenerateLines | MP2/Terrain.js:470-484 | appends the wireframe of the face buffer to the edge buffer |

## Left out

- Drawing and GPU upload are not modelled. This covers shaders, buffers, `loadBuffers`, `drawTriangles`, `drawEdges`, `setupBuffers`, the colour arrays and the second animation's `scatter` / `animateSec`. Except for `setupBuffers` in the logo animation (below), none of it changes the geometry.
- Console output, `printBuffers` and the `OES_element_index_uint` check with its alert are not modelled. They have no effect on any buffer.
- Floating point is modelled as exact real arithmetic. Rounding, NaN and Infinity are not represented.
- `vec3.normalize`, `vec4.normalize`, `parseFloat` and `parseInt` are function parameters, so no property of them is assumed.
- `Math.random` is not modelled. Each fault plane it would draw is an element of the `faults` parameter, and any point and normal is accepted. The source draws the point from a unit square shifted by (-maxX, -maxY) and a horizontal unit normal.
- TerrainObject.Terrain.constructor: requires `div >= 1`. With `div = 0` the source divides by zero in `generateTriangles`.
- TerrainObject.Terrain.constructor: takes the 100 fault planes as a parameter, where the source draws them inside `setHeightsByPartition(100, 0.005)`.
- TerrainObject.Terrain.constructor: states `highestHeight` only as lying in [0, 1], that is 2 x 100 x 0.005. The exact value, the maximum height of the buffer, is stated by SetHeightsByPartition.
- TerrainObject.Terrain.constructor: `numVertices` and `numFaces` start at 0. In the source they do not exist until `generateTriangles` sets them.
- TerrainObject.Terrain.SetVertex: requires (i, j) to be on the grid. The source would write past the buffer or into another vertex.
- TerrainObject.Terrain.GetVertex: requires (i, j) to be on the grid, and returns the vertex instead of filling the caller's array.
- TerrainObject.Terrain.constructor: its normal buffer is GridNormals, the normalised intended fan sums, not the aliased sums the source pushes (see Findings and SetNormals below).
- TerrainObject.Terrain.Build: states the normal buffer as GridNormals, the intended sums, for the same reason as SetNormals.
- TerrainObject.Terrain.BuildNormalsAndLines: states the normal buffer as GridNormals, the intended sums, for the same reason as SetNormals.
- TerrainObject.Terrain.VertexNormalSum: returns the intended sum of the fan's face normals, not the last face normal times the face count that the loops at MP2/Terrain.js:329-339, 378-389 and 423-433 produce; TerrainModel.AsWrittenSumAtLastFace states that as-written sum at every grid vertex.
- TerrainModel.GridNormalAt: states the intended sums laid out in the normal buffer, for the same reason as VertexNormalSum; the as-written sums are stated by AsWrittenSumAtLastFace.
- TerrainObject.Terrain.SetNormals: pushes the normalised sum of the fan's face normals. It does not push the aliased sum the source computes; the as-written behaviour is modelled by AsWrittenSumAt (see Findings).
- TriMeshModel.TriMesh.LoadFromOBJ: requires every face index to name a loaded vertex. With an out-of-range index the source reads undefined and produces NaN normals.
- TriMeshModel.TriMesh.LoadFromOBJ: skips the bounding box when the file has no vertices. The source then reads undefined entries.
- TriMeshModel.TriMesh.LoadFromOBJ: `myMesh.loadBuffers()` is left out.
- TriMeshModel.TriMesh.GenerateNormals: requires every face index to name a vertex, for the same reason as LoadFromOBJ.
- TriMeshModel.TriMesh.GetAABB: takes and returns the contents of the caller's arrays instead of writing into them in place, so it does not capture a caller passing the same array twice (the source then leaves the maximum in it).
- TriMeshModel.TriMesh.ComputeAABB: requires at least one vertex, for the same reason as LoadFromOBJ's bounding box.
- TriMeshModel.TriMesh.SetVertex: requires id to name a vertex. The source would grow the array.
- TriMeshModel.TriMesh.GetVertex: requires id to name a vertex. The source would read undefined.
- TriMeshModel.TriMesh.constructor: `texcoordBuffer` is only initialised, as in the source, and is never filled.
- SimpleModeling.SphDivideTriangle: requires the vertex and normal arrays to be distinct objects. If they were the same, the source would interleave its pushes.
- SimpleModeling.SphereFromSubdivision: requires distinct arrays, for the same reason.
- The tetrahedron corners of `sphereFromSubdivision` are the decimal constants of the source, as exact reals.
- Logo.LogoState.Click: the closing `setupBuffers` call is not modelled. In the source it rewrites the logo arrays: in the first animation logo I is reset, transformed by `nonUniTransform` and divided by 33 (MP1/mp1.js:219-231); in the second both logos are divided by 132, with x shifted by -0.25 for I and +0.25 for L (MP1/mp1.js:337-352). So the ensures on `verticesOfI` and `verticesOfL` describe the arrays before that call, not after `myClick` returns.
- Logo.LogoState.Click: the state of the radio button `canvas1` is the parameter `firstChecked`.
- Logo.LogoState.Click: the second animation's `fReset`, `count` and `scatterSpeed` and the call to `resetSecColors` are not modelled.
- Logo.LogoState.AnimateFir: the closing `setupBuffers` call is not modelled. In the source it goes through `loadVertices` and rewrites the logo arrays for drawing: in the first animation logo I is reset, transformed by `nonUniTransform` and divided by 33 (MP1/mp1.js:219-231). So the model's arrays are the ones before that call.
- Logo.LogoState.AnimateFir: the test on the decimal string of `scaleSize` is stated as "the scale is a whole number". That is what the string test decides for multiples of 1/8.
- Logo.LogoState.NonUniTransform: at index 0 the source reads index -1, which is undefined. No comparison with it succeeds, so nothing is written; the model writes nothing there either.

## Findings

| source | as written | input that shows it | evidently intended | confidence | as-written member | corrected member |
|---|---|---|---|---|---|---|
| MP2/Terrain.js:329-334 | each neighbouring face normal is computed into the one shared `crossProduct` vector and that same object is pushed every time, so the summed normal is the last face normal times the number of faces (also at lines 378-384 and 423-429) | an interior vertex at the origin with neighbours (1,0,1), (0,1,0), (-1,1,0), (-1,0,0), (0,-1,0), (1,-1,0): the sum as written is (-6,-6,6) but the sum of the six face normals is (-2,-1,6), and starting the fan one neighbour later gives (-6,0,6) | the vertex normal is the normalised sum of all neighbouring face normals, independent of where the fan starts | high (not executed) | TerrainModel.AliasedNormalWrong | TerrainModel.FanSumRotate |
