# Wavefront OBJ loader, modelled and verified in Dafny

This project models the core of the 3DFRAndroid model loader: the two-pass
Wavefront OBJ reader in `WavefrontLoader.java`. The loader works in three
steps on the same text.

1. `analyzeModel` scans the lines. It counts the `v`, `vt` and `vn` lines and
   adds up a triangle count of "references minus two" per `f` line. It also
   remembers the last `mtllib` path.
2. `allocateBuffers` creates fixed-size direct float buffers from those
   counts. The vertex and colour buffers hold three floats per vertex. A
   normals buffer exists only when there are normals, and a `Faces` exists
   only when the triangle count is positive.
3. `readModel` walks the lines again:
   - `addVert` writes each `v` and `vn` line into its buffer at its own
     cursor, and writes its colour into the vertex colour buffer;
   - `modelDims` is `set` by the first vertex and `update`d by the others;
   - `addTexCoord`, `checkTC3D` and `readTCTuple` read the texture
     coordinates in a 2-D or 3-D mode fixed by the first `vt` line;
   - `f` lines go to `Faces.addFace`;
   - `usemtl` lines are recorded against the number of face lines so far;
   - the per-line results are AND-ed into the `isLoaded` flag.

## How the model is organised

- **`JavaText`** (`java_text.dfy`) defines the `String` operations the loader
  uses, over `seq<char>`: `trim`, `startsWith`, `contains("  ")`,
  `split(" ")`, `split(" +")`, `split("\\s+")` and the `StringTokenizer`
  fields. It proves that on a trimmed line every split gives the
  delimiter-separated fields.
- **`ObjLines`** (`obj_lines.dfy`) covers everything done to a single line:
  - the directive chain;
  - the triangle count of a face line;
  - the try block of `addVert`;
  - `checkTC3D` and `readTCTuple`;
  - the constant `DUMMY_Z_TEXTURE_COORDINATE`.
- **`Geometry`** (`geometry.dfy`) models the `ModelDimensions` calls `set` and
  `update` as a box, and proves the box is the tight bounding box of the
  points.
- **`ScanPass`** (`scan_pass.dfy`) is the first pass as functions of the
  lines.
- **`PopulatePass`** (`populate_pass.dfy`) is the second pass as a fold of
  one step function over the lines. The state holds the buffer contents, the
  lists, and `readModel`'s local cursors and flags. An exception other than
  `NumberFormatException` ends the pass.
- **`PopulateProperties`** and **`PopulateContents`** (`populate_props.dfy`,
  `populate_content.dfy`) prove what the fold does:
  - the cursors advance once per line;
  - the k-th line fills the k-th slot;
  - the dimensions are the bounding box of the vertices that parsed;
  - the texture mode is fixed by the first `vt` line;
  - the material uses are recorded in order;
  - the aggregate flag holds exactly when every handler succeeded.
- **`LoadCompletion`** (`load_completion.dfy`) covers scan, allocate and
  populate on the same lines. On a well-formed file the pass raises nothing
  and fills every counted slot. A file with more `vn` than `v` lines always
  raises.
- **`Loader`** (`loader.dfy`) is the loader object. It is a class with the
  source's fields, and its buffers are `array<real>`. Its methods
  (`AnalyzeModel`, `AllocateBuffers`, `ReadModel`, `AddVert`, `AddTexCoord`
  and the per-directive line handlers) are loops and in-place updates. Each
  is proved against the functions above.

**Parameters for code the model cannot see.** `Float.parseFloat` and the
verdict of `Faces.addFace` are passed in as the two fields of `Env`: a parser
`string -> Option<real>`, and `acceptFace(index, line)`. The state a new
`ModelDimensions` starts in is a constructor parameter.

## Model

| member | source | states |
|---|---|---|
| JavaText.Trim | app/src/main/java/org/orego/app/face3dActivity/model3D/services/wavefront/WavefrontLoader.java:65 | The result has no leading or trailing character at or below U+0020. It is a slice of the input with only such characters cut from each end, and it equals the input exactly when the input already had none. |
| JavaText.TrimIsUnique | app/src/main/java/org/orego/app/face3dActivity/model3D/services/wavefront/WavefrontLoader.java:65 | Any slice that cuts only characters at or below U+0020 from the two ends and leaves neither end on such a character is exactly `Trim`'s result, so `trim` is the unique such cut. |
| JavaText.SplitOnRunsOfFramed | app/src/main/java/org/orego/app/face3dActivity/model3D/services/wavefront/WavefrontLoader.java:76-77 | `split(" +")` (and `split("\\s+")`) of a string that neither starts nor ends with a delimiter is exactly its maximal runs of non-delimiters. |
| JavaText.SplitOnSpaceOfFramed | app/src/main/java/org/orego/app/face3dActivity/model3D/services/wavefront/WavefrontLoader.java:78-79 | `split(" ")` of such a string without two adjacent spaces is exactly its space-separated fields. |
| ObjLines.Classify | app/src/main/java/org/orego/app/face3dActivity/model3D/services/wavefront/WavefrontLoader.java:66-87 | A line is skipped as blank exactly when it is empty after trimming. |
| ObjLines.ClassifyByPrefix | app/src/main/java/org/orego/app/face3dActivity/model3D/services/wavefront/WavefrontLoader.java:68-83 | Each directive holds exactly when its prefix (`v `, `vt`, `vn`, `f `, `usemtl `, `mtllib `) does. The prefixes exclude each other, so the order of the `startsWith` tests in both passes does not matter. |
| ObjLines.SplitTokens | app/src/main/java/org/orego/app/face3dActivity/model3D/services/wavefront/WavefrontLoader.java:76-80 | On a trimmed non-empty line, both branches (`split(" +")` when the line holds two adjacent spaces, `split(" ")` otherwise) give the same tokens: the space-separated fields. |
| ObjLines.FaceTriangles | app/src/main/java/org/orego/app/face3dActivity/model3D/services/wavefront/WavefrontLoader.java:74-81 | A trimmed face line adds its number of fields minus three, unclamped, so a face with fewer than three references adds zero or less. |
| ObjLines.ReadFloats | app/src/main/java/org/orego/app/face3dActivity/model3D/services/wavefront/WavefrontLoader.java:212-219 | Consecutive `parseFloat` statements keep the value of every token read before the first failure. They end normally exactly when all tokens were read. They end in `NumberFormatException` at the first token that does not parse, and raise the caller's exception when a token is missing. |
| ObjLines.ReadVertex | app/src/main/java/org/orego/app/face3dActivity/model3D/services/wavefront/WavefrontLoader.java:204-228 | The try block of `addVert` succeeds exactly when the line has 4 or at least 7 tokens and the numbers read all parse. A line of 5 or 6 tokens never succeeds. An uncaught index exception needs fewer than 4 tokens or 5–6 tokens. |
| ObjLines.ReadVertexComponents | app/src/main/java/org/orego/app/face3dActivity/model3D/services/wavefront/WavefrontLoader.java:204-219 | Position component j is token 1+j when tokens 1..1+j all parse, and 0 otherwise. Colour component j is token 4+j only when the line has more than four tokens, the position parsed and tokens 4..4+j parse; otherwise it is 0. |
| ObjLines.CheckTC3D | app/src/main/java/org/orego/app/face3dActivity/model3D/services/wavefront/WavefrontLoader.java:258-264 | On a trimmed line, 3-D mode holds exactly when the line has four whitespace-separated fields. |
| ObjLines.ReadTCTuple | app/src/main/java/org/orego/app/face3dActivity/model3D/services/wavefront/WavefrontLoader.java:266-287 | A tuple comes back exactly when the 2 (2-D) or 3 (3-D) numbers after `vt` all parse. Its components are those numbers, and in 2-D mode `z` is -5.0. `NoSuchElementException` comes only when tokens are missing. |
| Geometry.SetBox | app/src/main/java/org/orego/app/face3dActivity/model3D/services/wavefront/WavefrontLoader.java:221-222 | `set` gives a box that holds its point and no other point. |
| Geometry.Extend | app/src/main/java/org/orego/app/face3dActivity/model3D/services/wavefront/WavefrontLoader.java:223-224 | `update` gives a box that holds the new point and everything the old box held. Each of its six faces lies either where the old box had it or on the new point. |
| Geometry.ExtendAllIsTight | app/src/main/java/org/orego/app/face3dActivity/model3D/services/wavefront/WavefrontLoader.java:223-224 | After a run of `update`s, each face of the box lies where the starting box had it or on one of the points fed to it. |
| Geometry.HullSnoc | app/src/main/java/org/orego/app/face3dActivity/model3D/services/wavefront/WavefrontLoader.java:171-173 | One more vertex after the first is one more `update` of the box. |
| Geometry.ExtendAllContains | app/src/main/java/org/orego/app/face3dActivity/model3D/services/wavefront/WavefrontLoader.java:223-224 | After a run of `update`s, the box holds every point fed to it and everything the starting box held. |
| Geometry.HullContains | app/src/main/java/org/orego/app/face3dActivity/model3D/services/wavefront/WavefrontLoader.java:220-225 | The box built by `set` then `update`s holds every point. |
| Geometry.HullIsTight | app/src/main/java/org/orego/app/face3dActivity/model3D/services/wavefront/WavefrontLoader.java:220-225 | Each of the six faces of that box touches one of the points, so it is the smallest such box. |
| Geometry.HullExample | app/src/main/java/org/orego/app/face3dActivity/model3D/services/wavefront/WavefrontLoader.java:220-225 | Worked example: (0,0,0), (2,-1,3), (-4,5,0) give min (-4,-1,0) and max (2,5,3). |
| ScanPass.LinesOfClassified | app/src/main/java/org/orego/app/face3dActivity/model3D/services/wavefront/WavefrontLoader.java:63-68 | Every line a pass picks for a directive is trimmed and of that directive. |
| ScanPass.CountsPartitionLines | app/src/main/java/org/orego/app/face3dActivity/model3D/services/wavefront/WavefrontLoader.java:63-88 | Every line falls under exactly one directive (blank, one of the six, or ignored), so the counts add up to the number of lines. |
| ScanPass.SumTrianglesCountsReferences | app/src/main/java/org/orego/app/face3dActivity/model3D/services/wavefront/WavefrontLoader.java:74-81 | The triangle count is the total number of vertex references minus two per face line. |
| ScanPass.TriangleCountAtLeastFaces | app/src/main/java/org/orego/app/face3dActivity/model3D/services/wavefront/WavefrontLoader.java:74-81 | When every face line has at least three references, there is at least one triangle per face line. |
| Loader.WavefrontLoader.constructor | app/src/main/java/org/orego/app/face3dActivity/model3D/services/wavefront/WavefrontLoader.java:28-53 | Empty texture list and material uses, no `Faces`, no materials, all counts 0, no buffers, the initial dimensions. |
| Loader.WavefrontLoader.AnalyzeModel | app/src/main/java/org/orego/app/face3dActivity/model3D/services/wavefront/WavefrontLoader.java:55-89 | The loop adds, to the counters, the number of `v`, `vt` and `vn` lines and the triangle count of the `f` lines. `materials` is the path of the last `mtllib` line, or unchanged when there is none. Every other field is unchanged. |
| Loader.WavefrontLoader.AnalyzeLine | app/src/main/java/org/orego/app/face3dActivity/model3D/services/wavefront/WavefrontLoader.java:66-87 | One trimmed line increments exactly the counter of its directive. A face line adds its triangles, and an `mtllib` line sets `materials` to the text after the 7-character prefix. |
| Loader.WavefrontLoader.AllocateBuffers | app/src/main/java/org/orego/app/face3dActivity/model3D/services/wavefront/WavefrontLoader.java:109-121 | The vertex and colour buffers are fresh, zero-filled and hold `3·numVerts` floats. The normals buffer is new with `3·numNormals` only when `numNormals > 0`. The texture buffer holds `3·numTextures`. Only when `numFaces > 0` is a fresh int buffer of `3·numFaces` indices allocated and a new empty `Faces` created. The vertex, colour and normals buffers are three distinct arrays. Only these six fields may change, so the counters and lists are unchanged. |
| Loader.NewDirectBuffer | app/src/main/java/org/orego/app/face3dActivity/model3D/services/wavefront/WavefrontLoader.java:141-147 | `createNativeByteBuffer(...).asFloatBuffer()` gives a new buffer of the requested number of floats, all 0. |
| Loader.NewIndexBuffer | app/src/main/java/org/orego/app/face3dActivity/model3D/services/wavefront/WavefrontLoader.java:118 | `createNativeByteBuffer(...).asIntBuffer()` gives a new buffer of the requested number of ints, all 0. |
| PopulatePass.PutTriple | app/src/main/java/org/orego/app/face3dActivity/model3D/services/wavefront/WavefrontLoader.java:232-233 | Three absolute `put`s write the triple at `offset` exactly when all three indices fit. Otherwise they write the ones before the first bad index. Every other element keeps its value. |
| Loader.PutTripleInto | app/src/main/java/org/orego/app/face3dActivity/model3D/services/wavefront/WavefrontLoader.java:232-233 | The in-place `put` chain on an array leaves exactly the contents and flag `PutTriple` describes. |
| PopulatePass.AddVert | app/src/main/java/org/orego/app/face3dActivity/model3D/services/wavefront/WavefrontLoader.java:200-237 | `addVert` returns true exactly when the line parsed and both triples fit. It returns false exactly on a `NumberFormatException` with room. It never touches the dimensions when they are not tracked (`null`). Buffer sizes are kept. |
| Loader.WavefrontLoader.AddVert | app/src/main/java/org/orego/app/face3dActivity/model3D/services/wavefront/WavefrontLoader.java:200-237 | The method writes the buffers and `modelDims` in place, and returns exactly what the `addVert` function gives: the try block first, then the `finally` writes, whose exceptions replace the result. |
| Loader.WavefrontLoader.AddTexCoord | app/src/main/java/org/orego/app/face3dActivity/model3D/services/wavefront/WavefrontLoader.java:239-256 | The mode is recomputed by `checkTC3D` only on the first `vt` line. A parsed tuple is appended and gives true. A `NumberFormatException` appends nothing and gives false. A missing token raises. |
| Loader.WavefrontLoader.ReadLine | app/src/main/java/org/orego/app/face3dActivity/model3D/services/wavefront/WavefrontLoader.java:168-186 | One iteration of the loop changes the fields and locals exactly as the step function `Handle` does. |
| Loader.WavefrontLoader.ReadVertexLine | app/src/main/java/org/orego/app/face3dActivity/model3D/services/wavefront/WavefrontLoader.java:170-173 | A `v` line updates the buffers, dimensions and locals as `VertexLine` does: the cursor always advances, and `isFirstCoord` is cleared unless an exception escaped. |
| Loader.WavefrontLoader.ReadTexCoordLine | app/src/main/java/org/orego/app/face3dActivity/model3D/services/wavefront/WavefrontLoader.java:174-177 | A `vt` line updates the mode, list and flags as `TexCoordLine` does. |
| Loader.WavefrontLoader.ReadNormalLine | app/src/main/java/org/orego/app/face3dActivity/model3D/services/wavefront/WavefrontLoader.java:178-179 | A `vn` line updates the normals buffer, the vertex colour buffer and its cursor as `NormalLine` does. |
| Loader.WavefrontLoader.ReadFaceLine | app/src/main/java/org/orego/app/face3dActivity/model3D/services/wavefront/WavefrontLoader.java:180-182 | A face line is handed to `Faces` and counted, or raises `NullPointerException` when no `Faces` exists. |
| Loader.WavefrontLoader.ReadLines | app/src/main/java/org/orego/app/face3dActivity/model3D/services/wavefront/WavefrontLoader.java:152-188 | The loop, started with fresh locals, ends in exactly the state the fold `Run` reaches over all the lines. |
| Loader.WavefrontLoader.ReadModel | app/src/main/java/org/orego/app/face3dActivity/model3D/services/wavefront/WavefrontLoader.java:149-198 | The fields end as `Run` describes. The Java method returns nothing; the model's outcome exposes the exception that escaped, or else the final value of the local `isLoaded`, which the Java method only logs. |
| Loader.RunEnds | app/src/main/java/org/orego/app/face3dActivity/model3D/services/wavefront/WavefrontLoader.java:164-192 | The loop stopping early at an exception gives the same state as running every line. |
| Loader.ScanTrianglesStep | app/src/main/java/org/orego/app/face3dActivity/model3D/services/wavefront/WavefrontLoader.java:74-81 | One more line adds its triangles to the count exactly when it is a face line. |
| Loader.ScanMtlLibStep | app/src/main/java/org/orego/app/face3dActivity/model3D/services/wavefront/WavefrontLoader.java:83-85 | An `mtllib` line replaces the material path. Any other line keeps it. |
| PopulateProperties.RunStopsAtFault | app/src/main/java/org/orego/app/face3dActivity/model3D/services/wavefront/WavefrontLoader.java:164-192 | Once an exception has escaped, the remaining lines change nothing. |
| PopulateProperties.HandleCursors | app/src/main/java/org/orego/app/face3dActivity/model3D/services/wavefront/WavefrontLoader.java:170-182 | A handled line advances exactly the cursor of its directive, by one. |
| PopulateProperties.RunCursors | app/src/main/java/org/orego/app/face3dActivity/model3D/services/wavefront/WavefrontLoader.java:158-182 | After a run that raised nothing, each cursor has advanced by the number of lines of its directive, whether or not they parsed. |
| PopulateProperties.RunSizes | app/src/main/java/org/orego/app/face3dActivity/model3D/services/wavefront/WavefrontLoader.java:232-233 | The pass never resizes a buffer. |
| PopulateProperties.RunFaces | app/src/main/java/org/orego/app/face3dActivity/model3D/services/wavefront/WavefrontLoader.java:180-182 | `Faces` receives exactly the face lines, in order. A pass without `Faces` that raised nothing saw no face line. |
| PopulateProperties.RunFlags | app/src/main/java/org/orego/app/face3dActivity/model3D/services/wavefront/WavefrontLoader.java:156-177 | `isFirstCoord` and `isFirstTC` stay set exactly until the first `v` or `vt` line, even a line that failed to parse. |
| PopulateProperties.VertexLineWrites | app/src/main/java/org/orego/app/face3dActivity/model3D/services/wavefront/WavefrontLoader.java:171-173 | A `v` line writes its position and colour at `3·vertNumber`, whether it parsed or not. The flag is cleared unless it parsed. The dimensions are `set` or `update`d only when it parsed. |
| PopulateProperties.NormalLineWrites | app/src/main/java/org/orego/app/face3dActivity/model3D/services/wavefront/WavefrontLoader.java:179 | A `vn` line writes its vector into the normals buffer, and its colour triple into the vertex colour buffer, both at `3·normalNumber`. |
| PopulateProperties.HandleFrame | app/src/main/java/org/orego/app/face3dActivity/model3D/services/wavefront/WavefrontLoader.java:168-186 | Each handler leaves alone what its directive does not own. `usemtl`, `mtllib` and unknown lines change neither the buffers nor the flag. |
| PopulateProperties.FilledSnoc | app/src/main/java/org/orego/app/face3dActivity/model3D/services/wavefront/WavefrontLoader.java:232-233 | Writing the next triple at the next slot extends the filled prefix. |
| PopulateProperties.VertexSlotAfterVertex | app/src/main/java/org/orego/app/face3dActivity/model3D/services/wavefront/WavefrontLoader.java:171 | A `v` line at cursor `b + k` fills vertex slot `b + k` with its position and keeps every earlier slot. |
| PopulateProperties.ColourSlotAfterVertex | app/src/main/java/org/orego/app/face3dActivity/model3D/services/wavefront/WavefrontLoader.java:233 | A `v` line at cursor `b + k` fills colour slot `b + k` with its colour and keeps every earlier slot. |
| PopulateProperties.NormalSlotAfterNormal | app/src/main/java/org/orego/app/face3dActivity/model3D/services/wavefront/WavefrontLoader.java:179 | A `vn` line at normal cursor `b + k` fills normal slot `b + k` with its vector and keeps every earlier slot. |
| PopulateProperties.VertexSlots | app/src/main/java/org/orego/app/face3dActivity/model3D/services/wavefront/WavefrontLoader.java:160-173 | The k-th `v` line fills slot `vertNumber + k` of the vertex buffer with its position. Every element outside those slots keeps its value. |
| PopulateProperties.NormalSlots | app/src/main/java/org/orego/app/face3dActivity/model3D/services/wavefront/WavefrontLoader.java:161-179 | The k-th `vn` line fills slot `normalNumber + k` of the normals buffer, at a cursor independent of the vertex one. A pass with `vn` lines and no normals buffer raises. |
| PopulateProperties.ColoursWithoutNormals | app/src/main/java/org/orego/app/face3dActivity/model3D/services/wavefront/WavefrontLoader.java:171 | Without `vn` lines, the k-th `v` line fills colour slot k with its colour, or with 0, 0, 0 when it has none. |
| PopulateProperties.NormalSlotStep | app/src/main/java/org/orego/app/face3dActivity/model3D/services/wavefront/WavefrontLoader.java:178-179 | One more line keeps the first normal slots filled by the `vn` lines so far, adding a slot when the line is a `vn` line. |
| PopulateProperties.SlotUpdate | app/src/main/java/org/orego/app/face3dActivity/model3D/services/wavefront/WavefrontLoader.java:232-233 | Writing a triple at one slot changes that slot to the triple and no other slot. |
| PopulateProperties.HandleTinting | app/src/main/java/org/orego/app/face3dActivity/model3D/services/wavefront/WavefrontLoader.java:168-186 | A line that raised nothing changes the vertex colour buffer and the two cursors exactly as one step of the colour fold: a `v` line writes its colour at the vertex cursor, a `vn` line at the normal cursor, any other line changes neither. |
| PopulateProperties.TintStep | app/src/main/java/org/orego/app/face3dActivity/model3D/services/wavefront/WavefrontLoader.java:168-186 | One more handled line keeps the colour buffer and cursors equal to the colour fold over the `v` and `vn` lines so far. |
| PopulateProperties.RunTinting | app/src/main/java/org/orego/app/face3dActivity/model3D/services/wavefront/WavefrontLoader.java:152-188 | After a run that raised nothing, the colour buffer and both cursors are the colour fold over the `v` and `vn` lines, in file order. |
| PopulateProperties.TintingCursors | app/src/main/java/org/orego/app/face3dActivity/model3D/services/wavefront/WavefrontLoader.java:171-179 | After the colour lines, each cursor has moved once per line of its own directive. |
| PopulateProperties.NextTintingSlot | app/src/main/java/org/orego/app/face3dActivity/model3D/services/wavefront/WavefrontLoader.java:233 | A `v` or `vn` line changes the colour slot its own cursor names, to its colour triple, and no other slot. |
| PopulateProperties.TintingSlot | app/src/main/java/org/orego/app/face3dActivity/model3D/services/wavefront/WavefrontLoader.java:171-179 | After the colour lines, each colour slot holds `LastColour`: the colour of the last `v` or `vn` line whose own cursor named that slot, or the starting triple when none did. |
| PopulateProperties.RunColours | app/src/main/java/org/orego/app/face3dActivity/model3D/services/wavefront/WavefrontLoader.java:152-188 | After a run that raised nothing, the colour buffer keeps its size and every slot k holds the colour of whichever came later of the k-th `v` line and the k-th `vn` line (counted from the starting cursors), or its starting triple. |
| PopulateProperties.NormalOverwritesVertexColour | app/src/main/java/org/orego/app/face3dActivity/model3D/services/wavefront/WavefrontLoader.java:171-179 | Worked example: for the lines `v 1 2 3 1 1 1` then `vn 0 0 1`, colour slot 0 ends at (0, 0, 0), not (1, 1, 1), because the `vn` line wrote over the vertex's colour. |
| PopulateProperties.NormalsNeedColourSlots | app/src/main/java/org/orego/app/face3dActivity/model3D/services/wavefront/WavefrontLoader.java:179 | Because `vn` lines write the vertex colour buffer at their own slot, a pass that raised nothing had a colour slot for every normal. |
| PopulateContents.OkPointsHead | app/src/main/java/org/orego/app/face3dActivity/model3D/services/wavefront/WavefrontLoader.java:220-222 | When the first `v` line parses, its point is the first point that reaches `set`. |
| PopulateContents.HandleVertexDims | app/src/main/java/org/orego/app/face3dActivity/model3D/services/wavefront/WavefrontLoader.java:171-173 | A `v` line calls `set` on the first coordinate, `update` after it, and nothing when it did not parse. |
| PopulateContents.DimsFoldSnoc | app/src/main/java/org/orego/app/face3dActivity/model3D/services/wavefront/WavefrontLoader.java:171-173 | One more `v` line is one more step of the dimension fold, and only the very first line sees `isFirstCoord`. |
| PopulateContents.DimsStep | app/src/main/java/org/orego/app/face3dActivity/model3D/services/wavefront/WavefrontLoader.java:170-186 | One more handled line keeps the dimensions and `isFirstCoord` as the fold over the `v` lines so far says. |
| PopulateContents.RunDimsFold | app/src/main/java/org/orego/app/face3dActivity/model3D/services/wavefront/WavefrontLoader.java:156-173 | After a run that raised nothing, the dimensions are the fold of `set`/`update` over the `v` lines. |
| PopulateContents.DimsFoldHull | app/src/main/java/org/orego/app/face3dActivity/model3D/services/wavefront/WavefrontLoader.java:220-225 | That fold in closed form. When it starts on the first coordinate and the first `v` line parses, it is the bounding box of the points that parsed. Otherwise `set` is never called, and it is the starting box grown by those points. |
| PopulateContents.RunDims | app/src/main/java/org/orego/app/face3dActivity/model3D/services/wavefront/WavefrontLoader.java:156-225 | After a run that raised nothing, the dimensions are the bounding box of the vertices that parsed (when the first parsed), or else the initial dimensions grown by them. |
| PopulateContents.TexEntriesFlat | app/src/main/java/org/orego/app/face3dActivity/model3D/services/wavefront/WavefrontLoader.java:278-281 | In 2-D mode every stored texture coordinate has `z = DUMMY_Z_TEXTURE_COORDINATE`. |
| PopulateContents.TexEntriesComplete | app/src/main/java/org/orego/app/face3dActivity/model3D/services/wavefront/WavefrontLoader.java:249-253 | When every `vt` line parses, each adds exactly one coordinate. |
| PopulateContents.HandleTexCoord | app/src/main/java/org/orego/app/face3dActivity/model3D/services/wavefront/WavefrontLoader.java:174-177 | A `vt` line is read in the mode the first `vt` line picked. It appends its tuple when it parsed, and clears the flag when it did not. |
| PopulateContents.TexStep | app/src/main/java/org/orego/app/face3dActivity/model3D/services/wavefront/WavefrontLoader.java:174-177 | One more `vt` line keeps the mode and coordinates as `RunTexCoords` states them. |
| PopulateContents.RunTexCoords | app/src/main/java/org/orego/app/face3dActivity/model3D/services/wavefront/WavefrontLoader.java:157-177 | After a run that raised nothing, the mode is `checkTC3D` of the first `vt` line, and it is never recomputed. The list gains one coordinate per `vt` line that parsed, in order. |
| PopulateContents.UseOfLine | app/src/main/java/org/orego/app/face3dActivity/model3D/services/wavefront/WavefrontLoader.java:183-184 | A line adds one material use exactly when it is a `usemtl` line. |
| PopulateContents.UsesOf | app/src/main/java/org/orego/app/face3dActivity/model3D/services/wavefront/WavefrontLoader.java:183-184 | There is one material use per `usemtl` line. |
| PopulateContents.HandleUses | app/src/main/java/org/orego/app/face3dActivity/model3D/services/wavefront/WavefrontLoader.java:183-184 | A handled line appends its material use, with the face-line count so far, and only a `usemtl` line appends one. |
| PopulateContents.RunUses | app/src/main/java/org/orego/app/face3dActivity/model3D/services/wavefront/WavefrontLoader.java:158-184 | After a run that raised nothing, the uses are those of the `usemtl` lines, each paired with the number of face lines before it. |
| PopulateContents.UsesOfSnoc | app/src/main/java/org/orego/app/face3dActivity/model3D/services/wavefront/WavefrontLoader.java:183-184 | A final `usemtl` line adds `(face lines so far, substring(7))`. Any other line adds nothing. |
| PopulateContents.UsesOfNames | app/src/main/java/org/orego/app/face3dActivity/model3D/services/wavefront/WavefrontLoader.java:184 | The k-th use names the text after the 7-character prefix of the k-th `usemtl` line. |
| PopulateContents.UsesOfOrdered | app/src/main/java/org/orego/app/face3dActivity/model3D/services/wavefront/WavefrontLoader.java:180-184 | The face indices of the uses never decrease, and lie between the starting count and the starting count plus the number of face lines. |
| PopulateContents.HandleNormalLoaded | app/src/main/java/org/orego/app/face3dActivity/model3D/services/wavefront/WavefrontLoader.java:179 | A `vn` line keeps `isLoaded` only if it parsed. |
| PopulateContents.HandleFaceLoaded | app/src/main/java/org/orego/app/face3dActivity/model3D/services/wavefront/WavefrontLoader.java:181 | A face line keeps `isLoaded` only if `addFace` accepted it. |
| PopulateContents.AllParsedSnoc | app/src/main/java/org/orego/app/face3dActivity/model3D/services/wavefront/WavefrontLoader.java:171 | One more `v` line keeps "all parsed" exactly when it parsed. |
| PopulateContents.LoadedStep | app/src/main/java/org/orego/app/face3dActivity/model3D/services/wavefront/WavefrontLoader.java:168-186 | One more line of any directive keeps the aggregate flag equal to "every handler so far succeeded". |
| PopulateContents.RunLoaded | app/src/main/java/org/orego/app/face3dActivity/model3D/services/wavefront/WavefrontLoader.java:152-194 | After a run that raised nothing, `isLoaded` holds exactly when it held at the start and every handler succeeded: every `v`, `vn` and `vt` line parsed, and `Faces` accepted every face. A failed line does not stop later lines. |
| LoadCompletion.VertexTokensRead | app/src/main/java/org/orego/app/face3dActivity/model3D/services/wavefront/WavefrontLoader.java:206-219 | A trimmed line with 4 or at least 7 tokens raises no uncaught exception in the try block. |
| LoadCompletion.HandleRaisesNothing | app/src/main/java/org/orego/app/face3dActivity/model3D/services/wavefront/WavefrontLoader.java:168-186 | A trimmed line with the tokens its handler reads, and room in its buffer, raises nothing. |
| LoadCompletion.LastLineFits | app/src/main/java/org/orego/app/face3dActivity/model3D/services/wavefront/WavefrontLoader.java:160-182 | The last of a readable run of lines fits the cursors the lines before it left. |
| LoadCompletion.ReadablePrefix | app/src/main/java/org/orego/app/face3dActivity/model3D/services/wavefront/WavefrontLoader.java:164-188 | Lines the pass can read stay readable without their last line. |
| LoadCompletion.RunRaisesNothing | app/src/main/java/org/orego/app/face3dActivity/model3D/services/wavefront/WavefrontLoader.java:164-188 | Readable lines run to the end without an exception, with cursors at the counts and buffer sizes kept. |
| LoadCompletion.AllocatedReadable | app/src/main/java/org/orego/app/face3dActivity/model3D/services/wavefront/WavefrontLoader.java:109-121 | Buffers sized by the scan have room for every line of a well-formed file. |
| LoadCompletion.LoadCompletes | app/src/main/java/org/orego/app/face3dActivity/model3D/loaderTask/AsyncCustomLoaderTask.java:103-150 | Scan, allocate and populate over the same well-formed lines raise nothing. The vertex cursor ends at exactly `numVerts` (the buffer is full), the normal cursor at `numNormals`, and `Faces` holds every face line. |
| Loader.Prepare | app/src/main/java/org/orego/app/face3dActivity/model3D/loaderTask/AsyncCustomLoaderTask.java:103-114 | A new loader, `analyzeModel` and `allocateBuffers` leave the counts and material path of `Scan`, fresh and distinct vertex, colour and normals buffers, a face index buffer exactly when `numFaces > 0` and of `3·numFaces` ints, and exactly the state `Allocated` that the second pass starts from. |
| Loader.Load | app/src/main/java/org/orego/app/face3dActivity/model3D/loaderTask/AsyncCustomLoaderTask.java:103-150 | The `WavefrontLoader` call sequence of the loader task (constructor, `analyzeModel`, `allocateBuffers`, `loadModel`, which runs `readModel`) ends with the counts of `Scan`, and the buffers, lists, dimensions and outcome of `Run` from `Allocated` over the same lines. |
| LoadCompletion.NormalsWithinVertices | app/src/main/java/org/orego/app/face3dActivity/model3D/services/wavefront/WavefrontLoader.java:112-179 | On buffers sized by the scan, a file with more `vn` than `v` lines always raises, because `vn` lines write the vertex colour buffer. |

## Left out

- The streams: `BufferedReader`, `readLine`, closing, and the `IOException` that becomes a `RuntimeException`. Both passes take the file as a `seq<string>` of lines. The caller opens the same file twice (`AsyncCustomLoaderTask.java`), and the model assumes both passes see the same lines.
- `loadModel`: the stream handling that wraps `readModel` is I/O. `Load` models the call sequence, with `loadModel` as a call of `ReadModel`.
- Logging and `System.out` diagnostics, `reportOnModel`, and the getters.
- Loader.Load: the loader task's diagnostic `wfl.getColorsVert().get(3400)` (AsyncCustomLoaderTask.java:123) runs between `allocateBuffers` and `loadModel`. It raises `IndexOutOfBoundsException` whenever the colour buffer holds at most 3400 floats, that is for models of at most 1133 vertices. `doInBackground` catches it (AsyncCustomLoaderTask.java:64-74), so `loadModel` never runs for such files. This abort is not modelled: `Load` and `Prepare` describe the `WavefrontLoader` calls only.
- LoadCompletion.LoadCompletes: states what the scan, allocation and second pass do on the same lines. It does not model the loader task's abort for models of at most 1133 vertices described in the line above.
- `Float.parseFloat` and 32-bit floats: the parser is a parameter, and values are `real`. Rounding, NaN and infinities are not modelled, so the `Min`/`Max` of the box are exact.
- `int` overflow of the counters, of `numVerts * 3 * 4` and of the cursor offsets: counts are unbounded.
- `ByteBuffer.allocateDirect` and its byte order: buffers are `array<real>` of the stated length.
- `Faces`, `FaceMaterials`, `Materials` and `ModelDimensions` are not part of this model:
  - `Faces` is recorded as the sequence of lines handed to `addFace`, and its verdict is the `acceptFace` parameter. The fan triangulation and `INDEXES_START_AT_1` are not modelled. The int buffer of `3·numFaces` indices that `allocateBuffers` creates and hands to `Faces` is the loader's `faceIndexBuffer` array; its contents after allocation are written only inside `Faces`, so they are not tracked.
  - `FaceMaterials.addUse` is an append to a sequence.
  - `Materials` is the path it was built from.
  - `ModelDimensions.set`/`update` are the box of `Geometry`.
- `textureCoordsBuffer` is allocated with `3·numTextures` zeros but never written, so the model does not track its contents after allocation.
- Loader.WavefrontLoader.ReadModel: requires the vertex and colour buffers to exist and to be distinct from each other and from the normals buffer. `AllocateBuffers` ensures exactly this, and `Load` runs `ReadModel` on what `Prepare` leaves. Calling `readModel` before `allocateBuffers` would raise `NullPointerException`, and that case is not modelled.
- Loader.WavefrontLoader.constructor: a new `ModelDimensions` starts in a state its source does not show, so the starting box is a parameter.

## Behaviour of the code worth noting

- `usemtl` records the number of **face lines** read so far (one per `f` line, however many triangles it holds), and takes `substring(7)`.
- A `vn` line writes its colour triple into the **vertex** colour buffer, at the normal's own offset. This overwrites vertex colours, and raises once there are more normals than vertices (`NormalsWithinVertices`). `RunColours` states the resulting colour of every slot.
- The triangle count is "references minus two" per face line, not clamped. It accumulates onto whatever the counters held before `analyzeModel`.
- `analyzeModel` ignores `usemtl` lines, and `readModel` ignores `mtllib` lines.
- Only `NumberFormatException` is caught. Three cases raise an uncaught exception that ends the pass:
  - a `v`/`vn` line with 5–6 tokens or fewer than 4 (the `finally` writes first);
  - a `vt` line missing a number in the mode in force;
  - a face line when no `Faces` was created.
- In the loader task, the diagnostic `get(3400)` on the colour buffer between `allocateBuffers` and `loadModel` raises for every model of at most 1133 vertices, so those models are never parsed by `loadModel`.
