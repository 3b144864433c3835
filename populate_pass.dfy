/**
 * The second pass (`readModel` with `addVert`, `addTexCoord` and the calls
 * into `Faces` and `FaceMaterials`) as a fold of one step function over the
 * lines. The state holds the buffer contents, the lists the loader appends
 * to and `readModel`'s local cursors and flags. An exception other than
 * `NumberFormatException` ends the pass: the state records it in `fault` and
 * later lines change nothing.
 */
module PopulatePass {
  import opened Wrappers
  import opened JavaText
  import opened Geometry
  import opened ObjLines
  import opened ScanPass

  /**
   * The code the model cannot see: `Float.parseFloat`, and the verdict of
   * `Faces.addFace` for the face line it is handed, given how many face lines
   * it was handed before.
   */
  datatype Env = Env(parse: Parser, acceptFace: (nat, string) -> bool)

  /** How a line handler ends: it returns its success flag, or it raises an exception the pass does not catch. */
  datatype Outcome = Done(ok: bool) | Raised(fault: Fault)

  /** `usemtl`: the material named from a given face line on (`FaceMaterials.addUse`). */
  datatype MaterialUse = MaterialUse(faceIndex: nat, name: string)

  /**
   * `buffer.put(offset, a).put(offset + 1, b).put(offset + 2, c)`: each `put`
   * checks its index, and the first one out of range throws, leaving the later
   * ones undone. The flag says whether all three were written.
   */
  function PutTriple(buf: seq<real>, offset: nat, t: seq<real>): (r: (seq<real>, bool))
    requires |t| == 3
    ensures |r.0| == |buf|
    ensures r.1 <==> offset + 3 <= |buf|
    ensures r.1 ==> r.0 == buf[..offset] + t + buf[offset + 3..]
    ensures forall i :: 0 <= i < |buf| && !(offset <= i < offset + 3) ==> r.0[i] == buf[i]
    ensures forall i :: offset <= i < offset + 3 && i < |buf| ==> r.0[i] == t[i - offset]
  {
    if offset + 2 < |buf| then
      var r := buf[offset := t[0]][offset + 1 := t[1]][offset + 2 := t[2]];
      assert r == buf[..offset] + t + buf[offset + 3..];
      (r, true)
    else if offset + 1 < |buf| then (buf[offset := t[0]][offset + 1 := t[1]], false)
    else if offset < |buf| then (buf[offset := t[0]], false)
    else (buf, false)
  }

  /** What `addVert` leaves behind: the buffer (absent when null), the colour buffer, the model dimensions, and how it ended. */
  datatype VertWrite = VertWrite(buffer: Option<seq<real>>, colors: seq<real>, dims: Box, outcome: Outcome)

  /**
   * `addVert(buffer, colorsBuffer, offset, line, isFirstCoord, dimensions)`.
   * The try block reads the numbers; only when it returns normally and the
   * dimensions are tracked does it call `set` (first vertex) or `update`.
   * The finally block then writes the position triple into `buffer` and the
   * colour triple into `colorsBuffer` at `offset`, whatever happened before.
   * An exception in the finally block (a null buffer, an index out of range)
   * replaces the one pending from the try block.
   */
  function AddVert(buffer: Option<seq<real>>, colors: seq<real>, offset: nat, t: string,
                   isFirstCoord: bool, trackDims: bool, dims: Box, parse: Parser): (w: VertWrite)
    ensures w.buffer.Some? == buffer.Some? && |w.colors| == |colors|
    ensures buffer.Some? ==> |w.buffer.value| == |buffer.value|
    ensures w.outcome == Done(true) <==>
      WellFormedVertex(SplitTokens(t), parse) && buffer.Some? && offset + 3 <= |buffer.value| && offset + 3 <= |colors|
    ensures w.outcome == Done(false) <==>
      ReadVertex(t, parse).outcome == NumberFormat && buffer.Some? && offset + 3 <= |buffer.value| && offset + 3 <= |colors|
    ensures !trackDims ==> w.dims == dims
  {
    var v := ReadVertex(t, parse);
    var dims' := if v.outcome == Returned && trackDims then
                   (if isFirstCoord then SetBox(Vec3(v.pos[0], v.pos[1], v.pos[2]))
                    else Extend(dims, Vec3(v.pos[0], v.pos[1], v.pos[2])))
                 else dims;
    match buffer
    case None => VertWrite(None, colors, dims', Raised(NullPointer))
    case Some(b) =>
      var pb := PutTriple(b, offset, v.pos);
      if !pb.1 then VertWrite(Some(pb.0), colors, dims', Raised(IndexOutOfBounds)) else
      var pc := PutTriple(colors, offset, v.rgb);
      if !pc.1 then VertWrite(Some(pb.0), pc.0, dims', Raised(IndexOutOfBounds)) else
      VertWrite(Some(pb.0), pc.0, dims',
        match v.outcome
        case Returned => Done(true)
        case NumberFormat => Done(false)
        case Thrown(f) => Raised(f))
  }

  /** The position a vertex line describes. */
  function PointOf(t: string, parse: Parser): Vec3 {
    var v := ReadVertex(t, parse);
    Vec3(v.pos[0], v.pos[1], v.pos[2])
  }

  /**
   * The state of the second pass. `faces` is the sequence of lines handed to
   * `Faces.addFace`, absent when `allocateBuffers` created no `Faces` (no
   * positive triangle count). `isLoaded`, `isFirstCoord`, `isFirstTC`,
   * `faceLines`, `vertNumber` and `normalNumber` are `readModel`'s locals.
   */
  datatype Pass = Pass(
    verts: seq<real>, colors: seq<real>, normals: Option<seq<real>>,
    faces: Option<seq<string>>,
    texCoords: seq<Vec3>, tc3D: bool,
    uses: seq<MaterialUse>, dims: Box,
    isLoaded: bool, isFirstCoord: bool, isFirstTC: bool,
    faceLines: nat, vertNumber: nat, normalNumber: nat,
    fault: Option<Fault>)

  /** `v`: `addVert(vertsBuffer, colorVerts, vertNumber++ * 3, line, isFirstCoord, modelDims)`. */
  function VertexLine(env: Env, s: Pass, t: string): Pass {
    var w := AddVert(Some(s.verts), s.colors, 3 * s.vertNumber, t, s.isFirstCoord, true, s.dims, env.parse);
    var s1 := s.(verts := w.buffer.value, colors := w.colors, dims := w.dims, vertNumber := s.vertNumber + 1);
    match w.outcome
    case Raised(f) => s1.(fault := Some(f))
    case Done(ok) => s1.(isLoaded := ok && s.isLoaded, isFirstCoord := false)
  }

  /**
   * `vn`: `addVert(normalsBuffer, colorVerts, normalNumber++ * 3, line, isFirstCoord, null)`.
   * The colour triple goes to the vertex colour buffer at the normal's offset.
   */
  function NormalLine(env: Env, s: Pass, t: string): Pass {
    var w := AddVert(s.normals, s.colors, 3 * s.normalNumber, t, s.isFirstCoord, false, s.dims, env.parse);
    var s1 := s.(normals := w.buffer, colors := w.colors, normalNumber := s.normalNumber + 1);
    match w.outcome
    case Raised(f) => s1.(fault := Some(f))
    case Done(ok) => s1.(isLoaded := ok && s.isLoaded)
  }

  /** `vt`: `addTexCoord(line, isFirstTC)`; the mode is decided from the first such line only. */
  function TexCoordLine(env: Env, s: Pass, t: string): Pass {
    var mode := if s.isFirstTC then CheckTC3D(t) else s.tc3D;
    var s1 := s.(tc3D := mode);
    match ReadTCTuple(t, mode, env.parse)
    case TexThrown(f) => s1.(fault := Some(f))
    case TexTuple(v) => s1.(texCoords := s.texCoords + [v], isFirstTC := false)
    case TexNull => s1.(isLoaded := false, isFirstTC := false)
  }

  /** `f`: `faces.addFace(line)`, a null dereference when no `Faces` was created. */
  function FaceLine(env: Env, s: Pass, t: string): Pass {
    match s.faces
    case None => s.(fault := Some(NullPointer))
    case Some(fs) =>
      s.(faces := Some(fs + [t]), isLoaded := env.acceptFace(|fs|, t) && s.isLoaded, faceLines := s.faceLines + 1)
  }

  /** The handler `readModel` picks for a trimmed line. */
  function Handle(env: Env, s: Pass, t: string): Pass {
    match Classify(t)
    case Vertex => VertexLine(env, s, t)
    case TexCoord => TexCoordLine(env, s, t)
    case Normal => NormalLine(env, s, t)
    case Face => FaceLine(env, s, t)
    case UseMtl => s.(uses := s.uses + [MaterialUse(s.faceLines, t[7..])])
    case Blank => s
    case MtlLib => s
    case Other => s
  }

  /** One iteration of `readModel`'s loop on a raw line; nothing runs once an exception has escaped. */
  function Step(env: Env, s: Pass, line: string): Pass {
    if s.fault.Some? then s else Handle(env, s, Trim(line))
  }

  /** `readModel`'s loop over `lines`. */
  function Run(env: Env, s: Pass, lines: seq<string>): Pass {
    if lines == [] then s else Step(env, Run(env, s, lines[..|lines| - 1]), lines[|lines| - 1])
  }

  /** The state `readModel` starts in: the loader's fields as they are, its locals fresh. */
  function Begin(verts: seq<real>, colors: seq<real>, normals: Option<seq<real>>, faces: Option<seq<string>>,
                 texCoords: seq<Vec3>, tc3D: bool, uses: seq<MaterialUse>, dims: Box): Pass {
    Pass(verts, colors, normals, faces, texCoords, tc3D, uses, dims, true, true, true, 0, 0, 0, None)
  }

  /** A direct buffer as allocated: every element 0. */
  function Zeros(n: nat): (z: seq<real>)
    ensures |z| == n && forall i :: 0 <= i < n ==> z[i] == 0.0
  {
    seq(n, _ => 0.0)
  }

  /** The state of a freshly constructed loader after `analyzeModel` and `allocateBuffers`, as `readModel` begins. */
  function Allocated(scan: ScanResult, dims: Box): Pass {
    Begin(Zeros(3 * scan.numVerts), Zeros(3 * scan.numVerts),
          if scan.numNormals > 0 then Some(Zeros(3 * scan.numNormals)) else None,
          if scan.numFaces > 0 then Some([]) else None,
          [], false, [], dims)
  }
}
