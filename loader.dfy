/**
 * The loader object itself: its counters, its direct float buffers (arrays
 * of reals), its list of texture coordinates, the faces, the material uses
 * and the model dimensions, updated in place by the two passes. Each method
 * is proved against the functions of the scan and the populate pass.
 */
module Loader {
  import opened Wrappers
  import opened JavaText
  import opened Geometry
  import opened ObjLines
  import opened ScanPass
  import opened PopulatePass
  import opened PopulateProperties
  import opened PopulateContents
  import opened LoadCompletion

  class WavefrontLoader {
    var hasTextureCoordinates3D: bool
    var textureCoordinates: seq<Vec3>
    /** The lines handed to `Faces`; `None` while no `Faces` exists. */
    var faces: Option<seq<string>>
    /** The uses recorded in `FaceMaterials`. */
    var faceMats: seq<MaterialUse>
    /** The path the `Materials` was built from; `None` while there is none. */
    var materials: Option<string>
    var modelDims: Box

    var numVerts: nat
    var numTextures: nat
    var numNormals: nat
    var numFaces: int

    var vertsBuffer: array?<real>
    var normalsBuffer: array?<real>
    var colorVerts: array?<real>
    var textureCoordsBuffer: array?<real>
    /** The direct int buffer `allocateBuffers` hands to the new `Faces`: three indices per triangle. */
    var faceIndexBuffer: array?<int>

    /** A new loader: empty lists, no buffers, all counts 0; `dims` is the state a new `ModelDimensions` starts in. */
    constructor(dims: Box)
      ensures !hasTextureCoordinates3D && textureCoordinates == [] && faces == None && faceMats == []
      ensures materials == None && modelDims == dims
      ensures numVerts == 0 && numTextures == 0 && numNormals == 0 && numFaces == 0
      ensures vertsBuffer == null && normalsBuffer == null && colorVerts == null && textureCoordsBuffer == null
      ensures faceIndexBuffer == null
    {
      hasTextureCoordinates3D := false;
      textureCoordinates := [];
      faces := None;
      faceMats := [];
      materials := None;
      modelDims := dims;
      numVerts, numTextures, numNormals, numFaces := 0, 0, 0, 0;
      vertsBuffer, normalsBuffer, colorVerts, textureCoordsBuffer := null, null, null, null;
      faceIndexBuffer := null;
    }

    /**
     * `analyzeModel`: counts the vertices, texture coordinates and normals,
     * adds up the triangles of the face lines, and builds the materials named
     * by each `mtllib` line, the last one staying. Counts add to what the
     * fields held before.
     */
    method AnalyzeModel(lines: seq<string>)
      modifies this
      ensures numVerts == old(numVerts) + CountOf(lines, Vertex)
      ensures numTextures == old(numTextures) + CountOf(lines, TexCoord)
      ensures numNormals == old(numNormals) + CountOf(lines, Normal)
      ensures numFaces == old(numFaces) + TriangleCount(lines)
      ensures materials == if LastMtlLib(lines).Some? then LastMtlLib(lines) else old(materials)
      ensures hasTextureCoordinates3D == old(hasTextureCoordinates3D) && textureCoordinates == old(textureCoordinates)
      ensures faces == old(faces) && faceMats == old(faceMats) && modelDims == old(modelDims)
      ensures vertsBuffer == old(vertsBuffer) && normalsBuffer == old(normalsBuffer)
      ensures colorVerts == old(colorVerts) && textureCoordsBuffer == old(textureCoordsBuffer)
      ensures faceIndexBuffer == old(faceIndexBuffer)
    {
      var i := 0;
      while i < |lines|
        invariant 0 <= i <= |lines|
        invariant numVerts == old(numVerts) + CountOf(lines[..i], Vertex)
        invariant numTextures == old(numTextures) + CountOf(lines[..i], TexCoord)
        invariant numNormals == old(numNormals) + CountOf(lines[..i], Normal)
        invariant numFaces == old(numFaces) + TriangleCount(lines[..i])
        invariant materials == if LastMtlLib(lines[..i]).Some? then LastMtlLib(lines[..i]) else old(materials)
        invariant hasTextureCoordinates3D == old(hasTextureCoordinates3D) && textureCoordinates == old(textureCoordinates)
        invariant faces == old(faces) && faceMats == old(faceMats) && modelDims == old(modelDims)
        invariant vertsBuffer == old(vertsBuffer) && normalsBuffer == old(normalsBuffer)
        invariant colorVerts == old(colorVerts) && textureCoordsBuffer == old(textureCoordsBuffer)
        invariant faceIndexBuffer == old(faceIndexBuffer)
      {
        AnalyzeLine(Trim(lines[i]));
        ScanCountsStep(lines, i, Vertex);
        ScanCountsStep(lines, i, TexCoord);
        ScanCountsStep(lines, i, Normal);
        ScanTrianglesStep(lines, i);
        ScanMtlLibStep(lines, i);
        i := i + 1;
      }
      assert lines[..i] == lines;
    }

    /** The contents of the normals buffer, absent while it is null. */
    ghost function Normals(): Option<seq<real>>
      reads this, normalsBuffer
    {
      if normalsBuffer == null then None else Some(normalsBuffer[..])
    }

    /** The second pass's view of the loader, with `readModel`'s locals. */
    ghost function Image(isLoaded: bool, isFirstCoord: bool, isFirstTC: bool, faceLines: nat,
                         vertNumber: nat, normalNumber: nat, fault: Option<Fault>): Pass
      reads this, vertsBuffer, colorVerts, normalsBuffer
      requires vertsBuffer != null && colorVerts != null
    {
      Pass(vertsBuffer[..], colorVerts[..], Normals(),
           faces, textureCoordinates, hasTextureCoordinates3D, faceMats, modelDims,
           isLoaded, isFirstCoord, isFirstTC, faceLines, vertNumber, normalNumber, fault)
    }

    /**
     * `addVert`: the try block reads the numbers and, when they all parsed and
     * dimensions are tracked, sets or updates the model dimensions; the
     * finally block then writes the position into `buffer` and the colour
     * into `colorsBuffer` at `offset`, and its exceptions replace the result.
     */
    method AddVert(buffer: array?<real>, colorsBuffer: array<real>, offset: nat, line: string,
                   isFirstCoord: bool, trackDims: bool, parse: Parser) returns (outcome: Outcome)
      requires buffer != colorsBuffer
      modifies buffer, colorsBuffer, this`modelDims
      ensures var w := PopulatePass.AddVert(if buffer == null then None else Some(old(buffer[..])), old(colorsBuffer[..]),
                                            offset, line, isFirstCoord, trackDims, old(modelDims), parse);
        && outcome == w.outcome && modelDims == w.dims && colorsBuffer[..] == w.colors
        && (buffer != null ==> buffer[..] == w.buffer.value)
    {
      var v := ReadVertex(line, parse);
      if v.outcome == Returned && trackDims {
        if isFirstCoord {
          modelDims := SetBox(Vec3(v.pos[0], v.pos[1], v.pos[2]));
        } else {
          modelDims := Extend(modelDims, Vec3(v.pos[0], v.pos[1], v.pos[2]));
        }
      }
      if buffer == null {
        return Raised(NullPointer);
      }
      var wrote := PutTripleInto(buffer, offset, v.pos);
      if !wrote {
        return Raised(IndexOutOfBounds);
      }
      wrote := PutTripleInto(colorsBuffer, offset, v.rgb);
      if !wrote {
        return Raised(IndexOutOfBounds);
      }
      outcome := match v.outcome
        case Returned => Done(true)
        case NumberFormat => Done(false)
        case Thrown(f) => Raised(f);
    }

    /**
     * `addTexCoord`: on the first `vt` line it decides the mode with
     * `checkTC3D`; it then reads the tuple in the current mode and appends it.
     */
    method AddTexCoord(line: string, isFirstTC: bool, parse: Parser) returns (outcome: Outcome)
      modifies this`hasTextureCoordinates3D, this`textureCoordinates
      ensures hasTextureCoordinates3D == if isFirstTC then CheckTC3D(line) else old(hasTextureCoordinates3D)
      ensures var tc := ReadTCTuple(line, hasTextureCoordinates3D, parse);
        && textureCoordinates == old(textureCoordinates) + (if tc.TexTuple? then [tc.tc] else [])
        && outcome == (match tc case TexTuple(_) => Done(true) case TexNull => Done(false) case TexThrown(f) => Raised(f))
    {
      if isFirstTC {
        hasTextureCoordinates3D := CheckTC3D(line);
      }
      var tc := ReadTCTuple(line, hasTextureCoordinates3D, parse);
      match tc
      case TexTuple(v) =>
        textureCoordinates := textureCoordinates + [v];
        outcome := Done(true);
      case TexNull =>
        outcome := Done(false);
      case TexThrown(f) =>
        outcome := Raised(f);
    }

    /** The body of `analyzeModel`'s loop on a trimmed line. */
    method AnalyzeLine(line: string)
      modifies this
      ensures var d := Classify(line);
        && numVerts == old(numVerts) + (if d == Vertex then 1 else 0)
        && numTextures == old(numTextures) + (if d == TexCoord then 1 else 0)
        && numNormals == old(numNormals) + (if d == Normal then 1 else 0)
        && numFaces == old(numFaces) + (if d == Face then FaceTriangles(line) else 0)
        && (d == MtlLib ==> |line| >= 7 && materials == Some(line[7..]))
        && (d != MtlLib ==> materials == old(materials))
      ensures hasTextureCoordinates3D == old(hasTextureCoordinates3D) && textureCoordinates == old(textureCoordinates)
      ensures faces == old(faces) && faceMats == old(faceMats) && modelDims == old(modelDims)
      ensures vertsBuffer == old(vertsBuffer) && normalsBuffer == old(normalsBuffer)
      ensures colorVerts == old(colorVerts) && textureCoordsBuffer == old(textureCoordsBuffer)
      ensures faceIndexBuffer == old(faceIndexBuffer)
    {
      ClassifyByPrefix(line);
      if |line| > 0 {
        if StartsWith(line, "v ") {
          numVerts := numVerts + 1;
        } else if StartsWith(line, "vt") {
          numTextures := numTextures + 1;
        } else if StartsWith(line, "vn") {
          numNormals := numNormals + 1;
        } else if StartsWith(line, "f ") {
          var faceSize := if HasDoubleSpace(line) then |SplitOnRuns(line, Space)| - 1 else |SplitOnSpace(line)| - 1;
          FaceSizeIsTriangles(line);
          numFaces := numFaces + (faceSize - 2);
        } else if StartsWith(line, "mtllib ") {
          materials := Some(line[7..]);
        }
      }
    }

    /**
     * `allocateBuffers`: zero-filled vertex and colour buffers of three floats
     * per vertex, a normals buffer only when there are normals, a texture
     * buffer, and, only when the triangle count is positive, a zero-filled
     * int buffer of three indices per triangle and a `Faces` over it; every
     * buffer is a separate allocation, and fields it does not assign keep
     * their values.
     */
    method AllocateBuffers()
      modifies this`vertsBuffer, this`colorVerts, this`normalsBuffer, this`textureCoordsBuffer, this`faceIndexBuffer, this`faces
      ensures vertsBuffer != null && fresh(vertsBuffer) && vertsBuffer[..] == Zeros(3 * numVerts)
      ensures colorVerts != null && fresh(colorVerts) && colorVerts[..] == Zeros(3 * numVerts)
      ensures numNormals > 0 ==> normalsBuffer != null && fresh(normalsBuffer) && normalsBuffer[..] == Zeros(3 * numNormals)
      ensures numNormals == 0 ==> normalsBuffer == old(normalsBuffer)
      ensures vertsBuffer != colorVerts && normalsBuffer != vertsBuffer && normalsBuffer != colorVerts
      ensures textureCoordsBuffer != null && fresh(textureCoordsBuffer) && textureCoordsBuffer[..] == Zeros(3 * numTextures)
      ensures numFaces > 0 ==> faceIndexBuffer != null && fresh(faceIndexBuffer) && faceIndexBuffer.Length == 3 * numFaces
      ensures numFaces <= 0 ==> faceIndexBuffer == old(faceIndexBuffer)
      ensures faces == if numFaces > 0 then Some([]) else old(faces)
    {
      vertsBuffer := NewDirectBuffer(3 * numVerts);
      colorVerts := NewDirectBuffer(3 * numVerts);
      if numNormals > 0 {
        normalsBuffer := NewDirectBuffer(3 * numNormals);
      }
      textureCoordsBuffer := NewDirectBuffer(3 * numTextures);
      if numFaces > 0 {
        faceIndexBuffer := NewIndexBuffer(3 * numFaces);
        faces := Some([]);
      }
    }

    /**
     * The body of `readModel`'s loop on a trimmed line, given the loop's
     * locals; it returns their new values and the exception that escaped, if
     * any. The locals and the fields together change as `Handle` says.
     */
    method ReadLine(env: Env, t: string, isLoaded: bool, isFirstCoord: bool, isFirstTC: bool,
                    faceLines: nat, vertNumber: nat, normalNumber: nat)
      returns (isLoaded': bool, isFirstCoord': bool, isFirstTC': bool,
               faceLines': nat, vertNumber': nat, normalNumber': nat, fault: Option<Fault>)
      requires vertsBuffer != null && colorVerts != null
      requires vertsBuffer != colorVerts && normalsBuffer != vertsBuffer && normalsBuffer != colorVerts
      modifies this`modelDims, this`hasTextureCoordinates3D, this`textureCoordinates, this`faces, this`faceMats
      modifies vertsBuffer, colorVerts, normalsBuffer
      ensures Image(isLoaded', isFirstCoord', isFirstTC', faceLines', vertNumber', normalNumber', fault)
           == Handle(env, old(Image(isLoaded, isFirstCoord, isFirstTC, faceLines, vertNumber, normalNumber, None)), t)
    {
      isLoaded', isFirstCoord', isFirstTC' := isLoaded, isFirstCoord, isFirstTC;
      faceLines', vertNumber', normalNumber' := faceLines, vertNumber, normalNumber;
      fault := None;
      ClassifyByPrefix(t);
      if |t| > 0 {
        if StartsWith(t, "v ") {
          isLoaded', isFirstCoord', vertNumber', fault :=
            ReadVertexLine(env, t, isLoaded, isFirstCoord, isFirstTC, faceLines, vertNumber, normalNumber);
        } else if StartsWith(t, "vt") {
          isLoaded', isFirstTC', fault :=
            ReadTexCoordLine(env, t, isLoaded, isFirstCoord, isFirstTC, faceLines, vertNumber, normalNumber);
        } else if StartsWith(t, "vn") {
          isLoaded', normalNumber', fault :=
            ReadNormalLine(env, t, isLoaded, isFirstCoord, isFirstTC, faceLines, vertNumber, normalNumber);
        } else if StartsWith(t, "f ") {
          isLoaded', faceLines', fault :=
            ReadFaceLine(env, t, isLoaded, isFirstCoord, isFirstTC, faceLines, vertNumber, normalNumber);
        } else if StartsWith(t, "usemtl ") {
          DirectiveLength(t);
          faceMats := faceMats + [MaterialUse(faceLines, t[7..])];
        }
      }
    }

    /** A `v` line: `addVert(vertsBuffer, colorVerts, vertNumber++ * 3, line, isFirstCoord, modelDims)`. */
    method ReadVertexLine(env: Env, t: string, isLoaded: bool, isFirstCoord: bool, isFirstTC: bool,
                          faceLines: nat, vertNumber: nat, normalNumber: nat)
      returns (isLoaded': bool, isFirstCoord': bool, vertNumber': nat, fault: Option<Fault>)
      requires vertsBuffer != null && colorVerts != null
      requires vertsBuffer != colorVerts && normalsBuffer != vertsBuffer && normalsBuffer != colorVerts
      modifies this`modelDims, vertsBuffer, colorVerts
      ensures Image(isLoaded', isFirstCoord', isFirstTC, faceLines, vertNumber', normalNumber, fault)
           == VertexLine(env, old(Image(isLoaded, isFirstCoord, isFirstTC, faceLines, vertNumber, normalNumber, None)), t)
    {
      ghost var s := Image(isLoaded, isFirstCoord, isFirstTC, faceLines, vertNumber, normalNumber, None);
      var o := AddVert(vertsBuffer, colorVerts, vertNumber * 3, t, isFirstCoord, true, env.parse);
      ghost var w := PopulatePass.AddVert(Some(s.verts), s.colors, 3 * vertNumber, t, isFirstCoord, true, s.dims, env.parse);
      assert o == w.outcome && modelDims == w.dims && colorVerts[..] == w.colors && vertsBuffer[..] == w.buffer.value;
      assert Normals() == s.normals;
      vertNumber' := vertNumber + 1;
      isLoaded', isFirstCoord', fault := isLoaded, isFirstCoord, None;
      if o.Raised? {
        fault := Some(o.fault);
      } else {
        isLoaded' := o.ok && isLoaded;
        if isFirstCoord {
          isFirstCoord' := false;
        }
      }
      ghost var r := Pass(w.buffer.value, w.colors, s.normals, s.faces, s.texCoords, s.tc3D, s.uses, w.dims,
                          isLoaded', isFirstCoord', isFirstTC, faceLines, vertNumber', normalNumber, fault);
      assert Image(isLoaded', isFirstCoord', isFirstTC, faceLines, vertNumber', normalNumber, fault) == r;
      assert r == VertexLine(env, s, t);
    }

    /** A `vt` line: `addTexCoord(line, isFirstTC)`. */
    method ReadTexCoordLine(env: Env, t: string, isLoaded: bool, isFirstCoord: bool, isFirstTC: bool,
                            faceLines: nat, vertNumber: nat, normalNumber: nat)
      returns (isLoaded': bool, isFirstTC': bool, fault: Option<Fault>)
      requires vertsBuffer != null && colorVerts != null
      modifies this`hasTextureCoordinates3D, this`textureCoordinates
      ensures Image(isLoaded', isFirstCoord, isFirstTC', faceLines, vertNumber, normalNumber, fault)
           == TexCoordLine(env, old(Image(isLoaded, isFirstCoord, isFirstTC, faceLines, vertNumber, normalNumber, None)), t)
    {
      ghost var s := Image(isLoaded, isFirstCoord, isFirstTC, faceLines, vertNumber, normalNumber, None);
      var o := AddTexCoord(t, isFirstTC, env.parse);
      assert vertsBuffer[..] == s.verts && colorVerts[..] == s.colors && Normals() == s.normals;
      isLoaded', isFirstTC', fault := isLoaded, isFirstTC, None;
      if o.Raised? {
        fault := Some(o.fault);
      } else {
        isLoaded' := o.ok && isLoaded;
        if isFirstTC {
          isFirstTC' := false;
        }
      }
      ghost var s1 := s.(texCoords := textureCoordinates, tc3D := hasTextureCoordinates3D);
      assert Image(isLoaded', isFirstCoord, isFirstTC', faceLines, vertNumber, normalNumber, fault)
          == s1.(isLoaded := isLoaded', isFirstTC := isFirstTC', fault := fault);
    }

    /**
     * A `vn` line: `addVert(normalsBuffer, colorVerts, normalNumber++ * 3, line, isFirstCoord, null)`;
     * the colour triple lands in the vertex colour buffer.
     */
    method ReadNormalLine(env: Env, t: string, isLoaded: bool, isFirstCoord: bool, isFirstTC: bool,
                          faceLines: nat, vertNumber: nat, normalNumber: nat)
      returns (isLoaded': bool, normalNumber': nat, fault: Option<Fault>)
      requires vertsBuffer != null && colorVerts != null
      requires vertsBuffer != colorVerts && normalsBuffer != vertsBuffer && normalsBuffer != colorVerts
      modifies this`modelDims, normalsBuffer, colorVerts
      ensures Image(isLoaded', isFirstCoord, isFirstTC, faceLines, vertNumber, normalNumber', fault)
           == NormalLine(env, old(Image(isLoaded, isFirstCoord, isFirstTC, faceLines, vertNumber, normalNumber, None)), t)
    {
      ghost var s := Image(isLoaded, isFirstCoord, isFirstTC, faceLines, vertNumber, normalNumber, None);
      var o := AddVert(normalsBuffer, colorVerts, normalNumber * 3, t, isFirstCoord, false, env.parse);
      ghost var w := PopulatePass.AddVert(s.normals, s.colors, 3 * normalNumber, t, isFirstCoord, false, s.dims, env.parse);
      assert o == w.outcome && modelDims == w.dims && colorVerts[..] == w.colors && Normals() == w.buffer;
      assert vertsBuffer[..] == s.verts;
      normalNumber' := normalNumber + 1;
      isLoaded', fault := isLoaded, None;
      if o.Raised? {
        fault := Some(o.fault);
      } else {
        isLoaded' := o.ok && isLoaded;
      }
      ghost var r := Pass(s.verts, w.colors, w.buffer, s.faces, s.texCoords, s.tc3D, s.uses, s.dims,
                          isLoaded', isFirstCoord, isFirstTC, faceLines, vertNumber, normalNumber', fault);
      assert Image(isLoaded', isFirstCoord, isFirstTC, faceLines, vertNumber, normalNumber', fault) == r;
      assert r == NormalLine(env, s, t);
    }

    /** An `f` line: `faces.addFace(line)`, and one more face line counted. */
    method ReadFaceLine(env: Env, t: string, isLoaded: bool, isFirstCoord: bool, isFirstTC: bool,
                        faceLines: nat, vertNumber: nat, normalNumber: nat)
      returns (isLoaded': bool, faceLines': nat, fault: Option<Fault>)
      requires vertsBuffer != null && colorVerts != null
      modifies this`faces
      ensures Image(isLoaded', isFirstCoord, isFirstTC, faceLines', vertNumber, normalNumber, fault)
           == FaceLine(env, old(Image(isLoaded, isFirstCoord, isFirstTC, faceLines, vertNumber, normalNumber, None)), t)
    {
      isLoaded', faceLines', fault := isLoaded, faceLines, None;
      if faces.None? {
        fault := Some(NullPointer);
      } else {
        var accepted := env.acceptFace(|faces.value|, t);
        faces := Some(faces.value + [t]);
        isLoaded' := accepted && isLoaded;
        faceLines' := faceLines + 1;
      }
    }

    /**
     * `readModel`: the second pass over the lines, writing the buffers the
     * first pass sized. It starts with fresh locals and stops at the first
     * exception other than `NumberFormatException`; the fields end as `Run`
     * describes. The Java method returns nothing and only logs its final
     * `isLoaded`; `outcome` exposes that local, or else the exception that
     * escaped, so that callers and lemmas can state them.
     */
    method ReadModel(lines: seq<string>, env: Env) returns (outcome: Outcome)
      requires vertsBuffer != null && colorVerts != null
      requires vertsBuffer != colorVerts && normalsBuffer != vertsBuffer && normalsBuffer != colorVerts
      modifies this`modelDims, this`hasTextureCoordinates3D, this`textureCoordinates, this`faces, this`faceMats
      modifies vertsBuffer, colorVerts, normalsBuffer
      ensures var r := Run(env, old(Image(true, true, true, 0, 0, 0, None)), lines);
        && Image(r.isLoaded, r.isFirstCoord, r.isFirstTC, r.faceLines, r.vertNumber, r.normalNumber, r.fault) == r
        && outcome == if r.fault.Some? then Raised(r.fault.value) else Done(r.isLoaded)
    {
      var isLoaded, isFirstCoord, isFirstTC, faceLines, vertNumber, normalNumber, fault := ReadLines(lines, env);
      outcome := if fault.Some? then Raised(fault.value) else Done(isLoaded);
    }

    /** `readModel`'s loop, returning its locals as they end. */
    method ReadLines(lines: seq<string>, env: Env)
      returns (isLoaded: bool, isFirstCoord: bool, isFirstTC: bool,
               faceLines: nat, vertNumber: nat, normalNumber: nat, fault: Option<Fault>)
      requires vertsBuffer != null && colorVerts != null
      requires vertsBuffer != colorVerts && normalsBuffer != vertsBuffer && normalsBuffer != colorVerts
      modifies this`modelDims, this`hasTextureCoordinates3D, this`textureCoordinates, this`faces, this`faceMats
      modifies vertsBuffer, colorVerts, normalsBuffer
      ensures Image(isLoaded, isFirstCoord, isFirstTC, faceLines, vertNumber, normalNumber, fault)
           == Run(env, old(Image(true, true, true, 0, 0, 0, None)), lines)
    {
      isLoaded, isFirstCoord, isFirstTC := true, true, true;
      faceLines, vertNumber, normalNumber := 0, 0, 0;
      fault := None;
      ghost var s0 := Image(true, true, true, 0, 0, 0, None);
      var i := 0;
      while i < |lines| && fault.None?
        invariant i <= |lines|
        invariant Image(isLoaded, isFirstCoord, isFirstTC, faceLines, vertNumber, normalNumber, fault) == Run(env, s0, lines[..i])
      {
        RunPrefixStep(env, s0, lines, i);
        isLoaded, isFirstCoord, isFirstTC, faceLines, vertNumber, normalNumber, fault :=
          ReadLine(env, Trim(lines[i]), isLoaded, isFirstCoord, isFirstTC, faceLines, vertNumber, normalNumber);
        i := i + 1;
      }
      RunEnds(env, s0, lines, i);
    }
  }

  /** `createNativeByteBuffer(n * 4).asFloatBuffer()`: a new buffer of `n` floats, all 0. */
  method NewDirectBuffer(n: nat) returns (b: array<real>)
    ensures fresh(b) && b[..] == Zeros(n)
  {
    b := new real[n](_ => 0.0);
  }

  /** `createNativeByteBuffer(n * 4).asIntBuffer()`: a new buffer of `n` ints, all 0. */
  method NewIndexBuffer(n: nat) returns (b: array<int>)
    ensures fresh(b) && b.Length == n && forall i :: 0 <= i < n ==> b[i] == 0
  {
    b := new int[n](_ => 0);
  }

  /**
   * The part of the loader task before parsing: a new loader, `analyzeModel`
   * on the file, then `allocateBuffers`. The loader holds the counts of
   * `Scan`, and the state `readModel` starts from is `Allocated` of them.
   */
  method Prepare(lines: seq<string>, dims: Box) returns (loader: WavefrontLoader)
    ensures fresh(loader) && loader.vertsBuffer != null && loader.colorVerts != null
    ensures fresh(loader.vertsBuffer) && fresh(loader.colorVerts) && (loader.normalsBuffer == null || fresh(loader.normalsBuffer))
    ensures loader.vertsBuffer != loader.colorVerts && loader.normalsBuffer != loader.vertsBuffer && loader.normalsBuffer != loader.colorVerts
    ensures var scan := Scan(lines);
      && loader.numVerts == scan.numVerts && loader.numTextures == scan.numTextures
      && loader.numNormals == scan.numNormals && loader.numFaces == scan.numFaces
      && loader.materials == scan.materialLib
    ensures loader.faceIndexBuffer == null <==> loader.numFaces <= 0
    ensures loader.faceIndexBuffer != null ==> loader.faceIndexBuffer.Length == 3 * loader.numFaces
    ensures loader.Image(true, true, true, 0, 0, 0, None) == Allocated(Scan(lines), dims)
  {
    loader := new WavefrontLoader(dims);
    loader.AnalyzeModel(lines);
    loader.AllocateBuffers();
    ghost var scan := ScanResult(loader.numVerts, loader.numTextures, loader.numNormals, loader.numFaces, loader.materials);
    assert scan == Scan(lines);
    ghost var s0 := Allocated(scan, dims);
    assert loader.vertsBuffer[..] == s0.verts && loader.colorVerts[..] == s0.colors;
    if loader.numNormals > 0 {
      assert loader.Normals() == Some(loader.normalsBuffer[..]);
    } else {
      assert loader.normalsBuffer == null;
    }
    assert loader.textureCoordinates == [] && !loader.hasTextureCoordinates3D && loader.faceMats == [] && loader.modelDims == dims;
    assert loader.faces == s0.faces;
    ghost var img := Pass(loader.vertsBuffer[..], loader.colorVerts[..], loader.Normals(), loader.faces,
                          [], false, [], dims, true, true, true, 0, 0, 0, None);
    assert loader.Image(true, true, true, 0, 0, 0, None) == img;
    assert img == s0;
  }

  /**
   * The `WavefrontLoader` calls the loader task makes, in order: `Prepare`,
   * then `loadModel`, which runs `readModel`. The loader ends holding the
   * counts of `Scan`, the buffers and lists of `Run` from `Allocated`, and
   * the outcome of that run. What `AsyncCustomLoaderTask` does between
   * those calls is not part of this method.
   */
  method Load(lines: seq<string>, env: Env, dims: Box) returns (loader: WavefrontLoader, outcome: Outcome)
    ensures var scan := Scan(lines); var r := Run(env, Allocated(scan, dims), lines);
      && loader.numVerts == scan.numVerts && loader.numTextures == scan.numTextures
      && loader.numNormals == scan.numNormals && loader.numFaces == scan.numFaces
      && loader.materials == scan.materialLib
      && (loader.faceIndexBuffer == null <==> scan.numFaces <= 0)
      && (loader.faceIndexBuffer != null ==> loader.faceIndexBuffer.Length == 3 * scan.numFaces)
      && loader.vertsBuffer != null && loader.colorVerts != null
      && loader.vertsBuffer[..] == r.verts && loader.colorVerts[..] == r.colors && loader.Normals() == r.normals
      && loader.faces == r.faces && loader.textureCoordinates == r.texCoords && loader.hasTextureCoordinates3D == r.tc3D
      && loader.faceMats == r.uses && loader.modelDims == r.dims
      && outcome == if r.fault.Some? then Raised(r.fault.value) else Done(r.isLoaded)
  {
    loader := Prepare(lines, dims);
    outcome := loader.ReadModel(lines, env);
  }

  /** `readModel`'s loop ends with the whole run: either every line was read, or an exception stopped it. */
  lemma {:induction false} RunEnds(env: Env, s0: Pass, lines: seq<string>, i: nat)
    requires i <= |lines|
    requires i < |lines| ==> Run(env, s0, lines[..i]).fault.Some?
    ensures Run(env, s0, lines) == Run(env, s0, lines[..i])
  {
    if i < |lines| {
      RunStopsAtFault(env, s0, lines, i);
    } else {
      assert lines[..i] == lines;
    }
  }

  /** One more line of `readModel`'s loop, while no exception has escaped. */
  lemma {:induction false} RunPrefixStep(env: Env, s0: Pass, lines: seq<string>, i: nat)
    requires i < |lines|
    ensures Run(env, s0, lines[..i]).fault.None? ==>
      Run(env, s0, lines[..i + 1]) == Handle(env, Run(env, s0, lines[..i]), Trim(lines[i]))
  {
    assert lines[..i + 1][..i] == lines[..i];
  }

  /**
   * `buffer.put(offset, a).put(offset + 1, b).put(offset + 2, c)` on a
   * direct buffer: each absolute `put` checks its index and the first one out
   * of range ends the chain.
   */
  method PutTripleInto(buffer: array<real>, offset: nat, t: seq<real>) returns (wrote: bool)
    requires |t| == 3
    modifies buffer
    ensures (buffer[..], wrote) == PutTriple(old(buffer[..]), offset, t)
  {
    if offset >= buffer.Length {
      return false;
    }
    buffer[offset] := t[0];
    if offset + 1 >= buffer.Length {
      return false;
    }
    buffer[offset + 1] := t[1];
    if offset + 2 >= buffer.Length {
      return false;
    }
    buffer[offset + 2] := t[2];
    return true;
  }

  /** The counts of the scan from `lines[..i]` to `lines[..i + 1]`. */
  lemma {:induction false} ScanCountsStep(lines: seq<string>, i: nat, d: Directive)
    requires i < |lines|
    ensures CountOf(lines[..i + 1], d) == CountOf(lines[..i], d) + (if Classify(Trim(lines[i])) == d then 1 else 0)
  {
    assert lines[..i + 1][..i] == lines[..i];
  }

  /** The triangle count of the scan from `lines[..i]` to `lines[..i + 1]`. */
  lemma {:induction false} ScanTrianglesStep(lines: seq<string>, i: nat)
    requires i < |lines|
    ensures var t := Trim(lines[i]);
      TriangleCount(lines[..i + 1]) == TriangleCount(lines[..i]) + (if Classify(t) == Face then FaceTriangles(t) else 0)
  {
    var t := Trim(lines[i]);
    assert lines[..i + 1][..i] == lines[..i];
    var faces := LinesOf(lines[..i + 1], Face);
    if Classify(t) == Face {
      assert faces == LinesOf(lines[..i], Face) + [t];
      assert faces[..|faces| - 1] == LinesOf(lines[..i], Face);
    } else {
      assert faces == LinesOf(lines[..i], Face);
    }
  }

  /** The material library of the scan from `lines[..i]` to `lines[..i + 1]`. */
  lemma {:induction false} ScanMtlLibStep(lines: seq<string>, i: nat)
    requires i < |lines|
    ensures var t := Trim(lines[i]);
      && (Classify(t) == MtlLib ==> |t| >= 7 && LastMtlLib(lines[..i + 1]) == Some(t[7..]))
      && (Classify(t) != MtlLib ==> LastMtlLib(lines[..i + 1]) == LastMtlLib(lines[..i]))
  {
    var t := Trim(lines[i]);
    assert lines[..i + 1][..i] == lines[..i];
    DirectiveLength(t);
    var libs := LinesOf(lines[..i + 1], MtlLib);
    if Classify(t) == MtlLib {
      assert libs == LinesOf(lines[..i], MtlLib) + [t];
    } else {
      assert libs == LinesOf(lines[..i], MtlLib);
    }
  }

  /** The number of triangles `analyzeModel` adds for a face line, by whichever split it picks. */
  lemma {:induction false} FaceSizeIsTriangles(t: string)
    ensures (if HasDoubleSpace(t) then |SplitOnRuns(t, Space)| - 1 else |SplitOnSpace(t)| - 1) - 2 == FaceTriangles(t)
  {
  }
}
