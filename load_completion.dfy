/**
 * When the second pass runs to the end: on buffers sized by the first pass,
 * a file whose lines have the token counts the handlers read raises no
 * exception, and every buffer slot the scan counted is written. The only
 * cross-directive condition is the one `vn` lines impose through the colour
 * buffer: no more normals than vertices.
 */
module LoadCompletion {
  import opened Wrappers
  import opened JavaText
  import opened Geometry
  import opened ObjLines
  import opened ScanPass
  import opened PopulatePass
  import opened PopulateProperties
  import opened PopulateContents

  /** Each of the given `v` or `vn` lines has a position and either no colour or a whole one. */
  predicate VertexTokens(ls: seq<string>) {
    forall k :: 0 <= k < |ls| ==> |Fields(ls[k], Space)| == 4 || |Fields(ls[k], Space)| >= 7
  }

  /** Each of the given `vt` lines has as many numbers as the mode reads. */
  predicate TexTokens(tl: seq<string>, mode: bool) {
    forall k :: 0 <= k < |tl| ==> |Fields(tl[k], Space)| >= (if mode then 4 else 3)
  }

  /** The buffers have room for `nv` more vertices and `nn` more normals, and a `Faces` exists if `nf > 0`. */
  predicate Room(s: Pass, nv: nat, nn: nat, nf: nat) {
    && (nv > 0 ==> 3 * (s.vertNumber + nv) <= |s.verts| && 3 * (s.vertNumber + nv) <= |s.colors|)
    && (nn > 0 ==> s.normals.Some? && 3 * (s.normalNumber + nn) <= |s.normals.value|
                   && 3 * (s.normalNumber + nn) <= |s.colors|)
    && (nf > 0 ==> s.faces.Some?)
  }

  /** Lines the pass can read from `s0` to the end. */
  predicate Readable(s0: Pass, lines: seq<string>) {
    var tl := LinesOf(lines, TexCoord);
    && VertexTokens(LinesOf(lines, Vertex))
    && VertexTokens(LinesOf(lines, Normal))
    && TexTokens(tl, TexMode(s0, tl))
    && Room(s0, CountOf(lines, Vertex), CountOf(lines, Normal), CountOf(lines, Face))
  }

  /** A trimmed line with a whole colour or none runs `addVert`'s try block without an uncaught exception. */
  lemma {:induction false} VertexTokensRead(t: string, parse: Parser)
    requires IsTrimmed(t) && t != []
    requires |Fields(t, Space)| == 4 || |Fields(t, Space)| >= 7
    ensures !ReadVertex(t, parse).outcome.Thrown?
  {
    assert SplitTokens(t) == Fields(t, Space);
  }

  /** A `v` line whose try block raises nothing uncaught, and that has room, raises nothing. */
  lemma {:induction false} VertexRaisesNothing(env: Env, s: Pass, t: string)
    requires s.fault.None? && !ReadVertex(t, env.parse).outcome.Thrown?
    requires 3 * s.vertNumber + 3 <= |s.verts| && 3 * s.vertNumber + 3 <= |s.colors|
    ensures VertexLine(env, s, t).fault.None?
  {
  }

  /** A `vn` line whose try block raises nothing uncaught, and that has room, raises nothing. */
  lemma {:induction false} NormalRaisesNothing(env: Env, s: Pass, t: string)
    requires s.fault.None? && !ReadVertex(t, env.parse).outcome.Thrown?
    requires s.normals.Some? && 3 * s.normalNumber + 3 <= |s.normals.value| && 3 * s.normalNumber + 3 <= |s.colors|
    ensures NormalLine(env, s, t).fault.None?
  {
  }

  /** A `vt` line with the numbers its mode reads raises nothing. */
  lemma {:induction false} TexCoordRaisesNothing(env: Env, s: Pass, t: string)
    requires s.fault.None? && !ReadTCTuple(t, if s.isFirstTC then CheckTC3D(t) else s.tc3D, env.parse).TexThrown?
    ensures TexCoordLine(env, s, t).fault.None?
  {
  }

  /** The state a run from `s0` reached over lines with `nv`, `nn`, `nf` lines of each buffered directive and `tl` as its `vt` lines. */
  predicate Reached(s0: Pass, s: Pass, nv: nat, nn: nat, nf: nat, tl: seq<string>) {
    && s.fault.None?
    && s.vertNumber == s0.vertNumber + nv && s.normalNumber == s0.normalNumber + nn
    && |s.verts| == |s0.verts| && |s.colors| == |s0.colors|
    && s.normals.Some? == s0.normals.Some? && (s.normals.Some? ==> |s.normals.value| == |s0.normals.value|)
    && s.faces.Some? == s0.faces.Some?
    && s.isFirstTC == (s0.isFirstTC && tl == []) && s.tc3D == TexMode(s0, tl)
  }

  /** What a line needs of the state it is read in for its handler to raise nothing. */
  predicate LineFits(s: Pass, t: string) {
    var d := Classify(t);
    && (d == Vertex ==> (|Fields(t, Space)| == 4 || |Fields(t, Space)| >= 7)
                        && 3 * s.vertNumber + 3 <= |s.verts| && 3 * s.vertNumber + 3 <= |s.colors|)
    && (d == Normal ==> (|Fields(t, Space)| == 4 || |Fields(t, Space)| >= 7)
                        && s.normals.Some? && 3 * s.normalNumber + 3 <= |s.normals.value|
                        && 3 * s.normalNumber + 3 <= |s.colors|)
    && (d == TexCoord ==> |Fields(t, Space)| >= (if (if s.isFirstTC then CheckTC3D(t) else s.tc3D) then 4 else 3))
    && (d == Face ==> s.faces.Some?)
  }

  /** A trimmed line that fits the state raises nothing. */
  lemma {:induction false} HandleRaisesNothing(env: Env, s: Pass, t: string)
    requires s.fault.None? && IsTrimmed(t) && LineFits(s, t)
    ensures Handle(env, s, t).fault.None?
  {
    var d := Classify(t);
    if d == Vertex {
      VertexTokensRead(t, env.parse);
      VertexRaisesNothing(env, s, t);
      assert Handle(env, s, t) == VertexLine(env, s, t);
    } else if d == Normal {
      VertexTokensRead(t, env.parse);
      NormalRaisesNothing(env, s, t);
      assert Handle(env, s, t) == NormalLine(env, s, t);
    } else if d == TexCoord {
      var mode := if s.isFirstTC then CheckTC3D(t) else s.tc3D;
      assert !ReadTCTuple(t, mode, env.parse).TexThrown?;
      TexCoordRaisesNothing(env, s, t);
      assert Handle(env, s, t) == TexCoordLine(env, s, t);
    } else {
      HandleFrame(env, s, t);
      if d == Face {
        assert Handle(env, s, t) == FaceLine(env, s, t);
      }
    }
  }

  /** The last of readable lines fits the state the run before it reached. */
  lemma {:induction false} LastLineFits(s0: Pass, s: Pass, lines: seq<string>)
    requires lines != [] && Readable(s0, lines)
    requires var init := lines[..|lines| - 1];
      Reached(s0, s, CountOf(init, Vertex), CountOf(init, Normal), CountOf(init, Face), LinesOf(init, TexCoord))
    ensures LineFits(s, Trim(lines[|lines| - 1]))
  {
    var init := lines[..|lines| - 1];
    var t := Trim(lines[|lines| - 1]);
    var d := Classify(t);
    if d == Vertex {
      var vl := LinesOf(lines, Vertex);
      assert vl == LinesOf(init, Vertex) + [t];
      assert vl[|vl| - 1] == t;
    } else if d == Normal {
      var nl := LinesOf(lines, Normal);
      assert nl == LinesOf(init, Normal) + [t];
      assert nl[|nl| - 1] == t;
    } else if d == TexCoord {
      var tl1 := LinesOf(init, TexCoord);
      var tl := LinesOf(lines, TexCoord);
      assert tl == tl1 + [t];
      assert tl[|tl| - 1] == t;
      if tl1 == [] {
        assert tl[0] == t;
      } else {
        assert tl[0] == tl1[0];
      }
    } else if d == Face {
      assert LinesOf(lines, Face) == LinesOf(init, Face) + [t];
    }
  }

  /** Readable lines stay readable without their last line. */
  lemma {:induction false} ReadablePrefix(s0: Pass, lines: seq<string>)
    requires lines != [] && Readable(s0, lines)
    ensures Readable(s0, lines[..|lines| - 1])
  {
    var init := lines[..|lines| - 1];
    var t := Trim(lines[|lines| - 1]);
    var tl := LinesOf(init, TexCoord);
    VertexTokensPrefix(LinesOf(init, Vertex), if Classify(t) == Vertex then [t] else []);
    VertexTokensPrefix(LinesOf(init, Normal), if Classify(t) == Normal then [t] else []);
    var extra := if Classify(t) == TexCoord then [t] else [];
    TexTokensPrefix(tl, extra, TexMode(s0, tl + extra));
    if tl != [] {
      assert (tl + extra)[0] == tl[0];
    }
    RoomShrinks(s0, CountOf(lines, Vertex), CountOf(lines, Normal), CountOf(lines, Face),
                CountOf(init, Vertex), CountOf(init, Normal), CountOf(init, Face));
  }

  lemma {:induction false} VertexTokensPrefix(a: seq<string>, b: seq<string>)
    requires VertexTokens(a + b)
    ensures VertexTokens(a)
  {
    forall k | 0 <= k < |a| ensures |Fields(a[k], Space)| == 4 || |Fields(a[k], Space)| >= 7 {
      assert (a + b)[k] == a[k];
    }
  }

  lemma {:induction false} TexTokensPrefix(a: seq<string>, b: seq<string>, mode: bool)
    requires TexTokens(a + b, mode)
    ensures TexTokens(a, mode)
  {
    forall k | 0 <= k < |a| ensures |Fields(a[k], Space)| >= (if mode then 4 else 3) {
      assert (a + b)[k] == a[k];
    }
  }

  lemma {:induction false} RoomShrinks(s: Pass, nv: nat, nn: nat, nf: nat, nv': nat, nn': nat, nf': nat)
    requires Room(s, nv, nn, nf) && nv' <= nv && nn' <= nn && nf' <= nf
    ensures Room(s, nv', nn', nf')
  {
  }

  /** The pass raises nothing on readable lines. */
  lemma {:induction false} RunRaisesNothing(env: Env, s0: Pass, lines: seq<string>)
    requires s0.fault.None? && Readable(s0, lines)
    ensures Reached(s0, Run(env, s0, lines), CountOf(lines, Vertex), CountOf(lines, Normal), CountOf(lines, Face), LinesOf(lines, TexCoord))
  {
    if lines != [] {
      var init := lines[..|lines| - 1];
      ReadablePrefix(s0, lines);
      RunRaisesNothing(env, s0, init);
      var s1 := Run(env, s0, init);
      LastLineFits(s0, s1, lines);
      HandleRaisesNothing(env, s1, Trim(lines[|lines| - 1]));
      assert Run(env, s0, lines) == Handle(env, s1, Trim(lines[|lines| - 1]));
      RunCursors(env, s0, lines);
      RunSizes(env, s0, lines);
      RunFaces(env, s0, lines);
      RunFlags(env, s0, lines);
      RunTexCoords(env, s0, lines);
    }
  }

  /** The conditions of `LoadCompletes` on the lines themselves. */
  predicate WellFormedFile(lines: seq<string>) {
    var tl, fl := LinesOf(lines, TexCoord), LinesOf(lines, Face);
    && VertexTokens(LinesOf(lines, Vertex)) && VertexTokens(LinesOf(lines, Normal))
    && TexTokens(tl, tl != [] && CheckTC3D(tl[0]))
    && ThreeReferences(fl)
    && CountOf(lines, Normal) <= CountOf(lines, Vertex)
  }

  /** Buffers sized by the first pass have room for everything a well-formed file writes. */
  lemma {:induction false} AllocatedReadable(lines: seq<string>, dims: Box)
    requires WellFormedFile(lines)
    ensures Allocated(Scan(lines), dims).fault.None? && Readable(Allocated(Scan(lines), dims), lines)
  {
    var s0 := Allocated(Scan(lines), dims);
    var tl := LinesOf(lines, TexCoord);
    assert TexMode(s0, tl) == (tl != [] && CheckTC3D(tl[0]));
    var fl := LinesOf(lines, Face);
    if fl != [] {
      LinesOfClassified(lines, Face);
      TriangleCountAtLeastFaces(fl);
    }
    assert Room(s0, CountOf(lines, Vertex), CountOf(lines, Normal), CountOf(lines, Face));
  }

  /**
   * `analyzeModel`, `allocateBuffers` and `readModel` on the same lines: when
   * every `v` and `vn` line has a position and a whole colour or none, every
   * `vt` line has the numbers the mode of the first one reads, every face
   * line has at least three vertex references, and there are no more normals
   * than vertices, the pass raises nothing, fills every vertex slot and
   * every normal slot, and hands every face line to `Faces`.
   */
  lemma {:induction false} LoadCompletes(env: Env, lines: seq<string>, dims: Box)
    requires WellFormedFile(lines)
    ensures var scan := Scan(lines); var s := Run(env, Allocated(scan, dims), lines);
      && s.fault.None?
      && 3 * s.vertNumber == |s.verts| && s.vertNumber == scan.numVerts
      && s.normalNumber == scan.numNormals
      && (s.normals.Some? ==> 3 * s.normalNumber == |s.normals.value|)
      && (CountOf(lines, Face) > 0 ==> s.faces == Some(LinesOf(lines, Face)))
  {
    var s0 := Allocated(Scan(lines), dims);
    AllocatedReadable(lines, dims);
    RunRaisesNothing(env, s0, lines);
    RunFaces(env, s0, lines);
    assert LinesOf(lines, Face) == [] + LinesOf(lines, Face);
  }

  /**
   * The converse for the one condition that is not about a line by itself:
   * on buffers sized by the first pass, a file with more `vn` than `v` lines
   * always raises, because the colour buffer has one slot per vertex.
   */
  lemma {:induction false} NormalsWithinVertices(env: Env, lines: seq<string>, dims: Box)
    requires Run(env, Allocated(Scan(lines), dims), lines).fault.None?
    ensures CountOf(lines, Normal) <= CountOf(lines, Vertex)
  {
    NormalsNeedColourSlots(env, Allocated(Scan(lines), dims), lines);
  }
}
