/**
 * What the second pass guarantees, proved about the fold `Run`: each cursor
 * advances once per line of its directive, the k-th vertex line fills slot
 * k, the model dimensions are the bounding box of the vertices, the texture
 * mode is fixed by the first `vt` line, material uses count face lines, the
 * aggregate flag is the conjunction of every handler's result, and on the
 * lines the scan counted the pass runs to the end without an exception.
 */
module PopulateProperties {
  import opened Wrappers
  import opened JavaText
  import opened Geometry
  import opened ObjLines
  import opened ScanPass
  import opened PopulatePass

  /** Once an exception has escaped, the remaining lines are not looked at. */
  lemma {:induction false} RunStopsAtFault(env: Env, s: Pass, lines: seq<string>, n: nat)
    requires n <= |lines| && Run(env, s, lines[..n]).fault.Some?
    ensures Run(env, s, lines) == Run(env, s, lines[..n])
    decreases |lines|
  {
    if n < |lines| {
      var init := lines[..|lines| - 1];
      assert init[..n] == lines[..n];
      RunStopsAtFault(env, s, init, n);
    } else {
      assert lines[..n] == lines;
    }
  }

  /** A step that raised nothing started from a state that had raised nothing. */
  lemma {:induction false} StepKeepsFault(env: Env, s: Pass, line: string)
    ensures s.fault.Some? ==> Step(env, s, line) == s
  {
  }

  /** The frame of a vertex line: it touches the vertex and colour buffers, the dimensions and its own cursor. */
  lemma {:induction false} VertexLineShape(env: Env, s: Pass, t: string)
    ensures var r := VertexLine(env, s, t);
      && r.vertNumber == s.vertNumber + 1 && |r.verts| == |s.verts| && |r.colors| == |s.colors|
      && r.normals == s.normals && r.faces == s.faces && r.normalNumber == s.normalNumber
      && r.faceLines == s.faceLines && r.isFirstTC == s.isFirstTC && r.uses == s.uses
      && r.texCoords == s.texCoords && r.tc3D == s.tc3D
      && (r.fault.None? ==> !r.isFirstCoord)
  {
  }

  /** The frame of a normal line: it touches the normal and colour buffers and its own cursor. */
  lemma {:induction false} NormalLineShape(env: Env, s: Pass, t: string)
    ensures var r := NormalLine(env, s, t);
      && r.normalNumber == s.normalNumber + 1 && |r.colors| == |s.colors|
      && r.normals.Some? == s.normals.Some?
      && (r.normals.Some? ==> |r.normals.value| == |s.normals.value|)
      && r.verts == s.verts && r.faces == s.faces && r.vertNumber == s.vertNumber && r.dims == s.dims
      && r.faceLines == s.faceLines && r.isFirstTC == s.isFirstTC && r.isFirstCoord == s.isFirstCoord
      && r.uses == s.uses && r.texCoords == s.texCoords && r.tc3D == s.tc3D
  {
  }

  /** The frame of a texture-coordinate line: it touches the texture list, the mode and its flags. */
  lemma {:induction false} TexCoordLineShape(env: Env, s: Pass, t: string)
    ensures var r := TexCoordLine(env, s, t);
      && r.verts == s.verts && r.colors == s.colors && r.normals == s.normals && r.faces == s.faces
      && r.vertNumber == s.vertNumber && r.normalNumber == s.normalNumber && r.faceLines == s.faceLines
      && r.isFirstCoord == s.isFirstCoord && r.uses == s.uses && r.dims == s.dims
      && (r.fault.None? ==> !r.isFirstTC)
  {
  }

  /** The frame of a face line: it hands the line to `Faces` and counts it. */
  lemma {:induction false} FaceLineShape(env: Env, s: Pass, t: string)
    ensures var r := FaceLine(env, s, t);
      && r.verts == s.verts && r.colors == s.colors && r.normals == s.normals
      && r.vertNumber == s.vertNumber && r.normalNumber == s.normalNumber
      && r.isFirstCoord == s.isFirstCoord && r.isFirstTC == s.isFirstTC && r.uses == s.uses
      && r.dims == s.dims && r.texCoords == s.texCoords && r.tc3D == s.tc3D
      && (r.fault.None? ==> s.faces.Some? && r.faces == Some(s.faces.value + [t]) && r.faceLines == s.faceLines + 1)
  {
  }

  /** One handled line's effect on the cursors, when it raises nothing. */
  lemma {:induction false} HandleCursors(env: Env, s: Pass, t: string)
    requires Handle(env, s, t).fault.None?
    ensures var r := Handle(env, s, t); var d := Classify(t);
      && r.vertNumber == s.vertNumber + (if d == Vertex then 1 else 0)
      && r.normalNumber == s.normalNumber + (if d == Normal then 1 else 0)
      && r.faceLines == s.faceLines + (if d == Face then 1 else 0)
  {
    match Classify(t)
    case Vertex => VertexLineShape(env, s, t);
    case Normal => NormalLineShape(env, s, t);
    case TexCoord => TexCoordLineShape(env, s, t);
    case Face => FaceLineShape(env, s, t);
    case _ =>
  }

  /** One handled line keeps the sizes of the buffers, when it raises nothing. */
  lemma {:induction false} HandleSizes(env: Env, s: Pass, t: string)
    requires Handle(env, s, t).fault.None?
    ensures var r := Handle(env, s, t);
      && |r.verts| == |s.verts| && |r.colors| == |s.colors|
      && r.normals.Some? == s.normals.Some?
      && (r.normals.Some? ==> |r.normals.value| == |s.normals.value|)
  {
    match Classify(t)
    case Vertex => VertexLineShape(env, s, t);
    case Normal => NormalLineShape(env, s, t);
    case TexCoord => TexCoordLineShape(env, s, t);
    case Face => FaceLineShape(env, s, t);
    case _ =>
  }

  /** One handled line's effect on the face log, when it raises nothing. */
  lemma {:induction false} HandleFaces(env: Env, s: Pass, t: string)
    requires Handle(env, s, t).fault.None?
    ensures var r := Handle(env, s, t); var d := Classify(t);
      && r.faces.Some? == s.faces.Some?
      && (r.faces.Some? ==> r.faces.value == s.faces.value + (if d == Face then [t] else []))
      && (r.faces.None? ==> d != Face)
  {
    match Classify(t)
    case Vertex => VertexLineShape(env, s, t);
    case Normal => NormalLineShape(env, s, t);
    case TexCoord => TexCoordLineShape(env, s, t);
    case Face => FaceLineShape(env, s, t);
    case _ =>
  }

  /** One handled line's effect on the first-line flags, when it raises nothing. */
  lemma {:induction false} HandleFlags(env: Env, s: Pass, t: string)
    requires Handle(env, s, t).fault.None?
    ensures var r := Handle(env, s, t); var d := Classify(t);
      && r.isFirstCoord == (s.isFirstCoord && d != Vertex)
      && r.isFirstTC == (s.isFirstTC && d != TexCoord)
  {
    match Classify(t)
    case Vertex => VertexLineShape(env, s, t);
    case Normal => NormalLineShape(env, s, t);
    case TexCoord => TexCoordLineShape(env, s, t);
    case Face => FaceLineShape(env, s, t);
    case _ =>
  }

  /** The last line of a run, trimmed, and the run before it. */
  lemma {:induction false} RunLast(env: Env, s0: Pass, lines: seq<string>)
    requires lines != [] && Run(env, s0, lines).fault.None?
    ensures var init := lines[..|lines| - 1];
      && Run(env, s0, init).fault.None?
      && Run(env, s0, lines) == Handle(env, Run(env, s0, init), Trim(lines[|lines| - 1]))
  {
  }

  lemma {:induction false} RunSnoc(env: Env, s0: Pass, lines: seq<string>)
    requires lines != [] && Run(env, s0, lines).fault.None?
    ensures var init := lines[..|lines| - 1]; var t := Trim(lines[|lines| - 1]);
      && Run(env, s0, init).fault.None?
      && Run(env, s0, lines) == Handle(env, Run(env, s0, init), t)
      && forall d :: LinesOf(lines, d) == LinesOf(init, d) + (if Classify(t) == d then [t] else [])
  {
  }

  /** Each cursor advances exactly once per line of its directive, whether the line parsed or not. */
  lemma {:induction false} RunCursors(env: Env, s0: Pass, lines: seq<string>)
    requires Run(env, s0, lines).fault.None?
    ensures var s := Run(env, s0, lines);
      && s.vertNumber == s0.vertNumber + CountOf(lines, Vertex)
      && s.normalNumber == s0.normalNumber + CountOf(lines, Normal)
      && s.faceLines == s0.faceLines + CountOf(lines, Face)
  {
    if lines != [] {
      RunSnoc(env, s0, lines);
      RunCursors(env, s0, lines[..|lines| - 1]);
      HandleCursors(env, Run(env, s0, lines[..|lines| - 1]), Trim(lines[|lines| - 1]));
    }
  }

  /** The buffers keep the sizes `allocateBuffers` gave them. */
  lemma {:induction false} RunSizes(env: Env, s0: Pass, lines: seq<string>)
    requires Run(env, s0, lines).fault.None?
    ensures var s := Run(env, s0, lines);
      && |s.verts| == |s0.verts| && |s.colors| == |s0.colors|
      && s.normals.Some? == s0.normals.Some?
      && (s.normals.Some? ==> |s.normals.value| == |s0.normals.value|)
  {
    if lines != [] {
      RunSnoc(env, s0, lines);
      RunSizes(env, s0, lines[..|lines| - 1]);
      HandleSizes(env, Run(env, s0, lines[..|lines| - 1]), Trim(lines[|lines| - 1]));
    }
  }

  /** The lines handed to `Faces` are the face lines, in order; without a `Faces` there were none. */
  lemma {:induction false} RunFaces(env: Env, s0: Pass, lines: seq<string>)
    requires Run(env, s0, lines).fault.None?
    ensures var s := Run(env, s0, lines);
      && s.faces.Some? == s0.faces.Some?
      && (s.faces.Some? ==> s.faces.value == s0.faces.value + LinesOf(lines, Face))
      && (s.faces.None? ==> CountOf(lines, Face) == 0)
  {
    if lines != [] {
      var init := lines[..|lines| - 1];
      var t := Trim(lines[|lines| - 1]);
      var extra := if Classify(t) == Face then [t] else [];
      RunSnoc(env, s0, lines);
      RunFaces(env, s0, init);
      HandleFaces(env, Run(env, s0, init), t);
      assert LinesOf(lines, Face) == LinesOf(init, Face) + extra;
      if s0.faces.Some? {
        assert s0.faces.value + LinesOf(init, Face) + extra == s0.faces.value + LinesOf(lines, Face);
      }
    }
  }

  /** The first-line flags stay set exactly until the first line of their directive. */
  lemma {:induction false} RunFlags(env: Env, s0: Pass, lines: seq<string>)
    requires Run(env, s0, lines).fault.None?
    ensures var s := Run(env, s0, lines);
      && s.isFirstCoord == (s0.isFirstCoord && CountOf(lines, Vertex) == 0)
      && s.isFirstTC == (s0.isFirstTC && CountOf(lines, TexCoord) == 0)
  {
    if lines != [] {
      RunSnoc(env, s0, lines);
      RunFlags(env, s0, lines[..|lines| - 1]);
      HandleFlags(env, Run(env, s0, lines[..|lines| - 1]), Trim(lines[|lines| - 1]));
    }
  }

  /**
   * A `v` line that raises nothing wrote its position into the vertex buffer
   * and its colour into the colour buffer at slot `vertNumber`, cleared the
   * aggregate flag unless it parsed, and set or grew the dimensions with its
   * point when it parsed.
   */
  lemma {:induction false} VertexLineWrites(env: Env, s: Pass, t: string)
    requires VertexLine(env, s, t).fault.None?
    ensures var r := VertexLine(env, s, t); var v := ReadVertex(t, env.parse); var o := 3 * s.vertNumber;
      && o + 3 <= |s.verts| && o + 3 <= |s.colors| && !v.outcome.Thrown?
      && r.verts == s.verts[..o] + v.pos + s.verts[o + 3..]
      && r.colors == s.colors[..o] + v.rgb + s.colors[o + 3..]
      && r.isLoaded == (s.isLoaded && v.outcome == Returned)
      && r.dims == (if v.outcome != Returned then s.dims
                    else if s.isFirstCoord then SetBox(PointOf(t, env.parse))
                    else Extend(s.dims, PointOf(t, env.parse)))
  {
  }

  /**
   * A `vn` line that raises nothing found a normals buffer, wrote its vector
   * into it at slot `normalNumber`, and wrote its colour triple into the
   * vertex colour buffer at that same slot.
   */
  lemma {:induction false} NormalLineWrites(env: Env, s: Pass, t: string)
    requires NormalLine(env, s, t).fault.None?
    ensures var r := NormalLine(env, s, t); var v := ReadVertex(t, env.parse); var o := 3 * s.normalNumber;
      && s.normals.Some? && o + 3 <= |s.normals.value| && o + 3 <= |s.colors| && !v.outcome.Thrown?
      && r.normals == Some(s.normals.value[..o] + v.pos + s.normals.value[o + 3..])
      && r.colors == s.colors[..o] + v.rgb + s.colors[o + 3..]
      && r.isLoaded == (s.isLoaded && v.outcome == Returned)
  {
  }

  /** What a handled line leaves alone, by directive. */
  lemma {:induction false} HandleFrame(env: Env, s: Pass, t: string)
    ensures var r := Handle(env, s, t); var d := Classify(t);
      && (d != Vertex ==> r.verts == s.verts && r.dims == s.dims)
      && (d != Normal ==> r.normals == s.normals)
      && (d != Vertex && d != Normal ==> r.colors == s.colors)
      && (d != TexCoord ==> r.texCoords == s.texCoords && r.tc3D == s.tc3D)
      && (d != UseMtl ==> r.uses == s.uses)
      && (d != Vertex && d != Normal && d != TexCoord && d != Face ==> r.isLoaded == s.isLoaded && r.fault == s.fault)
  {
    match Classify(t)
    case Vertex => VertexLineShape(env, s, t);
    case Normal => NormalLineShape(env, s, t);
    case TexCoord => TexCoordLineShape(env, s, t);
    case Face => FaceLineShape(env, s, t);
    case _ =>
  }

  /** The position triples of the given `v` or `vn` lines, in order. */
  function Positions(ls: seq<string>, parse: Parser): (r: seq<seq<real>>)
    ensures |r| == |ls|
  {
    if ls == [] then [] else Positions(ls[..|ls| - 1], parse) + [ReadVertex(ls[|ls| - 1], parse).pos]
  }

  /** The colour triples of the given `v` or `vn` lines, in order. */
  function Colours(ls: seq<string>, parse: Parser): (r: seq<seq<real>>)
    ensures |r| == |ls|
  {
    if ls == [] then [] else Colours(ls[..|ls| - 1], parse) + [ReadVertex(ls[|ls| - 1], parse).rgb]
  }

  /**
   * `buf` is `orig` with slots `b`, `b + 1`, ... holding the triples `vals`
   * and every element outside those slots as it was.
   */
  predicate Filled(buf: seq<real>, orig: seq<real>, b: nat, vals: seq<seq<real>>) {
    && |buf| == |orig| && (vals != [] ==> 3 * (b + |vals|) <= |buf|)
    && (forall k :: 0 <= k < |vals| ==> buf[3 * (b + k)..3 * (b + k) + 3] == vals[k])
    && (forall i :: 0 <= i < |buf| && !(3 * b <= i < 3 * (b + |vals|)) ==> buf[i] == orig[i])
  }

  /** Writing the next triple into the next slot extends what is filled. */
  lemma {:induction false} FilledSnoc(buf: seq<real>, orig: seq<real>, b: nat, vals: seq<seq<real>>, tr: seq<real>)
    requires Filled(buf, orig, b, vals) && |tr| == 3 && 3 * (b + |vals|) + 3 <= |buf|
    ensures var o := 3 * (b + |vals|); Filled(buf[..o] + tr + buf[o + 3..], orig, b, vals + [tr])
  {
    var o := 3 * (b + |vals|);
    var nb := buf[..o] + tr + buf[o + 3..];
    forall k | 0 <= k < |vals| + 1
      ensures nb[3 * (b + k)..3 * (b + k) + 3] == (vals + [tr])[k]
    {
      if k < |vals| {
        assert nb[3 * (b + k)..3 * (b + k) + 3] == buf[3 * (b + k)..3 * (b + k) + 3];
      } else {
        assert nb[o..o + 3] == tr;
      }
    }
  }

  /** `VertexLineWrites` for a line that reached the vertex handler. */
  lemma {:induction false} HandleVertex(env: Env, s: Pass, t: string)
    requires Classify(t) == Vertex && Handle(env, s, t).fault.None?
    ensures var r := Handle(env, s, t); var v := ReadVertex(t, env.parse); var o := 3 * s.vertNumber;
      && o + 3 <= |s.verts| && o + 3 <= |s.colors|
      && r.verts == s.verts[..o] + v.pos + s.verts[o + 3..]
      && r.colors == s.colors[..o] + v.rgb + s.colors[o + 3..]
  {
    assert Handle(env, s, t) == VertexLine(env, s, t);
    VertexLineWrites(env, s, t);
  }

  /** `NormalLineWrites` for a line that reached the normal handler. */
  lemma {:induction false} HandleNormal(env: Env, s: Pass, t: string)
    requires Classify(t) == Normal && Handle(env, s, t).fault.None?
    ensures var r := Handle(env, s, t); var v := ReadVertex(t, env.parse); var o := 3 * s.normalNumber;
      && s.normals.Some? && o + 3 <= |s.normals.value| && o + 3 <= |s.colors|
      && r.normals == Some(s.normals.value[..o] + v.pos + s.normals.value[o + 3..])
      && r.colors == s.colors[..o] + v.rgb + s.colors[o + 3..]
  {
    assert Handle(env, s, t) == NormalLine(env, s, t);
    NormalLineWrites(env, s, t);
  }

  /**
   * The k-th `v` line of a run that raised nothing fills slot `vertNumber + k`
   * of the vertex buffer with its position; every other element keeps its value.
   */
  lemma {:induction false} VertexSlots(env: Env, s0: Pass, lines: seq<string>)
    requires Run(env, s0, lines).fault.None?
    ensures Filled(Run(env, s0, lines).verts, s0.verts, s0.vertNumber, Positions(LinesOf(lines, Vertex), env.parse))
  {
    if lines != [] {
      var init := lines[..|lines| - 1];
      var t := Trim(lines[|lines| - 1]);
      RunSnoc(env, s0, lines);
      var s1 := Run(env, s0, init);
      VertexSlots(env, s0, init);
      RunCursors(env, s0, init);
      var vals := Positions(LinesOf(init, Vertex), env.parse);
      if Classify(t) == Vertex {
        var pos := ReadVertex(t, env.parse).pos;
        VertexSlotAfterVertex(env, s1, t, s0.verts, s0.vertNumber, vals);
        assert Positions(LinesOf(lines, Vertex), env.parse) == vals + [pos];
      } else {
        assert Run(env, s0, lines).verts == s1.verts by {
          HandleFrame(env, s1, t);
        }
        assert LinesOf(lines, Vertex) == LinesOf(init, Vertex);
      }
    }
  }

  /** A `v` line that raised nothing fills the next vertex slot with its position. */
  lemma {:induction false} VertexSlotAfterVertex(env: Env, s: Pass, t: string, orig: seq<real>, b: nat, vals: seq<seq<real>>)
    requires Classify(t) == Vertex && Handle(env, s, t).fault.None?
    requires Filled(s.verts, orig, b, vals) && s.vertNumber == b + |vals|
    ensures Filled(Handle(env, s, t).verts, orig, b, vals + [ReadVertex(t, env.parse).pos])
  {
    HandleVertex(env, s, t);
    FilledSnoc(s.verts, orig, b, vals, ReadVertex(t, env.parse).pos);
  }

  /** A `vn` line that raised nothing fills the next normal slot with its vector. */
  lemma {:induction false} NormalSlotAfterNormal(env: Env, s: Pass, t: string, orig: seq<real>, b: nat, vals: seq<seq<real>>)
    requires Classify(t) == Normal && Handle(env, s, t).fault.None?
    requires s.normals.Some? && Filled(s.normals.value, orig, b, vals) && s.normalNumber == b + |vals|
    ensures Handle(env, s, t).normals.Some?
    ensures Filled(Handle(env, s, t).normals.value, orig, b, vals + [ReadVertex(t, env.parse).pos])
  {
    HandleNormal(env, s, t);
    FilledSnoc(s.normals.value, orig, b, vals, ReadVertex(t, env.parse).pos);
  }

  /**
   * The k-th `vn` line of a run that raised nothing fills slot
   * `normalNumber + k` of the normals buffer with its vector; a run with `vn`
   * lines and no normals buffer does raise.
   */
  lemma {:induction false} NormalSlots(env: Env, s0: Pass, lines: seq<string>)
    requires Run(env, s0, lines).fault.None?
    ensures CountOf(lines, Normal) > 0 ==> s0.normals.Some?
    ensures s0.normals.Some? ==> Run(env, s0, lines).normals.Some?
    ensures s0.normals.Some? ==>
      Filled(Run(env, s0, lines).normals.value, s0.normals.value, s0.normalNumber, Positions(LinesOf(lines, Normal), env.parse))
  {
    if lines != [] {
      var init := lines[..|lines| - 1];
      var t := Trim(lines[|lines| - 1]);
      RunSnoc(env, s0, lines);
      NormalSlots(env, s0, init);
      if s0.normals.Some? {
        RunCursors(env, s0, init);
        NormalSlotStep(env, Run(env, s0, init), t, s0.normals.value, s0.normalNumber, LinesOf(init, Normal));
      } else if Classify(t) == Normal {
        RunSizes(env, s0, init);
        HandleNormal(env, Run(env, s0, init), t);
      } else {
        assert LinesOf(init, Normal) + [] == LinesOf(init, Normal);
        assert CountOf(lines, Normal) == CountOf(init, Normal);
      }
    }
  }

  /** Handling one more line keeps the normals filled, with the line added when it is a `vn` line. */
  lemma {:induction false} NormalSlotStep(env: Env, s: Pass, t: string, orig: seq<real>, b: nat, nl: seq<string>)
    requires Handle(env, s, t).fault.None?
    requires s.normals.Some? && Filled(s.normals.value, orig, b, Positions(nl, env.parse)) && s.normalNumber == b + |nl|
    ensures Handle(env, s, t).normals.Some?
    ensures Filled(Handle(env, s, t).normals.value, orig, b, Positions(nl + (if Classify(t) == Normal then [t] else []), env.parse))
  {
    if Classify(t) == Normal {
      NormalSlotAfterNormal(env, s, t, orig, b, Positions(nl, env.parse));
      assert (nl + [t])[..|nl|] == nl;
    } else {
      HandleFrame(env, s, t);
      assert nl + [] == nl;
    }
  }

  /** A `v` line that raised nothing fills the next colour slot with its colour. */
  lemma {:induction false} ColourSlotAfterVertex(env: Env, s: Pass, t: string, orig: seq<real>, b: nat, vals: seq<seq<real>>)
    requires Classify(t) == Vertex && Handle(env, s, t).fault.None?
    requires Filled(s.colors, orig, b, vals) && s.vertNumber == b + |vals|
    ensures Filled(Handle(env, s, t).colors, orig, b, vals + [ReadVertex(t, env.parse).rgb])
  {
    HandleVertex(env, s, t);
    FilledSnoc(s.colors, orig, b, vals, ReadVertex(t, env.parse).rgb);
  }

  /**
   * In a file without `vn` lines, the k-th `v` line of a run that raised
   * nothing fills slot `vertNumber + k` of the colour buffer with its colour
   * (0, 0, 0 when the line has none).
   */
  lemma {:induction false} ColoursWithoutNormals(env: Env, s0: Pass, lines: seq<string>)
    requires Run(env, s0, lines).fault.None? && CountOf(lines, Normal) == 0
    ensures Filled(Run(env, s0, lines).colors, s0.colors, s0.vertNumber, Colours(LinesOf(lines, Vertex), env.parse))
  {
    if lines != [] {
      var init := lines[..|lines| - 1];
      var t := Trim(lines[|lines| - 1]);
      RunSnoc(env, s0, lines);
      var s1 := Run(env, s0, init);
      ColoursWithoutNormals(env, s0, init);
      RunCursors(env, s0, init);
      var vals := Colours(LinesOf(init, Vertex), env.parse);
      if Classify(t) == Vertex {
        var rgb := ReadVertex(t, env.parse).rgb;
        ColourSlotAfterVertex(env, s1, t, s0.colors, s0.vertNumber, vals);
        assert Colours(LinesOf(lines, Vertex), env.parse) == vals + [rgb];
      } else {
        assert Classify(t) != Normal;
        assert Run(env, s0, lines).colors == s1.colors by {
          HandleFrame(env, s1, t);
        }
        assert LinesOf(lines, Vertex) == LinesOf(init, Vertex);
      }
    }
  }

  /** The triple at slot `k` of a buffer of triples. */
  function SlotOf(buf: seq<real>, k: nat): (r: seq<real>)
    requires 3 * k + 3 <= |buf|
    ensures |r| == 3
  {
    buf[3 * k..3 * k + 3]
  }

  /** `buf` with triple `tr` written at slot `j`, when that slot exists. */
  function WriteSlot(buf: seq<real>, j: nat, tr: seq<real>): (r: seq<real>)
    requires |tr| == 3
    ensures |r| == |buf|
  {
    if 3 * j + 3 <= |buf| then buf[..3 * j] + tr + buf[3 * j + 3..] else buf
  }

  /** Writing triple `tr` at slot `j` changes slot `j` to `tr` and no other slot. */
  lemma {:induction false} SlotUpdate(buf: seq<real>, j: nat, tr: seq<real>, k: nat)
    requires |tr| == 3 && 3 * j + 3 <= |buf| && 3 * k + 3 <= |buf|
    ensures SlotOf(WriteSlot(buf, j, tr), k) == if k == j then tr else SlotOf(buf, k)
  {
    var nb := buf[..3 * j] + tr + buf[3 * j + 3..];
    if k == j {
      assert nb[3 * j..3 * j + 3] == tr;
    } else {
      assert forall i :: 3 * k <= i < 3 * k + 3 ==> nb[i] == buf[i];
    }
  }

  /** The trimmed `v` and `vn` lines among `lines`, in file order: the lines that write colours. */
  function ColourLines(lines: seq<string>): (r: seq<string>)
    ensures |r| <= |lines|
  {
    if lines == [] then [] else
    var t := Trim(lines[|lines| - 1]);
    ColourLines(lines[..|lines| - 1]) + (if Classify(t) == Vertex || Classify(t) == Normal then [t] else [])
  }

  /** The vertex colour buffer with the two cursors that choose where a colour goes. */
  datatype Tinting = Tinting(colors: seq<real>, vertNumber: nat, normalNumber: nat)

  /** The part of a pass state that the colour buffer depends on. */
  function TintingOf(s: Pass): (c: Tinting)
    ensures c.colors == s.colors && c.vertNumber == s.vertNumber && c.normalNumber == s.normalNumber
  {
    Tinting(s.colors, s.vertNumber, s.normalNumber)
  }

  /**
   * One line of `ColourLines`: a `v` line writes its colour triple at the
   * vertex cursor's slot and moves that cursor on, a `vn` line does the same
   * with the normal cursor.
   */
  function NextTinting(c: Tinting, t: string, parse: Parser): (r: Tinting)
    ensures |r.colors| == |c.colors|
  {
    var rgb := ReadVertex(t, parse).rgb;
    if Classify(t) == Vertex then Tinting(WriteSlot(c.colors, c.vertNumber, rgb), c.vertNumber + 1, c.normalNumber)
    else if Classify(t) == Normal then Tinting(WriteSlot(c.colors, c.normalNumber, rgb), c.vertNumber, c.normalNumber + 1)
    else c
  }

  /** `NextTinting` over the given colour lines, in order. */
  function TintingAfter(c: Tinting, cl: seq<string>, parse: Parser): (r: Tinting)
    ensures |r.colors| == |c.colors|
  {
    if cl == [] then c else NextTinting(TintingAfter(c, cl[..|cl| - 1], parse), cl[|cl| - 1], parse)
  }

  /** Folding one more colour line is one more step. */
  lemma {:induction false} TintingAfterSnoc(c: Tinting, cl: seq<string>, t: string, parse: Parser)
    ensures TintingAfter(c, cl + [t], parse) == NextTinting(TintingAfter(c, cl, parse), t, parse)
  {
    assert (cl + [t])[..|cl|] == cl;
  }

  /** The colour buffer and cursors of `s` are those the colour lines `cl` leave from `s0`. */
  predicate TintedSoFar(env: Env, s0: Pass, s: Pass, cl: seq<string>) {
    TintingOf(s) == TintingAfter(TintingOf(s0), cl, env.parse)
  }

  /** A line that raised nothing takes the colour buffer and cursors one `NextTinting` further. */
  lemma {:induction false} HandleTinting(env: Env, s: Pass, t: string)
    requires Handle(env, s, t).fault.None?
    ensures TintingOf(Handle(env, s, t)) == NextTinting(TintingOf(s), t, env.parse)
  {
    HandleCursors(env, s, t);
    match Classify(t)
    case Vertex => HandleVertex(env, s, t);
    case Normal => HandleNormal(env, s, t);
    case _ => HandleFrame(env, s, t);
  }

  /** Handling one more line keeps `TintedSoFar`, with the line added when it is a `v` or `vn` line. */
  lemma {:induction false} TintStep(env: Env, s0: Pass, s: Pass, cl: seq<string>, t: string)
    requires Handle(env, s, t).fault.None? && TintedSoFar(env, s0, s, cl)
    ensures TintedSoFar(env, s0, Handle(env, s, t), cl + (if Classify(t) == Vertex || Classify(t) == Normal then [t] else []))
  {
    HandleTinting(env, s, t);
    if Classify(t) == Vertex || Classify(t) == Normal {
      TintingAfterSnoc(TintingOf(s0), cl, t, env.parse);
    } else {
      assert cl + [] == cl;
    }
  }

  /** A run that raised nothing folded its `v` and `vn` lines into the colour buffer, one step each. */
  lemma {:induction false} RunTinting(env: Env, s0: Pass, lines: seq<string>)
    requires Run(env, s0, lines).fault.None?
    ensures TintedSoFar(env, s0, Run(env, s0, lines), ColourLines(lines))
  {
    if lines != [] {
      var init := lines[..|lines| - 1];
      RunLast(env, s0, lines);
      RunTinting(env, s0, init);
      TintStep(env, s0, Run(env, s0, init), ColourLines(init), Trim(lines[|lines| - 1]));
    }
  }

  /** The number of lines of directive `d` among the trimmed lines `cl`. */
  function Tally(cl: seq<string>, d: Directive): nat {
    if cl == [] then 0 else Tally(cl[..|cl| - 1], d) + (if Classify(cl[|cl| - 1]) == d then 1 else 0)
  }

  /**
   * The colour triple slot `k` holds after the trimmed colour lines `cl`,
   * the vertex cursor starting at `vb` and the normal cursor at `nb`, given
   * independently of the fold: the colour of the last line that names slot
   * `k`, which is the `(k - vb)`-th `v` line or the `(k - nb)`-th `vn` line,
   * whichever comes later; `orig`'s triple when there is neither.
   */
  function LastColour(orig: seq<real>, k: nat, vb: nat, nb: nat, cl: seq<string>, parse: Parser): (r: seq<real>)
    requires 3 * k + 3 <= |orig|
    ensures |r| == 3
  {
    if cl == [] then SlotOf(orig, k) else
    var init := cl[..|cl| - 1];
    var t := cl[|cl| - 1];
    if (Classify(t) == Vertex && vb + Tally(init, Vertex) == k) || (Classify(t) == Normal && nb + Tally(init, Normal) == k)
    then ReadVertex(t, parse).rgb
    else LastColour(orig, k, vb, nb, init, parse)
  }

  /** After the colour lines `cl`, each cursor has moved once per line of its directive. */
  lemma {:induction false} TintingCursors(c: Tinting, cl: seq<string>, parse: Parser)
    ensures TintingAfter(c, cl, parse).vertNumber == c.vertNumber + Tally(cl, Vertex)
    ensures TintingAfter(c, cl, parse).normalNumber == c.normalNumber + Tally(cl, Normal)
  {
    if cl != [] {
      TintingCursors(c, cl[..|cl| - 1], parse);
    }
  }

  /** A `v` or `vn` line changes the colour slot its cursor names, to its colour, and no other. */
  lemma {:induction false} NextTintingSlot(c: Tinting, t: string, parse: Parser, k: nat)
    requires 3 * k + 3 <= |c.colors|
    ensures SlotOf(NextTinting(c, t, parse).colors, k)
      == if (Classify(t) == Vertex && c.vertNumber == k) || (Classify(t) == Normal && c.normalNumber == k)
         then ReadVertex(t, parse).rgb else SlotOf(c.colors, k)
  {
    var rgb := ReadVertex(t, parse).rgb;
    if Classify(t) == Vertex && 3 * c.vertNumber + 3 <= |c.colors| {
      SlotUpdate(c.colors, c.vertNumber, rgb, k);
    } else if Classify(t) == Normal && 3 * c.normalNumber + 3 <= |c.colors| {
      SlotUpdate(c.colors, c.normalNumber, rgb, k);
    }
  }

  /** After the colour lines `cl`, colour slot `k` holds `LastColour`. */
  lemma {:induction false} TintingSlot(c: Tinting, cl: seq<string>, parse: Parser, k: nat)
    requires 3 * k + 3 <= |c.colors|
    ensures SlotOf(TintingAfter(c, cl, parse).colors, k) == LastColour(c.colors, k, c.vertNumber, c.normalNumber, cl, parse)
  {
    if cl != [] {
      var init := cl[..|cl| - 1];
      var t := cl[|cl| - 1];
      TintingSlot(c, init, parse, k);
      TintingCursors(c, init, parse);
      var prev := TintingAfter(c, init, parse);
      assert (prev.vertNumber == k) == (c.vertNumber + Tally(init, Vertex) == k);
      assert (prev.normalNumber == k) == (c.normalNumber + Tally(init, Normal) == k);
      NextTintingSlot(prev, t, parse, k);
    }
  }

  /**
   * A `vn` line writes its colour triple at its own slot of the vertex colour
   * buffer, so after a run that raised nothing colour slot `vertNumber + k`
   * holds the colour of the k-th `v` line, or of the k-th `vn` line when that
   * one came later (0, 0, 0 when the line has no colour).
   */
  lemma {:induction false} RunColours(env: Env, s0: Pass, lines: seq<string>)
    requires Run(env, s0, lines).fault.None?
    ensures |Run(env, s0, lines).colors| == |s0.colors|
    ensures forall k: nat :: 3 * k + 3 <= |s0.colors| ==>
      SlotOf(Run(env, s0, lines).colors, k) == LastColour(s0.colors, k, s0.vertNumber, s0.normalNumber, ColourLines(lines), env.parse)
  {
    RunTinting(env, s0, lines);
    forall k: nat | 3 * k + 3 <= |s0.colors|
      ensures SlotOf(Run(env, s0, lines).colors, k) == LastColour(s0.colors, k, s0.vertNumber, s0.normalNumber, ColourLines(lines), env.parse)
    {
      TintingSlot(TintingOf(s0), ColourLines(lines), env.parse, k);
    }
  }

  /** The `vn` line of the example below has four tokens. */
  lemma {:induction false} FourTokens()
    ensures |SplitTokens("vn 0 0 1")| == 4
  {
    var n := "vn 0 0 1";
    assert IsTrimmed(n);
    assert SkipFrom(n, Space, 8) == 8;
    assert FieldsFrom(n, Space, 8) == [];
    assert SkipFrom(n, Space, 6) == 7 && RunFrom(n, Space, 7) == 8;
    assert |FieldsFrom(n, Space, 6)| == 1;
    assert SkipFrom(n, Space, 4) == 5 && RunFrom(n, Space, 5) == 6;
    assert |FieldsFrom(n, Space, 4)| == 2;
    assert SkipFrom(n, Space, 2) == 3 && RunFrom(n, Space, 3) == 4;
    assert |FieldsFrom(n, Space, 2)| == 3;
    assert SkipFrom(n, Space, 0) == 0 && RunFrom(n, Space, 0) == 2;
    assert |FieldsFrom(n, Space, 0)| == 4;
  }

  /** The two lines of the example below are already trimmed, a `v` line and then a `vn` line. */
  lemma {:induction false} ExampleColourLines()
    ensures Classify("v 1 2 3 1 1 1") == Vertex && Classify("vn 0 0 1") == Normal
    ensures ColourLines(["v 1 2 3 1 1 1", "vn 0 0 1"]) == ["v 1 2 3 1 1 1", "vn 0 0 1"]
  {
    var v := "v 1 2 3 1 1 1";
    var n := "vn 0 0 1";
    var lines := [v, n];
    assert v[..2] == "v " && n[..2] == "vn";
    assert IsTrimmed(v) && IsTrimmed(n);
    assert Trim(v) == v && Trim(n) == n;
    assert lines[..1] == [v] && |lines[..1][..0]| == 0;
  }

  /** A `vn` line of four tokens carries no colour: its triple is (0, 0, 0). */
  lemma {:induction false} ExampleNormalColour(parse: Parser)
    ensures ReadVertex("vn 0 0 1", parse).rgb == [0.0, 0.0, 0.0]
  {
    FourTokens();
  }

  /**
   * A file whose first vertex has a colour and whose first normal follows it
   * ends with colour slot 0 at (0, 0, 0): the `vn` line, which has no colour
   * tokens, wrote over the vertex's colour.
   */
  lemma {:induction false} NormalOverwritesVertexColour(orig: seq<real>, parse: Parser)
    requires 3 <= |orig|
    ensures LastColour(orig, 0, 0, 0, ColourLines(["v 1 2 3 1 1 1", "vn 0 0 1"]), parse) == [0.0, 0.0, 0.0]
  {
    ExampleColourLines();
    ExampleNormalColour(parse);
    assert Tally(["v 1 2 3 1 1 1"], Normal) == 0;
  }

  /**
   * Because a `vn` line writes its colour triple at its own slot of the vertex
   * colour buffer, a run that raised nothing had a colour slot for every
   * normal it read.
   */
  lemma {:induction false} NormalsNeedColourSlots(env: Env, s0: Pass, lines: seq<string>)
    requires Run(env, s0, lines).fault.None?
    ensures CountOf(lines, Normal) > 0 ==> 3 * (s0.normalNumber + CountOf(lines, Normal)) <= |s0.colors|
  {
    if lines != [] {
      var init := lines[..|lines| - 1];
      var t := Trim(lines[|lines| - 1]);
      RunSnoc(env, s0, lines);
      var s1 := Run(env, s0, init);
      NormalsNeedColourSlots(env, s0, init);
      RunCursors(env, s0, init);
      RunSizes(env, s0, init);
      if Classify(t) == Normal {
        HandleNormal(env, s1, t);
      }
    }
  }
}
