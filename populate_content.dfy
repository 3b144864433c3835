/**
 * What the second pass leaves in the loader besides the buffers: the model
 * dimensions, the texture coordinates and their mode, the material uses, and
 * the aggregate success flag `readModel` logs.
 */
module PopulateContents {
  import opened Wrappers
  import opened JavaText
  import opened Geometry
  import opened ObjLines
  import opened ScanPass
  import opened PopulatePass
  import opened PopulateProperties

  /** The points of the given `v` lines whose numbers all parsed, in order. */
  function OkPoints(vl: seq<string>, parse: Parser): (r: seq<Vec3>)
    ensures |r| <= |vl|
  {
    if vl == [] then [] else
    var t := vl[|vl| - 1];
    OkPoints(vl[..|vl| - 1], parse) + (if ReadVertex(t, parse).outcome == Returned then [PointOf(t, parse)] else [])
  }

  /** The first `v` line that parsed is the first `v` line, when that one parsed. */
  lemma {:induction false} OkPointsHead(vl: seq<string>, parse: Parser)
    requires vl != [] && ReadVertex(vl[0], parse).outcome == Returned
    ensures OkPoints(vl, parse) != [] && OkPoints(vl, parse)[0] == PointOf(vl[0], parse)
  {
    if |vl| > 1 {
      var init := vl[..|vl| - 1];
      assert init[0] == vl[0];
      OkPointsHead(init, parse);
    }
  }

  /** A handled `v` line that raised nothing set or grew the dimensions with its point, if it parsed. */
  lemma {:induction false} HandleVertexDims(env: Env, s: Pass, t: string)
    requires Classify(t) == Vertex && Handle(env, s, t).fault.None?
    ensures var r := Handle(env, s, t); var v := ReadVertex(t, env.parse);
      && r.dims == (if v.outcome != Returned then s.dims
                    else if s.isFirstCoord then SetBox(PointOf(t, env.parse))
                    else Extend(s.dims, PointOf(t, env.parse)))
      && r.isLoaded == (s.isLoaded && v.outcome == Returned)
  {
    assert Handle(env, s, t) == VertexLine(env, s, t);
    VertexLineWrites(env, s, t);
  }

  /** One `v` line's effect on the dimensions: `set` on the first coordinate, `update` after it, nothing when it did not parse. */
  function DimsAfter(d: Box, first: bool, t: string, parse: Parser): Box {
    if ReadVertex(t, parse).outcome != Returned then d
    else if first then SetBox(PointOf(t, parse))
    else Extend(d, PointOf(t, parse))
  }

  /** The dimensions after the given `v` lines, from `d0`; only the very first line sees `first`. */
  function DimsFold(first: bool, d0: Box, vl: seq<string>, parse: Parser): Box {
    if vl == [] then d0
    else DimsAfter(DimsFold(first, d0, vl[..|vl| - 1], parse), first && |vl| == 1, vl[|vl| - 1], parse)
  }

  /** Folding one more line is one more step. */
  lemma {:induction false} DimsFoldSnoc(first: bool, d0: Box, vl: seq<string>, t: string, parse: Parser)
    ensures DimsFold(first, d0, vl + [t], parse) == DimsAfter(DimsFold(first, d0, vl, parse), first && vl == [], t, parse)
  {
    assert (vl + [t])[..|vl|] == vl;
  }

  /** The dimensions and the first-coordinate flag after the `v` lines `vl`, from `s0`. */
  predicate DimsSoFar(env: Env, s0: Pass, s: Pass, vl: seq<string>) {
    && s.isFirstCoord == (s0.isFirstCoord && vl == [])
    && s.dims == DimsFold(s0.isFirstCoord, s0.dims, vl, env.parse)
  }

  /** Handling one more line keeps `DimsSoFar`, with the line added when it is a `v` line. */
  lemma {:induction false} DimsStep(env: Env, s0: Pass, s: Pass, vl: seq<string>, t: string)
    requires Handle(env, s, t).fault.None? && DimsSoFar(env, s0, s, vl)
    ensures DimsSoFar(env, s0, Handle(env, s, t), vl + (if Classify(t) == Vertex then [t] else []))
  {
    HandleFlags(env, s, t);
    if Classify(t) == Vertex {
      HandleVertexDims(env, s, t);
      DimsFoldSnoc(s0.isFirstCoord, s0.dims, vl, t, env.parse);
    } else {
      HandleFrame(env, s, t);
      assert vl + [] == vl;
    }
  }

  /** A run that raised nothing folded its `v` lines into the dimensions, one step each. */
  lemma {:induction false} RunDimsFold(env: Env, s0: Pass, lines: seq<string>)
    requires Run(env, s0, lines).fault.None?
    ensures DimsSoFar(env, s0, Run(env, s0, lines), LinesOf(lines, Vertex))
  {
    if lines != [] {
      var init := lines[..|lines| - 1];
      RunSnoc(env, s0, lines);
      RunDimsFold(env, s0, init);
      DimsStep(env, s0, Run(env, s0, init), LinesOf(init, Vertex), Trim(lines[|lines| - 1]));
    }
  }

  /**
   * The fold in closed form. When it starts on its first coordinate and the
   * first `v` line parses, it is the bounding box of the vertices that parsed
   * (so every such vertex is inside, and each face of the box touches one of
   * them). Otherwise `set` is never called and it is the starting box grown
   * by those vertices.
   */
  lemma {:induction false} DimsFoldHull(first: bool, d0: Box, vl: seq<string>, parse: Parser)
    ensures var pts := OkPoints(vl, parse);
      if first && vl != [] && ReadVertex(vl[0], parse).outcome == Returned
      then pts != [] && DimsFold(first, d0, vl, parse) == Hull(pts)
      else DimsFold(first, d0, vl, parse) == ExtendAll(d0, pts)
  {
    if vl != [] {
      var vl1 := vl[..|vl| - 1];
      var t := vl[|vl| - 1];
      DimsFoldHull(first, d0, vl1, parse);
      var pts1 := OkPoints(vl1, parse);
      var p := PointOf(t, parse);
      if ReadVertex(t, parse).outcome == Returned {
        assert OkPoints(vl, parse) == pts1 + [p];
        if vl1 == [] {
          if first {
            assert Hull([p]) == SetBox(p);
            assert pts1 + [p] == [p];
          } else {
            assert (pts1 + [p])[..|pts1|] == pts1;
          }
        } else {
          assert vl[0] == vl1[0];
          if first && ReadVertex(vl1[0], parse).outcome == Returned {
            HullSnoc(pts1, p);
          } else {
            assert (pts1 + [p])[..|pts1|] == pts1;
          }
        }
      } else {
        assert OkPoints(vl, parse) == pts1;
        if vl1 != [] { assert vl[0] == vl1[0]; }
      }
    }
  }

  /** The model dimensions after a run that raised nothing, in closed form. */
  lemma {:induction false} RunDims(env: Env, s0: Pass, lines: seq<string>)
    requires Run(env, s0, lines).fault.None?
    ensures var vl := LinesOf(lines, Vertex); var pts := OkPoints(vl, env.parse);
      if s0.isFirstCoord && vl != [] && ReadVertex(vl[0], env.parse).outcome == Returned
      then pts != [] && Run(env, s0, lines).dims == Hull(pts)
      else Run(env, s0, lines).dims == ExtendAll(s0.dims, pts)
  {
    RunDimsFold(env, s0, lines);
    DimsFoldHull(s0.isFirstCoord, s0.dims, LinesOf(lines, Vertex), env.parse);
  }

  /** The mode of the texture coordinates: fixed by the first `vt` line when the pass starts on it. */
  function TexMode(s0: Pass, tl: seq<string>): bool {
    if s0.isFirstTC && tl != [] then CheckTC3D(tl[0]) else s0.tc3D
  }

  /** The coordinates the given `vt` lines add in the given mode: one per line whose numbers parsed. */
  function TexEntries(tl: seq<string>, mode: bool, parse: Parser): (r: seq<Vec3>)
    ensures |r| <= |tl|
  {
    if tl == [] then [] else
    var tc := ReadTCTuple(tl[|tl| - 1], mode, parse);
    TexEntries(tl[..|tl| - 1], mode, parse) + (if tc.TexTuple? then [tc.tc] else [])
  }

  /** In 2-D mode every coordinate gets the placeholder depth. */
  lemma {:induction false} TexEntriesFlat(tl: seq<string>, parse: Parser)
    ensures forall i :: 0 <= i < |TexEntries(tl, false, parse)| ==> TexEntries(tl, false, parse)[i].z == DummyZTextureCoordinate
  {
    if tl != [] {
      TexEntriesFlat(tl[..|tl| - 1], parse);
    }
  }

  /** Every `vt` line whose numbers parse adds one coordinate. */
  lemma {:induction false} TexEntriesComplete(tl: seq<string>, mode: bool, parse: Parser)
    requires forall k :: 0 <= k < |tl| ==> ReadTCTuple(tl[k], mode, parse).TexTuple?
    ensures |TexEntries(tl, mode, parse)| == |tl|
  {
    if tl != [] {
      var init := tl[..|tl| - 1];
      assert forall k :: 0 <= k < |init| ==> init[k] == tl[k];
      TexEntriesComplete(init, mode, parse);
      assert ReadTCTuple(tl[|tl| - 1], mode, parse).TexTuple?;
    }
  }

  /** A handled `vt` line that raised nothing, read in the mode it picked. */
  lemma {:induction false} HandleTexCoord(env: Env, s: Pass, t: string)
    requires Classify(t) == TexCoord && Handle(env, s, t).fault.None?
    ensures var r := Handle(env, s, t); var mode := if s.isFirstTC then CheckTC3D(t) else s.tc3D;
      var tc := ReadTCTuple(t, mode, env.parse);
      && r.tc3D == mode
      && r.texCoords == s.texCoords + (if tc.TexTuple? then [tc.tc] else [])
      && r.isLoaded == (s.isLoaded && tc.TexTuple?)
  {
    assert Handle(env, s, t) == TexCoordLine(env, s, t);
  }

  /** One more `vt` line keeps the mode and the coordinates as `RunTexCoords` states them. */
  lemma {:induction false} TexStep(env: Env, s0: Pass, s: Pass, t: string, tl1: seq<string>)
    requires Classify(t) == TexCoord && Handle(env, s, t).fault.None?
    requires s.isFirstTC == (s0.isFirstTC && tl1 == [])
    requires s.tc3D == TexMode(s0, tl1)
    requires s.texCoords == s0.texCoords + TexEntries(tl1, TexMode(s0, tl1), env.parse)
    ensures var tl := tl1 + [t]; var r := Handle(env, s, t);
      && r.tc3D == TexMode(s0, tl)
      && r.texCoords == s0.texCoords + TexEntries(tl, TexMode(s0, tl), env.parse)
  {
    HandleTexCoord(env, s, t);
    var tl := tl1 + [t];
    var mode := TexMode(s0, tl);
    if tl1 == [] {
      assert tl[0] == t;
    } else {
      assert tl[0] == tl1[0];
    }
    assert tl[..|tl| - 1] == tl1;
    assert TexEntries(tl1, TexMode(s0, tl1), env.parse) == TexEntries(tl1, mode, env.parse);
  }

  /** After a run that raised nothing, the mode is fixed and the coordinates are those of the `vt` lines that parsed. */
  lemma {:induction false} RunTexCoords(env: Env, s0: Pass, lines: seq<string>)
    requires Run(env, s0, lines).fault.None?
    ensures var tl := LinesOf(lines, TexCoord); var s := Run(env, s0, lines);
      && s.tc3D == TexMode(s0, tl)
      && s.texCoords == s0.texCoords + TexEntries(tl, TexMode(s0, tl), env.parse)
  {
    if lines != [] {
      var init := lines[..|lines| - 1];
      var t := Trim(lines[|lines| - 1]);
      RunSnoc(env, s0, lines);
      var s1 := Run(env, s0, init);
      RunTexCoords(env, s0, init);
      RunFlags(env, s0, init);
      var tl1 := LinesOf(init, TexCoord);
      if Classify(t) == TexCoord {
        TexStep(env, s0, s1, t, tl1);
        assert LinesOf(lines, TexCoord) == tl1 + [t];
      } else {
        HandleFrame(env, s1, t);
        assert LinesOf(lines, TexCoord) == tl1;
      }
    }
  }

  /** The material uses the given lines record: a `usemtl` name with the number of face lines before it. */
  function UsesOf(lines: seq<string>, base: nat): (r: seq<MaterialUse>)
    ensures |r| == CountOf(lines, UseMtl)
  {
    if lines == [] then [] else
    var init := lines[..|lines| - 1];
    UsesOf(init, base) + UseOfLine(Trim(lines[|lines| - 1]), base, init)
  }

  /**
   * What `usemtl` records for the trimmed line `t` read after the lines
   * `init`: a use whose face index counts the face lines before it (`base`
   * of them before `init`), for a `usemtl` line; nothing otherwise.
   */
  function UseOfLine(t: string, base: nat, init: seq<string>): (r: seq<MaterialUse>)
    ensures |r| == if Classify(t) == UseMtl then 1 else 0
  {
    if Classify(t) == UseMtl then
      assert |t| >= 7 by { DirectiveLength(t); }
      [MaterialUse(base + CountOf(init, Face), t[7..])]
    else []
  }

  /** After a run that raised nothing, the material uses are those of its `usemtl` lines. */
  lemma {:induction false} RunUses(env: Env, s0: Pass, lines: seq<string>)
    requires Run(env, s0, lines).fault.None?
    ensures Run(env, s0, lines).uses == s0.uses + UsesOf(lines, s0.faceLines)
  {
    if lines != [] {
      var init := lines[..|lines| - 1];
      RunLast(env, s0, lines);
      RunUses(env, s0, init);
      RunCursors(env, s0, init);
      HandleUses(env, Run(env, s0, init), Trim(lines[|lines| - 1]), s0.faceLines, init);
      UsesStep(s0.uses, Run(env, s0, init).uses, Run(env, s0, lines).uses, s0.faceLines, lines);
    } else {
      assert s0.uses + UsesOf(lines, s0.faceLines) == s0.uses + [];
    }
  }

  /** One line further: if `u1` holds the uses of all lines but the last and `u2` adds the last one's, `u2` holds them all. */
  lemma {:induction false} UsesStep(u0: seq<MaterialUse>, u1: seq<MaterialUse>, u2: seq<MaterialUse>, base: nat, lines: seq<string>)
    requires lines != []
    requires u1 == u0 + UsesOf(lines[..|lines| - 1], base)
    requires u2 == u1 + UseOfLine(Trim(lines[|lines| - 1]), base, lines[..|lines| - 1])
    ensures u2 == u0 + UsesOf(lines, base)
  {
    AppendStep(u2, u1, UseOfLine(Trim(lines[|lines| - 1]), base, lines[..|lines| - 1]),
               u0, UsesOf(lines[..|lines| - 1], base), UsesOf(lines, base));
  }

  /** Putting together one step of a list that grows by appending. */
  lemma {:induction false} AppendStep<T>(r: seq<T>, r1: seq<T>, e: seq<T>, u: seq<T>, ui: seq<T>, ul: seq<T>)
    requires r == r1 + e && r1 == u + ui && ul == ui + e
    ensures r == u + ul
  {
    assert (u + ui) + e == u + (ui + e);
  }

  /**
   * A `usemtl` line records the material from the current face line on (the
   * `base` face lines before `init` and those of `init`); no other line
   * touches the uses.
   */
  lemma {:induction false} HandleUses(env: Env, s: Pass, t: string, base: nat, init: seq<string>)
    requires s.faceLines == base + CountOf(init, Face)
    ensures Handle(env, s, t).uses == s.uses + UseOfLine(t, base, init)
  {
    HandleFrame(env, s, t);
    if Classify(t) != UseMtl {
      assert s.uses + [] == s.uses;
    }
  }

  /** The last line's contribution to `UsesOf`. */
  lemma {:induction false} UsesOfSnoc(lines: seq<string>, base: nat)
    requires lines != []
    ensures var init := lines[..|lines| - 1]; var t := Trim(lines[|lines| - 1]);
      && (Classify(t) == UseMtl ==>
            && |t| >= 7
            && UsesOf(lines, base) == UsesOf(init, base) + [MaterialUse(base + CountOf(init, Face), t[7..])]
            && LinesOf(lines, UseMtl) == LinesOf(init, UseMtl) + [t])
      && (Classify(t) != UseMtl ==> UsesOf(lines, base) == UsesOf(init, base) && LinesOf(lines, UseMtl) == LinesOf(init, UseMtl))
      && CountOf(init, Face) <= CountOf(lines, Face)
  {
    DirectiveLength(Trim(lines[|lines| - 1]));
  }

  /** The material uses name the `usemtl` lines' materials, in file order. */
  lemma {:induction false} UsesOfNames(lines: seq<string>, base: nat)
    ensures var u := UsesOf(lines, base); var ul := LinesOf(lines, UseMtl);
      forall k :: 0 <= k < |u| ==> |ul[k]| >= 7 && u[k].name == ul[k][7..]
  {
    if lines != [] {
      UsesOfNames(lines[..|lines| - 1], base);
      UsesOfSnoc(lines, base);
    }
  }

  /**
   * The face index of each material use is the number of face lines before
   * its `usemtl` line: the indices never decrease and never pass the number
   * of face lines.
   */
  lemma {:induction false} UsesOfOrdered(lines: seq<string>, base: nat)
    ensures var u := UsesOf(lines, base);
      && (forall k :: 0 <= k < |u| ==> base <= u[k].faceIndex <= base + CountOf(lines, Face))
      && (forall i, j :: 0 <= i <= j < |u| ==> u[i].faceIndex <= u[j].faceIndex)
  {
    if lines != [] {
      UsesOfOrdered(lines[..|lines| - 1], base);
      UsesOfSnoc(lines, base);
    }
  }

  /** Every one of the given `v` or `vn` lines parsed. */
  predicate AllParsed(ls: seq<string>, parse: Parser) {
    forall k :: 0 <= k < |ls| ==> ReadVertex(ls[k], parse).outcome == Returned
  }

  /** Every one of the given `vt` lines parsed in the given mode. */
  predicate AllTexParsed(tl: seq<string>, mode: bool, parse: Parser) {
    forall k :: 0 <= k < |tl| ==> ReadTCTuple(tl[k], mode, parse).TexTuple?
  }

  /** `Faces.addFace` accepted every one of the given face lines, numbered from `base`. */
  predicate AllAccepted(fl: seq<string>, base: nat, accept: (nat, string) -> bool) {
    forall k :: 0 <= k < |fl| ==> accept(base + k, fl[k])
  }

  /** The number of faces `Faces` held when the pass started. */
  function FaceBase(s0: Pass): nat {
    if s0.faces.Some? then |s0.faces.value| else 0
  }

  /** Every handler called on the given `v`, `vn`, `vt` and face lines reported success. */
  predicate AllLoad(env: Env, s0: Pass, vl: seq<string>, nl: seq<string>, tl: seq<string>, fl: seq<string>) {
    && AllParsed(vl, env.parse)
    && AllParsed(nl, env.parse)
    && AllTexParsed(tl, TexMode(s0, tl), env.parse)
    && AllAccepted(fl, FaceBase(s0), env.acceptFace)
  }

  /** Every handler the lines called reported success. */
  predicate AllLinesLoad(env: Env, s0: Pass, lines: seq<string>) {
    AllLoad(env, s0, LinesOf(lines, Vertex), LinesOf(lines, Normal), LinesOf(lines, TexCoord), LinesOf(lines, Face))
  }

  /** A handled `vn` line that raised nothing keeps the flag only if it parsed. */
  lemma {:induction false} HandleNormalLoaded(env: Env, s: Pass, t: string)
    requires Classify(t) == Normal && Handle(env, s, t).fault.None?
    ensures Handle(env, s, t).isLoaded == (s.isLoaded && ReadVertex(t, env.parse).outcome == Returned)
  {
    assert Handle(env, s, t) == NormalLine(env, s, t);
    NormalLineWrites(env, s, t);
  }

  /** A handled face line that raised nothing keeps the flag only if `Faces` accepted it. */
  lemma {:induction false} HandleFaceLoaded(env: Env, s: Pass, t: string)
    requires Classify(t) == Face && Handle(env, s, t).fault.None?
    ensures s.faces.Some? && Handle(env, s, t).isLoaded == (s.isLoaded && env.acceptFace(|s.faces.value|, t))
  {
    assert Handle(env, s, t) == FaceLine(env, s, t);
  }

  /** Appending one line to a list of parsed lines. */
  lemma {:induction false} AllParsedSnoc(ls: seq<string>, t: string, parse: Parser)
    ensures AllParsed(ls + [t], parse) == (AllParsed(ls, parse) && ReadVertex(t, parse).outcome == Returned)
  {
    assert forall k :: 0 <= k < |ls| ==> (ls + [t])[k] == ls[k];
    assert (ls + [t])[|ls|] == t;
  }

  /** Appending one line to a list of parsed `vt` lines. */
  lemma {:induction false} AllTexParsedSnoc(tl: seq<string>, t: string, mode: bool, parse: Parser)
    ensures AllTexParsed(tl + [t], mode, parse) == (AllTexParsed(tl, mode, parse) && ReadTCTuple(t, mode, parse).TexTuple?)
  {
    assert forall k :: 0 <= k < |tl| ==> (tl + [t])[k] == tl[k];
    assert (tl + [t])[|tl|] == t;
  }

  /** Appending one line to a list of accepted face lines. */
  lemma {:induction false} AllAcceptedSnoc(fl: seq<string>, t: string, base: nat, accept: (nat, string) -> bool)
    ensures AllAccepted(fl + [t], base, accept) == (AllAccepted(fl, base, accept) && accept(base + |fl|, t))
  {
    assert forall k :: 0 <= k < |fl| ==> (fl + [t])[k] == fl[k];
    assert (fl + [t])[|fl|] == t;
  }

  /** What `RunLoaded` states of a run, in terms of the state it reached and the lines of each directive. */
  predicate LoadedSoFar(env: Env, s0: Pass, s: Pass, vl: seq<string>, nl: seq<string>, tl: seq<string>, fl: seq<string>) {
    && s.isLoaded == (s0.isLoaded && AllLoad(env, s0, vl, nl, tl, fl))
    && s.isFirstTC == (s0.isFirstTC && tl == [])
    && s.tc3D == TexMode(s0, tl)
    && (s.faces.Some? ==> |s.faces.value| == FaceBase(s0) + |fl|)
  }

  /** A `v` line keeps the flag as `RunLoaded` states it. */
  lemma {:induction false} LoadedStepVertex(env: Env, s0: Pass, s: Pass, vl: seq<string>, nl: seq<string>, tl: seq<string>, fl: seq<string>, t: string)
    requires Classify(t) == Vertex && Handle(env, s, t).fault.None? && LoadedSoFar(env, s0, s, vl, nl, tl, fl)
    ensures LoadedSoFar(env, s0, Handle(env, s, t), vl + [t], nl, tl, fl)
  {
    HandleFlags(env, s, t);
    HandleFaces(env, s, t);
    HandleFrame(env, s, t);
    HandleVertexDims(env, s, t);
    AllParsedSnoc(vl, t, env.parse);
  }

  /** A `vn` line keeps the flag as `RunLoaded` states it. */
  lemma {:induction false} LoadedStepNormal(env: Env, s0: Pass, s: Pass, vl: seq<string>, nl: seq<string>, tl: seq<string>, fl: seq<string>, t: string)
    requires Classify(t) == Normal && Handle(env, s, t).fault.None? && LoadedSoFar(env, s0, s, vl, nl, tl, fl)
    ensures LoadedSoFar(env, s0, Handle(env, s, t), vl, nl + [t], tl, fl)
  {
    HandleFlags(env, s, t);
    HandleFaces(env, s, t);
    HandleFrame(env, s, t);
    HandleNormalLoaded(env, s, t);
    AllParsedSnoc(nl, t, env.parse);
  }

  /** A `vt` line keeps the flag as `RunLoaded` states it. */
  lemma {:induction false} LoadedStepTexCoord(env: Env, s0: Pass, s: Pass, vl: seq<string>, nl: seq<string>, tl: seq<string>, fl: seq<string>, t: string)
    requires Classify(t) == TexCoord && Handle(env, s, t).fault.None? && LoadedSoFar(env, s0, s, vl, nl, tl, fl)
    ensures LoadedSoFar(env, s0, Handle(env, s, t), vl, nl, tl + [t], fl)
  {
    HandleFlags(env, s, t);
    HandleFaces(env, s, t);
    HandleTexCoord(env, s, t);
    var mode := TexMode(s0, tl + [t]);
    AllTexParsedSnoc(tl, t, mode, env.parse);
    if tl != [] {
      assert (tl + [t])[0] == tl[0];
      assert AllTexParsed(tl, TexMode(s0, tl), env.parse) == AllTexParsed(tl, mode, env.parse);
    } else {
      assert (tl + [t])[0] == t;
    }
  }

  /** A face line keeps the flag as `RunLoaded` states it. */
  lemma {:induction false} LoadedStepFace(env: Env, s0: Pass, s: Pass, vl: seq<string>, nl: seq<string>, tl: seq<string>, fl: seq<string>, t: string)
    requires Classify(t) == Face && Handle(env, s, t).fault.None? && LoadedSoFar(env, s0, s, vl, nl, tl, fl)
    ensures LoadedSoFar(env, s0, Handle(env, s, t), vl, nl, tl, fl + [t])
  {
    HandleFlags(env, s, t);
    HandleFaces(env, s, t);
    HandleFrame(env, s, t);
    HandleFaceLoaded(env, s, t);
    AllAcceptedSnoc(fl, t, FaceBase(s0), env.acceptFace);
  }

  /** A line of any other directive keeps `LoadedSoFar`. */
  lemma {:induction false} LoadedStepOther(env: Env, s0: Pass, s: Pass, vl: seq<string>, nl: seq<string>, tl: seq<string>, fl: seq<string>, t: string)
    requires Classify(t) !in {Vertex, Normal, TexCoord, Face} && LoadedSoFar(env, s0, s, vl, nl, tl, fl)
    ensures LoadedSoFar(env, s0, Handle(env, s, t), vl, nl, tl, fl)
  {
    HandleFrame(env, s, t);
  }

  /** One more line of any directive keeps `LoadedSoFar`. */
  lemma {:induction false} LoadedStep(env: Env, s0: Pass, s: Pass, vl: seq<string>, nl: seq<string>, tl: seq<string>, fl: seq<string>, t: string)
    requires Handle(env, s, t).fault.None? && LoadedSoFar(env, s0, s, vl, nl, tl, fl)
    ensures var d := Classify(t);
      LoadedSoFar(env, s0, Handle(env, s, t),
        vl + (if d == Vertex then [t] else []), nl + (if d == Normal then [t] else []),
        tl + (if d == TexCoord then [t] else []), fl + (if d == Face then [t] else []))
  {
    var d := Classify(t);
    if d == Vertex {
      LoadedStepVertex(env, s0, s, vl, nl, tl, fl, t);
      assert nl + [] == nl && tl + [] == tl && fl + [] == fl;
    } else if d == Normal {
      LoadedStepNormal(env, s0, s, vl, nl, tl, fl, t);
      assert vl + [] == vl && tl + [] == tl && fl + [] == fl;
    } else if d == TexCoord {
      LoadedStepTexCoord(env, s0, s, vl, nl, tl, fl, t);
      assert vl + [] == vl && nl + [] == nl && fl + [] == fl;
    } else if d == Face {
      LoadedStepFace(env, s0, s, vl, nl, tl, fl, t);
      assert vl + [] == vl && nl + [] == nl && tl + [] == tl;
    } else {
      LoadedStepOther(env, s0, s, vl, nl, tl, fl, t);
      assert vl + [] == vl && nl + [] == nl && tl + [] == tl && fl + [] == fl;
    }
  }

  /**
   * The flag `readModel` logs: after a run that raised nothing it is set
   * exactly when it was set at the start and every handler succeeded, that
   * is every `v`, `vn` and `vt` line parsed and `Faces` accepted every face.
   */
  lemma {:induction false} RunLoaded(env: Env, s0: Pass, lines: seq<string>)
    requires Run(env, s0, lines).fault.None?
    ensures Run(env, s0, lines).isLoaded == (s0.isLoaded && AllLinesLoad(env, s0, lines))
    ensures LoadedSoFar(env, s0, Run(env, s0, lines),
      LinesOf(lines, Vertex), LinesOf(lines, Normal), LinesOf(lines, TexCoord), LinesOf(lines, Face))
  {
    if lines != [] {
      var init := lines[..|lines| - 1];
      RunSnoc(env, s0, lines);
      RunLoaded(env, s0, init);
      LoadedStep(env, s0, Run(env, s0, init),
        LinesOf(init, Vertex), LinesOf(init, Normal), LinesOf(init, TexCoord), LinesOf(init, Face),
        Trim(lines[|lines| - 1]));
    }
  }
}
