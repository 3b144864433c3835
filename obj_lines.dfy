/**
 * What the loader does with one trimmed line of a Wavefront OBJ file, apart
 * from any state: which directive it is, how many triangles a face line is
 * counted as, and how the numbers of a vertex, normal or texture-coordinate
 * line are read (`addVert`'s try block, `checkTC3D`, `readTCTuple`).
 */
module ObjLines {
  import opened Wrappers
  import opened JavaText
  import opened Geometry

  /** `DUMMY_Z_TEXTURE_COORDINATE`: the third component given to a two-component texture coordinate. */
  const DummyZTextureCoordinate: real := -5.0

  /**
   * `Float.parseFloat`: `Some(value)` for a token it accepts, `None` where it
   * throws `NumberFormatException`. Its grammar and 32-bit rounding are not
   * part of this model, so every operation takes the parser as a parameter.
   */
  type Parser = string -> Option<real>

  /** The directive a trimmed line starts with. */
  datatype Directive = Blank | Vertex | TexCoord | Normal | Face | UseMtl | MtlLib | Other

  /** The chain of `startsWith` tests of `analyzeModel` and `readModel`. */
  function Classify(t: string): (d: Directive)
    ensures d == Blank <==> t == []
  {
    if t == [] then Blank
    else if StartsWith(t, "v ") then Vertex
    else if StartsWith(t, "vt") then TexCoord
    else if StartsWith(t, "vn") then Normal
    else if StartsWith(t, "f ") then Face
    else if StartsWith(t, "usemtl ") then UseMtl
    else if StartsWith(t, "mtllib ") then MtlLib
    else Other
  }

  /**
   * No two of the prefixes can both match, so the order in which the two
   * passes test them does not matter: each directive holds exactly when its
   * prefix does.
   */
  lemma {:induction false} ClassifyByPrefix(t: string)
    ensures Classify(t) == Vertex <==> StartsWith(t, "v ")
    ensures Classify(t) == TexCoord <==> StartsWith(t, "vt")
    ensures Classify(t) == Normal <==> StartsWith(t, "vn")
    ensures Classify(t) == Face <==> StartsWith(t, "f ")
    ensures Classify(t) == UseMtl <==> StartsWith(t, "usemtl ")
    ensures Classify(t) == MtlLib <==> StartsWith(t, "mtllib ")
  {
    PrefixHead(t, "v ");
    PrefixHead(t, "vt");
    PrefixHead(t, "vn");
    PrefixHead(t, "f ");
    PrefixHead(t, "usemtl ");
    PrefixHead(t, "mtllib ");
  }

  /** A line that starts with a prefix of two or more characters starts with its first two. */
  lemma {:induction false} PrefixHead(t: string, p: string)
    requires |p| >= 2
    ensures StartsWith(t, p) ==> t[0] == p[0] && t[1] == p[1]
  {
    if StartsWith(t, p) {
      assert t[..|p|][0] == t[0] && t[..|p|][1] == t[1];
    }
  }

  /** A `usemtl` or `mtllib` line is long enough for `substring(7)`. */
  lemma {:induction false} DirectiveLength(t: string)
    ensures Classify(t) == UseMtl || Classify(t) == MtlLib ==> |t| >= 7
  {
  }

  /**
   * The tokens `analyzeModel` and `addVert` work with: `line.split(" +")` when
   * the line holds two adjacent spaces, `line.split(" ")` otherwise. On a
   * trimmed line both branches give the space-separated fields.
   */
  function SplitTokens(t: string): (r: seq<string>)
    ensures IsTrimmed(t) && t != [] ==> r == Fields(t, Space)
  {
    var r := if HasDoubleSpace(t) then SplitOnRuns(t, Space) else SplitOnSpace(t);
    assert IsTrimmed(t) && t != [] ==> r == Fields(t, Space) by {
      if t != [] && IsTrimmed(t) {
        TrimmedIsFramed(t, Space);
        if HasDoubleSpace(t) { SplitOnRunsOfFramed(t, Space); } else { SplitOnSpaceOfFramed(t); }
      }
    }
    r
  }

  /**
   * What a face line adds to the scan's triangle count: the number of vertex
   * references (tokens after `f`) minus two. It is not clamped, so a face
   * with fewer than three references adds zero or a negative amount.
   */
  function FaceTriangles(t: string): (n: int)
    ensures IsTrimmed(t) && t != [] ==> n == |Fields(t, Space)| - 3
  {
    (|SplitTokens(t)| - 1) - 2
  }

  /** The exceptions other than `NumberFormatException` that can escape a line's handler and abort the pass. */
  datatype Fault = IndexOutOfBounds | NullPointer | NoSuchElement

  /** How a run of parse statements ends: normally, in the caught `NumberFormatException`, or in an uncaught exception. */
  datatype TryOutcome = Returned | NumberFormat | Thrown(fault: Fault)

  /** Tokens `from` .. `from + k - 1` all exist and parse. */
  predicate AllParse(tokens: seq<string>, from: nat, k: nat, parse: Parser) {
    k == 0 || (from + k <= |tokens| && forall j :: from <= j < from + k ==> parse(tokens[j]).Some?)
  }

  /**
   * The statements `v1 = parse(tokens[from]); v2 = parse(tokens[from + 1]); ...`
   * run in order: the values assigned before the first failure, and how the
   * run ended. A missing token raises `missing` (an array index or a
   * tokenizer exhausted); a token that does not parse ends it in `NumberFormat`.
   */
  function ReadFloats(tokens: seq<string>, from: nat, count: nat, parse: Parser, missing: Fault): (r: (seq<real>, TryOutcome))
    ensures |r.0| <= count
    ensures AllParse(tokens, from, |r.0|, parse)
    ensures forall j :: 0 <= j < |r.0| ==> parse(tokens[from + j]) == Some(r.0[j])
    ensures r.1 == Returned <==> |r.0| == count
    ensures r.1 == NumberFormat ==> from + |r.0| < |tokens| && parse(tokens[from + |r.0|]).None?
    ensures r.1.Thrown? ==> r.1.fault == missing && from + |r.0| >= |tokens|
    ensures r.1 == Returned || r.1 == NumberFormat || r.1 == Thrown(missing)
    decreases count
  {
    if count == 0 then ([], Returned)
    else if from >= |tokens| then ([], Thrown(missing))
    else match parse(tokens[from])
      case None => ([], NumberFormat)
      case Some(v) =>
        var rest := ReadFloats(tokens, from + 1, count - 1, parse, missing);
        ([v] + rest.0, rest.1)
  }

  /** The locals `x, y, z` (or `r, g, b`), initialised to 0, after the values read have been assigned. */
  function Padded(vals: seq<real>): (r: seq<real>)
    requires |vals| <= 3
    ensures |r| == 3 && r[..|vals|] == vals
    ensures forall j :: |vals| <= j < 3 ==> r[j] == 0.0
  {
    vals + seq(3 - |vals|, _ => 0.0)
  }

  /** What `addVert`'s try block leaves in `x, y, z` and `r, g, b`, and how it ended. */
  datatype VertexRead = VertexRead(pos: seq<real>, rgb: seq<real>, outcome: TryOutcome)

  /** A vertex or normal line that `addVert` reads without any exception. */
  predicate WellFormedVertex(tokens: seq<string>, parse: Parser) {
    (|tokens| == 4 || |tokens| >= 7) && AllParse(tokens, 1, 3, parse) && (|tokens| > 4 ==> AllParse(tokens, 4, 3, parse))
  }

  /**
   * `addVert`'s try block on a trimmed `v` or `vn` line: tokens 1..3 are the
   * position, and when the line has more than four tokens, tokens 4..6 are the
   * colour. A line of five or six tokens, or of fewer than four, runs off the
   * end of the token array, an exception the source does not catch.
   */
  function ReadVertex(t: string, parse: Parser): (v: VertexRead)
    ensures |v.pos| == 3 && |v.rgb| == 3
    ensures v.outcome == Returned <==> WellFormedVertex(SplitTokens(t), parse)
    ensures v.outcome == Returned || v.outcome == NumberFormat || v.outcome == Thrown(IndexOutOfBounds)
    ensures |SplitTokens(t)| == 5 || |SplitTokens(t)| == 6 ==> v.outcome != Returned
    ensures v.outcome.Thrown? ==> |SplitTokens(t)| < 4 || 4 < |SplitTokens(t)| < 7
  {
    var tokens := SplitTokens(t);
    var xyz := ReadFloats(tokens, 1, 3, parse, IndexOutOfBounds);
    if xyz.1 != Returned then
      VertexRead(Padded(xyz.0), Padded([]), xyz.1)
    else if |tokens| > 4 then
      var rgb := ReadFloats(tokens, 4, 3, parse, IndexOutOfBounds);
      VertexRead(xyz.0, Padded(rgb.0), rgb.1)
    else
      VertexRead(xyz.0, Padded([]), Returned)
  }

  /**
   * The values `addVert` writes for a line: every component read before a
   * failure keeps its value and the rest stay 0; the colour is read only when
   * the position was read in full and the line has more than four tokens.
   */
  lemma {:induction false} ReadVertexComponents(t: string, parse: Parser)
    ensures var tokens := SplitTokens(t); var v := ReadVertex(t, parse);
      forall j :: 0 <= j < 3 ==>
        v.pos[j] == if AllParse(tokens, 1, j + 1, parse) then parse(tokens[1 + j]).value else 0.0
    ensures var tokens := SplitTokens(t); var v := ReadVertex(t, parse);
      forall j :: 0 <= j < 3 ==>
        v.rgb[j] == if |tokens| > 4 && AllParse(tokens, 1, 3, parse) && AllParse(tokens, 4, j + 1, parse)
                    then parse(tokens[4 + j]).value else 0.0
  {
    var tokens := SplitTokens(t);
    var xyz := ReadFloats(tokens, 1, 3, parse, IndexOutOfBounds);
    PaddedReads(tokens, 1, xyz.0, parse);
    if xyz.1 == Returned && |tokens| > 4 {
      var rgb := ReadFloats(tokens, 4, 3, parse, IndexOutOfBounds);
      PaddedReads(tokens, 4, rgb.0, parse);
    } else {
      if xyz.1 != Returned {
        assert !AllParse(tokens, 1, 3, parse) by {
          assert 1 <= 1 + |xyz.0| < 4;
        }
      }
    }
  }

  /** The padded values of a run of reads are the parsed tokens up to the first failure, then zeros. */
  lemma {:induction false} PaddedReads(tokens: seq<string>, from: nat, vals: seq<real>, parse: Parser)
    requires |vals| <= 3 && AllParse(tokens, from, |vals|, parse)
    requires forall j :: 0 <= j < |vals| ==> parse(tokens[from + j]) == Some(vals[j])
    requires |vals| < 3 ==> from + |vals| >= |tokens| || parse(tokens[from + |vals|]).None?
    ensures forall j :: 0 <= j < 3 ==>
      Padded(vals)[j] == if AllParse(tokens, from, j + 1, parse) then parse(tokens[from + j]).value else 0.0
  {
    forall j | 0 <= j < 3
      ensures Padded(vals)[j] == if AllParse(tokens, from, j + 1, parse) then parse(tokens[from + j]).value else 0.0
    {
      if j < |vals| {
        assert Padded(vals)[j] == vals[j];
        assert AllParse(tokens, from, j + 1, parse);
      } else {
        assert from <= from + |vals| < from + j + 1;
      }
    }
  }

  /**
   * `checkTC3D`: whether `line.split("\\s+")` has exactly four tokens (`vt`
   * and three numbers). On a trimmed line that is the number of
   * whitespace-separated fields.
   */
  function CheckTC3D(t: string): (is3D: bool)
    ensures IsTrimmed(t) && t != [] ==> (is3D <==> |Fields(t, Whitespace)| == 4)
  {
    assert IsTrimmed(t) && t != [] ==> SplitOnRuns(t, Whitespace) == Fields(t, Whitespace) by {
      if IsTrimmed(t) && t != [] {
        TrimmedIsFramed(t, Whitespace);
        SplitOnRunsOfFramed(t, Whitespace);
      }
    }
    |SplitOnRuns(t, Whitespace)| == 4
  }

  /** What `readTCTuple` gives back: a tuple, `null` after a `NumberFormatException`, or an uncaught exception. */
  datatype TexRead = TexTuple(tc: Vec3) | TexNull | TexThrown(fault: Fault)

  /**
   * `readTCTuple`: skip the first `StringTokenizer` token, then read `u`, `v`
   * and, only in 3-D mode, `w`; in 2-D mode `w` is the dummy value and any
   * further number is ignored. Running out of tokens raises
   * `NoSuchElementException`, which the source does not catch.
   */
  function ReadTCTuple(t: string, is3D: bool, parse: Parser): (r: TexRead)
    ensures var tokens := Fields(t, Space); var n := if is3D then 3 else 2;
      && (r.TexTuple? <==> AllParse(tokens, 1, n, parse))
      && (r.TexThrown? ==> r.fault == NoSuchElement && |tokens| < n + 1)
      && (|tokens| >= n + 1 ==> !r.TexThrown?)
      && (r.TexTuple? ==> parse(tokens[1]) == Some(r.tc.x) && parse(tokens[2]) == Some(r.tc.y))
      && (r.TexTuple? && is3D ==> parse(tokens[3]) == Some(r.tc.z))
      && (r.TexTuple? && !is3D ==> r.tc.z == DummyZTextureCoordinate)
  {
    var tokens := Fields(t, Space);
    if |tokens| == 0 then TexThrown(NoSuchElement)
    else
      var read := ReadFloats(tokens, 1, if is3D then 3 else 2, parse, NoSuchElement);
      match read.1
      case Returned =>
        TexTuple(Vec3(read.0[0], read.0[1], if is3D then read.0[2] else DummyZTextureCoordinate))
      case NumberFormat => TexNull
      case Thrown(f) => TexThrown(f)
  }
}
