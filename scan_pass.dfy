/**
 * The first pass (`analyzeModel`) as functions of the line sequence: which
 * lines are of which directive, how many of each there are, and the triangle
 * count the face lines add up to. The loader's loop is proved against these.
 */
module ScanPass {
  import opened Wrappers
  import opened JavaText
  import opened ObjLines

  /** The trimmed lines of directive `d`, in file order. */
  function LinesOf(lines: seq<string>, d: Directive): (r: seq<string>)
    ensures |r| <= |lines|
  {
    if lines == [] then [] else
    var t := Trim(lines[|lines| - 1]);
    LinesOf(lines[..|lines| - 1], d) + (if Classify(t) == d then [t] else [])
  }

  /** Every one of `ls` is a trimmed line of directive `d`. */
  predicate AllOf(ls: seq<string>, d: Directive) {
    forall i :: 0 <= i < |ls| ==> Classify(ls[i]) == d && IsTrimmed(ls[i])
  }

  /** Every line `LinesOf` picks is trimmed and of the directive asked for. */
  lemma {:induction false} LinesOfClassified(lines: seq<string>, d: Directive)
    ensures AllOf(LinesOf(lines, d), d)
  {
    if lines != [] {
      var init := lines[..|lines| - 1];
      LinesOfClassified(init, d);
      var r := LinesOf(lines, d);
      forall i | 0 <= i < |r| ensures Classify(r[i]) == d && IsTrimmed(r[i]) {
        if i < |LinesOf(init, d)| {
          assert r[i] == LinesOf(init, d)[i];
        }
      }
    }
  }

  /** The number of lines of directive `d`. */
  function CountOf(lines: seq<string>, d: Directive): nat {
    |LinesOf(lines, d)|
  }

  /** The sum of `FaceTriangles` over the given face lines. */
  function SumTriangles(faces: seq<string>): int {
    if faces == [] then 0 else SumTriangles(faces[..|faces| - 1]) + FaceTriangles(faces[|faces| - 1])
  }

  /** The triangle count the scan accumulates: each face line adds its references minus two. */
  function TriangleCount(lines: seq<string>): int {
    SumTriangles(LinesOf(lines, Face))
  }

  /** The path named by the last `mtllib` line (each one replaces the `Materials` of the one before). */
  function LastMtlLib(lines: seq<string>): Option<string> {
    var libs := LinesOf(lines, MtlLib);
    if libs == [] then None else
    assert |libs[|libs| - 1]| >= 7 by {
      LinesOfClassified(lines, MtlLib);
      var k := |libs| - 1;
      assert 0 <= k < |LinesOf(lines, MtlLib)|;
      assert Classify(LinesOf(lines, MtlLib)[k]) == MtlLib;
      DirectiveLength(libs[|libs| - 1]);
    }
    Some(libs[|libs| - 1][7..])
  }

  /** The counts and the material library `analyzeModel` leaves in the loader. */
  datatype ScanResult = ScanResult(numVerts: nat, numTextures: nat, numNormals: nat, numFaces: int, materialLib: Option<string>)

  function Scan(lines: seq<string>): ScanResult {
    ScanResult(CountOf(lines, Vertex), CountOf(lines, TexCoord), CountOf(lines, Normal),
               TriangleCount(lines), LastMtlLib(lines))
  }

  /** Every line falls under exactly one directive, so the eight counts add up to the number of lines. */
  lemma {:induction false} CountsPartitionLines(lines: seq<string>)
    ensures CountOf(lines, Blank) + CountOf(lines, Vertex) + CountOf(lines, TexCoord) + CountOf(lines, Normal)
          + CountOf(lines, Face) + CountOf(lines, UseMtl) + CountOf(lines, MtlLib) + CountOf(lines, Other) == |lines|
  {
    if lines != [] {
      CountsPartitionLines(lines[..|lines| - 1]);
    }
  }

  /**
   * The triangle count is the sum, over the face lines, of the number of
   * space-separated vertex references minus two (whichever of the two splits
   * the source picked for the line).
   */
  lemma {:induction false} SumTrianglesCountsReferences(faces: seq<string>)
    requires AllOf(faces, Face)
    ensures SumTriangles(faces) == SumReferences(faces) - 2 * |faces|
  {
    if faces != [] {
      SumTrianglesCountsReferences(faces[..|faces| - 1]);
    }
  }

  /** The total number of vertex references (fields after the `f`) of the given face lines. */
  function SumReferences(faces: seq<string>): int {
    if faces == [] then 0 else SumReferences(faces[..|faces| - 1]) + (|Fields(faces[|faces| - 1], Space)| - 1)
  }

  /** Every one of the given face lines has at least three vertex references. */
  predicate ThreeReferences(faces: seq<string>) {
    forall i :: 0 <= i < |faces| ==> |Fields(faces[i], Space)| >= 4
  }

  /** A file whose face lines all have at least three references counts at least one triangle per face line. */
  lemma {:induction false} TriangleCountAtLeastFaces(faces: seq<string>)
    requires AllOf(faces, Face) && ThreeReferences(faces)
    ensures SumTriangles(faces) >= |faces|
  {
    if faces != [] {
      var init := faces[..|faces| - 1];
      var last := faces[|faces| - 1];
      assert forall i :: 0 <= i < |init| ==> init[i] == faces[i];
      TriangleCountAtLeastFaces(init);
      assert IsTrimmed(last) && Classify(last) == Face && |Fields(last, Space)| >= 4;
      assert FaceTriangles(last) >= 1;
    }
  }
}
