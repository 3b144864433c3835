/**
 * The few `java.lang.String` operations the loader relies on, written out over
 * `seq<char>`: `trim`, `startsWith`, `contains("  ")`, the regular-expression
 * `split` with the patterns `" "`, `" +"` and `"\\s+"`, and the tokens a
 * `StringTokenizer` with delimiter `" "` hands out. The scanners walk one
 * string by index.
 */
module JavaText {

  /** `String.trim` removes every leading and trailing character whose code is at most U+0020. */
  predicate IsTrimmable(c: char) { c <= ' ' }

  /** A string `trim` leaves unchanged. */
  predicate IsTrimmed(s: string) {
    s == [] || (!IsTrimmable(s[0]) && !IsTrimmable(s[|s| - 1]))
  }

  /** The first index from `i` on whose character `trim` keeps, or `|s|`. */
  function TrimLow(s: string, i: nat): (r: nat)
    requires i <= |s|
    ensures i <= r <= |s|
    ensures r < |s| ==> !IsTrimmable(s[r])
    ensures i < |s| && !IsTrimmable(s[i]) ==> r == i
    ensures forall k :: i <= k < r ==> IsTrimmable(s[k])
    decreases |s| - i
  {
    if i < |s| && IsTrimmable(s[i]) then TrimLow(s, i + 1) else i
  }

  /** The end of `s[lo..j]` once its trailing trimmable characters are dropped. */
  function TrimHigh(s: string, lo: nat, j: nat): (r: nat)
    requires lo <= j <= |s|
    ensures lo <= r <= j
    ensures r > lo ==> !IsTrimmable(s[r - 1])
    ensures j > lo && !IsTrimmable(s[j - 1]) ==> r == j
    ensures forall k :: r <= k < j ==> IsTrimmable(s[k])
    decreases j
  {
    if j > lo && IsTrimmable(s[j - 1]) then TrimHigh(s, lo, j - 1) else j
  }

  /** `s[lo..hi]` is what remains of `s` once the trimmable characters before `lo` and from `hi` on are cut off. */
  predicate CutEnds(s: string, lo: int, hi: int) {
    && 0 <= lo <= hi <= |s|
    && (forall k :: 0 <= k < lo ==> IsTrimmable(s[k]))
    && (forall k :: hi <= k < |s| ==> IsTrimmable(s[k]))
  }

  /** `String.trim`: `s` without its leading and trailing trimmable characters. */
  function Trim(s: string): (r: string)
    ensures IsTrimmed(r)
    ensures exists lo, hi :: CutEnds(s, lo, hi) && r == s[lo..hi]
    ensures r == s <==> IsTrimmed(s)
  {
    var lo := TrimLow(s, 0);
    var hi := TrimHigh(s, lo, |s|);
    var r := s[lo..hi];
    assert r != [] ==> r[0] == s[lo] && r[|r| - 1] == s[hi - 1];
    assert CutEnds(s, lo, hi);
    r
  }

  /** Cutting trimmable ends off `s` until both ends hold a kept character (or nothing is left) can only give `Trim(s)`. */
  lemma {:induction false} TrimIsUnique(s: string, lo: int, hi: int)
    requires CutEnds(s, lo, hi) && IsTrimmed(s[lo..hi])
    ensures s[lo..hi] == Trim(s)
  {
    var t := Trim(s);
    var lo', hi' :| CutEnds(s, lo', hi') && t == s[lo'..hi'];
    assert CutEnds(s, lo', hi');
    assert lo < hi ==> s[lo..hi][0] == s[lo] && s[lo..hi][hi - lo - 1] == s[hi - 1];
    assert lo' < hi' ==> t[0] == s[lo'] && t[|t| - 1] == s[hi' - 1];
    assert lo < hi ==> lo' <= lo && hi <= hi';
    assert lo' < hi' ==> lo <= lo' && hi' <= hi;
  }

  /** `String.startsWith`. */
  predicate StartsWith(s: string, prefix: string) {
    |prefix| <= |s| && s[..|prefix|] == prefix
  }

  /** `s.contains("  ")`: two adjacent spaces somewhere in `s`. */
  predicate HasDoubleSpace(s: string) {
    |s| >= 2 && ((s[0] == ' ' && s[1] == ' ') || HasDoubleSpace(s[1..]))
  }

  /** The character classes the loader splits on: `' '` alone, or Java's `\s` (space, \t, \n, \u000B, \f, \r). */
  datatype Delim = Space | Whitespace

  predicate IsDelim(d: Delim, c: char) {
    match d
    case Space => c == ' '
    case Whitespace => c == ' ' || c == '\t' || c == '\n' || c == '\r' || c as int == 0x0B || c as int == 0x0C
  }

  /** Every delimiter is a character `trim` removes. */
  lemma {:induction false} DelimIsTrimmable(d: Delim, c: char)
    requires IsDelim(d, c)
    ensures IsTrimmable(c)
  {
  }

  /** The first index from `i` on that holds no delimiter, or `|s|`. */
  function SkipFrom(s: string, d: Delim, i: nat): (r: nat)
    requires i <= |s|
    ensures i <= r <= |s|
    ensures r < |s| ==> !IsDelim(d, s[r])
    ensures i < |s| && IsDelim(d, s[i]) ==> r > i
    ensures i < |s| && !IsDelim(d, s[i]) ==> r == i
    decreases |s| - i
  {
    if i < |s| && IsDelim(d, s[i]) then SkipFrom(s, d, i + 1) else i
  }

  /** The first index from `i` on that holds a delimiter, or `|s|`. */
  function RunFrom(s: string, d: Delim, i: nat): (r: nat)
    requires i <= |s|
    ensures i <= r <= |s|
    ensures r < |s| ==> IsDelim(d, s[r])
    ensures i < |s| && !IsDelim(d, s[i]) ==> r > i
    decreases |s| - i
  {
    if i < |s| && !IsDelim(d, s[i]) then RunFrom(s, d, i + 1) else i
  }

  /** Skipping delimiters never passes a character that is not one. */
  lemma {:induction false} SkipStopsAt(s: string, d: Delim, i: nat, m: nat)
    requires i <= m < |s| && !IsDelim(d, s[m])
    ensures SkipFrom(s, d, i) <= m
    decreases m - i
  {
    if i < m && IsDelim(d, s[i]) {
      SkipStopsAt(s, d, i + 1, m);
    }
  }

  /** The maximal runs of non-delimiter characters of `s` from index `i` on, in order. */
  function FieldsFrom(s: string, d: Delim, i: nat): (r: seq<string>)
    requires i <= |s|
    ensures forall k :: 0 <= k < |r| ==> r[k] != []
    decreases |s| - i
  {
    var j := SkipFrom(s, d, i);
    if j == |s| then [] else
    var k := RunFrom(s, d, j);
    [s[j..k]] + FieldsFrom(s, d, k)
  }

  /** The tokens a `StringTokenizer` with the given delimiters yields: the maximal runs of other characters. */
  function Fields(s: string, d: Delim): (r: seq<string>)
    ensures forall k :: 0 <= k < |r| ==> r[k] != []
  {
    FieldsFrom(s, d, 0)
  }

  /** `s.split(regex, -1)` from index `i`, for the regex "one or more delimiters": the pieces between runs, empty ones kept. */
  function PiecesBetweenRuns(s: string, d: Delim, i: nat): (r: seq<string>)
    requires i <= |s|
    ensures |r| > 0
    decreases |s| - i
  {
    var k := RunFrom(s, d, i);
    if k == |s| then [s[i..]] else [s[i..k]] + PiecesBetweenRuns(s, d, SkipFrom(s, d, k))
  }

  /** `s.split(" ", -1)` from index `i`: the pieces between single spaces, empty ones kept. */
  function PiecesBetweenSpaces(s: string, i: nat): (r: seq<string>)
    requires i <= |s|
    ensures |r| > 0
    decreases |s| - i
  {
    var k := RunFrom(s, Space, i);
    if k == |s| then [s[i..]] else [s[i..k]] + PiecesBetweenSpaces(s, k + 1)
  }

  /** `String.split` with limit 0 drops the trailing empty strings of the result. */
  function DropTrailingEmpty(ps: seq<string>): (r: seq<string>)
    ensures |r| <= |ps| && r == ps[..|r|]
    ensures r == [] || r[|r| - 1] != []
  {
    if |ps| > 0 && ps[|ps| - 1] == [] then DropTrailingEmpty(ps[..|ps| - 1]) else ps
  }

  /** `s.split(" +")` (for `Space`) or `s.split("\\s+")` (for `Whitespace`); with no match the result is `[s]`. */
  function SplitOnRuns(s: string, d: Delim): seq<string> {
    if RunFrom(s, d, 0) == |s| then [s] else DropTrailingEmpty(PiecesBetweenRuns(s, d, 0))
  }

  /** `s.split(" ")`; with no match the result is `[s]`. */
  function SplitOnSpace(s: string): seq<string> {
    if RunFrom(s, Space, 0) == |s| then [s] else DropTrailingEmpty(PiecesBetweenSpaces(s, 0))
  }

  /** A non-empty string that neither starts nor ends with a delimiter. */
  predicate Framed(s: string, d: Delim) {
    s != [] && !IsDelim(d, s[0]) && !IsDelim(d, s[|s| - 1])
  }

  lemma {:induction false} TrimmedIsFramed(s: string, d: Delim)
    requires IsTrimmed(s) && s != []
    ensures Framed(s, d)
  {
    if IsDelim(d, s[0]) { DelimIsTrimmable(d, s[0]); }
    if IsDelim(d, s[|s| - 1]) { DelimIsTrimmable(d, s[|s| - 1]); }
  }

  /** Dropping trailing empty strings leaves a sequence that ends in a non-empty one unchanged. */
  lemma {:induction false} DropNothing(ps: seq<string>)
    requires forall k :: 0 <= k < |ps| ==> ps[k] != []
    ensures DropTrailingEmpty(ps) == ps
  {
  }

  /** On a framed string, from a non-delimiter on, cutting at runs of delimiters gives exactly the fields. */
  lemma {:induction false} PiecesBetweenRunsAreFields(s: string, d: Delim, i: nat)
    requires Framed(s, d) && i < |s| && !IsDelim(d, s[i])
    ensures PiecesBetweenRuns(s, d, i) == FieldsFrom(s, d, i)
    decreases |s| - i
  {
    var k := RunFrom(s, d, i);
    assert SkipFrom(s, d, i) == i;
    assert FieldsFrom(s, d, i) == [s[i..k]] + FieldsFrom(s, d, k);
    if k < |s| {
      SkipStopsAt(s, d, k, |s| - 1);
      var j := SkipFrom(s, d, k);
      assert SkipFrom(s, d, j) == j;
      assert FieldsFrom(s, d, k) == FieldsFrom(s, d, j);
      PiecesBetweenRunsAreFields(s, d, j);
    } else {
      assert SkipFrom(s, d, k) == |s|;
      assert FieldsFrom(s, d, k) == [];
      assert s[i..] == s[i..k];
    }
  }

  lemma {:induction false} NoDoubleSpaceAt(s: string, i: nat)
    requires i + 1 < |s| && !HasDoubleSpace(s) && s[i] == ' '
    ensures s[i + 1] != ' '
  {
    if i > 0 {
      NoDoubleSpaceAt(s[1..], i - 1);
    }
  }

  /** Without two adjacent spaces, and not ending in one, cutting at every space is cutting at runs of spaces. */
  lemma {:induction false} PiecesBetweenSpacesAreRuns(s: string, i: nat)
    requires Framed(s, Space) && !HasDoubleSpace(s) && i <= |s|
    ensures PiecesBetweenSpaces(s, i) == PiecesBetweenRuns(s, Space, i)
    decreases |s| - i
  {
    var k := RunFrom(s, Space, i);
    if k < |s| {
      assert k + 1 < |s|;
      NoDoubleSpaceAt(s, k);
      assert SkipFrom(s, Space, k + 1) == k + 1;
      assert SkipFrom(s, Space, k) == k + 1;
      PiecesBetweenSpacesAreRuns(s, k + 1);
    }
  }

  /** On a framed string, `split` on runs of delimiters yields exactly the fields. */
  lemma {:induction false} SplitOnRunsOfFramed(s: string, d: Delim)
    requires Framed(s, d)
    ensures SplitOnRuns(s, d) == Fields(s, d)
  {
    assert SkipFrom(s, d, 0) == 0;
    if RunFrom(s, d, 0) == |s| {
      assert SkipFrom(s, d, |s|) == |s|;
      assert FieldsFrom(s, d, |s|) == [];
      assert s[0..|s|] == s;
      assert FieldsFrom(s, d, 0) == [s[0..|s|]] + FieldsFrom(s, d, |s|);
    } else {
      PiecesBetweenRunsAreFields(s, d, 0);
      DropNothing(Fields(s, d));
    }
  }

  /** On a framed string without two adjacent spaces, `split(" ")` yields exactly the fields. */
  lemma {:induction false} SplitOnSpaceOfFramed(s: string)
    requires Framed(s, Space) && !HasDoubleSpace(s)
    ensures SplitOnSpace(s) == Fields(s, Space)
  {
    PiecesBetweenSpacesAreRuns(s, 0);
    SplitOnRunsOfFramed(s, Space);
  }
}
