/** What the two versions of the eigenvalue sub-parser share: the end of the
    eigenvalue section, the split of spin-polarised data into one segment
    per "SPIN" line, the units on a segment's first line and the
    coordinates on a "kpt#" line.  The older and the newer parser write
    these parts with the same code. */
module EigSections {

  import opened Wrappers
  import opened Strings
  import opened Literals
  import opened SubParserBase
  import CommonRoutines

  // ---------------------------------------------------------------------
  // The lines of interest
  // ---------------------------------------------------------------------

  /** An empty line, or one where the charge densities start. */
  predicate IsSectionEnd(line: string) {
    |line| == 0 || Contains(line, "Total charge density")
  }

  /** The index `_get_loi` records: the first section end, or the last line. */
  function LoiEnding(lines: seq<string>): int {
    match FirstWhere(lines, IsSectionEnd)
    case Some(i) => i
    case None => |lines| - 1
  }

  /** The lines `_get_loi` returns. */
  function Loi(lines: seq<string>): seq<string> {
    match FirstWhere(lines, IsSectionEnd)
    case Some(i) => lines[..i]
    case None => lines
  }

  /** The section is a prefix of the lines that holds no section end; when
      it stops early, the recorded index is that of the line that ended it,
      and otherwise the index of the last line. */
  lemma LoiShape(lines: seq<string>)
    ensures |Loi(lines)| <= |lines| && Loi(lines) == lines[..|Loi(lines)|]
    ensures forall j :: 0 <= j < |Loi(lines)| ==> !IsSectionEnd(Loi(lines)[j])
    ensures |Loi(lines)| < |lines| ==> LoiEnding(lines) == |Loi(lines)| && IsSectionEnd(lines[LoiEnding(lines)])
    ensures |Loi(lines)| == |lines| ==> LoiEnding(lines) == |lines| - 1
  {
    FirstWhereFirst(lines, IsSectionEnd);
  }

  /** `_get_loi`: the search loop, which also records the ending index. */
  method GetLoi(sub: BaseSubParser, lines: seq<string>) returns (loi: seq<string>)
    modifies sub
    ensures loi == Loi(lines)
    ensures sub.endingRelativeIndex == Some(LoiEnding(lines))
  {
    for i := 0 to |lines|
      invariant forall j :: 0 <= j < i ==> !IsSectionEnd(lines[j])
    {
      if |lines[i]| == 0 || Contains(lines[i], "Total charge density") {
        FirstWhereIs(lines, IsSectionEnd, i);
        sub.SetEndingRelativeIndex(i);
        return lines[..i];
      }
    }
    FirstWhereNone(lines, IsSectionEnd);
    sub.SetEndingRelativeIndex(|lines| - 1);
    return lines;
  }

  // ---------------------------------------------------------------------
  // Number blocks
  // ---------------------------------------------------------------------

  /** A line that ends a block of numbers. */
  predicate IsBlockEnd(line: string) {
    Contains(line, "kpt#") || Contains(line, "occupation numbers")
  }

  /** The lines before the first one `stop` picks out, or all of them. */
  function BlockUntil(loi: seq<string>, stop: string -> bool): seq<string> {
    match FirstWhere(loi, stop)
    case Some(i) => loi[..i]
    case None => loi
  }

  /** A block is a prefix of the lines with no stopping line inside it, and
      it ends either at the end of the lines or at a stopping line. */
  lemma BlockUntilShape(loi: seq<string>, stop: string -> bool)
    ensures var b := BlockUntil(loi, stop);
      && |b| <= |loi| && b == loi[..|b|]
      && (forall j :: 0 <= j < |b| ==> !stop(b[j]))
      && (|b| < |loi| ==> stop(loi[|b|]))
  {
    FirstWhereFirst(loi, stop);
  }

  /** Conversely, such a prefix is the block. */
  lemma BlockUntilIs(loi: seq<string>, stop: string -> bool, k: nat)
    requires k <= |loi| && (forall j :: 0 <= j < k ==> !stop(loi[j])) && (k == |loi| || stop(loi[k]))
    ensures BlockUntil(loi, stop) == loi[..k]
  {
    if k == |loi| {
      FirstWhereNone(loi, stop);
    } else {
      FirstWhereIs(loi, stop, k);
    }
  }

  /** A line that does not stop the block, inside the block so far, lengthens it. */
  lemma BlockUntilGrows(loi: seq<string>, stop: string -> bool, n: nat)
    requires n < |loi| && n <= |BlockUntil(loi, stop)| && !stop(loi[n])
    ensures n + 1 <= |BlockUntil(loi, stop)|
  {
    BlockUntilShape(loi, stop);
  }

  /** A stopping line, or the end of the lines, within reach ends the block there. */
  lemma BlockUntilEnds(loi: seq<string>, stop: string -> bool, n: nat)
    requires n <= |BlockUntil(loi, stop)| && (n == |loi| || stop(loi[n]))
    ensures BlockUntil(loi, stop) == loi[..n]
  {
    var b := BlockUntil(loi, stop);
    BlockUntilShape(loi, stop);
    if n < |b| {
      assert false;
    }
  }

  /** `_get_next_number_block`: the lines up to the next block end. */
  function NextNumberBlock(loi: seq<string>): seq<string> {
    BlockUntil(loi, IsBlockEnd)
  }

  lemma NextNumberBlockShape(loi: seq<string>)
    ensures var b := NextNumberBlock(loi);
      && |b| <= |loi| && b == loi[..|b|]
      && (forall j :: 0 <= j < |b| ==> !IsBlockEnd(b[j]))
      && (|b| < |loi| ==> IsBlockEnd(loi[|b|]))
  {
    BlockUntilShape(loi, IsBlockEnd);
  }

  /** `_get_data_from_block`: the floats of every line, in order. */
  function BlockFloats(block: seq<string>): seq<real> {
    if |block| == 0 then []
    else BlockFloats(block[..|block| - 1]) + CommonRoutines.Decompose(block[|block| - 1]).floats
  }

  /** How many lines of `xs` satisfy `p`. */
  function Count(xs: seq<string>, p: string -> bool): nat {
    if |xs| == 0 then 0 else (if p(xs[0]) then 1 else 0) + Count(xs[1..], p)
  }

  lemma {:induction false} CountConcat(a: seq<string>, b: seq<string>, p: string -> bool)
    ensures Count(a + b, p) == Count(a, p) + Count(b, p)
  {
    if |a| > 0 {
      assert (a + b)[0] == a[0];
      assert (a + b)[1..] == a[1..] + b;
      CountConcat(a[1..], b, p);
    } else {
      assert a + b == b;
    }
  }

  lemma {:induction false} CountNone(a: seq<string>, p: string -> bool)
    requires forall j :: 0 <= j < |a| ==> !p(a[j])
    ensures Count(a, p) == 0
  {
    if |a| > 0 {
      CountNone(a[1..], p);
    }
  }

  // ---------------------------------------------------------------------
  // Spin segments
  // ---------------------------------------------------------------------

  predicate IsSpinLine(line: string) {
    Contains(line, "SPIN")
  }

  /** `line.split(" ")[-1][:-1].lower()`: the last space-separated word
      without its final character, lower-cased. */
  function SpinLabel(line: string): string {
    var pieces := SplitOn(line, {' '});
    var w := pieces[|pieces| - 1];
    Lower(if |w| == 0 then w else w[..|w| - 1])
  }

  /** The indices of the "SPIN" lines, in order. */
  function Markers(lines: seq<string>): (m: seq<nat>)
    ensures forall k :: 0 <= k < |m| ==> m[k] < |lines|
    ensures forall j, k :: 0 <= j < k < |m| ==> m[j] < m[k]
  {
    if |lines| == 0 then []
    else Markers(lines[..|lines| - 1]) + (if IsSpinLine(lines[|lines| - 1]) then [|lines| - 1] else [])
  }

  /** Every marker is the index of a "SPIN" line. */
  lemma {:induction false} MarkersAreSpinLines(lines: seq<string>)
    ensures forall k :: 0 <= k < |Markers(lines)| ==> IsSpinLine(lines[Markers(lines)[k]])
  {
    if |lines| > 0 {
      var front := lines[..|lines| - 1];
      MarkersAreSpinLines(front);
      assert forall k :: 0 <= k < |Markers(front)| ==> lines[Markers(front)[k]] == front[Markers(front)[k]];
    }
  }

  /** The spin labels of the "SPIN" lines, in the same order. */
  function Labels(lines: seq<string>): (l: seq<string>)
    ensures |l| == |Markers(lines)|
  {
    if |lines| == 0 then []
    else Labels(lines[..|lines| - 1]) + (if IsSpinLine(lines[|lines| - 1]) then [SpinLabel(lines[|lines| - 1])] else [])
  }

  /** The starts of the segments followed by the end of the lines. */
  function Bounds(lines: seq<string>): (b: seq<nat>)
    ensures |b| == |Markers(lines)| + 1
    ensures forall k :: 0 <= k < |b| ==> b[k] <= |lines|
    ensures forall j, k :: 0 <= j < k < |b| ==> b[j] < b[k]
  {
    Markers(lines) + [|lines|]
  }

  /** Segment `n` runs from the `n`-th "SPIN" line up to the next one, or to
      the end of the lines. */
  function Segments(lines: seq<string>): (segs: seq<seq<string>>)
    ensures |segs| == |Markers(lines)|
  {
    var b := Bounds(lines);
    seq(|b| - 1, n requires 0 <= n < |b| - 1 => lines[b[n]..b[n + 1]])
  }

  /** The lines of a sequence of segments, one after another. */
  function Flatten(segs: seq<seq<string>>): seq<string> {
    if |segs| == 0 then [] else Flatten(segs[..|segs| - 1]) + segs[|segs| - 1]
  }

  /** The segments, put back together, give every line from the first
      "SPIN" line on; when the first line is a "SPIN" line, that is all the
      lines, so the segments cover the input exactly. */
  lemma SegmentsCover(lines: seq<string>)
    requires |lines| > 0 && IsSpinLine(lines[0])
    ensures Flatten(Segments(lines)) == lines
  {
    FirstMarkerIsZero(lines);
    var b := Bounds(lines);
    var segs := Segments(lines);
    SegmentsPrefix(lines, |segs|);
    assert segs[..|segs|] == segs;
    assert lines[b[0]..b[|segs|]] == lines;
  }

  lemma {:induction false} FirstMarkerIsZero(lines: seq<string>)
    requires |lines| > 0 && IsSpinLine(lines[0])
    ensures |Markers(lines)| > 0 && Markers(lines)[0] == 0
    decreases |lines|
  {
    if |lines| > 1 {
      var front := lines[..|lines| - 1];
      assert front[0] == lines[0];
      FirstMarkerIsZero(front);
    }
  }

  lemma {:induction false} SegmentsPrefix(lines: seq<string>, n: nat)
    requires n <= |Markers(lines)|
    ensures var b := Bounds(lines); Flatten(Segments(lines)[..n]) == lines[b[0]..b[n]]
  {
    var b := Bounds(lines);
    var segs := Segments(lines);
    if n > 0 {
      SegmentsPrefix(lines, n - 1);
      FlattenSnoc(segs, n);
      assert segs[n - 1] == lines[b[n - 1]..b[n]];
      SliceJoin(lines, b[0], b[n - 1], b[n]);
    }
  }

  lemma FlattenSnoc(segs: seq<seq<string>>, n: nat)
    requires 0 < n <= |segs|
    ensures Flatten(segs[..n]) == Flatten(segs[..n - 1]) + segs[n - 1]
  {
    assert segs[..n][..n - 1] == segs[..n - 1];
    assert segs[..n][n - 1] == segs[n - 1];
  }

  lemma SliceJoin(lines: seq<string>, a: nat, b: nat, c: nat)
    requires a <= b <= c <= |lines|
    ensures lines[a..b] + lines[b..c] == lines[a..c]
  {
  }

  /** The first loop of `_get_polarized_data`: the label and the index of
      every "SPIN" line, then the end of the lines. */
  method SpinMarkers(lines: seq<string>) returns (spins: seq<string>, starts: seq<nat>)
    ensures spins == Labels(lines) && starts == Bounds(lines)
  {
    spins, starts := [], [];
    for i := 0 to |lines|
      invariant spins == Labels(lines[..i]) && starts == Markers(lines[..i])
    {
      SpinStep(lines, i);
      if Contains(lines[i], "SPIN") {
        var w := Last(SplitOn(lines[i], {' '}));
        spins := spins + [Lower(if |w| == 0 then w else w[..|w| - 1])];
        starts := starts + [i];
      }
    }
    assert lines[..|lines|] == lines;
    starts := starts + [|lines|];
  }

  /** One more line extends the labels and the markers by what that line
      contributes. */
  lemma SpinStep(lines: seq<string>, i: nat)
    requires i < |lines|
    ensures Labels(lines[..i + 1]) == Labels(lines[..i]) + (if IsSpinLine(lines[i]) then [SpinLabel(lines[i])] else [])
    ensures Markers(lines[..i + 1]) == Markers(lines[..i]) + (if IsSpinLine(lines[i]) then [i] else [])
  {
    assert lines[..i + 1][..i] == lines[..i];
    assert lines[..i + 1][i] == lines[i];
  }

  function Last(pieces: seq<string>): string
    requires |pieces| > 0
  {
    pieces[|pieces| - 1]
  }

  /** The label of a "SPIN" line is its last word without the final
      character, lower-cased: a line ending in " UP:" is labelled "up". */
  lemma SpinLabelOfLastWord(prefix: string, word: string)
    requires |word| > 0 && NoneIn(word, {' '})
    ensures SpinLabel(prefix + " " + word) == Lower(word[..|word| - 1])
  {
    SplitOnLast(prefix, word, ' ');
  }

  /** Splitting `a + [c] + b` on `c`, when `b` holds no `c`, ends with `b`. */
  lemma {:induction false} SplitOnLast(a: string, b: string, c: char)
    requires NoneIn(b, {c})
    ensures var r := SplitOn(a + [c] + b, {c}); |r| >= 2 && r[|r| - 1] == b
  {
    if |a| == 0 {
      assert a + [c] + b == [c] + b;
      assert ([c] + b)[1..] == b;
      SplitOnNone(b, c);
    } else {
      assert (a + [c] + b)[1..] == a[1..] + [c] + b;
      SplitOnLast(a[1..], b, c);
      var rest := SplitOn(a[1..] + [c] + b, {c});
      assert rest[|rest| - 1] == b;
    }
  }

  /** A string without the separator splits into itself alone. */
  lemma {:induction false} SplitOnNone(b: string, c: char)
    requires NoneIn(b, {c})
    ensures SplitOn(b, {c}) == [b]
  {
    if |b| > 0 {
      assert NoneIn(b[1..], {c}) by {
        forall j | 0 <= j < |b[1..]| ensures b[1..][j] !in {c} {
          assert b[1..][j] == b[j + 1];
        }
      }
      SplitOnNone(b[1..], c);
      assert [b[0]] + b[1..] == b;
    }
  }

  /** The `data` dictionary of `_get_polarized_data`: segment `n` is parsed
      by `parse` and stored under label `n`, in order, so a repeated label
      keeps its last segment; the first failure is the result. */
  function Polarized<T>(segs: seq<seq<string>>, labels: seq<string>, parse: seq<string> -> Result<T>): Result<map<string, T>>
    requires |segs| == |labels|
  {
    if |segs| == 0 then Success(map[])
    else
      var n := |segs| - 1;
      match Polarized(segs[..n], labels[..n], parse)
      case Failure(e) => Failure(e)
      case Success(data) =>
        match parse(segs[n])
        case Failure(e) => Failure(e)
        case Success(d) => Success(data[labels[n] := d])
  }

  /** The keys are exactly the labels. */
  lemma {:induction false} PolarizedKeys<T>(segs: seq<seq<string>>, labels: seq<string>, parse: seq<string> -> Result<T>)
    requires |segs| == |labels|
    ensures Polarized(segs, labels, parse).Success? ==>
      Polarized(segs, labels, parse).value.Keys == set k | 0 <= k < |labels| :: labels[k]
  {
    if |segs| > 0 {
      var n := |segs| - 1;
      PolarizedKeys(segs[..n], labels[..n], parse);
      if Polarized(segs, labels, parse).Success? {
        var before := set k | 0 <= k < n :: labels[..n][k];
        assert (set k | 0 <= k < |labels| :: labels[k]) == before + {labels[n]} by {
          forall x | x in (set k | 0 <= k < |labels| :: labels[k]) ensures x in before + {labels[n]} {
            var k :| 0 <= k < |labels| && labels[k] == x;
            if k < n {
              assert labels[..n][k] == x;
            }
          }
        }
      }
    }
  }

  /** The result fails exactly when some segment fails to parse. */
  lemma {:induction false} PolarizedSucceeds<T>(segs: seq<seq<string>>, labels: seq<string>, parse: seq<string> -> Result<T>)
    requires |segs| == |labels|
    ensures Polarized(segs, labels, parse).Success? <==> forall n :: 0 <= n < |segs| ==> parse(segs[n]).Success?
  {
    if |segs| > 0 {
      var n := |segs| - 1;
      PolarizedSucceeds(segs[..n], labels[..n], parse);
      forall m | 0 <= m < n ensures segs[..n][m] == segs[m] { }
    }
  }

  /** With distinct labels, segment `n` is stored, parsed, under label `n`. */
  lemma {:induction false} PolarizedEntries<T>(segs: seq<seq<string>>, labels: seq<string>, parse: seq<string> -> Result<T>)
    requires |segs| == |labels|
    requires forall j, k :: 0 <= j < k < |labels| ==> labels[j] != labels[k]
    ensures Polarized(segs, labels, parse).Success? ==>
      forall n :: 0 <= n < |segs| ==>
        labels[n] in Polarized(segs, labels, parse).value && parse(segs[n]) == Success(Polarized(segs, labels, parse).value[labels[n]])
  {
    if |segs| > 0 && Polarized(segs, labels, parse).Success? {
      var n := |segs| - 1;
      PolarizedEntries(segs[..n], labels[..n], parse);
      var data := Polarized(segs[..n], labels[..n], parse).value;
      forall m | 0 <= m < n
        ensures labels[m] in data && parse(segs[m]) == Success(data[labels[m]]) && labels[m] != labels[n]
      {
        assert segs[..n][m] == segs[m] && labels[..n][m] == labels[m];
      }
    }
  }

  /** One more segment that parses is stored under its label. */
  lemma PolarizedSnoc<T>(segs: seq<seq<string>>, labels: seq<string>, parse: seq<string> -> Result<T>, n: nat, data: map<string, T>)
    requires |segs| == |labels| && n < |segs|
    requires Polarized(segs[..n], labels[..n], parse) == Success(data) && parse(segs[n]).Success?
    ensures Polarized(segs[..n + 1], labels[..n + 1], parse) == Success(data[labels[n] := parse(segs[n]).value])
  {
    assert segs[..n + 1][..n] == segs[..n] && labels[..n + 1][..n] == labels[..n];
  }

  /** The first failing segment makes the whole polarised result fail. */
  lemma {:induction false} PolarizedStops<T>(segs: seq<seq<string>>, labels: seq<string>, parse: seq<string> -> Result<T>, n: nat)
    requires |segs| == |labels| && 0 < n <= |segs|
    requires Polarized(segs[..n - 1], labels[..n - 1], parse).Success? && parse(segs[n - 1]).Failure?
    ensures Polarized(segs, labels, parse) == Failure(parse(segs[n - 1]).error)
    decreases |segs|
  {
    if n < |segs| {
      var m := |segs| - 1;
      assert segs[..m][..n - 1] == segs[..n - 1] && labels[..m][..n - 1] == labels[..n - 1];
      PolarizedStops(segs[..m], labels[..m], parse, n);
    } else {
      assert segs[..n - 1] == segs[..|segs| - 1] && labels[..n - 1] == labels[..|labels| - 1];
    }
  }

  // ---------------------------------------------------------------------
  // Units and k-point coordinates
  // ---------------------------------------------------------------------

  /** `line.split("(")[1].split(")")[0].split(" ")`, first non-empty word:
      an IndexError when the line has no "(" or nothing inside it. */
  function Units(line: string): (r: Result<string>)
    ensures r.Failure? ==> r.error == IndexError
  {
    var parts := SplitOn(line, {'('});
    if |parts| < 2 then Failure(IndexError)
    else
      var words := NonEmpty(SplitOn(SplitOn(parts[1], {')'})[0], {' '}));
      if |words| == 0 then Failure(IndexError) else Success(words[0])
  }

  /** The units are a non-empty word inside the parentheses: no space, no
      parenthesis. */
  lemma UnitsShape(line: string)
    ensures Units(line).Success? ==> Units(line).value != ""
    ensures Units(line).Success? ==> NoneIn(Units(line).value, {' ', '(', ')'})
    ensures Units(line).Success? ==> '(' in line
  {
    var parts := SplitOn(line, {'('});
    if |parts| >= 2 {
      SplitOnPieces(line, {'('});
      var inner := SplitOn(parts[1], {')'});
      SplitOnPieces(parts[1], {')'});
      SplitOnPieces(inner[0], {' '});
      NonEmptyKeeps(SplitOn(inner[0], {' '}));
      SplitNoneOneHasNoSep(line, '(');
      SplitPieceIn(parts[1], ')');
      SplitPieceIn(inner[0], ' ');
    }
  }

  /** Splitting a string without the separator gives a single piece. */
  lemma SplitNoneOneHasNoSep(s: string, c: char)
    ensures c !in s ==> |SplitOn(s, {c})| == 1
  {
    if c !in s {
      assert NoneIn(s, {c});
      SplitOnNone(s, c);
    }
  }

  /** Every character of a piece is a character of the split string. */
  lemma {:induction false} SplitPieceIn(s: string, c: char)
    ensures forall k, j :: 0 <= k < |SplitOn(s, {c})| && 0 <= j < |SplitOn(s, {c})[k]| ==> SplitOn(s, {c})[k][j] in s
  {
    if |s| > 0 {
      SplitPieceIn(s[1..], c);
      var rest := SplitOn(s[1..], {c});
      var r := SplitOn(s, {c});
      forall k, j | 0 <= k < |r| && 0 <= j < |r[k]| ensures r[k][j] in s {
        if s[0] in {c} {
          if k > 0 {
            assert r[k] == rest[k - 1];
            assert rest[k - 1][j] in s[1..];
          }
        } else if k == 0 {
          if j > 0 {
            assert r[0][j] == rest[0][j - 1];
            assert rest[0][j - 1] in s[1..];
          }
        } else {
          assert r[k] == rest[k];
          assert rest[k][j] in s[1..];
        }
      }
    }
  }

  /** `float(t)`, or None when `float` rejects the text. */
  function TryFloat(t: string): Option<real> {
    if IsFloatLiteral(t) then Some(ParseFloat(t)) else None
  }

  /** `[conv(t) for t in ts]`: None at the first field `conv` rejects. */
  function Converted(ts: seq<string>, conv: string -> Option<real>): (r: Option<seq<real>>)
    ensures r.Some? ==> |r.value| == |ts|
  {
    if |ts| == 0 then Some([])
    else if conv(ts[0]).None? then None
    else match Converted(ts[1..], conv)
      case None => None
      case Some(rest) => Some([conv(ts[0]).value] + rest)
  }

  /** `[float(t) for t in ts]` */
  function Floats(ts: seq<string>): Option<seq<real>> {
    Converted(ts, TryFloat)
  }

  /** The fields convert exactly when each one does, each to its own
      value. */
  lemma {:induction false} ConvertedEach(ts: seq<string>, conv: string -> Option<real>)
    ensures Converted(ts, conv).Some? <==> forall k :: 0 <= k < |ts| ==> conv(ts[k]).Some?
    ensures Converted(ts, conv).Some? ==> forall k :: 0 <= k < |ts| ==> Converted(ts, conv).value[k] == conv(ts[k]).value
  {
    if |ts| > 0 {
      ConvertedEach(ts[1..], conv);
      assert forall k :: 1 <= k < |ts| ==> ts[k] == ts[1..][k - 1];
    }
  }

  /** The fields convert exactly when each is a float literal, each to its
      own value. */
  lemma FloatsEach(ts: seq<string>)
    ensures Floats(ts).Some? <==> forall k :: 0 <= k < |ts| ==> IsFloatLiteral(ts[k])
    ensures Floats(ts).Some? ==> forall k :: 0 <= k < |ts| ==> Floats(ts).value[k] == ParseFloat(ts[k])
  {
    ConvertedEach(ts, TryFloat);
  }

  /** The three coordinates of a "kpt#" line: the fifth-, fourth- and
      third-last non-empty space-separated fields, as floats. */
  function KptCoord(line: string): (r: Result<seq<real>>)
    ensures r.Success? ==> |r.value| == 3
    ensures r.Failure? ==> (r.error == IndexError <==> |CommonRoutines.Tokens(line)| < 5)
    ensures r.Failure? ==> r.error == IndexError || r.error == ValueError
  {
    var f := CommonRoutines.Tokens(line);
    if |f| < 5 then Failure(IndexError)
    else
      match Floats(f[|f| - 5..|f| - 2])
      case None => Failure(ValueError)
      case Some(c) => Success(c)
  }

  /** A line with at least five fields reads, as its coordinates, the
      values of its fifth-, fourth- and third-last fields, and fails with a
      ValueError exactly when one of them is not a float literal. */
  lemma KptCoordFields(line: string)
    requires |CommonRoutines.Tokens(line)| >= 5
    ensures var f := CommonRoutines.Tokens(line);
      && (KptCoord(line).Success? <==> forall k :: |f| - 5 <= k < |f| - 2 ==> IsFloatLiteral(f[k]))
      && (KptCoord(line).Success? ==> forall k :: 0 <= k < 3 ==> KptCoord(line).value[k] == ParseFloat(f[|f| - 5 + k]))
  {
    KptFields(CommonRoutines.Tokens(line));
  }

  /** The fifth- to third-last of at least five fields convert exactly when
      each is a float literal, each to its own value. */
  lemma KptFields(f: seq<string>)
    requires |f| >= 5
    ensures Floats(f[|f| - 5..|f| - 2]).Some? <==> forall k :: |f| - 5 <= k < |f| - 2 ==> IsFloatLiteral(f[k])
    ensures var c := Floats(f[|f| - 5..|f| - 2]);
              c.Some? ==> forall k :: 0 <= k < 3 ==> c.value[k] == ParseFloat(f[|f| - 5 + k])
  {
    var g := f[|f| - 5..|f| - 2];
    ConvertedEach(g, TryFloat);
    assert forall k :: 0 <= k < 3 ==> g[k] == f[|f| - 5 + k];
    assert forall k :: |f| - 5 <= k < |f| - 2 ==> f[k] == g[k - (|f| - 5)];
  }
}
