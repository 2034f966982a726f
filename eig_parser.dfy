/** The eigenvalue sub-parser of the output parser package: the
    coordinates, eigenvalues and occupation numbers of every k-point, read
    from the lines after an "Eigenvalues" header. */
module EigParser {

  import opened Wrappers
  import opened Strings
  import opened SubParserBase
  import opened EigSections
  import CommonRoutines

  /** `_get_eigs`' dictionary. */
  datatype EigData = EigData(
    coordinates: seq<seq<real>>,
    eigenvalues: seq<seq<real>>,
    occupations: seq<seq<real>>,
    nbands: nat,
    units: string)

  /** Unpolarised data, or one `EigData` per spin label. */
  datatype EigResult = Unpolarized(data: EigData) | SpinPolarized(spins: map<string, EigData>)

  // ---------------------------------------------------------------------
  // Number blocks
  // ---------------------------------------------------------------------

  method GetNextNumberBlock(loi: seq<string>) returns (block: seq<string>)
    ensures block == NextNumberBlock(loi)
  {
    for i := 0 to |loi|
      invariant forall j :: 0 <= j < i ==> !IsBlockEnd(loi[j])
    {
      if Contains(loi[i], "kpt#") || Contains(loi[i], "occupation numbers") {
        BlockUntilIs(loi, IsBlockEnd, i);
        return loi[..i];
      }
    }
    BlockUntilIs(loi, IsBlockEnd, |loi|);
    return loi;
  }

  method GetDataFromBlock(block: seq<string>) returns (data: seq<real>)
    ensures data == BlockFloats(block)
  {
    data := [];
    for n := 0 to |block|
      invariant data == BlockFloats(block[..n])
    {
      assert block[..n + 1][..n] == block[..n];
      var s, i, f := CommonRoutines.DecomposeLine(block[n]);
      data := data + f;
    }
    assert block[..|block|] == block;
  }

  // ---------------------------------------------------------------------
  // The k-point scan
  // ---------------------------------------------------------------------

  /** What the loop of `_get_eigs` collects: the coordinates of each
      "kpt#" line, the block of lines after each of them, and the block
      after each "occupation numbers" line.  The numbers are read from the
      blocks afterwards, by `Numbers`. */
  datatype Collected = Collected(coordinates: seq<seq<real>>, eigenBlocks: seq<seq<string>>, occupationBlocks: seq<seq<string>>) {
    /** These lists followed by those of `other`. */
    function Then(other: Collected): Collected {
      Collected(coordinates + other.coordinates, eigenBlocks + other.eigenBlocks, occupationBlocks + other.occupationBlocks)
    }
  }

  const Nothing := Collected([], [], [])

  /** What was collected before, followed by what a scan collects. */
  function Prepend(acc: Collected, r: Result<Collected>): Result<Collected> {
    match r
    case Failure(e) => Failure(e)
    case Success(c) => Success(acc.Then(c))
  }

  predicate IsKptLine(line: string) {
    StartsWith(line, "kpt#")
  }

  predicate IsOccupationLine(line: string) {
    !IsKptLine(line) && Contains(line, "occupation numbers")
  }

  /** Where the loop looks next after a header at line `i`: past its block. */
  function AfterBlock(loi: seq<string>, i: nat): (j: nat)
    requires i < |loi|
    ensures i < j <= |loi|
  {
    NextNumberBlockShape(loi[i + 1..]);
    i + |NextNumberBlock(loi[i + 1..])| + 1
  }

  /** What line `i` of the loop of `_get_eigs` contributes, and the line
      the loop looks at next: a "kpt#" line gives its coordinates and the
      block after it, an "occupation numbers" line the block after it, and
      the loop goes on after the block; any other line gives nothing.
      Reading coordinates is the only step that fails. */
  function Step(loi: seq<string>, i: nat): (r: Result<(Collected, nat)>)
    requires i < |loi|
    ensures r.Success? ==> i < r.value.1 <= |loi|
  {
    var block := NextNumberBlock(loi[i + 1..]);
    if IsKptLine(loi[i]) then
      match KptCoord(loi[i])
      case Failure(e) => Failure(e)
      case Success(c) => Success((Collected([c], [block], []), AfterBlock(loi, i)))
    else if Contains(loi[i], "occupation numbers") then
      Success((Collected([], [], [block]), AfterBlock(loi, i)))
    else Success((Nothing, i + 1))
  }

  /** The loop of `_get_eigs` from line `i` of `loi` on. */
  function Scan(loi: seq<string>, i: nat): Result<Collected>
    requires i <= |loi|
    decreases |loi| - i
  {
    if i == |loi| then Success(Nothing)
    else
      match Step(loi, i)
      case Failure(e) => Failure(e)
      case Success(next) => Prepend(next.0, Scan(loi, next.1))
  }

  /** The numbers of each block. */
  function Numbers(blocks: seq<seq<string>>): (r: seq<seq<real>>)
    ensures |r| == |blocks|
  {
    seq(|blocks|, k requires 0 <= k < |blocks| => BlockFloats(blocks[k]))
  }

  /** `_get_eigs`: units from the first line, then the scan of the other
      lines; the band count is the length of the first eigenvalue list. */
  function Eigs(lines: seq<string>): Result<EigData> {
    if |lines| == 0 then Failure(IndexError)
    else
      match Units(lines[0])
      case Failure(e) => Failure(e)
      case Success(units) =>
        match Scan(lines[1..], 0)
        case Failure(e) => Failure(e)
        case Success(c) =>
          if |c.eigenBlocks| == 0 then Failure(IndexError)
          else Success(EigData(c.coordinates, Numbers(c.eigenBlocks), Numbers(c.occupationBlocks),
                               |BlockFloats(c.eigenBlocks[0])|, units))
  }

  lemma ThenNothing(acc: Collected)
    ensures acc.Then(Nothing) == acc && Nothing.Then(acc) == acc
  {
    assert acc.coordinates + [] == acc.coordinates == [] + acc.coordinates;
    assert acc.eigenBlocks + [] == acc.eigenBlocks == [] + acc.eigenBlocks;
    assert acc.occupationBlocks + [] == acc.occupationBlocks == [] + acc.occupationBlocks;
  }

  lemma PrependNothing(r: Result<Collected>)
    ensures Prepend(Nothing, r) == r
  {
    if r.Success? {
      ThenNothing(r.value);
    }
  }

  lemma PrependAssoc(acc: Collected, x: Collected, r: Result<Collected>)
    ensures Prepend(acc, Prepend(x, r)) == Prepend(acc.Then(x), r)
  {
    if r.Success? {
      var c := r.value;
      assert acc.coordinates + (x.coordinates + c.coordinates) == acc.coordinates + x.coordinates + c.coordinates;
      assert acc.eigenBlocks + (x.eigenBlocks + c.eigenBlocks) == acc.eigenBlocks + x.eigenBlocks + c.eigenBlocks;
      assert acc.occupationBlocks + (x.occupationBlocks + c.occupationBlocks) == acc.occupationBlocks + x.occupationBlocks + c.occupationBlocks;
    }
  }

  lemma NumbersSnoc(blocks: seq<seq<string>>, b: seq<string>)
    ensures Numbers(blocks + [b]) == Numbers(blocks) + [BlockFloats(b)]
  {
    assert forall k :: 0 <= k < |blocks| ==> (blocks + [b])[k] == blocks[k];
  }

  /** One step of the loop: what the line contributes joins what was
      collected before. */
  lemma ScanStep(loi: seq<string>, i: nat, acc: Collected)
    requires i < |loi| && Step(loi, i).Success?
    ensures Prepend(acc, Scan(loi, i)) == Prepend(acc.Then(Step(loi, i).value.0), Scan(loi, Step(loi, i).value.1))
  {
    PrependAssoc(acc, Step(loi, i).value.0, Scan(loi, Step(loi, i).value.1));
  }

  /** The loop's step on a "kpt#" line whose coordinates read. */
  lemma ScanKpt(loi: seq<string>, i: nat, acc: Collected)
    requires i < |loi| && IsKptLine(loi[i]) && KptCoord(loi[i]).Success?
    ensures Prepend(acc, Scan(loi, i)) ==
      Prepend(acc.Then(Collected([KptCoord(loi[i]).value], [NextNumberBlock(loi[i + 1..])], [])), Scan(loi, AfterBlock(loi, i)))
  {
    assert Step(loi, i) == Success((Collected([KptCoord(loi[i]).value], [NextNumberBlock(loi[i + 1..])], []), AfterBlock(loi, i)));
    ScanStep(loi, i, acc);
  }

  /** The loop's step on an "occupation numbers" line. */
  lemma ScanOccupation(loi: seq<string>, i: nat, acc: Collected)
    requires i < |loi| && IsOccupationLine(loi[i])
    ensures Prepend(acc, Scan(loi, i)) ==
      Prepend(acc.Then(Collected([], [], [NextNumberBlock(loi[i + 1..])])), Scan(loi, AfterBlock(loi, i)))
  {
    assert Step(loi, i) == Success((Collected([], [], [NextNumberBlock(loi[i + 1..])]), AfterBlock(loi, i)));
    ScanStep(loi, i, acc);
  }

  /** The loop's step on any other line. */
  lemma ScanOther(loi: seq<string>, i: nat, acc: Collected)
    requires i < |loi| && !IsKptLine(loi[i]) && !IsOccupationLine(loi[i])
    ensures Prepend(acc, Scan(loi, i)) == Prepend(acc, Scan(loi, i + 1))
  {
    assert Step(loi, i) == Success((Nothing, i + 1));
    ThenNothing(acc);
    ScanStep(loi, i, acc);
  }

  /** The loop's step on a "kpt#" line whose coordinates do not read. */
  lemma ScanFails(loi: seq<string>, i: nat, acc: Collected)
    requires i < |loi| && IsKptLine(loi[i]) && KptCoord(loi[i]).Failure?
    ensures Prepend(acc, Scan(loi, i)) == Failure(KptCoord(loi[i]).error)
  {
    assert Step(loi, i) == Failure(KptCoord(loi[i]).error);
  }

  lemma ScanEnd(loi: seq<string>, acc: Collected)
    ensures Prepend(acc, Scan(loi, |loi|)) == Success(acc)
  {
    ThenNothing(acc);
  }

  /** The loop of `_get_eigs`, which jumps over each block it has read.
      It returns the coordinates and the numbers of the blocks. */
  method ScanLines(loi: seq<string>) returns (r: Result<(seq<seq<real>>, seq<seq<real>>, seq<seq<real>>)>)
    ensures Scan(loi, 0).Failure? ==> r == Failure(Scan(loi, 0).error)
    ensures Scan(loi, 0).Success? ==>
      var c := Scan(loi, 0).value; r == Success((c.coordinates, Numbers(c.eigenBlocks), Numbers(c.occupationBlocks)))
  {
    ghost var acc := Nothing;
    var coordinates, eigenvalues, occupations := [], [], [];
    var skip := 0;
    PrependNothing(Scan(loi, 0));
    for i := 0 to |loi|
      invariant skip <= |loi|
      invariant Scan(loi, 0) == Prepend(acc, Scan(loi, if i < skip then skip else i))
      invariant coordinates == acc.coordinates
      invariant eigenvalues == Numbers(acc.eigenBlocks) && occupations == Numbers(acc.occupationBlocks)
    {
      if i < skip {
        continue;
      }
      assert Scan(loi, 0) == Prepend(acc, Scan(loi, i));
      if StartsWith(loi[i], "kpt#") {
        var coord := KptCoord(loi[i]);
        if coord.Failure? {
          ScanFails(loi, i, acc);
          return Failure(coord.error);
        }
        ScanKpt(loi, i, acc);
        var block := GetNextNumberBlock(loi[i + 1..]);
        var eigs := GetDataFromBlock(block);
        NumbersSnoc(acc.eigenBlocks, block);
        coordinates := coordinates + [coord.value];
        eigenvalues := eigenvalues + [eigs];
        acc := acc.Then(Collected([coord.value], [block], []));
        skip := i + |block| + 1;
        assert skip == AfterBlock(loi, i);
        assert Scan(loi, 0) == Prepend(acc, Scan(loi, skip));
      } else if Contains(loi[i], "occupation numbers") {
        ScanOccupation(loi, i, acc);
        var block := GetNextNumberBlock(loi[i + 1..]);
        var occ := GetDataFromBlock(block);
        NumbersSnoc(acc.occupationBlocks, block);
        occupations := occupations + [occ];
        acc := acc.Then(Collected([], [], [block]));
        skip := i + |block| + 1;
        assert skip == AfterBlock(loi, i);
        assert Scan(loi, 0) == Prepend(acc, Scan(loi, skip));
      } else {
        ScanOther(loi, i, acc);
      }
    }
    ScanEnd(loi, acc);
    return Success((coordinates, eigenvalues, occupations));
  }

  method GetEigs(lines: seq<string>) returns (r: Result<EigData>)
    ensures r == Eigs(lines)
  {
    if |lines| == 0 {
      return Failure(IndexError);
    }
    var units := Units(lines[0]);
    if units.Failure? {
      return Failure(units.error);
    }
    var scanned := ScanLines(lines[1..]);
    if scanned.Failure? {
      return Failure(scanned.error);
    }
    var (coordinates, eigenvalues, occupations) := scanned.value;
    if |eigenvalues| == 0 {
      return Failure(IndexError);
    }
    return Success(EigData(coordinates, eigenvalues, occupations, |eigenvalues[0]|, units.value));
  }

  // ---------------------------------------------------------------------
  // Spin polarisation and the parser object
  // ---------------------------------------------------------------------

  /** `_get_data`: polarised when the first line mentions a spin. */
  function Data(lines: seq<string>): Result<EigResult> {
    if |lines| == 0 then Failure(IndexError)
    else if IsSpinLine(lines[0]) then
      match Polarized(Segments(lines), Labels(lines), Eigs)
      case Failure(e) => Failure(e)
      case Success(m) => Success(SpinPolarized(m))
    else
      match Eigs(lines)
      case Failure(e) => Failure(e)
      case Success(d) => Success(Unpolarized(d))
  }

  /** `_get_polarized_data`. */
  method GetPolarizedData(lines: seq<string>) returns (r: Result<map<string, EigData>>)
    ensures r == Polarized(Segments(lines), Labels(lines), Eigs)
  {
    var spins, starts := SpinMarkers(lines);
    ghost var segs := Segments(lines);
    var data := map[];
    for n := 0 to |spins|
      invariant Polarized(segs[..n], spins[..n], Eigs) == Success(data)
    {
      assert segs[n] == lines[starts[n]..starts[n + 1]];
      var eigs := GetEigs(lines[starts[n]..starts[n + 1]]);
      if eigs.Failure? {
        PolarizedStops(segs, spins, Eigs, n + 1);
        return Failure(eigs.error);
      }
      PolarizedSnoc(segs, spins, Eigs, n, data);
      data := data[spins[n] := eigs.value];
    }
    assert segs[..|spins|] == segs && spins[..|spins|] == spins;
    return Success(data);
  }

  method GetData(lines: seq<string>) returns (r: Result<EigResult>)
    ensures r == Data(lines)
  {
    if |lines| == 0 {
      return Failure(IndexError);
    }
    if Contains(lines[0], "SPIN") {
      var p := GetPolarizedData(lines);
      if p.Failure? {
        return Failure(p.error);
      }
      return Success(SpinPolarized(p.value));
    }
    var e := GetEigs(lines);
    if e.Failure? {
      return Failure(e.error);
    }
    return Success(Unpolarized(e.value));
  }

  class EIGParser {
    const base: BaseSubParser
    var data: Result<EigResult>

    /** `EIGParser(lines, check_loi)`: the section found by `_get_loi`, or
        all the lines with the last one as the ending, then parsed. */
    constructor (lines: seq<string>, checkLoi: bool)
      ensures fresh(base)
      ensures data == Data(if checkLoi then Loi(lines) else lines)
      ensures base.endingRelativeIndex == Some(if checkLoi then LoiEnding(lines) else |lines| - 1)
    {
      base := new BaseSubParser();
      new;
      var loi := lines;
      if checkLoi {
        loi := GetLoi(base, lines);
      } else {
        base.SetEndingRelativeIndex(|lines| - 1);
      }
      data := GetData(loi);
    }
  }

  // ---------------------------------------------------------------------
  // Properties
  // ---------------------------------------------------------------------

  lemma HeadersAreBlockEnds()
    ensures forall l :: IsKptLine(l) ==> IsBlockEnd(l)
    ensures forall l :: IsOccupationLine(l) ==> IsBlockEnd(l)
  {
    forall l | IsKptLine(l) ensures IsBlockEnd(l) {
      StartsWithContains(l, "kpt#");
    }
  }

  /** What one step contributes: a coordinate and an eigenvalue block for
      a "kpt#" line, an occupation block for an occupation line, nothing
      for any other line; after a header the loop resumes past its block. */
  lemma StepShape(loi: seq<string>, i: nat)
    requires i < |loi|
    ensures Step(loi, i).Failure? ==> IsKptLine(loi[i])
    ensures Step(loi, i).Success? ==> var x := Step(loi, i).value.0;
      && |x.coordinates| == |x.eigenBlocks| == (if IsKptLine(loi[i]) then 1 else 0)
      && |x.occupationBlocks| == (if IsOccupationLine(loi[i]) then 1 else 0)
      && (forall k :: 0 <= k < |x.coordinates| ==> |x.coordinates[k]| == 3)
      && Step(loi, i).value.1 == (if IsKptLine(loi[i]) || IsOccupationLine(loi[i]) then AfterBlock(loi, i) else i + 1)
  {
  }

  /** Every "kpt#" line gives one coordinate and one eigenvalue block, and
      every other line with "occupation numbers" one occupation block: the
      skipping never passes over one of them.  The scan fails only on a
      "kpt#" line. */
  lemma {:induction false} ScanCounts(loi: seq<string>, i: nat)
    requires i <= |loi|
    ensures Scan(loi, i).Success? ==>
      && |Scan(loi, i).value.coordinates| == Count(loi[i..], IsKptLine)
      && |Scan(loi, i).value.eigenBlocks| == Count(loi[i..], IsKptLine)
      && |Scan(loi, i).value.occupationBlocks| == Count(loi[i..], IsOccupationLine)
    ensures Scan(loi, i).Failure? ==> Count(loi[i..], IsKptLine) > 0
    decreases |loi| - i
  {
    if i < |loi| {
      StepShape(loi, i);
      var step := Step(loi, i);
      if step.Success? {
        var j := step.value.1;
        CountStepUpTo(loi, i, j, |loi|, IsKptLine);
        CountStepUpTo(loi, i, j, |loi|, IsOccupationLine);
        assert loi[i..|loi|] == loi[i..] && loi[j..|loi|] == loi[j..];
        ScanCounts(loi, j);
      } else {
        assert loi[i..][0] == loi[i];
      }
    }
  }

  /** Unpolarised data has one coordinate and one eigenvalue list per
      "kpt#" line, at least one of them, and as many bands as the first
      list holds; without any "kpt#" line, `_get_eigs` fails with an
      IndexError. */
  lemma EigsCounts(lines: seq<string>)
    requires |lines| > 0
    ensures Eigs(lines).Success? ==>
      && |Eigs(lines).value.coordinates| == |Eigs(lines).value.eigenvalues| == Count(lines[1..], IsKptLine) > 0
      && |Eigs(lines).value.occupations| == Count(lines[1..], IsOccupationLine)
      && Eigs(lines).value.nbands == |Eigs(lines).value.eigenvalues[0]|
    ensures Units(lines[0]).Success? && Count(lines[1..], IsKptLine) == 0 ==> Eigs(lines) == Failure(IndexError)
  {
    ScanCounts(lines[1..], 0);
    assert lines[1..][0..] == lines[1..];
  }

  /** Each coordinate list holds three numbers. */
  lemma {:induction false} ScanCoordinates(loi: seq<string>, i: nat)
    requires i <= |loi|
    ensures Scan(loi, i).Success? ==>
      forall k :: 0 <= k < |Scan(loi, i).value.coordinates| ==> |Scan(loi, i).value.coordinates[k]| == 3
    decreases |loi| - i
  {
    if i < |loi| && Step(loi, i).Success? {
      StepShape(loi, i);
      var step := Step(loi, i);
      ScanCoordinates(loi, step.value.1);
      if Scan(loi, i).Success? {
        var rest := Scan(loi, step.value.1).value;
        assert Scan(loi, i).value.coordinates == step.value.0.coordinates + rest.coordinates;
      }
    }
  }

  /** No header line lies strictly between line `i` and the line where the
      next step of the scan resumes. */
  lemma StepSkipsNoHeader(loi: seq<string>, i: nat)
    requires i < |loi| && Step(loi, i).Success?
    ensures forall q :: i < q < Step(loi, i).value.1 ==> !IsKptLine(loi[q]) && !IsOccupationLine(loi[q])
  {
    StepShape(loi, i);
    HeadersAreBlockEnds();
    var block := NextNumberBlock(loi[i + 1..]);
    NextNumberBlockShape(loi[i + 1..]);
    forall q | i < q < Step(loi, i).value.1
      ensures !IsBlockEnd(loi[q])
    {
      assert block[q - i - 1] == loi[q];
    }
  }

  /** Counting the lines from `i` up to a later line `q` is counting line
      `i`, then the lines from `j` up to `q`, when `j` is where the next
      step of the scan resumes. */
  lemma CountStepUpTo(loi: seq<string>, i: nat, j: nat, q: nat, p: string -> bool)
    requires i < |loi| && j <= q <= |loi|
    requires j == (if IsKptLine(loi[i]) || IsOccupationLine(loi[i]) then AfterBlock(loi, i) else i + 1)
    requires p == IsKptLine || p == IsOccupationLine
    ensures Count(loi[i..q], p) == (if p(loi[i]) then 1 else 0) + Count(loi[j..q], p)
  {
    HeadersAreBlockEnds();
    if IsKptLine(loi[i]) || IsOccupationLine(loi[i]) {
      var block := NextNumberBlock(loi[i + 1..]);
      NextNumberBlockShape(loi[i + 1..]);
      CountNone(block, p);
      assert loi[i..q] == [loi[i]] + (block + loi[j..q]);
      CountConcat([loi[i]], block + loi[j..q], p);
      CountConcat(block, loi[j..q], p);
    } else {
      assert loi[i..q][1..] == loi[i + 1..q];
    }
  }

  /** `CountStepUpTo` for every later line `q`. */
  lemma CountStepAll(loi: seq<string>, i: nat, j: nat, p: string -> bool)
    requires i < |loi| && j <= |loi|
    requires j == (if IsKptLine(loi[i]) || IsOccupationLine(loi[i]) then AfterBlock(loi, i) else i + 1)
    requires p == IsKptLine || p == IsOccupationLine
    ensures forall q :: j <= q <= |loi| ==> Count(loi[i..q], p) == (if p(loi[i]) then 1 else 0) + Count(loi[j..q], p)
  {
    forall q | j <= q <= |loi|
      ensures Count(loi[i..q], p) == (if p(loi[i]) then 1 else 0) + Count(loi[j..q], p)
    {
      CountStepUpTo(loi, i, j, q, p);
    }
  }

  /** A successful scan from a line is its first step followed by the scan
      from where that step resumes. */
  lemma ScanUnfold(loi: seq<string>, i: nat)
    requires i < |loi| && Scan(loi, i).Success?
    ensures Step(loi, i).Success? && Scan(loi, Step(loi, i).value.1).Success?
    ensures Scan(loi, i).value == Step(loi, i).value.0.Then(Scan(loi, Step(loi, i).value.1).value)
  {
  }

  /** The k-th "kpt#" line from line `i` on gives the k-th coordinates of
      `c` (its own) and the k-th eigenvalue block (the block after it). */
  predicate KptEntriesFrom(loi: seq<string>, i: nat, c: Collected)
    requires i <= |loi|
  {
    forall q {:trigger IsKptLine(loi[q])} :: i <= q < |loi| && IsKptLine(loi[q]) ==>
      var k := Count(loi[i..q], IsKptLine);
      && k < |c.coordinates| && k < |c.eigenBlocks|
      && KptCoord(loi[q]) == Success(c.coordinates[k])
      && c.eigenBlocks[k] == NextNumberBlock(loi[q + 1..])
  }

  /** The k-th occupation line from line `i` on gives the k-th occupation
      block of `c`, the block after it. */
  predicate OccupationEntriesFrom(loi: seq<string>, i: nat, c: Collected)
    requires i <= |loi|
  {
    forall q {:trigger IsOccupationLine(loi[q])} :: i <= q < |loi| && IsOccupationLine(loi[q]) ==>
      var k := Count(loi[i..q], IsOccupationLine);
      k < |c.occupationBlocks| && c.occupationBlocks[k] == NextNumberBlock(loi[q + 1..])
  }

  /** What one step at line `i` contributes, put in front of what the scan
      from `j` collects, extends the correspondence back to line `i`. */
  lemma KptEntriesStep(loi: seq<string>, i: nat, j: nat, x: Collected, rest: Collected)
    requires i < j <= |loi|
    requires forall q :: j <= q <= |loi| ==>
      Count(loi[i..q], IsKptLine) == (if IsKptLine(loi[i]) then 1 else 0) + Count(loi[j..q], IsKptLine)
    requires |x.coordinates| == |x.eigenBlocks| == (if IsKptLine(loi[i]) then 1 else 0)
    requires IsKptLine(loi[i]) ==>
      KptCoord(loi[i]) == Success(x.coordinates[0]) && x.eigenBlocks[0] == NextNumberBlock(loi[i + 1..])
    requires forall q :: i < q < j ==> !IsKptLine(loi[q])
    requires KptEntriesFrom(loi, j, rest)
    ensures KptEntriesFrom(loi, i, x.Then(rest))
  {
    var c := x.Then(rest);
    forall q | i <= q < |loi| && IsKptLine(loi[q])
      ensures var k := Count(loi[i..q], IsKptLine);
        && k < |c.coordinates| && k < |c.eigenBlocks|
        && KptCoord(loi[q]) == Success(c.coordinates[k])
        && c.eigenBlocks[k] == NextNumberBlock(loi[q + 1..])
    {
      if q > i {
        assert j <= q;
        KptEntryShift(x, rest, Count(loi[j..q], IsKptLine));
      } else {
        assert loi[i..q] == [];
      }
    }
  }

  /** Entry `k` of `rest` is entry `|x.coordinates| + k` of `x.Then(rest)`. */
  lemma KptEntryShift(x: Collected, rest: Collected, k: nat)
    requires |x.coordinates| == |x.eigenBlocks| && k < |rest.coordinates| && k < |rest.eigenBlocks|
    ensures var c := x.Then(rest);
      && |x.coordinates| + k < |c.coordinates| && |x.coordinates| + k < |c.eigenBlocks|
      && c.coordinates[|x.coordinates| + k] == rest.coordinates[k]
      && c.eigenBlocks[|x.coordinates| + k] == rest.eigenBlocks[k]
  {
  }

  /** The same for occupation lines. */
  lemma OccupationEntriesStep(loi: seq<string>, i: nat, j: nat, x: Collected, rest: Collected)
    requires i < j <= |loi|
    requires forall q :: j <= q <= |loi| ==>
      Count(loi[i..q], IsOccupationLine) == (if IsOccupationLine(loi[i]) then 1 else 0) + Count(loi[j..q], IsOccupationLine)
    requires |x.occupationBlocks| == (if IsOccupationLine(loi[i]) then 1 else 0)
    requires IsOccupationLine(loi[i]) ==> x.occupationBlocks[0] == NextNumberBlock(loi[i + 1..])
    requires forall q :: i < q < j ==> !IsOccupationLine(loi[q])
    requires OccupationEntriesFrom(loi, j, rest)
    ensures OccupationEntriesFrom(loi, i, x.Then(rest))
  {
    var c := x.Then(rest);
    forall q | i <= q < |loi| && IsOccupationLine(loi[q])
      ensures var k := Count(loi[i..q], IsOccupationLine);
        k < |c.occupationBlocks| && c.occupationBlocks[k] == NextNumberBlock(loi[q + 1..])
    {
      if q > i {
        assert j <= q;
        var k' := Count(loi[j..q], IsOccupationLine);
        assert k' < |rest.occupationBlocks| && rest.occupationBlocks[k'] == NextNumberBlock(loi[q + 1..]);
        assert Count(loi[i..q], IsOccupationLine) == |x.occupationBlocks| + k';
        assert c.occupationBlocks[|x.occupationBlocks| + k'] == rest.occupationBlocks[k'];
      } else {
        assert loi[i..q] == [];
      }
    }
  }

  /** A header step gives the coordinates of its line and the block after
      it. */
  lemma StepHeader(loi: seq<string>, i: nat)
    requires i < |loi| && Step(loi, i).Success?
    ensures var x := Step(loi, i).value.0;
      && (IsKptLine(loi[i]) ==>
            KptCoord(loi[i]) == Success(x.coordinates[0]) && x.eigenBlocks[0] == NextNumberBlock(loi[i + 1..]))
      && (IsOccupationLine(loi[i]) ==> x.occupationBlocks[0] == NextNumberBlock(loi[i + 1..]))
  {
  }

  /** The k-th "kpt#" line from line `i` on gives the k-th coordinates and
      the k-th eigenvalue block of the scan, which is the block after that
      line. */
  lemma {:induction false} ScanKptContents(loi: seq<string>, i: nat)
    requires i <= |loi|
    ensures Scan(loi, i).Success? ==> KptEntriesFrom(loi, i, Scan(loi, i).value)
    decreases |loi| - i
  {
    if i < |loi| && Scan(loi, i).Success? {
      ScanUnfold(loi, i);
      StepShape(loi, i);
      StepHeader(loi, i);
      StepSkipsNoHeader(loi, i);
      var j := Step(loi, i).value.1;
      CountStepAll(loi, i, j, IsKptLine);
      ScanKptContents(loi, j);
      KptEntriesStep(loi, i, j, Step(loi, i).value.0, Scan(loi, j).value);
    }
  }

  /** The k-th occupation line from line `i` on gives the k-th occupation
      block of the scan, which is the block after that line. */
  lemma {:induction false} ScanOccupationContents(loi: seq<string>, i: nat)
    requires i <= |loi|
    ensures Scan(loi, i).Success? ==> OccupationEntriesFrom(loi, i, Scan(loi, i).value)
    decreases |loi| - i
  {
    if i < |loi| && Scan(loi, i).Success? {
      ScanUnfold(loi, i);
      StepShape(loi, i);
      StepHeader(loi, i);
      StepSkipsNoHeader(loi, i);
      var j := Step(loi, i).value.1;
      CountStepAll(loi, i, j, IsOccupationLine);
      ScanOccupationContents(loi, j);
      OccupationEntriesStep(loi, i, j, Step(loi, i).value.0, Scan(loi, j).value);
    }
  }

  /** Unpolarised data holds, at the position of the k-th "kpt#" line after
      the units line, the coordinates of that line and the numbers of the
      block after it; at the position of the k-th occupation line, the
      numbers of the block after that line. */
  lemma EigsContents(lines: seq<string>)
    requires |lines| > 0
    ensures Eigs(lines).Success? ==> var d := Eigs(lines).value;
      && (forall q :: 1 <= q < |lines| && IsKptLine(lines[q]) ==>
            var k := Count(lines[1..q], IsKptLine);
            && k < |d.coordinates| && k < |d.eigenvalues|
            && KptCoord(lines[q]) == Success(d.coordinates[k])
            && d.eigenvalues[k] == BlockFloats(NextNumberBlock(lines[q + 1..])))
      && (forall q :: 1 <= q < |lines| && IsOccupationLine(lines[q]) ==>
            var k := Count(lines[1..q], IsOccupationLine);
            k < |d.occupations| && d.occupations[k] == BlockFloats(NextNumberBlock(lines[q + 1..])))
  {
    if Eigs(lines).Success? {
      var c := Scan(lines[1..], 0).value;
      ScanKptContents(lines[1..], 0);
      ScanOccupationContents(lines[1..], 0);
      CollectedContents(lines, c);
    }
  }

  /** The correspondence of a scan of the lines after the units line, with
      the lines counted in `lines` and the blocks read as numbers. */
  lemma CollectedContents(lines: seq<string>, c: Collected)
    requires |lines| > 0
    requires KptEntriesFrom(lines[1..], 0, c) && OccupationEntriesFrom(lines[1..], 0, c)
    ensures forall q :: 1 <= q < |lines| && IsKptLine(lines[q]) ==>
      var k := Count(lines[1..q], IsKptLine);
      && k < |c.coordinates| && k < |Numbers(c.eigenBlocks)|
      && KptCoord(lines[q]) == Success(c.coordinates[k])
      && Numbers(c.eigenBlocks)[k] == BlockFloats(NextNumberBlock(lines[q + 1..]))
    ensures forall q :: 1 <= q < |lines| && IsOccupationLine(lines[q]) ==>
      var k := Count(lines[1..q], IsOccupationLine);
      k < |Numbers(c.occupationBlocks)| && Numbers(c.occupationBlocks)[k] == BlockFloats(NextNumberBlock(lines[q + 1..]))
  {
    var loi := lines[1..];
    forall q | 1 <= q < |lines| && IsKptLine(lines[q])
      ensures var k := Count(lines[1..q], IsKptLine);
        && k < |c.coordinates| && k < |Numbers(c.eigenBlocks)|
        && KptCoord(lines[q]) == Success(c.coordinates[k])
        && Numbers(c.eigenBlocks)[k] == BlockFloats(NextNumberBlock(lines[q + 1..]))
    {
      assert loi[q - 1] == lines[q] && IsKptLine(loi[q - 1]);
      assert loi[0..q - 1] == lines[1..q] && loi[q - 1 + 1..] == lines[q + 1..];
    }
    forall q | 1 <= q < |lines| && IsOccupationLine(lines[q])
      ensures var k := Count(lines[1..q], IsOccupationLine);
        k < |Numbers(c.occupationBlocks)| && Numbers(c.occupationBlocks)[k] == BlockFloats(NextNumberBlock(lines[q + 1..]))
    {
      assert loi[q - 1] == lines[q] && IsOccupationLine(loi[q - 1]);
      assert loi[0..q - 1] == lines[1..q] && loi[q - 1 + 1..] == lines[q + 1..];
    }
  }

  /** Polarised data is keyed by the spin labels of the "SPIN" lines, whose
      segments are, put together, exactly the parsed lines. */
  lemma DataPolarized(lines: seq<string>)
    ensures Data(lines).Success? && Data(lines).value.SpinPolarized? ==>
      && Flatten(Segments(lines)) == lines
      && Data(lines).value.spins.Keys == set k | 0 <= k < |Labels(lines)| :: Labels(lines)[k]
    ensures |lines| > 0 && !IsSpinLine(lines[0]) ==> Data(lines).Failure? || Data(lines).value.Unpolarized?
  {
    if |lines| > 0 && IsSpinLine(lines[0]) {
      SegmentsCover(lines);
      PolarizedKeys(Segments(lines), Labels(lines), Eigs);
    }
  }
}
