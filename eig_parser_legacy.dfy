/** The older eigenvalue sub-parser, beside the older output sub-parsers:
    one record per "kpt#" line, with the occupation numbers written into
    the last record.  Its loop visits every line (it does not jump over the
    blocks it has read), and its inner loops reuse the name of the outer
    loop's index, which the model keeps track of. */
module LegacyEigParser {

  import opened Wrappers
  import opened Strings
  import opened SubParserBase
  import opened EigSections
  import CommonRoutines

  /** One k-point dictionary of `_get_eigs`; `occupation` is the key the
      occupation lines add. */
  datatype KptRecord = KptRecord(
    coordinates: seq<real>,
    eigenvalues: seq<real>,
    nband: nat,
    units: string,
    occupation: Option<seq<real>>)

  /** Unpolarised records, or a list of records per spin label. */
  datatype LegacyResult = Unpolarized(records: seq<KptRecord>) | SpinPolarized(spins: map<string, seq<KptRecord>>)

  /** A line the occupation loop stops at (note the space). */
  predicate IsKptHeader(line: string) {
    Contains(line, "kpt# ")
  }

  predicate IsKptLine(line: string) {
    StartsWith(line, "kpt#")
  }

  predicate HasOccupations(line: string) {
    Contains(line, "occupation numbers")
  }

  // ---------------------------------------------------------------------
  // The loop of `_get_eigs`, on the lines it reads
  // ---------------------------------------------------------------------

  /** A k-point as the loop records it: the coordinates, the lines the
      eigenvalues are read from and, once an occupation line has been
      met, the lines the occupations are read from. */
  datatype RawKpt = RawKpt(coordinates: seq<real>, eigenBlock: seq<string>, occupationBlock: Option<seq<string>>)

  /** The first half of the loop body, on a "kpt#" line: the coordinates,
      then the eigenvalue block after the line (an IndexError when the line
      is the last one).  The flag says whether the inner loop ran, which
      leaves a list of ints in the loop index. */
  function KptPart(loi: seq<string>, i: nat, raws: seq<RawKpt>): Result<(seq<RawKpt>, bool)>
    requires i < |loi|
  {
    if !IsKptLine(loi[i]) then Success((raws, false))
    else
      match KptCoord(loi[i])
      case Failure(e) => Failure(e)
      case Success(c) =>
        if i + 1 == |loi| then Failure(IndexError)
        else
          var block := NextNumberBlock(loi[i + 1..]);
          Success((raws + [RawKpt(c, block, None)], |block| > 0))
  }

  /** The second half, on an "occupation numbers" line: a TypeError when
      the index holds a list, an IndexError when the line is the last one or
      no k-point has been recorded yet; otherwise the block up to the next
      "kpt# " line becomes the last record's occupations. */
  function OccupationPart(loi: seq<string>, i: nat, raws: seq<RawKpt>, shadowed: bool): Result<seq<RawKpt>>
    requires i < |loi|
  {
    if !HasOccupations(loi[i]) then Success(raws)
    else if shadowed then Failure(TypeError)
    else if i + 1 == |loi| || |raws| == 0 then Failure(IndexError)
    else
      var last := |raws| - 1;
      Success(raws[last := raws[last].(occupationBlock := Some(BlockUntil(loi[i + 1..], IsKptHeader)))])
  }

  /** One pass of the loop body. */
  function Line(loi: seq<string>, i: nat, raws: seq<RawKpt>): Result<seq<RawKpt>>
    requires i < |loi|
  {
    match KptPart(loi, i, raws)
    case Failure(e) => Failure(e)
    case Success(r) => OccupationPart(loi, i, r.0, r.1)
  }

  /** The records after the loop has passed over the first `n` lines. */
  function Run(loi: seq<string>, n: nat): Result<seq<RawKpt>>
    requires n <= |loi|
  {
    if n == 0 then Success([])
    else
      match Run(loi, n - 1)
      case Failure(e) => Failure(e)
      case Success(raws) => Line(loi, n - 1, raws)
  }

  /** A recorded k-point with its numbers read. */
  function Cook(r: RawKpt, units: string): KptRecord {
    var eigs := BlockFloats(r.eigenBlock);
    KptRecord(r.coordinates, eigs, |eigs|, units,
      match r.occupationBlock case None => None case Some(b) => Some(BlockFloats(b)))
  }

  function Records(raws: seq<RawKpt>, units: string): (r: seq<KptRecord>)
    ensures |r| == |raws|
  {
    seq(|raws|, k requires 0 <= k < |raws| => Cook(raws[k], units))
  }

  /** `_get_eigs`: units from the first line, then the loop over the
      other lines. */
  function Eigs(lines: seq<string>): Result<seq<KptRecord>> {
    if |lines| == 0 then Failure(IndexError)
    else
      match Units(lines[0])
      case Failure(e) => Failure(e)
      case Success(units) =>
        match Run(lines[1..], |lines| - 1)
        case Failure(e) => Failure(e)
        case Success(raws) => Success(Records(raws, units))
  }

  // ---------------------------------------------------------------------
  // The loops
  // ---------------------------------------------------------------------

  /** The inner `while` loops: the numbers on the lines from `start` up to
      the first one `stop` picks out, and how many lines were read. */
  method ReadBlock(loi: seq<string>, start: nat, stop: string -> bool) returns (numbers: seq<real>, count: nat)
    requires start < |loi|
    ensures count == |BlockUntil(loi[start..], stop)|
    ensures numbers == BlockFloats(BlockUntil(loi[start..], stop))
  {
    var rest := loi[start..];
    var n := 0;
    numbers := [];
    while !stop(rest[n])
      invariant n < |rest| && n <= |BlockUntil(rest, stop)|
      invariant numbers == BlockFloats(rest[..n])
      decreases |rest| - n
    {
      var s, ints, f := CommonRoutines.DecomposeLine(rest[n]);
      BlockUntilGrows(rest, stop, n);
      assert rest[..n + 1][..n] == rest[..n];
      numbers := numbers + f;
      n := n + 1;
      if n == |rest| {
        break;
      }
    }
    count := n;
    BlockUntilEnds(rest, stop, count);
  }

  lemma RecordsSnoc(raws: seq<RawKpt>, r: RawKpt, units: string)
    ensures Records(raws + [r], units) == Records(raws, units) + [Cook(r, units)]
  {
    assert forall k :: 0 <= k < |raws| ==> (raws + [r])[k] == raws[k];
  }

  lemma RecordsUpdate(raws: seq<RawKpt>, k: nat, r: RawKpt, units: string)
    requires k < |raws|
    ensures Records(raws[k := r], units) == Records(raws, units)[k := Cook(r, units)]
  {
  }

  /** The first half of the loop body over the records with their numbers
      read: the method version of `KptPart`. */
  method VisitKpt(loi: seq<string>, i: nat, units: string, ghost raws: seq<RawKpt>, data: seq<KptRecord>)
    returns (r: Result<(seq<KptRecord>, bool)>, ghost raws': seq<RawKpt>)
    requires i < |loi| && data == Records(raws, units)
    ensures KptPart(loi, i, raws).Failure? ==> r == Failure(KptPart(loi, i, raws).error)
    ensures KptPart(loi, i, raws).Success? ==>
      && raws' == KptPart(loi, i, raws).value.0
      && r == Success((Records(raws', units), KptPart(loi, i, raws).value.1))
  {
    raws' := raws;
    if !StartsWith(loi[i], "kpt#") {
      return Success((data, false)), raws';
    }
    var coord := KptCoord(loi[i]);
    if coord.Failure? {
      return Failure(coord.error), raws';
    }
    if i + 1 == |loi| {
      return Failure(IndexError), raws';
    }
    var eigs, count := ReadBlock(loi, i + 1, IsBlockEnd);
    var raw := RawKpt(coord.value, NextNumberBlock(loi[i + 1..]), None);
    RecordsSnoc(raws, raw, units);
    raws' := raws + [raw];
    return Success((data + [KptRecord(coord.value, eigs, |eigs|, units, None)], count > 0)), raws';
  }

  /** The second half: the method version of `OccupationPart`. */
  method VisitOccupation(loi: seq<string>, i: nat, units: string, ghost raws: seq<RawKpt>, data: seq<KptRecord>, shadowed: bool)
    returns (r: Result<seq<KptRecord>>, ghost raws': seq<RawKpt>)
    requires i < |loi| && data == Records(raws, units)
    ensures OccupationPart(loi, i, raws, shadowed).Failure? ==> r == Failure(OccupationPart(loi, i, raws, shadowed).error)
    ensures OccupationPart(loi, i, raws, shadowed).Success? ==>
      raws' == OccupationPart(loi, i, raws, shadowed).value && r == Success(Records(raws', units))
  {
    raws' := raws;
    if !Contains(loi[i], "occupation numbers") {
      return Success(data), raws';
    }
    if shadowed {
      return Failure(TypeError), raws';
    }
    if i + 1 == |loi| {
      return Failure(IndexError), raws';
    }
    var occupations, _ := ReadBlock(loi, i + 1, IsKptHeader);
    if |data| == 0 {
      return Failure(IndexError), raws';
    }
    var last := |data| - 1;
    ghost var block := BlockUntil(loi[i + 1..], IsKptHeader);
    raws' := raws[last := raws[last].(occupationBlock := Some(block))];
    assert OccupationPart(loi, i, raws, shadowed) == Success(raws');
    RecordsOccupationUpdate(raws, units, block);
    return Success(data[last := data[last].(occupation := Some(occupations))]), raws';
  }

  /** Writing an occupation block into the last record reads its numbers
      into the last cooked record. */
  lemma RecordsOccupationUpdate(raws: seq<RawKpt>, units: string, block: seq<string>)
    requires |raws| > 0
    ensures var last, d := |raws| - 1, Records(raws, units);
      Records(raws[last := raws[last].(occupationBlock := Some(block))], units)
        == d[last := d[last].(occupation := Some(BlockFloats(block)))]
  {
    var last := |raws| - 1;
    var updated := raws[last].(occupationBlock := Some(block));
    var d := Records(raws, units);
    RecordsUpdate(raws, last, updated, units);
    LastCooked(raws, units, block);
    UpdateWith(d, Records(raws[last := updated], units), last, Cook(updated, units),
      d[last].(occupation := Some(BlockFloats(block))));
  }

  lemma LastCooked(raws: seq<RawKpt>, units: string, block: seq<string>)
    requires |raws| > 0
    ensures var last := |raws| - 1;
      Cook(raws[last].(occupationBlock := Some(block)), units)
        == Records(raws, units)[last].(occupation := Some(BlockFloats(block)))
  {
    RecordsAt(raws, units, |raws| - 1);
    CookOccupation(raws[|raws| - 1], units, block);
  }

  lemma RecordsAt(raws: seq<RawKpt>, units: string, k: nat)
    requires k < |raws|
    ensures Records(raws, units)[k] == Cook(raws[k], units)
  {
  }

  /** Replacing an element by an equal one. */
  lemma UpdateWith<T>(s: seq<T>, t: seq<T>, k: nat, x: T, y: T)
    requires k < |s| && t == s[k := x] && x == y
    ensures t == s[k := y]
  {
  }

  lemma CookOccupation(r: RawKpt, units: string, block: seq<string>)
    ensures Cook(r.(occupationBlock := Some(block)), units) == Cook(r, units).(occupation := Some(BlockFloats(block)))
  {
  }

  /** One pass of the loop body over the records with their numbers read:
      the method version of `Line`. */
  method VisitLine(loi: seq<string>, i: nat, units: string, ghost raws: seq<RawKpt>, data: seq<KptRecord>)
    returns (r: Result<seq<KptRecord>>, ghost raws': seq<RawKpt>)
    requires i < |loi| && data == Records(raws, units)
    ensures Line(loi, i, raws).Failure? ==> r == Failure(Line(loi, i, raws).error)
    ensures Line(loi, i, raws).Success? ==> raws' == Line(loi, i, raws).value && r == Success(Records(raws', units))
  {
    var first;
    first, raws' := VisitKpt(loi, i, units, raws, data);
    if first.Failure? {
      return Failure(first.error), raws';
    }
    r, raws' := VisitOccupation(loi, i, units, raws', first.value.0, first.value.1);
  }

  method GetEigs(lines: seq<string>) returns (r: Result<seq<KptRecord>>)
    ensures r == Eigs(lines)
  {
    if |lines| == 0 {
      return Failure(IndexError);
    }
    var units := Units(lines[0]);
    if units.Failure? {
      return Failure(units.error);
    }
    var loi := lines[1..];
    var data := [];
    ghost var raws := [];
    for i := 0 to |loi|
      invariant Run(loi, i) == Success(raws) && data == Records(raws, units.value)
    {
      var step;
      step, raws := VisitLine(loi, i, units.value, raws, data);
      if step.Failure? {
        RunStops(loi, i + 1, |loi|);
        EigsFails(lines, units.value, step.error);
        return Failure(step.error);
      }
      data := step.value;
    }
    EigsSucceeds(lines, units.value, raws);
    return Success(data);
  }

  /** `_get_eigs` past its units line is the loop over the other lines. */
  lemma EigsSucceeds(lines: seq<string>, units: string, raws: seq<RawKpt>)
    requires |lines| > 0 && Units(lines[0]) == Success(units)
    requires Run(lines[1..], |lines| - 1) == Success(raws)
    ensures Eigs(lines) == Success(Records(raws, units))
  {
  }

  lemma EigsFails(lines: seq<string>, units: string, e: Error)
    requires |lines| > 0 && Units(lines[0]) == Success(units)
    requires Run(lines[1..], |lines| - 1) == Failure(e)
    ensures Eigs(lines) == Failure(e)
  {
  }

  /** A failure at some line is the result of the whole loop. */
  lemma {:induction false} RunStops(loi: seq<string>, n: nat, m: nat)
    requires n <= m <= |loi| && Run(loi, n).Failure?
    ensures Run(loi, m) == Run(loi, n)
    decreases m - n
  {
    if m > n {
      RunStops(loi, n, m - 1);
    }
  }

  // ---------------------------------------------------------------------
  // Spin polarisation and the parser object
  // ---------------------------------------------------------------------

  /** `_get_data`: polarised when the first line mentions a spin. */
  function Data(lines: seq<string>): Result<LegacyResult> {
    if |lines| == 0 then Failure(IndexError)
    else if IsSpinLine(lines[0]) then
      match Polarized(Segments(lines), Labels(lines), Eigs)
      case Failure(e) => Failure(e)
      case Success(m) => Success(SpinPolarized(m))
    else
      match Eigs(lines)
      case Failure(e) => Failure(e)
      case Success(d) => Success(Unpolarized(d))
  }

  /** `_get_polarized_data`. */
  method GetPolarizedData(lines: seq<string>) returns (r: Result<map<string, seq<KptRecord>>>)
    ensures r == Polarized(Segments(lines), Labels(lines), Eigs)
  {
    var spins, starts := SpinMarkers(lines);
    ghost var segs := Segments(lines);
    var data := map[];
    for n := 0 to |spins|
      invariant Polarized(segs[..n], spins[..n], Eigs) == Success(data)
    {
      assert segs[n] == lines[starts[n]..starts[n + 1]];
      var eigs := GetEigs(lines[starts[n]..starts[n + 1]]);
      if eigs.Failure? {
        PolarizedStops(segs, spins, Eigs, n + 1);
        return Failure(eigs.error);
      }
      PolarizedSnoc(segs, spins, Eigs, n, data);
      data := data[spins[n] := eigs.value];
    }
    assert segs[..|spins|] == segs && spins[..|spins|] == spins;
    return Success(data);
  }

  method GetData(lines: seq<string>) returns (r: Result<LegacyResult>)
    ensures r == Data(lines)
  {
    if |lines| == 0 {
      return Failure(IndexError);
    }
    if Contains(lines[0], "SPIN") {
      var p := GetPolarizedData(lines);
      if p.Failure? {
        return Failure(p.error);
      }
      return Success(SpinPolarized(p.value));
    }
    var e := GetEigs(lines);
    if e.Failure? {
      return Failure(e.error);
    }
    return Success(Unpolarized(e.value));
  }

  class LegacyEIGParser {
    const base: BaseSubParser
    var data: Result<LegacyResult>

    /** `EIGParser(lines, check_loi)`: the section found by `_get_loi`, or
        all the lines with the last one as the ending, then parsed. */
    constructor (lines: seq<string>, checkLoi: bool)
      ensures fresh(base)
      ensures data == Data(if checkLoi then Loi(lines) else lines)
      ensures base.endingRelativeIndex == Some(if checkLoi then LoiEnding(lines) else |lines| - 1)
    {
      base := new BaseSubParser();
      new;
      var loi := lines;
      if checkLoi {
        loi := GetLoi(base, lines);
      } else {
        base.SetEndingRelativeIndex(|lines| - 1);
      }
      data := GetData(loi);
    }
  }

  // ---------------------------------------------------------------------
  // Properties
  // ---------------------------------------------------------------------

  /** One record per "kpt#" line: occupation lines only change the last
      record, never add one. */
  lemma {:induction false} RunCounts(loi: seq<string>, n: nat)
    requires n <= |loi|
    ensures Run(loi, n).Success? ==> |Run(loi, n).value| == Count(loi[..n], IsKptLine)
  {
    if n > 0 {
      RunCounts(loi, n - 1);
      CountConcat(loi[..n - 1], [loi[n - 1]], IsKptLine);
      assert loi[..n] == loi[..n - 1] + [loi[n - 1]];
    }
  }

  /** Every record has as many bands as eigenvalues, three coordinates and
      the units of the first line. */
  lemma {:induction false} RunCoordinates(loi: seq<string>, n: nat)
    requires n <= |loi|
    ensures Run(loi, n).Success? ==> forall k :: 0 <= k < |Run(loi, n).value| ==> |Run(loi, n).value[k].coordinates| == 3
  {
    if n > 0 {
      RunCoordinates(loi, n - 1);
    }
  }

  lemma EigsRecords(lines: seq<string>)
    ensures Eigs(lines).Success? ==> var d := Eigs(lines).value;
      && |d| == Count(lines[1..], IsKptLine)
      && forall k :: 0 <= k < |d| ==>
           |d[k].coordinates| == 3 && d[k].nband == |d[k].eigenvalues| && d[k].units == Units(lines[0]).value
  {
    if |lines| > 0 {
      RunCounts(lines[1..], |lines| - 1);
      RunCoordinates(lines[1..], |lines| - 1);
      assert lines[1..][..|lines| - 1] == lines[1..];
    }
  }

  /** Occupation numbers before the first "kpt#" line have no record to go
      to: the loop fails with an IndexError there. */
  lemma OccupationsFirst(loi: seq<string>, j: nat)
    requires j < |loi| && HasOccupations(loi[j])
    requires forall k :: 0 <= k <= j ==> !IsKptLine(loi[k])
    ensures Run(loi, j + 1).Failure?
  {
    RunCounts(loi, j);
    CountNone(loi[..j], IsKptLine);
  }

  /** The reused loop index: a "kpt#" line that also mentions occupation
      numbers, and whose eigenvalue loop read at least one line, fails with
      a TypeError. */
  lemma ShadowedIndex(loi: seq<string>, i: nat, raws: seq<RawKpt>)
    requires i + 1 < |loi| && IsKptLine(loi[i]) && HasOccupations(loi[i]) && KptCoord(loi[i]).Success?
    requires !IsBlockEnd(loi[i + 1])
    ensures Line(loi, i, raws) == Failure(TypeError)
  {
    BlockUntilShape(loi[i + 1..], IsBlockEnd);
    assert loi[i + 1..][0] == loi[i + 1];
  }

  /** An occupation line after a record writes into that record only: the
      coordinates and eigenvalues of every record stay as they were. */
  lemma OccupationKeepsRecords(loi: seq<string>, i: nat, raws: seq<RawKpt>)
    requires i < |loi| && !IsKptLine(loi[i])
    ensures Line(loi, i, raws).Success? ==>
      && |Line(loi, i, raws).value| == |raws|
      && forall k :: 0 <= k < |raws| ==>
           Line(loi, i, raws).value[k].coordinates == raws[k].coordinates
           && Line(loi, i, raws).value[k].eigenBlock == raws[k].eigenBlock
           && (k < |raws| - 1 ==> Line(loi, i, raws).value[k] == raws[k])
  {
  }

  /** The pass over line `n - 1` took the records from `before` to `raws`:
      it kept the coordinates and eigenvalue block of every record, and a
      "kpt#" line appended the record of its coordinates and the block
      after it. */
  predicate StepRecords(loi: seq<string>, n: nat, before: seq<RawKpt>, raws: seq<RawKpt>)
    requires 0 < n <= |loi|
  {
    && |raws| == |before| + (if IsKptLine(loi[n - 1]) then 1 else 0)
    && (forall k :: 0 <= k < |before| ==>
          raws[k].coordinates == before[k].coordinates && raws[k].eigenBlock == before[k].eigenBlock)
    && (IsKptLine(loi[n - 1]) ==>
          KptCoord(loi[n - 1]) == Success(raws[|before|].coordinates) && raws[|before|].eigenBlock == NextNumberBlock(loi[n..]))
  }

  /** One pass of the loop body keeps the coordinates and eigenvalue block
      of every record, and a "kpt#" line adds one record at the end with
      the coordinates of the line and the block after it. */
  lemma LineRecords(loi: seq<string>, i: nat, raws: seq<RawKpt>)
    requires i < |loi|
    ensures Line(loi, i, raws).Success? ==> StepRecords(loi, i + 1, raws, Line(loi, i, raws).value)
  {
  }

  /** `LineRecords` for the pass over line `n - 1`. */
  lemma RunStepRecords(loi: seq<string>, n: nat, raws: seq<RawKpt>)
    requires 0 < n <= |loi| && Run(loi, n) == Success(raws)
    ensures Run(loi, n - 1).Success?
    ensures StepRecords(loi, n, Run(loi, n - 1).value, raws)
  {
    assert Run(loi, n - 1).Success?;
    var before := Run(loi, n - 1).value;
    assert Line(loi, n - 1, before) == Success(raws);
    LineRecords(loi, n - 1, before);
  }

  /** The k-th "kpt#" line among the first `n` lines gives record k of
      `raws`: its coordinates are those of the line and its eigenvalue
      block is the block after the line. */
  predicate RecordsOfKptLines(loi: seq<string>, n: nat, raws: seq<RawKpt>)
    requires n <= |loi|
  {
    forall q {:trigger IsKptLine(loi[q])} :: 0 <= q < n && IsKptLine(loi[q]) ==>
      var k := Count(loi[..q], IsKptLine);
      && k < |raws|
      && KptCoord(loi[q]) == Success(raws[k].coordinates)
      && raws[k].eigenBlock == NextNumberBlock(loi[q + 1..])
  }

  /** A pass that keeps the old records' coordinates and blocks, and adds
      the record of a "kpt#" line at the end, extends the correspondence
      by one line. */
  lemma RecordsOfKptLinesStep(loi: seq<string>, n: nat, before: seq<RawKpt>, raws: seq<RawKpt>)
    requires 0 < n <= |loi| && RecordsOfKptLines(loi, n - 1, before)
    requires |before| == Count(loi[..n - 1], IsKptLine) && StepRecords(loi, n, before, raws)
    ensures RecordsOfKptLines(loi, n, raws)
  {
    forall q | 0 <= q < n && IsKptLine(loi[q])
      ensures var k := Count(loi[..q], IsKptLine);
        && k < |raws|
        && KptCoord(loi[q]) == Success(raws[k].coordinates)
        && raws[k].eigenBlock == NextNumberBlock(loi[q + 1..])
    {
      var k := Count(loi[..q], IsKptLine);
      if q < n - 1 {
        assert k < |before| && KptCoord(loi[q]) == Success(before[k].coordinates)
          && before[k].eigenBlock == NextNumberBlock(loi[q + 1..]);
      } else {
        assert q == n - 1 && k == |before|;
      }
    }
  }

  /** The records after the first `n` lines correspond to their "kpt#"
      lines, in order. */
  lemma {:induction false} RunContents(loi: seq<string>, n: nat)
    requires n <= |loi|
    ensures Run(loi, n).Success? ==> RecordsOfKptLines(loi, n, Run(loi, n).value)
  {
    if Run(loi, n).Success? {
      RunContentsOf(loi, n, Run(loi, n).value);
    }
  }

  lemma {:induction false} RunContentsOf(loi: seq<string>, n: nat, raws: seq<RawKpt>)
    requires n <= |loi| && Run(loi, n) == Success(raws)
    ensures RecordsOfKptLines(loi, n, raws)
  {
    if n > 0 {
      RunStepRecords(loi, n, raws);
      var before := Run(loi, n - 1).value;
      RunCounts(loi, n - 1);
      assert |before| == Count(loi[..n - 1], IsKptLine);
      RunContentsOf(loi, n - 1, before);
      RecordsOfKptLinesStep(loi, n, before, raws);
    }
  }

  /** Each record of `_get_eigs` belongs to a "kpt#" line after the units
      line: the k-th such line gives the k-th record its coordinates, and
      the numbers of the block after it are the record's eigenvalues. */
  lemma EigsContents(lines: seq<string>)
    ensures Eigs(lines).Success? ==> var d := Eigs(lines).value;
      forall q :: 1 <= q < |lines| && IsKptLine(lines[q]) ==>
        var k := Count(lines[1..q], IsKptLine);
        && k < |d|
        && KptCoord(lines[q]) == Success(d[k].coordinates)
        && d[k].eigenvalues == BlockFloats(NextNumberBlock(lines[q + 1..]))
  {
    if Eigs(lines).Success? {
      var loi := lines[1..];
      RunContents(loi, |lines| - 1);
      RecordsContents(lines, Run(loi, |lines| - 1).value, Units(lines[0]).value);
    }
  }

  /** Cooking the records of the lines after the units line keeps their
      correspondence with the "kpt#" lines, now counted in `lines`. */
  lemma RecordsContents(lines: seq<string>, raws: seq<RawKpt>, units: string)
    requires |lines| > 0 && RecordsOfKptLines(lines[1..], |lines| - 1, raws)
    ensures var d := Records(raws, units);
      forall q :: 1 <= q < |lines| && IsKptLine(lines[q]) ==>
        var k := Count(lines[1..q], IsKptLine);
        && k < |d|
        && KptCoord(lines[q]) == Success(d[k].coordinates)
        && d[k].eigenvalues == BlockFloats(NextNumberBlock(lines[q + 1..]))
  {
    var loi := lines[1..];
    var d := Records(raws, units);
    forall q | 1 <= q < |lines| && IsKptLine(lines[q])
      ensures var k := Count(lines[1..q], IsKptLine);
        && k < |d|
        && KptCoord(lines[q]) == Success(d[k].coordinates)
        && d[k].eigenvalues == BlockFloats(NextNumberBlock(lines[q + 1..]))
    {
      assert loi[q - 1] == lines[q] && IsKptLine(loi[q - 1]);
      assert loi[..q - 1] == lines[1..q] && loi[q - 1 + 1..] == lines[q + 1..];
      var k := Count(lines[1..q], IsKptLine);
      assert d[k] == Cook(raws[k], units);
    }
  }

  // ---------------------------------------------------------------------
  // Occupation numbers
  // ---------------------------------------------------------------------

  /** Line `q` holds occupation numbers and comes after the (k+1)-th
      "kpt#" line (or is that line), before the next one: the loop writes
      its block into record k. */
  predicate OccupationInto(loi: seq<string>, q: nat, k: nat)
    requires q < |loi|
  {
    HasOccupations(loi[q]) && Count(loi[..q + 1], IsKptLine) == k + 1
  }

  /** The last of the first `n` lines that writes into record k. */
  function LastOccupation(loi: seq<string>, n: nat, k: nat): (r: Option<nat>)
    requires n <= |loi|
    ensures r.Some? ==> r.value < n && OccupationInto(loi, r.value, k)
    ensures r.Some? ==> forall q :: r.value < q < n ==> !OccupationInto(loi, q, k)
    ensures r.None? ==> forall q :: 0 <= q < n ==> !OccupationInto(loi, q, k)
  {
    if n == 0 then None
    else if OccupationInto(loi, n - 1, k) then Some(n - 1)
    else LastOccupation(loi, n - 1, k)
  }

  /** The occupation block record k holds after the first `n` lines: the
      block after the last line that writes into it, if any. */
  function OccupationBlockOf(loi: seq<string>, n: nat, k: nat): Option<seq<string>>
    requires n <= |loi|
  {
    match LastOccupation(loi, n, k)
    case None => None
    case Some(q) => Some(BlockUntil(loi[q + 1..], IsKptHeader))
  }

  predicate OccupationsOfRecords(loi: seq<string>, n: nat, raws: seq<RawKpt>)
    requires n <= |loi|
  {
    forall k :: 0 <= k < |raws| ==> raws[k].occupationBlock == OccupationBlockOf(loi, n, k)
  }

  /** No line writes into a record that does not exist yet. */
  lemma {:induction false} NoOccupationBeyond(loi: seq<string>, m: nat, k: nat)
    requires m <= |loi| && Count(loi[..m], IsKptLine) <= k
    ensures LastOccupation(loi, m, k) == None
  {
    if m > 0 {
      CountConcat(loi[..m - 1], [loi[m - 1]], IsKptLine);
      assert loi[..m] == loi[..m - 1] + [loi[m - 1]];
      NoOccupationBeyond(loi, m - 1, k);
    }
  }

  /** One pass of the loop body writes the block after an occupation line
      into the last record, gives a new record no occupations, and leaves
      the occupations of the other records alone. */
  lemma LineOccupations(loi: seq<string>, i: nat, raws: seq<RawKpt>)
    requires i < |loi|
    ensures Line(loi, i, raws).Success? ==> var out := Line(loi, i, raws).value;
      forall k :: 0 <= k < |out| ==>
        out[k].occupationBlock ==
          if HasOccupations(loi[i]) && k == |out| - 1 then Some(BlockUntil(loi[i + 1..], IsKptHeader))
          else if k < |raws| then raws[k].occupationBlock
          else None
  {
  }

  /** A pass over line `n - 1` that changes occupations as `LineOccupations`
      says extends the correspondence of records and occupation lines by
      one line. */
  lemma OccupationsStep(loi: seq<string>, n: nat, before: seq<RawKpt>, raws: seq<RawKpt>)
    requires 0 < n <= |loi| && OccupationsOfRecords(loi, n - 1, before)
    requires |before| == Count(loi[..n - 1], IsKptLine) && |raws| == Count(loi[..n], IsKptLine)
    requires forall k :: 0 <= k < |raws| ==>
      raws[k].occupationBlock ==
        if HasOccupations(loi[n - 1]) && k == |raws| - 1 then Some(BlockUntil(loi[n..], IsKptHeader))
        else if k < |before| then before[k].occupationBlock
        else None
    ensures OccupationsOfRecords(loi, n, raws)
  {
    forall k | 0 <= k < |raws|
      ensures raws[k].occupationBlock == OccupationBlockOf(loi, n, k)
    {
      if HasOccupations(loi[n - 1]) && k == |raws| - 1 {
        assert OccupationInto(loi, n - 1, k);
      } else {
        assert !OccupationInto(loi, n - 1, k);
        if k >= |before| {
          NoOccupationBeyond(loi, n - 1, k);
        }
      }
    }
  }

  /** After the first `n` lines, every record holds the block after the
      last occupation line that writes into it, or none. */
  lemma {:induction false} RunOccupations(loi: seq<string>, n: nat)
    requires n <= |loi|
    ensures Run(loi, n).Success? ==> OccupationsOfRecords(loi, n, Run(loi, n).value)
  {
    if n > 0 && Run(loi, n).Success? {
      var before := Run(loi, n - 1).value;
      LineOccupations(loi, n - 1, before);
      RunOccupations(loi, n - 1);
      RunCounts(loi, n);
      RunCounts(loi, n - 1);
      OccupationsStep(loi, n, before, Run(loi, n).value);
    }
  }

  /** Line `q` of the lines `_get_eigs` reads writes its occupation block
      into record k. */
  predicate WritesOccupation(lines: seq<string>, q: nat, k: nat)
    requires 0 < q < |lines|
  {
    HasOccupations(lines[q]) && Count(lines[1..q + 1], IsKptLine) == k + 1
  }

  lemma WritesOccupationShift(lines: seq<string>, q: nat, k: nat)
    requires 0 < q < |lines|
    ensures WritesOccupation(lines, q, k) <==> OccupationInto(lines[1..], q - 1, k)
  {
    assert lines[1..][..q] == lines[1..q + 1] && lines[1..][q - 1] == lines[q];
  }

  /** Line `q` is the last line that writes into record k. */
  predicate LastWritesOccupation(lines: seq<string>, q: nat, k: nat)
    requires 0 < q < |lines|
  {
    WritesOccupation(lines, q, k) && forall p :: q < p < |lines| ==> !WritesOccupation(lines, p, k)
  }

  /** `OccupationBlockOf` counted in the lines `_get_eigs` reads: the block
      after the last line that writes into record k, or none. */
  lemma OccupationBlockOfLines(lines: seq<string>, k: nat)
    requires |lines| > 0
    ensures forall q :: 0 < q < |lines| && LastWritesOccupation(lines, q, k) ==>
      OccupationBlockOf(lines[1..], |lines| - 1, k) == Some(BlockUntil(lines[q + 1..], IsKptHeader))
    ensures (forall q :: 0 < q < |lines| ==> !WritesOccupation(lines, q, k)) ==>
      OccupationBlockOf(lines[1..], |lines| - 1, k) == None
  {
    var loi := lines[1..];
    var last := LastOccupation(loi, |lines| - 1, k);
    forall q | 0 < q < |lines| && LastWritesOccupation(lines, q, k)
      ensures last == Some(q - 1)
    {
      WritesOccupationShift(lines, q, k);
      if last.value + 1 != q {
        WritesOccupationShift(lines, last.value + 1, k);
      }
    }
    if last.Some? {
      WritesOccupationShift(lines, last.value + 1, k);
      assert loi[last.value + 1..] == lines[last.value + 2..];
    }
  }

  /** The occupations of `_get_eigs`: record k holds the numbers of the
      block after the last occupation line that lies after the k-th "kpt#"
      line and before the next one, up to the next "kpt# " line; a record
      with no such line has none. */
  lemma EigsOccupations(lines: seq<string>)
    ensures Eigs(lines).Success? ==> var d := Eigs(lines).value;
      forall k, q :: 0 <= k < |d| && 0 < q < |lines| && LastWritesOccupation(lines, q, k) ==>
        d[k].occupation == Some(BlockFloats(BlockUntil(lines[q + 1..], IsKptHeader)))
    ensures Eigs(lines).Success? ==> var d := Eigs(lines).value;
      forall k :: 0 <= k < |d| && (forall q :: 0 < q < |lines| ==> !WritesOccupation(lines, q, k)) ==>
        d[k].occupation == None
  {
    if Eigs(lines).Success? {
      RunOccupations(lines[1..], |lines| - 1);
      RecordsOccupations(lines, Run(lines[1..], |lines| - 1).value, Units(lines[0]).value);
    }
  }

  /** Cooking records whose occupation blocks are those of their lines
      reads the numbers of those blocks. */
  lemma RecordsOccupations(lines: seq<string>, raws: seq<RawKpt>, units: string)
    requires |lines| > 0 && OccupationsOfRecords(lines[1..], |lines| - 1, raws)
    ensures var d := Records(raws, units);
      forall k, q :: 0 <= k < |d| && 0 < q < |lines| && LastWritesOccupation(lines, q, k) ==>
        d[k].occupation == Some(BlockFloats(BlockUntil(lines[q + 1..], IsKptHeader)))
    ensures var d := Records(raws, units);
      forall k :: 0 <= k < |d| && (forall q :: 0 < q < |lines| ==> !WritesOccupation(lines, q, k)) ==>
        d[k].occupation == None
  {
    var d := Records(raws, units);
    forall k, q | 0 <= k < |d| && 0 < q < |lines| && LastWritesOccupation(lines, q, k)
      ensures d[k].occupation == Some(BlockFloats(BlockUntil(lines[q + 1..], IsKptHeader)))
    {
      OccupationBlockOfLines(lines, k);
      assert raws[k].occupationBlock == Some(BlockUntil(lines[q + 1..], IsKptHeader));
      assert d[k] == Cook(raws[k], units);
    }
    forall k | 0 <= k < |d| && (forall q :: 0 < q < |lines| ==> !WritesOccupation(lines, q, k))
      ensures d[k].occupation == None
    {
      OccupationBlockOfLines(lines, k);
      assert raws[k].occupationBlock == None;
      assert d[k] == Cook(raws[k], units);
    }
  }
}
