/** The reader of the projector files written by the DMFT module of ABINIT:
    a header, then one block per k-point ("ikpt"), each holding one block per
    band ("iband") of rows "spin atom orbital re im"; the rows are finally
    placed in a k-point x band x spin x atom x orbital table of complex
    numbers by their position in the band block. */
module DmftProjectorsParser {
  import opened Wrappers
  import opened Strings
  import CommonRoutines

  /** A line decomposition: `decompose_line`, which the parser passes as
      `CommonRoutines.Decompose`. */
  type Decomposer = string -> CommonRoutines.Parts

  type Row = seq<real>
  type Band = seq<Row>
  type Kpt = seq<Band>

  /** A data line's row: its integers, then its floats. */
  function RowOf(p: CommonRoutines.Parts): (r: Row)
    ensures |r| == |p.ints| + |p.floats|
  {
    seq(|p.ints|, k requires 0 <= k < |p.ints| => p.ints[k] as real) + p.floats
  }

  // ---------------------------------------------------------------------
  // The band block
  // ---------------------------------------------------------------------

  /** The loop of `_extract_data_from_band_block` from line `i` on: the first
      "iband" line opens the block and the next one ends it; an "ikpt" line
      ends it at once; every other line is a row. */
  function BandScan(lines: seq<string>, dec: Decomposer, i: nat, blockEnd: bool, data: Band): (Band, int)
    requires i <= |lines|
    decreases |lines| - i
  {
    if i == |lines| then (data, |lines| - 1)
    else if Contains(lines[i], "iband") then
      if blockEnd then (data, i) else BandScan(lines, dec, i + 1, true, data)
    else if Contains(lines[i], "ikpt") then (data, i)
    else BandScan(lines, dec, i + 1, true, data + [RowOf(dec(lines[i]))])
  }

  function BandBlock(lines: seq<string>, dec: Decomposer): (Band, int) {
    BandScan(lines, dec, 0, false, [])
  }

  method ExtractDataFromBandBlock(lines: seq<string>, dec: Decomposer) returns (data: Band, relEnd: int)
    ensures (data, relEnd) == BandBlock(lines, dec)
  {
    data := [];
    var blockEnd := false;
    for i := 0 to |lines|
      invariant BandBlock(lines, dec) == BandScan(lines, dec, i, blockEnd, data)
    {
      if Contains(lines[i], "iband") {
        if blockEnd {
          return data, i;
        }
        blockEnd := true;
      } else if Contains(lines[i], "ikpt") {
        return data, i;
      } else {
        var s, ints, f := dec(lines[i]).strings, dec(lines[i]).ints, dec(lines[i]).floats;
        data := data + [RowOf(CommonRoutines.Parts(s, ints, f))];
        blockEnd := true;
      }
    }
    return data, |lines| - 1;
  }

  predicate IsMarker(line: string) {
    Contains(line, "iband") || Contains(line, "ikpt")
  }

  function RowsOf(lines: seq<string>, dec: Decomposer): (b: Band)
    ensures |b| == |lines|
  {
    if |lines| == 0 then [] else [RowOf(dec(lines[0]))] + RowsOf(lines[1..], dec)
  }

  /** Past the first line, a band block is the rows of the lines up to the
      next "iband" or "ikpt" line, whose index it returns. */
  lemma {:induction false} BandScanRuns(lines: seq<string>, dec: Decomposer, i: nat, b: nat, data: Band)
    requires 1 <= i <= b <= |lines|
    requires forall k :: i <= k < b ==> !IsMarker(lines[k])
    requires b == |lines| || IsMarker(lines[b])
    ensures BandScan(lines, dec, i, true, data) == (data + RowsOf(lines[i..b], dec), if b == |lines| then |lines| - 1 else b)
    decreases b - i
  {
    if i == b {
      assert data + RowsOf(lines[i..b], dec) == data;
    } else {
      var row := RowOf(dec(lines[i]));
      BandScanRuns(lines, dec, i + 1, b, data + [row]);
      assert lines[i..b][1..] == lines[i + 1..b];
      assert data + [row] + RowsOf(lines[i + 1..b], dec) == data + ([row] + RowsOf(lines[i + 1..b], dec));
    }
  }

  /** The band block by its lines: a block opened by an "iband" line holds
      the rows of the lines after it up to the next "iband" or "ikpt" line;
      a first line that is a data line is a row of the block too; a first
      "ikpt" line is an empty block ending there. */
  lemma BandBlockIs(lines: seq<string>, dec: Decomposer, b: nat)
    requires 1 <= b <= |lines|
    requires forall k :: 1 <= k < b ==> !IsMarker(lines[k])
    requires b == |lines| || IsMarker(lines[b])
    ensures Contains(lines[0], "iband") ==> BandBlock(lines, dec) == (RowsOf(lines[1..b], dec), if b == |lines| then |lines| - 1 else b)
    ensures !IsMarker(lines[0]) ==> BandBlock(lines, dec) == (RowsOf(lines[..b], dec), if b == |lines| then |lines| - 1 else b)
    ensures !Contains(lines[0], "iband") && Contains(lines[0], "ikpt") ==> BandBlock(lines, dec) == ([], 0)
  {
    if Contains(lines[0], "iband") {
      BandScanRuns(lines, dec, 1, b, []);
      assert [] + RowsOf(lines[1..b], dec) == RowsOf(lines[1..b], dec);
    } else if !Contains(lines[0], "ikpt") {
      var row := RowOf(dec(lines[0]));
      assert BandBlock(lines, dec) == BandScan(lines, dec, 1, true, [row]) by {
        assert [] + [row] == [row];
      }
      BandScanRuns(lines, dec, 1, b, [row]);
      assert lines[..b][1..] == lines[1..b];
    }
  }

  // ---------------------------------------------------------------------
  // The k-point block
  // ---------------------------------------------------------------------

  /** The loop of `_extract_data_from_kpt_block` from line `i` on: each
      "iband" line not skipped reads a band block, whose relative index is
      added to the cursor `end`; the second "ikpt" line ends the k-point. */
  function KptScan(lines: seq<string>, dec: Decomposer, i: nat, end: int, blockEnd: bool, data: Kpt): (Kpt, int)
    requires i <= |lines|
    decreases |lines| - i
  {
    if i == |lines| then (data, |lines| - 1)
    else if i < end then KptScan(lines, dec, i + 1, end, blockEnd, data)
    else
      var band := if Contains(lines[i], "iband") then BandBlock(lines[i..], dec) else ([], 0);
      var data' := if Contains(lines[i], "iband") then data + [band.0] else data;
      var end' := end + band.1;
      if Contains(lines[i], "ikpt") then
        if !blockEnd then KptScan(lines, dec, i + 1, end', true, data') else (data', i)
      else KptScan(lines, dec, i + 1, end', blockEnd, data')
  }

  function KptBlock(lines: seq<string>, dec: Decomposer): (Kpt, int) {
    KptScan(lines, dec, 0, 0, false, [])
  }

  method ExtractDataFromKptBlock(lines: seq<string>, dec: Decomposer) returns (data: Kpt, relEnd: int)
    ensures (data, relEnd) == KptBlock(lines, dec)
  {
    data := [];
    var end := 0;
    var blockEnd := false;
    for i := 0 to |lines|
      invariant KptBlock(lines, dec) == KptScan(lines, dec, i, end, blockEnd, data)
    {
      if i < end {
        continue;
      }
      if Contains(lines[i], "iband") {
        var banddata, adv := ExtractDataFromBandBlock(lines[i..], dec);
        data := data + [banddata];
        end := end + adv;
      }
      if Contains(lines[i], "ikpt") {
        if !blockEnd {
          blockEnd := true;
        } else {
          return data, i;
        }
      }
    }
    return data, |lines| - 1;
  }

  /** The relative index a k-point block returns is that of an "ikpt" line
      met after the first one, or the last index. */
  lemma {:induction false} KptEnds(lines: seq<string>, dec: Decomposer, i: nat, end: int, blockEnd: bool, data: Kpt)
    requires i <= |lines|
    ensures var rel := KptScan(lines, dec, i, end, blockEnd, data).1;
      rel == |lines| - 1 || (i <= rel < |lines| && Contains(lines[rel], "ikpt"))
    decreases |lines| - i
  {
    if i < |lines| {
      if i < end {
        KptEnds(lines, dec, i + 1, end, blockEnd, data);
      } else {
        var band := if Contains(lines[i], "iband") then BandBlock(lines[i..], dec) else ([], 0);
        var data' := if Contains(lines[i], "iband") then data + [band.0] else data;
        if !Contains(lines[i], "ikpt") || !blockEnd {
          KptEnds(lines, dec, i + 1, end + band.1, Contains(lines[i], "ikpt") || blockEnd, data');
        }
      }
    }
  }

  // ---------------------------------------------------------------------
  // The body
  // ---------------------------------------------------------------------

  /** The loop of `_extract_data` from line `i` on: each "ikpt" line not
      skipped reads a k-point block, which must hold `nband` band blocks. */
  function DataScan(lines: seq<string>, dec: Decomposer, nband: int, i: nat, end: int, data: seq<Kpt>): Result<seq<Kpt>>
    requires i <= |lines|
    decreases |lines| - i
  {
    if i == |lines| then Success(data)
    else if i < end then DataScan(lines, dec, nband, i + 1, end, data)
    else if Contains(lines[i], "ikpt") then
      var (kpt, adv) := KptBlock(lines[i..], dec);
      if |kpt| != nband then Failure(ValueError)
      else DataScan(lines, dec, nband, i + 1, end + adv, data + [kpt])
    else DataScan(lines, dec, nband, i + 1, end, data)
  }

  function ExtractedData(lines: seq<string>, dec: Decomposer, nband: int): Result<seq<Kpt>> {
    DataScan(lines, dec, nband, 0, 0, [])
  }

  method ExtractData(lines: seq<string>, dec: Decomposer, nband: int) returns (r: Result<seq<Kpt>>)
    ensures r == ExtractedData(lines, dec, nband)
  {
    var data := [];
    var end := 0;
    for i := 0 to |lines|
      invariant ExtractedData(lines, dec, nband) == DataScan(lines, dec, nband, i, end, data)
    {
      if i < end {
        continue;
      }
      if Contains(lines[i], "ikpt") {
        var kptdata, adv := ExtractDataFromKptBlock(lines[i..], dec);
        if |kptdata| != nband {
          return Failure(ValueError);
        }
        data := data + [kptdata];
        end := end + adv;
      }
    }
    return Success(data);
  }

  /** Every k-point read holds exactly `nband` band blocks. */
  lemma {:induction false} DataBands(lines: seq<string>, dec: Decomposer, nband: int, i: nat, end: int, data: seq<Kpt>)
    requires i <= |lines| && forall k :: 0 <= k < |data| ==> |data[k]| == nband
    ensures var r := DataScan(lines, dec, nband, i, end, data);
      r.Success? ==> forall k :: 0 <= k < |r.value| ==> |r.value[k]| == nband
    decreases |lines| - i
  {
    if i < |lines| {
      if !(i < end) && Contains(lines[i], "ikpt") {
        var (kpt, adv) := KptBlock(lines[i..], dec);
        if |kpt| == nband {
          DataBands(lines, dec, nband, i + 1, end + adv, data + [kpt]);
        }
      } else {
        DataBands(lines, dec, nband, i + 1, end, data);
      }
    }
  }

  // ---------------------------------------------------------------------
  // Header
  // ---------------------------------------------------------------------

  predicate IsKptLine(line: string) {
    Contains(line, "ikpt")
  }

  /** `_extract_header` by its outcome: the body from the first "ikpt" line
      on and the header before it, or LookupError. */
  function HeaderSplit(lines: seq<string>): Result<(seq<string>, seq<string>)> {
    match FirstWhere(lines, IsKptLine)
    case None => Failure(LookupError)
    case Some(i) => Success((lines[i..], lines[..i]))
  }

  method ExtractHeader(lines: seq<string>) returns (r: Result<(seq<string>, seq<string>)>)
    ensures r == HeaderSplit(lines)
  {
    for i := 0 to |lines|
      invariant forall j :: 0 <= j < i ==> !IsKptLine(lines[j])
    {
      if Contains(lines[i], "ikpt") {
        FirstWhereIs(lines, IsKptLine, i);
        return Success((lines[i..], lines[..i]));
      }
    }
    FirstWhereNone(lines, IsKptLine);
    return Failure(LookupError);
  }

  /** The header and body together are the lines; the header holds no "ikpt"
      line and the body starts with one; the split fails exactly when no line
      holds "ikpt". */
  lemma HeaderSplitShape(lines: seq<string>)
    ensures HeaderSplit(lines).Failure? <==> forall j :: 0 <= j < |lines| ==> !IsKptLine(lines[j])
    ensures HeaderSplit(lines).Success? ==>
      var (body, header) := HeaderSplit(lines).value;
      && header + body == lines && |body| > 0 && IsKptLine(body[0])
      && forall j :: 0 <= j < |header| ==> !IsKptLine(header[j])
  {
    FirstWhereFirst(lines, IsKptLine);
    if FirstWhere(lines, IsKptLine).Some? {
      var i := FirstWhere(lines, IsKptLine).value;
      assert lines[..i] + lines[i..] == lines;
    }
  }

  /** `_get_nband`: from the integers of the last header line, the second
      minus the first plus one; an empty header or fewer than two integers is
      an IndexError. */
  function NBandOf(header: seq<string>, dec: Decomposer): (r: Result<int>)
    ensures r.Failure? <==> |header| == 0 || |dec(header[|header| - 1]).ints| < 2
    ensures r.Success? ==> var i := dec(header[|header| - 1]).ints; r.value - 1 == i[1] - i[0]
  {
    if |header| == 0 then Failure(IndexError)
    else
      var i := dec(header[|header| - 1]).ints;
      if |i| < 2 then Failure(IndexError) else Success(i[1] - i[0] + 1)
  }

  // ---------------------------------------------------------------------
  // Reshaping
  // ---------------------------------------------------------------------

  datatype Complex = Complex(re: real, im: real)

  datatype Dims = Dims(nkpt: nat, nband: nat, nspin: nat, natom: nat, norb: nat)

  /** All the rows of all the band blocks. */
  function AllRows(data: seq<Kpt>): seq<Row> {
    if |data| == 0 then [] else AllRows(data[..|data| - 1]) + Flatten(data[|data| - 1])
  }

  function Flatten(kpt: Kpt): seq<Row> {
    if |kpt| == 0 then [] else Flatten(kpt[..|kpt| - 1]) + kpt[|kpt| - 1]
  }

  /** The distinct values of column `c` over rows that all have it. */
  function Distinct(rows: seq<Row>, c: nat): set<real>
    requires forall k :: 0 <= k < |rows| ==> c < |rows[k]|
  {
    set k | 0 <= k < |rows| :: rows[k][c]
  }

  /** The lengths agree at every level where there are elements, as
      `np.array` requires of a nested list. */
  predicate Rectangular(data: seq<Kpt>) {
    && (forall k :: 0 <= k < |data| ==> |data[k]| == |data[0]|)
    && (forall k, b :: 0 <= k < |data| && 0 <= b < |data[k]| ==> |data[k][b]| == |data[0][0]|)
    && (forall k, b, r :: 0 <= k < |data| && 0 <= b < |data[k]| && 0 <= r < |data[k][b]| ==> |data[k][b][r]| == |data[0][0][0]|)
  }

  /** q·m + r < n·m when q < n and r < m. */
  lemma {:induction false} MulLess(q: nat, r: nat, n: nat, m: nat)
    ensures q < n && r < m ==> q * m + r < n * m
    decreases n
  {
    if q < n && r < m && q + 1 < n {
      MulLess(q, r, n - 1, m);
      assert (n - 1) * m + m == n * m;
    }
  }

  /** The quotient and remainder of a division by `m` are unique. */
  lemma DivUnique(q: nat, r: nat, q': nat, r': nat, m: nat)
    requires r < m && r' < m && q * m + r == q' * m + r'
    ensures q == q' && r == r'
  {
    MulLess(q, r, q', m);
    MulLess(q', r', q, m);
  }

  lemma OffsetNested(d: Dims, s: nat, a: nat, o: nat)
    ensures s * d.norb * d.natom + a * d.norb + o == (s * d.natom + a) * d.norb + o
  {
    assert s * d.norb * d.natom == s * d.natom * d.norb;
    assert (s * d.natom + a) * d.norb == s * d.natom * d.norb + a * d.norb;
  }

  /** The flat row offset the source reads for spin `s`, atom `a`, orbital
      `o`; within the dimensions it stays below the number of (spin, atom,
      orbital) triples. */
  function Offset(d: Dims, s: nat, a: nat, o: nat): (r: nat)
    requires s < d.nspin && a < d.natom && o < d.norb
    ensures r < d.nspin * d.natom * d.norb
  {
    OffsetNested(d, s, a, o);
    MulLess(s, a, d.nspin, d.natom);
    MulLess(s * d.natom + a, o, d.nspin * d.natom, d.norb);
    s * d.norb * d.natom + a * d.norb + o
  }

  /** Distinct triples read distinct rows: the placement is by position, one
      row per cell. */
  lemma OffsetInjective(d: Dims, s: nat, a: nat, o: nat, s': nat, a': nat, o': nat)
    requires s < d.nspin && a < d.natom && o < d.norb
    requires s' < d.nspin && a' < d.natom && o' < d.norb
    requires Offset(d, s, a, o) == Offset(d, s', a', o')
    ensures s == s' && a == a' && o == o'
  {
    OffsetNested(d, s, a, o);
    OffsetNested(d, s', a', o');
    NestedInjective(s, a, o, s', a', o', d.natom, d.norb);
  }

  lemma NestedInjective(s: nat, a: nat, o: nat, s': nat, a': nat, o': nat, natom: nat, norb: nat)
    requires a < natom && o < norb && a' < natom && o' < norb
    requires (s * natom + a) * norb + o == (s' * natom + a') * norb + o'
    ensures s == s' && a == a' && o == o'
  {
    DivUnique(s * natom + a, o, s' * natom + a', o', norb);
    DivUnique(s, a, s', a', natom);
  }

  /** The rows the reshaping can read: `np.array` needs a rectangular list,
      the index columns 0 to 2 must exist, and every band block must reach
      the row each cell is read from. */
  predicate Fits(data: seq<Kpt>, d: Dims) {
    && |data| == d.nkpt
    && (forall k :: 0 <= k < |data| ==> |data[k]| == d.nband)
    && (forall k, b :: 0 <= k < |data| && 0 <= b < |data[k]| ==> d.nspin * d.natom * d.norb <= |data[k][b]|)
    && (forall k, b, r :: 0 <= k < |data| && 0 <= b < |data[k]| && 0 <= r < |data[k][b]| ==> 2 <= |data[k][b][r]|)
  }

  /** A cell: the last two values of its row as one complex number. */
  function Cell(data: seq<Kpt>, d: Dims, ik: nat, ib: nat, s: nat, a: nat, o: nat): Complex
    requires Fits(data, d) && ik < d.nkpt && ib < d.nband && s < d.nspin && a < d.natom && o < d.norb
  {
    var row := data[ik][ib][Offset(d, s, a, o)];
    Complex(row[|row| - 2], row[|row| - 1])
  }

  type Orbitals = seq<Complex>
  type Table = seq<seq<seq<seq<Orbitals>>>>

  function AtomOf(data: seq<Kpt>, d: Dims, ik: nat, ib: nat, s: nat, a: nat): (r: Orbitals)
    requires Fits(data, d) && ik < d.nkpt && ib < d.nband && s < d.nspin && a < d.natom
    ensures |r| == d.norb
  {
    seq(d.norb, o requires 0 <= o < d.norb => Cell(data, d, ik, ib, s, a, o))
  }

  function SpinOf(data: seq<Kpt>, d: Dims, ik: nat, ib: nat, s: nat): (r: seq<Orbitals>)
    requires Fits(data, d) && ik < d.nkpt && ib < d.nband && s < d.nspin
    ensures |r| == d.natom
  {
    seq(d.natom, a requires 0 <= a < d.natom => AtomOf(data, d, ik, ib, s, a))
  }

  function BandOf(data: seq<Kpt>, d: Dims, ik: nat, ib: nat): (r: seq<seq<Orbitals>>)
    requires Fits(data, d) && ik < d.nkpt && ib < d.nband
    ensures |r| == d.nspin
  {
    seq(d.nspin, s requires 0 <= s < d.nspin => SpinOf(data, d, ik, ib, s))
  }

  function KptOf(data: seq<Kpt>, d: Dims, ik: nat): (r: seq<seq<seq<Orbitals>>>)
    requires Fits(data, d) && ik < d.nkpt
    ensures |r| == d.nband
  {
    seq(d.nband, ib requires 0 <= ib < d.nband => BandOf(data, d, ik, ib))
  }

  function Final(data: seq<Kpt>, d: Dims): (r: Table)
    requires Fits(data, d)
    ensures |r| == d.nkpt
  {
    seq(d.nkpt, ik requires 0 <= ik < d.nkpt => KptOf(data, d, ik))
  }

  /** The table has shape nkpt x nband x nspin x natom x norb, and its cell
      (ik, ib, s, a, o) is re + i·im of row s·norb·natom + a·norb + o of band
      block ib of k-point ik. */
  lemma FinalCells(data: seq<Kpt>, d: Dims, ik: nat, ib: nat, s: nat, a: nat, o: nat)
    requires Fits(data, d) && ik < d.nkpt && ib < d.nband && s < d.nspin && a < d.natom && o < d.norb
    ensures var t := Final(data, d);
      && |t[ik]| == d.nband && |t[ik][ib]| == d.nspin && |t[ik][ib][s]| == d.natom && |t[ik][ib][s][a]| == d.norb
      && var row := data[ik][ib][Offset(d, s, a, o)];
        t[ik][ib][s][a][o] == Complex(row[|row| - 2], row[|row| - 1])
  {
  }

  /** The dimensions `_reshape_data` infers from a rectangular list with at
      least one k-point, band, row and three columns. */
  function DimsOf(data: seq<Kpt>): Dims
    requires |data| > 0 && |data[0]| > 0 && |data[0][0]| > 0 && 3 <= |data[0][0][0]| && Rectangular(data)
  {
    var rows := AllRows(data);
    AllRowsLengths(data);
    Dims(|data|, |data[0]|, |Distinct(rows, 0)|, |Distinct(rows, 1)|, |Distinct(rows, 2)|)
  }

  lemma {:induction false} FlattenLengths(kpt: Kpt, n: nat)
    requires forall b, r :: 0 <= b < |kpt| && 0 <= r < |kpt[b]| ==> |kpt[b][r]| == n
    ensures forall k :: 0 <= k < |Flatten(kpt)| ==> |Flatten(kpt)[k]| == n
  {
    if |kpt| > 0 {
      FlattenLengths(kpt[..|kpt| - 1], n);
    }
  }

  lemma {:induction false} AllRowsLengths(data: seq<Kpt>)
    requires |data| > 0 && |data[0]| > 0 && |data[0][0]| > 0 && Rectangular(data)
    ensures forall k :: 0 <= k < |AllRows(data)| ==> |AllRows(data)[k]| == |data[0][0][0]|
  {
    AllRowsLengthsFrom(data, |data|, |data[0][0][0]|);
    assert data[..|data|] == data;
  }

  lemma {:induction false} AllRowsLengthsFrom(data: seq<Kpt>, n: nat, len: nat)
    requires n <= |data|
    requires forall k, b, r :: 0 <= k < |data| && 0 <= b < |data[k]| && 0 <= r < |data[k][b]| ==> |data[k][b][r]| == len
    ensures forall k :: 0 <= k < |AllRows(data[..n])| ==> |AllRows(data[..n])[k]| == len
  {
    if n > 0 {
      AllRowsLengthsFrom(data, n - 1, len);
      assert data[..n][..n - 1] == data[..n - 1];
      FlattenLengths(data[n - 1], len);
    } else {
      assert data[..n] == [];
    }
  }

  /** `_reshape_data` by its outcome: the errors `np.array` and the indexing
      raise, else the filled table. */
  function Reshaped(data: seq<Kpt>): Result<Table> {
    if |data| == 0 then Failure(IndexError)
    else if !Rectangular(data) then Failure(ValueError)
    else if |data[0]| == 0 || |data[0][0]| == 0 || |data[0][0][0]| < 3 then Failure(IndexError)
    else
      var d := DimsOf(data);
      if |data[0][0]| < d.nspin * d.natom * d.norb then Failure(IndexError)
      else
        assert Fits(data, d);
        Success(Final(data, d))
  }

  /** The five nested loops of `_reshape_data`, cell after cell in the order
      k-point, band, spin, atom, orbital; each level is one method. */
  method Fill(data: seq<Kpt>, d: Dims) returns (final: Table)
    requires Fits(data, d)
    ensures final == Final(data, d)
  {
    final := [];
    for ik := 0 to d.nkpt
      invariant final == Final(data, d)[..ik]
    {
      var kpt := FillKpt(data, d, ik);
      final := final + [kpt];
    }
  }

  method FillKpt(data: seq<Kpt>, d: Dims, ik: nat) returns (kpt: seq<seq<seq<Orbitals>>>)
    requires Fits(data, d) && ik < d.nkpt
    ensures kpt == KptOf(data, d, ik)
  {
    kpt := [];
    for ib := 0 to d.nband
      invariant kpt == KptOf(data, d, ik)[..ib]
    {
      var band := FillBand(data, d, ik, ib);
      kpt := kpt + [band];
    }
  }

  method FillBand(data: seq<Kpt>, d: Dims, ik: nat, ib: nat) returns (band: seq<seq<Orbitals>>)
    requires Fits(data, d) && ik < d.nkpt && ib < d.nband
    ensures band == BandOf(data, d, ik, ib)
  {
    band := [];
    for s := 0 to d.nspin
      invariant band == BandOf(data, d, ik, ib)[..s]
    {
      var spin := FillSpin(data, d, ik, ib, s);
      band := band + [spin];
    }
  }

  method FillSpin(data: seq<Kpt>, d: Dims, ik: nat, ib: nat, s: nat) returns (spin: seq<Orbitals>)
    requires Fits(data, d) && ik < d.nkpt && ib < d.nband && s < d.nspin
    ensures spin == SpinOf(data, d, ik, ib, s)
  {
    spin := [];
    for a := 0 to d.natom
      invariant spin == SpinOf(data, d, ik, ib, s)[..a]
    {
      var atom := FillAtom(data, d, ik, ib, s, a);
      spin := spin + [atom];
    }
  }

  method FillAtom(data: seq<Kpt>, d: Dims, ik: nat, ib: nat, s: nat, a: nat) returns (atom: Orbitals)
    requires Fits(data, d) && ik < d.nkpt && ib < d.nband && s < d.nspin && a < d.natom
    ensures atom == AtomOf(data, d, ik, ib, s, a)
  {
    atom := [];
    for o := 0 to d.norb
      invariant atom == AtomOf(data, d, ik, ib, s, a)[..o]
    {
      var row := data[ik][ib][Offset(d, s, a, o)];
      atom := atom + [Complex(row[|row| - 2], row[|row| - 1])];
    }
  }

  method ReshapeData(data: seq<Kpt>) returns (r: Result<Table>)
    ensures r == Reshaped(data)
  {
    if |data| == 0 {
      return Failure(IndexError);
    }
    if !Rectangular(data) {
      return Failure(ValueError);
    }
    if |data[0]| == 0 || |data[0][0]| == 0 || |data[0][0][0]| < 3 {
      return Failure(IndexError);
    }
    var d := DimsOf(data);
    if |data[0][0]| < d.nspin * d.natom * d.norb {
      return Failure(IndexError);
    }
    var final := Fill(data, d);
    return Success(final);
  }

  // ---------------------------------------------------------------------
  // The parser
  // ---------------------------------------------------------------------

  /** The whole reading: header, band count, blocks, then the table. */
  function Parse(lines: seq<string>, dec: Decomposer): Result<(int, Table)> {
    var split :- HeaderSplit(lines);
    var nband :- NBandOf(split.1, dec);
    var data :- ExtractedData(split.0, dec, nband);
    var table :- Reshaped(data);
    Success((nband, table))
  }

  class DMFTProjectorsParser {
    var nband: int
    var data: Result<Table>

    /** Reading the lines of a projector file: the data is what `Parse`
        gives, and after a successful read `nband` is the header's count. */
    constructor (lines: seq<string>)
      ensures Parse(lines, CommonRoutines.Decompose).Success? ==>
        data == Success(Parse(lines, CommonRoutines.Decompose).value.1) && nband == Parse(lines, CommonRoutines.Decompose).value.0
      ensures Parse(lines, CommonRoutines.Decompose).Failure? ==> data == Failure(Parse(lines, CommonRoutines.Decompose).error)
    {
      data := Failure(LookupError);
      new;
      data := ReadData(lines);
    }

    /** `_read_data_from_file` after the lines are read. */
    method ReadData(lines: seq<string>) returns (r: Result<Table>)
      modifies this
      ensures Parse(lines, CommonRoutines.Decompose).Success? ==>
        r == Success(Parse(lines, CommonRoutines.Decompose).value.1) && nband == Parse(lines, CommonRoutines.Decompose).value.0
      ensures Parse(lines, CommonRoutines.Decompose).Failure? ==> r == Failure(Parse(lines, CommonRoutines.Decompose).error)
    {
      var split := ExtractHeader(lines);
      if split.Failure? {
        return Failure(split.error);
      }
      var (body, header) := split.value;
      var n := NBandOf(header, CommonRoutines.Decompose);
      if n.Failure? {
        return Failure(n.error);
      }
      nband := n.value;
      var blocks := ExtractData(body, CommonRoutines.Decompose, nband);
      if blocks.Failure? {
        return Failure(blocks.error);
      }
      r := ReshapeData(blocks.value);
    }
  }
}
