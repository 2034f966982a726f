/** The reader of ABINIT FATBAND files: one block per band, opened by a
    "# BAND" line, whose rows "kpt eigenvalue character" run up to the next
    boundary line. */
module FatbandParser {
  import opened Wrappers
  import opened Strings
  import CommonRoutines

  /** A line decomposition: `decompose_line`, which the parser passes as
      `CommonRoutines.Decompose`. */
  type Decomposer = string -> CommonRoutines.Parts

  /** One (eigenvalue, character) pair per k-point. */
  type Block = seq<seq<real>>

  /** A line that opens or closes a block: "# BAND", "&", or nothing but
      newlines. */
  predicate IsBoundary(line: string) {
    StartsWith(line, "# BAND") || StartsWith(line, "&") || RStrip(line, {'\n'}) == []
  }

  /** A data row holds exactly two floats and one int. */
  predicate IsFatRow(p: CommonRoutines.Parts) {
    |p.floats| == 2 && |p.ints| == 1
  }

  /** The loop of `_extract_data_band_block` from line `i` on. */
  function BandScan(lines: seq<string>, dec: Decomposer, i: nat, blockEnd: bool, data: Block): Result<(Block, int)>
    requires i <= |lines|
    decreases |lines| - i
  {
    if i == |lines| then Success((data, |lines| - 1))
    else if IsBoundary(lines[i]) then
      if !blockEnd then BandScan(lines, dec, i + 1, true, data) else Success((data, i))
    else
      var p := dec(lines[i]);
      if !IsFatRow(p) then Failure(LookupError)
      else BandScan(lines, dec, i + 1, blockEnd, data + [p.floats])
  }

  function BandBlock(lines: seq<string>, dec: Decomposer): Result<(Block, int)> {
    BandScan(lines, dec, 0, false, [])
  }

  method ExtractDataBandBlock(lines: seq<string>, dec: Decomposer) returns (r: Result<(Block, int)>)
    ensures r == BandBlock(lines, dec)
  {
    var blockEnd := false;
    var data := [];
    for i := 0 to |lines|
      invariant BandBlock(lines, dec) == BandScan(lines, dec, i, blockEnd, data)
    {
      var line := lines[i];
      if StartsWith(line, "# BAND") || StartsWith(line, "&") || RStrip(line, {'\n'}) == [] {
        if !blockEnd {
          blockEnd := true;
          continue;
        } else {
          return Success((data, i));
        }
      }
      var f, ints := dec(line).floats, dec(line).ints;
      if |f| != 2 || |ints| != 1 {
        return Failure(LookupError);
      }
      data := data + [f];
    }
    return Success((data, |lines| - 1));
  }

  /** The floats of each line. */
  function FloatsOf(lines: seq<string>, dec: Decomposer): (b: Block)
    ensures |b| == |lines|
  {
    if |lines| == 0 then [] else [dec(lines[0]).floats] + FloatsOf(lines[1..], dec)
  }

  /** Past the opening boundary: the rows up to line `b`, the next boundary
      (or the end), when they all have the row shape; LookupError otherwise. */
  lemma {:induction false} BandScanRuns(lines: seq<string>, dec: Decomposer, i: nat, b: nat, data: Block)
    requires 1 <= i <= b <= |lines|
    requires forall k :: i <= k < b ==> !IsBoundary(lines[k])
    requires b == |lines| || IsBoundary(lines[b])
    ensures BandScan(lines, dec, i, true, data).Success? <==> forall k :: i <= k < b ==> IsFatRow(dec(lines[k]))
    ensures BandScan(lines, dec, i, true, data).Success? ==>
      BandScan(lines, dec, i, true, data).value == (data + FloatsOf(lines[i..b], dec), if b == |lines| then |lines| - 1 else b)
    ensures BandScan(lines, dec, i, true, data).Failure? ==> BandScan(lines, dec, i, true, data).error == LookupError
    decreases b - i
  {
    if i == b {
      assert data + FloatsOf(lines[i..b], dec) == data;
    } else if IsFatRow(dec(lines[i])) {
      var row := dec(lines[i]).floats;
      BandScanRuns(lines, dec, i + 1, b, data + [row]);
      assert lines[i..b][1..] == lines[i + 1..b];
      assert data + [row] + FloatsOf(lines[i + 1..b], dec) == data + ([row] + FloatsOf(lines[i + 1..b], dec));
    }
  }

  /** A block opened at a boundary line: it reads up to the next boundary
      `b`, keeping the two floats of each row in file order, and fails with
      LookupError exactly when some row lacks the shape of two floats and
      one int. */
  lemma BandBlockIs(lines: seq<string>, dec: Decomposer, b: nat)
    requires 1 <= b <= |lines| && IsBoundary(lines[0])
    requires forall k :: 1 <= k < b ==> !IsBoundary(lines[k])
    requires b == |lines| || IsBoundary(lines[b])
    ensures BandBlock(lines, dec).Success? <==> forall k :: 1 <= k < b ==> IsFatRow(dec(lines[k]))
    ensures BandBlock(lines, dec).Success? ==>
      BandBlock(lines, dec).value == (FloatsOf(lines[1..b], dec), if b == |lines| then |lines| - 1 else b)
    ensures BandBlock(lines, dec).Failure? ==> BandBlock(lines, dec).error == LookupError
  {
    BandScanRuns(lines, dec, 1, b, []);
    assert [] + FloatsOf(lines[1..b], dec) == FloatsOf(lines[1..b], dec);
  }

  /** The two-row-example of a block: "# BAND", "1 2.5 0.8", "# BAND" gives
      [[2.5, 0.8]] with offset 2, for a decomposition of the middle line
      into the int 1 and the floats 2.5 and 0.8. */
  lemma BandBlockExample(dec: Decomposer)
    requires dec("1 2.5 0.8") == CommonRoutines.Parts([], [1], [2.5, 0.8])
    ensures BandBlock(["# BAND", "1 2.5 0.8", "# BAND"], dec) == Success(([[2.5, 0.8]], 2))
  {
    var lines := ["# BAND", "1 2.5 0.8", "# BAND"];
    assert StartsWith(lines[0], "# BAND") && StartsWith(lines[2], "# BAND");
    assert !IsBoundary(lines[1]) by {
      assert lines[1][0] == '1';
      RStripShape(lines[1], {'\n'});
    }
    BandBlockIs(lines, dec, 2);
    assert lines[1..2] == [lines[1]];
    assert FloatsOf(lines[1..2], dec) == [[2.5, 0.8]] by {
      assert lines[1..2][1..] == [];
    }
  }

  /** Every row of a block read from line `i` on is a pair. */
  lemma {:induction false} BandPairs(lines: seq<string>, dec: Decomposer, i: nat, blockEnd: bool, data: Block)
    requires i <= |lines| && forall k :: 0 <= k < |data| ==> |data[k]| == 2
    ensures var r := BandScan(lines, dec, i, blockEnd, data);
      r.Success? ==> forall k :: 0 <= k < |r.value.0| ==> |r.value.0[k]| == 2
    decreases |lines| - i
  {
    if i < |lines| {
      if IsBoundary(lines[i]) {
        BandPairs(lines, dec, i + 1, true, data);
      } else if IsFatRow(dec(lines[i])) {
        BandPairs(lines, dec, i + 1, blockEnd, data + [dec(lines[i]).floats]);
      }
    }
  }

  // ---------------------------------------------------------------------
  // The file
  // ---------------------------------------------------------------------

  /** The loop of `_extract_data` from line `i` on: each "# BAND" line not
      skipped reads a block, whose offset is added to the cursor `end`. */
  function DataScan(lines: seq<string>, dec: Decomposer, i: nat, end: int, data: seq<Block>): Result<seq<Block>>
    requires i <= |lines|
    decreases |lines| - i
  {
    if i == |lines| then Success(data)
    else if i < end then DataScan(lines, dec, i + 1, end, data)
    else if StartsWith(lines[i], "# BAND") then
      match BandBlock(lines[i..], dec)
      case Failure(e) => Failure(e)
      case Success((band, skip)) => DataScan(lines, dec, i + 1, end + skip, data + [band])
    else DataScan(lines, dec, i + 1, end, data)
  }

  function ExtractedData(lines: seq<string>, dec: Decomposer): Result<seq<Block>> {
    DataScan(lines, dec, 0, 0, [])
  }

  method ExtractData(lines: seq<string>, dec: Decomposer) returns (r: Result<seq<Block>>)
    ensures r == ExtractedData(lines, dec)
  {
    var data := [];
    var end := 0;
    for i := 0 to |lines|
      invariant ExtractedData(lines, dec) == DataScan(lines, dec, i, end, data)
    {
      if i < end {
        continue;
      }
      if StartsWith(lines[i], "# BAND") {
        var block := ExtractDataBandBlock(lines[i..], dec);
        if block.Failure? {
          return Failure(block.error);
        }
        var (band, skip) := block.value;
        data := data + [band];
        end := end + skip;
      }
    }
    return Success(data);
  }

  predicate Pairs(data: seq<Block>) {
    forall k, j :: 0 <= k < |data| && 0 <= j < |data[k]| ==> |data[k][j]| == 2
  }

  /** Every row of every block is an (eigenvalue, character) pair, and the
      only error is a LookupError from a malformed row. */
  lemma {:induction false} DataPairs(lines: seq<string>, dec: Decomposer, i: nat, end: int, data: seq<Block>)
    requires i <= |lines| && Pairs(data)
    ensures var r := DataScan(lines, dec, i, end, data);
      && (r.Success? ==> Pairs(r.value))
      && (r.Failure? ==> r.error == LookupError)
    decreases |lines| - i
  {
    if i < |lines| {
      if !(i < end) && StartsWith(lines[i], "# BAND") {
        BandPairs(lines[i..], dec, 0, false, []);
        BandErrors(lines[i..], dec, 0, false, []);
        match BandBlock(lines[i..], dec)
        case Failure(e) =>
        case Success((band, skip)) =>
          DataPairs(lines, dec, i + 1, end + skip, data + [band]);
      } else {
        DataPairs(lines, dec, i + 1, end, data);
      }
    }
  }

  lemma {:induction false} BandErrors(lines: seq<string>, dec: Decomposer, i: nat, blockEnd: bool, data: Block)
    requires i <= |lines|
    ensures BandScan(lines, dec, i, blockEnd, data).Failure? ==> BandScan(lines, dec, i, blockEnd, data).error == LookupError
    decreases |lines| - i
  {
    if i < |lines| {
      if IsBoundary(lines[i]) {
        BandErrors(lines, dec, i + 1, true, data);
      } else if IsFatRow(dec(lines[i])) {
        BandErrors(lines, dec, i + 1, blockEnd, data + [dec(lines[i]).floats]);
      }
    }
  }

  /** Without a "# BAND" line there is no block. */
  lemma {:induction false} DataNone(lines: seq<string>, dec: Decomposer, i: nat, end: int, data: seq<Block>)
    requires i <= |lines| && forall k :: i <= k < |lines| ==> !StartsWith(lines[k], "# BAND")
    ensures DataScan(lines, dec, i, end, data) == Success(data)
    decreases |lines| - i
  {
    if i < |lines| {
      DataNone(lines, dec, i + 1, end, data);
    }
  }

  /** `data.shape[0]` and `data.shape[1]` of `np.array(data)`: the number of
      blocks and of rows per block; blocks of different lengths make the
      array ragged (ValueError), and no block at all leaves no second axis
      (IndexError). */
  function Shape(data: seq<Block>): (r: Result<(nat, nat)>)
    ensures r.Success? <==> |data| > 0 && forall k :: 0 <= k < |data| ==> |data[k]| == |data[0]|
    ensures r.Success? ==> r.value == (|data|, |data[0]|)
  {
    if |data| == 0 then Failure(IndexError)
    else if exists k :: 0 <= k < |data| && |data[k]| != |data[0]| then Failure(ValueError)
    else Success((|data|, |data[0]|))
  }

  /** The whole reading: the blocks, then the band and k-point counts. */
  function Parse(lines: seq<string>, dec: Decomposer): Result<(seq<Block>, nat, nat)> {
    var data :- ExtractedData(lines, dec);
    var (nband, nkpt) :- Shape(data);
    Success((data, nband, nkpt))
  }

  class FatbandParser {
    var data: Result<seq<Block>>
    var nkpt: nat
    var nband: nat

    /** Reading the lines of a FATBAND file: the blocks and their two counts,
        or the error the reading raises. */
    constructor (lines: seq<string>)
      ensures Parse(lines, CommonRoutines.Decompose).Success? ==>
        var (blocks, nb, nk) := Parse(lines, CommonRoutines.Decompose).value;
        data == Success(blocks) && nband == nb && nkpt == nk
      ensures Parse(lines, CommonRoutines.Decompose).Failure? ==> data == Failure(Parse(lines, CommonRoutines.Decompose).error)
    {
      data, nkpt, nband := Failure(LookupError), 0, 0;
      new;
      ReadData(lines);
    }

    method ReadData(lines: seq<string>)
      modifies this
      ensures Parse(lines, CommonRoutines.Decompose).Success? ==>
        var (blocks, nb, nk) := Parse(lines, CommonRoutines.Decompose).value;
        data == Success(blocks) && nband == nb && nkpt == nk
      ensures Parse(lines, CommonRoutines.Decompose).Failure? ==> data == Failure(Parse(lines, CommonRoutines.Decompose).error)
    {
      var blocks := ExtractData(lines, CommonRoutines.Decompose);
      data := blocks;
      if blocks.Failure? {
        return;
      }
      var shape := Shape(blocks.value);
      if shape.Failure? {
        data := Failure(shape.error);
        return;
      }
      nband, nkpt := shape.value.0, shape.value.1;
    }
  }
}
