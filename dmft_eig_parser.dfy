/** The reader of the `.eig` file written by the DMFT module of ABINIT: a
    metadata header closed by a "For each k-point" line, then one block per
    spin ("For spin"), each holding one block per k-point ("For k-point")
    whose lines carry one float each, stored doubled. */
module DmftEigParser {
  import opened Wrappers
  import opened Strings
  import CommonRoutines

  // ---------------------------------------------------------------------
  // First index from a position on where a predicate holds
  // ---------------------------------------------------------------------

  function FirstAt<T>(xs: seq<T>, from: nat, p: T -> bool): (r: Option<nat>)
    requires from <= |xs|
    ensures r.Some? ==> from <= r.value < |xs| && p(xs[r.value])
    decreases |xs| - from
  {
    if from == |xs| then None
    else if p(xs[from]) then Some(from)
    else FirstAt(xs, from + 1, p)
  }

  /** `n` is not past the first index where `p` holds. */
  predicate Reach<T>(xs: seq<T>, from: nat, p: T -> bool, n: nat)
    requires from <= |xs|
  {
    FirstAt(xs, from, p).None? || n <= FirstAt(xs, from, p).value
  }

  lemma {:induction false} FirstAtBefore<T>(xs: seq<T>, from: nat, p: T -> bool, k: nat)
    requires from <= k < |xs| && (FirstAt(xs, from, p).None? || k < FirstAt(xs, from, p).value)
    ensures !p(xs[k])
    decreases k - from
  {
    if k > from {
      FirstAtBefore(xs, from + 1, p, k);
    }
  }

  lemma FirstAtGrows<T>(xs: seq<T>, from: nat, p: T -> bool, n: nat)
    requires from <= n < |xs| && Reach(xs, from, p, n) && !p(xs[n])
    ensures Reach(xs, from, p, n + 1)
  {
  }

  lemma FirstAtHits<T>(xs: seq<T>, from: nat, p: T -> bool, n: nat)
    requires from <= n < |xs| && Reach(xs, from, p, n) && p(xs[n])
    ensures FirstAt(xs, from, p) == Some(n)
  {
    if FirstAt(xs, from, p) != Some(n) {
      FirstAtBefore(xs, from, p, n);
    }
  }

  // ---------------------------------------------------------------------
  // The k-point block
  // ---------------------------------------------------------------------

  /** A line decomposition: `decompose_line`, which the parser passes as
      `CommonRoutines.Decompose`. */
  type Decomposer = string -> CommonRoutines.Parts

  /** The floats the decomposition finds on each line. */
  function FloatsBy(lines: seq<string>, dec: Decomposer): (fs: seq<seq<real>>)
    ensures |fs| == |lines|
  {
    if |lines| == 0 then []
    else FloatsBy(lines[..|lines| - 1], dec) + [dec(lines[|lines| - 1]).floats]
  }

  lemma {:induction false} FloatsByAt(lines: seq<string>, dec: Decomposer, k: nat)
    requires k < |lines|
    ensures FloatsBy(lines, dec)[k] == dec(lines[k]).floats
  {
    if k < |lines| - 1 {
      FloatsByAt(lines[..|lines| - 1], dec, k);
      assert lines[..|lines| - 1][k] == lines[k];
    }
  }

  predicate HasFloats(f: seq<real>) { |f| > 0 }

  predicate NoFloats(f: seq<real>) { |f| == 0 }

  /** Half the first float of a line; applied only to lines that have one. */
  function Half(f: seq<real>): real {
    if |f| == 0 then 0.0 else f[0] / 2.0
  }

  function Halves(fs: seq<seq<real>>): (r: seq<real>)
    ensures |r| == |fs|
  {
    if |fs| == 0 then [] else Halves(fs[..|fs| - 1]) + [Half(fs[|fs| - 1])]
  }

  /** `_extract_data_per_kpt` by its outcome: the lines with floats that
      follow the leading float-free lines give half their first float each;
      the relative index is that of the first float-free line after them, or
      the last index when there is none. */
  function KptBlock(fs: seq<seq<real>>): (seq<real>, int) {
    match FirstAt(fs, 0, HasFloats)
    case None => ([], |fs| - 1)
    case Some(a) =>
      match FirstAt(fs, a, NoFloats)
      case None => (Halves(fs[a..]), |fs| - 1)
      case Some(b) => (Halves(fs[a..b]), b)
  }

  function KptData(lines: seq<string>, dec: Decomposer): (seq<real>, int) {
    KptBlock(FloatsBy(lines, dec))
  }

  /** Each entry of `Halves` is half the first float of its line. */
  lemma {:induction false} HalvesEach(fs: seq<seq<real>>)
    requires forall k :: 0 <= k < |fs| ==> |fs[k]| > 0
    ensures forall k :: 0 <= k < |fs| ==> Halves(fs)[k] == fs[k][0] / 2.0
  {
    if |fs| > 0 {
      var init := fs[..|fs| - 1];
      HalvesEach(init);
      forall k | 0 <= k < |init| ensures Halves(fs)[k] == Halves(init)[k] && init[k] == fs[k] { }
    }
  }

  /** Conversely: when lines `a` to `b` are the first run of lines with
      floats, ended by a float-free line or by the end, the block is the
      halves of that run, ending at `b` (or at the last index). */
  lemma KptBlockIs(fs: seq<seq<real>>, a: nat, b: nat)
    requires a < b <= |fs|
    requires forall k :: 0 <= k < a ==> NoFloats(fs[k])
    requires forall k :: a <= k < b ==> HasFloats(fs[k])
    requires b == |fs| || NoFloats(fs[b])
    ensures KptBlock(fs) == (Halves(fs[a..b]), if b == |fs| then |fs| - 1 else b)
  {
    FirstAtHits(fs, 0, HasFloats, a);
    if b < |fs| {
      FirstAtHits(fs, a, NoFloats, b);
    } else {
      assert fs[a..b] == fs[a..];
    }
  }

  /** A block without any float gives no value and the last index. */
  lemma KptBlockNone(fs: seq<seq<real>>)
    requires forall k :: 0 <= k < |fs| ==> NoFloats(fs[k])
    ensures KptBlock(fs) == ([], |fs| - 1)
  {
  }

  lemma HalvesOne(fs: seq<seq<real>>, index: nat)
    requires index < |fs|
    ensures Halves(fs[index..index + 1]) == [] + [Half(fs[index])]
  {
    assert fs[index..index + 1][..0] == [];
  }

  lemma HalvesSnoc(fs: seq<seq<real>>, start: nat, index: nat)
    requires start <= index < |fs|
    ensures Halves(fs[start..index + 1]) == Halves(fs[start..index]) + [Half(fs[index])]
  {
    assert fs[start..index + 1][..index - start] == fs[start..index];
  }

  /** What the k-point loop knows after `index` lines: before the first line
      with floats nothing is collected; from that line (`start`) on, every
      line so far has floats and gave half its first float. */
  predicate KptState(fs: seq<seq<real>>, index: nat, blockEnd: bool, start: nat, eigenvalues: seq<real>)
    requires index <= |fs|
  {
    && (!blockEnd ==> Reach(fs, 0, HasFloats, index) && eigenvalues == [])
    && (blockEnd ==>
      && start < index && FirstAt(fs, 0, HasFloats) == Some(start)
      && Reach(fs, start, NoFloats, index) && eigenvalues == Halves(fs[start..index]))
  }

  /** A line with floats extends the block. */
  lemma KptAdvance(fs: seq<seq<real>>, index: nat, blockEnd: bool, start: nat, eigenvalues: seq<real>)
    requires index < |fs| && KptState(fs, index, blockEnd, start, eigenvalues) && HasFloats(fs[index])
    ensures KptState(fs, index + 1, true, if blockEnd then start else index, eigenvalues + [Half(fs[index])])
  {
    if !blockEnd {
      FirstAtHits(fs, 0, HasFloats, index);
      HalvesOne(fs, index);
      FirstAtGrows(fs, index, NoFloats, index);
    } else {
      HalvesSnoc(fs, start, index);
      FirstAtGrows(fs, start, NoFloats, index);
    }
  }

  /** A float-free line is skipped before the block and ends it after. */
  lemma KptStop(fs: seq<seq<real>>, index: nat, blockEnd: bool, start: nat, eigenvalues: seq<real>)
    requires index < |fs| && KptState(fs, index, blockEnd, start, eigenvalues) && NoFloats(fs[index])
    ensures !blockEnd ==> KptState(fs, index + 1, false, start, eigenvalues)
    ensures blockEnd ==> KptBlock(fs) == (eigenvalues, index)
  {
    if !blockEnd {
      FirstAtGrows(fs, 0, HasFloats, index);
    } else {
      FirstAtHits(fs, start, NoFloats, index);
    }
  }

  /** Running out of lines ends the block at the last index. */
  lemma KptOut(fs: seq<seq<real>>, blockEnd: bool, start: nat, eigenvalues: seq<real>)
    requires KptState(fs, |fs|, blockEnd, start, eigenvalues)
    ensures KptBlock(fs) == (eigenvalues, |fs| - 1)
  {
    if blockEnd {
      assert fs[start..|fs|] == fs[start..];
    }
  }

  /** `_extract_data_per_kpt`: float-free lines are skipped until the first
      line with floats; from there each line adds half its first float, until
      the next float-free line. */
  method ExtractDataPerKpt(lines: seq<string>, dec: Decomposer) returns (eigenvalues: seq<real>, relEnd: int)
    ensures (eigenvalues, relEnd) == KptData(lines, dec)
  {
    ghost var fs := FloatsBy(lines, dec);
    eigenvalues := [];
    var blockEnd := false;
    ghost var start: nat := 0;
    for index := 0 to |lines|
      invariant KptState(fs, index, blockEnd, start, eigenvalues)
    {
      var f := dec(lines[index]).floats;
      FloatsByAt(lines, dec, index);
      if |f| == 0 {
        KptStop(fs, index, blockEnd, start, eigenvalues);
        if !blockEnd {
          continue;
        }
        return eigenvalues, index;
      }
      KptAdvance(fs, index, blockEnd, start, eigenvalues);
      start := if blockEnd then start else index;
      blockEnd := true;
      eigenvalues := eigenvalues + [f[0] / 2.0];
    }
    KptOut(fs, blockEnd, start, eigenvalues);
    return eigenvalues, |lines| - 1;
  }

  // ---------------------------------------------------------------------
  // The spin block
  // ---------------------------------------------------------------------

  type KptReader = seq<string> -> (seq<real>, int)

  /** `_extract_data_per_spin` from line `i` on, with the cursor `end`, the
      flag telling whether a k-point was read and the k-points so far. Each
      reader's relative index is added to `end`, not to `i`. */
  function SpinScan(lines: seq<string>, nband: int, kpt: KptReader, i: nat, end: int, blockEnd: bool, data: seq<seq<real>>): Result<(seq<seq<real>>, int)>
    requires i <= |lines|
    decreases |lines| - i
  {
    if i == |lines| then Success((data, |lines| - 1))
    else if i < end then SpinScan(lines, nband, kpt, i + 1, end, blockEnd, data)
    else if Contains(lines[i], "For spin") then
      if !blockEnd then SpinScan(lines, nband, kpt, i + 1, end, blockEnd, data)
      else Success((data, i))
    else if Contains(lines[i], "For k-point") then
      var (eigs, rel) := kpt(lines[i..]);
      if |eigs| != nband then Failure(ValueError)
      else SpinScan(lines, nband, kpt, i + 1, end + rel, true, data + [eigs])
    else SpinScan(lines, nband, kpt, i + 1, end, blockEnd, data)
  }

  /** The k-point reader under a decomposition. */
  function KptOf(dec: Decomposer): KptReader {
    l => KptData(l, dec)
  }

  function SpinData(lines: seq<string>, nband: int, dec: Decomposer): Result<(seq<seq<real>>, int)> {
    SpinScan(lines, nband, KptOf(dec), 0, 0, false, [])
  }

  /** `_extract_data_per_spin`: the block's own "For spin" line is passed
      over; each "For k-point" line not skipped reads a k-point block, which
      must hold `nband` values; the next "For spin" line after a k-point ends
      the block. */
  method ExtractDataPerSpin(lines: seq<string>, nband: int, dec: Decomposer) returns (r: Result<(seq<seq<real>>, int)>)
    ensures r == SpinData(lines, nband, dec)
  {
    var data := [];
    var end := 0;
    var blockEnd := false;
    for i := 0 to |lines|
      invariant SpinData(lines, nband, dec) == SpinScan(lines, nband, KptOf(dec), i, end, blockEnd, data)
    {
      if i < end {
        continue;
      }
      if Contains(lines[i], "For spin") {
        if !blockEnd {
          continue;
        }
        return Success((data, i));
      }
      if Contains(lines[i], "For k-point") {
        var eigenvalues, relEnd := ExtractDataPerKpt(lines[i..], dec);
        if |eigenvalues| != nband {
          return Failure(ValueError);
        }
        blockEnd := true;
        data := data + [eigenvalues];
        end := end + relEnd;
      }
    }
    return Success((data, |lines| - 1));
  }

  /** Every k-point a spin block collects holds exactly `nband` values. */
  predicate Banded(data: seq<seq<real>>, nband: int) {
    forall k :: 0 <= k < |data| ==> |data[k]| == nband
  }

  lemma {:induction false} SpinBands(lines: seq<string>, nband: int, kpt: KptReader, i: nat, end: int, blockEnd: bool, data: seq<seq<real>>)
    requires i <= |lines| && Banded(data, nband)
    ensures SpinScan(lines, nband, kpt, i, end, blockEnd, data).Success? ==>
      Banded(SpinScan(lines, nband, kpt, i, end, blockEnd, data).value.0, nband)
    decreases |lines| - i
  {
    if i < |lines| {
      if Contains(lines[i], "For k-point") && !(i < end) && !Contains(lines[i], "For spin") {
        var (eigs, rel) := kpt(lines[i..]);
        if |eigs| == nband {
          SpinBands(lines, nband, kpt, i + 1, end + rel, true, data + [eigs]);
        }
      } else {
        SpinBands(lines, nband, kpt, i + 1, end, blockEnd, data);
      }
    }
  }

  /** The relative index a spin block returns is that of a "For spin" line
      read after some k-point, or the last index. */
  lemma {:induction false} SpinEnds(lines: seq<string>, nband: int, kpt: KptReader, i: nat, end: int, blockEnd: bool, data: seq<seq<real>>)
    requires i <= |lines| && (blockEnd ==> |data| > 0)
    ensures var r := SpinScan(lines, nband, kpt, i, end, blockEnd, data);
      r.Success? ==> r.value.1 == |lines| - 1 || (i <= r.value.1 < |lines| && Contains(lines[r.value.1], "For spin") && |r.value.0| > 0)
    decreases |lines| - i
  {
    if i < |lines| {
      if !(i < end) && Contains(lines[i], "For spin") {
        if !blockEnd {
          SpinEnds(lines, nband, kpt, i + 1, end, blockEnd, data);
        }
      } else if !(i < end) && Contains(lines[i], "For k-point") {
        var (eigs, rel) := kpt(lines[i..]);
        if |eigs| == nband {
          SpinEnds(lines, nband, kpt, i + 1, end + rel, true, data + [eigs]);
        }
      } else {
        SpinEnds(lines, nband, kpt, i + 1, end, blockEnd, data);
      }
    }
  }

  // ---------------------------------------------------------------------
  // The body: one block per spin
  // ---------------------------------------------------------------------

  /** The eigenvalues of the file: with one spin, the k-point by band table
      itself; otherwise one such table per spin. */
  datatype Eigenvalues = OneSpin(kpts: seq<seq<real>>) | Spins(spins: seq<seq<seq<real>>>)

  /** The loop of `_extract_data` from line `i` on: each "For spin" line not
      skipped reads a spin block, which must hold `nkpt` k-points; its
      relative index is added to the cursor `end`. */
  function DataScan(body: seq<string>, nkpt: int, nband: int, dec: Decomposer, i: nat, end: int, data: seq<seq<seq<real>>>): Result<seq<seq<seq<real>>>>
    requires i <= |body|
    decreases |body| - i
  {
    if i == |body| then Success(data)
    else if i < end then DataScan(body, nkpt, nband, dec, i + 1, end, data)
    else if Contains(body[i], "For spin") then
      match SpinData(body[i..], nband, dec)
      case Failure(e) => Failure(e)
      case Success(spin) =>
        if |spin.0| != nkpt then Failure(ValueError)
        else DataScan(body, nkpt, nband, dec, i + 1, end + spin.1, data + [spin.0])
    else DataScan(body, nkpt, nband, dec, i + 1, end, data)
  }

  /** `_extract_data`: the spin blocks, their number checked against
      `nspins` by an assertion, a single one returned on its own. */
  function ExtractedData(body: seq<string>, nkpt: int, nspins: int, nband: int, dec: Decomposer): Result<Eigenvalues> {
    match DataScan(body, nkpt, nband, dec, 0, 0, [])
    case Failure(e) => Failure(e)
    case Success(data) =>
      if |data| != nspins then Failure(AssertionError)
      else if |data| == 1 then Success(OneSpin(data[0]))
      else Success(Spins(data))
  }

  method ExtractDataLoop(body: seq<string>, nkpt: int, nspins: int, nband: int, dec: Decomposer) returns (r: Result<Eigenvalues>)
    ensures r == ExtractedData(body, nkpt, nspins, nband, dec)
  {
    var data := [];
    var end := 0;
    for i := 0 to |body|
      invariant DataScan(body, nkpt, nband, dec, 0, 0, []) == DataScan(body, nkpt, nband, dec, i, end, data)
    {
      if i < end {
        continue;
      }
      if Contains(body[i], "For spin") {
        var spin := ExtractDataPerSpin(body[i..], nband, dec);
        if spin.Failure? {
          return Failure(spin.error);
        }
        var (dataPerSpin, relEnd) := spin.value;
        if |dataPerSpin| != nkpt {
          return Failure(ValueError);
        }
        data := data + [dataPerSpin];
        end := end + relEnd;
      }
    }
    if |data| != nspins {
      return Failure(AssertionError);
    }
    if |data| == 1 {
      return Success(OneSpin(data[0]));
    }
    return Success(Spins(data));
  }

  /** Every spin block collected holds `nkpt` k-points of `nband` values. */
  predicate Tabled(data: seq<seq<seq<real>>>, nkpt: int, nband: int) {
    forall s :: 0 <= s < |data| ==> |data[s]| == nkpt && Banded(data[s], nband)
  }

  lemma {:induction false} DataTables(body: seq<string>, nkpt: int, nband: int, dec: Decomposer, i: nat, end: int, data: seq<seq<seq<real>>>)
    requires i <= |body| && Tabled(data, nkpt, nband)
    ensures DataScan(body, nkpt, nband, dec, i, end, data).Success? ==>
      Tabled(DataScan(body, nkpt, nband, dec, i, end, data).value, nkpt, nband)
    decreases |body| - i
  {
    if i < |body| {
      if !(i < end) && Contains(body[i], "For spin") {
        var r := SpinData(body[i..], nband, dec);
        if r.Success? && |r.value.0| == nkpt {
          SpinBands(body[i..], nband, KptOf(dec), 0, 0, false, []);
          DataTables(body, nkpt, nband, dec, i + 1, end + r.value.1, data + [r.value.0]);
        }
      } else {
        DataTables(body, nkpt, nband, dec, i + 1, end, data);
      }
    }
  }

  /** A successful extraction has the shape the header announces: a single
      nkpt x nband table when there is one spin, else `nspins` of them. */
  lemma ExtractedShape(body: seq<string>, nkpt: int, nspins: int, nband: int, dec: Decomposer)
    ensures match ExtractedData(body, nkpt, nspins, nband, dec)
      case Failure(_) => true
      case Success(OneSpin(kpts)) => nspins == 1 && |kpts| == nkpt && Banded(kpts, nband)
      case Success(Spins(spins)) => nspins != 1 && |spins| == nspins && Tabled(spins, nkpt, nband)
  {
    DataTables(body, nkpt, nband, dec, 0, 0, []);
  }

  // ---------------------------------------------------------------------
  // Header and metadata
  // ---------------------------------------------------------------------

  predicate IsHeaderEnd(line: string) {
    Contains(line, "For each k-point")
  }

  /** `_strip_header` by its outcome: the body after the first "For each
      k-point" line and the header up to and including it, or LookupError. */
  function HeaderSplit(lines: seq<string>): Result<(seq<string>, seq<string>)> {
    match FirstWhere(lines, IsHeaderEnd)
    case None => Failure(LookupError)
    case Some(i) => Success((lines[i + 1..], lines[..i + 1]))
  }

  method StripHeader(lines: seq<string>) returns (r: Result<(seq<string>, seq<string>)>)
    ensures r == HeaderSplit(lines)
  {
    for i := 0 to |lines|
      invariant forall j :: 0 <= j < i ==> !IsHeaderEnd(lines[j])
    {
      if Contains(lines[i], "For each k-point") {
        FirstWhereIs(lines, IsHeaderEnd, i);
        return Success((lines[i + 1..], lines[..i + 1]));
      }
    }
    FirstWhereNone(lines, IsHeaderEnd);
    return Failure(LookupError);
  }

  /** The header and body together are the lines, and the header ends at the
      first "For each k-point" line; the split fails exactly when there is
      no such line. */
  lemma HeaderSplitShape(lines: seq<string>)
    ensures HeaderSplit(lines).Failure? <==> forall j :: 0 <= j < |lines| ==> !IsHeaderEnd(lines[j])
    ensures HeaderSplit(lines).Success? ==>
      var (body, header) := HeaderSplit(lines).value;
      && header + body == lines && |header| > 0 && IsHeaderEnd(header[|header| - 1])
      && forall j :: 0 <= j < |header| - 1 ==> !IsHeaderEnd(header[j])
  {
    FirstWhereFirst(lines, IsHeaderEnd);
    if FirstWhere(lines, IsHeaderEnd).Some? {
      var i := FirstWhere(lines, IsHeaderEnd).value;
      assert lines[..i + 1] + lines[i + 1..] == lines;
    }
  }

  datatype Meta = Meta(nbandtot: int, nspins: int, nkpt: int, bandFirst: int, bandLast: int) {
    /** The number of bands the DMFT treats. */
    function NBand(): int { bandLast - bandFirst + 1 }
  }

  /** `_extract_meta_data` by its outcome: the integers on the second header
      line give the total band count, the spin count and the k-point count
      (first three) and the band range (last two); too few lines or integers
      is an IndexError. */
  function MetaData(header: seq<string>, dec: Decomposer): Result<Meta> {
    if |header| < 2 then Failure(IndexError)
    else
      var ints := dec(Strip(header[1], {'\n'})).ints;
      if |ints| < 3 then Failure(IndexError)
      else Success(Meta(ints[0], ints[1], ints[2], ints[|ints| - 2], ints[|ints| - 1]))
  }

  /** The whole reading: header, metadata, then the eigenvalues. */
  function Parse(lines: seq<string>, dec: Decomposer): Result<(Meta, Eigenvalues)> {
    var split :- HeaderSplit(lines);
    var meta :- MetaData(split.1, dec);
    var eigenvalues :- ExtractedData(split.0, meta.nkpt, meta.nspins, meta.NBand(), dec);
    Success((meta, eigenvalues))
  }

  /** The parser object: the metadata fields `_extract_meta_data` sets and
      the data read from the lines. */
  class DMFTEigParser {
    var nkpt: int
    var nbandtot: int
    var nspins: int
    var dmftbandi: int
    var dmftbandf: int
    var nband: int
    var data: Result<Eigenvalues>

    /** The fields hold `meta`. */
    predicate Holds(meta: Meta)
      reads this
    {
      nkpt == meta.nkpt && nbandtot == meta.nbandtot && nspins == meta.nspins
      && dmftbandi == meta.bandFirst && dmftbandf == meta.bandLast && nband == meta.NBand()
    }

    /** Reading the lines of a `.eig` file: the data is what `Parse` gives,
        and after a successful read the fields hold the metadata. */
    constructor (lines: seq<string>)
      ensures Parse(lines, CommonRoutines.Decompose).Success? ==>
        data == Success(Parse(lines, CommonRoutines.Decompose).value.1) && Holds(Parse(lines, CommonRoutines.Decompose).value.0)
      ensures Parse(lines, CommonRoutines.Decompose).Failure? ==> data == Failure(Parse(lines, CommonRoutines.Decompose).error)
    {
      data := Failure(LookupError);
      new;
      data := ReadData(lines);
    }

    /** `_read_data_from_file` after the lines are read. */
    method ReadData(lines: seq<string>) returns (r: Result<Eigenvalues>)
      modifies this
      ensures Parse(lines, CommonRoutines.Decompose).Success? ==>
        r == Success(Parse(lines, CommonRoutines.Decompose).value.1) && Holds(Parse(lines, CommonRoutines.Decompose).value.0)
      ensures Parse(lines, CommonRoutines.Decompose).Failure? ==> r == Failure(Parse(lines, CommonRoutines.Decompose).error)
    {
      var split := StripHeader(lines);
      if split.Failure? {
        return Failure(split.error);
      }
      var (body, header) := split.value;
      var meta := ExtractMetaData(header);
      if meta.Failure? {
        return Failure(meta.error);
      }
      r := ExtractDataLoop(body, nkpt, nspins, nband, CommonRoutines.Decompose);
    }

    /** `_extract_meta_data`: on success all six fields are set from the
        second header line; on an IndexError none is. */
    method ExtractMetaData(header: seq<string>) returns (r: Result<()>)
      modifies this
      ensures r.Success? <==> MetaData(header, CommonRoutines.Decompose).Success?
      ensures r.Success? ==> Holds(MetaData(header, CommonRoutines.Decompose).value) && data == old(data)
      ensures r.Failure? ==> r.error == IndexError && unchanged(this)
    {
      if |header| < 2 {
        return Failure(IndexError);
      }
      var line := Strip(header[1], {'\n'});
      var s, i, f := CommonRoutines.DecomposeLine(line);
      if |i| < 3 {
        return Failure(IndexError);
      }
      nkpt := i[2];
      nbandtot := i[0];
      nspins := i[1];
      dmftbandi := i[|i| - 2];
      dmftbandf := i[|i| - 1];
      nband := dmftbandf - dmftbandi + 1;
      return Success(());
    }
  }
}
