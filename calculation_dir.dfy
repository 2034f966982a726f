/** A calculation directory: the files file and the input file it holds, its
    status, and whether the calculation in it converged, read from the end
    of its output file. */
module CalculationDir {
  import opened Wrappers
  import opened Strings
  import Routines
  import StatusCheckers
  import FilesFileParser

  // ---------------------------------------------------------------------
  // is_calculation_dir
  // ---------------------------------------------------------------------

  const InputEnding: string := ".in"

  /** The comprehension of `is_calculation_dir`: the names of the entries
      that are files, in listing order. */
  function FileNames(es: seq<Routines.Entry>): (r: seq<string>)
    ensures |r| <= |es|
  {
    if |es| == 0 then []
    else (if es[0].File? then [es[0].name] else []) + FileNames(es[1..])
  }

  lemma {:induction false} FileNamesMembers(es: seq<Routines.Entry>, n: string)
    ensures n in FileNames(es) <==> Routines.File(n) in es
  {
    if |es| > 0 {
      FileNamesMembers(es[1..], n);
      assert es == [es[0]] + es[1..];
    }
  }

  /** Some file listed in the directory has a name ending in ".in". */
  predicate HasInputFile(es: seq<Routines.Entry>) {
    exists e :: e in es && e.File? && EndsWith(e.name, InputEnding)
  }

  /** `is_calculation_dir` on what the path names, None when it names
      nothing: anything but a directory is a NotADirectoryError; a
      directory is a calculation directory when it holds an input file. */
  function IsCalculationDirOf(node: Option<Routines.Entry>): (r: Result<bool>)
    ensures r.Failure? <==> !(node.Some? && node.value.Dir?)
    ensures r.Failure? ==> r.error == NotADirectoryError
    ensures r.Success? ==> (r.value <==> HasInputFile(node.value.entries))
  {
    if node.None? || !node.value.Dir? then Failure(NotADirectoryError)
    else Success(HasInputFile(node.value.entries))
  }

  /** The loop of `is_calculation_dir` over the file names. */
  method IsCalculationDir(node: Option<Routines.Entry>) returns (r: Result<bool>)
    ensures r == IsCalculationDirOf(node)
  {
    if node.None? || !node.value.Dir? {
      return Failure(NotADirectoryError);
    }
    var entries := node.value.entries;
    var files := FileNames(entries);
    for k := 0 to |files|
      invariant forall j :: 0 <= j < k ==> !EndsWith(files[j], InputEnding)
    {
      if EndsWith(files[k], InputEnding) {
        FileNamesMembers(entries, files[k]);
        assert Routines.File(files[k]) in entries;
        return Success(true);
      }
    }
    forall e | e in entries && e.File?
      ensures !EndsWith(e.name, InputEnding)
    {
      FileNamesMembers(entries, e.name);
    }
    return Success(false);
  }

  // ---------------------------------------------------------------------
  // The convergence scan
  // ---------------------------------------------------------------------

  /** A line holds one of the two keywords. */
  predicate Mentions(line: string, conv: string, nonconv: string) {
    Contains(line, conv) || Contains(line, nonconv)
  }

  /** The reverse loop of `_dig_output_for_convergence` over the first `k`
      lines: the converged keyword is tested first, then the other; with
      neither anywhere the answer is False. */
  function VerdictScan(lines: seq<string>, conv: string, nonconv: string, k: nat): bool
    requires k <= |lines|
  {
    if k == 0 then false
    else if Contains(lines[k - 1], conv) then true
    else if Contains(lines[k - 1], nonconv) then false
    else VerdictScan(lines, conv, nonconv, k - 1)
  }

  function Verdict(lines: seq<string>, conv: string, nonconv: string): bool {
    VerdictScan(lines, conv, nonconv, |lines|)
  }

  /** No line from `j` up to `k` holds either keyword. */
  predicate SilentBetween(lines: seq<string>, conv: string, nonconv: string, j: nat, k: nat)
    requires k <= |lines|
  {
    forall i :: j <= i < k ==> !Mentions(lines[i], conv, nonconv)
  }

  /** Line `j` holds the converged keyword and no later line of the first
      `k` holds either keyword. */
  predicate LastSays(lines: seq<string>, conv: string, nonconv: string, j: nat, k: nat)
    requires k <= |lines|
  {
    j < k && Contains(lines[j], conv) && SilentBetween(lines, conv, nonconv, j + 1, k)
  }

  lemma {:induction false} VerdictScanIs(lines: seq<string>, conv: string, nonconv: string, k: nat)
    requires k <= |lines|
    ensures VerdictScan(lines, conv, nonconv, k) <==> exists j: nat :: LastSays(lines, conv, nonconv, j, k)
  {
    if k > 0 {
      VerdictScanIs(lines, conv, nonconv, k - 1);
      if Contains(lines[k - 1], conv) {
        assert LastSays(lines, conv, nonconv, k - 1, k);
      } else {
        if exists j: nat :: LastSays(lines, conv, nonconv, j, k) {
          var j: nat :| LastSays(lines, conv, nonconv, j, k);
          assert j != k - 1;
          assert LastSays(lines, conv, nonconv, j, k - 1);
        }
        if !Contains(lines[k - 1], nonconv) && VerdictScan(lines, conv, nonconv, k - 1) {
          var j: nat :| LastSays(lines, conv, nonconv, j, k - 1);
          assert !Mentions(lines[k - 1], conv, nonconv);
          assert LastSays(lines, conv, nonconv, j, k);
        }
      }
    }
  }

  /** The last line holding either keyword decides: the calculation counts as
      converged exactly when that line holds the converged keyword. */
  lemma VerdictIs(lines: seq<string>, conv: string, nonconv: string)
    ensures Verdict(lines, conv, nonconv) <==> exists j: nat :: LastSays(lines, conv, nonconv, j, |lines|)
  {
    VerdictScanIs(lines, conv, nonconv, |lines|);
  }

  /** An output file without either keyword does not count as converged. */
  lemma SilentNotConverged(lines: seq<string>, conv: string, nonconv: string)
    requires SilentBetween(lines, conv, nonconv, 0, |lines|)
    ensures !Verdict(lines, conv, nonconv)
  {
    VerdictIs(lines, conv, nonconv);
    forall j: nat | j < |lines|
      ensures !LastSays(lines, conv, nonconv, j, |lines|)
    {
      assert !Mentions(lines[j], conv, nonconv);
    }
  }

  /** Lines after the last mention do not change the verdict. */
  lemma {:induction false} SilentTailIgnored(lines: seq<string>, tail: seq<string>, conv: string, nonconv: string)
    requires SilentBetween(tail, conv, nonconv, 0, |tail|)
    ensures Verdict(lines + tail, conv, nonconv) == Verdict(lines, conv, nonconv)
    decreases |tail|
  {
    if |tail| > 0 {
      var n := |tail| - 1;
      var all := lines + tail;
      assert all[|all| - 1] == tail[n];
      assert !Mentions(tail[n], conv, nonconv);
      assert (lines + tail[..n])[..|lines| + n] == all[..|all| - 1];
      SilentTailIgnored(lines, tail[..n], conv, nonconv);
      ScanPrefix(all, lines + tail[..n], conv, nonconv, |lines| + n);
    } else {
      assert lines + tail == lines;
    }
  }

  /** The scan over the first `k` lines depends on those lines only. */
  lemma {:induction false} ScanPrefix(a: seq<string>, b: seq<string>, conv: string, nonconv: string, k: nat)
    requires k <= |a| && k <= |b| && a[..k] == b[..k]
    ensures VerdictScan(a, conv, nonconv, k) == VerdictScan(b, conv, nonconv, k)
  {
    if k > 0 {
      assert a[k - 1] == a[..k][k - 1] == b[..k][k - 1] == b[k - 1];
      assert a[..k - 1] == a[..k][..k - 1] && b[..k - 1] == b[..k][..k - 1];
      ScanPrefix(a, b, conv, nonconv, k - 1);
    }
  }

  /** The reverse loop itself. */
  method DigOutputForConvergence(lines: seq<string>, conv: string, nonconv: string) returns (r: bool)
    ensures r == Verdict(lines, conv, nonconv)
  {
    var k: nat := |lines|;
    while k > 0
      invariant k <= |lines|
      invariant Verdict(lines, conv, nonconv) == VerdictScan(lines, conv, nonconv, k)
    {
      if Contains(lines[k - 1], conv) {
        return true;
      } else if Contains(lines[k - 1], nonconv) {
        return false;
      }
      k := k - 1;
    }
    return false;
  }

  /** The keywords of a relaxation (`ionmov > 0`) and of a ground state. */
  const GradientsConverged: string := "gradients are converged"
  const GradientsNotConverged: string := "not enough Broyd/MD steps to converge gradients"
  const ScfConverged: string := "converged"
  const ScfNotConverged: string := "not enough SCF cycles to converge"

  /** `is_calculation_converged` once the output parser `output` is asked
      for and `iscf` and `ionmov` are read from it: an output that cannot be
      had for a LookupError gives False; a non-self-consistent run
      (`iscf < 0`) is a ValueError; a relaxation is judged on the gradient
      keywords and anything else on the SCF keywords. */
  function ConvergedFrom(output: Result<string>, iscf: int, ionmov: Option<int>, lines: seq<string>): (r: Result<bool>)
    ensures output.Failure? && output.error == LookupError ==> r == Success(false)
    ensures output.Success? ==> (r.Failure? <==> iscf < 0)
    ensures r.Failure? ==> r.error == (if output.Success? then ValueError else output.error)
    ensures output.Success? && iscf >= 0 && ionmov.Some? && ionmov.value > 0 ==>
              r == Success(Verdict(lines, GradientsConverged, GradientsNotConverged))
    ensures output.Success? && iscf >= 0 && (ionmov.None? || ionmov.value <= 0) ==>
              r == Success(Verdict(lines, ScfConverged, ScfNotConverged))
  {
    if output.Failure? then
      if output.error == LookupError then Success(false) else Failure(output.error)
    else if iscf < 0 then Failure(ValueError)
    else
      var moves := if ionmov.Some? then ionmov.value else 0;
      if moves > 0 then Success(Verdict(lines, GradientsConverged, GradientsNotConverged))
      else Success(Verdict(lines, ScfConverged, ScfNotConverged))
  }

  /** A ground-state line reporting converged gradients also holds
      "converged": the SCF keyword matches inside the gradient one. */
  lemma GradientLineCountsForScf(line: string)
    requires Contains(line, GradientsConverged)
    ensures Contains(line, ScfConverged)
  {
    assert GradientsConverged[14..] == ScfConverged;
    ContainsSuffix(line, GradientsConverged, 14);
  }

  /** A string holding `sub` holds every piece of `sub` from `i` on. */
  lemma {:induction false} ContainsSuffix(s: string, sub: string, i: nat)
    requires i <= |sub| && Contains(s, sub)
    ensures Contains(s, sub[i..])
  {
    if StartsWith(s, sub) {
      StartsShifted(s, sub, i);
    } else {
      ContainsSuffix(s[1..], sub, i);
      ContainsTail(s, sub[i..]);
    }
  }

  lemma {:induction false} StartsShifted(s: string, sub: string, i: nat)
    requires i <= |sub| && StartsWith(s, sub)
    ensures Contains(s, sub[i..])
    decreases i
  {
    if i == 0 {
      assert sub[0..] == sub;
      StartsWithContains(s, sub);
    } else {
      assert s[1..][..|sub| - 1] == sub[1..];
      assert sub[1..][i - 1..] == sub[i..];
      StartsShifted(s[1..], sub[1..], i - 1);
      ContainsTail(s, sub[i..]);
    }
  }

  lemma ContainsTail(s: string, sub: string)
    requires |s| > 0 && Contains(s[1..], sub)
    ensures Contains(s, sub)
  {
  }

  // ---------------------------------------------------------------------
  // The directory
  // ---------------------------------------------------------------------

  /** The searches of `__init__`: the single files file and the single input
      file in the tree. */
  const FilesCriteria: Routines.Criteria := Routines.Criteria(None, None, "", ".files")
  const InputCriteria: Routines.Criteria := Routines.Criteria(None, None, "", InputEnding)

  /** What `__init__` finds. */
  datatype Located = Located(filesfile: FilesFileParser.FilesFile, inputfile: string)

  /** `__init__` on the directory `directory`, which names `node`, with
      `read` giving the lines of each file: not a directory, or one without
      an input file among its own entries, fails; otherwise the tree below
      must hold exactly one files file, which must parse, and exactly one
      input file. */
  function Locate(directory: string, node: Option<Routines.Entry>, ignore: seq<string>,
                  read: string -> seq<string>): (r: Result<Located>)
    ensures !(node.Some? && node.value.Dir?) ==> r == Failure(NotADirectoryError)
    ensures node.Some? && node.value.Dir? && !HasInputFile(node.value.entries) ==> r == Failure(FileNotFoundError)
    ensures r.Success? ==>
              var files := Routines.AllSubfiles(directory, node.value.entries, ignore);
              Routines.Selected(files, InputCriteria) == [r.value.inputfile] &&
              |Routines.Selected(files, FilesCriteria)| == 1 &&
              FilesFileParser.GetData(read(Routines.Selected(files, FilesCriteria)[0])) == Success(r.value.filesfile)
  {
    var isdir :- IsCalculationDirOf(node);
    if !isdir then Failure(FileNotFoundError)
    else
      var files := Routines.AllSubfiles(directory, node.value.entries, ignore);
      var filesfiles :- Routines.Search(files, FilesCriteria, Some(1));
      var data :- FilesFileParser.GetData(read(filesfiles[0]));
      var inputs :- Routines.Search(files, InputCriteria, Some(1));
      Success(Located(data, inputs[0]))
  }

  /** The output file of a finished calculation is the one its files file
      names: a cached parser is returned as it is; otherwise a status that
      cannot be had, or a calculation not finished, is a LookupError. */
  function OutputFor(cache: Option<string>, status: Result<StatusCheckers.Status>, outputPath: string): (r: Result<string>)
    ensures cache.Some? ==> r == Success(cache.value)
    ensures cache.None? ==> (r.Success? <==> status.Success? && status.value.finished == Some(true))
    ensures cache.None? && r.Success? ==> r.value == outputPath
    ensures r.Failure? ==> r.error == (if status.Failure? then status.error else LookupError)
  {
    if cache.Some? then Success(cache.value)
    else if status.Failure? then Failure(status.error)
    else if status.value.finished != Some(true) then Failure(LookupError)
    else Success(outputPath)
  }

  /** Every error on the way to the output file is a LookupError, so an
      unfinished or unreadable calculation never counts as converged. */
  lemma UnfinishedNotConverged(directory: string, listing: seq<Routines.Entry>, ignore: seq<string>,
                               read: string -> seq<string>, outputPath: string, iscf: int, ionmov: Option<int>,
                               lines: seq<string>)
    requires OutputFor(None, StatusCheckers.DirectoryStatus(directory, listing, ignore, read), outputPath).Failure?
    ensures ConvergedFrom(OutputFor(None, StatusCheckers.DirectoryStatus(directory, listing, ignore, read), outputPath),
                          iscf, ionmov, lines) == Success(false)
  {
  }

  class CalculationDir {
    const path: string
    const listing: seq<Routines.Entry>
    const ignore: seq<string>
    const read: string -> seq<string>
    const filesfile: FilesFileParser.FilesFile
    const inputfile: string
    /** The output parser once made, named by the file it reads. */
    var outputfile: Option<string>

    constructor (path: string, listing: seq<Routines.Entry>, ignore: seq<string>,
                 read: string -> seq<string>, found: Located)
      ensures this.path == path && this.listing == listing && this.ignore == ignore && this.read == read
      ensures filesfile == found.filesfile && inputfile == found.inputfile
      ensures outputfile == None
    {
      this.path := path;
      this.listing := listing;
      this.ignore := ignore;
      this.read := read;
      filesfile := found.filesfile;
      inputfile := found.inputfile;
      outputfile := None;
    }

    /** The `status` property: a fresh status checker each time. */
    function Status(): Result<StatusCheckers.Status> {
      StatusCheckers.DirectoryStatus(path, listing, ignore, read)
    }

    method GetStatus() returns (s: Result<StatusCheckers.Status>)
      ensures s == Status()
    {
      var checker := new StatusCheckers.StatusChecker(path, listing, ignore, read);
      s := checker.status;
    }

    /** The `outputfile` property, which makes the parser once and keeps it. */
    method OutputFile() returns (r: Result<string>)
      modifies this
      ensures r == OutputFor(old(outputfile), Status(), filesfile.outputPath)
      ensures outputfile == if r.Success? then Some(r.value) else old(outputfile)
    {
      if outputfile.Some? {
        return Success(outputfile.value);
      }
      var status := GetStatus();
      if status.Failure? {
        return Failure(status.error);
      }
      if status.value.finished != Some(true) {
        return Failure(LookupError);
      }
      outputfile := Some(filesfile.outputPath);
      return Success(filesfile.outputPath);
    }

    /** `_dig_output_for_convergence` on the output file the files file
        names. */
    method DigOutput(conv: string, nonconv: string) returns (r: bool)
      ensures r == Verdict(read(filesfile.outputPath), conv, nonconv)
    {
      r := DigOutputForConvergence(read(filesfile.outputPath), conv, nonconv);
    }

    /** `is_calculation_converged`, with `iscf` and `ionmov` the values the
        output parser extracts. */
    method IsCalculationConverged(iscf: int, ionmov: Option<int>) returns (r: Result<bool>)
      modifies this
      ensures r == ConvergedFrom(OutputFor(old(outputfile), Status(), filesfile.outputPath), iscf, ionmov,
                                 read(filesfile.outputPath))
      ensures outputfile == if old(outputfile).Some? then old(outputfile)
                            else if OutputFor(None, Status(), filesfile.outputPath).Success? then Some(filesfile.outputPath)
                            else None
    {
      var out := OutputFile();
      if out.Failure? {
        if out.error == LookupError {
          return Success(false);
        }
        return Failure(out.error);
      }
      if iscf < 0 {
        return Failure(ValueError);
      }
      var moves := if ionmov.Some? then ionmov.value else 0;
      var verdict: bool;
      if moves > 0 {
        verdict := DigOutput(GradientsConverged, GradientsNotConverged);
      } else {
        verdict := DigOutput(ScfConverged, ScfNotConverged);
      }
      return Success(verdict);
    }
  }

  /** `CalculationDir(directory, ignore)`: the checks and searches of
      `__init__`, then a directory with no output parser yet. */
  method Open(directory: string, node: Option<Routines.Entry>, ignore: seq<string>, read: string -> seq<string>)
    returns (r: Result<CalculationDir>)
    ensures r.Failure? <==> Locate(directory, node, ignore, read).Failure?
    ensures r.Failure? ==> r.error == Locate(directory, node, ignore, read).error
    ensures r.Success? ==> fresh(r.value) && r.value.path == directory && r.value.listing == node.value.entries
    ensures r.Success? ==> r.value.filesfile == Locate(directory, node, ignore, read).value.filesfile
    ensures r.Success? ==> r.value.inputfile == Locate(directory, node, ignore, read).value.inputfile
    ensures r.Success? ==> r.value.ignore == ignore && r.value.read == read && r.value.outputfile == None
  {
    var isdir := IsCalculationDir(node);
    if isdir.Failure? {
      return Failure(isdir.error);
    }
    if !isdir.value {
      return Failure(FileNotFoundError);
    }
    var listing := node.value.entries;
    var filesfiles := Routines.SearchInAllSubdirs(directory, listing, ignore, FilesCriteria, Some(1));
    if filesfiles.Failure? {
      return Failure(filesfiles.error);
    }
    var parser := new FilesFileParser.FilesFileParser(read(filesfiles.value[0]));
    if parser.data.Failure? {
      return Failure(parser.data.error);
    }
    var inputs := Routines.SearchInAllSubdirs(directory, listing, ignore, InputCriteria, Some(1));
    if inputs.Failure? {
      return Failure(inputs.error);
    }
    var d := new CalculationDir(directory, listing, ignore, read, Located(parser.data.value, inputs.value[0]));
    return Success(d);
  }
}
