/** The status of a calculation directory: whether the calculation started
    and finished, read from its log file or else its output file. */
module StatusCheckers {
  import opened Wrappers
  import opened Strings
  import Routines

  /** The status dictionary. `finished` is None where the source stores
      Python's None. */
  datatype Status = Status(path: string, name: string, started: bool, finished: Option<bool>)

  const CompletedKeyword: string := "Calculation completed."

  /** How many lines from the end the completion scan examines. */
  const ScanLimit: nat := 200

  // ---------------------------------------------------------------------
  // The completion scan
  // ---------------------------------------------------------------------

  /** `_get_status_from_file` from position `i` of the reversed lines: the
      loop ends without a value when the lines run out; at position 200 it
      gives False; a line holding "Calculation completed." gives True. */
  function CompletionScan(lines: seq<string>, i: nat): Option<bool>
    requires i <= |lines|
    decreases |lines| - i
  {
    if i == |lines| then None
    else if i == ScanLimit then Some(false)
    else if Contains(lines[|lines| - 1 - i], CompletedKeyword) then Some(true)
    else CompletionScan(lines, i + 1)
  }

  function FileStatus(lines: seq<string>): Option<bool> {
    CompletionScan(lines, 0)
  }

  /** The number of lines the scan can examine. */
  function Window(lines: seq<string>): nat {
    if |lines| < ScanLimit then |lines| else ScanLimit
  }

  /** Position `j` of the reversed lines holds the keyword. */
  predicate CompletedAt(lines: seq<string>, j: nat) {
    j < |lines| && Contains(lines[|lines| - 1 - j], CompletedKeyword)
  }

  /** Some line at position `i` or later of the reversed lines, and within
      the window, holds the keyword. */
  predicate CompletedFrom(lines: seq<string>, i: nat) {
    exists j: nat :: i <= j < Window(lines) && CompletedAt(lines, j)
  }

  lemma {:induction false} CompletionScanIs(lines: seq<string>, i: nat)
    requires i <= Window(lines)
    ensures CompletionScan(lines, i) == Some(true) <==> CompletedFrom(lines, i)
    ensures CompletionScan(lines, i) == Some(false) <==> !CompletedFrom(lines, i) && |lines| > ScanLimit
    ensures CompletionScan(lines, i) == None <==> !CompletedFrom(lines, i) && |lines| <= ScanLimit
    decreases |lines| - i
  {
    if i < Window(lines) {
      CompletionScanIs(lines, i + 1);
      if CompletedAt(lines, i) {
        assert CompletedFrom(lines, i);
      }
      if CompletedFrom(lines, i) {
        var j: nat :| i <= j < Window(lines) && CompletedAt(lines, j);
        if j > i {
          assert CompletedFrom(lines, i + 1);
        }
      }
      if CompletedFrom(lines, i + 1) {
        var j: nat :| i + 1 <= j < Window(lines) && CompletedAt(lines, j);
        assert i <= j;
      }
    }
  }

  /** The file counts as finished exactly when one of its last 200 lines
      holds the keyword; without it, a file of more than 200 lines is
      unfinished and a shorter one gives None. */
  lemma FileStatusIs(lines: seq<string>)
    ensures FileStatus(lines) == Some(true) <==> CompletedFrom(lines, 0)
    ensures FileStatus(lines) == Some(false) <==> !CompletedFrom(lines, 0) && |lines| > ScanLimit
    ensures FileStatus(lines) == None <==> !CompletedFrom(lines, 0) && |lines| <= ScanLimit
  {
    CompletionScanIs(lines, 0);
  }

  /** A keyword more than 200 lines before the end is not seen. */
  lemma KeywordTooEarly(lines: seq<string>)
    requires |lines| > ScanLimit
    requires forall k :: |lines| - ScanLimit <= k < |lines| ==> !Contains(lines[k], CompletedKeyword)
    ensures FileStatus(lines) == Some(false)
  {
    FileStatusIs(lines);
    forall j: nat | j < Window(lines)
      ensures !CompletedAt(lines, j)
    {
      assert |lines| - ScanLimit <= |lines| - 1 - j;
    }
  }

  /** The reverse loop of `_get_status_from_file`. */
  method GetStatusFromFile(lines: seq<string>) returns (r: Option<bool>)
    ensures r == FileStatus(lines)
  {
    for i := 0 to |lines|
      invariant i <= ScanLimit
      invariant FileStatus(lines) == CompletionScan(lines, i)
    {
      if i == ScanLimit {
        return Some(false);
      }
      if Contains(lines[|lines| - 1 - i], CompletedKeyword) {
        return Some(true);
      }
    }
    return None;
  }

  /** The checker of one log or output file. */
  class FileStatusChecker {
    var calculationFinished: Option<bool>
    var convergenceReached: Option<bool>

    /** `convergence_reached` stays False unless the file is finished; then
        it is what `_get_convergence_from_file` returns, None. */
    constructor (lines: seq<string>)
      ensures calculationFinished == FileStatus(lines)
      ensures convergenceReached == if FileStatus(lines) == Some(true) then None else Some(false)
    {
      var finished := GetStatusFromFile(lines);
      calculationFinished := finished;
      convergenceReached := Some(false);
      if finished == Some(true) {
        convergenceReached := None;
      }
    }
  }

  // ---------------------------------------------------------------------
  // The status decision table
  // ---------------------------------------------------------------------

  /** `_get_status` given the log files and output files found, with
      `finishedOf` the completion status of each file: no file at all means
      not started; otherwise the single log file decides, or the single
      output file when there is no log; several log files, or several output
      files and no log, is a LookupError. */
  function StatusOf(directory: string, logs: seq<string>, outs: seq<string>,
                    finishedOf: string -> Option<bool>): (r: Result<Status>)
    ensures r.Failure? <==> |logs| > 1 || (|logs| == 0 && |outs| > 1)
    ensures r.Failure? ==> r.error == LookupError
    ensures r.Success? ==> r.value.path == directory && r.value.name == Routines.Basename(directory)
    ensures r.Success? ==> (r.value.started <==> |logs| + |outs| > 0)
    ensures r.Success? && !r.value.started ==> r.value.finished == Some(false)
    ensures r.Success? && |logs| == 1 ==> r.value.finished == finishedOf(logs[0])
    ensures r.Success? && |logs| == 0 && |outs| == 1 ==> r.value.finished == finishedOf(outs[0])
  {
    var path := directory;
    var name := Routines.Basename(directory);
    if |logs| == 0 && |outs| == 0 then Success(Status(path, name, false, Some(false)))
    else if |logs| == 0 then
      if |outs| > 1 then Failure(LookupError)
      else Success(Status(path, name, true, finishedOf(outs[0])))
    else if |logs| > 1 then Failure(LookupError)
    else Success(Status(path, name, true, finishedOf(logs[0])))
  }

  /** The search for log files: names ending in "log". */
  const LogCriteria: Routines.Criteria := Routines.Criteria(None, None, "", "log")

  /** The search for output files: names holding ".out". */
  const OutCriteria: Routines.Criteria := Routines.Criteria(None, Some(".out"), "", "")

  /** The status of the calculation in `directory`, whose listing is
      `listing`, with `read` giving the lines of each file. */
  function DirectoryStatus(directory: string, listing: seq<Routines.Entry>, ignore: seq<string>,
                           read: string -> seq<string>): Result<Status> {
    var files := Routines.AllSubfiles(directory, listing, ignore);
    StatusOf(directory, Routines.Selected(files, LogCriteria), Routines.Selected(files, OutCriteria),
      p => FileStatus(read(p)))
  }

  /** The checker of a calculation directory. */
  class StatusChecker {
    var status: Result<Status>

    constructor (directory: string, listing: seq<Routines.Entry>, ignore: seq<string>, read: string -> seq<string>)
      ensures status == DirectoryStatus(directory, listing, ignore, read)
    {
      var logs := Routines.SearchInAllSubdirs(directory, listing, ignore, LogCriteria, None);
      var outs := Routines.SearchInAllSubdirs(directory, listing, ignore, OutCriteria, None);
      var name := Routines.Basename(directory);
      var s: Result<Status>;
      if |logs.value| == 0 && |outs.value| == 0 {
        s := Success(Status(directory, name, false, Some(false)));
      } else if |logs.value| == 0 {
        if |outs.value| > 1 {
          s := Failure(LookupError);
        } else {
          var checker := new FileStatusChecker(read(outs.value[0]));
          s := Success(Status(directory, name, true, checker.calculationFinished));
        }
      } else if |logs.value| > 1 {
        s := Failure(LookupError);
      } else {
        var checker := new FileStatusChecker(read(logs.value[0]));
        s := Success(Status(directory, name, true, checker.calculationFinished));
      }
      status := s;
    }
  }
}
