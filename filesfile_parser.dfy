/** The reader of ABINIT "files" files: after comments and blank lines are
    dropped, five paths by position, then the pseudopotentials. */
module FilesFileParser {
  import opened Wrappers
  import opened Strings

  /** The fields of a files file. */
  datatype FilesFile = FilesFile(
    inputPath: string,
    outputPath: string,
    inputPrefix: string,
    outputPrefix: string,
    tmpPrefix: string,
    pseudos: seq<string>)

  /** `l.strip().strip("\n")` */
  function Clean(l: string): string {
    Strip(Strip(l, Whitespace), {'\n'})
  }

  /** A cleaned line that is neither a comment nor empty. */
  predicate Keeps(l: string) {
    !(StartsWith(l, "#") || |l| == 0)
  }

  /** The two comprehensions: the cleaned lines, then those kept, in order. */
  function Surviving(lines: seq<string>): (r: seq<string>)
    ensures |r| <= |lines|
    ensures forall k :: 0 <= k < |r| ==> Keeps(r[k])
  {
    if |lines| == 0 then []
    else
      var rest := Surviving(lines[1..]);
      var l := Clean(lines[0]);
      if Keeps(l) then [l] + rest else rest
  }

  /** A line survives, cleaned, exactly when its cleaned form is kept;
      survivors are cleaned lines and carry no surrounding whitespace. */
  lemma {:induction false} SurvivingKeeps(lines: seq<string>)
    ensures forall k :: 0 <= k < |lines| && Keeps(Clean(lines[k])) ==> Clean(lines[k]) in Surviving(lines)
    ensures forall l :: l in Surviving(lines) ==> exists k :: 0 <= k < |lines| && l == Clean(lines[k])
  {
    if |lines| > 0 {
      SurvivingKeeps(lines[1..]);
      forall k | 0 <= k < |lines| && Keeps(Clean(lines[k])) ensures Clean(lines[k]) in Surviving(lines) {
        if k > 0 {
          assert lines[1..][k - 1] == lines[k];
        }
      }
      forall l | l in Surviving(lines) ensures exists k :: 0 <= k < |lines| && l == Clean(lines[k]) {
        if l != Clean(lines[0]) {
          assert l in Surviving(lines[1..]);
          var k :| 0 <= k < |lines[1..]| && l == Clean(lines[1..][k]);
          assert lines[1..][k] == lines[k + 1];
        }
      }
    }
  }

  /** Cleaning a line leaves it without whitespace at either end. */
  lemma CleanTrimmed(l: string)
    ensures var c := Clean(l); |c| > 0 ==> c[0] !in Whitespace && c[|c| - 1] !in Whitespace
  {
    var t := Strip(l, Whitespace);
    StripShape(l, Whitespace);
    StripFixed(t, {'\n'});
  }

  /** `_get_data` on the lines of the file: survivors 0 to 4 by position and
      the rest as pseudopotentials; fewer than five survivors is an
      IndexError. */
  function GetData(lines: seq<string>): (r: Result<FilesFile>)
    ensures r.Failure? <==> |Surviving(lines)| < 5
    ensures r.Failure? ==> r.error == IndexError
  {
    var l := Surviving(lines);
    if |l| < 5 then Failure(IndexError)
    else Success(FilesFile(l[0], l[1], l[2], l[3], l[4], l[5..]))
  }

  /** The fields in order, pseudopotentials last. */
  function Fields(f: FilesFile): seq<string> {
    [f.inputPath, f.outputPath, f.inputPrefix, f.outputPrefix, f.tmpPrefix] + f.pseudos
  }

  /** No surviving line is lost or reordered: the fields, read back in order,
      are the surviving lines, and there are as many pseudopotentials as
      survivors past the fifth. */
  lemma FieldsRoundTrip(lines: seq<string>)
    requires GetData(lines).Success?
    ensures Fields(GetData(lines).value) == Surviving(lines)
    ensures |GetData(lines).value.pseudos| == |Surviving(lines)| - 5
  {
    var l := Surviving(lines);
    assert l == l[..5] + l[5..];
  }

  /** Comments and blank lines do not count: adding one anywhere changes
      nothing. */
  lemma {:induction false} CommentsIgnored(a: seq<string>, c: string, b: seq<string>)
    requires !Keeps(Clean(c))
    ensures Surviving(a + [c] + b) == Surviving(a + b)
    decreases |a|
  {
    if |a| == 0 {
      assert (a + [c] + b)[1..] == b;
      assert a + b == b;
    } else {
      assert (a + [c] + b)[1..] == a[1..] + [c] + b;
      assert (a + b)[1..] == a[1..] + b;
      CommentsIgnored(a[1..], c, b);
    }
  }

  class FilesFileParser {
    var data: Result<FilesFile>

    /** The fields of the files file with those lines. The path's suffix is
        only checked for a warning. */
    constructor (lines: seq<string>)
      ensures data == GetData(lines)
    {
      data := GetData(lines);
    }
  }
}
