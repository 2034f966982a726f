/** The title locator of the DOS file reader: the column titles are on the
    nearest line above the data that holds "energy". */
module DosParser {
  import opened Wrappers
  import opened Strings

  predicate IsData(line: string) {
    !StartsWith(line, "#")
  }

  /** Python's `lines[t]` for an index that may be negative. */
  function PyAt(lines: seq<string>, t: int): string
    requires -|lines| <= t < |lines|
  {
    if t < 0 then lines[|lines| + t] else lines[t]
  }

  /** `lines[t].strip("\n").strip("#")` */
  function TitleText(line: string): string {
    Strip(Strip(line, {'\n'}), {'#'})
  }

  // ---------------------------------------------------------------------
  // The search as written
  // ---------------------------------------------------------------------

  /** The `while` loop of `_get_titles` as written, from index `t`: the test
      comes first, then the decrement, then the check `titleindex <= 0`, so
      line 0 is tested only by a search that starts there (the first data
      line is line 1), and a search that starts further down gives up after
      testing line 1; a start at -1 reads the last line. */
  function SearchAsWritten(lines: seq<string>, t: int): (r: Result<int>)
    requires |lines| > 0 && -1 <= t < |lines|
    ensures r.Success? ==> -1 <= r.value <= t
    decreases t + 1
  {
    if Contains(PyAt(lines, t), "energy") then Success(t)
    else if t - 1 <= 0 then Failure(LookupError)
    else SearchAsWritten(lines, t - 1)
  }

  /** `_get_titles` as written: the search starts just above the first data
      line; without a data line it is a LookupError. */
  function TitlesAsWritten(lines: seq<string>): Result<string> {
    match FirstWhere(lines, IsData)
    case None => Failure(LookupError)
    case Some(i) =>
      var t :- SearchAsWritten(lines, i - 1);
      Success(TitleText(PyAt(lines, t)))
  }

  /** The inner `while` loop as written, from index `t`. */
  method SearchUpAsWritten(lines: seq<string>, t0: int) returns (r: Result<int>)
    requires |lines| > 0 && -1 <= t0 < |lines|
    ensures r == SearchAsWritten(lines, t0)
  {
    var t := t0;
    while !Contains(PyAt(lines, t), "energy")
      invariant -1 <= t <= t0
      invariant SearchAsWritten(lines, t0) == SearchAsWritten(lines, t)
      decreases t + 1
    {
      t := t - 1;
      if t <= 0 {
        return Failure(LookupError);
      }
    }
    return Success(t);
  }

  method GetTitlesAsWritten(lines: seq<string>) returns (r: Result<string>)
    ensures r == TitlesAsWritten(lines)
  {
    for i := 0 to |lines|
      invariant forall j :: 0 <= j < i ==> !IsData(lines[j])
    {
      if !StartsWith(lines[i], "#") {
        FirstWhereIs(lines, IsData, i);
        var found := SearchUpAsWritten(lines, i - 1);
        if found.Failure? {
          return Failure(found.error);
        }
        return Success(TitleText(PyAt(lines, found.value)));
      }
    }
    FirstWhereNone(lines, IsData);
    return Failure(LookupError);
  }

  /** A title on line 0 is missed once the search has to step down to it:
      the file "# energy DOS", "# comment", "1.0 2.0" has no title as
      written. */
  lemma LineZeroMissed()
    ensures TitlesAsWritten(["# energy DOS", "# comment", "1.0 2.0"]) == Failure(LookupError)
  {
    var lines := ["# energy DOS", "# comment", "1.0 2.0"];
    assert lines[0][..1] == "#" && lines[1][..1] == "#" && lines[2][0] == '1';
    FirstWhereIs(lines, IsData, 2);
    assert !Contains(lines[1], "energy") by {
      NotContainsEnergy(lines[1]);
    }
  }

  /** A first line that is already data starts the search at index -1, which
      reads the last line of the file: "1.0 2.0", "# energy" gives the title
      " energy" as written. */
  lemma LastLineRead()
    ensures TitlesAsWritten(["1.0 2.0", "# energy"]) == Success(" energy")
  {
    var lines := ["1.0 2.0", "# energy"];
    assert lines[0][0] == '1';
    FirstWhereIs(lines, IsData, 0);
    assert lines[1][2..8] == "energy";
    EnergyAt(lines[1], 2);
    assert TitleText(lines[1]) == " energy" by {
      StripFixed(lines[1], {'\n'});
      assert LStrip(lines[1], {'#'}) == " energy" by {
        assert lines[1][1..] == " energy";
      }
      StripFixedRight(" energy", {'#'});
    }
  }

  lemma StripFixedRight(s: string, cs: set<char>)
    requires |s| > 0 && s[|s| - 1] !in cs
    ensures RStrip(s, cs) == s
  {
  }

  /** "# comment" has no "energy" in it: it has no 'y'. */
  lemma NotContainsEnergy(s: string)
    requires s == "# comment"
    ensures !Contains(s, "energy")
  {
    ContainsChar(s, "energy");
    assert "energy"[5] == 'y';
  }

  // ---------------------------------------------------------------------
  // The search as intended
  // ---------------------------------------------------------------------

  /** The search as intended: from index `t` down to line 0 included. */
  function Search(lines: seq<string>, t: int): (r: Result<nat>)
    requires t < |lines|
    ensures r.Success? ==> r.value <= t && Contains(lines[r.value], "energy")
    decreases t + 1
  {
    if t < 0 then Failure(LookupError)
    else if Contains(lines[t], "energy") then Success(t)
    else Search(lines, t - 1)
  }

  /** The corrected search finds the nearest line at or above `t` holding
      "energy", and fails exactly when none of lines 0 to `t` does. */
  lemma {:induction false} SearchNearest(lines: seq<string>, t: int)
    requires t < |lines|
    ensures Search(lines, t).Failure? <==> forall j :: 0 <= j <= t ==> !Contains(lines[j], "energy")
    ensures Search(lines, t).Success? ==> forall j :: Search(lines, t).value < j <= t ==> !Contains(lines[j], "energy")
    decreases t + 1
  {
    if t >= 0 && !Contains(lines[t], "energy") {
      SearchNearest(lines, t - 1);
    }
  }

  /** `_get_titles` as intended. */
  function Titles(lines: seq<string>): Result<string> {
    match FirstWhere(lines, IsData)
    case None => Failure(LookupError)
    case Some(i) =>
      var t :- Search(lines, i - 1);
      Success(TitleText(lines[t]))
  }

  method GetTitles(lines: seq<string>) returns (r: Result<string>)
    ensures r == Titles(lines)
  {
    for i := 0 to |lines|
      invariant forall j :: 0 <= j < i ==> !IsData(lines[j])
    {
      if !StartsWith(lines[i], "#") {
        FirstWhereIs(lines, IsData, i);
        var t := i - 1;
        while t >= 0 && !Contains(lines[t], "energy")
          invariant -1 <= t <= i - 1
          invariant Search(lines, i - 1) == Search(lines, t)
          decreases t + 1
        {
          t := t - 1;
        }
        if t < 0 {
          return Failure(LookupError);
        }
        return Success(TitleText(lines[t]));
      }
    }
    FirstWhereNone(lines, IsData);
    return Failure(LookupError);
  }

  /** The two searches agree whenever the title is found on a line other
      than line 0. */
  lemma {:induction false} SearchAgrees(lines: seq<string>, t: int)
    requires |lines| > 0 && 0 <= t < |lines|
    requires Search(lines, t).Success? && Search(lines, t).value >= 1
    ensures SearchAsWritten(lines, t) == Success(Search(lines, t).value as int)
    decreases t
  {
    if !Contains(lines[t], "energy") {
      SearchAgrees(lines, t - 1);
    }
  }

  /** The example file with its title on line 0 has the title " energy DOS". */
  lemma LineZeroFound()
    ensures Titles(["# energy DOS", "# comment", "1.0 2.0"]) == Success(" energy DOS")
  {
    var lines := ["# energy DOS", "# comment", "1.0 2.0"];
    assert lines[0][..1] == "#" && lines[1][..1] == "#" && lines[2][0] == '1';
    FirstWhereIs(lines, IsData, 2);
    ExampleSearch(lines);
    ExampleTitle(lines[0]);
  }

  lemma ExampleSearch(lines: seq<string>)
    requires lines == ["# energy DOS", "# comment", "1.0 2.0"]
    ensures Search(lines, 1) == Success(0)
  {
    NotContainsEnergy(lines[1]);
    assert lines[0][2..8] == "energy";
    EnergyAt(lines[0], 2);
    assert Search(lines, 0) == Success(0);
  }

  lemma ExampleTitle(line: string)
    requires line == "# energy DOS"
    ensures TitleText(line) == " energy DOS"
  {
    StripFixed(line, {'\n'});
    assert LStrip(line, {'#'}) == " energy DOS" by {
      assert line[1..] == " energy DOS";
    }
    StripFixedRight(" energy DOS", {'#'});
  }

  /** "energy" at position `k` makes the line hold it. */
  lemma {:induction false} EnergyAt(s: string, k: nat)
    requires k + 6 <= |s| && s[k..k + 6] == "energy"
    ensures Contains(s, "energy")
    decreases k
  {
    if k > 0 {
      assert s[1..][k - 1..k + 5] == s[k..k + 6];
      EnergyAt(s[1..], k - 1);
    }
  }

  class DOSParser {
    var titles: Result<string>

    /** The title line of the DOS file with those lines, found by the
        search as written (`Titles` is the corrected search). */
    constructor (lines: seq<string>)
      ensures titles == TitlesAsWritten(lines)
    {
      var t := GetTitlesAsWritten(lines);
      titles := t;
    }
  }
}
