/** The file-system helpers over an abstract directory tree: every file
    below a directory, the base-name filter over those paths, and the
    terminal style wrapper. */
module Routines {
  import opened Wrappers
  import opened Strings

  /** A directory entry as `os.listdir` names it: a regular file, a directory
      with its own entries, or anything for which neither `os.path.isfile`
      nor `os.path.isdir` holds. */
  datatype Entry = File(name: string) | Dir(name: string, entries: seq<Entry>) | Special(name: string)

  // ---------------------------------------------------------------------
  // Paths
  // ---------------------------------------------------------------------

  /** `os.path.join(a, b)` on POSIX. */
  function PathJoin(a: string, b: string): string {
    if |b| > 0 && b[0] == '/' then b
    else if |a| == 0 || a[|a| - 1] == '/' then a + b
    else a + "/" + b
  }

  /** `os.path.basename`: what follows the last "/". */
  function Basename(p: string): (r: string)
    ensures '/' !in r && |r| <= |p|
  {
    if |p| == 0 || p[|p| - 1] == '/' then ""
    else Basename(p[..|p| - 1]) + [p[|p| - 1]]
  }

  lemma {:induction false} BasenameAfterSlash(x: string, b: string)
    requires '/' !in b && (|x| == 0 || x[|x| - 1] == '/')
    ensures Basename(x + b) == b
    decreases |b|
  {
    if |b| > 0 {
      var n := |b| - 1;
      assert (x + b)[..|x + b| - 1] == x + b[..n];
      BasenameAfterSlash(x, b[..n]);
      assert b[..n] + [b[n]] == b;
    } else {
      assert x + b == x;
    }
  }

  /** The base name of a joined path is the entry name joined on. */
  lemma BasenameJoin(a: string, b: string)
    requires '/' !in b
    ensures Basename(PathJoin(a, b)) == b
  {
    if |a| == 0 || a[|a| - 1] == '/' {
      BasenameAfterSlash(a, b);
    } else {
      assert a + "/" + b == (a + "/") + b;
      BasenameAfterSlash(a + "/", b);
    }
  }

  // ---------------------------------------------------------------------
  // get_all_subfiles
  // ---------------------------------------------------------------------

  /** `entries.remove(name)` when the name is listed: the first entry of
      that name goes; otherwise nothing changes. */
  function RemoveFirst(es: seq<Entry>, name: string): seq<Entry> {
    if |es| == 0 then []
    else if es[0].name == name then es[1..]
    else [es[0]] + RemoveFirst(es[1..], name)
  }

  /** Removal keeps every entry of another name and adds none. */
  lemma {:induction false} RemoveFirstMembers(es: seq<Entry>, name: string)
    ensures forall e :: e in RemoveFirst(es, name) ==> e in es
    ensures forall e :: e in es && e.name != name ==> e in RemoveFirst(es, name)
  {
    if |es| > 0 && es[0].name != name {
      RemoveFirstMembers(es[1..], name);
    }
  }

  /** The `for ign in ignore` loop of `get_all_subfiles`. */
  function WithoutIgnored(es: seq<Entry>, ignore: seq<string>): seq<Entry>
    decreases |ignore|
  {
    if |ignore| == 0 then es
    else WithoutIgnored(RemoveFirst(es, ignore[0]), ignore[1..])
  }

  /** Dropping the ignored names keeps every entry of another name and adds
      none. */
  lemma {:induction false} WithoutIgnoredMembers(es: seq<Entry>, ignore: seq<string>)
    ensures forall e :: e in WithoutIgnored(es, ignore) ==> e in es
    ensures forall e :: e in es && e.name !in ignore ==> e in WithoutIgnored(es, ignore)
    decreases |ignore|
  {
    if |ignore| > 0 {
      RemoveFirstMembers(es, ignore[0]);
      WithoutIgnoredMembers(RemoveFirst(es, ignore[0]), ignore[1..]);
      assert forall n :: n in ignore[1..] ==> n in ignore;
    }
  }

  /** No two entries of a directory share a name. */
  predicate UniqueNames(es: seq<Entry>) {
    forall i, j :: 0 <= i < j < |es| ==> es[i].name != es[j].name
  }

  lemma UniqueTail(es: seq<Entry>)
    requires |es| > 0 && UniqueNames(es)
    ensures UniqueNames(es[1..])
    ensures forall x :: x in es[1..] ==> x.name != es[0].name
  {
    forall x | x in es[1..] ensures x.name != es[0].name {
      var j :| 0 <= j < |es[1..]| && es[1..][j] == x;
      assert es[j + 1] == x;
    }
  }

  lemma UniqueCons(x: Entry, rest: seq<Entry>)
    requires UniqueNames(rest)
    requires forall y :: y in rest ==> y.name != x.name
    ensures UniqueNames([x] + rest)
  {
    var r := [x] + rest;
    forall i, j | 0 <= i < j < |r| ensures r[i].name != r[j].name {
      assert r[j] == rest[j - 1];
      if i > 0 {
        assert r[i] == rest[i - 1];
      }
    }
  }

  lemma {:induction false} RemoveFirstGone(es: seq<Entry>, name: string)
    requires UniqueNames(es)
    ensures UniqueNames(RemoveFirst(es, name))
    ensures forall e :: e in RemoveFirst(es, name) ==> e.name != name
  {
    if |es| > 0 {
      UniqueTail(es);
      if es[0].name != name {
        RemoveFirstGone(es[1..], name);
        RemoveFirstMembers(es[1..], name);
        UniqueCons(es[0], RemoveFirst(es[1..], name));
      }
    }
  }

  /** In a directory listing, where names are unique, no ignored name is left. */
  lemma {:induction false} IgnoredGone(es: seq<Entry>, ignore: seq<string>)
    requires UniqueNames(es)
    ensures forall e :: e in WithoutIgnored(es, ignore) ==> e.name !in ignore
    decreases |ignore|
  {
    if |ignore| > 0 {
      var es' := RemoveFirst(es, ignore[0]);
      RemoveFirstGone(es, ignore[0]);
      IgnoredGone(es', ignore[1..]);
      WithoutIgnoredMembers(es', ignore[1..]);
      forall e | e in WithoutIgnored(es, ignore) ensures e.name !in ignore {
        assert e in es';
        assert forall k :: 1 <= k < |ignore| ==> ignore[k] == ignore[1..][k - 1];
      }
    }
  }

  /** `files_here`: the paths of the regular files among the entries. */
  function FilesHere(top: string, es: seq<Entry>): seq<string> {
    if |es| == 0 then []
    else (if es[0].File? then [PathJoin(top, es[0].name)] else []) + FilesHere(top, es[1..])
  }

  /** The files of a directory with these entries: those at this level
      first, then those of each subdirectory in turn, none ignored. */
  function SubFiles(top: string, es: seq<Entry>): seq<string>
    decreases es, 1
  {
    FilesHere(top, es) + SubdirFiles(top, es)
  }

  function SubdirFiles(top: string, es: seq<Entry>): seq<string>
    decreases es, 0
  {
    if |es| == 0 then []
    else
      assert es[0] in es;
      (if es[0].Dir? then SubFiles(PathJoin(top, es[0].name), es[0].entries) else [])
        + SubdirFiles(top, es[1..])
  }

  /** `get_all_subfiles(top, ignore)` on the listing of `top`. */
  function AllSubfiles(top: string, listing: seq<Entry>, ignore: seq<string>): seq<string> {
    SubFiles(top, WithoutIgnored(listing, ignore))
  }

  /** The reference reading: `p` is the path of a regular file at some
      depth below a directory with these entries. */
  predicate Reaches(top: string, es: seq<Entry>, p: string)
    decreases es
  {
    exists i: nat :: i < |es| && Under(top, es, i, p)
  }

  predicate Under(top: string, es: seq<Entry>, i: nat, p: string)
    requires i < |es|
    decreases es, i
  {
    assert es[i] in es;
    (es[i].File? && p == PathJoin(top, es[i].name)) ||
    (es[i].Dir? && Reaches(PathJoin(top, es[i].name), es[i].entries, p))
  }

  lemma {:induction false} FilesHereHas(top: string, es: seq<Entry>, p: string)
    ensures p in FilesHere(top, es) <==> exists i :: 0 <= i < |es| && es[i].File? && p == PathJoin(top, es[i].name)
  {
    if |es| > 0 {
      FilesHereHas(top, es[1..], p);
      assert forall i :: 1 <= i < |es| ==> es[i] == es[1..][i - 1];
      if exists i :: 0 <= i < |es| && es[i].File? && p == PathJoin(top, es[i].name) {
        var i :| 0 <= i < |es| && es[i].File? && p == PathJoin(top, es[i].name);
        if i > 0 {
          assert es[1..][i - 1] == es[i];
        }
      }
    }
  }

  lemma ReachesWitness(top: string, es: seq<Entry>, p: string)
    requires Reaches(top, es, p)
    ensures exists i: nat :: i < |es| && Under(top, es, i, p)
  {
  }

  /** `SubFiles` lists exactly the files the reference reading reaches. */
  lemma {:induction false} SubFilesReaches(top: string, es: seq<Entry>, p: string)
    ensures p in SubFiles(top, es) <==> Reaches(top, es, p)
    decreases es, 1
  {
    FilesHereHas(top, es, p);
    SubdirFilesReaches(top, es, p);
    if p in FilesHere(top, es) {
      var i :| 0 <= i < |es| && es[i].File? && p == PathJoin(top, es[i].name);
      assert Under(top, es, i, p);
    }
    if Reaches(top, es, p) {
      ReachesWitness(top, es, p);
      var i: nat :| i < |es| && Under(top, es, i, p);
      if es[i].File? {
        assert p in FilesHere(top, es);
      }
    }
  }

  lemma {:induction false} SubdirFilesReaches(top: string, es: seq<Entry>, p: string)
    ensures p in SubdirFiles(top, es) <==> exists i: nat :: i < |es| && es[i].Dir? && Under(top, es, i, p)
    decreases es, 0
  {
    if |es| > 0 {
      assert es[0] in es;
      var rest := es[1..];
      SubdirFilesReaches(top, rest, p);
      if es[0].Dir? {
        SubFilesReaches(PathJoin(top, es[0].name), es[0].entries, p);
      }
      forall i: nat | 1 <= i < |es| ensures es[i].Dir? && Under(top, es, i, p) <==> rest[i - 1].Dir? && Under(top, rest, i - 1, p) {
        assert rest[i - 1] == es[i];
      }
      if exists i: nat :: i < |es| && es[i].Dir? && Under(top, es, i, p) {
        var i: nat :| i < |es| && es[i].Dir? && Under(top, es, i, p);
        if i > 0 {
          assert rest[i - 1].Dir? && Under(top, rest, i - 1, p);
        }
      }
    }
  }

  /** The ignore list applies to the top directory only: a directory kept
      there contributes every one of its files, whatever their names. */
  lemma IgnoreTopOnly(top: string, listing: seq<Entry>, ignore: seq<string>, d: Entry, p: string)
    requires d in listing && d.Dir? && d.name !in ignore
    requires Reaches(PathJoin(top, d.name), d.entries, p)
    ensures p in AllSubfiles(top, listing, ignore)
  {
    var es := WithoutIgnored(listing, ignore);
    WithoutIgnoredMembers(listing, ignore);
    assert d in es;
    var i: nat :| i < |es| && es[i] == d;
    assert Under(top, es, i, p);
    SubFilesReaches(top, es, p);
  }

  lemma {:induction false} SubdirFilesSnoc(top: string, es: seq<Entry>, k: nat)
    requires k < |es|
    ensures SubdirFiles(top, es[..k + 1]) == SubdirFiles(top, es[..k]) + SubdirFiles(top, [es[k]])
  {
    if k > 0 {
      assert es[..k + 1][1..] == es[1..][..k];
      assert es[..k][1..] == es[1..][..k - 1];
      SubdirFilesSnoc(top, es[1..], k - 1);
      assert es[1..][k - 1] == es[k];
    } else {
      assert es[..1] == [es[0]];
    }
  }

  /** The `for ign in ignore` loop of `get_all_subfiles`. */
  method DropIgnored(listing: seq<Entry>, ignore: seq<string>) returns (entries: seq<Entry>)
    ensures entries == WithoutIgnored(listing, ignore)
    ensures forall e :: e in entries ==> e in listing
  {
    WithoutIgnoredMembers(listing, ignore);
    entries := listing;
    for k := 0 to |ignore|
      invariant WithoutIgnored(listing, ignore) == WithoutIgnored(entries, ignore[k..])
    {
      assert ignore[k..][1..] == ignore[k + 1..];
      entries := RemoveFirst(entries, ignore[k]);
    }
    assert ignore[|ignore|..] == [];
  }

  /** `get_all_subfiles`: the ignore loop, the files here, then one recursive
      call per subdirectory, without an ignore list. */
  method GetAllSubfiles(top: string, listing: seq<Entry>, ignore: seq<string>) returns (files: seq<string>)
    ensures files == AllSubfiles(top, listing, ignore)
    decreases listing
  {
    var entries := DropIgnored(listing, ignore);
    files := FilesHere(top, entries);
    for k := 0 to |entries|
      invariant files == FilesHere(top, entries) + SubdirFiles(top, entries[..k])
    {
      var e := entries[k];
      assert e in listing;
      var sub: seq<string> := [];
      if e.Dir? {
        sub := GetAllSubfiles(PathJoin(top, e.name), e.entries, []);
      }
      FilesStep(top, entries, k, files, sub);
      files := files + sub;
    }
    assert entries[..|entries|] == entries;
  }

  /** One turn of the subdirectory loop of `get_all_subfiles`. */
  lemma FilesStep(top: string, entries: seq<Entry>, k: nat, files: seq<string>, sub: seq<string>)
    requires k < |entries|
    requires files == FilesHere(top, entries) + SubdirFiles(top, entries[..k])
    requires sub == if entries[k].Dir? then AllSubfiles(PathJoin(top, entries[k].name), entries[k].entries, []) else []
    ensures files + sub == FilesHere(top, entries) + SubdirFiles(top, entries[..k + 1])
  {
    SubdirFilesSnoc(top, entries, k);
    SubdirFilesSingle(top, entries[k]);
    AppendRegroup(files, sub, FilesHere(top, entries), SubdirFiles(top, entries[..k]),
      SubdirFiles(top, entries[..k + 1]));
  }

  lemma AppendRegroup(files: seq<string>, sub: seq<string>, here: seq<string>, before: seq<string>, after: seq<string>)
    requires files == here + before && after == before + sub
    ensures files + sub == here + after
  {
    assert (here + before) + sub == here + (before + sub);
  }

  lemma SubdirFilesSingle(top: string, e: Entry)
    ensures SubdirFiles(top, [e]) == if e.Dir? then AllSubfiles(PathJoin(top, e.name), e.entries, []) else []
  {
    assert [e][1..] == [];
  }

  // ---------------------------------------------------------------------
  // search_in_all_subdirs
  // ---------------------------------------------------------------------

  /** The keyword arguments of `search_in_all_subdirs`. */
  datatype Criteria = Criteria(filename: Option<string>, infilename: Option<string>, starting: string, ending: string)

  /** Whether a base name is kept: an exact `filename` overrides the rest,
      then `infilename` as a substring, then the prefix and suffix. */
  predicate Matches(name: string, c: Criteria) {
    if c.filename.Some? then name == c.filename.value
    else if c.infilename.Some? then Contains(name, c.infilename.value)
    else StartsWith(name, c.starting) && EndsWith(name, c.ending)
  }

  /** The kept paths, in their order. */
  function Selected(files: seq<string>, c: Criteria): (r: seq<string>)
    ensures |r| <= |files|
  {
    if |files| == 0 then []
    else
      var front := Selected(files[..|files| - 1], c);
      if Matches(Basename(files[|files| - 1]), c) then front + [files[|files| - 1]] else front
  }

  /** A path is kept exactly when it is listed and its base name matches. */
  lemma {:induction false} SelectedMembers(files: seq<string>, c: Criteria, p: string)
    ensures p in Selected(files, c) <==> p in files && Matches(Basename(p), c)
  {
    if |files| > 0 {
      var n := |files| - 1;
      SelectedMembers(files[..n], c, p);
      assert files == files[..n] + [files[n]];
    }
  }

  /** The filter keeps the order: it distributes over concatenation. */
  lemma {:induction false} SelectedAppend(a: seq<string>, b: seq<string>, c: Criteria)
    ensures Selected(a + b, c) == Selected(a, c) + Selected(b, c)
    decreases |b|
  {
    if |b| > 0 {
      var n := |b| - 1;
      assert (a + b)[..|a + b| - 1] == a + b[..n];
      SelectedAppend(a, b[..n], c);
    } else {
      assert a + b == a;
    }
  }

  /** The default criteria keep every path. */
  lemma {:induction false} DefaultsKeepAll(files: seq<string>)
    ensures Selected(files, Criteria(None, None, "", "")) == files
  {
    if |files| > 0 {
      var n := |files| - 1;
      DefaultsKeepAll(files[..n]);
      var name := Basename(files[n]);
      assert name[..0] == "" && name[|name|..] == "";
      assert files[..n] + [files[n]] == files;
    }
  }

  /** With `filename` given, the other criteria play no part. */
  lemma {:induction false} FilenameOverrides(files: seq<string>, c: Criteria, d: Criteria)
    requires c.filename.Some? && d.filename == c.filename
    ensures Selected(files, c) == Selected(files, d)
  {
    if |files| > 0 {
      FilenameOverrides(files[..|files| - 1], c, d);
    }
  }

  /** `search_in_all_subdirs` over the listed paths: the kept paths, or a
      ValueError when `expected` is given and is not their number. */
  function Search(files: seq<string>, c: Criteria, expected: Option<int>): (r: Result<seq<string>>)
    ensures r.Failure? <==> expected.Some? && expected.value != |Selected(files, c)|
    ensures r.Failure? ==> r.error == ValueError
    ensures r.Success? ==> r.value == Selected(files, c)
  {
    var kept := Selected(files, c);
    if expected.Some? && expected.value != |kept| then Failure(ValueError) else Success(kept)
  }

  /** The filtering loop over the paths. */
  method SearchFiles(files: seq<string>, c: Criteria, expected: Option<int>) returns (r: Result<seq<string>>)
    ensures r == Search(files, c, expected)
  {
    var kept: seq<string> := [];
    for k := 0 to |files|
      invariant kept == Selected(files[..k], c)
    {
      assert files[..k + 1][..k] == files[..k];
      var name := Basename(files[k]);
      if c.filename.Some? {
        if name == c.filename.value {
          kept := kept + [files[k]];
        }
        continue;
      }
      if c.infilename.Some? {
        if Contains(name, c.infilename.value) {
          kept := kept + [files[k]];
        }
        continue;
      }
      if StartsWith(name, c.starting) && EndsWith(name, c.ending) {
        kept := kept + [files[k]];
      }
    }
    assert files[..|files|] == files;
    if expected.Some? && expected.value != |kept| {
      return Failure(ValueError);
    }
    return Success(kept);
  }

  /** `search_in_all_subdirs(top, ..., ignore=ignore)` on the tree below `top`. */
  method SearchInAllSubdirs(top: string, listing: seq<Entry>, ignore: seq<string>, c: Criteria, expected: Option<int>)
    returns (r: Result<seq<string>>)
    ensures r == Search(AllSubfiles(top, listing, ignore), c, expected)
  {
    var files := GetAllSubfiles(top, listing, ignore);
    r := SearchFiles(files, c, expected);
  }

  // ---------------------------------------------------------------------
  // styled_text
  // ---------------------------------------------------------------------

  /** colorama's `Style.RESET_ALL`. */
  const ResetAll: string := "\U{1B}[0m"

  /** `styled_text`: the style and colour codes, the text, then the reset
      code. */
  function StyledText(text: string, color: string, style: string): (r: string)
    ensures StartsWith(r, style + color) && EndsWith(r, ResetAll)
    ensures |r| == |style| + |color| + |text| + |ResetAll|
    ensures r[|style| + |color|..|r| - |ResetAll|] == text
  {
    style + color + text + ResetAll
  }
}
