/** The dataset parser: it walks the lines of one dataset and hands the
    rest of the lines, from a trigger line on, to the sub-parser that the
    trigger belongs to.  Each sub-parser runs at most once, and the lines it
    read are skipped. */
module DtsetParser {

  import opened Wrappers
  import opened Strings
  import opened SubParserBase
  import opened EigSections
  import EigParser

  /** A sub-parser class, as the dispatcher sees it: the class attributes
      `trigger`, the text that starts its section, and `subject`, the key its
      data goes under. */
  datatype SubParserKind = SubParserKind(trigger: string, subject: string)

  /** The eigenvalue sub-parser class. */
  const EigenvaluesParser := SubParserKind("Eigenvalues", "eigenvalues")

  /** `SUBPARSERS` */
  const Registered: seq<SubParserKind> := [EigenvaluesParser]

  /** What the dataset collects per subject. */
  type Data = map<string, EigParser.EigResult>

  /** Constructing a sub-parser class on lines: its data and the index,
      relative to the first line, where it stopped, or the exception its
      constructor raised. */
  type Runner<V> = (SubParserKind, seq<string>) -> Result<(V, int)>

  /** Constructing the class behind a registered entry.  `SUBPARSERS` holds
      one class, the eigenvalue sub-parser, so every entry is that class. */
  function Construct(k: SubParserKind, lines: seq<string>): Result<(EigParser.EigResult, int)> {
    match EigParser.Data(Loi(lines))
    case Failure(e) => Failure(e)
    case Success(d) => Success((d, LoiEnding(lines)))
  }

  // ---------------------------------------------------------------------
  // SubParsersList: a dictionary from trigger to sub-parser, kept in the
  // order of insertion, as Python dictionaries are
  // ---------------------------------------------------------------------

  predicate DistinctTriggers(d: seq<SubParserKind>) {
    forall a, b :: 0 <= a < b < |d| ==> d[a].trigger != d[b].trigger
  }

  predicate Absent(d: seq<SubParserKind>, t: string) {
    forall j :: 0 <= j < |d| ==> d[j].trigger != t
  }

  function Position(d: seq<SubParserKind>, t: string): (r: Option<nat>)
    ensures r.Some? ==> r.value < |d| && d[r.value].trigger == t
  {
    if |d| == 0 then None
    else if d[|d| - 1].trigger == t then Some(|d| - 1)
    else Position(d[..|d| - 1], t)
  }

  lemma {:induction false} PositionNone(d: seq<SubParserKind>, t: string)
    ensures Position(d, t).None? <==> Absent(d, t)
  {
    if |d| > 0 {
      PositionNone(d[..|d| - 1], t);
      if d[|d| - 1].trigger != t {
        assert forall j :: 0 <= j < |d| - 1 ==> d[..|d| - 1][j] == d[j];
      }
    }
  }

  function Insert(d: seq<SubParserKind>, k: SubParserKind): seq<SubParserKind> {
    match Position(d, k.trigger)
    case Some(j) => d[j := k]
    case None => d + [k]
  }

  function Register(slist: seq<SubParserKind>): seq<SubParserKind> {
    if |slist| == 0 then []
    else Insert(Register(slist[..|slist| - 1]), slist[|slist| - 1])
  }

  function RemoveTrigger(d: seq<SubParserKind>, t: string): seq<SubParserKind> {
    if |d| == 0 then []
    else RemoveTrigger(d[..|d| - 1], t) + (if d[|d| - 1].trigger == t then [] else [d[|d| - 1]])
  }

  lemma InsertShape(d: seq<SubParserKind>, k: SubParserKind)
    requires DistinctTriggers(d)
    ensures DistinctTriggers(Insert(d, k))
    ensures k in Insert(d, k)
    ensures forall x :: x in Insert(d, k) ==> x in d || x == k
    ensures forall x :: x in d && x.trigger != k.trigger ==> x in Insert(d, k)
  {
    PositionNone(d, k.trigger);
    match Position(d, k.trigger)
    case Some(j) =>
      assert Insert(d, k)[j] == k;
      forall x | x in d && x.trigger != k.trigger ensures x in Insert(d, k) {
        var p :| 0 <= p < |d| && d[p] == x;
        assert Insert(d, k)[p] == x;
      }
    case None =>
  }

  lemma {:induction false} RegisterShape(slist: seq<SubParserKind>)
    ensures DistinctTriggers(Register(slist))
    ensures forall x :: x in Register(slist) ==> x in slist
    ensures forall x :: x in slist ==> !Absent(Register(slist), x.trigger)
  {
    if |slist| > 0 {
      var init := slist[..|slist| - 1];
      var k := slist[|slist| - 1];
      RegisterShape(init);
      var d := Register(init);
      InsertShape(d, k);
      assert slist == init + [k];
      forall x | x in slist ensures !Absent(Register(slist), x.trigger) {
        if x.trigger != k.trigger {
          var p :| 0 <= p < |d| && d[p].trigger == x.trigger;
          assert d[p] in Register(slist);
        } else {
          assert k in Register(slist);
        }
      }
    }
  }

  lemma {:induction false} RemoveTriggerMembers(d: seq<SubParserKind>, t: string)
    ensures forall x :: x in RemoveTrigger(d, t) <==> x in d && x.trigger != t
  {
    if |d| > 0 {
      RemoveTriggerMembers(d[..|d| - 1], t);
      assert d == d[..|d| - 1] + [d[|d| - 1]];
    }
  }

  lemma {:induction false} RemoveTriggerNone(d: seq<SubParserKind>, t: string)
    requires Absent(d, t)
    ensures RemoveTrigger(d, t) == d
  {
    if |d| > 0 {
      assert Absent(d[..|d| - 1], t);
      RemoveTriggerNone(d[..|d| - 1], t);
    }
  }

  lemma {:induction false} RemoveTriggerShape(d: seq<SubParserKind>, t: string)
    requires DistinctTriggers(d)
    ensures DistinctTriggers(RemoveTrigger(d, t))
    ensures !Absent(d, t) ==> |RemoveTrigger(d, t)| == |d| - 1
  {
    if |d| > 0 {
      var init := d[..|d| - 1];
      var last := d[|d| - 1];
      DistinctInit(d);
      RemoveTriggerShape(init, t);
      if last.trigger == t {
        RemoveTriggerNone(init, t);
      } else {
        var r := RemoveTrigger(init, t);
        RemoveTriggerMembers(init, t);
        DistinctSnoc(r, last);
        assert RemoveTrigger(d, t) == r + [last];
        if !Absent(d, t) {
          assert !Absent(init, t);
        }
      }
    }
  }

  /** Without its last entry a dictionary keeps distinct triggers, none of
      them the last one's. */
  lemma DistinctInit(d: seq<SubParserKind>)
    requires |d| > 0 && DistinctTriggers(d)
    ensures DistinctTriggers(d[..|d| - 1])
    ensures Absent(d[..|d| - 1], d[|d| - 1].trigger)
    ensures forall x :: x in d[..|d| - 1] ==> x.trigger != d[|d| - 1].trigger
  {
    var init := d[..|d| - 1];
    forall x | x in init ensures x.trigger != d[|d| - 1].trigger {
      var j :| 0 <= j < |init| && init[j] == x;
      assert d[j] == x;
    }
  }

  /** Appending an entry with a new trigger keeps the triggers distinct. */
  lemma DistinctSnoc(r: seq<SubParserKind>, x: SubParserKind)
    requires DistinctTriggers(r)
    requires forall y :: y in r ==> y.trigger != x.trigger
    ensures DistinctTriggers(r + [x])
  {
    var s := r + [x];
    forall a, b | 0 <= a < b < |s| ensures s[a].trigger != s[b].trigger {
      assert s[a] == r[a];
      if b < |r| {
        assert s[b] == r[b];
      } else {
        assert r[a] in r;
      }
    }
  }

  class SubParsersList {
    /** The dictionary's values in insertion order; the keys are their triggers. */
    var subparsers: seq<SubParserKind>

    constructor (slist: seq<SubParserKind>)
      ensures subparsers == Register(slist)
    {
      subparsers := Register(slist);
    }

    /** `remove(parser)`: a KeyError when the trigger is not a key. */
    method Remove(parser: SubParserKind) returns (r: Result<()>)
      modifies this
      ensures !Absent(old(subparsers), parser.trigger) ==>
        r == Success(()) && subparsers == RemoveTrigger(old(subparsers), parser.trigger)
      ensures Absent(old(subparsers), parser.trigger) ==> r == Failure(KeyError) && subparsers == old(subparsers)
    {
      PositionNone(subparsers, parser.trigger);
      if Position(subparsers, parser.trigger).None? {
        return Failure(KeyError);
      }
      subparsers := RemoveTrigger(subparsers, parser.trigger);
      return Success(());
    }
  }

  // ---------------------------------------------------------------------
  // The dispatch loop of `_get_data`
  // ---------------------------------------------------------------------

  /** The first entry of the dictionary whose trigger is in the line. */
  function FirstMatch(live: seq<SubParserKind>, line: string): (r: Option<nat>)
    ensures r.Some? ==> r.value < |live| && Contains(line, live[r.value].trigger)
  {
    if |live| == 0 then None
    else if Contains(line, live[0].trigger) then Some(0)
    else
      match FirstMatch(live[1..], line)
      case Some(t) => Some(t + 1)
      case None => None
  }

  lemma {:induction false} FirstMatchIs(live: seq<SubParserKind>, line: string, t: nat)
    requires t < |live| && Contains(line, live[t].trigger)
    requires forall u :: 0 <= u < t ==> !Contains(line, live[u].trigger)
    ensures FirstMatch(live, line) == Some(t)
  {
    if t > 0 {
      FirstMatchIs(live[1..], line, t - 1);
    }
  }

  lemma {:induction false} FirstMatchNone(live: seq<SubParserKind>, line: string)
    requires forall u :: 0 <= u < |live| ==> !Contains(line, live[u].trigger)
    ensures FirstMatch(live, line) == None
  {
    if |live| > 0 {
      FirstMatchNone(live[1..], line);
    }
  }


  /** One run of a sub-parser: the line it started at, which one it was, and
      where it stopped, relative to that line. */
  datatype Fire = Fire(index: nat, kind: SubParserKind, ending: int)

  /** The data collected and the runs that collected it, in order. */
  datatype Outcome<V> = Outcome(data: map<string, V>, fires: seq<Fire>)

  /** A run at the front of the runs that follow it. */
  function Record<V>(f: Fire, r: Result<Outcome<V>>): Result<Outcome<V>> {
    match r
    case Failure(e) => Failure(e)
    case Success(o) => Success(Outcome(o.data, [f] + o.fires))
  }

  /** The loop of `_get_data` from line `index` on, with the lines before
      `skip` not to be looked at, the sub-parsers still in the dictionary,
      the data so far, and `run` constructing a sub-parser. */
  function Dispatch<V>(lines: seq<string>, index: nat, skip: int, live: seq<SubParserKind>, data: map<string, V>, run: Runner<V>)
    : Result<Outcome<V>>
    requires index <= |lines|
    decreases |lines| - index
  {
    if index == |lines| then Success(Outcome(data, []))
    else if index < skip || FirstMatch(live, lines[index]).None? then Dispatch(lines, index + 1, skip, live, data, run)
    else
      var k := live[FirstMatch(live, lines[index]).value];
      match run(k, lines[index..])
      case Failure(e) => Failure(e)
      case Success(out) =>
        Record(Fire(index, k, out.1),
          Dispatch(lines, index + 1, index + out.1, RemoveTrigger(live, k.trigger), data[k.subject := out.0], run))
  }


  /** The data of a dispatch, or its exception. */
  function DataOf<V>(r: Result<Outcome<V>>): Result<map<string, V>> {
    match r
    case Failure(e) => Failure(e)
    case Success(o) => Success(o.data)
  }

  /** `DtsetParser._get_data(lines)` */
  function DtsetData(lines: seq<string>): Result<Data> {
    DataOf(Dispatch(lines, 0, 0, Register(Registered), map[], Construct))
  }

  /** A skipped line, or one with no remaining trigger, is passed over. */
  lemma DispatchPasses<V>(lines: seq<string>, index: nat, skip: int, live: seq<SubParserKind>, data: map<string, V>, run: Runner<V>)
    requires index < |lines| && (index < skip || FirstMatch(live, lines[index]).None?)
    ensures Dispatch(lines, index, skip, live, data, run) == Dispatch(lines, index + 1, skip, live, data, run)
  {
  }

  /** A line with a trigger runs the first matching sub-parser, whose data
      goes under its subject, whose entry leaves the dictionary and whose
      ending moves `skip`. */
  lemma DispatchRuns<V>(lines: seq<string>, index: nat, skip: int, live: seq<SubParserKind>, data: map<string, V>, run: Runner<V>, t: nat)
    requires index < |lines| && skip <= index && FirstMatch(live, lines[index]) == Some(t)
    ensures DataOf(Dispatch(lines, index, skip, live, data, run)) ==
      match run(live[t], lines[index..])
      case Failure(e) => Failure(e)
      case Success(out) => DataOf(Dispatch(lines, index + 1, index + out.1, RemoveTrigger(live, live[t].trigger), data[live[t].subject := out.0], run))
  {
  }

  /** Running the eigenvalue sub-parser on the remaining lines: its class is
      constructed with the lines of interest cut out, and what the dispatcher
      reads back (its data and its ending index) is what `Construct` gives. */
  method RunEigenvalues(k: SubParserKind, rest: seq<string>) returns (r: Result<(EigParser.EigResult, int)>)
    ensures r == Construct(k, rest)
  {
    var s := new EigParser.EIGParser(rest, true);
    if s.data.Failure? {
      return Failure(s.data.error);
    }
    var ending := s.base.EndingRelativeIndex();
    return Success((s.data.value, ending.value));
  }

  /** The dispatch loop over a sub-parser dictionary built from `slist`: each
      line not skipped is offered to the sub-parsers in dictionary order; the
      first whose trigger it contains runs, stores its data under its subject,
      leaves the dictionary and moves the skip index to its ending. */
  method DispatchLoop<V>(lines: seq<string>, slist: seq<SubParserKind>, run: Runner<V>) returns (r: Result<map<string, V>>)
    ensures r == DataOf(Dispatch(lines, 0, 0, Register(slist), map[], run))
  {
    var data := map[];
    var skip := 0;
    var subparsers := new SubParsersList(slist);
    RegisterShape(slist);
    for index := 0 to |lines|
      invariant DistinctTriggers(subparsers.subparsers)
      invariant DataOf(Dispatch(lines, 0, 0, Register(slist), map[], run)) == DataOf(Dispatch(lines, index, skip, subparsers.subparsers, data, run))
    {
      if index < skip {
        DispatchPasses(lines, index, skip, subparsers.subparsers, data, run);
        continue;
      }
      var items := subparsers.subparsers;
      var line := lines[index];
      var fired := false;
      var resume: nat := index;
      for t := 0 to |items|
        invariant !fired ==> forall u :: 0 <= u < t ==> !Contains(line, items[u].trigger)
        invariant DistinctTriggers(subparsers.subparsers)
        invariant !fired ==> subparsers.subparsers == items && resume == index
        invariant fired ==> resume == index + 1
        invariant DataOf(Dispatch(lines, 0, 0, Register(slist), map[], run)) == DataOf(Dispatch(lines, resume, skip, subparsers.subparsers, data, run))
      {
        var subparser := items[t];
        if Contains(line, subparser.trigger) {
          FirstMatchIs(items, line, t);
          DispatchRuns(lines, index, skip, items, data, run, t);
          var out := run(subparser, lines[index..]);
          if out.Failure? {
            return Failure(out.error);
          }
          data := data[subparser.subject := out.value.0];
          var removed := subparsers.Remove(subparser);
          RemoveTriggerShape(items, subparser.trigger);
          skip := index + out.value.1;
          fired := true;
          resume := index + 1;
          break;
        }
      }
      if !fired {
        FirstMatchNone(items, line);
        DispatchPasses(lines, index, skip, items, data, run);
      }
    }
    return Success(data);
  }

  /** `DtsetParser._get_data`: the dispatch loop over the registered
      sub-parsers. */
  method GetData(lines: seq<string>) returns (r: Result<Data>)
    ensures r == DtsetData(lines)
  {
    r := DispatchLoop(lines, Registered, Construct);
  }

  class DtsetParser {
    const base: BaseSubParser
    var lines: seq<string>
    var data: Result<Data>

    /** `DtsetParser(lines)`: the lines are preprocessed, the ending index is
        their number, and the data is what the dispatch loop collects. */
    constructor (rawLines: seq<string>)
      ensures fresh(base)
      ensures lines == PreprocessLines(rawLines)
      ensures base.endingRelativeIndex == Some(|rawLines|)
      ensures data == DtsetData(lines)
    {
      base := new BaseSubParser();
      lines := PreprocessLines(rawLines);
      new;
      base.SetEndingRelativeIndex(|lines|);
      data := GetData(lines);
    }
  }

  /** `DtsetParser.from_string`: the text cut at every newline. */
  method FromString(text: string) returns (p: DtsetParser)
    ensures fresh(p)
    ensures p.lines == PreprocessLines(SplitOn(text, {'\n'}))
    ensures p.data == DtsetData(p.lines)
  {
    p := new DtsetParser(SplitOn(text, {'\n'}));
  }

  // ---------------------------------------------------------------------
  // Properties
  // ---------------------------------------------------------------------

  lemma {:induction false} FiresOnce<V>(lines: seq<string>, index: nat, skip: int, live: seq<SubParserKind>, data: map<string, V>, run: Runner<V>)
    requires index <= |lines| && DistinctTriggers(live)
    ensures Dispatch(lines, index, skip, live, data, run).Success? ==>
      var fs := Dispatch(lines, index, skip, live, data, run).value.fires;
      && |fs| <= |live|
      && (forall n :: 0 <= n < |fs| ==> fs[n].kind in live)
      && (forall a, b :: 0 <= a < b < |fs| ==> fs[a].kind.trigger != fs[b].kind.trigger)
    decreases |lines| - index
  {
    if index < |lines| {
      if index < skip || FirstMatch(live, lines[index]).None? {
        FiresOnce(lines, index + 1, skip, live, data, run);
      } else {
        var k := live[FirstMatch(live, lines[index]).value];
        if run(k, lines[index..]).Success? {
          var out := run(k, lines[index..]).value;
          var live' := RemoveTrigger(live, k.trigger);
          var data' := data[k.subject := out.0];
          RemoveTriggerShape(live, k.trigger);
          RemoveTriggerMembers(live, k.trigger);
          FiresOnce(lines, index + 1, index + out.1, live', data', run);
          var rest := Dispatch(lines, index + 1, index + out.1, live', data', run);
          if rest.Success? {
            FiresOnceStep(Fire(index, k, out.1), rest.value.fires, live, live');
          }
        }
      }
    }
  }

  lemma FiresOnceStep(f: Fire, rest: seq<Fire>, live: seq<SubParserKind>, live': seq<SubParserKind>)
    requires f.kind in live && |live'| == |live| - 1
    requires forall x :: x in live' <==> x in live && x.trigger != f.kind.trigger
    requires |rest| <= |live'| && (forall n :: 0 <= n < |rest| ==> rest[n].kind in live')
    requires forall a, b :: 0 <= a < b < |rest| ==> rest[a].kind.trigger != rest[b].kind.trigger
    ensures var fs := [f] + rest;
      && |fs| <= |live|
      && (forall n :: 0 <= n < |fs| ==> fs[n].kind in live)
      && (forall a, b :: 0 <= a < b < |fs| ==> fs[a].kind.trigger != fs[b].kind.trigger)
  {
    var fs := [f] + rest;
    forall a, b | 0 <= a < b < |fs| ensures fs[a].kind.trigger != fs[b].kind.trigger {
      assert fs[b] == rest[b - 1];
      if a > 0 {
        assert fs[a] == rest[a - 1];
      }
    }
  }

  /** What one run promises about where it happened. */
  predicate PlacedRun<V>(lines: seq<string>, f: Fire, run: Runner<V>) {
    f.index < |lines| && Contains(lines[f.index], f.kind.trigger)
    && run(f.kind, lines[f.index..]).Success? && run(f.kind, lines[f.index..]).value.1 == f.ending
  }

  predicate AllPlaced<V>(lines: seq<string>, index: nat, skip: int, fs: seq<Fire>, run: Runner<V>) {
    forall n :: 0 <= n < |fs| ==> index <= fs[n].index && skip <= fs[n].index && PlacedRun(lines, fs[n], run)
  }

  predicate Ordered(fs: seq<Fire>) {
    forall n :: 0 <= n < |fs| - 1 ==> fs[n].index < fs[n + 1].index && fs[n].index + fs[n].ending <= fs[n + 1].index
  }

  lemma {:induction false} FiresPlaced<V>(lines: seq<string>, index: nat, skip: int, live: seq<SubParserKind>, data: map<string, V>, run: Runner<V>)
    requires index <= |lines|
    ensures Dispatch(lines, index, skip, live, data, run).Success? ==>
      AllPlaced(lines, index, skip, Dispatch(lines, index, skip, live, data, run).value.fires, run)
    decreases |lines| - index
  {
    if index < |lines| {
      if index < skip || FirstMatch(live, lines[index]).None? {
        FiresPlaced(lines, index + 1, skip, live, data, run);
      } else {
        var k := live[FirstMatch(live, lines[index]).value];
        if run(k, lines[index..]).Success? {
          var out := run(k, lines[index..]).value;
          var live' := RemoveTrigger(live, k.trigger);
          var data' := data[k.subject := out.0];
          FiresPlaced(lines, index + 1, index + out.1, live', data', run);
          var rest := Dispatch(lines, index + 1, index + out.1, live', data', run);
          if rest.Success? {
            var fs := [Fire(index, k, out.1)] + rest.value.fires;
            forall n | 0 <= n < |fs| ensures index <= fs[n].index && skip <= fs[n].index && PlacedRun(lines, fs[n], run) {
              if n > 0 {
                assert fs[n] == rest.value.fires[n - 1];
              }
            }
          }
        }
      }
    }
  }

  lemma {:induction false} FiresOrdered<V>(lines: seq<string>, index: nat, skip: int, live: seq<SubParserKind>, data: map<string, V>, run: Runner<V>)
    requires index <= |lines|
    ensures Dispatch(lines, index, skip, live, data, run).Success? ==>
      Ordered(Dispatch(lines, index, skip, live, data, run).value.fires)
    decreases |lines| - index
  {
    if index < |lines| {
      if index < skip || FirstMatch(live, lines[index]).None? {
        FiresOrdered(lines, index + 1, skip, live, data, run);
      } else {
        var k := live[FirstMatch(live, lines[index]).value];
        if run(k, lines[index..]).Success? {
          var out := run(k, lines[index..]).value;
          var live' := RemoveTrigger(live, k.trigger);
          var data' := data[k.subject := out.0];
          FiresOrdered(lines, index + 1, index + out.1, live', data', run);
          FiresPlaced(lines, index + 1, index + out.1, live', data', run);
          var rest := Dispatch(lines, index + 1, index + out.1, live', data', run);
          if rest.Success? {
            var fs := [Fire(index, k, out.1)] + rest.value.fires;
            forall n | 0 <= n < |fs| - 1
              ensures fs[n].index < fs[n + 1].index && fs[n].index + fs[n].ending <= fs[n + 1].index
            {
              assert fs[n + 1] == rest.value.fires[n];
              assert index + out.1 <= fs[n + 1].index;
              if n > 0 {
                assert fs[n] == rest.value.fires[n - 1];
              }
            }
          }
        }
      }
    }
  }

  function Subjects(fs: seq<Fire>): set<string> {
    set n | 0 <= n < |fs| :: fs[n].kind.subject
  }

  lemma {:induction false} DispatchKeys<V>(lines: seq<string>, index: nat, skip: int, live: seq<SubParserKind>, data: map<string, V>, run: Runner<V>)
    requires index <= |lines|
    ensures Dispatch(lines, index, skip, live, data, run).Success? ==>
      var out := Dispatch(lines, index, skip, live, data, run).value;
      out.data.Keys == data.Keys + Subjects(out.fires)
    decreases |lines| - index
  {
    if index < |lines| {
      if index < skip || FirstMatch(live, lines[index]).None? {
        DispatchKeys(lines, index + 1, skip, live, data, run);
      } else {
        var k := live[FirstMatch(live, lines[index]).value];
        if run(k, lines[index..]).Success? {
          var out := run(k, lines[index..]).value;
          var live' := RemoveTrigger(live, k.trigger);
          var data' := data[k.subject := out.0];
          DispatchKeys(lines, index + 1, index + out.1, live', data', run);
          var rest := Dispatch(lines, index + 1, index + out.1, live', data', run);
          if rest.Success? {
            SubjectsCons(Fire(index, k, out.1), rest.value.fires);
          }
        }
      }
    }
  }

  lemma SubjectsCons(f: Fire, rest: seq<Fire>)
    ensures Subjects([f] + rest) == {f.kind.subject} + Subjects(rest)
  {
    var fs := [f] + rest;
    forall x | x in Subjects(fs) ensures x in {f.kind.subject} + Subjects(rest) {
      var n :| 0 <= n < |fs| && fs[n].kind.subject == x;
      if n > 0 {
        assert fs[n] == rest[n - 1];
      }
    }
    forall x | x in Subjects(rest) ensures x in Subjects(fs) {
      var n :| 0 <= n < |rest| && rest[n].kind.subject == x;
      assert fs[n + 1] == rest[n];
    }
    assert fs[0] == f;
  }

  lemma {:induction false} DispatchIdle<V>(lines: seq<string>, index: nat, skip: int, data: map<string, V>, run: Runner<V>)
    requires index <= |lines|
    ensures Dispatch(lines, index, skip, [], data, run) == Success(Outcome(data, []))
    decreases |lines| - index
  {
    if index < |lines| {
      DispatchIdle(lines, index + 1, skip, data, run);
    }
  }

  lemma {:induction false} DispatchQuiet<V>(lines: seq<string>, index: nat, j: nat, skip: int, live: seq<SubParserKind>, data: map<string, V>, run: Runner<V>)
    requires index <= j <= |lines|
    requires forall i :: index <= i < j ==> FirstMatch(live, lines[i]).None?
    ensures Dispatch(lines, index, skip, live, data, run) == Dispatch(lines, j, skip, live, data, run)
    decreases j - index
  {
    if index < j {
      DispatchQuiet(lines, index + 1, j, skip, live, data, run);
    }
  }

  /** With a single sub-parser and no line holding its trigger, nothing is
      collected. */
  lemma SingleQuiet<V>(lines: seq<string>, k: SubParserKind, run: Runner<V>)
    requires forall i :: 0 <= i < |lines| ==> !Contains(lines[i], k.trigger)
    ensures DataOf(Dispatch(lines, 0, 0, [k], map[], run)) == Success(map[])
  {
    forall i | 0 <= i < |lines|
      ensures FirstMatch([k], lines[i]).None?
    {
      FirstMatchNone([k], lines[i]);
    }
    DispatchQuiet(lines, 0, |lines|, 0, [k], map[], run);
  }

  /** With a single sub-parser, the first line holding its trigger runs it on
      the lines from there on, and its data, or its error, is the result. */
  lemma SingleFires<V>(lines: seq<string>, j: nat, k: SubParserKind, run: Runner<V>)
    requires j < |lines| && Contains(lines[j], k.trigger)
    requires forall i :: 0 <= i < j ==> !Contains(lines[i], k.trigger)
    ensures DataOf(Dispatch(lines, 0, 0, [k], map[], run)) ==
      match run(k, lines[j..])
      case Failure(e) => Failure(e)
      case Success(out) => Success(map[k.subject := out.0])
  {
    assert Dispatch(lines, 0, 0, [k], map[], run) == Dispatch(lines, j, 0, [k], map[], run) by {
      forall i | 0 <= i < j
        ensures FirstMatch([k], lines[i]).None?
      {
        FirstMatchNone([k], lines[i]);
      }
      DispatchQuiet(lines, 0, j, 0, [k], map[], run);
    }
    SingleRunsAt(lines, j, k, run);
  }

  /** A single sub-parser whose trigger is on line `j` runs there, and then
      nothing is left to run. */
  lemma SingleRunsAt<V>(lines: seq<string>, j: nat, k: SubParserKind, run: Runner<V>)
    requires j < |lines| && Contains(lines[j], k.trigger)
    ensures DataOf(Dispatch(lines, j, 0, [k], map[], run)) ==
      match run(k, lines[j..])
      case Failure(e) => Failure(e)
      case Success(out) => Success(map[k.subject := out.0])
  {
    FirstMatchIs([k], lines[j], 0);
    DispatchRuns(lines, j, 0, [k], map[], run, 0);
    if run(k, lines[j..]).Success? {
      var out := run(k, lines[j..]).value;
      assert RemoveTrigger([k], k.trigger) == [];
      DispatchIdle(lines, j + 1, j + out.1, map[k.subject := out.0], run);
    }
  }

  /** A dataset with no "Eigenvalues" line holds no data; otherwise its data
      is what the eigenvalue parser reads from the first such line on, stored
      under "eigenvalues", or that parser's error. */
  lemma DtsetEigenvalues(lines: seq<string>)
    ensures (forall i :: 0 <= i < |lines| ==> !Contains(lines[i], "Eigenvalues")) ==> DtsetData(lines) == Success(map[])
    ensures forall j ::
              (0 <= j < |lines| && Contains(lines[j], "Eigenvalues") &&
               (forall i :: 0 <= i < j ==> !Contains(lines[i], "Eigenvalues"))) ==>
                DtsetData(lines) == match Construct(EigenvaluesParser, lines[j..])
                  case Failure(e) => Failure(e)
                  case Success(out) => Success(map["eigenvalues" := out.0])
  {
    assert Register(Registered) == [EigenvaluesParser];
    if forall i :: 0 <= i < |lines| ==> !Contains(lines[i], "Eigenvalues") {
      SingleQuiet(lines, EigenvaluesParser, Construct);
    }
    forall j | 0 <= j < |lines| && Contains(lines[j], "Eigenvalues") && (forall i :: 0 <= i < j ==> !Contains(lines[i], "Eigenvalues"))
      ensures DtsetData(lines) == match Construct(EigenvaluesParser, lines[j..])
        case Failure(e) => Failure(e)
        case Success(out) => Success(map["eigenvalues" := out.0])
    {
      SingleFires(lines, j, EigenvaluesParser, Construct);
    }
  }
}
