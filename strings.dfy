/** The few Python `str` operations the parsers rely on, on `seq<char>`.
    Character classes are ASCII: `Lower` and `IsAlpha` ignore the rest of
    Unicode. */
module Strings {

  import opened Wrappers

  /** The characters Python's `str.strip()` and `str.split()` treat as
      whitespace (ASCII part). */
  const Whitespace: set<char> := {' ', '\t', '\n', '\r', '\U{000B}', '\U{000C}'}

  /** `s.startswith(p)` */
  predicate StartsWith(s: string, p: string) {
    |p| <= |s| && s[..|p|] == p
  }

  /** `s.endswith(p)` */
  predicate EndsWith(s: string, p: string) {
    |p| <= |s| && s[|s| - |p|..] == p
  }

  /** `sub in s` */
  predicate Contains(s: string, sub: string)
    decreases |s|
  {
    StartsWith(s, sub) || (|s| > 0 && Contains(s[1..], sub))
  }

  /** `s.split(c)` for a single separator character, generalised to a set of
      separator characters: the pieces between separators, empty ones
      included. */
  function SplitOn(s: string, seps: set<char>): (r: seq<string>)
    ensures |r| >= 1
  {
    if |s| == 0 then [""]
    else
      var rest := SplitOn(s[1..], seps);
      if s[0] in seps then [""] + rest
      else [[s[0]] + rest[0]] + rest[1..]
  }

  /** `sep.join(ts)` */
  function Join(ts: seq<string>, sep: string): string {
    if |ts| == 0 then ""
    else if |ts| == 1 then ts[0]
    else ts[0] + sep + Join(ts[1..], sep)
  }

  /** No piece of a split holds a separator. */
  lemma {:induction false} SplitOnPieces(s: string, seps: set<char>)
    ensures forall k :: 0 <= k < |SplitOn(s, seps)| ==> NoneIn(SplitOn(s, seps)[k], seps)
  {
    if |s| > 0 {
      SplitOnPieces(s[1..], seps);
      var rest := SplitOn(s[1..], seps);
      if s[0] !in seps {
        var r := SplitOn(s, seps);
        assert r[0] == [s[0]] + rest[0];
        forall k | 0 <= k < |r| ensures NoneIn(r[k], seps) {
          if k > 0 {
            assert r[k] == rest[k];
          }
        }
      }
    }
  }

  /** No character of `s` is in `cs`. */
  predicate NoneIn(s: string, cs: set<char>) {
    forall j :: 0 <= j < |s| ==> s[j] !in cs
  }

  /** Joining the pieces of a single-character split gives the string back. */
  lemma {:induction false} JoinSplitOn(s: string, c: char)
    ensures Join(SplitOn(s, {c}), [c]) == s
  {
    if |s| > 0 {
      JoinSplitOn(s[1..], c);
      var rest := SplitOn(s[1..], {c});
      if s[0] != c {
        if |rest| == 1 {
          assert Join(SplitOn(s, {c}), [c]) == [s[0]] + rest[0];
        } else {
          assert SplitOn(s, {c})[1..] == rest[1..];
          assert Join(rest, [c]) == rest[0] + [c] + Join(rest[1..], [c]);
        }
      }
    }
  }

  /** A string free of separators is its own single piece. */
  lemma {:induction false} SplitOnPlain(w: string, seps: set<char>)
    requires NoneIn(w, seps)
    ensures SplitOn(w, seps) == [w]
  {
    if |w| > 0 {
      SplitOnPlain(w[1..], seps);
      assert [w[0]] + w[1..] == w;
    }
  }

  /** A separator-free piece followed by a separator splits off as one piece. */
  lemma {:induction false} SplitOnSep(w: string, c: char, rest: string, seps: set<char>)
    requires NoneIn(w, seps) && c in seps
    ensures SplitOn(w + [c] + rest, seps) == [w] + SplitOn(rest, seps)
  {
    var s := w + [c] + rest;
    if |w| == 0 {
      assert s[1..] == rest;
    } else {
      assert s[1..] == w[1..] + [c] + rest;
      SplitOnSep(w[1..], c, rest, seps);
      assert [w[0]] + w[1..] == w;
    }
  }

  /** Splitting the pieces joined by a separator gives the pieces back. */
  lemma {:induction false} SplitOnJoin(ws: seq<string>, c: char, seps: set<char>)
    requires |ws| > 0 && c in seps
    requires forall k :: 0 <= k < |ws| ==> NoneIn(ws[k], seps)
    ensures SplitOn(Join(ws, [c]), seps) == ws
  {
    if |ws| == 1 {
      SplitOnPlain(ws[0], seps);
    } else {
      SplitOnJoin(ws[1..], c, seps);
      SplitOnSep(ws[0], c, Join(ws[1..], [c]), seps);
      assert [ws[0]] + ws[1..] == ws;
    }
  }

  /** Keeps the non-empty strings, in order (`filter(lambda x: x != "", ts)`). */
  function NonEmpty(ts: seq<string>): (r: seq<string>)
    ensures |r| <= |ts|
    ensures forall k :: 0 <= k < |r| ==> r[k] != ""
  {
    if |ts| == 0 then []
    else NonEmpty(ts[..|ts| - 1]) + (if ts[|ts| - 1] == "" then [] else [ts[|ts| - 1]])
  }

  lemma NonEmptyAppend(a: seq<string>, b: seq<string>)
    ensures NonEmpty(a + b) == NonEmpty(a) + NonEmpty(b)
    decreases |b|
  {
    if |b| > 0 {
      assert (a + b)[..|a + b| - 1] == a + b[..|b| - 1];
      NonEmptyAppend(a, b[..|b| - 1]);
    } else {
      assert a + b == a;
    }
  }

  /** Without empty strings, `NonEmpty` keeps everything. */
  lemma {:induction false} NonEmptyAll(ts: seq<string>)
    requires forall k :: 0 <= k < |ts| ==> ts[k] != ""
    ensures NonEmpty(ts) == ts
  {
    if |ts| > 0 {
      NonEmptyAll(ts[..|ts| - 1]);
      assert ts[..|ts| - 1] + [ts[|ts| - 1]] == ts;
    }
  }

  /** `s.split()` with no argument: the maximal runs of non-whitespace. */
  function Words(s: string): (r: seq<string>)
    ensures forall k :: 0 <= k < |r| ==> r[k] != ""
  {
    NonEmpty(SplitOn(s, Whitespace))
  }

  /** Words joined by single spaces split back into the same words. */
  lemma WordsJoin(ws: seq<string>)
    requires |ws| > 0 && forall k :: 0 <= k < |ws| ==> ws[k] != "" && NoneIn(ws[k], Whitespace)
    ensures Words(Join(ws, " ")) == ws
  {
    SplitOnJoin(ws, ' ', Whitespace);
    NonEmptyAll(ws);
  }

  /** The words hold no whitespace. */
  lemma WordsShape(s: string)
    ensures forall k :: 0 <= k < |Words(s)| ==> NoneIn(Words(s)[k], Whitespace)
  {
    var pieces := SplitOn(s, Whitespace);
    SplitOnPieces(s, Whitespace);
    NonEmptyKeeps(pieces);
  }

  /** Every string kept by `NonEmpty` is one of the input strings. */
  lemma {:induction false} NonEmptyKeeps(ts: seq<string>)
    ensures forall k :: 0 <= k < |NonEmpty(ts)| ==> NonEmpty(ts)[k] in ts
  {
    if |ts| > 0 {
      NonEmptyKeeps(ts[..|ts| - 1]);
      var front := ts[..|ts| - 1];
      forall k | 0 <= k < |NonEmpty(ts)| ensures NonEmpty(ts)[k] in ts {
        if k < |NonEmpty(front)| {
          assert NonEmpty(ts)[k] == NonEmpty(front)[k];
          assert NonEmpty(front)[k] in front;
        } else {
          assert NonEmpty(ts)[k] == ts[|ts| - 1];
        }
      }
    }
  }

  /** `s.lstrip(chars)` */
  function LStrip(s: string, cs: set<char>): (r: string)
    ensures |r| <= |s|
  {
    if |s| > 0 && s[0] in cs then LStrip(s[1..], cs) else s
  }

  /** `LStrip` removes a prefix of characters of `cs`, and what is left does
      not start with one. */
  lemma {:induction false} LStripShape(s: string, cs: set<char>)
    ensures var r := LStrip(s, cs); r == s[|s| - |r|..]
    ensures var r := LStrip(s, cs); |r| > 0 ==> r[0] !in cs
    ensures var r := LStrip(s, cs); forall j :: 0 <= j < |s| - |r| ==> s[j] in cs
  {
    if |s| > 0 && s[0] in cs {
      LStripShape(s[1..], cs);
    }
  }

  /** `s.rstrip(chars)` */
  function RStrip(s: string, cs: set<char>): (r: string)
    ensures |r| <= |s|
  {
    if |s| > 0 && s[|s| - 1] in cs then RStrip(s[..|s| - 1], cs) else s
  }

  /** `RStrip` removes a suffix of characters of `cs`, and what is left does
      not end with one. */
  lemma {:induction false} RStripShape(s: string, cs: set<char>)
    ensures var r := RStrip(s, cs); r == s[..|r|]
    ensures var r := RStrip(s, cs); |r| > 0 ==> r[|r| - 1] !in cs
    ensures var r := RStrip(s, cs); forall j :: |r| <= j < |s| ==> s[j] in cs
  {
    if |s| > 0 && s[|s| - 1] in cs {
      RStripShape(s[..|s| - 1], cs);
    }
  }

  /** `s.strip(chars)`: removes characters of `cs` from both ends. */
  function Strip(s: string, cs: set<char>): string {
    RStrip(LStrip(s, cs), cs)
  }

  /** `Strip` removes only characters of `cs`, from the two ends, and leaves
      a string that neither starts nor ends with one. */
  lemma StripShape(s: string, cs: set<char>)
    ensures var r := Strip(s, cs); var lead := |s| - |LStrip(s, cs)|;
      && lead + |r| <= |s|
      && s[lead..lead + |r|] == r
      && (forall j :: 0 <= j < lead ==> s[j] in cs)
      && (forall j :: lead + |r| <= j < |s| ==> s[j] in cs)
    ensures var r := Strip(s, cs); |r| > 0 ==> r[0] !in cs && r[|r| - 1] !in cs
  {
    var l := LStrip(s, cs);
    var r := RStrip(l, cs);
    var lead := |s| - |l|;
    LStripShape(s, cs);
    RStripShape(l, cs);
    assert s[lead..lead + |r|] == r;
    if |r| > 0 {
      assert r[0] == l[0];
    }
  }

  /** A string that neither starts nor ends with a character of `cs` is
      unchanged by `Strip`. */
  lemma StripFixed(s: string, cs: set<char>)
    requires |s| > 0 ==> s[0] !in cs && s[|s| - 1] !in cs
    ensures Strip(s, cs) == s
  {
    assert LStrip(s, cs) == s;
  }

  lemma StripIdempotent(s: string, cs: set<char>)
    ensures Strip(Strip(s, cs), cs) == Strip(s, cs)
  {
    StripShape(s, cs);
    StripFixed(Strip(s, cs), cs);
  }

  /** `s.lower()` on ASCII letters. */
  function Lower(s: string): (r: string)
    ensures |r| == |s|
    ensures forall j :: 0 <= j < |s| ==> r[j] == LowerChar(s[j])
  {
    seq(|s|, j requires 0 <= j < |s| => LowerChar(s[j]))
  }

  function LowerChar(c: char): char {
    if 'A' <= c <= 'Z' then (c as int + 32) as char else c
  }

  predicate IsLetter(c: char) {
    ('a' <= c <= 'z') || ('A' <= c <= 'Z')
  }

  /** `s.isalpha()` on ASCII letters: true of a non-empty string of letters. */
  predicate IsAlpha(s: string) {
    |s| > 0 && forall j :: 0 <= j < |s| ==> IsLetter(s[j])
  }

  /** `s.index(c)` without its exception: the position of the first `c`. */
  function IndexOf(s: string, c: char): (r: Option<nat>)
    ensures r.Some? ==> r.value < |s| && s[r.value] == c
  {
    if |s| == 0 then None
    else if s[0] == c then Some(0)
    else match IndexOf(s[1..], c)
      case None => None
      case Some(k) => Some(k + 1)
  }

  /** `IndexOf` finds the first occurrence, and finds none only when there
      is none. */
  lemma {:induction false} IndexOfFirst(s: string, c: char)
    ensures IndexOf(s, c).Some? ==> c !in s[..IndexOf(s, c).value]
    ensures IndexOf(s, c).None? <==> c !in s
  {
    if |s| > 0 && s[0] != c {
      IndexOfFirst(s[1..], c);
      assert s == [s[0]] + s[1..];
      if IndexOf(s, c).Some? {
        assert s[..IndexOf(s, c).value] == [s[0]] + s[1..][..IndexOf(s[1..], c).value];
      }
    }
  }

  /** The first occurrence is the one `IndexOf` finds. */
  lemma IndexOfIs(s: string, c: char, i: nat)
    requires i < |s| && s[i] == c && c !in s[..i]
    ensures IndexOf(s, c) == Some(i)
  {
    IndexOfFirst(s, c);
    assert s[i] in s;
    var v := IndexOf(s, c).value;
    assert forall k :: 0 <= k < i ==> s[..i][k] == s[k];
    assert forall k :: 0 <= k < v ==> s[..v][k] == s[k];
  }

  /** The index of the first line satisfying `p` (the `for i, line in
      enumerate(lines): if p(line): ...` search). */
  function FirstWhere(xs: seq<string>, p: string -> bool): (r: Option<nat>)
    ensures r.Some? ==> r.value < |xs| && p(xs[r.value])
  {
    if |xs| == 0 then None
    else if p(xs[0]) then Some(0)
    else match FirstWhere(xs[1..], p)
      case None => None
      case Some(k) => Some(k + 1)
  }

  /** `FirstWhere` finds the first such line, and none only if there is none. */
  lemma {:induction false} FirstWhereFirst(xs: seq<string>, p: string -> bool)
    ensures FirstWhere(xs, p).Some? ==> forall j :: 0 <= j < FirstWhere(xs, p).value ==> !p(xs[j])
    ensures FirstWhere(xs, p).None? ==> forall j :: 0 <= j < |xs| ==> !p(xs[j])
  {
    if |xs| > 0 && !p(xs[0]) {
      FirstWhereFirst(xs[1..], p);
      forall j | 1 <= j < |xs| ensures xs[j] == xs[1..][j - 1] { }
    }
  }

  /** The converse: the first line satisfying `p` is what `FirstWhere` finds. */
  lemma {:induction false} FirstWhereIs(xs: seq<string>, p: string -> bool, i: nat)
    requires i < |xs| && p(xs[i]) && forall j :: 0 <= j < i ==> !p(xs[j])
    ensures FirstWhere(xs, p) == Some(i)
  {
    if i > 0 {
      assert !p(xs[0]);
      forall j | 0 <= j < i - 1 ensures !p(xs[1..][j]) {
        assert xs[1..][j] == xs[j + 1];
      }
      FirstWhereIs(xs[1..], p, i - 1);
    }
  }

  lemma {:induction false} FirstWhereNone(xs: seq<string>, p: string -> bool)
    requires forall j :: 0 <= j < |xs| ==> !p(xs[j])
    ensures FirstWhere(xs, p) == None
  {
    if |xs| > 0 {
      assert !p(xs[0]);
      forall j | 0 <= j < |xs| - 1 ensures !p(xs[1..][j]) {
        assert xs[1..][j] == xs[j + 1];
      }
      FirstWhereNone(xs[1..], p);
    }
  }

  /** Every character of a substring occurs in the string. */
  lemma {:induction false} ContainsChar(s: string, sub: string)
    ensures Contains(s, sub) && |sub| > 0 ==> sub[0] in s
    ensures Contains(s, sub) ==> forall j :: 0 <= j < |sub| ==> sub[j] in s
    decreases |s|
  {
    if StartsWith(s, sub) {
      assert forall j :: 0 <= j < |sub| ==> s[j] == sub[j];
    } else if |s| > 0 {
      ContainsChar(s[1..], sub);
    }
  }

  /** A prefix is also a substring. */
  lemma StartsWithContains(s: string, p: string)
    requires StartsWith(s, p)
    ensures Contains(s, p)
  {
  }
}
