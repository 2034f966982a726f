/** The token classifier `decompose_line` and its helper `try_debug_2floats`.
    The repository holds two textually identical copies of both (one beside
    the old output sub-parsers, one under parsers/utils); this module models
    them once.

    A line is split on the single space character; each non-empty piece is
    classified by the first rule that succeeds: int literal, float literal,
    Python expression, two glued floats, and otherwise a plain string. */
module CommonRoutines {

  import opened Wrappers
  import opened Strings
  import opened Literals

  // ---------------------------------------------------------------------
  // The `eval` step, as a narrow whitelist
  // ---------------------------------------------------------------------

  /** Names `eval` resolves to a callable, i.e. Python builtins and `sqrt`,
      which the module imports from `math`.  A builtin's `__name__` is the
      name it is looked up by. */
  const CallableNames: set<string> := {
    "abs", "all", "any", "bin", "bool", "chr", "dict", "divmod", "enumerate",
    "filter", "float", "format", "hash", "hex", "id", "input", "int", "iter",
    "len", "list", "map", "max", "min", "next", "oct", "open", "ord", "pow",
    "print", "range", "repr", "reversed", "round", "set", "sorted", "str",
    "sum", "tuple", "type", "zip", "sqrt"}

  /** What `eval(token)` gives: a failure with NameError/SyntaxError (here:
      anything outside the whitelist), a callable, or a number. */
  datatype EvalOutcome = NotAnExpression | Callable(name: string) | Number(value: real)

  /** `n/d`, with an optional sign on `n` and `d` not zero: Python's true
      division gives the exact quotient. */
  predicate IsFraction(t: string) {
    match IndexOf(t, '/')
    case None => false
    case Some(k) =>
      IsDecimalLiteral(Unsigned(t[..k])) && IsDecimalLiteral(t[k + 1..]) && DigitsValue(t[k + 1..]) != 0
  }

  function FractionValue(t: string): real
    requires IsFraction(t)
  {
    var k := IndexOf(t, '/').value;
    IntTextValue(t[..k]) as real / DigitsValue(t[k + 1..]) as real
  }

  /** A sign at `j` that does not open an exponent is a binary operator. */
  predicate IsOperator(t: string, j: nat)
    requires 0 < j < |t|
  {
    IsSignChar(t[j]) && !IsExponentMarker(t[j - 1])
  }

  /** The binary `+` or `-` of a token: its first operator after the first
      character (which can only be a unary sign). */
  function OperatorAt(t: string): (r: Option<nat>)
    ensures r.Some? ==> 0 < r.value < |t| && IsOperator(t, r.value)
    ensures r.Some? ==> forall i :: 0 < i < r.value ==> !IsOperator(t, i)
  {
    OperatorFrom(t, 1)
  }

  function OperatorFrom(t: string, j: nat): (r: Option<nat>)
    requires 0 < j
    ensures r.Some? ==> j <= r.value < |t| && IsOperator(t, r.value)
    ensures r.Some? ==> forall i :: j <= i < r.value ==> !IsOperator(t, i)
    decreases |t| - j
  {
    if j >= |t| then None
    else if IsOperator(t, j) then Some(j)
    else OperatorFrom(t, j + 1)
  }

  lemma {:induction false} OperatorFromIs(t: string, j: nat, k: nat)
    requires 0 < j <= k < |t| && IsOperator(t, k)
    requires forall i :: j <= i < k ==> !IsOperator(t, i)
    ensures OperatorFrom(t, j) == Some(k)
    decreases k - j
  {
    if j < k {
      OperatorFromIs(t, j + 1, k);
    }
  }

  /** `a + b` or `a - b` of two numerals, the first with an optional unary
      sign: the token cut at its operator. */
  predicate IsSum(t: string) {
    match OperatorAt(t)
    case None => false
    case Some(k) => IsSignedNumeral(t[..k]) && IsSignedNumeral(t[k..])
  }

  /** The value of a sum: the second operand, read with the operator as its
      sign, added to the first. */
  function SumValue(t: string): real
    requires IsSum(t)
  {
    var k := OperatorAt(t).value;
    FloatTextValue(t[..k]) + FloatTextValue(t[k..])
  }

  function Eval(token: string): (r: EvalOutcome)
    ensures r.Callable? ==> r.name != "" && r.name == Strip(token, Whitespace)
  {
    var t := Strip(token, Whitespace);
    if IsSum(t) then Number(SumValue(t))
    else if t in CallableNames then Callable(t)
    else if IsFraction(t) then Number(FractionValue(t))
    else NotAnExpression
  }

  // ---------------------------------------------------------------------
  // try_debug_2floats
  // ---------------------------------------------------------------------

  /** Where a glued token is cut: four characters after its first "E"
      (a sign and two exponent digits), or at its end if it is shorter. */
  function GluedSplit(s: string): (k: nat)
    requires 'E' in s
    ensures k <= |s|
    ensures k == |s| || (k >= 4 && s[k - 4] == 'E')
  {
    IndexOfFirst(s, 'E');
    var e := IndexOf(s, 'E').value;
    if e + 4 <= |s| then e + 4 else |s|
  }

  /** The cut lies four characters after the first "E" of the token. */
  lemma GluedSplitFirst(s: string)
    requires 'E' in s
    ensures GluedSplit(s) == |s| || 'E' !in s[..GluedSplit(s) - 4]
  {
    IndexOfFirst(s, 'E');
  }

  /** `try_debug_2floats`: the two halves of the token as floats, or `None`
      (the source's `(None, None)`) when either half is not a float. */
  function TryDebug2Floats(s: string): (r: Option<(real, real)>)
    requires 'E' in s
    ensures var k := GluedSplit(s);
      && (r.Some? <==> IsFloatLiteral(s[..k]) && IsFloatLiteral(s[k..]))
      && (r.Some? ==> r.value == (ParseFloat(s[..k]), ParseFloat(s[k..])))
  {
    var k := GluedSplit(s);
    var f1 := s[..k];
    var f2 := s[k..];
    if IsFloatLiteral(f1) && IsFloatLiteral(f2) then Some((ParseFloat(f1), ParseFloat(f2)))
    else None
  }

  // ---------------------------------------------------------------------
  // Classification of one token
  // ---------------------------------------------------------------------

  /** The rule that claimed a token, with what it contributes. */
  datatype TokenKind =
    | IntToken(i: int)
    | FloatToken(f: real)
    | EvalNumber(f: real)
    | EvalCallable(name: string)
    | GluedFloats(f1: real, f2: real)
    | StringToken(s: string)

  /** One iteration of the token loop of `decompose_line`. */
  function Classify(token: string): (k: TokenKind)
    ensures k.StringToken? ==> k.s == token
    ensures k.EvalCallable? ==> k.name != ""
  {
    if IsIntLiteral(token) then IntToken(ParseInt(token))
    else if IsFloatLiteral(token) then FloatToken(ParseFloat(token))
    else Expression(token)
  }

  /** The rules after the two literal ones: `eval`, then the last two. */
  function Expression(token: string): (k: TokenKind)
    ensures k.StringToken? ==> k.s == token
    ensures k.EvalCallable? ==> k.name != ""
  {
    match Eval(token)
    case Callable(name) => EvalCallable(name)
    case Number(v) => EvalNumber(v)
    case NotAnExpression => Leftover(token)
  }

  /** The last two rules: two glued floats, or else a plain string. */
  function Leftover(token: string): (k: TokenKind)
    ensures k.StringToken? || k.GluedFloats?
    ensures k.StringToken? ==> k.s == token
  {
    if Contains(token, "E-") && Contains(token, ".") then
      ContainsChar(token, "E-");
      match TryDebug2Floats(token)
      case Some((f1, f2)) => GluedFloats(f1, f2)
      case None => StringToken(token)
    else StringToken(token)
  }

  // ---------------------------------------------------------------------
  // The three lists
  // ---------------------------------------------------------------------

  /** The `(strings, ints, floats)` triple `decompose_line` returns. */
  datatype Parts = Parts(strings: seq<string>, ints: seq<int>, floats: seq<real>) {
    function Size(): nat { |strings| + |ints| + |floats| }

    function Then(other: Parts): Parts {
      Parts(strings + other.strings, ints + other.ints, floats + other.floats)
    }
  }

  const NoParts := Parts([], [], [])

  /** What one token appends to the three lists. */
  function Contribution(k: TokenKind): Parts {
    match k
    case IntToken(i) => Parts([], [i], [])
    case FloatToken(f) => Parts([], [], [f])
    case EvalNumber(f) => Parts([], [], [f])
    case EvalCallable(name) => Parts([name], [], [])
    case GluedFloats(f1, f2) => Parts([], [], [f1, f2])
    case StringToken(s) => Parts([s], [], [])
  }

  /** The tokens of a line: `line.split(" ")` without its empty pieces. */
  function Tokens(line: string): (ts: seq<string>)
    ensures forall k :: 0 <= k < |ts| ==> ts[k] != ""
  {
    NonEmpty(SplitOn(line, {' '}))
  }

  /** Tokens are separated by the space character alone, so no token holds
      a space (a tab, say, stays inside its token). */
  lemma TokensHaveNoSpace(line: string)
    ensures forall k :: 0 <= k < |Tokens(line)| ==> NoneIn(Tokens(line)[k], {' '})
  {
    SplitOnPieces(line, {' '});
    NonEmptyKeeps(SplitOn(line, {' '}));
  }

  /** The classification of each token, in order. */
  function Kinds(ts: seq<string>): (ks: seq<TokenKind>)
    ensures |ks| == |ts|
  {
    if |ts| == 0 then [] else Kinds(ts[..|ts| - 1]) + [Classify(ts[|ts| - 1])]
  }

  /** The token loop over already classified tokens, from the left. */
  function Gather(ks: seq<TokenKind>): Parts {
    if |ks| == 0 then NoParts
    else Gather(ks[..|ks| - 1]).Then(Contribution(ks[|ks| - 1]))
  }

  /** The value of `decompose_line(line)`. */
  function Decompose(line: string): Parts {
    Gather(Kinds(Tokens(line)))
  }

  // ---------------------------------------------------------------------
  // decompose_line, as the loop the source runs
  // ---------------------------------------------------------------------

  method DecomposeLine(line: string) returns (strings: seq<string>, ints: seq<int>, floats: seq<real>)
    ensures Parts(strings, ints, floats) == Decompose(line)
  {
    var l := SplitOn(line, {' '});
    strings, ints, floats := [], [], [];
    ghost var done: seq<string> := [];
    for n := 0 to |l|
      invariant done == NonEmpty(l[..n])
      invariant Parts(strings, ints, floats) == Gather(Kinds(done))
    {
      var element := l[n];
      PrefixSnoc(l, n);
      NonEmptySnoc(l[..n], element);
      if element != "" {
        KindsSnoc(done, element);
        var s, i, f := DecomposeToken(element);
        strings, ints, floats := strings + s, ints + i, floats + f;
        done := done + [element];
      }
    }
    assert l[..|l|] == l;
  }

  /** The body of the token loop: what one non-empty token appends to each
      of the three lists, by the first rule that claims it. */
  method DecomposeToken(element: string) returns (strings: seq<string>, ints: seq<int>, floats: seq<real>)
    ensures Parts(strings, ints, floats) == Contribution(Classify(element))
  {
    strings, ints, floats := [], [], [];
    if IsIntLiteral(element) {
      ints := [ParseInt(element)];
      assert Contribution(Classify(element)) == Parts([], ints, []);
      return;
    }
    if IsFloatLiteral(element) {
      floats := [ParseFloat(element)];
      assert Contribution(Classify(element)) == Parts([], [], floats);
      return;
    }
    ghost var k := Classify(element);
    assert k == Expression(element);
    strings, floats := DecomposeExpression(element);
  }

  /** A token that is not a number literal: what `eval` makes of it, or
      else the last two rules. */
  method DecomposeExpression(element: string) returns (strings: seq<string>, floats: seq<real>)
    ensures Parts(strings, [], floats) == Contribution(Expression(element))
  {
    var f := Eval(element);
    if f.Callable? {
      strings, floats := [f.name], [];
      assert Contribution(Expression(element)) == Parts(strings, [], []);
    } else if f.Number? {
      strings, floats := [], [f.value];
      assert Contribution(Expression(element)) == Parts([], [], floats);
    } else {
      strings, floats := DecomposeLeftover(element);
      assert Expression(element) == Leftover(element);
    }
  }

  /** A token that is neither a number literal nor an expression: two glued
      floats when it holds both "E-" and "." and both halves are floats,
      otherwise a string. */
  method DecomposeLeftover(element: string) returns (strings: seq<string>, floats: seq<real>)
    ensures Parts(strings, [], floats) == Contribution(Leftover(element))
  {
    strings, floats := [], [];
    if Contains(element, "E-") && Contains(element, ".") {
      ContainsChar(element, "E-");
      var halves := TryDebug2Floats(element);
      if halves.Some? {
        floats := [halves.value.0, halves.value.1];
        assert Leftover(element) == GluedFloats(floats[0], floats[1]);
        assert Contribution(Leftover(element)) == Parts([], [], floats);
        return;
      }
      assert Leftover(element) == StringToken(element);
    }
    strings := [element];
    assert Leftover(element) == StringToken(element);
  }

  lemma SnocParts<T>(ts: seq<T>)
    requires |ts| > 0
    ensures ts == ts[..|ts| - 1] + [ts[|ts| - 1]]
  {
  }

  lemma PrefixSnoc(l: seq<string>, n: nat)
    requires n < |l|
    ensures l[..n + 1] == l[..n] + [l[n]]
  {
  }

  lemma NonEmptySnoc(ts: seq<string>, t: string)
    ensures NonEmpty(ts + [t]) == NonEmpty(ts) + (if t == "" then [] else [t])
  {
    assert (ts + [t])[..|ts|] == ts;
  }

  lemma KindsSnoc(ts: seq<string>, t: string)
    ensures Gather(Kinds(ts + [t])) == Gather(Kinds(ts)).Then(Contribution(Classify(t)))
  {
    assert (ts + [t])[..|ts|] == ts;
  }

  // ---------------------------------------------------------------------
  // Properties
  // ---------------------------------------------------------------------

  lemma {:induction false} KindsConcat(a: seq<string>, b: seq<string>)
    ensures Kinds(a + b) == Kinds(a) + Kinds(b)
    decreases |b|
  {
    if |b| == 0 {
      assert a + b == a;
    } else {
      var front := b[..|b| - 1];
      assert (a + b)[..|a + b| - 1] == a + front;
      assert (a + b)[|a + b| - 1] == b[|b| - 1];
      KindsConcat(a, front);
      assert Kinds(a) + Kinds(front) + [Classify(b[|b| - 1])] == Kinds(a) + Kinds(b);
    }
  }

  lemma ThenAssoc(p: Parts, q: Parts, r: Parts)
    ensures p.Then(q).Then(r) == p.Then(q.Then(r))
  {
    assert p.strings + q.strings + r.strings == p.strings + (q.strings + r.strings);
    assert p.ints + q.ints + r.ints == p.ints + (q.ints + r.ints);
    assert p.floats + q.floats + r.floats == p.floats + (q.floats + r.floats);
  }

  lemma {:induction false} GatherConcat(a: seq<TokenKind>, b: seq<TokenKind>)
    ensures Gather(a + b) == Gather(a).Then(Gather(b))
    decreases |b|
  {
    if |b| == 0 {
      assert a + b == a;
    } else {
      var front, last := b[..|b| - 1], b[|b| - 1];
      assert (a + b)[..|a + b| - 1] == a + front;
      assert (a + b)[|a + b| - 1] == last;
      GatherConcat(a, front);
      ThenAssoc(Gather(a), Gather(front), Contribution(last));
    }
  }

  /** Each list keeps the left-to-right order of the tokens: decomposing
      two runs of tokens one after the other is the same as decomposing
      their concatenation. */
  lemma DecomposeConcat(a: seq<string>, b: seq<string>)
    ensures Gather(Kinds(a + b)) == Gather(Kinds(a)).Then(Gather(Kinds(b)))
  {
    KindsConcat(a, b);
    GatherConcat(Kinds(a), Kinds(b));
  }

  /** No output list contains an empty string: a string entry is either a
      token, and tokens are not empty, or a callable's name. */
  predicate StringsNonEmpty(p: Parts) {
    forall k :: 0 <= k < |p.strings| ==> p.strings[k] != ""
  }

  /** A non-empty token contributes no empty string. */
  lemma ClassifyStringsNonEmpty(t: string)
    requires t != ""
    ensures StringsNonEmpty(Contribution(Classify(t)))
  {
  }

  lemma {:induction false} GatherStringsNonEmpty(ts: seq<string>)
    requires forall k :: 0 <= k < |ts| ==> ts[k] != ""
    ensures StringsNonEmpty(Gather(Kinds(ts)))
  {
    if |ts| > 0 {
      var front, last := ts[..|ts| - 1], ts[|ts| - 1];
      GatherStringsNonEmpty(front);
      ClassifyStringsNonEmpty(last);
      SnocParts(ts);
      KindsSnoc(front, last);
      var p, q := Gather(Kinds(front)), Contribution(Classify(last));
      assert p.Then(q).strings == p.strings + q.strings;
    }
  }

  lemma DecomposeStringsNonEmpty(line: string)
    ensures StringsNonEmpty(Decompose(line))
  {
    GatherStringsNonEmpty(Tokens(line));
  }

  /** How many of the classified tokens are glued floats. */
  function GluedCount(ks: seq<TokenKind>): nat {
    if |ks| == 0 then 0
    else GluedCount(ks[..|ks| - 1]) + (if ks[|ks| - 1].GluedFloats? then 1 else 0)
  }

  /** Every token adds exactly one entry to exactly one list, except a
      successfully split glued token, which adds two floats. */
  lemma {:induction false} GatherSize(ks: seq<TokenKind>)
    ensures Gather(ks).Size() == |ks| + GluedCount(ks)
  {
    if |ks| > 0 {
      GatherSize(ks[..|ks| - 1]);
    }
  }

  lemma DecomposeSize(line: string)
    ensures Decompose(line).Size() == |Tokens(line)| + GluedCount(Kinds(Tokens(line)))
  {
    GatherSize(Kinds(Tokens(line)));
  }

  /** The values of the int-literal tokens, in order: an independent
      description of the `ints` list. */
  function IntValues(ts: seq<string>): seq<int> {
    if |ts| == 0 then []
    else IntValues(ts[..|ts| - 1]) + (if IsIntLiteral(ts[|ts| - 1]) then [ParseInt(ts[|ts| - 1])] else [])
  }

  /** The `ints` list holds exactly the values of the int-literal tokens,
      in line order. */
  lemma {:induction false} GatherInts(ts: seq<string>)
    ensures Gather(Kinds(ts)).ints == IntValues(ts)
  {
    if |ts| > 0 {
      var front, last := ts[..|ts| - 1], ts[|ts| - 1];
      GatherInts(front);
      SnocParts(ts);
      KindsSnoc(front, last);
      ClassifyInts(last);
    }
  }

  /** The only tokens that contribute to `ints` are the int literals. */
  lemma ClassifyInts(t: string)
    ensures Contribution(Classify(t)).ints == (if IsIntLiteral(t) then [ParseInt(t)] else [])
  {
  }

  lemma DecomposeInts(line: string)
    ensures Decompose(line).ints == IntValues(Tokens(line))
  {
    GatherInts(Tokens(line));
  }

  /** The rules are tried in the order int, float, eval, glued, string: each
      kind of result is produced exactly when every earlier rule failed. */
  lemma ClassifyPriority(token: string)
    ensures Classify(token).IntToken? <==> IsIntLiteral(token)
    ensures Classify(token).FloatToken? <==> !IsIntLiteral(token) && IsFloatLiteral(token)
    ensures Classify(token).EvalNumber? || Classify(token).EvalCallable?
      <==> !IsIntLiteral(token) && !IsFloatLiteral(token) && !Eval(token).NotAnExpression?
    ensures Classify(token).GluedFloats?
      <==> && !IsIntLiteral(token) && !IsFloatLiteral(token) && Eval(token).NotAnExpression?
           && Contains(token, "E-") && Contains(token, ".") && 'E' in token
           && IsFloatLiteral(token[..GluedSplit(token)]) && IsFloatLiteral(token[GluedSplit(token)..])
  {
    if Contains(token, "E-") {
      ContainsChar(token, "E-");
    }
  }

  /** An int literal contributes one int and no float. */
  lemma IntTokenNeverFloat(token: string)
    requires IsIntLiteral(token)
    ensures Contribution(Classify(token)) == Parts([], [ParseInt(token)], [])
  {
  }

  /** `try_debug_2floats("1.52E-0210.000")` is `(1.52E-02, 10.000)`. */
  lemma GluedExample()
    ensures TryDebug2Floats("1.52E-0210.000") == Some((0.0152, 10.0))
  {
    FloatExampleExponent();
    FloatExampleTen();
    GluedExampleShape();
    TryDebugHalves("1.52E-0210.000", "1.52E-02", "10.000");
  }

  /** "1.52E-0210.000" is "1.52E-02" glued to "10.000", with its only "E"
      four characters from the end of the first half. */
  lemma GluedExampleShape()
    ensures "1.52E-0210.000" == "1.52E-02" + "10.000"
    ensures "1.52E-02"[4] == 'E' && 'E' !in "1.52E-02"[..4]
  {
    assert "1.52E-02"[..4] == "1.52";
  }

  /** Two float literals glued together, the first ending in its only "E"
      and three characters after it (a sign and two exponent digits), are
      read back as those two numbers. */
  lemma TryDebugHalves(s: string, f1: string, f2: string)
    requires s == f1 + f2 && |f1| >= 4 && f1[|f1| - 4] == 'E' && 'E' !in f1[..|f1| - 4]
    requires IsFloatLiteral(f1) && IsFloatLiteral(f2)
    ensures 'E' in s && TryDebug2Floats(s) == Some((ParseFloat(f1), ParseFloat(f2)))
  {
    var e := |f1| - 4;
    assert s[e] == 'E';
    assert s[..e] == f1[..e];
    IndexOfIs(s, 'E', e);
    assert GluedSplit(s) == |f1|;
    assert s[..|f1|] == f1 && s[|f1|..] == f2;
  }

  /** A float literal followed by a signed one, as in "1.52E-02-10.000", is
      the expression `a - b` (or `a + b`) to `eval`: the token gives one
      float, the sum, and never reaches the glued-float rule. */
  lemma SignGluedSum(f1: string, f2: string)
    requires IsSignedNumeral(f1) && IsSignedNumeral(f2) && |f2| > 0 && IsSignChar(f2[0])
    ensures IsSum(f1 + f2) && Classify(f1 + f2) == EvalNumber(SumValue(f1 + f2))
  {
    var t := f1 + f2;
    SignGluedIsSum(f1, f2);
    SignGluedStrip(f1, f2);
    EvalSum(t);
    SignGluedNotLiteral(f1, f2);
    ClassifySum(t, SumValue(t));
  }

  /** The operator of a sign-glued token sits where the second numeral
      begins, so the token is a sum cut there. */
  lemma SignGluedIsSum(f1: string, f2: string)
    requires IsSignedNumeral(f1) && IsSignedNumeral(f2) && |f2| > 0 && IsSignChar(f2[0])
    ensures IsSum(f1 + f2) && OperatorAt(f1 + f2) == Some(|f1|)
  {
    var t, k := f1 + f2, |f1|;
    SignGluedOperator(f1, f2);
    OperatorFromIs(t, 1, k);
    assert t[..k] == f1 && t[k..] == f2;
  }

  /** The value of a sign-glued token is the sum of its two numerals. */
  lemma SumValueGlued(f1: string, f2: string)
    requires IsSignedNumeral(f1) && IsSignedNumeral(f2) && |f2| > 0 && IsSignChar(f2[0])
    ensures IsSum(f1 + f2) && SumValue(f1 + f2) == FloatTextValue(f1) + FloatTextValue(f2)
  {
    SignGluedIsSum(f1, f2);
    assert (f1 + f2)[..|f1|] == f1 && (f1 + f2)[|f1|..] == f2;
  }

  /** A token that is no literal and that `eval` reads as the number `v`
      is classified as that number. */
  lemma ClassifySum(t: string, v: real)
    requires !IsIntLiteral(t) && !IsFloatLiteral(t) && Eval(t) == Number(v)
    ensures Classify(t) == EvalNumber(v)
  {
  }

  /** A whitespace-free token that is a sum evaluates to its value. */
  lemma EvalSum(t: string)
    requires Strip(t, Whitespace) == t && IsSum(t)
    ensures Eval(t) == Number(SumValue(t))
  {
  }

  lemma SignGluedOperator(f1: string, f2: string)
    requires IsSignedNumeral(f1) && IsSignedNumeral(f2) && |f2| > 0 && IsSignChar(f2[0])
    ensures var t := f1 + f2; 0 < |f1| < |t| && IsOperator(t, |f1|)
    ensures var t := f1 + f2; forall i :: 1 <= i < |f1| ==> !IsOperator(t, i)
  {
    SignedNumeralStart(f1);
    SignedNumeralSigns(f1);
    SignedNumeralEnd(f1);
    GluedOperator(f1, f2, |f1| - |Unsigned(f1)|);
  }

  /** A sign-glued token has no whitespace to strip. */
  lemma SignGluedStrip(f1: string, f2: string)
    requires IsSignedNumeral(f1) && IsSignedNumeral(f2) && |f2| > 0 && IsSignChar(f2[0])
    ensures Strip(f1 + f2, Whitespace) == f1 + f2
  {
    SignedNumeralStart(f1);
    SignedNumeralEnd(f2);
    NumberCharNotWhitespace(f1[0]);
    NumberCharNotWhitespace(f2[|f2| - 1]);
    GluedEnds(f1, f2);
  }

  lemma NumberCharNotWhitespace(c: char)
    requires IsSignChar(c) || IsDigit(c) || c == '.'
    ensures c !in Whitespace
  {
  }

  lemma GluedEnds(f1: string, f2: string)
    requires |f1| > 0 && |f2| > 0 && f1[0] !in Whitespace && f2[|f2| - 1] !in Whitespace
    ensures Strip(f1 + f2, Whitespace) == f1 + f2
  {
    var t := f1 + f2;
    assert t[0] == f1[0] && t[|t| - 1] == f2[|f2| - 1];
    StripFixed(t, Whitespace);
  }

  /** The same on the characters alone: `f1` is an optional sign, then a
      text whose signs all open an exponent, ending in a digit or a point. */
  lemma GluedOperator(f1: string, f2: string, off: nat)
    requires off <= 1 && off < |f1| && !IsSignChar(f1[off])
    requires forall j :: off <= j < |f1| && IsSignChar(f1[j]) ==> off < j && IsExponentMarker(f1[j - 1])
    requires IsDigit(f1[|f1| - 1]) || f1[|f1| - 1] == '.'
    requires |f2| > 0 && IsSignChar(f2[0])
    ensures var t := f1 + f2; 0 < |f1| < |t| && IsOperator(t, |f1|)
    ensures var t := f1 + f2; forall i :: 1 <= i < |f1| ==> !IsOperator(t, i)
  {
    var t := f1 + f2;
    assert t[|f1|] == f2[0] && t[|f1| - 1] == f1[|f1| - 1];
    forall i | 1 <= i < |f1|
      ensures !IsOperator(t, i)
    {
      assert t[i] == f1[i] && t[i - 1] == f1[i - 1];
    }
  }

  /** A sign-glued token is neither an int nor a float literal: its
      operator is a sign that does not open an exponent. */
  lemma SignGluedNotLiteral(f1: string, f2: string)
    requires IsSignedNumeral(f1) && IsSignedNumeral(f2) && |f2| > 0 && IsSignChar(f2[0])
    ensures !IsIntLiteral(f1 + f2) && !IsFloatLiteral(f1 + f2)
  {
    SignGluedStrip(f1, f2);
    SignedNumeralStart(f1);
    SignedNumeralEnd(f1);
    var t, k := f1 + f2, |f1|;
    var off := |f1| - |Unsigned(f1)|;
    assert t[k] == f2[0] && t[k - 1] == f1[k - 1] && t[0] == f1[0] && t[off] == f1[off];
    NotLiteralText(t, k, off);
  }

  /** A text with an optional sign, then a first character that is no
      sign, and a sign at `k` that does not open an exponent after a digit
      or a point, is neither an int text nor a float text. */
  lemma NotLiteralText(t: string, k: nat, off: nat)
    requires off <= 1 && off < k < |t| && !IsSignChar(t[off]) && (off == 1 <==> IsSignChar(t[0]))
    requires IsSignChar(t[k]) && (IsDigit(t[k - 1]) || t[k - 1] == '.')
    ensures !IsIntText(t) && !IsFloatText(t)
  {
    var ut := t[off..];
    assert Unsigned(t) == ut && Unsigned(ut) == ut;
    assert ut[k - off] == t[k] && ut[k - off - 1] == t[k - 1];
    if IsFloatText(t) {
      assert IsFloatText(ut);
      FloatTextSigns(ut);
      assert false;
    }
  }

  /** A builtin name goes to the strings, under its own name. */
  lemma CallableNameIsString()
    ensures Classify("max") == EvalCallable("max")
  {
    StripFixed("max", Whitespace);
    assert OperatorAt("max") == None;
    assert !IsDigit("max"[0]);
    assert ExponentAt("max") == None;
    IndexOfFirst("max", '.');
  }
}
