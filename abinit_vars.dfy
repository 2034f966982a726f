/** The conversion of ABINIT input variables, given as (name, value string)
    pairs, into numbers, vectors of numbers and units. */
module AbinitVars {
  import opened Wrappers
  import opened Strings
  import opened Literals

  /** What `int(x)` or `float(x)` returned. */
  datatype Numeric = IntValue(i: int) | FloatValue(f: real)

  /** A single number, or a list of them. */
  datatype Value = Scalar(n: Numeric) | Vector(items: seq<Numeric>)

  /** The `{"value": ..., "units": ...}` record of one variable. */
  datatype Converted = Converted(value: Value, units: Option<string>)

  /** `_convert_to_numeric`: an int if `int` accepts the string, else a float
      if `float` does, else ValueError. */
  function ConvertToNumeric(s: string): (r: Result<Numeric>)
    ensures r.Failure? <==> !IsFloatLiteral(s)
    ensures r.Failure? ==> r.error == ValueError
    ensures r.Success? && r.value.FloatValue? ==> !IsIntLiteral(s)
    ensures r.Success? ==> IsFloatLiteral(s) && ParseFloat(s) == NumericReal(r.value)
  {
    if IsIntLiteral(s) then
      IntLiteralIsFloatLiteral(s);
      Success(IntValue(ParseInt(s)))
    else if IsFloatLiteral(s) then Success(FloatValue(ParseFloat(s)))
    else Failure(ValueError)
  }

  /** The number as a real, whichever form it took. */
  function NumericReal(n: Numeric): real {
    match n
    case IntValue(i) => i as real
    case FloatValue(f) => f
  }

  /** A number converter: `_convert_to_numeric`, which the vector loop
      applies as `ConvertToNumeric`. */
  type NumberReader = string -> Result<Numeric>

  /** `_convert_to_vector` by its outcome from word `i` on: each word
      converted in order, or the first conversion error. */
  function VectorScan(xs: seq<string>, conv: NumberReader, i: nat, acc: seq<Numeric>): (r: Result<seq<Numeric>>)
    requires i <= |xs|
    decreases |xs| - i
  {
    if i == |xs| then Success(acc)
    else
      var n :- conv(xs[i]);
      VectorScan(xs, conv, i + 1, acc + [n])
  }

  function VectorOf(xs: seq<string>): Result<seq<Numeric>> {
    VectorScan(xs, ConvertToNumeric, 0, [])
  }

  method ConvertToVector(xs: seq<string>) returns (r: Result<seq<Numeric>>)
    ensures r == VectorOf(xs)
  {
    var vector := [];
    for k := 0 to |xs|
      invariant VectorOf(xs) == VectorScan(xs, ConvertToNumeric, k, vector)
    {
      var n := ConvertToNumeric(xs[k]);
      if n.Failure? {
        return Failure(n.error);
      }
      vector := vector + [n.value];
    }
    return Success(vector);
  }

  predicate Converts(xs: seq<string>, conv: NumberReader, i: nat, acc: seq<Numeric>)
    requires i <= |xs|
  {
    |acc| == i && forall k :: 0 <= k < i ==> conv(xs[k]) == Success(acc[k])
  }

  lemma {:induction false} VectorScanItems(xs: seq<string>, conv: NumberReader, i: nat, acc: seq<Numeric>)
    requires i <= |xs| && Converts(xs, conv, i, acc)
    ensures VectorScan(xs, conv, i, acc).Success? <==> forall k :: i <= k < |xs| ==> conv(xs[k]).Success?
    ensures VectorScan(xs, conv, i, acc).Success? ==> Converts(xs, conv, |xs|, VectorScan(xs, conv, i, acc).value)
    ensures VectorScan(xs, conv, i, acc).Failure? ==> exists k :: i <= k < |xs| && conv(xs[k]) == Failure(VectorScan(xs, conv, i, acc).error)
    decreases |xs| - i
  {
    if i < |xs| && conv(xs[i]).Success? {
      var acc' := acc + [conv(xs[i]).value];
      assert Converts(xs, conv, i + 1, acc') by {
        assert forall k :: 0 <= k < i ==> acc'[k] == acc[k];
      }
      VectorScanItems(xs, conv, i + 1, acc');
    }
  }

  /** The vector holds, in order, the conversion of each word, and fails
      with ValueError exactly when some word is not a float literal. */
  lemma VectorItems(xs: seq<string>)
    ensures VectorOf(xs).Success? <==> forall k :: 0 <= k < |xs| ==> IsFloatLiteral(xs[k])
    ensures VectorOf(xs).Success? ==>
      |VectorOf(xs).value| == |xs| && forall k :: 0 <= k < |xs| ==> ConvertToNumeric(xs[k]) == Success(VectorOf(xs).value[k])
    ensures VectorOf(xs).Failure? ==> VectorOf(xs).error == ValueError
  {
    VectorScanItems(xs, ConvertToNumeric, 0, []);
  }

  /** `_extract_units`: a last word made of letters is the unit, and the
      numeric part is the other words joined by single spaces; a single word
      has no unit; a blank string has no last word (IndexError). */
  function ExtractUnits(s: string): Result<(string, Option<string>)> {
    var w := Words(s);
    if |w| == 1 then Success((s, None))
    else if |w| == 0 then Failure(IndexError)
    else if IsAlpha(w[|w| - 1]) then Success((Join(w[..|w| - 1], " "), Some(w[|w| - 1])))
    else Success((s, None))
  }

  /** A unit is found exactly when there are two words or more and the last
      is alphabetic; the numeric part then splits back into the words before
      it, and otherwise it is the whole string. */
  lemma ExtractUnitsShape(s: string)
    ensures ExtractUnits(s).Failure? <==> |Words(s)| == 0
    ensures ExtractUnits(s).Success? ==>
      var (num, units) := ExtractUnits(s).value;
      && (units.Some? <==> |Words(s)| >= 2 && IsAlpha(Words(s)[|Words(s)| - 1]))
      && (units.Some? ==> units.value == Words(s)[|Words(s)| - 1] && Words(num) == Words(s)[..|Words(s)| - 1])
      && (units.None? ==> num == s)
  {
    var w := Words(s);
    if |w| >= 2 && IsAlpha(w[|w| - 1]) {
      WordsShape(s);
      WordsJoin(w[..|w| - 1]);
    }
  }

  /** `_get_value` (the constructor of `StrConverter`): the units, then a
      vector when the numeric part has several words, else a scalar. */
  function GetValue(s: string): Result<Converted> {
    var (num, units) :- ExtractUnits(s);
    var w := Words(num);
    if |w| > 1 then
      var items :- VectorOf(w);
      Success(Converted(Vector(items), units))
    else
      var n :- ConvertToNumeric(num);
      Success(Converted(Scalar(n), units))
  }

  method ConvertValue(s: string) returns (r: Result<Converted>)
    ensures r == GetValue(s)
  {
    var split := ExtractUnits(s);
    if split.Failure? {
      return Failure(split.error);
    }
    var (num, units) := split.value;
    var w := Words(num);
    if |w| > 1 {
      var items := ConvertToVector(w);
      if items.Failure? {
        return Failure(items.error);
      }
      return Success(Converted(Vector(items.value), units));
    }
    var n := ConvertToNumeric(num);
    if n.Failure? {
      return Failure(n.error);
    }
    return Success(Converted(Scalar(n.value), units));
  }

  /** A value of one word is a scalar without units. */
  lemma OneWordScalar(s: string)
    requires |Words(s)| == 1
    ensures GetValue(s).Success? ==> GetValue(s).value.units == None && GetValue(s).value.value.Scalar?
  {
  }

  /** With a unit, the vector holds one number per word before the unit. */
  lemma UnitVector(s: string)
    requires |Words(s)| >= 3 && IsAlpha(Words(s)[|Words(s)| - 1])
    ensures GetValue(s).Success? ==>
      && GetValue(s).value.units == Some(Words(s)[|Words(s)| - 1])
      && GetValue(s).value.value.Vector?
      && |GetValue(s).value.value.items| == |Words(s)| - 1
  {
    ExtractUnitsShape(s);
    var w := Words(s);
    VectorItems(Words(Join(w[..|w| - 1], " ")));
  }

  // ---------------------------------------------------------------------
  // AbinitVarStrToNum
  // ---------------------------------------------------------------------

  /** A value converter: `StrConverter`, which `_convert_value` applies
      as `GetValue`. */
  type Converter = string -> Result<Converted>

  /** `_extract_data` by its outcome from pair `i` on, over the pairs of the
      dictionary in its iteration order: values holding "Printing" are
      dropped, the others converted; the first conversion error ends it. */
  function DataScan(vars: seq<(string, string)>, conv: Converter, i: nat, data: map<string, Converted>): Result<map<string, Converted>>
    requires i <= |vars|
    decreases |vars| - i
  {
    if i == |vars| then Success(data)
    else
      var (name, value) := vars[i];
      if Contains(value, "Printing") then DataScan(vars, conv, i + 1, data)
      else
        var c :- conv(value);
        DataScan(vars, conv, i + 1, data[name := c])
  }

  function DataOf(vars: seq<(string, string)>, conv: Converter): Result<map<string, Converted>> {
    DataScan(vars, conv, 0, map[])
  }

  method ExtractData(vars: seq<(string, string)>) returns (r: Result<map<string, Converted>>)
    ensures r == DataOf(vars, GetValue)
  {
    var data := map[];
    for k := 0 to |vars|
      invariant DataOf(vars, GetValue) == DataScan(vars, GetValue, k, data)
    {
      var (name, value) := vars[k];
      if Contains(value, "Printing") {
        continue;
      }
      var c := ConvertValue(value);
      if c.Failure? {
        return Failure(c.error);
      }
      data := data[name := c.value];
    }
    return Success(data);
  }

  ghost predicate Kept(vars: seq<(string, string)>, i: nat, name: string)
    requires i <= |vars|
  {
    exists k :: 0 <= k < i && vars[k].0 == name && !Contains(vars[k].1, "Printing")
  }

  /** Each kept name maps to the conversion of one of its values. */
  ghost predicate FromPairs(vars: seq<(string, string)>, conv: Converter, i: nat, data: map<string, Converted>)
    requires i <= |vars|
  {
    && (forall name :: name in data <==> Kept(vars, i, name))
    && (forall name :: name in data ==> exists k :: 0 <= k < i && vars[k].0 == name && conv(vars[k].1) == Success(data[name]))
  }

  lemma {:induction false} DataScanKeys(vars: seq<(string, string)>, conv: Converter, i: nat, data: map<string, Converted>)
    requires i <= |vars| && FromPairs(vars, conv, i, data)
    ensures DataScan(vars, conv, i, data).Success? ==> FromPairs(vars, conv, |vars|, DataScan(vars, conv, i, data).value)
    decreases |vars| - i
  {
    if i < |vars| {
      var (name, value) := vars[i];
      if Contains(value, "Printing") {
        assert FromPairs(vars, conv, i + 1, data) by {
          forall n ensures Kept(vars, i + 1, n) ==> Kept(vars, i, n) {
            if Kept(vars, i + 1, n) {
              var k :| 0 <= k < i + 1 && vars[k].0 == n && !Contains(vars[k].1, "Printing");
            }
          }
        }
        DataScanKeys(vars, conv, i + 1, data);
      } else if conv(value).Success? {
        var data' := data[name := conv(value).value];
        assert FromPairs(vars, conv, i + 1, data') by {
          forall n ensures n in data' <==> Kept(vars, i + 1, n) {
            if Kept(vars, i + 1, n) && n != name {
              var k :| 0 <= k < i + 1 && vars[k].0 == n && !Contains(vars[k].1, "Printing");
              assert k < i;
            }
          }
          forall n | n in data'
            ensures exists k :: 0 <= k < i + 1 && vars[k].0 == n && conv(vars[k].1) == Success(data'[n])
          {
            if n == name {
              assert vars[i].0 == n && conv(vars[i].1) == Success(data'[n]);
            } else {
              var k :| 0 <= k < i && vars[k].0 == n && conv(vars[k].1) == Success(data[n]);
            }
          }
        }
        DataScanKeys(vars, conv, i + 1, data');
      }
    }
  }

  /** The variables kept are exactly those with a pair whose value does not
      hold "Printing", each mapped to the conversion of one of its values. */
  lemma DataKeys(vars: seq<(string, string)>, conv: Converter)
    ensures DataOf(vars, conv).Success? ==> FromPairs(vars, conv, |vars|, DataOf(vars, conv).value)
  {
    DataScanKeys(vars, conv, 0, map[]);
  }

  class AbinitVarStrToNum {
    var data: Result<map<string, Converted>>

    /** The converted variables of the dictionary. */
    constructor (vars: seq<(string, string)>)
      ensures data == DataOf(vars, GetValue)
    {
      var converted := ExtractData(vars);
      data := converted;
    }
  }
}
