/** The base of the output sub-parsers: line preprocessing and the relative
    index at which a sub-parser stopped reading. */
module SubParserBase {

  import opened Wrappers
  import opened Strings

  /** One line as `preprocess_lines` leaves it: newlines stripped from both
      ends, then surrounding whitespace. */
  function PreprocessLine(x: string): string {
    Strip(Strip(x, {'\n'}), Whitespace)
  }

  /** `preprocess_lines(lines)` */
  function PreprocessLines(lines: seq<string>): (r: seq<string>)
    ensures |r| == |lines|
    ensures forall i :: 0 <= i < |lines| ==> r[i] == PreprocessLine(lines[i])
  {
    seq(|lines|, i requires 0 <= i < |lines| => PreprocessLine(lines[i]))
  }

  /** A preprocessed line neither starts nor ends with whitespace. */
  lemma PreprocessLineTrimmed(x: string)
    ensures var y := PreprocessLine(x); |y| > 0 ==> y[0] !in Whitespace && y[|y| - 1] !in Whitespace
  {
    StripShape(Strip(x, {'\n'}), Whitespace);
  }

  /** Preprocessing a preprocessed line changes nothing. */
  lemma PreprocessLineIdempotent(x: string)
    ensures PreprocessLine(PreprocessLine(x)) == PreprocessLine(x)
  {
    var y := PreprocessLine(x);
    PreprocessLineTrimmed(x);
    StripFixed(y, {'\n'});
    StripFixed(y, Whitespace);
  }

  /** `preprocess_lines` is idempotent. */
  lemma PreprocessIdempotent(lines: seq<string>)
    ensures PreprocessLines(PreprocessLines(lines)) == PreprocessLines(lines)
  {
    forall i | 0 <= i < |lines|
      ensures PreprocessLines(PreprocessLines(lines))[i] == PreprocessLines(lines)[i]
    {
      PreprocessLineIdempotent(lines[i]);
    }
  }

  /** The state every sub-parser inherits: where, relative to the first line
      it was given, it stopped reading. */
  class BaseSubParser {
    var endingRelativeIndex: Option<int>

    /** A fresh sub-parser has no ending index yet. */
    constructor ()
      ensures endingRelativeIndex == None
    {
      endingRelativeIndex := None;
    }

    /** The `ending_relative_index` property: the stored index, or a
        ValueError while it is unset. */
    function EndingRelativeIndex(): (r: Result<int>)
      reads this
      ensures r.Success? <==> endingRelativeIndex.Some?
      ensures r.Success? ==> r.value == endingRelativeIndex.value
      ensures r.Failure? ==> r.error == ValueError
    {
      match endingRelativeIndex
      case Some(i) => Success(i)
      case None => Failure(ValueError)
    }

    /** Records where the sub-parser stopped. */
    method SetEndingRelativeIndex(i: int)
      modifies this
      ensures endingRelativeIndex == Some(i)
    {
      endingRelativeIndex := Some(i);
    }
  }
}
