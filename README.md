# abioutput in Dafny

This project models the parsing core of `abioutput`, a Python package that
reads the text files produced by the ABINIT electronic-structure code. It
covers the following parts:

- **Token classifier.** `decompose_line` splits a line into its strings,
  integers and floats. It recovers two floats that ABINIT printed glued
  together (`try_debug_2floats`).
- **Older sub-parser base.** The base class of the older output sub-parsers
  (`BaseSubParser`), with its line preprocessing.
- **Eigenvalue sub-parsers.** Both versions, the current one and the
  legacy one. They read the "Eigenvalues" section of an output file, per
  k-point and per spin.
- **Dataset parser.** It hands the lines of a dataset to the sub-parsers
  whose trigger phrase it meets.
- **File readers.** The DMFT `.eig` and projector files, FATBAND files,
  "files" files and the column titles of DOS files.
- **Variable converter.** It turns ABINIT input-variable strings into
  numbers, vectors and units.
- **Reporting table.** `Table`, with rows, columns and sorting.
- **Directory utilities.** File search, the status checkers and the
  calculation-directory object.

Each core file is one module. Where the source is a loop, the model is a
method with its loop, and the method is proved equal to a recursive
specification function. The properties are lemmas about those functions.
Where the source object updates its own fields, the model is a class. Python
exceptions are the `Failure` case of `Result` (`Wrappers`). The file system is
a tree of `Entry` values (`Routines`). A file's contents are its list of
lines, passed in as a parameter.

| file | module |
|---|---|
| wrappers.dfy | Wrappers: `Result`, `Option`, the Python exception names |
| strings.dfy | Strings: `split`, `strip`, `in`, `startswith`, `lower` on `seq<char>` |
| literals.dfy | Literals: the text `int()` and `float()` accept, and its value |
| common_routines.dfy | CommonRoutines: `decompose_line`, `try_debug_2floats` |
| base.dfy | SubParserBase: `BaseSubParser` |
| eig_common.dfy | EigSections: the parts shared by both eigenvalue sub-parsers |
| eig_parser.dfy | EigParser: the current eigenvalue sub-parser |
| eig_parser_legacy.dfy | LegacyEigParser: the older eigenvalue sub-parser |
| dtset_parser.dfy | DtsetParser: `SubParsersList`, `DtsetParser` |
| dmft_eig_parser.dfy | DmftEigParser: `DMFTEigParser` |
| dmft_projectors_parser.dfy | DmftProjectorsParser: `DMFTProjectorsParser` |
| fatband_parser.dfy | FatbandParser: `FatbandParser` |
| filesfile_parser.dfy | FilesFileParser: `FilesFileParser` |
| dos_parser.dfy | DosParser: `DOSParser` titles |
| abinit_vars.dfy | AbinitVars: `AbinitVarStrToNum`, `StrConverter` |
| builders.dfy | Builders: `Table` |
| routines.dfy | Routines: `search_in_all_subdirs`, `get_all_subfiles`, `styled_text` |
| status_checkers.dfy | StatusCheckers: `StatusChecker`, `FileStatusChecker` |
| calculation_dir.dfy | CalculationDir: `CalculationDir` |

Two behaviours of the code differ from the package's own description of the
eigenvalue extractor. The model follows the code in both:

- The coordinates of a k-point are fields -5, -4 and -3 of its line, not
  the last three fields.
- The current parser keeps the occupation lists in a list of their own. It
  does not attach them to the last k-point record. Only the legacy parser
  does that.

## Model

| member | source | states |
|---|---|---|
| Literals.IntLiteralIsFloatLiteral | abioutput/parsers/utils/_common_routines.py:19-35 | text that `int()` accepts is also accepted by `float()`, with the same value |
| Literals.FloatTextSigns | abioutput/parsers/utils/_common_routines.py:28-35 | in a float text with no leading sign, a sign only opens the exponent, and the text ends in a digit or a point |
| Literals.SignedNumeralStart | abioutput/parsers/utils/_common_routines.py:28-50 | a signed numeral starts with a digit or a point after at most one sign |
| Literals.SignedNumeralSigns | abioutput/parsers/utils/_common_routines.py:28-50 | past its unary sign, a signed numeral holds a sign only right after an exponent marker |
| Literals.SignedNumeralEnd | abioutput/parsers/utils/_common_routines.py:28-50 | a signed numeral ends in a digit or a point |
| CommonRoutines.Eval | abioutput/parsers/utils/_common_routines.py:37-50 | a token that evaluates to a callable is named by the token itself, stripped, and the name is never empty |
| CommonRoutines.OperatorAt | abioutput/parsers/utils/_common_routines.py:37-50 | the binary `+` or `-` of a token is its first sign after the first character that does not follow an exponent marker |
| CommonRoutines.OperatorFromIs | abioutput/parsers/utils/_common_routines.py:37-50 | the first such sign at or after a position is found there |
| CommonRoutines.EvalSum | abioutput/parsers/utils/_common_routines.py:37-50 | `eval` of a sum of two numerals, the first with an optional unary sign, is the number they add up to |
| CommonRoutines.ClassifySum | abioutput/parsers/utils/_common_routines.py:19-50 | a token that is no literal and that `eval` reads as a number is one float of that value |
| CommonRoutines.SignGluedSum | abioutput/parsers/utils/_common_routines.py:19-61 | a float literal followed by a signed one, such as "1.52E-02-10.000", is one float, the sum, and never reaches the glued-float rule |
| CommonRoutines.SignGluedIsSum | abioutput/parsers/utils/_common_routines.py:37-50 | such a token is a sum whose operator is where the second numeral starts |
| CommonRoutines.SumValueGlued | abioutput/parsers/utils/_common_routines.py:37-50 | its value is the value of the first numeral plus that of the second, sign included |
| CommonRoutines.SignGluedNotLiteral | abioutput/parsers/utils/_common_routines.py:19-35 | such a token is neither an int nor a float literal |
| CommonRoutines.NotLiteralText | abioutput/parsers/utils/_common_routines.py:19-35 | a sign that follows a digit or a point, past the first character, makes a text neither an int nor a float |
| CommonRoutines.GluedSplit | abioutput/parsers/utils/_common_routines.py:70-85 | the cut of a glued token is the end of the token, or falls four characters after an 'E' |
| CommonRoutines.GluedSplitFirst | abioutput/parsers/utils/_common_routines.py:70-85 | the cut follows the first 'E' of the token |
| CommonRoutines.TryDebug2Floats | abioutput/parsers/utils/_common_routines.py:70-85 | a result is the two halves around the cut, each read by `float()`; otherwise None |
| CommonRoutines.TryDebugHalves | abioutput/parsers/utils/_common_routines.py:70-85 | two float literals glued together, the first ending in its only "E" followed by a sign and two digits, are cut after that exponent and read back as those two numbers |
| CommonRoutines.GluedExample | abioutput/parsers/utils/_common_routines.py:51-59 | "1.52E-0210.000" is read as 0.0152 and 10.0 |
| CommonRoutines.Classify | abioutput/parsers/utils/_common_routines.py:15-61 | a token classed as a string is kept unchanged; a callable has a non-empty name |
| CommonRoutines.Expression | abioutput/parsers/utils/_common_routines.py:37-61 | past the int and float rules, a string result is the token itself |
| CommonRoutines.Leftover | abioutput/parsers/utils/_common_routines.py:51-61 | past `eval`, a token is either two glued floats or the string itself |
| CommonRoutines.ClassifyPriority | abioutput/parsers/utils/_common_routines.py:19-61 | the rules apply in order: int exactly for int literals, float exactly for other float literals, then `eval`, then glued floats |
| CommonRoutines.IntTokenNeverFloat | abioutput/parsers/utils/_common_routines.py:19-26 | an int literal contributes exactly one int and nothing else |
| CommonRoutines.Tokens | abioutput/parsers/utils/_common_routines.py:9-17 | the tokens of a line are never empty |
| CommonRoutines.TokensHaveNoSpace | abioutput/parsers/utils/_common_routines.py:9-17 | no token holds a space |
| CommonRoutines.Kinds | abioutput/parsers/utils/_common_routines.py:18-62 | one class per token |
| CommonRoutines.DecomposeLine | abioutput/parsers/utils/_common_routines.py:9-67 | the loop's three lists are the classification of the tokens, gathered in order |
| CommonRoutines.DecomposeToken | abioutput/parsers/utils/_common_routines.py:18-62 | one pass of the loop adds what the token's class contributes |
| CommonRoutines.DecomposeExpression | abioutput/parsers/utils/_common_routines.py:37-62 | the `eval` branch adds what `Expression` contributes |
| CommonRoutines.DecomposeLeftover | abioutput/parsers/utils/_common_routines.py:51-62 | the glued-float branch adds what `Leftover` contributes |
| CommonRoutines.DecomposeConcat | abioutput/parsers/utils/_common_routines.py:9-67 | decomposing two token runs together is decomposing each and joining the lists |
| CommonRoutines.DecomposeStringsNonEmpty | abioutput/parsers/utils/_common_routines.py:9-67 | no string returned is empty |
| CommonRoutines.GatherSize | abioutput/parsers/utils/_common_routines.py:18-67 | every token gives one value, and a glued token gives one more |
| CommonRoutines.DecomposeSize | abioutput/parsers/utils/_common_routines.py:9-67 | the three lists together hold one value per token plus one per glued token |
| CommonRoutines.GatherInts | abioutput/parsers/utils/_common_routines.py:18-26 | the ints of a token run are the int literals among them, in order |
| CommonRoutines.DecomposeInts | abioutput/parsers/utils/_common_routines.py:9-26 | the ints of a line are the values of its int-literal tokens, in order |
| SubParserBase.PreprocessLines | abioutput/output_subparsers/base.py:28-30 | one stripped line per line, in order |
| SubParserBase.PreprocessLineTrimmed | abioutput/output_subparsers/base.py:28-30 | a preprocessed line neither starts nor ends with whitespace |
| SubParserBase.PreprocessLineIdempotent | abioutput/output_subparsers/base.py:28-30 | preprocessing a line twice is preprocessing it once |
| SubParserBase.PreprocessIdempotent | abioutput/output_subparsers/base.py:28-30 | preprocessing the lines twice is preprocessing them once |
| SubParserBase.BaseSubParser.constructor | abioutput/output_subparsers/base.py:13-17 | a new sub-parser has no ending index |
| SubParserBase.BaseSubParser.EndingRelativeIndex | abioutput/output_subparsers/base.py:19-26 | the stored index when one is set, a ValueError otherwise |
| SubParserBase.BaseSubParser.SetEndingRelativeIndex | abioutput/output_subparsers/base.py:19-26 | the index is stored |
| EigSections.LoiShape | abioutput/parsers/output_subparsers/eig_parser.py:29-38 | the section is the longest prefix without an empty or "Total charge density" line; the ending is that line's index, or the last index |
| EigSections.GetLoi | abioutput/parsers/output_subparsers/eig_parser.py:29-38 | the loop returns that section and records that ending in the sub-parser |
| EigSections.BlockUntilShape | abioutput/parsers/output_subparsers/eig_parser.py:118-124 | a block is a prefix of the lines, and only its end can be a stop line |
| EigSections.NextNumberBlockShape | abioutput/parsers/output_subparsers/eig_parser.py:118-124 | the next number block is the prefix before the first "kpt#" or "occupation numbers" line |
| EigSections.Markers | abioutput/parsers/output_subparsers/eig_parser.py:55-59 | the spin line indices are within the lines and increasing |
| EigSections.MarkersAreSpinLines | abioutput/parsers/output_subparsers/eig_parser.py:55-59 | every recorded start is a line holding "SPIN" |
| EigSections.SegmentsCover | abioutput/parsers/output_subparsers/eig_parser.py:50-63 | when the first line holds "SPIN", the spin segments put together are exactly the lines |
| EigSections.SpinMarkers | abioutput/parsers/output_subparsers/eig_parser.py:52-60 | the loop's `spins` and `starts` are the labels and segment bounds |
| EigSections.SpinLabelOfLastWord | abioutput/parsers/output_subparsers/eig_parser.py:58 | the label is the last space-separated word, without its last character, lower-cased |
| EigSections.PolarizedKeys | abioutput/parsers/output_subparsers/eig_parser.py:61-63 | the keys of the polarised data are exactly the spin labels |
| EigSections.PolarizedSucceeds | abioutput/parsers/output_subparsers/eig_parser.py:61-63 | polarised parsing succeeds exactly when every segment parses |
| EigSections.PolarizedEntries | abioutput/parsers/output_subparsers/eig_parser.py:61-63 | each label maps to its own segment's data, and a later segment with the same label overrides an earlier one |
| EigSections.PolarizedStops | abioutput/parsers/output_subparsers/eig_parser.py:61-63 | the first segment that fails gives the error |
| EigSections.Units | abioutput/parsers/output_subparsers/eig_parser.py:72-75 | a first line without parentheses, or with nothing in them, is an IndexError |
| EigSections.UnitsShape | abioutput/parsers/output_subparsers/eig_parser.py:72-75 | the units are a non-empty word free of spaces and parentheses, from a line holding '(' |
| EigSections.FloatsEach | abioutput/parsers/output_subparsers/eig_parser.py:126-132 | converting fields succeeds exactly when each is a float literal, giving each one's value |
| EigSections.KptCoord | abioutput/parsers/output_subparsers/eig_parser.py:126-132 | three coordinates; an IndexError exactly when the line has fewer than five fields, otherwise a ValueError |
| EigSections.KptCoordFields | abioutput/parsers/output_subparsers/eig_parser.py:126-132 | the coordinates are fields -5, -4 and -3 read by `float()` |
| EigParser.GetNextNumberBlock | abioutput/parsers/output_subparsers/eig_parser.py:118-124 | the loop returns the lines before the first "kpt#" or "occupation numbers" line, or all of them |
| EigParser.GetDataFromBlock | abioutput/parsers/output_subparsers/eig_parser.py:111-116 | the floats of every line of the block, in order |
| EigParser.ScanLines | abioutput/parsers/output_subparsers/eig_parser.py:83-107 | the loop with its skip cursor collects what the line-by-line specification `Scan` collects |
| EigParser.GetEigs | abioutput/parsers/output_subparsers/eig_parser.py:65-109 | the dictionary of `_get_eigs`, or its IndexError or ValueError |
| EigParser.GetPolarizedData | abioutput/parsers/output_subparsers/eig_parser.py:50-63 | one `_get_eigs` result per spin segment, keyed by label |
| EigParser.GetData | abioutput/parsers/output_subparsers/eig_parser.py:40-48 | polarised data when the first line holds "SPIN", else unpolarised; an empty section is an IndexError |
| EigParser.EIGParser.constructor | abioutput/parsers/output_subparsers/eig_parser.py:11-27 | the data of the section (or of all lines), and the ending `_get_loi` sets (or the last index) |
| EigParser.StepShape | abioutput/parsers/output_subparsers/eig_parser.py:89-107 | a "kpt#" line adds one coordinate triple and one block, an occupation line one block; after a header the loop resumes past its block |
| EigParser.ScanCounts | abioutput/parsers/output_subparsers/eig_parser.py:85-107 | one coordinate and one eigenvalue list per "kpt#" line, one occupation list per other occupation line; only a "kpt#" line can fail |
| EigParser.EigsCounts | abioutput/parsers/output_subparsers/eig_parser.py:65-109 | coordinates and eigenvalue lists match the "kpt#" lines in number, at least one; `nbands` is the length of the first list; no "kpt#" line is an IndexError |
| EigParser.ScanCoordinates | abioutput/parsers/output_subparsers/eig_parser.py:91-93 | every coordinate list has three numbers |
| EigParser.StepSkipsNoHeader | abioutput/parsers/output_subparsers/eig_parser.py:89-107 | the lines a header's block skips hold no "kpt#" or occupation line |
| EigParser.CountStepUpTo | abioutput/parsers/output_subparsers/eig_parser.py:89-107 | skipping a block passes over no "kpt#" or occupation line: up to any later line, the header lines from a line are that line and those from where the loop resumes |
| EigParser.StepHeader | abioutput/parsers/output_subparsers/eig_parser.py:91-107 | a "kpt#" line gives its own coordinates and the block after it; an occupation line gives the block after it |
| EigParser.KptEntriesStep | abioutput/parsers/output_subparsers/eig_parser.py:89-98 | one step of the loop extends the correspondence between "kpt#" lines and collected entries back to its line |
| EigParser.OccupationEntriesStep | abioutput/parsers/output_subparsers/eig_parser.py:102-107 | one step extends the correspondence between occupation lines and occupation blocks back to its line |
| EigParser.ScanKptContents | abioutput/parsers/output_subparsers/eig_parser.py:85-98 | the k-th "kpt#" line gives the k-th coordinates (its own) and the k-th eigenvalue block (the block after it) |
| EigParser.ScanOccupationContents | abioutput/parsers/output_subparsers/eig_parser.py:85-107 | the k-th occupation line gives the k-th occupation block, the block after it |
| EigParser.CollectedContents | abioutput/parsers/output_subparsers/eig_parser.py:65-109 | the correspondence carries over to the lines after the units line, with the blocks read as numbers |
| EigParser.EigsContents | abioutput/parsers/output_subparsers/eig_parser.py:65-109 | in the data, entry k of the coordinates and eigenvalues comes from the k-th "kpt#" line and the block after it, entry k of the occupations from the block after the k-th occupation line |
| EigParser.DataPolarized | abioutput/parsers/output_subparsers/eig_parser.py:40-63 | polarised data is keyed by the spin labels of segments covering the lines; a first line without "SPIN" gives unpolarised data |
| LegacyEigParser.ReadBlock | abioutput/output_subparsers/eig_parser.py:80-87 | the `while` loop reads the numbers of the lines up to the first stop line and counts them |
| LegacyEigParser.VisitKpt | abioutput/output_subparsers/eig_parser.py:69-95 | the first half of the loop body gives the records and flag of `KptPart`, or its error |
| LegacyEigParser.VisitOccupation | abioutput/output_subparsers/eig_parser.py:96-108 | the second half gives the records of `OccupationPart`, or its TypeError or IndexError |
| LegacyEigParser.VisitLine | abioutput/output_subparsers/eig_parser.py:69-108 | one pass of the loop body: a record for a "kpt#" line, occupations for the last record, and the TypeError of the reused index |
| LegacyEigParser.GetEigs | abioutput/output_subparsers/eig_parser.py:61-109 | the loop over every line gives the records of the specification `Run`, or its error; what those records hold is stated by `EigsContents`, `EigsRecords` and `EigsOccupations` |
| LegacyEigParser.GetPolarizedData | abioutput/output_subparsers/eig_parser.py:46-59 | one record list per spin segment, keyed by label |
| LegacyEigParser.GetData | abioutput/output_subparsers/eig_parser.py:36-44 | polarised when the first line holds "SPIN", else unpolarised |
| LegacyEigParser.LegacyEIGParser.constructor | abioutput/output_subparsers/eig_parser.py:11-23 | the data of the section, and the ending `_get_loi` sets |
| LegacyEigParser.RunCounts | abioutput/output_subparsers/eig_parser.py:69-95 | one record per "kpt#" line; occupation lines add none |
| LegacyEigParser.RunCoordinates | abioutput/output_subparsers/eig_parser.py:69-79 | every record has three coordinates |
| LegacyEigParser.LineRecords | abioutput/output_subparsers/eig_parser.py:68-108 | one pass keeps the coordinates and eigenvalue block of every record; a "kpt#" line appends a record with its coordinates and the block after it |
| LegacyEigParser.RunStepRecords | abioutput/output_subparsers/eig_parser.py:68-108 | `LineRecords` for the pass over the n-th line of the loop |
| LegacyEigParser.RecordsOfKptLinesStep | abioutput/output_subparsers/eig_parser.py:68-95 | a pass that keeps the old records and adds the record of a "kpt#" line extends the line-to-record correspondence by one line |
| LegacyEigParser.RunContents | abioutput/output_subparsers/eig_parser.py:68-95 | the k-th "kpt#" line gives the k-th record its coordinates and eigenvalue block |
| LegacyEigParser.RecordsContents | abioutput/output_subparsers/eig_parser.py:61-95 | reading the numbers keeps the correspondence, now counted in the lines after the units line |
| LegacyEigParser.EigsContents | abioutput/output_subparsers/eig_parser.py:61-109 | record k of `_get_eigs` has the coordinates of the k-th "kpt#" line and the numbers of the block after it as eigenvalues |
| LegacyEigParser.EigsRecords | abioutput/output_subparsers/eig_parser.py:61-109 | one record per "kpt#" line, each with three coordinates, `nband` equal to its eigenvalue count, and the units of the first line |
| LegacyEigParser.OccupationsFirst | abioutput/output_subparsers/eig_parser.py:96-108 | occupation numbers before any "kpt#" line have no record and fail |
| LegacyEigParser.ShadowedIndex | abioutput/output_subparsers/eig_parser.py:80-98 | a "kpt#" line that also mentions occupation numbers, after an eigenvalue loop that ran, fails with a TypeError |
| LegacyEigParser.OccupationKeepsRecords | abioutput/output_subparsers/eig_parser.py:96-108 | an occupation line changes only the last record, and never its coordinates or eigenvalues |
| LegacyEigParser.RecordsOccupationUpdate | abioutput/output_subparsers/eig_parser.py:96-108 | writing an occupation block into the last raw record sets the occupations of the last record, read from that block, and nothing else |
| LegacyEigParser.EigsSucceeds | abioutput/output_subparsers/eig_parser.py:61-109 | with a units line and a loop that succeeds, `_get_eigs` gives the cooked records of the loop |
| LegacyEigParser.EigsFails | abioutput/output_subparsers/eig_parser.py:61-109 | with a units line and a loop that fails, `_get_eigs` fails with the same error |
| LegacyEigParser.RunContentsOf | abioutput/output_subparsers/eig_parser.py:68-95 | `RunContents` for a given run result |
| LegacyEigParser.LastOccupation | abioutput/output_subparsers/eig_parser.py:96-108 | the last of the first lines that mentions occupation numbers after the (k+1)-th "kpt#" line and before the next one, or none |
| LegacyEigParser.NoOccupationBeyond | abioutput/output_subparsers/eig_parser.py:96-108 | no line writes into a record whose "kpt#" line has not been read |
| LegacyEigParser.LineOccupations | abioutput/output_subparsers/eig_parser.py:68-108 | one pass writes the block after an occupation line into the last record and leaves the other records' occupations alone |
| LegacyEigParser.OccupationsStep | abioutput/output_subparsers/eig_parser.py:68-108 | such a pass extends by one line the rule that each record holds the block after its last occupation line |
| LegacyEigParser.RunOccupations | abioutput/output_subparsers/eig_parser.py:68-108 | after the loop, every record holds the block after the last occupation line that writes into it, or none |
| LegacyEigParser.WritesOccupationShift | abioutput/output_subparsers/eig_parser.py:61-108 | the lines that write into record k are the same counted in the lines of `_get_eigs` or in the lines after its units line |
| LegacyEigParser.OccupationBlockOfLines | abioutput/output_subparsers/eig_parser.py:61-108 | the block of record k follows the last line that writes into it, or there is none when no line does |
| LegacyEigParser.RecordsOccupations | abioutput/output_subparsers/eig_parser.py:96-108 | cooking the records reads the numbers of those blocks as occupations |
| LegacyEigParser.EigsOccupations | abioutput/output_subparsers/eig_parser.py:61-109 | record k of `_get_eigs` has as occupations the numbers of the lines after the last occupation line that writes into it, up to the next "kpt#" line, and has none when no line writes into it |
| DtsetParser.RegisterShape | abioutput/parsers/output_subparsers/dtset_parser.py:10-12 | the dictionary built from the sub-parsers has distinct triggers, holds only given sub-parsers and has a key for each trigger |
| DtsetParser.SubParsersList.constructor | abioutput/parsers/output_subparsers/dtset_parser.py:10-12 | the dictionary comprehension, with a later sub-parser replacing an earlier one of the same trigger |
| DtsetParser.RemoveTriggerMembers | abioutput/parsers/output_subparsers/dtset_parser.py:17-18 | removal keeps exactly the entries of other triggers |
| DtsetParser.RemoveTriggerShape | abioutput/parsers/output_subparsers/dtset_parser.py:17-18 | removal keeps the triggers distinct and drops one entry when the key exists |
| DtsetParser.SubParsersList.Remove | abioutput/parsers/output_subparsers/dtset_parser.py:17-18 | `del` removes the trigger's entry, or raises KeyError and changes nothing |
| DtsetParser.FirstMatchIs | abioutput/parsers/output_subparsers/dtset_parser.py:49-51 | the first sub-parser in dictionary order whose trigger is in the line is the one that runs |
| DtsetParser.FirstMatchNone | abioutput/parsers/output_subparsers/dtset_parser.py:49-51 | a line holding no trigger runs nothing |
| DtsetParser.DispatchLoop | abioutput/parsers/output_subparsers/dtset_parser.py:40-61 | the loop with its skip cursor and removals gives the data of the specification `Dispatch` |
| DtsetParser.RunEigenvalues | abioutput/parsers/output_subparsers/dtset_parser.py:53-58 | constructing the eigenvalue sub-parser gives its data and ending index |
| DtsetParser.GetData | abioutput/parsers/output_subparsers/dtset_parser.py:40-61 | `_get_data` with the registered sub-parsers |
| DtsetParser.DtsetParser.constructor | abioutput/parsers/output_subparsers/dtset_parser.py:28-38 | the preprocessed lines, the ending index set to their number, and their data |
| DtsetParser.FromString | abioutput/parsers/output_subparsers/dtset_parser.py:63-68 | the text split on newlines, then parsed |
| DtsetParser.FiresOnce | abioutput/parsers/output_subparsers/dtset_parser.py:49-60 | each sub-parser runs at most once, and no two runs share a trigger |
| DtsetParser.FiresPlaced | abioutput/parsers/output_subparsers/dtset_parser.py:45-58 | every run starts at or after the scan cursor and past the skipped lines, at a line holding its trigger, and ends where the sub-parser run on the lines from there says |
| DtsetParser.FiresOrdered | abioutput/parsers/output_subparsers/dtset_parser.py:45-58 | runs start at increasing lines, each after the lines the previous one consumed |
| DtsetParser.DispatchKeys | abioutput/parsers/output_subparsers/dtset_parser.py:49-56 | the data keys are the keys already present plus the subjects of the sub-parsers that ran |
| DtsetParser.SingleQuiet | abioutput/parsers/output_subparsers/dtset_parser.py:40-61 | with one sub-parser and no trigger line, the data is empty |
| DtsetParser.SingleFires | abioutput/parsers/output_subparsers/dtset_parser.py:40-61 | with one sub-parser, the first trigger line runs it on the rest, and its data or error is the result |
| DtsetParser.DtsetEigenvalues | abioutput/parsers/output_subparsers/dtset_parser.py:6 | a dataset without "Eigenvalues" has no data; otherwise its "eigenvalues" entry is the eigenvalue parser on the lines from the first such line |
| DmftEigParser.HalvesEach | abioutput/parsers/dmft/dmft_eig_parser.py:113-118 | each eigenvalue is the first float of its line divided by two |
| DmftEigParser.KptBlockIs | abioutput/parsers/dmft/dmft_eig_parser.py:102-121 | a k-point block is the halved values of the lines up to the next line without floats, with that line's index, or the last index |
| DmftEigParser.KptBlockNone | abioutput/parsers/dmft/dmft_eig_parser.py:102-121 | a k-point block without a float line is empty and ends at the last index |
| DmftEigParser.ExtractDataPerKpt | abioutput/parsers/dmft/dmft_eig_parser.py:102-121 | the loop gives the values and relative end of `KptData` |
| DmftEigParser.ExtractDataPerSpin | abioutput/parsers/dmft/dmft_eig_parser.py:75-100 | the loop gives the k-point table and relative end of `SpinData`, or a ValueError for a wrong band count |
| DmftEigParser.SpinBands | abioutput/parsers/dmft/dmft_eig_parser.py:87-95 | every k-point of a spin block has `nband` values |
| DmftEigParser.SpinEnds | abioutput/parsers/dmft/dmft_eig_parser.py:80-100 | a spin block ends at a "For spin" line met after some k-point, or at the last index |
| DmftEigParser.ExtractDataLoop | abioutput/parsers/dmft/dmft_eig_parser.py:50-73 | the loop over spin blocks gives `ExtractedData`, with the `end += rel_end` cursor |
| DmftEigParser.DataTables | abioutput/parsers/dmft/dmft_eig_parser.py:50-73 | every spin block collected has `nkpt` k-points of `nband` values |
| DmftEigParser.ExtractedShape | abioutput/parsers/dmft/dmft_eig_parser.py:50-73 | one spin gives a single nkpt x nband table; otherwise there are `nspins` such tables |
| DmftEigParser.StripHeader | abioutput/parsers/dmft/dmft_eig_parser.py:123-130 | the loop splits at the first "For each k-point" line, or raises LookupError |
| DmftEigParser.HeaderSplitShape | abioutput/parsers/dmft/dmft_eig_parser.py:123-130 | header plus body are the lines; the header ends at the first "For each k-point" line; the split fails exactly without one |
| DmftEigParser.DMFTEigParser.constructor | abioutput/parsers/dmft/dmft_eig_parser.py:11-22 | the data is the parse of the lines, and the metadata fields hold the header's values |
| DmftEigParser.DMFTEigParser.ReadData | abioutput/parsers/dmft/dmft_eig_parser.py:24-48 | header, metadata, then the eigenvalues, or the first error |
| DmftEigParser.DMFTEigParser.ExtractMetaData | abioutput/parsers/dmft/dmft_eig_parser.py:132-144 | the fields take the counts and band range from the second header line; too few ints is an IndexError that changes nothing |
| DmftProjectorsParser.ExtractDataFromBandBlock | abioutput/parsers/dmft/dmft_projectors_parser.py:137-159 | the loop gives the rows and relative end of `BandBlock` |
| DmftProjectorsParser.BandBlockIs | abioutput/parsers/dmft/dmft_projectors_parser.py:137-159 | a band block is the rows up to the next "iband"/"ikpt" line; an "ikpt" line without "iband" gives nothing |
| DmftProjectorsParser.ExtractDataFromKptBlock | abioutput/parsers/dmft/dmft_projectors_parser.py:115-135 | the loop gives the band blocks and relative end of `KptBlock` |
| DmftProjectorsParser.KptEnds | abioutput/parsers/dmft/dmft_projectors_parser.py:115-135 | a k-point block ends at a later "ikpt" line, or at the last index |
| DmftProjectorsParser.ExtractData | abioutput/parsers/dmft/dmft_projectors_parser.py:97-113 | the loop gives `ExtractedData`: the k-point blocks, each checked to hold `nband` bands |
| DmftProjectorsParser.DataBands | abioutput/parsers/dmft/dmft_projectors_parser.py:97-113 | every k-point read holds `nband` band blocks |
| DmftProjectorsParser.ExtractHeader | abioutput/parsers/dmft/dmft_projectors_parser.py:89-95 | the loop splits before the first "ikpt" line, or raises LookupError |
| DmftProjectorsParser.HeaderSplitShape | abioutput/parsers/dmft/dmft_projectors_parser.py:89-95 | header plus body are the lines; the body starts at the first "ikpt" line; the split fails exactly without one |
| DmftProjectorsParser.NBandOf | abioutput/parsers/dmft/dmft_projectors_parser.py:82-87 | the band count is the second int minus the first plus one, from the last header line; otherwise an IndexError |
| DmftProjectorsParser.Offset | abioutput/parsers/dmft/dmft_projectors_parser.py:67-78 | the row read for a (spin, atom, orbital) triple is within the spin x atom x orbital rows |
| DmftProjectorsParser.OffsetInjective | abioutput/parsers/dmft/dmft_projectors_parser.py:67-78 | distinct triples read distinct rows |
| DmftProjectorsParser.Final | abioutput/parsers/dmft/dmft_projectors_parser.py:63-78 | the table has one entry per k-point |
| DmftProjectorsParser.FinalCells | abioutput/parsers/dmft/dmft_projectors_parser.py:63-78 | the table is nkpt x nband x nspin x natom x norb; a cell is the last two values of its row as one complex number |
| DmftProjectorsParser.Fill | abioutput/parsers/dmft/dmft_projectors_parser.py:67-78 | the five nested loops fill the table cell by cell |
| DmftProjectorsParser.FillKpt | abioutput/parsers/dmft/dmft_projectors_parser.py:67-78 | the band loop fills one k-point |
| DmftProjectorsParser.FillBand | abioutput/parsers/dmft/dmft_projectors_parser.py:67-78 | the spin loop fills one band |
| DmftProjectorsParser.FillSpin | abioutput/parsers/dmft/dmft_projectors_parser.py:67-78 | the atom loop fills one spin |
| DmftProjectorsParser.FillAtom | abioutput/parsers/dmft/dmft_projectors_parser.py:67-78 | the orbital loop fills one atom |
| DmftProjectorsParser.ReshapeData | abioutput/parsers/dmft/dmft_projectors_parser.py:48-80 | the table, or the IndexError or ValueError of the array step and its indexing |
| DmftProjectorsParser.DMFTProjectorsParser.constructor | abioutput/parsers/dmft/dmft_projectors_parser.py:11-26 | the data and band count of the parse, or its error |
| DmftProjectorsParser.DMFTProjectorsParser.ReadData | abioutput/parsers/dmft/dmft_projectors_parser.py:28-46 | header, band count, blocks, table, in that order |
| FatbandParser.ExtractDataBandBlock | abioutput/parsers/fatband_parser.py:45-63 | the loop gives the block and relative end of `BandBlock`, or LookupError |
| FatbandParser.BandBlockIs | abioutput/parsers/fatband_parser.py:45-63 | a block holds the float pairs of the rows up to the next boundary; it fails with a LookupError exactly when one of those rows is not two floats and an int |
| FatbandParser.BandBlockExample | abioutput/parsers/fatband_parser.py:45-63 | "# BAND", "1 2.5 0.8", "# BAND" gives the pair (2.5, 0.8), ending at index 2 |
| FatbandParser.BandPairs | abioutput/parsers/fatband_parser.py:57-62 | every row of a block is a pair |
| FatbandParser.BandErrors | abioutput/parsers/fatband_parser.py:57-61 | the only error of a block is a LookupError |
| FatbandParser.ExtractData | abioutput/parsers/fatband_parser.py:27-43 | the loop over "# BAND" lines gives `ExtractedData`, with its skip cursor |
| FatbandParser.DataPairs | abioutput/parsers/fatband_parser.py:27-43 | every row of every block is a pair, and the only error is a LookupError |
| FatbandParser.DataNone | abioutput/parsers/fatband_parser.py:27-43 | without a "# BAND" line there is no block |
| FatbandParser.Shape | abioutput/parsers/fatband_parser.py:21-22 | the counts are the number of blocks and of rows, exactly when there is a block and all have the same length |
| FatbandParser.FatbandParser.constructor | abioutput/parsers/fatband_parser.py:9-25 | the blocks and their two counts, or the error of the reading |
| FatbandParser.FatbandParser.ReadData | abioutput/parsers/fatband_parser.py:21-25 | the same, as the fields set after reading |
| FilesFileParser.Surviving | abioutput/parsers/filesfile_parser.py:27-28 | the kept lines are no more than the lines, and none is a comment or empty |
| FilesFileParser.SurvivingKeeps | abioutput/parsers/filesfile_parser.py:27-28 | a line is kept, cleaned, exactly when its cleaned form is neither a comment nor empty |
| FilesFileParser.CleanTrimmed | abioutput/parsers/filesfile_parser.py:27 | a cleaned line has no surrounding whitespace |
| FilesFileParser.GetData | abioutput/parsers/filesfile_parser.py:23-35 | an IndexError exactly when fewer than five lines are kept |
| FilesFileParser.FieldsRoundTrip | abioutput/parsers/filesfile_parser.py:29-34 | the five paths followed by the pseudopotentials are exactly the kept lines |
| FilesFileParser.CommentsIgnored | abioutput/parsers/filesfile_parser.py:27-28 | inserting a comment or blank line changes nothing |
| FilesFileParser.FilesFileParser.constructor | abioutput/parsers/filesfile_parser.py:9-21 | the data of the lines |
| DosParser.SearchAsWritten | abioutput/parsers/dos_parser.py:22-25 | the upward search as written stops at some index from -1 up to its start |
| DosParser.SearchUpAsWritten | abioutput/parsers/dos_parser.py:22-25 | the `while` loop as written |
| DosParser.GetTitlesAsWritten | abioutput/parsers/dos_parser.py:15-37 | `_get_titles` as written |
| DosParser.LineZeroMissed | abioutput/parsers/dos_parser.py:22-25 | as written, titles on line 0 are not found |
| DosParser.LastLineRead | abioutput/parsers/dos_parser.py:19-26 | as written, data on line 0 makes the search read the last line as titles |
| DosParser.Search | abioutput/parsers/dos_parser.py:22-25 | a found line is at or before the start and holds "energy" |
| DosParser.SearchNearest | abioutput/parsers/dos_parser.py:22-30 | the search fails exactly when no line up to the start holds "energy"; otherwise it finds the nearest one |
| DosParser.SearchAgrees | abioutput/parsers/dos_parser.py:22-25 | where the corrected search finds a line after line 0, the search as written finds the same one |
| DosParser.LineZeroFound | abioutput/parsers/dos_parser.py:15-37 | corrected, titles on line 0 are found |
| DosParser.GetTitles | abioutput/parsers/dos_parser.py:15-37 | the loops give the corrected `Titles` |
| DosParser.DOSParser.constructor | abioutput/parsers/dos_parser.py:5-7 | the titles the search as written finds (`TitlesAsWritten`), or its LookupError |
| AbinitVars.ConvertToNumeric | abioutput/parsers/utils/abinit_vars.py:47-67 | a ValueError exactly when the text is not a float literal; an int literal gives an int, and every result has the literal's value |
| AbinitVars.ConvertToVector | abioutput/parsers/utils/abinit_vars.py:41-45 | the loop converts the words one by one, stopping at the first failure |
| AbinitVars.VectorItems | abioutput/parsers/utils/abinit_vars.py:41-45 | a vector converts exactly when every word is a float literal, element by element; otherwise a ValueError |
| AbinitVars.ExtractUnitsShape | abioutput/parsers/utils/abinit_vars.py:69-79 | it fails exactly for blank text; there is a unit exactly when there are two or more words and the last is alphabetic, and the number is then the words before it, otherwise the whole text |
| AbinitVars.ConvertValue | abioutput/parsers/utils/abinit_vars.py:29-39 | units split off, then several words give a vector and one word a scalar |
| AbinitVars.OneWordScalar | abioutput/parsers/utils/abinit_vars.py:29-39 | one word is a scalar without units |
| AbinitVars.UnitVector | abioutput/parsers/utils/abinit_vars.py:29-39 | with a unit after two or more numbers, the vector holds one number per word before the unit |
| AbinitVars.ExtractData | abioutput/parsers/utils/abinit_vars.py:7-15 | the loop skips values holding "Printing" and converts the others |
| AbinitVars.DataKeys | abioutput/parsers/utils/abinit_vars.py:7-15 | the names kept are exactly those with a value without "Printing", each mapped to the conversion of one of its values |
| AbinitVars.AbinitVarStrToNum.constructor | abioutput/parsers/utils/abinit_vars.py:2-5 | the converted variables |
| Builders.ColumnIndex | abioutput/utils/builders.py:68-70 | the first position of the title, or a KeyError exactly when it is not a column |
| Builders.Column | abioutput/utils/builders.py:124-143 | the cells at that position, one per row, or an IndexError exactly when some row is too short |
| Builders.Pick | abioutput/utils/builders.py:137-143 | one cell per index, with Python's negative indexing, or an IndexError exactly when an index is out of range |
| Builders.AddedRow | abioutput/utils/builders.py:54-66 | a row of the wrong length is a ValueError; otherwise it is appended |
| Builders.AddedRowAligned | abioutput/utils/builders.py:54-66 | adding a row keeps every row one cell per title |
| Builders.InsertedRemoved | abioutput/utils/builders.py:49-51 | `list.insert` puts the cell at the clamped position, and removing it gives the row back |
| Builders.AddedColumn | abioutput/utils/builders.py:33-52 | the errors of `add_column`: a ValueError for a wrong length when there are rows, an IndexError without rows |
| Builders.ColumnReadBack | abioutput/utils/builders.py:33-52 | an inserted column is read back in order at its position |
| Builders.AppendedColumn | abioutput/utils/builders.py:33-52 | without an index the cell is appended to each row, and the table stays aligned with the new title |
| Builders.RejectedColumnMisaligns | abioutput/utils/builders.py:33-52 | the title is added before the check, so a rejected column leaves the table misaligned |
| Builders.IndicesShape | abioutput/utils/builders.py:90-96 | the sortable indices are exactly the numeric rows, in increasing order |
| Builders.SortableIff | abioutput/utils/builders.py:72-88 | a column is sortable exactly when some cell is numeric |
| Builders.IndicesSplit | abioutput/utils/builders.py:90-111 | sortable and other rows share out all the rows |
| Builders.ArgSort | abioutput/utils/builders.py:114-116 | the argsort is a permutation of the positions |
| Builders.ArgSortAscending | abioutput/utils/builders.py:114-116 | the argsort lists the keys in ascending order |
| Builders.SortOrderAsWritten | abioutput/utils/builders.py:98-122 | the row order as written, within range |
| Builders.SortLosesRow | abioutput/utils/builders.py:114-116 | as written, rows ["a"], [2], [1] sorted on column 0 become [2], ["a"], ["a"] |
| Builders.SortAgreesOnPrefix | abioutput/utils/builders.py:114-116 | when the sortable rows come first, the order as written is the intended one |
| Builders.SortOrder | abioutput/utils/builders.py:98-122 | the corrected order is within range |
| Builders.SortOrderPermutation | abioutput/utils/builders.py:98-122 | the corrected order moves every row exactly once |
| Builders.SortedNumericFirst | abioutput/utils/builders.py:98-122 | after sorting, the numeric cells come first |
| Builders.SortedAscending | abioutput/utils/builders.py:114-116 | the numeric cells come in ascending order |
| Builders.SortedTail | abioutput/utils/builders.py:117-120 | the other cells follow in their original order |
| Builders.SortedRows | abioutput/utils/builders.py:98-122 | one row per row, or an IndexError exactly when the column cannot be read |
| Builders.SortedRowsColumn | abioutput/utils/builders.py:98-122 | the sorted rows are the rows permuted, and their column is permuted the same way |
| Builders.ReorderedColumn | abioutput/utils/builders.py:98-122 | moving whole rows moves every column's cells the same way |
| Builders.Reorder | abioutput/utils/builders.py:114-121 | the loop builds the rows in the corrected order, and the closing length `assert` holds |
| Builders.SortedRowsAsWritten | abioutput/utils/builders.py:98-122 | as written: an IndexError exactly when the column cannot be read; otherwise as many rows as before, each one of the old rows |
| Builders.ReorderAsWritten | abioutput/utils/builders.py:114-121 | the loop builds the rows in the order as written, and the closing length `assert` holds |
| Builders.Table.constructor | abioutput/utils/builders.py:20-31 | the titles and no rows |
| Builders.Table.AddColumn | abioutput/utils/builders.py:33-52 | the title is always appended; the rows get the column, or stay as they were on an error |
| Builders.Table.AddRow | abioutput/utils/builders.py:54-66 | the row is appended, or a ValueError leaves the table unchanged |
| Builders.Table.GetColumnIndex | abioutput/utils/builders.py:145-154 | the position of the title, or a KeyError |
| Builders.Table.IsColumnSortable | abioutput/utils/builders.py:72-88 | whether some row holds a number in the column; the lookup errors otherwise |
| Builders.Table.GetColumn | abioutput/utils/builders.py:124-143 | the column, or the cells at the indices |
| Builders.Table.SortBy | abioutput/utils/builders.py:98-122 | the rows in the order as written (`SortedRowsAsWritten`), or the lookup error with the rows unchanged |
| Routines.Basename | abioutput/utils/routines.py:15 | a base name holds no '/' and is no longer than the path |
| Routines.BasenameJoin | abioutput/utils/routines.py:45-52 | the base name of a joined path is the entry's name |
| Routines.WithoutIgnoredMembers | abioutput/utils/routines.py:39-44 | dropping ignored names keeps every other entry and adds none |
| Routines.IgnoredGone | abioutput/utils/routines.py:39-44 | in a directory with distinct names, no ignored name is left |
| Routines.DropIgnored | abioutput/utils/routines.py:41-44 | the loop removes the first entry of each ignored name |
| Routines.SubFilesReaches | abioutput/utils/routines.py:45-53 | a path is listed exactly when it names a file reachable from the directory |
| Routines.IgnoreTopOnly | abioutput/utils/routines.py:49-52 | `ignore` acts only at the top level; subdirectories are listed in full |
| Routines.GetAllSubfiles | abioutput/utils/routines.py:35-53 | the loop gives the files here, then those of each subdirectory, recursively |
| Routines.Selected | abioutput/utils/routines.py:14-27 | no more paths are kept than are listed |
| Routines.SelectedMembers | abioutput/utils/routines.py:14-27 | a path is kept exactly when it is listed and its base name matches |
| Routines.SelectedAppend | abioutput/utils/routines.py:14-27 | selection is path by path, so it distributes over concatenation |
| Routines.DefaultsKeepAll | abioutput/utils/routines.py:26-27 | with no criterion every file is kept |
| Routines.FilenameOverrides | abioutput/utils/routines.py:16-20 | a `filename` makes the other criteria irrelevant |
| Routines.Search | abioutput/utils/routines.py:28-32 | a ValueError exactly when an expected count differs from the number found |
| Routines.SearchFiles | abioutput/utils/routines.py:13-32 | the loop over the files gives `Search` |
| Routines.SearchInAllSubdirs | abioutput/utils/routines.py:5-32 | the search over all the files of the tree |
| Routines.StyledText | abioutput/utils/routines.py:56-57 | the text, with the style and colour before it and the reset code after it |
| StatusCheckers.CompletionScanIs | abioutput/utils/status_checkers.py:95-109 | finished exactly when one of the last 200 lines holds "Calculation completed."; unfinished when it is absent and there are more lines; None otherwise |
| StatusCheckers.FileStatusIs | abioutput/utils/status_checkers.py:95-109 | the same for the whole file |
| StatusCheckers.KeywordTooEarly | abioutput/utils/status_checkers.py:95-109 | a keyword more than 200 lines before the end is not seen |
| StatusCheckers.GetStatusFromFile | abioutput/utils/status_checkers.py:95-109 | the reverse loop gives `FileStatus` |
| StatusCheckers.FileStatusChecker.constructor | abioutput/utils/status_checkers.py:75-92 | the finished flag of the file; convergence is None when finished, else False |
| StatusCheckers.StatusOf | abioutput/utils/status_checkers.py:24-62 | the decision table: nothing means not started; one log decides, else one output; several of either is a LookupError |
| StatusCheckers.StatusChecker.constructor | abioutput/utils/status_checkers.py:11-22 | the status of the directory |
| CalculationDir.FileNamesMembers | abioutput/utils/calculation_dir.py:108-122 | a name is listed exactly when it is a file of the directory |
| CalculationDir.IsCalculationDirOf | abioutput/utils/calculation_dir.py:108-122 | a NotADirectoryError exactly when the path is not a directory; otherwise true exactly when it holds a ".in" file |
| CalculationDir.IsCalculationDir | abioutput/utils/calculation_dir.py:108-122 | the loop gives `IsCalculationDirOf` |
| CalculationDir.VerdictScanIs | abioutput/utils/calculation_dir.py:69-79 | converged exactly when the last line holding either keyword holds the converged one |
| CalculationDir.VerdictIs | abioutput/utils/calculation_dir.py:69-79 | the same over the whole output |
| CalculationDir.SilentNotConverged | abioutput/utils/calculation_dir.py:69-79 | an output without either keyword does not count as converged |
| CalculationDir.SilentTailIgnored | abioutput/utils/calculation_dir.py:69-79 | lines after the last mention do not change the verdict |
| CalculationDir.DigOutputForConvergence | abioutput/utils/calculation_dir.py:69-79 | the reverse loop gives `Verdict` |
| CalculationDir.ConvergedFrom | abioutput/utils/calculation_dir.py:44-67 | a LookupError on the output gives False; `iscf < 0` is a ValueError; a relaxation uses the gradient keywords, otherwise the SCF keywords |
| CalculationDir.GradientLineCountsForScf | abioutput/utils/calculation_dir.py:60-67 | a converged-gradients line also matches the SCF keyword |
| CalculationDir.Locate | abioutput/utils/calculation_dir.py:14-32 | a NotADirectoryError when the path is not a directory, a FileNotFoundError when it holds no input file; success means exactly one files file, which parses, and exactly one input file |
| CalculationDir.OutputFor | abioutput/utils/calculation_dir.py:34-42 | the cached output, or the path of a finished calculation; otherwise the status error or a LookupError |
| CalculationDir.UnfinishedNotConverged | abioutput/utils/calculation_dir.py:34-67 | an unfinished or unreadable calculation counts as not converged |
| CalculationDir.CalculationDir.constructor | abioutput/utils/calculation_dir.py:14-32 | the located files file and input file, with no output cached |
| CalculationDir.CalculationDir.GetStatus | abioutput/utils/calculation_dir.py:103-106 | the status of the directory |
| CalculationDir.CalculationDir.OutputFile | abioutput/utils/calculation_dir.py:34-42 | `OutputFor`, caching a success |
| CalculationDir.CalculationDir.DigOutput | abioutput/utils/calculation_dir.py:69-79 | the verdict on the output file's lines |
| CalculationDir.CalculationDir.IsCalculationConverged | abioutput/utils/calculation_dir.py:44-67 | `ConvergedFrom` applied to the output the property gives |
| CalculationDir.Open | abioutput/utils/calculation_dir.py:14-32 | a new directory object exactly when `Locate` succeeds, or its error |

## Left out

- **File I/O.** Reading a file is a parameter giving its lines (`read`). So
  are `os.listdir`, `os.path.isfile` and `os.path.isdir`, which become a
  tree of `Entry` values. The `from_file` class methods of both eigenvalue
  parsers are not modelled beyond this.
- **Logging.** All logging is left out, including the progress messages of
  the eigenvalue loop and the warning for a files file whose name does not
  end in ".files".
- CommonRoutines.Eval: `eval` is modelled on a whitelist only.
  - It knows three forms: the builtin names listed in `CallableNames` and
    `sqrt` as callables, fractions
    `n/d` with `d` not zero, and the sum or difference of two numerals,
    the first with an optional unary sign.
  - Any other expression counts as a failed `eval`. The token then goes to
    the glued-float rule and, failing that, is kept as a string. Examples:
    "2**3", "0x1F", "1--2", "1e5+-2", "(1)", "'a'", "1,2" and "None". Python
    evaluates them and appends the result to the floats.
  - A sum of two int numerals, such as "1+2", is an int in Python. It is
    still appended to the floats; the model gives the real 3.0.
  - The source catches only NameError and SyntaxError. The exceptions it
    lets through are left out; here the token is a string instead:
    - ZeroDivisionError for "1/0";
    - TypeError and IndexError, as in "1[0]" or "()[0]";
    - AttributeError from `__name__` for `exit`, `quit`, `help`,
      `license`, `credits` and `copyright`, which `eval` gives as
      callables without a `__name__`.
  - The SyntaxError that the loop catches and raises again is not modelled.
- Builders.Table.AddColumn: rows and titles are values here, so list
  aliasing is not modelled. The same holds for Builders.Table.SortBy and
  Builders.Table.constructor. In the source, `sortby` can leave two
  entries of the row list pointing to the same Python list (see the
  finding on `sortby` below). A later `add_column` then appends to that
  list twice. Example: rows ["a"], [2], [1], `sortby` column 0, then
  `add_column("x", [10, 20, 30])`. Python gives [[2, 10], ["a", 30, 20],
  ["a", 30, 20]]; the model gives [[2, 10], ["a", 20], ["a", 30]].
- **Number literals.** They are exact `real` values. There is no IEEE
  rounding, `inf`, `nan`, or underscore digits. `float(x)` here accepts
  digits, one point and an exponent, with optional signs.
- **Whitespace.** Python's `str.strip()` strips the Unicode whitespace set.
  Here it strips ASCII space, tab, newline, carriage return, vertical tab
  and form feed.
- **Letters and case.** `Strings.Lower` and `Strings.IsAlpha` know only the
  ASCII letters. Python's `str.lower` and `str.isalpha` follow Unicode, so a
  unit such as "Å" at the end of a variable line is not split off here, and
  a spin label is lower-cased in ASCII only.
- **numpy.**
  - `np.array` is a nested sequence, and a ragged list is a ValueError.
  - `np.unique(...).size` is the size of a set.
  - Complex numbers are a pair of reals.
- Builders.ArgSort: a stable insertion sort stands for `np.argsort`. Its
  contract states only ascending order and permutation, so it is weaker
  than numpy's. The order of equal keys under numpy's default quicksort is
  not modelled.
- **DOS data.** `np.loadtxt` of the DOS data is left out. Only the column
  titles are modelled.
- FileStatusChecker: the FileNotFoundError raised for a missing path is
  left out, because files are given by their lines.
- **Leave-out list.** `TreeBuilder` and `Table.print` are outside the core.
- Routines.GetAllSubfiles: `ignore` given as a single string is modelled as
  a one-element list.
- **Calculation directory.**
  - The directory path is taken as given. The `abspath(expanduser(...))`
    normalisation of `abioutput/utils/bases.py:11` is not modelled.
  - The output parser of a calculation directory is its path.
  - `iscf` and `ionmov`, which come from the parsed output, are parameters.
- **Dictionaries.** A dictionary that is iterated is a sequence of pairs in
  insertion order (`AbinitVarStrToNum`, `SubParsersList`).

## Findings

| source | as written | input that shows it | evidently intended | confidence | as-written member | corrected member |
|---|---|---|---|---|---|---|
| abioutput/parsers/dos_parser.py:22-25 | the upward search for the titles line decrements before testing and stops above 0, so line 0 is tested only when the first data line is line 1, never when the search has to step down to it; a first data line starts the search at -1, which reads the last line | ["# energy DOS", "# comment", "1.0 2.0"] raises LookupError; ["1.0 2.0", "# energy"] gives " energy" | find the nearest line at or above the first data line that holds "energy", line 0 included | not executed | DosParser.LineZeroMissed | DosParser.LineZeroFound |
| abioutput/utils/builders.py:114-116 | `np.argsort` gives positions within the sortable subset, but `sortby` uses them as positions in the full row list | rows ["a"], [2], [1] sorted on column 0 become [2], ["a"], ["a"] | map each argsort position through the list of sortable row indices | not executed | Builders.SortLosesRow | Builders.SortOrderPermutation |
