/** The table of the terminal reports: a list of column titles and a list of
    rows of cells, with the operations that add a row or a column, read a
    column and sort the rows on a column. */
module Builders {
  import opened Wrappers

  /** A cell: a Python `int`, a `float`, or any other value. */
  datatype Cell = IntCell(i: int) | FloatCell(x: real) | OtherCell(text: string)

  type Row = seq<Cell>

  /** `type(x) in (int, float)`; a `bool` or a string is an OtherCell. */
  predicate Numeric(c: Cell) {
    c.IntCell? || c.FloatCell?
  }

  /** The value numpy compares a numeric cell by. */
  function Magnitude(c: Cell): real
    requires Numeric(c)
  {
    if c.IntCell? then c.i as real else c.x
  }

  // ---------------------------------------------------------------------
  // Columns
  // ---------------------------------------------------------------------

  /** `_check_column_exists` then `column_names.index(title)`: the first
      position of the title, or a KeyError. */
  function ColumnIndex(names: seq<string>, title: string): (r: Result<nat>)
    ensures r.Failure? <==> title !in names
    ensures r.Failure? ==> r.error == KeyError
    ensures r.Success? ==> r.value < |names| && names[r.value] == title && title !in names[..r.value]
  {
    if |names| == 0 then Failure(KeyError)
    else if names[0] == title then Success(0)
    else
      var k :- ColumnIndex(names[1..], title);
      assert names[..k + 1] == [names[0]] + names[1..][..k];
      Success(k + 1)
  }

  /** `[row[ci] for row in self.rows]`: the cells of column `ci` in row order,
      or an IndexError when some row is too short. */
  function Column(rows: seq<Row>, ci: nat): (r: Result<Row>)
    ensures r.Failure? <==> exists k :: 0 <= k < |rows| && |rows[k]| <= ci
    ensures r.Failure? ==> r.error == IndexError
    ensures r.Success? ==> |r.value| == |rows| && forall k :: 0 <= k < |rows| ==> r.value[k] == rows[k][ci]
  {
    if |rows| == 0 then Success([])
    else if |rows[0]| <= ci then Failure(IndexError)
    else
      var rest := Column(rows[1..], ci);
      assert forall k :: 1 <= k < |rows| ==> rows[k] == rows[1..][k - 1];
      if rest.Failure? then Failure(IndexError)
      else Success([rows[0][ci]] + rest.value)
  }

  /** A Python list index into a list of length `n`: negative ones count
      from the end. */
  predicate InBounds(i: int, n: nat) {
    0 <= i + n && i < n
  }

  function PyIndex(i: int, n: nat): (k: nat)
    requires InBounds(i, n)
    ensures k < n
  {
    if i < 0 then n + i else i
  }

  /** The `indices` loop of `get_column`: the cells at the given positions,
      in the order given, or an IndexError for a position out of range. */
  function Pick(vals: Row, indices: seq<int>): (r: Result<Row>)
    ensures r.Failure? <==> exists k :: 0 <= k < |indices| && !InBounds(indices[k], |vals|)
    ensures r.Failure? ==> r.error == IndexError
    ensures r.Success? ==> |r.value| == |indices|
    ensures r.Success? ==> forall k :: 0 <= k < |indices| ==> r.value[k] == vals[PyIndex(indices[k], |vals|)]
    decreases |indices|
  {
    if |indices| == 0 then Success([])
    else
      var n := |indices| - 1;
      var front := Pick(vals, indices[..n]);
      assert forall k :: 0 <= k < n ==> indices[..n][k] == indices[k];
      if front.Failure? then Failure(IndexError)
      else if InBounds(indices[n], |vals|) then Success(front.value + [vals[PyIndex(indices[n], |vals|)]])
      else Failure(IndexError)
  }

  /** `get_column`: the whole column, or the cells at `indices`. */
  function ColumnValues(names: seq<string>, rows: seq<Row>, title: string, indices: Option<seq<int>>): Result<Row> {
    var ci :- ColumnIndex(names, title);
    var all :- Column(rows, ci);
    if indices.None? then Success(all) else Pick(all, indices.value)
  }

  // ---------------------------------------------------------------------
  // Adding rows and columns
  // ---------------------------------------------------------------------

  /** Every row holds one cell per column title. */
  predicate Aligned(names: seq<string>, rows: seq<Row>) {
    forall k :: 0 <= k < |rows| ==> |rows[k]| == |names|
  }

  /** `add_row`: a row whose length is not the number of titles is a
      ValueError; any other is appended. */
  function AddedRow(names: seq<string>, rows: seq<Row>, row: Row): (r: Result<seq<Row>>)
    ensures r.Failure? <==> |row| != |names|
    ensures r.Failure? ==> r.error == ValueError
    ensures r.Success? ==> |r.value| == |rows| + 1 && r.value[..|rows|] == rows && r.value[|rows|] == row
  {
    if |row| != |names| then Failure(ValueError) else Success(rows + [row])
  }

  /** Adding a row keeps the table aligned. */
  lemma AddedRowAligned(names: seq<string>, rows: seq<Row>, row: Row)
    requires Aligned(names, rows) && AddedRow(names, rows, row).Success?
    ensures Aligned(names, AddedRow(names, rows, row).value)
  {
    var r := AddedRow(names, rows, row).value;
    assert forall k :: 0 <= k < |rows| ==> r[k] == rows[k];
  }

  /** The position `list.insert(index, x)` gives `x` in a list of length
      `n`: a negative index counts from the end, and both ends clamp. */
  function InsertPosition(index: int, n: nat): (k: nat)
    ensures k <= n
  {
    if index < 0 then (if index + n < 0 then 0 else index + n)
    else if index > n then n
    else index
  }

  function Inserted(s: Row, index: int, x: Cell): (r: Row)
    ensures |r| == |s| + 1
  {
    var k := InsertPosition(index, |s|);
    s[..k] + [x] + s[k..]
  }

  /** Removing the inserted cell gives the row back. */
  lemma InsertedRemoved(s: Row, index: int, x: Cell)
    ensures var k := InsertPosition(index, |s|);
      Inserted(s, index, x)[k] == x && Inserted(s, index, x)[..k] + Inserted(s, index, x)[k + 1..] == s
  {
    var k := InsertPosition(index, |s|);
    var r := Inserted(s, index, x);
    assert r[..k] == s[..k];
    assert r[k + 1..] == s[k..];
  }

  /** The index every row gets its new cell at, or the error raised before
      any row changes: a column whose length is not the number of rows is a
      ValueError when there are rows; index None means `len(rows[0])`, an
      IndexError when there are none. */
  function ColumnSlot(rows: seq<Row>, column: Row, index: Option<int>): (r: Result<int>)
    ensures r.Success? && |rows| > 0 ==> |column| == |rows|
  {
    if |column| != |rows| && |rows| > 0 then Failure(ValueError)
    else if index.None? then (if |rows| == 0 then Failure(IndexError) else Success(|rows[0]|))
    else Success(index.value)
  }

  /** Row `i` with `column[i]` inserted at `k`, for every `i < |column|`. */
  function WithColumn(rows: seq<Row>, column: Row, k: int): (r: seq<Row>)
    requires |column| <= |rows|
    ensures |r| == |rows|
  {
    seq(|rows|, i requires 0 <= i < |rows| => if i < |column| then Inserted(rows[i], k, column[i]) else rows[i])
  }

  /** The rows after `add_column`, or its error; the loop's `rows[i]` is an
      IndexError when cells are given for a table without rows. */
  function AddedColumn(rows: seq<Row>, column: Row, index: Option<int>): (r: Result<seq<Row>>)
    ensures r.Failure? <==>
      (|rows| > 0 && |column| != |rows|) || (|rows| == 0 && (index.None? || |column| > 0))
    ensures r.Failure? ==> r.error == (if |rows| > 0 then ValueError else IndexError)
    ensures r.Success? ==> |r.value| == |rows|
  {
    var slot :- ColumnSlot(rows, column, index);
    if |column| > |rows| then Failure(IndexError)
    else Success(WithColumn(rows, column, slot))
  }

  /** A column inserted at a position every row reaches is read back, in
      order, at that position. */
  lemma ColumnReadBack(rows: seq<Row>, column: Row, k: nat)
    requires AddedColumn(rows, column, Some(k)).Success?
    requires forall i :: 0 <= i < |rows| ==> k <= |rows[i]|
    ensures Column(AddedColumn(rows, column, Some(k)).value, k) == Success(column)
  {
    var r := AddedColumn(rows, column, Some(k)).value;
    assert |column| == |rows|;
    forall i | 0 <= i < |rows| ensures |r[i]| > k && r[i][k] == column[i] {
      InsertedRemoved(rows[i], k, column[i]);
    }
    assert Column(r, k).Success?;
    var c := Column(r, k).value;
    assert forall i :: 0 <= i < |rows| ==> c[i] == column[i];
    assert c == column;
  }

  /** On an aligned table with rows, index None appends the cell to the end
      of every row, and the table stays aligned with the new title. */
  lemma AppendedColumn(names: seq<string>, rows: seq<Row>, header: string, column: Row)
    requires Aligned(names, rows) && |rows| > 0
    requires AddedColumn(rows, column, None).Success?
    ensures forall i :: 0 <= i < |rows| ==> AddedColumn(rows, column, None).value[i] == rows[i] + [column[i]]
    ensures Aligned(names + [header], AddedColumn(rows, column, None).value)
  {
    var r := AddedColumn(rows, column, None).value;
    forall i | 0 <= i < |rows| ensures r[i] == rows[i] + [column[i]] {
      assert |rows[i]| == |rows[0]|;
      assert rows[i][..|rows[i]|] == rows[i];
    }
  }

  /** The title is appended before the length check, so a rejected column
      leaves a table with rows out of alignment. */
  lemma RejectedColumnMisaligns(names: seq<string>, rows: seq<Row>, header: string, column: Row, index: Option<int>)
    requires Aligned(names, rows) && |rows| > 0
    requires AddedColumn(rows, column, index).Failure?
    ensures !Aligned(names + [header], rows)
  {
    assert |rows[0]| == |names|;
  }

  // ---------------------------------------------------------------------
  // Sorting
  // ---------------------------------------------------------------------

  predicate InRange(xs: seq<nat>, n: nat) {
    forall k :: 0 <= k < |xs| ==> xs[k] < n
  }

  /** The positions, in increasing order, of the cells that are numeric
      (`numeric`) or not (`!numeric`): `_sortable_rows_indices` and the
      `non_sortable_rows` comprehension. */
  function Indices(vals: Row, numeric: bool): (r: seq<nat>)
    ensures |r| <= |vals|
    ensures InRange(r, |vals|)
  {
    if |vals| == 0 then []
    else
      var n := |vals| - 1;
      var front := Indices(vals[..n], numeric);
      if Numeric(vals[n]) == numeric then front + [n] else front
  }

  /** `r` lists, in increasing order, exactly the positions whose cell is
      numeric or not as `numeric` says. */
  predicate ListsPositions(vals: Row, numeric: bool, r: seq<nat>) {
    InRange(r, |vals|) &&
    (forall j :: 0 <= j < |r| ==> Numeric(vals[r[j]]) == numeric) &&
    (forall k :: 0 <= k < |vals| && Numeric(vals[k]) == numeric ==> k in r) &&
    (forall a, b :: 0 <= a < b < |r| ==> r[a] < r[b])
  }

  lemma {:induction false} IndicesShape(vals: Row, numeric: bool)
    ensures ListsPositions(vals, numeric, Indices(vals, numeric))
  {
    if |vals| > 0 {
      IndicesShape(vals[..|vals| - 1], numeric);
      ListsPositionsSnoc(vals, numeric, Indices(vals[..|vals| - 1], numeric));
    }
  }

  /** One more cell extends the listed positions by its own, if it is of
      the kind listed. */
  lemma ListsPositionsSnoc(vals: Row, numeric: bool, front: seq<nat>)
    requires |vals| > 0 && ListsPositions(vals[..|vals| - 1], numeric, front)
    ensures ListsPositions(vals, numeric, if Numeric(vals[|vals| - 1]) == numeric then front + [|vals| - 1] else front)
  {
    var n := |vals| - 1;
    var r := if Numeric(vals[n]) == numeric then front + [n] else front;
    SnocKinds(vals, numeric, front, r);
    SnocCovers(vals, numeric, front, r);
    SnocIncreasing(vals, numeric, front, r);
  }

  /** The listed positions are in range and of the listed kind. */
  lemma SnocKinds(vals: Row, numeric: bool, front: seq<nat>, r: seq<nat>)
    requires |vals| > 0 && ListsPositions(vals[..|vals| - 1], numeric, front)
    requires r == if Numeric(vals[|vals| - 1]) == numeric then front + [|vals| - 1] else front
    ensures InRange(r, |vals|)
    ensures forall j :: 0 <= j < |r| ==> Numeric(vals[r[j]]) == numeric
  {
    var n := |vals| - 1;
    forall j | 0 <= j < |r| ensures r[j] < |vals| && Numeric(vals[r[j]]) == numeric {
      if j < |front| {
        assert r[j] == front[j] && vals[..n][front[j]] == vals[front[j]];
      }
    }
  }

  /** Every position of the listed kind is listed. */
  lemma SnocCovers(vals: Row, numeric: bool, front: seq<nat>, r: seq<nat>)
    requires |vals| > 0 && ListsPositions(vals[..|vals| - 1], numeric, front)
    requires r == if Numeric(vals[|vals| - 1]) == numeric then front + [|vals| - 1] else front
    ensures forall k :: 0 <= k < |vals| && Numeric(vals[k]) == numeric ==> k in r
  {
    var n := |vals| - 1;
    forall k | 0 <= k < |vals| && Numeric(vals[k]) == numeric ensures k in r {
      if k < n {
        assert vals[..n][k] == vals[k];
      }
    }
  }

  /** The listed positions stay increasing. */
  lemma SnocIncreasing(vals: Row, numeric: bool, front: seq<nat>, r: seq<nat>)
    requires |vals| > 0 && ListsPositions(vals[..|vals| - 1], numeric, front)
    requires r == if Numeric(vals[|vals| - 1]) == numeric then front + [|vals| - 1] else front
    ensures forall a, b :: 0 <= a < b < |r| ==> r[a] < r[b]
  {
    forall a, b | 0 <= a < b < |r| ensures r[a] < r[b] {
      assert r[a] == front[a];
      if b < |front| {
        assert r[b] == front[b];
      }
    }
  }

  /** Some cell is numeric exactly when the list of sortable positions is
      not empty. */
  lemma SortableIff(vals: Row)
    ensures |Indices(vals, true)| > 0 <==> exists k :: 0 <= k < |vals| && Numeric(vals[k])
  {
    IndicesShape(vals, true);
    if exists k :: 0 <= k < |vals| && Numeric(vals[k]) {
      var k :| 0 <= k < |vals| && Numeric(vals[k]);
      assert k in Indices(vals, true);
    }
  }

  /** Every cell is numeric or not, so the two index lists share out the
      positions. */
  lemma {:induction false} IndicesSplit(vals: Row)
    ensures |Indices(vals, true)| + |Indices(vals, false)| == |vals|
  {
    if |vals| > 0 {
      IndicesSplit(vals[..|vals| - 1]);
    }
  }

  /** `q` lists each of 0, ..., n - 1 exactly once (it has length `n` and
      misses none). */
  predicate IsPermutation(q: seq<nat>, n: nat) {
    |q| == n && InRange(q, n) && forall i :: 0 <= i < n ==> i in q
  }

  predicate Ascending(keys: seq<real>, xs: seq<nat>)
    requires InRange(xs, |keys|)
  {
    forall a, b :: 0 <= a < b < |xs| ==> keys[xs[a]] <= keys[xs[b]]
  }

  /** Inserts position `j` after every position whose key is not greater. */
  function InsertByKey(keys: seq<real>, xs: seq<nat>, j: nat): (r: seq<nat>)
    requires j < |keys| && InRange(xs, |keys|)
    ensures |r| == |xs| + 1 && InRange(r, |keys|)
    ensures forall e :: e in r <==> e in xs || e == j
  {
    if |xs| == 0 then [j]
    else if keys[j] < keys[xs[0]] then [j] + xs
    else
      var rest := InsertByKey(keys, xs[1..], j);
      assert forall e :: e in xs <==> e == xs[0] || e in xs[1..];
      [xs[0]] + rest
  }

  lemma {:induction false} InsertByKeyAscending(keys: seq<real>, xs: seq<nat>, j: nat)
    requires j < |keys| && InRange(xs, |keys|) && Ascending(keys, xs)
    ensures Ascending(keys, InsertByKey(keys, xs, j))
  {
    if |xs| > 0 && keys[j] >= keys[xs[0]] {
      var rest := InsertByKey(keys, xs[1..], j);
      InsertByKeyAscending(keys, xs[1..], j);
      forall b | 0 <= b < |rest| ensures keys[xs[0]] <= keys[rest[b]] {
        assert rest[b] in rest;
        if rest[b] != j {
          var c :| 0 <= c < |xs[1..]| && xs[1..][c] == rest[b];
          assert xs[1..][c] == xs[c + 1];
        }
      }
    }
  }

  /** The positions 0, ..., n - 1 ordered by key. */
  function ArgSortFirst(keys: seq<real>, n: nat): (r: seq<nat>)
    requires n <= |keys|
    ensures IsPermutation(r, n) && InRange(r, |keys|)
  {
    if n == 0 then []
    else
      var front := ArgSortFirst(keys, n - 1);
      var r := InsertByKey(keys, front, n - 1);
      assert forall i :: 0 <= i < n - 1 ==> i in front;
      assert forall k :: 0 <= k < |r| ==> r[k] in r;
      r
  }

  lemma {:induction false} ArgSortFirstAscending(keys: seq<real>, n: nat)
    requires n <= |keys|
    ensures Ascending(keys, ArgSortFirst(keys, n))
  {
    if n > 0 {
      ArgSortFirstAscending(keys, n - 1);
      InsertByKeyAscending(keys, ArgSortFirst(keys, n - 1), n - 1);
    }
  }

  /** `np.argsort`: the positions of `keys`, ordered by key (ties are kept
      in position order). */
  function ArgSort(keys: seq<real>): (p: seq<nat>)
    ensures IsPermutation(p, |keys|)
  {
    ArgSortFirst(keys, |keys|)
  }

  lemma ArgSortAscending(keys: seq<real>)
    ensures Ascending(keys, ArgSort(keys))
  {
    ArgSortFirstAscending(keys, |keys|);
  }

  /** The values `get_column(title, indices=sortable_rows)` hands to
      `np.argsort`. */
  function Keys(vals: Row, s: seq<nat>): (r: seq<real>)
    requires forall j :: 0 <= j < |s| ==> s[j] < |vals| && Numeric(vals[s[j]])
    ensures |r| == |s|
  {
    seq(|s|, j requires 0 <= j < |s| => Magnitude(vals[s[j]]))
  }

  /** The argsort of the numeric cells of a column. */
  function NumericOrder(vals: Row): (p: seq<nat>)
    ensures IsPermutation(p, |Indices(vals, true)|)
  {
    IndicesShape(vals, true);
    ArgSort(Keys(vals, Indices(vals, true)))
  }

  function Reordered<T>(xs: seq<T>, q: seq<nat>): (r: seq<T>)
    requires InRange(q, |xs|)
    ensures |r| == |q|
  {
    seq(|q|, k requires 0 <= k < |q| => xs[q[k]])
  }

  /** The new row order as intended: argsort positions taken through the
      list of sortable rows, then the other rows in their order. */
  function SortOrder(vals: Row): (q: seq<nat>)
    ensures InRange(q, |vals|)
  {
    var s := Indices(vals, true);
    IndicesShape(vals, true);
    IndicesShape(vals, false);
    var front := Reordered(s, NumericOrder(vals));
    assert forall k :: 0 <= k < |front| ==> front[k] in s;
    front + Indices(vals, false)
  }

  /** `sortby` as written: the argsort positions index the sortable subset
      but are applied to the full row list. */
  function SortOrderAsWritten(vals: Row): (q: seq<nat>)
    ensures InRange(q, |vals|)
  {
    IndicesShape(vals, false);
    NumericOrder(vals) + Indices(vals, false)
  }

  /** The intended order moves every row exactly once. */
  lemma SortOrderPermutation(vals: Row)
    ensures IsPermutation(SortOrder(vals), |vals|)
  {
    var s := Indices(vals, true);
    var ns := Indices(vals, false);
    var p := NumericOrder(vals);
    var q := SortOrder(vals);
    IndicesShape(vals, true);
    IndicesShape(vals, false);
    IndicesSplit(vals);
    forall i | 0 <= i < |vals| ensures i in q {
      if Numeric(vals[i]) {
        var j :| 0 <= j < |s| && s[j] == i;
        assert j in p;
        var k :| 0 <= k < |p| && p[k] == j;
        assert q[k] == i;
      } else {
        var j :| 0 <= j < |ns| && ns[j] == i;
        assert q[|p| + j] == i;
      }
    }
  }

  /** The sort column in the intended order. */
  function SortedColumn(vals: Row): (c: Row)
    ensures |c| == |vals|
  {
    SortOrderPermutation(vals);
    Reordered(vals, SortOrder(vals))
  }

  /** In the intended order the numeric cells come first. */
  lemma SortedNumericFirst(vals: Row)
    ensures forall k :: 0 <= k < |vals| ==> (Numeric(SortedColumn(vals)[k]) <==> k < |Indices(vals, true)|)
  {
    var s := Indices(vals, true);
    var p := NumericOrder(vals);
    var c := SortedColumn(vals);
    IndicesShape(vals, true);
    IndicesShape(vals, false);
    IndicesSplit(vals);
    forall k | 0 <= k < |vals| ensures Numeric(c[k]) <==> k < |s| {
      if k < |s| {
        assert c[k] == vals[s[p[k]]];
      } else {
        assert c[k] == vals[Indices(vals, false)[k - |s|]];
      }
    }
  }

  /** The numeric cells come in ascending order. */
  lemma SortedAscending(vals: Row)
    ensures forall a, b :: 0 <= a < b < |Indices(vals, true)| ==>
      Numeric(SortedColumn(vals)[a]) && Numeric(SortedColumn(vals)[b]) &&
      Magnitude(SortedColumn(vals)[a]) <= Magnitude(SortedColumn(vals)[b])
  {
    var s := Indices(vals, true);
    IndicesShape(vals, true);
    IndicesSplit(vals);
    var keys := Keys(vals, s);
    var p := NumericOrder(vals);
    var c := SortedColumn(vals);
    ArgSortAscending(keys);
    forall a | 0 <= a < |s| ensures c[a] == vals[s[p[a]]] && Numeric(c[a]) && keys[p[a]] == Magnitude(c[a]) {
    }
  }

  /** The other cells follow in their original order. */
  lemma SortedTail(vals: Row)
    ensures forall j :: 0 <= j < |Indices(vals, false)| ==>
      SortedColumn(vals)[|Indices(vals, true)| + j] == vals[Indices(vals, false)[j]]
  {
    IndicesSplit(vals);
  }

  /** `sortby` on column `ci`: the rows in the intended order, or an
      IndexError when some row is too short. */
  function SortedRows(rows: seq<Row>, ci: nat): (r: Result<seq<Row>>)
    ensures r.Failure? <==> Column(rows, ci).Failure?
    ensures r.Success? ==> |r.value| == |rows|
  {
    var vals :- Column(rows, ci);
    SortOrderPermutation(vals);
    Success(Reordered(rows, SortOrder(vals)))
  }

  /** `sortby` on column `ci` as written: as many rows as before, each of
      them one of the old rows, or an IndexError when some row is too short;
      `SortLosesRow` shows the result need not be a permutation. */
  function SortedRowsAsWritten(rows: seq<Row>, ci: nat): (r: Result<seq<Row>>)
    ensures r.Failure? <==> Column(rows, ci).Failure?
    ensures r.Success? ==> |r.value| == |rows| && forall k :: 0 <= k < |r.value| ==> r.value[k] in rows
  {
    var vals :- Column(rows, ci);
    IndicesSplit(vals);
    IndicesShape(vals, true);
    Success(Reordered(rows, SortOrderAsWritten(vals)))
  }

  /** The sorted rows are the old rows moved by the intended order, and their
      column `ci` is the column reordered the same way. */
  lemma SortedRowsColumn(rows: seq<Row>, ci: nat)
    requires SortedRows(rows, ci).Success?
    ensures var vals := Column(rows, ci).value;
      IsPermutation(SortOrder(vals), |rows|) &&
      SortedRows(rows, ci).value == Reordered(rows, SortOrder(vals)) &&
      Column(SortedRows(rows, ci).value, ci) == Success(Reordered(vals, SortOrder(vals)))
  {
    var vals := Column(rows, ci).value;
    SortOrderPermutation(vals);
    ReorderedColumn(rows, ci, vals, SortOrder(vals));
  }

  /** Moving whole rows moves the cells of every column the same way. */
  lemma ReorderedColumn(rows: seq<Row>, ci: nat, vals: Row, q: seq<nat>)
    requires Column(rows, ci) == Success(vals) && InRange(q, |rows|)
    ensures Column(Reordered(rows, q), ci) == Success(Reordered(vals, q))
  {
    var out := Reordered(rows, q);
    assert forall k :: 0 <= k < |out| ==> out[k] == rows[q[k]] && |out[k]| > ci;
    assert Column(out, ci).Success?;
    var c := Column(out, ci).value;
    assert forall k :: 0 <= k < |out| ==> c[k] == vals[q[k]];
    assert c == Reordered(vals, q);
  }

  /** When the sortable rows are rows 0 to m - 1, the code as written does
      sort as intended. */
  lemma SortAgreesOnPrefix(vals: Row)
    requires forall j :: 0 <= j < |Indices(vals, true)| ==> Indices(vals, true)[j] == j
    ensures SortOrderAsWritten(vals) == SortOrder(vals)
  {
    var p := NumericOrder(vals);
    assert seq(|p|, k requires 0 <= k < |p| => Indices(vals, true)[p[k]]) == p;
  }

  /** A sortable row after a non-sortable one breaks the code as written:
      `["a"], [2], [1]` sorted on column 0 gives `[2], ["a"], ["a"]`, so row
      [1] is lost and ["a"] is doubled. */
  lemma SortLosesRow()
    ensures SortedRowsAsWritten([[OtherCell("a")], [IntCell(2)], [IntCell(1)]], 0)
      == Success([[IntCell(2)], [OtherCell("a")], [OtherCell("a")]])
  {
    var rows := [[OtherCell("a")], [IntCell(2)], [IntCell(1)]];
    var vals := [OtherCell("a"), IntCell(2), IntCell(1)];
    ExampleColumn(rows);
    ExampleOrder(vals);
    assert Reordered(rows, [1, 0, 0]) == [rows[1], rows[0], rows[0]];
  }

  lemma ExampleOrder(vals: Row)
    requires vals == [OtherCell("a"), IntCell(2), IntCell(1)]
    ensures SortOrderAsWritten(vals) == [1, 0, 0]
  {
    ExampleIndices(vals);
    assert Keys(vals, [1, 2]) == [2.0, 1.0];
    ExampleArgSort(Keys(vals, [1, 2]));
  }

  lemma ExampleColumn(rows: seq<Row>)
    requires rows == [[OtherCell("a")], [IntCell(2)], [IntCell(1)]]
    ensures Column(rows, 0) == Success([OtherCell("a"), IntCell(2), IntCell(1)])
  {
    assert forall k :: 0 <= k < |rows| ==> |rows[k]| == 1;
    var c := Column(rows, 0).value;
    assert c[0] == rows[0][0] && c[1] == rows[1][0] && c[2] == rows[2][0];
    assert c == [OtherCell("a"), IntCell(2), IntCell(1)];
  }

  lemma ExampleIndices(vals: Row)
    requires vals == [OtherCell("a"), IntCell(2), IntCell(1)]
    ensures Indices(vals, true) == [1, 2] && Indices(vals, false) == [0]
  {
    assert vals[..2][..1] == vals[..1];
    assert vals[..1][..0] == [];
    assert Indices(vals[..1], true) == [] && Indices(vals[..1], false) == [0];
    assert Indices(vals[..2], true) == [1] && Indices(vals[..2], false) == [0];
  }

  lemma ExampleArgSort(keys: seq<real>)
    requires keys == [2.0, 1.0]
    ensures ArgSort(keys) == [1, 0]
  {
    assert ArgSortFirst(keys, 1) == [0];
  }

  /** The rows `sortby` builds for the cells `vals` of the sort column: the
      sortable rows through the argsort, then the others appended in a loop;
      the source's closing `assert` on the length holds. */
  method Reorder(rows: seq<Row>, vals: Row) returns (newrows: seq<Row>)
    requires |vals| == |rows|
    ensures newrows == Reordered(rows, SortOrder(vals))
    ensures |newrows| == |rows|
  {
    var s := Indices(vals, true);
    var ns := Indices(vals, false);
    var p := NumericOrder(vals);
    IndicesSplit(vals);
    ghost var q := SortOrder(vals);
    newrows := seq(|p|, k requires 0 <= k < |p| => rows[s[p[k]]]);
    for i := 0 to |ns|
      invariant |newrows| == |p| + i
      invariant forall k :: 0 <= k < |newrows| ==> newrows[k] == rows[q[k]]
    {
      newrows := newrows + [rows[ns[i]]];
    }
    assert |newrows| == |rows|;
  }

  /** The rows `sortby` builds as written: the argsort positions applied to
      the full row list, then the non-sortable rows appended in a loop; the
      closing `assert` on the length holds here too. */
  method ReorderAsWritten(rows: seq<Row>, vals: Row) returns (newrows: seq<Row>)
    requires |vals| == |rows|
    ensures newrows == Reordered(rows, SortOrderAsWritten(vals))
    ensures |newrows| == |rows|
  {
    var ns := Indices(vals, false);
    var p := NumericOrder(vals);
    IndicesSplit(vals);
    IndicesShape(vals, true);
    ghost var q := SortOrderAsWritten(vals);
    newrows := seq(|p|, k requires 0 <= k < |p| => rows[p[k]]);
    for i := 0 to |ns|
      invariant |newrows| == |p| + i
      invariant forall k :: 0 <= k < |newrows| ==> newrows[k] == rows[q[k]]
    {
      newrows := newrows + [rows[ns[i]]];
    }
    assert |newrows| == |rows|;
  }

  // ---------------------------------------------------------------------
  // The table object
  // ---------------------------------------------------------------------

  class Table {
    var columnNames: seq<string>
    var rows: seq<Row>

    /** A table with these titles and no rows. */
    constructor (names: seq<string>)
      ensures columnNames == names && rows == []
    {
      columnNames := names;
      rows := [];
    }

    /** `add_column`: the title is appended first, whatever follows; then
        the rows change only when the column is accepted. */
    method AddColumn(header: string, column: Row, index: Option<int>) returns (r: Result<()>)
      modifies this
      ensures columnNames == old(columnNames) + [header]
      ensures r.Failure? <==> AddedColumn(old(rows), column, index).Failure?
      ensures r.Failure? ==> r.error == AddedColumn(old(rows), column, index).error && rows == old(rows)
      ensures r.Success? ==> rows == AddedColumn(old(rows), column, index).value
    {
      columnNames := columnNames + [header];
      var slot :- ColumnSlot(rows, column, index);
      ghost var before := rows;
      for i := 0 to |column|
        invariant columnNames == old(columnNames) + [header]
        invariant |rows| == |before|
        invariant i > 0 ==> |rows| >= i
        invariant forall j :: 0 <= j < i && j < |rows| ==> rows[j] == Inserted(before[j], slot, column[j])
        invariant forall j :: i <= j < |rows| ==> rows[j] == before[j]
      {
        if i >= |rows| {
          return Failure(IndexError);
        }
        rows := rows[i := Inserted(rows[i], slot, column[i])];
      }
      return Success(());
    }

    /** `add_row`: the row is appended when its length is the number of
        titles; otherwise a ValueError and no change. */
    method AddRow(row: Row) returns (r: Result<()>)
      modifies this
      ensures columnNames == old(columnNames)
      ensures r.Failure? <==> AddedRow(old(columnNames), old(rows), row).Failure?
      ensures r.Failure? ==> r.error == ValueError && rows == old(rows)
      ensures r.Success? ==> rows == AddedRow(old(columnNames), old(rows), row).value
    {
      if |row| != |columnNames| {
        return Failure(ValueError);
      }
      rows := rows + [row];
      return Success(());
    }

    /** `get_column_index`. */
    function GetColumnIndex(title: string): (r: Result<nat>)
      reads this
      ensures r == ColumnIndex(columnNames, title)
    {
      ColumnIndex(columnNames, title)
    }

    /** `is_column_sortable`: whether some row holds a number in the column. */
    function IsColumnSortable(title: string): (r: Result<bool>)
      reads this
      ensures r.Failure? <==> (ColumnIndex(columnNames, title).Failure? ||
        Column(rows, ColumnIndex(columnNames, title).value).Failure?)
      ensures r.Success? ==> (r.value <==>
        exists k :: 0 <= k < |rows| && Numeric(rows[k][ColumnIndex(columnNames, title).value]))
    {
      var ci :- ColumnIndex(columnNames, title);
      var vals :- Column(rows, ci);
      SortableIff(vals);
      Success(|Indices(vals, true)| > 0)
    }

    /** `get_column`. */
    method GetColumn(title: string, indices: Option<seq<int>>) returns (r: Result<Row>)
      ensures r == ColumnValues(columnNames, rows, title, indices)
    {
      var ci :- ColumnIndex(columnNames, title);
      var all :- Column(rows, ci);
      if indices.None? {
        return Success(all);
      }
      var picked: Row := [];
      for k := 0 to |indices.value|
        invariant Pick(all, indices.value[..k]) == Success(picked)
      {
        var i := indices.value[k];
        assert indices.value[..k + 1][..k] == indices.value[..k];
        if !InBounds(i, |all|) {
          assert indices.value[..k + 1][k] == i;
          assert indices.value[k] == i;
          return Failure(IndexError);
        }
        picked := picked + [all[PyIndex(i, |all|)]];
      }
      assert indices.value[..|indices.value|] == indices.value;
      return Success(picked);
    }

    /** `sortby` as written (see `SortOrderAsWritten`; `SortOrder` is the
        intended order), or the KeyError or IndexError of the column lookup. */
    method SortBy(title: string) returns (r: Result<()>)
      modifies this
      ensures columnNames == old(columnNames)
      ensures r.Failure? ==> rows == old(rows)
      ensures r.Failure? <==> (ColumnIndex(columnNames, title).Failure? ||
        SortedRowsAsWritten(old(rows), ColumnIndex(columnNames, title).value).Failure?)
      ensures r.Success? ==> rows == SortedRowsAsWritten(old(rows), ColumnIndex(columnNames, title).value).value
    {
      var ci :- ColumnIndex(columnNames, title);
      var vals :- Column(rows, ci);
      var newrows := ReorderAsWritten(rows, vals);
      rows := newrows;
      return Success(());
    }
  }
}
