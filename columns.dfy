/** isNumericColumn and isDateColumn, and the split of the columns into
    numeric, date and categorical ones that handleAIAnalyze makes from them. */
module Columns {
  import opened Js

  /** The two column tests. */
  datatype Kind = Numeric | Date

  /** A cell isNumericColumn passes over: null, undefined or the empty string. */
  predicate Blank(v: Value)
  {
    v == Null || v == Undefined || v == Str("")
  }

  /** A cell that counts towards the test: for the numeric test a cell that
      is not blank and that Number() does not turn into NaN; for the date
      test a truthy cell that new Date() parses. */
  predicate Qualifies(kind: Kind, v: Value, h: Host)
  {
    match kind
    case Numeric => !Blank(v) && ToNumber(v, h).Some?
    case Date => Truthy(v) && h.date(v).Some?
  }

  /** The number of rows whose cell in col qualifies. */
  function Count(kind: Kind, data: seq<Row>, col: string, h: Host): (c: nat)
    ensures c <= |data|
  {
    if data == [] then 0
    else Count(kind, data[..|data| - 1], col, h) + (if Qualifies(kind, Get(data[|data| - 1], col), h) then 1 else 0)
  }

  /** `Math.max(3, Math.floor(data.length * 0.5))` */
  function Threshold(rows: nat): nat
  {
    Max(3, rows / 2)
  }

  /** The column passes the test. */
  predicate Is(kind: Kind, data: seq<Row>, col: string, h: Host)
  {
    Count(kind, data, col, h) >= Threshold(|data|)
  }

  /** Counting a table in two parts adds up. */
  lemma {:induction false} CountAppend(kind: Kind, a: seq<Row>, b: seq<Row>, col: string, h: Host)
    ensures Count(kind, a + b, col, h) == Count(kind, a, col, h) + Count(kind, b, col, h)
  {
    if b == [] {
      assert a + b == a;
    } else {
      CountAppend(kind, a, b[..|b| - 1], col, h);
      assert (a + b)[..|a + b| - 1] == a + b[..|b| - 1];
    }
  }

  /** The count is the number of rows whose cell qualifies: it is |data|
      exactly when every cell qualifies, and 0 exactly when none does. */
  lemma {:induction false} CountExtremes(kind: Kind, data: seq<Row>, col: string, h: Host)
    ensures Count(kind, data, col, h) == |data| <==>
      forall i :: 0 <= i < |data| ==> Qualifies(kind, Get(data[i], col), h)
    ensures Count(kind, data, col, h) == 0 <==>
      forall i :: 0 <= i < |data| ==> !Qualifies(kind, Get(data[i], col), h)
  {
    if data != [] {
      var init := data[..|data| - 1];
      CountExtremes(kind, init, col, h);
      assert forall i :: 0 <= i < |init| ==> init[i] == data[i];
    }
  }

  /** A column passes only with at least three qualifying cells, so never
      on a table of fewer than three rows, and only when at least half the
      rows (rounded down) qualify. */
  lemma PassNeedsThree(kind: Kind, data: seq<Row>, col: string, h: Host)
    requires Is(kind, data, col, h)
    ensures Count(kind, data, col, h) >= 3 && |data| >= 3
    ensures 2 * Count(kind, data, col, h) + 1 >= |data|
  {
  }

  /** The counting loop both tests share. */
  method CountCells(kind: Kind, data: seq<Row>, col: string, h: Host) returns (valid: nat)
    ensures valid == Count(kind, data, col, h)
  {
    valid := 0;
    var i := 0;
    while i < |data|
      invariant 0 <= i <= |data|
      invariant valid == Count(kind, data[..i], col, h)
    {
      var v := Get(data[i], col);
      assert data[..i + 1][..i] == data[..i];
      if Qualifies(kind, v, h) {
        valid := valid + 1;
      }
      i := i + 1;
    }
    assert data[..i] == data;
  }

  /** isNumericColumn(data, col) */
  method IsNumericColumn(data: seq<Row>, col: string, h: Host) returns (b: bool)
    ensures b <==> Count(Numeric, data, col, h) >= Threshold(|data|)
  {
    var valid := CountCells(Numeric, data, col, h);
    b := valid >= Threshold(|data|);
  }

  /** isDateColumn(data, col) */
  method IsDateColumn(data: seq<Row>, col: string, h: Host) returns (b: bool)
    ensures b <==> Count(Date, data, col, h) >= Threshold(|data|)
  {
    var valid := CountCells(Date, data, col, h);
    b := valid >= Threshold(|data|);
  }

  /** The columns that pass a test, in column order. */
  function Passing(kind: Kind, data: seq<Row>, columns: seq<string>, h: Host): (r: seq<string>)
    ensures |r| <= |columns|
    ensures forall c :: c in r <==> c in columns && Is(kind, data, c, h)
  {
    if columns == [] then []
    else
      var init := Passing(kind, data, columns[..|columns| - 1], h);
      var c := columns[|columns| - 1];
      assert columns == columns[..|columns| - 1] + [c];
      if Is(kind, data, c, h) then init + [c] else init
  }

  /** The columns not in `excluded`, in column order. */
  function Without(columns: seq<string>, excluded: seq<string>): (r: seq<string>)
    ensures |r| <= |columns|
    ensures forall c :: c in r <==> c in columns && c !in excluded
  {
    if columns == [] then []
    else
      var init := Without(columns[..|columns| - 1], excluded);
      var c := columns[|columns| - 1];
      assert columns == columns[..|columns| - 1] + [c];
      if c !in excluded then init + [c] else init
  }

  /** Every column is either numeric or categorical, never both: the two
      lists together are as long as the column list. */
  lemma {:induction false} NumericAndCategoricalPartition(data: seq<Row>, columns: seq<string>, h: Host)
    ensures |Passing(Numeric, data, columns, h)|
      + |Without(columns, Passing(Numeric, data, columns, h))| == |columns|
  {
    var numeric := Passing(Numeric, data, columns, h);
    PartitionUpTo(data, columns, numeric, |columns|, h);
    assert columns[..|columns|] == columns;
  }

  lemma {:induction false} PartitionUpTo(data: seq<Row>, columns: seq<string>, numeric: seq<string>, n: nat, h: Host)
    requires n <= |columns|
    requires numeric == Passing(Numeric, data, columns, h)
    ensures |Passing(Numeric, data, columns[..n], h)| + |Without(columns[..n], numeric)| == n
  {
    if n > 0 {
      var prefix, init, c := columns[..n], columns[..n - 1], columns[n - 1];
      PartitionUpTo(data, columns, numeric, n - 1, h);
      assert prefix[..n - 1] == init && prefix[n - 1] == c;
      PassingSnoc(Numeric, data, prefix, h);
      WithoutSnoc(prefix, numeric);
      assert c in columns;
      assert c in numeric <==> Is(Numeric, data, c, h);
    }
  }

  lemma PassingSnoc(kind: Kind, data: seq<Row>, columns: seq<string>, h: Host)
    requires columns != []
    ensures Passing(kind, data, columns, h) == Passing(kind, data, columns[..|columns| - 1], h)
      + (if Is(kind, data, columns[|columns| - 1], h) then [columns[|columns| - 1]] else [])
  {
  }

  lemma WithoutSnoc(columns: seq<string>, excluded: seq<string>)
    requires columns != []
    ensures Without(columns, excluded) == Without(columns[..|columns| - 1], excluded)
      + (if columns[|columns| - 1] !in excluded then [columns[|columns| - 1]] else [])
  {
  }

  /** The three column lists of handleAIAnalyze. */
  datatype Roles = Roles(numericCols: seq<string>, dateCols: seq<string>, catCols: seq<string>)

  /** `columns.filter(c => isNumericColumn(data, c))`, the same for dates,
      and `columns.filter(c => !numericCols.includes(c))`. */
  method ClassifyColumns(data: seq<Row>, columns: seq<string>, h: Host) returns (r: Roles)
    ensures r.numericCols == Passing(Numeric, data, columns, h)
    ensures r.dateCols == Passing(Date, data, columns, h)
    ensures r.catCols == Without(columns, r.numericCols)
  {
    var numericCols: seq<string> := [];
    var dateCols: seq<string> := [];
    var i := 0;
    while i < |columns|
      invariant 0 <= i <= |columns|
      invariant numericCols == Passing(Numeric, data, columns[..i], h)
      invariant dateCols == Passing(Date, data, columns[..i], h)
    {
      assert columns[..i + 1][..i] == columns[..i];
      var isNum := IsNumericColumn(data, columns[i], h);
      if isNum {
        numericCols := numericCols + [columns[i]];
      }
      var isDate := IsDateColumn(data, columns[i], h);
      if isDate {
        dateCols := dateCols + [columns[i]];
      }
      i := i + 1;
    }
    var catCols: seq<string> := [];
    var k := 0;
    assert columns[..i] == columns;
    while k < |columns|
      invariant 0 <= k <= |columns|
      invariant catCols == Without(columns[..k], numericCols)
    {
      assert columns[..k + 1][..k] == columns[..k];
      if columns[k] !in numericCols {
        catCols := catCols + [columns[k]];
      }
      k := k + 1;
    }
    assert columns[..k] == columns;
    r := Roles(numericCols, dateCols, catCols);
  }
}
