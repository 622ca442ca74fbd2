/** The update-row route: one cell of the stored table replaced, after the
    request's index and column are checked. */
module UpdateRow {
  import opened Js
  import opened Upload

  /** The request's rowIndex: a JSON number, or anything else. */
  datatype Index = Number(x: real) | NotNumber

  datatype UpdateError = InvalidParameters | OutOfBounds | ColumnNotFound

  /** The response's updatedRow, rowIndex, column and newValue. */
  datatype Updated = Updated(row: Row, rowIndex: real, column: string, newValue: Value)

  /** The table with row i's cell in col replaced by value. */
  function SetCell(data: seq<Row>, i: nat, col: string, value: Value): (r: seq<Row>)
    requires i < |data|
    ensures |r| == |data|
    ensures forall j :: 0 <= j < |data| && j != i ==> r[j] == data[j]
    ensures Get(r[i], col) == value
    ensures forall k :: k != col ==> Get(r[i], k) == Get(data[i], k)
    ensures forall k :: k in r[i] <==> k in data[i] || k == col
  {
    data[i := data[i][col := value]]
  }

  /** `columns.includes(column)`: strict equality, so only a string names a column. */
  predicate Names(columns: seq<string>, column: Value)
  {
    column.Str? && column.s in columns
  }

  /** handleUpdateRow as written: a number that is not an integer passes the
      checks, and the assignment then adds a property that is not an element,
      so no row changes, while the route reports success with a row holding
      only the new cell. */
  function UpdateAsWritten(data: seq<Row>, columns: seq<string>, idx: Index, column: Value, value: Value)
    : (r: Result<(seq<Row>, Updated), UpdateError>)
  {
    if idx.NotNumber? || !Truthy(column) then Failure(InvalidParameters)
    else if idx.x < 0.0 || idx.x >= |data| as real then Failure(OutOfBounds)
    else if !Names(columns, column) then Failure(ColumnNotFound)
    else if idx.x == idx.x.Floor as real then
      var updated := SetCell(data, idx.x.Floor, column.s, value);
      Success((updated, Updated(updated[idx.x.Floor], idx.x, column.s, value)))
    else Success((data, Updated(map[column.s := value], idx.x, column.s, value)))
  }

  /** A fractional index is reported as a successful update that changes
      nothing. */
  lemma FractionalIndexUpdatesNothing()
    ensures var data := [map["a" := Str("x")], map["a" := Str("y")]];
      var r := UpdateAsWritten(data, ["a"], Number(0.5), Str("a"), Str("z"));
      r.Success? && r.value.0 == data && r.value.1.row !in data
  {
    var data := [map["a" := Str("x")], map["a" := Str("y")]];
    assert (0.5).Floor == 0;
    var row := map["a" := Str("z")];
    assert row["a"] != data[0]["a"] && row["a"] != data[1]["a"];
  }

  /** The intended check: the index must be an integer within the table. */
  function UpdateSpec(data: seq<Row>, columns: seq<string>, idx: Index, column: Value, value: Value)
    : (r: Result<(seq<Row>, Updated), UpdateError>)
    ensures r.Success? ==>
      idx.Number? && idx.x == idx.x.Floor as real && 0 <= idx.x.Floor < |data|
      && Names(columns, column)
      && r.value.0 == SetCell(data, idx.x.Floor, column.s, value)
      && r.value.1 == Updated(r.value.0[idx.x.Floor], idx.x, column.s, value)
  {
    if idx.NotNumber? || idx.x != idx.x.Floor as real || !Truthy(column) then Failure(InvalidParameters)
    else if idx.x < 0.0 || idx.x >= |data| as real then Failure(OutOfBounds)
    else if !Names(columns, column) then Failure(ColumnNotFound)
    else
      var updated := SetCell(data, idx.x.Floor, column.s, value);
      Success((updated, Updated(updated[idx.x.Floor], idx.x, column.s, value)))
  }

  /** The checks run in order: the parameters, then the bounds, then the
      column; an integral index gets the same answer as the code as written. */
  lemma UpdateChecks(data: seq<Row>, columns: seq<string>, idx: Index, column: Value, value: Value)
    ensures UpdateSpec(data, columns, idx, column, value) == Failure(InvalidParameters) <==>
      idx.NotNumber? || idx.x != idx.x.Floor as real || !Truthy(column)
    ensures UpdateSpec(data, columns, idx, column, value) == Failure(OutOfBounds) <==>
      idx.Number? && idx.x == idx.x.Floor as real && Truthy(column) && !(0 <= idx.x.Floor < |data|)
    ensures UpdateSpec(data, columns, idx, column, value) == Failure(ColumnNotFound) <==>
      idx.Number? && idx.x == idx.x.Floor as real && Truthy(column) && 0 <= idx.x.Floor < |data|
      && !Names(columns, column)
    ensures idx.NotNumber? || idx.x == idx.x.Floor as real ==>
      UpdateSpec(data, columns, idx, column, value) == UpdateAsWritten(data, columns, idx, column, value)
  {
  }

  /** handleUpdateRow, with the integer check: the stored table changes in
      the one cell on success and not at all otherwise. */
  method HandleUpdateRow(store: Store, idx: Index, column: Value, value: Value)
    returns (r: Result<Updated, UpdateError>)
    modifies store
    ensures var spec := UpdateSpec(old(store.data), old(store.columns), idx, column, value);
      (spec.Success? ==> r == Success(spec.value.1) && store.data == spec.value.0)
      && (spec.Failure? ==> r == Failure(spec.error) && store.data == old(store.data))
    ensures store.columns == old(store.columns)
  {
    if idx.NotNumber? || idx.x != idx.x.Floor as real || !Truthy(column) {
      return Failure(InvalidParameters);
    }
    var data, columns := store.GetCurrentData();
    if idx.x < 0.0 || idx.x >= |data| as real {
      return Failure(OutOfBounds);
    }
    if !Names(columns, column) {
      return Failure(ColumnNotFound);
    }
    var i := idx.x.Floor;
    var updated := data[i := data[i][column.s := value]];
    store.SetCurrentData(updated, columns);
    r := Success(Updated(updated[i], idx.x, column.s, value));
  }
}
