/** The upload route: the in-memory dataset every other route reads, the
    naive CSV parser, the choice of records in a parsed JSON document, and
    the dispatch on the file's extension. */
module Upload {
  import opened Js

  /** The module-level `currentData` and `currentColumns`. */
  class Store {
    var data: seq<Row>
    var columns: seq<string>

    /** Both start empty. */
    constructor()
      ensures data == [] && columns == []
    {
      data := [];
      columns := [];
    }

    /** getCurrentData() */
    method GetCurrentData() returns (d: seq<Row>, c: seq<string>)
      ensures d == data && c == columns
    {
      d := data;
      c := columns;
    }

    /** setCurrentData(data, columns) */
    method SetCurrentData(d: seq<Row>, c: seq<string>)
      modifies this
      ensures data == d && columns == c
    {
      data := d;
      columns := c;
    }
  }

  // ---------------------------------------------------------------------
  // parseCSV

  /** `field.trim().replace(/"/g, "")` */
  function Clean(field: string): (r: string)
    ensures '"' !in r
  {
    Remove(Trim(field), '"')
  }

  /** `line.split(",").map(clean)` */
  function Fields(line: string): (r: seq<string>)
    ensures |r| == |Split(line, ',')|
    ensures forall i :: 0 <= i < |r| ==> r[i] == Clean(Split(line, ',')[i])
  {
    var parts := Split(line, ',');
    seq(|parts|, i requires 0 <= i < |parts| => Clean(parts[i]))
  }

  /** `content.trim().split("\n")` */
  function Lines(content: string): (r: seq<string>)
    ensures |r| >= 1
  {
    Split(Trim(content), '\n')
  }

  /** `values[index] || ""` */
  function FieldAt(values: seq<string>, i: nat): string
  {
    if i < |values| then values[i] else ""
  }

  /** The row the `forEach` builds after the first k columns: each column
      in turn set to its field, a later column of the same name overwriting
      an earlier one. */
  function RowUpTo(columns: seq<string>, values: seq<string>, k: nat): Row
    requires k <= |columns|
  {
    if k == 0 then map[]
    else RowUpTo(columns, values, k - 1)[columns[k - 1] := Str(FieldAt(values, k - 1))]
  }

  /** The row of one data line. */
  function RowOf(columns: seq<string>, values: seq<string>): Row
  {
    RowUpTo(columns, values, |columns|)
  }

  /** The columns parseCSV returns: the header line's cleaned fields. */
  function CsvColumns(content: string): (r: seq<string>)
    ensures |r| >= 1
  {
    Fields(Lines(content)[0])
  }

  /** The rows of the given data lines under the given columns. */
  function RowsOf(columns: seq<string>, lines: seq<string>): (r: seq<Row>)
    ensures |r| == |lines|
    ensures forall i :: 0 <= i < |r| ==> r[i] == RowOf(columns, Fields(lines[i]))
  {
    seq(|lines|, i requires 0 <= i < |lines| => RowOf(columns, Fields(lines[i])))
  }

  /** The rows parseCSV returns: one per line after the header. */
  function CsvData(content: string): (r: seq<Row>)
  {
    RowsOf(CsvColumns(content), Lines(content)[1..])
  }

  /** The `forEach` that fills one row. */
  method BuildRow(columns: seq<string>, values: seq<string>) returns (row: Row)
    ensures row == RowOf(columns, values)
  {
    row := map[];
    var index := 0;
    while index < |columns|
      invariant 0 <= index <= |columns|
      invariant row == RowUpTo(columns, values, index)
    {
      row := row[columns[index] := Str(if index < |values| then values[index] else "")];
      index := index + 1;
    }
  }

  /** The `map` over the data lines. */
  method BuildRows(columns: seq<string>, body: seq<string>) returns (data: seq<Row>)
    ensures data == RowsOf(columns, body)
  {
    data := [];
    var i := 0;
    while i < |body|
      invariant 0 <= i <= |body|
      invariant data == RowsOf(columns, body[..i])
    {
      var row := BuildRow(columns, Fields(body[i]));
      RowsOfSnoc(columns, body, i);
      data := data + [row];
      i := i + 1;
    }
    assert body[..i] == body;
  }

  /** One more data line adds its row at the end. */
  lemma RowsOfSnoc(columns: seq<string>, body: seq<string>, i: nat)
    requires i < |body|
    ensures RowsOf(columns, body[..i + 1]) == RowsOf(columns, body[..i]) + [RowOf(columns, Fields(body[i]))]
  {
    var r, r0 := RowsOf(columns, body[..i + 1]), RowsOf(columns, body[..i]);
    var row := RowOf(columns, Fields(body[i]));
    forall k | 0 <= k < |r|
      ensures r[k] == (r0 + [row])[k]
    {
      if k < |r0| {
        assert body[..i + 1][k] == body[..i][k];
      } else {
        assert body[..i + 1][k] == body[i];
      }
    }
  }

  /** parseCSV(content) */
  method ParseCsv(content: string) returns (data: seq<Row>, columns: seq<string>)
    ensures data == CsvData(content) && columns == CsvColumns(content)
  {
    var lines := Lines(content);
    columns := Fields(lines[0]);
    data := BuildRows(columns, lines[1..]);
  }

  /** The row has a key for every column, and for a column whose name does
      not recur later in the header the key holds that column's field, or
      "" when the line has fewer fields. */
  lemma {:induction false} RowUpToFields(columns: seq<string>, values: seq<string>, k: nat, j: nat)
    requires j < k <= |columns|
    ensures columns[j] in RowUpTo(columns, values, k)
    ensures columns[j] !in columns[j + 1..k] ==> RowUpTo(columns, values, k)[columns[j]] == Str(FieldAt(values, j))
  {
    if j < k - 1 {
      RowUpToFields(columns, values, k - 1, j);
      assert columns[j + 1..k] == columns[j + 1..k - 1] + [columns[k - 1]];
    }
  }

  /** The keys of a row are exactly the columns. */
  lemma {:induction false} RowUpToKeys(columns: seq<string>, values: seq<string>, k: nat)
    requires k <= |columns|
    ensures forall c :: c in RowUpTo(columns, values, k) <==> c in columns[..k]
  {
    if k > 0 {
      RowUpToKeys(columns, values, k - 1);
      assert columns[..k] == columns[..k - 1] + [columns[k - 1]];
    }
  }

  /** Every row has exactly the columns as keys; position j of the line
      lands in column j when no later column has the same name. */
  lemma CsvRows(content: string, i: nat, j: nat)
    requires i < |CsvData(content)| && j < |CsvColumns(content)|
    ensures forall c :: c in CsvData(content)[i] <==> c in CsvColumns(content)
    ensures CsvColumns(content)[j] !in CsvColumns(content)[j + 1..] ==>
      CsvData(content)[i][CsvColumns(content)[j]] == Str(FieldAt(Fields(Lines(content)[i + 1]), j))
  {
    var columns := CsvColumns(content);
    var values := Fields(Lines(content)[i + 1]);
    assert CsvData(content)[i] == RowOf(columns, values);
    RowOfFields(columns, values, j);
  }

  /** A row has exactly the columns as keys, and column j holds field j
      unless a later column has the same name. */
  lemma RowOfFields(columns: seq<string>, values: seq<string>, j: nat)
    requires j < |columns|
    ensures forall c :: c in RowOf(columns, values) <==> c in columns
    ensures columns[j] !in columns[j + 1..] ==> RowOf(columns, values)[columns[j]] == Str(FieldAt(values, j))
  {
    RowUpToKeys(columns, values, |columns|);
    RowUpToFields(columns, values, |columns|, j);
    assert columns[..|columns|] == columns;
  }

  /** A row built from fields without double quotes holds only strings
      without double quotes. */
  lemma {:induction false} RowUpToClean(columns: seq<string>, values: seq<string>, k: nat)
    requires k <= |columns|
    requires forall i :: 0 <= i < |values| ==> '"' !in values[i]
    ensures forall c :: c in RowUpTo(columns, values, k) ==>
      RowUpTo(columns, values, k)[c].Str? && '"' !in RowUpTo(columns, values, k)[c].s
  {
    if k > 0 {
      RowUpToClean(columns, values, k - 1);
      assert '"' !in FieldAt(values, k - 1);
    }
  }

  /** No column name and no cell of a parsed CSV holds a double quote, and
      every cell is a string. */
  lemma CsvHasNoQuotes(content: string, i: nat, c: string)
    requires i < |CsvData(content)| && c in CsvData(content)[i]
    ensures forall k :: k in CsvColumns(content) ==> '"' !in k
    ensures CsvData(content)[i][c].Str? && '"' !in CsvData(content)[i][c].s
  {
    var lines := Lines(content);
    var columns := Fields(lines[0]);
    var values := Fields(lines[i + 1]);
    FieldsClean(lines[0]);
    FieldsClean(lines[i + 1]);
    assert CsvData(content)[i] == RowUpTo(columns, values, |columns|);
    RowUpToClean(columns, values, |columns|);
  }

  /** No field of a line holds a double quote. */
  lemma FieldsClean(line: string)
    ensures forall i :: 0 <= i < |Fields(line)| ==> '"' !in Fields(line)[i]
    ensures forall k :: k in Fields(line) ==> '"' !in k
  {
    var r := Fields(line);
    forall k | k in r
      ensures '"' !in k
    {
      var i :| 0 <= i < |r| && r[i] == k;
      assert r[i] == Clean(Split(line, ',')[i]);
    }
  }

  /** `split` always yields at least one line, so the empty-lines guard
      never fires: empty or blank content gives no rows and the single
      column "". */
  lemma CsvOfBlank(content: string)
    requires forall i :: 0 <= i < |content| ==> IsSpace(content[i])
    ensures CsvData(content) == [] && CsvColumns(content) == [""]
  {
    var t := Trim(content);
    assert Split(t, '\n') == [""];
    assert Split("", ',') == [""];
    assert Trim("") == "";
    assert Remove("", '"') == "";
  }

  // ---------------------------------------------------------------------
  // parseJSON

  /** A value as JSON.parse produces it. */
  datatype Json =
    | JNull
    | JBool(b: bool)
    | JNum(n: int)
    | JStr(s: string)
    | JArr(items: seq<Json>)
    | JObj(keys: seq<string>, fields: map<string, Json>)

  /** The records parseJSON takes: the document if it is an array, else its
      `data` member if that is an array, else the document alone. Reading
      `.data` of null throws, which the parser reports as invalid JSON. */
  function Records(parsed: Json): (r: Result<seq<Json>, string>)
    ensures r.Failure? <==> parsed == JNull
    ensures parsed.JArr? ==> r == Success(parsed.items)
    ensures !parsed.JArr? && parsed != JNull && r.Success? && r.value != [parsed] ==>
      parsed.JObj? && "data" in parsed.fields && parsed.fields["data"].JArr?
  {
    match parsed
    case JNull => Failure("Invalid JSON format")
    case JArr(items) => Success(items)
    case JObj(_, fields) =>
      if "data" in fields && fields["data"].JArr? then Success(fields["data"].items)
      else Success([parsed])
    case _ => Success([parsed])
  }

  /** `Object.keys(v)`: the keys of an object, the indices of an array or of
      a string, nothing for other values. */
  function KeysOf(v: Json): seq<string>
  {
    match v
    case JObj(keys, _) => keys
    case JArr(items) => seq(|items|, i requires 0 <= i < |items| => NatText(i))
    case JStr(s) => seq(|s|, i requires 0 <= i < |s| => NatText(i))
    case _ => []
  }

  /** The first record is `null`, so `Object.keys(data[0])` throws. */
  predicate NullFirst(parsed: Json)
  {
    var d := Records(parsed);
    d.Success? && d.value != [] && d.value[0] == JNull
  }

  /** The records and columns parseJSON returns for a parsed document; it
      fails when the document is `null` or its first record is. */
  function JsonSpec(parsed: Json): (r: Result<(seq<Json>, seq<string>), string>)
    ensures r.Failure? <==> parsed == JNull || NullFirst(parsed)
    ensures r.Success? ==> r.value.0 == Records(parsed).value
    ensures r.Success? && r.value.0 == [] ==> r.value.1 == []
    ensures r.Success? && r.value.0 != [] ==> r.value.1 == KeysOf(r.value.0[0])
  {
    match Records(parsed)
    case Failure(e) => Failure(e)
    case Success(data) =>
      if data == [] then Success(([], []))
      else if data[0] == JNull then Failure("Invalid JSON format")
      else Success((data, KeysOf(data[0])))
  }

  /** `String(v)` of a parsed value held in a cell. */
  function JsonText(v: Json): string
  {
    match v
    case JNull => ""
    case JBool(b) => if b then "true" else "false"
    case JNum(n) => IntText(n)
    case JStr(s) => s
    case JArr(items) => Join(seq(|items|, i requires 0 <= i < |items| => JsonText(items[i])), ",")
    case JObj(_, _) => "[object Object]"
  }

  /** A parsed value as a cell. */
  function CellOf(v: Json): Value
  {
    match v
    case JNull => Null
    case JBool(b) => Bool(b)
    case JNum(n) => Num(n)
    case JStr(s) => Str(s)
    case _ => Composite(JsonText(v))
  }

  /** A record as a row: an object's members; other records have none. */
  function RowOfRecord(v: Json): Row
  {
    match v
    case JObj(_, fields) => map k | k in fields :: CellOf(fields[k])
    case _ => map[]
  }

  // ---------------------------------------------------------------------
  // handleUpload

  /** What multer hands the route: the original file name and the content
      decoded as UTF-8. */
  datatype UploadFile = UploadFile(originalName: string, content: string)

  datatype UploadError = NoFileUploaded | UnsupportedFileType | SqliteNotImplemented | InvalidJson

  /** The position of the last c in s. */
  function LastOf(s: string, c: char): (r: Option<nat>)
    ensures r.Some? ==> r.value < |s| && s[r.value] == c && c !in s[r.value + 1..]
    ensures r.None? ==> c !in s
  {
    if s == [] then None
    else if s[|s| - 1] == c then Some(|s| - 1)
    else
      var r := LastOf(s[..|s| - 1], c);
      assert s == s[..|s| - 1] + [s[|s| - 1]];
      r
  }

  /** s without its trailing slashes. */
  function TrimSlashes(s: string): (r: string)
    ensures |r| <= |s| && r == s[..|r|]
  {
    if s != [] && s[|s| - 1] == '/' then TrimSlashes(s[..|s| - 1]) else s
  }

  /** `path.extname(name)`: from the last dot of the last path segment,
      unless that dot starts the segment or the segment is "..". */
  function ExtName(name: string): (r: string)
    ensures r != "" ==> r[0] == '.' && '/' !in r
  {
    var path := TrimSlashes(name);
    var base := match LastOf(path, '/') case Some(p) => path[p + 1..] case None => path;
    match LastOf(base, '.')
    case None => ""
    case Some(p) => if p == 0 || base == ".." then "" else base[p..]
  }

  /** The lower-cased extension the route dispatches on. */
  function ExtOf(name: string): string
  {
    LowerText(ExtName(name))
  }

  /** The extensions multer's file filter lets through. */
  predicate AllowedType(name: string)
  {
    ExtOf(name) in [".csv", ".json", ".sqlite", ".db"]
  }

  /** parseJSON on the outcome of JSON.parse: a syntax error, or a document
      whose records or first record's keys cannot be read, is invalid JSON. */
  function ParseJson(doc: Option<Json>): (r: Result<(seq<Row>, seq<string>), UploadError>)
    ensures r.Failure? <==> doc.None? || doc.value == JNull || NullFirst(doc.value)
    ensures r.Failure? ==> r.error == InvalidJson
    ensures r.Success? ==> |r.value.0| == |Records(doc.value).value|
  {
    match doc
    case None => Failure(InvalidJson)
    case Some(d) =>
      match JsonSpec(d)
      case Failure(_) => Failure(InvalidJson)
      case Success(p) => Success((seq(|p.0|, i requires 0 <= i < |p.0| => RowOfRecord(p.0[i])), p.1))
  }

  /** `[null]` and `{"data": [null]}` are refused as invalid JSON, while an
      array starting with any other value is read. */
  lemma NullFirstRecordRefused(rest: seq<Json>, first: Json)
    ensures ParseJson(Some(JArr([JNull] + rest))) == Failure(InvalidJson)
    ensures ParseJson(Some(JObj(["data"], map["data" := JArr([JNull] + rest)]))) == Failure(InvalidJson)
    ensures first != JNull ==> ParseJson(Some(JArr([first] + rest))).Success?
  {
    assert ([JNull] + rest)[0] == JNull;
    assert ([first] + rest)[0] == first;
  }

  /** What handleUpload stores, or why it stores nothing. */
  function UploadSpec(file: Option<UploadFile>, parse: string -> Option<Json>): Result<(seq<Row>, seq<string>), UploadError>
  {
    if file.None? then Failure(NoFileUploaded)
    else
      var ext := ExtOf(file.value.originalName);
      if ext == ".csv" then Success((CsvData(file.value.content), CsvColumns(file.value.content)))
      else if ext == ".json" then
        ParseJson(parse(file.value.content))
      else if ext == ".sqlite" || ext == ".db" then Failure(SqliteNotImplemented)
      else Failure(UnsupportedFileType)
  }

  /** handleUpload: parse by extension, and replace the stored dataset only
      when parsing succeeds. */
  method HandleUpload(store: Store, file: Option<UploadFile>, parse: string -> Option<Json>)
    returns (r: Result<(seq<Row>, seq<string>), UploadError>)
    modifies store
    ensures r == UploadSpec(file, parse)
    ensures r.Success? ==> store.data == r.value.0 && store.columns == r.value.1
    ensures r.Failure? ==> store.data == old(store.data) && store.columns == old(store.columns)
  {
    if file.None? {
      return Failure(NoFileUploaded);
    }
    var f := file.value;
    var ext := ExtOf(f.originalName);
    var data: seq<Row>;
    var columns: seq<string>;
    if ext == ".csv" {
      data, columns := ParseCsv(f.content);
    } else if ext == ".json" {
      var parsed := ParseJson(parse(f.content));
      if parsed.Failure? {
        return parsed;
      }
      data, columns := parsed.value.0, parsed.value.1;
    } else if ext == ".sqlite" || ext == ".db" {
      return Failure(SqliteNotImplemented);
    } else {
      return Failure(UnsupportedFileType);
    }
    store.SetCurrentData(data, columns);
    r := Success((data, columns));
  }

  /** The route turns a file down as unsupported exactly when multer's file
      filter would have refused it. */
  lemma UnsupportedIffFiltered(file: UploadFile, parse: string -> Option<Json>)
    ensures UploadSpec(Some(file), parse) == Failure(UnsupportedFileType) <==> !AllowedType(file.originalName)
  {
    var ext := ExtOf(file.originalName);
    assert AllowedType(file.originalName) <==> ext == ".csv" || ext == ".json" || ext == ".sqlite" || ext == ".db";
    if ext == ".json" {
      var r := ParseJson(parse(file.content));
      assert r.Failure? ==> r.error == InvalidJson;
    }
  }

  /** The extension of a dot file with no other dot is empty, so such a
      file is unsupported. */
  lemma DotFileHasNoExtension()
    ensures ExtName(".csv") == ""
  {
    var name := ".csv";
    assert name[|name| - 1] != '/';
    assert TrimSlashes(name) == name;
    assert LastOf(name, '/') == None;
    assert LastOf(name, '.') == Some(0);
  }

  /** The extension is compared in lower case. */
  lemma ExtensionIgnoresCase()
    ensures ExtName("data.CSV") == ".CSV" && ExtOf("data.CSV") == ".csv"
  {
    var name := "data.CSV";
    assert name[|name| - 1] != '/';
    assert TrimSlashes(name) == name;
    assert LastOf(name, '/') == None;
    assert LastOf(name, '.') == Some(4);
    assert name[4..] == ".CSV";
    assert LowerText(".CSV") == ".csv";
  }
}
