/** The export route: the table written out as CSV, with fields quoted and
    their double quotes doubled as section 2 of RFC 4180 (rules 6 and 7)
    asks, or as JSON; and the checks on the request. */
module Export {
  import opened Js

  /** `s.replace(/"/g, '""')` */
  function Escape(s: string): (r: string)
    ensures '"' in r <==> '"' in s
    ensures forall c :: c != '"' ==> (c in r <==> c in s)
    ensures |r| >= |s|
  {
    if s == [] then []
    else (if s[0] == '"' then "\"\"" else [s[0]]) + Escape(s[1..])
  }

  /** Reading a quoted field's inside back: a doubled quote stands for one. */
  function Undouble(s: string): string
  {
    if |s| >= 2 && s[0] == '"' && s[1] == '"' then "\"" + Undouble(s[2..])
    else if s == [] then []
    else [s[0]] + Undouble(s[1..])
  }

  /** The field a CSV reader recovers: the inside of a quoted field with its
      quotes undoubled, or an unquoted field as it stands. */
  function DecodeField(f: string): string
  {
    if |f| >= 2 && f[0] == '"' && f[|f| - 1] == '"' then Undouble(f[1..|f| - 1]) else f
  }

  /** Undoubling undoes the doubling. */
  lemma {:induction false} UndoubleEscape(s: string)
    ensures Undouble(Escape(s)) == s
  {
    if s != [] {
      UndoubleEscape(s[1..]);
      if s[0] == '"' {
        assert Escape(s) == "\"\"" + Escape(s[1..]);
        assert Escape(s)[2..] == Escape(s[1..]);
      } else {
        assert Escape(s) == [s[0]] + Escape(s[1..]);
        assert Escape(s)[1..] == Escape(s[1..]);
      }
      assert s == [s[0]] + s[1..];
    }
  }

  /** Text without double quotes is left as it is. */
  lemma {:induction false} EscapeWithoutQuotes(s: string)
    requires '"' !in s
    ensures Escape(s) == s
  {
    if s != [] {
      assert '"' !in s[1..] by {
        forall c | c in s[1..] ensures c != '"' {
          assert c in s;
        }
      }
      EscapeWithoutQuotes(s[1..]);
    }
  }

  /** `row[col] || ""` through String(). */
  function CellText(row: Row, col: string): string
  {
    var v := Get(row, col);
    if Truthy(v) then ToStr(v) else ""
  }

  /** The escaped text contains a comma, a double quote or a newline. */
  predicate NeedsQuotes(e: string)
  {
    ',' in e || '"' in e || '\n' in e
  }

  /** One field of a record. */
  function Field(row: Row, col: string): string
  {
    var e := Escape(CellText(row, col));
    if NeedsQuotes(e) then "\"" + e + "\"" else e
  }

  /** One record: the row's fields in column order, joined by commas. */
  function Record(row: Row, columns: seq<string>): string
  {
    Join(seq(|columns|, i requires 0 <= i < |columns| => Field(row, columns[i])), ",")
  }

  /** The records of all rows, in order. */
  function Records(data: seq<Row>, columns: seq<string>): (r: seq<string>)
    ensures |r| == |data|
    ensures forall i :: 0 <= i < |data| ==> r[i] == Record(data[i], columns)
  {
    seq(|data|, i requires 0 <= i < |data| => Record(data[i], columns))
  }

  /** convertToCSV(data, columns): the header (the column names joined by
      commas, not escaped) and then one record per row, joined by newlines. */
  function ConvertToCsv(data: seq<Row>, columns: seq<string>): string
  {
    Join([Join(columns, ",")] + Records(data, columns), "\n")
  }

  /** A field is quoted exactly when the cell's text holds a comma, a double
      quote or a newline; otherwise it is the text itself. A falsy cell gives
      the empty field. A reader gets the text back either way. */
  lemma FieldRoundTrip(row: Row, col: string)
    ensures (|Field(row, col)| > 0 && Field(row, col)[0] == '"') <==> NeedsQuotes(CellText(row, col))
    ensures !NeedsQuotes(CellText(row, col)) ==> Field(row, col) == CellText(row, col)
    ensures !Truthy(Get(row, col)) ==> Field(row, col) == ""
    ensures DecodeField(Field(row, col)) == CellText(row, col)
  {
    var t := CellText(row, col);
    var e := Escape(t);
    UndoubleEscape(t);
    if NeedsQuotes(e) {
      var f := "\"" + e + "\"";
      assert f[1..|f| - 1] == e;
    } else {
      EscapeWithoutQuotes(t);
    }
  }

  /** The separator and the parts avoid c, so their join does. */
  lemma {:induction false} JoinAvoids(parts: seq<string>, sep: string, c: char)
    requires c !in sep
    requires forall i :: 0 <= i < |parts| ==> c !in parts[i]
    ensures c !in Join(parts, sep)
  {
    if |parts| > 1 {
      JoinAvoids(parts[1..], sep, c);
    }
  }

  /** Splitting text that starts with a line without c at the first c. */
  lemma {:induction false} SplitAfter(x: string, c: char, y: string)
    requires c !in x
    ensures Split(x + [c] + y, c) == [x] + Split(y, c)
  {
    if x == [] {
      assert x + [c] + y == [c] + y;
      assert ([c] + y)[1..] == y;
    } else {
      assert c !in x[1..];
      SplitAfter(x[1..], c, y);
      assert (x + [c] + y)[1..] == x[1..] + [c] + y;
      assert [x[0]] + x[1..] == x;
    }
  }

  /** Text without c is a single piece. */
  lemma {:induction false} SplitWhole(x: string, c: char)
    requires c !in x
    ensures Split(x, c) == [x]
  {
    if x != [] {
      assert c !in x[1..];
      SplitWhole(x[1..], c);
      assert [x[0]] + x[1..] == x;
    }
  }

  /** Splitting lines joined by newlines gives the lines back when none of
      them holds a newline. */
  lemma {:induction false} SplitJoin(parts: seq<string>)
    requires |parts| >= 1
    requires forall i :: 0 <= i < |parts| ==> '\n' !in parts[i]
    ensures Split(Join(parts, "\n"), '\n') == parts
  {
    if |parts| == 1 {
      SplitWhole(parts[0], '\n');
    } else {
      SplitJoin(parts[1..]);
      SplitAfter(parts[0], '\n', Join(parts[1..], "\n"));
      assert parts == [parts[0]] + parts[1..];
    }
  }

  /** With no newline in any column name or cell, the CSV has one line per
      row after the header line, and the lines are the header and the
      records in row order. */
  lemma CsvLines(data: seq<Row>, columns: seq<string>)
    requires forall c :: c in columns ==> '\n' !in c
    requires forall r, c :: r in data && c in columns ==> '\n' !in CellText(r, c)
    ensures Split(ConvertToCsv(data, columns), '\n') == [Join(columns, ",")] + Records(data, columns)
    ensures |Split(ConvertToCsv(data, columns), '\n')| == |data| + 1
  {
    var lines := [Join(columns, ",")] + Records(data, columns);
    JoinAvoids(columns, ",", '\n');
    forall i | 0 <= i < |data|
      ensures '\n' !in Record(data[i], columns)
    {
      var fields := seq(|columns|, k requires 0 <= k < |columns| => Field(data[i], columns[k]));
      forall k | 0 <= k < |columns|
        ensures '\n' !in fields[k]
      {
        assert '\n' !in CellText(data[i], columns[k]);
      }
      JoinAvoids(fields, ",", '\n');
    }
    assert forall i :: 0 <= i < |lines| ==> '\n' !in lines[i];
    SplitJoin(lines);
  }

  // ---------------------------------------------------------------------
  // handleExport

  /** A request body member that must be an array: an array, or some other
      value. */
  datatype Arg<T> = Array(items: T) | Scalar(v: Value)

  /** Arrays are truthy in JavaScript, whatever they hold. */
  predicate ArgTruthy<T>(a: Arg<T>)
  {
    a.Array? || Truthy(a.v)
  }

  /** The request: the body's data, columns and format, and the query's format. */
  datatype ExportRequest = ExportRequest(data: Arg<seq<Row>>, columns: Arg<seq<string>>, format: Value, queryFormat: Value)

  datatype ExportError = DataAndColumnsRequired | MustBeArrays | InvalidFormat

  /** The response: the body and the three headers. */
  datatype Download = Download(content: string, contentType: string, disposition: string, contentLength: nat)

  /** `req.query.format || format` */
  function ExportFormat(req: ExportRequest): Value
  {
    if Truthy(req.queryFormat) then req.queryFormat else req.format
  }

  /** The number of bytes of the UTF-8 encoding of s. */
  function Utf8Length(s: string): (n: nat)
    ensures |s| <= n <= 4 * |s|
  {
    if s == [] then 0
    else
      var c := s[0] as int;
      (if c < 0x80 then 1 else if c < 0x800 then 2 else if c < 0x10000 then 3 else 4) + Utf8Length(s[1..])
  }

  /** The download of a file with the given name and type. */
  function Attachment(content: string, contentType: string, filename: string): Download
  {
    Download(content, contentType, "attachment; filename=\"" + filename + "\"", Utf8Length(content))
  }

  /** handleExport, with JSON.stringify(data, null, 2) as a parameter. */
  function HandleExport(req: ExportRequest, stringify: seq<Row> -> string): (r: Result<Download, ExportError>)
    ensures r == Failure(DataAndColumnsRequired) <==> !ArgTruthy(req.data) || !ArgTruthy(req.columns)
    ensures r == Failure(MustBeArrays) <==>
      ArgTruthy(req.data) && ArgTruthy(req.columns) && (req.data.Scalar? || req.columns.Scalar?)
    ensures r.Success? ==> req.data.Array? && req.columns.Array?
    ensures r.Success? && ExportFormat(req) == Str("csv") ==>
      r.value.content == ConvertToCsv(req.data.items, req.columns.items) && r.value.contentType == "text/csv"
      && r.value.disposition == "attachment; filename=\"data.csv\""
    ensures r.Success? && ExportFormat(req) != Str("csv") ==>
      ExportFormat(req) == Str("json") && r.value.content == stringify(req.data.items)
      && r.value.contentType == "application/json" && r.value.disposition == "attachment; filename=\"data.json\""
    ensures r.Success? ==> r.value.contentLength == Utf8Length(r.value.content)
  {
    if !ArgTruthy(req.data) || !ArgTruthy(req.columns) then Failure(DataAndColumnsRequired)
    else if req.data.Scalar? || req.columns.Scalar? then Failure(MustBeArrays)
    else
      var format := ExportFormat(req);
      if format == Str("csv") then Success(Attachment(ConvertToCsv(req.data.items, req.columns.items), "text/csv", "data.csv"))
      else if format == Str("json") then Success(Attachment(stringify(req.data.items), "application/json", "data.json"))
      else Failure(InvalidFormat)
  }

  /** Only the exact strings "csv" and "json" select a format; the query's
      format wins over the body's unless it is missing or empty. */
  lemma FormatChoice(req: ExportRequest, stringify: seq<Row> -> string)
    requires req.data.Array? && req.columns.Array?
    ensures HandleExport(req, stringify) == Failure(InvalidFormat) <==>
      ExportFormat(req) != Str("csv") && ExportFormat(req) != Str("json")
    ensures Truthy(req.queryFormat) ==> ExportFormat(req) == req.queryFormat
    ensures !Truthy(req.queryFormat) ==> ExportFormat(req) == req.format
  {
  }
}
