/** handleAIAnalyze: the heuristic analysis of a question about the stored
    table. The question picks a limit and candidate columns, the data picks
    the numeric, date and categorical columns, and together they choose a
    time series, a sum, an average or a count per group, which is then
    described in a fixed Portuguese narrative. */
module Analyze {
  import opened Js
  import opened Question
  import opened Columns
  import opened Sorting
  import opened Grouping
  import S = Synonyms
  import U = Upload

  datatype AnalyzeError = NoDataLoaded | QuestionRequired

  /** The four analyses, in the order the handler tries them. */
  datatype Mode = Trend(dateCol: string, unit: Unit) | Sum | Avg | Count

  /** Everything the handler decides before it computes the table. */
  datatype Plan = Plan(
    n: nat,
    groupBy: Option<string>,
    valueField: Option<string>,
    wantsTrend: bool,
    mode: Mode,
    filter: Option<RowFilter>)

  /** `guesses.key`, undefined when the key was not guessed. */
  function Lookup(guesses: map<S.Role, string>, r: S.Role): (o: Option<string>)
    ensures o.Some? <==> r in guesses
  {
    if r in guesses then Some(guesses[r]) else None
  }

  /** A possibly undefined string that is truthy. */
  predicate Present(o: Option<string>)
  {
    o.Some? && o.value != ""
  }

  /** `guesses.cliente || guesses.categoria || catCols[0]` */
  function GroupByOf(guesses: map<S.Role, string>, roles: Roles): (g: Option<string>)
    ensures g.None? <==> !Present(Lookup(guesses, S.Cliente)) && !Present(Lookup(guesses, S.Categoria)) && roles.catCols == []
  {
    OrElse(OrElse(Lookup(guesses, S.Cliente), Lookup(guesses, S.Categoria)), Head(roles.catCols))
  }

  /** The guessed value column when it is numeric, else the first numeric
      column. */
  function ValueFieldOf(guesses: map<S.Role, string>, roles: Roles): (v: Option<string>)
    ensures v.Some? ==> v.value in roles.numericCols
    ensures v.None? <==> roles.numericCols == []
  {
    var g := Lookup(guesses, S.Valor);
    if Present(g) && g.value in roles.numericCols then g else Head(roles.numericCols)
  }

  /** The guessed date column when it is a date column, else the first. */
  function DateColOf(guesses: map<S.Role, string>, dateCols: seq<string>): (d: string)
    requires dateCols != []
    ensures d in dateCols
    ensures Present(Lookup(guesses, S.Data)) && guesses[S.Data] in dateCols ==> d == guesses[S.Data]
  {
    var g := Lookup(guesses, S.Data);
    if Present(g) && g.value in dateCols then g.value else dateCols[0]
  }

  /** The analysis: a time series when the question asks for a trend and
      there is a date column, else a sum, else an average, each only with a
      value column, else a count. */
  function ModeOf(qn: string, guesses: map<S.Role, string>, roles: Roles): (m: Mode)
    ensures m.Trend? <==> WantsTrend(qn) && roles.dateCols != []
    ensures m.Trend? ==> m.dateCol in roles.dateCols && (m.unit == Year <==> YearUnit(qn))
    ensures m == Sum <==> !m.Trend? && SumKeyword(qn) && Present(ValueFieldOf(guesses, roles))
    ensures m == Avg <==> !m.Trend? && !SumKeyword(qn) && AvgKeyword(qn) && Present(ValueFieldOf(guesses, roles))
    ensures m == Count <==> !m.Trend? && !((SumKeyword(qn) || AvgKeyword(qn)) && Present(ValueFieldOf(guesses, roles)))
  {
    if WantsTrend(qn) && roles.dateCols != [] then
      Trend(DateColOf(guesses, roles.dateCols), if YearUnit(qn) then Year else Unit.Month)
    else if SumKeyword(qn) && Present(ValueFieldOf(guesses, roles)) then Sum
    else if AvgKeyword(qn) && Present(ValueFieldOf(guesses, roles)) then Avg
    else Count
  }

  /** `data.some((r) => String(r[c]).toLowerCase() === token)` */
  predicate AnyMatch(data: seq<Row>, c: string, token: string)
  {
    exists i :: 0 <= i < |data| && LowerText(ToStr(Get(data[i], c))) == token
  }

  /** Column k is the first of the columns that some row matches. */
  predicate FirstMatchAt(data: seq<Row>, cols: seq<string>, token: string, k: int)
  {
    0 <= k < |cols| && AnyMatch(data, cols[k], token) && forall j :: 0 <= j < k ==> !AnyMatch(data, cols[j], token)
  }

  /** The first of the columns that some row matches. */
  function FirstMatching(data: seq<Row>, cols: seq<string>, token: string): (r: Option<string>)
    ensures r.Some? ==> r.value in cols && AnyMatch(data, r.value, token)
    ensures r.None? ==> forall c :: c in cols ==> !AnyMatch(data, c, token)
    ensures r.Some? ==> exists k :: FirstMatchAt(data, cols, token, k) && cols[k] == r.value
  {
    if cols == [] then None
    else if AnyMatch(data, cols[0], token) then
      assert FirstMatchAt(data, cols, token, 0);
      Some(cols[0])
    else
      var r := FirstMatching(data, cols[1..], token);
      FirstMatchShift(data, cols, token, r);
      r
  }

  /** A first match after a column no row matches is a first match one
      position later in the longer list. */
  lemma FirstMatchShift(data: seq<Row>, cols: seq<string>, token: string, r: Option<string>)
    requires cols != [] && !AnyMatch(data, cols[0], token)
    requires r.Some? ==> exists k :: FirstMatchAt(data, cols[1..], token, k) && cols[1..][k] == r.value
    ensures r.Some? ==> exists k :: FirstMatchAt(data, cols, token, k) && cols[k] == r.value
  {
    if r.Some? {
      var k :| FirstMatchAt(data, cols[1..], token, k) && cols[1..][k] == r.value;
      assert FirstMatchAt(data, cols, token, k + 1) by {
        forall j | 0 <= j < k + 1
          ensures !AnyMatch(data, cols[j], token)
        {
          if j > 0 {
            assert cols[j] == cols[1..][j - 1];
          }
        }
      }
    }
  }

  /** The filter of the count: the token after the last "de", "do" or "da",
      on the first categorical column where some cell matches it. */
  function FilterSpec(data: seq<Row>, catCols: seq<string>, qn: string, ignoreCase: bool): Option<RowFilter>
  {
    match FilterToken(qn)
    case None => None
    case Some(t) =>
      match FirstMatching(data, catCols, t)
      case None => None
      case Some(c) => Some(RowFilter(c, t, ignoreCase))
  }

  /** The three column lists of the table. */
  function RolesOf(data: seq<Row>, columns: seq<string>, h: Host): Roles
  {
    var numeric := Passing(Numeric, data, columns, h);
    Roles(numeric, Passing(Date, data, columns, h), Without(columns, numeric))
  }

  /** What the handler decides for a question. */
  function PlanSpec(data: seq<Row>, columns: seq<string>, question: string, h: Host, ignoreCase: bool): Plan
  {
    var guesses := S.GuessSpec(question, columns);
    var roles := RolesOf(data, columns, h);
    var qn := Normalize(question);
    Plan(GuessN(question), GroupByOf(guesses, roles), ValueFieldOf(guesses, roles),
      WantsTrend(qn), ModeOf(qn, guesses, roles), FilterSpec(data, roles.catCols, qn, ignoreCase))
  }

  /** The table of a plan: the whole time series, or the first n groups. */
  function TableSpec(data: seq<Row>, p: Plan, h: Host): seq<Entry>
  {
    match p.mode
    case Trend(d, u) => TimeSeriesSpec(data, d, u, h)
    case Sum => TopN(AggregateSpec(data, KeyText(p.groupBy), KeyText(p.valueField), false, h), p.n)
    case Avg => TopN(AggregateSpec(data, KeyText(p.groupBy), KeyText(p.valueField), true, h), p.n)
    case Count => TopN(CountSpec(data, KeyText(p.groupBy), p.filter), p.n)
  }

  // ---------------------------------------------------------------------
  // The response

  datatype Chart = Bar | Line

  datatype Operation = Operation(kind: string, groupBy: Option<string>, metricOp: string, metricField: Option<string>, limit: nat)

  /** The table's rows carry their label under `labelColumn` and their value
      under `valueColumn`. */
  datatype Table = Table(columns: seq<string>, rows: seq<Entry>, labelColumn: string, valueColumn: string)

  datatype ChartSpec = ChartSpec(kind: Chart, xKey: string, yKey: string, explanation: string)

  datatype Narrative = Narrative(summary: string, insights: seq<string>, patterns: seq<string>, recommendations: seq<string>)

  datatype Analysis = Analysis(
    interpretation: string,
    operation: Operation,
    table: Table,
    chart: ChartSpec,
    sql: string,
    analysis: Narrative,
    provider: string)

  /** The hexadecimal digit of d. */
  function HexDigit(d: nat): char
    requires d < 16
  {
    "0123456789abcdef"[d]
  }

  /** JSON.stringify of one character inside a string literal. */
  function JsonChar(c: char): string
  {
    if c == '"' then "\\\""
    else if c == '\\' then "\\\\"
    else if c == '\U{08}' then "\\b"
    else if c == '\U{0C}' then "\\f"
    else if c == '\n' then "\\n"
    else if c == '\r' then "\\r"
    else if c == '\t' then "\\t"
    else if (c as int) < 0x20 then "\\u00" + [HexDigit(c as int / 16), HexDigit(c as int % 16)]
    else [c]
  }

  /** JSON.stringify(s) for a string. */
  function JsonQuote(s: string): (r: string)
    ensures |r| >= 2 && r[0] == '"' && r[|r| - 1] == '"'
  {
    "\"" + JsonBody(s) + "\""
  }

  function JsonBody(s: string): string
  {
    if s == [] then [] else JsonChar(s[0]) + JsonBody(s[1..])
  }

  /** The text of a number in a template. */
  function Show(x: real, h: Host): string
  {
    NumberText(x, h)
  }

  /** The interpretation line. */
  function Interpretation(mode: Mode, groupBy: Option<string>, valueField: Option<string>): string
  {
    match mode
    case Trend(d, _) =>
      "A pergunta foi interpretada como uma an\U{E1}lise de tend\U{EA}ncia ao longo do tempo usando a coluna '" + d + "'."
    case Sum =>
      "A pergunta foi interpretada como soma de '" + KeyText(valueField) + "' por '" + KeyText(groupBy) + "'."
    case Avg =>
      "A pergunta foi interpretada como m\U{E9}dia de '" + KeyText(valueField) + "' por '" + KeyText(groupBy) + "'."
    case Count =>
      "A pergunta foi interpretada como contagem de registros por '" + KeyText(groupBy) + "'."
  }

  /** The SQL the analysis corresponds to. */
  function Sql(mode: Mode, groupBy: Option<string>, valueField: Option<string>, n: nat): string
  {
    var g := KeyText(groupBy);
    var tail := " AS valor FROM tabela GROUP BY " + g + " ORDER BY valor DESC LIMIT " + NatText(n);
    match mode
    case Trend(d, u) =>
      "SELECT DATE_TRUNC('" + (if u == Year then "year" else "month") + "', TO_TIMESTAMP(" + JsonQuote(d)
      + ")) AS periodo, COUNT(*) AS valor FROM tabela GROUP BY 1 ORDER BY 1"
    case Sum => "SELECT " + g + " AS categoria, SUM(" + KeyText(valueField) + ")" + tail
    case Avg => "SELECT " + g + " AS categoria, AVG(" + KeyText(valueField) + ")" + tail
    case Count => "SELECT " + g + " AS categoria, COUNT(*)" + tail
  }

  const BarExplanation: string := "Gr\U{E1}fico de barras permite compara\U{E7}\U{E3}o f\U{E1}cil entre categorias."

  function Explanation(m: Mode): string
  {
    match m
    case Trend(_, u) =>
      if u == Year then "S\U{E9}rie temporal anual de ocorr\U{EA}ncias" else "S\U{E9}rie temporal mensal de ocorr\U{EA}ncias"
    case _ => BarExplanation
  }

  /** `${r[labelKey]} (${r[valueKey]})` for each row. */
  function Mentions(rows: seq<Entry>, h: Host): (r: seq<string>)
    ensures |r| == |rows|
  {
    seq(|rows|, i requires 0 <= i < |rows| => rows[i].name + " (" + Show(rows[i].value, h) + ")")
  }

  const NoSummary: string := "N\U{E3}o h\U{E1} dados suficientes para gerar um resumo."

  /** The summary names the first three rows at most. */
  function Summary(rows: seq<Entry>, h: Host): string
  {
    if |rows| > 0 then "Os principais resultados s\U{E3}o " + Join(Mentions(rows[..Min(3, |rows|)], h), ", ") + "."
    else NoSummary
  }

  /** The insight about the leading row. */
  function Leader(top: Entry, second: Entry, wantsTrend: bool, h: Host): string
  {
    top.name + " supera " + second.name + " em " + Show(top.value - second.value, h) + " "
    + (if wantsTrend then "ocorr\U{EA}ncias" else "unidades") + "."
  }

  const Pareto: string := "H\U{E1} concentra\U{E7}\U{E3}o nos primeiros grupos, sugerindo curva de Pareto."

  function Insights(rows: seq<Entry>, wantsTrend: bool, h: Host): seq<string>
  {
    (if |rows| >= 2 && rows[0].value - rows[1].value > 0.0 then [Leader(rows[0], rows[1], wantsTrend, h)] else [])
    + (if |rows| >= 5 then [Pareto] else [])
  }

  const Recommendations: seq<string> := [
    "Investigue as categorias com maior volume para oportunidades de otimiza\U{E7}\U{E3}o.",
    "Aplique segmenta\U{E7}\U{F5}es adicionais para entender padr\U{F5}es escondidos."]

  /** The name of the label column: the period for a trend, the category
      otherwise. */
  function LabelKey(mode: Mode): string
  {
    if mode.Trend? then "periodo" else "categoria"
  }

  /** The operation reported: a time series exactly for a trend, which is
      never grouped; always a count with the question's limit. */
  function OperationOf(mode: Mode, groupBy: Option<string>, n: nat): (o: Operation)
    ensures o.kind == "time_series" <==> mode.Trend?
    ensures o.groupBy.None? <==> mode.Trend? || groupBy.None?
    ensures o.metricOp == "count" && o.metricField.None? && o.limit == n
  {
    assert |"group_by"| != |"time_series"|;
    if mode.Trend? then Operation("time_series", None, "count", None, n)
    else Operation("group_by", groupBy, "count", None, n)
  }

  /** The chart: a line exactly for a trend, with the label column on the
      horizontal axis and the value column on the vertical one. */
  function ChartOf(mode: Mode): (c: ChartSpec)
    ensures c.kind == Line <==> mode.Trend?
    ensures c.xKey == LabelKey(mode) && c.yKey == "valor"
  {
    ChartSpec(if mode.Trend? then Line else Bar, LabelKey(mode), "valor", Explanation(mode))
  }

  /** The response for a plan and its table; `keySet` says whether the
      OpenAI key is configured. */
  function Respond(p: Plan, rows: seq<Entry>, h: Host, keySet: bool): Analysis
  {
    var labelKey := LabelKey(p.mode);
    Analysis(
      Interpretation(p.mode, p.groupBy, p.valueField),
      OperationOf(p.mode, p.groupBy, p.n),
      Table([labelKey, "valor"], rows, labelKey, "valor"),
      ChartOf(p.mode),
      Sql(p.mode, p.groupBy, p.valueField, p.n),
      Narrative(Summary(rows, h), Insights(rows, p.wantsTrend, h), [], Recommendations),
      if keySet then "heuristic+openai-optional" else "heuristic")
  }

  /** What handleAIAnalyze answers. `ignoreCase` is the comparison of the
      count's filter: false as the handler is written, true as corrected. */
  function AnalyzeSpec(data: seq<Row>, columns: seq<string>, question: Value, h: Host, keySet: bool, ignoreCase: bool)
    : Result<Analysis, AnalyzeError>
  {
    if data == [] || columns == [] then Failure(NoDataLoaded)
    else if !(question.Str? && question.s != "") then Failure(QuestionRequired)
    else
      var p := PlanSpec(data, columns, question.s, h, ignoreCase);
      Success(Respond(p, TableSpec(data, p, h), h, keySet))
  }

  // ---------------------------------------------------------------------
  // The handler

  /** The loop over the categorical columns that looks for the filter. */
  method ChooseFilter(data: seq<Row>, catCols: seq<string>, qn: string, ignoreCase: bool) returns (filter: Option<RowFilter>)
    ensures filter == FilterSpec(data, catCols, qn, ignoreCase)
  {
    filter := None;
    var token := FilterToken(qn);
    if token.Some? {
      var i := 0;
      while i < |catCols|
        invariant 0 <= i <= |catCols|
        invariant FirstMatching(data, catCols, token.value) == FirstMatching(data, catCols[i..], token.value)
      {
        var c := catCols[i];
        var has := AnyMatch(data, c, token.value);
        if has {
          filter := Some(RowFilter(c, token.value, ignoreCase));
          break;
        }
        assert catCols[i..][1..] == catCols[i + 1..];
        i := i + 1;
      }
    }
  }

  /** The decisions of the handler, from the question and the table. */
  method MakePlan(data: seq<Row>, columns: seq<string>, question: string, h: Host, ignoreCase: bool) returns (p: Plan)
    ensures p == PlanSpec(data, columns, question, h, ignoreCase)
  {
    var n := GuessN(question);
    var guesses := S.GuessColumns(question, columns);
    var roles := ClassifyColumns(data, columns, h);
    var groupBy := GroupByOf(guesses, roles);
    var valueField := ValueFieldOf(guesses, roles);
    var qn := Normalize(question);
    var filter := ChooseFilter(data, roles.catCols, qn, ignoreCase);
    p := Plan(n, groupBy, valueField, WantsTrend(qn), ModeOf(qn, guesses, roles), filter);
  }

  /** The table of the chosen analysis. */
  method BuildTable(data: seq<Row>, p: Plan, h: Host) returns (rows: seq<Entry>)
    ensures rows == TableSpec(data, p, h)
  {
    match p.mode {
      case Trend(d, u) =>
        rows := TimeSeriesCount(data, d, u, h);
      case Sum =>
        rows := GroupByAggregate(data, KeyText(p.groupBy), KeyText(p.valueField), false, h);
        rows := TopN(rows, p.n);
      case Avg =>
        rows := GroupByAggregate(data, KeyText(p.groupBy), KeyText(p.valueField), true, h);
        rows := TopN(rows, p.n);
      case Count =>
        rows := GroupByCount(data, KeyText(p.groupBy), p.filter);
        rows := TopN(rows, p.n);
    }
  }

  /** handleAIAnalyze on the stored table, as written: the count's filter
      compares the cells exactly, although it was chosen by comparing them
      lower-cased. */
  method HandleAnalyze(store: U.Store, question: Value, h: Host, keySet: bool) returns (r: Result<Analysis, AnalyzeError>)
    ensures r == AnalyzeSpec(store.data, store.columns, question, h, keySet, false)
  {
    var data, columns := store.GetCurrentData();
    if data == [] || columns == [] {
      return Failure(NoDataLoaded);
    }
    if !(question.Str? && question.s != "") {
      return Failure(QuestionRequired);
    }
    var p := MakePlan(data, columns, question.s, h, false);
    var rows := BuildTable(data, p, h);
    r := Success(Respond(p, rows, h, keySet));
  }

  // ---------------------------------------------------------------------
  // Properties of the analysis

  /** The table must hold data before the question is looked at, and the
      question must be a non-empty string; otherwise there is an answer. */
  lemma Validation(data: seq<Row>, columns: seq<string>, question: Value, h: Host, keySet: bool, ignoreCase: bool)
    ensures AnalyzeSpec(data, columns, question, h, keySet, ignoreCase) == Failure(NoDataLoaded)
      <==> data == [] || columns == []
    ensures AnalyzeSpec(data, columns, question, h, keySet, ignoreCase) == Failure(QuestionRequired)
      <==> data != [] && columns != [] && !(question.Str? && question.s != "")
    ensures AnalyzeSpec(data, columns, question, h, keySet, ignoreCase).Success?
      <==> data != [] && columns != [] && question.Str? && question.s != ""
  {
  }

  /** The decisions only ever name columns of the table: a value column is
      numeric, a date column passes the date test, a filter is on a
      categorical column some row matches; and the limit is at most 1000. */
  lemma PlanFacts(data: seq<Row>, columns: seq<string>, question: string, h: Host, ignoreCase: bool)
    ensures var p := PlanSpec(data, columns, question, h, ignoreCase);
      p.n <= 1000
      && (p.valueField.Some? ==> p.valueField.value in columns && Is(Numeric, data, p.valueField.value, h))
      && (p.mode.Trend? ==> p.mode.dateCol in columns && Is(Date, data, p.mode.dateCol, h))
      && (p.groupBy.Some? ==> p.groupBy.value in columns)
    ensures var p := PlanSpec(data, columns, question, h, ignoreCase);
      p.filter.Some? ==>
        p.filter.value.column in columns && !Is(Numeric, data, p.filter.value.column, h)
        && FilterToken(Normalize(question)) == Some(p.filter.value.equals)
        && AnyMatch(data, p.filter.value.column, p.filter.value.equals)
        && p.filter.value.ignoreCase == ignoreCase
  {
    var guesses := S.GuessSpec(question, columns);
    if S.Cliente in guesses {
      S.GuessValuesAreColumns(question, columns, S.Cliente);
    }
    if S.Categoria in guesses {
      S.GuessValuesAreColumns(question, columns, S.Categoria);
    }
  }

  /** A prefix of a sorted sequence is sorted, and keeps distinct names. */
  lemma PrefixSorted(o: Order, t: seq<Entry>, k: nat)
    requires k <= |t|
    requires Sorted(o, t)
    requires forall i, j :: 0 <= i < j < |t| ==> t[i].name != t[j].name
    ensures Sorted(o, t[..k])
    ensures forall i, j :: 0 <= i < j < k ==> t[..k][i].name != t[..k][j].name
  {
  }

  /** The first n rows of a table sorted largest first with distinct names
      are again so, and there are at most n of them. */
  lemma TopFacts(full: seq<Entry>, n: nat)
    requires Sorted(ByValueDesc, full)
    requires forall i, j :: 0 <= i < j < |full| ==> full[i].name != full[j].name
    ensures var r := TopN(full, n);
      |r| <= n && Sorted(ByValueDesc, r) && (forall i, j :: 0 <= i < j < |r| ==> r[i].name != r[j].name)
  {
    PrefixSorted(ByValueDesc, full, |TopN(full, n)|);
  }

  /** A time series is the whole series, in strictly ascending order of its
      periods. */
  lemma TrendTableFacts(data: seq<Row>, p: Plan, h: Host)
    requires p.mode.Trend?
    ensures var r := TableSpec(data, p, h);
      r == TimeSeriesSpec(data, p.mode.dateCol, p.mode.unit, h)
      && (forall i, j :: 0 <= i < j < |r| ==> LexLess(r[i].name, r[j].name))
      && (forall i :: 0 <= i < |r| ==> r[i].value >= 1.0)
  {
    TimeSeriesFacts(data, p.mode.dateCol, p.mode.unit, h);
  }

  /** The other analyses keep the first n groups at most, largest first and
      each group once; a count keeps a prefix of the full count, every group
      counted at least once. */
  lemma GroupTableFacts(data: seq<Row>, p: Plan, h: Host)
    requires !p.mode.Trend?
    ensures var r := TableSpec(data, p, h);
      |r| <= p.n && Sorted(ByValueDesc, r) && (forall i, j :: 0 <= i < j < |r| ==> r[i].name != r[j].name)
    ensures var r := TableSpec(data, p, h);
      p.mode == Count ==>
        r == CountSpec(data, KeyText(p.groupBy), p.filter)[..|r|]
        && (forall i :: 0 <= i < |r| ==> r[i].value >= 1.0)
  {
    var key := KeyText(p.groupBy);
    if p.mode == Count {
      GroupByCountFacts(data, key, p.filter);
      TopFacts(CountSpec(data, key, p.filter), p.n);
    } else {
      GroupByAggregateFacts(data, key, KeyText(p.valueField), p.mode == Avg, h);
      TopFacts(AggregateSpec(data, key, KeyText(p.valueField), p.mode == Avg, h), p.n);
    }
  }

  /** The response describes a time series exactly when the plan is one;
      the operation always reports a count with the question's limit; the
      table and the chart name the same label and value columns. */
  lemma ResponseFacts(p: Plan, rows: seq<Entry>, h: Host, keySet: bool)
    ensures var a := Respond(p, rows, h, keySet);
      (a.chart.kind == Line <==> p.mode.Trend?)
      && (a.operation.kind == "time_series" <==> p.mode.Trend?)
      && (a.operation.groupBy.None? <==> p.mode.Trend? || p.groupBy.None?)
      && a.operation.metricOp == "count" && a.operation.metricField.None? && a.operation.limit == p.n
      && a.table.rows == rows && a.table.labelColumn == a.chart.xKey && a.table.valueColumn == a.chart.yKey == "valor"
      && a.table.columns == [a.table.labelColumn, a.table.valueColumn]
      && a.analysis.recommendations == Recommendations && a.analysis.patterns == []
  {
    var a := Respond(p, rows, h, keySet);
    assert a.operation == OperationOf(p.mode, p.groupBy, p.n);
    assert a.chart == ChartOf(p.mode);
  }

  /** The joined text ends with the last part. */
  lemma {:induction false} JoinEndsWithLast(parts: seq<string>, sep: string)
    requires |parts| >= 1
    ensures var j := Join(parts, sep); var last := parts[|parts| - 1];
      |j| >= |last| && j[|j| - |last|..] == last
  {
    if |parts| > 1 {
      JoinEndsWithLast(parts[1..], sep);
      assert parts[1..][|parts| - 2] == parts[|parts| - 1];
    }
  }

  /** The summary falls back to the fixed sentence exactly when there are
      no rows, and otherwise names only the first three rows. There are at most two insights: the leader's, exactly when
      the first row's value exceeds the second's, and the Pareto remark,
      exactly when there are five rows or more. */
  lemma NarrativeFacts(rows: seq<Entry>, wantsTrend: bool, h: Host)
    ensures Summary(rows, h) == NoSummary <==> rows == []
    ensures Summary(rows, h) == Summary(rows[..Min(3, |rows|)], h)
    ensures |Insights(rows, wantsTrend, h)| <= 2
    ensures Pareto in Insights(rows, wantsTrend, h) <==> |rows| >= 5
    ensures (exists s :: s in Insights(rows, wantsTrend, h) && s != Pareto) <==>
      |rows| >= 2 && rows[0].value > rows[1].value
    ensures |rows| >= 2 && rows[0].value > rows[1].value ==>
      Insights(rows, wantsTrend, h)[0] == Leader(rows[0], rows[1], wantsTrend, h)
  {
    assert NoSummary[|NoSummary| - 2] == 'o';
    var top := rows[..Min(3, |rows|)];
    assert top[..Min(3, |top|)] == top;
    if rows != [] {
      var shown := Mentions(rows[..Min(3, |rows|)], h);
      var last := shown[|shown| - 1];
      JoinEndsWithLast(shown, ", ");
      var j := Join(shown, ", ");
      assert last[|last| - 1] == ')';
      assert j[|j| - 1] == ')';
      var s := Summary(rows, h);
      assert s[|s| - 2] == ')';
    }
    if |rows| >= 2 {
      var l := Leader(rows[0], rows[1], wantsTrend, h);
      assert l[|l| - 2] == 's';
      assert Pareto[|Pareto| - 2] == 'o';
      if rows[0].value > rows[1].value {
        assert l in Insights(rows, wantsTrend, h);
      }
    }
  }

  /** In a group-by answer the rows are sorted, so the leader insight is
      missing exactly when the first two groups tie. */
  lemma LeaderUnlessTie(data: seq<Row>, p: Plan, h: Host)
    requires !p.mode.Trend?
    ensures var r := TableSpec(data, p, h);
      |r| >= 2 ==> (r[0].value > r[1].value <==> r[0].value != r[1].value)
  {
    GroupTableFacts(data, p, h);
  }

  /** The plan differs between the two filter comparisons only in the
      filter's comparison, which only a count uses: every other analysis
      answers the same either way. */
  lemma FilterOnlyInCount(data: seq<Row>, columns: seq<string>, question: Value, h: Host, keySet: bool)
    requires question.Str? && question.s != ""
    requires PlanSpec(data, columns, question.s, h, true).mode != Count
    ensures AnalyzeSpec(data, columns, question, h, keySet, true) == AnalyzeSpec(data, columns, question, h, keySet, false)
  {
    var p := PlanSpec(data, columns, question.s, h, true);
    var q := PlanSpec(data, columns, question.s, h, false);
    PlansDifferInFilter(data, columns, question.s, h);
    TableIgnoresFilter(data, p, q, h);
    if data != [] && columns != [] {
      Answer(data, columns, question.s, h, keySet, true);
      Answer(data, columns, question.s, h, keySet, false);
      RespondIgnoresFilter(p, q, TableSpec(data, p, h), h, keySet);
    }
  }

  /** The case rule of the filter changes nothing else in the plan. */
  lemma PlansDifferInFilter(data: seq<Row>, columns: seq<string>, question: string, h: Host)
    ensures var p := PlanSpec(data, columns, question, h, true);
      PlanSpec(data, columns, question, h, false) == p.(filter := PlanSpec(data, columns, question, h, false).filter)
  {
  }

  /** Only the count reads the filter. */
  lemma TableIgnoresFilter(data: seq<Row>, p: Plan, q: Plan, h: Host)
    requires p.mode != Count && q == p.(filter := q.filter)
    ensures TableSpec(data, p, h) == TableSpec(data, q, h)
  {
  }

  /** The response does not show the filter. */
  lemma RespondIgnoresFilter(p: Plan, q: Plan, rows: seq<Entry>, h: Host, keySet: bool)
    requires q == p.(filter := q.filter)
    ensures Respond(p, rows, h, keySet) == Respond(q, rows, h, keySet)
  {
    assert p.mode == q.mode && p.groupBy == q.groupBy && p.valueField == q.valueField && p.n == q.n;
  }

  /** A successful answer is the response to the plan and its table. */
  lemma Answer(data: seq<Row>, columns: seq<string>, question: string, h: Host, keySet: bool, ignoreCase: bool)
    requires question != "" && data != [] && columns != []
    ensures var p := PlanSpec(data, columns, question, h, ignoreCase);
      AnalyzeSpec(data, columns, Str(question), h, keySet, ignoreCase) == Success(Respond(p, TableSpec(data, p, h), h, keySet))
  {
  }

  /** No row passes the filter, so nothing is counted. */
  lemma {:induction false} NoRowPasses(data: seq<Row>, key: string, filter: Option<RowFilter>)
    requires forall i :: 0 <= i < |data| ==> !Passes(data[i], filter)
    ensures CountItems(data, key, filter) == []
  {
    if data != [] {
      var init := data[..|data| - 1];
      assert forall i :: 0 <= i < |init| ==> init[i] == data[i];
      NoRowPasses(init, key, filter);
    }
  }

  /** As written: a count whose filter compares exactly keeps no row when
      every cell of the filter's column differs from the token, as a cell
      that matches it only up to case does; the answer is an empty table
      with the no-data summary. */
  lemma CaseSensitiveCountEmpty(data: seq<Row>, p: Plan, h: Host, keySet: bool)
    requires p.mode == Count && p.filter.Some? && !p.filter.value.ignoreCase
    requires forall i :: 0 <= i < |data| ==> ToStr(Get(data[i], p.filter.value.column)) != p.filter.value.equals
    ensures TableSpec(data, p, h) == []
    ensures Respond(p, TableSpec(data, p, h), h, keySet).analysis.summary == NoSummary
  {
    var key := KeyText(p.groupBy);
    NoRowPasses(data, key, p.filter);
    GroupedRows(CountItems(data, key, p.filter), CountRows, ByValueDesc);
  }

  /** The table of the example: one row whose product is "Notebook". */
  const NotebookRow: seq<Row> := [map["produto" := Str("Notebook")]]

  /** With a single row no column is numeric or a date column. */
  lemma NotebookRoles(h: Host)
    ensures RolesOf(NotebookRow, ["produto"], h) == Roles([], [], ["produto"])
  {
    assert Columns.Count(Numeric, NotebookRow, "produto", h) <= 1;
    assert Columns.Count(Date, NotebookRow, "produto", h) <= 1;
    assert Passing(Numeric, NotebookRow, ["produto"], h) == [];
    assert Passing(Date, NotebookRow, ["produto"], h) == [];
  }

  /** For any question whose filter token is "notebook", such as
      "vendas de notebook", the plan counts with a filter on "produto" for
      the token "notebook". */
  lemma NotebookPlan(question: string, h: Host, ignoreCase: bool)
    requires FilterToken(Normalize(question)) == Some("notebook")
    ensures PlanSpec(NotebookRow, ["produto"], question, h, ignoreCase).mode == Count
    ensures PlanSpec(NotebookRow, ["produto"], question, h, ignoreCase).filter == Some(RowFilter("produto", "notebook", ignoreCase))
  {
    var qn := Normalize(question);
    var guesses := S.GuessSpec(question, ["produto"]);
    var roles := Roles([], [], ["produto"]);
    NotebookRoles(h);
    NotebookFilter(qn, ignoreCase);
    assert ValueFieldOf(guesses, roles).None?;
    assert ModeOf(qn, guesses, roles) == Count;
  }

  /** The only cell matches the token up to case. */
  lemma NotebookFilter(qn: string, ignoreCase: bool)
    requires FilterToken(qn) == Some("notebook")
    ensures FilterSpec(NotebookRow, ["produto"], qn, ignoreCase) == Some(RowFilter("produto", "notebook", ignoreCase))
  {
    var cell := Get(NotebookRow[0], "produto");
    assert cell == Str("Notebook");
    LowerNotebook();
    assert LowerText(ToStr(cell)) == "notebook";
    assert AnyMatch(NotebookRow, "produto", "notebook");
    assert FirstMatching(NotebookRow, ["produto"], "notebook") == Some("produto");
  }

  /** "Notebook" in lower case. */
  lemma LowerNotebook()
    ensures LowerText("Notebook") == "notebook"
  {
    var r := LowerText("Notebook");
    assert Lower('N') == 'n';
    forall k | 0 <= k < 8
      ensures r[k] == "notebook"[k]
    {
      assert r[k] == Lower("Notebook"[k]);
    }
  }

  /** The exact comparison drops the notebook row. */
  lemma NotebookTableAsWritten(p: Plan, h: Host, keySet: bool)
    requires p.mode == Count && p.filter == Some(RowFilter("produto", "notebook", false))
    ensures TableSpec(NotebookRow, p, h) == []
    ensures Respond(p, TableSpec(NotebookRow, p, h), h, keySet).analysis.summary == NoSummary
  {
    assert ToStr(Get(NotebookRow[0], "produto")) == "Notebook";
    assert "Notebook"[0] != "notebook"[0];
    CaseSensitiveCountEmpty(NotebookRow, p, h, keySet);
  }

  /** As written, that question on that table answers with an empty table
      and the no-data summary, though its only row is a notebook. */
  lemma NotebookCountedAsWritten(question: string, h: Host, keySet: bool)
    requires question != "" && FilterToken(Normalize(question)) == Some("notebook")
    ensures var a := AnalyzeSpec(NotebookRow, ["produto"], Str(question), h, keySet, false);
      a.Success? && a.value.table.rows == [] && a.value.analysis.summary == NoSummary
  {
    NotebookPlan(question, h, false);
    var p := PlanSpec(NotebookRow, ["produto"], question, h, false);
    NotebookTableAsWritten(p, h, keySet);
    Answer(NotebookRow, ["produto"], question, h, keySet, false);
  }

  /** Corrected: a count whose filter ignores case keeps every row that
      matches the token, so when some row does and the limit is at least
      one, the table is not empty and the summary names its rows. */
  lemma CaseInsensitiveCountKeeps(data: seq<Row>, p: Plan, h: Host, keySet: bool)
    requires p.mode == Count && p.filter.Some? && p.filter.value.ignoreCase && p.n >= 1
    requires AnyMatch(data, p.filter.value.column, p.filter.value.equals)
    ensures TableSpec(data, p, h) != []
    ensures Respond(p, TableSpec(data, p, h), h, keySet).analysis.summary != NoSummary
  {
    CountTableKeeps(data, p, h);
    NarrativeFacts(TableSpec(data, p, h), p.wantsTrend, h);
  }

  /** The filtered count keeps a group for the matching row. */
  lemma CountTableKeeps(data: seq<Row>, p: Plan, h: Host)
    requires p.mode == Count && p.filter.Some? && p.filter.value.ignoreCase && p.n >= 1
    requires AnyMatch(data, p.filter.value.column, p.filter.value.equals)
    ensures TableSpec(data, p, h) != []
  {
    var f := p.filter.value;
    var key := KeyText(p.groupBy);
    var i :| 0 <= i < |data| && LowerText(ToStr(Get(data[i], f.column))) == f.equals;
    assert Passes(data[i], p.filter);
    CountSpecKeeps(data, key, p.filter, i);
    assert TableSpec(data, p, h) == TopN(CountSpec(data, key, p.filter), p.n);
  }

  /** Corrected, for the whole handler: whenever a count is filtered, the
      filter keeps the rows that made it chosen. */
  lemma FilterKeepsMatchingRows(data: seq<Row>, columns: seq<string>, question: string, h: Host, keySet: bool)
    requires question != "" && data != [] && columns != []
    requires PlanSpec(data, columns, question, h, true).mode == Count
    requires PlanSpec(data, columns, question, h, true).filter.Some?
    requires PlanSpec(data, columns, question, h, true).n >= 1
    ensures var a := AnalyzeSpec(data, columns, Str(question), h, keySet, true);
      a.Success? && a.value.table.rows != [] && a.value.analysis.summary != NoSummary
  {
    var p := PlanSpec(data, columns, question, h, true);
    PlanFacts(data, columns, question, h, true);
    CaseInsensitiveCountKeeps(data, p, h, keySet);
    Answer(data, columns, question, h, keySet, true);
  }

  /** The same table as corrected: the notebook is counted. */
  lemma NotebookCountedCorrected(question: string, h: Host, keySet: bool)
    requires question != "" && FilterToken(Normalize(question)) == Some("notebook") && GuessN(question) >= 1
    ensures var a := AnalyzeSpec(NotebookRow, ["produto"], Str(question), h, keySet, true);
      a.Success? && a.value.table.rows != []
  {
    NotebookPlan(question, h, true);
    FilterKeepsMatchingRows(NotebookRow, ["produto"], question, h, keySet);
  }
}
