# Heuristic data analysis server: a verified model

This project models the server core of a small data-exploration web app in Dafny. The app's routes do the following:

- **Upload:** the user uploads a CSV or JSON file, which the server parses into an in-memory table (rows of named cells plus a column list).
- **Analyze:** a Portuguese question about that table is answered without any language model. The server guesses a limit and candidate columns from the question, classifies the columns as numeric, date or categorical from the data, and picks one analysis: a time series, a sum, an average or a count per group. It then writes a fixed narrative, a chart description and an illustrative SQL string.
- **Export:** the table is exported as CSV or JSON.
- **Update:** a single cell is updated in place.

The model has these modules:

- **Js**: JavaScript cells and their coercions (`String(v)`, truthiness, `toLowerCase`, `trim`, `split`, `join`). The host services that are not interpreted (`Number()` on strings, `new Date()`, printing of non-integral numbers) arrive as a `Host` value.
- **Question** (`server/routes/ai.ts`): `normalize`, `guessN`, the keyword tests and the filter token taken from the question. Each regular expression becomes an explicit predicate over positions, with the word-boundary test written out.
- **Synonyms** (`server/routes/ai.ts`): `guessColumns`. This covers the synonym table, the first-synonym and first-column scan, and the fuzzy `cliente` fallback.
- **Columns** (`server/routes/ai.ts`): `isNumericColumn` and `isDateColumn` as counting loops, plus the three-way classification of the columns.
- **Sorting**: the comparators passed to `Array.prototype.sort`. An in-place insertion sort on an array stands in for the stable sort. Its result is proved to be sorted, a permutation of the input, stable, and to have an unchanged total.
- **Grouping** (`server/routes/ai.ts`): `groupByCount`, `groupByAggregate`, `timeSeriesCount` and `topN`. Each engine is a method whose loop keeps a `Map`-like order and totals. Each is proved equal to a functional specification, and the specification is proved to have the properties the route relies on.
- **Upload** (`server/routes/upload.ts`): the module-level store as a `Store` class, `parseCSV`, `parseJSON`, the extension filter and `handleUpload`.
- **Export** (`server/routes/export.ts`): `convertToCSV` and `handleExport`. The quoting follows rules 6 and 7 of section 2 of RFC 4180: a field is quoted when it holds a comma, a double quote or a line break, and a quote inside a field is doubled. The model proves that every field decodes back to the cell's text.
- **UpdateRow** (`server/routes/update-row.ts`): `handleUpdateRow`.
- **Analyze** (`server/routes/ai.ts`): `handleAIAnalyze`. The plan (limit, group-by column, value column, mode, filter) is computed first, then the table, then the narrative and response object.

## Model

| member | source | states |
|---|---|---|
| Js.Get | server/routes/ai.ts:121 | reading a property a row lacks gives undefined |
| Js.LowerText | server/routes/ai.ts:241 | lower-casing keeps the length and lower-cases every character on its own |
| Js.TrimStart | server/routes/upload.ts:33 | the result is a suffix of the text, and every character dropped before it is white space |
| Js.TrimEnd | server/routes/upload.ts:33 | the result is a prefix of the text, and every character dropped after it is white space |
| Js.Trim | server/routes/upload.ts:33 | the text is some white space, then the result, then some white space; the result neither starts nor ends with white space |
| Js.Split | server/routes/upload.ts:28 | splitting gives at least one part, and no part contains the separator |
| Js.JoinSplit | server/routes/upload.ts:28 | joining the parts of a split with the separator gives back the text |
| Js.OrElse | server/routes/ai.ts:207 | `a \|\| b` on strings gives `a` when it is a non-empty string and `b` otherwise |
| Question.Normalize | server/routes/ai.ts:5-9 | the normalized text is no longer than the input and holds only lower-case characters without diacritics |
| Question.NormalizeAppend | server/routes/ai.ts:5-9 | normalizing works character by character: it distributes over concatenation |
| Question.NormalizeIdempotent | server/routes/ai.ts:5-9 | normalizing twice gives the same text as normalizing once |
| Question.NotNormalNeverOccurs | server/routes/ai.ts:5-9 | a word holding an accented or upper-case character never occurs in a normalized question |
| Question.YearUnitInsideWord | server/routes/ai.ts:255 | the year test has no word boundary, so "plano" asks for yearly buckets |
| Question.GuessN | server/routes/ai.ts:36-44 | the guessed limit is at most 1000 (three digits at most) |
| Question.LimitDefault | server/routes/ai.ts:36-44 | with no "top", "maiores" or "principais" right before a number (spaces allowed only after "top") and no standalone number of 1 to 3 digits, the limit is 10 |
| Question.LimitPrefixedWins | server/routes/ai.ts:36-44 | the first "top"/"maiores"/"principais" match decides the limit, reading up to three digits greedily, ahead of any standalone number |
| Question.LimitStandalone | server/routes/ai.ts:36-44 | otherwise the first standalone run of 1 to 3 digits is the limit |
| Question.StandaloneIsWholeRun | server/routes/ai.ts:41 | a standalone number is a whole digit run of length 1 to 3 between word boundaries |
| Question.GuessNTop3 | server/routes/ai.ts:36-44 | "top 3 clientes" gives a limit of 3 |
| Question.FilterTokenShape | server/routes/ai.ts:231-237 | a filter token exists only when the question holds " de ", " do " or " da ", and it is non-empty and free of separators |
| Question.SpacedPrepositionSplits | server/routes/ai.ts:234 | a spaced preposition always gives a split point at or after it |
| Synonyms.ColumnIndex | server/routes/ai.ts:87 | the first column whose normalized name contains the synonym, and none earlier |
| Synonyms.Score | server/routes/ai.ts:87 | the column matched for a synonym, present exactly when some column contains it |
| Synonyms.HitIndex | server/routes/ai.ts:91-97 | the first synonym that occurs in the question and names a column |
| Synonyms.Pick | server/routes/ai.ts:89-100 | the column chosen for a role is the one matched by its first hitting synonym |
| Synonyms.HitIffOccurs | server/routes/ai.ts:91-95 | a synonym hits exactly when it occurs in the question and some column contains it |
| Synonyms.SynonymsNotEmpty | server/routes/ai.ts:50-85 | no synonym is empty |
| Synonyms.NamedColumnNotEmpty | server/routes/ai.ts:87-96 | a column matched by a non-empty synonym is never empty |
| Synonyms.FuzzyIndex | server/routes/ai.ts:102-109 | the first column whose normalized name holds a letter and occurs in the question, and none earlier |
| Synonyms.FirstHit | server/routes/ai.ts:91-99 | the inner synonym loop returns the column the specification picks |
| Synonyms.PickAll | server/routes/ai.ts:89-100 | the outer loop over the roles builds exactly the map of the roles' picks |
| Synonyms.FuzzyScan | server/routes/ai.ts:103-108 | the fallback loop finds exactly the first fuzzy column |
| Synonyms.GuessColumns | server/routes/ai.ts:46-111 | the method computes the specified guesses |
| Synonyms.RoleIndex | server/routes/ai.ts:89 | every role has exactly one position in the role table |
| Synonyms.RoleAt | server/routes/ai.ts:89 | the key at a position of the role table is a role exactly when that is the role's position |
| Synonyms.PicksStep | server/routes/ai.ts:89-100 | one more role adds that role's pick and keeps every earlier entry |
| Synonyms.PicksNext | server/routes/ai.ts:89-100 | one pass of the outer loop maps its role to the role's pick when there is one and otherwise changes nothing |
| Synonyms.PicksUpToKeys | server/routes/ai.ts:89-100 | after n roles a role is mapped exactly when it is among the first n and one of its synonyms hits |
| Synonyms.PicksUpToValues | server/routes/ai.ts:89-100 | a mapped role holds its own pick: no later role overwrites it |
| Synonyms.PicksUpToAt | server/routes/ai.ts:89-100 | after n roles a role is mapped exactly when it is among the first n and has a pick, and then to that pick |
| Synonyms.PicksAll | server/routes/ai.ts:89-100 | a role is guessed from its synonyms exactly when one hits, and maps to the column of the first hit |
| Synonyms.GuessOnPicks | server/routes/ai.ts:102 | when the fallback does not run, the guesses are the synonym picks |
| Synonyms.GuessFromSynonyms | server/routes/ai.ts:46-111 | every role but `cliente` is guessed exactly when a synonym hits; a hit always decides the role's column |
| Synonyms.GuessFallback | server/routes/ai.ts:102-109 | with no synonym hit, `cliente` is guessed exactly when a fuzzy column exists, and it is the first one |
| Synonyms.GuessValuesAreColumns | server/routes/ai.ts:46-111 | every guessed column is one of the table's columns |
| Synonyms.AccentedSynonymsNeverMatch | server/routes/ai.ts:64-82 | the accented synonyms ("mês", "preço", "número") can never match a normalized question |
| Columns.Count | server/routes/ai.ts:11-30 | the number of qualifying cells is at most the number of rows |
| Columns.CountAppend | server/routes/ai.ts:11-30 | the count over two row lists is the sum of their counts |
| Columns.CountExtremes | server/routes/ai.ts:11-30 | the count equals the row count exactly when every cell qualifies, and is 0 exactly when none does |
| Columns.PassNeedsThree | server/routes/ai.ts:18 | a passing column has at least three qualifying cells, and they are at least half the rows, rounded down |
| Columns.CountCells | server/routes/ai.ts:13-17 | the counting loop counts exactly the qualifying cells |
| Columns.IsNumericColumn | server/routes/ai.ts:11-19 | a column is numeric exactly when at least max(3, half the rows rounded down) cells are non-empty and not NaN under `Number()` |
| Columns.IsDateColumn | server/routes/ai.ts:21-30 | a column is a date exactly when at least max(3, half the rows rounded down) cells are truthy and give a valid `Date` |
| Columns.Passing | server/routes/ai.ts:202-203 | the filtered columns are exactly the input columns that pass the test |
| Columns.Without | server/routes/ai.ts:204 | the categorical columns are exactly the columns not in the numeric list |
| Columns.PassingSnoc | server/routes/ai.ts:202-203 | filtering one more column appends it exactly when it passes |
| Columns.WithoutSnoc | server/routes/ai.ts:204 | removing from one more column appends it exactly when it is not excluded |
| Columns.PartitionUpTo | server/routes/ai.ts:202-204 | on any prefix of the columns, numeric and categorical counts add up to the prefix length |
| Columns.NumericAndCategoricalPartition | server/routes/ai.ts:202-204 | every column is numeric or categorical and not both |
| Columns.ClassifyColumns | server/routes/ai.ts:202-204 | the numeric, date and categorical lists are the specified filters of the column list |
| Sorting.LexIrreflexive | server/routes/ai.ts:181 | no label comes before itself |
| Sorting.LexTransitive | server/routes/ai.ts:181 | label order is transitive |
| Sorting.LexTotal | server/routes/ai.ts:181 | of two different labels, one comes first |
| Sorting.LexStrictTotal | server/routes/ai.ts:181 | label order is a strict total order |
| Sorting.NotBeforeTransitive | server/routes/ai.ts:129 | both comparators are consistent: "not before" is transitive |
| Sorting.BeforeAsymmetric | server/routes/ai.ts:129 | no two rows each come before the other |
| Sorting.TiedTransitive | server/routes/ai.ts:129 | rows the comparator calls equal form equivalence classes |
| Sorting.Labels | server/routes/ai.ts:302-304 | the labels of the rows, in order |
| Sorting.InsertPermutes | server/routes/ai.ts:129 | inserting adds exactly one element to the multiset |
| Sorting.SortPermutes | server/routes/ai.ts:129 | sorting gives a permutation of its input |
| Sorting.InsertSorted | server/routes/ai.ts:129 | inserting into a sorted list keeps it sorted |
| Sorting.SortSorted | server/routes/ai.ts:129 | the sorted list is ordered by the comparator |
| Sorting.TiesAppend | server/routes/ai.ts:129 | the rows tied with a given row, taken from two lists, are those of the first list followed by those of the second |
| Sorting.InsertStable | server/routes/ai.ts:129 | an inserted element goes after every element it ties with |
| Sorting.SortStable | server/routes/ai.ts:129 | sorting keeps tied rows in their input order (a stable sort) |
| Sorting.TotalAppend | server/routes/ai.ts:129 | the value total over two lists is the sum of the two totals |
| Sorting.InsertTotal | server/routes/ai.ts:129 | inserting adds exactly the inserted value to the total |
| Sorting.SortTotal | server/routes/ai.ts:129 | sorting keeps the total of the values |
| Sorting.ShiftRight | server/routes/ai.ts:129 | the shifting loop moves the larger prefix one slot right and finds the insertion point of the specification |
| Sorting.InsertAt | server/routes/ai.ts:129 | one in-place insertion step leaves the array's prefix equal to the functional insertion and the rest unchanged |
| Sorting.SortInPlace | server/routes/ai.ts:129 | the in-place sort leaves the array equal to the specified stable sort of its old contents |
| Grouping.KeysOf | server/routes/ai.ts:122 | the keys of the items, in order |
| Grouping.Distinct | server/routes/ai.ts:123 | the distinct keys are exactly the keys present, with no repeats |
| Grouping.Summarise | server/routes/ai.ts:126-128 | one row per group, in group order, whose value is the group's measure |
| Grouping.Pad2 | server/routes/ai.ts:164 | a month is printed as two digits |
| Grouping.CountItemsStep | server/routes/ai.ts:120-124 | one more row adds a counted item exactly when it passes the filter |
| Grouping.AggregateItemsStep | server/routes/ai.ts:140-147 | every row adds one item with its amount |
| Grouping.DateItemsStep | server/routes/ai.ts:170-176 | a row adds an item for its period exactly when its date is valid |
| Grouping.GroupsStep | server/routes/ai.ts:123 | a new key is appended to the group order and a known key leaves it unchanged |
| Grouping.AccumulatedStep | server/routes/ai.ts:123 | one more item adds its weight to its own group only |
| Grouping.AccumulatedAbsent | server/routes/ai.ts:123 | a group with no item has a total of 0 |
| Grouping.TallyKeys | server/routes/ai.ts:123 | the tally's order stays the groups in first-occurrence order |
| Grouping.TallyTotals | server/routes/ai.ts:123 | the tally's totals stay the accumulated weights |
| Grouping.TallyStep | server/routes/ai.ts:123 | updating the map with one more item keeps the tally invariant |
| Grouping.Bump | server/routes/ai.ts:123 | one count-map update keeps the tally invariant |
| Grouping.Rows | server/routes/ai.ts:126-128 | the result rows hold the map's entries in insertion order |
| Grouping.TallyRows | server/routes/ai.ts:126-128 | rows built from a finished tally are the per-group summary |
| Grouping.GroupByCount | server/routes/ai.ts:114-131 | the count engine returns the specified count per group, sorted by count, largest first |
| Grouping.ProjectUpdate | server/routes/ai.ts:143-146 | updating an accumulator updates its sum by the amount and its count by one |
| Grouping.AccumulateSums | server/routes/ai.ts:143-146 | the sums of the accumulators keep the tally invariant |
| Grouping.AccumulateCounts | server/routes/ai.ts:143-146 | the counts of the accumulators keep the tally invariant |
| Grouping.Accumulate | server/routes/ai.ts:143-146 | one accumulator update keeps both the sum and the count tallies |
| Grouping.FinishRows | server/routes/ai.ts:148-151 | the finished rows give the group sum or the group mean |
| Grouping.GroupByAggregate | server/routes/ai.ts:133-154 | the aggregate engine returns the specified sum or mean per group, sorted by value, largest first |
| Grouping.TimeSeriesCount | server/routes/ai.ts:156-183 | the time-series engine returns the specified count per period, in label order |
| Grouping.TopN | server/routes/ai.ts:32-34 | the first min(length, max(0, n)) rows, as a prefix |
| Grouping.GroupedRows | server/routes/ai.ts:114-183 | one row per distinct key, no label twice, each row carrying its group's value |
| Grouping.CountAtLeastOne | server/routes/ai.ts:123 | a group that exists has a count of at least 1 |
| Grouping.CountNonNegative | server/routes/ai.ts:123 | counts are never negative |
| Grouping.SummaryStep | server/routes/ai.ts:123 | the summary total grows by exactly the new item's weight when its key is listed |
| Grouping.SummaryStepLast | server/routes/ai.ts:123 | the step holds for one more distinct group |
| Grouping.SummaryLast | server/routes/ai.ts:126-128 | the summary total is the total of all but the last group plus the last group's value |
| Grouping.ValueStep | server/routes/ai.ts:123 | one more item adds its weight to its own group's value only |
| Grouping.SummaryTotal | server/routes/ai.ts:114-154 | the sums or counts over all groups add up to the total weight of the items |
| Grouping.SummaryTotalStep | server/routes/ai.ts:123 | the total identity survives one more item |
| Grouping.NewGroupTotal | server/routes/ai.ts:123 | opening a new group adds the new item's weight to the total |
| Grouping.TotalWeightOfCounts | server/routes/ai.ts:123 | counting gives each item a weight of 1 |
| Grouping.FirstIndex | server/routes/ai.ts:123 | the first position of a key |
| Grouping.FirstIndexPrefix | server/routes/ai.ts:123 | the first position of a key does not depend on what follows it |
| Grouping.GroupsInFirstOccurrenceOrder | server/routes/ai.ts:123-128 | groups appear in the order of their keys' first occurrence, as a `Map` keeps them |
| Grouping.GroupByCountFacts | server/routes/ai.ts:114-131 | the counts are sorted largest first, one row per group, each at least 1, adding up to the rows that pass the filter (all rows without a filter) |
| Grouping.CountSpecKeeps | server/routes/ai.ts:121 | a row that passes the filter guarantees a non-empty result |
| Grouping.CountItemsKeeps | server/routes/ai.ts:121 | a row that passes the filter is counted |
| Grouping.CountItemsAll | server/routes/ai.ts:121 | without a filter every row is counted |
| Grouping.GroupByCountTies | server/routes/ai.ts:129 | groups with equal counts keep their first-occurrence order |
| Grouping.GroupByAggregateFacts | server/routes/ai.ts:133-154 | sorted largest first, one row per group; sums add up to the total amount; each mean is the group sum over a group count of at least 1 |
| Grouping.TimeSeriesFacts | server/routes/ai.ts:156-183 | periods strictly increase, each count is at least 1, and the counts add up to the rows with a valid date |
| Upload.Store.constructor | server/routes/upload.ts:8-9 | the store starts with no rows and no columns |
| Upload.Store.GetCurrentData | server/routes/upload.ts:127-130 | the getter returns exactly the stored rows and columns |
| Upload.Store.SetCurrentData | server/routes/upload.ts:131-134 | the setter replaces exactly the rows and the columns |
| Upload.Clean | server/routes/upload.ts:33-35 | a cleaned field holds no double quote |
| Upload.Fields | server/routes/upload.ts:35 | a line's fields are its comma-separated parts, each trimmed and stripped of quotes |
| Upload.Lines | server/routes/upload.ts:28 | splitting the trimmed content always gives at least one line |
| Upload.CsvColumns | server/routes/upload.ts:31-33 | the header always gives at least one column name, possibly empty |
| Upload.RowsOf | server/routes/upload.ts:34-41 | one row per body line, in order, built from that line's fields |
| Upload.BuildRow | server/routes/upload.ts:36-40 | the row-building loop gives the specified row |
| Upload.BuildRows | server/routes/upload.ts:34-41 | the line loop gives the specified rows |
| Upload.RowsOfSnoc | server/routes/upload.ts:34-41 | one more line adds one more row |
| Upload.ParseCsv | server/routes/upload.ts:27-44 | parsing gives the specified rows and columns |
| Upload.RowUpToFields | server/routes/upload.ts:37-39 | every column is a key of the row; a name not repeated later holds its own field, or "" when the line is short |
| Upload.RowUpToKeys | server/routes/upload.ts:37-39 | a row's keys are exactly the column names |
| Upload.RowOfFields | server/routes/upload.ts:36-40 | a row built from a line has exactly the header's keys, and a column not repeated later holds the field at its own position |
| Upload.CsvRows | server/routes/upload.ts:27-44 | every parsed row has exactly the header's keys, and a column holds the field at its own position |
| Upload.RowUpToClean | server/routes/upload.ts:37-39 | quote-free fields give a row of quote-free strings |
| Upload.FieldsClean | server/routes/upload.ts:33-35 | no field of a line keeps a double quote |
| Upload.CsvHasNoQuotes | server/routes/upload.ts:27-44 | no column name and no cell of a parsed CSV holds a double quote, and every cell is a string |
| Upload.CsvOfBlank | server/routes/upload.ts:28-29 | blank content gives no rows and a single empty column, never the empty result of the length check |
| Upload.Records | server/routes/upload.ts:51-57 | an array is the records; a non-null non-array is wrapped unless it holds a `data` array; `null` fails |
| Upload.JsonSpec | server/routes/upload.ts:51-65 | fails exactly when the document is `null` or its first record is `null`; otherwise the rows are the records, with no columns for no records and the first record's keys otherwise |
| Upload.ParseJson | server/routes/upload.ts:46-66 | parsing fails, with the invalid-JSON error, exactly when the text is not JSON, is `null`, or has `null` as its first record; otherwise there is one row per record |
| Upload.NullFirstRecordRefused | server/routes/upload.ts:59-65 | `[null, ...]` and `{"data": [null, ...]}` are refused as invalid JSON, while an array with any other first record is read |
| Upload.LastOf | server/routes/upload.ts:18 | the last position of a character, if any |
| Upload.TrimSlashes | server/routes/upload.ts:18 | trailing slashes are dropped from the name |
| Upload.ExtName | server/routes/upload.ts:18 | an extension is empty or starts with a dot and holds no slash |
| Upload.HandleUpload | server/routes/upload.ts:78-122 | the route returns the specified result, stores exactly the parsed rows and columns on success, and leaves the store alone on failure |
| Upload.UnsupportedIffFiltered | server/routes/upload.ts:16-24 | the route reports an unsupported type exactly for the files the upload filter refuses |
| Upload.DotFileHasNoExtension | server/routes/upload.ts:18 | a name like ".csv" has no extension, so it is refused |
| Upload.ExtensionIgnoresCase | server/routes/upload.ts:85 | "data.CSV" is read as a CSV file |
| Export.Escape | server/routes/export.ts:10 | doubling the quotes keeps the set of characters present and never shortens the text |
| Export.UndoubleEscape | server/routes/export.ts:10 | undoubling recovers the original text |
| Export.EscapeWithoutQuotes | server/routes/export.ts:10 | a text without quotes is left unchanged |
| Export.Records | server/routes/export.ts:5-18 | one record per row, in order |
| Export.FieldRoundTrip | server/routes/export.ts:7-16 | a field is quoted exactly when its text holds a comma, a quote or a newline; a falsy cell gives ""; decoding a field gives back the cell's text |
| Export.JoinAvoids | server/routes/export.ts:17-19 | joining cannot introduce a character that neither the parts nor the separator hold |
| Export.SplitAfter | server/routes/export.ts:19 | splitting at the first separator gives the part before it and the split of the rest |
| Export.SplitWhole | server/routes/export.ts:19 | a text without the separator splits into itself |
| Export.SplitJoin | server/routes/export.ts:19 | splitting newline-free lines after joining them with newlines gives them back |
| Export.CsvLines | server/routes/export.ts:3-20 | with newline-free names and cells, the CSV is the header line followed by one record line per row |
| Export.Utf8Length | server/routes/export.ts:59 | the UTF-8 byte length is between one and four bytes per character |
| Export.HandleExport | server/routes/export.ts:22-69 | the two 400 checks fire exactly when data or columns are missing or are not arrays; success gives the CSV as `text/csv` named `data.csv`, or the JSON text as `application/json` named `data.json`, with its byte length |
| Export.FormatChoice | server/routes/export.ts:25-54 | the query's format wins when truthy; any format other than "csv" or "json" is refused |
| UpdateRow.SetCell | server/routes/update-row.ts:23-27 | only the chosen cell of the chosen row changes |
| UpdateRow.FractionalIndexUpdatesNothing | server/routes/update-row.ts:8-27 | as written, index 0.5 is reported as a successful update while the table is left unchanged |
| UpdateRow.UpdateSpec | server/routes/update-row.ts:4-45 | success only for an integral in-range index and a listed column, and then exactly that cell changes |
| UpdateRow.UpdateChecks | server/routes/update-row.ts:8-20 | each of the three errors happens exactly when its check is the first to fail; integral indices behave as in the code as written |
| UpdateRow.HandleUpdateRow | server/routes/update-row.ts:4-45 | the store changes exactly as specified on success and not at all on an error; the columns never change |
| Analyze.Lookup | server/routes/ai.ts:207-209 | a role's guess is present exactly when the role was guessed |
| Analyze.GroupByOf | server/routes/ai.ts:207 | the group-by column is missing only when neither guess is truthy and there is no categorical column |
| Analyze.ValueFieldOf | server/routes/ai.ts:208-211 | the value column is always numeric, and missing only when no column is numeric |
| Analyze.DateColOf | server/routes/ai.ts:251-254 | the date column is a date column, and it is the guessed one whenever that is a date column |
| Analyze.ModeOf | server/routes/ai.ts:250-289 | trend exactly for a trend question with a date column, yearly exactly when the year test holds; else sum, then average, only with a value column; count otherwise |
| Analyze.FirstMatching | server/routes/ai.ts:240-246 | the first categorical column with a cell equal to the token after lower-casing, and none earlier |
| Analyze.FirstMatchShift | server/routes/ai.ts:240-246 | a first match after a column no row matches stays the first match in the longer list |
| Analyze.JsonQuote | server/routes/ai.ts:268 | the quoted column name starts and ends with a double quote |
| Analyze.Mentions | server/routes/ai.ts:302-305 | one mention per row |
| Analyze.ChooseFilter | server/routes/ai.ts:229-248 | the filter loop chooses the specified filter |
| Analyze.MakePlan | server/routes/ai.ts:199-248 | the plan computed step by step is the specified plan |
| Analyze.BuildTable | server/routes/ai.ts:250-297 | the table computed is the specified table |
| Analyze.HandleAnalyze | server/routes/ai.ts:185-360 | the route's answer is the specified answer as written: the filter is chosen on lower-cased cells, but the count compares cells exactly (ai.ts:121) |
| Analyze.Validation | server/routes/ai.ts:187-197 | "no data" exactly when rows or columns are empty; then "question required" exactly when the question is not a non-empty string; success otherwise |
| Analyze.PlanFacts | server/routes/ai.ts:199-248 | the limit is at most 1000; the value and date columns are numeric and date columns of the table; a filter is on a non-numeric column, uses the question's token and matches some row |
| Analyze.PrefixSorted | server/routes/ai.ts:290 | a prefix of a sorted list with distinct labels is sorted with distinct labels |
| Analyze.TopFacts | server/routes/ai.ts:290 | the top-n table has at most n rows, is sorted largest first and repeats no label |
| Analyze.TrendTableFacts | server/routes/ai.ts:250-268 | the trend table is the whole time series, strictly increasing by period, each count at least 1 |
| Analyze.GroupTableFacts | server/routes/ai.ts:269-297 | the grouped table has at most n rows, sorted largest first, no label twice; a count table is a prefix of the group counts, each at least 1 |
| Analyze.OperationOf | server/routes/ai.ts:331-337 | the operation is a time series exactly for a trend, which is never grouped, and always a count with the limit |
| Analyze.ChartOf | server/routes/ai.ts:344-349 | the chart is a line exactly for a trend, with the label column on x and the value column on y |
| Analyze.ResponseFacts | server/routes/ai.ts:329-360 | line chart and `time_series` exactly for a trend; no group-by for a trend; metric always `count`; the table's and chart's keys agree |
| Analyze.JoinEndsWithLast | server/routes/ai.ts:302-305 | a joined list ends with its last part |
| Analyze.NarrativeFacts | server/routes/ai.ts:299-327 | the "no data" summary exactly for an empty table; at most two insights; the Pareto insight exactly from five rows; a lead insight exactly when the first row is strictly larger, and it comes first; the summary names at most the first three rows and depends on no other row |
| Analyze.LeaderUnlessTie | server/routes/ai.ts:312-318 | in a grouped table the lead insight is missing only on a tie |
| Analyze.RespondIgnoresFilter | server/routes/ai.ts:329-360 | the response does not depend on the filter beyond the table |
| Analyze.PlansDifferInFilter | server/routes/ai.ts:229-248 | the plans computed with either case rule agree on everything but the filter |
| Analyze.TableIgnoresFilter | server/routes/ai.ts:250-290 | outside the count mode, plans that differ only in their filter give the same table |
| Analyze.FilterOnlyInCount | server/routes/ai.ts:285 | outside the count mode the filter's case rule changes nothing |
| Analyze.Answer | server/routes/ai.ts:185-360 | a valid request is answered by the response for the plan and its table |
| Analyze.NoRowPasses | server/routes/ai.ts:121 | a filter no row passes counts nothing |
| Analyze.CaseSensitiveCountEmpty | server/routes/ai.ts:121 | an exact-case filter that no cell equals gives an empty table and the "no data" summary |
| Analyze.NotebookRoles | server/routes/ai.ts:202-204 | a one-row table with produto "Notebook" has a single categorical column |
| Analyze.NotebookFilter | server/routes/ai.ts:240-243 | the token "notebook" selects the column produto |
| Analyze.NotebookPlan | server/routes/ai.ts:199-248 | a question whose filter token is "notebook" counts that table with the filter produto = "notebook" |
| Analyze.LowerNotebook | server/routes/ai.ts:241 | "Notebook" lower-cases to "notebook" |
| Analyze.NotebookTableAsWritten | server/routes/ai.ts:121 | the filter as written counts nothing in that table |
| Analyze.NotebookCountedAsWritten | server/routes/ai.ts:231-327 | as written, that question gets an empty table and the "no data" summary |
| Analyze.CountTableKeeps | server/routes/ai.ts:285-290 | a case-insensitive filter that matches a row gives a non-empty count table |
| Analyze.CaseInsensitiveCountKeeps | server/routes/ai.ts:285-309 | such a table also gets a summary of its results |
| Analyze.FilterKeepsMatchingRows | server/routes/ai.ts:229-309 | with the corrected filter, a chosen filter always leaves a non-empty table and a real summary |
| Analyze.NotebookCountedCorrected | server/routes/ai.ts:229-290 | corrected, the notebook question counts the Notebook row |

## Left out

- Unicode: lower-casing covers ASCII and Latin-1 capitals. The removal of diacritics covers the accented Latin-1 letters, the spacing accents of ASCII and Latin-1, and the `\p{Diacritic}` code points U+02B0 to U+034E, U+0350 to U+0357 and U+035D to U+0362. Every other character passes through unchanged, where JavaScript would lower-case or decompose it (for example U+0100 and U+0130 both become "a" and "i" there).
- `Number()` on strings and `new Date()` are host functions inside `Host`. Their parsing rules are not modelled.
  - The printing of non-integral numbers is also a host function.
  - Numbers inside uploaded cells are integers (`Num(int)`). Sums and means are exact reals, not IEEE doubles.
  - `Js.ToStr` prints every `Num(int)` in plain decimals, including integers of 10^21 or more, which JavaScript prints in exponent form.
- `localeCompare` on period labels is taken as plain code-unit order. This is the same for the `YYYY` and `YYYY-MM` labels the engine produces.
- The engine's sort is represented by a stable insertion sort. Only its result is modelled: sorted, a permutation and stable. The engine's comparisons are not.
- `Object.keys` order is the insertion order of the keys. The engine's placement of integer-like keys first is not modelled.
- `JSON.parse` and `JSON.stringify` are parameters. A parsed document is a `Json` tree, and a non-object record becomes an empty row.
- The upload middleware's internals and the 50 MB limit are not modelled. The upload filter is modelled as a predicate on the name.
- Byte-to-text decoding of the upload is not modelled: the content arrives as text.
- Export.Utf8Length: a Dafny character is a Unicode scalar value and is counted as one to four UTF-8 bytes. A lone surrogate in a JavaScript string, which `Buffer.byteLength` counts as three bytes, cannot be represented.
- UpdateRow.HandleUpdateRow: refuses a non-integral numeric `rowIndex` with the invalid-parameters error, where server/routes/update-row.ts:8-27 accepts it and reports success without changing a row (see Findings). NaN, which passes both guards of the source, cannot be represented in `Index`.
- Analyze.HandleAnalyze follows the count filter as written (exact comparison). The corrected, case-insensitive filter is proved about separately (see Findings).
- `parseSQLite` always throws. The model returns the same error for `.sqlite` and `.db` files.
- HTTP status codes, headers other than the content type and length, and the catch-all 500 responses are not modelled. The routes return a `Result` whose error names the message.
- The `OPENAI_API_KEY` environment variable becomes the `keySet` parameter. It only chooses the `provider` string.
- The `"day"` unit of `timeSeriesCount` is not modelled, because the handler never asks for it.
- `Export.CsvLines` covers only names and cells without newlines. A quoted newline is correct CSV, but it does not split back into one line per record.
- The export's header is written without escaping, as in the source.
- `server/routes/share-design.ts`, `server/routes/fetch-data.ts`, `server/index.ts` and the client components are not part of this model.

## Findings

| source | as written | input that shows it | evidently intended | confidence | as-written member | corrected member |
|---|---|---|---|---|---|---|
| server/routes/update-row.ts:8-27 | any number passes the index check, including fractions; the assignment then adds a non-element property and reports success | rowIndex 0.5 on a two-row table | only an integral index within the table updates a row; others are refused as invalid parameters | not executed | UpdateRow.FractionalIndexUpdatesNothing | UpdateRow.UpdateChecks |
| server/routes/ai.ts:241 and server/routes/ai.ts:121 | the filter column is chosen by comparing lower-cased cells with the token, but rows are counted by comparing the cells exactly | a row with produto "Notebook" and the question "quantas vendas de notebook" | the count keeps the rows that matched when the filter was chosen | not executed | Analyze.NotebookCountedAsWritten | Analyze.FilterKeepsMatchingRows |
