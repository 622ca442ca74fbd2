/** The three grouping engines of the analysis: groupByCount,
    groupByAggregate and timeSeriesCount, and topN. Each walks the rows
    once, keeping a JavaScript Map from group key to a running total (a Map
    keeps its keys in first-insertion order), turns the Map into result rows
    and sorts them. */
module Grouping {
  import opened Js
  import opened Sorting

  /** What a row contributes to its group: the group key and an amount. */
  datatype Item = Item(key: string, amount: real)

  /** What a group's value is: its number of rows, the sum of its amounts,
      or their average. */
  datatype Measure = CountRows | SumValues | AvgValues

  /** The optional equality filter of groupByCount. As written the cell's
      text must equal `equals` exactly; with `ignoreCase` its lower-case form
      must, which is how the analysis handler chooses the filter. */
  datatype RowFilter = RowFilter(column: string, equals: string, ignoreCase: bool)

  /** The group keys, in row order. */
  function KeysOf(items: seq<Item>): (ks: seq<string>)
    ensures |ks| == |items|
    ensures forall i :: 0 <= i < |items| ==> ks[i] == items[i].key
  {
    if items == [] then [] else KeysOf(items[..|items| - 1]) + [items[|items| - 1].key]
  }

  /** The distinct keys of ks, in order of first occurrence. */
  function Distinct(ks: seq<string>): (d: seq<string>)
    ensures forall k :: k in d <==> k in ks
    ensures forall i, j :: 0 <= i < j < |d| ==> d[i] != d[j]
  {
    if ks == [] then []
    else
      var init := Distinct(ks[..|ks| - 1]);
      var k := ks[|ks| - 1];
      assert ks == ks[..|ks| - 1] + [k];
      if k in init then init else init + [k]
  }

  /** The groups, in the order the Map first sees them. */
  function Groups(items: seq<Item>): seq<string>
  {
    Distinct(KeysOf(items))
  }

  /** What one item adds to its group's running total. */
  function Weight(m: Measure, it: Item): real
  {
    if m == CountRows then 1.0 else it.amount
  }

  /** The running total of group k after the items: its row count for
      CountRows, the sum of its amounts otherwise. */
  function Accumulated(m: Measure, items: seq<Item>, k: string): real
  {
    if items == [] then 0.0
    else
      var it := items[|items| - 1];
      Accumulated(m, items[..|items| - 1], k) + (if it.key == k then Weight(m, it) else 0.0)
  }

  /** The value of group k: its count, its sum, or `sum / (count || 1)`. */
  function Value(m: Measure, items: seq<Item>, k: string): real
  {
    match m
    case CountRows => Accumulated(CountRows, items, k)
    case SumValues => Accumulated(SumValues, items, k)
    case AvgValues =>
      var count := Accumulated(CountRows, items, k);
      Accumulated(SumValues, items, k) / (if count == 0.0 then 1.0 else count)
  }

  /** One result row per listed group, in the list's order. */
  function Summarise(d: seq<string>, items: seq<Item>, m: Measure): (r: seq<Entry>)
    ensures |r| == |d|
    ensures forall i :: 0 <= i < |d| ==> r[i] == Entry(d[i], Value(m, items, d[i]))
  {
    if d == [] then [] else Summarise(d[..|d| - 1], items, m) + [Entry(d[|d| - 1], Value(m, items, d[|d| - 1]))]
  }

  /** The rows of a grouping: one per group, in first-occurrence order,
      then sorted. */
  function Grouped(items: seq<Item>, m: Measure, o: Order): seq<Entry>
  {
    SortBy(o, Summarise(Groups(items), items, m))
  }

  /** The total weight of all the items. */
  function TotalWeight(m: Measure, items: seq<Item>): real
  {
    if items == [] then 0.0 else TotalWeight(m, items[..|items| - 1]) + Weight(m, items[|items| - 1])
  }

  /** `String(row[key] ?? "")` */
  function GroupKey(row: Row, key: string): string
  {
    var v := Get(row, key);
    if v == Null || v == Undefined then "" else ToStr(v)
  }

  /** The row passes the optional filter: `String(row[column]) === equals`,
      on the lower-case text when the filter ignores case. */
  predicate Passes(row: Row, filter: Option<RowFilter>)
  {
    filter.None? ||
      var s := ToStr(Get(row, filter.value.column));
      (if filter.value.ignoreCase then LowerText(s) else s) == filter.value.equals
  }

  /** The items of groupByCount: one per row that passes the filter. */
  function CountItems(data: seq<Row>, key: string, filter: Option<RowFilter>): seq<Item>
  {
    if data == [] then []
    else
      var row := data[|data| - 1];
      CountItems(data[..|data| - 1], key, filter)
      + (if Passes(row, filter) then [Item(GroupKey(row, key), 1.0)] else [])
  }

  /** `Number(v) || 0`: NaN and 0 both give 0. */
  function AmountOf(v: Value, h: Host): real
  {
    match ToNumber(v, h)
    case Some(x) => x
    case None => 0.0
  }

  /** The items of groupByAggregate: one per row. */
  function AggregateItems(data: seq<Row>, key: string, valueField: string, h: Host): seq<Item>
  {
    if data == [] then []
    else
      var row := data[|data| - 1];
      AggregateItems(data[..|data| - 1], key, valueField, h) + [Item(GroupKey(row, key), AmountOf(Get(row, valueField), h))]
  }

  /** The two bucket sizes the analysis asks timeSeriesCount for. */
  datatype Unit = Year | Month

  /** `String(m).padStart(2, "0")` for a month. */
  function Pad2(m: Month): (r: string)
    ensures r == [DigitChar(m / 10), DigitChar(m % 10)]
  {
    var s := NatText(m);
    if |s| < 2 then "0" + s else s
  }

  /** The bucket of a date: `${y}` or `${y}-${mm}`. */
  function Bucket(s: Stamp, u: Unit): string
  {
    match u
    case Year => IntText(s.year)
    case Month => IntText(s.year) + "-" + Pad2(s.month)
  }

  /** The items of timeSeriesCount: one per row whose cell is a valid date. */
  function DateItems(data: seq<Row>, dateCol: string, u: Unit, h: Host): seq<Item>
  {
    if data == [] then []
    else
      var d := h.date(Get(data[|data| - 1], dateCol));
      DateItems(data[..|data| - 1], dateCol, u, h)
      + (if d.Some? then [Item(Bucket(d.value, u), 1.0)] else [])
  }

  /** The items of one more row. */
  lemma CountItemsStep(data: seq<Row>, i: nat, key: string, filter: Option<RowFilter>)
    requires i < |data|
    ensures CountItems(data[..i + 1], key, filter) == CountItems(data[..i], key, filter)
      + (if Passes(data[i], filter) then [Item(GroupKey(data[i], key), 1.0)] else [])
  {
    assert data[..i + 1][..i] == data[..i];
  }

  lemma AggregateItemsStep(data: seq<Row>, i: nat, key: string, valueField: string, h: Host)
    requires i < |data|
    ensures AggregateItems(data[..i + 1], key, valueField, h) == AggregateItems(data[..i], key, valueField, h)
      + [Item(GroupKey(data[i], key), AmountOf(Get(data[i], valueField), h))]
  {
    assert data[..i + 1][..i] == data[..i];
  }

  lemma DateItemsStep(data: seq<Row>, i: nat, dateCol: string, u: Unit, h: Host)
    requires i < |data|
    ensures DateItems(data[..i + 1], dateCol, u, h) == DateItems(data[..i], dateCol, u, h)
      + (if h.date(Get(data[i], dateCol)).Some? then [Item(Bucket(h.date(Get(data[i], dateCol)).value, u), 1.0)] else [])
  {
    assert data[..i + 1][..i] == data[..i];
  }

  /** The specification of groupByCount. */
  function CountSpec(data: seq<Row>, key: string, filter: Option<RowFilter>): seq<Entry>
  {
    Grouped(CountItems(data, key, filter), CountRows, ByValueDesc)
  }

  /** The specification of groupByAggregate. */
  function AggregateSpec(data: seq<Row>, key: string, valueField: string, avg: bool, h: Host): seq<Entry>
  {
    Grouped(AggregateItems(data, key, valueField, h), if avg then AvgValues else SumValues, ByValueDesc)
  }

  /** The specification of timeSeriesCount. */
  function TimeSeriesSpec(data: seq<Row>, dateCol: string, u: Unit, h: Host): seq<Entry>
  {
    Grouped(DateItems(data, dateCol, u, h), CountRows, ByLabelAsc)
  }

  // ---------------------------------------------------------------------
  // The engines

  /** The running Map after some items: its keys in insertion order, and
      the total of each. */
  ghost predicate Tallied(order: seq<string>, totals: map<string, real>, items: seq<Item>, m: Measure)
  {
    order == Groups(items)
    && (forall k :: k in totals <==> k in order)
    && (forall k :: k in totals ==> totals[k] == Accumulated(m, items, k))
  }

  /** `map.set(k, (map.get(k) || 0) + w)`: adding one item keeps the Map in
      step with the items. */
  lemma TallyStep(order: seq<string>, totals: map<string, real>, items: seq<Item>, m: Measure, it: Item,
                   order': seq<string>, totals': map<string, real>)
    requires Tallied(order, totals, items, m)
    requires order' == if it.key in totals then order else order + [it.key]
    requires totals' == totals[it.key := (if it.key in totals then totals[it.key] else 0.0) + Weight(m, it)]
    ensures Tallied(order', totals', items + [it], m)
  {
    TallyKeys(order, totals, items, it, order', totals');
    TallyTotals(totals, items, m, it, totals');
  }

  /** The Map's keys stay the groups, in first-seen order. */
  lemma TallyKeys(order: seq<string>, totals: map<string, real>, items: seq<Item>, it: Item,
                  order': seq<string>, totals': map<string, real>)
    requires order == Groups(items) && forall k :: k in totals <==> k in order
    requires order' == if it.key in totals then order else order + [it.key]
    requires forall k :: k in totals' <==> k in totals || k == it.key
    ensures order' == Groups(items + [it]) && forall k :: k in totals' <==> k in order'
  {
    GroupsStep(items, it);
  }

  /** Each total stays its group's running total. */
  lemma TallyTotals(totals: map<string, real>, items: seq<Item>, m: Measure, it: Item, totals': map<string, real>)
    requires forall k :: k in totals <==> k in KeysOf(items)
    requires forall k :: k in totals ==> totals[k] == Accumulated(m, items, k)
    requires totals' == totals[it.key := (if it.key in totals then totals[it.key] else 0.0) + Weight(m, it)]
    ensures forall k :: k in totals' ==> totals'[k] == Accumulated(m, items + [it], k)
  {
    AccumulatedStep(m, items, it);
    if it.key !in totals {
      AccumulatedAbsent(m, items, it.key);
    }
  }

  /** A new key joins the end of the groups; a known key changes nothing. */
  lemma GroupsStep(items: seq<Item>, it: Item)
    ensures Groups(items + [it]) == if it.key in Groups(items) then Groups(items) else Groups(items) + [it.key]
  {
    var items' := items + [it];
    assert items'[..|items'| - 1] == items;
    assert KeysOf(items')[..|items'| - 1] == KeysOf(items);
  }

  /** One more item adds its weight to its own group only. */
  lemma AccumulatedStep(m: Measure, items: seq<Item>, it: Item)
    ensures forall k :: Accumulated(m, items + [it], k) == Accumulated(m, items, k) + (if it.key == k then Weight(m, it) else 0.0)
  {
    var items' := items + [it];
    assert items'[..|items'| - 1] == items;
  }

  /** A key no item has has a zero total. */
  lemma {:induction false} AccumulatedAbsent(m: Measure, items: seq<Item>, k: string)
    requires k !in KeysOf(items)
    ensures Accumulated(m, items, k) == 0.0
  {
    if items != [] {
      var init := items[..|items| - 1];
      assert forall i :: 0 <= i < |init| ==> KeysOf(init)[i] == KeysOf(items)[i];
      assert k !in KeysOf(init);
      AccumulatedAbsent(m, init, k);
    }
  }

  /** The Map's entries as result rows, in its key order. */
  method Rows(order: seq<string>, totals: map<string, real>) returns (a: array<Entry>)
    requires forall k :: k in order ==> k in totals
    ensures fresh(a)
    ensures a.Length == |order|
    ensures forall i :: 0 <= i < |order| ==> a[i] == Entry(order[i], totals[order[i]])
  {
    a := new Entry[|order|](i requires 0 <= i < |order| => Entry(order[i], totals[order[i]]));
  }

  /** The rows made from a Map in step with the items are the summary of
      the items' groups. */
  lemma TallyRows(r: seq<Entry>, order: seq<string>, totals: map<string, real>, items: seq<Item>, m: Measure)
    requires m != AvgValues && Tallied(order, totals, items, m)
    requires |r| == |order| && forall i :: 0 <= i < |order| ==> r[i] == Entry(order[i], totals[order[i]])
    ensures r == Summarise(Groups(items), items, m)
  {
  }

  /** `map.set(k, (map.get(k) || 0) + 1)`, with the Map's key order. */
  method Bump(order: seq<string>, counts: map<string, real>, ghost items: seq<Item>, it: Item)
    returns (order': seq<string>, counts': map<string, real>)
    requires Tallied(order, counts, items, CountRows)
    ensures Tallied(order', counts', items + [it], CountRows)
  {
    var prev := if it.key in counts then counts[it.key] else 0.0;
    order' := if it.key in counts then order else order + [it.key];
    counts' := counts[it.key := prev + 1.0];
    TallyStep(order, counts, items, CountRows, it, order', counts');
  }

  /** groupByCount(data, key, filter) */
  method GroupByCount(data: seq<Row>, key: string, filter: Option<RowFilter>) returns (rows: seq<Entry>)
    ensures rows == CountSpec(data, key, filter)
  {
    var order: seq<string> := [];
    var counts: map<string, real> := map[];
    ghost var items: seq<Item> := [];
    var i := 0;
    while i < |data|
      invariant 0 <= i <= |data|
      invariant items == CountItems(data[..i], key, filter)
      invariant Tallied(order, counts, items, CountRows)
    {
      var row := data[i];
      CountItemsStep(data, i, key, filter);
      if Passes(row, filter) {
        var k := GroupKey(row, key);
        order, counts := Bump(order, counts, items, Item(k, 1.0));
        items := items + [Item(k, 1.0)];
      }
      i := i + 1;
    }
    assert data[..i] == data;
    var a := Rows(order, counts);
    TallyRows(a[..], order, counts, CountItems(data, key, filter), CountRows);
    SortInPlace(a, ByValueDesc);
    rows := a[..];
  }

  /** The running `{ sum, count }` of a group. */
  datatype Acc = Acc(sum: real, count: nat)

  /** The sums and the counts of a Map of running totals. */
  ghost function Sums(accs: map<string, Acc>): map<string, real>
  {
    map k | k in accs :: accs[k].sum
  }

  ghost function Counts(accs: map<string, Acc>): map<string, real>
  {
    map k | k in accs :: accs[k].count as real
  }

  /** `avg ? sum / (count || 1) : sum` for every group. */
  function Finish(accs: map<string, Acc>, avg: bool): map<string, real>
  {
    map k | k in accs :: if avg then accs[k].sum / (if accs[k].count == 0 then 1 else accs[k].count) as real else accs[k].sum
  }

  /** `cur = map.get(k) || { sum: 0, count: 0 }; cur.sum += v; cur.count += 1;
      map.set(k, cur)`, with the Map's key order. */
  method Accumulate(order: seq<string>, accs: map<string, Acc>, ghost items: seq<Item>, it: Item)
    returns (order': seq<string>, accs': map<string, Acc>)
    requires Tallied(order, Sums(accs), items, SumValues)
    requires Tallied(order, Counts(accs), items, CountRows)
    ensures Tallied(order', Sums(accs'), items + [it], SumValues)
    ensures Tallied(order', Counts(accs'), items + [it], CountRows)
  {
    var cur := if it.key in accs then accs[it.key] else Acc(0.0, 0);
    order' := if it.key in accs then order else order + [it.key];
    accs' := accs[it.key := Acc(cur.sum + it.amount, cur.count + 1)];
    AccumulateSums(order, accs, items, it, order', accs');
    AccumulateCounts(order, accs, items, it, order', accs');
  }

  /** The record update keeps the sums in step. */
  lemma AccumulateSums(order: seq<string>, accs: map<string, Acc>, items: seq<Item>, it: Item,
                       order': seq<string>, accs': map<string, Acc>)
    requires Tallied(order, Sums(accs), items, SumValues)
    requires order' == if it.key in accs then order else order + [it.key]
    requires accs' == accs[it.key := var cur := if it.key in accs then accs[it.key] else Acc(0.0, 0);
                                     Acc(cur.sum + it.amount, cur.count + 1)]
    ensures Tallied(order', Sums(accs'), items + [it], SumValues)
  {
    ProjectUpdate(accs, it, accs');
    TallyStep(order, Sums(accs), items, SumValues, it, order', Sums(accs'));
  }

  /** The record update keeps the counts in step. */
  lemma AccumulateCounts(order: seq<string>, accs: map<string, Acc>, items: seq<Item>, it: Item,
                         order': seq<string>, accs': map<string, Acc>)
    requires Tallied(order, Counts(accs), items, CountRows)
    requires order' == if it.key in accs then order else order + [it.key]
    requires accs' == accs[it.key := var cur := if it.key in accs then accs[it.key] else Acc(0.0, 0);
                                     Acc(cur.sum + it.amount, cur.count + 1)]
    ensures Tallied(order', Counts(accs'), items + [it], CountRows)
  {
    ProjectUpdate(accs, it, accs');
    TallyStep(order, Counts(accs), items, CountRows, it, order', Counts(accs'));
  }

  /** Updating one group's record adds the item's amount to its sum and one
      to its count, as a Map of sums and a Map of counts would. */
  lemma ProjectUpdate(accs: map<string, Acc>, it: Item, accs': map<string, Acc>)
    requires accs' == accs[it.key := var cur := if it.key in accs then accs[it.key] else Acc(0.0, 0);
                                     Acc(cur.sum + it.amount, cur.count + 1)]
    ensures it.key in Sums(accs) <==> it.key in accs
    ensures it.key in Counts(accs) <==> it.key in accs
    ensures Sums(accs') == Sums(accs)[it.key := (if it.key in Sums(accs) then Sums(accs)[it.key] else 0.0) + Weight(SumValues, it)]
    ensures Counts(accs') == Counts(accs)[it.key := (if it.key in Counts(accs) then Counts(accs)[it.key] else 0.0) + Weight(CountRows, it)]
  {
  }

  /** The rows made from the running sums and counts are the summary of the
      items' groups by sum or by average. */
  lemma FinishRows(r: seq<Entry>, order: seq<string>, accs: map<string, Acc>, items: seq<Item>, avg: bool)
    requires Tallied(order, Sums(accs), items, SumValues)
    requires Tallied(order, Counts(accs), items, CountRows)
    requires |r| == |order| && forall i :: 0 <= i < |order| ==> r[i] == Entry(order[i], Finish(accs, avg)[order[i]])
    ensures r == Summarise(Groups(items), items, if avg then AvgValues else SumValues)
  {
    var s := Summarise(Groups(items), items, if avg then AvgValues else SumValues);
    forall i | 0 <= i < |r|
      ensures r[i] == s[i]
    {
      var k := order[i];
      assert k in Sums(accs) && k in Counts(accs);
    }
  }

  /** groupByAggregate(data, key, valueField, op), with `avg` standing for
      op === "avg". */
  method GroupByAggregate(data: seq<Row>, key: string, valueField: string, avg: bool, h: Host) returns (rows: seq<Entry>)
    ensures rows == AggregateSpec(data, key, valueField, avg, h)
  {
    var order: seq<string> := [];
    var accs: map<string, Acc> := map[];
    ghost var items: seq<Item> := [];
    var i := 0;
    while i < |data|
      invariant 0 <= i <= |data|
      invariant items == AggregateItems(data[..i], key, valueField, h)
      invariant Tallied(order, Sums(accs), items, SumValues)
      invariant Tallied(order, Counts(accs), items, CountRows)
    {
      var row := data[i];
      AggregateItemsStep(data, i, key, valueField, h);
      var k := GroupKey(row, key);
      var v := AmountOf(Get(row, valueField), h);
      order, accs := Accumulate(order, accs, items, Item(k, v));
      items := items + [Item(k, v)];
      i := i + 1;
    }
    assert data[..i] == data;
    var a := Rows(order, Finish(accs, avg));
    FinishRows(a[..], order, accs, AggregateItems(data, key, valueField, h), avg);
    SortInPlace(a, ByValueDesc);
    rows := a[..];
  }

  /** timeSeriesCount(data, dateCol, unit) */
  method TimeSeriesCount(data: seq<Row>, dateCol: string, u: Unit, h: Host) returns (rows: seq<Entry>)
    ensures rows == TimeSeriesSpec(data, dateCol, u, h)
  {
    var order: seq<string> := [];
    var counts: map<string, real> := map[];
    ghost var items: seq<Item> := [];
    var i := 0;
    while i < |data|
      invariant 0 <= i <= |data|
      invariant items == DateItems(data[..i], dateCol, u, h)
      invariant Tallied(order, counts, items, CountRows)
    {
      var d := h.date(Get(data[i], dateCol));
      DateItemsStep(data, i, dateCol, u, h);
      if d.Some? {
        var k := Bucket(d.value, u);
        order, counts := Bump(order, counts, items, Item(k, 1.0));
        items := items + [Item(k, 1.0)];
      }
      i := i + 1;
    }
    assert data[..i] == data;
    var a := Rows(order, counts);
    TallyRows(a[..], order, counts, DateItems(data, dateCol, u, h), CountRows);
    SortInPlace(a, ByLabelAsc);
    rows := a[..];
  }

  /** topN(arr, n) */
  function TopN(arr: seq<Entry>, n: int): (r: seq<Entry>)
    ensures |r| == Min(|arr|, Max(0, n))
    ensures r == arr[..|r|]
  {
    arr[..Min(|arr|, Max(0, n))]
  }

  // ---------------------------------------------------------------------
  // Properties of the groupings

  /** An element at two positions occurs at least twice. */
  lemma TwoPositions(s: seq<Entry>, i: int, j: int)
    requires 0 <= i < j < |s| && s[i] == s[j]
    ensures multiset(s)[s[i]] >= 2
  {
    assert s == s[..i] + [s[i]] + s[i + 1..j] + [s[j]] + s[j + 1..];
  }

  /** A sequence without repeats has every element once. */
  lemma {:induction false} NoRepeats(s: seq<Entry>)
    requires forall i, j :: 0 <= i < j < |s| ==> s[i] != s[j]
    ensures forall x :: multiset(s)[x] <= 1
  {
    if s != [] {
      var init := s[..|s| - 1];
      NoRepeats(init);
      assert s == init + [s[|s| - 1]];
      assert s[|s| - 1] !in init;
    }
  }

  /** The rows of a grouping are exactly one row per group, the group's key
      with its value, and no key appears twice. */
  lemma GroupedRows(items: seq<Item>, m: Measure, o: Order)
    ensures |Grouped(items, m, o)| == |Groups(items)|
    ensures forall e :: e in Grouped(items, m, o) <==> e.name in KeysOf(items) && e.value == Value(m, items, e.name)
    ensures forall i, j :: 0 <= i < j < |Grouped(items, m, o)| ==>
      Grouped(items, m, o)[i].name != Grouped(items, m, o)[j].name
  {
    var d := Groups(items);
    var s := Summarise(d, items, m);
    var r := Grouped(items, m, o);
    SortPermutes(o, s);
    forall e
      ensures e in r <==> e.name in KeysOf(items) && e.value == Value(m, items, e.name)
    {
      assert e in r <==> e in multiset(r);
      assert e in s <==> e in multiset(s);
      if e.name in KeysOf(items) && e.value == Value(m, items, e.name) {
        var i :| 0 <= i < |d| && d[i] == e.name;
        assert s[i] == e;
      }
    }
    NoRepeats(s);
    forall i, j | 0 <= i < j < |r|
      ensures r[i].name != r[j].name
    {
      if r[i].name == r[j].name {
        assert r[i] in r && r[j] in r;
        TwoPositions(r, i, j);
      }
    }
  }

  /** A group that has an item has a count of at least one. */
  lemma {:induction false} CountAtLeastOne(items: seq<Item>, k: string)
    requires k in KeysOf(items)
    ensures Accumulated(CountRows, items, k) >= 1.0
  {
    var init := items[..|items| - 1];
    if items[|items| - 1].key != k {
      assert KeysOf(items) == KeysOf(init) + [items[|items| - 1].key];
      CountAtLeastOne(init, k);
    } else {
      CountNonNegative(init, k);
    }
  }

  lemma {:induction false} CountNonNegative(items: seq<Item>, k: string)
    ensures Accumulated(CountRows, items, k) >= 0.0
  {
    if items != [] {
      CountNonNegative(items[..|items| - 1], k);
    }
  }

  /** One more item adds its weight to the summary of groups it belongs to. */
  lemma {:induction false} SummaryStep(d: seq<string>, items: seq<Item>, it: Item, m: Measure)
    requires m != AvgValues
    requires forall i, j :: 0 <= i < j < |d| ==> d[i] != d[j]
    ensures Total(Summarise(d, items + [it], m)) == Total(Summarise(d, items, m)) + (if it.key in d then Weight(m, it) else 0.0)
  {
    if d != [] {
      var init := d[..|d| - 1];
      var k := d[|d| - 1];
      assert d == init + [k];
      assert k !in init by {
        forall i | 0 <= i < |init| ensures init[i] != k {
          assert init[i] == d[i];
        }
      }
      SummaryStep(init, items, it, m);
      SummaryStepLast(d, items, it, m);
    }
  }

  /** The step for the last group, given the step for the others. */
  lemma SummaryStepLast(d: seq<string>, items: seq<Item>, it: Item, m: Measure)
    requires m != AvgValues && d != [] && d[|d| - 1] !in d[..|d| - 1]
    requires var init := d[..|d| - 1];
      Total(Summarise(init, items + [it], m)) == Total(Summarise(init, items, m)) + (if it.key in init then Weight(m, it) else 0.0)
    ensures Total(Summarise(d, items + [it], m)) == Total(Summarise(d, items, m)) + (if it.key in d then Weight(m, it) else 0.0)
  {
    var init, k := d[..|d| - 1], d[|d| - 1];
    assert d == init + [k];
    SummaryLast(d, items, m);
    SummaryLast(d, items + [it], m);
    ValueStep(m, items, it, k);
  }

  /** The summary's total is that of all groups but the last, plus the last. */
  lemma SummaryLast(d: seq<string>, items: seq<Item>, m: Measure)
    requires d != []
    ensures Total(Summarise(d, items, m)) == Total(Summarise(d[..|d| - 1], items, m)) + Value(m, items, d[|d| - 1])
  {
    var s := Summarise(d, items, m);
    assert s[..|s| - 1] == Summarise(d[..|d| - 1], items, m);
  }

  /** One more item adds its weight to its own group's sum or count. */
  lemma ValueStep(m: Measure, items: seq<Item>, it: Item, k: string)
    requires m != AvgValues
    ensures Value(m, items + [it], k) == Value(m, items, k) + (if it.key == k then Weight(m, it) else 0.0)
  {
    AccumulatedStep(m, items, it);
  }

  /** The values of a sum or count grouping add up to the total weight of
      the items: no item is lost or counted twice. */
  lemma {:induction false} SummaryTotal(items: seq<Item>, m: Measure)
    requires m != AvgValues
    ensures Total(Summarise(Groups(items), items, m)) == TotalWeight(m, items)
  {
    if items != [] {
      var init := items[..|items| - 1];
      var it := items[|items| - 1];
      assert items == init + [it];
      SummaryTotal(init, m);
      SummaryTotalStep(init, it, m);
    }
  }

  lemma SummaryTotalStep(init: seq<Item>, it: Item, m: Measure)
    requires m != AvgValues
    requires Total(Summarise(Groups(init), init, m)) == TotalWeight(m, init)
    ensures Total(Summarise(Groups(init + [it]), init + [it], m)) == TotalWeight(m, init + [it])
  {
    var items := init + [it];
    var g := Groups(init);
    assert items[..|items| - 1] == init;
    assert TotalWeight(m, items) == TotalWeight(m, init) + Weight(m, it);
    GroupsStep(init, it);
    SummaryStep(g, init, it, m);
    if it.key !in g {
      NewGroupTotal(init, it, m);
    }
  }

  /** A new group adds a row holding just the new item's weight. */
  lemma NewGroupTotal(init: seq<Item>, it: Item, m: Measure)
    requires m != AvgValues && it.key !in Groups(init)
    ensures Total(Summarise(Groups(init) + [it.key], init + [it], m))
      == Total(Summarise(Groups(init), init + [it], m)) + Weight(m, it)
  {
    var items := init + [it];
    var g := Groups(init);
    var g' := g + [it.key];
    assert g'[..|g|] == g;
    var s := Summarise(g, items, m);
    assert Summarise(g', items, m) == s + [Entry(it.key, Value(m, items, it.key))];
    TotalAppend(s, [Entry(it.key, Value(m, items, it.key))]);
    assert Total([Entry(it.key, Value(m, items, it.key))]) == Value(m, items, it.key);
    AccumulatedAbsent(m, init, it.key);
    AccumulatedStep(m, init, it);
  }

  lemma {:induction false} TotalWeightOfCounts(items: seq<Item>)
    ensures TotalWeight(CountRows, items) == |items| as real
  {
    if items != [] {
      TotalWeightOfCounts(items[..|items| - 1]);
    }
  }

  /** The first position of k in ks. */
  function FirstIndex(ks: seq<string>, k: string): (i: nat)
    requires k in ks
    ensures i < |ks| && ks[i] == k && k !in ks[..i]
  {
    if ks[0] == k then 0 else 1 + FirstIndex(ks[1..], k)
  }

  lemma {:induction false} FirstIndexPrefix(ks: seq<string>, n: nat, k: string)
    requires n <= |ks| && k in ks[..n]
    ensures FirstIndex(ks, k) == FirstIndex(ks[..n], k)
  {
    if ks[0] != k {
      assert ks[..n][1..] == ks[1..][..n - 1];
      FirstIndexPrefix(ks[1..], n - 1, k);
    }
  }

  /** The groups come in the order in which their keys first occur. */
  lemma {:induction false} GroupsInFirstOccurrenceOrder(ks: seq<string>, i: nat, j: nat)
    requires i < j < |Distinct(ks)|
    ensures FirstIndex(ks, Distinct(ks)[i]) < FirstIndex(ks, Distinct(ks)[j])
  {
    var n := |ks| - 1;
    var init := ks[..n];
    var d := Distinct(init);
    assert ks == init + [ks[n]];
    if ks[n] in d {
      GroupsInFirstOccurrenceOrder(init, i, j);
      FirstIndexPrefix(ks, n, d[i]);
      FirstIndexPrefix(ks, n, d[j]);
    } else if j < |d| {
      GroupsInFirstOccurrenceOrder(init, i, j);
      FirstIndexPrefix(ks, n, d[i]);
      FirstIndexPrefix(ks, n, d[j]);
    } else {
      FirstIndexPrefix(ks, n, d[i]);
      assert ks[n] !in init;
      assert FirstIndex(ks, ks[n]) == n;
    }
  }

  /** groupByCount: each key once, every count at least one, counts adding
      up to the rows that pass the filter (all rows without one), sorted
      by count, largest first. */
  lemma GroupByCountFacts(data: seq<Row>, key: string, filter: Option<RowFilter>)
    ensures var r := CountSpec(data, key, filter);
      Sorted(ByValueDesc, r)
      && (forall i, j :: 0 <= i < j < |r| ==> r[i].name != r[j].name)
      && (forall i :: 0 <= i < |r| ==> r[i].value >= 1.0)
      && Total(r) == |CountItems(data, key, filter)| as real
    ensures filter.None? ==> |CountItems(data, key, filter)| == |data|
  {
    var items := CountItems(data, key, filter);
    var r := CountSpec(data, key, filter);
    SortSorted(ByValueDesc, Summarise(Groups(items), items, CountRows));
    GroupedRows(items, CountRows, ByValueDesc);
    forall i | 0 <= i < |r|
      ensures r[i].value >= 1.0
    {
      assert r[i] in r;
      CountAtLeastOne(items, r[i].name);
    }
    SortTotal(ByValueDesc, Summarise(Groups(items), items, CountRows));
    SummaryTotal(items, CountRows);
    TotalWeightOfCounts(items);
    if filter.None? {
      CountItemsAll(data, key);
    }
  }

  /** A row that passes the filter gives the count at least one group. */
  lemma CountSpecKeeps(data: seq<Row>, key: string, filter: Option<RowFilter>, i: nat)
    requires i < |data| && Passes(data[i], filter)
    ensures CountSpec(data, key, filter) != []
  {
    CountItemsKeeps(data, key, filter, i);
    var items := CountItems(data, key, filter);
    GroupedRows(items, CountRows, ByValueDesc);
    assert items[0].key in KeysOf(items);
  }

  /** A row that passes the filter is counted, so the count is not empty. */
  lemma {:induction false} CountItemsKeeps(data: seq<Row>, key: string, filter: Option<RowFilter>, i: nat)
    requires i < |data| && Passes(data[i], filter)
    ensures CountItems(data, key, filter) != []
  {
    var init := data[..|data| - 1];
    var last := data[|data| - 1];
    var tail := if Passes(last, filter) then [Item(GroupKey(last, key), 1.0)] else [];
    assert CountItems(data, key, filter) == CountItems(init, key, filter) + tail;
    if i < |data| - 1 {
      assert init[i] == data[i];
      CountItemsKeeps(init, key, filter, i);
      assert |CountItems(init, key, filter)| > 0;
    } else {
      assert |tail| == 1;
    }
  }

  lemma {:induction false} CountItemsAll(data: seq<Row>, key: string)
    ensures |CountItems(data, key, None)| == |data|
  {
    if data != [] {
      CountItemsAll(data[..|data| - 1], key);
    }
  }

  /** Groups with equal counts keep the order in which their keys first
      occur among the rows. */
  lemma GroupByCountTies(data: seq<Row>, key: string, filter: Option<RowFilter>, e: Entry)
    ensures var items := CountItems(data, key, filter);
      Ties(ByValueDesc, CountSpec(data, key, filter), e) == Ties(ByValueDesc, Summarise(Groups(items), items, CountRows), e)
  {
    var items := CountItems(data, key, filter);
    SortStable(ByValueDesc, Summarise(Groups(items), items, CountRows), e);
  }

  /** groupByAggregate: one row per distinct key, sorted by value, largest
      first; in sum mode the values add up to the sum of all the amounts, in
      average mode each value is its group's sum over a count of at least one. */
  lemma GroupByAggregateFacts(data: seq<Row>, key: string, valueField: string, avg: bool, h: Host)
    ensures var r := AggregateSpec(data, key, valueField, avg, h);
      Sorted(ByValueDesc, r)
      && (forall i, j :: 0 <= i < j < |r| ==> r[i].name != r[j].name)
      && |r| == |Distinct(KeysOf(AggregateItems(data, key, valueField, h)))|
    ensures var r := AggregateSpec(data, key, valueField, avg, h);
      var items := AggregateItems(data, key, valueField, h);
      !avg ==> Total(r) == TotalWeight(SumValues, items)
    ensures var r := AggregateSpec(data, key, valueField, avg, h);
      var items := AggregateItems(data, key, valueField, h);
      avg ==> forall i :: 0 <= i < |r| ==>
        Accumulated(CountRows, items, r[i].name) >= 1.0
        && r[i].value == Accumulated(SumValues, items, r[i].name) / Accumulated(CountRows, items, r[i].name)
  {
    var items := AggregateItems(data, key, valueField, h);
    var m := if avg then AvgValues else SumValues;
    var r := AggregateSpec(data, key, valueField, avg, h);
    SortSorted(ByValueDesc, Summarise(Groups(items), items, m));
    GroupedRows(items, m, ByValueDesc);
    if avg {
      forall i | 0 <= i < |r|
        ensures Accumulated(CountRows, items, r[i].name) >= 1.0
      {
        assert r[i] in r;
        CountAtLeastOne(items, r[i].name);
      }
    } else {
      SortTotal(ByValueDesc, Summarise(Groups(items), items, SumValues));
      SummaryTotal(items, SumValues);
    }
  }

  /** timeSeriesCount: one row per bucket, in strictly ascending order of
      the bucket text, counts of at least one adding up to the rows whose
      cell is a valid date. */
  lemma TimeSeriesFacts(data: seq<Row>, dateCol: string, u: Unit, h: Host)
    ensures var r := TimeSeriesSpec(data, dateCol, u, h);
      (forall i, j :: 0 <= i < j < |r| ==> LexLess(r[i].name, r[j].name))
      && (forall i :: 0 <= i < |r| ==> r[i].value >= 1.0)
      && Total(r) == |DateItems(data, dateCol, u, h)| as real
  {
    var items := DateItems(data, dateCol, u, h);
    var r := TimeSeriesSpec(data, dateCol, u, h);
    SortSorted(ByLabelAsc, Summarise(Groups(items), items, CountRows));
    GroupedRows(items, CountRows, ByLabelAsc);
    forall i, j | 0 <= i < j < |r|
      ensures LexLess(r[i].name, r[j].name)
    {
      LexStrictTotal(r[i].name, r[j].name);
    }
    forall i | 0 <= i < |r|
      ensures r[i].value >= 1.0
    {
      assert r[i] in r;
      CountAtLeastOne(items, r[i].name);
    }
    SortTotal(ByLabelAsc, Summarise(Groups(items), items, CountRows));
    SummaryTotal(items, CountRows);
    TotalWeightOfCounts(items);
  }
}
