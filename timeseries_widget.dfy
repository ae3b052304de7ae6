/** The timeseries widget: the merge of its series into chart rows
    (`transformData`), the palette, the choice of chart and mark, and the
    order in which the render guards apply.

    A chart row is a JavaScript object from field names to numbers; its
    `time` field holds the row's timestamp unless a series named `time`
    overwrote it. The rows are kept in a `Map` keyed by timestamp, which is
    modelled as a Dafny `map` together with the sequence of its keys in
    insertion order. */
module TimeseriesWidget {
  import opened Common
  import opened DashboardTypes

  type Row = map<string, real>

  const TimeKey: string := "time"

  /** One point of one series, with the series' name. */
  datatype Sample = Sample(time: real, name: string, value: real)

  function SamplesOf(s: SeriesData): (r: seq<Sample>)
    ensures |r| == |s.data|
    ensures forall j :: 0 <= j < |r| ==> r[j] == Sample(s.data[j].timestamp, s.name, s.data[j].value)
  {
    seq(|s.data|, j requires 0 <= j < |s.data| => Sample(s.data[j].timestamp, s.name, s.data[j].value))
  }

  /** The points in the order the two nested `forEach` visit them. */
  function Samples(series: seq<SeriesData>): seq<Sample> {
    if series == [] then [] else Samples(series[..|series| - 1]) + SamplesOf(series[|series| - 1])
  }

  lemma SamplesSnoc(series: seq<SeriesData>, i: nat)
    requires i < |series|
    ensures Samples(series[..i + 1]) == Samples(series[..i]) + SamplesOf(series[i])
  {
    assert series[..i + 1][..i] == series[..i];
  }

  // ---------------------------------------------------------------------
  // The merge

  /** One visit: the row at the point's time is created as `{time}` when
      missing, and the series' field is set to the point's value. */
  function Visit(table: map<real, Row>, p: Sample): map<real, Row> {
    var row := if p.time in table then table[p.time] else map[TimeKey := p.time];
    table[p.time := row[p.name := p.value]]
  }

  /** The `Map` after visiting `ps` in order. */
  function Merge(ps: seq<Sample>): map<real, Row> {
    if ps == [] then map[] else Visit(Merge(ps[..|ps| - 1]), ps[|ps| - 1])
  }

  /** Its keys in insertion order: each time where it first occurs. */
  function Order(ps: seq<Sample>): seq<real> {
    if ps == [] then []
    else
      var prev := Order(ps[..|ps| - 1]);
      if ps[|ps| - 1].time in prev then prev else prev + [ps[|ps| - 1].time]
  }

  function Times(ps: seq<Sample>): set<real> {
    set i | 0 <= i < |ps| :: ps[i].time
  }

  lemma TimesSnoc(ps: seq<Sample>)
    requires ps != []
    ensures Times(ps) == Times(ps[..|ps| - 1]) + {ps[|ps| - 1].time}
  {
    var init := ps[..|ps| - 1];
    forall t | t in Times(ps) ensures t in Times(init) + {ps[|ps| - 1].time} {
      var i :| 0 <= i < |ps| && ps[i].time == t;
      if i < |init| {
        assert init[i].time == t;
      }
    }
    forall t | t in Times(init) ensures t in Times(ps) {
      var i :| 0 <= i < |init| && init[i].time == t;
      assert ps[i].time == t;
    }
  }

  /** There is exactly one row per distinct timestamp, and the key order
      lists each of them once. */
  lemma {:induction false} MergeKeys(ps: seq<Sample>)
    ensures Merge(ps).Keys == Times(ps)
    ensures (set k | k in Order(ps)) == Times(ps)
    ensures forall a, b :: 0 <= a < b < |Order(ps)| ==> Order(ps)[a] != Order(ps)[b]
  {
    if ps != [] {
      MergeKeys(ps[..|ps| - 1]);
      TimesSnoc(ps);
    }
  }

  /** The `Map`'s keys are the times its key order lists. */
  lemma {:induction false} KeysInOrder(ps: seq<Sample>)
    ensures forall t :: t in Merge(ps) <==> t in Order(ps)
    ensures forall k :: 0 <= k < |Order(ps)| ==> Order(ps)[k] in Merge(ps)
  {
    if ps != [] {
      KeysInOrder(ps[..|ps| - 1]);
    }
  }

  /** Every point's series has a field in the row of the point's time. */
  lemma {:induction false} MergeHasField(ps: seq<Sample>, i: nat)
    requires i < |ps|
    ensures ps[i].time in Merge(ps) && ps[i].name in Merge(ps)[ps[i].time]
  {
    var init := ps[..|ps| - 1];
    if i < |init| {
      MergeHasField(init, i);
      assert init[i] == ps[i];
    }
  }

  /** The last point written to a field of a row is the value it keeps. */
  lemma {:induction false} LastWriteWins(ps: seq<Sample>, i: nat)
    requires i < |ps|
    requires forall k :: i < k < |ps| ==> ps[k].time != ps[i].time || ps[k].name != ps[i].name
    ensures ps[i].time in Merge(ps) && ps[i].name in Merge(ps)[ps[i].time]
    ensures Merge(ps)[ps[i].time][ps[i].name] == ps[i].value
  {
    var init := ps[..|ps| - 1];
    if i < |init| {
      assert init[i] == ps[i];
      LastWriteWins(init, i);
    }
  }

  /** A row's `time` field is its timestamp unless a series named `time`
      wrote to that row. */
  lemma {:induction false} TimeFieldKept(ps: seq<Sample>, t: real)
    requires t in Merge(ps)
    requires forall k :: 0 <= k < |ps| ==> ps[k].time != t || ps[k].name != TimeKey
    ensures TimeKey in Merge(ps)[t] && Merge(ps)[t][TimeKey] == t
  {
    if ps != [] {
      var init := ps[..|ps| - 1];
      if t in Merge(init) {
        TimeFieldKept(init, t);
      }
    }
  }

  /** A series named `time` overwrites the timestamp of the rows it writes. */
  lemma TimeFieldOverwritten()
    ensures Merge([Sample(1.0, TimeKey, 5.0)])[1.0][TimeKey] == 5.0
  {
    var ps := [Sample(1.0, TimeKey, 5.0)];
    assert ps[..0] == [];
  }

  // ---------------------------------------------------------------------
  // Sorting

  /** The sort key `a.time`; a row always has it. */
  function Time(row: Row): real {
    if TimeKey in row then row[TimeKey] else 0.0
  }

  predicate SortedBy<T>(s: seq<T>, key: T -> real) {
    forall i, j :: 0 <= i < j < |s| ==> key(s[i]) <= key(s[j])
  }

  /** `x` placed before the first element whose key is not smaller. */
  function Insert<T>(x: T, s: seq<T>, key: T -> real): (r: seq<T>)
    ensures |r| == |s| + 1 && multiset(r) == multiset(s) + multiset{x}
    ensures r[0] == x || (s != [] && r[0] == s[0])
  {
    if s == [] then [x]
    else if key(x) <= key(s[0]) then [x] + s
    else
      assert s == [s[0]] + s[1..];
      [s[0]] + Insert(x, s[1..], key)
  }

  lemma {:induction false} InsertSorted<T>(x: T, s: seq<T>, key: T -> real)
    requires SortedBy(s, key)
    ensures SortedBy(Insert(x, s, key), key)
  {
    if s != [] && key(x) > key(s[0]) {
      var rest := Insert(x, s[1..], key);
      InsertSorted(x, s[1..], key);
      var r := [s[0]] + rest;
      forall a, b | 0 <= a < b < |r| ensures key(r[a]) <= key(r[b]) {
        if a == 0 {
          assert key(r[0]) <= key(rest[0]);
          if b > 1 {
            assert key(rest[0]) <= key(rest[b - 1]);
          }
        } else {
          assert r[a] == rest[a - 1] && r[b] == rest[b - 1];
        }
      }
    }
  }

  /** A stable insertion sort by `key`. */
  function SortBy<T>(s: seq<T>, key: T -> real): (r: seq<T>)
    ensures |r| == |s| && multiset(r) == multiset(s)
  {
    if s == [] then []
    else
      assert s == [s[0]] + s[1..];
      Insert(s[0], SortBy(s[1..], key), key)
  }

  lemma {:induction false} SortBySorted<T>(s: seq<T>, key: T -> real)
    ensures SortedBy(SortBy(s, key), key)
  {
    if s != [] {
      SortBySorted(s[1..], key);
      InsertSorted(s[0], SortBy(s[1..], key), key);
    }
  }

  /** `Array.prototype.sort` with the comparator `a.time - b.time`. */
  function SortByTime(rows: seq<Row>): (r: seq<Row>)
    ensures SortedBy(r, Time) && multiset(r) == multiset(rows)
  {
    SortBySorted(rows, Time);
    SortBy(rows, Time)
  }

  /** The rows of the `Map` in insertion order. */
  function RowsOf(table: map<real, Row>, order: seq<real>): (r: seq<Row>)
    requires forall k :: 0 <= k < |order| ==> order[k] in table
    ensures |r| == |order| && forall k :: 0 <= k < |order| ==> r[k] == table[order[k]]
  {
    seq(|order|, k requires 0 <= k < |order| => table[order[k]])
  }

  function RowsInOrder(ps: seq<Sample>): seq<Row> {
    KeysInOrder(ps);
    RowsOf(Merge(ps), Order(ps))
  }

  /** What `transformData` returns. */
  function ChartRows(series: seq<SeriesData>): seq<Row> {
    SortByTime(RowsInOrder(Samples(series)))
  }

  lemma MergeSnoc(ps: seq<Sample>, p: Sample)
    ensures Merge(ps + [p]) == Visit(Merge(ps), p)
    ensures Order(ps + [p]) == if p.time in Order(ps) then Order(ps) else Order(ps) + [p.time]
  {
    assert (ps + [p])[..|ps|] == ps;
  }

  lemma PrefixStep<T>(base: seq<T>, s: seq<T>, j: nat)
    requires j < |s|
    ensures base + s[..j + 1] == (base + s[..j]) + [s[j]]
  {
    assert s[..j + 1] == s[..j] + [s[j]];
  }

  /** The inner `forEach` of `transformData`: the points of one series
      visited in order. */
  method VisitSeries(table0: map<real, Row>, order0: seq<real>, s: SeriesData, ghost done: seq<Sample>)
    returns (table: map<real, Row>, order: seq<real>)
    requires table0 == Merge(done) && order0 == Order(done)
    ensures table == Merge(done + SamplesOf(s)) && order == Order(done + SamplesOf(s))
  {
    table, order := table0, order0;
    ghost var points := SamplesOf(s);
    assert done + points[..0] == done;
    for j := 0 to |s.data|
      invariant table == Merge(done + points[..j]) && order == Order(done + points[..j])
    {
      var p := Sample(s.data[j].timestamp, s.name, s.data[j].value);
      assert p == points[j];
      ghost var visited := done + points[..j];
      KeysInOrder(visited);
      MergeSnoc(visited, p);
      ghost var before := table;
      if p.time !in table {
        table := table[p.time := map[TimeKey := p.time]];
        order := order + [p.time];
      }
      table := table[p.time := table[p.time][p.name := p.value]];
      assert table == Visit(before, p);
      PrefixStep(done, points, j);
    }
    assert points[..|s.data|] == points;
  }

  /** The outer `forEach` of `transformData`: the `Map` filled series by
      series, with its keys in insertion order. */
  method MergeSeries(series: seq<SeriesData>) returns (table: map<real, Row>, order: seq<real>)
    ensures table == Merge(Samples(series)) && order == Order(Samples(series))
  {
    table := map[];
    order := [];
    for i := 0 to |series|
      invariant table == Merge(Samples(series[..i])) && order == Order(Samples(series[..i]))
    {
      table, order := VisitSeries(table, order, series[i], Samples(series[..i]));
      SamplesSnoc(series, i);
    }
    assert series[..|series|] == series;
  }

  /** `transformData`: merge the series, read the rows in insertion order
      and sort them by time. */
  method TransformData(series: seq<SeriesData>) returns (rows: seq<Row>)
    ensures rows == ChartRows(series)
  {
    var table, order := MergeSeries(series);
    KeysInOrder(Samples(series));
    ghost var all := RowsOf(table, order);
    rows := [];
    for k := 0 to |order|
      invariant rows == all[..k]
    {
      assert all[..k + 1] == all[..k] + [table[order[k]]];
      rows := rows + [table[order[k]]];
    }
    assert rows == all;
    rows := SortByTime(rows);
  }

  /** The chart rows are sorted, one per distinct timestamp, and every
      point's series has a field in the row of its timestamp. */
  lemma ChartRowsShape(series: seq<SeriesData>)
    ensures var rows := ChartRows(series); var ps := Samples(series);
      SortedBy(rows, Time) && |rows| == |Times(ps)|
      && forall i :: 0 <= i < |ps| ==> ps[i].time in Merge(ps) && Merge(ps)[ps[i].time] in rows && ps[i].name in Merge(ps)[ps[i].time]
  {
    var ps := Samples(series);
    MergeKeys(ps);
    var inOrder := RowsInOrder(ps);
    var rows := ChartRows(series);
    DistinctCount(Order(ps));
    forall i | 0 <= i < |ps| ensures ps[i].time in Merge(ps) && Merge(ps)[ps[i].time] in rows && ps[i].name in Merge(ps)[ps[i].time] {
      MergeHasField(ps, i);
      var k :| 0 <= k < |Order(ps)| && Order(ps)[k] == ps[i].time;
      assert inOrder[k] == Merge(ps)[ps[i].time];
      assert inOrder[k] in multiset(inOrder);
    }
  }

  /** A sequence without repetitions is as long as its set of elements. */
  lemma {:induction false} DistinctCount(s: seq<real>)
    requires forall a, b :: 0 <= a < b < |s| ==> s[a] != s[b]
    ensures |(set k | k in s)| == |s|
  {
    if s != [] {
      var init := s[..|s| - 1];
      DistinctCount(init);
      assert (set k | k in s) == (set k | k in init) + {s[|s| - 1]};
      assert s[|s| - 1] !in (set k | k in init);
    }
  }

  // ---------------------------------------------------------------------
  // Palette and chart choice

  const Palette: seq<string> := ["#3b82f6", "#10b981", "#f59e0b", "#ef4444", "#8b5cf6", "#ec4899", "#06b6d4", "#84cc16"]

  /** `getDefaultColor(index)`: the palette, cycled. */
  function DefaultColor(index: nat): (c: string)
    ensures c in Palette
  {
    Palette[index % |Palette|]
  }

  /** The palette repeats every eight series and not sooner. */
  lemma ColorPeriod(i: nat, j: nat)
    ensures DefaultColor(i) == DefaultColor(j) <==> i % 8 == j % 8
  {
    assert |Palette| == 8;
    assert forall a, b :: 0 <= a < b < 8 ==> Palette[a] != Palette[b];
  }

  datatype Chart = AreaChart | BarChart | LineChart

  datatype Mark = AreaMark | BarMark | LineMark

  /** `getChartComponent`. */
  function ChartFor(lineType: Option<LineType>): (c: Chart)
    ensures c == AreaChart <==> lineType == Some(Area)
    ensures c == BarChart <==> lineType == Some(Bar)
  {
    match lineType
    case Some(Area) => AreaChart
    case Some(Bar) => BarChart
    case _ => LineChart
  }

  /** `getDataComponent`. */
  function MarkFor(lineType: Option<LineType>): (m: Mark)
    ensures m == AreaMark <==> lineType == Some(Area)
    ensures m == BarMark <==> lineType == Some(Bar)
  {
    match lineType
    case Some(Area) => AreaMark
    case Some(Bar) => BarMark
    case _ => LineMark
  }

  /** The chart and its marks are always of the same family. */
  lemma ChartMatchesMark(lineType: Option<LineType>)
    ensures ChartFor(lineType) == LineChart <==> MarkFor(lineType) == LineMark
  {
  }

  // ---------------------------------------------------------------------
  // Rendering

  /** What the widget shows. A chart carries its rows, whether it has a
      legend, the legend icon, the fill opacity and, per series, the name and
      colour of its mark. */
  datatype View =
    | Spinner
    | LoadFailed
    | NoData
    | Plot(chart: Chart, mark: Mark, rows: seq<Row>, legend: bool, rectIcon: bool, lightFill: bool,
           names: seq<string>, colors: seq<string>)

  /** `series.color || getDefaultColor(index)`. */
  function SeriesColor(s: SeriesData, index: nat): (c: string)
    ensures s.color.Some? && s.color.value != "" ==> c == s.color.value
    ensures s.color.None? || s.color.value == "" ==> c == DefaultColor(index)
  {
    OrElse(s.color.GetOr(""), DefaultColor(index))
  }

  /** The component: a spinner while loading, then a failure when there is
      an error, then "no data" when there is no series, and only then the
      chart. */
  function Render(data: Option<TimeseriesData>, config: WidgetConfig): (v: View)
    requires config.TimeseriesConfig?
    ensures v == Spinner <==> data.Some? && data.value.loading
    ensures v == LoadFailed <==> data.Some? && !data.value.loading && data.value.error.Some? && data.value.error.value != ""
    ensures v == NoData <==>
      (!(data.Some? && data.value.loading)
       && !(data.Some? && data.value.error.Some? && data.value.error.value != "")
       && (data.None? || data.value.series == []))
    ensures v.Plot? ==> var series := data.value.series;
      v.rows == ChartRows(series) && v.chart == ChartFor(config.lineType) && v.mark == MarkFor(config.lineType)
      && v.legend == (config.showLegend != Some(false)) && v.rectIcon == (config.lineType == Some(Bar))
      && v.lightFill == (config.lineType == Some(Area))
      && |v.names| == |series| == |v.colors|
      && forall i :: 0 <= i < |series| ==> v.names[i] == series[i].name && v.colors[i] == SeriesColor(series[i], i)
  {
    if data.Some? && data.value.loading then Spinner
    else if data.Some? && data.value.error.Some? && data.value.error.value != "" then LoadFailed
    else if data.None? || data.value.series == [] then NoData
    else
      var series := data.value.series;
      Plot(ChartFor(config.lineType), MarkFor(config.lineType), ChartRows(series),
           config.showLegend != Some(false), config.lineType == Some(Bar), config.lineType == Some(Area),
           seq(|series|, i requires 0 <= i < |series| => series[i].name),
           seq(|series|, i requires 0 <= i < |series| => SeriesColor(series[i], i)))
  }
}
