/** Turning one designed widget into a concrete widget at a given grid
    position (`createWidgetFromDesign`, `getLineType`). */
module WidgetFactory {
  import opened Common
  import opened DashboardTypes

  const GridColumns: int := 12

  function AsciiLower(c: char): char {
    if 'A' <= c <= 'Z' then (c as int + 32) as char else c
  }

  /** `toLowerCase` restricted to ASCII letters. No other character lowers
      to one of the letters of "area" or "bar", so comparing against those
      words gives the same answer as the full Unicode mapping. */
  function LowerAscii(s: string): (r: string)
    ensures |r| == |s| && forall i :: 0 <= i < |s| ==> r[i] == AsciiLower(s[i])
  {
    seq(|s|, i requires 0 <= i < |s| => AsciiLower(s[i]))
  }

  /** `getLineType`: an area or bar chart when the hint says so in any
      letter case, otherwise a line chart (also for a missing hint). */
  function GetLineType(visualization: string): (t: LineType)
    ensures t == Area <==> LowerAscii(visualization) == "area"
    ensures t == Bar <==> LowerAscii(visualization) == "bar"
    ensures t == Line <==> LowerAscii(visualization) !in {"area", "bar"}
  {
    var v := LowerAscii(visualization);
    if v == "area" then Area else if v == "bar" then Bar else Line
  }

  /** The four design types that yield a widget; "alert_status" and any
      unknown type yield none. */
  predicate ProducesWidget(kind: string) {
    kind == "timeseries" || kind == "metric" || kind == "logs" || kind == "markdown"
  }

  /** The per-type default size as (width, height). */
  function DefaultSize(kind: string): (int, int) {
    match kind
    case "timeseries" => (6, 3)
    case "metric" => (3, 2)
    case "logs" => (6, 4)
    case "markdown" => (6, 3)
    case _ => (4, 2)
  }

  function DefaultTitle(kind: string): string {
    match kind
    case "timeseries" => "Metric"
    case "metric" => "Metric Value"
    case "logs" => "Logs"
    case _ => "Notes"
  }

  function DefaultQuery(kind: string): string {
    match kind
    case "timeseries" => "system.cpu.user{*}"
    case "metric" => "avg:system.cpu.user{*}"
    case _ => "status:error"
  }

  /** JavaScript's `n || d` on a number that may be absent (0). */
  function OrDefault(n: int, d: int): int {
    if n != 0 then n else d
  }

  function TitleOr(title: Option<string>, d: string): string {
    if title.Some? && title.value != "" then title.value else d
  }

  function Min(a: int, b: int): int {
    if a <= b then a else b
  }

  /** The configuration a producing design gets. */
  function ConfigFor(d: WidgetDesign): (c: WidgetConfig)
    requires ProducesWidget(d.kind)
    ensures TypeName(c.Kind()) == d.kind
    ensures !c.MarkdownConfig? ==> c.query == OrElse(d.query, DefaultQuery(d.kind)) && c.query != ""
    ensures c.MetricConfig? ==> c.aggregation == Some(OrElse(d.aggregation, "avg")) && c.thresholds == d.thresholds
    ensures c.LogsConfig? ==> c.limit == Some(OrDefault(d.limit, 50)) && c.limit.value != 0
    ensures !c.MarkdownConfig? ==> c.dataSource == Datadog
    ensures c.TimeseriesConfig? ==> c.lineType == Some(GetLineType(d.visualization)) && c.showLegend == Some(true)
    ensures c.TimeseriesConfig? ==> c.yAxisLabel == d.yAxisLabel
    ensures c.LogsConfig? ==> c.showTimestamp == Some(true) && c.showService == Some(true)
    ensures c.MarkdownConfig? ==> c.content == OrElse(d.content, OrElse(d.reasoning, ""))
  {
    var query := OrElse(d.query, DefaultQuery(d.kind));
    match d.kind
    case "timeseries" =>
      TimeseriesConfig(query, Datadog, d.yAxisLabel, Some(true), Some(GetLineType(d.visualization)))
    case "metric" =>
      MetricConfig(query, Datadog, Some(OrElse(d.aggregation, "avg")), d.thresholds)
    case "logs" =>
      LogsConfig(query, Datadog, Some(OrDefault(d.limit, 50)), Some(true), Some(true))
    case "markdown" =>
      MarkdownConfig(OrElse(d.content, OrElse(d.reasoning, "")))
  }

  /** `createWidgetFromDesign(design, x, y)` with `id` the uuid it draws. */
  function CreateWidgetFromDesign(d: WidgetDesign, x: int, y: int, id: string): (r: Option<Widget>)
    ensures r.Some? <==> ProducesWidget(d.kind)
    ensures r.Some? ==> Consistent(r.value) && TypeName(r.value.kind) == d.kind
    ensures r.Some? ==> r.value.id == id && r.value.data.None? && r.value.description.None?
    ensures r.Some? ==> r.value.title == TitleOr(d.title, DefaultTitle(d.kind)) && r.value.title != ""
    ensures r.Some? ==> r.value.config == ConfigFor(d)
    // the declared (or default) width, cut to the columns left in the row
    ensures r.Some? ==> r.value.layout.x == x && r.value.layout.y == y
    ensures r.Some? ==> x + r.value.layout.width <= GridColumns
    ensures r.Some? ==> r.value.layout.width == Min(OrDefault(d.width, DefaultSize(d.kind).0), GridColumns - x)
    ensures r.Some? ==> r.value.layout.height == OrDefault(d.height, DefaultSize(d.kind).1)
    ensures r.Some? && d.width >= 0 && x < GridColumns ==> r.value.layout.width >= 1
    ensures r.Some? && d.height >= 0 ==> r.value.layout.height >= 1
  {
    var (dw, dh) := DefaultSize(d.kind);
    var layout := Layout(x, y, Min(OrDefault(d.width, dw), GridColumns - x), OrDefault(d.height, dh));
    if !ProducesWidget(d.kind) then None
    else
      var kind := match d.kind
        case "timeseries" => Timeseries
        case "metric" => Metric
        case "logs" => Logs
        case _ => Markdown;
      Some(Widget(id, kind, TitleOr(d.title, DefaultTitle(d.kind)), None, layout, None, ConfigFor(d)))
  }

  /** A designed "alert_status" widget is sized like any other type but then
      dropped. */
  lemma DesignedAlertStatusIsDropped(d: WidgetDesign, x: int, y: int, id: string)
    requires d.kind == "alert_status"
    ensures CreateWidgetFromDesign(d, x, y, id).None?
    ensures DefaultSize(d.kind) == (4, 2)
  {
  }
}
