/** The entities the dashboard core passes around: the vendor's monitor
    snapshot, the LLM's dashboard design, and the dashboard with its widgets,
    configurations and data payloads.

    JavaScript truthiness is kept where the core depends on it: an optional
    string the core only tests with `||` or `if` is a `string` whose empty
    value stands for "absent", and an optional number it only tests that way
    is an `int` whose zero stands for "absent" (both are falsy in JavaScript,
    so the two cases behave identically). Where the core distinguishes
    `undefined` from a value (interpolation into text, copying into a
    config), the field is an `Option`. */
module DashboardTypes {
  import opened Common

  /** A string-valued JSON object (log attributes); nested values are flattened. */
  type JsonObject = map<string, string>

  // ---------------------------------------------------------------------
  // Monitor snapshot (src/types/datadog.ts, Monitor)

  datatype Monitor = Monitor(
    id: int,
    name: string,
    kind: string,          // `type`, e.g. "metric alert"
    query: string,
    message: string,
    tags: seq<string>,
    overallState: string)  // "OK" | "Alert" | "Warn" | "No Data" | "Unknown"

  // ---------------------------------------------------------------------
  // The LLM's plan (src/types/ai-dashboard.ts)

  datatype Thresholds = Thresholds(warning: Option<real>, critical: Option<real>)

  datatype WidgetDesign = WidgetDesign(
    kind: string,            // any text the LLM produced as `type`
    title: Option<string>,
    query: string,
    visualization: string,
    width: int,
    height: int,
    reasoning: string,
    yAxisLabel: Option<string>,
    aggregation: string,
    thresholds: Option<Thresholds>,
    limit: int,
    content: string)

  datatype DashboardDesign = DashboardDesign(
    investigation: string,
    widgets: seq<WidgetDesign>,
    layoutStrategy: string,
    timeRange: string)

  // ---------------------------------------------------------------------
  // Dashboards (src/types/dashboard.ts)

  datatype WidgetType = Timeseries | Metric | Logs | AlertStatus | Markdown | ServiceMap

  /** The `type` tag as the wire format spells it. */
  function TypeName(t: WidgetType): string {
    match t
    case Timeseries => "timeseries"
    case Metric => "metric"
    case Logs => "logs"
    case AlertStatus => "alert_status"
    case Markdown => "markdown"
    case ServiceMap => "service_map"
  }

  datatype Layout = Layout(x: int, y: int, width: int, height: int)

  datatype DataSource = Datadog | Sentry | NewRelic | Prometheus

  datatype LineType = Line | Area | Bar

  datatype WidgetConfig =
    | TimeseriesConfig(query: string, dataSource: DataSource, yAxisLabel: Option<string>,
                       showLegend: Option<bool>, lineType: Option<LineType>)
    | MetricConfig(query: string, dataSource: DataSource, aggregation: Option<string>,
                   thresholds: Option<Thresholds>)
    | LogsConfig(query: string, dataSource: DataSource, limit: Option<int>,
                 showTimestamp: Option<bool>, showService: Option<bool>)
    | AlertStatusConfig(monitorId: int, dataSource: DataSource)
    | MarkdownConfig(content: string)
    | ServiceMapConfig(service: Option<string>, dataSource: DataSource, depth: Option<int>)
  {
    function Kind(): WidgetType {
      match this
      case TimeseriesConfig(_, _, _, _, _) => Timeseries
      case MetricConfig(_, _, _, _) => Metric
      case LogsConfig(_, _, _, _, _) => Logs
      case AlertStatusConfig(_, _) => AlertStatus
      case MarkdownConfig(_) => Markdown
      case ServiceMapConfig(_, _, _) => ServiceMap
    }
  }

  datatype DataPoint = DataPoint(timestamp: real, value: real)

  datatype SeriesData = SeriesData(name: string, color: Option<string>, data: seq<DataPoint>)

  datatype Trend = Up | Down | Stable

  datatype MetricStatus = StatusOk | StatusWarning | StatusCritical

  datatype MonitorStatus = MonitorOk | MonitorAlert | MonitorWarn | MonitorNoData

  datatype LogEntry = LogEntry(
    id: string,
    timestamp: int,
    level: string,           // "error" | "warn" | "info" | "debug" by declaration, not checked
    service: Option<string>,
    message: string,
    attributes: Option<JsonObject>)

  datatype TimeseriesData = TimeseriesData(series: seq<SeriesData>, loading: bool, error: Option<string>)

  datatype MetricData = MetricData(
    value: real,
    unit: Option<string>,
    trend: Option<Trend>,
    changePercent: Option<real>,
    status: Option<MetricStatus>,
    loading: bool,
    error: Option<string>)

  datatype LogsData = LogsData(entries: seq<LogEntry>, totalCount: Option<int>, loading: bool, error: Option<string>)

  datatype AlertStatusData = AlertStatusData(
    status: MonitorStatus,
    monitorName: string,
    lastTriggered: Option<int>,
    message: Option<string>,
    loading: bool,
    error: Option<string>)

  datatype MarkdownData = MarkdownData(content: string)

  /** Service-map payloads are carried but never produced by the core. */
  datatype ServiceMapData = ServiceMapData(services: seq<string>, loading: bool, error: Option<string>)

  datatype WidgetData =
    | TimeseriesPayload(timeseries: TimeseriesData)
    | MetricPayload(metric: MetricData)
    | LogsPayload(logs: LogsData)
    | AlertStatusPayload(alert: AlertStatusData)
    | MarkdownPayload(markdown: MarkdownData)
    | ServiceMapPayload(serviceMap: ServiceMapData)
  {
    function Kind(): WidgetType {
      match this
      case TimeseriesPayload(_) => Timeseries
      case MetricPayload(_) => Metric
      case LogsPayload(_) => Logs
      case AlertStatusPayload(_) => AlertStatus
      case MarkdownPayload(_) => Markdown
      case ServiceMapPayload(_) => ServiceMap
    }
  }

  datatype Widget = Widget(
    id: string,
    kind: WidgetType,
    title: string,
    description: Option<string>,
    layout: Layout,
    data: Option<WidgetData>,
    config: WidgetConfig)

  /** The widget invariant: the type tag, the shape of the config and the shape
      of any cached data agree. */
  predicate Consistent(w: Widget) {
    w.config.Kind() == w.kind && (w.data.Some? ==> w.data.value.Kind() == w.kind)
  }

  /** Times are milliseconds since the epoch. */
  datatype TimeRange = TimeRange(from: int, to: int, display: string)

  datatype Dashboard = Dashboard(
    id: string,
    title: string,
    description: Option<string>,
    createdAt: int,
    monitorId: Option<int>,
    widgets: seq<Widget>,
    timeRange: TimeRange)
}
