/** Where the dashboard design comes from (`designDashboardWithAI`,
    `getDefaultDashboardDesign`) and what an investigation returns
    (`investigateAndCreateDashboard`).

    The LLM call is its outcome `reply`: the completion text ("" when the
    response carries none) or a failure. `JSON.parse` is the parameter
    `parse`, which yields a design or fails. */
module DesignEngine {
  import opened Common
  import opened DashboardTypes
  import ServiceExtraction
  import WidgetFactory
  import TimeRangeTable
  import InvestigationNotes
  import opened DashboardComposer

  // ---------------------------------------------------------------------
  // The fallback design

  const LayoutStrategy: string :=
    "Critical metrics at top for immediate assessment, followed by supporting data for detailed investigation"

  const NarrativeOpening: string := "This dashboard was generated to investigate **"

  const NarrativeState: string := "** which is currently in **"

  const NarrativeClosing: string :=
    "** state. The investigation focuses on the key metrics and logs that can help identify the root cause of "
    + "this alert."

  const MonitoredMetricReason: string :=
    "Primary metric that triggered the alert. Look for spikes, drops, or unusual patterns that correlate with the "
    + "alert timing."

  const ErrorRateReason: string :=
    "Error percentage indicates service health. High error rates often correlate with performance alerts."

  const LatencyReason: string :=
    "Response time performance. Increased latency can indicate resource constraints or downstream issues."

  const RequestRateReason: string :=
    "Traffic volume trends. Sudden spikes can cause resource exhaustion, while drops may indicate upstream failures."

  const ServiceLogsReason: string :=
    "Recent error messages provide specific details about failures. Look for patterns, stack traces, and error "
    + "frequencies."

  const SystemMetricsReason: string :=
    "General system performance indicators. Useful when specific service metrics are not available."

  const SystemLogsReason: string :=
    "System-wide error logs. Look for patterns and timestamps that correlate with the alert."

  /** A designed widget with only the fields the fallback sets. */
  function Planned(kind: string, title: string, query: string, visualization: string, width: int, height: int,
                   reasoning: string): WidgetDesign
  {
    WidgetDesign(kind, Some(title), query, visualization, width, height, reasoning, None, "", None, 0, "")
  }

  function MonitoredMetric(m: Monitor): WidgetDesign {
    Planned("timeseries", "Monitored Metric", m.query, "", 9, 3, MonitoredMetricReason)
  }

  /** The `service:<name>` filter the fallback's queries interpolate. */
  function ServiceFilter(service: string): string {
    "service:" + service
  }

  function ErrorRateQuery(service: string): string {
    "sum:trace.servlet.request{" + ServiceFilter(service) + ",resource_name:*,http.status_class:5xx}.as_rate()"
    + "/sum:trace.servlet.request{" + ServiceFilter(service) + ",resource_name:*}.as_rate()*100"
  }

  function LatencyQuery(service: string): string {
    "p99:trace.servlet.request.duration{" + ServiceFilter(service) + "}"
  }

  function RequestRateQuery(service: string): string {
    "sum:trace.servlet.request{" + ServiceFilter(service) + "}.as_rate()"
  }

  function ErrorLogsQuery(service: string): string {
    ServiceFilter(service) + " status:error"
  }

  /** The four widgets about a named service. */
  function ServiceWidgets(service: string): seq<WidgetDesign> {
    [ Planned("metric", "Current Error Rate", ErrorRateQuery(service), "", 3, 2, ErrorRateReason),
      Planned("metric", "P99 Latency", LatencyQuery(service), "", 3, 2, LatencyReason),
      Planned("timeseries", "Request Rate", RequestRateQuery(service), "bar", 6, 3, RequestRateReason),
      Planned("logs", "Error Logs - " + service, ErrorLogsQuery(service), "", 6, 4, ServiceLogsReason) ]
  }

  /** The two system-wide widgets used when no service is known. */
  const SystemWidgets: seq<WidgetDesign> :=
    [ Planned("timeseries", "System Metrics", "avg:system.cpu.user{*}", "", 6, 3, SystemMetricsReason),
      Planned("logs", "Error Logs", "status:error", "", 6, 4, SystemLogsReason) ]

  /** `getDefaultDashboardDesign` for the extracted service name `service`
      ("" for none). */
  function FallbackFor(m: Monitor, service: string): (d: DashboardDesign)
    ensures d.timeRange == "1h" && d.widgets != [] && d.widgets[0] == MonitoredMetric(m)
    ensures d.widgets[1..] == if service != "" then ServiceWidgets(service) else SystemWidgets
  {
    DashboardDesign(
      NarrativeOpening + m.name + NarrativeState + m.overallState + NarrativeClosing,
      [MonitoredMetric(m)] + (if service != "" then ServiceWidgets(service) else SystemWidgets),
      LayoutStrategy,
      "1h")
  }

  function FallbackDesign(m: Monitor): (d: DashboardDesign)
    ensures d.widgets != [] && d.widgets[0].query == m.query
    ensures |d.widgets| == if ServiceExtraction.ServiceName(m) != "" then 5 else 3
  {
    FallbackFor(m, ServiceExtraction.ServiceName(m))
  }

  /** The fallback watches the last hour and opens with the monitor's own
      query in a 9×3 chart; it has five widgets with a service and three
      without. */
  lemma FallbackShape(m: Monitor, service: string)
    ensures var d := FallbackFor(m, service);
      d.timeRange == "1h" && d.layoutStrategy == LayoutStrategy
      && |d.widgets| == (if service != "" then 5 else 3)
      && d.widgets[0] == MonitoredMetric(m)
      && d.widgets[0].title == Some("Monitored Metric") && d.widgets[0].query == m.query
      && d.widgets[0].width == 9 && d.widgets[0].height == 3
  {
  }

  /** Every widget of the fallback yields a dashboard widget: none is
      dropped. */
  lemma FallbackAllProduce(m: Monitor, service: string)
    ensures var ws := FallbackFor(m, service).widgets;
      (forall i :: 0 <= i < |ws| ==> WidgetFactory.ProducesWidget(ws[i].kind)) && Produced(ws) == ws
  {
    var ws := FallbackFor(m, service).widgets;
    assert WidgetFactory.ProducesWidget(ws[0].kind);
    if service != "" {
      var sw := ServiceWidgets(service);
      assert WidgetFactory.ProducesWidget(sw[0].kind) && WidgetFactory.ProducesWidget(sw[1].kind);
      assert WidgetFactory.ProducesWidget(sw[2].kind) && WidgetFactory.ProducesWidget(sw[3].kind);
      assert forall i :: 1 <= i < |ws| ==> ws[i] == sw[i - 1];
    } else {
      assert WidgetFactory.ProducesWidget(SystemWidgets[0].kind) && WidgetFactory.ProducesWidget(SystemWidgets[1].kind);
      assert forall i :: 1 <= i < |ws| ==> ws[i] == SystemWidgets[i - 1];
    }
    ProducedAll(ws);
  }

  /** A list of producing designs is kept whole. */
  lemma {:induction false} ProducedAll(ws: seq<WidgetDesign>)
    requires forall i :: 0 <= i < |ws| ==> WidgetFactory.ProducesWidget(ws[i].kind)
    ensures Produced(ws) == ws
  {
    if ws != [] {
      ProducedAll(ws[..|ws| - 1]);
      assert ws[..|ws| - 1] + [ws[|ws| - 1]] == ws;
    }
  }

  lemma ErrorRateNamesService(service: string)
    ensures Contains(ErrorRateQuery(service), ServiceFilter(service))
  {
    var tag := ServiceFilter(service);
    var tail := ",resource_name:*,http.status_class:5xx}.as_rate()" + "/sum:trace.servlet.request{" + tag
                + ",resource_name:*}.as_rate()*100";
    ContainsMiddle("sum:trace.servlet.request{", tag, tail);
    assert ErrorRateQuery(service) == "sum:trace.servlet.request{" + tag + tail;
  }

  lemma LatencyNamesService(service: string)
    ensures Contains(LatencyQuery(service), ServiceFilter(service))
  {
    ContainsMiddle("p99:trace.servlet.request.duration{", ServiceFilter(service), "}");
  }

  lemma RequestRateNamesService(service: string)
    ensures Contains(RequestRateQuery(service), ServiceFilter(service))
  {
    ContainsMiddle("sum:trace.servlet.request{", ServiceFilter(service), "}.as_rate()");
  }

  lemma ErrorLogsNamesService(service: string)
    ensures Contains(ErrorLogsQuery(service), ServiceFilter(service))
  {
    ContainsMiddle("", ServiceFilter(service), " status:error");
    assert "" + ServiceFilter(service) + " status:error" == ErrorLogsQuery(service);
  }

  /** Each of the four service widgets queries that service. */
  lemma ServiceWidgetsQueryService(service: string)
    ensures var sw := ServiceWidgets(service);
      forall i :: 0 <= i < |sw| ==> Contains(sw[i].query, ServiceFilter(service))
  {
    ErrorRateNamesService(service);
    LatencyNamesService(service);
    RequestRateNamesService(service);
    ErrorLogsNamesService(service);
  }

  /** With a service, every widget after the first queries that service. */
  lemma FallbackQueriesService(m: Monitor, service: string)
    requires service != ""
    ensures var ws := FallbackFor(m, service).widgets;
      forall i :: 1 <= i < |ws| ==> Contains(ws[i].query, "service:" + service)
  {
    ServiceWidgetsQueryService(service);
    var ws := FallbackFor(m, service).widgets;
    assert ws[1..] == ServiceWidgets(service);
  }

  // ---------------------------------------------------------------------
  // The design returned by the LLM

  function IndexOf(s: string, c: char): (r: Option<nat>)
    ensures r.Some? ==> r.value < |s| && s[r.value] == c && forall k :: 0 <= k < r.value ==> s[k] != c
    ensures r.None? ==> forall k :: 0 <= k < |s| ==> s[k] != c
  {
    if s == [] then None
    else if s[0] == c then Some(0)
    else match IndexOf(s[1..], c)
      case None => None
      case Some(k) => Some(k + 1)
  }

  function LastIndexOf(s: string, c: char): (r: Option<nat>)
    ensures r.Some? ==> r.value < |s| && s[r.value] == c && forall k :: r.value < k < |s| ==> s[k] != c
    ensures r.None? ==> forall k :: 0 <= k < |s| ==> s[k] != c
  {
    if s == [] then None
    else if s[|s| - 1] == c then Some(|s| - 1)
    else LastIndexOf(s[..|s| - 1], c)
  }

  /** `content.match(/\{[\s\S]*\}/)`: the text from the first "{" to the
      last "}", when some "}" follows that "{". */
  function BraceSpan(s: string): (r: Option<string>)
    ensures r.Some? <==> exists i, j :: 0 <= i < j < |s| && s[i] == '{' && s[j] == '}'
    ensures r.Some? ==> |r.value| >= 2 && r.value[0] == '{' && r.value[|r.value| - 1] == '}'
    ensures r.Some? ==>
      exists i :: OccursAt(s, r.value, i)
        && (forall k :: 0 <= k < i ==> s[k] != '{') && (forall k :: i + |r.value| <= k < |s| ==> s[k] != '}')
  {
    match IndexOf(s, '{')
    case None => None
    case Some(i) =>
      match LastIndexOf(s, '}')
      case None => None
      case Some(j) =>
        if i < j then
          assert OccursAt(s, s[i..j + 1], i);
          Some(s[i..j + 1])
        else None
  }

  /** The design `designDashboardWithAI` settles on, `fallback` being the
      monitor's fallback design. */
  function DesignFor(reply: Result<string, string>, parse: string -> Option<DashboardDesign>, fallback: DashboardDesign)
    : (r: DashboardDesign)
    ensures reply.Err? ==> r == fallback
    ensures reply.Ok? && parse(OrElse(reply.value, "{}")).Some? ==> r == parse(OrElse(reply.value, "{}")).value
    ensures r != fallback ==>
      reply.Ok? && (parse(OrElse(reply.value, "{}")) == Some(r)
                    || (BraceSpan(OrElse(reply.value, "{}")).Some?
                        && parse(BraceSpan(OrElse(reply.value, "{}")).value) == Some(r)))
  {
    match reply
    case Err(_) => fallback
    case Ok(text) =>
      var content := OrElse(text, "{}");
      match parse(content)
      case Some(d) => d
      case None =>
        // a failing second parse throws into the outer handler, which
        // also falls back
        match BraceSpan(content)
        case None => fallback
        case Some(span) => parse(span).GetOr(fallback)
  }

  /** The completion is used as it is whenever it parses; a missing one is
      read as "{}". */
  lemma ParsedReplyWins(text: string, parse: string -> Option<DashboardDesign>, fallback: DashboardDesign)
    requires parse(OrElse(text, "{}")).Some?
    ensures DesignFor(Ok(text), parse, fallback) == parse(OrElse(text, "{}")).value
    ensures text == "" ==> DesignFor(Ok(text), parse, fallback) == parse("{}").value
  {
  }

  /** The fallback design is used exactly when the LLM call fails, or when
      neither the completion nor its brace span parses. */
  lemma FallbackExactlyWhenUnparsable(reply: Result<string, string>, parse: string -> Option<DashboardDesign>,
                                      fallback: DashboardDesign)
    requires forall s :: parse(s) != Some(fallback)
    ensures DesignFor(reply, parse, fallback) == fallback <==>
      reply.Err?
      || (parse(OrElse(reply.value, "{}")).None?
          && (BraceSpan(OrElse(reply.value, "{}")).None? || parse(BraceSpan(OrElse(reply.value, "{}")).value).None?))
  {
  }

  /** A design is only ever recovered from a span that opens with "{",
      closes with "}" and lies inside the completion. */
  lemma RecoveredFromBraces(text: string, parse: string -> Option<DashboardDesign>, fallback: DashboardDesign)
    requires parse(OrElse(text, "{}")).None?
    requires DesignFor(Ok(text), parse, fallback) != fallback
    ensures var span := BraceSpan(OrElse(text, "{}"));
      span.Some? && parse(span.value) == Some(DesignFor(Ok(text), parse, fallback))
      && span.value[0] == '{' && span.value[|span.value| - 1] == '}'
      && exists i :: OccursAt(OrElse(text, "{}"), span.value, i)
  {
  }

  // ---------------------------------------------------------------------
  // The investigation

  datatype Investigation = Investigation(investigation: string, dashboard: Option<Dashboard>, error: Option<string>)

  const InProgress: string := "Investigation in progress..."

  const FailedSummary: string := "Failed to complete investigation"

  /** What a successful investigation returns: the design's own summary (or
      a placeholder), the composed dashboard and no error. */
  function Succeeded(m: Monitor, d: DashboardDesign, now: int, createdAt: int, uuid: nat -> string): Investigation {
    Investigation(OrElse(d.investigation, InProgress),
                  Some(ComposedDashboard(m, d, TimeRangeTable.ResolveTimeRange(d.timeRange, now), createdAt, uuid,
                                         InvestigationNotes.Notes(m, d))),
                  None)
  }

  /** The successful outcome for a monitor and its design. */
  method Report(m: Monitor, d: DashboardDesign, now: int, createdAt: int, uuid: nat -> string) returns (r: Investigation)
    ensures r == Succeeded(m, d, now, createdAt, uuid)
  {
    var dash := ComposeDashboard(m, d, now, createdAt, uuid);
    r := Investigation(OrElse(d.investigation, InProgress), Some(dash), None);
  }

  /** `investigateAndCreateDashboard` with `fetched` the outcome of the
      monitor request: a failed request yields no dashboard and reports the
      failure; otherwise the dashboard is composed from the chosen design. */
  method Investigate(fetched: Result<Monitor, Failure>, reply: Result<string, string>,
                     parse: string -> Option<DashboardDesign>, now: int, createdAt: int, uuid: nat -> string)
    returns (r: Investigation)
    ensures fetched.Err? ==> r == Investigation(FailedSummary, None, Some(Message(fetched.error)))
    ensures fetched.Ok? ==>
      r == Succeeded(fetched.value, DesignFor(reply, parse, FallbackDesign(fetched.value)), now, createdAt, uuid)
  {
    match fetched
    case Err(f) =>
      r := Investigation(FailedSummary, None, Some(Message(f)));
    case Ok(m) =>
      r := Report(m, DesignFor(reply, parse, FallbackDesign(m)), now, createdAt, uuid);
  }
}
