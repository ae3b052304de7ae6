/** The client-side hook that loads a widget's data (`useWidgetData`): state
    that starts from the widget's cached data and is updated step by step
    by one fetch of the widget data endpoint.

    The HTTP call is the parameter `post`, which returns the reply or what
    it threw; `toIso` is `Date.prototype.toISOString`. React's scheduling
    is not modelled: one call of `Load` runs the effect from start to end. */
module WidgetDataHook {
  import opened Common
  import opened DashboardTypes
  import WidgetDataRoute

  /** An HTTP reply of the endpoint; `json` is the `data` field of its body,
      or what reading the body threw. */
  datatype Reply = Reply(ok: bool, json: Result<Option<WidgetData>, Failure>)

  const FailedToFetch: string := "Failed to fetch data"

  const ErrorLoading: string := "Error loading widget"

  const NotOk: string := "Failed to fetch widget data"

  /** `getErrorDataForType`: what a widget shows when loading failed. The
      four data-backed types get an empty payload of their own type carrying
      the error; markdown and service maps get a markdown payload without
      one. */
  function ErrorDataFor(t: WidgetType): (r: WidgetData)
    ensures t in {Markdown, ServiceMap} <==> r == MarkdownPayload(MarkdownData(ErrorLoading))
    ensures t !in {Markdown, ServiceMap} ==> r.Kind() == t
    ensures t == Timeseries ==> r == TimeseriesPayload(TimeseriesData([], false, Some(FailedToFetch)))
    ensures t == Metric ==> r == MetricPayload(MetricData(0.0, None, None, None, None, false, Some(FailedToFetch)))
    ensures t == Logs ==> r == LogsPayload(LogsData([], None, false, Some(FailedToFetch)))
    ensures t == AlertStatus ==>
      r == AlertStatusPayload(AlertStatusData(MonitorNoData, WidgetDataRoute.UnknownMonitor, None, None, false, Some(FailedToFetch)))
  {
    match t
    case Timeseries => TimeseriesPayload(TimeseriesData([], false, Some(FailedToFetch)))
    case Metric => MetricPayload(MetricData(0.0, None, None, None, None, false, Some(FailedToFetch)))
    case Logs => LogsPayload(LogsData([], None, false, Some(FailedToFetch)))
    case AlertStatus => AlertStatusPayload(AlertStatusData(MonitorNoData, WidgetDataRoute.UnknownMonitor, None, None, false, Some(FailedToFetch)))
    case _ => MarkdownPayload(MarkdownData(ErrorLoading))
  }

  /** Markdown and service maps never fetch. */
  predicate Skips(config: WidgetConfig) {
    config.MarkdownConfig? || config.ServiceMapConfig?
  }

  /** The body the hook posts: the widget's configuration and the range as
      ISO texts. */
  function RequestFor(config: WidgetConfig, range: TimeRange, toIso: int -> string): (q: WidgetDataRoute.DataRequest)
    ensures q.widgetConfig == Some(config)
    ensures q.timeRange == Some(WidgetDataRoute.RangeText(toIso(range.from), toIso(range.to)))
  {
    WidgetDataRoute.DataRequest(Some(config), Some(WidgetDataRoute.RangeText(toIso(range.from), toIso(range.to))))
  }

  /** The outcome of one fetch: the payload it delivered, or the failure
      that stopped it (a non-ok reply, a throw of `post` or of reading the
      body). */
  function Outcome(sent: Result<Reply, Failure>): (r: Result<Option<WidgetData>, Failure>)
    ensures r.Ok? <==> sent.Ok? && sent.value.ok && sent.value.json.Ok?
    ensures r.Ok? ==> r.value == sent.value.json.value
    ensures sent.Ok? && !sent.value.ok ==> r == Err(ErrorObject(NotOk))
    ensures sent.Err? ==> r == Err(sent.error)
  {
    match sent
    case Err(f) => Err(f)
    case Ok(reply) =>
      if !reply.ok then Err(ErrorObject(NotOk))
      else reply.json
  }

  /** A failed load always leaves data of the widget's own type: the types
      whose error data is markdown never fetch. */
  lemma FailureKeepsKind(config: WidgetConfig)
    requires !Skips(config)
    ensures ErrorDataFor(config.Kind()).Kind() == config.Kind()
    ensures ErrorDataFor(config.Kind()) != MarkdownPayload(MarkdownData(ErrorLoading))
  {
  }

  class WidgetDataState {
    var data: Option<WidgetData>
    var loading: bool
    var error: Option<string>

    /** The initial state: the widget's cached data, loading, no error. */
    constructor(widget: Widget)
      ensures data == widget.data && loading && error.None?
    {
      data := widget.data;
      loading := true;
      error := None;
    }

    /** The effect run for a widget configuration and time range. A
        skipped type only stops loading; otherwise the state is reset,
        the endpoint is called, and the delivered payload or the error
        with the type's error data is stored; loading always ends. */
    method Load(config: WidgetConfig, range: TimeRange, toIso: int -> string,
                post: WidgetDataRoute.DataRequest -> Result<Reply, Failure>)
      modifies this
      ensures !loading
      ensures Skips(config) ==> data == old(data) && error == old(error)
      ensures !Skips(config) ==>
        match Outcome(post(RequestFor(config, range, toIso)))
        case Ok(d) => data == d && error.None?
        case Err(f) => data == Some(ErrorDataFor(config.Kind())) && error == Some(Message(f))
    {
      if Skips(config) {
        loading := false;
        return;
      }
      loading := true;
      error := None;
      var sent := post(RequestFor(config, range, toIso));
      var outcome := Outcome(sent);
      match outcome {
        case Ok(d) =>
          data := d;
        case Err(f) =>
          error := Some(Message(f));
          data := Some(ErrorDataFor(config.Kind()));
      }
      loading := false;
    }
  }
}
