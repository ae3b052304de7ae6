/** The widget data endpoint (`POST /api/dashboard/data`): it fetches what
    one widget shows from the vendor and reshapes the vendor's answer into
    the widget's payload, substituting sample data when the vendor has
    nothing or fails.

    The vendor is the record `Vendor` of three calls, each returning the
    decoded response or what it threw. The clock is `now`, `Math.random()`
    is `rand` (`rand(k)` is the k-th value drawn while serving the
    request), `new Date(text).getTime()` is `millis` and `JSON.stringify`
    of a log's attributes is `stringify`. */
module WidgetDataRoute {
  import opened Common
  import opened DashboardTypes
  import AppConfig

  // ---------------------------------------------------------------------
  // The vendor

  /** `GET /api/v1/query?query=…&from=…&to=…`, bounds in seconds. */
  datatype MetricRequest = MetricRequest(query: string, from: int, to: int)

  /** The body of `POST /api/v2/logs/events/search`. */
  datatype LogsRequest = LogsRequest(query: string, from: string, to: string, sort: string, limit: int)

  /** One `[timestamp, value]` pair; the value may be null. */
  datatype VendorPoint = VendorPoint(timestamp: real, value: Option<real>)

  datatype VendorSeries = VendorSeries(metric: string, pointlist: Option<seq<VendorPoint>>)

  datatype MetricResponse = MetricResponse(series: Option<seq<VendorSeries>>)

  /** A log event: its id and its attribute object. */
  datatype VendorLog = VendorLog(id: string, attributes: JsonObject)

  datatype LogsResponse = LogsResponse(data: Option<seq<VendorLog>>, totalCount: Option<int>)

  datatype Vendor = Vendor(
    queryMetrics: MetricRequest -> Result<MetricResponse, Failure>,
    searchLogs: LogsRequest -> Result<LogsResponse, Failure>,
    monitor: int -> Result<Monitor, Failure>)

  /** The time range as the client posts it: two ISO date texts. */
  datatype RangeText = RangeText(from: string, to: string)

  // ---------------------------------------------------------------------
  // Sample data

  function Clamp(v: real): (r: real)
    ensures 0.0 <= r <= 100.0
    ensures 0.0 <= v <= 100.0 ==> r == v
  {
    if v < 0.0 then 0.0 else if v > 100.0 then 100.0 else v
  }

  /** The sample walk: it starts in [50, 70) and each step moves it by less
      than 5 either way and clamps it to [0, 100]. */
  function Walk(rand: nat -> Unit, k: nat): (r: real)
    ensures 0.0 <= r <= 100.0
    ensures k == 0 ==> 50.0 <= r < 70.0
  {
    if k == 0 then 50.0 + rand(0) * 20.0
    else Clamp(Walk(rand, k - 1) + (rand(k) - 0.5) * 10.0)
  }

  /** One step of the walk changes it by at most 5. */
  lemma WalkStep(rand: nat -> Unit, k: nat)
    requires k >= 1
    ensures -5.0 <= Walk(rand, k) - Walk(rand, k - 1) <= 5.0
  {
    var prev := Walk(rand, k - 1);
    var step := (rand(k) - 0.5) * 10.0;
    assert -5.0 <= step < 5.0;
    assert Walk(rand, k) == Clamp(prev + step);
  }

  /** The spacing of `points` sample points over `[fromMs, toMs)`; when
      `points` is 0 no point uses it. */
  function Interval(fromMs: int, toMs: int, points: nat): real {
    if points > 0 then (toMs - fromMs) as real / points as real else 0.0
  }

  /** The timestamp of sample point `i`. */
  function Stamp(fromMs: int, interval: real, i: nat): real {
    fromMs as real + i as real * interval
  }

  /** The sample series: point `i` at `Stamp(fromMs, interval, i)` with the
      walk's value after `i + 1` steps. */
  function SamplePoints(fromMs: int, toMs: int, points: nat, rand: nat -> Unit): (r: seq<DataPoint>)
    ensures |r| == points
    ensures forall i :: 0 <= i < points ==> r[i].value == Walk(rand, i + 1) && 0.0 <= r[i].value <= 100.0
  {
    seq(points, i requires 0 <= i => DataPoint(Stamp(fromMs, Interval(fromMs, toMs, points), i), Walk(rand, i + 1)))
  }

  /** `generateSampleTimeseries(fromMs, toMs, points)`. */
  method SampleTimeseries(fromMs: int, toMs: int, points: nat, rand: nat -> Unit) returns (data: seq<DataPoint>)
    ensures data == SamplePoints(fromMs, toMs, points, rand)
  {
    data := [];
    var interval := if points > 0 then (toMs - fromMs) as real / points as real else 0.0;
    var value := 50.0 + rand(0) * 20.0;
    for i := 0 to points
      invariant |data| == i
      invariant value == Walk(rand, i)
      invariant forall j :: 0 <= j < i ==> data[j] == DataPoint(Stamp(fromMs, interval, j), Walk(rand, j + 1))
    {
      var timestamp := fromMs as real + i as real * interval;
      value := value + (rand(i + 1) - 0.5) * 10.0;
      value := if value < 0.0 then 0.0 else if value > 100.0 then 100.0 else value;
      data := data + [DataPoint(timestamp, value)];
    }
  }

  /** Over a non-empty range the sample timestamps increase strictly and
      stay in `[fromMs, toMs)`. */
  lemma SampleTimesInRange(fromMs: int, toMs: int, points: nat, rand: nat -> Unit)
    requires toMs > fromMs
    ensures var r := SamplePoints(fromMs, toMs, points, rand);
      (forall i, j :: 0 <= i < j < points ==> r[i].timestamp < r[j].timestamp)
      && (forall i :: 0 <= i < points ==> fromMs as real <= r[i].timestamp < toMs as real)
  {
    var r := SamplePoints(fromMs, toMs, points, rand);
    if points > 0 {
      var interval := Interval(fromMs, toMs, points);
      assert interval > 0.0;
      forall i, j | 0 <= i < j < points ensures r[i].timestamp < r[j].timestamp {
        StampIncreases(fromMs, interval, i, j);
      }
      forall i | 0 <= i < points ensures fromMs as real <= r[i].timestamp < toMs as real {
        StampIncreases(fromMs, interval, i, points);
        assert Stamp(fromMs, interval, points) == toMs as real;
        if i > 0 {
          StampIncreases(fromMs, interval, 0, i);
        }
      }
    }
  }

  lemma StampIncreases(fromMs: int, interval: real, i: nat, j: nat)
    requires interval > 0.0 && i < j
    ensures Stamp(fromMs, interval, i) < Stamp(fromMs, interval, j)
  {
    assert j as real * interval - i as real * interval == (j - i) as real * interval;
  }

  const SampleLevels: seq<string> := ["error", "warn", "info", "debug"]

  const SampleMessages: seq<string> := [
    "Connection timeout to database",
    "Successfully processed request",
    "Rate limit warning: approaching threshold",
    "Debug: Cache hit for key user_123",
    "Error: Failed to parse JSON response"]

  const SampleAttributes: JsonObject := map["host" := "api-server-01", "env" := "production"]

  const SampleService: string := "api-service"

  /** `Math.floor(r * n)` for a draw `r`: an index in [0, n). */
  function Pick(r: Unit, n: nat): (i: nat)
    requires n > 0
    ensures i < n
  {
    assert 0.0 <= r * n as real < n as real;
    (r * n as real).Floor
  }

  /** Sample log `i`: `log-i`, `i` minutes before `now`, from the sample
      service, with a level and a message drawn from the fixed lists (draws
      `2i` and `2i + 1`). */
  function SampleLog(i: nat, now: int, rand: nat -> Unit): (e: LogEntry)
    ensures e.id == "log-" + NatToString(i) && e.timestamp == now - i * 60000
    ensures e.service == Some(SampleService) && e.attributes == Some(SampleAttributes)
    ensures e.level in SampleLevels && e.message in SampleMessages
  {
    LogEntry("log-" + NatToString(i), now - i * 60000,
             SampleLevels[Pick(rand(2 * i), |SampleLevels|)],
             Some(SampleService),
             SampleMessages[Pick(rand(2 * i + 1), |SampleMessages|)],
             Some(SampleAttributes))
  }

  /** `generateSampleLogs(count)`. */
  function SampleLogs(count: nat, now: int, rand: nat -> Unit): (r: seq<LogEntry>)
    ensures |r| == count && forall i :: 0 <= i < count ==> r[i] == SampleLog(i, now, rand)
  {
    seq(count, i requires 0 <= i => SampleLog(i, now, rand))
  }

  /** Sample logs are newest first, one minute apart, with distinct ids. */
  lemma SampleLogsOrdered(count: nat, now: int, rand: nat -> Unit)
    ensures var r := SampleLogs(count, now, rand);
      (forall i, j :: 0 <= i < j < count ==> r[i].timestamp > r[j].timestamp)
      && (forall i, j :: 0 <= i < j < count ==> r[i].id != r[j].id)
  {
    var r := SampleLogs(count, now, rand);
    forall i, j | 0 <= i < j < count ensures r[i].id != r[j].id {
      NatToStringInjective(i, j);
      assert r[i].id[4..] == NatToString(i) && r[j].id[4..] == NatToString(j);
    }
  }

  lemma {:induction false} NatToStringInjective(a: nat, b: nat)
    requires a != b
    ensures NatToString(a) != NatToString(b)
    decreases a + b
  {
    var sa, sb := NatToString(a), NatToString(b);
    if a < 10 && b < 10 {
      assert sa[0] != sb[0];
    } else if a < 10 || b < 10 {
      NatToStringLength(a);
      NatToStringLength(b);
    } else if sa == sb {
      assert sa == NatToString(a / 10) + ['0' + (a % 10) as char];
      assert sb == NatToString(b / 10) + ['0' + (b % 10) as char];
      assert sa[|sa| - 1] == sb[|sb| - 1];
      assert a % 10 == b % 10;
      assert sa[..|sa| - 1] == NatToString(a / 10) && sb[..|sb| - 1] == NatToString(b / 10);
      NatToStringInjective(a / 10, b / 10);
    }
  }

  lemma NatToStringLength(n: nat)
    ensures n < 10 <==> |NatToString(n)| == 1
  {
    if n >= 10 {
      assert |NatToString(n / 10)| >= 1;
    }
  }

  // ---------------------------------------------------------------------
  // Time bounds

  /** `Math.floor(ms / 1000)`: Dafny's division by a positive number
      rounds down, as `Math.floor` does. */
  function Seconds(ms: int): (s: int)
    ensures s * 1000 <= ms < s * 1000 + 1000
  {
    ms / 1000
  }

  // ---------------------------------------------------------------------
  // Timeseries

  /** `s.metric || config.query`, and each `[t, v]` as `{t, v || 0}`; a
      missing point list is empty. */
  function SeriesOf(s: VendorSeries, query: string): (r: SeriesData)
    ensures r.name == OrElse(s.metric, query) && r.color.None?
    ensures s.pointlist.None? ==> r.data == []
    ensures s.pointlist.Some? ==>
      (|r.data| == |s.pointlist.value|
       && forall i :: 0 <= i < |r.data| ==>
            r.data[i].timestamp == s.pointlist.value[i].timestamp
            && r.data[i].value == s.pointlist.value[i].value.GetOr(0.0))
  {
    var points := s.pointlist.GetOr([]);
    SeriesData(OrElse(s.metric, query), None,
               seq(|points|, i requires 0 <= i < |points| => DataPoint(points[i].timestamp, points[i].value.GetOr(0.0))))
  }

  function SeriesList(series: seq<VendorSeries>, query: string): (r: seq<SeriesData>)
    ensures |r| == |series| && forall i :: 0 <= i < |r| ==> r[i] == SeriesOf(series[i], query)
  {
    seq(|series|, i requires 0 <= i < |series| => SeriesOf(series[i], query))
  }

  /** No series, or only empty ones. */
  predicate NoPoints(series: seq<SeriesData>) {
    forall i :: 0 <= i < |series| ==> series[i].data == []
  }

  /** What `fetchTimeseriesData` returns: the vendor's series, with a
      sample series named after the query appended when they hold no point;
      on a failure, only the sample series. */
  function TimeseriesFor(vendor: Vendor, query: string, from: int, to: int, rand: nat -> Unit): (d: TimeseriesData)
    ensures d.loading == false && d.error.None? && d.series != []
    ensures var sent := vendor.queryMetrics(MetricRequest(query, from, to));
      var mapped := if sent.Ok? then SeriesList(sent.value.series.GetOr([]), query) else [];
      if sent.Ok? && !NoPoints(mapped) then d.series == mapped
      else (d.series[..|d.series| - 1] == mapped && d.series[|d.series| - 1].name == query
            && d.series[|d.series| - 1].data == SamplePoints(from * 1000, to * 1000, 20, rand))
  {
    var sample := SeriesData(query, None, SamplePoints(from * 1000, to * 1000, 20, rand));
    match vendor.queryMetrics(MetricRequest(query, from, to))
    case Ok(response) =>
      var series := SeriesList(response.series.GetOr([]), query);
      if NoPoints(series) then
        assert (series + [sample])[..|series|] == series;
        TimeseriesData(series + [sample], false, None)
      else TimeseriesData(series, false, None)
    case Err(_) => TimeseriesData([sample], false, None)
  }

  /** `fetchTimeseriesData`, which builds the sample with its loop. */
  method FetchTimeseries(vendor: Vendor, query: string, from: int, to: int, rand: nat -> Unit)
    returns (d: TimeseriesData)
    ensures d == TimeseriesFor(vendor, query, from, to, rand)
  {
    var sent := vendor.queryMetrics(MetricRequest(query, from, to));
    match sent
    case Ok(response) =>
      var series := SeriesList(response.series.GetOr([]), query);
      if |series| == 0 || NoPoints(series) {
        var sample := SampleTimeseries(from * 1000, to * 1000, 20, rand);
        series := series + [SeriesData(query, None, sample)];
      }
      d := TimeseriesData(series, false, None);
    case Err(_) =>
      var sample := SampleTimeseries(from * 1000, to * 1000, 20, rand);
      d := TimeseriesData([SeriesData(query, None, sample)], false, None);
  }

  // ---------------------------------------------------------------------
  // Metric

  /** The point list of the first series, or none. */
  function FirstPoints(response: MetricResponse): seq<VendorPoint> {
    match response.series
    case Some(series) => if series != [] then series[0].pointlist.GetOr([]) else []
    case None => []
  }

  /** `latestPoint?.[1] || 0`. */
  function Latest(points: seq<VendorPoint>): (v: real)
    ensures points == [] ==> v == 0.0
    ensures points != [] ==> v == points[|points| - 1].value.GetOr(0.0)
  {
    if points == [] then 0.0 else points[|points| - 1].value.GetOr(0.0)
  }

  /** The percent change from the previous point to the latest, or 0 when
      there is no previous point or it is 0 (or null). */
  function ChangePercent(points: seq<VendorPoint>): (c: real)
    ensures var prev := if |points| >= 2 then points[|points| - 2].value.GetOr(0.0) else 0.0;
      (prev != 0.0 ==> c == (Latest(points) - prev) / prev * 100.0) && (prev == 0.0 ==> c == 0.0)
  {
    if |points| > 1 then
      var prev := points[|points| - 2].value.GetOr(0.0);
      if prev != 0.0 then (Latest(points) - prev) / prev * 100.0 else 0.0
    else 0.0
  }

  function TrendOf(c: real): (t: Trend)
    ensures t == Up <==> c > 0.0
    ensures t == Down <==> c < 0.0
    ensures t == Stable <==> c == 0.0
  {
    if c > 0.0 then Up else if c < 0.0 then Down else Stable
  }

  /** The trend is up exactly when the value moved away from zero's side of
      a positive previous value upwards or of a negative one downwards,
      that is when `(v - prev) / prev` is positive. */
  lemma TrendFollowsValues(v: real, prev: real)
    requires prev != 0.0
    ensures TrendOf((v - prev) / prev * 100.0) == Up <==> (prev > 0.0 && v > prev) || (prev < 0.0 && v < prev)
    ensures TrendOf((v - prev) / prev * 100.0) == Down <==> (prev > 0.0 && v < prev) || (prev < 0.0 && v > prev)
    ensures TrendOf((v - prev) / prev * 100.0) == Stable <==> v == prev
  {
    var q := (v - prev) / prev;
    assert q * prev == v - prev;
    if prev > 0.0 {
      assert q > 0.0 <==> v > prev;
      assert q < 0.0 <==> v < prev;
    } else {
      assert q > 0.0 <==> v < prev;
      assert q < 0.0 <==> v > prev;
    }
  }

  /** JavaScript's truthiness of an optional threshold. */
  predicate Set(t: Option<real>) {
    t.Some? && t.value != 0.0
  }

  /** The status against the configured thresholds: critical when a
      critical threshold is set and reached, otherwise warning when a
      warning threshold is set and reached, otherwise ok. */
  function StatusFor(v: real, thresholds: Option<Thresholds>): (s: MetricStatus)
    ensures s == StatusCritical <==> thresholds.Some? && Set(thresholds.value.critical) && v >= thresholds.value.critical.value
    ensures s == StatusWarning <==> thresholds.Some? && !(Set(thresholds.value.critical) && v >= thresholds.value.critical.value)
                                    && Set(thresholds.value.warning) && v >= thresholds.value.warning.value
  {
    match thresholds
    case None => StatusOk
    case Some(t) =>
      if Set(t.critical) && v >= t.critical.value then StatusCritical
      else if Set(t.warning) && v >= t.warning.value then StatusWarning
      else StatusOk
  }

  function Rank(s: MetricStatus): nat {
    match s
    case StatusOk => 0
    case StatusWarning => 1
    case StatusCritical => 2
  }

  /** A larger value never has a milder status. */
  lemma StatusMonotone(v: real, w: real, thresholds: Option<Thresholds>)
    requires v <= w
    ensures Rank(StatusFor(v, thresholds)) <= Rank(StatusFor(w, thresholds))
  {
  }

  /** The status of a sample value: critical above 80, warning above 60. */
  function SampleStatus(v: real): (s: MetricStatus)
    ensures s == StatusCritical <==> v > 80.0
    ensures s == StatusWarning <==> 60.0 < v <= 80.0
    ensures s == StatusOk <==> v <= 60.0
  {
    if v > 80.0 then StatusCritical else if v > 60.0 then StatusWarning else StatusOk
  }

  /** A sample metric: a value in [0, 100), a change in [-10, 10), a stable
      trend and the status of the value. */
  function SampleMetric(rand: nat -> Unit): (d: MetricData)
    ensures 0.0 <= d.value < 100.0 && d.trend == Some(Stable)
    ensures d.changePercent.Some? && -10.0 <= d.changePercent.value < 10.0
    ensures d.status == Some(SampleStatus(d.value)) && d.error.None? && !d.loading
  {
    var v := rand(0) * 100.0;
    MetricData(v, None, Some(Stable), Some((rand(1) - 0.5) * 20.0), Some(SampleStatus(v)), false, None)
  }

  /** What `fetchMetricData` returns: the latest point of the first series
      with its change, trend and status; a sample when there is no point or
      the vendor fails. */
  function MetricFor(vendor: Vendor, query: string, thresholds: Option<Thresholds>, from: int, to: int,
                     rand: nat -> Unit): (d: MetricData)
    ensures var sent := vendor.queryMetrics(MetricRequest(query, from, to));
      if sent.Err? || FirstPoints(sent.value) == [] then d == SampleMetric(rand)
      else (var points := FirstPoints(sent.value);
        d.value == Latest(points) && d.unit.None? && !d.loading && d.error.None?
        && d.trend == Some(TrendOf(ChangePercent(points))) && d.changePercent == Some(ChangePercent(points))
        && d.status == Some(StatusFor(Latest(points), thresholds)))
  {
    var sent := vendor.queryMetrics(MetricRequest(query, from, to));
    if sent.Err? || FirstPoints(sent.value) == [] then SampleMetric(rand)
    else
      var points := FirstPoints(sent.value);
      MetricData(Latest(points), None, Some(TrendOf(ChangePercent(points))), Some(ChangePercent(points)),
                 Some(StatusFor(Latest(points), thresholds)), false, None)
  }

  /** `fetchMetricData`, which derives trend and status step by step. */
  method FetchMetric(vendor: Vendor, query: string, thresholds: Option<Thresholds>, from: int, to: int,
                     rand: nat -> Unit)
    returns (d: MetricData)
    ensures d == MetricFor(vendor, query, thresholds, from, to, rand)
  {
    var sent := vendor.queryMetrics(MetricRequest(query, from, to));
    if sent.Err? {
      return SampleMetric(rand);
    }
    var points := FirstPoints(sent.value);
    var value := Latest(points);
    if |points| == 0 {
      return SampleMetric(rand);
    }
    var trend := Stable;
    var changePercent := 0.0;
    if |points| > 1 {
      var previous := points[|points| - 2].value.GetOr(0.0);
      if previous != 0.0 {
        changePercent := (value - previous) / previous * 100.0;
        trend := if changePercent > 0.0 then Up else if changePercent < 0.0 then Down else Stable;
      }
    }
    var status := StatusOk;
    if thresholds.Some? {
      var t := thresholds.value;
      if Set(t.critical) && value >= t.critical.value {
        status := StatusCritical;
      } else if Set(t.warning) && value >= t.warning.value {
        status := StatusWarning;
      }
    }
    d := MetricData(value, None, Some(trend), Some(changePercent), Some(status), false, None);
  }

  // ---------------------------------------------------------------------
  // Logs

  function Attribute(attributes: JsonObject, key: string): string {
    if key in attributes then attributes[key] else ""
  }

  /** One log event as a log entry: level `status || 'info'`, message
      `message || JSON.stringify(attributes)`. */
  function EntryOf(log: VendorLog, millis: string -> int, stringify: JsonObject -> string): (e: LogEntry)
    ensures e.id == log.id && e.attributes == Some(log.attributes)
    ensures e.timestamp == millis(Attribute(log.attributes, "timestamp"))
    ensures e.level == OrElse(Attribute(log.attributes, "status"), "info") && e.level != ""
    ensures e.service == (if "service" in log.attributes then Some(log.attributes["service"]) else None)
    ensures e.message == OrElse(Attribute(log.attributes, "message"), stringify(log.attributes))
  {
    LogEntry(log.id, millis(Attribute(log.attributes, "timestamp")), OrElse(Attribute(log.attributes, "status"), "info"),
             if "service" in log.attributes then Some(log.attributes["service"]) else None,
             OrElse(Attribute(log.attributes, "message"), stringify(log.attributes)),
             Some(log.attributes))
  }

  /** The search the logs widget sends: the range texts as given, newest
      first, `limit || 50` events. */
  function LogsRequestFor(query: string, limit: Option<int>, range: RangeText): (q: LogsRequest)
    ensures q.from == range.from && q.to == range.to && q.sort == "-timestamp" && q.query == query
    ensures q.limit == (if limit.Some? && limit.value != 0 then limit.value else 50) && q.limit != 0
  {
    LogsRequest(query, range.from, range.to, "-timestamp", if limit.Some? && limit.value != 0 then limit.value else 50)
  }

  /** `fetchLogsData`: the vendor's events in order with the vendor's total;
      five sample entries with a total of 5 when it has none or fails. */
  function FetchLogs(vendor: Vendor, query: string, limit: Option<int>, range: RangeText, now: int,
                     rand: nat -> Unit, millis: string -> int, stringify: JsonObject -> string): (d: LogsData)
    ensures !d.loading && d.error.None? && d.entries != []
    ensures var sent := vendor.searchLogs(LogsRequestFor(query, limit, range));
      var events := if sent.Ok? then sent.value.data.GetOr([]) else [];
      if events == [] then d.entries == SampleLogs(5, now, rand) && d.totalCount == Some(5)
      else |d.entries| == |events| && d.totalCount == sent.value.totalCount
           && forall i :: 0 <= i < |events| ==> d.entries[i] == EntryOf(events[i], millis, stringify)
  {
    match vendor.searchLogs(LogsRequestFor(query, limit, range))
    case Err(_) => LogsData(SampleLogs(5, now, rand), Some(5), false, None)
    case Ok(response) =>
      var events := response.data.GetOr([]);
      var entries := seq(|events|, i requires 0 <= i < |events| => EntryOf(events[i], millis, stringify));
      if |entries| == 0 then LogsData(SampleLogs(5, now, rand), Some(5), false, None)
      else LogsData(entries, response.totalCount, false, None)
  }

  // ---------------------------------------------------------------------
  // Alert status

  /** The monitor states the widget knows; any other state has no data. */
  function StatusOf(state: string): (s: MonitorStatus)
    ensures s == MonitorOk <==> state == "OK"
    ensures s == MonitorAlert <==> state == "Alert"
    ensures s == MonitorWarn <==> state == "Warn"
    ensures s == MonitorNoData <==> state !in {"OK", "Alert", "Warn"}
  {
    match state
    case "OK" => MonitorOk
    case "Alert" => MonitorAlert
    case "Warn" => MonitorWarn
    case _ => MonitorNoData
  }

  const UnknownMonitor: string := "Unknown"

  const MonitorFailed: string := "Failed to fetch monitor status"

  /** `fetchAlertStatusData`: the monitor's state, name and message, with a
      trigger time exactly when it is not OK; on a failure no data, the
      name "Unknown" and an error, never a guessed state. */
  function FetchAlertStatus(vendor: Vendor, monitorId: int, now: int): (d: AlertStatusData)
    ensures !d.loading
    ensures vendor.monitor(monitorId).Err? ==>
      d == AlertStatusData(MonitorNoData, UnknownMonitor, None, None, false, Some(MonitorFailed))
    ensures vendor.monitor(monitorId).Ok? ==> var m := vendor.monitor(monitorId).value;
      d.status == StatusOf(m.overallState) && d.monitorName == m.name && d.message == Some(m.message)
      && d.error.None? && (d.lastTriggered.Some? <==> m.overallState != "OK")
      && (d.lastTriggered.Some? ==> d.lastTriggered.value == now)
  {
    match vendor.monitor(monitorId)
    case Err(_) => AlertStatusData(MonitorNoData, UnknownMonitor, None, None, false, Some(MonitorFailed))
    case Ok(m) =>
      AlertStatusData(StatusOf(m.overallState), m.name, if m.overallState != "OK" then Some(now) else None,
                      Some(m.message), false, None)
  }

  // ---------------------------------------------------------------------
  // Dispatch and the route

  const Unsupported: string := "Unsupported widget type"

  /** What `fetchDataForWidget` returns: the payload for the widget's type,
      a service map being refused. Metric and timeseries bounds are whole
      seconds, logs get the range texts unchanged and markdown needs no
      call. */
  function WidgetDataFor(vendor: Vendor, config: WidgetConfig, range: RangeText, now: int, rand: nat -> Unit,
                         millis: string -> int, stringify: JsonObject -> string): (r: Result<WidgetData, string>)
    ensures r.Err? <==> config.ServiceMapConfig?
    ensures r.Err? ==> r.error == Unsupported
    ensures r.Ok? ==> r.value.Kind() == config.Kind()
    ensures config.TimeseriesConfig? ==>
      r == Ok(TimeseriesPayload(TimeseriesFor(vendor, config.query, Seconds(millis(range.from)),
                                              Seconds(millis(range.to)), rand)))
    ensures config.MetricConfig? ==>
      r == Ok(MetricPayload(MetricFor(vendor, config.query, config.thresholds, Seconds(millis(range.from)),
                                      Seconds(millis(range.to)), rand)))
    ensures config.LogsConfig? ==>
      r == Ok(LogsPayload(FetchLogs(vendor, config.query, config.limit, range, now, rand, millis, stringify)))
    ensures config.AlertStatusConfig? ==> r == Ok(AlertStatusPayload(FetchAlertStatus(vendor, config.monitorId, now)))
    ensures config.MarkdownConfig? ==> r == Ok(MarkdownPayload(MarkdownData(config.content)))
  {
    var from, to := Seconds(millis(range.from)), Seconds(millis(range.to));
    match config
    case TimeseriesConfig(query, _, _, _, _) => Ok(TimeseriesPayload(TimeseriesFor(vendor, query, from, to, rand)))
    case MetricConfig(query, _, _, thresholds) => Ok(MetricPayload(MetricFor(vendor, query, thresholds, from, to, rand)))
    case LogsConfig(query, _, limit, _, _) => Ok(LogsPayload(FetchLogs(vendor, query, limit, range, now, rand, millis, stringify)))
    case AlertStatusConfig(monitorId, _) => Ok(AlertStatusPayload(FetchAlertStatus(vendor, monitorId, now)))
    case MarkdownConfig(content) => Ok(MarkdownPayload(MarkdownData(content)))
    case ServiceMapConfig(_, _, _) => Err(Unsupported)
  }

  /** `fetchDataForWidget`, calling the fetchers. */
  method FetchData(vendor: Vendor, config: WidgetConfig, range: RangeText, now: int, rand: nat -> Unit,
                   millis: string -> int, stringify: JsonObject -> string)
    returns (r: Result<WidgetData, string>)
    ensures r == WidgetDataFor(vendor, config, range, now, rand, millis, stringify)
  {
    var from := Seconds(millis(range.from));
    var to := Seconds(millis(range.to));
    match config
    case TimeseriesConfig(query, _, _, _, _) =>
      var d := FetchTimeseries(vendor, query, from, to, rand);
      r := Ok(TimeseriesPayload(d));
    case MetricConfig(query, _, _, thresholds) =>
      var d := FetchMetric(vendor, query, thresholds, from, to, rand);
      r := Ok(MetricPayload(d));
    case LogsConfig(query, _, limit, _, _) =>
      r := Ok(LogsPayload(FetchLogs(vendor, query, limit, range, now, rand, millis, stringify)));
    case AlertStatusConfig(monitorId, _) =>
      r := Ok(AlertStatusPayload(FetchAlertStatus(vendor, monitorId, now)));
    case MarkdownConfig(content) =>
      r := Ok(MarkdownPayload(MarkdownData(content)));
    case ServiceMapConfig(_, _, _) =>
      r := Err(Unsupported);
  }

  /** The request body; `None` fields are missing. */
  datatype DataRequest = DataRequest(widgetConfig: Option<WidgetConfig>, timeRange: Option<RangeText>)

  datatype DataResponse = Served(data: WidgetData) | Failed(status: int, error: string)

  const MissingInput: string := "Widget configuration and time range are required"

  const FetchFailed: string := "Failed to fetch widget data"

  /** `POST`: the configuration is read first, so missing credentials fail
      with 500 even before the request is checked; a body that is not JSON
      also fails with 500; a missing widget configuration or time range is
      a 400; an unsupported widget type is a 500. */
  method Post(env: AppConfig.Env, body: Option<DataRequest>, vendor: Vendor, now: int, rand: nat -> Unit,
              millis: string -> int, stringify: JsonObject -> string)
    returns (r: DataResponse)
    ensures AppConfig.GetConfig(env).Err? || body.None? ==> r == Failed(500, FetchFailed)
    ensures AppConfig.GetConfig(env).Ok? && body.Some? && (body.value.widgetConfig.None? || body.value.timeRange.None?)
            ==> r == Failed(400, MissingInput)
    ensures r.Failed? ==> r.status in {400, 500}
    ensures r.Failed? && r.status == 400 <==>
      AppConfig.GetConfig(env).Ok? && body.Some? && (body.value.widgetConfig.None? || body.value.timeRange.None?)
    ensures r.Served? ==> AppConfig.GetConfig(env).Ok? && body.Some? && body.value.widgetConfig.Some?
                          && !body.value.widgetConfig.value.ServiceMapConfig?
                          && r.data.Kind() == body.value.widgetConfig.value.Kind()
    ensures AppConfig.GetConfig(env).Ok? && body.Some? && body.value.widgetConfig.Some? && body.value.timeRange.Some?
            && !body.value.widgetConfig.value.ServiceMapConfig? ==>
      (var served := WidgetDataFor(vendor, body.value.widgetConfig.value, body.value.timeRange.value, now, rand,
                                   millis, stringify);
       served.Ok? && r == Served(served.value))
    ensures AppConfig.GetConfig(env).Ok? && body.Some? && body.value.widgetConfig.Some?
            && body.value.timeRange.Some? && body.value.widgetConfig.value.ServiceMapConfig?
            ==> r == Failed(500, FetchFailed)
  {
    if AppConfig.GetConfig(env).Err? || body.None? {
      return Failed(500, FetchFailed);
    }
    var request := body.value;
    if request.widgetConfig.None? || request.timeRange.None? {
      return Failed(400, MissingInput);
    }
    var data := FetchData(vendor, request.widgetConfig.value, request.timeRange.value, now, rand, millis, stringify);
    match data
    case Ok(d) => r := Served(d);
    case Err(_) => r := Failed(500, FetchFailed);
  }
}
