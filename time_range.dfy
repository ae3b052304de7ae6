/** The dashboard's time window: the token table of the design engine and
    its parallel display-label table. */
module TimeRangeTable {
  import opened Common
  import opened DashboardTypes

  const HourMs: int := 60 * 60 * 1000

  /** The tokens the tables know, shortest window first. */
  const Tokens: seq<string> := ["1h", "3h", "6h", "12h", "24h", "2d", "7d"]

  const RangeTable: map<string, int> := map[
    "1h" := 60 * 60 * 1000,
    "3h" := 3 * 60 * 60 * 1000,
    "6h" := 6 * 60 * 60 * 1000,
    "12h" := 12 * 60 * 60 * 1000,
    "24h" := 24 * 60 * 60 * 1000,
    "2d" := 2 * 24 * 60 * 60 * 1000,
    "7d" := 7 * 24 * 60 * 60 * 1000]

  const DisplayTable: map<string, string> := map[
    "1h" := "Last 1 hour",
    "3h" := "Last 3 hours",
    "6h" := "Last 6 hours",
    "12h" := "Last 12 hours",
    "24h" := "Last 24 hours",
    "2d" := "Last 2 days",
    "7d" := "Last 7 days"]

  /** `timeRangeMap[token] || 60 * 60 * 1000`, over the table's own keys:
      names inherited from `Object.prototype` are not modelled. */
  function RangeMs(token: string): (ms: int)
    ensures ms > 0
    ensures token in Tokens ==> ms == RangeTable[token]
    ensures token !in Tokens ==> ms == HourMs
  {
    if token in RangeTable && RangeTable[token] != 0 then RangeTable[token] else HourMs
  }

  /** `displays[range] || 'Last 1 hour'`, over the table's own keys. */
  function TimeRangeDisplay(token: string): (shown: string)
    ensures token in Tokens ==> shown == DisplayTable[token]
    ensures token !in Tokens ==> shown == "Last 1 hour"
  {
    if token in DisplayTable && DisplayTable[token] != "" then DisplayTable[token] else "Last 1 hour"
  }

  /** The window a design asks for, ending at `now`. The label is looked up
      with `design.time_range || '1h'`. */
  function ResolveTimeRange(token: string, now: int): (r: TimeRange)
    ensures r.to == now && r.to - r.from == RangeMs(token)
    ensures r.display == TimeRangeDisplay(token)
  {
    TimeRange(now - RangeMs(token), now, TimeRangeDisplay(OrElse(token, "1h")))
  }

  /** Both tables are keyed by exactly the seven tokens. */
  lemma TablesShareTokens()
    ensures RangeTable.Keys == DisplayTable.Keys == set t | t in Tokens
  {
  }

  /** Any token outside the tables behaves exactly like "1h". */
  lemma UnknownTokenIsOneHour(token: string)
    requires token !in Tokens
    ensures RangeMs(token) == RangeMs("1h")
    ensures TimeRangeDisplay(token) == TimeRangeDisplay("1h")
  {
  }

  /** The windows grow strictly along the token order, and no two tokens share
      a label: the two tables describe the same seven distinct windows. */
  lemma TablesAgree(i: nat, j: nat)
    requires i < j < |Tokens|
    ensures RangeMs(Tokens[i]) < RangeMs(Tokens[j])
    ensures TimeRangeDisplay(Tokens[i]) != TimeRangeDisplay(Tokens[j])
  {
  }
}
