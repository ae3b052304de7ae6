# llama-time dashboard core, modelled in Dafny

llama-time is an AI investigation dashboard. When a Datadog monitor fires,
an LLM designs a dashboard for that monitor. If the LLM's reply cannot be
used, the program falls back to a built-in design. The design is then turned
into a grid of widgets with an "Investigation Guide" text, and each widget
loads its data through an HTTP endpoint. That endpoint reshapes the vendor's
answer and substitutes sample data when the vendor has nothing or fails.

This project models that core:

- the investigation, design and layout engine (`src/lib/ai-operator.ts`);
- the widget data endpoint (`src/app/api/dashboard/data/route.ts`);
- the client hook that loads widget data (`src/hooks/useWidgetData.ts`);
- the timeseries widget's row merge and rendering choices
  (`src/components/widgets/TimeseriesWidget.tsx`);
- the Markdown widget's regular-expression renderer
  (`src/components/widgets/MarkdownWidget.tsx`);
- the chat endpoint (`src/app/api/chat/route.ts`);
- configuration loading (`src/lib/config.ts`).

Everything outside the program is turned into a parameter:

- **Vendor and LLM calls:** each call is a parameter that returns either the
  decoded reply or what it threw (`Failure`: an `Error` with its message,
  or any other thrown value).
- **Clock:** `now`, `createdAt`.
- **Identifiers:** `uuid: nat -> string`, the k-th identifier drawn.
- **Randomness:** `rand: nat -> Unit`, the k-th `Math.random()` value.
- **Parsing and formatting:** `JSON.parse` is `parse`,
  `new Date(text).getTime()` is `millis`, `JSON.stringify` of log attributes
  is `stringify`, and `toISOString` is `toIso`.

JavaScript truthiness is kept where the code depends on it. An optional
string that is only ever tested with `||` or `if` is a `string`, and its
empty value stands for "absent". An optional number tested that way is an
`int`, and 0 stands for "absent". Where the code tells `undefined` apart
from a value, the field is an `Option`.

Code that accumulates or mutates state is modelled imperatively:

- **Methods with loops and invariants,** each proved equal to a function
  about which the lemmas speak:
  - `FormatInvestigationNotes` (the `+=` chain);
  - `PlaceDesigns` (the placement `forEach`);
  - `SampleTimeseries` (the random walk);
  - `MergeSeries`/`VisitSeries` (the nested `forEach` over a `Map`);
  - `TransformData`;
  - `BuildContent` (the content `push`es).
- **A class:** the React state of `useWidgetData` is the class
  `WidgetDataState`, whose `Load` method changes `data`, `loading` and
  `error` step by step.

The sample data is simple:

- The sample timeseries is a plain random walk that starts in [50, 70). It
  does not depend on the metric.
- There are exactly five sample logs.
- The sample metric's trend is always `stable`.

## Model

| member | source | states |
|---|---|---|
| Common.Message | src/lib/ai-operator.ts:45 | a thrown `Error` reports its message, any other thrown value "Unknown error" |
| Common.OrElse | src/lib/ai-operator.ts:35 | `a \|\| b` on texts: `a` unless it is empty, then `b` |
| ServiceExtraction.FindServiceTag | src/lib/ai-operator.ts:520 | the index of the first tag starting with `service:`, none exactly when no tag does |
| ServiceExtraction.UpToColon | src/lib/ai-operator.ts:522 | `split(':')[1]` of the tag's rest: a colon-free prefix ending at the first colon or the end |
| ServiceExtraction.ServiceRun | src/lib/ai-operator.ts:526 | the greedy `[a-zA-Z0-9_-]+` run: only service characters, stopping at the first other one |
| ServiceExtraction.FirstMatch | src/lib/ai-operator.ts:526 | the leftmost position where `service:` followed by a service character occurs, none exactly when there is no such position |
| ServiceExtraction.ExtractServiceFromMonitor | src/lib/ai-operator.ts:518-532 | a service tag wins over the query; otherwise the capture of the leftmost query match; none when neither exists |
| ServiceExtraction.ServiceName | src/lib/ai-operator.ts:324 | the extracted name, or "" exactly when there is none or it is empty |
| ServiceExtraction.UpToColonWhole | src/lib/ai-operator.ts:522 | a tag rest without a colon is returned whole |
| ServiceExtraction.ServiceRunStops | src/lib/ai-operator.ts:526 | the run is exactly the prefix up to the first non-service character |
| ServiceExtraction.TagExample | src/lib/ai-operator.ts:520-523 | `service:checkout` among the tags yields "checkout" |
| ServiceExtraction.QueryExample | src/lib/ai-operator.ts:526-529 | a query `avg:latency{service:billing}` without a service tag yields "billing" |
| ServiceExtraction.EmptyServiceTagHidesQuery | src/lib/ai-operator.ts:520-529 | a bare `service:` tag yields the empty name, so the service in the query is never looked at |
| WidgetFactory.LowerAscii | src/lib/ai-operator.ts:300 | lower-casing keeps the length and lowers each ASCII letter |
| WidgetFactory.GetLineType | src/lib/ai-operator.ts:299-308 | area exactly for "area" in any case, bar exactly for "bar", line otherwise |
| WidgetFactory.ConfigFor | src/lib/ai-operator.ts:234-292 | the configuration's type is the design's and its data source is Datadog; its query, aggregation, limit, line type and content take the design's value or the per-type default; the y-axis label and thresholds are the design's; legend, timestamps and services are shown |
| WidgetFactory.CreateWidgetFromDesign | src/lib/ai-operator.ts:201-297 | a widget exactly for the four producing types, consistent and placed at (x, y); the width is clipped to the grid and the defaults apply to a missing size or title |
| WidgetFactory.DesignedAlertStatusIsDropped | src/lib/ai-operator.ts:225-295 | a designed `alert_status` widget is sized but yields no widget |
| TimeRangeTable.RangeMs | src/lib/ai-operator.ts:123-133 | the table's window for one of the seven tokens, one hour for any other own-key miss; always positive |
| TimeRangeTable.TimeRangeDisplay | src/lib/ai-operator.ts:310-321 | the table's label for one of the seven tokens, "Last 1 hour" for any other own-key miss |
| TimeRangeTable.ResolveTimeRange | src/lib/ai-operator.ts:133-140 | the window ends at `now` and spans the token's range, with the token's label |
| TimeRangeTable.TablesShareTokens | src/lib/ai-operator.ts:123-319 | both tables have exactly the seven tokens as keys |
| TimeRangeTable.UnknownTokenIsOneHour | src/lib/ai-operator.ts:133-320 | a token that is not one of the seven (and not an inherited object property) behaves exactly like "1h" in both tables |
| TimeRangeTable.TablesAgree | src/lib/ai-operator.ts:123-319 | windows grow strictly along the token order and no two tokens share a label |
| DashboardComposer.Produced | src/lib/ai-operator.ts:170-173 | the producing designs, in order, no more than there are designs |
| DashboardComposer.Placement | src/lib/ai-operator.ts:165-183 | the cursor after the designs: no more widgets than designs, and never in row 1 |
| DashboardComposer.PlaceDesigns | src/lib/ai-operator.ts:165-183 | the placement loop ends in the cursor and widget list of the placement function |
| DashboardComposer.LowestEdge | src/lib/ai-operator.ts:186 | at least 3, at least every widget's bottom edge, and equal to 3 or to one of them |
| DashboardComposer.ComposedDashboard | src/lib/ai-operator.ts:142-198 | the dashboard's id, title, monitor, creation time and window; the status widget first, then the placed widgets, then a guide holding the notes |
| DashboardComposer.AssembleDashboard | src/lib/ai-operator.ts:121-199 | the dashboard equals the composed dashboard for the resolved window and the given guide |
| DashboardComposer.ComposeDashboard | src/lib/ai-operator.ts:121-199 | `createDashboardFromAIDesign` equals the composed dashboard whose guide is the investigation notes |
| DashboardComposer.PlacementKeepsOrder | src/lib/ai-operator.ts:169-174 | the placed widgets are the producing designs in order, each with its own design's type, configuration and title |
| DashboardComposer.PlacementIds | src/lib/ai-operator.ts:170-173 | every placed widget carries one of the identifiers drawn for the designs, numbers 2 to the number of designs plus 1 |
| DashboardComposer.PlacementIdsDistinct | src/lib/ai-operator.ts:170-173 | when identifiers never repeat, no two placed widgets share one, and none carries an identifier drawn before or after the designs |
| DashboardComposer.DashboardIdsDistinct | src/lib/ai-operator.ts:142-190 | when identifiers never repeat, no two widgets of the dashboard share an identifier and none carries the dashboard's own |
| DashboardComposer.PlacementFitsColumns | src/lib/ai-operator.ts:171-231 | every placed widget is consistent and ends within the twelve columns |
| DashboardComposer.PlacementInGrid | src/lib/ai-operator.ts:176-180 | with non-negative declared widths the cursor stays in the row and the widgets start inside the grid |
| DashboardComposer.PlacementPacksRows | src/lib/ai-operator.ts:166-180 | the first widget sits at (3, 0) and each next one to the right of the previous or at the start of a lower row |
| DashboardComposer.RowsGoDown | src/lib/ai-operator.ts:179 | rows only go down and no designed widget lands in row 1 |
| DashboardComposer.DashboardOpensWithStatus | src/lib/ai-operator.ts:142-163 | the dashboard opens with the 3×2 status widget of the monitor, and its title, description and monitor id come from the monitor and design |
| DashboardComposer.GuideBelowAll | src/lib/ai-operator.ts:186-196 | the last widget is the full-width, three-row guide below every other widget |
| DashboardComposer.AroundFits | src/lib/ai-operator.ts:153-196 | well-formed status and placed widgets give a list in which every widget fits the grid |
| DashboardComposer.DashboardClosesWithGuide | src/lib/ai-operator.ts:185-196 | the dashboard closes with the guide holding the notes, below all other widgets |
| DashboardComposer.EmptyDesignGivesTwoWidgets | src/lib/ai-operator.ts:169-186 | a design without widgets gives the status widget and the guide at row 3 |
| DashboardComposer.DashboardWidgetsFit | src/lib/ai-operator.ts:153-196 | every widget of the dashboard is consistent and ends within the grid |
| InvestigationNotes.AppendRecapLines | src/lib/ai-operator.ts:385-389 | the loop appends exactly the recap paragraphs of the reasoned widgets |
| InvestigationNotes.FormatInvestigationNotes | src/lib/ai-operator.ts:323-412 | the `+=` chain builds exactly the notes text |
| InvestigationNotes.Notes | src/lib/ai-operator.ts:323-412 | the notes quote the query, and name the service when one was found |
| InvestigationNotes.RecapEmptyIffNoReasoning | src/lib/ai-operator.ts:385-389 | the recap is empty exactly when no widget has a reasoning |
| InvestigationNotes.RecapQuotesReasoning | src/lib/ai-operator.ts:386-388 | each reasoned widget's title and reasoning appear in the recap |
| InvestigationNotes.EndingTellsLinks | src/lib/ai-operator.ts:401-409 | the text ends with the last action item exactly when no links follow it |
| InvestigationNotes.QuickLinksShape | src/lib/ai-operator.ts:404-409 | quick links exist exactly when there is a service, and they close the text |
| InvestigationNotes.GuideEndingTellsService | src/lib/ai-operator.ts:398-411 | the guide ends with the final action exactly when no service was found |
| InvestigationNotes.GuideProposesScaling | src/lib/ai-operator.ts:393-401 | with a service, the guide asks to consider scaling it; without one, the final item directly follows the common action items |
| InvestigationNotes.IntroKept | src/lib/ai-operator.ts:326-342 | whatever the overview shows is still in the finished guide |
| InvestigationNotes.GuideQuotesMonitor | src/lib/ai-operator.ts:342-347 | the guide quotes the query, and the alert message when there is one |
| InvestigationNotes.GuideNamesService | src/lib/ai-operator.ts:339-341 | with a service, the overview names it |
| DesignEngine.FallbackShape | src/lib/ai-operator.ts:414-485 | the fallback watches one hour, opens with the monitor's own query in a 9×3 chart, and has five widgets with a service and three without |
| DesignEngine.FallbackFor | src/lib/ai-operator.ts:414-485 | one hour; the monitored metric first, then the four service widgets or the two system widgets |
| DesignEngine.FallbackDesign | src/lib/ai-operator.ts:414-485 | `getDefaultDashboardDesign` opens with the monitor's query and has five widgets exactly when a service name was found, otherwise three |
| DesignEngine.FallbackAllProduce | src/lib/ai-operator.ts:420-481 | every fallback widget is of a producing type |
| DesignEngine.ProducedAll | src/lib/ai-operator.ts:170-173 | a list of producing designs is kept whole |
| DesignEngine.ServiceWidgetsQueryService | src/lib/ai-operator.ts:429-462 | each of the four service widgets' queries names the service |
| DesignEngine.FallbackQueriesService | src/lib/ai-operator.ts:429-462 | with a service, every widget after the first queries that service |
| DesignEngine.IndexOf | src/lib/ai-operator.ts:107 | the first position of a character, none when it does not occur |
| DesignEngine.LastIndexOf | src/lib/ai-operator.ts:107 | the last position of a character, none when it does not occur |
| DesignEngine.BraceSpan | src/lib/ai-operator.ts:107 | a span exactly when a `{` precedes a `}`; it runs from the first `{` to the last `}` |
| DesignEngine.DesignFor | src/lib/ai-operator.ts:98-118 | a failed call gives the fallback; a completion that parses is used; any other design comes from the completion or its brace span |
| DesignEngine.ParsedReplyWins | src/lib/ai-operator.ts:100-104 | a completion that parses is used as it is, and an empty one is read as `{}` |
| DesignEngine.FallbackExactlyWhenUnparsable | src/lib/ai-operator.ts:98-118 | the fallback is used exactly when the call fails, or the text and its brace span both fail to parse |
| DesignEngine.RecoveredFromBraces | src/lib/ai-operator.ts:106-110 | a design recovered after a parse failure comes from a span opening with `{` and closing with `}` |
| DesignEngine.Report | src/lib/ai-operator.ts:32-40 | a successful investigation returns the design's summary or a placeholder, and the composed dashboard |
| DesignEngine.Investigate | src/lib/ai-operator.ts:19-48 | a failed monitor request gives no dashboard and its failure message; otherwise the dashboard of the chosen design |
| MarkdownWidget.Content | src/components/widgets/MarkdownWidget.tsx:12 | the data's content, else the configured content, else the placeholder; never empty |
| MarkdownWidget.FirstBreak | src/components/widgets/MarkdownWidget.tsx:56-58 | the first line terminator, with one line before it |
| MarkdownWidget.FirstBreakAfterLine | src/components/widgets/MarkdownWidget.tsx:56-58 | after a line and a terminator, the first break is at that terminator |
| MarkdownWidget.LeadingDigits | src/components/widgets/MarkdownWidget.tsx:76 | the length of the leading `\d` run |
| MarkdownWidget.ApplyRuleKeepsLine | src/components/widgets/MarkdownWidget.tsx:56-76 | a line rule that writes no terminator keeps a line one line |
| MarkdownWidget.EachLineAfterAll | src/components/widgets/MarkdownWidget.tsx:56-58 | running one more line rule over the rewritten text is one pass with the rule added |
| MarkdownWidget.EachLineIsAll | src/components/widgets/MarkdownWidget.tsx:56 | one line rule pass is the one-rule case of the multi-rule pass |
| MarkdownWidget.BacktickSpan | src/components/widgets/MarkdownWidget.tsx:61-64 | a match opens and closes with the delimiter around a non-empty run without a backtick |
| MarkdownWidget.BacktickSpanIsOnly | src/components/widgets/MarkdownWidget.tsx:61-64 | a backtick-free run closed by the delimiter is the match |
| MarkdownWidget.LazySpan | src/components/widgets/MarkdownWidget.tsx:67-70 | the lazy match ends at the first delimiter after at least one character on the same line; none when there is none |
| MarkdownWidget.EmphasisLeavesPlain | src/components/widgets/MarkdownWidget.tsx:67-70 | text without `*` passes the bold and italic rules unchanged |
| MarkdownWidget.EmphasisWraps | src/components/widgets/MarkdownWidget.tsx:67-70 | a one-line run without `*` between delimiters is wrapped in the tags |
| MarkdownWidget.NewlinesGone | src/components/widgets/MarkdownWidget.tsx:82 | replacing every `\n` by a text without one leaves no `\n` |
| MarkdownWidget.ReplaceAllLeavesPlain | src/components/widgets/MarkdownWidget.tsx:79-82 | a text without the pattern's first character is unchanged |
| MarkdownWidget.ReplaceAllSplits | src/components/widgets/MarkdownWidget.tsx:79-82 | the first occurrence is replaced and the scan resumes after it |
| MarkdownWidget.BreaksBetweenLines | src/components/widgets/MarkdownWidget.tsx:79-82 | between two lines one `\n` becomes `<br/>` and two become a paragraph break |
| MarkdownWidget.ReplaceAllSingle | src/components/widgets/MarkdownWidget.tsx:79 | a single `\n` is left to the line-break rule |
| MarkdownWidget.LeadParagraph | src/components/widgets/MarkdownWidget.tsx:85 | a paragraph is opened unless the text starts with `<` followed by `h`, `H` or a digit 1-6 |
| MarkdownWidget.HeadingsPerLine | src/components/widgets/MarkdownWidget.tsx:56-58 | the three heading rules rewrite each line once, by the first prefix that matches |
| MarkdownWidget.RenderFrame | src/components/widgets/MarkdownWidget.tsx:84-88 | the output always closes a paragraph, and opens one exactly when the body does not start with a heading |
| MarkdownWidget.RenderHasNoNewline | src/components/widgets/MarkdownWidget.tsx:79-82 | no `\n` survives the chain |
| MarkdownWidget.Tag | src/components/widgets/MarkdownWidget.tsx:56-79 | every tag the chain writes starts with `<` |
| MarkdownWidget.RenderedHeadings | src/components/widgets/MarkdownWidget.tsx:56-58 | the widget's heading tags rewrite each line once |
| MarkdownWidget.RenderMarkdown | src/components/widgets/MarkdownWidget.tsx:53-89 | `renderMarkdown`'s output ends with `</p>`, has no newline, and opens a paragraph exactly when the body does not start with a heading |
| MarkdownWidget.BoldBeforeItalic | src/components/widgets/MarkdownWidget.tsx:67-70 | a `**…**` span becomes bold and the italic rule then leaves it alone |
| MarkdownWidget.RenderedBold | src/components/widgets/MarkdownWidget.tsx:67-70 | the widget's own bold tag survives the italic rule |
| AppConfig.TrimStart | src/lib/config.ts:11 | a suffix that starts with no white space, after only white space |
| AppConfig.TrimEnd | src/lib/config.ts:11 | a prefix that ends with no white space, before only white space |
| AppConfig.TrimEmptyIffBlank | src/lib/config.ts:11 | a value trims to nothing exactly when it is white space only |
| AppConfig.ValidateEnv | src/lib/config.ts:10-15 | a missing or blank value fails with the message naming the key; any other value is returned untrimmed |
| AppConfig.GetConfig | src/lib/config.ts:17-30 | success exactly when both keys are set; the API key is reported first; the site defaults when unset or empty |
| ChatRoute.ImageUrl | src/app/api/chat/route.ts:30 | the data URL ends with the image text |
| ChatRoute.BuildContent | src/app/api/chat/route.ts:17-33 | a text part exactly when there is a message, first; an image part last when there is an image |
| ChatRoute.Answer | src/app/api/chat/route.ts:60-65 | the completion text or the placeholder, the metrics or none, and the id |
| ChatRoute.Chat | src/app/api/chat/route.ts:4-74 | 400 exactly for a request without message and image; a throw gives 500; an upstream refusal keeps its status and details; otherwise the answer |
| WidgetDataRoute.Clamp | src/app/api/dashboard/data/route.ts:301 | the value kept within [0, 100] |
| WidgetDataRoute.Walk | src/app/api/dashboard/data/route.ts:296-301 | the walk stays within [0, 100] and starts in [50, 70) |
| WidgetDataRoute.WalkStep | src/app/api/dashboard/data/route.ts:300-301 | one step changes the value by at most 5 |
| WidgetDataRoute.SamplePoints | src/app/api/dashboard/data/route.ts:293-306 | `points` points whose values are the walk's, all within [0, 100] |
| WidgetDataRoute.SampleTimeseries | src/app/api/dashboard/data/route.ts:293-306 | the loop yields the sample points |
| WidgetDataRoute.SampleTimesInRange | src/app/api/dashboard/data/route.ts:295-299 | over a non-empty range the timestamps increase strictly and stay in [from, to) |
| WidgetDataRoute.Pick | src/app/api/dashboard/data/route.ts:321-323 | `Math.floor(random * n)` is an index below n |
| WidgetDataRoute.SampleLog | src/app/api/dashboard/data/route.ts:318-328 | entry `i` is `log-i`, `i` minutes before now, from the sample service, with a listed level and message |
| WidgetDataRoute.SampleLogs | src/app/api/dashboard/data/route.ts:308-329 | `count` entries, entry `i` being sample log `i` |
| WidgetDataRoute.SampleLogsOrdered | src/app/api/dashboard/data/route.ts:319-320 | sample logs are newest first and have distinct ids |
| WidgetDataRoute.NatToStringInjective | src/app/api/dashboard/data/route.ts:319 | distinct indices print differently |
| WidgetDataRoute.Seconds | src/app/api/dashboard/data/route.ts:50-51 | `Math.floor(ms / 1000)`: the whole seconds at or below the instant |
| WidgetDataRoute.SeriesOf | src/app/api/dashboard/data/route.ts:90-96 | the series is named by its metric or the query, and each point keeps its timestamp with a null value read as 0 |
| WidgetDataRoute.SeriesList | src/app/api/dashboard/data/route.ts:90-96 | one series per vendor series, in order |
| WidgetDataRoute.TimeseriesFor | src/app/api/dashboard/data/route.ts:74-122 | the vendor's series; a 20-point sample named after the query is appended when they hold no point, and is all that is returned on a failure |
| WidgetDataRoute.FetchTimeseries | src/app/api/dashboard/data/route.ts:74-122 | the method, whose sample comes from the walk loop, returns exactly `TimeseriesFor` |
| WidgetDataRoute.Latest | src/app/api/dashboard/data/route.ts:142-143 | the last point's value, a null or missing one being 0 |
| WidgetDataRoute.ChangePercent | src/app/api/dashboard/data/route.ts:159-168 | the percent change from the previous point, 0 when there is none or it is 0 |
| WidgetDataRoute.TrendOf | src/app/api/dashboard/data/route.ts:166 | up, down or stable exactly by the change's sign |
| WidgetDataRoute.TrendFollowsValues | src/app/api/dashboard/data/route.ts:165-166 | up exactly when the value moved up from a positive previous value or down from a negative one; stable exactly when it did not change |
| WidgetDataRoute.StatusFor | src/app/api/dashboard/data/route.ts:171-178 | critical exactly when a set critical threshold is reached; otherwise warning exactly when a set warning threshold is reached |
| WidgetDataRoute.StatusMonotone | src/app/api/dashboard/data/route.ts:171-178 | a larger value never has a milder status |
| WidgetDataRoute.SampleStatus | src/app/api/dashboard/data/route.ts:153 | critical above 80, warning above 60, ok otherwise |
| WidgetDataRoute.SampleMetric | src/app/api/dashboard/data/route.ts:147-154 | a value in [0, 100), a change in [-10, 10), a stable trend and the value's status |
| WidgetDataRoute.MetricFor | src/app/api/dashboard/data/route.ts:124-199 | a sample when the call fails or the first series has no point; otherwise the latest value with its change, trend and status |
| WidgetDataRoute.FetchMetric | src/app/api/dashboard/data/route.ts:124-199 | the method, which derives trend and status step by step, returns exactly `MetricFor` |
| WidgetDataRoute.EntryOf | src/app/api/dashboard/data/route.ts:225-232 | a log entry keeps the id and attributes; its level is the status or "info", never empty; its message is the message or the serialised attributes |
| WidgetDataRoute.LogsRequestFor | src/app/api/dashboard/data/route.ts:207-217 | the search uses the range texts unchanged, newest first, with the configured limit or 50 |
| WidgetDataRoute.FetchLogs | src/app/api/dashboard/data/route.ts:201-258 | the vendor's events in order with its total; five sample entries with a total of 5 when there are none or the call fails |
| WidgetDataRoute.StatusOf | src/app/api/dashboard/data/route.ts:268-277 | OK, Alert and Warn map to their statuses and every other state to no data |
| WidgetDataRoute.FetchAlertStatus | src/app/api/dashboard/data/route.ts:260-290 | the monitor's status, name and message, triggered at now exactly when not OK; on a failure no data, "Unknown" and an error |
| WidgetDataRoute.WidgetDataFor | src/app/api/dashboard/data/route.ts:45-72 | per type: timeseries and metric data fetched over the bounds in whole seconds, logs over the range texts, the alert status, or the markdown content; an error exactly for a service map |
| WidgetDataRoute.FetchData | src/app/api/dashboard/data/route.ts:45-72 | the dispatch returns exactly `WidgetDataFor` |
| WidgetDataRoute.Post | src/app/api/dashboard/data/route.ts:20-43 | 400 exactly for a missing configuration or range once the credentials are set; a missing credential, a body that is not JSON or a service map gives 500; otherwise the served payload is `WidgetDataFor` of the request |
| WidgetDataHook.ErrorDataFor | src/hooks/useWidgetData.ts:61-74 | each data-backed type gets an empty payload of its own type with "Failed to fetch data"; any other type gets markdown "Error loading widget" |
| WidgetDataHook.RequestFor | src/hooks/useWidgetData.ts:28-34 | the posted body carries the configuration and the range as ISO texts |
| WidgetDataHook.Outcome | src/hooks/useWidgetData.ts:22-49 | a payload exactly when the reply is ok and its body is read; a non-ok reply fails with "Failed to fetch widget data" |
| WidgetDataHook.FailureKeepsKind | src/hooks/useWidgetData.ts:14-48 | a widget that fetches always gets error data of its own type |
| WidgetDataHook.WidgetDataState.constructor | src/hooks/useWidgetData.ts:7-9 | the state starts from the widget's cached data, loading, with no error |
| WidgetDataHook.WidgetDataState.Load | src/hooks/useWidgetData.ts:11-56 | markdown and service maps only stop loading; otherwise the delivered data, or the failure's message with the type's error data; loading always ends |
| TimeseriesWidget.SamplesOf | src/components/widgets/TimeseriesWidget.tsx:163-169 | one sample per point of the series, tagged with its name |
| TimeseriesWidget.MergeKeys | src/components/widgets/TimeseriesWidget.tsx:162-171 | one row per distinct timestamp, and the key order lists each once |
| TimeseriesWidget.KeysInOrder | src/components/widgets/TimeseriesWidget.tsx:165-167 | the `Map`'s keys are the times its insertion order lists |
| TimeseriesWidget.MergeHasField | src/components/widgets/TimeseriesWidget.tsx:168-169 | every point's series has a field in the row of its timestamp |
| TimeseriesWidget.LastWriteWins | src/components/widgets/TimeseriesWidget.tsx:169 | the last point written to a row's field is the value it keeps |
| TimeseriesWidget.TimeFieldKept | src/components/widgets/TimeseriesWidget.tsx:166-169 | a row's `time` is its timestamp unless a series named `time` wrote to it |
| TimeseriesWidget.TimeFieldOverwritten | src/components/widgets/TimeseriesWidget.tsx:169 | a series named `time` overwrites the row's timestamp |
| TimeseriesWidget.Insert | src/components/widgets/TimeseriesWidget.tsx:174 | inserting adds exactly the one element |
| TimeseriesWidget.InsertSorted | src/components/widgets/TimeseriesWidget.tsx:174 | inserting into a sorted list keeps it sorted |
| TimeseriesWidget.SortBy | src/components/widgets/TimeseriesWidget.tsx:174 | the sort is a permutation |
| TimeseriesWidget.SortBySorted | src/components/widgets/TimeseriesWidget.tsx:174 | the sort's result is sorted |
| TimeseriesWidget.SortByTime | src/components/widgets/TimeseriesWidget.tsx:174 | the rows sorted ascending by `time`, a permutation of the input |
| TimeseriesWidget.RowsOf | src/components/widgets/TimeseriesWidget.tsx:174 | `Array.from(map.values())`: the rows in key insertion order |
| TimeseriesWidget.VisitSeries | src/components/widgets/TimeseriesWidget.tsx:163-170 | the inner loop leaves the `Map` of the samples visited so far and this series' samples |
| TimeseriesWidget.MergeSeries | src/components/widgets/TimeseriesWidget.tsx:160-171 | the nested loops leave the `Map` of all samples and its key order |
| TimeseriesWidget.TransformData | src/components/widgets/TimeseriesWidget.tsx:158-175 | `transformData` returns exactly the chart rows |
| TimeseriesWidget.ChartRowsShape | src/components/widgets/TimeseriesWidget.tsx:158-175 | the rows are sorted by time, one per distinct timestamp, and each point's row is among them with the series' field |
| TimeseriesWidget.DefaultColor | src/components/widgets/TimeseriesWidget.tsx:199-211 | a palette colour |
| TimeseriesWidget.ColorPeriod | src/components/widgets/TimeseriesWidget.tsx:210 | two indices get the same colour exactly when they agree modulo 8 |
| TimeseriesWidget.ChartFor | src/components/widgets/TimeseriesWidget.tsx:177-186 | an area chart exactly for area, a bar chart exactly for bar, a line chart otherwise |
| TimeseriesWidget.MarkFor | src/components/widgets/TimeseriesWidget.tsx:188-197 | area marks exactly for area, bars exactly for bar, lines otherwise |
| TimeseriesWidget.ChartMatchesMark | src/components/widgets/TimeseriesWidget.tsx:62-63 | the chart and its marks are always of the same family |
| TimeseriesWidget.SeriesColor | src/components/widgets/TimeseriesWidget.tsx:143-144 | the series' own colour when it has one, else the palette's for its index |
| TimeseriesWidget.Render | src/components/widgets/TimeseriesWidget.tsx:18-156 | a spinner exactly while loading, then a failure exactly on an error, then "no data" exactly without series; otherwise the chart with its rows, legend, icon, fill and colours |

## Left out

- TimeRangeTable.RangeMs: it does not model the lookup of inherited object
  keys. For example, `timeRangeMap["constructor"]` is a truthy function in
  JavaScript, so such a token gives an invalid start date, not one hour.
- TimeRangeTable.TimeRangeDisplay: it does not model the lookup of
  inherited object keys either; `displays["constructor"]` returns a function,
  not "Last 1 hour".
- TimeRangeTable.UnknownTokenIsOneHour: it holds only for tokens that are
  not inherited object properties, as the two lines above say.
- WidgetDataRoute.SampleLog: one `now` stands for every entry. The code
  reads `Date.now()` once per entry, so later entries may be a few
  milliseconds newer than "exactly `i` minutes before now".
- DesignEngine.DesignFor: a completion that parses to a value that is not
  an object, such as `null`, is not modelled. The code throws when it reads
  `design.time_range`, and the investigation fails through its catch. Here
  `parse` returns either a design or nothing.

- Network, logging and HTTP plumbing are not modelled. The Datadog client,
  `fetch`, `console` output, `NextResponse` and `request.json()` are
  replaced by parameters or by an `Option` body, where `None` means the body
  is not JSON.
- The LLM prompt texts and `callLlamaAPI`'s request are not modelled. The
  call is its outcome `reply`, so the prompt's wording, the temperature and
  the token limit do not appear.
- The `AIOperator` constructor is not modelled. It reads the configuration
  and `LLAMA_API_KEY`, which only feed the two abstracted calls.
- `JSON.parse`, `JSON.stringify`, `new Date(text).getTime()` and
  `toISOString` are parameters. Invalid dates (`NaN`) and malformed JSON
  values inside a parsed object are not modelled.
- Floating point is exact real arithmetic:
  - no `NaN` from `value || 0`;
  - no rounding in the percent change or the sample interval;
  - no `Infinity` when a sample range has zero points.
- WidgetDataRoute.StatusOf: it does not model the lookup of inherited
  object keys. For example, `statusMap["constructor"]` is a truthy function
  in JavaScript, so such a state would not fall back to `no_data`.
- TimeseriesWidget.SortByTime: it is a stable insertion sort, but only
  sortedness and permutation are proved, not stability. The comparator is
  assumed to be called on numbers, so a `time` overwritten by a non-number
  is not modelled.
- React is not modelled:
  - rendering, JSX markup, CSS classes and Recharts components, except for
    the choices the widgets make;
  - date formatting of axis ticks and tooltips;
  - `useEffect` scheduling, re-runs on changed dependencies, and races
    between overlapping fetches;
  - the Markdown widget's `dangerouslySetInnerHTML` and its debug logging.
- Service map widgets carry a payload type, but nothing in the core produces
  one.
- A log attribute object is a flat map from strings to strings. Nested
  attribute values are not modelled.
