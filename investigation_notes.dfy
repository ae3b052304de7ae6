/** The "Investigation Guide" text (`formatInvestigationNotes`): a fixed
    template whose sections depend on the monitor's type, on whether a
    service name was extracted, and on the design's narrative and per-widget
    reasoning. */
module InvestigationNotes {
  import opened Common
  import opened DashboardTypes
  import ServiceExtraction

  /** The heading's icon is the three characters U+00F0 U+0178 U+201D as the
      source text spells them. */
  const GuideHeading: string := "# \U{F0}\U{178}\U{201D} Investigation Guide\n\n"

  /** A narrative equal to this sentence gets no "## AI Analysis" section;
      the test at src/lib/ai-operator.ts:329 is its only use. */
  const DefaultInvestigationPlaceholder: string := "Using default dashboard template. AI analysis unavailable."

  const MetricTrendSteps: string :=
    "### 1. Analyze Metric Trends\n"
    + "- Check the main metric chart above for spikes or anomalies\n"
    + "- Look for patterns in the time series data\n"
    + "- Compare current values to historical baselines\n\n"

  const ServiceSteps: string :=
    "### 2. Service Health Check\n"
    + "- Review error rates and latency metrics\n"
    + "- Check request volume for traffic spikes\n"
    + "- Examine error logs for specific failure patterns\n\n"
    + "### 3. Infrastructure Investigation\n"
    + "- Verify CPU, memory, and disk usage\n"
    + "- Check network connectivity and latency\n"
    + "- Review recent deployments or configuration changes\n\n"

  const SystemSteps: string :=
    "### 2. System Investigation\n"
    + "- Check related system metrics\n"
    + "- Review application logs for errors\n"
    + "- Verify infrastructure health\n\n"

  const RootCause: string :=
    "### 3. Root Cause Analysis\n"
    + "- **Recent Changes:** Check for deployments, config updates, or infrastructure changes\n"
    + "- **Dependencies:** Verify health of upstream and downstream services\n"
    + "- **External Factors:** Consider third-party service issues, traffic spikes, or network problems\n"
    + "- **Correlation:** Look for patterns with other alerts or incidents\n\n"

  const CommonActions: string :=
    "## Action Items\n\n"
    + "- [ ] Review all metrics above for anomalies\n"
    + "- [ ] Check error logs for specific failure messages\n"
    + "- [ ] Verify recent deployments or changes\n"
    + "- [ ] Check dependencies and external services\n"

  const FinalActionItem: string := "- [ ] Document findings and resolution steps"

  const StepsHeading: string := "## Investigation Steps\n\n"

  const RecapHeading: string := "## Dashboard Widgets\n\n"

  const LinksHeading: string := "## Quick Links\n\n"

  /** The guide's fixed paragraphs. The text functions below take them as a
      parameter so that their lemmas hold for any wording; `Texts` is the
      wording of the source. */
  datatype GuideTexts = GuideTexts(
    heading: string,
    metricTrendSteps: string,
    serviceSteps: string,
    systemSteps: string,
    rootCause: string,
    commonActions: string,
    finalItem: string)

  const Texts: GuideTexts :=
    GuideTexts(GuideHeading, MetricTrendSteps, ServiceSteps, SystemSteps, RootCause, CommonActions, FinalActionItem)

  /** A template string prints a missing title as "undefined". */
  function Interpolate(s: Option<string>): string {
    match s
    case Some(v) => v
    case None => "undefined"
  }

  // Each function below is one block of `+=` appends of the source; it is
  // empty exactly when the source skips the block.

  function AnalysisSection(investigation: string): string {
    if investigation != "" && investigation != DefaultInvestigationPlaceholder then
      "## AI Analysis\n" + investigation + "\n\n"
    else ""
  }

  function OverviewHead(m: Monitor): string {
    "## Monitor Overview\n\n" + "**Monitor:** " + m.name + "\n"
    + "**Status:** `" + m.overallState + "`\n" + "**Type:** " + m.kind + "\n"
  }

  function ServiceLine(service: string): string {
    if service != "" then "**Service:** " + service + "\n" else ""
  }

  function QueryLine(query: string): string {
    "**Query:** `" + query + "`\n\n"
  }

  function AlertSection(message: string): string {
    if message != "" then "**Alert Message:** " + message + "\n\n" else ""
  }

  function MetricSteps(t: GuideTexts, kind: string): string {
    if kind == "metric alert" then t.metricTrendSteps else ""
  }

  function FocusSteps(t: GuideTexts, service: string): string {
    if service != "" then t.serviceSteps else t.systemSteps
  }

  function RecapIntro(ws: seq<WidgetDesign>): string {
    if |ws| > 0 then RecapHeading else ""
  }

  function RecapLine(w: WidgetDesign): string {
    if w.reasoning != "" then "**" + Interpolate(w.title) + ":** " + w.reasoning + "\n\n" else ""
  }

  /** One recap paragraph per widget that carries a reasoning, in order. */
  function RecapLines(ws: seq<WidgetDesign>): string {
    if ws == [] then "" else RecapLines(ws[..|ws| - 1]) + RecapLine(ws[|ws| - 1])
  }

  function ScalingAction(service: string): string {
    if service != "" then "- [ ] Consider scaling " + service + " if needed\n" else ""
  }

  function FinalAction(t: GuideTexts): string {
    t.finalItem + "\n\n"
  }

  function LogsLink(service: string): string {
    "- [Service Logs](https://dd.datad0g.com/logs?query=service%3A" + service + ")\n"
  }

  function ApmLink(service: string): string {
    "- [APM Dashboard](https://dd.datad0g.com/apm/services/" + service + ")\n"
  }

  /** The infrastructure link without its closing ")\n". */
  function InfraLinkOpen(service: string): string {
    "- [Infrastructure](https://dd.datad0g.com/infrastructure/map?filter=service%3A" + service
  }

  /** The quick links without the infrastructure link's closing ")\n". */
  function QuickLinksOpen(service: string): string {
    LinksHeading + LogsLink(service) + ApmLink(service) + InfraLinkOpen(service)
  }

  function QuickLinks(service: string): string {
    if service != "" then QuickLinksOpen(service) + ")\n" else ""
  }

  /** The heading, the analysis and the monitor overview. */
  function GuideIntro(t: GuideTexts, m: Monitor, d: DashboardDesign, service: string): string {
    t.heading
    + AnalysisSection(d.investigation)
    + OverviewHead(m)
    + ServiceLine(service)
    + QueryLine(m.query)
    + AlertSection(m.message)
  }

  /** Everything before the scaling item. */
  function GuideLead(t: GuideTexts, m: Monitor, d: DashboardDesign, service: string): string {
    GuideIntro(t, m, d, service)
    + StepsHeading
    + MetricSteps(t, m.kind)
    + FocusSteps(t, service)
    + t.rootCause
    + RecapIntro(d.widgets)
    + RecapLines(d.widgets)
    + t.commonActions
  }

  /** Everything before the last action item. */
  function GuideBody(t: GuideTexts, m: Monitor, d: DashboardDesign, service: string): string {
    GuideLead(t, m, d, service) + ScalingAction(service)
  }

  /** The notes for a monitor, a design and the extracted service name
      (empty for none). */
  function GuideText(t: GuideTexts, m: Monitor, d: DashboardDesign, service: string): string {
    GuideBody(t, m, d, service) + FinalAction(t) + QuickLinks(service)
  }

  /** The notes `formatInvestigationNotes` writes: they quote the query, and
      name the service when one was found. */
  function Notes(m: Monitor, d: DashboardDesign): (r: string)
    ensures Contains(r, "**Query:** `" + m.query + "`\n\n")
    ensures var service := ServiceExtraction.ServiceName(m);
      service != "" ==> Contains(r, "**Service:** " + service + "\n")
  {
    var service := ServiceExtraction.ServiceName(m);
    GuideQuotesMonitor(Texts, m, d, service);
    GuideNamesService(Texts, m, d, service);
    GuideText(Texts, m, d, service)
  }

  /** The `design.widgets.forEach` loop: one paragraph per reasoned widget
      appended to `notes`. */
  method AppendRecapLines(notes: string, widgets: seq<WidgetDesign>) returns (r: string)
    ensures r == notes + RecapLines(widgets)
  {
    r := notes;
    var i := 0;
    while i < |widgets|
      invariant 0 <= i <= |widgets|
      invariant r == notes + RecapLines(widgets[..i])
    {
      var w := widgets[i];
      assert widgets[..i + 1][..i] == widgets[..i];
      AppendAssoc(notes, RecapLines(widgets[..i]), RecapLine(w));
      if w.reasoning != "" {
        r := r + ("**" + Interpolate(w.title) + ":** " + w.reasoning + "\n\n");
      }
      i := i + 1;
    }
    assert widgets[..i] == widgets;
  }

  /** `formatInvestigationNotes`: the text is accumulated with `+=`, block by
      block, in the source's order. */
  method FormatInvestigationNotes(m: Monitor, d: DashboardDesign) returns (notes: string)
    ensures notes == Notes(m, d)
  {
    var service := ServiceExtraction.ServiceName(m);
    notes := GuideHeading;
    notes := notes + AnalysisSection(d.investigation);
    notes := notes + OverviewHead(m);
    notes := notes + ServiceLine(service);
    notes := notes + QueryLine(m.query);
    notes := notes + AlertSection(m.message);
    notes := notes + StepsHeading;
    notes := notes + MetricSteps(Texts, m.kind);
    notes := notes + FocusSteps(Texts, service);
    notes := notes + RootCause;
    notes := notes + RecapIntro(d.widgets);
    notes := AppendRecapLines(notes, d.widgets);
    notes := notes + CommonActions;
    notes := notes + ScalingAction(service);
    notes := notes + (FinalActionItem + "\n\n");
    notes := notes + QuickLinks(service);
  }

  /** The recap is empty exactly when no widget carries a reasoning. */
  lemma {:induction false} RecapEmptyIffNoReasoning(ws: seq<WidgetDesign>)
    ensures RecapLines(ws) == "" <==> forall i :: 0 <= i < |ws| ==> ws[i].reasoning == ""
  {
    if ws != [] {
      var init := ws[..|ws| - 1];
      RecapEmptyIffNoReasoning(init);
      assert forall i :: 0 <= i < |init| ==> init[i] == ws[i];
      if ws[|ws| - 1].reasoning != "" {
        assert |RecapLine(ws[|ws| - 1])| > 0;
      }
    }
  }

  /** A recap paragraph quotes the widget's reasoning under its title. */
  lemma {:induction false} RecapQuotesReasoning(ws: seq<WidgetDesign>, k: nat)
    requires k < |ws| && ws[k].reasoning != ""
    ensures Contains(RecapLines(ws), "**" + Interpolate(ws[k].title) + ":** " + ws[k].reasoning + "\n\n")
  {
    var line := "**" + Interpolate(ws[k].title) + ":** " + ws[k].reasoning + "\n\n";
    var init := ws[..|ws| - 1];
    if k == |ws| - 1 {
      ContainsAtEnd(RecapLines(init), line);
    } else {
      assert init[k] == ws[k];
      RecapQuotesReasoning(init, k);
      ContainsGrows(RecapLines(init), RecapLine(ws[|ws| - 1]), line);
    }
  }

  /** Whatever precedes it, an item followed by two newlines ends the text
      exactly when nothing closing with ")\n" follows it. */
  lemma EndingTellsLinks(x: string, body: string, item: string, links: string, open: string, service: string)
    requires x == body + (item + "\n\n") + links
    requires links == "" || links == open + ")\n"
    requires links == "" <==> service == ""
    ensures EndsWith(x, item + "\n\n") <==> service == ""
  {
    var fa := item + "\n\n";
    if links == "" {
      assert x == body + fa;
      EndsWithAppended(body, fa);
    } else {
      NotEndsWithAppended(body + fa, links, fa, 2);
    }
  }

  /** Links are listed exactly when there is a service, and they close the
      infrastructure link. */
  lemma QuickLinksShape(service: string)
    ensures QuickLinks(service) == "" <==> service == ""
    ensures QuickLinks(service) == "" || QuickLinks(service) == QuickLinksOpen(service) + ")\n"
  {
  }

  /** Whatever the wording of its fixed paragraphs, the guide ends with its
      final action item ("- [ ] Document findings and resolution steps" in
      the notes) exactly when no service name was extracted. */
  lemma GuideEndingTellsService(t: GuideTexts, m: Monitor, d: DashboardDesign, service: string)
    ensures EndsWith(GuideText(t, m, d, service), FinalAction(t)) <==> service == ""
  {
    QuickLinksShape(service);
    EndingTellsLinks(GuideText(t, m, d, service), GuideBody(t, m, d, service), t.finalItem,
                     QuickLinks(service), QuickLinksOpen(service), service);
  }

  /** The scaling item is there exactly for a service: with one, the guide
      asks to consider scaling it; without one, the final item directly
      follows the common action items. */
  lemma GuideProposesScaling(t: GuideTexts, m: Monitor, d: DashboardDesign, service: string)
    ensures service != "" ==> Contains(GuideText(t, m, d, service), "- [ ] Consider scaling " + service + " if needed\n")
    ensures service == "" ==> Contains(GuideText(t, m, d, service), t.commonActions + FinalAction(t))
  {
    var lead := GuideLead(t, m, d, service);
    if service != "" {
      var item := "- [ ] Consider scaling " + service + " if needed\n";
      ContainsAtEnd(lead, item);
      ContainsGrows(lead + item, FinalAction(t), item);
      ContainsGrows(lead + item + FinalAction(t), QuickLinks(service), item);
    } else {
      var pre := GuideIntro(t, m, d, service) + StepsHeading + MetricSteps(t, m.kind) + FocusSteps(t, service)
                 + t.rootCause + RecapIntro(d.widgets) + RecapLines(d.widgets);
      assert lead == pre + t.commonActions;
      assert GuideText(t, m, d, service) == pre + (t.commonActions + FinalAction(t)) + QuickLinks(service);
      ContainsMiddle(pre, t.commonActions + FinalAction(t), QuickLinks(service));
    }
  }

  /** What the overview shows is still shown once the rest of the guide
      follows it. */
  lemma IntroKept(t: GuideTexts, m: Monitor, d: DashboardDesign, service: string, w: string)
    requires Contains(GuideIntro(t, m, d, service), w)
    ensures Contains(GuideText(t, m, d, service), w)
  {
    var x := GuideIntro(t, m, d, service);
    ContainsGrows(x, StepsHeading, w);
    x := x + StepsHeading;
    ContainsGrows(x, MetricSteps(t, m.kind), w);
    x := x + MetricSteps(t, m.kind);
    ContainsGrows(x, FocusSteps(t, service), w);
    x := x + FocusSteps(t, service);
    ContainsGrows(x, t.rootCause, w);
    x := x + t.rootCause;
    ContainsGrows(x, RecapIntro(d.widgets), w);
    x := x + RecapIntro(d.widgets);
    ContainsGrows(x, RecapLines(d.widgets), w);
    x := x + RecapLines(d.widgets);
    ContainsGrows(x, t.commonActions, w);
    x := x + t.commonActions;
    ContainsGrows(x, ScalingAction(service), w);
    x := x + ScalingAction(service);
    ContainsGrows(x, FinalAction(t), w);
    x := x + FinalAction(t);
    ContainsGrows(x, QuickLinks(service), w);
  }

  /** The guide quotes the monitor's query, and its alert message when it
      has one. */
  lemma GuideQuotesMonitor(t: GuideTexts, m: Monitor, d: DashboardDesign, service: string)
    ensures Contains(GuideText(t, m, d, service), "**Query:** `" + m.query + "`\n\n")
    ensures m.message != "" ==> Contains(GuideText(t, m, d, service), "**Alert Message:** " + m.message + "\n\n")
  {
    var q := QueryLine(m.query);
    var a := t.heading + AnalysisSection(d.investigation) + OverviewHead(m) + ServiceLine(service);
    ContainsAtEnd(a, q);
    ContainsGrows(a + q, AlertSection(m.message), q);
    IntroKept(t, m, d, service, q);
    if m.message != "" {
      ContainsAtEnd(a + q, AlertSection(m.message));
      IntroKept(t, m, d, service, AlertSection(m.message));
    }
  }

  /** With a service, the overview names it. */
  lemma GuideNamesService(t: GuideTexts, m: Monitor, d: DashboardDesign, service: string)
    ensures service != "" ==> Contains(GuideText(t, m, d, service), "**Service:** " + service + "\n")
  {
    if service != "" {
      var a := t.heading + AnalysisSection(d.investigation) + OverviewHead(m);
      var line := ServiceLine(service);
      ContainsAtEnd(a, line);
      ContainsGrows(a + line, QueryLine(m.query), line);
      ContainsGrows(a + line + QueryLine(m.query), AlertSection(m.message), line);
      IntroKept(t, m, d, service, line);
    }
  }
}
