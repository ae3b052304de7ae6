/** `createDashboardFromAIDesign`: a monitor-status widget at the top left,
    the designed widgets placed by a cursor that fills rows of twelve
    columns, and the investigation guide across the full width below
    everything.

    `Date.now()` and `new Date()` are the parameters `now` and `createdAt`;
    `uuidv4()` is `uuid`, where `uuid(k)` is the k-th identifier drawn: the
    dashboard's (0), the status widget's (1), one per designed widget in
    order, whether or not it yields a widget (2 ..), and the guide's last. */
module DashboardComposer {
  import opened Common
  import opened DashboardTypes
  import opened WidgetFactory
  import TimeRangeTable
  import InvestigationNotes

  function Max(a: int, b: int): int {
    if a >= b then a else b
  }

  /** The placement cursor and the widgets placed so far. */
  datatype Cursor = Cursor(x: int, y: int, placed: seq<Widget>)

  const Start: Cursor := Cursor(3, 0, [])

  /** The slot after a widget: to its right, or the start of the next row
      once the row is full. The next row is never above row 2, below the
      status widget. */
  function NextSlot(x: int, y: int, width: int): (int, int) {
    if x + width >= GridColumns then (0, Max(y + 1, 2)) else (x + width, y)
  }

  /** One iteration of the `forEach`: a design that yields no widget leaves
      the cursor where it is. */
  function Advance(c: Cursor, d: WidgetDesign, id: string): Cursor {
    match CreateWidgetFromDesign(d, c.x, c.y, id)
    case None => c
    case Some(w) =>
      var (x, y) := NextSlot(c.x, c.y, w.layout.width);
      Cursor(x, y, c.placed + [w])
  }

  /** The cursor after the designs `ds`, the j-th drawing identifier j + 2. */
  function Placement(ds: seq<WidgetDesign>, uuid: nat -> string): (c: Cursor)
    ensures |c.placed| <= |ds|
    ensures c.y == 0 || c.y >= 2
  {
    if ds == [] then Start
    else Advance(Placement(ds[..|ds| - 1], uuid), ds[|ds| - 1], uuid(|ds| + 1))
  }

  /** The designs that yield a widget, in their order. */
  function Produced(ds: seq<WidgetDesign>): (r: seq<WidgetDesign>)
    ensures |r| <= |ds|
    ensures forall i :: 0 <= i < |r| ==> ProducesWidget(r[i].kind)
  {
    if ds == [] then []
    else if ProducesWidget(ds[|ds| - 1].kind) then Produced(ds[..|ds| - 1]) + [ds[|ds| - 1]]
    else Produced(ds[..|ds| - 1])
  }

  /** The placement loop of `createDashboardFromAIDesign`. */
  method PlaceDesigns(ds: seq<WidgetDesign>, uuid: nat -> string) returns (placed: seq<Widget>, x: int, y: int)
    ensures Cursor(x, y, placed) == Placement(ds, uuid)
  {
    x, y, placed := 3, 0, [];
    for i := 0 to |ds|
      invariant Cursor(x, y, placed) == Placement(ds[..i], uuid)
    {
      assert ds[..i + 1][..i] == ds[..i];
      var widget := CreateWidgetFromDesign(ds[i], x, y, uuid(i + 2));
      if widget.Some? {
        placed := placed + [widget.value];
        x := x + widget.value.layout.width;
        if x >= GridColumns {
          x := 0;
          y := Max(y + 1, 2);
        }
      }
    }
    assert ds[..|ds|] == ds;
  }

  /** `Math.max(...widgets.map(w => w.layout.y + w.layout.height), 3)`. */
  function LowestEdge(ws: seq<Widget>): (r: int)
    ensures r >= 3
    ensures forall i :: 0 <= i < |ws| ==> ws[i].layout.y + ws[i].layout.height <= r
    ensures r == 3 || exists i :: 0 <= i < |ws| && r == ws[i].layout.y + ws[i].layout.height
  {
    if ws == [] then 3
    else
      var last := ws[|ws| - 1];
      var r := Max(LowestEdge(ws[..|ws| - 1]), last.layout.y + last.layout.height);
      assert forall i :: 0 <= i < |ws| - 1 ==> ws[..|ws| - 1][i] == ws[i];
      r
  }

  function StatusWidget(m: Monitor, id: string): Widget {
    Widget(id, AlertStatus, "Monitor Status", None, Layout(0, 0, 3, 2), None, AlertStatusConfig(m.id, Datadog))
  }

  function GuideWidget(id: string, y: int, notes: string): Widget {
    Widget(id, Markdown, "Investigation Guide", None, Layout(0, y, GridColumns, 3), None, MarkdownConfig(notes))
  }

  /** The status widget, the placed widgets, and the guide below them all. */
  function WidgetsAround(status: Widget, placed: seq<Widget>, guideId: string, notes: string): seq<Widget> {
    var top := [status] + placed;
    top + [GuideWidget(guideId, LowestEdge(top), notes)]
  }

  /** The dashboard for a monitor and a design, with `window` its time
      window and `notes` the guide text. */
  function ComposedDashboard(m: Monitor, d: DashboardDesign, window: TimeRange, createdAt: int, uuid: nat -> string,
                             notes: string): (r: Dashboard)
    ensures r.id == uuid(0) && r.title == "AI Investigation: " + m.name && r.monitorId == Some(m.id)
    ensures r.createdAt == createdAt && r.timeRange == window
    ensures |r.widgets| == |Placement(d.widgets, uuid).placed| + 2
    ensures r.widgets[0] == StatusWidget(m, uuid(1))
    ensures r.widgets[1..|r.widgets| - 1] == Placement(d.widgets, uuid).placed
    ensures r.widgets[|r.widgets| - 1].config == MarkdownConfig(notes)
  {
    Dashboard(
      uuid(0),
      "AI Investigation: " + m.name,
      Some(OrElse(d.layoutStrategy, "AI-designed dashboard for investigating monitor " + IntToString(m.id))),
      createdAt,
      Some(m.id),
      WidgetsAround(StatusWidget(m, uuid(1)), Placement(d.widgets, uuid).placed, uuid(|d.widgets| + 2), notes),
      window)
  }

  /** The body of `createDashboardFromAIDesign` for a given guide text. */
  method AssembleDashboard(m: Monitor, d: DashboardDesign, now: int, createdAt: int, uuid: nat -> string,
                           notes: string)
    returns (dash: Dashboard)
    ensures dash == ComposedDashboard(m, d, TimeRangeTable.ResolveTimeRange(d.timeRange, now), createdAt, uuid, notes)
  {
    var timeRange := TimeRangeTable.ResolveTimeRange(d.timeRange, now);
    var widgets := [StatusWidget(m, uuid(1))];
    var placed, x, y := PlaceDesigns(d.widgets, uuid);
    widgets := widgets + placed;
    var maxY := LowestEdge(widgets);
    widgets := widgets + [GuideWidget(uuid(|d.widgets| + 2), maxY, notes)];
    dash := Dashboard(
      uuid(0),
      "AI Investigation: " + m.name,
      Some(OrElse(d.layoutStrategy, "AI-designed dashboard for investigating monitor " + IntToString(m.id))),
      createdAt,
      Some(m.id),
      widgets,
      timeRange);
  }

  /** `createDashboardFromAIDesign`. The guide text draws no identifier and
      reads no clock, so computing it before the widgets are placed yields
      the same dashboard. */
  method ComposeDashboard(m: Monitor, d: DashboardDesign, now: int, createdAt: int, uuid: nat -> string)
    returns (dash: Dashboard)
    ensures dash == ComposedDashboard(m, d, TimeRangeTable.ResolveTimeRange(d.timeRange, now), createdAt, uuid,
                                      InvestigationNotes.Notes(m, d))
  {
    var notes := InvestigationNotes.FormatInvestigationNotes(m, d);
    dash := AssembleDashboard(m, d, now, createdAt, uuid, notes);
  }

  // ---------------------------------------------------------------------
  // The placement

  /** The placed widgets are the producing designs, in order, each built
      from its own design; the others are dropped. */
  lemma {:induction false} PlacementKeepsOrder(ds: seq<WidgetDesign>, uuid: nat -> string)
    ensures |Placement(ds, uuid).placed| == |Produced(ds)|
    ensures forall i :: 0 <= i < |Produced(ds)| ==>
      var w := Placement(ds, uuid).placed[i];
      TypeName(w.kind) == Produced(ds)[i].kind && w.config == ConfigFor(Produced(ds)[i])
      && w.title == TitleOr(Produced(ds)[i].title, DefaultTitle(Produced(ds)[i].kind))
  {
    if ds != [] {
      var init := ds[..|ds| - 1];
      PlacementKeepsOrder(init, uuid);
    }
  }

  /** Every placed widget is well formed and ends within the twelve columns. */
  lemma {:induction false} PlacementFitsColumns(ds: seq<WidgetDesign>, uuid: nat -> string)
    ensures forall i :: 0 <= i < |Placement(ds, uuid).placed| ==>
      var w := Placement(ds, uuid).placed[i];
      Consistent(w) && w.layout.x + w.layout.width <= GridColumns
  {
    if ds != [] {
      PlacementFitsColumns(ds[..|ds| - 1], uuid);
    }
  }

  /** With no negative declared width the cursor stays within the row,
      `0 <= x < 12`, every placed widget starts in it and is at least one
      column wide, and so the row is never overfilled. */
  lemma {:induction false} PlacementInGrid(ds: seq<WidgetDesign>, uuid: nat -> string)
    requires forall j :: 0 <= j < |ds| ==> ds[j].width >= 0
    ensures 0 <= Placement(ds, uuid).x < GridColumns && 0 <= Placement(ds, uuid).y
    ensures forall i :: 0 <= i < |Placement(ds, uuid).placed| ==>
      var w := Placement(ds, uuid).placed[i];
      0 <= w.layout.x < GridColumns && 0 <= w.layout.y && 1 <= w.layout.width
  {
    if ds != [] {
      PlacementInGrid(ds[..|ds| - 1], uuid);
    }
  }

  /** Row-major packing: the first placed widget sits at (3, 0), each next
      one in the slot after its predecessor, and the cursor ends in the
      slot after the last. Designs that yield nothing leave no gap. */
  lemma {:induction false} PlacementPacksRows(ds: seq<WidgetDesign>, uuid: nat -> string)
    ensures var p := Placement(ds, uuid);
      if p.placed == [] then (p.x, p.y) == (3, 0)
      else
        var last := p.placed[|p.placed| - 1].layout;
        (p.x, p.y) == NextSlot(last.x, last.y, last.width)
    ensures var p := Placement(ds, uuid);
      p.placed != [] ==> (p.placed[0].layout.x, p.placed[0].layout.y) == (3, 0)
    ensures var p := Placement(ds, uuid);
      forall i :: 0 < i < |p.placed| ==>
        var prev := p.placed[i - 1].layout;
        (p.placed[i].layout.x, p.placed[i].layout.y) == NextSlot(prev.x, prev.y, prev.width)
  {
    if ds != [] {
      var init := ds[..|ds| - 1];
      PlacementPacksRows(init, uuid);
      var c := Placement(init, uuid);
      var p := Placement(ds, uuid);
      if p.placed != c.placed {
        assert p.placed == c.placed + [p.placed[|p.placed| - 1]];
      }
    }
  }

  /** Rows only go down, and no designed widget lands in row 1. */
  lemma {:induction false} RowsGoDown(ds: seq<WidgetDesign>, uuid: nat -> string)
    ensures var p := Placement(ds, uuid);
      (p.y == 0 || p.y >= 2)
      && (forall i :: 0 <= i < |p.placed| ==> p.placed[i].layout.y <= p.y)
      && (forall i, j :: 0 <= i < j < |p.placed| ==> p.placed[i].layout.y <= p.placed[j].layout.y)
      && (forall i :: 0 <= i < |p.placed| ==> p.placed[i].layout.y == 0 || p.placed[i].layout.y >= 2)
  {
    if ds != [] {
      RowsGoDown(ds[..|ds| - 1], uuid);
    }
  }

  /** No two widgets of `ws` share an identifier. */
  predicate DistinctIds(ws: seq<Widget>) {
    forall i, j :: 0 <= i < j < |ws| ==> ws[i].id != ws[j].id
  }

  /** The j-th design draws identifier j + 2 whether or not it yields a
      widget, so every placed widget carries one of the identifiers
      2 .. |ds| + 1. */
  lemma {:induction false} PlacementIds(ds: seq<WidgetDesign>, uuid: nat -> string)
    ensures forall i :: 0 <= i < |Placement(ds, uuid).placed| ==>
      exists k: nat :: 2 <= k <= |ds| + 1 && Placement(ds, uuid).placed[i].id == uuid(k)
  {
    if ds == [] {
      assert Placement(ds, uuid).placed == [];
    } else {
      var init := ds[..|ds| - 1];
      PlacementIds(init, uuid);
      var c := Placement(init, uuid);
      var p := Placement(ds, uuid);
      forall i | 0 <= i < |p.placed|
        ensures exists k: nat :: 2 <= k <= |ds| + 1 && p.placed[i].id == uuid(k)
      {
        if i < |c.placed| {
          assert p.placed[i] == c.placed[i];
          var k: nat :| 2 <= k <= |init| + 1 && c.placed[i].id == uuid(k);
          assert 2 <= k <= |ds| + 1 && p.placed[i].id == uuid(k);
        } else {
          assert p.placed[i].id == uuid(|ds| + 1);
        }
      }
    }
  }

  /** When `uuidv4()` never repeats itself, no two placed widgets share an
      identifier, and none carries the dashboard's (0), the status widget's
      (1) or one drawn after the designs. */
  lemma {:induction false} PlacementIdsDistinct(ds: seq<WidgetDesign>, uuid: nat -> string)
    requires forall a: nat, b: nat :: a != b ==> uuid(a) != uuid(b)
    ensures DistinctIds(Placement(ds, uuid).placed)
    ensures var p := Placement(ds, uuid).placed;
      forall i, k: nat :: 0 <= i < |p| && (k < 2 || k > |ds| + 1) ==> p[i].id != uuid(k)
  {
    PlacementIds(ds, uuid);
    var p := Placement(ds, uuid).placed;
    forall i, k: nat | 0 <= i < |p| && (k < 2 || k > |ds| + 1)
      ensures p[i].id != uuid(k)
    {
      var k': nat :| 2 <= k' <= |ds| + 1 && p[i].id == uuid(k');
    }
    if ds != [] {
      var init := ds[..|ds| - 1];
      PlacementIdsDistinct(init, uuid);
      PlacementIds(init, uuid);
      var c := Placement(init, uuid).placed;
      forall i, j | 0 <= i < j < |p|
        ensures p[i].id != p[j].id
      {
        if j < |c| {
          assert p[i] == c[i] && p[j] == c[j];
          assert c[i].id != c[j].id;
        } else {
          assert p[i] == c[i] && p[j].id == uuid(|ds| + 1);
          var k: nat :| 2 <= k <= |init| + 1 && c[i].id == uuid(k);
          assert uuid(k) != uuid(|ds| + 1);
        }
      }
    }
  }

  // ---------------------------------------------------------------------
  // The dashboard

  /** When `uuidv4()` never repeats itself, no two widgets of the dashboard
      share an identifier, and none carries the dashboard's own. */
  lemma DashboardIdsDistinct(m: Monitor, d: DashboardDesign, window: TimeRange, createdAt: int,
                             uuid: nat -> string, notes: string)
    requires forall a: nat, b: nat :: a != b ==> uuid(a) != uuid(b)
    ensures var dash := ComposedDashboard(m, d, window, createdAt, uuid, notes);
      DistinctIds(dash.widgets) && (forall i :: 0 <= i < |dash.widgets| ==> dash.widgets[i].id != dash.id)
  {
    var dash := ComposedDashboard(m, d, window, createdAt, uuid, notes);
    var ws := dash.widgets;
    var p := Placement(d.widgets, uuid).placed;
    var n := |ws|;
    PlacementIdsDistinct(d.widgets, uuid);
    PlacementIds(d.widgets, uuid);
    assert ws[0].id == uuid(1) && ws[n - 1].id == uuid(|d.widgets| + 2) && dash.id == uuid(0);
    assert ws[1..n - 1] == p;
    forall i | 0 < i < n - 1
      ensures ws[i] == p[i - 1]
      ensures ws[i].id != uuid(0) && ws[i].id != uuid(1) && ws[i].id != uuid(|d.widgets| + 2)
    {
      assert ws[i] == ws[1..n - 1][i - 1];
      var k: nat :| 2 <= k <= |d.widgets| + 1 && p[i - 1].id == uuid(k);
      assert uuid(k) != uuid(0) && uuid(k) != uuid(1) && uuid(k) != uuid(|d.widgets| + 2);
    }
    assert uuid(0) != uuid(1) && uuid(0) != uuid(|d.widgets| + 2) && uuid(1) != uuid(|d.widgets| + 2);
    forall i, j | 0 <= i < j < n
      ensures ws[i].id != ws[j].id
    {
      if 0 < i && j < n - 1 {
        assert p[i - 1].id != p[j - 1].id;
      }
    }
  }

  /** The dashboard opens with the 3×2 status widget of the monitor at the
      top left, and carries the monitor's identity. */
  lemma DashboardOpensWithStatus(m: Monitor, d: DashboardDesign, window: TimeRange, createdAt: int,
                                 uuid: nat -> string, notes: string)
    ensures var dash := ComposedDashboard(m, d, window, createdAt, uuid, notes);
      dash.widgets[0] == Widget(uuid(1), AlertStatus, "Monitor Status", None, Layout(0, 0, 3, 2), None,
                                AlertStatusConfig(m.id, Datadog))
      && dash.title == "AI Investigation: " + m.name && dash.monitorId == Some(m.id)
      && (d.layoutStrategy != "" ==> dash.description == Some(d.layoutStrategy))
      && (d.layoutStrategy == "" ==>
            dash.description == Some("AI-designed dashboard for investigating monitor " + IntToString(m.id)))
      && dash.timeRange == window
  {
  }

  /** The list ends with the full-width, three-row guide holding `notes`,
      on row 3 or on the first row below every other widget, whichever is
      lower. */
  lemma GuideBelowAll(status: Widget, placed: seq<Widget>, guideId: string, notes: string)
    ensures var ws := WidgetsAround(status, placed, guideId, notes);
      var g := ws[|ws| - 1];
      |ws| == |placed| + 2 && ws[0] == status && ws[1..|ws| - 1] == placed
      && g.kind == Markdown && g.title == "Investigation Guide" && g.config == MarkdownConfig(notes)
      && g.layout.x == 0 && g.layout.width == GridColumns && g.layout.height == 3 && g.layout.y >= 3
      && (forall i :: 0 <= i < |ws| - 1 ==> ws[i].layout.y + ws[i].layout.height <= g.layout.y)
      && (g.layout.y == 3 || exists i :: 0 <= i < |ws| - 1 && g.layout.y == ws[i].layout.y + ws[i].layout.height)
  {
    var top := [status] + placed;
    var ws := WidgetsAround(status, placed, guideId, notes);
    assert ws[..|ws| - 1] == top;
    assert forall i :: 0 <= i < |ws| - 1 ==> ws[i] == top[i];
  }

  /** When its first widget and the placed ones are well formed and end
      within the twelve columns, so does every widget of the list. */
  lemma AroundFits(status: Widget, placed: seq<Widget>, guideId: string, notes: string)
    requires Consistent(status) && status.layout.x + status.layout.width <= GridColumns
    requires forall i :: 0 <= i < |placed| ==>
      Consistent(placed[i]) && placed[i].layout.x + placed[i].layout.width <= GridColumns
    ensures var ws := WidgetsAround(status, placed, guideId, notes);
      forall i :: 0 <= i < |ws| ==> Consistent(ws[i]) && ws[i].layout.x + ws[i].layout.width <= GridColumns
  {
    var ws := WidgetsAround(status, placed, guideId, notes);
    forall i | 0 <= i < |ws|
      ensures Consistent(ws[i]) && ws[i].layout.x + ws[i].layout.width <= GridColumns
    {
      if i == 0 {
        assert ws[i] == status;
      } else if i <= |placed| {
        assert ws[i] == placed[i - 1];
      }
    }
  }

  /** The dashboard closes with the guide below every other widget, after
      the status widget and the placed designs. */
  lemma DashboardClosesWithGuide(m: Monitor, d: DashboardDesign, window: TimeRange, createdAt: int,
                                 uuid: nat -> string, notes: string)
    ensures var ws := ComposedDashboard(m, d, window, createdAt, uuid, notes).widgets;
      var g := ws[|ws| - 1];
      |ws| == 2 + |Produced(d.widgets)| && ws[1..|ws| - 1] == Placement(d.widgets, uuid).placed
      && g.kind == Markdown && g.title == "Investigation Guide" && g.config == MarkdownConfig(notes)
      && g.layout.x == 0 && g.layout.width == GridColumns && g.layout.height == 3 && g.layout.y >= 3
      && (forall i :: 0 <= i < |ws| - 1 ==> ws[i].layout.y + ws[i].layout.height <= g.layout.y)
  {
    PlacementKeepsOrder(d.widgets, uuid);
    GuideBelowAll(StatusWidget(m, uuid(1)), Placement(d.widgets, uuid).placed, uuid(|d.widgets| + 2), notes);
  }

  /** A design without widgets gives exactly the status widget and the
      guide, on row 3. */
  lemma EmptyDesignGivesTwoWidgets(m: Monitor, d: DashboardDesign, window: TimeRange, createdAt: int,
                                   uuid: nat -> string, notes: string)
    requires d.widgets == []
    ensures var ws := ComposedDashboard(m, d, window, createdAt, uuid, notes).widgets;
      |ws| == 2 && ws[0].kind == AlertStatus && ws[1].kind == Markdown && ws[1].layout == Layout(0, 3, GridColumns, 3)
  {
    assert LowestEdge([StatusWidget(m, uuid(1))]) == 3;
  }

  /** Every widget of the dashboard is well formed and ends within the
      twelve columns. */
  lemma DashboardWidgetsFit(m: Monitor, d: DashboardDesign, window: TimeRange, createdAt: int,
                            uuid: nat -> string, notes: string)
    ensures var ws := ComposedDashboard(m, d, window, createdAt, uuid, notes).widgets;
      forall i :: 0 <= i < |ws| ==> Consistent(ws[i]) && ws[i].layout.x + ws[i].layout.width <= GridColumns
  {
    PlacementFitsColumns(d.widgets, uuid);
    AroundFits(StatusWidget(m, uuid(1)), Placement(d.widgets, uuid).placed, uuid(|d.widgets| + 2), notes);
  }
}
