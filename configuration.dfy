/** The application configuration: its sections with their default values,
    and the repair step run after loading a stored configuration, which
    appends every default dashboard widget the stored layout lacks at the
    end of the grid.

    Reading and writing the TOML file are not part of this model; a loaded
    configuration is whatever the caller passes in. */
module Configuration {
  import opened Wrappers
  import opened Types

  // ---------------------------------------------------------------------------
  // Sections

  datatype GeneralConfig = GeneralConfig(
    language: string,
    theme: string,
    refreshRateMs: nat,
    slowRefreshRateMs: nat,
    ecoMode: bool,
    startMinimized: bool,
    startWithSystem: bool,
    rememberWindowPosition: bool,
    runAsAdmin: bool,
    windowX: Option<real>,
    windowY: Option<real>,
    windowWidth: Option<real>,
    windowHeight: Option<real>)

  datatype SimplePricing = SimplePricing(ratePerKwh: real)

  /** Off-peak hours as "HH:MM" texts */
  datatype PeakOffpeakPricing = PeakOffpeakPricing(
    peakRate: real, offpeakRate: real, offpeakStart: string, offpeakEnd: string)

  /** Winter months are numbered 1 to 12 */
  datatype SeasonalPricing = SeasonalPricing(summerRate: real, winterRate: real, winterMonths: seq<nat>)

  datatype TempoPricing = TempoPricing(
    bluePeak: real, blueOffpeak: real,
    whitePeak: real, whiteOffpeak: real,
    redPeak: real, redOffpeak: real)

  datatype PricingConfig = PricingConfig(
    mode: string,
    currency: string,
    currencySymbol: string,
    simple: SimplePricing,
    peakOffpeak: PeakOffpeakPricing,
    seasonal: SeasonalPricing,
    tempo: TempoPricing)

  datatype WidgetConfig = WidgetConfig(
    enabled: bool,
    showCost: bool,
    position: string,
    opacity: real,
    displayItems: seq<string>,
    size: string,
    theme: string)

  datatype AdvancedConfig = AdvancedConfig(
    baselineWatts: real,
    baselineAuto: bool,
    activeProfile: string,
    pinnedProcesses: seq<string>,
    processListLimit: nat,
    extendedMetricsThreshold: real,
    sessionCategories: seq<SessionCategory>)

  /** One dashboard tile: its id, its grid cell (`col`, `row`, 1-based) and
      spans, and its legacy ordering `position` */
  datatype DashboardWidget = DashboardWidget(
    id: string,
    visible: bool,
    size: string,
    position: nat,
    col: nat,
    row: nat,
    colSpan: nat,
    rowSpan: nat,
    displayMode: string,
    showWh: bool)

  datatype LayoutProfile = LayoutProfile(name: string, widgets: seq<DashboardWidget>, globalDisplay: string)

  /** `activeProfile` is empty when no saved profile is applied */
  datatype DashboardConfig = DashboardConfig(
    layout: string,
    globalDisplay: string,
    widgets: seq<DashboardWidget>,
    activeProfile: string,
    profiles: seq<LayoutProfile>)

  // ---------------------------------------------------------------------------
  // Defaults

  function DefaultGeneral(): (g: GeneralConfig)
    ensures g.language == "auto" && g.theme == "dark"
    ensures g.refreshRateMs == 1000 && g.slowRefreshRateMs == 5000
    ensures !g.ecoMode && !g.startMinimized && !g.startWithSystem && g.rememberWindowPosition && !g.runAsAdmin
    ensures g.windowX.None? && g.windowY.None? && g.windowWidth.None? && g.windowHeight.None?
  {
    GeneralConfig("auto", "dark", 1000, 5000, false, false, false, true, false, None, None, None, None)
  }

  function DefaultPricing(): (p: PricingConfig)
    ensures p.mode == "simple" && p.currency == "EUR" && p.currencySymbol == "€"
    ensures p.simple.ratePerKwh == 0.2276
    ensures p.peakOffpeak == PeakOffpeakPricing(0.27, 0.20, "22:00", "06:00")
    ensures p.seasonal == SeasonalPricing(0.20, 0.25, [11, 12, 1, 2, 3])
    ensures p.tempo == TempoPricing(0.16, 0.13, 0.19, 0.15, 0.76, 0.16)
  {
    PricingConfig(
      "simple", "EUR", "€",
      SimplePricing(0.2276),
      PeakOffpeakPricing(0.27, 0.20, "22:00", "06:00"),
      SeasonalPricing(0.20, 0.25, [11, 12, 1, 2, 3]),
      TempoPricing(0.16, 0.13, 0.19, 0.15, 0.76, 0.16))
  }

  function DefaultWidget(): (w: WidgetConfig)
    ensures w.enabled && w.showCost && w.position == "bottom_right" && w.opacity == 0.9
    ensures w.displayItems == ["power", "cost"] && w.size == "normal" && w.theme == "default"
  {
    WidgetConfig(true, true, "bottom_right", 0.9, ["power", "cost"], "normal", "default")
  }

  function DefaultSessionCategories(): (cs: seq<SessionCategory>)
    ensures |cs| == 4
    ensures cs[0].name == "Gaming" && cs[1].name == "Work" && cs[2].name == "AI" && cs[3].name == "Browsing"
  {
    [ SessionCategory("\U{1F3AE}", "Gaming"),
      SessionCategory("\U{1F4BB}", "Work"),
      SessionCategory("\U{1F916}", "AI"),
      SessionCategory("\U{1F310}", "Browsing") ]
  }

  /** Auto-detected baseline, no pinned process, ten processes shown,
      extended metrics above 15 % load */
  function DefaultAdvanced(): (a: AdvancedConfig)
    ensures a.baselineWatts == 0.0 && a.baselineAuto
    ensures a.activeProfile == "default" && a.pinnedProcesses == []
    ensures a.processListLimit == 10 && a.extendedMetricsThreshold == 15.0
    ensures a.sessionCategories == DefaultSessionCategories()
  {
    AdvancedConfig(0.0, true, "default", [], 10, 15.0, DefaultSessionCategories())
  }

  function Tile(id: string, size: string, position: nat, col: nat, row: nat, colSpan: nat, rowSpan: nat, displayMode: string)
    : DashboardWidget
  {
    DashboardWidget(id, true, size, position, col, row, colSpan, rowSpan, displayMode, true)
  }

  /** The stock dashboard: CPU, GPU, RAM and processes on rows 1-3, the power,
      surplus, session and estimate tiles on rows 4-7 */
  function DefaultDashboardWidgets(): (ws: seq<DashboardWidget>)
    ensures |ws| == 13
    ensures forall i :: 0 <= i < |ws| ==> ws[i].visible && ws[i].showWh
  {
    [ Tile("cpu", "small", 7, 1, 1, 3, 3, "radial"),
      Tile("gpu", "small", 8, 4, 1, 3, 3, "radial"),
      Tile("ram", "small", 9, 7, 1, 3, 3, "radial"),
      Tile("processes", "large", 11, 10, 1, 3, 3, "text"),
      Tile("power", "large", 0, 1, 4, 4, 3, "text"),
      Tile("surplus", "small", 10, 5, 4, 2, 2, "text"),
      Tile("session_controls", "small", 12, 5, 6, 2, 2, "text"),
      Tile("session_cost", "small", 2, 7, 4, 3, 1, "text"),
      Tile("session_energy", "small", 1, 7, 5, 3, 1, "text"),
      Tile("monthly_estimate", "small", 5, 7, 6, 3, 1, "text"),
      Tile("session_duration", "small", 6, 10, 4, 3, 1, "text"),
      Tile("daily_estimate", "small", 4, 10, 5, 3, 1, "text"),
      Tile("hourly_estimate", "small", 3, 10, 6, 3, 1, "text") ]
  }

  function DefaultDashboard(): (d: DashboardConfig)
    ensures d.layout == "default" && d.globalDisplay == "normal"
    ensures d.widgets == DefaultDashboardWidgets()
    ensures d.activeProfile == "" && d.profiles == []
  {
    DashboardConfig("default", "normal", DefaultDashboardWidgets(), "", [])
  }

  // ---------------------------------------------------------------------------
  // Widget ids and grid extents

  function Ids(ws: seq<DashboardWidget>): (ids: seq<string>)
    ensures |ids| == |ws|
    ensures forall i :: 0 <= i < |ws| ==> ids[i] == ws[i].id
  {
    if |ws| == 0 then [] else Ids(ws[..|ws| - 1]) + [ws[|ws| - 1].id]
  }

  /** The default tiles have pairwise distinct ids */
  lemma DefaultIdsDistinct()
    ensures forall i, j :: 0 <= i < j < 13 ==> DefaultDashboardWidgets()[i].id != DefaultDashboardWidgets()[j].id
  {
    var ws := DefaultDashboardWidgets();
    assert ws[0].id == "cpu" && ws[1].id == "gpu" && ws[2].id == "ram" && ws[3].id == "processes";
    assert ws[4].id == "power" && ws[5].id == "surplus" && ws[6].id == "session_controls";
    assert ws[7].id == "session_cost" && ws[8].id == "session_energy" && ws[9].id == "monthly_estimate";
    assert ws[10].id == "session_duration" && ws[11].id == "daily_estimate" && ws[12].id == "hourly_estimate";
  }

  /** The largest `position` (0 for no widget) */
  function MaxPosition(ws: seq<DashboardWidget>): (m: nat)
    ensures forall i :: 0 <= i < |ws| ==> ws[i].position <= m
    ensures |ws| == 0 ==> m == 0
    ensures |ws| > 0 ==> exists i :: 0 <= i < |ws| && ws[i].position == m
  {
    if |ws| == 0 then 0
    else
      var m := MaxPosition(ws[..|ws| - 1]);
      var last := ws[|ws| - 1].position;
      assert forall i :: 0 <= i < |ws| - 1 ==> ws[i] == ws[..|ws| - 1][i];
      if m >= last then m else last
  }

  /** The first grid row below every widget (row 1 for no widget) */
  function MaxRowEnd(ws: seq<DashboardWidget>): (m: nat)
    ensures forall i :: 0 <= i < |ws| ==> ws[i].row + ws[i].rowSpan <= m
    ensures |ws| == 0 ==> m == 1
    ensures |ws| > 0 ==> exists i :: 0 <= i < |ws| && ws[i].row + ws[i].rowSpan == m
  {
    if |ws| == 0 then 1
    else if |ws| == 1 then ws[0].row + ws[0].rowSpan
    else
      var m := MaxRowEnd(ws[..|ws| - 1]);
      var last := ws[|ws| - 1].row + ws[|ws| - 1].rowSpan;
      assert forall i :: 0 <= i < |ws| - 1 ==> ws[i] == ws[..|ws| - 1][i];
      if m >= last then m else last
  }

  // ---------------------------------------------------------------------------
  // Merging missing defaults

  /** A default tile placed after the current layout: next position, first
      free row, first column */
  function Placed(d: DashboardWidget, ws: seq<DashboardWidget>): DashboardWidget {
    d.(position := MaxPosition(ws) + 1, row := MaxRowEnd(ws), col := 1)
  }

  /** One turn of the merge loop; `existing` is the set of ids held before
      the loop started */
  function MergeStep(ws: seq<DashboardWidget>, d: DashboardWidget, existing: set<string>): seq<DashboardWidget> {
    if d.id in existing then ws else ws + [Placed(d, ws)]
  }

  /** The merge loop run over the defaults `ds` */
  function Merged(ws: seq<DashboardWidget>, ds: seq<DashboardWidget>, existing: set<string>): (r: seq<DashboardWidget>)
    ensures |ws| <= |r| <= |ws| + |ds|
    ensures forall i :: 0 <= i < |ws| ==> r[i] == ws[i]
  {
    if |ds| == 0 then ws
    else MergeStep(Merged(ws, ds[..|ds| - 1], existing), ds[|ds| - 1], existing)
  }

  function IdSet(ws: seq<DashboardWidget>): (s: set<string>)
    ensures forall id :: id in s <==> exists i :: 0 <= i < |ws| && ws[i].id == id
  {
    set i | 0 <= i < |ws| :: ws[i].id
  }

  /** `merge_missing_widgets` on a widget list */
  function MergeMissing(ws: seq<DashboardWidget>, ds: seq<DashboardWidget>): (r: seq<DashboardWidget>)
    ensures |ws| <= |r| <= |ws| + |ds|
    ensures forall i :: 0 <= i < |ws| ==> r[i] == ws[i]
  {
    Merged(ws, ds, IdSet(ws))
  }

  /** The defaults whose id is not in `existing`, in order */
  function Missing(ds: seq<DashboardWidget>, existing: set<string>): (r: seq<DashboardWidget>)
    ensures |r| <= |ds|
  {
    if |ds| == 0 then []
    else Missing(ds[..|ds| - 1], existing) + (if ds[|ds| - 1].id in existing then [] else [ds[|ds| - 1]])
  }

  /** The merge keeps the old widgets as a prefix and appends exactly the
      missing defaults, in default order, each placed after everything
      before it */
  lemma {:induction false} MergedShape(ws: seq<DashboardWidget>, ds: seq<DashboardWidget>, existing: set<string>)
    ensures var r := Merged(ws, ds, existing);
      && |r| == |ws| + |Missing(ds, existing)|
      && r[..|ws|] == ws
      && forall k :: |ws| <= k < |r| ==> r[k] == Placed(Missing(ds, existing)[k - |ws|], r[..k])
    decreases |ds|
  {
    if |ds| > 0 {
      var prefix := ds[..|ds| - 1];
      var d := ds[|ds| - 1];
      MergedShape(ws, prefix, existing);
      var before := Merged(ws, prefix, existing);
      if d.id !in existing {
        var r := before + [Placed(d, before)];
        assert r[..|before|] == before;
        assert r[..|ws|] == before[..|ws|];
        forall k | |ws| <= k < |r|
          ensures r[k] == Placed(Missing(ds, existing)[k - |ws|], r[..k])
        {
          if k < |before| {
            assert r[..k] == before[..k];
          } else {
            assert r[..k] == before;
          }
        }
      }
    }
  }

  /** Every default id is in the merged list: either it was there already or
      the merge appended it */
  lemma {:induction false} MergedHasAll(ws: seq<DashboardWidget>, ds: seq<DashboardWidget>, existing: set<string>)
    requires existing <= IdSet(ws)
    ensures forall id :: id in IdSet(ws) ==> id in IdSet(Merged(ws, ds, existing))
    ensures forall j :: 0 <= j < |ds| ==> ds[j].id in IdSet(Merged(ws, ds, existing))
    decreases |ds|
  {
    if |ds| > 0 {
      var prefix := ds[..|ds| - 1];
      MergedHasAll(ws, prefix, existing);
      var before := Merged(ws, prefix, existing);
      var r := Merged(ws, ds, existing);
      assert r == before || r == before + [Placed(ds[|ds| - 1], before)];
      assert forall i :: 0 <= i < |before| ==> r[i] == before[i];
      forall id | id in IdSet(before)
        ensures id in IdSet(r)
      {
        var i :| 0 <= i < |before| && before[i].id == id;
        assert r[i].id == id;
      }
      forall j | 0 <= j < |ds|
        ensures ds[j].id in IdSet(r)
      {
        if j < |ds| - 1 {
          assert ds[j] == prefix[j];
        } else if ds[j].id !in existing {
          assert r[|before|].id == ds[j].id;
        }
      }
    }
  }

  /** When no default is missing the merge changes nothing */
  lemma {:induction false} MergedNothingMissing(ws: seq<DashboardWidget>, ds: seq<DashboardWidget>, existing: set<string>)
    requires forall j :: 0 <= j < |ds| ==> ds[j].id in existing
    ensures Merged(ws, ds, existing) == ws
    decreases |ds|
  {
    if |ds| > 0 {
      MergedNothingMissing(ws, ds[..|ds| - 1], existing);
    }
  }

  /** After merging, every default tile's id is present */
  lemma AllDefaultsPresent(ws: seq<DashboardWidget>, ds: seq<DashboardWidget>)
    ensures forall j :: 0 <= j < |ds| ==> ds[j].id in IdSet(MergeMissing(ws, ds))
  {
    MergedHasAll(ws, ds, IdSet(ws));
  }

  /** Merging a second time adds nothing */
  lemma MergeIdempotent(ws: seq<DashboardWidget>, ds: seq<DashboardWidget>)
    ensures MergeMissing(MergeMissing(ws, ds), ds) == MergeMissing(ws, ds)
  {
    var once := MergeMissing(ws, ds);
    MergedHasAll(ws, ds, IdSet(ws));
    MergedNothingMissing(once, ds, IdSet(once));
  }

  /** Each appended tile comes after every tile before it: its position is
      larger than theirs and its row is below all of them; it starts in the
      first column */
  lemma AppendedAfterEverything(ws: seq<DashboardWidget>, ds: seq<DashboardWidget>, k: nat, i: nat)
    requires |ws| <= k < |MergeMissing(ws, ds)| && i < k
    ensures MergeMissing(ws, ds)[k].position > MergeMissing(ws, ds)[i].position
    ensures MergeMissing(ws, ds)[k].row >= MergeMissing(ws, ds)[i].row + MergeMissing(ws, ds)[i].rowSpan
    ensures MergeMissing(ws, ds)[k].col == 1
  {
    var r := MergeMissing(ws, ds);
    MergedShape(ws, ds, IdSet(ws));
    assert r[..k][i] == r[i];
  }

  /** A configuration that already holds every default tile is left as it is,
      the stock one in particular */
  lemma DefaultLayoutUnchanged()
    ensures MergeMissing(DefaultDashboardWidgets(), DefaultDashboardWidgets()) == DefaultDashboardWidgets()
  {
    var ws := DefaultDashboardWidgets();
    forall j | 0 <= j < |ws|
      ensures ws[j].id in IdSet(ws)
    {
    }
    MergedNothingMissing(ws, ws, IdSet(ws));
  }

  // ---------------------------------------------------------------------------
  // The configuration object

  /** `Config`: the five sections, updated in place by the commands */
  class Config {
    var general: GeneralConfig
    var pricing: PricingConfig
    var widget: WidgetConfig
    var advanced: AdvancedConfig
    var dashboard: DashboardConfig

    /** `Config::default` */
    constructor Default()
      ensures general == DefaultGeneral() && pricing == DefaultPricing() && widget == DefaultWidget()
      ensures advanced == DefaultAdvanced() && dashboard == DefaultDashboard()
    {
      general := DefaultGeneral();
      pricing := DefaultPricing();
      widget := DefaultWidget();
      advanced := DefaultAdvanced();
      dashboard := DefaultDashboard();
    }

    /** A configuration as read from the file */
    constructor Loaded(general: GeneralConfig, pricing: PricingConfig, widget: WidgetConfig,
                       advanced: AdvancedConfig, dashboard: DashboardConfig)
      ensures this.general == general && this.pricing == pricing && this.widget == widget
      ensures this.advanced == advanced && this.dashboard == dashboard
    {
      this.general := general;
      this.pricing := pricing;
      this.widget := widget;
      this.advanced := advanced;
      this.dashboard := dashboard;
    }

    /** `merge_missing_widgets`: append each default tile whose id the
        layout lacks, placed after all tiles present at that moment */
    method MergeMissingWidgets()
      modifies this
      ensures dashboard == old(dashboard).(widgets := MergeMissing(old(dashboard.widgets), DefaultDashboardWidgets()))
      ensures general == old(general) && pricing == old(pricing) && widget == old(widget) && advanced == old(advanced)
    {
      var defaultWidgets := DefaultDashboardWidgets();
      var existingIds := IdSet(dashboard.widgets);
      ghost var start := dashboard.widgets;
      for i := 0 to |defaultWidgets|
        invariant dashboard == old(dashboard).(widgets := Merged(start, defaultWidgets[..i], existingIds))
        invariant general == old(general) && pricing == old(pricing) && widget == old(widget) && advanced == old(advanced)
      {
        var defaultWidget := defaultWidgets[i];
        assert defaultWidgets[..i + 1][..i] == defaultWidgets[..i];
        if defaultWidget.id !in existingIds {
          var maxPos := MaxPosition(dashboard.widgets);
          var maxRow := MaxRowEnd(dashboard.widgets);
          var newWidget := defaultWidget.(position := maxPos + 1, row := maxRow, col := 1);
          dashboard := dashboard.(widgets := dashboard.widgets + [newWidget]);
        }
      }
      assert defaultWidgets[..|defaultWidgets|] == defaultWidgets;
    }
  }
}
