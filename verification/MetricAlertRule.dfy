/** Metric alerts: the rule the controller builds, the panel lookups of client and exporter, and the
    resource the exporter makes of a rule. */
module MetricAlertRule {
  import opened Options
  import opened GoStrings
  import opened AlertRules

  datatype Filters = Filters(
    dataCenter: seq<string>, rack: seq<string>, hostID: seq<string>, scope: seq<string>, keyspace: seq<string>,
    percentile: seq<string>, consistency: seq<string>, topic: seq<string>, groupID: seq<string>, groupBy: seq<string>)

  const NO_FILTERS := Filters([], [], [], [], [], [], [], [], [], [])

  /** `warningText` is the warning threshold as `%g` prints it. */
  datatype Spec = Spec(
    name: string, operator: string, warningValue: real, warningText: string, criticalValue: real, duration: string,
    dashboard: string, chart: string, metric: string,
    annotations: Option<RuleAnnotations>, filters: Option<Filters>)

  function Get(f: Filters, d: Dimension): seq<string> {
    match d
    case DataCenter => f.dataCenter
    case Rack => f.rack
    case HostID => f.hostID
    case Scope => f.scope
    case Keyspace => f.keyspace
    case Percentile => f.percentile
    case Consistency => f.consistency
    case Topic => f.topic
    case GroupID => f.groupID
    case GroupBy => f.groupBy
  }

  function Set(f: Filters, d: Dimension, values: seq<string>): Filters {
    match d
    case DataCenter => f.(dataCenter := values)
    case Rack => f.(rack := values)
    case HostID => f.(hostID := values)
    case Scope => f.(scope := values)
    case Keyspace => f.(keyspace := values)
    case Percentile => f.(percentile := values)
    case Consistency => f.(consistency := values)
    case Topic => f.(topic := values)
    case GroupID => f.(groupID := values)
    case GroupBy => f.(groupBy := values)
  }

  // ---------------------------------------------------------------- the rule a controller builds

  const DIMENSIONS: set<Dimension> :=
    {DataCenter, Rack, HostID, Scope, Keyspace, Percentile, Consistency, Topic, GroupID, GroupBy}

  function Entry(f: Filters, d: Dimension): Filter {
    Filter(WireName(d), Get(f, d))
  }

  /** `order` goes once through exactly the dimensions among `ds` that `f` constrains. */
  ghost predicate Enumerates(order: seq<Dimension>, f: Filters, ds: set<Dimension>) {
    && (forall i :: 0 <= i < |order| ==> order[i] in ds && |Get(f, order[i])| > 0)
    && (forall i, j :: 0 <= i < j < |order| ==> order[i] != order[j])
    && (forall d :: d in ds && |Get(f, d)| > 0 ==> d in order)
  }

  function Entries(f: Filters, order: seq<Dimension>): seq<Filter> {
    seq(|order|, i requires 0 <= i < |order| => Entry(f, order[i]))
  }

  lemma EnumerateOneMore(order: seq<Dimension>, f: Filters, done: set<Dimension>, d: Dimension)
    requires Enumerates(order, f, done) && d !in done
    ensures Enumerates(if |Get(f, d)| > 0 then order + [d] else order, f, done + {d})
    ensures Entries(f, order + [d]) == Entries(f, order) + [Entry(f, d)]
  {
  }

  /** The loop over the filter map, whose iteration order Go leaves open. */
  method EmitFilters(f: Filters) returns (out: seq<Filter>)
    ensures exists order :: Enumerates(order, f, DIMENSIONS) && out == Entries(f, order)
  {
    out := [];
    ghost var order: seq<Dimension> := [];
    var todo := DIMENSIONS;
    ghost var done: set<Dimension> := {};
    while todo != {}
      invariant done !! todo && done + todo == DIMENSIONS
      invariant Enumerates(order, f, done) && out == Entries(f, order)
      decreases todo
    {
      var d :| d in todo;
      EnumerateOneMore(order, f, done, d);
      if |Get(f, d)| > 0 {
        out := out + [Entry(f, d)];
        order := order + [d];
      }
      todo := todo - {d};
      done := done + {d};
    }
    assert done == DIMENSIONS;
  }

  ghost predicate Built(rule: Rule, spec: Spec, syncedAlertID: string, correlationID: string) {
    && rule == Rule(syncedAlertID, spec.name, spec.duration, spec.operator, spec.warningValue, spec.criticalValue,
                    spec.metric + " " + spec.operator + " " + spec.warningText, spec.chart, correlationID,
                    if spec.annotations.Some? then spec.annotations.value else NO_ANNOTATIONS,
                    rule.filters)
    && (match spec.filters
        case None => rule.filters == []
        case Some(f) => exists order :: Enumerates(order, f, DIMENSIONS) && rule.filters == Entries(f, order))
  }

  method BuildMetricAlertRule(spec: Spec, syncedAlertID: string, correlationID: string) returns (rule: Rule)
    ensures Built(rule, spec, syncedAlertID, correlationID)
  {
    rule := Rule("", spec.name, spec.duration, spec.operator, spec.warningValue, spec.criticalValue,
                 "", spec.chart, correlationID, NO_ANNOTATIONS, []);
    if syncedAlertID != "" {
      rule := rule.(id := syncedAlertID);
    }
    rule := rule.(expr := spec.metric + " " + spec.operator + " " + spec.warningText);
    if spec.annotations.Some? {
      rule := rule.(annotations := spec.annotations.value);
    }
    if spec.filters.Some? {
      var filters := EmitFilters(spec.filters.value);
      rule := rule.(filters := filters);
    }
  }

  // ---------------------------------------------------------------- panels

  datatype Panel = Panel(uuid: string, title: string)

  datatype Dashboard = Dashboard(name: string, panels: seq<Panel>)

  datatype PanelInfo = PanelInfo(dashboard: string, chart: string)

  /** A panel together with the dashboard it stands on. */
  datatype Placed = Placed(uuid: string, info: PanelInfo)

  function PlacePanels(name: string, panels: seq<Panel>): seq<Placed> {
    seq(|panels|, i requires 0 <= i < |panels| => Placed(panels[i].uuid, PanelInfo(name, panels[i].title)))
  }

  function PlaceAll(ds: seq<Dashboard>): seq<Placed> {
    if ds == [] then [] else PlaceAll(ds[..|ds| - 1]) + PlacePanels(ds[|ds| - 1].name, ds[|ds| - 1].panels)
  }

  /** A later panel overwrites an earlier one with the same UUID. */
  function IndexOf(ps: seq<Placed>): map<string, PanelInfo> {
    if ps == [] then map[] else IndexOf(ps[..|ps| - 1])[ps[|ps| - 1].uuid := ps[|ps| - 1].info]
  }

  lemma IndexSnoc(before: seq<Placed>, placed: seq<Placed>, j: nat)
    requires j < |placed|
    ensures IndexOf(before + placed[..j + 1]) == IndexOf(before + placed[..j])[placed[j].uuid := placed[j].info]
  {
    var more := before + placed[..j + 1];
    assert more[|more| - 1] == placed[j];
    assert more[..|more| - 1] == before + placed[..j];
  }

  /** The inner loop: the panels of one dashboard. */
  method IndexPanels(index: map<string, PanelInfo>, dash: Dashboard, ghost before: seq<Placed>)
    returns (r: map<string, PanelInfo>)
    requires index == IndexOf(before)
    ensures r == IndexOf(before + PlacePanels(dash.name, dash.panels))
  {
    r := index;
    ghost var placed := PlacePanels(dash.name, dash.panels);
    assert before + placed[..0] == before;
    for j := 0 to |dash.panels|
      invariant r == IndexOf(before + placed[..j])
    {
      IndexSnoc(before, placed, j);
      r := r[dash.panels[j].uuid := PanelInfo(dash.name, dash.panels[j].title)];
    }
    assert placed[..|placed|] == placed;
  }

  method BuildPanelIndex(ds: seq<Dashboard>) returns (index: map<string, PanelInfo>)
    ensures index == IndexOf(PlaceAll(ds))
  {
    index := map[];
    for i := 0 to |ds|
      invariant index == IndexOf(PlaceAll(ds[..i]))
    {
      index := IndexPanels(index, ds[i], PlaceAll(ds[..i]));
      assert ds[..i + 1][..i] == ds[..i];
    }
    assert ds[..|ds|] == ds;
  }

  ghost predicate NoneAt(ps: seq<Placed>, info: PanelInfo) {
    forall i :: 0 <= i < |ps| ==> ps[i].info != info
  }

  /** `u` belongs to the first panel standing at `info`. */
  ghost predicate FirstAt(ps: seq<Placed>, info: PanelInfo, u: Option<string>) {
    match u
    case None => NoneAt(ps, info)
    case Some(uuid) => exists i :: 0 <= i < |ps| && ps[i] == Placed(uuid, info) && NoneAt(ps[..i], info)
  }

  /** The inner loop: the first panel of one dashboard with the wanted title. */
  method FindPanel(dash: Dashboard, chartTitle: string) returns (u: Option<string>)
    ensures FirstAt(PlacePanels(dash.name, dash.panels), PanelInfo(dash.name, chartTitle), u)
  {
    ghost var placed := PlacePanels(dash.name, dash.panels);
    for j := 0 to |dash.panels|
      invariant NoneAt(placed[..j], PanelInfo(dash.name, chartTitle))
    {
      if dash.panels[j].title == chartTitle {
        assert placed[j] == Placed(dash.panels[j].uuid, PanelInfo(dash.name, chartTitle));
        return Some(dash.panels[j].uuid);
      }
    }
    assert placed[..|placed|] == placed;
    return None;
  }

  method ResolveDashboardPanel(ds: seq<Dashboard>, dashboardName: string, chartTitle: string)
    returns (u: Option<string>)
    ensures FirstAt(PlaceAll(ds), PanelInfo(dashboardName, chartTitle), u)
  {
    ghost var info := PanelInfo(dashboardName, chartTitle);
    for i := 0 to |ds|
      invariant NoneAt(PlaceAll(ds[..i]), info)
    {
      ghost var before := PlaceAll(ds[..i]);
      ghost var placed := PlacePanels(ds[i].name, ds[i].panels);
      assert ds[..i + 1][..i] == ds[..i];
      assert PlaceAll(ds[..i + 1]) == before + placed;
      if ds[i].name == dashboardName {
        u := FindPanel(ds[i], chartTitle);
        if u.Some? {
          PlacedPrefix(ds, i + 1);
          FirstInLater(before, placed, PlaceAll(ds), info, u);
          return;
        }
      }
    }
    assert ds[..|ds|] == ds;
    return None;
  }

  lemma FirstInLater(before: seq<Placed>, placed: seq<Placed>, all: seq<Placed>, info: PanelInfo, u: Option<string>)
    requires before + placed <= all && NoneAt(before, info)
    requires u.Some? && FirstAt(placed, info, u)
    ensures FirstAt(all, info, u)
  {
    var i :| 0 <= i < |placed| && placed[i] == Placed(u.value, info) && NoneAt(placed[..i], info);
    assert all[|before| + i] == (before + placed)[|before| + i] == placed[i];
    assert all[..|before| + i] == before + placed[..i];
  }

  lemma {:induction false} PlacedPrefix(ds: seq<Dashboard>, n: nat)
    requires n <= |ds|
    ensures PlaceAll(ds[..n]) <= PlaceAll(ds)
  {
    if n < |ds| {
      PlacedPrefix(ds[..|ds| - 1], n);
      assert ds[..|ds| - 1][..n] == ds[..n];
    } else {
      assert ds[..n] == ds;
    }
  }

  ghost predicate LastAtPosition(ps: seq<Placed>, uuid: string, info: PanelInfo, i: nat) {
    i < |ps| && ps[i] == Placed(uuid, info) && forall j :: i < j < |ps| ==> ps[j].uuid != uuid
  }

  /** The last panel with the UUID stands at `info`. */
  ghost predicate LastAt(ps: seq<Placed>, uuid: string, info: PanelInfo) {
    exists i: nat :: LastAtPosition(ps, uuid, info, i)
  }

  lemma LastAtSnoc(ps: seq<Placed>, last: Placed, uuid: string, info: PanelInfo)
    ensures LastAt(ps + [last], uuid, info)
       <==> if last.uuid == uuid then last.info == info else LastAt(ps, uuid, info)
  {
    var more := ps + [last];
    assert more[|ps|] == last;
    if last == Placed(uuid, info) {
      assert LastAtPosition(more, uuid, info, |ps|);
    } else if last.uuid != uuid {
      forall i: nat ensures LastAtPosition(more, uuid, info, i) <==> LastAtPosition(ps, uuid, info, i) {
        assert forall j :: 0 <= j < |ps| ==> more[j] == ps[j];
      }
    }
  }

  /** The exporter's index leads a UUID to a place if and only if its last panel stands there. */
  lemma {:induction false} IndexLeadsExactly(ps: seq<Placed>, uuid: string, info: PanelInfo)
    ensures uuid in IndexOf(ps) && IndexOf(ps)[uuid] == info <==> LastAt(ps, uuid, info)
  {
    if ps != [] {
      IndexLeadsExactly(ps[..|ps| - 1], uuid, info);
      LastAtSnoc(ps[..|ps| - 1], ps[|ps| - 1], uuid, info);
      assert ps == ps[..|ps| - 1] + [ps[|ps| - 1]];
    }
  }

  /** A UUID that the controller's search has found is in the exporter's index, somewhere. */
  lemma {:induction false} FoundIsIndexed(ps: seq<Placed>, i: nat)
    requires i < |ps|
    ensures ps[i].uuid in IndexOf(ps)
  {
    if i < |ps| - 1 {
      FoundIsIndexed(ps[..|ps| - 1], i);
    }
  }

  ghost predicate DistinctPanels(ps: seq<Placed>) {
    forall i, j :: 0 <= i < j < |ps| ==> ps[i].uuid != ps[j].uuid
  }

  /** With distinct panel UUIDs, the exporter's index undoes the controller's linear search. */
  lemma IndexUndoesSearch(ds: seq<Dashboard>, info: PanelInfo, uuid: string)
    requires DistinctPanels(PlaceAll(ds))
    requires FirstAt(PlaceAll(ds), info, Some(uuid))
    ensures LastAt(PlaceAll(ds), uuid, info)
    ensures uuid in IndexOf(PlaceAll(ds)) && IndexOf(PlaceAll(ds))[uuid] == info
  {
    var i :| 0 <= i < |PlaceAll(ds)| && PlaceAll(ds)[i] == Placed(uuid, info);
    assert LastAtPosition(PlaceAll(ds), uuid, info, i);
    IndexLeadsExactly(PlaceAll(ds), uuid, info);
  }

  /** A UUID that two panels share sends the exporter to the later chart. */
  lemma SharedPanelUUID(uuid: string, first: PanelInfo, second: PanelInfo)
    requires first != second
    ensures var ps := [Placed(uuid, first), Placed(uuid, second)];
            FirstAt(ps, first, Some(uuid)) && uuid in IndexOf(ps) && IndexOf(ps)[uuid] != first
  {
    var ps := [Placed(uuid, first), Placed(uuid, second)];
    assert ps[0] == Placed(uuid, first) && NoneAt(ps[..0], first);
  }

  // ---------------------------------------------------------------- the exporter

  function ExtractMetric(expr: string): string {
    if |Fields(expr)| >= 1 then Fields(expr)[0] else expr
  }

  function Apply(f: Filters, af: Filter): Filters {
    if |af.values| == 0 then f
    else match Recognise(af.name)
         case Known(d) => Set(f, d, af.values)
         case Unknown => f
  }

  function ApplyAll(fs: seq<Filter>): Filters {
    if fs == [] then NO_FILTERS else Apply(ApplyAll(fs[..|fs| - 1]), fs[|fs| - 1])
  }

  function Converted(fs: seq<Filter>): Option<Filters> {
    if fs == [] then None else Some(ApplyAll(fs))
  }

  method ConvertFilters(apiFilters: seq<Filter>) returns (r: Option<Filters>)
    ensures r == Converted(apiFilters)
  {
    if |apiFilters| == 0 {
      return None;
    }
    var f := NO_FILTERS;
    for i := 0 to |apiFilters|
      invariant f == ApplyAll(apiFilters[..i])
    {
      assert apiFilters[..i + 1][..i] == apiFilters[..i];
      if |apiFilters[i].values| == 0 {
        continue;
      }
      match Recognise(apiFilters[i].name) {
        case Known(d) => f := Set(f, d, apiFilters[i].values);
        case Unknown =>
      }
    }
    assert apiFilters[..|apiFilters|] == apiFilters;
    return Some(f);
  }

  /** The exported resource. The threshold text is taken over: the exporter keeps the number. */
  function Exported(rule: Rule, index: map<string, PanelInfo>, warningText: string): Spec {
    var at := if rule.correlationId in index then index[rule.correlationId]
              else if rule.widgetTitle != "" then PanelInfo("<UNKNOWN_DASHBOARD>", rule.widgetTitle)
              else PanelInfo("", "");
    Spec(rule.alert, rule.operator, rule.warningValue, warningText, rule.criticalValue, rule.duration,
         at.dashboard, at.chart, ExtractMetric(rule.expr),
         if rule.annotations.summary != "" || rule.annotations.description != "" then Some(rule.annotations) else None,
         Converted(rule.filters))
  }

  // ---------------------------------------------------------------- round trip

  /** Empty optional blocks and absent ones are the same thing to the API. */
  function NormalisedSpec(spec: Spec): Spec {
    spec.(annotations := if spec.annotations == Some(NO_ANNOTATIONS) then None else spec.annotations,
          filters := if spec.filters == Some(NO_FILTERS) then None else spec.filters)
  }

  predicate IsWord(s: string) {
    s != "" && forall i :: 0 <= i < |s| ==> !IsSpace(s[i])
  }

  lemma FirstWord(s: string)
    ensures |Fields(s)| >= 1 ==> IsWord(Fields(s)[0])
    ensures Fields(s) == [] ==> forall i :: 0 <= i < |s| ==> IsSpace(s[i])
  {
    TrimLeftShrinks(s, IsSpace);
    var t := TrimLeft(s, IsSpace);
    if t != [] {
      assert t[..WordLength(t)][0] == t[0];
    } else {
      OnlySpaces(s);
    }
  }

  lemma {:induction false} OnlySpaces(s: string)
    requires TrimLeft(s, IsSpace) == []
    ensures forall i :: 0 <= i < |s| ==> IsSpace(s[i])
  {
    if s != [] {
      OnlySpaces(s[1..]);
    }
  }

  /** The metric is read back exactly when it is one non-empty word. */
  lemma MetricSurvives(metric: string, tail: string)
    ensures ExtractMetric(metric + " " + tail) == metric <==> IsWord(metric)
  {
    var expr := metric + " " + tail;
    FirstWord(expr);
    if IsWord(metric) {
      assert TrimLeft(expr, IsSpace) == expr;
      assert expr[|metric|] == ' ';
      var n := WordLength(expr);
      assert n == |metric| by {
        assert forall i :: 0 <= i < |metric| ==> expr[i] == metric[i];
      }
      assert expr[..n] == metric;
    } else if |Fields(expr)| == 0 {
      assert |expr| > |metric|;
    }
  }

  lemma ApplyEntry(g: Filters, f: Filters, e: Dimension, d: Dimension)
    requires |Get(f, e)| > 0
    ensures Get(Apply(g, Entry(f, e)), d) == if d == e then Get(f, e) else Get(g, d)
  {
    RecogniseWireName(e);
    GetOfSet(g, e, Get(f, e), d);
  }

  lemma GetOfSet(g: Filters, e: Dimension, values: seq<string>, d: Dimension)
    ensures Get(Set(g, e, values), d) == if d == e then values else Get(g, d)
  {
  }

  lemma ApplyLast(f: Filters, order: seq<Dimension>)
    requires order != []
    ensures ApplyAll(Entries(f, order))
         == Apply(ApplyAll(Entries(f, order[..|order| - 1])), Entry(f, order[|order| - 1]))
  {
    assert Entries(f, order)[..|order| - 1] == Entries(f, order[..|order| - 1]);
  }

  lemma InSnoc<T>(s: seq<T>, x: T)
    requires s != []
    ensures x in s <==> x in s[..|s| - 1] || x == s[|s| - 1]
  {
    assert s == s[..|s| - 1] + [s[|s| - 1]];
  }

  lemma {:induction false} ApplyEntries(f: Filters, order: seq<Dimension>, d: Dimension)
    requires forall i :: 0 <= i < |order| ==> |Get(f, order[i])| > 0
    ensures Get(ApplyAll(Entries(f, order)), d) == if d in order then Get(f, d) else []
  {
    if order == [] {
      assert Entries(f, order) == [];
    } else {
      var init := order[..|order| - 1];
      var last := order[|order| - 1];
      ApplyEntries(f, init, d);
      ApplyLast(f, order);
      ApplyEntry(ApplyAll(Entries(f, init)), f, last, d);
      InSnoc(order, d);
    }
  }

  /** Whatever order the filter map was emitted in, the exporter restores the filters. */
  lemma FiltersSurvive(f: Filters, order: seq<Dimension>)
    requires Enumerates(order, f, DIMENSIONS)
    ensures Converted(Entries(f, order)) == if f == NO_FILTERS then None else Some(f)
  {
    forall d ensures Get(ApplyAll(Entries(f, order)), d) == Get(f, d) {
      ApplyEntries(f, order, d);
      EveryDimension(d);
    }
    SameFilters(ApplyAll(Entries(f, order)), f);
    if order == [] {
      NothingEnumerated(f);
    } else {
      SomeConstrained(f, order[0]);
    }
  }

  lemma EveryDimension(d: Dimension)
    ensures d in DIMENSIONS
  {
  }

  lemma NothingEnumerated(f: Filters)
    requires Enumerates([], f, DIMENSIONS)
    ensures f == NO_FILTERS
  {
    forall d ensures Get(f, d) == Get(NO_FILTERS, d) {
      EveryDimension(d);
    }
    SameFilters(f, NO_FILTERS);
  }

  lemma SomeConstrained(f: Filters, d: Dimension)
    requires |Get(f, d)| > 0
    ensures f != NO_FILTERS
  {
  }

  lemma SameFilters(f: Filters, g: Filters)
    requires forall d :: Get(f, d) == Get(g, d)
    ensures f == g
  {
    assert Get(f, DataCenter) == Get(g, DataCenter) && Get(f, Rack) == Get(g, Rack);
    assert Get(f, HostID) == Get(g, HostID) && Get(f, Scope) == Get(g, Scope);
    assert Get(f, Keyspace) == Get(g, Keyspace) && Get(f, Percentile) == Get(g, Percentile);
    assert Get(f, Consistency) == Get(g, Consistency) && Get(f, Topic) == Get(g, Topic);
    assert Get(f, GroupID) == Get(g, GroupID) && Get(f, GroupBy) == Get(g, GroupBy);
  }

  /** The annotations hold a widget URL and nothing that the exporter looks at. */
  predicate WidgetUrlAlone(a: Option<RuleAnnotations>) {
    a.Some? && a.value.summary == "" && a.value.description == "" && a.value.widgetUrl != ""
  }

  /** For every emission order of the filters and every panel layout, exporting the rule of a resolved
      alert restores its spec, up to empty blocks, if and only if the last panel with the alert's UUID
      is the one meant, the metric is one word and the annotations are not a widget URL alone. */
  lemma MetricAlertRoundTrip(spec: Spec, rule: Rule, syncedAlertID: string, correlationID: string, ds: seq<Dashboard>)
    requires FirstAt(PlaceAll(ds), PanelInfo(spec.dashboard, spec.chart), Some(correlationID))
    requires Built(rule, spec, syncedAlertID, correlationID)
    ensures Exported(rule, IndexOf(PlaceAll(ds)), spec.warningText) == NormalisedSpec(spec)
        <==> && LastAt(PlaceAll(ds), correlationID, PanelInfo(spec.dashboard, spec.chart))
             && IsWord(spec.metric) && !WidgetUrlAlone(spec.annotations)
  {
    var ps, info := PlaceAll(ds), PanelInfo(spec.dashboard, spec.chart);
    var i :| 0 <= i < |ps| && ps[i] == Placed(correlationID, info);
    FoundIsIndexed(ps, i);
    IndexLeadsExactly(ps, correlationID, info);
    BuiltMetric(spec, rule, syncedAlertID, correlationID);
    BuiltFilters(spec, rule, syncedAlertID, correlationID);
    RestFollows(spec, rule, syncedAlertID, correlationID, IndexOf(ps));
  }

  lemma BuiltMetric(spec: Spec, rule: Rule, syncedAlertID: string, correlationID: string)
    requires Built(rule, spec, syncedAlertID, correlationID)
    ensures ExtractMetric(rule.expr) == spec.metric <==> IsWord(spec.metric)
  {
    var tail := spec.operator + " " + spec.warningText;
    MetricSurvives(spec.metric, tail);
    assert rule.expr == spec.metric + " " + tail;
  }

  lemma BuiltFilters(spec: Spec, rule: Rule, syncedAlertID: string, correlationID: string)
    requires Built(rule, spec, syncedAlertID, correlationID)
    ensures Converted(rule.filters) == if spec.filters == Some(NO_FILTERS) then None else spec.filters
  {
    if spec.filters.Some? {
      var order :| Enumerates(order, spec.filters.value, DIMENSIONS)
                   && rule.filters == Entries(spec.filters.value, order);
      FiltersSurvive(spec.filters.value, order);
    }
  }

  /** Once the panel is indexed and the filters are restored, place, metric and annotations decide. */
  lemma RestFollows(spec: Spec, rule: Rule, syncedAlertID: string, correlationID: string, index: map<string, PanelInfo>)
    requires correlationID in index
    requires Built(rule, spec, syncedAlertID, correlationID)
    requires Converted(rule.filters) == NormalisedSpec(spec).filters
    ensures Exported(rule, index, spec.warningText) == NormalisedSpec(spec)
        <==> && index[correlationID] == PanelInfo(spec.dashboard, spec.chart)
             && ExtractMetric(rule.expr) == spec.metric && !WidgetUrlAlone(spec.annotations)
  {
    assert rule.annotations == if spec.annotations.Some? then spec.annotations.value else NO_ANNOTATIONS;
  }

  /** Without its panel in the index a rule still brings its chart title, on a dashboard that is marked as
      unknown, or neither if the title is empty; the rest survives under the same condition. */
  lemma UnindexedKeepsChart(
    spec: Spec, rule: Rule, syncedAlertID: string, correlationID: string, index: map<string, PanelInfo>)
    requires correlationID !in index
    requires Built(rule, spec, syncedAlertID, correlationID)
    ensures var e := Exported(rule, index, spec.warningText);
            && e.chart == spec.chart
            && e.dashboard == (if spec.chart != "" then "<UNKNOWN_DASHBOARD>" else "")
            && (e == NormalisedSpec(spec).(dashboard := e.dashboard) <==>
                  IsWord(spec.metric) && !WidgetUrlAlone(spec.annotations))
  {
    BuiltMetric(spec, rule, syncedAlertID, correlationID);
    BuiltFilters(spec, rule, syncedAlertID, correlationID);
    assert rule.annotations == if spec.annotations.Some? then spec.annotations.value else NO_ANNOTATIONS;
  }

  // ---------------------------------------------------------------- which exporter takes the rule

  /** The first of the three texts of the expression that is not blank. */
  function LeadingText(spec: Spec): string {
    if TrimLeft(spec.metric, IsSpace) != "" then spec.metric
    else if TrimLeft(spec.operator, IsSpace) != "" then spec.operator
    else spec.warningText
  }

  /** A built metric rule is exported as a metric alert if and only if the first text of its expression
      that is not blank, normally the metric, does not begin like a log-event expression. */
  lemma BuiltRuleIsMetricAlert(spec: Spec, rule: Rule, syncedAlertID: string, correlationID: string)
    requires Built(rule, spec, syncedAlertID, correlationID)
    ensures !IsLogAlertExpr(rule.expr) <==> !HasPrefix(TrimLeft(LeadingText(spec), IsSpace), "events{")
  {
    var tail := spec.operator + " " + spec.warningText;
    assert rule.expr == spec.metric + " " + tail;
    LeadingDecides(spec.metric, tail, "events{");
    LeadingDecides(spec.operator, spec.warningText, "events{");
    TrimRightKeepsPrefix(TrimLeft(spec.warningText, IsSpace), "events{");
  }

  predicate Solid(s: string) {
    forall i :: 0 <= i < |s| ==> !IsSpace(s[i])
  }

  /** Trimming on the right leaves a prefix without blanks alone. */
  lemma {:induction false} TrimRightKeepsPrefix(s: string, prefix: string)
    requires Solid(prefix)
    ensures HasPrefix(TrimRight(s, IsSpace), prefix) <==> HasPrefix(s, prefix)
  {
    if s != "" && IsSpace(s[|s| - 1]) {
      TrimRightKeepsPrefix(s[..|s| - 1], prefix);
    }
  }

  lemma LeadingDecides(a: string, b: string, prefix: string)
    requires Solid(prefix)
    ensures HasPrefix(TrimSpace(a + " " + b), prefix) <==>
            if TrimLeft(a, IsSpace) != "" then HasPrefix(TrimLeft(a, IsSpace), prefix)
            else HasPrefix(TrimSpace(b), prefix)
  {
    TrimLeftAppend(a, " " + b, IsSpace);
    TrimLeftAppend(" ", b, IsSpace);
    assert a + " " + b == a + (" " + b);
    assert TrimLeft(" ", IsSpace) == "";
    TrimRightKeepsPrefix(TrimLeft(a + " " + b, IsSpace), prefix);
    TrimRightKeepsPrefix(TrimLeft(b, IsSpace), prefix);
    PrefixOfWord(TrimLeft(a, IsSpace), TrimLeft(a, IsSpace) + " " + b, prefix);
  }

  /** A prefix without blanks of a text that goes on with a blank is a prefix of what comes before. */
  lemma PrefixOfWord(word: string, s: string, prefix: string)
    requires word < s && s[|word|] == ' '
    requires Solid(prefix)
    ensures HasPrefix(s, prefix) <==> HasPrefix(word, prefix)
  {
    if |prefix| > |word| {
      assert IsSpace(s[|word|]) && !IsSpace(prefix[|word|]);
    }
  }
}
