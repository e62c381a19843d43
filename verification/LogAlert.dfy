/** Log alerts: the rule the controller builds, and the resource the exporter makes of a rule. */
module LogAlert {
  import opened Options
  import opened GoStrings
  import opened AlertRules
  import opened LogEventsExpr
  import DnsLabel

  datatype Annotations = Annotations(summary: string, description: string)

  datatype Filters = Filters(dataCenter: seq<string>, rack: seq<string>, hostID: seq<string>)

  const NO_FILTERS := Filters([], [], [])

  datatype Spec = Spec(
    name: string, operator: string, warningValue: real, criticalValue: real, duration: string,
    fields: LogFields, annotations: Option<Annotations>, filters: Option<Filters>)

  function FilterEntry(d: Dimension, values: seq<string>): seq<Filter> {
    if |values| > 0 then [Filter(WireName(d), values)] else []
  }

  function RuleFilters(filters: Option<Filters>): seq<Filter> {
    match filters
    case None => []
    case Some(f) =>
      FilterEntry(DataCenter, f.dataCenter) + FilterEntry(Rack, f.rack) + FilterEntry(HostID, f.hostID)
  }

  function RuleWith(spec: Spec, syncedAlertID: string, expr: string): Rule {
    Rule(syncedAlertID, spec.name, spec.duration, spec.operator, spec.warningValue, spec.criticalValue,
         expr, "", "",
         match spec.annotations
         case None => NO_ANNOTATIONS
         case Some(a) => RuleAnnotations(a.summary, a.description, ""),
         RuleFilters(spec.filters))
  }

  function BuildLogAlertRule(spec: Spec, syncedAlertID: string): Rule {
    RuleWith(spec, syncedAlertID, BuildLogEventsExpr(spec.fields))
  }

  /** The exporter's loop body: a rule filter overwrites the dimension it names. */
  function Apply(f: Filters, af: Filter): Filters {
    match Recognise(af.name)
    case Known(DataCenter) => f.(dataCenter := af.values)
    case Known(Rack) => f.(rack := af.values)
    case Known(HostID) => f.(hostID := af.values)
    case _ => f
  }

  function ApplyAll(fs: seq<Filter>): Filters {
    if fs == [] then NO_FILTERS else Apply(ApplyAll(fs[..|fs| - 1]), fs[|fs| - 1])
  }

  function ExportedAnnotations(a: RuleAnnotations): Option<Annotations> {
    if a.summary != "" || a.description != "" then Some(Annotations(a.summary, a.description)) else None
  }

  function Exported(rule: Rule): Spec {
    Spec(rule.alert, rule.operator, rule.warningValue, rule.criticalValue, rule.duration,
         ParsePairs(Inner(rule.expr), EMPTY_FIELDS),
         ExportedAnnotations(rule.annotations),
         if |rule.filters| > 0 then Some(ApplyAll(rule.filters)) else None)
  }

  /** The part of the exporter's options that resources take over. */
  datatype Scope = Scope(ns: string, connection: string, clusterName: string, clusterType: string)

  datatype Resource = Resource(name: string, scope: Scope, spec: Spec)

  /** The resource is named after the rule, by a valid label, and placed where the options say. */
  method LogAlertRuleToResource(rule: Rule, opts: Scope) returns (resource: Resource)
    ensures resource == Resource(DnsLabel.ToDNSLabel(rule.alert), opts, Exported(rule))
    ensures DnsLabel.IsLabel(resource.name)
  {
    var content, level, source, logType := ParseLogEventsExpr(rule.expr);
    var filters := None;
    if |rule.filters| > 0 {
      var f := NO_FILTERS;
      for i := 0 to |rule.filters|
        invariant f == ApplyAll(rule.filters[..i])
      {
        assert rule.filters[..i + 1][..i] == rule.filters[..i];
        f := Apply(f, rule.filters[i]);
      }
      assert rule.filters[..|rule.filters|] == rule.filters;
      filters := Some(f);
    }
    var spec := Spec(rule.alert, rule.operator, rule.warningValue, rule.criticalValue, rule.duration,
                     LogFields(content, level, source, logType),
                     ExportedAnnotations(rule.annotations), filters);
    DnsLabel.AlwaysALabel(rule.alert);
    resource := Resource(DnsLabel.ToDNSLabel(rule.alert), opts, spec);
  }

  /** What a round trip may change: pipes for commas, and empty optional blocks dropped. */
  function NormalisedSpec(spec: Spec): Spec {
    spec.(fields := Normalised(spec.fields),
          annotations := if spec.annotations == Some(Annotations("", "")) then None else spec.annotations,
          filters := if spec.filters == Some(NO_FILTERS) then None else spec.filters)
  }

  lemma FiltersSurvive(f: Filters)
    ensures ApplyAll(RuleFilters(Some(f))) == f
    ensures RuleFilters(Some(f)) == [] <==> f == NO_FILTERS
  {
    var a := FilterEntry(DataCenter, f.dataCenter);
    var b := a + FilterEntry(Rack, f.rack);
    var c := b + FilterEntry(HostID, f.hostID);
    ApplyEntry([], DataCenter, f.dataCenter);
    ApplyEntry(a, Rack, f.rack);
    ApplyEntry(b, HostID, f.hostID);
    assert [] + a == a;
  }

  lemma ApplyEntry(fs: seq<Filter>, d: Dimension, values: seq<string>)
    ensures ApplyAll(fs + FilterEntry(d, values))
         == if |values| > 0 then Apply(ApplyAll(fs), Filter(WireName(d), values)) else ApplyAll(fs)
    ensures Recognise(WireName(d)) == Known(d)
  {
    RecogniseWireName(d);
    if |values| > 0 {
      assert (fs + FilterEntry(d, values))[..|fs|] == fs;
    } else {
      assert fs + FilterEntry(d, values) == fs;
    }
  }

  /** Exporting the rule that the controller built gives back the spec, up to normalisation, if and
      only if level, source and type hold neither a quote nor a backslash. */
  lemma LogAlertRoundTrip(spec: Spec, syncedAlertID: string)
    ensures Exported(BuildLogAlertRule(spec, syncedAlertID)) == NormalisedSpec(spec) <==> FreeOfQuoting(spec.fields)
  {
    RoundTrip(spec.fields);
    RestFollows(spec, syncedAlertID, BuildLogEventsExpr(spec.fields));
  }

  /** Everything but the expression survives in any case. */
  lemma RestFollows(spec: Spec, syncedAlertID: string, expr: string)
    ensures Exported(RuleWith(spec, syncedAlertID, expr)) == NormalisedSpec(spec)
        <==> ParsePairs(Inner(expr), EMPTY_FIELDS) == Normalised(spec.fields)
  {
    if spec.filters.Some? {
      FiltersSurvive(spec.filters.value);
    }
  }

  /** Every rule built for a log alert is exported as a log alert. */
  lemma BuiltRuleIsLogAlert(spec: Spec, syncedAlertID: string)
    ensures IsLogAlertExpr(BuildLogAlertRule(spec, syncedAlertID).expr)
  {
    WrappedIsLogAlert(Join(PrintedAll(Parts(spec.fields)), ","));
  }

  lemma WrappedIsLogAlert(body: string)
    ensures IsLogAlertExpr("events{" + body + "}")
  {
    var expr := "events{" + body + "}";
    assert expr[0] == 'e' && expr[|expr| - 1] == '}';
    TrimIsTrimmed(expr, IsSpace);
  }

  /** A rule is posted under the ID that its resource was synced with, however the resource was edited since;
      it carries no panel. */
  lemma RuleKeepsItsID(spec: Spec, edited: Spec, syncedAlertID: string)
    ensures var (a, b) := (BuildLogAlertRule(spec, syncedAlertID), BuildLogAlertRule(edited, syncedAlertID));
            && a.id == b.id == syncedAlertID
            && b.alert == edited.name && b.widgetTitle == b.correlationId == b.annotations.widgetUrl == ""
  {
  }
}
