/** The alert rule that the operator sends to the API and the exporter reads back. */
module AlertRules {
  import opened GoStrings

  datatype RuleAnnotations = RuleAnnotations(summary: string, description: string, widgetUrl: string)

  const NO_ANNOTATIONS := RuleAnnotations("", "", "")

  datatype Filter = Filter(name: string, values: seq<string>)

  datatype Rule = Rule(
    id: string, alert: string, duration: string, operator: string, warningValue: real, criticalValue: real,
    expr: string, widgetTitle: string, correlationId: string,
    annotations: RuleAnnotations, filters: seq<Filter>)

  /** The dimensions a filter can constrain. */
  datatype Dimension =
    | DataCenter | Rack | HostID | Scope | Keyspace | Percentile | Consistency | Topic | GroupID | GroupBy

  /** The name that the controllers write for a dimension. */
  function WireName(d: Dimension): string {
    match d
    case DataCenter => "dc"
    case Rack => "rack"
    case HostID => "host_id"
    case Scope => "scope"
    case Keyspace => "keyspace"
    case Percentile => "percentile"
    case Consistency => "consistency"
    case Topic => "topic"
    case GroupID => "group_id"
    case GroupBy => "group_by"
  }

  datatype Recognised = Known(dimension: Dimension) | Unknown

  /** The dimension that the exporter's switch selects for a name. */
  function Recognise(name: string): Recognised {
    if name == "dc" then Known(DataCenter)
    else if name == "rack" then Known(Rack)
    else if name == "host_id" then Known(HostID)
    else if name == "scope" then Known(Scope)
    else if name == "keyspace" then Known(Keyspace)
    else if name == "percentile" then Known(Percentile)
    else if name == "consistency" then Known(Consistency)
    else if name == "topic" then Known(Topic)
    else if name == "group_id" then Known(GroupID)
    else if name == "group_by" then Known(GroupBy)
    else Unknown
  }

  lemma RecogniseWireName(d: Dimension)
    ensures Recognise(WireName(d)) == Known(d)
  {
    match d
    case DataCenter =>
    case Rack =>
    case HostID =>
    case Scope =>
    case Keyspace =>
    case Percentile =>
    case Consistency =>
    case Topic =>
    case GroupID => assert WireName(d)[0] == 'g';
    case GroupBy => assert WireName(d)[6] == 'b';
  }

  /** Log-event rules and metric rules share one list; the expression tells them apart. */
  predicate IsLogAlertExpr(expr: string) {
    HasPrefix(TrimSpace(expr), "events{")
  }
}
