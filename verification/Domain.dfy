/** The records that travel through the runtime: telemetry events, alerts and rules. */
module Domain {
  import opened Common

  type HostId = nat
  type ServiceId = nat
  type RuleId = nat
  type CheckId = nat
  type AlertId = nat
  type IncidentId = nat

  datatype Metric = Cpu | Memory | Temperature | NetworkMbps | RequestsPerSecond | ErrorRate | LatencyMs

  datatype Severity = Info | Warning | Critical

  function Rank(s: Severity): nat {
    match s
    case Info => 1
    case Warning => 2
    case Critical => 3
  }

  /** One telemetry sample; `host` is absent for the simulator, whose key is "system". */
  datatype Event = Event(
    host: Option<HostId>, timestamp: Time,
    cpu: real, memory: real, temperature: real, networkMbps: real,
    requestsPerSecond: real, errorRate: real, latencyMs: real)
  {
    function Value(m: Metric): real {
      match m
      case Cpu => cpu
      case Memory => memory
      case Temperature => temperature
      case NetworkMbps => networkMbps
      case RequestsPerSecond => requestsPerSecond
      case ErrorRate => errorRate
      case LatencyMs => latencyMs
    }
  }

  datatype Source = FromAnomaly | FromRule | FromCheck

  /** What an alert is about: a telemetry metric or a synthetic check. */
  datatype Subject = OfMetric(metric: Metric) | OfCheck(check: CheckId)

  datatype Alert = Alert(
    id: AlertId, timestamp: Time, subject: Subject, value: real, baseline: real,
    severity: Severity, resolved: bool, resolvedAt: Option<Time>, acknowledged: bool,
    host: Option<HostId>, service: Option<ServiceId>, source: Source,
    rule: Option<RuleId>, incident: Option<IncidentId>)

  datatype Operator = Above | AtLeast | Below | AtMost | Unknown

  datatype Rule = Rule(
    id: RuleId, metric: Metric, op: Operator, threshold: real,
    duration: Time, cooldown: Time, severity: Severity, enabled: bool)

  /** A stored rule; the metric is absent when the engine does not know its name. */
  datatype RuleRow = RuleRow(rule: Rule, known: bool)
}
