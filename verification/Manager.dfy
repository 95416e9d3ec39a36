/** `TelemetryManager`: detector, rule engine, active alerts and incident pipeline as one state, step by step. */
module Manager {
  import opened Common
  import opened Domain
  import opened Rules
  import Anomaly
  import Detector
  import opened Persistence
  import opened Pipeline

  datatype ActiveKey =
    | OnRule(rule: RuleId, host: Option<HostId>)
    | OnAnomaly(host: Option<HostId>, metric: Metric)
    | OnCheck(check: CheckId)

  /** `log` is the deque of the most recent alerts; `home` is the host of the simulator, if registered. */
  datatype State = State(
    rt: Runtime, book: Book, detector: Detector.State,
    active: map<ActiveKey, AlertId>, log: seq<AlertId>, next: AlertId, home: Option<HostId>)

  const LOG_SIZE: nat := 500

  function Logged(log: seq<AlertId>, id: AlertId): seq<AlertId> {
    if |log| < LOG_SIZE then log + [id] else log[|log| - LOG_SIZE + 1..] + [id]
  }

  function Activate(m: State, key: ActiveKey, a: Alert, notify: bool): State {
    m.(rt := Raise(m.rt, a, notify), active := m.active[key := a.id], log := Logged(m.log, a.id))
  }

  function Deactivate(m: State, key: ActiveKey, a: Alert, host: Option<HostId>, notify: bool): State {
    m.(rt := Settle(m.rt, a, host, notify), active := m.active - {key})
  }

  /** The alert under a key, if the key is active. */
  function Existing(m: State, key: ActiveKey): Option<Alert> {
    if key in m.active && m.active[key] in m.rt.alerts then Some(m.rt.alerts[m.active[key]]) else None
  }

  // ----- Rule transitions -----

  function RuleKeyOf(a: Alert): Option<ActiveKey> {
    if a.rule.Some? then Some(OnRule(a.rule.value, a.host)) else None
  }

  /** `_apply_rule_transition`. */
  function ApplyTransition(m: State, t: Transition): State {
    var key := RuleKeyOf(t.alert);
    if key.None? then m
    else if t.action == Created then Activate(m, key.value, t.alert, true)
    else
      var existing := Existing(m, key.value);
      if existing.None? then m
      else
        var a := existing.value.(value := t.alert.value, resolved := true, resolvedAt := t.alert.resolvedAt);
        Deactivate(m, key.value, a, Or(a.host, m.home), true)
  }

  function ApplyAll(m: State, ts: seq<Transition>): State
    decreases |ts|
  {
    if ts == [] then m else ApplyAll(ApplyTransition(m, ts[0]), ts[1..])
  }

  // ----- Anomaly verdicts -----

  function AnomalyAlert(m: State, e: Event, v: Anomaly.Verdict): Alert {
    Alert(m.next, e.timestamp, OfMetric(v.metric), v.value, v.baseline, v.severity, false, None, false,
          Or(e.host, m.home), None, FromAnomaly, None, None)
  }

  /** One turn of the loop of `_process_anomaly_results`; `now` is the clock. */
  function ApplyVerdict(m: State, e: Event, now: Time, v: Anomaly.Verdict): State {
    var key := OnAnomaly(e.host, v.metric);
    var existing := Existing(m, key);
    if v.anomalous then
      if key !in m.active then Activate(m, key, AnomalyAlert(m, e, v), true).(next := m.next + 1)
      else if m.active[key] in m.rt.alerts then m.(rt := SetValue(m.rt, m.active[key], v.value))
      else m
    else if existing.None? then m
    else
      var a := existing.value.(resolved := true, resolvedAt := Some(now));
      Deactivate(m, key, a, Or(a.host, Or(e.host, m.home)), true)
  }

  function ApplyVerdicts(m: State, e: Event, now: Time, vs: seq<Anomaly.Verdict>): State
    decreases |vs|
  {
    if vs == [] then m else ApplyVerdicts(ApplyVerdict(m, e, now, vs[0]), e, now, vs[1..])
  }

  /** `process_event`, under the manager's lock. */
  function ProcessEvent(m: State, e: Event, now: Time): State
    requires m.detector.minHistory >= 1
  {
    var p := Detector.Observe(m.detector, e);
    var m1 := ApplyVerdicts(m.(detector := p.state), e, now, p.verdicts);
    var q := Evaluate(m1.book, e, m1.next);
    ApplyAll(m1.(book := EndPass(m1.book, q), next := q.next), q.out)
  }

  // ----- Synthetic checks -----

  datatype CheckRun = CheckRun(
    check: CheckId, service: Option<ServiceId>, success: bool, status: Option<nat>,
    duration: real, checkedAt: Time, failures: nat, threshold: int, expected: nat)

  function StatusValue(r: CheckRun): real {
    if r.status.Some? then r.status.value as real else 0.0
  }

  function CheckAlert(m: State, r: CheckRun): Alert {
    Alert(m.next, r.checkedAt, OfCheck(r.check), StatusValue(r), r.expected as real, Critical, false, None, false,
          None, r.service, FromCheck, None, None)
  }

  /** `process_synthetic_check_result`: no notifications here. */
  function ProcessCheck(m: State, r: CheckRun): State {
    var key := OnCheck(r.check);
    var existing := Existing(m, key);
    if r.success then
      if existing.None? then m
      else
        var a := existing.value.(value := r.duration, resolved := true, resolvedAt := Some(r.checkedAt));
        Deactivate(m, key, a, a.host, false)
    else if r.failures >= r.threshold then
      if key !in m.active then Activate(m, key, CheckAlert(m, r), false).(next := m.next + 1)
      else if m.active[key] in m.rt.alerts then m.(rt := SetValue(m.rt, m.active[key], StatusValue(r)))
      else m
    else m
  }

  // ----- Rule reload -----

  predicate IsOpenRuleAlert(a: Alert) {
    a.source == FromRule && !a.resolved && a.rule.Some?
  }

  /** The unresolved rule alerts still in the deque, oldest first. */
  function OpenRuleAlerts(alerts: map<AlertId, Alert>, log: seq<AlertId>): (r: seq<Alert>)
    ensures forall a :: a in r <==> exists k :: 0 <= k < |log| && log[k] in alerts && alerts[log[k]] == a && IsOpenRuleAlert(a)
  {
    if log == [] then []
    else
      var rest := OpenRuleAlerts(alerts, log[..|log| - 1]);
      var id := log[|log| - 1];
      if id in alerts && IsOpenRuleAlert(alerts[id]) then rest + [alerts[id]] else rest
  }

  /** `reload_alert_rules`. */
  function Reload(m: State, rows: seq<RuleRow>): State {
    var b := LoadRules(m.book, rows);
    m.(book := b.(states := HydrateActive(b.states, OpenRuleAlerts(m.rt.alerts, m.log))))
  }

  /** `acknowledge_alert`: only alerts still in the deque or still active are found. */
  function AcknowledgeAlert(m: State, id: AlertId): State {
    if id in m.log || id in m.active.Values then m.(rt := AckAlert(m.rt, id)) else m
  }

  // ----- Runs -----

  datatype Input =
    | Telemetry(event: Event, now: Time)
    | Check(run: CheckRun)
    | Rows(rows: seq<RuleRow>)
    | AckedAlert(alert: AlertId)
    | AckedIncident(incident: IncidentId)
    | WorkerTurn(turn: Turn)

  function Step(m: State, i: Input): State
    requires m.detector.minHistory >= 1
  {
    match i
    case Telemetry(e, now) => ProcessEvent(m, e, now)
    case Check(r) => ProcessCheck(m, r)
    case Rows(rows) => Reload(m, rows)
    case AckedAlert(id) => AcknowledgeAlert(m, id)
    case AckedIncident(id) => m.(rt := AckIncident(m.rt, id))
    case WorkerTurn(t) => m.(rt := m.rt.(store := Work(m.rt.store, t)))
  }

  function Initial(d: Detector.State, home: Option<HostId>, alertCapacity: nat, incidentCapacity: nat): State {
    State(Start(alertCapacity, incidentCapacity), Book([], map[], 0, 0, 0), d, map[], [], 0, home)
  }
}
