/** `TelemetryManager` as an object over its collaborators, proved against the steps of `Manager`. */
module Live {
  import opened Common
  import opened Domain
  import opened Rules
  import Anomaly
  import Detector
  import RuleEngine
  import opened Incidents
  import opened Persistence
  import opened Pipeline
  import opened Manager
  import opened Workers
  import IncidentEngine

  class TelemetryManager {
    const detector: Detector.AnomalyDetector
    const engine: RuleEngine.AlertRuleEngine
    const ids: RuleEngine.Uuids
    const incidents: IncidentEngine.Engine
    const alertOut: AlertPersistence
    const db: Database
    const home: Option<HostId>
    var alerts: map<AlertId, Alert>
    var active: map<ActiveKey, AlertId>
    var log: seq<AlertId>
    var notices: seq<Notice>

    function Value(): State
      reads this, detector, engine, ids, incidents, incidents.persistence, alertOut, db
    {
      State(Runtime(incidents.Value(), alerts,
                    Store(db.alerts, db.incidents, alertOut.Value(), incidents.persistence.Value(), db.deleted), notices),
            engine.Value(), detector.Value(), active, log, ids.next, home)
    }

    ghost predicate Valid()
      reads this, incidents
    {
      incidents.Valid()
    }

    constructor (threshold: real, windowSize: nat, minHistory: nat, home: Option<HostId>, alertCapacity: nat, incidentCapacity: nat)
      ensures Valid()
      ensures Value() == Initial(Detector.Empty(threshold, windowSize, minHistory), home, alertCapacity, incidentCapacity)
    {
      var incidentOut := new IncidentPersistence(incidentCapacity);
      detector := new Detector.AnomalyDetector(threshold, windowSize, minHistory);
      engine := new RuleEngine.AlertRuleEngine();
      ids := new RuleEngine.Uuids();
      incidents := new IncidentEngine.Engine(incidentOut);
      alertOut := new AlertPersistence(alertCapacity);
      db := new Database();
      this.home := home;
      alerts, active, log, notices := map[], map[], [], [];
    }

    method Log(id: AlertId)
      modifies this`log
      ensures log == Logged(old(log), id)
    {
      log := log + [id];
      if |log| > LOG_SIZE { log := log[|log| - LOG_SIZE..]; }
    }

    /** What raising an alert means for every source: active, logged, correlated, announced, queued. */
    method Raised(key: ActiveKey, alert: Alert, notify: bool)
      requires Valid()
      modifies this, incidents, incidents.persistence, alertOut
      ensures Valid() && Value() == Activate(old(Value()), key, alert, notify)
    {
      hide OnCreated, Logged, Put;
      active := active[key := alert.id];
      Log(alert.id);
      var incident := incidents.OnAlertCreated(alert);
      var placed := alert.(incident := Some(incident.id));
      alerts := alerts[alert.id := placed];
      if notify {
        notices := notices + [AlertNotice(alert.id, false)];
        if |incident.alertIds| == 1 { notices := notices + [IncidentNotice(incident.id, false)]; }
      }
      alertOut.Enqueue(placed, placed.host);
    }

    /** What resolving means: inactive, settled in its incident, announced, queued. */
    method Resolved(key: ActiveKey, alert: Alert, host: Option<HostId>, notify: bool)
      requires Valid()
      modifies this, incidents, incidents.persistence, alertOut
      ensures Valid() && Value() == Deactivate(old(Value()), key, alert, host, notify)
    {
      hide OnResolved, Put, Settle;
      ghost var rt := Value().rt;
      active := active - {key};
      alerts := alerts[alert.id := alert];
      var incident := incidents.OnAlertResolved(alert);
      if notify {
        notices := notices + [AlertNotice(alert.id, true)];
        if incident.Some? && incident.value.status == Closed { notices := notices + [IncidentNotice(incident.value.id, true)]; }
      }
      alertOut.Enqueue(alert, host);
      SettledRuntime(rt, alert, host, notify, incident, Value().rt);
    }

    /** `_apply_rule_transition`. */
    method ApplyRuleTransition(t: Transition)
      requires Valid()
      modifies this, incidents, incidents.persistence, alertOut
      ensures Valid() && Value() == ApplyTransition(old(Value()), t)
    {
      hide Activate, Deactivate;
      if t.alert.rule.None? { return; }
      var key := OnRule(t.alert.rule.value, t.alert.host);
      if t.action == Created {
        Raised(key, t.alert, true);
      } else if key in active && active[key] in alerts {
        var existing := alerts[active[key]];
        existing := existing.(value := t.alert.value, resolved := true, resolvedAt := t.alert.resolvedAt);
        Resolved(key, existing, Or(existing.host, home), true);
      }
    }

    /** `_process_anomaly_results`. */
    method ProcessAnomalyResults(results: seq<Anomaly.Verdict>, e: Event, now: Time)
      requires Valid()
      modifies this, ids, incidents, incidents.persistence, alertOut
      ensures Valid() && Value() == ApplyVerdicts(old(Value()), e, now, results)
    {
      hide ApplyVerdict;
      var i := 0;
      while i < |results|
        invariant 0 <= i <= |results| && Valid()
        invariant ApplyVerdicts(Value(), e, now, results[i..]) == ApplyVerdicts(old(Value()), e, now, results)
      {
        ProcessAnomalyResult(results[i], e, now);
        assert results[i..][1..] == results[i + 1..];
        i := i + 1;
      }
    }

    method ProcessAnomalyResult(result: Anomaly.Verdict, e: Event, now: Time)
      requires Valid()
      modifies this, ids, incidents, incidents.persistence, alertOut
      ensures Valid() && Value() == ApplyVerdict(old(Value()), e, now, result)
    {
      hide Raise, Logged, Deactivate;
      var key := OnAnomaly(e.host, result.metric);
      if result.anomalous {
        if key !in active {
          var id := ids.Draw();
          var alert := Alert(id, e.timestamp, OfMetric(result.metric), result.value, result.baseline, result.severity, false, None,
                             false, Or(e.host, home), None, FromAnomaly, None, None);
          Raised(key, alert, true);
        } else if active[key] in alerts {
          var existing := alerts[active[key]];
          alerts := alerts[active[key] := existing.(value := result.value)];
        }
      } else if key in active && active[key] in alerts {
        var existing := alerts[active[key]].(resolved := true, resolvedAt := Some(now));
        Resolved(key, existing, Or(existing.host, Or(e.host, home)), true);
      }
    }

    /** `process_event`; `now` is what the clock shows when an anomaly ends. */
    method ProcessEvent(e: Event, now: Time)
      requires Valid() && detector.minHistory >= 1
      modifies this, detector, engine, ids, incidents, incidents.persistence, alertOut
      ensures Valid() && Value() == Manager.ProcessEvent(old(Value()), e, now)
    {
      hide ApplyVerdicts, ApplyTransition, EvaluateAll, Detector.ObserveAll;
      var results := detector.Update(e);
      ProcessAnomalyResults(results, e, now);
      ghost var judged := Value();
      var transitions := engine.Evaluate(e, ids);
      ghost var before := Value();
      assert before == judged.(book := EndPass(judged.book, Rules.Evaluate(judged.book, e, judged.next)),
                               next := Rules.Evaluate(judged.book, e, judged.next).next);
      var i := 0;
      while i < |transitions|
        invariant 0 <= i <= |transitions| && Valid()
        invariant ApplyAll(Value(), transitions[i..]) == ApplyAll(before, transitions)
      {
        ApplyRuleTransition(transitions[i]);
        assert transitions[i..][1..] == transitions[i + 1..];
        i := i + 1;
      }
    }

    /** `process_synthetic_check_result`. */
    method ProcessSyntheticCheckResult(run: CheckRun)
      requires Valid()
      modifies this, ids, incidents, incidents.persistence, alertOut
      ensures Valid() && Value() == ProcessCheck(old(Value()), run)
    {
      hide Raise, Logged, Deactivate;
      var key := OnCheck(run.check);
      if run.success {
        if key in active && active[key] in alerts {
          var existing := alerts[active[key]];
          existing := existing.(value := run.duration, resolved := true, resolvedAt := Some(run.checkedAt));
          Resolved(key, existing, existing.host, false);
        }
      } else if run.failures >= run.threshold {
        var value := if run.status.Some? then run.status.value as real else 0.0;
        if key !in active {
          var id := ids.Draw();
          var alert := Alert(id, run.checkedAt, OfCheck(run.check), value, run.expected as real, Critical, false, None, false,
                             None, run.service, FromCheck, None, None);
          Raised(key, alert, false);
        } else if active[key] in alerts {
          alerts := alerts[active[key] := alerts[active[key]].(value := value)];
        }
      }
    }

    /** `reload_alert_rules`. */
    method ReloadAlertRules(rows: seq<RuleRow>)
      modifies engine
      ensures Value() == Reload(old(Value()), rows)
    {
      hide Rules.LoadRules, HydrateActive;
      engine.LoadRules(rows);
      var open := [];
      var i := 0;
      while i < |log|
        invariant 0 <= i <= |log| && open == OpenRuleAlerts(alerts, log[..i])
        invariant engine.Value() == Rules.LoadRules(old(engine.Value()), rows)
      {
        assert log[..i + 1][..i] == log[..i];
        if log[i] in alerts {
          var alert := alerts[log[i]];
          if alert.source == FromRule && !alert.resolved && alert.rule.Some? { open := open + [alert]; }
        }
        i := i + 1;
      }
      assert log[..i] == log;
      engine.HydrateActiveAlerts(open);
    }

    /** `acknowledge_alert`: looked up in the deque, then among the active alerts. */
    method Acknowledge(id: AlertId) returns (found: bool)
      modifies this`alerts, alertOut
      ensures Value() == AcknowledgeAlert(old(Value()), id)
      ensures found <==> id in alerts && (id in log || id in active.Values)
    {
      if (id !in log && id !in active.Values) || id !in alerts { return false; }
      var alert := alerts[id];
      if alert.acknowledged { return true; }
      alert := alert.(acknowledged := true);
      alerts := alerts[id := alert];
      alertOut.Enqueue(alert, alert.host);
      return true;
    }
  }

  /** What settling an alert comes to, given the incident that the engine returned. */
  lemma SettledRuntime(rt: Runtime, a: Alert, host: Option<HostId>, notify: bool, incident: Option<Incident>, rt': Runtime)
    requires var r := OnResolved(rt.ledger, a);
      && (incident.Some? <==> r.incident.Some?)
      && (incident.Some? ==> r.incident == Some(incident.value.id) && incident.value.id in r.ledger.incidents
                             && incident.value == r.ledger.incidents[incident.value.id])
    requires rt'.ledger == OnResolved(rt.ledger, a).ledger && rt'.alerts == rt.alerts[a.id := a]
    requires rt'.store == EnqueueAlert(if incident.Some? then EnqueueIncident(rt.store, IncidentEvent(incident.value, None)) else rt.store,
                                       AlertEvent(a, host))
    requires rt'.notices == rt.notices + (if notify then [AlertNotice(a.id, true)] else [])
      + (if notify && incident.Some? && incident.value.status == Closed then [IncidentNotice(incident.value.id, true)] else [])
    ensures rt' == Settle(rt, a, host, notify)
  {
    hide OnResolved, Put;
  }
}
