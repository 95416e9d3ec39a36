/** Rule reloads, and what holds over whole runs of the manager. */
module Reloads {
  import opened Common
  import opened Domain
  import opened Rules
  import opened Incidents
  import opened Persistence
  import opened Pipeline
  import opened Notices
  import opened Manager
  import opened Coherence
  import Evaluation

  // ----- What a reload leaves in each pair's state -----

  predicate IsFor(a: Alert, k: Key) {
    a.source == FromRule && a.rule == Some(k.rule) && a.host == k.host
  }

  function FiredBy(a: Alert): RuleState {
    RuleState(Some(a.timestamp), Some(a.timestamp), Some(a.id))
  }

  lemma {:induction false} HydratedAt(states: map<Key, RuleState>, alerts: seq<Alert>, k: Key)
    ensures var h := HydrateActive(states, alerts);
      || (k in h && exists i :: 0 <= i < |alerts| && IsFor(alerts[i], k) && h[k] == FiredBy(alerts[i]))
      || ((forall i :: 0 <= i < |alerts| ==> !IsFor(alerts[i], k)) && (k in h <==> k in states) && (k in h ==> h[k] == states[k]))
    decreases |alerts|
  {
    if alerts != [] {
      var a := alerts[0];
      var states' := if a.source == FromRule && a.rule.Some? then states[Key(a.rule.value, a.host) := FiredBy(a)] else states;
      HydratedAt(states', alerts[1..], k);
      var h := HydrateActive(states', alerts[1..]);
      if i :| 0 <= i < |alerts[1..]| && IsFor(alerts[1..][i], k) && k in h && h[k] == FiredBy(alerts[1..][i]) {
        assert alerts[i + 1] == alerts[1..][i];
      } else {
        assert forall i :: 0 < i < |alerts| ==> alerts[i] == alerts[1..][i - 1];
      }
    }
  }

  /** The open rule alerts of the deque are the ones under their keys. */
  lemma LoggedIsOwn(m: State, k: Key, a: Alert)
    requires Steady(m) && a in OpenRuleAlerts(m.rt.alerts, m.log) && IsFor(a, k)
    ensures KeyOf(k) in m.active && m.active[KeyOf(k)] == a.id && a.id in m.log && a.id in m.rt.alerts
    ensures a == m.rt.alerts[a.id]
  {
    hide Healthy, NotifiesOnce, EngineAgrees;
    var i :| 0 <= i < |m.log| && m.log[i] in m.rt.alerts && m.rt.alerts[m.log[i]] == a && IsOpenRuleAlert(a);
    assert LogEntry(m.rt.alerts, m.active, m.log[i]);
    var key :| key in m.active && m.active[key] == m.log[i];
    HeldAlert(m, key);
  }

  lemma OwnIsLogged(m: State, k: Key)
    requires Steady(m) && KeyOf(k) in m.active && m.active[KeyOf(k)] in m.log
    ensures m.active[KeyOf(k)] in m.rt.alerts
    ensures var a := m.rt.alerts[m.active[KeyOf(k)]]; a in OpenRuleAlerts(m.rt.alerts, m.log) && IsFor(a, k)
  {
    hide Healthy, NotifiesOnce, EngineAgrees, Tracks;
    HeldAlert(m, KeyOf(k));
    var i :| 0 <= i < |m.log| && m.log[i] == m.active[KeyOf(k)];
    assert m.rt.alerts[m.log[i]] == m.rt.alerts[m.active[KeyOf(k)]];
  }

  /** A pair whose alert is still in the deque is rebuilt from it; any other keeps its state if its rule is loaded. */
  lemma ReloadedAt(m: State, rows: seq<RuleRow>, k: Key)
    requires Steady(m)
    ensures var states := Reload(m, rows).book.states;
      if KeyOf(k) in m.active && m.active[KeyOf(k)] in m.log then
        && m.active[KeyOf(k)] in m.rt.alerts && m.rt.alerts[m.active[KeyOf(k)]].id == m.active[KeyOf(k)]
        && k in states && states[k] == FiredBy(m.rt.alerts[m.active[KeyOf(k)]])
      else
        && (k in states <==> k in m.book.states && HasRule(Known(rows), k.rule))
        && (k in states ==> states[k] == m.book.states[k])
  {
    hide Healthy, NotifiesOnce, EngineAgrees, Tracks, Known, HasRule, HydrateActive, OpenRuleAlerts;
    var open := OpenRuleAlerts(m.rt.alerts, m.log);
    var b := LoadRules(m.book, rows);
    HydratedAt(b.states, open, k);
    if KeyOf(k) in m.active && m.active[KeyOf(k)] in m.log {
      HeldAlert(m, KeyOf(k));
      OwnIsLogged(m, k);
      var a := m.rt.alerts[m.active[KeyOf(k)]];
      var j :| 0 <= j < |open| && open[j] == a;
      var h := HydrateActive(b.states, open);
      var i :| 0 <= i < |open| && IsFor(open[i], k) && h[k] == FiredBy(open[i]);
      LoggedIsOwn(m, k, open[i]);
    } else {
      forall i | 0 <= i < |open| ensures !IsFor(open[i], k) {
        if IsFor(open[i], k) { LoggedIsOwn(m, k, open[i]); }
      }
    }
  }

  /** The engine will still know every open alert of a rule it loads: it knows it now, or the deque does. */
  ghost predicate ReloadSafe(m: State, rows: seq<RuleRow>) {
    forall k :: KeyOf(k) in m.active && HasRule(Known(rows), k.rule) ==>
      StateAt(m.book.states, k).active.Some? || m.active[KeyOf(k)] in m.log
  }

  lemma ReloadAgrees(m: State, rows: seq<RuleRow>)
    requires Steady(m)
    ensures EngineAgrees(Reload(m, rows).book, m.active, m.rt.alerts, m.log)
  {
    hide Healthy, NotifiesOnce, Tracks, Known, HasRule, HydrateActive, OpenRuleAlerts;
    var b, b' := m.book, Reload(m, rows).book;
    forall k ensures PairHeld(StateAt(b'.states, k), k, m.active, m.rt.alerts) {
      ReloadedAt(m, rows, k);
      assert PairHeld(StateAt(b.states, k), k, m.active, m.rt.alerts);
    }
    forall k | KeyOf(k) in m.active ensures Owned(b'.states, m.active, k) || m.active[KeyOf(k)] !in m.log {
      ReloadedAt(m, rows, k);
    }
    forall k | k in b'.states && !HasRule(b'.rules, k.rule) ensures b'.states[k].active.Some? {
      ReloadedAt(m, rows, k);
    }
  }

  /** `reload_alert_rules` always keeps the manager steady, and keeps it complete exactly when it is safe. */
  lemma ReloadCoherent(m: State, rows: seq<RuleRow>)
    requires Steady(m)
    ensures Steady(Reload(m, rows))
    ensures Complete(m) ==> (Complete(Reload(m, rows)) <==> ReloadSafe(m, rows))
  {
    hide Healthy, NotifiesOnce, Tracks, EngineAgrees, Known, HasRule, HydrateActive, OpenRuleAlerts;
    var m' := Reload(m, rows);
    ReloadAgrees(m, rows);
    forall k | KeyOf(k) in m.active && HasRule(Known(rows), k.rule)
      ensures Owned(m'.book.states, m.active, k) <==> StateAt(m.book.states, k).active.Some? || m.active[KeyOf(k)] in m.log
    {
      ReloadedAt(m, rows, k);
      if StateAt(m.book.states, k).active.Some? { Evaluation.OwnedIsHeld(m, k); }
    }
  }

  /** A reload is safe if each rule it loads was loaded before or has no open alert. */
  lemma SafeUnlessRulesReturn(m: State, rows: seq<RuleRow>)
    requires Steady(m) && Complete(m)
    requires forall k :: KeyOf(k) in m.active && HasRule(Known(rows), k.rule) ==> HasRule(m.book.rules, k.rule)
    ensures ReloadSafe(m, rows)
  {
    hide Healthy, NotifiesOnce, Tracks, EngineAgrees, Known, HasRule;
    forall k | KeyOf(k) in m.active && HasRule(Known(rows), k.rule)
      ensures StateAt(m.book.states, k).active.Some? || m.active[KeyOf(k)] in m.log
    {
      assert Owned(m.book.states, m.active, k);
    }
  }

  // ----- Every step -----

  lemma AcknowledgeCoherent(m: State, id: AlertId, c: bool)
    requires Coherent(m, c)
    ensures Coherent(AcknowledgeAlert(m, id), c) && Evolves(m.rt, AcknowledgeAlert(m, id).rt)
  {
    hide Sound, Describes, Durable, NotifiesOnce, Tracks, EngineAgrees, Complete, Evolves;
    NothingHappened(m.rt);
    if id in m.rt.alerts {
      KnownById(m.rt, id);
      var rt' := AckAlert(m.rt, id);
      AckAlertHealthy(m.rt, id);
      AckAlertIsQuiet(m.rt, id);
      if rt' != m.rt {
        TouchTracks(m.rt.alerts, m.active, m.log, m.next, id, rt'.alerts[id]);
        EngineFrame(m.book, m.active, m.rt.alerts, m.log, m.active, rt'.alerts, m.log);
        CompleteIs(m);
        CompleteIs(m.(rt := rt'));
        if c { TouchOpen(m.rt.alerts, m.active, id, rt'.alerts[id]); }
      }
    }
  }

  lemma AcknowledgeIncidentCoherent(m: State, id: IncidentId, c: bool)
    requires Coherent(m, c)
    ensures Coherent(m.(rt := AckIncident(m.rt, id)), c) && Evolves(m.rt, AckIncident(m.rt, id))
  {
    hide Healthy, NotifiesOnce, Tracks, EngineAgrees, Evolves;
    AckIncidentHealthy(m.rt, id);
    AckIncidentIsQuiet(m.rt, id);
  }

  lemma WorkCoherent(m: State, t: Turn, c: bool)
    requires Coherent(m, c)
    ensures var m' := m.(rt := m.rt.(store := Work(m.rt.store, t))); Coherent(m', c) && Evolves(m.rt, m'.rt)
  {
    var rt' := m.rt.(store := Work(m.rt.store, t));
    StoreIsNotNoticed(m.rt, rt');
    hide Healthy, NotifiesOnce, Tracks, EngineAgrees, Evolves, Work;
    WorkHealthy(m.rt, t);
  }

  lemma StoreIsNotNoticed(rt: Runtime, rt': Runtime)
    requires rt' == rt.(store := rt'.store)
    ensures Evolves(rt, rt') && (NotifiesOnce(rt) ==> NotifiesOnce(rt'))
  {
    if NotifiesOnce(rt) { QuietStep(rt, rt'); }
  }

  /** An input before which the engine will not lose an open alert of a rule it loads. */
  ghost predicate Safe(m: State, i: Input) {
    i.Rows? ==> ReloadSafe(m, i.rows)
  }

  /** Every input keeps the manager steady and only moves alerts and incidents forward; a safe one keeps it complete. */
  lemma StepCoherent(m: State, i: Input, c: bool)
    requires Coherent(m, c) && (c ==> Safe(m, i))
    ensures Coherent(Step(m, i), c) && Evolves(m.rt, Step(m, i).rt)
  {
    hide Healthy, NotifiesOnce, Tracks, EngineAgrees, Complete, Evolves, ReloadSafe, ProcessEvent, ProcessCheck,
         Reload, AcknowledgeAlert, Work;
    match i
    case Telemetry(e, now) => Evaluation.EventCoherent(m, e, now, c);
    case Check(r) => CheckCoherent(m, r, c);
    case Rows(rows) => ReloadRuntime(m, rows); ReloadCoherent(m, rows);
    case AckedAlert(id) => AcknowledgeCoherent(m, id, c);
    case AckedIncident(id) => AcknowledgeIncidentCoherent(m, id, c);
    case WorkerTurn(t) => WorkCoherent(m, t, c);
  }

  lemma ReloadRuntime(m: State, rows: seq<RuleRow>)
    ensures Reload(m, rows) == m.(book := Reload(m, rows).book) && Evolves(m.rt, Reload(m, rows).rt)
  {
  }
}
