/** What every step of the manager keeps: its active alerts, the rule engine and the incidents agree. */
module Coherence {
  import opened Common
  import opened Domain
  import opened Rules
  import Anomaly
  import opened Incidents
  import opened Persistence
  import opened Pipeline
  import opened Notices
  import opened Manager

  // ----- The invariant, piece by piece -----

  predicate KeyFits(k: ActiveKey, a: Alert) {
    match k
    case OnRule(r, h) => a.source == FromRule && a.rule == Some(r) && a.host == h
    case OnAnomaly(_, metric) => a.source == FromAnomaly && a.subject == OfMetric(metric)
    case OnCheck(c) => a.source == FromCheck && a.subject == OfCheck(c)
  }

  predicate Holds(alerts: map<AlertId, Alert>, k: ActiveKey, id: AlertId) {
    id in alerts && !alerts[id].resolved && KeyFits(k, alerts[id])
  }

  ghost predicate HasKey(active: map<ActiveKey, AlertId>, id: AlertId) {
    exists k :: k in active && active[k] == id
  }

  ghost predicate LogEntry(alerts: map<AlertId, Alert>, active: map<ActiveKey, AlertId>, id: AlertId) {
    id in alerts && (alerts[id].resolved || HasKey(active, id))
  }

  /** Every key holds its own open alert of the right kind, and the open alerts of the deque have keys. */
  ghost predicate Tracks(alerts: map<AlertId, Alert>, active: map<ActiveKey, AlertId>, log: seq<AlertId>,
                         next: AlertId) {
    && (forall k :: k in active ==> Holds(alerts, k, active[k]))
    && (forall j, k :: j in active && k in active && active[j] == active[k] ==> j == k)
    && (forall a: AlertId :: a in alerts ==> a < next)
    && (forall i :: 0 <= i < |log| ==> LogEntry(alerts, active, log[i]))
  }

  function KeyOf(k: Key): ActiveKey {
    OnRule(k.rule, k.host)
  }

  /** An alert the engine believes active is the one under the matching key, and fired when it says. */
  predicate PairHeld(s: RuleState, k: Key, active: map<ActiveKey, AlertId>, alerts: map<AlertId, Alert>) {
    s.active.Some? ==>
      && KeyOf(k) in active && active[KeyOf(k)] == s.active.value
      && s.active.value in alerts && s.fired == Some(alerts[s.active.value].timestamp)
  }

  /** The engine knows the alert under the key. */
  predicate Owned(states: map<Key, RuleState>, active: map<ActiveKey, AlertId>, k: Key)
    requires KeyOf(k) in active
  {
    StateAt(states, k).active == Some(active[KeyOf(k)])
  }

  ghost predicate EngineAgrees(b: Book, active: map<ActiveKey, AlertId>, alerts: map<AlertId, Alert>,
                               log: seq<AlertId>) {
    && (forall k :: PairHeld(StateAt(b.states, k), k, active, alerts))
    && (forall k :: KeyOf(k) in active ==> Owned(b.states, active, k) || active[KeyOf(k)] !in log)
    && (forall k :: k in b.states && !HasRule(b.rules, k.rule) ==> b.states[k].active.Some?)
  }

  /** Kept by every step, whatever rules are deleted, changed or brought back. */
  ghost predicate Steady(m: State) {
    && Healthy(m.rt) && NotifiesOnce(m.rt)
    && Tracks(m.rt.alerts, m.active, m.log, m.next)
    && EngineAgrees(m.book, m.active, m.rt.alerts, m.log)
    && m.detector.minHistory >= 1
  }

  /** Every open alert is under a key, and the engine knows every key of a rule it has loaded. */
  ghost predicate Complete(m: State) {
    && (forall a :: a in m.rt.alerts && !m.rt.alerts[a].resolved ==> HasKey(m.active, a))
    && (forall k :: KeyOf(k) in m.active && HasRule(m.book.rules, k.rule) ==> Owned(m.book.states, m.active, k))
  }

  // ----- Activation and deactivation -----

  lemma LoggedElements(log: seq<AlertId>, id: AlertId, x: AlertId)
    requires x in Logged(log, id)
    ensures x == id || x in log
  {
  }

  lemma ActivateTracks(alerts: map<AlertId, Alert>, active: map<ActiveKey, AlertId>, log: seq<AlertId>, next: AlertId,
                       k: ActiveKey, a: Alert)
    requires Tracks(alerts, active, log, next) && a.id == next && !a.resolved && KeyFits(k, a)
    requires k in active ==> active[k] !in log
    ensures Tracks(alerts[a.id := a], active[k := a.id], Logged(log, a.id), next + 1)
  {
    var alerts', active', log' := alerts[a.id := a], active[k := a.id], Logged(log, a.id);
    forall j | j in active' ensures Holds(alerts', j, active'[j]) {
      if j != k { assert Holds(alerts, j, active[j]); }
    }
    forall i | 0 <= i < |log'| ensures LogEntry(alerts', active', log'[i]) {
      var x := log'[i];
      if x == a.id {
        assert active'[k] == x;
      } else {
        assert x in log' && x in log by { LoggedElements(log, a.id, x); }
        assert LogEntry(alerts, active, x);
        if !alerts[x].resolved {
          var j :| j in active && active[j] == x;
          assert j != k && active'[j] == x;
        }
      }
    }
  }

  lemma DeactivateTracks(alerts: map<AlertId, Alert>, active: map<ActiveKey, AlertId>, log: seq<AlertId>, next: AlertId,
                         k: ActiveKey, a: Alert)
    requires Tracks(alerts, active, log, next) && k in active && active[k] == a.id && a.resolved
    ensures Tracks(alerts[a.id := a], active - {k}, log, next)
  {
    var alerts', active' := alerts[a.id := a], active - {k};
    assert Holds(alerts, k, a.id);
    forall j | j in active' ensures Holds(alerts', j, active'[j]) { assert Holds(alerts, j, active[j]); }
    forall i | 0 <= i < |log| ensures LogEntry(alerts', active', log[i]) {
      assert LogEntry(alerts, active, log[i]);
      if log[i] != a.id && !alerts[log[i]].resolved {
        var j :| j in active && active[j] == log[i];
        assert j in active' && active'[j] == log[i];
      }
    }
  }

  /** A change that leaves an alert's identity, kind and resolution alone. */
  predicate Touches(a: Alert, b: Alert) {
    b == a.(value := b.value, acknowledged := b.acknowledged)
  }

  lemma TouchTracks(alerts: map<AlertId, Alert>, active: map<ActiveKey, AlertId>, log: seq<AlertId>, next: AlertId,
                    id: AlertId, a: Alert)
    requires Tracks(alerts, active, log, next) && id in alerts && Touches(alerts[id], a)
    ensures Tracks(alerts[id := a], active, log, next)
  {
    var alerts' := alerts[id := a];
    forall j | j in active ensures Holds(alerts', j, active[j]) { assert Holds(alerts, j, active[j]); }
    forall i | 0 <= i < |log| ensures LogEntry(alerts', active, log[i]) { assert LogEntry(alerts, active, log[i]); }
  }

  /** Alerts keep the time they were raised at. */
  ghost predicate KeepsTimes(alerts: map<AlertId, Alert>, alerts': map<AlertId, Alert>) {
    forall a :: a in alerts ==> a in alerts' && alerts'[a].timestamp == alerts[a].timestamp
  }

  /** Keys that are not about rules come and go without the engine noticing. */
  lemma EngineFrame(b: Book, active: map<ActiveKey, AlertId>, alerts: map<AlertId, Alert>, log: seq<AlertId>,
                    active': map<ActiveKey, AlertId>, alerts': map<AlertId, Alert>, log': seq<AlertId>)
    requires EngineAgrees(b, active, alerts, log) && KeepsTimes(alerts, alerts')
    requires forall k :: (KeyOf(k) in active <==> KeyOf(k) in active') && (KeyOf(k) in active ==> active'[KeyOf(k)] == active[KeyOf(k)])
    requires forall k :: KeyOf(k) in active && active[KeyOf(k)] in log' ==> active[KeyOf(k)] in log
    ensures EngineAgrees(b, active', alerts', log')
  {
    forall k ensures PairHeld(StateAt(b.states, k), k, active', alerts') {
      assert PairHeld(StateAt(b.states, k), k, active, alerts);
    }
    forall k | KeyOf(k) in active' ensures Owned(b.states, active', k) || active'[KeyOf(k)] !in log' {
      assert Owned(b.states, active, k) || active[KeyOf(k)] !in log;
    }
  }

  // ----- One alert raised or settled under a key that is not a rule's -----

  lemma RaiseAlerts(m: State, key: ActiveKey, a: Alert, notify: bool) returns (b: Alert)
    ensures Activate(m, key, a, notify).rt.alerts == m.rt.alerts[a.id := b]
    ensures b == a.(incident := b.incident)
  {
    b := a.(incident := OnCreated(m.rt.ledger, a).incident);
  }

  lemma ActivateEngine(b: Book, active: map<ActiveKey, AlertId>, alerts: map<AlertId, Alert>, log: seq<AlertId>,
                       next: AlertId,
                       key: ActiveKey, a: Alert)
    requires EngineAgrees(b, active, alerts, log) && Tracks(alerts, active, log, next) && a.id == next && !key.OnRule?
    ensures EngineAgrees(b, active[key := a.id], alerts[a.id := a], Logged(log, a.id))
  {
    forall k | KeyOf(k) in active && active[KeyOf(k)] in Logged(log, a.id) ensures active[KeyOf(k)] in log {
      LoggedElements(log, a.id, active[KeyOf(k)]);
      assert Holds(alerts, KeyOf(k), active[KeyOf(k)]);
    }
    EngineFrame(b, active, alerts, log, active[key := a.id], alerts[a.id := a], Logged(log, a.id));
  }

  lemma FreshId(m: State)
    requires Steady(m)
    ensures m.next !in m.rt.alerts && Indexed(m.rt.ledger)
  {
  }

  lemma NextIsNewer(m: State)
    requires Steady(m)
    ensures Newer(m.rt, m.next)
  {
    hide Healthy, NotifiesOnce, EngineAgrees;
  }

  lemma HeldAlert(m: State, key: ActiveKey)
    requires Steady(m) && key in m.active
    ensures Holds(m.rt.alerts, key, m.active[key]) && m.rt.alerts[m.active[key]].id == m.active[key]
  {
    KnownById(m.rt, m.active[key]);
  }

  lemma NothingHappened(rt: Runtime)
    ensures Evolves(rt, rt)
  {
  }

  lemma ActivateSteady(m: State, key: ActiveKey, a: Alert, notify: bool)
    requires Steady(m) && !key.OnRule? && key !in m.active && a.id == m.next && !a.resolved && KeyFits(key, a)
    requires notify <==> Speaks(a)
    ensures Steady(Activate(m, key, a, notify).(next := m.next + 1)) && Evolves(m.rt, Activate(m, key, a, notify).rt)
  {
    hide Sound, Agrees, Describes, Durable, NotifiesOnce, Raise, Indexed, Evolves, EngineAgrees, Logged, Tracks;
    FreshId(m);
    assert Newer(m.rt, a.id) by { NextIsNewer(m); }
    var m' := Activate(m, key, a, notify);
    var b := RaiseAlerts(m, key, a, notify);
    RaiseHealthy(m.rt, a, notify);
    RaiseNotifiesOnce(m.rt, a, notify);
    RaiseEvolves(m.rt, a, notify);
    ActivateTracks(m.rt.alerts, m.active, m.log, m.next, key, b);
    ActivateEngine(m.book, m.active, m.rt.alerts, m.log, m.next, key, b);
  }

  lemma DeactivateSteady(m: State, key: ActiveKey, a: Alert, host: Option<HostId>, notify: bool)
    requires Steady(m) && !key.OnRule? && key in m.active && m.active[key] == a.id && Resolves(m.rt.alerts, a)
    requires notify <==> Speaks(a)
    ensures Steady(Deactivate(m, key, a, host, notify)) && Evolves(m.rt, Deactivate(m, key, a, host, notify).rt)
  {
    hide Sound, Agrees, Describes, Durable, NotifiesOnce, Evolves;
    var m' := Deactivate(m, key, a, host, notify);
    SettleHealthy(m.rt, a, host, notify);
    SettleNotifiesOnce(m.rt, a, host, notify);
    SettleEvolves(m.rt, a, host, notify);
    DeactivateTracks(m.rt.alerts, m.active, m.log, m.next, key, a);
    EngineFrame(m.book, m.active, m.rt.alerts, m.log, m'.active, m'.rt.alerts, m'.log);
  }

  lemma SetValueSteady(m: State, id: AlertId, value: real)
    requires Steady(m) && id in m.rt.alerts && !m.rt.alerts[id].resolved
    ensures Steady(m.(rt := SetValue(m.rt, id, value))) && Evolves(m.rt, SetValue(m.rt, id, value))
  {
    hide Sound, Agrees, Describes, Durable, NotifiesOnce, Evolves;
    var rt' := SetValue(m.rt, id, value);
    SetValueHealthy(m.rt, id, value);
    SetValueIsQuiet(m.rt, id, value);
    TouchTracks(m.rt.alerts, m.active, m.log, m.next, id, rt'.alerts[id]);
    EngineFrame(m.book, m.active, m.rt.alerts, m.log, m.active, rt'.alerts, m.log);
  }

  // ----- Open alerts and their keys -----

  ghost predicate OpenHaveKeys(alerts: map<AlertId, Alert>, active: map<ActiveKey, AlertId>) {
    forall a :: a in alerts && !alerts[a].resolved ==> HasKey(active, a)
  }

  lemma ActivateOpen(alerts: map<AlertId, Alert>, active: map<ActiveKey, AlertId>, k: ActiveKey, a: Alert)
    requires OpenHaveKeys(alerts, active) && k !in active
    ensures OpenHaveKeys(alerts[a.id := a], active[k := a.id])
  {
    var active' := active[k := a.id];
    forall b | b in alerts[a.id := a] && !alerts[a.id := a][b].resolved ensures HasKey(active', b) {
      if b == a.id {
        assert active'[k] == b;
      } else {
        var j :| j in active && active[j] == b;
        assert active'[j] == b;
      }
    }
  }

  lemma DeactivateOpen(alerts: map<AlertId, Alert>, active: map<ActiveKey, AlertId>, k: ActiveKey, a: Alert)
    requires OpenHaveKeys(alerts, active) && k in active && active[k] == a.id && a.resolved
    ensures OpenHaveKeys(alerts[a.id := a], active - {k})
  {
    var active' := active - {k};
    forall b | b in alerts[a.id := a] && !alerts[a.id := a][b].resolved ensures HasKey(active', b) {
      var j :| j in active && active[j] == b;
      assert j in active' && active'[j] == b;
    }
  }

  lemma TouchOpen(alerts: map<AlertId, Alert>, active: map<ActiveKey, AlertId>, id: AlertId, a: Alert)
    requires OpenHaveKeys(alerts, active) && id in alerts && Touches(alerts[id], a)
    ensures OpenHaveKeys(alerts[id := a], active)
  {
  }

  ghost predicate KnowsLoaded(b: Book, active: map<ActiveKey, AlertId>) {
    forall k :: KeyOf(k) in active && HasRule(b.rules, k.rule) ==> Owned(b.states, active, k)
  }

  lemma KnowsFrame(b: Book, active: map<ActiveKey, AlertId>, active': map<ActiveKey, AlertId>)
    requires KnowsLoaded(b, active)
    requires forall k :: (KeyOf(k) in active <==> KeyOf(k) in active') && (KeyOf(k) in active ==> active'[KeyOf(k)] == active[KeyOf(k)])
    ensures KnowsLoaded(b, active')
  {
    forall k | KeyOf(k) in active' && HasRule(b.rules, k.rule) ensures Owned(b.states, active', k) {
      assert Owned(b.states, active, k);
    }
  }

  /** Steady, and complete if `complete` says so: both are kept together. */
  ghost predicate Coherent(m: State, complete: bool) {
    Steady(m) && (complete ==> Complete(m))
  }

  lemma CompleteIs(m: State)
    ensures Complete(m) <==> OpenHaveKeys(m.rt.alerts, m.active) && KnowsLoaded(m.book, m.active)
  {
  }

  // ----- Verdicts -----

  lemma VerdictCoherent(m: State, e: Event, now: Time, v: Anomaly.Verdict, c: bool)
    requires Coherent(m, c)
    ensures Coherent(ApplyVerdict(m, e, now, v), c) && Evolves(m.rt, ApplyVerdict(m, e, now, v).rt)
  {
    hide Healthy, NotifiesOnce, Evolves, Tracks, EngineAgrees, Complete;
    var key := OnAnomaly(e.host, v.metric);
    var m' := ApplyVerdict(m, e, now, v);
    if key in m.active { HeldAlert(m, key); }
    NothingHappened(m.rt);
    CompleteIs(m);
    CompleteIs(m');
    if v.anomalous {
      if key !in m.active {
        var a := AnomalyAlert(m, e, v);
        var b := RaiseAlerts(m, key, a, true);
        ActivateSteady(m, key, a, true);
        if c { ActivateOpen(m.rt.alerts, m.active, key, b); KnowsFrame(m.book, m.active, m'.active); }
      } else {
        SetValueSteady(m, m.active[key], v.value);
        if c { TouchOpen(m.rt.alerts, m.active, m.active[key], m'.rt.alerts[m.active[key]]); }
      }
    } else if key in m.active {
      var a := m.rt.alerts[m.active[key]].(resolved := true, resolvedAt := Some(now));
      var host := Or(a.host, Or(e.host, m.home));
      DeactivateSteady(m, key, a, host, true);
      if c { DeactivateOpen(m.rt.alerts, m.active, key, a); KnowsFrame(m.book, m.active, m'.active); }
    }
  }

  lemma {:induction false} VerdictsCoherent(m: State, e: Event, now: Time, vs: seq<Anomaly.Verdict>, c: bool)
    requires Coherent(m, c)
    ensures Coherent(ApplyVerdicts(m, e, now, vs), c) && Evolves(m.rt, ApplyVerdicts(m, e, now, vs).rt)
    decreases |vs|
  {
    hide Coherent, Evolves, ApplyVerdict;
    NothingHappened(m.rt);
    if vs != [] {
      var m1 := ApplyVerdict(m, e, now, vs[0]);
      VerdictCoherent(m, e, now, vs[0], c);
      VerdictsCoherent(m1, e, now, vs[1..], c);
      EvolvesTransitive(m.rt, m1.rt, ApplyVerdicts(m1, e, now, vs[1..]).rt);
    }
  }

  // ----- Synthetic checks -----

  lemma CheckCoherent(m: State, r: CheckRun, c: bool)
    requires Coherent(m, c)
    ensures Coherent(ProcessCheck(m, r), c) && Evolves(m.rt, ProcessCheck(m, r).rt)
  {
    hide Healthy, NotifiesOnce, Evolves, Tracks, EngineAgrees, Complete;
    var key := OnCheck(r.check);
    var m' := ProcessCheck(m, r);
    if key in m.active { HeldAlert(m, key); }
    NothingHappened(m.rt);
    CompleteIs(m);
    CompleteIs(m');
    if r.success {
      if key in m.active {
        var a := m.rt.alerts[m.active[key]].(value := r.duration, resolved := true, resolvedAt := Some(r.checkedAt));
        DeactivateSteady(m, key, a, a.host, false);
        if c { DeactivateOpen(m.rt.alerts, m.active, key, a); KnowsFrame(m.book, m.active, m'.active); }
      }
    } else if r.failures >= r.threshold {
      if key !in m.active {
        var a := CheckAlert(m, r);
        var b := RaiseAlerts(m, key, a, false);
        ActivateSteady(m, key, a, false);
        if c { ActivateOpen(m.rt.alerts, m.active, key, b); KnowsFrame(m.book, m.active, m'.active); }
      } else {
        SetValueSteady(m, m.active[key], StatusValue(r));
        if c { TouchOpen(m.rt.alerts, m.active, m.active[key], m'.rt.alerts[m.active[key]]); }
      }
    }
  }
}
