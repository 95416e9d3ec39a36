/** One alert lifecycle step of the manager: incident engine, notifications and both queues together. */
module Pipeline {
  import opened Common
  import opened Domain
  import opened Incidents
  import opened Persistence

  datatype Notice = AlertNotice(alert: AlertId, resolved: bool) | IncidentNotice(incident: IncidentId, resolved: bool)

  /** `alerts` holds every alert object of the process; the manager's collections refer to it by identifier. */
  datatype Runtime = Runtime(ledger: Ledger, alerts: map<AlertId, Alert>, store: Store, notices: seq<Notice>)

  function EnqueueAlert(s: Store, e: AlertEvent): Store {
    s.(alertOut := Put(s.alertOut, e))
  }

  function EnqueueIncident(s: Store, e: IncidentEvent): Store {
    s.(incidentOut := Put(s.incidentOut, e))
  }

  /** A new alert: correlate it, notify if asked, and queue incident and alert. */
  function Raise(rt: Runtime, a: Alert, notify: bool): Runtime {
    var reply := OnCreated(rt.ledger, a);
    var id := reply.incident.value;
    var i := reply.ledger.incidents[id];
    var b := a.(incident := Some(id));
    Runtime(reply.ledger,
            rt.alerts[a.id := b],
            EnqueueAlert(EnqueueIncident(rt.store, IncidentEvent(i, Some(a.id))), AlertEvent(b, b.host)),
            rt.notices
              + (if notify then [AlertNotice(a.id, false)] else [])
              + (if notify && |i.alertIds| == 1 then [IncidentNotice(id, false)] else []))
  }

  /** The resolved form `a` of an alert: settle its incident, notify if asked, and queue both. */
  function Settle(rt: Runtime, a: Alert, host: Option<HostId>, notify: bool): Runtime {
    var reply := OnResolved(rt.ledger, a);
    var s := if reply.incident.Some? && reply.incident.value in reply.ledger.incidents
             then EnqueueIncident(rt.store, IncidentEvent(reply.ledger.incidents[reply.incident.value], None))
             else rt.store;
    var closed := reply.incident.Some? && reply.incident.value in reply.ledger.incidents
                  && reply.ledger.incidents[reply.incident.value].status == Closed;
    Runtime(reply.ledger,
            rt.alerts[a.id := a],
            EnqueueAlert(s, AlertEvent(a, host)),
            rt.notices
              + (if notify then [AlertNotice(a.id, true)] else [])
              + (if notify && closed then [IncidentNotice(reply.incident.value, true)] else []))
  }

  /** An operator acknowledges an alert that the process still knows. */
  function AckAlert(rt: Runtime, id: AlertId): Runtime {
    if id !in rt.alerts || rt.alerts[id].acknowledged then rt
    else
      var a := rt.alerts[id].(acknowledged := true);
      rt.(alerts := rt.alerts[id := a], store := EnqueueAlert(rt.store, AlertEvent(a, a.host)))
  }

  function AckIncident(rt: Runtime, id: IncidentId): Runtime {
    var reply := Acknowledge(rt.ledger, id);
    if reply.incident.None? then rt
    else rt.(ledger := reply.ledger,
             store := EnqueueIncident(rt.store, IncidentEvent(reply.ledger.incidents[id], None)))
  }

  // ----- Invariant -----

  /** The alert knows its identifier and incident, and is active there iff it is not resolved. */
  ghost predicate Placed(l: Ledger, a: AlertId, alert: Alert) {
    && a in l.owner && l.owner[a] in l.incidents
    && alert.id == a && alert.incident == Some(l.owner[a])
    && (a in l.incidents[l.owner[a]].activeIds <==> !alert.resolved)
  }

  /** Alerts and incidents agree on who belongs where and on what is active. */
  ghost predicate Agrees(l: Ledger, alerts: map<AlertId, Alert>) {
    && alerts.Keys == l.owner.Keys
    && (forall a :: a in alerts ==> Placed(l, a, alerts[a]))
  }

  /** A row says what the alert says, column by column; while the alert is open the value may lag behind, because it is
      only written with a transition or an acknowledgement. */
  predicate Mirrors(r: AlertRow, a: Alert) {
    && r.host == a.host && r.service == a.service && r.subject == a.subject
    && r.baseline == a.baseline && r.severity == a.severity
    && (r.active <==> !a.resolved) && (r.acknowledged <==> a.acknowledged)
    && r.source == a.source && r.rule == a.rule
    && r.timestamp == a.timestamp && r.resolvedAt == a.resolvedAt
    && (a.resolved ==> r.value == a.value)
  }

  /** A row says what the incident says, column by column. */
  predicate Shows(r: IncidentRow, i: Incident) {
    && r.host == i.host && r.service == i.service
    && r.status == i.status && r.severity == i.severity
    && r.firstSeen == i.firstSeen && r.lastSeen == i.lastSeen && r.resolvedAt == i.resolvedAt
  }

  ghost predicate AlertsMirror(t: AlertTable, alerts: map<AlertId, Alert>) {
    t.Keys == alerts.Keys && forall a :: a in alerts ==> Mirrors(t[a], alerts[a])
  }

  ghost predicate IncidentsMirror(t: IncidentTables, l: Ledger) {
    && t.rows.Keys == l.incidents.Keys && (forall i :: i in l.incidents ==> Shows(t.rows[i], l.incidents[i]))
    && (forall k :: k in t.links <==> k.alert in l.owner && l.owner[k.alert] == k.incident)
  }

  ghost predicate NoDrops(s: Store) {
    s.alertOut.dropped == 0 && s.incidentOut.dropped == 0
  }

  /** Everything the incident engine and its alerts keep, on their own. */
  ghost predicate InMemory(rt: Runtime) {
    Sound(rt.ledger) && Agrees(rt.ledger, rt.alerts) && Describes(rt.ledger, rt.alerts)
  }

  /** What the database will hold once the queues are written, if nothing was ever dropped. */
  ghost predicate Durable(rt: Runtime) {
    && LinksAreSafe(rt.store)
    && (rt.store.alertOut.dropped == 0 ==> AlertsMirror(AlertsToBe(rt.store), rt.alerts) && Covered(rt.store))
    && (rt.store.incidentOut.dropped == 0 ==> IncidentsMirror(IncidentsToBe(rt.store), rt.ledger))
  }

  ghost predicate Healthy(rt: Runtime) {
    InMemory(rt) && Durable(rt)
  }

  function Start(alertCapacity: nat, incidentCapacity: nat): Runtime {
    Runtime(EMPTY, map[],
            Store(map[], IncidentTables(map[], {}),
                  Outbox(alertCapacity, [], None, 0, 0), Outbox(incidentCapacity, [], None, 0, 0), {}),
            [])
  }

  lemma StartIsHealthy(a: nat, i: nat)
    ensures Healthy(Start(a, i))
  {
    EmptyIsSound();
  }

  lemma EnterAgrees(l: Ledger, c: Option<IncidentId>, a: Alert, alerts: map<AlertId, Alert>)
    requires Agrees(l, alerts) && Indexed(l) && a.id !in alerts && !a.resolved
    requires c.Some? ==> c.value in l.incidents
    ensures var r := Enter(l, c, a); Agrees(r.ledger, alerts[a.id := a.(incident := r.incident)])
  {
    var r := Enter(l, c, a);
    var more := alerts[a.id := a.(incident := r.incident)];
    forall b | b in more ensures Placed(r.ledger, b, more[b]) {
      if b != a.id { assert Placed(l, b, alerts[b]); }
    }
  }

  lemma RaiseInMemory(rt: Runtime, a: Alert, notify: bool)
    requires InMemory(rt) && a.id !in rt.alerts && !a.resolved
    ensures InMemory(Raise(rt, a, notify))
  {
    var c := Candidate(rt.ledger, a);
    CreatedKeeps(rt.ledger, a);
    CreatedDescribes(rt.ledger, a, rt.alerts, a.(incident := OnCreated(rt.ledger, a).incident));
    EnterAgrees(rt.ledger, c, a, rt.alerts);
  }

  lemma DescribesFrame(l: Ledger, alerts: map<AlertId, Alert>, a: Alert)
    requires Describes(l, alerts) && a.id in alerts
    requires a.host == alerts[a.id].host && a.service == alerts[a.id].service && a.severity == alerts[a.id].severity
    ensures Describes(l, alerts[a.id := a])
  {
    var more := alerts[a.id := a];
    forall i | i in l.incidents ensures Fits(l.incidents[i], more) {
      assert Fits(l.incidents[i], alerts);
      var w :| w in l.incidents[i].alertIds && w in alerts && alerts[w].severity == l.incidents[i].severity;
      assert w in more && more[w].severity == l.incidents[i].severity;
    }
  }

  lemma DescribesSame(l: Ledger, id: IncidentId, i: Incident, l': Ledger, alerts: map<AlertId, Alert>)
    requires Describes(l, alerts) && id in l.incidents && l'.owner == l.owner && l'.incidents == l.incidents[id := i]
    requires i == l.incidents[id].(status := i.status, activeIds := i.activeIds, lastSeen := i.lastSeen, resolvedAt := i.resolvedAt)
    ensures Describes(l', alerts)
  {
    forall j | j in l'.incidents ensures Fits(l'.incidents[j], alerts) {
      assert Fits(l.incidents[j], alerts);
    }
  }

  /** `a` is the resolved form of an alert that was still open. */
  predicate Resolves(alerts: map<AlertId, Alert>, a: Alert) {
    && a.id in alerts && !alerts[a.id].resolved && a.resolved
    && a == alerts[a.id].(value := a.value, resolved := true, resolvedAt := a.resolvedAt)
  }

  lemma SettleAgrees(l: Ledger, alerts: map<AlertId, Alert>, a: Alert)
    requires Agrees(l, alerts) && Resolves(alerts, a)
    ensures Agrees(OnResolved(l, a).ledger, alerts[a.id := a])
  {
    var l', more := OnResolved(l, a).ledger, alerts[a.id := a];
    assert Placed(l, a.id, alerts[a.id]);
    forall b | b in more ensures Placed(l', b, more[b]) {
      assert Placed(l, b, alerts[b]);
    }
  }

  lemma SettleInMemory(rt: Runtime, a: Alert, host: Option<HostId>, notify: bool)
    requires InMemory(rt) && Resolves(rt.alerts, a)
    ensures InMemory(Settle(rt, a, host, notify))
  {
    var l := rt.ledger;
    assert Placed(l, a.id, rt.alerts[a.id]);
    ResolvedKeeps(l, a);
    DescribesFrame(l, rt.alerts, a);
    DescribesSame(l, l.owner[a.id], Settled(l.incidents[l.owner[a.id]], a), OnResolved(l, a).ledger, rt.alerts[a.id := a]);
    SettleAgrees(l, rt.alerts, a);
  }

  lemma TouchAgrees(l: Ledger, alerts: map<AlertId, Alert>, a: Alert)
    requires Agrees(l, alerts) && a.id in alerts
    requires a == alerts[a.id].(value := a.value, acknowledged := a.acknowledged)
    ensures Agrees(l, alerts[a.id := a])
  {
    forall b | b in alerts ensures Placed(l, b, alerts[a.id := a][b]) { assert Placed(l, b, alerts[b]); }
  }

  /** A change of value or acknowledgement, which no incident depends on. */
  lemma TouchInMemory(rt: Runtime, a: Alert)
    requires InMemory(rt) && a.id in rt.alerts
    requires a == rt.alerts[a.id].(value := a.value, acknowledged := a.acknowledged)
    ensures InMemory(rt.(alerts := rt.alerts[a.id := a]))
  {
    DescribesFrame(rt.ledger, rt.alerts, a);
    TouchAgrees(rt.ledger, rt.alerts, a);
  }

  lemma AckAgrees(l: Ledger, id: IncidentId, alerts: map<AlertId, Alert>)
    requires Agrees(l, alerts)
    ensures Agrees(Acknowledge(l, id).ledger, alerts)
  {
    forall b | b in alerts ensures Placed(Acknowledge(l, id).ledger, b, alerts[b]) { assert Placed(l, b, alerts[b]); }
  }

  lemma AckIncidentInMemory(rt: Runtime, id: IncidentId)
    requires InMemory(rt)
    ensures InMemory(AckIncident(rt, id))
  {
    var l, l' := rt.ledger, Acknowledge(rt.ledger, id).ledger;
    if Acknowledge(l, id).incident.Some? {
      AcknowledgeKeeps(l, id);
      DescribesSame(l, id, l.incidents[id].(status := Acknowledged), l', rt.alerts);
      AckAgrees(l, id, rt.alerts);
    }
  }

  // ----- Queueing -----

  lemma CoversMore(alerts: AlertTable, evs: seq<AlertEvent>, e: AlertEvent, a: AlertId)
    requires Covers(alerts, evs, a) || e.alert.id == a
    ensures Covers(alerts, evs + [e], a)
  {
    if k :| 0 <= k < |evs| && evs[k].alert.id == a {
      assert (evs + [e])[k].alert.id == a;
    } else if e.alert.id == a {
      assert (evs + [e])[|evs|].alert.id == a;
    }
  }

  /** Queueing an alert event, unless the queue drops it. */
  lemma AlertQueued(s: Store, e: AlertEvent)
    ensures var s' := EnqueueAlert(s, e);
      && (LinksAreSafe(s) ==> LinksAreSafe(s'))
      && IncidentsToBe(s') == IncidentsToBe(s) && s'.incidentOut == s.incidentOut
      && (s'.alertOut.dropped == 0 ==>
            s.alertOut.dropped == 0
            && AlertsToBe(s') == PersistAlert(AlertsToBe(s), e)
            && Covers(s'.alerts, Pending(s'.alertOut), e.alert.id)
            && forall a :: Covers(s.alerts, Pending(s.alertOut), a) ==> Covers(s'.alerts, Pending(s'.alertOut), a))
  {
    PutAppends(s.alertOut, e);
    AlertsAfterAppend(s.alerts, Pending(s.alertOut), e);
    forall a | Covers(s.alerts, Pending(s.alertOut), a) || e.alert.id == a
      ensures Covers(s.alerts, Pending(s.alertOut) + [e], a)
    {
      CoversMore(s.alerts, Pending(s.alertOut), e, a);
    }
  }

  lemma IncidentQueued(s: Store, e: IncidentEvent)
    ensures var s' := EnqueueIncident(s, e);
      && (LinksAreSafe(s) ==> LinksAreSafe(s'))
      && AlertsToBe(s') == AlertsToBe(s) && s'.alertOut == s.alertOut && s'.alerts == s.alerts
      && (s'.incidentOut.dropped == 0 ==>
            s.incidentOut.dropped == 0 && IncidentsToBe(s') == PersistIncident(IncidentsToBe(s), e))
      && (forall k :: 0 <= k < |Pending(s'.incidentOut)| ==>
            Pending(s'.incidentOut)[k] == e || Pending(s'.incidentOut)[k] in Pending(s.incidentOut))
  {
    PutAppends(s.incidentOut, e);
    IncidentsAfterAppend(s.incidents, Pending(s.incidentOut), e);
  }

  /** An incident event followed by an alert event: covered if every alert it needs is known by then. */
  lemma BothQueued(s: Store, i: IncidentEvent, e: AlertEvent)
    requires i.alert.Some? ==> i.alert.value == e.alert.id
    ensures var s' := EnqueueAlert(EnqueueIncident(s, i), e);
      && (LinksAreSafe(s) ==> LinksAreSafe(s'))
      && (s'.alertOut.dropped == 0 ==>
            s.alertOut.dropped == 0 && AlertsToBe(s') == PersistAlert(AlertsToBe(s), e) && (Covered(s) ==> Covered(s')))
      && (s'.incidentOut.dropped == 0 ==>
            s.incidentOut.dropped == 0 && IncidentsToBe(s') == PersistIncident(IncidentsToBe(s), i))
  {
    var t, s' := EnqueueIncident(s, i), EnqueueAlert(EnqueueIncident(s, i), e);
    IncidentQueued(s, i);
    AlertQueued(t, e);
    if s'.alertOut.dropped == 0 && Covered(s) {
      var q, q' := Pending(s.incidentOut), Pending(s'.incidentOut);
      forall k | 0 <= k < |q'| ensures EventCovered(s', q'[k]) {
        if q'[k] != i {
          var j :| 0 <= j < |q| && q[j] == q'[k];
          assert EventCovered(s, q[j]);
        }
      }
    }
  }

  ghost predicate Numbered(l: Ledger) {
    Indexed(l) && forall i :: i in l.incidents ==> l.incidents[i].id == i
  }

  lemma SoundIsNumbered(l: Ledger)
    requires Sound(l)
    ensures Numbered(l)
  {
    forall i | i in l.incidents ensures l.incidents[i].id == i { assert WellFormed(i, l.incidents[i]); }
  }

  lemma EnterMirrors(l: Ledger, c: Option<IncidentId>, a: Alert, t: IncidentTables)
    requires IncidentsMirror(t, l) && Numbered(l) && a.id !in l.owner && (c.Some? ==> c.value in l.incidents)
    ensures var r := Enter(l, c, a);
      IncidentsMirror(PersistIncident(t, IncidentEvent(r.ledger.incidents[r.incident.value], Some(a.id))), r.ledger)
  {
  }

  lemma AlertsMirrorWrite(t: AlertTable, alerts: map<AlertId, Alert>, a: Alert, host: Option<HostId>)
    requires AlertsMirror(t, alerts)
    requires if a.id in alerts
      then a == alerts[a.id].(value := a.value, resolved := a.resolved, resolvedAt := a.resolvedAt, acknowledged := a.acknowledged)
           && (alerts[a.id].acknowledged ==> a.acknowledged)
      else host == a.host
    ensures AlertsMirror(PersistAlert(t, AlertEvent(a, host)), alerts[a.id := a])
  {
    var t', more := PersistAlert(t, AlertEvent(a, host)), alerts[a.id := a];
    forall b | b in more ensures Mirrors(t'[b], more[b]) {
      if b in alerts { assert Mirrors(t[b], alerts[b]); }
    }
  }

  lemma RaiseDurable(rt: Runtime, a: Alert, notify: bool)
    requires Durable(rt) && Numbered(rt.ledger) && a.id !in rt.alerts && a.id !in rt.ledger.owner
    ensures Durable(Raise(rt, a, notify))
  {
    var r := OnCreated(rt.ledger, a);
    var i := IncidentEvent(r.ledger.incidents[r.incident.value], Some(a.id));
    var b := a.(incident := r.incident);
    BothQueued(rt.store, i, AlertEvent(b, b.host));
    if rt.store.alertOut.dropped == 0 { AlertsMirrorWrite(AlertsToBe(rt.store), rt.alerts, b, b.host); }
    if rt.store.incidentOut.dropped == 0 {
      EnterMirrors(rt.ledger, Candidate(rt.ledger, a), a, IncidentsToBe(rt.store));
    }
  }

  lemma ReplaceMirrors(t: IncidentTables, l: Ledger, id: IncidentId, i: Incident, l': Ledger)
    requires IncidentsMirror(t, l) && id in l.incidents && i.id == id
    requires l'.incidents == l.incidents[id := i] && l'.owner == l.owner
    ensures IncidentsMirror(PersistIncident(t, IncidentEvent(i, None)), l')
  {
  }

  lemma SettleDurable(rt: Runtime, a: Alert, host: Option<HostId>, notify: bool)
    requires Durable(rt) && Numbered(rt.ledger) && Resolves(rt.alerts, a)
    requires a.id in rt.ledger.owner && rt.ledger.owner[a.id] in rt.ledger.incidents
    ensures Durable(Settle(rt, a, host, notify))
  {
    var l := rt.ledger;
    var id := l.owner[a.id];
    var i := Settled(l.incidents[id], a);
    BothQueued(rt.store, IncidentEvent(i, None), AlertEvent(a, host));
    if rt.store.alertOut.dropped == 0 { AlertsMirrorWrite(AlertsToBe(rt.store), rt.alerts, a, host); }
    if rt.store.incidentOut.dropped == 0 {
      ReplaceMirrors(IncidentsToBe(rt.store), l, id, i, OnResolved(l, a).ledger);
    }
  }

  lemma AckAlertDurable(rt: Runtime, id: AlertId)
    requires Durable(rt) && (id in rt.alerts ==> rt.alerts[id].id == id)
    ensures Durable(AckAlert(rt, id))
  {
    if id in rt.alerts && !rt.alerts[id].acknowledged {
      var a := rt.alerts[id].(acknowledged := true);
      var s' := EnqueueAlert(rt.store, AlertEvent(a, a.host));
      AlertQueued(rt.store, AlertEvent(a, a.host));
      if s'.alertOut.dropped == 0 {
        AlertsMirrorWrite(AlertsToBe(rt.store), rt.alerts, a, a.host);
        forall k | 0 <= k < |Pending(s'.incidentOut)| ensures EventCovered(s', Pending(s'.incidentOut)[k]) {
          assert EventCovered(rt.store, Pending(rt.store.incidentOut)[k]);
        }
      }
    }
  }

  /** An incident event that needs no alert can always be queued. */
  lemma PlainIncidentQueued(s: Store, i: Incident)
    requires Covered(s)
    ensures Covered(EnqueueIncident(s, IncidentEvent(i, None)))
  {
    var e := IncidentEvent(i, None);
    var s' := EnqueueIncident(s, e);
    IncidentQueued(s, e);
    forall k | 0 <= k < |Pending(s'.incidentOut)| ensures EventCovered(s', Pending(s'.incidentOut)[k]) {
      if Pending(s'.incidentOut)[k] != e {
        var j :| 0 <= j < |Pending(s.incidentOut)| && Pending(s.incidentOut)[j] == Pending(s'.incidentOut)[k];
        assert EventCovered(s, Pending(s.incidentOut)[j]);
      }
    }
  }

  lemma AckIncidentDurable(rt: Runtime, id: IncidentId)
    requires Durable(rt) && Numbered(rt.ledger)
    ensures Durable(AckIncident(rt, id))
  {
    var l, l' := rt.ledger, Acknowledge(rt.ledger, id).ledger;
    if Acknowledge(l, id).incident.Some? {
      var i := l'.incidents[id];
      IncidentQueued(rt.store, IncidentEvent(i, None));
      if rt.store.incidentOut.dropped == 0 { ReplaceMirrors(IncidentsToBe(rt.store), l, id, i, l'); }
      if Covered(rt.store) { PlainIncidentQueued(rt.store, i); }
    }
  }

  function SetValue(rt: Runtime, id: AlertId, value: real): Runtime
    requires id in rt.alerts
  {
    rt.(alerts := rt.alerts[id := rt.alerts[id].(value := value)])
  }

  lemma MirrorsIgnoreValue(t: AlertTable, alerts: map<AlertId, Alert>, id: AlertId, value: real)
    requires AlertsMirror(t, alerts) && id in alerts && !alerts[id].resolved
    ensures AlertsMirror(t, alerts[id := alerts[id].(value := value)])
  {
    var more := alerts[id := alerts[id].(value := value)];
    forall b | b in more ensures Mirrors(t[b], more[b]) { assert Mirrors(t[b], alerts[b]); }
  }

  /** A measured value is only written with the next transition; until then the row may lag behind. */
  lemma SetValueHealthy(rt: Runtime, id: AlertId, value: real)
    requires Healthy(rt) && id in rt.alerts && !rt.alerts[id].resolved
    ensures Healthy(SetValue(rt, id, value))
  {
    KnownById(rt, id);
    TouchInMemory(rt, rt.alerts[id].(value := value));
    if rt.store.alertOut.dropped == 0 { MirrorsIgnoreValue(AlertsToBe(rt.store), rt.alerts, id, value); }
  }

  lemma KnownById(rt: Runtime, id: AlertId)
    requires Agrees(rt.ledger, rt.alerts) && id in rt.alerts
    ensures rt.alerts[id].id == id && id in rt.ledger.owner && rt.ledger.owner[id] in rt.ledger.incidents
  {
    assert Placed(rt.ledger, id, rt.alerts[id]);
  }

  lemma RaiseHealthy(rt: Runtime, a: Alert, notify: bool)
    requires Healthy(rt) && a.id !in rt.alerts && !a.resolved
    ensures Healthy(Raise(rt, a, notify))
  {
    RaiseInMemory(rt, a, notify);
    SoundIsNumbered(rt.ledger);
    RaiseDurable(rt, a, notify);
  }

  lemma SettleHealthy(rt: Runtime, a: Alert, host: Option<HostId>, notify: bool)
    requires Healthy(rt) && Resolves(rt.alerts, a)
    ensures Healthy(Settle(rt, a, host, notify))
  {
    SettleInMemory(rt, a, host, notify);
    SoundIsNumbered(rt.ledger);
    KnownById(rt, a.id);
    SettleDurable(rt, a, host, notify);
  }

  lemma AckAlertHealthy(rt: Runtime, id: AlertId)
    requires Healthy(rt)
    ensures Healthy(AckAlert(rt, id))
  {
    if id in rt.alerts && !rt.alerts[id].acknowledged {
      KnownById(rt, id);
      AckAlertDurable(rt, id);
      TouchInMemory(rt, rt.alerts[id].(acknowledged := true));
    }
  }

  lemma AckIncidentHealthy(rt: Runtime, id: IncidentId)
    requires Healthy(rt)
    ensures Healthy(AckIncident(rt, id))
  {
    AckIncidentInMemory(rt, id);
    SoundIsNumbered(rt.ledger);
    AckIncidentDurable(rt, id);
  }

  lemma WorkHealthy(rt: Runtime, t: Turn)
    requires Healthy(rt)
    ensures Healthy(rt.(store := Work(rt.store, t)))
  {
    WorkKeepsTheOutcome(rt.store, t);
    WorkKeepsLinksSafe(rt.store, t);
    if Covered(rt.store) { WorkKeepsCovered(rt.store, t); }
  }

  // ----- Hydration -----

  /** The dictionaries that `hydrate` fills. */
  datatype Hydrated = Hydrated(incidents: map<IncidentId, Incident>, owner: map<AlertId, IncidentId>)

  function LinkedAlerts(t: IncidentTables, i: IncidentId): set<AlertId> {
    set k | k in t.links && k.incident == i :: k.alert
  }

  function ActiveAmong(table: AlertTable, ids: set<AlertId>): set<AlertId> {
    set a | a in ids && a in table && table[a].active
  }

  /** The incident that `hydrate` builds from a row, its links and the statuses of the linked alerts. */
  function IncidentOf(t: IncidentTables, table: AlertTable, i: IncidentId): Incident
    requires i in t.rows
  {
    var r, ids := t.rows[i], LinkedAlerts(t, i);
    Incident(i, r.host, r.service, r.status, r.severity, r.firstSeen, r.lastSeen, ids, ActiveAmong(table, ids), r.resolvedAt)
  }

  /** The alert-to-incident dictionary once `ids` are entered for incident `i`. */
  function Relinked(owner: map<AlertId, IncidentId>, ids: set<AlertId>, i: IncidentId): map<AlertId, IncidentId> {
    map a | a in owner.Keys + ids :: if a in ids then i else owner[a]
  }

  function HydrateRow(h: Hydrated, t: IncidentTables, table: AlertTable, i: IncidentId): Hydrated
    requires i in t.rows
  {
    Hydrated(h.incidents[i := IncidentOf(t, table, i)], Relinked(h.owner, LinkedAlerts(t, i), i))
  }

  /** The rows in whatever order the query returns them. */
  function Hydrate(t: IncidentTables, alerts: AlertTable, order: seq<IncidentId>): Hydrated
    requires forall k :: 0 <= k < |order| ==> order[k] in t.rows
  {
    if order == [] then Hydrated(map[], map[])
    else HydrateRow(Hydrate(t, alerts, order[..|order| - 1]), t, alerts, order[|order| - 1])
  }

  /** The tables hold exactly what the ledger and the alerts say. */
  ghost predicate Faithful(l: Ledger, alerts: map<AlertId, Alert>, t: IncidentTables, table: AlertTable) {
    && IncidentsMirror(t, l) && AlertsMirror(table, alerts)
    && Agrees(l, alerts) && Partition(l.incidents, l.owner)
    && (forall i :: i in l.incidents ==> WellFormed(i, l.incidents[i]))
  }

  lemma LinkedAreTheAlerts(l: Ledger, alerts: map<AlertId, Alert>, t: IncidentTables, table: AlertTable, i: IncidentId)
    requires Faithful(l, alerts, t, table) && i in l.incidents
    ensures LinkedAlerts(t, i) == l.incidents[i].alertIds
  {
    forall a ensures a in LinkedAlerts(t, i) <==> a in l.incidents[i].alertIds {
      assert Link(i, a) in t.links <==> a in l.owner && l.owner[a] == i;
    }
  }

  lemma ActiveAreTheActive(l: Ledger, alerts: map<AlertId, Alert>, t: IncidentTables, table: AlertTable, i: IncidentId)
    requires Faithful(l, alerts, t, table) && i in l.incidents
    ensures ActiveAmong(table, l.incidents[i].alertIds) == l.incidents[i].activeIds
  {
    assert WellFormed(i, l.incidents[i]);
    forall a | a in l.incidents[i].alertIds
      ensures a in table && (table[a].active <==> a in l.incidents[i].activeIds)
    {
      assert l.owner[a] == i;
      assert Placed(l, a, alerts[a]) && Mirrors(table[a], alerts[a]);
    }
  }

  ghost predicate RowExact(l: Ledger, t: IncidentTables, table: AlertTable, i: IncidentId) {
    && i in l.incidents && i in t.rows
    && LinkedAlerts(t, i) == l.incidents[i].alertIds
    && IncidentOf(t, table, i) == l.incidents[i]
  }

  lemma FaithfulRowsAreExact(l: Ledger, alerts: map<AlertId, Alert>, t: IncidentTables, table: AlertTable,
                             i: IncidentId)
    requires Faithful(l, alerts, t, table) && i in l.incidents
    ensures RowExact(l, t, table, i)
  {
    LinkedAreTheAlerts(l, alerts, t, table, i);
    ActiveAreTheActive(l, alerts, t, table, i);
    assert WellFormed(i, l.incidents[i]);
  }

  function Seen(order: seq<IncidentId>): set<IncidentId> {
    if order == [] then {} else Seen(order[..|order| - 1]) + {order[|order| - 1]}
  }

  lemma {:induction false} SeenIsElements(order: seq<IncidentId>, i: IncidentId)
    ensures i in Seen(order) <==> i in order
  {
    if order != [] {
      SeenIsElements(order[..|order| - 1], i);
      assert order == order[..|order| - 1] + [order[|order| - 1]];
    }
  }

  /** After some rows: exactly their incidents, and exactly the alerts of those incidents. */
  ghost predicate HydratedSoFar(l: Ledger, seen: set<IncidentId>, h: Hydrated) {
    && h.incidents.Keys == seen
    && (forall i :: i in seen ==> i in l.incidents && h.incidents[i] == l.incidents[i])
    && (forall a :: a in h.owner ==> a in l.owner && l.owner[a] in seen && h.owner[a] == l.owner[a])
    && (forall a :: a in l.owner && l.owner[a] in seen ==> a in h.owner)
  }

  lemma HydrateStep(l: Ledger, seen: set<IncidentId>, i: IncidentId, h: Hydrated, t: IncidentTables, table: AlertTable)
    requires HydratedSoFar(l, seen, h) && Partition(l.incidents, l.owner) && RowExact(l, t, table, i)
    ensures HydratedSoFar(l, seen + {i}, HydrateRow(h, t, table, i))
  {
  }

  lemma {:induction false} HydratePrefix(l: Ledger, t: IncidentTables, table: AlertTable, order: seq<IncidentId>)
    requires Partition(l.incidents, l.owner)
    requires forall k :: 0 <= k < |order| ==> order[k] in t.rows && RowExact(l, t, table, order[k])
    ensures HydratedSoFar(l, Seen(order), Hydrate(t, table, order))
  {
    if order != [] {
      var n := |order| - 1;
      HydratePrefix(l, t, table, order[..n]);
      HydrateStep(l, Seen(order[..n]), order[n], Hydrate(t, table, order[..n]), t, table);
    }
  }

  lemma AllRowsHydrated(l: Ledger, seen: set<IncidentId>, h: Hydrated)
    requires HydratedSoFar(l, seen, h) && Partition(l.incidents, l.owner) && seen == l.incidents.Keys
    ensures h == Hydrated(l.incidents, l.owner)
  {
    assert h.incidents == l.incidents;
    assert h.owner == l.owner;
  }

  lemma SeenIsAll(order: seq<IncidentId>, keys: set<IncidentId>)
    requires forall i :: i in order <==> i in keys
    ensures Seen(order) == keys
  {
    forall i ensures i in Seen(order) <==> i in keys { SeenIsElements(order, i); }
  }

  lemma ExactRowsHydrate(l: Ledger, t: IncidentTables, table: AlertTable, order: seq<IncidentId>)
    requires Partition(l.incidents, l.owner) && Seen(order) == l.incidents.Keys
    requires forall k :: 0 <= k < |order| ==> order[k] in t.rows && RowExact(l, t, table, order[k])
    ensures Hydrate(t, table, order) == Hydrated(l.incidents, l.owner)
  {
    HydratePrefix(l, t, table, order);
    AllRowsHydrated(l, Seen(order), Hydrate(t, table, order));
  }

  lemma FaithfulHydrate(l: Ledger, alerts: map<AlertId, Alert>, t: IncidentTables, table: AlertTable,
                        order: seq<IncidentId>)
    requires Faithful(l, alerts, t, table) && Seen(order) == l.incidents.Keys
    requires forall k :: 0 <= k < |order| ==> order[k] in l.incidents && order[k] in t.rows
    ensures Hydrate(t, table, order) == Hydrated(l.incidents, l.owner)
  {
    forall k | 0 <= k < |order| ensures RowExact(l, t, table, order[k]) {
      FaithfulRowsAreExact(l, alerts, t, table, order[k]);
    }
    ExactRowsHydrate(l, t, table, order);
  }

  lemma DrainedTablesMirror(rt: Runtime)
    requires Durable(rt) && NoDrops(rt.store) && Drained(rt.store)
    ensures IncidentsMirror(rt.store.incidents, rt.ledger) && AlertsMirror(rt.store.alerts, rt.alerts)
  {
  }

  lemma MirroredOrder(l: Ledger, t: IncidentTables, order: seq<IncidentId>)
    requires IncidentsMirror(t, l) && forall i :: i in order <==> i in t.rows
    ensures Seen(order) == l.incidents.Keys
    ensures forall k :: 0 <= k < |order| ==> order[k] in l.incidents && order[k] in t.rows
  {
    SeenIsAll(order, t.rows.Keys);
    assert t.rows.Keys == l.incidents.Keys;
    forall k | 0 <= k < |order| ensures order[k] in l.incidents { assert order[k] in order; }
  }

  lemma MirroredHydrate(l: Ledger, alerts: map<AlertId, Alert>, t: IncidentTables, table: AlertTable,
                        order: seq<IncidentId>)
    requires Sound(l) && Agrees(l, alerts) && IncidentsMirror(t, l) && AlertsMirror(table, alerts)
    requires Seen(order) == l.incidents.Keys
    requires forall k :: 0 <= k < |order| ==> order[k] in l.incidents && order[k] in t.rows
    ensures Hydrate(t, table, order) == Hydrated(l.incidents, l.owner)
  {
    FaithfulHydrate(l, alerts, t, table, order);
  }

  // ----- Hosts and services that were deleted -----

  /** The incident without a host or service that no longer exists. */
  function BereftOf(deleted: set<Reference>, i: Incident): Incident {
    i.(host := HostRead(deleted, i.host), service := ServiceRead(deleted, i.service))
  }

  function Bereft(deleted: set<Reference>, incidents: map<IncidentId, Incident>): map<IncidentId, Incident> {
    map i | i in incidents :: BereftOf(deleted, incidents[i])
  }

  predicate NothingMissed(deleted: set<Reference>, incidents: map<IncidentId, Incident>) {
    forall i :: i in incidents ==> HostThere(deleted, incidents[i].host) && ServiceThere(deleted, incidents[i].service)
  }

  lemma BereftIff(deleted: set<Reference>, incidents: map<IncidentId, Incident>)
    ensures Bereft(deleted, incidents) == incidents <==> NothingMissed(deleted, incidents)
  {
    if Bereft(deleted, incidents) == incidents {
      forall i | i in incidents
        ensures HostThere(deleted, incidents[i].host) && ServiceThere(deleted, incidents[i].service)
      {
        assert Bereft(deleted, incidents)[i] == BereftOf(deleted, incidents[i]) == incidents[i];
      }
    } else {
      assert Bereft(deleted, incidents).Keys == incidents.Keys;
      var i :| i in incidents && Bereft(deleted, incidents)[i] != incidents[i];
    }
  }

  lemma BereftPut(deleted: set<Reference>, incidents: map<IncidentId, Incident>, i: IncidentId, x: Incident)
    ensures Bereft(deleted, incidents[i := x]) == Bereft(deleted, incidents)[i := BereftOf(deleted, x)]
  {
    hide BereftOf;
  }

  lemma RowReads(deleted: set<Reference>, t: IncidentTables, table: AlertTable, i: IncidentId)
    requires i in t.rows
    ensures var read := IncidentsRead(deleted, t);
      LinkedAlerts(read, i) == LinkedAlerts(t, i) && IncidentOf(read, table, i) == BereftOf(deleted, IncidentOf(t, table, i))
  {
    hide HostThere, ServiceThere;
    assert LinkedAlerts(IncidentsRead(deleted, t), i) == LinkedAlerts(t, i);
  }

  lemma {:induction false} HydrateReads(deleted: set<Reference>, t: IncidentTables, table: AlertTable,
                                        order: seq<IncidentId>)
    requires forall k :: 0 <= k < |order| ==> order[k] in t.rows
    ensures var h, h' := Hydrate(t, table, order), Hydrate(IncidentsRead(deleted, t), table, order);
      h'.owner == h.owner && h'.incidents == Bereft(deleted, h.incidents)
  {
    hide IncidentOf, LinkedAlerts, BereftOf, Relinked;
    if order == [] {
      assert Bereft(deleted, map[]) == map[];
    } else {
      hide Bereft;
      var rest, i := order[..|order| - 1], order[|order| - 1];
      HydrateReads(deleted, t, table, rest);
      RowReads(deleted, t, table, i);
      BereftPut(deleted, Hydrate(t, table, rest).incidents, i, IncidentOf(t, table, i));
    }
  }

  lemma HealthyParts(rt: Runtime)
    requires Healthy(rt)
    ensures Sound(rt.ledger) && Agrees(rt.ledger, rt.alerts) && Durable(rt)
  {
  }

  /** Once both queues are written, hydration of a fresh engine rebuilds both dictionaries exactly, whatever order the
      rows come in, up to hosts and services that were deleted. */
  lemma DrainThenHydrate(rt: Runtime, order: seq<IncidentId>)
    requires Healthy(rt) && NoDrops(rt.store) && Drained(rt.store)
    requires forall k :: 0 <= k < |order| ==> order[k] in rt.store.incidents.rows
    requires forall i :: i in rt.store.incidents.rows ==> i in order
    ensures var h := Hydrate(IncidentsRead(rt.store.deleted, rt.store.incidents), rt.store.alerts, order);
      && h.owner == rt.ledger.owner && h.incidents == Bereft(rt.store.deleted, rt.ledger.incidents)
      && (h.incidents == rt.ledger.incidents <==> NothingMissed(rt.store.deleted, rt.ledger.incidents))
  {
    hide InMemory, Durable, Hydrate, Bereft, NothingMissed;
    assert Sound(rt.ledger) && Agrees(rt.ledger, rt.alerts) && Durable(rt) by { HealthyParts(rt); }
    DrainedTablesMirror(rt);
    MirroredOrder(rt.ledger, rt.store.incidents, order);
    MirroredHydrate(rt.ledger, rt.alerts, rt.store.incidents, rt.store.alerts, order);
    HydrateReads(rt.store.deleted, rt.store.incidents, rt.store.alerts, order);
    BereftIff(rt.store.deleted, rt.ledger.incidents);
  }
}
