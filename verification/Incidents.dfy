/** Correlation of alerts into incidents: the engine's dictionaries as a value, and its transitions. */
module Incidents {
  import opened Common
  import opened Domain

  datatype Status = Open | Acknowledged | Closed

  datatype Incident = Incident(
    id: IncidentId, host: Option<HostId>, service: Option<ServiceId>,
    status: Status, severity: Severity, firstSeen: Time, lastSeen: Time,
    alertIds: set<AlertId>, activeIds: set<AlertId>, resolvedAt: Option<Time>)

  const CORRELATION_WINDOW: Time := 300.0

  /** Incidents are numbered as they are created, so the dictionary is walked by increasing number. */
  datatype Ledger = Ledger(
    incidents: map<IncidentId, Incident>, owner: map<AlertId, IncidentId>,
    created: nat, resolved: nat, next: IncidentId)

  const EMPTY := Ledger(map[], map[], 0, 0, 0)

  predicate Joins(i: Incident, a: Alert) {
    && i.host == a.host && i.service == a.service
    && i.status != Closed
    && Abs(a.timestamp - i.lastSeen) <= CORRELATION_WINDOW
  }

  ghost predicate Indexed(l: Ledger) {
    forall i: IncidentId :: i in l.incidents <==> i < l.next
  }

  /** The first incident from number `i` on that the alert may join. */
  function FirstCandidate(l: Ledger, a: Alert, i: IncidentId): (c: Option<IncidentId>)
    requires i <= l.next
    ensures c.Some? ==> i <= c.value < l.next && c.value in l.incidents && Joins(l.incidents[c.value], a)
    ensures c.Some? ==> forall j :: i <= j < c.value && j in l.incidents ==> !Joins(l.incidents[j], a)
    ensures c.None? ==> forall j :: i <= j < l.next && j in l.incidents ==> !Joins(l.incidents[j], a)
    decreases l.next - i
  {
    if i == l.next then None
    else if i in l.incidents && Joins(l.incidents[i], a) then Some(i)
    else FirstCandidate(l, a, i + 1)
  }

  function Candidate(l: Ledger, a: Alert): Option<IncidentId> {
    FirstCandidate(l, a, 0)
  }

  function Opened(a: Alert, id: IncidentId): Incident {
    Incident(id, a.host, a.service, Open, a.severity, a.timestamp, a.timestamp, {a.id}, {a.id}, None)
  }

  function Joined(i: Incident, a: Alert): Incident {
    i.(severity := if Rank(a.severity) > Rank(i.severity) then a.severity else i.severity,
       status := if i.status == Acknowledged then Open else i.status,
       lastSeen := Max(i.lastSeen, a.timestamp),
       alertIds := i.alertIds + {a.id},
       activeIds := i.activeIds + {a.id})
  }

  /** A ledger and the incident the call returned, if any. */
  datatype Reply = Reply(ledger: Ledger, incident: Option<IncidentId>)

  /** The alert joins incident `c`, or opens a new one. */
  function Enter(l: Ledger, c: Option<IncidentId>, a: Alert): (r: Reply)
    requires c.Some? ==> c.value in l.incidents
    ensures r.incident.Some? && r.incident.value in r.ledger.incidents
  {
    if c.Some? then
      var id := c.value;
      Reply(l.(incidents := l.incidents[id := Joined(l.incidents[id], a)], owner := l.owner[a.id := id]), Some(id))
    else
      var id := l.next;
      Reply(l.(incidents := l.incidents[id := Opened(a, id)], owner := l.owner[a.id := id],
               created := l.created + 1, next := l.next + 1), Some(id))
  }

  function OnCreated(l: Ledger, a: Alert): (r: Reply)
    ensures r.incident.Some? && r.incident.value in r.ledger.incidents
  {
    Enter(l, Candidate(l, a), a)
  }

  function Settled(i: Incident, a: Alert): Incident {
    var active := i.activeIds - {a.id};
    var closes := active == {} && i.status != Closed;
    i.(activeIds := active, lastSeen := a.timestamp,
       status := if closes then Closed else i.status,
       resolvedAt := if closes then Or(a.resolvedAt, Some(a.timestamp)) else i.resolvedAt)
  }

  function OnResolved(l: Ledger, a: Alert): Reply {
    if a.id !in l.owner || l.owner[a.id] !in l.incidents then Reply(l, None) else
    var id := l.owner[a.id];
    var i := Settled(l.incidents[id], a);
    var closes := l.incidents[id].status != Closed && i.status == Closed;
    Reply(l.(incidents := l.incidents[id := i], resolved := l.resolved + (if closes then 1 else 0)), Some(id))
  }

  function Acknowledge(l: Ledger, id: IncidentId): Reply {
    if id !in l.incidents || l.incidents[id].status == Closed then Reply(l, None)
    else Reply(l.(incidents := l.incidents[id := l.incidents[id].(status := Acknowledged)]), Some(id))
  }

  // ----- What every call keeps -----

  function Unresolved(m: map<IncidentId, Incident>): set<IncidentId> {
    set i | i in m && m[i].status != Closed
  }

  predicate WellFormed(id: IncidentId, i: Incident) {
    && i.id == id
    && i.activeIds <= i.alertIds
    && i.alertIds != {}
    && (i.status == Closed <==> i.activeIds == {})
    && (i.resolvedAt.Some? <==> i.status == Closed)
  }

  /** The incidents' alert sets partition the alerts, as the alert-to-incident dictionary says. */
  ghost predicate Partition(m: map<IncidentId, Incident>, owner: map<AlertId, IncidentId>) {
    && (forall a :: a in owner ==> owner[a] in m && a in m[owner[a]].alertIds)
    && (forall i, a :: i in m && a in m[i].alertIds ==> a in owner && owner[a] == i)
  }

  /** Incidents are well formed, their alert sets partition the alerts, and the counters agree. */
  ghost predicate Sound(l: Ledger) {
    && Indexed(l)
    && (forall i :: i in l.incidents ==> WellFormed(i, l.incidents[i]))
    && Partition(l.incidents, l.owner)
    && l.created == l.resolved + |Unresolved(l.incidents)|
  }

  ghost predicate HasSeverity(i: Incident, alerts: map<AlertId, Alert>) {
    && (forall a :: a in i.alertIds && a in alerts ==> Rank(alerts[a].severity) <= Rank(i.severity))
    && (exists a :: a in i.alertIds && a in alerts && alerts[a].severity == i.severity)
  }

  ghost predicate SameScope(i: Incident, alerts: map<AlertId, Alert>) {
    forall a :: a in i.alertIds && a in alerts ==> i.host == alerts[a].host && i.service == alerts[a].service
  }

  ghost predicate Fits(i: Incident, alerts: map<AlertId, Alert>) {
    SameScope(i, alerts) && HasSeverity(i, alerts)
  }

  /** Every alert shares host and service with its incident, whose severity is the maximum over its alerts. */
  ghost predicate Describes(l: Ledger, alerts: map<AlertId, Alert>) {
    && l.owner.Keys <= alerts.Keys
    && (forall i :: i in l.incidents ==> Fits(l.incidents[i], alerts))
  }

  lemma EmptyIsSound()
    ensures Sound(EMPTY) && Describes(EMPTY, map[])
  {
    assert Unresolved(map[]) == {};
  }

  lemma CountReplaced(m: map<IncidentId, Incident>, id: IncidentId, i: Incident)
    ensures |Unresolved(m[id := i])|
         == |Unresolved(m)| - (if id in m && m[id].status != Closed then 1 else 0) + (if i.status != Closed then 1 else 0)
  {
    var u, v := Unresolved(m), Unresolved(m[id := i]);
    if i.status != Closed { assert v == u + {id}; } else { assert v == u - {id}; }
  }

  lemma PartitionExtends(m: map<IncidentId, Incident>, owner: map<AlertId, IncidentId>, id: IncidentId, i: Incident,
                         a: AlertId)
    requires Partition(m, owner) && a !in owner
    requires i.alertIds == (if id in m then m[id].alertIds else {}) + {a}
    ensures Partition(m[id := i], owner[a := id])
  {
    var m', owner' := m[id := i], owner[a := id];
    forall j, b | j in m' && b in m'[j].alertIds ensures b in owner' && owner'[b] == j {
      if j in m && b in m[j].alertIds { assert b in owner && owner[b] == j; }
    }
  }

  lemma PartitionStays(m: map<IncidentId, Incident>, owner: map<AlertId, IncidentId>, id: IncidentId, i: Incident)
    requires Partition(m, owner) && id in m && i.alertIds == m[id].alertIds
    ensures Partition(m[id := i], owner)
  {
    var m' := m[id := i];
    forall j, b | j in m' && b in m'[j].alertIds ensures b in owner && owner[b] == j {
      assert b in m[j].alertIds;
    }
  }

  lemma EnterIndexed(l: Ledger, c: Option<IncidentId>, a: Alert)
    requires Indexed(l) && (c.Some? ==> c.value in l.incidents)
    ensures Indexed(Enter(l, c, a).ledger)
  {
  }

  lemma EnterWellFormed(l: Ledger, c: Option<IncidentId>, a: Alert, i: IncidentId)
    requires forall j :: j in l.incidents ==> WellFormed(j, l.incidents[j])
    requires c.Some? ==> c.value in l.incidents && l.incidents[c.value].status != Closed
    requires i in Enter(l, c, a).ledger.incidents
    ensures WellFormed(i, Enter(l, c, a).ledger.incidents[i])
  {
    if i in l.incidents { assert WellFormed(i, l.incidents[i]); }
    if i == Enter(l, c, a).incident.value { assert a.id in Enter(l, c, a).ledger.incidents[i].activeIds; }
  }

  lemma EnterKeeps(l: Ledger, c: Option<IncidentId>, a: Alert)
    requires Sound(l) && a.id !in l.owner
    requires c.Some? ==> c.value in l.incidents && l.incidents[c.value].status != Closed
    ensures Sound(Enter(l, c, a).ledger)
  {
    var r := Enter(l, c, a);
    var id := r.incident.value;
    CountReplaced(l.incidents, id, r.ledger.incidents[id]);
    PartitionExtends(l.incidents, l.owner, id, r.ledger.incidents[id], a.id);
    EnterIndexed(l, c, a);
    forall i | i in r.ledger.incidents ensures WellFormed(i, r.ledger.incidents[i]) { EnterWellFormed(l, c, a, i); }
  }

  lemma CreatedKeeps(l: Ledger, a: Alert)
    requires Sound(l) && a.id !in l.owner
    ensures Sound(OnCreated(l, a).ledger)
  {
    EnterKeeps(l, Candidate(l, a), a);
  }

  lemma SeverityJoins(i: Incident, a: Alert, alerts: map<AlertId, Alert>, b: Alert)
    requires HasSeverity(i, alerts) && a.id !in alerts && b.severity == a.severity
    ensures HasSeverity(Joined(i, a), alerts[a.id := b])
  {
    var w :| w in i.alertIds && w in alerts && alerts[w].severity == i.severity;
    var j, more := Joined(i, a), alerts[a.id := b];
    assert w in j.alertIds && w in more;
    assert a.id in j.alertIds && a.id in more;
  }

  lemma SeverityFrame(i: Incident, alerts: map<AlertId, Alert>, b: Alert)
    requires HasSeverity(i, alerts) && b.id !in i.alertIds
    ensures HasSeverity(i, alerts[b.id := b])
  {
    var w :| w in i.alertIds && w in alerts && alerts[w].severity == i.severity;
    assert w in alerts[b.id := b];
  }

  lemma EnterFits(l: Ledger, c: Option<IncidentId>, a: Alert, alerts: map<AlertId, Alert>, b: Alert, i: IncidentId)
    requires c.Some? ==> c.value in l.incidents && Joins(l.incidents[c.value], a)
    requires b.id == a.id && b.host == a.host && b.service == a.service && b.severity == a.severity
    requires i in Enter(l, c, a).ledger.incidents && a.id !in alerts && (c.None? ==> l.next !in l.incidents)
    requires a.id !in l.owner && Partition(l.incidents, l.owner)
    requires i in l.incidents ==> Fits(l.incidents[i], alerts)
    ensures Fits(Enter(l, c, a).ledger.incidents[i], alerts[a.id := b])
  {
    var r := Enter(l, c, a);
    if i != r.incident.value {
      SeverityFrame(l.incidents[i], alerts, b);
    } else if c.Some? {
      SeverityJoins(l.incidents[i], a, alerts, b);
    } else {
      assert a.id in r.ledger.incidents[i].alertIds && a.id in alerts[a.id := b];
    }
  }

  lemma EnterDescribes(l: Ledger, c: Option<IncidentId>, a: Alert, alerts: map<AlertId, Alert>, b: Alert)
    requires Indexed(l) && Partition(l.incidents, l.owner) && Describes(l, alerts) && a.id !in alerts
    requires c.Some? ==> c.value in l.incidents && Joins(l.incidents[c.value], a)
    requires b.id == a.id && b.host == a.host && b.service == a.service && b.severity == a.severity
    ensures Describes(Enter(l, c, a).ledger, alerts[a.id := b])
  {
    var r, more := Enter(l, c, a), alerts[a.id := b];
    forall i | i in r.ledger.incidents ensures Fits(r.ledger.incidents[i], more) { EnterFits(l, c, a, alerts, b, i); }
  }

  lemma CreatedDescribes(l: Ledger, a: Alert, alerts: map<AlertId, Alert>, b: Alert)
    requires Sound(l) && Describes(l, alerts) && a.id !in alerts
    requires b.id == a.id && b.host == a.host && b.service == a.service && b.severity == a.severity
    ensures Describes(OnCreated(l, a).ledger, alerts[a.id := b])
  {
    EnterDescribes(l, Candidate(l, a), a, alerts, b);
  }

  lemma ResolvedKeeps(l: Ledger, a: Alert)
    requires Sound(l)
    ensures Sound(OnResolved(l, a).ledger)
  {
    var r := OnResolved(l, a);
    if r.incident.Some? {
      var id := r.incident.value;
      assert WellFormed(id, l.incidents[id]);
      CountReplaced(l.incidents, id, r.ledger.incidents[id]);
      PartitionStays(l.incidents, l.owner, id, r.ledger.incidents[id]);
    }
  }

  lemma AcknowledgeKeeps(l: Ledger, id: IncidentId)
    requires Sound(l)
    ensures Sound(Acknowledge(l, id).ledger)
  {
    var r := Acknowledge(l, id);
    if r.incident.Some? {
      assert WellFormed(id, l.incidents[id]);
      CountReplaced(l.incidents, id, r.ledger.incidents[id]);
      PartitionStays(l.incidents, l.owner, id, r.ledger.incidents[id]);
    }
  }

  /** Closed is absorbing: no later call reopens, re-resolves, re-rates or extends a closed incident. */
  lemma ClosedIsFinal(l: Ledger, i: IncidentId, a: Alert, ack: IncidentId)
    requires Sound(l) && i in l.incidents && l.incidents[i].status == Closed
    ensures var c := OnCreated(l, a).ledger; i in c.incidents && c.incidents[i] == l.incidents[i]
    ensures var c := Acknowledge(l, ack).ledger; i in c.incidents && c.incidents[i] == l.incidents[i]
    ensures var c := OnResolved(l, a).ledger;
      i in c.incidents && c.incidents[i] == l.incidents[i].(lastSeen := c.incidents[i].lastSeen)
    ensures a.id in l.owner && a.id in l.incidents[l.owner[a.id]].activeIds ==>
      OnResolved(l, a).ledger.incidents[i] == l.incidents[i]
  {
    assert WellFormed(i, l.incidents[i]);
  }
}
