/** The two background writers, their queues, and the tables they write. */
module Persistence {
  import opened Common
  import opened Domain
  import opened Incidents

  // ----- Bounded queue with one retry slot -----

  /** A worker's queue, the item it retries, and its counters. Capacity 0 means unbounded. */
  datatype Outbox<T> = Outbox(capacity: nat, queue: seq<T>, retry: Option<T>, dropped: nat, persisted: nat)

  function Put<T>(o: Outbox<T>, item: T): Outbox<T> {
    if o.capacity == 0 || |o.queue| < o.capacity then o.(queue := o.queue + [item])
    else o.(dropped := o.dropped + 1)
  }

  /** Everything still to be written, in order. */
  function Pending<T>(o: Outbox<T>): seq<T> {
    if o.retry.Some? then [o.retry.value] + o.queue else o.queue
  }

  /** The outbox after its head was taken. */
  function Rest<T>(o: Outbox<T>): Outbox<T>
    requires Pending(o) != []
  {
    if o.retry.Some? then o.(retry := None) else o.(queue := o.queue[1..])
  }

  function Persisted<T>(o: Outbox<T>): Outbox<T>
    requires Pending(o) != []
  {
    Rest(o).(persisted := o.persisted + 1)
  }

  function Retrying<T>(o: Outbox<T>): Outbox<T>
    requires Pending(o) != []
  {
    Rest(o).(retry := Some(Pending(o)[0]))
  }

  lemma HeadOfLine<T>(o: Outbox<T>)
    requires Pending(o) != []
    ensures Pending(Persisted(o)) == Pending(o)[1..]
    ensures Pending(Retrying(o)) == Pending(o)
    ensures Persisted(o).dropped == Retrying(o).dropped == o.dropped
  {
  }

  lemma PutAppends<T>(o: Outbox<T>, item: T)
    ensures Put(o, item).dropped == o.dropped ==> Pending(Put(o, item)) == Pending(o) + [item]
    ensures Put(o, item).dropped != o.dropped ==> Pending(Put(o, item)) == Pending(o)
    ensures Put(o, item).dropped >= o.dropped
  {
  }

  // ----- Tables -----

  datatype AlertRow = AlertRow(
    host: Option<HostId>, service: Option<ServiceId>, subject: Subject, value: real, baseline: real,
    severity: Severity, active: bool, acknowledged: bool, source: Source, rule: Option<RuleId>,
    timestamp: Time, resolvedAt: Option<Time>)

  datatype IncidentRow = IncidentRow(
    host: Option<HostId>, service: Option<ServiceId>, status: Status, severity: Severity,
    firstSeen: Time, lastSeen: Time, resolvedAt: Option<Time>)

  datatype Link = Link(incident: IncidentId, alert: AlertId)

  type AlertTable = map<AlertId, AlertRow>

  datatype IncidentTables = IncidentTables(rows: map<IncidentId, IncidentRow>, links: set<Link>)

  /** A deep copy of the alert, with the host under which it is stored. */
  datatype AlertEvent = AlertEvent(alert: Alert, host: Option<HostId>)

  /** A snapshot of the incident, with the alert to link to it, if any. */
  datatype IncidentEvent = IncidentEvent(incident: Incident, alert: Option<AlertId>)

  /** What the rows of alerts and incidents refer to by foreign keys. */
  datatype Reference = ToRule(rule: RuleId) | ToHost(host: HostId) | ToService(service: ServiceId)

  predicate RuleThere(deleted: set<Reference>, r: Option<RuleId>) {
    r.Some? ==> ToRule(r.value) !in deleted
  }

  predicate HostThere(deleted: set<Reference>, h: Option<HostId>) {
    h.Some? ==> ToHost(h.value) !in deleted
  }

  predicate ServiceThere(deleted: set<Reference>, v: Option<ServiceId>) {
    v.Some? ==> ToService(v.value) !in deleted
  }

  function NewAlertRow(a: Alert, host: Option<HostId>): AlertRow {
    AlertRow(host, a.service, a.subject, a.value, a.baseline, a.severity, !a.resolved, a.acknowledged,
             a.source, a.rule, a.timestamp, a.resolvedAt)
  }

  /** `AlertPersistence._persist`: insert, or update the mutable columns; acknowledgement sticks. */
  function PersistAlert(t: AlertTable, e: AlertEvent): AlertTable {
    var a := e.alert;
    if a.id !in t then t[a.id := NewAlertRow(a, e.host)]
    else t[a.id := t[a.id].(service := a.service, value := a.value, baseline := a.baseline, severity := a.severity,
                            active := !a.resolved, acknowledged := t[a.id].acknowledged || a.acknowledged,
                            source := a.source, rule := a.rule, resolvedAt := a.resolvedAt)]
  }

  function RowOf(i: Incident): IncidentRow {
    IncidentRow(i.host, i.service, i.status, i.severity, i.firstSeen, i.lastSeen, i.resolvedAt)
  }

  /** `IncidentPersistence._persist` raises, undoing everything, while the referenced alert has no row. */
  predicate Ready(alerts: AlertTable, e: IncidentEvent) {
    e.alert.Some? ==> e.alert.value in alerts
  }

  function PersistIncident(t: IncidentTables, e: IncidentEvent): IncidentTables {
    IncidentTables(t.rows[e.incident.id := RowOf(e.incident)],
                   if e.alert.Some? then t.links + {Link(e.incident.id, e.alert.value)} else t.links)
  }

  /** The foreign keys of an alert's row accept the write; an update leaves the host alone. */
  predicate AlertAccepted(deleted: set<Reference>, stored: bool, e: AlertEvent) {
    RuleThere(deleted, e.alert.rule) && ServiceThere(deleted, e.alert.service) && (stored || HostThere(deleted, e.host))
  }

  predicate IncidentAccepted(deleted: set<Reference>, e: IncidentEvent) {
    HostThere(deleted, e.incident.host) && ServiceThere(deleted, e.incident.service)
  }

  // ----- The workers -----

  /** The tables hold every column as it was last written; a reference to something deleted since reads as NULL. */
  datatype Store = Store(
    alerts: AlertTable, incidents: IncidentTables,
    alertOut: Outbox<AlertEvent>, incidentOut: Outbox<IncidentEvent>, deleted: set<Reference>)

  /** One iteration of a worker, where an unhealthy one meets a database failure, which leaves no trace; or an operator
      deletes a rule, host or service, whose identifier is never issued again. */
  datatype Turn = AlertTurn(healthy: bool) | IncidentTurn(healthy: bool) | Deletion(target: Reference)

  function AlertIteration(s: Store, healthy: bool): Store {
    var p := Pending(s.alertOut);
    if p == [] then s
    else if healthy && AlertAccepted(s.deleted, p[0].alert.id in s.alerts, p[0]) then
      s.(alerts := PersistAlert(s.alerts, p[0]), alertOut := Persisted(s.alertOut))
    else s.(alertOut := Retrying(s.alertOut))
  }

  function IncidentIteration(s: Store, healthy: bool): Store {
    var p := Pending(s.incidentOut);
    if p == [] then s
    else if healthy && Ready(s.alerts, p[0]) && IncidentAccepted(s.deleted, p[0]) then
      s.(incidents := PersistIncident(s.incidents, p[0]), incidentOut := Persisted(s.incidentOut))
    else s.(incidentOut := Retrying(s.incidentOut))
  }

  function Work(s: Store, t: Turn): Store {
    match t
    case AlertTurn(h) => AlertIteration(s, h)
    case IncidentTurn(h) => IncidentIteration(s, h)
    case Deletion(r) => s.(deleted := s.deleted + {r})
  }

  // ----- What the tables will hold once the queues are written -----

  function AlertsAfter(t: AlertTable, evs: seq<AlertEvent>): AlertTable
    decreases |evs|
  {
    if evs == [] then t else AlertsAfter(PersistAlert(t, evs[0]), evs[1..])
  }

  function IncidentsAfter(t: IncidentTables, evs: seq<IncidentEvent>): IncidentTables
    decreases |evs|
  {
    if evs == [] then t else IncidentsAfter(PersistIncident(t, evs[0]), evs[1..])
  }

  lemma {:induction false} AlertsAfterAppend(t: AlertTable, evs: seq<AlertEvent>, e: AlertEvent)
    ensures AlertsAfter(t, evs + [e]) == PersistAlert(AlertsAfter(t, evs), e)
    decreases |evs|
  {
    if evs != [] {
      assert (evs + [e])[1..] == evs[1..] + [e];
      AlertsAfterAppend(PersistAlert(t, evs[0]), evs[1..], e);
    }
  }

  lemma {:induction false} IncidentsAfterAppend(t: IncidentTables, evs: seq<IncidentEvent>, e: IncidentEvent)
    ensures IncidentsAfter(t, evs + [e]) == PersistIncident(IncidentsAfter(t, evs), e)
    decreases |evs|
  {
    if evs != [] {
      assert (evs + [e])[1..] == evs[1..] + [e];
      IncidentsAfterAppend(PersistIncident(t, evs[0]), evs[1..], e);
    }
  }

  /** What the alert and incident tables will hold once both queues are written. */
  function AlertsToBe(s: Store): AlertTable {
    AlertsAfter(s.alerts, Pending(s.alertOut))
  }

  function IncidentsToBe(s: Store): IncidentTables {
    IncidentsAfter(s.incidents, Pending(s.incidentOut))
  }

  /** No turn of either worker, failing or not, changes what the tables will hold. */
  lemma WorkKeepsTheOutcome(s: Store, t: Turn)
    ensures AlertsToBe(Work(s, t)) == AlertsToBe(s)
    ensures IncidentsToBe(Work(s, t)) == IncidentsToBe(s)
    ensures Work(s, t).alertOut.dropped == s.alertOut.dropped
    ensures Work(s, t).incidentOut.dropped == s.incidentOut.dropped
  {
    if Pending(s.alertOut) != [] { HeadOfLine(s.alertOut); }
    if Pending(s.incidentOut) != [] { HeadOfLine(s.incidentOut); }
  }

  // ----- Link safety -----

  /** Every link points to an existing incident row and an existing alert row. */
  ghost predicate LinksAreSafe(s: Store) {
    forall k :: k in s.incidents.links ==> k.incident in s.incidents.rows && k.alert in s.alerts
  }

  lemma WorkKeepsLinksSafe(s: Store, t: Turn)
    requires LinksAreSafe(s)
    ensures LinksAreSafe(Work(s, t))
  {
  }

  // ----- Draining -----

  predicate Covers(alerts: AlertTable, evs: seq<AlertEvent>, a: AlertId) {
    a in alerts || exists k :: 0 <= k < |evs| && evs[k].alert.id == a
  }

  predicate EventCovered(s: Store, e: IncidentEvent) {
    e.alert.Some? ==> Covers(s.alerts, Pending(s.alertOut), e.alert.value)
  }

  /** Every alert that a waiting incident event refers to is stored or still with the alert worker. */
  predicate Covered(s: Store) {
    forall k :: 0 <= k < |Pending(s.incidentOut)| ==> EventCovered(s, Pending(s.incidentOut)[k])
  }

  predicate Drained(s: Store) {
    Pending(s.alertOut) == [] && Pending(s.incidentOut) == []
  }

  lemma WorkKeepsCovers(s: Store, t: Turn, a: AlertId)
    ensures Covers(Work(s, t).alerts, Pending(Work(s, t).alertOut), a)
       <==> Covers(s.alerts, Pending(s.alertOut), a)
  {
    var s', p, p' := Work(s, t), Pending(s.alertOut), Pending(Work(s, t).alertOut);
    if t.AlertTurn? && p != [] {
      HeadOfLine(s.alertOut);
      if |p'| != |p| {
        assert p' == p[1..];
        if k :| 0 <= k < |p| && p[k].alert.id == a {
          if k > 0 { assert p'[k - 1].alert.id == a; }
        }
        if k :| 0 <= k < |p'| && p'[k].alert.id == a { assert p[k + 1].alert.id == a; }
      }
    }
  }

  lemma WorkKeepsCovered(s: Store, t: Turn)
    requires Covered(s)
    ensures Covered(Work(s, t))
  {
    var s', q, q' := Work(s, t), Pending(s.incidentOut), Pending(Work(s, t).incidentOut);
    if q != [] { HeadOfLine(s.incidentOut); }
    forall k | 0 <= k < |q'| ensures EventCovered(s', q'[k]) {
      var j := if |q'| == |q| then k else k + 1;
      assert q'[k] == q[j] && EventCovered(s, q[j]);
      if q[j].alert.Some? { WorkKeepsCovers(s, t, q[j].alert.value); }
    }
  }

  /** Every pending alert event will be accepted when its turn comes: its rule and service exist, and its host does
      unless the alert is stored by then. */
  predicate AlertsAcceptable(s: Store) {
    var p := Pending(s.alertOut);
    forall k :: 0 <= k < |p| ==> AcceptableAt(s, p, k)
  }

  predicate AcceptableAt(s: Store, p: seq<AlertEvent>, k: nat)
    requires k < |p|
  {
    AlertAccepted(s.deleted, Covers(s.alerts, p[..k], p[k].alert.id), p[k])
  }

  /** What the pending events of both workers refer to exists. */
  predicate Referable(s: Store) {
    AlertsAcceptable(s)
    && forall k :: 0 <= k < |Pending(s.incidentOut)| ==> IncidentAccepted(s.deleted, Pending(s.incidentOut)[k])
  }

  lemma CoversTail(t: AlertTable, p: seq<AlertEvent>, k: nat, a: AlertId)
    requires 0 < k <= |p|
    ensures Covers(PersistAlert(t, p[0]), p[1..][..k - 1], a) <==> Covers(t, p[..k], a)
  {
    var tail := p[1..][..k - 1];
    if j :| 0 <= j < |p[..k]| && p[..k][j].alert.id == a {
      if j > 0 { assert tail[j - 1].alert.id == a; }
    }
    if j :| 0 <= j < |tail| && tail[j].alert.id == a { assert p[..k][j + 1].alert.id == a; }
  }

  /** One turn on the alert queue: which event is where afterwards, and whether it will be accepted. */
  lemma WorkAndAcceptance(s: Store, t: Turn, k: nat)
    requires k < |Pending(s.alertOut)|
    requires k == 0 ==> |Pending(Work(s, t).alertOut)| == |Pending(s.alertOut)|
    ensures var p, p' := Pending(s.alertOut), Pending(Work(s, t).alertOut);
      var j := if |p'| == |p| then k else k - 1;
      && j < |p'| && (AcceptableAt(Work(s, t), p', j) ==> AcceptableAt(s, p, k))
      && (!t.Deletion? ==> (AcceptableAt(Work(s, t), p', j) <==> AcceptableAt(s, p, k)))
  {
    hide PersistAlert, Covers;
    var p, p' := Pending(s.alertOut), Pending(Work(s, t).alertOut);
    HeadOfLine(s.alertOut);
    if |p'| != |p| {
      assert p' == p[1..];
      CoversTail(s.alerts, p, k, p[k].alert.id);
    } else {
      assert p' == p && Work(s, t).alerts == s.alerts;
    }
  }

  lemma HeadAcceptance(s: Store, t: Turn)
    requires Pending(s.alertOut) != []
    ensures var p := Pending(s.alertOut);
      && (t == AlertTurn(true) && AcceptableAt(s, p, 0) ==> |Pending(Work(s, t).alertOut)| == |p| - 1)
      && (!AcceptableAt(s, p, 0) ==> |Pending(Work(s, t).alertOut)| == |p|)
  {
    var p := Pending(s.alertOut);
    HeadOfLine(s.alertOut);
    assert p[..0] == [];
  }

  /** An event that will not be accepted stays in the alert queue for ever, whatever the workers do. */
  lemma UnacceptableStays(s: Store, t: Turn)
    requires !AlertsAcceptable(s)
    ensures !AlertsAcceptable(Work(s, t))
  {
    hide AcceptableAt, Work;
    var p := Pending(s.alertOut);
    var k :| 0 <= k < |p| && !AcceptableAt(s, p, k);
    HeadAcceptance(s, t);
    WorkAndAcceptance(s, t, k);
  }

  lemma WorkKeepsAcceptable(s: Store, t: Turn)
    requires AlertsAcceptable(s) && !t.Deletion?
    ensures AlertsAcceptable(Work(s, t))
  {
    hide AcceptableAt;
    var p, p' := Pending(s.alertOut), Pending(Work(s, t).alertOut);
    if p != [] { HeadOfLine(s.alertOut); }
    forall j | 0 <= j < |p'| ensures AcceptableAt(Work(s, t), p', j) {
      WorkAndAcceptance(s, t, if |p'| == |p| then j else j + 1);
    }
  }

  lemma WorkKeepsReferable(s: Store, t: Turn)
    requires Referable(s) && !t.Deletion?
    ensures Referable(Work(s, t))
  {
    hide AlertsAcceptable;
    WorkKeepsAcceptable(s, t);
    if Pending(s.incidentOut) != [] { HeadOfLine(s.incidentOut); }
  }

  lemma UnreferableStays(s: Store, t: Turn)
    requires !Referable(s)
    ensures !Referable(Work(s, t))
  {
    hide AlertsAcceptable;
    if !AlertsAcceptable(s) {
      UnacceptableStays(s, t);
    } else {
      var q, q' := Pending(s.incidentOut), Pending(Work(s, t).incidentOut);
      var k :| 0 <= k < |q| && !IncidentAccepted(s.deleted, q[k]);
      HeadOfLine(s.incidentOut);
      assert q'[if |q'| == |q| then k else k - 1] == q[k];
    }
  }

  function WorkAll(s: Store, ts: seq<Turn>): Store
    decreases |ts|
  {
    if ts == [] then s else WorkAll(Work(s, ts[0]), ts[1..])
  }

  /** A stretch of the schedule in which nothing is deleted and each worker has at least one turn without a database
      failure. */
  predicate FairRound(ts: seq<Turn>) {
    AlertTurn(true) in ts && IncidentTurn(true) in ts && NothingDeleted(ts)
  }

  predicate NothingDeleted(ts: seq<Turn>) {
    forall i :: 0 <= i < |ts| ==> !ts[i].Deletion?
  }

  /** Turns never lengthen a queue, and one healthy turn of the alert worker shortens its own. */
  lemma {:induction false} AlertWorkerProgress(s: Store, ts: seq<Turn>)
    requires NothingDeleted(ts) && Referable(s)
    ensures |Pending(WorkAll(s, ts).alertOut)| <= |Pending(s.alertOut)|
    ensures AlertTurn(true) in ts && Pending(s.alertOut) != [] ==>
      |Pending(WorkAll(s, ts).alertOut)| < |Pending(s.alertOut)|
    ensures |Pending(WorkAll(s, ts).incidentOut)| <= |Pending(s.incidentOut)|
    decreases |ts|
  {
    if ts != [] {
      hide Referable, AcceptableAt;
      if Pending(s.alertOut) != [] {
        HeadOfLine(s.alertOut);
        assert AcceptableAt(s, Pending(s.alertOut), 0) by { HeadIsAcceptable(s); }
        HeadAcceptance(s, ts[0]);
      }
      if Pending(s.incidentOut) != [] { HeadOfLine(s.incidentOut); }
      assert !ts[0].Deletion?;
      WorkKeepsReferable(s, ts[0]);
      AlertWorkerProgress(Work(s, ts[0]), ts[1..]);
    }
  }

  lemma HeadIsAcceptable(s: Store)
    requires Referable(s)
    ensures Pending(s.alertOut) != [] ==> AcceptableAt(s, Pending(s.alertOut), 0)
    ensures Pending(s.incidentOut) != [] ==> IncidentAccepted(s.deleted, Pending(s.incidentOut)[0])
  {
  }

  /** With the alert queue empty, nothing blocks the incident worker. */
  lemma {:induction false} IncidentWorkerProgress(s: Store, ts: seq<Turn>)
    requires NothingDeleted(ts) && Referable(s) && Covered(s) && Pending(s.alertOut) == []
    ensures IncidentTurn(true) in ts && Pending(s.incidentOut) != [] ==>
      |Pending(WorkAll(s, ts).incidentOut)| < |Pending(s.incidentOut)|
    decreases |ts|
  {
    if ts != [] && Pending(s.incidentOut) != [] {
      hide Referable;
      HeadOfLine(s.incidentOut);
      HeadIsAcceptable(s);
      assert !ts[0].Deletion?;
      WorkKeepsCovered(s, ts[0]);
      WorkKeepsReferable(s, ts[0]);
      assert EventCovered(s, Pending(s.incidentOut)[0]);
      AlertWorkerProgress(Work(s, ts[0]), ts[1..]);
      if Pending(Work(s, ts[0]).alertOut) == [] { IncidentWorkerProgress(Work(s, ts[0]), ts[1..]); }
    }
  }

  function Rounds(s: Store, rounds: seq<seq<Turn>>): Store {
    if rounds == [] then s else WorkAll(Rounds(s, rounds[..|rounds| - 1]), rounds[|rounds| - 1])
  }

  function Backlog(s: Store): nat {
    |Pending(s.alertOut)| + |Pending(s.incidentOut)|
  }

  lemma {:induction false} WorkAllKeeps(s: Store, ts: seq<Turn>)
    requires Covered(s) && Referable(s) && NothingDeleted(ts)
    ensures Covered(WorkAll(s, ts)) && Referable(WorkAll(s, ts))
    decreases |ts|
  {
    hide Covered, Referable, Work;
    if ts != [] {
      assert !ts[0].Deletion?;
      WorkKeepsCovered(s, ts[0]);
      WorkKeepsReferable(s, ts[0]);
      WorkAllKeeps(Work(s, ts[0]), ts[1..]);
    }
  }

  lemma {:induction false} FairRoundsShrinkTheBacklog(s: Store, rounds: seq<seq<Turn>>)
    requires Covered(s) && Referable(s) && forall k :: 0 <= k < |rounds| ==> FairRound(rounds[k])
    ensures Covered(Rounds(s, rounds)) && Referable(Rounds(s, rounds))
    ensures Backlog(Rounds(s, rounds)) == 0 || Backlog(Rounds(s, rounds)) + |rounds| <= Backlog(s)
  {
    if rounds != [] {
      hide Covered, Referable;
      var n := |rounds| - 1;
      FairRoundsShrinkTheBacklog(s, rounds[..n]);
      var t := Rounds(s, rounds[..n]);
      assert FairRound(rounds[n]);
      WorkAllKeeps(t, rounds[n]);
      AlertWorkerProgress(t, rounds[n]);
      if Pending(t.alertOut) == [] { IncidentWorkerProgress(t, rounds[n]); }
    }
  }

  lemma UncoveredStays(s: Store, t: Turn)
    requires !Covered(s)
    ensures !Covered(Work(s, t))
  {
    var q := Pending(s.incidentOut);
    var k :| 0 <= k < |q| && !EventCovered(s, q[k]);
    var s' := Work(s, t);
    WorkKeepsCovers(s, t, q[k].alert.value);
    HeadOfLine(s.incidentOut);
    var q' := Pending(s'.incidentOut);
    var j := if |q'| == |q| then k else k - 1;
    assert k == 0 ==> |q'| == |q|;
    assert q'[j] == q[k] && !EventCovered(s', q'[j]);
  }

  /** A waiting event that is not covered, or that refers to something deleted, is never written. */
  lemma {:induction false} BlockedStays(s: Store, ts: seq<Turn>)
    requires !(Covered(s) && Referable(s))
    ensures !(Covered(WorkAll(s, ts)) && Referable(WorkAll(s, ts)))
    decreases |ts|
  {
    if ts != [] {
      hide Covered, Referable, Work;
      if !Covered(s) { UncoveredStays(s, ts[0]); } else { UnreferableStays(s, ts[0]); }
      BlockedStays(Work(s, ts[0]), ts[1..]);
    }
  }

  lemma {:induction false} BlockedRounds(s: Store, rounds: seq<seq<Turn>>)
    requires !(Covered(s) && Referable(s))
    ensures !(Covered(Rounds(s, rounds)) && Referable(Rounds(s, rounds)))
  {
    if rounds != [] {
      hide Covered, Referable;
      BlockedRounds(s, rounds[..|rounds| - 1]);
      BlockedStays(Rounds(s, rounds[..|rounds| - 1]), rounds[|rounds| - 1]);
    }
  }

  /** Enough fair rounds empty both queues exactly when the alert of every waiting incident event is stored or pending
      and everything that waiting events refer to exists, whatever failing turns are interspersed. */
  lemma FairRoundsDrainIff(s: Store, rounds: seq<seq<Turn>>)
    requires |rounds| >= Backlog(s) && forall k :: 0 <= k < |rounds| ==> FairRound(rounds[k])
    ensures Drained(Rounds(s, rounds)) <==> Covered(s) && Referable(s)
  {
    if Covered(s) && Referable(s) {
      FairRoundsShrinkTheBacklog(s, rounds);
    } else {
      BlockedRounds(s, rounds);
    }
  }

  // ----- What queries read -----

  function RuleRead(deleted: set<Reference>, r: Option<RuleId>): Option<RuleId> {
    if RuleThere(deleted, r) then r else None
  }

  function HostRead(deleted: set<Reference>, h: Option<HostId>): Option<HostId> {
    if HostThere(deleted, h) then h else None
  }

  function ServiceRead(deleted: set<Reference>, v: Option<ServiceId>): Option<ServiceId> {
    if ServiceThere(deleted, v) then v else None
  }

  function AlertRead(deleted: set<Reference>, r: AlertRow): AlertRow {
    r.(rule := RuleRead(deleted, r.rule), host := HostRead(deleted, r.host), service := ServiceRead(deleted, r.service))
  }

  function IncidentRead(deleted: set<Reference>, r: IncidentRow): IncidentRow {
    r.(host := HostRead(deleted, r.host), service := ServiceRead(deleted, r.service))
  }

  function AlertsRead(deleted: set<Reference>, t: AlertTable): AlertTable {
    map a | a in t :: AlertRead(deleted, t[a])
  }

  function IncidentsRead(deleted: set<Reference>, t: IncidentTables): IncidentTables {
    IncidentTables(map i | i in t.rows :: IncidentRead(deleted, t.rows[i]), t.links)
  }

  /** An accepted write does to the tables as they are read what it does to them as they are kept ... */
  lemma WritesAreRead(deleted: set<Reference>, alerts: AlertTable, e: AlertEvent, t: IncidentTables, i: IncidentEvent)
    ensures AlertAccepted(deleted, e.alert.id in alerts, e) ==>
      AlertsRead(deleted, PersistAlert(alerts, e)) == PersistAlert(AlertsRead(deleted, alerts), e)
    ensures IncidentAccepted(deleted, i) ==>
      IncidentsRead(deleted, PersistIncident(t, i)) == PersistIncident(IncidentsRead(deleted, t), i)
  {
    if AlertAccepted(deleted, e.alert.id in alerts, e) {
      assert AlertsRead(deleted, PersistAlert(alerts, e)) == PersistAlert(AlertsRead(deleted, alerts), e);
    }
  }

  /** ... and a deletion sets exactly the columns to NULL that refer to what is deleted: ON DELETE SET NULL. */
  lemma DeletionsAreRead(deleted: set<Reference>, target: Reference, a: AlertRow, i: IncidentRow)
    ensures AlertRead(deleted + {target}, a) ==
      var r := AlertRead(deleted, a);
      r.(rule := if r.rule.Some? && target == ToRule(r.rule.value) then None else r.rule,
         host := if r.host.Some? && target == ToHost(r.host.value) then None else r.host,
         service := if r.service.Some? && target == ToService(r.service.value) then None else r.service)
    ensures IncidentRead(deleted + {target}, i) ==
      var r := IncidentRead(deleted, i);
      r.(host := if r.host.Some? && target == ToHost(r.host.value) then None else r.host,
         service := if r.service.Some? && target == ToService(r.service.value) then None else r.service)
  {
  }
}
