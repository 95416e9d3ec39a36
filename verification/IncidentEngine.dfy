/** `IncidentEngine` as an object, proved against the transitions of `Incidents`. */
module IncidentEngine {
  import opened Common
  import opened Domain
  import opened Incidents
  import opened Persistence
  import Pipeline
  import opened Workers

  lemma NoLink(owner: map<AlertId, IncidentId>, id: IncidentId)
    ensures Pipeline.Relinked(owner, {}, id) == owner
  {
  }

  lemma OneMoreLink(owner: map<AlertId, IncidentId>, ids: set<AlertId>, id: IncidentId, a: AlertId)
    ensures Pipeline.Relinked(owner, ids + {a}, id) == Pipeline.Relinked(owner, ids, id)[a := id]
  {
  }

  class Engine {
    const persistence: IncidentPersistence
    var incidents: map<IncidentId, Incident>
    var owner: map<AlertId, IncidentId>
    var created: nat
    var resolved: nat
    var next: IncidentId

    function Value(): Ledger
      reads this
    {
      Ledger(incidents, owner, created, resolved, next)
    }

    /** Every incident is filed under its own identifier. */
    ghost predicate Valid()
      reads this
    {
      forall i :: i in incidents ==> incidents[i].id == i
    }

    constructor (persistence: IncidentPersistence)
      ensures Valid() && Value() == EMPTY && this.persistence == persistence
    {
      this.persistence := persistence;
      incidents, owner, created, resolved, next := map[], map[], 0, 0, 0;
    }

    /** Incidents are tried in the order in which they were added to the dictionary. */
    method Candidate(alert: Alert) returns (c: Option<IncidentId>)
      ensures c == Incidents.Candidate(Value(), alert)
    {
      var i: IncidentId := 0;
      while i < next
        invariant i <= next && FirstCandidate(Value(), alert, i) == Incidents.Candidate(Value(), alert)
      {
        if i in incidents {
          var incident := incidents[i];
          if incident.host == alert.host && incident.service == alert.service && incident.status != Closed
             && Abs(alert.timestamp - incident.lastSeen) <= CORRELATION_WINDOW {
            return Some(i);
          }
        }
        i := i + 1;
      }
      return None;
    }

    method OnAlertCreated(alert: Alert) returns (incident: Incident)
      requires Valid()
      modifies this, persistence
      ensures Valid() && incident.id == OnCreated(old(Value()), alert).incident.value
      ensures Value() == OnCreated(old(Value()), alert).ledger
      ensures incident == OnCreated(old(Value()), alert).ledger.incidents[OnCreated(old(Value()), alert).incident.value]
      ensures persistence.Value() == Put(old(persistence.Value()), IncidentEvent(incident, Some(alert.id)))
    {
      var c := Candidate(alert);
      var id;
      if c.None? {
        id := next;
        next := next + 1;
        incident := Incident(id, alert.host, alert.service, Open, alert.severity, alert.timestamp, alert.timestamp, {}, {}, None);
        created := created + 1;
      } else {
        id := c.value;
        incident := incidents[id];
        if Rank(alert.severity) > Rank(incident.severity) { incident := incident.(severity := alert.severity); }
        if incident.status == Acknowledged { incident := incident.(status := Open); }
        incident := incident.(lastSeen := Max(incident.lastSeen, alert.timestamp));
      }
      incident := incident.(alertIds := incident.alertIds + {alert.id}, activeIds := incident.activeIds + {alert.id});
      assert c.None? ==> incident == Opened(alert, id);
      incidents := incidents[id := incident];
      owner := owner[alert.id := id];
      persistence.Enqueue(IncidentEvent(incident, Some(alert.id)));
    }

    method OnAlertResolved(alert: Alert) returns (incident: Option<Incident>)
      requires Valid()
      modifies this, persistence
      ensures Valid() && (incident.Some? ==> OnResolved(old(Value()), alert).incident == Some(incident.value.id))
      ensures Value() == OnResolved(old(Value()), alert).ledger
      ensures var r := OnResolved(old(Value()), alert);
        && (incident.Some? <==> r.incident.Some?)
        && (incident.Some? ==> r.incident.value in r.ledger.incidents && incident.value == r.ledger.incidents[r.incident.value])
      ensures persistence.Value() ==
        if incident.Some? then Put(old(persistence.Value()), IncidentEvent(incident.value, None)) else old(persistence.Value())
    {
      if alert.id !in owner || owner[alert.id] !in incidents { return None; }
      var id := owner[alert.id];
      var state := incidents[id];
      state := state.(activeIds := state.activeIds - {alert.id});
      state := state.(lastSeen := alert.timestamp);
      if state.activeIds == {} && state.status != Closed {
        state := state.(status := Closed, resolvedAt := Or(alert.resolvedAt, Some(alert.timestamp)));
        resolved := resolved + 1;
      }
      incidents := incidents[id := state];
      persistence.Enqueue(IncidentEvent(state, None));
      return Some(state);
    }

    method AcknowledgeIncident(id: IncidentId) returns (found: bool)
      requires Valid()
      modifies this, persistence
      ensures Valid()
      ensures Value() == Acknowledge(old(Value()), id).ledger && (found <==> Acknowledge(old(Value()), id).incident.Some?)
      ensures persistence.Value() ==
        if found then Put(old(persistence.Value()), IncidentEvent(incidents[id], None)) else old(persistence.Value())
    {
      if id !in incidents || incidents[id].status == Closed { return false; }
      incidents := incidents[id := incidents[id].(status := Acknowledged)];
      persistence.Enqueue(IncidentEvent(incidents[id], None));
      return true;
    }

    /** A fresh engine reads the tables; `order` is the order in which the query returns the rows. */
    method Hydrate(db: Database, order: seq<IncidentId>)
      requires incidents == map[] && owner == map[]
      requires forall k :: 0 <= k < |order| ==> order[k] in db.incidents.rows
      modifies this`incidents, this`owner
      ensures Valid()
      ensures Pipeline.Hydrated(incidents, owner) == Pipeline.Hydrate(IncidentsRead(db.deleted, db.incidents), db.alerts, order)
    {
      ghost var read := IncidentsRead(db.deleted, db.incidents);
      var k := 0;
      while k < |order|
        invariant 0 <= k <= |order|
        invariant Valid()
        invariant Pipeline.Hydrated(incidents, owner) == Pipeline.Hydrate(read, db.alerts, order[..k])
      {
        HydrateOne(db, order[k]);
        assert order[..k + 1][..k] == order[..k];
        k := k + 1;
      }
      assert order[..k] == order;
    }

    /** One row and its links, which the query may return in any order. */
    method HydrateOne(db: Database, id: IncidentId)
      requires Valid() && id in db.incidents.rows
      modifies this`incidents, this`owner
      ensures Valid()
      ensures Pipeline.Hydrated(incidents, owner)
           == Pipeline.HydrateRow(Pipeline.Hydrated(old(incidents), old(owner)), IncidentsRead(db.deleted, db.incidents),
                                  db.alerts, id)
    {
      var row := IncidentRead(db.deleted, db.incidents.rows[id]);
      var alertIds := LinkAll(Pipeline.LinkedAlerts(db.incidents, id), id);
      var activeIds := Pipeline.ActiveAmong(db.alerts, alertIds);
      incidents := incidents[id := Incident(id, row.host, row.service, row.status, row.severity, row.firstSeen, row.lastSeen,
                                            alertIds, activeIds, row.resolvedAt)];
    }

    method LinkAll(linked: set<AlertId>, id: IncidentId) returns (alertIds: set<AlertId>)
      modifies this`owner
      ensures alertIds == linked && owner == Pipeline.Relinked(old(owner), linked, id)
    {
      NoLink(owner, id);
      hide Pipeline.Relinked;
      var rest := linked;
      alertIds := {};
      while rest != {}
        invariant alertIds + rest == linked && owner == Pipeline.Relinked(old(owner), alertIds, id)
        decreases |rest|
      {
        var a :| a in rest;
        OneMoreLink(old(owner), alertIds, id, a);
        alertIds, rest := alertIds + {a}, rest - {a};
        owner := owner[a := id];
      }
    }
  }
}
