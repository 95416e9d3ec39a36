/** The database and the two persistence workers as objects. */
module Workers {
  import opened Common
  import opened Domain
  import opened Persistence

  /** Columns are kept as written; a reference to something deleted since is read as NULL. */
  class Database {
    var alerts: AlertTable
    var incidents: IncidentTables
    var deleted: set<Reference>

    constructor ()
      ensures alerts == map[] && incidents == IncidentTables(map[], {}) && deleted == {}
    {
      alerts, incidents, deleted := map[], IncidentTables(map[], {}), {};
    }

    /** A rule, host or service is deleted. */
    method Delete(target: Reference)
      modifies this`deleted
      ensures forall a, i :: Store(alerts, incidents, a, i, deleted)
                == Work(Store(alerts, incidents, a, i, old(deleted)), Deletion(target))
    {
      deleted := deleted + {target};
    }
  }

  /** `retryItem` is the local variable of the worker's loop. */
  class AlertPersistence {
    const capacity: nat
    var queue: seq<AlertEvent>
    var retryItem: Option<AlertEvent>
    var dropped: nat
    var persisted: nat

    function Value(): Outbox<AlertEvent>
      reads this
    {
      Outbox(capacity, queue, retryItem, dropped, persisted)
    }

    constructor (capacity: nat)
      ensures Value() == Outbox(capacity, [], None, 0, 0)
    {
      this.capacity := capacity;
      queue, retryItem, dropped, persisted := [], None, 0, 0;
    }

    method Enqueue(alert: Alert, host: Option<HostId>)
      modifies this
      ensures Value() == Put(old(Value()), AlertEvent(alert, host))
    {
      if capacity == 0 || |queue| < capacity {
        queue := queue + [AlertEvent(alert, host)];
      } else {
        dropped := dropped + 1;
      }
    }

    /** The transaction: rolled back if a foreign key refuses the row. */
    method Persist(db: Database, item: AlertEvent) returns (ok: bool)
      modifies this`persisted, db`alerts
      ensures ok <==> AlertAccepted(db.deleted, item.alert.id in old(db.alerts), item)
      ensures db.alerts == if ok then PersistAlert(old(db.alerts), item) else old(db.alerts)
      ensures persisted == old(persisted) + if ok then 1 else 0
    {
      var alert := item.alert;
      if alert.rule.Some? && ToRule(alert.rule.value) in db.deleted { return false; }
      if alert.service.Some? && ToService(alert.service.value) in db.deleted { return false; }
      if alert.id !in db.alerts {
        if item.host.Some? && ToHost(item.host.value) in db.deleted { return false; }
        db.alerts := db.alerts[alert.id :=
          AlertRow(item.host, alert.service, alert.subject, alert.value, alert.baseline, alert.severity, !alert.resolved,
                   alert.acknowledged, alert.source, alert.rule, alert.timestamp, alert.resolvedAt)];
      } else {
        var row := db.alerts[alert.id];
        row := row.(service := alert.service, value := alert.value, baseline := alert.baseline, severity := alert.severity);
        row := row.(active := !alert.resolved, acknowledged := row.acknowledged || alert.acknowledged);
        row := row.(source := alert.source, rule := alert.rule, resolvedAt := alert.resolvedAt);
        db.alerts := db.alerts[alert.id := row];
      }
      persisted := persisted + 1;
      return true;
    }

    /** One pass through the worker's loop; an unhealthy database rolls the transaction back and raises. */
    method Iterate(db: Database, healthy: bool)
      modifies this, db`alerts
      ensures forall tables, other :: Store(db.alerts, tables, Value(), other, db.deleted)
                == AlertIteration(Store(old(db.alerts), tables, old(Value()), other, db.deleted), healthy)
    {
      if retryItem.None? && queue == [] { return; }
      var item;
      if retryItem.None? {
        item := queue[0];
        queue := queue[1..];
      } else {
        item := retryItem.value;
        retryItem := None;
      }
      var ok := false;
      if healthy { ok := Persist(db, item); }
      if !ok { retryItem := Some(item); }
    }
  }

  class IncidentPersistence {
    const capacity: nat
    var queue: seq<IncidentEvent>
    var retry: Option<IncidentEvent>
    var dropped: nat
    var persisted: nat

    function Value(): Outbox<IncidentEvent>
      reads this
    {
      Outbox(capacity, queue, retry, dropped, persisted)
    }

    constructor (capacity: nat)
      ensures Value() == Outbox(capacity, [], None, 0, 0)
    {
      this.capacity := capacity;
      queue, retry, dropped, persisted := [], None, 0, 0;
    }

    method Enqueue(event: IncidentEvent)
      modifies this
      ensures Value() == Put(old(Value()), event)
    {
      if capacity == 0 || |queue| < capacity {
        queue := queue + [event];
      } else {
        dropped := dropped + 1;
      }
    }

    /** The transaction: rows are added first, and withdrawn if the alert turns out to be missing or a foreign key refuses
        them. */
    method Persist(db: Database, event: IncidentEvent) returns (ok: bool)
      modifies this`persisted, db`incidents
      ensures ok <==> Ready(db.alerts, event) && IncidentAccepted(db.deleted, event)
      ensures db.incidents == if ok then PersistIncident(old(db.incidents), event) else old(db.incidents)
      ensures persisted == old(persisted) + (if ok then 1 else 0)
    {
      var incident, rows, links := event.incident, db.incidents.rows, db.incidents.links;
      rows := rows[incident.id := IncidentRow(incident.host, incident.service, incident.status, incident.severity,
                                              incident.firstSeen, incident.lastSeen, incident.resolvedAt)];
      if event.alert.Some? {
        if event.alert.value !in db.alerts { return false; }
        if Link(incident.id, event.alert.value) !in links { links := links + {Link(incident.id, event.alert.value)}; }
      }
      if incident.host.Some? && ToHost(incident.host.value) in db.deleted { return false; }
      if incident.service.Some? && ToService(incident.service.value) in db.deleted { return false; }
      db.incidents := IncidentTables(rows, links);
      persisted := persisted + 1;
      return true;
    }

    method Iterate(db: Database, healthy: bool)
      modifies this, db`incidents
      ensures forall other :: Store(db.alerts, db.incidents, other, Value(), db.deleted)
                == IncidentIteration(Store(db.alerts, old(db.incidents), other, old(Value()), db.deleted), healthy)
    {
      if retry.None? && queue == [] { return; }
      var item;
      if retry.None? {
        item := queue[0];
        queue := queue[1..];
      } else {
        item := retry.value;
        retry := None;
      }
      var ok := false;
      if healthy { ok := Persist(db, item); }
      if !ok { retry := Some(item); }
    }
  }
}
