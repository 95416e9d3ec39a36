/** What the alert table holds, column by column, in terms of the copies of alerts that were queued. */
module RowHistory {
  import opened Common
  import opened Domain
  import Detector
  import opened Incidents
  import opened Persistence
  import opened Pipeline
  import opened Notices
  import opened Manager
  import opened Coherence
  import opened Runs
  import opened Operations
  import opened IncidentHistory

  // ----- The table after a sequence of events -----

  /** The first event of an alert. */
  function FirstEvent(evs: seq<AlertEvent>, id: AlertId): Option<AlertEvent> {
    if evs == [] then None else
    var rest, e := FirstEvent(evs[..|evs| - 1], id), evs[|evs| - 1];
    if rest.None? && e.alert.id == id then Some(e) else rest
  }

  /** The last event of an alert. */
  function LastEvent(evs: seq<AlertEvent>, id: AlertId): Option<AlertEvent> {
    if evs == [] then None
    else if evs[|evs| - 1].alert.id == id then Some(evs[|evs| - 1])
    else LastEvent(evs[..|evs| - 1], id)
  }

  predicate EverAcknowledged(evs: seq<AlertEvent>, id: AlertId) {
    exists k :: 0 <= k < |evs| && evs[k].alert.id == id && evs[k].alert.acknowledged
  }

  /** The row of an alert: what is written once comes from its first event, what is updated from its last, and an
      acknowledgement sticks. */
  ghost predicate RowTells(t: AlertTable, evs: seq<AlertEvent>, id: AlertId) {
    var first, last := FirstEvent(evs, id), LastEvent(evs, id);
    && (id in t <==> first.Some?) && (id in t <==> last.Some?) && (EverAcknowledged(evs, id) ==> id in t)
    && (id in t ==>
          var r, f, l := t[id], first.value, last.value.alert;
          && r.host == f.host && r.subject == f.alert.subject && r.timestamp == f.alert.timestamp
          && r.value == l.value && r.baseline == l.baseline && r.severity == l.severity
          && (r.active <==> !l.resolved) && r.resolvedAt == l.resolvedAt
          && r.service == l.service && r.source == l.source && r.rule == l.rule
          && (r.acknowledged <==> EverAcknowledged(evs, id)))
  }

  lemma {:induction false} RowsAreEvents(evs: seq<AlertEvent>, id: AlertId)
    ensures RowTells(AlertsAfter(map[], evs), evs, id)
  {
    if evs != [] {
      var front, e := evs[..|evs| - 1], evs[|evs| - 1];
      assert front + [e] == evs;
      RowsAreEvents(front, id);
      AlertsAfterAppend(map[], front, e);
      AcknowledgedMore(front, e, id);
    }
  }

  lemma AcknowledgedMore(evs: seq<AlertEvent>, e: AlertEvent, id: AlertId)
    ensures EverAcknowledged(evs + [e], id) <==> EverAcknowledged(evs, id) || (e.alert.id == id && e.alert.acknowledged)
  {
    var more := evs + [e];
    if EverAcknowledged(evs, id) {
      var k :| 0 <= k < |evs| && evs[k].alert.id == id && evs[k].alert.acknowledged;
      assert more[k] == evs[k];
    }
    if e.alert.id == id && e.alert.acknowledged { assert more[|evs|] == e; }
  }

  // ----- What the operations queue -----

  /** A copy of the alert as it is then. */
  function Sent(rt: Runtime, op: Op): seq<AlertEvent> {
    match op
    case Raised(a, _) => if a.id in Do(rt, op).alerts then [AlertEvent(Do(rt, op).alerts[a.id], a.host)] else []
    case Settled(a, host, _) => [AlertEvent(a, host)]
    case AlertAcked(id) =>
      if id in rt.alerts && !rt.alerts[id].acknowledged
      then [AlertEvent(rt.alerts[id].(acknowledged := true), rt.alerts[id].host)] else []
    case _ => []
  }

  function SentAll(rt: Runtime, ops: seq<Op>): seq<AlertEvent> {
    if ops == [] then []
    else SentAll(rt, ops[..|ops| - 1]) + Sent(DoAll(rt, ops[..|ops| - 1]), ops[|ops| - 1])
  }

  lemma OneSent(rt: Runtime, op: Op)
    ensures var s, s' := rt.store, Do(rt, op).store;
      && s'.alertOut.dropped >= s.alertOut.dropped
      && (s'.alertOut.dropped == s.alertOut.dropped ==> AlertsToBe(s') == AlertsAfter(AlertsToBe(s), Sent(rt, op)))
  {
    var s, sent := rt.store, Sent(rt, op);
    match op
    case Worked(t) => WorkKeepsTheOutcome(s, t);
    case Raised(a, notify) => RaisedSent(rt, a, notify);
    case Settled(a, host, notify) => SettledSent(rt, a, host, notify);
    case AlertAcked(id) => if sent != [] { EventSent(s, sent[0]); }
    case IncidentAcked(_) =>
    case Valued(_, _) =>
  }

  lemma EventSent(s: Store, e: AlertEvent)
    ensures var s' := EnqueueAlert(s, e);
      && s'.alertOut.dropped >= s.alertOut.dropped
      && (s'.alertOut.dropped == s.alertOut.dropped ==> AlertsToBe(s') == AlertsAfter(AlertsToBe(s), [e]))
  {
    PutAppends(s.alertOut, e);
    AlertsAfterAppend(s.alerts, Pending(s.alertOut), e);
    AlertsAfterAppend(AlertsToBe(s), [], e);
    assert [] + [e] == [e];
  }

  lemma RaisedSent(rt: Runtime, a: Alert, notify: bool)
    ensures var s, s' := rt.store, Raise(rt, a, notify).store;
      && s'.alertOut.dropped >= s.alertOut.dropped
      && (s'.alertOut.dropped == s.alertOut.dropped ==> AlertsToBe(s') == AlertsAfter(AlertsToBe(s), Sent(rt, Raised(a, notify))))
  {
    hide OnCreated, Put, AlertsAfter;
    var r := OnCreated(rt.ledger, a);
    var b := a.(incident := Some(r.incident.value));
    var s1 := EnqueueIncident(rt.store, IncidentEvent(r.ledger.incidents[r.incident.value], Some(a.id)));
    EventSent(s1, AlertEvent(b, b.host));
  }

  lemma SettledSent(rt: Runtime, a: Alert, host: Option<HostId>, notify: bool)
    ensures var s, s' := rt.store, Settle(rt, a, host, notify).store;
      && s'.alertOut.dropped >= s.alertOut.dropped
      && (s'.alertOut.dropped == s.alertOut.dropped ==>
            AlertsToBe(s') == AlertsAfter(AlertsToBe(s), Sent(rt, Op.Settled(a, host, notify))))
  {
    hide OnResolved, Put, AlertsAfter;
    var r := OnResolved(rt.ledger, a);
    EventSent(rt.store, AlertEvent(a, host));
    if r.incident.Some? && r.incident.value in r.ledger.incidents {
      EventSent(EnqueueIncident(rt.store, IncidentEvent(r.ledger.incidents[r.incident.value], None)), AlertEvent(a, host));
    }
  }

  lemma {:induction false} AllSent(rt: Runtime, ops: seq<Op>)
    ensures var s, s' := rt.store, DoAll(rt, ops).store;
      && s'.alertOut.dropped >= s.alertOut.dropped
      && (s'.alertOut.dropped == s.alertOut.dropped ==> AlertsToBe(s') == AlertsAfter(AlertsToBe(s), SentAll(rt, ops)))
  {
    hide Do, Sent;
    if ops != [] {
      var n := |ops| - 1;
      AllSent(rt, ops[..n]);
      OneSent(DoAll(rt, ops[..n]), ops[n]);
      AfterBoth(AlertsToBe(rt.store), SentAll(rt, ops[..n]), Sent(DoAll(rt, ops[..n]), ops[n]));
    }
  }

  lemma {:induction false} AfterBoth(t: AlertTable, a: seq<AlertEvent>, b: seq<AlertEvent>)
    ensures AlertsAfter(t, a + b) == AlertsAfter(AlertsAfter(t, a), b)
    decreases |a|
  {
    if a == [] {
      assert a + b == b;
    } else {
      assert (a + b)[1..] == a[1..] + b;
      AfterBoth(PersistAlert(t, a[0]), a[1..], b);
    }
  }

  /** After every run without a dropped alert, once the queue is written: the table has a row for each alert; every column
      says what the alert says, the value of an open one what its last queued copy said; and every column comes from the
      first or last copy that was queued. */
  lemma RowsTellTheAlerts(d: Detector.State, home: Option<HostId>, ac: nat, ic: nat, inputs: seq<Input>) returns (ops: seq<Op>)
    requires d.minHistory >= 1 && Run(Initial(d, home, ac, ic), inputs).rt.store.alertOut.dropped == 0
    ensures var rt := Run(Initial(d, home, ac, ic), inputs).rt;
      var t, evs := AlertsToBe(rt.store), SentAll(Start(ac, ic), ops);
      && Leads(Start(ac, ic), ops, rt) && t.Keys == rt.alerts.Keys
      && (forall a :: a in rt.alerts ==> Mirrors(t[a], rt.alerts[a]))
      && (forall a :: RowTells(t, evs, a))
  {
    hide Run, RowTells, SentAll, DoAll, AllLegal, AlertsAfter, InMemory, Mirrors;
    ops := RunOps(d, home, ac, ic, inputs);
    var rt, evs := Run(Initial(d, home, ac, ic), inputs).rt, SentAll(Start(ac, ic), ops);
    OpsTell(ac, ic, ops);
    AllSent(Start(ac, ic), ops);
    assert AlertsToBe(Start(ac, ic).store) == map[] by { NothingToBe(ac, ic); }
    forall a ensures RowTells(AlertsToBe(rt.store), evs, a) { RowsAreEvents(evs, a); }
  }

  lemma NothingToBe(ac: nat, ic: nat)
    ensures AlertsToBe(Start(ac, ic).store) == map[]
  {
  }
}
