/** Notifications are issued at most once per event, and what is closed stays as it is. */
module Notices {
  import opened Common
  import opened Domain
  import opened Incidents
  import opened Pipeline

  function Count(rt: Runtime, n: Notice): nat {
    multiset(rt.notices)[n]
  }

  /** Rule and anomaly alerts are notified, synthetic ones are not. */
  predicate Speaks(a: Alert) {
    a.source != FromCheck
  }

  /** The alert that opened the incident is notified: it is the one with the least number. */
  ghost predicate OpenedAloud(rt: Runtime, i: IncidentId)
    requires i in rt.ledger.incidents
  {
    var ids := rt.ledger.incidents[i].alertIds;
    exists a :: a in ids && a in rt.alerts && Speaks(rt.alerts[a]) && forall b :: b in ids ==> a <= b
  }

  ghost predicate AllSpeak(rt: Runtime, i: IncidentId)
    requires i in rt.ledger.incidents
  {
    forall a :: a in rt.ledger.incidents[i].alertIds && a in rt.alerts ==> Speaks(rt.alerts[a])
  }

  ghost predicate NoneSpeaks(rt: Runtime, i: IncidentId)
    requires i in rt.ledger.incidents
  {
    forall a :: a in rt.ledger.incidents[i].alertIds && a in rt.alerts ==> !Speaks(rt.alerts[a])
  }

  /** How often a notice has been issued: never twice, and only after its event; of an alert exactly if it is a rule or
      anomaly alert; of a new incident exactly if such an alert opened it; of a resolved incident surely if it has no
      other alerts, and not at all if it has only others. */
  ghost predicate Exact(rt: Runtime, n: Notice) {
    match n
    case AlertNotice(a, over) =>
      Count(rt, n) == if a in rt.alerts && Speaks(rt.alerts[a]) && (over ==> rt.alerts[a].resolved) then 1 else 0
    case IncidentNotice(i, false) =>
      Count(rt, n) == if i in rt.ledger.incidents && OpenedAloud(rt, i) then 1 else 0
    case IncidentNotice(i, true) =>
      if i in rt.ledger.incidents && rt.ledger.incidents[i].status == Closed then
        Count(rt, n) <= 1 && (AllSpeak(rt, i) ==> Count(rt, n) == 1) && (NoneSpeaks(rt, i) ==> Count(rt, n) == 0)
      else Count(rt, n) == 0
  }

  ghost predicate NotifiesOnce(rt: Runtime) {
    forall n: Notice :: Exact(rt, n)
  }

  /** The incident is closed in `rt` and exactly the same in `rt'`. */
  predicate StaysClosed(rt: Runtime, rt': Runtime, i: IncidentId) {
    i in rt.ledger.incidents && rt.ledger.incidents[i].status == Closed ==>
      i in rt'.ledger.incidents && rt'.ledger.incidents[i] == rt.ledger.incidents[i]
  }

  /** Once resolved, an alert can only still be acknowledged. */
  predicate StaysResolved(rt: Runtime, rt': Runtime, a: AlertId) {
    a in rt.alerts ==>
      && a in rt'.alerts
      && (rt.alerts[a].resolved ==> rt'.alerts[a] == rt.alerts[a].(acknowledged := rt'.alerts[a].acknowledged))
  }

  ghost predicate Evolves(rt: Runtime, rt': Runtime) {
    (forall i :: StaysClosed(rt, rt', i)) && (forall a :: StaysResolved(rt, rt', a))
  }

  lemma EvolvesTransitive(a: Runtime, b: Runtime, c: Runtime)
    requires Evolves(a, b) && Evolves(b, c)
    ensures Evolves(a, c)
  {
    forall i ensures StaysClosed(a, c, i) { assert StaysClosed(a, b, i) && StaysClosed(b, c, i); }
    forall x ensures StaysResolved(a, c, x) { assert StaysResolved(a, b, x) && StaysResolved(b, c, x); }
  }

  lemma JoinedHasMoreAlerts(i: Incident, a: Alert)
    requires i.alertIds != {} && a.id !in i.alertIds
    ensures |Joined(i, a).alertIds| >= 2
  {
    var b :| b in i.alertIds;
    var rest := Joined(i, a).alertIds - {a.id};
    assert Joined(i, a).alertIds == rest + {a.id} && b in rest;
  }

  /** An incident has exactly one alert right after a call iff the call opened it. */
  lemma FirstAlertOpens(l: Ledger, a: Alert)
    requires Sound(l) && a.id !in l.owner
    ensures var r := OnCreated(l, a);
      |r.ledger.incidents[r.incident.value].alertIds| == 1 <==> r.incident.value !in l.incidents
  {
    var c := Candidate(l, a);
    if c.Some? {
      assert WellFormed(c.value, l.incidents[c.value]);
      JoinedHasMoreAlerts(l.incidents[c.value], a);
    }
  }

  /** The incidents have the same alerts, which speak or not as before. */
  ghost predicate SameVoices(rt: Runtime, rt': Runtime, i: IncidentId) {
    && i in rt.ledger.incidents && i in rt'.ledger.incidents
    && rt'.ledger.incidents[i].alertIds == rt.ledger.incidents[i].alertIds
    && (forall a :: a in rt.ledger.incidents[i].alertIds ==>
          (a in rt.alerts <==> a in rt'.alerts) && (a in rt.alerts ==> (Speaks(rt.alerts[a]) <==> Speaks(rt'.alerts[a]))))
  }

  lemma VoicesKept(rt: Runtime, rt': Runtime, i: IncidentId)
    requires SameVoices(rt, rt', i)
    ensures OpenedAloud(rt', i) <==> OpenedAloud(rt, i)
    ensures AllSpeak(rt', i) <==> AllSpeak(rt, i)
    ensures NoneSpeaks(rt', i) <==> NoneSpeaks(rt, i)
  {
  }

  /** Newer than every alert so far. */
  ghost predicate Newer(rt: Runtime, id: AlertId) {
    forall a: AlertId :: a in rt.alerts ==> a < id
  }

  lemma MembersAreKnown(rt: Runtime, i: IncidentId)
    requires InMemory(rt) && i in rt.ledger.incidents
    ensures rt.ledger.incidents[i].alertIds <= rt.alerts.Keys && rt.ledger.incidents[i].alertIds != {}
  {
    hide Describes, Placed, Unresolved;
    assert WellFormed(i, rt.ledger.incidents[i]);
  }

  /** The incident that an alert enters is not closed, before or after. */
  lemma EntersOpen(rt: Runtime, a: Alert, notify: bool)
    requires Sound(rt.ledger)
    ensures var rt', id := Raise(rt, a, notify), OnCreated(rt.ledger, a).incident.value;
      && rt'.alerts == rt.alerts[a.id := a.(incident := Some(id))]
      && id in rt'.ledger.incidents && rt'.ledger.incidents[id].status != Closed
      && rt'.ledger.incidents == rt.ledger.incidents[id := rt'.ledger.incidents[id]]
      && (id in rt.ledger.incidents ==> rt.ledger.incidents[id].status != Closed)
      && rt'.ledger.incidents[id].alertIds
         == (if id in rt.ledger.incidents then rt.ledger.incidents[id].alertIds + {a.id} else {a.id})
  {
    hide FirstCandidate, Partition, WellFormed, Unresolved, EnqueueAlert, EnqueueIncident;
  }

  /** What an alert's arrival means for who opened the incidents. */
  lemma RaiseOpens(rt: Runtime, a: Alert, notify: bool, i: IncidentId)
    requires InMemory(rt) && Newer(rt, a.id)
    requires i in Raise(rt, a, notify).ledger.incidents
    ensures var rt' := Raise(rt, a, notify);
      && (i in rt.ledger.incidents ==>
            && (OpenedAloud(rt', i) <==> OpenedAloud(rt, i))
            && (rt'.ledger.incidents[i].status == Closed <==> rt.ledger.incidents[i].status == Closed)
            && (rt.ledger.incidents[i].status == Closed ==> SameVoices(rt, rt', i)))
      && (i !in rt.ledger.incidents ==>
            i == OnCreated(rt.ledger, a).incident.value && rt'.ledger.incidents[i].status != Closed
            && (OpenedAloud(rt', i) <==> Speaks(a)))
  {
    hide InMemory, OnCreated, Raise, Speaks;
    assert a.id !in rt.alerts;
    assert Sound(rt.ledger) by { MemoryIsSound(rt); }
    EntersOpen(rt, a, notify);
    if i in rt.ledger.incidents { MembersAreKnown(rt, i); }
    var rt', id := Raise(rt, a, notify), OnCreated(rt.ledger, a).incident.value;
    SpeaksAlike(a, a.(incident := Some(id)));
    hide Sound, Newer;
    if i !in rt.ledger.incidents {
      assert a.id in rt'.ledger.incidents[i].alertIds;
    } else if i == id {
      JoinedAloud(rt, rt', a, i);
    } else {
      assert SameVoices(rt, rt', i);
      VoicesKept(rt, rt', i);
    }
  }

  lemma MemoryIsSound(rt: Runtime)
    requires InMemory(rt)
    ensures Sound(rt.ledger)
  {
  }

  lemma SpeaksAlike(a: Alert, b: Alert)
    requires a.source == b.source
    ensures Speaks(a) <==> Speaks(b)
  {
  }

  lemma JoinedAloud(rt: Runtime, rt': Runtime, a: Alert, i: IncidentId)
    requires i in rt.ledger.incidents && i in rt'.ledger.incidents && Newer(rt, a.id) && a.id in rt'.alerts
    requires rt.ledger.incidents[i].alertIds <= rt.alerts.Keys && rt.ledger.incidents[i].alertIds != {}
    requires rt'.ledger.incidents[i].alertIds == rt.ledger.incidents[i].alertIds + {a.id}
    requires rt'.alerts == rt.alerts[a.id := rt'.alerts[a.id]]
    ensures OpenedAloud(rt', i) <==> OpenedAloud(rt, i)
  {
    var ids := rt.ledger.incidents[i].alertIds;
    var b :| b in ids;
    assert b < a.id;
    if OpenedAloud(rt', i) {
      var o: AlertId :| o in ids + {a.id} && Speaks(rt'.alerts[o]) && forall b: AlertId :: b in ids + {a.id} ==> o <= b;
      assert o <= b && o in ids;
    }
  }

  /** Which notices a new alert adds. */
  lemma RaiseCounts(rt: Runtime, a: Alert, notify: bool, n: Notice)
    requires var r := OnCreated(rt.ledger, a);
      |r.ledger.incidents[r.incident.value].alertIds| == 1 <==> r.incident.value !in rt.ledger.incidents
    ensures var id := OnCreated(rt.ledger, a).incident.value;
      Count(Raise(rt, a, notify), n) == Count(rt, n)
        + (if notify && n == AlertNotice(a.id, false) then 1 else 0)
        + (if notify && n == IncidentNotice(id, false) && id !in rt.ledger.incidents then 1 else 0)
  {
    var id := OnCreated(rt.ledger, a).incident.value;
    var first := if notify then [AlertNotice(a.id, false)] else [];
    var second := if notify && id !in rt.ledger.incidents then [IncidentNotice(id, false)] else [];
    assert Raise(rt, a, notify).notices == rt.notices + first + second;
    hide OnCreated, Raise;
  }

  lemma RaiseNotice(rt: Runtime, a: Alert, notify: bool, n: Notice)
    requires InMemory(rt) && Newer(rt, a.id) && (notify <==> Speaks(a)) && !a.resolved && Exact(rt, n)
    requires var r := OnCreated(rt.ledger, a);
      |r.ledger.incidents[r.incident.value].alertIds| == 1 <==> r.incident.value !in rt.ledger.incidents
    ensures Exact(Raise(rt, a, notify), n)
  {
    hide InMemory, Sound, Raise, OnCreated, OpenedAloud, AllSpeak, NoneSpeaks, SameVoices, Count, Speaks;
    var rt', id := Raise(rt, a, notify), OnCreated(rt.ledger, a).incident.value;
    assert a.id !in rt.alerts;
    RaiseCounts(rt, a, notify, n);
    MemoryIsSound(rt);
    EntersOpen(rt, a, notify);
    SpeaksAlike(a, a.(incident := Some(id)));
    hide Newer;
    if n.IncidentNotice? && n.incident in rt'.ledger.incidents {
      RaiseOpens(rt, a, notify, n.incident);
      if SameVoices(rt, rt', n.incident) { VoicesKept(rt, rt', n.incident); }
    }
  }

  lemma RaiseNotifiesOnce(rt: Runtime, a: Alert, notify: bool)
    requires InMemory(rt) && NotifiesOnce(rt) && Newer(rt, a.id) && (notify <==> Speaks(a)) && !a.resolved
    ensures NotifiesOnce(Raise(rt, a, notify))
  {
    assert a.id !in rt.alerts;
    FirstAlertOpens(rt.ledger, a);
    hide Exact, Raise, OnCreated, InMemory;
    forall n: Notice ensures Exact(Raise(rt, a, notify), n) {
      assert Exact(rt, n);
      RaiseNotice(rt, a, notify, n);
    }
  }

  lemma RaiseEvolves(rt: Runtime, a: Alert, notify: bool)
    requires Indexed(rt.ledger) && a.id !in rt.alerts
    ensures Evolves(rt, Raise(rt, a, notify))
  {
  }

  /** What a resolution changes, and which notices it adds. */
  lemma SettleCounts(rt: Runtime, a: Alert, host: Option<HostId>, notify: bool, id: IncidentId, n: Notice)
    requires a.id in rt.ledger.owner && rt.ledger.owner[a.id] == id && id in rt.ledger.incidents
    requires rt.ledger.incidents[id].status != Closed
    ensures var rt' := Settle(rt, a, host, notify);
      && rt'.alerts == rt.alerts[a.id := a]
      && rt'.ledger.incidents == rt.ledger.incidents[id := Settled(rt.ledger.incidents[id], a)]
      && Count(rt', n) == Count(rt, n)
           + (if notify && n == AlertNotice(a.id, true) then 1 else 0)
           + (if notify && n == IncidentNotice(id, true) && rt'.ledger.incidents[id].status == Closed then 1 else 0)
  {
    var rt' := Settle(rt, a, host, notify);
    var first := if notify then [AlertNotice(a.id, true)] else [];
    var second := if notify && rt'.ledger.incidents[id].status == Closed then [IncidentNotice(id, true)] else [];
    assert rt'.notices == rt.notices + first + second;
    hide Settle;
  }

  lemma SettleNotice(rt: Runtime, a: Alert, host: Option<HostId>, notify: bool, id: IncidentId, n: Notice)
    requires Resolves(rt.alerts, a) && (notify <==> Speaks(a)) && Exact(rt, n)
    requires a.id in rt.ledger.owner && rt.ledger.owner[a.id] == id && id in rt.ledger.incidents
    requires rt.ledger.incidents[id].status != Closed && a.id in rt.ledger.incidents[id].alertIds
    ensures Exact(Settle(rt, a, host, notify), n)
  {
    hide Settle, Count;
    var rt' := Settle(rt, a, host, notify);
    SettleCounts(rt, a, host, notify, id, n);
    if n.IncidentNotice? && n.incident in rt.ledger.incidents {
      assert SameVoices(rt, rt', n.incident);
      VoicesKept(rt, rt', n.incident);
      assert n.incident == id ==> (AllSpeak(rt, id) ==> notify) && (NoneSpeaks(rt, id) ==> !notify);
      hide OpenedAloud, AllSpeak, NoneSpeaks, SameVoices;
    }
  }

  lemma OpenAlertOpenIncident(l: Ledger, alerts: map<AlertId, Alert>, a: AlertId)
    requires Sound(l) && Agrees(l, alerts) && a in alerts && !alerts[a].resolved
    ensures a in l.owner && l.owner[a] in l.incidents && l.incidents[l.owner[a]].status != Closed
  {
    assert Placed(l, a, alerts[a]);
    assert WellFormed(l.owner[a], l.incidents[l.owner[a]]);
  }

  lemma SettleNotifiesOnce(rt: Runtime, a: Alert, host: Option<HostId>, notify: bool)
    requires InMemory(rt) && NotifiesOnce(rt) && Resolves(rt.alerts, a) && (notify <==> Speaks(a))
    ensures NotifiesOnce(Settle(rt, a, host, notify))
  {
    OpenAlertOpenIncident(rt.ledger, rt.alerts, a.id);
    hide Exact, Settle, Agrees;
    forall n: Notice ensures Exact(Settle(rt, a, host, notify), n) {
      assert Exact(rt, n);
      SettleNotice(rt, a, host, notify, rt.ledger.owner[a.id], n);
    }
  }

  lemma SettleChangesOneOpenIncident(rt: Runtime, a: Alert, host: Option<HostId>, notify: bool, id: IncidentId)
    requires Resolves(rt.alerts, a)
    requires a.id in rt.ledger.owner && rt.ledger.owner[a.id] == id && id in rt.ledger.incidents
    requires rt.ledger.incidents[id].status != Closed
    ensures Evolves(rt, Settle(rt, a, host, notify))
  {
  }

  lemma SettleEvolves(rt: Runtime, a: Alert, host: Option<HostId>, notify: bool)
    requires InMemory(rt) && Resolves(rt.alerts, a)
    ensures Evolves(rt, Settle(rt, a, host, notify))
  {
    OpenAlertOpenIncident(rt.ledger, rt.alerts, a.id);
    SettleChangesOneOpenIncident(rt, a, host, notify, rt.ledger.owner[a.id]);
  }

  /** Nothing was issued, resolved or closed. */
  lemma QuietStep(rt: Runtime, rt': Runtime)
    requires NotifiesOnce(rt) && rt'.notices == rt.notices
    requires rt'.ledger.incidents.Keys == rt.ledger.incidents.Keys && rt'.alerts.Keys == rt.alerts.Keys
    requires forall i :: i in rt.ledger.incidents ==>
      && rt'.ledger.incidents[i].alertIds == rt.ledger.incidents[i].alertIds
      && (rt'.ledger.incidents[i].status == Closed <==> rt.ledger.incidents[i].status == Closed)
    requires forall a :: a in rt.alerts ==>
      (Speaks(rt'.alerts[a]) <==> Speaks(rt.alerts[a])) && rt'.alerts[a].resolved == rt.alerts[a].resolved
    ensures NotifiesOnce(rt')
  {
    forall n: Notice ensures Exact(rt', n) {
      assert Exact(rt, n);
      if n.IncidentNotice? && n.incident in rt.ledger.incidents {
        assert SameVoices(rt, rt', n.incident);
        VoicesKept(rt, rt', n.incident);
      }
      hide OpenedAloud, AllSpeak, NoneSpeaks, SameVoices;
    }
  }

  lemma AckAlertIsQuiet(rt: Runtime, id: AlertId)
    requires NotifiesOnce(rt) && (id in rt.alerts ==> rt.alerts[id].id == id)
    ensures NotifiesOnce(AckAlert(rt, id)) && Evolves(rt, AckAlert(rt, id))
  {
    hide NotifiesOnce;
    QuietStep(rt, AckAlert(rt, id));
  }

  lemma AckIncidentIsQuiet(rt: Runtime, id: IncidentId)
    requires NotifiesOnce(rt)
    ensures NotifiesOnce(AckIncident(rt, id)) && Evolves(rt, AckIncident(rt, id))
  {
    hide NotifiesOnce;
    QuietStep(rt, AckIncident(rt, id));
  }

  lemma SetValueIsQuiet(rt: Runtime, id: AlertId, value: real)
    requires NotifiesOnce(rt) && id in rt.alerts && !rt.alerts[id].resolved
    ensures NotifiesOnce(SetValue(rt, id, value)) && Evolves(rt, SetValue(rt, id, value))
  {
    hide NotifiesOnce;
    QuietStep(rt, SetValue(rt, id, value));
  }
}
