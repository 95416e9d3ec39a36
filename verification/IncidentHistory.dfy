/** What an incident's times and status say about its alerts: everything is determined by the order in which its alerts
    were raised and resolved and it was acknowledged. */
module IncidentHistory {
  import opened Common
  import opened Domain
  import Detector
  import opened Incidents
  import opened Persistence
  import opened Pipeline
  import opened Notices
  import opened Manager
  import opened Coherence
  import opened Runs
  import opened Operations

  // ----- Reference: the history of the alerts `ids` of one incident -----

  /** The first of the alerts to be raised. */
  function FirstRaised(ops: seq<Op>, ids: set<AlertId>): Option<Alert> {
    if ops == [] then None else
    var rest, op := FirstRaised(ops[..|ops| - 1], ids), ops[|ops| - 1];
    if rest.None? && op.Raised? && op.alert.id in ids then Some(op.alert) else rest
  }

  /** The last of the alerts to be resolved. */
  function LastSettled(ops: seq<Op>, ids: set<AlertId>): Option<Alert> {
    if ops == [] then None else
    var op := ops[|ops| - 1];
    if op.Settled? && op.alert.id in ids then Some(op.alert) else LastSettled(ops[..|ops| - 1], ids)
  }

  /** A resolution brings the time of its alert, a new alert brings its own if that is later. */
  function LastChange(ops: seq<Op>, ids: set<AlertId>): Option<Time> {
    if ops == [] then None else
    var rest, op := LastChange(ops[..|ops| - 1], ids), ops[|ops| - 1];
    if op.Settled? && op.alert.id in ids then Some(op.alert.timestamp)
    else if op.Raised? && op.alert.id in ids then
      if rest.Some? && rest.value >= op.alert.timestamp then rest else Some(op.alert.timestamp)
    else rest
  }

  /** The incident was acknowledged, and no alert was raised in it since. */
  predicate AckStands(ops: seq<Op>, ids: set<AlertId>, i: IncidentId) {
    ops != [] &&
    var op := ops[|ops| - 1];
    if op.Raised? && op.alert.id in ids then false
    else if op == IncidentAcked(i) then true
    else AckStands(ops[..|ops| - 1], ids, i)
  }

  /** The time at which an alert was resolved. */
  function ResolutionTime(a: Alert): Time {
    if a.resolvedAt.Some? then a.resolvedAt.value else a.timestamp
  }

  /** What the history says about an incident. */
  ghost predicate TellsOf(inc: Incident, alerts: map<AlertId, Alert>, ops: seq<Op>) {
    var ids := inc.alertIds;
    var first, last := FirstRaised(ops, ids), LastSettled(ops, ids);
    && first.Some? && inc.firstSeen == first.value.timestamp && inc.host == first.value.host && inc.service == first.value.service
    && LastChange(ops, ids) == Some(inc.lastSeen)
    && (last.Some? ==> last.value.id in ids && last.value.id in alerts && alerts[last.value.id].resolved
                       && ResolutionTime(alerts[last.value.id]) == ResolutionTime(last.value))
    && (inc.status == Closed <==> forall a :: a in ids && a in alerts ==> alerts[a].resolved)
    && (inc.status == Closed ==> last.Some? && inc.resolvedAt == Some(ResolutionTime(last.value)))
    && (inc.status != Closed ==> inc.resolvedAt.None? && (inc.status == Acknowledged <==> AckStands(ops, ids, inc.id)))
  }

  ghost predicate Tells(rt: Runtime, ops: seq<Op>, i: IncidentId)
    requires i in rt.ledger.incidents
  {
    rt.ledger.incidents[i].id == i && TellsOf(rt.ledger.incidents[i], rt.alerts, ops)
  }

  // ----- Every operation -----

  /** The alert is not one of those. */
  predicate Elsewhere(op: Op, ids: set<AlertId>) {
    (op.Raised? || op.Settled?) ==> op.alert.id !in ids
  }

  lemma NotConcerned(ops: seq<Op>, op: Op, ids: set<AlertId>, i: IncidentId)
    requires Elsewhere(op, ids) && op != IncidentAcked(i)
    ensures FirstRaised(ops + [op], ids) == FirstRaised(ops, ids)
    ensures LastSettled(ops + [op], ids) == LastSettled(ops, ids)
    ensures LastChange(ops + [op], ids) == LastChange(ops, ids)
    ensures AckStands(ops + [op], ids, i) <==> AckStands(ops, ids, i)
  {
    assert (ops + [op])[..|ops|] == ops;
  }

  /** An alert that the operations do not mention makes no difference. */
  lemma {:induction false} OneMoreId(ops: seq<Op>, ids: set<AlertId>, x: AlertId, i: IncidentId)
    requires forall k :: 0 <= k < |ops| ==> Elsewhere(ops[k], {x})
    ensures FirstRaised(ops, ids + {x}) == FirstRaised(ops, ids)
    ensures LastSettled(ops, ids + {x}) == LastSettled(ops, ids)
    ensures LastChange(ops, ids + {x}) == LastChange(ops, ids)
    ensures AckStands(ops, ids + {x}, i) <==> AckStands(ops, ids, i)
  {
    if ops != [] {
      assert Elsewhere(ops[|ops| - 1], {x});
      OneMoreId(ops[..|ops| - 1], ids, x, i);
    }
  }

  lemma {:induction false} Unmentioned(ops: seq<Op>, x: AlertId)
    requires forall k :: 0 <= k < |ops| ==> Elsewhere(ops[k], {x})
    ensures FirstRaised(ops, {x}).None? && LastSettled(ops, {x}).None? && LastChange(ops, {x}).None?
  {
    if ops != [] {
      assert Elsewhere(ops[|ops| - 1], {x});
      Unmentioned(ops[..|ops| - 1], x);
    }
  }

  /** The operations mention only alerts that exist. */
  ghost predicate Mentions(rt: Runtime, ops: seq<Op>) {
    forall k :: 0 <= k < |ops| && (ops[k].Raised? || ops[k].Settled?) ==> ops[k].alert.id in rt.alerts
  }

  /** What a new alert does to the incidents. */
  lemma Enters(rt: Runtime, a: Alert, notify: bool)
    requires Sound(rt.ledger)
    ensures var rt', id := Raise(rt, a, notify), OnCreated(rt.ledger, a).incident.value;
      && rt'.alerts == rt.alerts[a.id := a.(incident := Some(id))]
      && id in rt'.ledger.incidents
      && rt'.ledger.incidents == rt.ledger.incidents[id := rt'.ledger.incidents[id]]
      && (var i' := rt'.ledger.incidents[id];
          if id in rt.ledger.incidents then
            var i := rt.ledger.incidents[id];
            && i.status != Closed && i'.status == Open && i'.id == i.id && i'.alertIds == i.alertIds + {a.id}
            && i'.firstSeen == i.firstSeen && i'.host == i.host && i'.service == i.service && i'.resolvedAt == i.resolvedAt
            && i'.lastSeen == if i.lastSeen >= a.timestamp then i.lastSeen else a.timestamp
          else
            && i'.status == Open && i'.id == id && i'.alertIds == {a.id} && i'.firstSeen == i'.lastSeen == a.timestamp
            && i'.host == a.host && i'.service == a.service && i'.resolvedAt.None?)
  {
    hide FirstCandidate, Partition, WellFormed, Unresolved, EnqueueAlert, EnqueueIncident;
  }

  /** The first alert of an incident. */
  lemma OpenTells(inc: Incident, alerts: map<AlertId, Alert>, ops: seq<Op>, op: Op)
    requires op.Raised? && !op.alert.resolved && (forall k :: 0 <= k < |ops| ==> Elsewhere(ops[k], {op.alert.id}))
    requires inc.status == Open && inc.alertIds == {op.alert.id} && inc.firstSeen == inc.lastSeen == op.alert.timestamp
    requires inc.host == op.alert.host && inc.service == op.alert.service && inc.resolvedAt.None?
    requires op.alert.id in alerts && !alerts[op.alert.id].resolved
    ensures TellsOf(inc, alerts, ops + [op])
  {
    assert (ops + [op])[..|ops|] == ops;
    Unmentioned(ops, op.alert.id);
  }

  /** One alert more. */
  lemma JoinTells(inc: Incident, inc': Incident, alerts: map<AlertId, Alert>, alerts': map<AlertId, Alert>, ops: seq<Op>, op: Op)
    requires TellsOf(inc, alerts, ops) && op.Raised? && inc'.id == inc.id && inc.status != Closed && inc'.status == Open
    requires op.alert.id !in alerts && (forall k :: 0 <= k < |ops| ==> Elsewhere(ops[k], {op.alert.id}))
    requires op.alert.id in alerts' && !alerts'[op.alert.id].resolved && alerts' == alerts[op.alert.id := alerts'[op.alert.id]]
    requires inc'.alertIds == inc.alertIds + {op.alert.id} && inc'.firstSeen == inc.firstSeen
    requires inc'.host == inc.host && inc'.service == inc.service && inc'.resolvedAt == inc.resolvedAt
    requires inc'.lastSeen == if inc.lastSeen >= op.alert.timestamp then inc.lastSeen else op.alert.timestamp
    ensures TellsOf(inc', alerts', ops + [op])
  {
    assert (ops + [op])[..|ops|] == ops;
    OneMoreId(ops, inc.alertIds, op.alert.id, inc.id);
  }

  /** Another incident. */
  lemma OtherTells(inc: Incident, alerts: map<AlertId, Alert>, alerts': map<AlertId, Alert>, ops: seq<Op>, op: Op)
    requires TellsOf(inc, alerts, ops) && Elsewhere(op, inc.alertIds) && op != IncidentAcked(inc.id)
    requires inc.alertIds <= alerts.Keys && inc.alertIds <= alerts'.Keys
    requires forall a :: a in inc.alertIds ==>
      alerts'[a].resolved == alerts[a].resolved && ResolutionTime(alerts'[a]) == ResolutionTime(alerts[a])
    ensures TellsOf(inc, alerts', ops + [op])
  {
    NotConcerned(ops, op, inc.alertIds, inc.id);
    hide FirstRaised, LastSettled, LastChange, AckStands;
  }

  /** One of its alerts resolved: the incident is closed exactly if that was the last open one. */
  lemma SettleTells(inc: Incident, inc': Incident, alerts: map<AlertId, Alert>, alerts': map<AlertId, Alert>, ops: seq<Op>, op: Op)
    requires TellsOf(inc, alerts, ops) && op.Settled? && op.alert.id in inc.alertIds && op.alert.resolved
    requires alerts' == alerts[op.alert.id := op.alert] && inc.status != Closed
    requires inc.alertIds <= alerts.Keys
    requires forall a :: a in inc.alertIds ==> (a in inc.activeIds <==> !alerts[a].resolved)
    requires inc.activeIds <= inc.alertIds && inc' == Incidents.Settled(inc, op.alert)
    ensures TellsOf(inc', alerts', ops + [op])
  {
    ConcernedBySettling(ops, op, inc.alertIds, inc.id);
    hide FirstRaised, LastSettled, LastChange, AckStands;
    assert inc'.status == Closed <==> inc.activeIds - {op.alert.id} == {};
    if inc'.status != Closed {
      var b :| b in inc.activeIds - {op.alert.id};
      assert b in inc.alertIds && b in alerts' && !alerts'[b].resolved;
    } else {
      forall a | a in inc.alertIds ensures a in alerts' && alerts'[a].resolved {
        if a != op.alert.id { assert a !in inc.activeIds - {op.alert.id} && a !in inc.activeIds; }
      }
    }
  }

  lemma RaisedTells(rt: Runtime, ops: seq<Op>, a: Alert, notify: bool, i: IncidentId)
    requires InMemory(rt) && Mentions(rt, ops) && Legal(rt, Raised(a, notify))
    requires i in rt.ledger.incidents ==> Tells(rt, ops, i)
    requires i in Raise(rt, a, notify).ledger.incidents
    ensures Tells(Raise(rt, a, notify), ops + [Raised(a, notify)], i)
  {
    hide InMemory, Sound, Raise, OnCreated, TellsOf;
    assert a.id !in rt.alerts;
    assert forall k :: 0 <= k < |ops| ==> Elsewhere(ops[k], {a.id});
    if i in rt.ledger.incidents { MembersAreKnown(rt, i); }
    MemoryIsSound(rt);
    Enters(rt, a, notify);
    var op, rt', id := Raised(a, notify), Raise(rt, a, notify), OnCreated(rt.ledger, a).incident.value;
    if i !in rt.ledger.incidents {
      OpenTells(rt'.ledger.incidents[i], rt'.alerts, ops, op);
    } else if i == id {
      JoinTells(rt.ledger.incidents[i], rt'.ledger.incidents[i], rt.alerts, rt'.alerts, ops, op);
    } else {
      OtherTells(rt.ledger.incidents[i], rt.alerts, rt'.alerts, ops, op);
    }
  }

  lemma SettledTells(rt: Runtime, ops: seq<Op>, a: Alert, host: Option<HostId>, notify: bool, i: IncidentId)
    requires InMemory(rt) && Resolves(rt.alerts, a) && i in rt.ledger.incidents && Tells(rt, ops, i)
    ensures i in Settle(rt, a, host, notify).ledger.incidents
    ensures Tells(Settle(rt, a, host, notify), ops + [Op.Settled(a, host, notify)], i)
  {
    hide InMemory, Settle, Count, TellsOf;
    OwnerOf(rt, a, i);
    var op, rt', id := Op.Settled(a, host, notify), Settle(rt, a, host, notify), rt.ledger.owner[a.id];
    SettleCounts(rt, a, host, notify, id, AlertNotice(0, false));
    ActiveOnes(rt, i);
    if i != id {
      OtherTells(rt.ledger.incidents[i], rt.alerts, rt'.alerts, ops, op);
    } else {
      SettleTells(rt.ledger.incidents[i], rt'.ledger.incidents[i], rt.alerts, rt'.alerts, ops, op);
    }
  }

  lemma ConcernedBySettling(ops: seq<Op>, op: Op, ids: set<AlertId>, i: IncidentId)
    requires op.Settled? && op.alert.id in ids
    ensures FirstRaised(ops + [op], ids) == FirstRaised(ops, ids)
    ensures LastSettled(ops + [op], ids) == Some(op.alert)
    ensures LastChange(ops + [op], ids) == Some(op.alert.timestamp)
    ensures AckStands(ops + [op], ids, i) <==> AckStands(ops, ids, i)
  {
    assert (ops + [op])[..|ops|] == ops;
  }

  lemma OwnerOf(rt: Runtime, a: Alert, i: IncidentId)
    requires InMemory(rt) && Resolves(rt.alerts, a) && i in rt.ledger.incidents
    ensures a.id in rt.ledger.owner && rt.ledger.owner[a.id] in rt.ledger.incidents
    ensures rt.ledger.incidents[rt.ledger.owner[a.id]].status != Closed
    ensures a.id in rt.ledger.incidents[i].alertIds <==> i == rt.ledger.owner[a.id]
  {
    OpenAlertOpenIncident(rt.ledger, rt.alerts, a.id);
  }

  /** The active alerts of an incident are its open ones. */
  lemma ActiveOnes(rt: Runtime, i: IncidentId)
    requires InMemory(rt) && i in rt.ledger.incidents
    ensures var inc := rt.ledger.incidents[i];
      && inc.alertIds <= rt.alerts.Keys && inc.activeIds <= inc.alertIds
      && (forall a :: a in inc.alertIds ==> (a in inc.activeIds <==> !rt.alerts[a].resolved))
      && (inc.status == Closed <==> inc.activeIds == {}) && (inc.resolvedAt.Some? <==> inc.status == Closed)
  {
    hide Describes;
    MembersAreKnown(rt, i);
    assert WellFormed(i, rt.ledger.incidents[i]);
    forall a | a in rt.ledger.incidents[i].alertIds ensures a in rt.ledger.incidents[i].activeIds <==> !rt.alerts[a].resolved {
      assert Placed(rt.ledger, a, rt.alerts[a]);
    }
  }

  lemma AcknowledgedTells(rt: Runtime, ops: seq<Op>, id: IncidentId, i: IncidentId)
    requires i in rt.ledger.incidents && Tells(rt, ops, i)
    ensures i in AckIncident(rt, id).ledger.incidents && Tells(AckIncident(rt, id), ops + [IncidentAcked(id)], i)
  {
    var op := IncidentAcked(id);
    assert (ops + [op])[..|ops|] == ops;
  }

  /** Values, acknowledgements of alerts and the work of the writers make no difference to incidents. */
  lemma QuietTells(rt: Runtime, rt': Runtime, ops: seq<Op>, op: Op, i: IncidentId)
    requires i in rt.ledger.incidents && Tells(rt, ops, i) && rt'.ledger == rt.ledger && rt'.alerts.Keys == rt.alerts.Keys
    requires rt.ledger.incidents[i].alertIds <= rt.alerts.Keys
    requires forall a :: a in rt.alerts ==> rt'.alerts[a] == rt.alerts[a].(value := rt'.alerts[a].value, acknowledged := rt'.alerts[a].acknowledged)
    requires op.AlertAcked? || op.Valued? || op.Worked?
    ensures Tells(rt', ops + [op], i)
  {
    hide TellsOf;
    OtherTells(rt.ledger.incidents[i], rt.alerts, rt'.alerts, ops, op);
  }

  ghost predicate AllTold(rt: Runtime, ops: seq<Op>) {
    Mentions(rt, ops) && forall i :: i in rt.ledger.incidents ==> Tells(rt, ops, i)
  }

  /** Operations that leave the incidents alone leave the alerts as they are, up to value and acknowledgement. */
  lemma QuietOp(rt: Runtime, op: Op)
    requires InMemory(rt) && Legal(rt, op) && (op.AlertAcked? || op.Valued? || op.Worked?)
    ensures var rt' := Do(rt, op);
      && rt'.ledger == rt.ledger && rt'.alerts.Keys == rt.alerts.Keys
      && forall a :: a in rt.alerts ==> rt'.alerts[a] == rt.alerts[a].(value := rt'.alerts[a].value, acknowledged := rt'.alerts[a].acknowledged)
  {
    hide InMemory, Work, Put, Newer, Resolves, Raise, Settle, AckIncident;
    KnowsItself(rt, op);
  }

  lemma OpTells(rt: Runtime, ops: seq<Op>, op: Op)
    requires InMemory(rt) && AllTold(rt, ops) && Legal(rt, op)
    ensures AllTold(Do(rt, op), ops + [op])
  {
    hide InMemory, Tells, Raise, Settle, AckAlert, AckIncident, Work, Newer, Resolves;
    var rt' := Do(rt, op);
    Keeps(rt, op);
    forall i | i in rt'.ledger.incidents ensures Tells(rt', ops + [op], i) {
      match op
      case Raised(a, notify) => RaisedTells(rt, ops, a, notify, i);
      case Settled(a, host, notify) => Remains(rt, op, i); SettledTells(rt, ops, a, host, notify, i);
      case IncidentAcked(id) => Remains(rt, op, i); AcknowledgedTells(rt, ops, id, i);
      case _ => QuietOp(rt, op); MembersAreKnown(rt, i); QuietTells(rt, rt', ops, op, i);
    }
  }

  lemma KnowsItself(rt: Runtime, op: Op)
    requires InMemory(rt)
    ensures op.AlertAcked? && op.id in rt.alerts ==> rt.alerts[op.id].id == op.id
  {
    if op.AlertAcked? && op.id in rt.alerts { KnownById(rt, op.id); }
  }

  lemma Remains(rt: Runtime, op: Op, i: IncidentId)
    requires InMemory(rt) && Legal(rt, op) && (op.Settled? || op.IncidentAcked?) && i in Do(rt, op).ledger.incidents
    ensures i in rt.ledger.incidents
  {
    hide Describes, Unresolved, Raise, EnqueueIncident, EnqueueAlert;
  }

  lemma Keeps(rt: Runtime, op: Op)
    requires InMemory(rt) && Legal(rt, op)
    ensures rt.alerts.Keys <= Do(rt, op).alerts.Keys
    ensures op.Raised? || op.Settled? ==> op.alert.id in Do(rt, op).alerts
  {
    hide InMemory, OnCreated, OnResolved, Work;
  }

  lemma OpHealthy(rt: Runtime, op: Op)
    requires Healthy(rt) && Legal(rt, op)
    ensures Healthy(Do(rt, op))
  {
    hide InMemory, Durable, Raise, Settle, Work;
    match op
    case Raised(a, notify) => assert a.id !in rt.alerts; RaiseHealthy(rt, a, notify);
    case Settled(a, host, notify) => SettleHealthy(rt, a, host, notify);
    case AlertAcked(id) => AckAlertHealthy(rt, id);
    case IncidentAcked(i) => AckIncidentHealthy(rt, i);
    case Valued(id, value) => SetValueHealthy(rt, id, value);
    case Worked(t) => WorkHealthy(rt, t);
  }

  lemma {:induction false} OpsTell(ac: nat, ic: nat, ops: seq<Op>)
    requires AllLegal(Start(ac, ic), ops)
    ensures Healthy(DoAll(Start(ac, ic), ops)) && AllTold(DoAll(Start(ac, ic), ops), ops)
  {
    hide InMemory, Durable, AllTold, Legal, Do;
    if ops == [] {
      StartIsHealthy(ac, ic);
      assert AllTold(Start(ac, ic), []) by { NothingTold(ac, ic); }
    } else {
      var n := |ops| - 1;
      var rt := DoAll(Start(ac, ic), ops[..n]);
      OpsTell(ac, ic, ops[..n]);
      OpHealthy(rt, ops[n]);
      OpTells(rt, ops[..n], ops[n]);
      assert ops[..n] + [ops[n]] == ops;
    }
  }

  lemma NothingTold(ac: nat, ic: nat)
    ensures AllTold(Start(ac, ic), [])
  {
  }

  /** In every run: an incident starts with its first alert; its last-seen time comes from the alert resolved last or
      raised since, it is closed exactly when all its alerts are resolved, at the time of the last of them to be
      resolved, and it is acknowledged exactly if that was done since its last alert was raised. */
  lemma IncidentsTellTheirHistory(d: Detector.State, home: Option<HostId>, ac: nat, ic: nat, inputs: seq<Input>)
      returns (ops: seq<Op>)
    requires d.minHistory >= 1
    ensures var rt := Run(Initial(d, home, ac, ic), inputs).rt;
      Leads(Start(ac, ic), ops, rt) && forall i :: i in rt.ledger.incidents ==> Tells(rt, ops, i)
  {
    hide Run, Initial, Start, Tells, DoAll, AllLegal;
    ops := RunOps(d, home, ac, ic, inputs);
    OpsTell(ac, ic, ops);
  }
}
