/** What blocks the background writers: a write that refers to a rule, host or service that was deleted fails for ever,
    and everything behind it waits. */
module Blocked {
  import opened Common
  import opened Domain
  import opened Rules
  import Anomaly
  import Detector
  import opened Incidents
  import opened Persistence
  import opened Pipeline
  import opened Notices
  import opened Manager
  import opened Coherence
  import Evaluation
  import opened Reloads
  import opened Runs
  import LostAlerts

  // ----- Steps of the manager -----

  /** Nothing is deleted, and whatever blocks a worker stays in its queue. */
  ghost predicate Onward(s: Store, s': Store) {
    s'.deleted == s.deleted && (!Referable(s) ==> !Referable(s'))
  }

  lemma AppendKeepsBlocked(s: Store, s': Store)
    requires !Referable(s) && s'.deleted == s.deleted && s'.alerts == s.alerts
    requires Pending(s.alertOut) <= Pending(s'.alertOut) && Pending(s.incidentOut) <= Pending(s'.incidentOut)
    ensures !Referable(s')
  {
    hide Covers, Pending;
    var p, p', q := Pending(s.alertOut), Pending(s'.alertOut), Pending(s.incidentOut);
    if k :| 0 <= k < |p| && !AcceptableAt(s, p, k) {
      assert p'[..k] == p[..k] && !AcceptableAt(s', p', k);
    } else {
      var k :| 0 <= k < |q| && !IncidentAccepted(s.deleted, q[k]);
      assert Pending(s'.incidentOut)[k] == q[k];
    }
  }

  lemma EnqueueOnward(s: Store, i: IncidentEvent, e: AlertEvent)
    ensures Onward(s, EnqueueAlert(s, e)) && Onward(s, EnqueueIncident(s, i))
    ensures Onward(s, EnqueueAlert(EnqueueIncident(s, i), e))
  {
    hide Referable;
    var t := EnqueueIncident(s, i);
    PutAppends(s.alertOut, e);
    PutAppends(s.incidentOut, i);
    if !Referable(s) {
      AppendKeepsBlocked(s, EnqueueAlert(s, e));
      AppendKeepsBlocked(s, t);
      AppendKeepsBlocked(s, EnqueueAlert(t, e));
    }
  }

  lemma RaiseOnward(rt: Runtime, a: Alert, notify: bool)
    ensures Onward(rt.store, Raise(rt, a, notify).store)
  {
    hide Onward;
    var r := OnCreated(rt.ledger, a);
    var b := a.(incident := Some(r.incident.value));
    EnqueueOnward(rt.store, IncidentEvent(r.ledger.incidents[r.incident.value], Some(a.id)), AlertEvent(b, b.host));
  }

  lemma SettleOnward(rt: Runtime, a: Alert, host: Option<HostId>, notify: bool)
    ensures Onward(rt.store, Settle(rt, a, host, notify).store)
  {
    hide Onward;
    var r := OnResolved(rt.ledger, a);
    if r.incident.Some? && r.incident.value in r.ledger.incidents {
      EnqueueOnward(rt.store, IncidentEvent(r.ledger.incidents[r.incident.value], None), AlertEvent(a, host));
    } else {
      EnqueueAlertOnward(rt.store, AlertEvent(a, host));
    }
  }

  lemma EnqueueAlertOnward(s: Store, e: AlertEvent)
    ensures Onward(s, EnqueueAlert(s, e))
  {
    hide Referable;
    PutAppends(s.alertOut, e);
    if !Referable(s) { AppendKeepsBlocked(s, EnqueueAlert(s, e)); }
  }

  lemma AcknowledgementsOnward(rt: Runtime, id: AlertId, i: IncidentId)
    ensures Onward(rt.store, AckAlert(rt, id).store) && Onward(rt.store, AckIncident(rt, i).store)
  {
    hide Referable;
    if id in rt.alerts {
      var a := rt.alerts[id].(acknowledged := true);
      EnqueueAlertOnward(rt.store, AlertEvent(a, a.host));
    }
    var r := Acknowledge(rt.ledger, i);
    if r.incident.Some? {
      var e := IncidentEvent(r.ledger.incidents[i], None);
      PutAppends(rt.store.incidentOut, e);
      if !Referable(rt.store) { AppendKeepsBlocked(rt.store, EnqueueIncident(rt.store, e)); }
    }
  }

  lemma VerdictOnward(m: State, e: Event, now: Time, v: Anomaly.Verdict)
    ensures Onward(m.rt.store, ApplyVerdict(m, e, now, v).rt.store)
  {
    hide Referable, Raise, Settle;
    var key := OnAnomaly(e.host, v.metric);
    RaiseOnward(m.rt, AnomalyAlert(m, e, v), true);
    if Existing(m, key).Some? {
      var a := Existing(m, key).value.(resolved := true, resolvedAt := Some(now));
      SettleOnward(m.rt, a, Or(a.host, Or(e.host, m.home)), true);
    }
  }

  lemma {:induction false} VerdictsOnward(m: State, e: Event, now: Time, vs: seq<Anomaly.Verdict>)
    ensures Onward(m.rt.store, ApplyVerdicts(m, e, now, vs).rt.store)
    decreases |vs|
  {
    hide Referable, ApplyVerdict;
    if vs != [] {
      VerdictOnward(m, e, now, vs[0]);
      VerdictsOnward(ApplyVerdict(m, e, now, vs[0]), e, now, vs[1..]);
    }
  }

  lemma TransitionOnward(m: State, t: Transition)
    ensures Onward(m.rt.store, ApplyTransition(m, t).rt.store)
  {
    hide Referable, Raise, Settle;
    RaiseOnward(m.rt, t.alert, true);
    var key := RuleKeyOf(t.alert);
    if key.Some? && Existing(m, key.value).Some? {
      var a := Existing(m, key.value).value.(value := t.alert.value, resolved := true, resolvedAt := t.alert.resolvedAt);
      SettleOnward(m.rt, a, Or(a.host, m.home), true);
    }
  }

  lemma {:induction false} TransitionsOnward(m: State, ts: seq<Transition>)
    ensures Onward(m.rt.store, ApplyAll(m, ts).rt.store)
    decreases |ts|
  {
    hide Referable, ApplyTransition;
    if ts != [] {
      TransitionOnward(m, ts[0]);
      TransitionsOnward(ApplyTransition(m, ts[0]), ts[1..]);
    }
  }

  lemma EventOnward(m: State, e: Event, now: Time)
    requires m.detector.minHistory >= 1
    ensures Onward(m.rt.store, ProcessEvent(m, e, now).rt.store)
  {
    hide Referable, ApplyVerdicts, ApplyAll, EvaluateAll;
    var p := Detector.Observe(m.detector, e);
    VerdictsOnward(m.(detector := p.state), e, now, p.verdicts);
    var m1 := ApplyVerdicts(m.(detector := p.state), e, now, p.verdicts);
    var q := Evaluate(m1.book, e, m1.next);
    TransitionsOnward(m1.(book := EndPass(m1.book, q), next := q.next), q.out);
  }

  lemma CheckOnward(m: State, r: CheckRun)
    ensures Onward(m.rt.store, ProcessCheck(m, r).rt.store)
  {
    hide Referable, Raise, Settle;
    var key := OnCheck(r.check);
    RaiseOnward(m.rt, CheckAlert(m, r), false);
    if Existing(m, key).Some? {
      var a := Existing(m, key).value.(value := r.duration, resolved := true, resolvedAt := Some(r.checkedAt));
      SettleOnward(m.rt, a, a.host, false);
    }
  }

  /** What an input deletes. */
  function DeletedBy(i: Input): set<Reference> {
    if i.WorkerTurn? && i.turn.Deletion? then {i.turn.target} else {}
  }

  lemma StepOnward(m: State, i: Input)
    requires m.detector.minHistory >= 1
    ensures Step(m, i).rt.store.deleted == m.rt.store.deleted + DeletedBy(i)
    ensures !Referable(m.rt.store) ==> !Referable(Step(m, i).rt.store)
  {
    hide Referable, Raise, Settle, ProcessEvent, ProcessCheck, Reload, AckAlert, AckIncident;
    match i
    case Telemetry(e, now) => EventOnward(m, e, now);
    case Check(r) => CheckOnward(m, r);
    case Rows(rows) => ReloadLeavesTheStore(m, rows);
    case AckedAlert(id) => AcknowledgementsOnward(m.rt, id, 0);
    case AckedIncident(id) => AcknowledgementsOnward(m.rt, 0, id);
    case WorkerTurn(t) => if !Referable(m.rt.store) { UnreferableStays(m.rt.store, t); }
  }

  lemma ReloadLeavesTheStore(m: State, rows: seq<RuleRow>)
    ensures Reload(m, rows).rt == m.rt
  {
  }

  // ----- Runs -----

  function DeletedIn(inputs: seq<Input>): set<Reference> {
    if inputs == [] then {} else DeletedIn(inputs[..|inputs| - 1]) + DeletedBy(inputs[|inputs| - 1])
  }

  lemma {:induction false} RunOnward(m: State, inputs: seq<Input>)
    requires m.detector.minHistory >= 1
    ensures Run(m, inputs).rt.store.deleted == m.rt.store.deleted + DeletedIn(inputs)
    ensures !Referable(m.rt.store) ==> !Referable(Run(m, inputs).rt.store)
  {
    hide Referable, Step;
    if inputs != [] {
      var n := |inputs| - 1;
      RunOnward(m, inputs[..n]);
      StepOnward(Run(m, inputs[..n]), inputs[n]);
    }
  }

  /** Once a waiting event refers to something that was deleted, the queues are never empty again, whatever the manager,
      the workers and operators do. */
  lemma BlockedForEver(m: State, later: seq<Input>)
    requires m.detector.minHistory >= 1 && !Referable(m.rt.store)
    ensures !Drained(Run(m, later).rt.store)
  {
    hide Run;
    RunOnward(m, later);
  }

  lemma NothingDeletedNothingBlocked(s: Store)
    requires s.deleted == {}
    ensures Referable(s)
  {
  }

  /** While nothing is deleted, every run without a dropped alert can be drained. */
  lemma RunDrainsWithoutDeletions(d: Detector.State, home: Option<HostId>, ac: nat, ic: nat, inputs: seq<Input>,
                                  rounds: seq<seq<Turn>>)
    requires d.minHistory >= 1 && Run(Initial(d, home, ac, ic), inputs).rt.store.alertOut.dropped == 0
    requires |rounds| >= Backlog(Run(Initial(d, home, ac, ic), inputs).rt.store)
    requires forall k :: 0 <= k < |rounds| ==> FairRound(rounds[k])
    requires DeletedIn(inputs) == {}
    ensures Drained(Rounds(Run(Initial(d, home, ac, ic), inputs).rt.store, rounds))
  {
    hide Run, Rounds, Referable, Drained;
    var start := Initial(d, home, ac, ic);
    RunOnward(start, inputs);
    NothingDeletedNothingBlocked(Run(start, inputs).rt.store);
    RunDrains(d, home, ac, ic, inputs, rounds);
  }

  // ----- An acknowledgement of an alert whose rule was deleted -----

  /** Acknowledging an open alert of a deleted rule queues a write that is never accepted. */
  lemma AcknowledgementBlocks(m: State, id: AlertId)
    requires id in m.rt.alerts && !m.rt.alerts[id].acknowledged && (id in m.log || id in m.active.Values)
    requires !RuleThere(m.rt.store.deleted, m.rt.alerts[id].rule)
    requires var o := m.rt.store.alertOut; o.capacity == 0 || |o.queue| < o.capacity
    ensures !Referable(AcknowledgeAlert(m, id).rt.store)
  {
    var s, s' := m.rt.store, AcknowledgeAlert(m, id).rt.store;
    var a := m.rt.alerts[id].(acknowledged := true);
    PutAppends(s.alertOut, AlertEvent(a, a.host));
    var p' := Pending(s'.alertOut);
    assert p'[|p'| - 1] == AlertEvent(a, a.host);
    assert !AcceptableAt(s', p', |p'| - 1);
  }

  /** A rule deleted while an event of its alert waits has the same effect. */
  lemma DeletionBlocks(s: Store, k: nat)
    requires k < |Pending(s.alertOut)| && Pending(s.alertOut)[k].alert.rule.Some?
    ensures !Referable(Work(s, Deletion(ToRule(Pending(s.alertOut)[k].alert.rule.value))))
  {
    var s' := Work(s, Deletion(ToRule(Pending(s.alertOut)[k].alert.rule.value)));
    assert !AcceptableAt(s', Pending(s'.alertOut), k);
  }

  const FIRED: seq<Input> := [Rows(LostAlerts.ROWS), Telemetry(LostAlerts.SAMPLE, 0.0)]

  /** The rule is deleted while the event of its alert waits. */
  const DELETED_EARLY: seq<Input> := FIRED + [LostAlerts.RULE_DELETED]

  /** Both queues are written, the rule is deleted, and its open alert is acknowledged. */
  const ACKNOWLEDGED_LATE: seq<Input> :=
    FIRED + [WorkerTurn(AlertTurn(true)), WorkerTurn(IncidentTurn(true))] + [LostAlerts.RULE_DELETED, Rows([])] + [AckedAlert(0)]

  /** After the fire: the alert in memory and its event in the queue. */
  ghost predicate Fired(m: State) {
    && m.detector.minHistory >= 1 && 0 in m.rt.alerts && m.log == [0]
    && m.rt.alerts[0].rule == Some(1) && !m.rt.alerts[0].acknowledged && m.rt.alerts[0].id == 0
    && m.rt.store.alertOut == Outbox(2000, [AlertEvent(m.rt.alerts[0], Some(7))], None, 0, 0)
    && m.rt.store.incidentOut.retry.None? && |m.rt.store.incidentOut.queue| == 1
    && m.rt.store.incidentOut.queue[0].alert == Some(0)
    && m.rt.store.deleted == {}
  }

  lemma FirstAlert()
    ensures Fired(Run(LostAlerts.Start0(), FIRED))
  {
    hide Healthy, NotifiesOnce, Tracks, EngineAgrees, Complete, ProcessEvent, Run, HydrateActive, OpenRuleAlerts,
         Evaluation.RuleStep, Evaluation.Judged;
    var start, e, k := LostAlerts.Start0(), LostAlerts.SAMPLE, LostAlerts.PAIR;
    LostAlerts.OneRow();
    InitialCoherent(LostAlerts.DETECTOR, None, 2000, 2000);
    var m1 := Reload(start, LostAlerts.ROWS);
    ReloadedAt(start, LostAlerts.ROWS, k);
    ReloadLeavesTheStore(start, LostAlerts.ROWS);
    LostAlerts.OneRuleEvent(m1, e, 0.0, 0);
    Evaluation.RuleStepCases(LostAlerts.RULE, Evaluation.Judged(m1, e, 0.0), e);
    assert Hits(LostAlerts.RULE, e) && Due(LostAlerts.RULE, StateAt(m1.book.states, k).(since := Some(0.0)), e);
    TwoInputs(start, Rows(LostAlerts.ROWS), Telemetry(e, 0.0));
  }

  lemma OneInput(m: State, inputs: seq<Input>, i: Input)
    requires m.detector.minHistory >= 1
    ensures Run(m, inputs + [i]) == Step(Run(m, inputs), i)
  {
    hide Step;
    assert (inputs + [i])[..|inputs|] == inputs;
  }

  /** Nothing was dropped, and the queue is never empty again. */
  lemma DeletedWhileQueued(later: seq<Input>)
    ensures var m := Run(LostAlerts.Start0(), DELETED_EARLY);
      m.rt.store.alertOut.dropped == 0 && !Drained(Run(m, later).rt.store)
  {
    hide Run, Step, Referable;
    FirstAlert();
    var m := Run(LostAlerts.Start0(), FIRED);
    OneInput(LostAlerts.Start0(), FIRED, LostAlerts.RULE_DELETED);
    DeletesTheRule(m);
    DeletionBlocks(m.rt.store, 0);
    BlockedForEver(Run(LostAlerts.Start0(), DELETED_EARLY), later);
  }

  lemma DeletesTheRule(m: State)
    requires m.detector.minHistory >= 1
    ensures Step(m, LostAlerts.RULE_DELETED) == m.(rt := m.rt.(store := Work(m.rt.store, Deletion(ToRule(1)))))
  {
  }

  /** Both workers write what the fire queued. */
  lemma WritesBoth(m: State)
    requires Fired(m)
    ensures var m' := Step(Step(m, WorkerTurn(AlertTurn(true))), WorkerTurn(IncidentTurn(true)));
      m' == m.(rt := m.rt.(store := m'.rt.store)) && Drained(m'.rt.store) && m'.rt.store.deleted == {}
      && m'.rt.store.alertOut == Outbox(2000, [], None, 0, 1)
  {
    var s := m.rt.store;
    var s1 := Work(s, AlertTurn(true));
    assert s1.alertOut == Outbox(2000, [], None, 0, 1) && 0 in s1.alerts;
    var s2 := Work(s1, IncidentTurn(true));
    HeadOfLine(s1.incidentOut);
    assert Pending(s2.incidentOut) == [];
  }

  lemma DeletesAndReloads(m: State)
    requires m.detector.minHistory >= 1
    ensures var m' := Step(Step(m, LostAlerts.RULE_DELETED), Rows([]));
      m'.rt == m.rt.(store := m.rt.store.(deleted := m.rt.store.deleted + {ToRule(1)})) && m'.log == m.log
  {
  }

  /** Everything is written; the rule is deleted and the rules reloaded; the alert is acknowledged. Nothing was dropped,
      and the queue, empty until the acknowledgement, is never empty again. */
  lemma AcknowledgedAfterDeletion(later: seq<Input>)
    ensures var n := |ACKNOWLEDGED_LATE| - 1;
      var m := Run(LostAlerts.Start0(), ACKNOWLEDGED_LATE);
      && Drained(Run(LostAlerts.Start0(), ACKNOWLEDGED_LATE[..n]).rt.store)
      && m.rt.store.alertOut.dropped == 0 && !Drained(Run(m, later).rt.store)
  {
    hide Run, Step, Referable;
    var start := LostAlerts.Start0();
    FirstAlert();
    var m := Run(start, FIRED);
    var written := [WorkerTurn(AlertTurn(true)), WorkerTurn(IncidentTurn(true))];
    StepDetector(m, WorkerTurn(AlertTurn(true)));
    TwoInputs(m, WorkerTurn(AlertTurn(true)), WorkerTurn(IncidentTurn(true)));
    WritesBoth(m);
    RunConcat(start, FIRED, written);
    var m1 := Run(start, FIRED + written);
    StepDetector(m1, LostAlerts.RULE_DELETED);
    TwoInputs(m1, LostAlerts.RULE_DELETED, Rows([]));
    DeletesAndReloads(m1);
    RunConcat(start, FIRED + written, [LostAlerts.RULE_DELETED, Rows([])]);
    var before := FIRED + written + [LostAlerts.RULE_DELETED, Rows([])];
    var m2 := Run(start, before);
    OneInput(start, before, AckedAlert(0));
    assert ACKNOWLEDGED_LATE[..|ACKNOWLEDGED_LATE| - 1] == before;
    Acknowledges(m2, 0);
    AcknowledgementBlocks(m2, 0);
    BlockedForEver(Run(start, ACKNOWLEDGED_LATE), later);
  }

  lemma Acknowledges(m: State, id: AlertId)
    requires m.detector.minHistory >= 1
    requires var o := m.rt.store.alertOut; o.capacity == 0 || |o.queue| < o.capacity
    ensures Step(m, AckedAlert(id)) == AcknowledgeAlert(m, id)
    ensures AcknowledgeAlert(m, id).rt.store.alertOut.dropped == m.rt.store.alertOut.dropped
  {
  }
}
