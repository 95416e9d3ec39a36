/** Every run of the manager, seen from alerts and incidents, is a sequence of a few operations. */
module Operations {
  import opened Common
  import opened Domain
  import opened Rules
  import Anomaly
  import Detector
  import opened Incidents
  import opened Persistence
  import opened Pipeline
  import opened Notices
  import opened Manager
  import opened Coherence
  import Evaluation
  import opened Reloads
  import opened Runs

  /** An alert is raised, resolved, acknowledged or given a new value, an incident acknowledged, or a worker has its turn. */
  datatype Op =
    | Raised(alert: Alert, notify: bool)
    | Settled(alert: Alert, host: Option<HostId>, notify: bool)
    | AlertAcked(id: AlertId)
    | IncidentAcked(incident: IncidentId)
    | Valued(id: AlertId, value: real)
    | Worked(turn: Turn)

  /** A raised alert is open and newer than all others; only open alerts are resolved or given a value. */
  ghost predicate Legal(rt: Runtime, op: Op) {
    match op
    case Raised(a, _) => Newer(rt, a.id) && !a.resolved && !a.acknowledged
    case Settled(a, _, _) => Resolves(rt.alerts, a)
    case Valued(id, _) => id in rt.alerts && !rt.alerts[id].resolved
    case _ => true
  }

  function Do(rt: Runtime, op: Op): Runtime {
    match op
    case Raised(a, notify) => Raise(rt, a, notify)
    case Settled(a, host, notify) => Settle(rt, a, host, notify)
    case AlertAcked(id) => AckAlert(rt, id)
    case IncidentAcked(i) => AckIncident(rt, i)
    case Valued(id, value) => if id in rt.alerts then SetValue(rt, id, value) else rt
    case Worked(t) => rt.(store := Work(rt.store, t))
  }

  function DoAll(rt: Runtime, ops: seq<Op>): Runtime {
    if ops == [] then rt else Do(DoAll(rt, ops[..|ops| - 1]), ops[|ops| - 1])
  }

  ghost predicate AllLegal(rt: Runtime, ops: seq<Op>) {
    ops == [] || (AllLegal(rt, ops[..|ops| - 1]) && Legal(DoAll(rt, ops[..|ops| - 1]), ops[|ops| - 1]))
  }

  /** `ops` leads from `rt` to `rt'`. */
  ghost predicate Leads(rt: Runtime, ops: seq<Op>, rt': Runtime) {
    AllLegal(rt, ops) && DoAll(rt, ops) == rt'
  }

  lemma {:induction false} LeadsOn(rt: Runtime, a: seq<Op>, b: seq<Op>, rt': Runtime, rt'': Runtime)
    requires Leads(rt, a, rt') && Leads(rt', b, rt'')
    ensures Leads(rt, a + b, rt'')
    decreases |b|
  {
    hide Do, Legal;
    if b == [] {
      assert a + b == a;
    } else {
      var n := |b| - 1;
      assert (a + b)[..|a + b| - 1] == a + b[..n];
      LeadsOn(rt, a, b[..n], rt', DoAll(rt', b[..n]));
    }
  }

  lemma OneOp(rt: Runtime, op: Op)
    requires Legal(rt, op)
    ensures Leads(rt, [op], Do(rt, op))
  {
    hide Do, Legal;
    assert [op][..0] == [] && DoAll(rt, []) == rt && AllLegal(rt, []);
  }

  lemma NoOp(rt: Runtime)
    ensures Leads(rt, [], rt)
  {
  }

  // ----- Steps of the manager -----

  lemma VerdictOps(m: State, e: Event, now: Time, v: Anomaly.Verdict) returns (ops: seq<Op>)
    requires Steady(m)
    ensures Leads(m.rt, ops, ApplyVerdict(m, e, now, v).rt)
  {
    hide Healthy, NotifiesOnce, Tracks, EngineAgrees, Raise, Settle, Newer, Leads;
    var key := OnAnomaly(e.host, v.metric);
    NoOp(m.rt);
    ops := [];
    if key in m.active { HeldAlert(m, key); }
    if v.anomalous {
      if key !in m.active {
        NextIsNewer(m);
        ops := [Raised(AnomalyAlert(m, e, v), true)];
        OneOp(m.rt, ops[0]);
      } else {
        ops := [Valued(m.active[key], v.value)];
        OneOp(m.rt, ops[0]);
      }
    } else if key in m.active {
      var a := m.rt.alerts[m.active[key]].(resolved := true, resolvedAt := Some(now));
      ops := [Settled(a, Or(a.host, Or(e.host, m.home)), true)];
      OneOp(m.rt, ops[0]);
    }
  }

  lemma {:induction false} VerdictsOps(m: State, e: Event, now: Time, vs: seq<Anomaly.Verdict>) returns (ops: seq<Op>)
    requires Steady(m)
    ensures Leads(m.rt, ops, ApplyVerdicts(m, e, now, vs).rt)
    decreases |vs|
  {
    hide Healthy, NotifiesOnce, Tracks, EngineAgrees, Complete, Evolves, ApplyVerdict, Leads;
    if vs == [] {
      NoOp(m.rt);
      ops := [];
    } else {
      var m1 := ApplyVerdict(m, e, now, vs[0]);
      var a := VerdictOps(m, e, now, vs[0]);
      VerdictCoherent(m, e, now, vs[0], false);
      var b := VerdictsOps(m1, e, now, vs[1..]);
      LeadsOn(m.rt, a, b, m1.rt, ApplyVerdicts(m1, e, now, vs[1..]).rt);
      ops := a + b;
    }
  }

  lemma RuleStepOps(r: Rule, m: State, e: Event) returns (ops: seq<Op>)
    requires Steady(m)
    ensures Leads(m.rt, ops, Evaluation.RuleStep(r, m, e).rt)
  {
    hide Healthy, NotifiesOnce, Tracks, EngineAgrees, Raise, Settle, Newer, Leads, Hits, Due, EvaluateRule, Evaluation.RuleStep;
    NoOp(m.rt);
    ops := [];
    if !r.enabled {
      Evaluation.DisabledStep(r, m, e);
    } else {
      var k := Key(r.id, e.host);
      var out := Emit(r, StateAt(m.book.states, k), e, m.next);
      Evaluation.RuleStepCases(r, m, e);
      if |out| == 1 && out[0].action == Created {
        NextIsNewer(m);
        ops := [Raised(out[0].alert, true)];
        OneOp(m.rt, ops[0]);
      } else if |out| == 1 {
        Evaluation.OwnedIsHeld(m, k);
        var a := m.rt.alerts[m.active[KeyOf(k)]].(value := out[0].alert.value, resolved := true, resolvedAt := out[0].alert.resolvedAt);
        ops := [Settled(a, Or(a.host, m.home), true)];
        OneOp(m.rt, ops[0]);
      }
    }
  }

  lemma {:induction false} RuleStepsOps(rs: seq<Rule>, m: State, e: Event) returns (ops: seq<Op>)
    requires Steady(m) && forall i :: 0 <= i < |rs| ==> HasRule(m.book.rules, rs[i].id)
    ensures Leads(m.rt, ops, Evaluation.RuleSteps(rs, m, e).rt)
    decreases |rs|
  {
    hide Healthy, NotifiesOnce, Tracks, EngineAgrees, Complete, Evolves, Evaluation.RuleStep, HasRule,
         Evaluation.AllFound, Leads;
    if rs == [] {
      NoOp(m.rt);
      ops := [];
    } else {
      var m1 := Evaluation.RuleStep(rs[0], m, e);
      var a := RuleStepOps(rs[0], m, e);
      Evaluation.RuleStepCoherent(rs[0], m, e, false);
      var b := RuleStepsOps(rs[1..], m1, e);
      LeadsOn(m.rt, a, b, m1.rt, Evaluation.RuleSteps(rs[1..], m1, e).rt);
      ops := a + b;
    }
  }

  lemma EventOps(m: State, e: Event, now: Time) returns (ops: seq<Op>)
    requires Steady(m)
    ensures Leads(m.rt, ops, ProcessEvent(m, e, now).rt)
  {
    hide Healthy, NotifiesOnce, Tracks, EngineAgrees, Complete, Evolves, ProcessEvent, Evaluation.RuleSteps, HasRule,
         ApplyVerdicts, Evaluation.StepsFound, Leads;
    var p := Detector.Observe(m.detector, e);
    var a := VerdictsOps(m.(detector := p.state), e, now, p.verdicts);
    var m1 := Evaluation.Judged(m, e, now);
    Evaluation.JudgedCoherent(m, e, now, false);
    Evaluation.LoadedRules(m1.book.rules);
    var b := RuleStepsOps(m1.book.rules, m1, e);
    Evaluation.ProcessEventIsRuleByRule(m, e, now);
    LeadsOn(m.rt, a, b, m1.rt, ProcessEvent(m, e, now).rt);
    ops := a + b;
  }

  lemma CheckOps(m: State, r: CheckRun) returns (ops: seq<Op>)
    requires Steady(m)
    ensures Leads(m.rt, ops, ProcessCheck(m, r).rt)
  {
    hide Healthy, NotifiesOnce, Tracks, EngineAgrees, Raise, Settle, Newer, Leads;
    var key := OnCheck(r.check);
    NoOp(m.rt);
    ops := [];
    if key in m.active { HeldAlert(m, key); }
    if r.success {
      if key in m.active {
        var a := m.rt.alerts[m.active[key]].(value := r.duration, resolved := true, resolvedAt := Some(r.checkedAt));
        ops := [Settled(a, a.host, false)];
        OneOp(m.rt, ops[0]);
      }
    } else if r.failures >= r.threshold {
      if key !in m.active {
        NextIsNewer(m);
        ops := [Raised(CheckAlert(m, r), false)];
      } else {
        ops := [Valued(m.active[key], StatusValue(r))];
      }
      OneOp(m.rt, ops[0]);
    }
  }

  lemma StepOps(m: State, i: Input) returns (ops: seq<Op>)
    requires Steady(m)
    ensures Leads(m.rt, ops, Step(m, i).rt)
  {
    hide Healthy, NotifiesOnce, Tracks, EngineAgrees, ProcessEvent, ProcessCheck, Reload, Leads, AckAlert, AckIncident, Work,
         Evolves;
    NoOp(m.rt);
    match i
    case Telemetry(e, now) => ops := EventOps(m, e, now);
    case Check(r) => ops := CheckOps(m, r);
    case Rows(rows) => ops := []; ReloadRuntime(m, rows);
    case AckedAlert(id) =>
      ops := if id in m.log || id in m.active.Values then [AlertAcked(id)] else [];
      OneOp(m.rt, AlertAcked(id));
    case AckedIncident(id) =>
      ops := [IncidentAcked(id)];
      OneOp(m.rt, IncidentAcked(id));
    case WorkerTurn(t) =>
      ops := [Worked(t)];
      OneOp(m.rt, Worked(t));
  }

  /** Every run of the manager is such a sequence. */
  lemma {:induction false} RunOps(d: Detector.State, home: Option<HostId>, ac: nat, ic: nat, inputs: seq<Input>) returns (ops: seq<Op>)
    requires d.minHistory >= 1
    ensures Leads(Start(ac, ic), ops, Run(Initial(d, home, ac, ic), inputs).rt)
  {
    hide Healthy, NotifiesOnce, Tracks, EngineAgrees, Complete, Evolves, Step, Leads;
    var start := Initial(d, home, ac, ic);
    if inputs == [] {
      NoOp(start.rt);
      ops := [];
    } else {
      var n := |inputs| - 1;
      var before := Run(start, inputs[..n]);
      var a := RunOps(d, home, ac, ic, inputs[..n]);
      InitialCoherent(d, home, ac, ic);
      RunCoherent(start, inputs[..n], false);
      var b := StepOps(before, inputs[n]);
      LeadsOn(start.rt, a, b, before.rt, Step(before, inputs[n]).rt);
      ops := a + b;
    }
  }
}
