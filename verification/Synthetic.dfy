/** Synthetic checks: failure streaks, and the alerts they raise through the manager. */
module Synthetic {
  import opened Common
  import opened Domain
  import opened Rules
  import Anomaly
  import Detector
  import opened Incidents
  import opened Persistence
  import opened Pipeline
  import opened Notices
  import opened Manager
  import opened Coherence
  import Evaluation
  import Reloads
  import opened Live

  /** What one HTTP request of a check returned. */
  datatype Probe = Probe(check: CheckId, service: Option<ServiceId>, expected: nat, status: Option<nat>, duration: real, at: Time)

  predicate Succeeds(p: Probe) {
    p.status == Some(p.expected)
  }

  /** The columns of a stored run that are read back. */
  datatype RunRow = RunRow(check: CheckId, at: Time, failures: nat)

  /** The most recent row of a check; of equally recent ones, the last. */
  function Latest(rows: seq<RunRow>, c: CheckId): (r: Option<RunRow>)
    ensures r.Some? ==> r.value in rows && r.value.check == c
  {
    if rows == [] then None else
    var last, rest := rows[|rows| - 1], Latest(rows[..|rows| - 1], c);
    if last.check == c && (rest.None? || rest.value.at <= last.at) then Some(last) else rest
  }

  datatype Monitor = Monitor(failures: map<CheckId, nat>, rows: seq<RunRow>, manager: State)

  function Previous(s: Monitor, c: CheckId): nat {
    if c in s.failures then s.failures[c]
    else if Latest(s.rows, c).Some? then Latest(s.rows, c).value.failures
    else 0
  }

  function ResultOf(s: Monitor, p: Probe, threshold: int): CheckRun {
    CheckRun(p.check, p.service, Succeeds(p), p.status, p.duration, p.at,
             if Succeeds(p) then 0 else Previous(s, p.check) + 1, threshold, p.expected)
  }

  /** `run_once`. */
  function RunOnce(s: Monitor, p: Probe, threshold: int): Monitor {
    var r := ResultOf(s, p, threshold);
    Monitor(s.failures[p.check := r.failures], s.rows + [RunRow(p.check, p.at, r.failures)], ProcessCheck(s.manager, r))
  }

  class SyntheticMonitor {
    const manager: TelemetryManager
    const failureThreshold: int
    var consecutiveFailures: map<CheckId, nat>
    var rows: seq<RunRow>

    function Value(): Monitor
      reads this, manager, manager.detector, manager.engine, manager.ids, manager.incidents,
            manager.incidents.persistence, manager.alertOut, manager.db
    {
      Monitor(consecutiveFailures, rows, manager.Value())
    }

    constructor (manager: TelemetryManager, failureThreshold: int, rows: seq<RunRow>)
      ensures this.manager == manager && this.failureThreshold == failureThreshold
      ensures consecutiveFailures == map[] && this.rows == rows
    {
      this.manager := manager;
      this.failureThreshold := failureThreshold;
      this.rows := rows;
      consecutiveFailures := map[];
    }

    method Check(p: Probe)
      requires manager.Valid()
      modifies this, manager, manager.ids, manager.incidents, manager.incidents.persistence, manager.alertOut
      ensures manager.Valid() && Value() == RunOnce(old(Value()), p, failureThreshold)
    {
      hide ProcessCheck;
      var success := p.status.Some? && p.status.value == p.expected;
      var previous;
      if p.check in consecutiveFailures {
        previous := consecutiveFailures[p.check];
      } else {
        var row := LatestRow(p.check);
        previous := if row.Some? then row.value.failures else 0;
      }
      var failures := if success then 0 else previous + 1;
      rows := rows + [RunRow(p.check, p.at, failures)];
      consecutiveFailures := consecutiveFailures[p.check := failures];
      manager.ProcessSyntheticCheckResult(
        CheckRun(p.check, p.service, success, p.status, p.duration, p.at, failures, failureThreshold, p.expected));
    }

    method LatestRow(c: CheckId) returns (row: Option<RunRow>)
      ensures row == Latest(rows, c)
    {
      row := None;
      var i := 0;
      while i < |rows|
        invariant 0 <= i <= |rows| && row == Latest(rows[..i], c)
      {
        assert rows[..i + 1][..i] == rows[..i];
        if rows[i].check == c && (row.None? || row.value.at <= rows[i].at) { row := Some(rows[i]); }
        i := i + 1;
      }
      assert rows[..i] == rows;
    }
  }

  // ----- Reference: streaks in the history of a check -----

  datatype Happening = Probed(probe: Probe) | Other(input: Input)

  predicate IsOther(h: Happening) {
    h.Other? ==> !h.input.Check?
  }

  function Happen(s: Monitor, h: Happening, threshold: int): Monitor
    requires s.manager.detector.minHistory >= 1
  {
    match h
    case Probed(p) => RunOnce(s, p, threshold)
    case Other(i) => s.(manager := Step(s.manager, i))
  }

  /** Number of failures at the end of the history of `c`. */
  function Streak(hs: seq<Happening>, c: CheckId): nat {
    if hs == [] then 0 else
    var h, before := hs[|hs| - 1], Streak(hs[..|hs| - 1], c);
    if h.Other? || h.probe.check != c then before
    else if h.probe.status == Some(h.probe.expected) then 0
    else before + 1
  }

  /** Number of maximal failing runs of `c` that got as long as `threshold`: each passes it exactly once. */
  function LongRuns(hs: seq<Happening>, c: CheckId, threshold: nat): nat {
    if hs == [] then 0 else
    var h, before := hs[|hs| - 1], LongRuns(hs[..|hs| - 1], c, threshold);
    if h.Probed? && h.probe.check == c && Streak(hs, c) == threshold then before + 1 else before
  }

  // ----- Other inputs leave checks alone -----

  predicate IsCheckAlert(alerts: map<AlertId, Alert>, a: AlertId, c: CheckId) {
    a in alerts && alerts[a].source == FromCheck && alerts[a].subject == OfCheck(c)
  }

  function CheckAlerts(alerts: map<AlertId, Alert>, c: CheckId): set<AlertId> {
    set a | a in alerts && IsCheckAlert(alerts, a, c)
  }

  ghost predicate LeavesChecks(m: State, m': State) {
    && (forall c :: OnCheck(c) in m.active <==> OnCheck(c) in m'.active)
    && (forall a, c :: IsCheckAlert(m.rt.alerts, a, c) <==> IsCheckAlert(m'.rt.alerts, a, c))
  }

  lemma ActivateLeaves(m: State, key: ActiveKey, a: Alert, notify: bool, b: Book, next: AlertId)
    requires !key.OnCheck? && a.source != FromCheck && a.id !in m.rt.alerts
    ensures LeavesChecks(m, Activate(m, key, a, notify).(book := b, next := next))
  {
    hide OnCreated, Logged, Put;
  }

  lemma DeactivateLeaves(m: State, key: ActiveKey, a: Alert, host: Option<HostId>, notify: bool, b: Book)
    requires !key.OnCheck? && a.id in m.rt.alerts && a.source == m.rt.alerts[a.id].source
    requires a.subject == m.rt.alerts[a.id].subject
    ensures LeavesChecks(m, Deactivate(m, key, a, host, notify).(book := b))
  {
    hide OnResolved, Put;
  }

  lemma VerdictLeaves(m: State, e: Event, now: Time, v: Anomaly.Verdict)
    requires Steady(m)
    ensures LeavesChecks(m, ApplyVerdict(m, e, now, v))
  {
    hide Healthy, NotifiesOnce, Tracks, EngineAgrees, Activate, Deactivate;
    var key := OnAnomaly(e.host, v.metric);
    Evaluation.Fresh(m);
    if key in m.active { HeldAlert(m, key); }
    if v.anomalous {
      if key !in m.active { ActivateLeaves(m, key, AnomalyAlert(m, e, v), true, m.book, m.next + 1); }
    } else if key in m.active {
      var a := m.rt.alerts[m.active[key]].(resolved := true, resolvedAt := Some(now));
      DeactivateLeaves(m, key, a, Or(a.host, Or(e.host, m.home)), true, m.book);
    }
  }

  lemma {:induction false} VerdictsLeave(m: State, e: Event, now: Time, vs: seq<Anomaly.Verdict>)
    requires Steady(m)
    ensures LeavesChecks(m, ApplyVerdicts(m, e, now, vs))
    decreases |vs|
  {
    hide Healthy, NotifiesOnce, Tracks, EngineAgrees, Complete, Evolves, ApplyVerdict;
    if vs != [] {
      VerdictLeaves(m, e, now, vs[0]);
      VerdictCoherent(m, e, now, vs[0], false);
      VerdictsLeave(ApplyVerdict(m, e, now, vs[0]), e, now, vs[1..]);
    }
  }

  lemma RuleStepLeaves(r: Rule, m: State, e: Event)
    requires Steady(m)
    ensures LeavesChecks(m, Evaluation.RuleStep(r, m, e))
  {
    hide Healthy, NotifiesOnce, Tracks, EngineAgrees, Activate, Deactivate, Hits, Due, EvaluateRule,
         Evaluation.RuleStep;
    Evaluation.Fresh(m);
    if r.enabled {
      var k := Key(r.id, e.host);
      var out, m' := Emit(r, StateAt(m.book.states, k), e, m.next), Evaluation.RuleStep(r, m, e);
      Evaluation.RuleStepCases(r, m, e);
      if |out| == 1 && out[0].action == Created {
        ActivateLeaves(m, KeyOf(k), out[0].alert, true, m'.book, m'.next);
      } else if |out| == 1 {
        Evaluation.OwnedIsHeld(m, k);
        var a := m.rt.alerts[m.active[KeyOf(k)]].(value := out[0].alert.value, resolved := true, resolvedAt := out[0].alert.resolvedAt);
        DeactivateLeaves(m, KeyOf(k), a, Or(a.host, m.home), true, m'.book);
      }
    } else {
      Evaluation.DisabledStep(r, m, e);
    }
  }

  lemma {:induction false} RuleStepsLeave(rs: seq<Rule>, m: State, e: Event)
    requires Steady(m) && forall i :: 0 <= i < |rs| ==> HasRule(m.book.rules, rs[i].id)
    ensures LeavesChecks(m, Evaluation.RuleSteps(rs, m, e))
    decreases |rs|
  {
    hide Healthy, NotifiesOnce, Tracks, EngineAgrees, Complete, Evolves, Evaluation.RuleStep, HasRule,
         Evaluation.AllFound;
    if rs != [] {
      RuleStepLeaves(rs[0], m, e);
      Evaluation.RuleStepCoherent(rs[0], m, e, false);
      RuleStepsLeave(rs[1..], Evaluation.RuleStep(rs[0], m, e), e);
    }
  }

  lemma OtherLeaves(m: State, i: Input)
    requires Steady(m) && !i.Check?
    ensures LeavesChecks(m, Step(m, i))
  {
    hide Healthy, NotifiesOnce, Tracks, EngineAgrees, Complete, Evolves, ProcessEvent, Evaluation.RuleSteps, HasRule,
         Evaluation.Judged,
         Evaluation.StepsFound, Work;
    if i.Telemetry? {
      var m1 := Evaluation.Judged(m, i.event, i.now);
      JudgedLeaves(m, i.event, i.now);
      Evaluation.JudgedCoherent(m, i.event, i.now, false);
      Evaluation.LoadedRules(m1.book.rules);
      RuleStepsLeave(m1.book.rules, m1, i.event);
      Evaluation.ProcessEventIsRuleByRule(m, i.event, i.now);
    }
  }

  lemma JudgedLeaves(m: State, e: Event, now: Time)
    requires Steady(m)
    ensures LeavesChecks(m, Evaluation.Judged(m, e, now))
  {
    hide Healthy, NotifiesOnce, Tracks, EngineAgrees, ApplyVerdicts;
    var p := Detector.Observe(m.detector, e);
    VerdictsLeave(m.(detector := p.state), e, now, p.verdicts);
  }

  // ----- One probe -----

  lemma ProbeMoves(m: State, r: CheckRun, c: CheckId)
    requires Steady(m)
    ensures var m' := ProcessCheck(m, r);
      var raised := c == r.check && !r.success && r.failures >= r.threshold && OnCheck(c) !in m.active;
      && (OnCheck(c) in m'.active <==> if c == r.check && r.success then false else OnCheck(c) in m.active || raised)
      && CheckAlerts(m'.rt.alerts, c) == CheckAlerts(m.rt.alerts, c) + (if raised then {m.next} else {})
      && m.next !in CheckAlerts(m.rt.alerts, c)
  {
    hide Healthy, NotifiesOnce, Tracks, EngineAgrees, OnCreated, OnResolved, Logged, Put;
    Evaluation.Fresh(m);
    if OnCheck(r.check) in m.active { HeldAlert(m, OnCheck(r.check)); }
  }

  // ----- Runs -----

  function Run(s: Monitor, hs: seq<Happening>, threshold: int): (r: Monitor)
    requires Steady(s.manager) && forall i :: 0 <= i < |hs| ==> IsOther(hs[i])
    ensures Steady(r.manager)
  {
    if hs == [] then s
    else
      var before := Run(s, hs[..|hs| - 1], threshold);
      HappenSteady(before, hs[|hs| - 1], threshold);
      Happen(before, hs[|hs| - 1], threshold)
  }

  lemma HappenSteady(s: Monitor, h: Happening, threshold: int)
    requires Steady(s.manager)
    ensures Steady(Happen(s, h, threshold).manager)
  {
    hide Healthy, NotifiesOnce, Tracks, EngineAgrees, Complete, Evolves, ProcessEvent, Reload, ProcessCheck, Work, Step;
    match h
    case Probed(p) => CheckCoherent(s.manager, ResultOf(s, p, threshold), false);
    case Other(i) => Reloads.StepCoherent(s.manager, i, false);
  }

  /** Nothing is known about any check yet. */
  ghost predicate NoChecks(s: Monitor) {
    && s.failures == map[] && s.rows == []
    && (forall c :: OnCheck(c) !in s.manager.active && CheckAlerts(s.manager.rt.alerts, c) == {})
  }

  ghost predicate Told(s: Monitor, hs: seq<Happening>, c: CheckId, threshold: nat) {
    && Previous(s, c) == Streak(hs, c)
    && (OnCheck(c) in s.manager.active <==> Streak(hs, c) >= threshold)
    && |CheckAlerts(s.manager.rt.alerts, c)| == LongRuns(hs, c, threshold)
    && (c !in s.failures ==> Latest(s.rows, c).None?)
  }

  lemma LatestExtends(rows: seq<RunRow>, r: RunRow, c: CheckId)
    ensures Latest(rows + [r], c) == if r.check == c && (Latest(rows, c).None? || Latest(rows, c).value.at <= r.at) then Some(r) else Latest(rows, c)
  {
    assert (rows + [r])[..|rows|] == rows;
  }

  /** A check has an active alert iff its trailing failures reach the threshold, and has raised one alert for each
      maximal failing run that long, whatever telemetry, reloads and acknowledgements come in between. */
  lemma {:induction false} AlertIffStreak(s: Monitor, hs: seq<Happening>, c: CheckId, threshold: nat)
    requires Steady(s.manager) && NoChecks(s) && threshold >= 1 && forall i :: 0 <= i < |hs| ==> IsOther(hs[i])
    ensures Told(Run(s, hs, threshold), hs, c, threshold)
  {
    hide Steady, Happen, CheckAlerts, Told;
    if hs == [] {
      NothingTold(s, c, threshold);
    } else {
      var n := |hs| - 1;
      AlertIffStreak(s, hs[..n], c, threshold);
      assert IsOther(hs[n]) && hs[..n] + [hs[n]] == hs;
      HappenTells(Run(s, hs[..n], threshold), hs[..n], hs[n], c, threshold);
    }
  }

  lemma NothingTold(s: Monitor, c: CheckId, threshold: nat)
    requires NoChecks(s) && threshold >= 1
    ensures Told(s, [], c, threshold)
  {
  }

  lemma HappenTells(s: Monitor, hs: seq<Happening>, h: Happening, c: CheckId, threshold: nat)
    requires Steady(s.manager) && Told(s, hs, c, threshold) && threshold >= 1 && IsOther(h)
    ensures Told(Happen(s, h, threshold), hs + [h], c, threshold)
  {
    hide Healthy, NotifiesOnce, Tracks, EngineAgrees, Step, ProcessCheck, CheckAlerts;
    assert (hs + [h])[..|hs|] == hs;
    match h
    case Probed(p) =>
      ProbeMoves(s.manager, ResultOf(s, p, threshold), c);
      LatestExtends(s.rows, RunRow(p.check, p.at, ResultOf(s, p, threshold).failures), c);
    case Other(i) =>
      OtherLeaves(s.manager, i);
      SameCheckAlerts(s.manager.rt.alerts, Step(s.manager, i).rt.alerts, c);
  }

  lemma SameCheckAlerts(alerts: map<AlertId, Alert>, alerts': map<AlertId, Alert>, c: CheckId)
    requires forall a :: IsCheckAlert(alerts, a, c) <==> IsCheckAlert(alerts', a, c)
    ensures CheckAlerts(alerts, c) == CheckAlerts(alerts', c)
  {
    forall a ensures a in CheckAlerts(alerts, c) <==> a in CheckAlerts(alerts', c) {
      assert IsCheckAlert(alerts, a, c) <==> IsCheckAlert(alerts', a, c);
    }
  }

  /** Every stored row was stored by a probe at its time. */
  ghost predicate ProbedAt(rows: seq<RunRow>, hs: seq<Happening>) {
    forall row :: row in rows ==> exists i :: 0 <= i < |hs| && hs[i].Probed? && hs[i].probe.at == row.at
  }

  /** The stored rows give the count that memory gives. */
  predicate Continues(s: Monitor, c: CheckId) {
    Previous(s.(failures := map[]), c) == Previous(s, c)
  }

  lemma HappenContinues(s: Monitor, h: Happening, c: CheckId, threshold: int)
    requires Continues(s, c) && (h.Probed? ==> forall row :: row in s.rows ==> row.at <= h.probe.at)
    requires Steady(s.manager)
    ensures Continues(Happen(s, h, threshold), c)
    ensures Happen(s, h, threshold).rows == s.rows + (if h.Probed? then
      [RunRow(h.probe.check, h.probe.at, ResultOf(s, h.probe, threshold).failures)] else [])
  {
    hide Steady, Step, ProcessCheck;
    if h.Probed? {
      LatestExtends(s.rows, RunRow(h.probe.check, h.probe.at, ResultOf(s, h.probe, threshold).failures), c);
      LatestIsARow(s.rows, c);
    }
  }

  lemma {:induction false} LatestIsARow(rows: seq<RunRow>, c: CheckId)
    ensures Latest(rows, c).Some? ==> Latest(rows, c).value in rows
  {
    if rows != [] { LatestIsARow(rows[..|rows| - 1], c); }
  }

  lemma ProbedMore(rows: seq<RunRow>, hs: seq<Happening>, h: Happening, rows': seq<RunRow>)
    requires ProbedAt(rows, hs) && rows <= rows' && |rows'| <= |rows| + 1
    requires |rows'| > |rows| ==> h.Probed? && rows'[|rows|].at == h.probe.at
    ensures ProbedAt(rows', hs + [h])
  {
    var all := hs + [h];
    forall row | row in rows' ensures exists i :: 0 <= i < |all| && all[i].Probed? && all[i].probe.at == row.at {
      if row in rows {
        var i :| 0 <= i < |hs| && hs[i].Probed? && hs[i].probe.at == row.at;
        assert all[i] == hs[i];
      } else {
        assert all[|hs|] == h && row == rows'[|rows|];
      }
    }
  }

  /** While the clock does not go back, the stored rows continue the count: a restarted monitor reads the same streak. */
  lemma {:induction false} RowsContinueTheCount(s: Monitor, hs: seq<Happening>, c: CheckId, threshold: int)
    requires Steady(s.manager) && NoChecks(s) && forall i :: 0 <= i < |hs| ==> IsOther(hs[i])
    requires forall i, j :: 0 <= i < j < |hs| && hs[i].Probed? && hs[j].Probed? ==> hs[i].probe.at <= hs[j].probe.at
    ensures var r := Run(s, hs, threshold);
      Previous(r.(failures := map[]), c) == Previous(r, c) && ProbedAt(r.rows, hs)
  {
    hide Steady, Happen, CheckAlerts;
    if hs != [] {
      var n := |hs| - 1;
      RowsContinueTheCount(s, hs[..n], c, threshold);
      var before, h := Run(s, hs[..n], threshold), hs[n];
      forall row | row in before.rows && h.Probed? ensures row.at <= h.probe.at {
        var i :| 0 <= i < n && hs[..n][i].Probed? && hs[..n][i].probe.at == row.at;
        assert hs[i] == hs[..n][i];
      }
      HappenContinues(before, h, c, threshold);
      ProbedMore(before.rows, hs[..n], h, Run(s, hs, threshold).rows);
      assert hs[..n] + [h] == hs;
    }
  }
}
