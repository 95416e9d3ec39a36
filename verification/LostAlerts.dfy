/** What happens when a deleted rule comes back after its open alert has left the deque, as it does when a reload stalls
    between its query and loading the rows: the agreement is lost. */
module LostAlerts {
  import opened Common
  import opened Domain
  import opened Rules
  import Anomaly
  import Detector
  import opened Incidents
  import opened Persistence
  import opened Pipeline
  import opened Notices
  import opened Manager
  import opened Coherence
  import Evaluation
  import opened Reloads
  import opened Runs
  import Lifetimes

  /** If the engine forgot an open alert, the next fire takes over its key: the old alert stays open for ever,
      in its incident but under no key. */
  lemma ForgottenAlertIsLost(m: State, r: Rule, e: Event)
    requires Steady(m) && r.enabled && HasRule(m.book.rules, r.id) && KeyOf(Key(r.id, e.host)) in m.active
    requires var s := StateAt(m.book.states, Key(r.id, e.host));
      s.active.None? && Hits(r, e) && Due(r, if s.since.None? then s.(since := Some(e.timestamp)) else s, e)
    ensures var m' := Evaluation.RuleStep(r, m, e);
      Steady(m') && m.active[KeyOf(Key(r.id, e.host))] in ActiveInIncidents(m'.rt.ledger) - m'.active.Values
  {
    hide Healthy, NotifiesOnce, Tracks, EngineAgrees, Evolves, HasRule, Raise, Logged, ActiveInIncidents,
         Evaluation.RuleStep, Hits, Due;
    var key, m' := KeyOf(Key(r.id, e.host)), Evaluation.RuleStep(r, m, e);
    var first := m.active[key];
    HeldAlert(m, key);
    Evaluation.Fresh(m);
    Evaluation.RuleStepCoherent(r, m, e, false);
    Evaluation.RuleStepCases(r, m, e);
    var a := Emit(r, StateAt(m.book.states, Key(r.id, e.host)), e, m.next)[0].alert;
    var b := RaiseAlerts(m, key, a, true);
    OnlyItsKey(m, key);
    assert !HasKey(m'.active, first);
    OpenInItsIncident(m', first);
  }

  lemma OnlyItsKey(m: State, key: ActiveKey)
    requires Steady(m) && key in m.active
    ensures forall k :: k in m.active && m.active[k] == m.active[key] ==> k == key
  {
    hide Healthy, NotifiesOnce, EngineAgrees;
  }

  lemma OpenInItsIncident(m: State, a: AlertId)
    requires Steady(m) && a in m.rt.alerts && !m.rt.alerts[a].resolved
    ensures a in ActiveInIncidents(m.rt.ledger)
  {
    hide Sound, Agrees, Describes, Durable, NotifiesOnce, Tracks, EngineAgrees;
    IncidentsHoldOpenAlerts(m.rt, a);
  }

  // ----- The run -----

  /** The detector as the manager builds it: 30 samples are needed before anything is flagged. */
  const DETECTOR := Detector.State(3.0, 100, 30, map[])
  const RULE := Watch(1)
  const SAMPLE := Sample(Some(7))
  const ROWS := [RuleRow(RULE, true)]
  const PAIR := Key(1, Some(7))

  const LAST: seq<Input> := [Rows([]), Rows(ROWS), Telemetry(SAMPLE, 1.0)]

  const RULE_DELETED := WorkerTurn(Deletion(ToRule(1)))

  function FailedCheck(c: CheckId): Input {
    Check(CheckRun(c, None, false, None, 0.0, 0.0, 1, 1, 200))
  }

  function FailedChecks(n: nat): seq<Input> {
    seq(n, (i: nat) => FailedCheck(i))
  }

  /** The rule fires and is deleted; 500 checks fail; another reload; the rule returns, by a reload that read it before it
      was deleted, and matches again. */
  function LosingRun(): seq<Input> {
    [Rows(ROWS), Telemetry(SAMPLE, 0.0), RULE_DELETED, Rows([])] + FailedChecks(500) + LAST
  }

  function Start0(): State {
    Initial(DETECTOR, None, 2000, 2000)
  }

  /** No anomaly is active, and no deque holds more than `c` samples. */
  ghost predicate Calm(m: State, c: nat) {
    && m.detector.minHistory == 30 && m.detector.windowSize == 100
    && (forall k :: |Detector.HistoryAt(m.detector, k)| <= c)
    && forall k :: k in m.active ==> !k.OnAnomaly?
  }

  predicate NoneFlagged(vs: seq<Anomaly.Verdict>) {
    forall i :: 0 <= i < |vs| ==> !vs[i].anomalous
  }

  lemma {:induction false} NoVerdicts(m: State, e: Event, now: Time, vs: seq<Anomaly.Verdict>)
    requires NoneFlagged(vs) && forall k :: k in m.active ==> !k.OnAnomaly?
    ensures ApplyVerdicts(m, e, now, vs) == m
    decreases |vs|
  {
    if vs != [] {
      hide Raise, Settle;
      assert ApplyVerdict(m, e, now, vs[0]) == m;
      NoVerdicts(m, e, now, vs[1..]);
    }
  }

  lemma NothingFlagged(d: Detector.State, e: Event, c: nat)
    requires d.minHistory == 30 && d.windowSize == 100 && (forall k :: |Detector.HistoryAt(d, k)| <= c) && c < 29
    ensures NoneFlagged(Detector.Observe(d, e).verdicts)
    ensures forall k :: |Detector.HistoryAt(Detector.Observe(d, e).state, k)| <= c + 1
  {
    hide Detector.ObserveAll, Anomaly.Mean, Anomaly.Variance;
    var p := Detector.Observe(d, e);
    Detector.AllMetrics(Cpu);
    Detector.ObserveVerdict(Detector.METRICS, Detector.Pass(d, []), e, 0);
    forall i | 0 <= i < |p.verdicts| ensures !p.verdicts[i].anomalous {
      Detector.ObserveVerdict(Detector.METRICS, Detector.Pass(d, []), e, i);
      assert |Detector.HistoryAt(d, Detector.Series(e.host, Detector.METRICS[i]))| <= c;
    }
    forall k ensures |Detector.HistoryAt(p.state, k)| <= c + 1 {
      Detector.ObserveHistory(Detector.METRICS, Detector.Pass(d, []), e, k);
      assert |Detector.HistoryAt(d, k)| <= c;
    }
  }

  lemma CalmlyJudged(m: State, e: Event, now: Time, c: nat)
    requires Calm(m, c) && c < 29
    ensures var m1 := Evaluation.Judged(m, e, now); m1 == m.(detector := m1.detector) && Calm(m1, c + 1)
  {
    hide ApplyVerdicts, Detector.ObserveAll;
    NothingFlagged(m.detector, e, c);
    var p := Detector.Observe(m.detector, e);
    NoVerdicts(m.(detector := p.state), e, now, p.verdicts);
  }

  /** One event when the rule is the only one. */
  lemma OneRuleEvent(m: State, e: Event, now: Time, c: nat)
    requires Calm(m, c) && c < 29 && m.book.rules == [RULE]
    ensures var m1 := Evaluation.Judged(m, e, now);
      m1 == m.(detector := m1.detector) && Calm(m1, c + 1) && ProcessEvent(m, e, now) == Evaluation.RuleStep(RULE, m1, e)
  {
    hide Evaluation.RuleStep, ProcessEvent, Evaluation.Judged;
    CalmlyJudged(m, e, now, c);
    Evaluation.ProcessEventIsRuleByRule(m, e, now);
    var m1 := Evaluation.Judged(m, e, now);
    assert [RULE][1..] == [] && Evaluation.RuleSteps([], Evaluation.RuleStep(RULE, m1, e), e) == Evaluation.RuleStep(RULE, m1, e);
  }

  /** After the alert and `n` failed checks. */
  ghost predicate Stage(m: State, n: nat) {
    && Calm(m, 1) && m.book.rules == [] && m.next == n + 1
    && KeyOf(PAIR) in m.active && m.active[KeyOf(PAIR)] == 0 && StateAt(m.book.states, PAIR).active == Some(0)
    && (forall k :: k in m.active && k.OnCheck? ==> k.check < n)
    && |m.log| == (if n < LOG_SIZE then n + 1 else LOG_SIZE)
    && (forall i :: 0 <= i < |m.log| ==> m.log[i] == n + 1 - |m.log| + i)
  }

  lemma OneRow()
    ensures Known(ROWS) == [RULE] && Known([]) == []
  {
    assert ROWS[1..] == [] && Known(ROWS[1..]) == [];
  }

  /** The rule fires on its first sample. */
  lemma FirstFire(m: State)
    requires Steady(m) && Calm(m, 0) && m.book.rules == [RULE] && PAIR !in m.book.states
    requires m.active == map[] && m.log == [] && m.next == 0
    ensures var m' := ProcessEvent(m, SAMPLE, 0.0);
      Calm(m', 1) && m'.active == map[KeyOf(PAIR) := 0] && m'.log == [0] && m'.next == 1
  {
    hide Healthy, NotifiesOnce, Tracks, EngineAgrees, Raise, Evaluation.RuleStep, ProcessEvent, Evaluation.Judged;
    OneRuleEvent(m, SAMPLE, 0.0, 0);
    Evaluation.RuleStepCases(RULE, Evaluation.Judged(m, SAMPLE, 0.0), SAMPLE);
  }

  lemma FirstStage()
    ensures Stage(Run(Start0(), LosingRun()[..4]), 0)
  {
    hide Healthy, NotifiesOnce, Tracks, EngineAgrees, Complete, ProcessEvent, Run, HydrateActive, OpenRuleAlerts;
    var start := Start0();
    OneRow();
    InitialCoherent(DETECTOR, None, 2000, 2000);
    var m1 := Reload(start, ROWS);
    ReloadedAt(start, ROWS, PAIR);
    ReloadCoherent(start, ROWS);
    FirstFire(m1);
    var m2 := ProcessEvent(m1, SAMPLE, 0.0);
    Evaluation.EventCoherent(m1, SAMPLE, 0.0, false);
    StepCoherent(m2, RULE_DELETED, false);
    var m3 := Step(m2, RULE_DELETED);
    assert m3 == m2.(rt := m3.rt);
    ReloadedAt(m3, [], PAIR);
    ThreeInputs(start, Rows(ROWS), Telemetry(SAMPLE, 0.0), RULE_DELETED);
    var three := [Rows(ROWS), Telemetry(SAMPLE, 0.0), RULE_DELETED];
    assert LosingRun()[..4] == three + [Rows([])] && (three + [Rows([])])[..3] == three;
    RunConcat(start, three, [Rows([])]);
    RunStep(m3, [Rows([])]);
    EmptyRun(m3);
  }

  lemma ThreeInputs(m: State, i: Input, j: Input, k: Input)
    requires m.detector.minHistory >= 1 && Step(m, i).detector.minHistory >= 1
    requires Step(Step(m, i), j).detector.minHistory >= 1
    ensures Run(m, [i, j, k]) == Step(Step(Step(m, i), j), k)
  {
    hide Step;
    var all := [i, j, k];
    assert all[..2] == [i, j] && all[..2][..1] == [i] && all[..2][..1][..0] == [];
    assert Run(m, []) == m;
    assert Run(m, [i]) == Step(m, i);
    assert Run(m, [i, j]) == Step(Step(m, i), j);
  }

  lemma NextStage(m: State, n: nat)
    requires Stage(m, n)
    ensures Stage(Step(m, FailedCheck(n)), n + 1)
  {
    hide Raise;
  }

  lemma {:induction false} Stages(m: State, n: nat)
    requires Stage(m, 0)
    ensures Stage(Run(m, FailedChecks(n)), n)
  {
    if n > 0 {
      Stages(m, n - 1);
      assert FailedChecks(n)[..n - 1] == FailedChecks(n - 1);
      NextStage(Run(m, FailedChecks(n - 1)), n - 1);
    }
  }

  /** With the rule back, the alert of the first fire ends up open in its incident, but no longer among
      the manager's active alerts. */
  lemma AgreementCanBeLost()
    ensures var m := Run(Start0(), LosingRun());
      Steady(m) && 0 in ActiveInIncidents(m.rt.ledger) - m.active.Values
    ensures !SafeRun(Start0(), LosingRun()) && !Lifetimes.NeverReturns(LosingRun())
  {
    hide Run, Healthy, NotifiesOnce, Tracks, EngineAgrees, Evolves, ActiveInIncidents, Step, Evaluation.Judged,
         Evaluation.RuleStep, SafeRun, ProcessEvent, Lifetimes.NeverReturns;
    var start, all := Start0(), LosingRun();
    FirstStage();
    var m4 := Run(start, all[..4]);
    Stages(m4, 500);
    assert all[..504] == all[..4] + FailedChecks(500);
    RunConcat(start, all[..4], FailedChecks(500));
    var m := Run(start, all[..504]);
    InitialCoherent(DETECTOR, None, 2000, 2000);
    RunCoherent(start, all[..504], false);
    LastThree(m);
    assert all == all[..504] + LAST;
    RunConcat(start, all[..504], LAST);
    if SafeRun(start, all) { SafeRunsAgree(DETECTOR, None, 2000, 2000, all); }
    if Lifetimes.NeverReturns(all) { Lifetimes.NoRuleReturnsSoReloadsAreSafe(DETECTOR, None, 2000, 2000, all); }
  }

  /** In the same run, a reload of unchanged rules right after the deque moved on can be told apart later, when the stalled
      reload brings the rule back. */
  lemma ReloadCanBeObserved()
    ensures var m := Run(Start0(), LosingRun()[..504]);
      Known([]) == m.book.rules && !Remembers(m) && !Unobservable(m, Reload(m, []))
  {
    hide Run, Healthy, NotifiesOnce, Tracks, EngineAgrees, Evolves, Step, Reload, HydrateActive, OpenRuleAlerts;
    var start, all := Start0(), LosingRun();
    FirstStage();
    OneRow();
    Stages(Run(start, all[..4]), 500);
    assert all[..504] == all[..4] + FailedChecks(500);
    RunConcat(start, all[..4], FailedChecks(500));
    var m := Run(start, all[..504]);
    assert m.active[KeyOf(PAIR)] !in m.log;
    assert !Remembers(m);
    ReloadIsUnobservableIff(DETECTOR, None, 2000, 2000, all[..504], []);
  }

  lemma LastThree(m: State)
    requires Steady(m) && Stage(m, 500)
    ensures Steady(Run(m, LAST)) && 0 in ActiveInIncidents(Run(m, LAST).rt.ledger) - Run(m, LAST).active.Values
  {
    hide Healthy, NotifiesOnce, Tracks, EngineAgrees, ActiveInIncidents, Evaluation.Judged, Evaluation.RuleStep,
         ProcessEvent, Complete,
      Run, HydrateActive, OpenRuleAlerts;
    OneRow();
    var m1 := Reload(m, []);
    assert 0 !in m.log;
    ReloadedAt(m, [], PAIR);
    ReloadCoherent(m, []);
    var m2 := Reload(m1, ROWS);
    ReloadedAt(m1, ROWS, PAIR);
    ReloadCoherent(m1, ROWS);
    LastEvent(m2);
    ThreeInputs(m, Rows([]), Rows(ROWS), Telemetry(SAMPLE, 1.0));
  }

  lemma LastEvent(m: State)
    requires Steady(m) && Calm(m, 1) && m.book.rules == [RULE] && PAIR !in m.book.states
    requires KeyOf(PAIR) in m.active && m.active[KeyOf(PAIR)] == 0
    ensures var m' := ProcessEvent(m, SAMPLE, 1.0); Steady(m') && 0 in ActiveInIncidents(m'.rt.ledger) - m'.active.Values
  {
    hide Healthy, NotifiesOnce, Tracks, EngineAgrees, Evolves, ActiveInIncidents, Evaluation.Judged,
         Evaluation.RuleStep, ProcessEvent;
    OneRuleEvent(m, SAMPLE, 1.0, 1);
    Evaluation.JudgedCoherent(m, SAMPLE, 1.0, false);
    var j := Evaluation.Judged(m, SAMPLE, 1.0);
    assert RULE in j.book.rules;
    ForgottenAlertIsLost(j, RULE, SAMPLE);
  }
}
