/** What one event does to the alerts of rules: which are opened and resolved, and what they say. */
module RuleAlerts {
  import opened Common
  import opened Domain
  import opened Rules
  import Anomaly
  import Detector
  import opened Incidents
  import opened Persistence
  import opened Pipeline
  import opened Notices
  import opened Manager
  import opened Coherence
  import Evaluation
  import Thresholds
  import Episodes

  /** A new alert of the rule: the sample is on the side of the threshold that the rule names. */
  predicate OpenedBy(a: Alert, r: Rule, e: Event) {
    var x := e.Value(r.metric);
    && r.enabled && Thresholds.Violates(r, x)
    && a.source == FromRule && a.rule == Some(r.id) && a.host == e.host && a.service.None? && a.subject == OfMetric(r.metric)
    && a.timestamp == e.timestamp && a.value == x && a.baseline == r.threshold && a.severity == r.severity
    && !a.resolved && a.resolvedAt.None? && !a.acknowledged
  }

  /** An open alert of the rule is resolved by a sample that is not on that side. */
  predicate ResolvedBy(a: Alert, b: Alert, r: Rule, e: Event) {
    var x := e.Value(r.metric);
    && r.enabled && !Thresholds.Violates(r, x)
    && a.source == FromRule && a.rule == Some(r.id) && a.host == e.host && !a.resolved
    && b == a.(value := x, resolved := true, resolvedAt := Some(e.timestamp))
  }

  ghost predicate OpenedBySome(a: Alert, rs: seq<Rule>, e: Event) {
    exists r :: r in rs && OpenedBy(a, r, e)
  }

  ghost predicate ResolvedBySome(a: Alert, b: Alert, rs: seq<Rule>, e: Event) {
    exists r :: r in rs && ResolvedBy(a, b, r, e)
  }

  /** What the rules `rs` may do to alerts on an event: nothing else happens to any alert. */
  ghost predicate Moves(m: State, m': State, rs: seq<Rule>, e: Event) {
    && (forall a :: a in m.rt.alerts ==>
          a in m'.rt.alerts
          && (m'.rt.alerts[a] == m.rt.alerts[a] || ResolvedBySome(m.rt.alerts[a], m'.rt.alerts[a], rs, e)))
    && (forall a :: a in m'.rt.alerts && a !in m.rt.alerts ==> OpenedBySome(m'.rt.alerts[a], rs, e))
  }

  lemma StepMoves(r: Rule, m: State, e: Event)
    requires Steady(m)
    ensures Moves(m, Evaluation.RuleStep(r, m, e), [r], e)
  {
    hide Healthy, NotifiesOnce, Tracks, EngineAgrees, OnCreated, OnResolved, Logged, Put, Due, EvaluateRule,
         Evaluation.RuleStep;
    Evaluation.Fresh(m);
    if r.enabled {
      var k := Key(r.id, e.host);
      Evaluation.RuleStepCases(r, m, e);
      Thresholds.HitsMeansViolates(r, e);
      hide Hits, Thresholds.Violates;
      var s := StateAt(m.book.states, k);
      var out, m' := Emit(r, s, e, m.next), Evaluation.RuleStep(r, m, e);
      assert r in [r];
      if |out| == 1 && out[0].action == Created {
        assert OpenedBy(m'.rt.alerts[m.next], r, e);
      } else if |out| == 1 {
        Evaluation.OwnedIsHeld(m, k);
        var id := m.active[KeyOf(k)];
        assert ResolvedBy(m.rt.alerts[id], m'.rt.alerts[id], r, e);
      }
    } else {
      Evaluation.DisabledStep(r, m, e);
    }
  }

  lemma MovesCompose(m: State, m1: State, m2: State, r: Rule, rs: seq<Rule>, e: Event)
    requires Moves(m, m1, [r], e) && Moves(m1, m2, rs, e) && forall i :: 0 <= i < |rs| ==> rs[i].id != r.id
    ensures Moves(m, m2, [r] + rs, e)
  {
    hide Thresholds.Violates;
    var all := [r] + rs;
    forall a | a in m.rt.alerts
      ensures a in m2.rt.alerts
      ensures m2.rt.alerts[a] == m.rt.alerts[a] || ResolvedBySome(m.rt.alerts[a], m2.rt.alerts[a], all, e)
    {
      if m2.rt.alerts[a] != m1.rt.alerts[a] {
        var s :| s in rs && ResolvedBy(m1.rt.alerts[a], m2.rt.alerts[a], s, e);
        assert s in all;
      } else if m1.rt.alerts[a] != m.rt.alerts[a] {
        var s :| s in [r] && ResolvedBy(m.rt.alerts[a], m1.rt.alerts[a], s, e);
        assert s in all;
      }
    }
    forall a | a in m2.rt.alerts && a !in m.rt.alerts ensures OpenedBySome(m2.rt.alerts[a], all, e) {
      if a in m1.rt.alerts {
        var s :| s in [r] && OpenedBy(m1.rt.alerts[a], s, e);
        assert m2.rt.alerts[a] == m1.rt.alerts[a] && s in all;
      } else {
        var s :| s in rs && OpenedBy(m2.rt.alerts[a], s, e);
        assert s in all;
      }
    }
  }

  lemma {:induction false} StepsMove(rs: seq<Rule>, m: State, e: Event)
    requires Steady(m) && DistinctIds(rs) && forall i :: 0 <= i < |rs| ==> HasRule(m.book.rules, rs[i].id)
    ensures Moves(m, Evaluation.RuleSteps(rs, m, e), rs, e)
    decreases |rs|
  {
    hide Healthy, NotifiesOnce, Tracks, EngineAgrees, Complete, Evolves, Evaluation.RuleStep, HasRule,
         Evaluation.AllFound, Moves;
    if rs == [] {
      NothingMoves(m, e);
    } else {
      var m1 := Evaluation.RuleStep(rs[0], m, e);
      StepMoves(rs[0], m, e);
      Evaluation.RuleStepCoherent(rs[0], m, e, false);
      StepsMove(rs[1..], m1, e);
      MovesCompose(m, m1, Evaluation.RuleSteps(rs[1..], m1, e), rs[0], rs[1..], e);
      assert [rs[0]] + rs[1..] == rs;
    }
  }

  lemma NothingMoves(m: State, e: Event)
    ensures Moves(m, m, [], e)
  {
  }

  // ----- The anomaly verdicts of the event -----

  ghost predicate SameRuleAlerts(m: State, m': State) {
    && (forall a :: a in m.rt.alerts && m.rt.alerts[a].source == FromRule ==> a in m'.rt.alerts && m'.rt.alerts[a] == m.rt.alerts[a])
    && (forall a :: a in m'.rt.alerts && m'.rt.alerts[a].source == FromRule ==> a in m.rt.alerts && m.rt.alerts[a].source == FromRule)
  }

  lemma {:induction false} VerdictsLeaveRules(m: State, e: Event, now: Time, vs: seq<Anomaly.Verdict>)
    requires Steady(m)
    ensures SameRuleAlerts(m, ApplyVerdicts(m, e, now, vs)) && ApplyVerdicts(m, e, now, vs).book == m.book
    decreases |vs|
  {
    hide Healthy, NotifiesOnce, Tracks, EngineAgrees, Complete, Evolves, Raise, Settle, Episodes.Hears, ApplyVerdict, SameRuleAlerts;
    if vs == [] {
      NothingChanges(m);
    } else {
      var m1 := ApplyVerdict(m, e, now, vs[0]);
      VerdictLeavesRules(m, e, now, vs[0]);
      VerdictCoherent(m, e, now, vs[0], false);
      VerdictsLeaveRules(m1, e, now, vs[1..]);
      BothSame(m, m1, ApplyVerdicts(m1, e, now, vs[1..]));
    }
  }

  lemma NothingChanges(m: State)
    ensures SameRuleAlerts(m, m)
  {
  }

  lemma BothSame(a: State, b: State, c: State)
    requires SameRuleAlerts(a, b) && SameRuleAlerts(b, c)
    ensures SameRuleAlerts(a, c)
  {
  }

  lemma VerdictLeavesRules(m: State, e: Event, now: Time, v: Anomaly.Verdict)
    requires Steady(m)
    ensures SameRuleAlerts(m, ApplyVerdict(m, e, now, v)) && ApplyVerdict(m, e, now, v).book == m.book
  {
    hide Healthy, NotifiesOnce, Tracks, EngineAgrees, Raise, Settle;
    Episodes.VerdictHears(m, e, now, v);
    if OnAnomaly(e.host, v.metric) in m.active { HeldAlert(m, OnAnomaly(e.host, v.metric)); }
  }

  /** An event opens alerts of rules only with a sample on the side of the threshold that the rule names, and resolves them
      only with one that is not; a new alert says what sample and rule say, a resolved one has the value and time of the
      sample; every other alert of a rule stays as it is. */
  lemma EventMovesRuleAlerts(m: State, e: Event, now: Time)
    requires Steady(m) && DistinctIds(m.book.rules)
    ensures var m', rs := ProcessEvent(m, e, now), m.book.rules;
      && (forall a :: a in m.rt.alerts && m.rt.alerts[a].source == FromRule ==>
            a in m'.rt.alerts
            && (m'.rt.alerts[a] == m.rt.alerts[a] || ResolvedBySome(m.rt.alerts[a], m'.rt.alerts[a], rs, e)))
      && (forall a :: a in m'.rt.alerts && a !in m.rt.alerts && m'.rt.alerts[a].source == FromRule ==>
            OpenedBySome(m'.rt.alerts[a], rs, e))
  {
    hide Healthy, NotifiesOnce, Tracks, EngineAgrees, Complete, Evolves, ProcessEvent, ApplyVerdicts, Evaluation.RuleSteps,
         HasRule, Evaluation.StepsFound, OpenedBySome, ResolvedBySome;
    var p := Detector.Observe(m.detector, e);
    VerdictsLeaveRules(m.(detector := p.state), e, now, p.verdicts);
    var m1 := Evaluation.Judged(m, e, now);
    Evaluation.JudgedCoherent(m, e, now, false);
    Evaluation.LoadedRules(m1.book.rules);
    StepsMove(m1.book.rules, m1, e);
    Evaluation.ProcessEventIsRuleByRule(m, e, now);
    var m' := ProcessEvent(m, e, now);
    forall a | a in m1.rt.alerts ensures a in m'.rt.alerts && m'.rt.alerts[a].source == m1.rt.alerts[a].source {
      SourceKept(m1.rt.alerts[a], m'.rt.alerts[a], m1.book.rules, e);
    }
  }

  lemma SourceKept(a: Alert, b: Alert, rs: seq<Rule>, e: Event)
    ensures ResolvedBySome(a, b, rs, e) ==> a.source == b.source
  {
  }
}
