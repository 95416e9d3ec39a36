/** Deleted rules do not come back: what the manager guarantees over every run without returning rules. */
module Lifetimes {
  import opened Common
  import opened Domain
  import opened Rules
  import Anomaly
  import Detector
  import opened Incidents
  import opened Persistence
  import opened Pipeline
  import opened Notices
  import opened Manager
  import opened Coherence
  import Evaluation
  import opened Reloads
  import opened Runs

  predicate Loads(i: Input, id: RuleId) {
    i.Rows? && HasRule(Known(i.rows), id)
  }

  predicate Lacks(i: Input, id: RuleId) {
    i.Rows? && !HasRule(Known(i.rows), id)
  }

  /** A rule that was loaded and is then missing from a reload is never loaded again. */
  ghost predicate NeverReturns(inputs: seq<Input>) {
    forall id, i, j, k :: 0 <= i < j < k < |inputs| && Loads(inputs[i], id) && Lacks(inputs[j], id) ==>
                            !Loads(inputs[k], id)
  }

  /** The rules of the last reload. */
  function LastLoaded(inputs: seq<Input>): seq<Rule> {
    if inputs == [] then []
    else if inputs[|inputs| - 1].Rows? then Known(inputs[|inputs| - 1].rows)
    else LastLoaded(inputs[..|inputs| - 1])
  }

  predicate EverLoaded(inputs: seq<Input>, id: RuleId) {
    exists i :: 0 <= i < |inputs| && Loads(inputs[i], id)
  }

  lemma {:induction false} LastIsEver(inputs: seq<Input>, id: RuleId)
    ensures HasRule(LastLoaded(inputs), id) ==> EverLoaded(inputs, id)
    ensures EverLoaded(inputs, id) && !HasRule(LastLoaded(inputs), id) ==>
      exists i, j :: 0 <= i < j < |inputs| && Loads(inputs[i], id) && Lacks(inputs[j], id)
  {
    hide HasRule, Known;
    if inputs != [] {
      var n := |inputs| - 1;
      var front := inputs[..n];
      LastIsEver(front, id);
      if inputs[n].Rows? {
        assert Loads(inputs[n], id) || Lacks(inputs[n], id);
      } else {
        if EverLoaded(front, id) { EverLoadedMore(front, inputs[n], id); }
        if HasRule(LastLoaded(inputs), id) { assert front + [inputs[n]] == inputs; }
        if i, j :| 0 <= i < j < |front| && Loads(front[i], id) && Lacks(front[j], id) {
          assert Loads(inputs[i], id) && Lacks(inputs[j], id);
        }
      }
    } else {
      NoRules(id);
    }
  }

  lemma NoRules(id: RuleId)
    ensures !HasRule([], id)
  {
  }

  lemma EverLoadedMore(inputs: seq<Input>, i: Input, id: RuleId)
    requires EverLoaded(inputs, id)
    ensures EverLoaded(inputs + [i], id)
  {
    hide Loads;
    var k :| 0 <= k < |inputs| && Loads(inputs[k], id);
    assert (inputs + [i])[k] == inputs[k];
  }

  // ----- Which rules can have alerts -----

  /** The step loaded no rules, and only loaded rules have gained a key. */
  ghost predicate KeysOfLoaded(m: State, m': State) {
    && m'.book.rules == m.book.rules
    && forall k :: KeyOf(k) in m'.active ==> KeyOf(k) in m.active || HasRule(m.book.rules, k.rule)
  }

  lemma VerdictKeys(m: State, e: Event, now: Time, v: Anomaly.Verdict)
    ensures KeysOfLoaded(m, ApplyVerdict(m, e, now, v))
  {
    hide Raise, Settle, HasRule;
  }

  lemma {:induction false} VerdictsKeys(m: State, e: Event, now: Time, vs: seq<Anomaly.Verdict>)
    ensures KeysOfLoaded(m, ApplyVerdicts(m, e, now, vs))
    decreases |vs|
  {
    hide ApplyVerdict, HasRule;
    if vs != [] {
      VerdictKeys(m, e, now, vs[0]);
      VerdictsKeys(ApplyVerdict(m, e, now, vs[0]), e, now, vs[1..]);
    }
  }

  lemma RuleStepKeys(r: Rule, m: State, e: Event)
    requires Steady(m) && HasRule(m.book.rules, r.id)
    ensures KeysOfLoaded(m, Evaluation.RuleStep(r, m, e))
  {
    hide Healthy, NotifiesOnce, Tracks, EngineAgrees, HasRule, Raise, Settle, Logged, Hits, Due, EvaluateRule,
         Evaluation.RuleStep;
    if r.enabled {
      var k := Key(r.id, e.host);
      Evaluation.RuleStepCases(r, m, e);
      if StateAt(m.book.states, k).active.Some? { Evaluation.OwnedIsHeld(m, k); }
    } else {
      Evaluation.DisabledStep(r, m, e);
    }
  }

  lemma {:induction false} RuleStepsKeys(rs: seq<Rule>, m: State, e: Event)
    requires Steady(m) && forall i :: 0 <= i < |rs| ==> HasRule(m.book.rules, rs[i].id)
    ensures KeysOfLoaded(m, Evaluation.RuleSteps(rs, m, e))
    decreases |rs|
  {
    hide Healthy, NotifiesOnce, Tracks, EngineAgrees, Complete, Evolves, HasRule, Evaluation.RuleStep, Evaluation.AllFound;
    if rs != [] {
      RuleStepKeys(rs[0], m, e);
      Evaluation.RuleStepCoherent(rs[0], m, e, false);
      RuleStepsKeys(rs[1..], Evaluation.RuleStep(rs[0], m, e), e);
    }
  }

  lemma EventKeys(m: State, e: Event, now: Time)
    requires Steady(m)
    ensures KeysOfLoaded(m, ProcessEvent(m, e, now))
  {
    hide Healthy, NotifiesOnce, Tracks, EngineAgrees, Complete, Evolves, ProcessEvent, Evaluation.RuleSteps,
         ApplyVerdicts, HasRule, Evaluation.StepsFound;
    var p := Detector.Observe(m.detector, e);
    var m1 := Evaluation.Judged(m, e, now);
    VerdictsKeys(m.(detector := p.state), e, now, p.verdicts);
    Evaluation.JudgedCoherent(m, e, now, false);
    Evaluation.LoadedRules(m1.book.rules);
    RuleStepsKeys(m1.book.rules, m1, e);
    Evaluation.ProcessEventIsRuleByRule(m, e, now);
  }

  /** The loaded rules are those of the last reload, and every rule with an active alert was loaded at some time. */
  ghost predicate Rostered(m: State, inputs: seq<Input>) {
    && m.book.rules == LastLoaded(inputs)
    && forall k :: KeyOf(k) in m.active ==> EverLoaded(inputs, k.rule)
  }

  lemma StepRostered(m: State, inputs: seq<Input>, i: Input)
    requires Steady(m) && Rostered(m, inputs)
    ensures Rostered(Step(m, i), inputs + [i])
  {
    hide Healthy, NotifiesOnce, Tracks, EngineAgrees, EverLoaded, HasRule, Known, ProcessEvent, HydrateActive,
         OpenRuleAlerts, Raise, Settle, Work, AckAlert;
    var m' := Step(m, i);
    assert (inputs + [i])[..|inputs|] == inputs;
    if i.Telemetry? { EventKeys(m, i.event, i.now); }
    forall k | KeyOf(k) in m'.active ensures EverLoaded(inputs + [i], k.rule) {
      if KeyOf(k) !in m.active {
        LastIsEver(inputs, k.rule);
      }
      EverLoadedMore(inputs, i, k.rule);
    }
  }

  lemma {:induction false} RunRostered(m: State, inputs: seq<Input>)
    requires Steady(m) && m.active == map[] && m.book.rules == []
    ensures Steady(Run(m, inputs)) && Rostered(Run(m, inputs), inputs)
  {
    hide Healthy, NotifiesOnce, Tracks, EngineAgrees, Complete, Evolves, Step, Rostered;
    if inputs == [] {
      NothingRostered(m);
    } else {
      var n := |inputs| - 1;
      RunRostered(m, inputs[..n]);
      StepRostered(Run(m, inputs[..n]), inputs[..n], inputs[n]);
      StepCoherent(Run(m, inputs[..n]), inputs[n], false);
      assert inputs[..n] + [inputs[n]] == inputs;
    }
  }

  lemma NothingRostered(m: State)
    requires m.active == map[] && m.book.rules == []
    ensures Rostered(m, [])
  {
  }

  // ----- Every reload is safe -----

  /** A reload that no rule returns with is safe. */
  lemma NextReloadIsSafe(m: State, inputs: seq<Input>, i: Input)
    requires Steady(m) && Complete(m) && Rostered(m, inputs) && NeverReturns(inputs + [i])
    ensures Safe(m, i)
  {
    hide Healthy, NotifiesOnce, Tracks, EngineAgrees, Complete, ReloadSafe, EverLoaded, HasRule, Known;
    if i.Rows? {
      forall k | KeyOf(k) in m.active && HasRule(Known(i.rows), k.rule) ensures HasRule(m.book.rules, k.rule) {
        LastIsEver(inputs, k.rule);
        if !HasRule(m.book.rules, k.rule) { ReturnsNow(inputs, i, k.rule); }
      }
      SafeUnlessRulesReturn(m, i.rows);
    }
  }

  lemma ReturnsNow(inputs: seq<Input>, i: Input, id: RuleId)
    requires exists a, b :: 0 <= a < b < |inputs| && Loads(inputs[a], id) && Lacks(inputs[b], id)
    requires NeverReturns(inputs + [i])
    ensures !Loads(i, id)
  {
    hide Loads, Lacks;
    var a, b :| 0 <= a < b < |inputs| && Loads(inputs[a], id) && Lacks(inputs[b], id);
    var all := inputs + [i];
    assert all[a] == inputs[a] && all[b] == inputs[b] && all[|inputs|] == i;
  }

  lemma PrefixNeverReturns(inputs: seq<Input>, n: nat)
    requires NeverReturns(inputs) && n <= |inputs|
    ensures NeverReturns(inputs[..n])
  {
    hide Loads, Lacks;
  }

  lemma {:induction false} RunsAreSafe(m: State, inputs: seq<Input>)
    requires Coherent(m, true) && m.active == map[] && m.book.rules == [] && NeverReturns(inputs)
    ensures SafeRun(m, inputs)
  {
    hide Healthy, NotifiesOnce, Tracks, EngineAgrees, Complete, Evolves, Run, SafeRun, Safe, Rostered, NeverReturns;
    if inputs == [] {
      EmptyRun(m);
    } else {
      var n := |inputs| - 1;
      var before := Run(m, inputs[..n]);
      PrefixNeverReturns(inputs, n);
      RunsAreSafe(m, inputs[..n]);
      RunCoherent(m, inputs[..n], true);
      RunRostered(m, inputs[..n]);
      assert inputs[..n] + [inputs[n]] == inputs;
      NextReloadIsSafe(before, inputs[..n], inputs[n]);
      RunStep(m, inputs);
    }
  }

  /** Identifiers are never issued twice, so every reload of every run is safe. */
  lemma NoRuleReturnsSoReloadsAreSafe(d: Detector.State, home: Option<HostId>, ac: nat, ic: nat, inputs: seq<Input>)
    requires d.minHistory >= 1 && NeverReturns(inputs)
    ensures SafeRun(Initial(d, home, ac, ic), inputs)
  {
    InitialCoherent(d, home, ac, ic);
    RunsAreSafe(Initial(d, home, ac, ic), inputs);
  }

  /** From an empty process, through every run, with rules created, changed, disabled and deleted: the active alerts
      are the disjoint union of the incidents' active alerts, and the engine knows exactly the alerts under the keys
      of the rules it has loaded. */
  lemma ThreeWayAgreement(d: Detector.State, home: Option<HostId>, ac: nat, ic: nat, inputs: seq<Input>)
    requires d.minHistory >= 1 && NeverReturns(inputs)
    ensures InAgreement(Run(Initial(d, home, ac, ic), inputs))
  {
    hide InAgreement, NeverReturns, SafeRun, Run, Initial;
    NoRuleReturnsSoReloadsAreSafe(d, home, ac, ic, inputs);
    SafeRunsAgree(d, home, ac, ic, inputs);
  }

  // ----- A reload with unchanged rules is unobservable -----

  /** The pairs of loaded rules are similar; of other rules, which never come back, the second may know less. */
  predicate PairAlike(b: Book, b': Book, k: Key) {
    var s, t := StateAt(b.states, k), StateAt(b'.states, k);
    if HasRule(b.rules, k.rule) then Similar(s, t) else t.active.Some? ==> s.active == t.active
  }

  /** Everything but the engine's pair states is the same. */
  ghost predicate Alike(m: State, m': State) {
    && m' == m.(book := m.book.(states := m'.book.states))
    && (forall k :: PairAlike(m.book, m'.book, k))
  }

  lemma ReloadIsAlike(m: State, rows: seq<RuleRow>)
    requires Steady(m) && Known(rows) == m.book.rules
    ensures Alike(m, Reload(m, rows)) && Steady(Reload(m, rows))
  {
    hide Healthy, NotifiesOnce, Tracks, EngineAgrees, Known, HasRule, HydrateActive, OpenRuleAlerts;
    ReloadCoherent(m, rows);
    forall k ensures PairAlike(m.book, Reload(m, rows).book, k) {
      ReloadedAt(m, rows, k);
      if KeyOf(k) in m.active && m.active[KeyOf(k)] in m.log { KnownPair(m, k); }
    }
  }

  lemma AlikeRule(r: Rule, rules: seq<Rule>, p: Pass, p': Pass, e: Event)
    requires p' == p.(states := p'.states) && HasRule(rules, r.id)
    requires forall k: Key :: HasRule(rules, k.rule) ==> Similar(StateAt(p.states, k), StateAt(p'.states, k))
    ensures var q, q' := EvaluateRule(r, p, e), EvaluateRule(r, p', e);
      && q' == q.(states := q'.states)
      && (forall k: Key :: HasRule(rules, k.rule) ==> Similar(StateAt(q.states, k), StateAt(q'.states, k)))
      && (forall k: Key :: !HasRule(rules, k.rule) ==>
            StateAt(q.states, k) == StateAt(p.states, k) && StateAt(q'.states, k) == StateAt(p'.states, k))
  {
    if r.enabled {
      var key := Key(r.id, e.host);
      SimilarAdvance(r, StateAt(p.states, key), StateAt(p'.states, key), e, p.next);
      hide Advance, Emit, Similar, HasRule;
      var q, q' := EvaluateRule(r, p, e), EvaluateRule(r, p', e);
      forall k: Key | HasRule(rules, k.rule) ensures Similar(StateAt(q.states, k), StateAt(q'.states, k)) {
        assert Similar(StateAt(p.states, k), StateAt(p'.states, k));
      }
    }
  }

  lemma {:induction false} AlikePass(rs: seq<Rule>, rules: seq<Rule>, p: Pass, p': Pass, e: Event)
    requires p' == p.(states := p'.states) && forall i :: 0 <= i < |rs| ==> HasRule(rules, rs[i].id)
    requires forall k: Key :: HasRule(rules, k.rule) ==> Similar(StateAt(p.states, k), StateAt(p'.states, k))
    ensures var q, q' := EvaluateAll(rs, p, e), EvaluateAll(rs, p', e);
      && q' == q.(states := q'.states)
      && (forall k: Key :: HasRule(rules, k.rule) ==> Similar(StateAt(q.states, k), StateAt(q'.states, k)))
      && (forall k: Key :: !HasRule(rules, k.rule) ==>
            StateAt(q.states, k) == StateAt(p.states, k) && StateAt(q'.states, k) == StateAt(p'.states, k))
    decreases |rs|
  {
    hide EvaluateRule, Similar, HasRule;
    if rs != [] {
      AlikeRule(rs[0], rules, p, p', e);
      AlikePass(rs[1..], rules, EvaluateRule(rs[0], p, e), EvaluateRule(rs[0], p', e), e);
    }
  }

  lemma EventAlike(m: State, m': State, e: Event, now: Time)
    requires Alike(m, m') && m.detector.minHistory >= 1
    ensures Alike(ProcessEvent(m, e, now), ProcessEvent(m', e, now))
  {
    hide ApplyVerdicts, ApplyAll, EvaluateAll, Similar, HasRule;
    var v := Detector.Observe(m.detector, e);
    var n, n' := m.(detector := v.state), m'.(detector := v.state);
    VerdictsFrame(n, e, now, v.verdicts, m'.book);
    var m1, m1' := ApplyVerdicts(n, e, now, v.verdicts), ApplyVerdicts(n', e, now, v.verdicts);
    assert n' == n.(book := m'.book);
    assert m1' == m1.(book := m'.book) && m1.book == m.book;
    var q, q' := Evaluate(m1.book, e, m1.next), Evaluate(m1'.book, e, m1'.next);
    forall k: Key | HasRule(m.book.rules, k.rule) ensures Similar(StateAt(m.book.states, k), StateAt(m'.book.states, k)) {
      assert PairAlike(m.book, m'.book, k);
    }
    Evaluation.LoadedRules(m.book.rules);
    AlikePass(m.book.rules, m.book.rules, StartPass(m1.book, m1.next), StartPass(m1'.book, m1'.next), e);
    Evaluation.ApplyFrame(m1, q.out, EndPass(m1.book, q), q.next);
    Evaluation.ApplyFrame(m1, q.out, EndPass(m1'.book, q'), q'.next);
    var m2, m2' := ProcessEvent(m, e, now), ProcessEvent(m', e, now);
    assert m1'.(book := EndPass(m1'.book, q'), next := q'.next) == m1.(book := EndPass(m1'.book, q'), next := q'.next);
    assert m2.book == EndPass(m1.book, q) && m2'.book == EndPass(m1'.book, q');
    forall k ensures PairAlike(m2.book, m2'.book, k) { assert PairAlike(m.book, m'.book, k); }
  }

  /** Both runs reload the same rows: whatever the second still knows, the first does too. */
  lemma ReloadAlike(m: State, m': State, rows: seq<RuleRow>)
    requires Alike(m, m') && Steady(m) && Steady(m') && ReloadSafe(m', rows)
    ensures Alike(Reload(m, rows), Reload(m', rows))
  {
    hide Healthy, NotifiesOnce, Tracks, Known, HasRule, HydrateActive, OpenRuleAlerts;
    var n, n' := Reload(m, rows), Reload(m', rows);
    forall k ensures PairAlike(n.book, n'.book, k) {
      ReloadedAt(m, rows, k);
      ReloadedAt(m', rows, k);
      assert PairAlike(m.book, m'.book, k);
      assert PairHeld(StateAt(m.book.states, k), k, m.active, m.rt.alerts);
      assert PairHeld(StateAt(m'.book.states, k), k, m.active, m.rt.alerts);
    }
  }

  lemma StepAlike(m: State, m': State, i: Input)
    requires Alike(m, m') && Steady(m) && Steady(m') && Safe(m', i)
    ensures Alike(Step(m, i), Step(m', i))
  {
    hide Healthy, NotifiesOnce, Tracks, EngineAgrees, ReloadSafe, ProcessEvent, Reload, Raise, Settle, PairAlike, Work,
         AckAlert;
    match i
    case Telemetry(e, now) => EventAlike(m, m', e, now);
    case Rows(rows) => ReloadAlike(m, m', rows);
    case _ =>
  }

  lemma {:induction false} RunAlike(m: State, m': State, later: seq<Input>)
    requires Alike(m, m') && Steady(m) && Steady(m') && SafeRun(m', later)
    ensures Alike(Run(m, later), Run(m', later)) && Steady(Run(m, later)) && Steady(Run(m', later))
  {
    hide Healthy, NotifiesOnce, Tracks, EngineAgrees, Step, Safe, Alike, Evolves, Complete;
    if later != [] {
      var n := |later| - 1;
      RunAlike(m, m', later[..n]);
      StepAlike(Run(m, later[..n]), Run(m', later[..n]), later[n]);
      StepCoherent(Run(m, later[..n]), later[n], false);
      StepCoherent(Run(m', later[..n]), later[n], false);
    }
  }

  /** Reloading unchanged rules anywhere in a run changes nothing that follows: alerts, incidents, notices, queues,
      active alerts, counters and rules are the same after every continuation. */
  lemma ReloadIsUnobservable(d: Detector.State, home: Option<HostId>, ac: nat, ic: nat,
                             inputs: seq<Input>, rows: seq<RuleRow>, later: seq<Input>)
    requires d.minHistory >= 1 && NeverReturns(inputs + [Rows(rows)] + later)
    requires Known(rows) == Run(Initial(d, home, ac, ic), inputs).book.rules
    ensures var a := Run(Initial(d, home, ac, ic), inputs + later);
      var b := Run(Initial(d, home, ac, ic), inputs + [Rows(rows)] + later);
      b == a.(book := a.book.(states := b.book.states))
  {
    hide Healthy, NotifiesOnce, Tracks, EngineAgrees, Complete, Evolves, Run, Initial, SafeRun, Reload, PairAlike,
         NeverReturns, Known;
    var start := Initial(d, home, ac, ic);
    InitialCoherent(d, home, ac, ic);
    var m := Run(start, inputs);
    RunCoherent(start, inputs, false);
    NoRuleReturnsSoReloadsAreSafe(d, home, ac, ic, inputs + [Rows(rows)] + later);
    RunConcat(start, inputs + [Rows(rows)], later);
    RunConcat(start, inputs, later);
    OneMoreReload(start, inputs, rows);
    ReloadIsAlike(m, rows);
    RunAlike(m, Reload(m, rows), later);
  }

  lemma OneMoreReload(m: State, inputs: seq<Input>, rows: seq<RuleRow>)
    requires m.detector.minHistory >= 1
    ensures Run(m, inputs + [Rows(rows)]) == Reload(Run(m, inputs), rows)
  {
    hide Reload;
    assert (inputs + [Rows(rows)])[..|inputs|] == inputs;
  }
}
