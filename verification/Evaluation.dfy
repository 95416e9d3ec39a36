/** One event through the rule engine and the manager: applying the transitions afterwards is the same as
    applying each as its rule is evaluated, and keeps the manager coherent. */
module Evaluation {
  import opened Common
  import opened Domain
  import opened Rules
  import Detector
  import RuleEngine
  import opened Incidents
  import opened Persistence
  import opened Pipeline
  import opened Notices
  import opened Manager
  import opened Coherence

  function WithPass(m: State, p: Pass): State {
    m.(book := EndPass(m.book, p), next := p.next)
  }

  /** One rule evaluated, and its transition applied at once. */
  function RuleStep(r: Rule, m: State, e: Event): State {
    var p := EvaluateRule(r, StartPass(m.book, m.next), e);
    ApplyAll(WithPass(m, p), p.out)
  }

  function RuleSteps(rs: seq<Rule>, m: State, e: Event): State {
    if rs == [] then m else RuleSteps(rs[1..], RuleStep(rs[0], m, e), e)
  }

  // ----- Applying transitions neither reads nor writes the engine -----

  lemma {:induction false} ApplyFrame(m: State, ts: seq<Transition>, b: Book, next: AlertId)
    ensures ApplyAll(m.(book := b, next := next), ts) == ApplyAll(m, ts).(book := b, next := next)
    ensures ApplyAll(m, ts).book == m.book && ApplyAll(m, ts).next == m.next
    decreases |ts|
  {
    if ts != [] {
      hide Raise, Settle;
      assert ApplyTransition(m.(book := b, next := next), ts[0]) == ApplyTransition(m, ts[0]).(book := b, next := next);
      ApplyFrame(ApplyTransition(m, ts[0]), ts[1..], b, next);
    }
  }

  lemma {:induction false} ApplyConcat(m: State, a: seq<Transition>, b: seq<Transition>)
    ensures ApplyAll(m, a + b) == ApplyAll(ApplyAll(m, a), b)
    decreases |a|
  {
    hide ApplyTransition;
    if a == [] {
      assert a + b == b;
    } else {
      assert (a + b)[1..] == a[1..] + b;
      ApplyConcat(ApplyTransition(m, a[0]), a[1..], b);
    }
  }

  /** Every clearing in the list finds its alert under its key when its turn comes. */
  predicate AllFound(m: State, ts: seq<Transition>)
    decreases |ts|
  {
    ts == [] ||
    (&& (ts[0].action == Cleared ==>
          var key := RuleKeyOf(ts[0].alert);
          key.Some? && Existing(m, key.value).Some? && Existing(m, key.value).value.id == ts[0].alert.id)
     && AllFound(ApplyTransition(m, ts[0]), ts[1..]))
  }

  lemma {:induction false} FoundConcat(m: State, a: seq<Transition>, b: seq<Transition>)
    ensures AllFound(m, a + b) <==> AllFound(m, a) && AllFound(ApplyAll(m, a), b)
    decreases |a|
  {
    hide ApplyTransition;
    if a == [] {
      assert a + b == b;
    } else {
      assert (a + b)[1..] == a[1..] + b;
      FoundConcat(ApplyTransition(m, a[0]), a[1..], b);
    }
  }

  lemma {:induction false} FoundFrame(m: State, ts: seq<Transition>, b: Book, next: AlertId)
    ensures AllFound(m.(book := b, next := next), ts) <==> AllFound(m, ts)
    decreases |ts|
  {
    if ts != [] {
      hide Raise, Settle;
      assert ApplyTransition(m.(book := b, next := next), ts[0]) == ApplyTransition(m, ts[0]).(book := b, next := next);
      FoundFrame(ApplyTransition(m, ts[0]), ts[1..], b, next);
    }
  }

  lemma OneRule(r: Rule, m: State, p: Pass, e: Event)
    ensures var q, m1 := EvaluateRule(r, p, e), ApplyAll(WithPass(m, p), p.out);
      ApplyAll(WithPass(m, q), q.out) == RuleStep(r, m1, e)
  {
    hide EvaluateRule, ApplyAll;
    var q, m1 := EvaluateRule(r, p, e), ApplyAll(WithPass(m, p), p.out);
    RuleEngine.OutIsCarried(r, p, e);
    var q' := EvaluateRule(r, p.(out := []), e);
    ApplyFrame(WithPass(m, p), p.out, EndPass(m.book, q), q.next);
    assert StartPass(m1.book, m1.next) == p.(out := []);
    ApplyConcat(WithPass(m, q), p.out, q'.out);
    assert WithPass(m, q) == WithPass(m, p).(book := EndPass(m.book, q), next := q.next);
    assert ApplyAll(WithPass(m, q), p.out) == m1.(book := EndPass(m.book, q), next := q.next);
    assert WithPass(m1, q') == m1.(book := EndPass(m.book, q), next := q.next);
  }

  /** `evaluate` first and its transitions afterwards, or rule by rule: the result is the same. */
  lemma {:induction false} EvaluationIsRuleByRule(rs: seq<Rule>, m: State, p: Pass, e: Event)
    ensures var q := EvaluateAll(rs, p, e);
      ApplyAll(WithPass(m, q), q.out) == RuleSteps(rs, ApplyAll(WithPass(m, p), p.out), e)
    decreases |rs|
  {
    hide EvaluateRule, ApplyAll, RuleStep;
    if rs != [] {
      var p1 := EvaluateRule(rs[0], p, e);
      OneRule(rs[0], m, p, e);
      EvaluationIsRuleByRule(rs[1..], m, p1, e);
    }
  }

  /** Every clearing found, rule by rule. */
  predicate StepsFound(rs: seq<Rule>, m: State, e: Event) {
    rs == [] ||
    (&& (var p := EvaluateRule(rs[0], StartPass(m.book, m.next), e); AllFound(WithPass(m, p), p.out))
     && StepsFound(rs[1..], RuleStep(rs[0], m, e), e))
  }

  lemma OneRuleFound(r: Rule, m: State, p: Pass, e: Event)
    ensures var q, m1 := EvaluateRule(r, p, e), ApplyAll(WithPass(m, p), p.out);
      var q' := EvaluateRule(r, StartPass(m1.book, m1.next), e);
      AllFound(WithPass(m, q), q.out) <==> AllFound(WithPass(m, p), p.out) && AllFound(WithPass(m1, q'), q'.out)
  {
    hide EvaluateRule, ApplyAll, AllFound;
    var q, m1 := EvaluateRule(r, p, e), ApplyAll(WithPass(m, p), p.out);
    RuleEngine.OutIsCarried(r, p, e);
    var q' := EvaluateRule(r, p.(out := []), e);
    ApplyFrame(WithPass(m, p), p.out, EndPass(m.book, q), q.next);
    FoundFrame(WithPass(m, p), p.out, EndPass(m.book, q), q.next);
    assert StartPass(m1.book, m1.next) == p.(out := []);
    FoundConcat(WithPass(m, q), p.out, q'.out);
    assert WithPass(m, q) == WithPass(m, p).(book := EndPass(m.book, q), next := q.next);
    assert WithPass(m1, q') == m1.(book := EndPass(m.book, q), next := q.next);
  }

  lemma {:induction false} FoundIsRuleByRule(rs: seq<Rule>, m: State, p: Pass, e: Event)
    requires AllFound(WithPass(m, p), p.out) && StepsFound(rs, ApplyAll(WithPass(m, p), p.out), e)
    ensures var q := EvaluateAll(rs, p, e); AllFound(WithPass(m, q), q.out)
    decreases |rs|
  {
    hide EvaluateRule, ApplyAll, RuleStep, AllFound;
    if rs != [] {
      var p1 := EvaluateRule(rs[0], p, e);
      OneRule(rs[0], m, p, e);
      OneRuleFound(rs[0], m, p, e);
      FoundIsRuleByRule(rs[1..], m, p1, e);
    }
  }

  // ----- One rule, one event -----

  /** The state of one pair changed, nothing else the engine says. */
  predicate Moved(b: Book, b': Book, k: Key, s: RuleState) {
    b'.rules == b.rules && b'.states == b.states[k := s]
  }

  lemma MovedQuietly(b: Book, b': Book, k: Key, s: RuleState, active: map<ActiveKey, AlertId>,
                     alerts: map<AlertId, Alert>, log: seq<AlertId>)
    requires EngineAgrees(b, active, alerts, log) && Moved(b, b', k, s) && HasRule(b.rules, k.rule)
    requires s.active == StateAt(b.states, k).active && s.fired == StateAt(b.states, k).fired
    ensures EngineAgrees(b', active, alerts, log)
    ensures KnowsLoaded(b, active) ==> KnowsLoaded(b', active)
  {
    hide HasRule;
    forall j ensures PairHeld(StateAt(b'.states, j), j, active, alerts) {
      assert PairHeld(StateAt(b.states, j), j, active, alerts);
    }
    forall j | KeyOf(j) in active ensures Owned(b'.states, active, j) || active[KeyOf(j)] !in log {
      assert Owned(b.states, active, j) || active[KeyOf(j)] !in log;
    }
    if KnowsLoaded(b, active) {
      forall j | KeyOf(j) in active && HasRule(b'.rules, j.rule) ensures Owned(b'.states, active, j) {
        assert Owned(b.states, active, j);
      }
    }
  }

  lemma MovedToFiring(b: Book, b': Book, k: Key, s: RuleState, active: map<ActiveKey, AlertId>,
                      alerts: map<AlertId, Alert>,
                      log: seq<AlertId>, a: Alert)
    requires EngineAgrees(b, active, alerts, log) && Moved(b, b', k, s) && HasRule(b.rules, k.rule)
    requires s.active == Some(a.id) && s.fired == Some(a.timestamp) && a.id !in alerts
    requires StateAt(b.states, k).active.None?
    requires forall j :: KeyOf(j) in active ==> active[KeyOf(j)] in alerts
    ensures EngineAgrees(b', active[KeyOf(k) := a.id], alerts[a.id := a], Logged(log, a.id))
    ensures KnowsLoaded(b, active) ==> KnowsLoaded(b', active[KeyOf(k) := a.id])
  {
    hide HasRule;
    var active', alerts' := active[KeyOf(k) := a.id], alerts[a.id := a];
    forall j ensures PairHeld(StateAt(b'.states, j), j, active', alerts') {
      assert PairHeld(StateAt(b.states, j), j, active, alerts);
    }
    forall j | KeyOf(j) in active' ensures Owned(b'.states, active', j) || active'[KeyOf(j)] !in Logged(log, a.id) {
      if j != k {
        assert Owned(b.states, active, j) || active[KeyOf(j)] !in log;
        if active'[KeyOf(j)] in Logged(log, a.id) { LoggedElements(log, a.id, active'[KeyOf(j)]); }
      }
    }
    if KnowsLoaded(b, active) {
      forall j | KeyOf(j) in active' && HasRule(b'.rules, j.rule) ensures Owned(b'.states, active', j) {
        if j != k { assert Owned(b.states, active, j); }
      }
    }
  }

  lemma MovedToClear(b: Book, b': Book, k: Key, s: RuleState, active: map<ActiveKey, AlertId>,
                     alerts: map<AlertId, Alert>,
                     log: seq<AlertId>, a: Alert)
    requires EngineAgrees(b, active, alerts, log) && Moved(b, b', k, s) && HasRule(b.rules, k.rule)
    requires s.active.None? && a.id in alerts && a.timestamp == alerts[a.id].timestamp
    ensures EngineAgrees(b', active - {KeyOf(k)}, alerts[a.id := a], log)
    ensures KnowsLoaded(b, active) ==> KnowsLoaded(b', active - {KeyOf(k)})
  {
    hide HasRule;
    var active', alerts' := active - {KeyOf(k)}, alerts[a.id := a];
    forall j ensures PairHeld(StateAt(b'.states, j), j, active', alerts') {
      assert PairHeld(StateAt(b.states, j), j, active, alerts);
    }
    forall j | KeyOf(j) in active' ensures Owned(b'.states, active', j) || active'[KeyOf(j)] !in log {
      assert Owned(b.states, active, j) || active[KeyOf(j)] !in log;
    }
    if KnowsLoaded(b, active) {
      forall j | KeyOf(j) in active' && HasRule(b'.rules, j.rule) ensures Owned(b'.states, active', j) {
        assert Owned(b.states, active, j);
      }
    }
  }

  /** The manager after one rule was evaluated: the three things that can have happened. */
  lemma RuleStepCases(r: Rule, m: State, e: Event)
    requires r.enabled
    ensures var k := Key(r.id, e.host);
      var s := StateAt(m.book.states, k);
      var out := Emit(r, s, e, m.next);
      var m' := RuleStep(r, m, e);
      && Moved(m.book, m'.book, k, Advance(r, s, e, m.next)) && m'.detector == m.detector
      && m'.next == m.next + (if |out| == 1 && out[0].action == Created then 1 else 0)
      && (out == [] ==> m' == m.(book := m'.book))
      && (|out| == 1 && out[0].action == Created ==>
            m' == Activate(m, KeyOf(k), out[0].alert, true).(book := m'.book, next := m'.next))
      && (|out| == 1 && out[0].action == Cleared && KeyOf(k) in m.active && m.active[KeyOf(k)] in m.rt.alerts ==>
            var a := m.rt.alerts[m.active[KeyOf(k)]].(value := out[0].alert.value, resolved := true, resolvedAt := out[0].alert.resolvedAt);
            m' == Deactivate(m, KeyOf(k), a, Or(a.host, m.home), true).(book := m'.book))
  {
    hide Raise, Settle, Hits, Due;
    var k := Key(r.id, e.host);
    var s := StateAt(m.book.states, k);
    var out := Emit(r, s, e, m.next);
    var p := EvaluateRule(r, StartPass(m.book, m.next), e);
    assert p.out == out;
    if |out| == 1 {
      assert RuleKeyOf(out[0].alert) == Some(KeyOf(k));
      var m1 := ApplyTransition(WithPass(m, p), out[0]);
      assert out[1..] == [] && ApplyAll(m1, []) == m1;
      assert RuleStep(r, m, e) == ApplyTransition(WithPass(m, p), out[0]);
    }
  }

  lemma DisabledStep(r: Rule, m: State, e: Event)
    requires !r.enabled
    ensures RuleStep(r, m, e) == m
  {
    assert WithPass(m, StartPass(m.book, m.next)) == m;
  }

  lemma RuleStepFires(r: Rule, m: State, e: Event, c: bool)
    requires Coherent(m, c) && r.enabled && HasRule(m.book.rules, r.id)
    requires var out := Emit(r, StateAt(m.book.states, Key(r.id, e.host)), e, m.next); |out| == 1 && out[0].action == Created
    ensures Coherent(RuleStep(r, m, e), c) && Evolves(m.rt, RuleStep(r, m, e).rt)
  {
    hide Healthy, NotifiesOnce, Evolves, Raise, Tracks, EngineAgrees, HasRule, Logged, Hits, EvaluateRule, RuleStep;
    var k := Key(r.id, e.host);
    var s := StateAt(m.book.states, k);
    var a := Emit(r, s, e, m.next)[0].alert;
    var m' := RuleStep(r, m, e);
    RuleStepCases(r, m, e);
    Fresh(m);
    NextIsNewer(m);
    UnownedIsOld(m, k);
    var b := RaiseAlerts(m, KeyOf(k), a, true);
    RaiseCoherent(m.rt, a);
    ActivateTracks(m.rt.alerts, m.active, m.log, m.next, KeyOf(k), b);
    MovedToFiring(m.book, m'.book, k, Advance(r, s, e, m.next), m.active, m.rt.alerts, m.log, b);
    CompleteIs(m);
    CompleteIs(m');
    if c { ActivateOpen(m.rt.alerts, m.active, KeyOf(k), b); }
  }

  lemma Fresh(m: State)
    requires Steady(m)
    ensures m.next !in m.rt.alerts && forall k :: KeyOf(k) in m.active ==> m.active[KeyOf(k)] in m.rt.alerts
  {
    forall k | KeyOf(k) in m.active ensures m.active[KeyOf(k)] in m.rt.alerts { HeldAlert(m, KeyOf(k)); }
  }

  lemma RaiseCoherent(rt: Runtime, a: Alert)
    requires Healthy(rt) && NotifiesOnce(rt) && Newer(rt, a.id) && !a.resolved && Speaks(a)
    ensures Healthy(Raise(rt, a, true)) && NotifiesOnce(Raise(rt, a, true)) && Evolves(rt, Raise(rt, a, true))
  {
    hide Agrees, Describes, Durable, NotifiesOnce, Raise, Evolves;
    assert a.id !in rt.alerts;
    RaiseHealthy(rt, a, true);
    RaiseNotifiesOnce(rt, a, true);
    RaiseEvolves(rt, a, true);
  }

  /** A key whose pair the engine thinks quiet is absent, or its alert has left the deque. */
  lemma UnownedIsOld(m: State, k: Key)
    requires Steady(m) && StateAt(m.book.states, k).active.None?
    ensures KeyOf(k) in m.active ==> m.active[KeyOf(k)] !in m.log
    ensures Complete(m) && HasRule(m.book.rules, k.rule) ==> KeyOf(k) !in m.active
  {
    hide Healthy, NotifiesOnce, Tracks, HasRule;
    if KeyOf(k) in m.active { assert Owned(m.book.states, m.active, k) || m.active[KeyOf(k)] !in m.log; }
  }

  lemma RuleStepClears(r: Rule, m: State, e: Event, c: bool)
    requires Coherent(m, c) && r.enabled && HasRule(m.book.rules, r.id)
    requires var out := Emit(r, StateAt(m.book.states, Key(r.id, e.host)), e, m.next); |out| == 1 && out[0].action == Cleared
    ensures Coherent(RuleStep(r, m, e), c) && Evolves(m.rt, RuleStep(r, m, e).rt)
    ensures var p := EvaluateRule(r, StartPass(m.book, m.next), e); AllFound(WithPass(m, p), p.out)
  {
    hide Healthy, NotifiesOnce, Evolves, Settle, Tracks, EngineAgrees, HasRule, Hits, Due, RuleStep;
    var k := Key(r.id, e.host);
    var s := StateAt(m.book.states, k);
    var out := Emit(r, s, e, m.next);
    var m' := RuleStep(r, m, e);
    RuleStepCases(r, m, e);
    OwnedIsHeld(m, k);
    var a := m.rt.alerts[m.active[KeyOf(k)]].(value := out[0].alert.value, resolved := true, resolvedAt := out[0].alert.resolvedAt);
    SettleCoherent(m.rt, a, Or(a.host, m.home));
    DeactivateTracks(m.rt.alerts, m.active, m.log, m.next, KeyOf(k), a);
    MovedToClear(m.book, m'.book, k, Advance(r, s, e, m.next), m.active, m.rt.alerts, m.log, a);
    CompleteIs(m);
    CompleteIs(m');
    if c { DeactivateOpen(m.rt.alerts, m.active, KeyOf(k), a); }
  }

  lemma OwnedIsHeld(m: State, k: Key)
    requires Steady(m) && StateAt(m.book.states, k).active.Some?
    ensures KeyOf(k) in m.active && m.active[KeyOf(k)] == StateAt(m.book.states, k).active.value
    ensures Holds(m.rt.alerts, KeyOf(k), m.active[KeyOf(k)]) && m.rt.alerts[m.active[KeyOf(k)]].id == m.active[KeyOf(k)]
  {
    hide Healthy, NotifiesOnce, Tracks, HasRule;
    assert PairHeld(StateAt(m.book.states, k), k, m.active, m.rt.alerts);
    HeldAlert(m, KeyOf(k));
  }

  lemma SettleCoherent(rt: Runtime, a: Alert, host: Option<HostId>)
    requires Healthy(rt) && NotifiesOnce(rt) && Resolves(rt.alerts, a) && Speaks(a)
    ensures Healthy(Settle(rt, a, host, true)) && NotifiesOnce(Settle(rt, a, host, true))
    ensures Evolves(rt, Settle(rt, a, host, true))
    ensures Settle(rt, a, host, true).alerts == rt.alerts[a.id := a]
  {
    assert Settle(rt, a, host, true).alerts == rt.alerts[a.id := a];
    hide Sound, Agrees, Describes, Durable, NotifiesOnce, Settle, Evolves;
    SettleHealthy(rt, a, host, true);
    SettleNotifiesOnce(rt, a, host, true);
    SettleEvolves(rt, a, host, true);
  }

  lemma RuleStepQuiet(r: Rule, m: State, e: Event, c: bool)
    requires Coherent(m, c) && r.enabled && HasRule(m.book.rules, r.id)
    requires Emit(r, StateAt(m.book.states, Key(r.id, e.host)), e, m.next) == []
    ensures Coherent(RuleStep(r, m, e), c) && Evolves(m.rt, RuleStep(r, m, e).rt)
  {
    hide Healthy, NotifiesOnce, Evolves, Tracks, EngineAgrees, HasRule, Hits, RuleStep;
    var k := Key(r.id, e.host);
    var s := StateAt(m.book.states, k);
    var m' := RuleStep(r, m, e);
    RuleStepCases(r, m, e);
    NothingHappened(m.rt);
    MovedQuietly(m.book, m'.book, k, Advance(r, s, e, m.next), m.active, m.rt.alerts, m.log);
    CompleteIs(m);
    CompleteIs(m');
  }

  /** One rule keeps the manager coherent and, if it clears an alert, finds it under its key. */
  lemma RuleStepCoherent(r: Rule, m: State, e: Event, c: bool)
    requires Coherent(m, c) && HasRule(m.book.rules, r.id)
    ensures Coherent(RuleStep(r, m, e), c) && Evolves(m.rt, RuleStep(r, m, e).rt)
    ensures var p := EvaluateRule(r, StartPass(m.book, m.next), e); AllFound(WithPass(m, p), p.out)
    ensures RuleStep(r, m, e).book.rules == m.book.rules
  {
    hide Coherent, Evolves, Hits, Due, HasRule, Raise, Settle;
    if !r.enabled {
      NothingHappened(m.rt);
      assert RuleStep(r, m, e) == m;
    } else {
      var out := Emit(r, StateAt(m.book.states, Key(r.id, e.host)), e, m.next);
      RuleStepCases(r, m, e);
      if out == [] {
        RuleStepQuiet(r, m, e, c);
      } else if out[0].action == Created {
        RuleStepFires(r, m, e, c);
      } else {
        RuleStepClears(r, m, e, c);
      }
    }
  }

  lemma {:induction false} RuleStepsCoherent(rs: seq<Rule>, m: State, e: Event, c: bool)
    requires Coherent(m, c) && forall i :: 0 <= i < |rs| ==> HasRule(m.book.rules, rs[i].id)
    ensures Coherent(RuleSteps(rs, m, e), c) && Evolves(m.rt, RuleSteps(rs, m, e).rt) && StepsFound(rs, m, e)
    decreases |rs|
  {
    hide Coherent, Evolves, RuleStep, HasRule, AllFound;
    NothingHappened(m.rt);
    if rs != [] {
      var m1 := RuleStep(rs[0], m, e);
      RuleStepCoherent(rs[0], m, e, c);
      RuleStepsCoherent(rs[1..], m1, e, c);
      EvolvesTransitive(m.rt, m1.rt, RuleSteps(rs[1..], m1, e).rt);
    }
  }

  lemma LoadedRules(rs: seq<Rule>)
    ensures forall i :: 0 <= i < |rs| ==> HasRule(rs, rs[i].id)
  {
    forall i | 0 <= i < |rs| ensures HasRule(rs, rs[i].id) { assert rs[i] in rs; }
  }

  /** The manager once the anomaly verdicts of the event are applied. */
  function Judged(m: State, e: Event, now: Time): State
    requires m.detector.minHistory >= 1
  {
    var p := Detector.Observe(m.detector, e);
    ApplyVerdicts(m.(detector := p.state), e, now, p.verdicts)
  }

  lemma ProcessEventIsRuleByRule(m: State, e: Event, now: Time)
    requires m.detector.minHistory >= 1
    ensures var m1 := Judged(m, e, now); ProcessEvent(m, e, now) == RuleSteps(m1.book.rules, m1, e)
  {
    hide EvaluateAll, RuleSteps, ApplyVerdicts;
    var m1 := Judged(m, e, now);
    var p := StartPass(m1.book, m1.next);
    assert WithPass(m1, p) == m1 && ApplyAll(m1, []) == m1;
    EvaluationIsRuleByRule(m1.book.rules, m1, p, e);
  }

  lemma JudgedCoherent(m: State, e: Event, now: Time, c: bool)
    requires Coherent(m, c)
    ensures Coherent(Judged(m, e, now), c) && Evolves(m.rt, Judged(m, e, now).rt)
  {
    hide Healthy, NotifiesOnce, Tracks, EngineAgrees, Evolves, ApplyVerdicts;
    var p := Detector.Observe(m.detector, e);
    VerdictsCoherent(m.(detector := p.state), e, now, p.verdicts, c);
  }

  /** `process_event` keeps the manager coherent, and only moves alerts and incidents forward. */
  lemma EventCoherent(m: State, e: Event, now: Time, c: bool)
    requires Coherent(m, c)
    ensures Coherent(ProcessEvent(m, e, now), c) && Evolves(m.rt, ProcessEvent(m, e, now).rt)
  {
    hide Healthy, NotifiesOnce, Tracks, EngineAgrees, Complete, Evolves, ProcessEvent, Judged, RuleSteps, HasRule;
    var m1 := Judged(m, e, now);
    JudgedCoherent(m, e, now, c);
    LoadedRules(m1.book.rules);
    RuleStepsCoherent(m1.book.rules, m1, e, c);
    ProcessEventIsRuleByRule(m, e, now);
    EvolvesTransitive(m.rt, m1.rt, ProcessEvent(m, e, now).rt);
  }

  /** The transitions `process_event` applies, and the state it applies them to. */
  function Pending(m: State, e: Event, now: Time): (State, seq<Transition>)
    requires m.detector.minHistory >= 1
  {
    var m1 := Judged(m, e, now);
    var q := Evaluate(m1.book, e, m1.next);
    (WithPass(m1, q), q.out)
  }

  /** No clearing ever misses: each finds the alert it names under its key, so that alert is resolved. */
  lemma EveryClearingIsFound(m: State, e: Event, now: Time)
    requires Steady(m)
    ensures AllFound(Pending(m, e, now).0, Pending(m, e, now).1)
  {
    hide Healthy, NotifiesOnce, Tracks, EngineAgrees, Complete, Evolves, Judged, RuleSteps, HasRule, EvaluateAll,
         StepsFound;
    var m1 := Judged(m, e, now);
    JudgedCoherent(m, e, now, false);
    LoadedRules(m1.book.rules);
    RuleStepsCoherent(m1.book.rules, m1, e, false);
    var p := StartPass(m1.book, m1.next);
    assert WithPass(m1, p) == m1 && ApplyAll(m1, []) == m1;
    FoundIsRuleByRule(m1.book.rules, m1, p, e);
  }
}
