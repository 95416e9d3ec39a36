/** Whole runs of the manager from an empty process: agreement, forward movement, durability, reloads. */
module Runs {
  import opened Common
  import opened Domain
  import opened Rules
  import Anomaly
  import Detector
  import opened Incidents
  import opened Persistence
  import opened Pipeline
  import opened Notices
  import opened Manager
  import opened Coherence
  import Evaluation
  import opened Reloads

  function Run(m: State, inputs: seq<Input>): (r: State)
    requires m.detector.minHistory >= 1
    ensures r.detector.minHistory >= 1
  {
    if inputs == [] then m
    else
      var before := Run(m, inputs[..|inputs| - 1]);
      StepDetector(before, inputs[|inputs| - 1]);
      Step(before, inputs[|inputs| - 1])
  }

  lemma {:induction false} VerdictsDetector(m: State, e: Event, now: Time, vs: seq<Anomaly.Verdict>)
    ensures ApplyVerdicts(m, e, now, vs).detector == m.detector
    decreases |vs|
  {
    hide Raise, Settle;
    if vs != [] { VerdictsDetector(ApplyVerdict(m, e, now, vs[0]), e, now, vs[1..]); }
  }

  lemma {:induction false} TransitionsDetector(m: State, ts: seq<Transition>)
    ensures ApplyAll(m, ts).detector == m.detector
    decreases |ts|
  {
    hide Raise, Settle;
    if ts != [] { TransitionsDetector(ApplyTransition(m, ts[0]), ts[1..]); }
  }

  lemma StepDetector(m: State, i: Input)
    requires m.detector.minHistory >= 1
    ensures Step(m, i).detector.minHistory == m.detector.minHistory
  {
    hide Raise, Settle, ApplyVerdicts, ApplyAll, EvaluateAll;
    match i
    case Telemetry(e, now) =>
      var p := Detector.Observe(m.detector, e);
      VerdictsDetector(m.(detector := p.state), e, now, p.verdicts);
      var m1 := ApplyVerdicts(m.(detector := p.state), e, now, p.verdicts);
      var q := Evaluate(m1.book, e, m1.next);
      TransitionsDetector(m1.(book := EndPass(m1.book, q), next := q.next), q.out);
    case _ =>
  }

  lemma InitialCoherent(d: Detector.State, home: Option<HostId>, ac: nat, ic: nat)
    requires d.minHistory >= 1
    ensures Coherent(Initial(d, home, ac, ic), true)
  {
    StartIsHealthy(ac, ic);
  }

  /** Every reload of the run is safe when it happens. */
  ghost predicate SafeRun(m: State, inputs: seq<Input>)
    requires m.detector.minHistory >= 1
  {
    inputs == [] ||
    (SafeRun(m, inputs[..|inputs| - 1]) && Safe(Run(m, inputs[..|inputs| - 1]), inputs[|inputs| - 1]))
  }

  lemma {:induction false} RunCoherent(m: State, inputs: seq<Input>, c: bool)
    requires Coherent(m, c) && (c ==> SafeRun(m, inputs))
    ensures Coherent(Run(m, inputs), c) && Evolves(m.rt, Run(m, inputs).rt)
  {
    hide Healthy, NotifiesOnce, Tracks, EngineAgrees, Complete, Evolves, Step, Safe;
    if inputs == [] {
      NothingHappened(m.rt);
    } else {
      var before, i := Run(m, inputs[..|inputs| - 1]), inputs[|inputs| - 1];
      RunCoherent(m, inputs[..|inputs| - 1], c);
      StepCoherent(before, i, c);
      EvolvesTransitive(m.rt, before.rt, Step(before, i).rt);
    }
  }

  // ----- Three-way agreement -----

  /** The alerts active in some incident. */
  function ActiveInIncidents(l: Ledger): set<AlertId> {
    set i, a | i in l.incidents && a in l.incidents[i].activeIds :: a
  }

  ghost predicate DisjointIncidents(l: Ledger) {
    forall i, j, a :: i in l.incidents && j in l.incidents && a in l.incidents[i].activeIds && a in l.incidents[j].activeIds ==> i == j
  }

  lemma IncidentsHoldOpenAlerts(rt: Runtime, a: AlertId)
    requires InMemory(rt)
    ensures a in ActiveInIncidents(rt.ledger) <==> a in rt.alerts && !rt.alerts[a].resolved
  {
    hide Describes;
    var l := rt.ledger;
    if a in ActiveInIncidents(l) {
      var i :| i in l.incidents && a in l.incidents[i].activeIds;
      assert WellFormed(i, l.incidents[i]);
      assert a in l.incidents[i].alertIds;
      assert Placed(l, a, rt.alerts[a]);
    }
    if a in rt.alerts && !rt.alerts[a].resolved { assert Placed(l, a, rt.alerts[a]); }
  }

  lemma IncidentsAreDisjoint(l: Ledger)
    requires Sound(l)
    ensures DisjointIncidents(l)
  {
    forall i, j, a | i in l.incidents && j in l.incidents && a in l.incidents[i].activeIds && a in l.incidents[j].activeIds
      ensures i == j
    {
      assert WellFormed(i, l.incidents[i]) && WellFormed(j, l.incidents[j]);
      assert a in l.incidents[i].alertIds && a in l.incidents[j].alertIds;
      assert l.owner[a] == i && l.owner[a] == j;
    }
  }

  /** The manager's active alerts are exactly the disjoint union of the incidents' active alerts iff every open
      alert has a key; the engine's active alerts are always the ones under the matching keys. */
  lemma Agreement(m: State)
    requires Steady(m)
    ensures m.active.Values <= ActiveInIncidents(m.rt.ledger) && DisjointIncidents(m.rt.ledger)
    ensures m.active.Values == ActiveInIncidents(m.rt.ledger) <==> OpenHaveKeys(m.rt.alerts, m.active)
    ensures forall k, a :: StateAt(m.book.states, k).active == Some(a) ==> KeyOf(k) in m.active && m.active[KeyOf(k)] == a
  {
    hide Sound, Agrees, Describes, Durable, NotifiesOnce, Tracks, ActiveInIncidents, DisjointIncidents;
    IncidentsAreDisjoint(m.rt.ledger);
    forall a ensures a in ActiveInIncidents(m.rt.ledger) <==> a in m.rt.alerts && !m.rt.alerts[a].resolved {
      IncidentsHoldOpenAlerts(m.rt, a);
    }
    forall a | a in m.active.Values ensures a in m.rt.alerts && !m.rt.alerts[a].resolved && HasKey(m.active, a) {
      var k :| k in m.active && m.active[k] == a;
      HeldAlert(m, k);
    }
    assert forall a :: a in m.active.Values <==> HasKey(m.active, a);
    forall k, a | StateAt(m.book.states, k).active == Some(a) ensures KeyOf(k) in m.active && m.active[KeyOf(k)] == a {
      assert PairHeld(StateAt(m.book.states, k), k, m.active, m.rt.alerts);
    }
  }

  /** Manager, engine and incidents agree. */
  ghost predicate InAgreement(m: State) {
    && m.active.Values == ActiveInIncidents(m.rt.ledger) && DisjointIncidents(m.rt.ledger)
    && (forall k :: KeyOf(k) in m.active && HasRule(m.book.rules, k.rule) ==> Owned(m.book.states, m.active, k))
    && (forall k, a :: StateAt(m.book.states, k).active == Some(a) ==>
                         KeyOf(k) in m.active && m.active[KeyOf(k)] == a)
  }

  /** From an empty process, through any run whose reloads are safe, manager, engine and incidents agree. */
  lemma SafeRunsAgree(d: Detector.State, home: Option<HostId>, ac: nat, ic: nat, inputs: seq<Input>)
    requires d.minHistory >= 1 && SafeRun(Initial(d, home, ac, ic), inputs)
    ensures InAgreement(Run(Initial(d, home, ac, ic), inputs))
  {
    hide Healthy, NotifiesOnce, Tracks, EngineAgrees, ActiveInIncidents, DisjointIncidents, Run, SafeRun, Initial;
    var start := Initial(d, home, ac, ic);
    InitialCoherent(d, home, ac, ic);
    RunCoherent(start, inputs, true);
    Agreement(Run(start, inputs));
  }

  lemma {:induction false} EveryStateComplete(m: State, inputs: seq<Input>)
    requires Coherent(m, true)
    ensures (forall n :: 0 <= n <= |inputs| ==> Complete(Run(m, inputs[..n]))) <==> SafeRun(m, inputs)
  {
    hide Healthy, NotifiesOnce, Tracks, EngineAgrees, Complete, Evolves, Step, ReloadSafe, Run;
    if inputs == [] {
      EmptyRun(m);
      assert inputs[..0] == [];
    } else {
      var last := |inputs| - 1;
      var before, i := Run(m, inputs[..last]), inputs[last];
      EveryStateComplete(m, inputs[..last]);
      assert forall n :: 0 <= n <= last ==> inputs[..last][..n] == inputs[..n];
      assert inputs[..|inputs|] == inputs;
      RunStep(m, inputs);
      RunCoherent(m, inputs[..last], false);
      if Complete(before) {
        if i.Rows? { StepIsReload(before, i); ReloadCoherent(before, i.rows); } else { StepCoherent(before, i, true); }
      }
      assert inputs[..last + 1] == inputs;
    }
  }

  lemma EmptyRun(m: State)
    requires m.detector.minHistory >= 1
    ensures Run(m, []) == m && SafeRun(m, [])
  {
  }

  lemma RunStep(m: State, inputs: seq<Input>)
    requires m.detector.minHistory >= 1 && inputs != []
    ensures var before := Run(m, inputs[..|inputs| - 1]);
      && Run(m, inputs) == Step(before, inputs[|inputs| - 1])
      && (SafeRun(m, inputs) <==> SafeRun(m, inputs[..|inputs| - 1]) && Safe(before, inputs[|inputs| - 1]))
  {
    hide Step, Safe;
  }

  lemma StepIsReload(m: State, i: Input)
    requires m.detector.minHistory >= 1 && i.Rows?
    ensures Step(m, i) == Reload(m, i.rows)
  {
  }

  lemma {:induction false} RunConcat(m: State, a: seq<Input>, b: seq<Input>)
    requires m.detector.minHistory >= 1
    ensures Run(m, a + b) == Run(Run(m, a), b)
    ensures SafeRun(m, a + b) ==> SafeRun(Run(m, a), b)
  {
    hide Step, Safe;
    if b == [] {
      assert a + b == a;
    } else {
      assert (a + b)[..|a + b| - 1] == a + b[..|b| - 1];
      RunConcat(m, a, b[..|b| - 1]);
    }
  }

  /** The engine knows every open alert of its loaded rules in every state of a run exactly if every reload of the
      run was safe when it happened. */
  lemma AlwaysCompleteIffSafe(d: Detector.State, home: Option<HostId>, ac: nat, ic: nat, inputs: seq<Input>)
    requires d.minHistory >= 1
    ensures (forall n :: 0 <= n <= |inputs| ==> Complete(Run(Initial(d, home, ac, ic), inputs[..n])))
       <==> SafeRun(Initial(d, home, ac, ic), inputs)
  {
    InitialCoherent(d, home, ac, ic);
    EveryStateComplete(Initial(d, home, ac, ic), inputs);
  }

  /** In every run, whatever the reloads: no clearing misses its alert, incidents and notices are as promised. */
  lemma EveryRun(d: Detector.State, home: Option<HostId>, ac: nat, ic: nat, inputs: seq<Input>, e: Event, now: Time)
    requires d.minHistory >= 1
    ensures var m := Run(Initial(d, home, ac, ic), inputs);
      && InMemory(m.rt) && NotifiesOnce(m.rt)
      && (var todo := Evaluation.Pending(m, e, now); Evaluation.AllFound(todo.0, todo.1))
  {
    hide Sound, Agrees, Describes, Durable, NotifiesOnce, Tracks, EngineAgrees, Run, Initial, Complete, Evolves;
    InitialCoherent(d, home, ac, ic);
    RunCoherent(Initial(d, home, ac, ic), inputs, false);
    Evaluation.EveryClearingIsFound(Run(Initial(d, home, ac, ic), inputs), e, now);
  }

  /** Once an incident is closed or an alert resolved, nothing that happens later changes it, except that an
      operator may still acknowledge the alert. */
  lemma RunsOnlyMoveForward(d: Detector.State, home: Option<HostId>, ac: nat, ic: nat, inputs: seq<Input>,
                            later: seq<Input>)
    requires d.minHistory >= 1
    ensures var m := Run(Initial(d, home, ac, ic), inputs); Evolves(m.rt, Run(m, later).rt)
  {
    hide Healthy, NotifiesOnce, Tracks, EngineAgrees, Complete, Evolves, Run, Initial;
    InitialCoherent(d, home, ac, ic);
    RunCoherent(Initial(d, home, ac, ic), inputs, false);
    RunCoherent(Run(Initial(d, home, ac, ic), inputs), later, false);
  }

  /** After any run without queue drops, once both workers are done, a fresh engine rebuilds both dictionaries, up to
      hosts and services that were deleted. */
  lemma RunDrainHydrate(d: Detector.State, home: Option<HostId>, ac: nat, ic: nat, inputs: seq<Input>,
                        order: seq<IncidentId>)
    requires d.minHistory >= 1
    requires var s := Run(Initial(d, home, ac, ic), inputs).rt.store;
      && NoDrops(s) && Drained(s)
      && (forall k :: 0 <= k < |order| ==> order[k] in s.incidents.rows) && (forall i :: i in s.incidents.rows ==> i in order)
    ensures var rt := Run(Initial(d, home, ac, ic), inputs).rt;
      var h := Hydrate(IncidentsRead(rt.store.deleted, rt.store.incidents), rt.store.alerts, order);
      && h.owner == rt.ledger.owner && h.incidents == Bereft(rt.store.deleted, rt.ledger.incidents)
      && (h.incidents == rt.ledger.incidents <==> NothingMissed(rt.store.deleted, rt.ledger.incidents))
  {
    hide Healthy, NotifiesOnce, Tracks, EngineAgrees, Complete, Evolves, Run, Initial, Hydrate;
    InitialCoherent(d, home, ac, ic);
    RunCoherent(Initial(d, home, ac, ic), inputs, false);
    DrainThenHydrate(Run(Initial(d, home, ac, ic), inputs).rt, order);
  }

  /** After any run in which no alert was dropped, enough fair rounds of the workers empty both queues exactly if every
      rule, host and service that waiting events refer to still exists; and every link points to stored rows. */
  lemma RunDrains(d: Detector.State, home: Option<HostId>, ac: nat, ic: nat, inputs: seq<Input>, rounds: seq<seq<Turn>>)
    requires d.minHistory >= 1 && Run(Initial(d, home, ac, ic), inputs).rt.store.alertOut.dropped == 0
    requires |rounds| >= Backlog(Run(Initial(d, home, ac, ic), inputs).rt.store)
    requires forall k :: 0 <= k < |rounds| ==> FairRound(rounds[k])
    ensures var s := Run(Initial(d, home, ac, ic), inputs).rt.store;
      LinksAreSafe(s) && (Drained(Rounds(s, rounds)) <==> Referable(s))
  {
    hide InMemory, NotifiesOnce, Tracks, EngineAgrees, Complete, Evolves, Run, Initial, Rounds, Covered, Referable;
    InitialCoherent(d, home, ac, ic);
    RunCoherent(Initial(d, home, ac, ic), inputs, false);
    FairRoundsDrainIff(Run(Initial(d, home, ac, ic), inputs).rt.store, rounds);
  }

  // ----- If deleted rules can come back: when a reload is still unobservable -----

  /** Equal, except for when a condition began that already has its alert. */
  predicate Similar(s: RuleState, t: RuleState) {
    s.active == t.active && s.fired == t.fired && (s.active.None? ==> s.since == t.since)
  }

  /** Everything is the same but the pairs' states, and those are similar. */
  ghost predicate Bisimilar(m: State, m': State) {
    && m' == m.(book := m.book.(states := m'.book.states))
    && (forall k :: Similar(StateAt(m.book.states, k), StateAt(m'.book.states, k)))
  }

  /** The deque still holds every open alert that the engine knows although its rule is not loaded. */
  ghost predicate Remembers(m: State) {
    forall k :: KeyOf(k) in m.active && !HasRule(m.book.rules, k.rule) && StateAt(m.book.states, k).active.Some? ==>
      m.active[KeyOf(k)] in m.log
  }

  /** A pair whose alert is in the deque is known to the engine. */
  lemma KnownPair(m: State, k: Key)
    requires Steady(m) && KeyOf(k) in m.active && m.active[KeyOf(k)] in m.log
    ensures StateAt(m.book.states, k).active == Some(m.active[KeyOf(k)]) && m.active[KeyOf(k)] in m.rt.alerts
    ensures StateAt(m.book.states, k).fired == Some(m.rt.alerts[m.active[KeyOf(k)]].timestamp)
  {
    hide Healthy, NotifiesOnce, Tracks, HasRule;
    assert Owned(m.book.states, m.active, k);
    assert PairHeld(StateAt(m.book.states, k), k, m.active, m.rt.alerts);
  }

  /** The states of rules that are not loaded are those of open alerts. */
  lemma UnloadedPair(m: State, k: Key)
    requires Steady(m) && !HasRule(m.book.rules, k.rule)
    ensures StateAt(m.book.states, k) == QUIET || (StateAt(m.book.states, k).active.Some? && KeyOf(k) in m.active)
  {
    hide Healthy, NotifiesOnce, Tracks, HasRule;
    assert PairHeld(StateAt(m.book.states, k), k, m.active, m.rt.alerts);
  }

  lemma ReloadIsBisimilar(m: State, rows: seq<RuleRow>)
    requires Steady(m) && Known(rows) == m.book.rules && Remembers(m)
    ensures Bisimilar(m, Reload(m, rows)) && Steady(Reload(m, rows))
  {
    hide Healthy, NotifiesOnce, Tracks, EngineAgrees, Known, HasRule, HydrateActive, OpenRuleAlerts;
    ReloadCoherent(m, rows);
    forall k ensures Similar(StateAt(m.book.states, k), StateAt(Reload(m, rows).book.states, k)) {
      ReloadedAt(m, rows, k);
      if KeyOf(k) in m.active && m.active[KeyOf(k)] in m.log {
        KnownPair(m, k);
      } else if !HasRule(m.book.rules, k.rule) {
        UnloadedPair(m, k);
      }
    }
  }

  lemma SimilarRule(r: Rule, p: Pass, p': Pass, e: Event)
    requires p' == p.(states := p'.states) && forall k :: Similar(StateAt(p.states, k), StateAt(p'.states, k))
    ensures var q, q' := EvaluateRule(r, p, e), EvaluateRule(r, p', e);
      q' == q.(states := q'.states) && forall k :: Similar(StateAt(q.states, k), StateAt(q'.states, k))
  {
    if r.enabled {
      var key := Key(r.id, e.host);
      SimilarAdvance(r, StateAt(p.states, key), StateAt(p'.states, key), e, p.next);
      hide Advance, Emit, Similar;
      var q, q' := EvaluateRule(r, p, e), EvaluateRule(r, p', e);
      forall k ensures Similar(StateAt(q.states, k), StateAt(q'.states, k)) {
        assert Similar(StateAt(p.states, k), StateAt(p'.states, k));
      }
    }
  }

  lemma SimilarAdvance(r: Rule, s: RuleState, t: RuleState, e: Event, id: AlertId)
    requires Similar(s, t)
    ensures Similar(Advance(r, s, e, id), Advance(r, t, e, id)) && Emit(r, s, e, id) == Emit(r, t, e, id)
  {
    hide Hits;
  }

  lemma {:induction false} SimilarPass(rs: seq<Rule>, p: Pass, p': Pass, e: Event)
    requires p' == p.(states := p'.states) && forall k :: Similar(StateAt(p.states, k), StateAt(p'.states, k))
    ensures var q, q' := EvaluateAll(rs, p, e), EvaluateAll(rs, p', e);
      q' == q.(states := q'.states) && forall k :: Similar(StateAt(q.states, k), StateAt(q'.states, k))
    decreases |rs|
  {
    hide EvaluateRule, Similar;
    if rs != [] {
      SimilarRule(rs[0], p, p', e);
      SimilarPass(rs[1..], EvaluateRule(rs[0], p, e), EvaluateRule(rs[0], p', e), e);
    }
  }

  lemma {:induction false} VerdictsFrame(m: State, e: Event, now: Time, vs: seq<Anomaly.Verdict>, b: Book)
    ensures ApplyVerdicts(m.(book := b), e, now, vs) == ApplyVerdicts(m, e, now, vs).(book := b)
    ensures ApplyVerdicts(m, e, now, vs).book == m.book
    decreases |vs|
  {
    if vs != [] {
      hide Raise, Settle;
      assert ApplyVerdict(m.(book := b), e, now, vs[0]) == ApplyVerdict(m, e, now, vs[0]).(book := b);
      VerdictsFrame(ApplyVerdict(m, e, now, vs[0]), e, now, vs[1..], b);
    }
  }

  lemma EventBisimilar(m: State, m': State, e: Event, now: Time)
    requires Bisimilar(m, m') && m.detector.minHistory >= 1
    ensures Bisimilar(ProcessEvent(m, e, now), ProcessEvent(m', e, now))
  {
    hide ApplyVerdicts, ApplyAll, EvaluateAll, Similar;
    var v := Detector.Observe(m.detector, e);
    var n, n' := m.(detector := v.state), m'.(detector := v.state);
    VerdictsFrame(n, e, now, v.verdicts, m'.book);
    var m1, m1' := ApplyVerdicts(n, e, now, v.verdicts), ApplyVerdicts(n', e, now, v.verdicts);
    assert n' == n.(book := m'.book);
    assert m1' == m1.(book := m'.book) && m1.book == m.book;
    var q, q' := Evaluate(m1.book, e, m1.next), Evaluate(m1'.book, e, m1'.next);
    SimilarPass(m.book.rules, StartPass(m1.book, m1.next), StartPass(m1'.book, m1'.next), e);
    Evaluation.ApplyFrame(m1, q.out, EndPass(m1.book, q), q.next);
    Evaluation.ApplyFrame(m1, q.out, EndPass(m1'.book, q'), q'.next);
    assert m1'.(book := EndPass(m1'.book, q'), next := q'.next) == m1.(book := EndPass(m1'.book, q'), next := q'.next);
  }

  /** Both runs reload the same rows. */
  lemma ReloadBisimilar(m: State, m': State, rows: seq<RuleRow>)
    requires Bisimilar(m, m') && Steady(m) && Steady(m')
    ensures Bisimilar(Reload(m, rows), Reload(m', rows))
  {
    hide Healthy, NotifiesOnce, Tracks, EngineAgrees, Known, HasRule, HydrateActive, OpenRuleAlerts;
    var n, n' := Reload(m, rows), Reload(m', rows);
    forall k ensures Similar(StateAt(n.book.states, k), StateAt(n'.book.states, k)) {
      ReloadedAt(m, rows, k);
      ReloadedAt(m', rows, k);
      assert Similar(StateAt(m.book.states, k), StateAt(m'.book.states, k));
    }
  }

  lemma StepBisimilar(m: State, m': State, i: Input)
    requires Bisimilar(m, m') && Steady(m) && Steady(m')
    ensures Bisimilar(Step(m, i), Step(m', i))
  {
    hide Healthy, NotifiesOnce, Tracks, EngineAgrees, ProcessEvent, Reload, Raise, Settle, Similar, Work, AckAlert;
    match i
    case Telemetry(e, now) => EventBisimilar(m, m', e, now);
    case Rows(rows) => ReloadBisimilar(m, m', rows);
    case _ =>
  }

  lemma {:induction false} RunBisimilar(m: State, m': State, later: seq<Input>)
    requires Bisimilar(m, m') && Steady(m) && Steady(m')
    ensures Bisimilar(Run(m, later), Run(m', later)) && Steady(Run(m, later)) && Steady(Run(m', later))
  {
    hide Healthy, NotifiesOnce, Tracks, EngineAgrees, Step, Bisimilar, Evolves, Complete;
    if later != [] {
      var n := |later| - 1;
      RunBisimilar(m, m', later[..n]);
      StepBisimilar(Run(m, later[..n]), Run(m', later[..n]), later[n]);
      StepCoherent(Run(m, later[..n]), later[n], false);
      StepCoherent(Run(m', later[..n]), later[n], false);
    }
  }

  /** A rule that matches at once, and a sample that it matches. */
  function Watch(id: RuleId): Rule {
    Rule(id, Cpu, AtLeast, 0.0, 0.0, 0.0, Warning, true)
  }

  function Sample(host: Option<HostId>): Event {
    Event(host, 0.0, 0.0, 0.0, 0.0, 0.0, 0.0, 0.0, 0.0)
  }

  lemma OneWatch(id: RuleId)
    ensures Known([RuleRow(Watch(id), true)]) == [Watch(id)] && HasRule([Watch(id)], id)
  {
    var rows := [RuleRow(Watch(id), true)];
    assert rows[1..] == [] && Known(rows[1..]) == [];
    assert Watch(id) in [Watch(id)];
  }

  /** With that rule alone, the sample fires exactly if the engine knows no open alert of the pair. */
  lemma WatchFires(m: State, k: Key)
    requires m.detector.minHistory >= 1 && m.book.rules == [Watch(k.rule)]
    requires StateAt(m.book.states, k) == QUIET || StateAt(m.book.states, k).active.Some?
    ensures ProcessEvent(m, Sample(k.host), 0.0).book.fires
         == m.book.fires + (if StateAt(m.book.states, k).active.Some? then 0 else 1)
  {
    hide ApplyVerdicts, ApplyAll;
    var e := Sample(k.host);
    var v := Detector.Observe(m.detector, e);
    var n := m.(detector := v.state);
    VerdictsFrame(n, e, 0.0, v.verdicts, m.book);
    var m1 := ApplyVerdicts(n, e, 0.0, v.verdicts);
    var start := StartPass(m1.book, m1.next);
    var q := EvaluateRule(Watch(k.rule), start, e);
    assert [Watch(k.rule)][1..] == [] && EvaluateAll([], q, e) == q;
    assert Evaluate(m1.book, e, m1.next) == q;
    Evaluation.ApplyFrame(m1.(book := EndPass(m1.book, q), next := q.next), q.out, m1.book, 0);
  }

  /** If the deque has forgotten such an alert, a later run tells the difference. */
  lemma ForgettingIsObserved(m: State, rows: seq<RuleRow>, k: Key)
    requires Steady(m) && Known(rows) == m.book.rules && KeyOf(k) in m.active && !HasRule(m.book.rules, k.rule)
    requires StateAt(m.book.states, k).active.Some? && m.active[KeyOf(k)] !in m.log
    ensures var later := [Rows([RuleRow(Watch(k.rule), true)]), Telemetry(Sample(k.host), 0.0)];
      Run(Reload(m, rows), later).book.fires == Run(m, later).book.fires + 1
  {
    hide Healthy, NotifiesOnce, Tracks, EngineAgrees, Known, HasRule, HydrateActive, OpenRuleAlerts, ProcessEvent,
         Run, Watch, Sample;
    var back := [RuleRow(Watch(k.rule), true)];
    OneWatch(k.rule);
    var m' := Reload(m, rows);
    ReloadCoherent(m, rows);
    ReloadedAt(m, rows, k);
    ReloadedAt(m, back, k);
    ReloadedAt(m', back, k);
    WatchFires(Reload(m, back), k);
    WatchFires(Reload(m', back), k);
    TwoInputs(m, Rows(back), Telemetry(Sample(k.host), 0.0));
    TwoInputs(m', Rows(back), Telemetry(Sample(k.host), 0.0));
  }

  lemma TwoInputs(m: State, i: Input, j: Input)
    requires m.detector.minHistory >= 1 && Step(m, i).detector.minHistory >= 1
    ensures Run(m, [i, j]) == Step(Step(m, i), j)
  {
    hide Step;
    var all := [i, j];
    assert all[..1] == [i] && [i][..0] == [] && Run(m, []) == m;
    assert Run(m, [i]) == Step(m, i);
  }

  /** The two runs agree on alerts, incidents, notices, queues, active alerts and counters. */
  ghost predicate Unobservable(m: State, m': State)
    requires m.detector.minHistory >= 1 && m'.detector.minHistory >= 1
  {
    forall later :: var a, b := Run(m, later), Run(m', later); b == a.(book := a.book.(states := b.book.states))
  }

  /** Over continuations that may also issue the identifier of a deleted rule again, reloading unchanged rules changes
      nothing that can follow exactly if the deque still holds every open alert that the engine knows although its
      rule is not loaded. */
  lemma ReloadIsUnobservableIff(d: Detector.State, home: Option<HostId>, ac: nat, ic: nat, inputs: seq<Input>,
                                rows: seq<RuleRow>)
    requires d.minHistory >= 1 && Known(rows) == Run(Initial(d, home, ac, ic), inputs).book.rules
    ensures var m := Run(Initial(d, home, ac, ic), inputs); Unobservable(m, Reload(m, rows)) <==> Remembers(m)
  {
    hide Healthy, NotifiesOnce, Tracks, EngineAgrees, Complete, Evolves, Run, Initial, Similar, Known, HasRule,
         HydrateActive, OpenRuleAlerts;
    InitialCoherent(d, home, ac, ic);
    RunCoherent(Initial(d, home, ac, ic), inputs, false);
    var m := Run(Initial(d, home, ac, ic), inputs);
    var m' := Reload(m, rows);
    if Remembers(m) {
      ReloadIsBisimilar(m, rows);
      forall later ensures var a, b := Run(m, later), Run(m', later); b == a.(book := a.book.(states := b.book.states)) {
        RunBisimilar(m, m', later);
      }
    } else {
      var k :| KeyOf(k) in m.active && !HasRule(m.book.rules, k.rule) && StateAt(m.book.states, k).active.Some?
               && m.active[KeyOf(k)] !in m.log;
      ForgettingIsObserved(m, rows, k);
      var later := [Rows([RuleRow(Watch(k.rule), true)]), Telemetry(Sample(k.host), 0.0)];
      assert Run(m', later).book.fires != Run(m, later).book.fires;
    }
  }
}
