/** `AlertRuleEngine` as an object, and what whole runs of it guarantee. */
module RuleEngine {
  import opened Common
  import opened Domain
  import opened Rules

  /** Stand-in for `uuid4` on alerts: never returns the same identifier twice. */
  class Uuids {
    var next: AlertId

    constructor ()
      ensures next == 0
    {
      next := 0;
    }

    method Draw() returns (id: AlertId)
      modifies this
      ensures id == old(next) && next == old(next) + 1
    {
      id := next;
      next := next + 1;
    }
  }

  class AlertRuleEngine {
    var rules: seq<Rule>
    var states: map<Key, RuleState>
    var evaluations: nat
    var fires: nat
    var resolutions: nat

    function Value(): Book
      reads this
    {
      Book(rules, states, evaluations, fires, resolutions)
    }

    constructor ()
      ensures Value() == Book([], map[], 0, 0, 0)
    {
      rules, states := [], map[];
      evaluations, fires, resolutions := 0, 0, 0;
    }

    method LoadRules(rows: seq<RuleRow>)
      modifies this
      ensures Value() == Rules.LoadRules(old(Value()), rows)
    {
      rules := [];
      var i := 0;
      while i < |rows|
        invariant 0 <= i <= |rows|
        invariant rules + Known(rows[i..]) == Known(rows)
        invariant unchanged(`states) && unchanged(`evaluations) && unchanged(`fires) && unchanged(`resolutions)
      {
        ghost var rest := rows[i..];
        assert rest[0] == rows[i] && rest[1..] == rows[i + 1..];
        if rows[i].known { rules := rules + [rows[i].rule]; }
        i := i + 1;
      }
      states := map k | k in states && HasRule(rules, k.rule) :: states[k];
    }

    method HydrateActiveAlerts(alerts: seq<Alert>)
      modifies this`states
      ensures states == HydrateActive(old(states), alerts)
    {
      var i := 0;
      while i < |alerts|
        invariant 0 <= i <= |alerts|
        invariant HydrateActive(states, alerts[i..]) == HydrateActive(old(states), alerts)
      {
        var alert := alerts[i];
        if alert.source == FromRule && alert.rule.Some? {
          states := states[Key(alert.rule.value, alert.host) :=
            RuleState(Some(alert.timestamp), Some(alert.timestamp), Some(alert.id))];
        }
        i := i + 1;
      }
    }

    method Evaluate(e: Event, ids: Uuids) returns (out: seq<Transition>)
      modifies this, ids
      ensures var p := Rules.Evaluate(old(Value()), e, old(ids.next));
        Value() == EndPass(old(Value()), p) && out == p.out && ids.next == p.next
    {
      hide EvaluateRule;
      out := [];
      var i := 0;
      while i < |rules|
        invariant 0 <= i <= |rules| && unchanged(`rules)
        invariant EvaluateAll(rules[i..], Pass(states, out, evaluations, fires, resolutions, ids.next), e)
               == Rules.Evaluate(old(Value()), e, old(ids.next))
      {
        OutIsCarried(rules[i], Pass(states, out, evaluations, fires, resolutions, ids.next), e);
        var more := EvaluateOne(rules[i], e, ids);
        out := out + more;
        i := i + 1;
      }
    }

    /** The body of the loop of `evaluate`. */
    method EvaluateOne(rule: Rule, e: Event, ids: Uuids) returns (out: seq<Transition>)
      modifies this, ids
      ensures rules == old(rules)
      ensures Pass(states, out, evaluations, fires, resolutions, ids.next)
           == EvaluateRule(rule, old(Pass(states, [], evaluations, fires, resolutions, ids.next)), e)
    {
      out := [];
      if !rule.enabled { return; }
      evaluations := evaluations + 1;
      var key, value := Key(rule.id, e.host), e.Value(rule.metric);
      var state := if key in states then states[key] else QUIET;
      if Matches(value, rule.op, rule.threshold) {
        if state.since.None? { state := state.(since := Some(e.timestamp)); }
        var durationMet := e.timestamp - state.since.value >= rule.duration;
        var cooldownMet := state.fired.None? || e.timestamp - state.fired.value >= rule.cooldown;
        if state.active.None? && durationMet && cooldownMet {
          var id := ids.Draw();
          state := state.(active := Some(id), fired := Some(e.timestamp));
          fires := fires + 1;
          var alert := Alert(id, e.timestamp, OfMetric(rule.metric), value, rule.threshold, rule.severity, false, None, false,
                             e.host, None, FromRule, Some(rule.id), None);
          out := [Transition(alert, Created)];
        }
      } else {
        state := state.(since := None);
        if state.active.Some? {
          var alert := Alert(state.active.value, e.timestamp, OfMetric(rule.metric), value, rule.threshold, rule.severity,
                             true, Some(e.timestamp), false, e.host, None, FromRule, Some(rule.id), None);
          out := [Transition(alert, Cleared)];
          state := state.(active := None);
          resolutions := resolutions + 1;
        }
      }
      states := states[key := state];
    }
  }

  /** A rule's own transitions do not depend on what earlier rules reported. */
  lemma OutIsCarried(r: Rule, p: Pass, e: Event)
    ensures var q, q' := EvaluateRule(r, p, e), EvaluateRule(r, p.(out := []), e);
      q == q'.(out := p.out + q'.out)
  {
    if !r.enabled { assert p.out + [] == p.out; }
  }

  // ----- Runs -----

  datatype Result = Result(book: Book, out: seq<Transition>, next: AlertId)

  /** The engine fed a stream of events, with every transition it reported. */
  function Run(b: Book, es: seq<Event>, next: AlertId): Result {
    if es == [] then Result(b, [], next) else
    var r := Run(b, es[..|es| - 1], next);
    var p := Evaluate(r.book, es[|es| - 1], r.next);
    Result(EndPass(r.book, p), r.out + p.out, p.next)
  }

  function EmptyBook(rules: seq<Rule>): Book {
    Book(rules, map[], 0, 0, 0)
  }

  predicate About(t: Transition, k: Key) {
    t.alert.rule == Some(k.rule) && t.alert.host == k.host
  }

  /** The transitions of one (rule, host) pair. */
  function Project(out: seq<Transition>, k: Key): seq<Transition> {
    if out == [] then []
    else if About(out[|out| - 1], k) then Project(out[..|out| - 1], k) + [out[|out| - 1]]
    else Project(out[..|out| - 1], k)
  }

  function ForHost(es: seq<Event>, host: Option<HostId>): seq<Event> {
    if es == [] then []
    else if es[|es| - 1].host == host then ForHost(es[..|es| - 1], host) + [es[|es| - 1]]
    else ForHost(es[..|es| - 1], host)
  }

  /** Transitions up to the choice of alert identifiers. */
  function Erase(out: seq<Transition>): (r: seq<Transition>)
    ensures |r| == |out|
  {
    seq(|out|, i requires 0 <= i < |out| => out[i].(alert := out[i].alert.(id := 0)))
  }

  function Shape(s: RuleState): RuleState {
    s.(active := if s.active.Some? then Some(0) else None)
  }

  /** What one pair reports on the events of its host, alerts named after their event. */
  function KeyTrace(r: Rule, h: seq<Event>, n: nat): seq<Transition>
    requires n <= |h|
  {
    if n == 0 then [] else KeyTrace(r, h, n - 1) + Emit(r, KeyState(r, h, n - 1), h[n - 1], n - 1)
  }

  lemma {:induction false} ProjectConcat(a: seq<Transition>, b: seq<Transition>, k: Key)
    ensures Project(a + b, k) == Project(a, k) + Project(b, k)
  {
    if b == [] {
      assert a + b == a;
    } else {
      ProjectConcat(a, b[..|b| - 1], k);
      assert (a + b)[..|a + b| - 1] == a + b[..|b| - 1];
    }
  }

  lemma EmitIsAbout(r: Rule, s: RuleState, e: Event, id: AlertId, k: Key)
    ensures Project(Emit(r, s, e, id), k) == if k == Key(r.id, e.host) then Emit(r, s, e, id) else []
  {
    var out := Emit(r, s, e, id);
    if |out| == 1 { assert out[..0] == []; assert Project(out[..0], k) == []; }
  }

  lemma {:induction false} OthersDoNotMatter(rs: seq<Rule>, p: Pass, e: Event, k: Key)
    requires k.host != e.host || forall i :: 0 <= i < |rs| ==> rs[i].enabled ==> rs[i].id != k.rule
    ensures var q := EvaluateAll(rs, p, e);
      StateAt(q.states, k) == StateAt(p.states, k) && Project(q.out, k) == Project(p.out, k)
    decreases rs
  {
    if rs != [] {
      var p1 := EvaluateRule(rs[0], p, e);
      if rs[0].enabled {
        var s := StateAt(p.states, Key(rs[0].id, e.host));
        EmitIsAbout(rs[0], s, e, p.next, k);
        ProjectConcat(p.out, Emit(rs[0], s, e, p.next), k);
      }
      OthersDoNotMatter(rs[1..], p1, e, k);
    }
  }

  /** Within one event, a rule's pair moves exactly as the pair's own machine does. */
  lemma {:induction false} OneEvent(rs: seq<Rule>, p: Pass, e: Event, r: Rule) returns (id: AlertId)
    requires DistinctIds(rs) && r in rs && r.enabled
    ensures var k, q := Key(r.id, e.host), EvaluateAll(rs, p, e);
      && StateAt(q.states, k) == Advance(r, StateAt(p.states, k), e, id)
      && Project(q.out, k) == Project(p.out, k) + Emit(r, StateAt(p.states, k), e, id)
    decreases rs
  {
    var k := Key(r.id, e.host);
    var p1 := EvaluateRule(rs[0], p, e);
    if rs[0] == r {
      id := p.next;
      ProjectConcat(p.out, Emit(r, StateAt(p.states, k), e, p.next), k);
      EmitIsAbout(r, StateAt(p.states, k), e, p.next, k);
      OthersDoNotMatter(rs[1..], p1, e, k);
    } else {
      OthersDoNotMatter([rs[0]], p, e, k);
      assert EvaluateAll([rs[0]], p, e) == p1;
      id := OneEvent(rs[1..], p1, e, r);
    }
  }

  lemma SameShapeSameStep(r: Rule, s: RuleState, t: RuleState, e: Event, i: AlertId, j: AlertId)
    requires Shape(s) == Shape(t)
    ensures Shape(Advance(r, s, e, i)) == Shape(Advance(r, t, e, j))
    ensures Erase(Emit(r, s, e, i)) == Erase(Emit(r, t, e, j))
  {
  }

  lemma EraseConcat(a: seq<Transition>, b: seq<Transition>)
    ensures Erase(a + b) == Erase(a) + Erase(b)
  {
  }

  lemma {:induction false} PrefixOfHistory(r: Rule, h: seq<Event>, g: seq<Event>, n: nat)
    requires n <= |h| <= |g| && h == g[..|h|]
    ensures KeyState(r, h, n) == KeyState(r, g, n) && KeyTrace(r, h, n) == KeyTrace(r, g, n)
  {
    if n > 0 { PrefixOfHistory(r, h, g, n - 1); }
  }

  /** One more event of the pair's own host. */
  lemma OwnEvent(rules: seq<Rule>, p: Pass, e: Event, r: Rule, h: seq<Event>, before: seq<Transition>)
    requires DistinctIds(rules) && r in rules && r.enabled && p.out == []
    requires Shape(StateAt(p.states, Key(r.id, e.host))) == Shape(KeyState(r, h, |h|))
    requires Erase(before) == Erase(KeyTrace(r, h, |h|))
    ensures var k, q, g := Key(r.id, e.host), EvaluateAll(rules, p, e), h + [e];
      && Shape(StateAt(q.states, k)) == Shape(KeyState(r, g, |g|))
      && Erase(before + Project(q.out, k)) == Erase(KeyTrace(r, g, |g|))
  {
    var k, q, g := Key(r.id, e.host), EvaluateAll(rules, p, e), h + [e];
    var s, t := StateAt(p.states, k), KeyState(r, h, |h|);
    var id := OneEvent(rules, p, e, r);
    PrefixOfHistory(r, h, g, |h|);
    SameShapeSameStep(r, s, t, e, id, |h|);
    EraseConcat(before, Emit(r, s, e, id));
    EraseConcat(KeyTrace(r, h, |h|), Emit(r, t, e, |h|));
  }

  /** In any run, each enabled pair sees only its host's events and behaves like its own machine. */
  lemma {:induction false} EachPairIsItsOwnMachine(rules: seq<Rule>, es: seq<Event>, next: AlertId, r: Rule,
                                                   host: Option<HostId>)
    requires DistinctIds(rules) && r in rules && r.enabled
    ensures var run, k, h := Run(EmptyBook(rules), es, next), Key(r.id, host), ForHost(es, host);
      && run.book.rules == rules
      && Shape(StateAt(run.book.states, k)) == Shape(KeyState(r, h, |h|))
      && Erase(Project(run.out, k)) == Erase(KeyTrace(r, h, |h|))
  {
    if es != [] {
      var es', e := es[..|es| - 1], es[|es| - 1];
      EachPairIsItsOwnMachine(rules, es', next, r, host);
      var run, k := Run(EmptyBook(rules), es', next), Key(r.id, host);
      var start := StartPass(run.book, run.next);
      ProjectConcat(run.out, EvaluateAll(rules, start, e).out, k);
      if e.host == host {
        OwnEvent(rules, start, e, r, ForHost(es', host), Project(run.out, k));
      } else {
        OthersDoNotMatter(rules, start, e, k);
      }
    }
  }

  lemma {:induction false} ForHostIdempotent(es: seq<Event>, host: Option<HostId>)
    ensures ForHost(ForHost(es, host), host) == ForHost(es, host)
  {
    if es != [] {
      ForHostIdempotent(es[..|es| - 1], host);
      var f, e := ForHost(es[..|es| - 1], host), es[|es| - 1];
      if e.host == host {
        var g := f + [e];
        assert g[..|g| - 1] == f && g[|g| - 1] == e;
      }
    }
  }

  /** Other rules and other hosts never change what a pair reports, up to alert identifiers. */
  lemma NonInterference(rules: seq<Rule>, es: seq<Event>, next: AlertId, next': AlertId, r: Rule, host: Option<HostId>)
    requires DistinctIds(rules) && r in rules && r.enabled
    ensures var k := Key(r.id, host);
      Erase(Project(Run(EmptyBook(rules), es, next).out, k))
      == Erase(Project(Run(EmptyBook([r]), ForHost(es, host), next').out, k))
  {
    EachPairIsItsOwnMachine(rules, es, next, r, host);
    EachPairIsItsOwnMachine([r], ForHost(es, host), next', r, host);
    ForHostIdempotent(es, host);
  }

  /** A pair that is disabled or absent reports nothing. */
  lemma {:induction false} DisabledPairsAreSilent(rules: seq<Rule>, es: seq<Event>, next: AlertId, k: Key)
    requires forall r :: r in rules && r.id == k.rule ==> !r.enabled
    ensures var run := Run(EmptyBook(rules), es, next);
      run.book.rules == rules && StateAt(run.book.states, k) == QUIET && Project(run.out, k) == []
  {
    if es != [] {
      var es', e := es[..|es| - 1], es[|es| - 1];
      DisabledPairsAreSilent(rules, es', next, k);
      var run := Run(EmptyBook(rules), es', next);
      OthersDoNotMatter(rules, StartPass(run.book, run.next), e, k);
      ProjectConcat(run.out, Evaluate(run.book, e, run.next).out, k);
    }
  }

  /** Creations and clearings alternate, a clearing names the alert just created, `open` is what remains. */
  predicate Alternates(out: seq<Transition>, open: Option<AlertId>) {
    if out == [] then open.None? else
    var t, rest := out[|out| - 1], out[..|out| - 1];
    match t.action
    case Created => open == Some(t.alert.id) && Alternates(rest, None)
    case Cleared => open == None && Alternates(rest, Some(t.alert.id))
  }

  lemma AlternatesStep(r: Rule, s: RuleState, e: Event, id: AlertId, before: seq<Transition>)
    requires Alternates(before, s.active)
    ensures Alternates(before + Emit(r, s, e, id), Advance(r, s, e, id).active)
  {
    var out := Emit(r, s, e, id);
    var whole := before + out;
    if |out| == 1 {
      assert whole[..|whole| - 1] == before && whole[|whole| - 1] == out[0];
    } else {
      assert whole == before;
    }
  }

  lemma {:induction false} RulesStay(b: Book, es: seq<Event>, next: AlertId)
    ensures Run(b, es, next).book.rules == b.rules
  {
    if es != [] { RulesStay(b, es[..|es| - 1], next); }
  }

  lemma {:induction false} EnabledPairAlternates(rules: seq<Rule>, es: seq<Event>, next: AlertId, r: Rule,
                                                 host: Option<HostId>)
    requires DistinctIds(rules) && r in rules && r.enabled
    ensures var run, k := Run(EmptyBook(rules), es, next), Key(r.id, host);
      Alternates(Project(run.out, k), StateAt(run.book.states, k).active)
  {
    if es != [] {
      var es', e := es[..|es| - 1], es[|es| - 1];
      EnabledPairAlternates(rules, es', next, r, host);
      RulesStay(EmptyBook(rules), es', next);
      var run, k := Run(EmptyBook(rules), es', next), Key(r.id, host);
      var start := StartPass(run.book, run.next);
      ProjectConcat(run.out, EvaluateAll(rules, start, e).out, k);
      if e.host == host {
        var id := OneEvent(rules, start, e, r);
        AlternatesStep(r, StateAt(run.book.states, k), e, id, Project(run.out, k));
      } else {
        OthersDoNotMatter(rules, start, e, k);
        assert Project(run.out, k) + [] == Project(run.out, k);
      }
    }
  }

  /** For every pair, creations and clearings alternate and agree on the alert's identifier. */
  lemma PairsAlternate(rules: seq<Rule>, es: seq<Event>, next: AlertId, k: Key)
    requires DistinctIds(rules)
    ensures var run := Run(EmptyBook(rules), es, next);
      Alternates(Project(run.out, k), StateAt(run.book.states, k).active)
  {
    if r :| r in rules && r.id == k.rule && r.enabled {
      EnabledPairAlternates(rules, es, next, r, k.host);
    } else {
      DisabledPairsAreSilent(rules, es, next, k);
    }
  }

  function OpenKeys(states: map<Key, RuleState>): set<Key> {
    set k | k in states && states[k].active.Some?
  }

  lemma {:induction false} PassConserves(rs: seq<Rule>, p: Pass, e: Event)
    requires p.fires == p.resolutions + |OpenKeys(p.states)|
    ensures var q := EvaluateAll(rs, p, e); q.fires == q.resolutions + |OpenKeys(q.states)|
    decreases rs
  {
    if rs != [] {
      var q := EvaluateRule(rs[0], p, e);
      var k := Key(rs[0].id, e.host);
      if rs[0].enabled {
        if q.states[k].active.Some? {
          assert OpenKeys(q.states) == OpenKeys(p.states) + {k};
        } else {
          assert OpenKeys(q.states) == OpenKeys(p.states) - {k};
        }
      }
      PassConserves(rs[1..], q, e);
    }
  }

  /** Fires minus resolutions is the number of alerts open in the engine. */
  lemma {:induction false} FiresAreConserved(rules: seq<Rule>, es: seq<Event>, next: AlertId)
    ensures var b := Run(EmptyBook(rules), es, next).book; b.fires == b.resolutions + |OpenKeys(b.states)|
  {
    if es == [] {
      assert OpenKeys(map[]) == {};
    } else {
      FiresAreConserved(rules, es[..|es| - 1], next);
      var r := Run(EmptyBook(rules), es[..|es| - 1], next);
      PassConserves(r.book.rules, StartPass(r.book, r.next), es[|es| - 1]);
    }
  }

  function CountOf(out: seq<Transition>, action: Action): nat {
    if out == [] then 0 else CountOf(out[..|out| - 1], action) + if out[|out| - 1].action == action then 1 else 0
  }

  lemma {:induction false} CountConcat(a: seq<Transition>, b: seq<Transition>, action: Action)
    ensures CountOf(a + b, action) == CountOf(a, action) + CountOf(b, action)
  {
    if b == [] {
      assert a + b == a;
    } else {
      assert (a + b)[..|a + b| - 1] == a + b[..|b| - 1];
      CountConcat(a, b[..|b| - 1], action);
    }
  }

  function EnabledRules(rs: seq<Rule>): nat {
    if rs == [] then 0 else (if rs[0].enabled then 1 else 0) + EnabledRules(rs[1..])
  }

  lemma RuleCounts(r: Rule, p: Pass, e: Event)
    ensures var q := EvaluateRule(r, p, e);
      && q.evaluations == p.evaluations + (if r.enabled then 1 else 0)
      && q.fires - CountOf(q.out, Created) == p.fires - CountOf(p.out, Created)
      && q.resolutions - CountOf(q.out, Cleared) == p.resolutions - CountOf(p.out, Cleared)
  {
    if r.enabled {
      var out := Emit(r, StateAt(p.states, Key(r.id, e.host)), e, p.next);
      if |out| == 1 { assert out[..0] == []; }
      hide Emit, Advance;
      CountConcat(p.out, out, Created);
      CountConcat(p.out, out, Cleared);
    }
  }

  lemma {:induction false} PassCounts(rs: seq<Rule>, p: Pass, e: Event)
    ensures var q := EvaluateAll(rs, p, e);
      && q.evaluations == p.evaluations + EnabledRules(rs)
      && q.fires - CountOf(q.out, Created) == p.fires - CountOf(p.out, Created)
      && q.resolutions - CountOf(q.out, Cleared) == p.resolutions - CountOf(p.out, Cleared)
    decreases rs
  {
    hide EvaluateRule;
    if rs != [] {
      RuleCounts(rs[0], p, e);
      PassCounts(rs[1..], EvaluateRule(rs[0], p, e), e);
    }
  }

  /** The counters: one evaluation per event and enabled rule, and the numbers of alerts created and cleared. */
  lemma {:induction false} CountersAreExact(rules: seq<Rule>, es: seq<Event>, next: AlertId)
    ensures var run := Run(EmptyBook(rules), es, next);
      && run.book.evaluations == |es| * EnabledRules(rules)
      && run.book.fires == CountOf(run.out, Created) && run.book.resolutions == CountOf(run.out, Cleared)
  {
    if es != [] {
      var n := |es| - 1;
      CountersAreExact(rules, es[..n], next);
      RulesStay(EmptyBook(rules), es[..n], next);
      var run := Run(EmptyBook(rules), es[..n], next);
      var start := StartPass(run.book, run.next);
      PassCounts(rules, start, es[n]);
      var q := EvaluateAll(rules, start, es[n]);
      CountConcat(run.out, q.out, Created);
      CountConcat(run.out, q.out, Cleared);
      assert |es| * EnabledRules(rules) == n * EnabledRules(rules) + EnabledRules(rules);
    }
  }
}
