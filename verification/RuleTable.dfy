/** Where reloads get their rules from: the table of rules, the handlers that change it and read it, and the threads on
    which a reload can stall between its query and loading the rows. */
module RuleTable {
  import opened Common
  import opened Domain
  import opened Rules
  import Detector
  import opened Persistence
  import opened Manager
  import opened Runs
  import opened Lifetimes
  import LostAlerts

  /** What happens to the table and the manager: rules are created, changed and deleted, handlers read the table, and
      load what they read; `Else` is any other input of the manager. */
  datatype Act =
    | Inserted(rule: Rule)
    | Updated(rule: Rule)
    | Removed(id: RuleId)
    | Read(handler: nat, rows: seq<RuleRow>)
    | Applied(handler: nat)
    | Else(input: Input)

  /** What a handler read, and when. */
  datatype View = View(rows: seq<RuleRow>, at: nat)

  /** `born` and `died` say when each rule was inserted and deleted; `inputs` is what the manager got, and `ats` when the
      rows of each reload were read. */
  datatype World = World(
    table: map<RuleId, Rule>, born: map<RuleId, nat>, died: map<RuleId, nat>, now: nat,
    views: map<nat, View>, inputs: seq<Input>, ats: seq<nat>)

  const EMPTY := World(map[], map[], map[], 0, map[], [], [])

  /** The rows of the table, in any order; the metric of a rule is always a known one. */
  ghost predicate Lists(table: map<RuleId, Rule>, rows: seq<RuleRow>) {
    && (forall row :: row in rows ==> row.known && row.rule.id in table && table[row.rule.id] == row.rule)
    && (forall id :: id in table ==> RuleRow(table[id], true) in rows)
  }

  /** Identifiers are random: an inserted rule has one that no rule ever had. */
  ghost predicate Enabled(w: World, act: Act) {
    match act
    case Inserted(r) => r.id !in w.born
    case Updated(r) => r.id in w.table
    case Removed(id) => id in w.table
    case Read(_, rows) => Lists(w.table, rows)
    case Applied(h) => h in w.views
    case Else(i) => !i.Rows?
  }

  function Given(w: World, i: Input, at: nat): World {
    w.(inputs := w.inputs + [i], ats := w.ats + [at])
  }

  function After(w: World, act: Act): World {
    var n := w.(now := w.now + 1);
    match act
    case Inserted(r) => n.(table := w.table[r.id := r], born := w.born[r.id := w.now])
    case Updated(r) => n.(table := w.table[r.id := r])
    case Removed(id) =>
      Given(n.(table := w.table - {id}, died := w.died[id := w.now]), WorkerTurn(Deletion(ToRule(id))), w.now)
    case Read(h, rows) => n.(views := w.views[h := View(rows, w.now)])
    case Applied(h) => if h in w.views then Given(n, Rows(w.views[h].rows), w.views[h].at) else n
    case Else(i) => Given(n, i, w.now)
  }

  function Reached(acts: seq<Act>): World {
    if acts == [] then EMPTY else After(Reached(acts[..|acts| - 1]), acts[|acts| - 1])
  }

  ghost predicate Possible(acts: seq<Act>) {
    acts == [] || (Possible(acts[..|acts| - 1]) && Enabled(Reached(acts[..|acts| - 1]), acts[|acts| - 1]))
  }

  /** Reloads load their rows in the order in which they read them. */
  predicate InOrder(w: World)
    requires |w.ats| == |w.inputs|
  {
    forall i, j :: 0 <= i < j < |w.inputs| && w.inputs[i].Rows? && w.inputs[j].Rows? ==> w.ats[i] <= w.ats[j]
  }

  /** Every reload reads and loads its rows in one step. */
  predicate AtOnce(acts: seq<Act>) {
    forall i :: 0 <= i < |acts| && acts[i].Applied? ==> i > 0 && acts[i - 1].Read? && acts[i - 1].handler == acts[i].handler
  }

  // ----- What the rows of a reload say -----

  /** The rule was in the table at that time. */
  predicate Alive(w: World, id: RuleId, at: nat) {
    id in w.born && w.born[id] < at && (id in w.died ==> w.died[id] >= at)
  }

  ghost predicate Describes(w: World, rows: seq<RuleRow>, at: nat) {
    at <= w.now && forall id :: HasRule(Known(rows), id) <==> Alive(w, id, at)
  }

  ghost predicate Good(w: World) {
    && |w.ats| == |w.inputs|
    && (forall id :: id in w.table <==> id in w.born && id !in w.died)
    && (forall id :: id in w.born ==> w.born[id] < w.now)
    && (forall id :: id in w.died ==> id in w.born && w.died[id] < w.now)
    && (forall h :: h in w.views ==> Describes(w, w.views[h].rows, w.views[h].at))
    && (forall i :: 0 <= i < |w.inputs| && w.inputs[i].Rows? ==> Describes(w, w.inputs[i].rows, w.ats[i]))
  }

  lemma ListsKnown(table: map<RuleId, Rule>, rows: seq<RuleRow>, id: RuleId)
    requires Lists(table, rows) && forall k :: k in table ==> table[k].id == k
    ensures HasRule(Known(rows), id) <==> id in table
  {
    if id in table { assert table[id] in Known(rows); }
  }

  /** Rules are filed under their identifiers. */
  predicate Filed(w: World) {
    forall k :: k in w.table ==> w.table[k].id == k
  }

  lemma AfterDescribes(w: World, act: Act, rows: seq<RuleRow>, at: nat)
    requires Good(w) && Enabled(w, act) && Describes(w, rows, at)
    ensures Describes(After(w, act), rows, at)
  {
    hide HasRule, Known, Lists;
    forall id ensures HasRule(Known(rows), id) <==> Alive(After(w, act), id, at) {
      assert HasRule(Known(rows), id) <==> Alive(w, id, at);
    }
  }

  lemma ReadDescribes(w: World, handler: nat, rows: seq<RuleRow>)
    requires Good(w) && Filed(w) && Lists(w.table, rows)
    ensures Describes(After(w, Read(handler, rows)), rows, w.now)
  {
    hide HasRule, Known, Lists;
    forall id ensures HasRule(Known(rows), id) <==> Alive(After(w, Read(handler, rows)), id, w.now) {
      ListsKnown(w.table, rows, id);
    }
  }

  lemma AfterIsGood(w: World, act: Act)
    requires Good(w) && Filed(w) && Enabled(w, act)
    ensures Good(After(w, act)) && Filed(After(w, act))
  {
    hide HasRule, Known, Lists, Describes, Alive;
    var w' := After(w, act);
    forall h | h in w'.views ensures Describes(w', w'.views[h].rows, w'.views[h].at) {
      if act.Read? && act.handler == h {
        ReadDescribes(w, h, act.rows);
      } else {
        AfterDescribes(w, act, w.views[h].rows, w.views[h].at);
      }
    }
    forall i | 0 <= i < |w'.inputs| && w'.inputs[i].Rows? ensures Describes(w', w'.inputs[i].rows, w'.ats[i]) {
      if i < |w.inputs| { AfterDescribes(w, act, w.inputs[i].rows, w.ats[i]); }
      else { AfterDescribes(w, act, w.views[act.handler].rows, w.views[act.handler].at); }
    }
  }

  lemma {:induction false} ReachedIsGood(acts: seq<Act>)
    requires Possible(acts)
    ensures Good(Reached(acts)) && Filed(Reached(acts))
  {
    hide Good, Filed, Enabled, After;
    if acts == [] {
      EmptyIsGood();
    } else {
      ReachedIsGood(acts[..|acts| - 1]);
      AfterIsGood(Reached(acts[..|acts| - 1]), acts[|acts| - 1]);
    }
  }

  lemma EmptyIsGood()
    ensures Good(EMPTY) && Filed(EMPTY)
  {
  }

  // ----- No deleted rule returns -----

  /** If reloads load their rows in the order in which they read them, no deleted rule ever comes back. */
  lemma NoRuleReturns(acts: seq<Act>)
    requires Possible(acts) && |Reached(acts).ats| == |Reached(acts).inputs| && InOrder(Reached(acts))
    ensures NeverReturns(Reached(acts).inputs)
  {
    hide Reached, Possible, HasRule, Known;
    var w := Reached(acts);
    ReachedIsGood(acts);
    forall id, i, j, k | 0 <= i < j < k < |w.inputs| && Loads(w.inputs[i], id) && Lacks(w.inputs[j], id)
      ensures !Loads(w.inputs[k], id)
    {
      assert Describes(w, w.inputs[i].rows, w.ats[i]) && Describes(w, w.inputs[j].rows, w.ats[j]);
      assert Alive(w, id, w.ats[i]) && !Alive(w, id, w.ats[j]);
      if w.inputs[k].Rows? { assert Describes(w, w.inputs[k].rows, w.ats[k]) && !Alive(w, id, w.ats[k]); }
    }
  }

  /** The rows loaded so far were read before the last act. */
  predicate Past(w: World) {
    && |w.ats| == |w.inputs|
    && forall i :: 0 <= i < |w.inputs| && w.inputs[i].Rows? ==> w.ats[i] + 1 < w.now
  }

  lemma {:induction false} AtOnceIsInOrder(acts: seq<Act>)
    requires Possible(acts) && AtOnce(acts)
    ensures Past(Reached(acts)) && InOrder(Reached(acts)) && Reached(acts).now == |acts|
    ensures acts != [] && acts[|acts| - 1].Read? ==>
      var h := acts[|acts| - 1].handler; h in Reached(acts).views && Reached(acts).views[h].at == |acts| - 1
  {
    hide Enabled, Past, InOrder, After;
    if acts == [] {
      assert Past(EMPTY) && InOrder(EMPTY) by { EmptyIsInOrder(); }
    } else {
      var n := |acts| - 1;
      assert AtOnce(acts[..n]) by {
        forall i | 0 <= i < n && acts[i].Applied?
          ensures i > 0 && acts[..n][i - 1].Read? && acts[..n][i - 1].handler == acts[i].handler
        {
          assert acts[i - 1].Read?;
        }
      }
      AtOnceIsInOrder(acts[..n]);
      var w, act := Reached(acts[..n]), acts[n];
      if act.Applied? { assert acts[..n][n - 1] == acts[n - 1]; }
      InOrderAfter(w, act);
      Clock(w, act);
    }
  }

  lemma EmptyIsInOrder()
    ensures Past(EMPTY) && InOrder(EMPTY)
  {
  }

  lemma Clock(w: World, act: Act)
    ensures After(w, act).now == w.now + 1
    ensures act.Read? ==> After(w, act).views == w.views[act.handler := View(act.rows, w.now)]
  {
  }

  lemma InOrderAfter(w: World, act: Act)
    requires Past(w) && InOrder(w)
    requires act.Applied? ==> act.handler in w.views && w.views[act.handler].at + 1 == w.now
    requires Enabled(w, act)
    ensures Past(After(w, act)) && InOrder(After(w, act))
  {
  }

  /** So if every reload reads and loads its rows in one step, the active alerts, the rule engine and the incidents
      agree after every run, whatever happens to the rules. */
  lemma AgreementFromTheTable(d: Detector.State, home: Option<HostId>, ac: nat, ic: nat, acts: seq<Act>)
    requires d.minHistory >= 1 && Possible(acts) && AtOnce(acts)
    ensures InAgreement(Run(Initial(d, home, ac, ic), Reached(acts).inputs))
  {
    hide InAgreement, NeverReturns, Run, Initial, InOrder, Possible, Reached;
    AtOnceIsInOrder(acts);
    NoRuleReturns(acts);
    ThreeWayAgreement(d, home, ac, ic, Reached(acts).inputs);
  }

  // ----- A reload that stalls -----

  function Checks(n: nat): seq<Act> {
    seq(n, (i: nat) => Else(LostAlerts.FailedCheck(i)))
  }

  /** Handler 1 reads the rule before it is deleted, and loads it after two other reloads. */
  const BEFORE: seq<Act> := [
    Inserted(LostAlerts.RULE), Read(0, LostAlerts.ROWS), Applied(0), Else(Telemetry(LostAlerts.SAMPLE, 0.0)),
    Read(1, LostAlerts.ROWS), Removed(1), Read(2, []), Applied(2)]

  const STALE: seq<Act> := [Read(3, []), Applied(3), Applied(1), Else(Telemetry(LostAlerts.SAMPLE, 1.0))]

  function StalledRun(): seq<Act> {
    BEFORE + Checks(500) + STALE
  }

  lemma OneAct(acts: seq<Act>, act: Act)
    requires Possible(acts) && Enabled(Reached(acts), act)
    ensures Possible(acts + [act]) && Reached(acts + [act]) == After(Reached(acts), act)
  {
    hide Enabled, After;
    assert (acts + [act])[..|acts|] == acts;
  }

  lemma {:induction false} MoreChecks(acts: seq<Act>, n: nat)
    requires Possible(acts)
    ensures Possible(acts + Checks(n))
    ensures var w := Reached(acts); var w' := Reached(acts + Checks(n));
      w' == w.(now := w'.now, inputs := w.inputs + LostAlerts.FailedChecks(n), ats := w'.ats)
  {
    hide Reached, Possible;
    if n == 0 {
      assert acts + Checks(0) == acts && Reached(acts).inputs + LostAlerts.FailedChecks(0) == Reached(acts).inputs;
    } else {
      MoreChecks(acts, n - 1);
      OneAct(acts + Checks(n - 1), Else(LostAlerts.FailedCheck(n - 1)));
      assert acts + Checks(n - 1) + [Else(LostAlerts.FailedCheck(n - 1))] == acts + Checks(n);
      assert LostAlerts.FailedChecks(n - 1) + [LostAlerts.FailedCheck(n - 1)] == LostAlerts.FailedChecks(n);
    }
  }

  lemma FourActs(acts: seq<Act>, a: Act, b: Act, c: Act, d: Act)
    requires Possible(acts) && Enabled(Reached(acts), a) && Enabled(After(Reached(acts), a), b)
    requires Enabled(After(After(Reached(acts), a), b), c) && Enabled(After(After(After(Reached(acts), a), b), c), d)
    ensures Possible(acts + [a, b, c, d])
    ensures Reached(acts + [a, b, c, d]) == After(After(After(After(Reached(acts), a), b), c), d)
  {
    hide Enabled, After, Possible, Reached;
    OneAct(acts, a);
    OneAct(acts + [a], b);
    OneAct(acts + [a] + [b], c);
    OneAct(acts + [a] + [b] + [c], d);
    assert acts + [a] + [b] + [c] + [d] == acts + [a, b, c, d];
  }

  /** The table with the rule in it, loaded once, after its first match. */
  const LOADED := World(
    map[1 := LostAlerts.RULE], map[1 := 0], map[], 4, map[0 := View(LostAlerts.ROWS, 1)],
    [Rows(LostAlerts.ROWS), Telemetry(LostAlerts.SAMPLE, 0.0)], [1, 3])

  lemma LoadedOnce()
    ensures Possible(BEFORE[..4]) && Reached(BEFORE[..4]) == LOADED
  {
    hide Reached, Possible;
    NothingYet();
    var w1 := After(EMPTY, BEFORE[0]);
    assert w1 == World(map[1 := LostAlerts.RULE], map[1 := 0], map[], 1, map[], [], []);
    assert Lists(w1.table, LostAlerts.ROWS);
    FourActs([], BEFORE[0], BEFORE[1], BEFORE[2], BEFORE[3]);
    assert [] + [BEFORE[0], BEFORE[1], BEFORE[2], BEFORE[3]] == BEFORE[..4];
  }

  lemma BeforeTheChecks()
    ensures Possible(BEFORE)
    ensures var w := Reached(BEFORE);
      && w.table == map[] && 1 in w.views && w.views[1].rows == LostAlerts.ROWS
      && w.inputs == [Rows(LostAlerts.ROWS), Telemetry(LostAlerts.SAMPLE, 0.0), LostAlerts.RULE_DELETED, Rows([])]
  {
    hide Reached, Possible;
    LoadedOnce();
    assert Lists(LOADED.table, LostAlerts.ROWS) && Lists(map[], []);
    var w6 := After(After(LOADED, BEFORE[4]), BEFORE[5]);
    assert w6.table == map[];
    FourActs(BEFORE[..4], BEFORE[4], BEFORE[5], BEFORE[6], BEFORE[7]);
    assert BEFORE[..4] + [BEFORE[4], BEFORE[5], BEFORE[6], BEFORE[7]] == BEFORE;
  }

  lemma NothingYet()
    ensures Possible([]) && Reached([]) == EMPTY
  {
  }

  /** The run of `LostAlerts` is what the manager gets when one reload stalls between its query and loading the rows: the
      agreement is lost. */
  lemma AStalledReloadLosesTheAgreement()
    ensures Possible(StalledRun()) && Reached(StalledRun()).inputs == LostAlerts.LosingRun()
    ensures !InAgreement(Run(LostAlerts.Start0(), Reached(StalledRun()).inputs))
  {
    hide Reached, Possible, Run, InAgreement;
    BeforeTheChecks();
    MoreChecks(BEFORE, 500);
    var a := BEFORE + Checks(500);
    assert Lists(map[], []);
    FourActs(a, STALE[0], STALE[1], STALE[2], STALE[3]);
    assert a + [STALE[0], STALE[1], STALE[2], STALE[3]] == StalledRun();
    assert Reached(StalledRun()).inputs == Reached(a).inputs + LostAlerts.LAST;
    LostAlerts.AgreementCanBeLost();
    NotInAgreement(Run(LostAlerts.Start0(), LostAlerts.LosingRun()));
  }

  lemma NotInAgreement(m: State)
    requires exists a :: a in ActiveInIncidents(m.rt.ledger) - m.active.Values
    ensures !InAgreement(m)
  {
  }
}
