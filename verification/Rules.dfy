/** The threshold-rule engine: one timed state machine per (rule, host) pair. */
module Rules {
  import opened Common
  import opened Domain

  datatype RuleState = RuleState(since: Option<Time>, fired: Option<Time>, active: Option<AlertId>)

  const QUIET := RuleState(None, None, None)

  datatype Key = Key(rule: RuleId, host: Option<HostId>)

  datatype Action = Created | Cleared

  datatype Transition = Transition(alert: Alert, action: Action)

  predicate Matches(value: real, op: Operator, threshold: real) {
    match op
    case Above => value > threshold
    case AtLeast => value >= threshold
    case Below => value < threshold
    case AtMost => value <= threshold
    case Unknown => false
  }

  predicate Hits(r: Rule, e: Event) {
    Matches(e.Value(r.metric), r.op, r.threshold)
  }

  function AlertFor(r: Rule, e: Event, id: AlertId, resolved: bool): Alert {
    Alert(id, e.timestamp, OfMetric(r.metric), e.Value(r.metric), r.threshold, r.severity,
          resolved, if resolved then Some(e.timestamp) else None, false,
          e.host, None, FromRule, Some(r.id), None)
  }

  /** May an alert be created for `r` at a matching event, given the state with `since` filled in? */
  predicate Due(r: Rule, s: RuleState, e: Event)
    requires s.since.Some?
  {
    && s.active.None?
    && e.timestamp - s.since.value >= r.duration
    && (s.fired.Some? ==> e.timestamp - s.fired.value >= r.cooldown)
  }

  /** One evaluation of one rule for one host; `id` is used only if an alert is created. */
  function Advance(r: Rule, s: RuleState, e: Event, id: AlertId): RuleState {
    if Hits(r, e) then
      var t := if s.since.None? then s.(since := Some(e.timestamp)) else s;
      if Due(r, t, e) then RuleState(t.since, Some(e.timestamp), Some(id)) else t
    else
      RuleState(None, s.fired, None)
  }

  function Emit(r: Rule, s: RuleState, e: Event, id: AlertId): seq<Transition> {
    if Hits(r, e) then
      var t := if s.since.None? then s.(since := Some(e.timestamp)) else s;
      if Due(r, t, e) then [Transition(AlertFor(r, e, id, false), Created)] else []
    else if s.active.Some? then
      [Transition(AlertFor(r, e, s.active.value, true), Cleared)]
    else
      []
  }

  function StateAt(states: map<Key, RuleState>, k: Key): RuleState {
    if k in states then states[k] else QUIET
  }

  /** The engine's fields, as a value. */
  datatype Book = Book(
    rules: seq<Rule>, states: map<Key, RuleState>,
    evaluations: nat, fires: nat, resolutions: nat)

  /** What the loop of `evaluate` carries from rule to rule. */
  datatype Pass = Pass(
    states: map<Key, RuleState>, out: seq<Transition>,
    evaluations: nat, fires: nat, resolutions: nat, next: AlertId)

  function EvaluateRule(r: Rule, p: Pass, e: Event): Pass {
    if !r.enabled then p else
    var s := StateAt(p.states, Key(r.id, e.host));
    var out := Emit(r, s, e, p.next);
    var created := |out| == 1 && out[0].action == Created;
    var cleared := |out| == 1 && out[0].action == Cleared;
    Pass(p.states[Key(r.id, e.host) := Advance(r, s, e, p.next)],
         p.out + out,
         p.evaluations + 1,
         p.fires + (if created then 1 else 0),
         p.resolutions + (if cleared then 1 else 0),
         p.next + (if created then 1 else 0))
  }

  function EvaluateAll(rs: seq<Rule>, p: Pass, e: Event): Pass {
    if rs == [] then p else EvaluateAll(rs[1..], EvaluateRule(rs[0], p, e), e)
  }

  function StartPass(b: Book, next: AlertId): Pass {
    Pass(b.states, [], b.evaluations, b.fires, b.resolutions, next)
  }

  function EndPass(b: Book, p: Pass): Book {
    Book(b.rules, p.states, p.evaluations, p.fires, p.resolutions)
  }

  /** `evaluate`: every enabled rule, in order, for one event. */
  function Evaluate(b: Book, e: Event, next: AlertId): Pass {
    EvaluateAll(b.rules, StartPass(b, next), e)
  }

  predicate HasRule(rs: seq<Rule>, id: RuleId) {
    exists r :: r in rs && r.id == id
  }

  predicate DistinctIds(rs: seq<Rule>) {
    forall i, j :: 0 <= i < j < |rs| ==> rs[i].id != rs[j].id
  }

  /** The rules of a table whose metric the engine knows, in order. */
  function Known(rows: seq<RuleRow>): (rs: seq<Rule>)
    ensures forall r :: r in rs <==> RuleRow(r, true) in rows
  {
    if rows == [] then []
    else if rows[0].known then [rows[0].rule] + Known(rows[1..])
    else Known(rows[1..])
  }

  predicate DistinctRows(rows: seq<RuleRow>) {
    forall i, j :: 0 <= i < j < |rows| ==> rows[i].rule.id != rows[j].rule.id
  }

  function LoadRules(b: Book, rows: seq<RuleRow>): Book {
    var rs := Known(rows);
    b.(rules := rs, states := map k | k in b.states && HasRule(rs, k.rule) :: b.states[k])
  }

  /** `hydrate_active_alerts`: later alerts of the list overwrite earlier ones. */
  function HydrateActive(states: map<Key, RuleState>, alerts: seq<Alert>): map<Key, RuleState>
    decreases |alerts|
  {
    if alerts == [] then states else
    var a := alerts[0];
    var next :=
      if a.source == FromRule && a.rule.Some? then
        states[Key(a.rule.value, a.host) := RuleState(Some(a.timestamp), Some(a.timestamp), Some(a.id))]
      else states;
    HydrateActive(next, alerts[1..])
  }

  lemma {:induction false} KnownDistinct(rows: seq<RuleRow>)
    requires DistinctRows(rows)
    ensures DistinctIds(Known(rows))
  {
    if rows != [] {
      KnownDistinct(rows[1..]);
      if rows[0].known {
        var rest := Known(rows[1..]);
        forall j | 0 <= j < |rest| ensures rest[j].id != rows[0].rule.id {
          assert rest[j] in rest;
        }
      }
    }
  }

  // ----- Reference: what the history of one (rule, host) pair says -----

  /** Index of the first event of the matching run that ends at `k`. */
  function RunStart(r: Rule, h: seq<Event>, k: nat): (s: nat)
    requires k < |h| && Hits(r, h[k])
    ensures s <= k && (forall i :: s <= i <= k ==> Hits(r, h[i]))
    ensures s > 0 ==> !Hits(r, h[s - 1])
  {
    if k > 0 && Hits(r, h[k - 1]) then RunStart(r, h, k - 1) else k
  }

  /** Latest event before `n` at which the rule fired. */
  function LastFire(r: Rule, h: seq<Event>, n: nat): (f: Option<nat>)
    requires n <= |h|
    ensures f.Some? ==> f.value < n && FiresAt(r, h, f.value)
    ensures f.None? ==> forall j :: 0 <= j < n ==> !FiresAt(r, h, j)
    ensures f.Some? ==> forall j :: f.value < j < n ==> !FiresAt(r, h, j)
    decreases n, 0
  {
    if n == 0 then None
    else if FiresAt(r, h, n - 1) then Some(n - 1)
    else LastFire(r, h, n - 1)
  }

  /** The rule fires at event `k`: it matches, has not fired in this run, and is old and cool enough. */
  predicate FiresAt(r: Rule, h: seq<Event>, k: nat)
    requires k < |h|
    decreases k, 1
  {
    && Hits(r, h[k])
    && (var start := RunStart(r, h, k);
        var last := LastFire(r, h, k);
        && h[k].timestamp - h[start].timestamp >= r.duration
        && (last.Some? ==> last.value < start && h[k].timestamp - h[last.value].timestamp >= r.cooldown))
  }

  /** The machine run over the first `n` events of one host; alerts are named after their event. */
  function KeyState(r: Rule, h: seq<Event>, n: nat): RuleState
    requires n <= |h|
  {
    if n == 0 then QUIET else Advance(r, KeyState(r, h, n - 1), h[n - 1], n - 1)
  }

  /** Is the alert created at event `f` still open after `n` events? */
  predicate OpenAfter(r: Rule, h: seq<Event>, f: nat, n: nat)
    requires n <= |h|
  {
    f < n && FiresAt(r, h, f) && forall i :: f < i < n ==> Hits(r, h[i])
  }

  lemma {:induction false} RunStartIsLeast(r: Rule, h: seq<Event>, k: nat, j: nat)
    requires k < |h| && j <= k && forall i :: j <= i <= k ==> Hits(r, h[i])
    ensures RunStart(r, h, k) <= j
  {
    if j < k { RunStartIsLeast(r, h, k - 1, j); }
  }

  /** Every field of the state is determined by the history of matches and timestamps. */
  lemma {:induction false} StateIsHistory(r: Rule, h: seq<Event>, n: nat)
    requires n <= |h|
    ensures var s := KeyState(r, h, n);
      && s.since == (if n > 0 && Hits(r, h[n - 1]) then Some(h[RunStart(r, h, n - 1)].timestamp) else None)
      && s.fired == (var f := LastFire(r, h, n); if f.Some? then Some(h[f.value].timestamp) else None)
      && (forall f: nat :: s.active == Some(f) <==> OpenAfter(r, h, f, n))
  {
    if n > 0 {
      StateIsHistory(r, h, n - 1);
      var s, t := KeyState(r, h, n - 1), KeyState(r, h, n);
      var e := h[n - 1];
      if Hits(r, e) {
        var start, last := RunStart(r, h, n - 1), LastFire(r, h, n - 1);
        assert t.since == Some(h[start].timestamp);
        if last.Some? {
          assert OpenAfter(r, h, last.value, n - 1) <==> start <= last.value by {
            if OpenAfter(r, h, last.value, n - 1) { RunStartIsLeast(r, h, n - 1, last.value); }
          }
        }
        assert forall f: nat :: s.active == Some(f) ==> last == Some(f);
        assert FiresAt(r, h, n - 1) <==> s.active.None? && Due(r, s.(since := t.since), e);
        forall f: nat ensures t.active == Some(f) <==> OpenAfter(r, h, f, n) {
          if f < n - 1 { assert OpenAfter(r, h, f, n) <==> OpenAfter(r, h, f, n - 1); }
        }
      }
    }
  }

  /** An alert is created exactly at the firing events, and cleared exactly at the first miss after one. */
  lemma {:induction false} TransitionsAreHistory(r: Rule, h: seq<Event>, n: nat)
    requires n < |h|
    ensures var out := Emit(r, KeyState(r, h, n), h[n], n);
      && (out == [Transition(AlertFor(r, h[n], n, false), Created)] <==> FiresAt(r, h, n))
      && (forall f: nat :: out == [Transition(AlertFor(r, h[n], f, true), Cleared)] <==>
                      OpenAfter(r, h, f, n) && !Hits(r, h[n]))
      && (out == [] <==> !FiresAt(r, h, n) && (Hits(r, h[n]) || forall f: nat :: !OpenAfter(r, h, f, n)))
  {
    StateIsHistory(r, h, n);
    StateIsHistory(r, h, n + 1);
    var s := KeyState(r, h, n);
    if s.active.Some? { assert OpenAfter(r, h, s.active.value, n); }
    if FiresAt(r, h, n) { assert OpenAfter(r, h, n, n + 1); }
    else if Hits(r, h[n]) {
      assert !OpenAfter(r, h, n, n + 1);
      assert KeyState(r, h, n + 1).active != Some(n);
    }
    forall f: nat
      ensures Emit(r, s, h[n], n) == [Transition(AlertFor(r, h[n], f, true), Cleared)] <==>
              OpenAfter(r, h, f, n) && !Hits(r, h[n])
    {
      if Emit(r, s, h[n], n) == [Transition(AlertFor(r, h[n], f, true), Cleared)] {
        assert Emit(r, s, h[n], n)[0].alert.id == f;
      }
    }
  }

  /** Fires are a cooldown apart, whatever the order of the timestamps. */
  lemma {:induction false} FiresAreSpaced(r: Rule, h: seq<Event>, i: nat, j: nat)
    requires i < j < |h| && FiresAt(r, h, i) && FiresAt(r, h, j) && r.cooldown >= 0.0
    ensures h[j].timestamp - h[i].timestamp >= r.cooldown
    decreases j
  {
    var last := LastFire(r, h, j);
    assert last.Some? && i <= last.value;
    if i < last.value { FiresAreSpaced(r, h, i, last.value); }
  }

  lemma {:induction false} FirstMiss(r: Rule, h: seq<Event>, i: nat, m: nat) returns (c: nat)
    requires i < m < |h| && !Hits(r, h[m])
    ensures i < c <= m && !Hits(r, h[c]) && forall k :: i < k < c ==> Hits(r, h[k])
    decreases m - i
  {
    if Hits(r, h[i + 1]) { c := FirstMiss(r, h, i + 1, m); } else { c := i + 1; }
  }

  /** Between two creations the first alert is cleared: creations and clearings alternate. */
  lemma {:induction false} ClearedBetweenFires(r: Rule, h: seq<Event>, i: nat, j: nat)
    requires i < j < |h| && FiresAt(r, h, i) && FiresAt(r, h, j)
    ensures exists m :: i < m < j && OpenAfter(r, h, i, m) && !Hits(r, h[m])
  {
    var last := LastFire(r, h, j);
    assert i <= last.value < RunStart(r, h, j);
    var m := RunStart(r, h, j) - 1;
    assert i < m by {
      assert Hits(r, h[last.value]) && !Hits(r, h[m]);
    }
    var c := FirstMiss(r, h, i, m);
    assert OpenAfter(r, h, i, c);
  }
}
