/** Which side of its threshold a rule watches: what the engine does, said about samples and thresholds alone. */
module Thresholds {
  import opened Common
  import opened Domain
  import opened Rules
  import opened RuleEngine

  /** The value is on the side that the rule names; no value is on the side of an unknown operator. */
  predicate Violates(r: Rule, x: real) {
    && (r.op == Above ==> x > r.threshold)
    && (r.op == AtLeast ==> x >= r.threshold)
    && (r.op == Below ==> x < r.threshold)
    && (r.op == AtMost ==> x <= r.threshold)
    && r.op != Unknown
  }

  lemma HitsMeansViolates(r: Rule, e: Event)
    ensures Hits(r, e) <==> Violates(r, e.Value(r.metric))
  {
  }

  // ----- Rules without duration and cooldown -----

  /** The sample is not older than the start of its run of violations nor than the last alert of the pair before it. */
  predicate Fresh(r: Rule, h: seq<Event>, start: nat, k: nat)
    requires start <= k < |h|
  {
    && h[k].timestamp >= h[start].timestamp
    && (var f := LastFire(r, h, start); f.Some? ==> h[k].timestamp >= h[f.value].timestamp)
  }

  lemma {:induction false} NoFireSince(r: Rule, h: seq<Event>, start: nat, n: nat)
    requires start <= n <= |h| && forall i :: start <= i < n ==> !FiresAt(r, h, i)
    ensures LastFire(r, h, n) == LastFire(r, h, start)
  {
    if start < n { NoFireSince(r, h, start, n - 1); }
  }

  lemma {:induction false} SameRun(r: Rule, h: seq<Event>, k: nat, j: nat)
    requires k <= j < |h| && (forall i :: k <= i <= j ==> Hits(r, h[i])) && RunStart(r, h, j) <= k
    ensures RunStart(r, h, k) == RunStart(r, h, j)
    decreases j
  {
    if k < j { SameRun(r, h, k, j - 1); }
  }

  /** Some sample of the run of violations that the last one belongs to is fresh. */
  ghost predicate FreshInRun(r: Rule, h: seq<Event>)
    requires h != [] && Hits(r, h[|h| - 1])
  {
    var start := RunStart(r, h, |h| - 1);
    exists k :: start <= k < |h| && Fresh(r, h, start, k)
  }

  predicate FiresFrom(r: Rule, h: seq<Event>, start: nat) {
    exists f :: start <= f < |h| && FiresAt(r, h, f)
  }

  /** A fire in that run is a fresh sample, and without one no sample of it is fresh. */
  lemma FireIffFresh(r: Rule, h: seq<Event>)
    requires r.duration == 0.0 && r.cooldown == 0.0 && h != [] && Hits(r, h[|h| - 1])
    ensures FreshInRun(r, h) <==> FiresFrom(r, h, RunStart(r, h, |h| - 1))
  {
    var start := RunStart(r, h, |h| - 1);
    if FiresFrom(r, h, start) {
      var f :| start <= f < |h| && FiresAt(r, h, f);
      SameRun(r, h, f, |h| - 1);
      FiredIsFresh(r, h, start, f);
    } else {
      forall k | start <= k < |h| ensures !Fresh(r, h, start, k) {
        SameRun(r, h, k, |h| - 1);
        NoFireSince(r, h, start, k);
        assert !FiresAt(r, h, k);
      }
    }
  }

  /** The pair has an alert exactly if its last sample violates and some sample of that run of violations is fresh. */
  lemma OpenIffFresh(r: Rule, h: seq<Event>)
    requires r.duration == 0.0 && r.cooldown == 0.0 && h != []
    ensures KeyState(r, h, |h|).active.Some? <==> Hits(r, h[|h| - 1]) && FreshInRun(r, h)
  {
    hide FreshInRun, FiresAt;
    var n := |h|;
    StateIsHistory(r, h, n);
    var active := KeyState(r, h, n).active;
    if active.Some? {
      assert OpenAfter(r, h, active.value, n);
      assert Hits(r, h[n - 1]) by { FiresIsHit(r, h, active.value); }
      RunStartIsLeast(r, h, n - 1, active.value) by { FiresIsHit(r, h, active.value); }
    }
    if Hits(r, h[n - 1]) {
      FireIffFresh(r, h);
      if FiresFrom(r, h, RunStart(r, h, n - 1)) {
        var f :| RunStart(r, h, n - 1) <= f < n && FiresAt(r, h, f);
        assert OpenAfter(r, h, f, n);
      }
    }
  }

  lemma FiresIsHit(r: Rule, h: seq<Event>, f: nat)
    requires f < |h| && FiresAt(r, h, f)
    ensures Hits(r, h[f])
  {
  }

  /** The same in the engine, among other rules and hosts. */
  lemma EngineOpenIffFresh(rules: seq<Rule>, es: seq<Event>, next: AlertId, r: Rule, host: Option<HostId>)
    requires DistinctIds(rules) && r in rules && r.enabled && r.duration == 0.0 && r.cooldown == 0.0
    requires ForHost(es, host) != []
    ensures var open, h := StateAt(Run(EmptyBook(rules), es, next).book.states, Key(r.id, host)).active.Some?, ForHost(es, host);
      var last := |h| - 1;
      open <==> Violates(r, h[last].Value(r.metric)) && Hits(r, h[last]) && FreshInRun(r, h)
  {
    var h := ForHost(es, host);
    EachPairIsItsOwnMachine(rules, es, next, r, host);
    OpenIffFresh(r, h);
    HitsMeansViolates(r, h[|h| - 1]);
  }

  lemma FiredIsFresh(r: Rule, h: seq<Event>, start: nat, f: nat)
    requires start <= f < |h| && FiresAt(r, h, f) && RunStart(r, h, f) == start
    requires r.duration == 0.0 && r.cooldown == 0.0
    ensures Fresh(r, h, start, f)
  {
    var last := LastFire(r, h, f);
    forall i | start <= i < f ensures !FiresAt(r, h, i) { if last.Some? { assert last.value < start; } }
    NoFireSince(r, h, start, f);
  }

  /** A rule without duration and cooldown, after any stream of which the host's last sample is not older than its
      others: the pair has an open alert exactly if that sample is on the named side of the threshold. */
  lemma OpenIffViolated(rules: seq<Rule>, es: seq<Event>, next: AlertId, r: Rule, host: Option<HostId>)
    requires DistinctIds(rules) && r in rules && r.enabled && r.duration == 0.0 && r.cooldown == 0.0
    requires var h := ForHost(es, host); forall i :: 0 <= i < |h| ==> h[i].timestamp <= h[|h| - 1].timestamp
    ensures var open, h := StateAt(Run(EmptyBook(rules), es, next).book.states, Key(r.id, host)).active.Some?, ForHost(es, host);
      && (h == [] ==> !open)
      && (h != [] ==>
            var x := h[|h| - 1].Value(r.metric);
            && (r.op == Above ==> (open <==> x > r.threshold))
            && (r.op == AtLeast ==> (open <==> x >= r.threshold))
            && (r.op == Below ==> (open <==> x < r.threshold))
            && (r.op == AtMost ==> (open <==> x <= r.threshold))
            && (r.op == Unknown ==> !open))
  {
    var h := ForHost(es, host);
    EachPairIsItsOwnMachine(rules, es, next, r, host);
    if h != [] {
      OpenIffFresh(r, h);
      HitsMeansViolates(r, h[|h| - 1]);
      if Hits(r, h[|h| - 1]) { assert Fresh(r, h, RunStart(r, h, |h| - 1), |h| - 1); }
    }
  }

  /** Whatever the order of the timestamps: an open alert's last sample violates. */
  lemma OpenOnlyIfViolated(rules: seq<Rule>, es: seq<Event>, next: AlertId, r: Rule, host: Option<HostId>)
    requires DistinctIds(rules) && r in rules && r.enabled
    requires StateAt(Run(EmptyBook(rules), es, next).book.states, Key(r.id, host)).active.Some?
    ensures var h := ForHost(es, host); h != [] && Violates(r, h[|h| - 1].Value(r.metric))
  {
    var h := ForHost(es, host);
    EachPairIsItsOwnMachine(rules, es, next, r, host);
    StateIsHistory(r, h, |h|);
    if h != [] {
      HitsMeansViolates(r, h[|h| - 1]);
      var active := KeyState(r, h, |h|).active;
      assert OpenAfter(r, h, active.value, |h|);
    }
  }

  /** A sample that is older than the pair's last alert does not open one, although it violates. */
  const WATCH := Rule(1, Cpu, Above, 90.0, 0.0, 0.0, Warning, true)

  function CpuSample(x: real, at: Time): Event {
    Event(None, at, x, 0.0, 0.0, 0.0, 0.0, 0.0, 0.0)
  }

  lemma OldSampleDoesNotOpen()
    ensures var h := [CpuSample(97.0, 10.0), CpuSample(40.0, 11.0), CpuSample(97.0, 9.0)];
      Violates(WATCH, h[2].Value(Cpu)) && KeyState(WATCH, h, 3).active.None?
  {
    var h := [CpuSample(97.0, 10.0), CpuSample(40.0, 11.0), CpuSample(97.0, 9.0)];
    assert KeyState(WATCH, h, 1) == RuleState(Some(10.0), Some(10.0), Some(0));
    assert KeyState(WATCH, h, 2) == RuleState(None, Some(10.0), None);
  }

  // ----- What every alert of a rule says -----

  /** The transition is of this rule and this sample: its alert says what they say, and on which side the sample is. */
  predicate Reports(t: Transition, r: Rule, e: Event) {
    var a, x := t.alert, e.Value(r.metric);
    && r.enabled && a.rule == Some(r.id) && a.source == FromRule && a.subject == OfMetric(r.metric)
    && a.host == e.host && a.service.None? && !a.acknowledged
    && a.timestamp == e.timestamp && a.value == x && a.baseline == r.threshold && a.severity == r.severity
    && (t.action == Created ==> Violates(r, x) && !a.resolved && a.resolvedAt.None?)
    && (t.action == Cleared ==> !Violates(r, x) && a.resolved && a.resolvedAt == Some(e.timestamp))
  }

  ghost predicate Reported(t: Transition, rules: seq<Rule>, es: seq<Event>) {
    exists r, e :: r in rules && e in es && Reports(t, r, e)
  }

  lemma {:induction false} PassReports(rs: seq<Rule>, p: Pass, e: Event)
    ensures var q := EvaluateAll(rs, p, e);
      |p.out| <= |q.out| && q.out[..|p.out|] == p.out
      && forall i :: |p.out| <= i < |q.out| ==> Reported(q.out[i], rs, [e])
    decreases rs
  {
    if rs != [] {
      var r, p1, q := rs[0], EvaluateRule(rs[0], p, e), EvaluateAll(rs, p, e);
      PassReports(rs[1..], p1, e);
      forall i | |p.out| <= i < |q.out| ensures Reported(q.out[i], rs, [e]) {
        if i < |p1.out| {
          var out := Emit(r, StateAt(p.states, Key(r.id, e.host)), e, p.next);
          assert q.out[i] == p1.out[i] == out[0];
          HitsMeansViolates(r, e);
          assert e in [e] && Reports(out[0], r, e);
        } else {
          assert Reported(q.out[i], rs[1..], [e]);
          var s, f :| s in rs[1..] && f in [e] && Reports(q.out[i], s, f);
          assert s in rs;
        }
      }
    }
  }

  /** Whatever durations and cooldowns: every alert that is created carries a sample on the named side of its rule's
      threshold, every alert that is cleared one that is not, with its time, the threshold and the rule's severity. */
  lemma {:induction false} TransitionsReportSamples(rules: seq<Rule>, es: seq<Event>, next: AlertId)
    ensures forall t :: t in Run(EmptyBook(rules), es, next).out ==> Reported(t, rules, es)
  {
    RulesStay(EmptyBook(rules), es, next);
    if es != [] {
      var n := |es| - 1;
      var run := Run(EmptyBook(rules), es[..n], next);
      RulesStay(EmptyBook(rules), es[..n], next);
      TransitionsReportSamples(rules, es[..n], next);
      PassReports(rules, StartPass(run.book, run.next), es[n]);
      var q := Evaluate(run.book, es[n], run.next);
      forall t | t in run.out + q.out ensures Reported(t, rules, es) {
        if t in run.out {
          var r, e :| r in rules && e in es[..n] && Reports(t, r, e);
          assert e in es;
        } else {
          var i :| 0 <= i < |q.out| && q.out[i] == t;
          var r, e :| r in rules && e in [es[n]] && Reports(t, r, e);
          assert e in es;
        }
      }
    }
  }
}
