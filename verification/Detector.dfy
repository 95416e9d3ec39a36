/** `AnomalyDetector`: one bounded history per host and metric, and what whole streams guarantee. */
module Detector {
  import opened Common
  import opened Domain
  import opened Anomaly

  datatype Series = Series(host: Option<HostId>, metric: Metric)

  /** The detector's fields, as a value. An empty window is never judged: `minHistory` is at least 1. */
  datatype State = State(threshold: real, windowSize: nat, minHistory: nat, history: map<Series, seq<real>>)

  const METRICS: seq<Metric> := [Cpu, Memory, Temperature, NetworkMbps, RequestsPerSecond, ErrorRate, LatencyMs]

  /** The last `k` elements, or all of them. */
  function Suffix(s: seq<real>, k: nat): (t: seq<real>)
    ensures |t| == if |s| <= k then |s| else k
  {
    if |s| <= k then s else s[|s| - k..]
  }

  function HistoryAt(d: State, k: Series): seq<real> {
    if k in d.history then d.history[k] else []
  }

  /** A `deque(maxlen=windowSize)` after an append. */
  function Pushed(d: State, k: Series, x: real): seq<real> {
    Suffix(HistoryAt(d, k) + [x], d.windowSize)
  }

  datatype Pass = Pass(state: State, verdicts: seq<Verdict>)

  function ObserveMetric(m: Metric, p: Pass, e: Event): Pass
    requires p.state.minHistory >= 1
  {
    var w := Pushed(p.state, Series(e.host, m), e.Value(m));
    Pass(p.state.(history := p.state.history[Series(e.host, m) := w]),
         p.verdicts + [Judge(m, w, e.Value(m), p.state.threshold, p.state.minHistory)])
  }

  function ObserveAll(ms: seq<Metric>, p: Pass, e: Event): (q: Pass)
    requires p.state.minHistory >= 1
    ensures q.state == p.state.(history := q.state.history)
  {
    if ms == [] then p else ObserveAll(ms[1..], ObserveMetric(ms[0], p, e), e)
  }

  /** `update`: every monitored metric of one event. */
  function Observe(d: State, e: Event): Pass
    requires d.minHistory >= 1
  {
    ObserveAll(METRICS, Pass(d, []), e)
  }

  class AnomalyDetector {
    const threshold: real
    const windowSize: nat
    const minHistory: nat
    var history: map<Series, seq<real>>

    function Value(): State
      reads this
    {
      State(threshold, windowSize, minHistory, history)
    }

    constructor (threshold: real, windowSize: nat, minHistory: nat)
      ensures Value() == State(threshold, windowSize, minHistory, map[])
    {
      this.threshold := threshold;
      this.windowSize := windowSize;
      this.minHistory := minHistory;
      history := map[];
    }

    method Update(e: Event) returns (verdicts: seq<Verdict>)
      requires minHistory >= 1
      modifies this
      ensures Pass(Value(), verdicts) == Observe(old(Value()), e)
    {
      verdicts := UpdateEach(METRICS, e);
    }

    /** The body of `update` for a list of metrics. */
    method UpdateEach(metrics: seq<Metric>, e: Event) returns (verdicts: seq<Verdict>)
      requires minHistory >= 1
      modifies this
      ensures Pass(Value(), verdicts) == ObserveAll(metrics, Pass(old(Value()), []), e)
    {
      verdicts := [];
      var i := 0;
      while i < |metrics|
        invariant 0 <= i <= |metrics|
        invariant ObserveAll(metrics[i..], Pass(Value(), verdicts), e) == ObserveAll(metrics, Pass(old(Value()), []), e)
      {
        var metric := metrics[i];
        ghost var before := Pass(Value(), verdicts);
        assert metrics[i..][0] == metric && metrics[i..][1..] == metrics[i + 1..];
        var value := e.Value(metric);
        var key := Series(e.host, metric);
        var window := if key in history then history[key] else [];
        window := window + [value];
        if |window| > windowSize { window := window[|window| - windowSize..]; }
        history := history[key := window];
        var verdict := Verdict(metric, value, value, false, Info);
        if |window| >= minHistory {
          var mean, variance := Mean(window), Variance(window);
          if variance == 0.0 {
            verdict := Verdict(metric, value, mean, false, Info);
          } else {
            var anomalous := Exceeds(value - mean, variance, threshold);
            var severity := Info;
            if anomalous {
              severity := if Exceeds(value - mean, variance, threshold * 2.0) then Critical else Warning;
            }
            verdict := Verdict(metric, value, mean, anomalous, severity);
          }
        }
        assert verdict == Judge(metric, window, value, threshold, minHistory);
        verdicts := verdicts + [verdict];
        assert Pass(Value(), verdicts) == ObserveMetric(metric, before, e);
        i := i + 1;
      }
    }
  }

  // ----- Streams -----

  function Run(d: State, es: seq<Event>): (r: State)
    requires d.minHistory >= 1
    ensures r == d.(history := r.history)
  {
    if es == [] then d else Observe(Run(d, es[..|es| - 1]), es[|es| - 1]).state
  }

  /** The values of one host's sub-stream for one metric. */
  function ValuesOf(es: seq<Event>, k: Series): seq<real> {
    if es == [] then []
    else if es[|es| - 1].host == k.host then ValuesOf(es[..|es| - 1], k) + [es[|es| - 1].Value(k.metric)]
    else ValuesOf(es[..|es| - 1], k)
  }

  /** The verdict on one metric of an event, from the state before it. */
  function VerdictFor(d: State, m: Metric, e: Event): Verdict
    requires d.minHistory >= 1
  {
    Judge(m, Pushed(d, Series(e.host, m), e.Value(m)), e.Value(m), d.threshold, d.minHistory)
  }

  predicate DistinctMetrics(ms: seq<Metric>) {
    forall i, j :: 0 <= i < j < |ms| ==> ms[i] != ms[j]
  }

  /** Metrics do not influence each other: each is recorded from the state before the event ... */
  lemma {:induction false} ObserveHistory(ms: seq<Metric>, p: Pass, e: Event, k: Series)
    requires p.state.minHistory >= 1 && DistinctMetrics(ms)
    ensures HistoryAt(ObserveAll(ms, p, e).state, k)
         == if k.host == e.host && k.metric in ms then Pushed(p.state, k, e.Value(k.metric)) else HistoryAt(p.state, k)
    decreases |ms|
  {
    if ms != [] { ObserveHistory(ms[1..], ObserveMetric(ms[0], p, e), e, k); }
  }

  /** ... and judged from it. */
  lemma {:induction false} ObserveVerdict(ms: seq<Metric>, p: Pass, e: Event, i: nat)
    requires p.state.minHistory >= 1 && DistinctMetrics(ms)
    ensures |ObserveAll(ms, p, e).verdicts| == |p.verdicts| + |ms|
    ensures i < |p.verdicts| ==> ObserveAll(ms, p, e).verdicts[i] == p.verdicts[i]
    ensures |p.verdicts| <= i < |p.verdicts| + |ms| ==>
      ObserveAll(ms, p, e).verdicts[i] == VerdictFor(p.state, ms[i - |p.verdicts|], e)
    decreases |ms|
  {
    if ms != [] {
      var p1 := ObserveMetric(ms[0], p, e);
      ObserveVerdict(ms[1..], p1, e, i);
      if |p1.verdicts| <= i < |p.verdicts| + |ms| {
        var m := ms[i - |p.verdicts|];
        assert m == ms[1..][i - |p1.verdicts|];
        assert HistoryAt(p1.state, Series(e.host, m)) == HistoryAt(p.state, Series(e.host, m));
      }
    }
  }

  lemma AllMetrics(m: Metric)
    ensures m in METRICS && DistinctMetrics(METRICS)
  {
    match m {
      case Cpu => assert METRICS[0] == m;
      case Memory => assert METRICS[1] == m;
      case Temperature => assert METRICS[2] == m;
      case NetworkMbps => assert METRICS[3] == m;
      case RequestsPerSecond => assert METRICS[4] == m;
      case ErrorRate => assert METRICS[5] == m;
      case LatencyMs => assert METRICS[6] == m;
    }
  }

  lemma SuffixOfSuffix(s: seq<real>, x: real, k: nat)
    ensures Suffix(Suffix(s, k) + [x], k) == Suffix(s + [x], k)
  {
  }

  function Empty(threshold: real, windowSize: nat, minHistory: nat): State {
    State(threshold, windowSize, minHistory, map[])
  }

  /** Each deque is the last min(window_size, count) values of its host's sub-stream, however streams interleave. */
  lemma {:induction false} HistoryIsTheRecentPast(d: State, es: seq<Event>, k: Series)
    requires d.minHistory >= 1 && d.history == map[]
    ensures HistoryAt(Run(d, es), k) == Suffix(ValuesOf(es, k), d.windowSize)
  {
    if es != [] {
      var es', e := es[..|es| - 1], es[|es| - 1];
      HistoryIsTheRecentPast(d, es', k);
      AllMetrics(k.metric);
      ObserveHistory(METRICS, Pass(Run(d, es'), []), e, k);
      if e.host == k.host { SuffixOfSuffix(ValuesOf(es', k), e.Value(k.metric), d.windowSize); }
    }
  }

  /** The verdicts on the last event of a stream. */
  function LastVerdicts(d: State, es: seq<Event>): seq<Verdict>
    requires d.minHistory >= 1 && es != []
  {
    Observe(Run(d, es[..|es| - 1]), es[|es| - 1]).verdicts
  }

  /** Every verdict is the judgement of the recent past of its own host and metric, the sample included. */
  lemma VerdictIsOnTheRecentPast(d: State, es: seq<Event>, i: nat)
    requires d.minHistory >= 1 && d.history == map[] && es != [] && i < |METRICS|
    ensures |LastVerdicts(d, es)| == |METRICS|
    ensures var m, e := METRICS[i], es[|es| - 1];
      LastVerdicts(d, es)[i] == Judge(m, Suffix(ValuesOf(es, Series(e.host, m)), d.windowSize), e.Value(m), d.threshold, d.minHistory)
  {
    var es', e, m := es[..|es| - 1], es[|es| - 1], METRICS[i];
    var k := Series(e.host, m);
    AllMetrics(m);
    ObserveVerdict(METRICS, Pass(Run(d, es'), []), e, i);
    HistoryIsTheRecentPast(d, es', k);
    SuffixOfSuffix(ValuesOf(es', k), e.Value(m), d.windowSize);
  }

  /** A flag anywhere in any stream needs a window over t^2 + 1, a critical one over 4 t^2 + 1. */
  lemma FlagsNeedALargeWindow(d: State, es: seq<Event>, i: nat)
    requires d.minHistory >= 1 && d.history == map[] && d.threshold >= 0.0 && es != [] && i < |METRICS|
    ensures |LastVerdicts(d, es)| == |METRICS|
    ensures LastVerdicts(d, es)[i].anomalous ==> d.windowSize as real > Square(d.threshold) + 1.0
    ensures LastVerdicts(d, es)[i].severity == Critical ==> d.windowSize as real > 4.0 * Square(d.threshold) + 1.0
  {
    var m, e := METRICS[i], es[|es| - 1];
    var all := ValuesOf(es, Series(e.host, m));
    var w := Suffix(all, d.windowSize);
    VerdictIsOnTheRecentPast(d, es, i);
    if w != [] {
      assert w[|w| - 1] == all[|all| - 1] == e.Value(m);
      FlagNeedsHistory(m, w, d.threshold, d.minHistory);
      assert |w| <= d.windowSize;
    }
  }

  /** Some sample of some stream is flagged. */
  ghost predicate CanFlag(d: State)
    requires d.minHistory >= 1
  {
    exists es: seq<Event>, v :: es != [] && v in LastVerdicts(d, es) && v.anomalous
  }

  /** Some sample of some stream is flagged CRITICAL. */
  ghost predicate CanFlagCritical(d: State)
    requires d.minHistory >= 1
  {
    exists es: seq<Event>, v :: es != [] && v in LastVerdicts(d, es) && v.severity == Critical
  }

  /** A host that is idle but for its last sample. */
  function Idle(k: nat): seq<Event> {
    if k == 0 then [] else Idle(k - 1) + [Event(None, 0.0, 0.0, 0.0, 0.0, 0.0, 0.0, 0.0, 0.0)]
  }

  function Burst(n: nat): seq<Event>
    requires n >= 1
  {
    Idle(n - 1) + [Event(None, 0.0, 1.0, 0.0, 0.0, 0.0, 0.0, 0.0, 0.0)]
  }

  lemma {:induction false} IdleValues(k: nat)
    ensures ValuesOf(Idle(k), Series(None, Cpu)) == Zeros(k)
  {
    if k > 0 {
      assert Idle(k)[..|Idle(k)| - 1] == Idle(k - 1);
      IdleValues(k - 1);
    }
  }

  /** A burst that fills the window is judged like the spike. */
  lemma BurstVerdict(d: State)
    requires d.minHistory >= 1 && d.history == map[] && d.windowSize >= 1
    ensures Judge(Cpu, Spike(d.windowSize), 1.0, d.threshold, d.minHistory) in LastVerdicts(d, Burst(d.windowSize))
  {
    var es, n := Burst(d.windowSize), d.windowSize;
    assert es[..|es| - 1] == Idle(n - 1);
    IdleValues(n - 1);
    assert ValuesOf(es, Series(None, Cpu)) == Spike(n);
    VerdictIsOnTheRecentPast(d, es, 0);
    assert LastVerdicts(d, es)[0] in LastVerdicts(d, es);
  }

  lemma BurstIsFlagged(d: State)
    requires d.minHistory >= 1 && d.history == map[] && d.threshold >= 0.0
    requires d.windowSize >= d.minHistory && d.windowSize as real > Square(d.threshold) + 1.0
    ensures CanFlag(d) && (d.windowSize as real > 4.0 * Square(d.threshold) + 1.0 ==> CanFlagCritical(d))
  {
    var es, v := Burst(d.windowSize), Judge(Cpu, Spike(d.windowSize), 1.0, d.threshold, d.minHistory);
    BurstVerdict(d);
    SpikeIsFlagged(Cpu, d.windowSize, d.threshold, d.minHistory);
    assert es != [] && v in LastVerdicts(d, es);
  }

  lemma FlagsFillTheHistory(d: State, es: seq<Event>, i: nat)
    requires d.minHistory >= 1 && d.history == map[] && es != [] && i < |METRICS|
    ensures |LastVerdicts(d, es)| == |METRICS|
    ensures LastVerdicts(d, es)[i].anomalous || LastVerdicts(d, es)[i].severity == Critical ==> d.windowSize >= d.minHistory
  {
    VerdictIsOnTheRecentPast(d, es, i);
  }

  /** A configuration can flag some sample of some stream, or flag it CRITICAL, exactly from these window sizes on. */
  lemma DetectorCanFlagIff(d: State)
    requires d.minHistory >= 1 && d.history == map[] && d.threshold >= 0.0
    ensures CanFlag(d) <==> d.windowSize >= d.minHistory && d.windowSize as real > Square(d.threshold) + 1.0
    ensures CanFlagCritical(d) <==> d.windowSize >= d.minHistory && d.windowSize as real > 4.0 * Square(d.threshold) + 1.0
  {
    Doubled(d.threshold);
    if d.windowSize >= d.minHistory && d.windowSize as real > Square(d.threshold) + 1.0 { BurstIsFlagged(d); }
    forall es: seq<Event>, v | es != [] && v in LastVerdicts(d, es) && (v.anomalous || v.severity == Critical)
      ensures d.windowSize >= d.minHistory
      ensures v.anomalous ==> d.windowSize as real > Square(d.threshold) + 1.0
      ensures v.severity == Critical ==> d.windowSize as real > 4.0 * Square(d.threshold) + 1.0
    {
      VerdictIsOnTheRecentPast(d, es, 0);
      var i: nat :| i < |LastVerdicts(d, es)| && LastVerdicts(d, es)[i] == v;
      FlagsNeedALargeWindow(d, es, i);
      FlagsFillTheHistory(d, es, i);
    }
  }

  // ----- Change of units of a whole stream -----

  /** The unit of one series: x becomes a x + b. */
  datatype Scale = Scale(a: real, b: real)

  function InUnit(x: real, u: Scale): real {
    Rescale(x, u.a, u.b)
  }

  /** Every host and metric may have a unit of its own. */
  function RescaleEvent(e: Event, units: Series -> Scale): (r: Event)
    ensures r.host == e.host && forall m :: r.Value(m) == InUnit(e.Value(m), units(Series(e.host, m)))
  {
    Event(e.host, e.timestamp,
          InUnit(e.cpu, units(Series(e.host, Cpu))),
          InUnit(e.memory, units(Series(e.host, Memory))),
          InUnit(e.temperature, units(Series(e.host, Temperature))),
          InUnit(e.networkMbps, units(Series(e.host, NetworkMbps))),
          InUnit(e.requestsPerSecond, units(Series(e.host, RequestsPerSecond))),
          InUnit(e.errorRate, units(Series(e.host, ErrorRate))),
          InUnit(e.latencyMs, units(Series(e.host, LatencyMs))))
  }

  function RescaleAll(es: seq<Event>, units: Series -> Scale): (r: seq<Event>)
    ensures |r| == |es|
  {
    if es == [] then [] else RescaleAll(es[..|es| - 1], units) + [RescaleEvent(es[|es| - 1], units)]
  }

  lemma {:induction false} RescaledValues(es: seq<Event>, k: Series, units: Series -> Scale)
    ensures ValuesOf(RescaleAll(es, units), k) == Affine(ValuesOf(es, k), units(k).a, units(k).b)
  {
    if es != [] {
      RescaledValues(es[..|es| - 1], k, units);
      assert RescaleAll(es, units)[..|es| - 1] == RescaleAll(es[..|es| - 1], units);
      var vs, e := ValuesOf(es[..|es| - 1], k), es[|es| - 1];
      if e.host == k.host {
        assert k == Series(e.host, k.metric);
        assert (vs + [e.Value(k.metric)])[..|vs|] == vs;
      }
    }
  }

  lemma {:induction false} AffineAt(w: seq<real>, a: real, b: real, i: nat)
    requires i < |w|
    ensures Affine(w, a, b)[i] == Rescale(w[i], a, b)
  {
    if i < |w| - 1 { AffineAt(w[..|w| - 1], a, b, i); }
  }

  lemma AffineSuffix(s: seq<real>, k: nat, a: real, b: real)
    ensures Suffix(Affine(s, a, b), k) == Affine(Suffix(s, k), a, b)
  {
    var t := Suffix(s, k);
    forall i | 0 <= i < |t| ensures Suffix(Affine(s, a, b), k)[i] == Affine(t, a, b)[i] {
      AffineAt(t, a, b, i);
      AffineAt(s, a, b, |s| - |t| + i);
    }
  }

  /** Mapping each series of a stream by its own x -> a x + b, a != 0, changes no flag and no severity. */
  lemma StreamVerdictsAreAffineInvariant(d: State, es: seq<Event>, i: nat, units: Series -> Scale)
    requires d.minHistory >= 1 && d.history == map[] && es != [] && i < |METRICS| && forall k :: units(k).a != 0.0
    ensures |LastVerdicts(d, es)| == |LastVerdicts(d, RescaleAll(es, units))| == |METRICS|
    ensures var u, v := LastVerdicts(d, es)[i], LastVerdicts(d, RescaleAll(es, units))[i];
      u.anomalous == v.anomalous && u.severity == v.severity
  {
    var fs := RescaleAll(es, units);
    var m, e := METRICS[i], es[|es| - 1];
    var k := Series(e.host, m);
    var a, b := units(k).a, units(k).b;
    assert fs[|fs| - 1] == RescaleEvent(e, units);
    VerdictIsOnTheRecentPast(d, es, i);
    VerdictIsOnTheRecentPast(d, fs, i);
    RescaledValues(es, k, units);
    AffineSuffix(ValuesOf(es, k), d.windowSize, a, b);
    var all := ValuesOf(es, k);
    var w := Suffix(all, d.windowSize);
    if w != [] {
      assert w[|w| - 1] == all[|all| - 1] == e.Value(m);
      VerdictIsAffineInvariant(m, w, a, b, d.threshold, d.minHistory);
    }
  }
}
