/** Alerts of anomalies and synthetic checks: one for each maximal abnormal period of its key, saying what that period
    says. */
module Episodes {
  import opened Common
  import opened Domain
  import opened Rules
  import Anomaly
  import Detector
  import opened Incidents
  import opened Persistence
  import opened Pipeline
  import opened Notices
  import opened Manager
  import opened Coherence
  import Evaluation
  import opened Reloads
  import opened Runs

  // ----- Reference: abnormal periods -----

  /** What the manager learns about a key: it is abnormal, or it is normal again. */
  datatype Signal =
    | Up(timestamp: Time, value: real, baseline: real, severity: Severity, service: Option<ServiceId>)
    | Down(last: Option<real>, at: Time)

  /** A maximal abnormal period: what its first signal said, the latest value, and when it ended. */
  datatype Episode = Episode(
    timestamp: Time, baseline: real, severity: Severity, service: Option<ServiceId>, value: real, closed: Option<Time>)

  predicate IsOpen(eps: seq<Episode>) {
    eps != [] && eps[|eps| - 1].closed.None?
  }

  function Episodes(ss: seq<Signal>): seq<Episode> {
    if ss == [] then [] else
    var s, eps := ss[|ss| - 1], Episodes(ss[..|ss| - 1]);
    var n := |eps| - 1;
    match s
    case Up(at, value, baseline, severity, service) =>
      if IsOpen(eps) then eps[n := eps[n].(value := value)]
      else eps + [Episode(at, baseline, severity, service, value, None)]
    case Down(last, at) =>
      if IsOpen(eps) then eps[n := eps[n].(value := if last.Some? then last.value else eps[n].value, closed := Some(at))]
      else eps
  }

  /** The key is abnormal exactly if the last signal said so. */
  lemma {:induction false} OpenIffLastUp(ss: seq<Signal>)
    ensures IsOpen(Episodes(ss)) <==> ss != [] && ss[|ss| - 1].Up?
  {
    if ss != [] { OpenIffLastUp(ss[..|ss| - 1]); }
  }

  // ----- Reference: the signals in the inputs of the manager -----

  function EventsOf(inputs: seq<Input>): seq<Event> {
    if inputs == [] then []
    else if inputs[|inputs| - 1].Telemetry? then EventsOf(inputs[..|inputs| - 1]) + [inputs[|inputs| - 1].event]
    else EventsOf(inputs[..|inputs| - 1])
  }

  /** A flagged sample is abnormal, any other normal; what matters is the recent past of its own host and metric. */
  function JudgedAs(d: Detector.State, es: seq<Event>, metric: Metric, now: Time): Signal
    requires d.minHistory >= 1 && es != []
  {
    var e := es[|es| - 1];
    var window := Detector.Suffix(Detector.ValuesOf(es, Detector.Series(e.host, metric)), d.windowSize);
    SignalOf(e, now, Anomaly.Judge(metric, window, e.Value(metric), d.threshold, d.minHistory))
  }

  function SignalOf(e: Event, now: Time, v: Anomaly.Verdict): Signal {
    if v.anomalous then Up(e.timestamp, v.value, v.baseline, v.severity, None) else Down(None, now)
  }

  /** A success is normal, a failure abnormal once there are enough of them. */
  function CheckedAs(r: CheckRun): seq<Signal> {
    if r.success then [Down(Some(r.duration), r.checkedAt)]
    else if r.failures < r.threshold then []
    else [Up(r.checkedAt, if r.status.Some? then r.status.value as real else 0.0, r.expected as real, Critical, r.service)]
  }

  /** What the last of the inputs says about a key. */
  function SignalIn(d: Detector.State, inputs: seq<Input>, k: ActiveKey): seq<Signal>
    requires d.minHistory >= 1 && inputs != []
  {
    match inputs[|inputs| - 1]
    case Telemetry(e, now) =>
      if k.OnAnomaly? && k.host == e.host then [JudgedAs(d, EventsOf(inputs), k.metric, now)] else []
    case Check(r) => if k == OnCheck(r.check) then CheckedAs(r) else []
    case _ => []
  }

  function Signals(d: Detector.State, inputs: seq<Input>, k: ActiveKey): seq<Signal>
    requires d.minHistory >= 1
  {
    if inputs == [] then [] else Signals(d, inputs[..|inputs| - 1], k) + SignalIn(d, inputs, k)
  }

  // ----- What the alerts must say -----

  /** The alert of an abnormal period. */
  predicate Says(a: Alert, ep: Episode, k: ActiveKey, home: Option<HostId>) {
    && a.timestamp == ep.timestamp && a.baseline == ep.baseline && a.severity == ep.severity && a.service == ep.service
    && a.value == ep.value && a.resolvedAt == ep.closed && (a.resolved <==> ep.closed.Some?) && a.rule.None?
    && (k.OnAnomaly? ==> a.source == FromAnomaly && a.subject == OfMetric(k.metric) && a.host == Or(k.host, home))
    && (k.OnCheck? ==> a.source == FromCheck && a.subject == OfCheck(k.check) && a.host.None?)
  }

  /** Which alerts belong to which key, in order. */
  type Catalogue = map<ActiveKey, seq<AlertId>>

  function Listed(cat: Catalogue, k: ActiveKey): seq<AlertId> {
    if k in cat then cat[k] else []
  }

  /** The alerts of a key are its abnormal periods, one by one, and it is active exactly during one. */
  ghost predicate Told(m: State, k: ActiveKey, ids: seq<AlertId>, eps: seq<Episode>) {
    && |ids| == |eps|
    && (forall n :: 0 <= n < |ids| ==> ids[n] in m.rt.alerts && Says(m.rt.alerts[ids[n]], eps[n], k, m.home))
    && (k in m.active <==> IsOpen(eps))
    && (k in m.active ==> m.active[k] == ids[|ids| - 1])
  }

  ghost predicate Belongs(cat: Catalogue, a: AlertId) {
    exists k: ActiveKey, n :: !k.OnRule? && 0 <= n < |Listed(cat, k)| && Listed(cat, k)[n] == a
  }

  /** Each alert that is not a rule's belongs to one period of one key. */
  ghost predicate OneToOne(m: State, cat: Catalogue) {
    && (forall j, k, n, p :: 0 <= n < |Listed(cat, j)| && 0 <= p < |Listed(cat, k)| && Listed(cat, j)[n] == Listed(cat, k)[p] ==>
          j == k && n == p)
    && (forall a :: a in m.rt.alerts && m.rt.alerts[a].source != FromRule ==> Belongs(cat, a))
  }

  ghost predicate AllTold(m: State, hist: ActiveKey -> seq<Signal>, cat: Catalogue) {
    && (forall k: ActiveKey :: !k.OnRule? ==> Told(m, k, Listed(cat, k), Episodes(hist(k))))
    && (forall k :: k in cat ==> !k.OnRule?)
    && OneToOne(m, cat)
  }

  // ----- One signal -----

  /** What a signal does to the alerts and the active keys. */
  ghost predicate Hears(m: State, m': State, k: ActiveKey, s: Signal) {
    && m'.home == m.home
    && if s.Up? && k !in m.active then
         && m.next !in m.rt.alerts && m.next in m'.rt.alerts && m'.rt.alerts == m.rt.alerts[m.next := m'.rt.alerts[m.next]]
         && Says(m'.rt.alerts[m.next], Episode(s.timestamp, s.baseline, s.severity, s.service, s.value, None), k, m.home)
         && m'.active == m.active[k := m.next]
       else if k in m.active then
         && m.active[k] in m.rt.alerts
         && (var a := m.rt.alerts[m.active[k]];
             m'.rt.alerts == m.rt.alerts[m.active[k] :=
               if s.Up? then a.(value := s.value)
               else a.(value := if s.last.Some? then s.last.value else a.value, resolved := true, resolvedAt := Some(s.at))])
         && m'.active == (if s.Up? then m.active else m.active - {k})
       else m'.rt.alerts == m.rt.alerts && m'.active == m.active
  }

  function Heard(hist: ActiveKey -> seq<Signal>, k: ActiveKey, s: Signal): ActiveKey -> seq<Signal> {
    j => if j == k then hist(j) + [s] else hist(j)
  }

  lemma EpisodesMore(ss: seq<Signal>, s: Signal)
    ensures var eps := Episodes(ss); var n := |eps| - 1;
      Episodes(ss + [s]) ==
        if s.Up? then
          if IsOpen(eps) then eps[n := eps[n].(value := s.value)]
          else eps + [Episode(s.timestamp, s.baseline, s.severity, s.service, s.value, None)]
        else if IsOpen(eps) then eps[n := eps[n].(value := if s.last.Some? then s.last.value else eps[n].value, closed := Some(s.at))]
        else eps
  {
    assert (ss + [s])[..|ss|] == ss;
  }

  /** The key that the signal is about. */
  lemma OwnKeyTold(m: State, m': State, k: ActiveKey, ids: seq<AlertId>, ss: seq<Signal>, s: Signal)
    requires Told(m, k, ids, Episodes(ss)) && Hears(m, m', k, s) && (forall i, j :: 0 <= i < j < |ids| ==> ids[i] != ids[j])
    ensures Told(m', k, if s.Up? && k !in m.active then ids + [m.next] else ids, Episodes(ss + [s]))
  {
    EpisodesMore(ss, s);
    hide Episodes;
  }

  /** Any other key. */
  lemma OtherKeyTold(m: State, m': State, k: ActiveKey, s: Signal, j: ActiveKey, ids: seq<AlertId>, eps: seq<Episode>)
    requires Told(m, j, ids, eps) && Hears(m, m', k, s) && j != k
    requires (s.Up? && k !in m.active ==> m.next !in ids) && (k in m.active ==> m.active[k] !in ids)
    ensures Told(m', j, ids, eps)
  {
  }

  lemma OthersElsewhere(m: State, k: ActiveKey, j: ActiveKey, hist: ActiveKey -> seq<Signal>, cat: Catalogue)
    requires AllTold(m, hist, cat) && !k.OnRule? && !j.OnRule? && j != k
    ensures m.next !in m.rt.alerts ==> m.next !in Listed(cat, j)
    ensures k in m.active ==> m.active[k] !in Listed(cat, j)
  {
    hide Episodes;
    assert Told(m, j, Listed(cat, j), Episodes(hist(j))) && Told(m, k, Listed(cat, k), Episodes(hist(k)));
  }

  /** One alert more in the catalogue, which was in no list. */
  lemma ListedApart(cat: Catalogue, k: ActiveKey, id: AlertId)
    requires forall j, i, n, p :: 0 <= n < |Listed(cat, j)| && 0 <= p < |Listed(cat, i)| && Listed(cat, j)[n] == Listed(cat, i)[p] ==>
               j == i && n == p
    requires forall j: ActiveKey :: id !in Listed(cat, j)
    ensures var more := cat[k := Listed(cat, k) + [id]];
      forall j, i, n, p :: 0 <= n < |Listed(more, j)| && 0 <= p < |Listed(more, i)| && Listed(more, j)[n] == Listed(more, i)[p] ==>
        j == i && n == p
  {
    var more := cat[k := Listed(cat, k) + [id]];
    forall j, i, n, p | 0 <= n < |Listed(more, j)| && 0 <= p < |Listed(more, i)| && Listed(more, j)[n] == Listed(more, i)[p]
      ensures j == i && n == p
    {
      if n < |Listed(cat, j)| && p < |Listed(cat, i)| {
        assert Listed(cat, j)[n] == Listed(cat, i)[p];
      }
    }
  }

  lemma BelongsMore(cat: Catalogue, k: ActiveKey, id: AlertId, a: AlertId)
    requires !k.OnRule? && (a == id || Belongs(cat, a))
    ensures Belongs(cat[k := Listed(cat, k) + [id]], a)
  {
    var more := cat[k := Listed(cat, k) + [id]];
    if a == id {
      assert Listed(more, k)[|Listed(cat, k)|] == a;
    } else {
      var j: ActiveKey, n :| !j.OnRule? && 0 <= n < |Listed(cat, j)| && Listed(cat, j)[n] == a;
      assert Listed(more, j)[n] == a;
    }
  }

  lemma StillOneToOne(m: State, m': State, k: ActiveKey, s: Signal, hist: ActiveKey -> seq<Signal>, cat: Catalogue)
    requires AllTold(m, hist, cat) && Hears(m, m', k, s) && !k.OnRule?
    ensures OneToOne(m', if s.Up? && k !in m.active then cat[k := Listed(cat, k) + [m.next]] else cat)
  {
    hide Episodes, Says, Belongs, Told;
    if s.Up? && k !in m.active {
      forall j: ActiveKey ensures m.next !in Listed(cat, j) { Unlisted(m, j, hist, cat); }
      ListedApart(cat, k, m.next);
      forall a | a in m'.rt.alerts && m'.rt.alerts[a].source != FromRule ensures Belongs(cat[k := Listed(cat, k) + [m.next]], a) {
        BelongsMore(cat, k, m.next, a);
      }
    }
  }

  lemma Unlisted(m: State, j: ActiveKey, hist: ActiveKey -> seq<Signal>, cat: Catalogue)
    requires AllTold(m, hist, cat)
    ensures m.next !in m.rt.alerts ==> m.next !in Listed(cat, j)
  {
    hide Episodes, Says;
    if !j.OnRule? { assert Told(m, j, Listed(cat, j), Episodes(hist(j))); }
  }

  lemma SignalTold(m: State, m': State, k: ActiveKey, s: Signal, hist: ActiveKey -> seq<Signal>, cat: Catalogue)
      returns (cat': Catalogue)
    requires AllTold(m, hist, cat) && Hears(m, m', k, s) && !k.OnRule?
    ensures AllTold(m', Heard(hist, k, s), cat')
  {
    var ids, hist' := Listed(cat, k), Heard(hist, k, s);
    var opens := s.Up? && k !in m.active;
    cat' := if opens then cat[k := ids + [m.next]] else cat;
    assert Told(m, k, ids, Episodes(hist(k)));
    forall i, j | 0 <= i < j < |ids| ensures ids[i] != ids[j] {}
    forall j: ActiveKey | !j.OnRule? ensures Told(m', j, Listed(cat', j), Episodes(hist'(j))) {
      assert Told(m, j, Listed(cat, j), Episodes(hist(j)));
      if j == k {
        OwnKeyTold(m, m', k, ids, hist(k), s);
      } else {
        OthersElsewhere(m, k, j, hist, cat);
        OtherKeyTold(m, m', k, s, j, Listed(cat, j), Episodes(hist(j)));
      }
    }
    StillOneToOne(m, m', k, s, hist, cat);
  }

  // ----- What the manager does with a signal -----

  lemma VerdictHears(m: State, e: Event, now: Time, v: Anomaly.Verdict)
    requires Steady(m)
    ensures Hears(m, ApplyVerdict(m, e, now, v), OnAnomaly(e.host, v.metric), SignalOf(e, now, v))
  {
    hide Healthy, NotifiesOnce, Tracks, EngineAgrees, OnCreated, OnResolved, Logged, Put;
    var key := OnAnomaly(e.host, v.metric);
    Evaluation.Fresh(m);
    if key in m.active { HeldAlert(m, key); }
  }

  lemma CheckHears(m: State, r: CheckRun)
    requires Steady(m)
    ensures CheckedAs(r) != [] ==> Hears(m, ProcessCheck(m, r), OnCheck(r.check), CheckedAs(r)[0])
    ensures CheckedAs(r) == [] ==> ProcessCheck(m, r) == m
  {
    hide Healthy, NotifiesOnce, Tracks, EngineAgrees, OnCreated, OnResolved, Logged, Put;
    var key := OnCheck(r.check);
    Evaluation.Fresh(m);
    if key in m.active { HeldAlert(m, key); }
  }

  /** Nothing happens to the alerts of anomalies and checks, but that they may be acknowledged. */
  ghost predicate Quiet(m: State, m': State) {
    && m'.home == m.home
    && (forall k: ActiveKey :: !k.OnRule? ==> (k in m'.active <==> k in m.active) && (k in m.active ==> m'.active[k] == m.active[k]))
    && (forall a :: a in m.rt.alerts ==>
          && a in m'.rt.alerts && m'.rt.alerts[a].source == m.rt.alerts[a].source
          && (m.rt.alerts[a].source != FromRule ==>
                m'.rt.alerts[a] == m.rt.alerts[a].(acknowledged := m'.rt.alerts[a].acknowledged)))
    && (forall a :: a in m'.rt.alerts ==> a in m.rt.alerts || m'.rt.alerts[a].source == FromRule)
  }

  lemma KeyQuiet(m: State, m': State, k: ActiveKey, ids: seq<AlertId>, eps: seq<Episode>)
    requires Told(m, k, ids, eps) && Quiet(m, m') && !k.OnRule?
    ensures Told(m', k, ids, eps)
  {
    forall n | 0 <= n < |ids| ensures ids[n] in m'.rt.alerts && Says(m'.rt.alerts[ids[n]], eps[n], k, m'.home) {
      assert m.rt.alerts[ids[n]].source != FromRule;
    }
    hide Says;
  }

  lemma QuietTold(m: State, m': State, hist: ActiveKey -> seq<Signal>, cat: Catalogue)
    requires AllTold(m, hist, cat) && Quiet(m, m')
    ensures AllTold(m', hist, cat)
  {
    hide Episodes, Told, Belongs, Listed;
    forall k: ActiveKey | !k.OnRule? ensures Told(m', k, Listed(cat, k), Episodes(hist(k))) {
      assert Told(m, k, Listed(cat, k), Episodes(hist(k)));
      KeyQuiet(m, m', k, Listed(cat, k), Episodes(hist(k)));
    }
    forall a | a in m'.rt.alerts && m'.rt.alerts[a].source != FromRule ensures Belongs(cat, a) {
      assert a in m.rt.alerts;
    }
  }

  lemma QuietTransitive(a: State, b: State, c: State)
    requires Quiet(a, b) && Quiet(b, c)
    ensures Quiet(a, c)
  {
  }

  lemma QuietToItself(m: State, m': State)
    requires m'.rt.alerts == m.rt.alerts && m'.active == m.active && m'.home == m.home
    ensures Quiet(m, m')
  {
  }

  lemma RuleStepQuiet(r: Rule, m: State, e: Event)
    requires Steady(m)
    ensures Quiet(m, Evaluation.RuleStep(r, m, e))
  {
    hide Healthy, NotifiesOnce, Tracks, EngineAgrees, OnCreated, OnResolved, Logged, Put, Hits, Due, EvaluateRule,
         Evaluation.RuleStep;
    Evaluation.Fresh(m);
    if r.enabled {
      var k := Key(r.id, e.host);
      Evaluation.RuleStepCases(r, m, e);
      if StateAt(m.book.states, k).active.Some? { Evaluation.OwnedIsHeld(m, k); }
    } else {
      Evaluation.DisabledStep(r, m, e);
    }
  }

  lemma {:induction false} RuleStepsQuiet(rs: seq<Rule>, m: State, e: Event)
    requires Steady(m) && forall i :: 0 <= i < |rs| ==> HasRule(m.book.rules, rs[i].id)
    ensures Quiet(m, Evaluation.RuleSteps(rs, m, e))
    decreases |rs|
  {
    hide Healthy, NotifiesOnce, Tracks, EngineAgrees, Complete, Evolves, Evaluation.RuleStep, HasRule,
         Evaluation.AllFound, Quiet;
    QuietToItself(m, m);
    if rs != [] {
      var m1 := Evaluation.RuleStep(rs[0], m, e);
      RuleStepQuiet(rs[0], m, e);
      Evaluation.RuleStepCoherent(rs[0], m, e, false);
      RuleStepsQuiet(rs[1..], m1, e);
      QuietTransitive(m, m1, Evaluation.RuleSteps(rs[1..], m1, e));
    }
  }

  lemma OtherInputsAreQuiet(m: State, i: Input)
    requires Steady(m) && !i.Telemetry? && !i.Check?
    ensures Quiet(m, Step(m, i))
  {
    hide Healthy, NotifiesOnce, Tracks, EngineAgrees, Work, Put, Acknowledge, HydrateActive, OpenRuleAlerts;
    if i.AckedAlert? && i.alert in m.rt.alerts { KnowsId(m, i.alert); }
  }

  lemma KnowsId(m: State, id: AlertId)
    requires Steady(m) && id in m.rt.alerts
    ensures m.rt.alerts[id].id == id
  {
    hide Sound, Durable, NotifiesOnce, Tracks, EngineAgrees;
    KnownById(m.rt, id);
  }

  // ----- Whole events -----

  /** The signals of an event's verdicts about a key. */
  function SignalsFrom(vs: seq<Anomaly.Verdict>, e: Event, now: Time, k: ActiveKey): seq<Signal>
    decreases |vs|
  {
    if vs == [] then []
    else (if k == OnAnomaly(e.host, vs[0].metric) then [SignalOf(e, now, vs[0])] else []) + SignalsFrom(vs[1..], e, now, k)
  }

  lemma SameHistory(m: State, hist: ActiveKey -> seq<Signal>, hist': ActiveKey -> seq<Signal>, cat: Catalogue)
    requires AllTold(m, hist, cat) && forall k: ActiveKey :: !k.OnRule? ==> hist'(k) == hist(k)
    ensures AllTold(m, hist', cat)
  {
    hide Episodes, Told, OneToOne;
    forall k: ActiveKey | !k.OnRule? ensures Told(m, k, Listed(cat, k), Episodes(hist'(k))) {
      assert Told(m, k, Listed(cat, k), Episodes(hist(k)));
    }
  }

  lemma {:induction false} VerdictsTold(m: State, e: Event, now: Time, vs: seq<Anomaly.Verdict>, hist: ActiveKey -> seq<Signal>,
                                        cat: Catalogue) returns (cat': Catalogue)
    requires Steady(m) && AllTold(m, hist, cat)
    ensures AllTold(ApplyVerdicts(m, e, now, vs), k => hist(k) + SignalsFrom(vs, e, now, k), cat')
    decreases |vs|
  {
    hide Healthy, NotifiesOnce, Tracks, EngineAgrees, Complete, Evolves, ApplyVerdict, AllTold, Hears;
    if vs == [] {
      SameHistoryOf(m, hist, k => hist(k) + SignalsFrom(vs, e, now, k), cat);
      cat' := cat;
    } else {
      var key, m1 := OnAnomaly(e.host, vs[0].metric), ApplyVerdict(m, e, now, vs[0]);
      VerdictHears(m, e, now, vs[0]);
      VerdictCoherent(m, e, now, vs[0], false);
      var cat1 := SignalTold(m, m1, key, SignalOf(e, now, vs[0]), hist, cat);
      var hist1 := Heard(hist, key, SignalOf(e, now, vs[0]));
      cat' := VerdictsTold(m1, e, now, vs[1..], hist1, cat1);
      forall k: ActiveKey ensures hist(k) + SignalsFrom(vs, e, now, k) == hist1(k) + SignalsFrom(vs[1..], e, now, k) {}
      SameHistoryOf(ApplyVerdicts(m, e, now, vs), k => hist1(k) + SignalsFrom(vs[1..], e, now, k),
                    k => hist(k) + SignalsFrom(vs, e, now, k), cat');
    }
  }

  lemma SameHistoryOf(m: State, hist: ActiveKey -> seq<Signal>, hist': ActiveKey -> seq<Signal>, cat: Catalogue)
    requires AllTold(m, hist, cat) && forall k: ActiveKey :: hist'(k) == hist(k)
    ensures AllTold(m, hist', cat)
  {
    hide AllTold;
    SameHistory(m, hist, hist', cat);
  }

  lemma {:induction false} OneSignal(vs: seq<Anomaly.Verdict>, e: Event, now: Time, k: ActiveKey, i: nat)
    requires forall j :: 0 <= j < |vs| && j != i ==> k != OnAnomaly(e.host, vs[j].metric)
    ensures SignalsFrom(vs, e, now, k) ==
      if i < |vs| && k == OnAnomaly(e.host, vs[i].metric) then [SignalOf(e, now, vs[i])] else []
    decreases |vs|
  {
    if vs != [] { OneSignal(vs[1..], e, now, k, if i == 0 then |vs| else i - 1); }
  }

  /** An event says about each metric of its host what the detector says about the recent past. */
  lemma EventSignals(d: Detector.State, es: seq<Event>, now: Time, k: ActiveKey)
    requires d.minHistory >= 1 && d.history == map[] && es != []
    ensures var e := es[|es| - 1];
      SignalsFrom(Detector.LastVerdicts(d, es), e, now, k)
      == if k.OnAnomaly? && k.host == e.host then [JudgedAs(d, es, k.metric, now)] else []
  {
    var e, vs := es[|es| - 1], Detector.LastVerdicts(d, es);
    forall i: nat | i < |Detector.METRICS| ensures |vs| == |Detector.METRICS| && vs[i].metric == Detector.METRICS[i]
      && SignalOf(e, now, vs[i]) == JudgedAs(d, es, Detector.METRICS[i], now)
    {
      Detector.VerdictIsOnTheRecentPast(d, es, i);
    }
    Detector.VerdictIsOnTheRecentPast(d, es, 0);
    if k.OnAnomaly? && k.host == e.host {
      Detector.AllMetrics(k.metric);
      var i: nat :| i < |Detector.METRICS| && Detector.METRICS[i] == k.metric;
      OneSignal(vs, e, now, k, i);
    } else {
      OneSignal(vs, e, now, k, |vs|);
    }
  }

  // ----- Runs -----

  lemma StepHistory(m: State, i: Input)
    requires m.detector.minHistory >= 1
    ensures Step(m, i).detector == if i.Telemetry? then Detector.Observe(m.detector, i.event).state else m.detector
    ensures Step(m, i).home == m.home
  {
    hide Raise, Settle, ApplyVerdicts, ApplyAll, EvaluateAll;
    if i.Telemetry? {
      var p := Detector.Observe(m.detector, i.event);
      VerdictsDetector(m.(detector := p.state), i.event, i.now, p.verdicts);
      var m1 := ApplyVerdicts(m.(detector := p.state), i.event, i.now, p.verdicts);
      var q := Evaluate(m1.book, i.event, m1.next);
      TransitionsDetector(m1.(book := EndPass(m1.book, q), next := q.next), q.out);
      VerdictsHome(m.(detector := p.state), i.event, i.now, p.verdicts);
      TransitionsHome(m1.(book := EndPass(m1.book, q), next := q.next), q.out);
    }
  }

  lemma {:induction false} VerdictsHome(m: State, e: Event, now: Time, vs: seq<Anomaly.Verdict>)
    ensures ApplyVerdicts(m, e, now, vs).home == m.home
    decreases |vs|
  {
    hide Raise, Settle;
    if vs != [] { VerdictsHome(ApplyVerdict(m, e, now, vs[0]), e, now, vs[1..]); }
  }

  lemma {:induction false} TransitionsHome(m: State, ts: seq<Transition>)
    ensures ApplyAll(m, ts).home == m.home
    decreases |ts|
  {
    hide Raise, Settle;
    if ts != [] { TransitionsHome(ApplyTransition(m, ts[0]), ts[1..]); }
  }

  /** The detector has seen the events of the inputs. */
  lemma {:induction false} RunDetector(d: Detector.State, home: Option<HostId>, ac: nat, ic: nat, inputs: seq<Input>)
    requires d.minHistory >= 1
    ensures var m := Run(Initial(d, home, ac, ic), inputs); m.detector == Detector.Run(d, EventsOf(inputs)) && m.home == home
  {
    hide Step, Detector.Observe;
    if inputs != [] {
      var n := |inputs| - 1;
      RunDetector(d, home, ac, ic, inputs[..n]);
      StepHistory(Run(Initial(d, home, ac, ic), inputs[..n]), inputs[n]);
      var es := EventsOf(inputs);
      if inputs[n].Telemetry? { assert es[..|es| - 1] == EventsOf(inputs[..n]); }
    }
  }

  function History(d: Detector.State, inputs: seq<Input>): ActiveKey -> seq<Signal>
    requires d.minHistory >= 1
  {
    k => if d.minHistory >= 1 then Signals(d, inputs, k) else []
  }

  lemma StepTold(d: Detector.State, m: State, inputs: seq<Input>, i: Input, cat: Catalogue) returns (cat': Catalogue)
    requires d.minHistory >= 1 && d.history == map[] && Steady(m) && m.detector == Detector.Run(d, EventsOf(inputs))
    requires AllTold(m, History(d, inputs), cat)
    ensures AllTold(Step(m, i), History(d, inputs + [i]), cat')
  {
    hide Healthy, NotifiesOnce, Tracks, EngineAgrees, Complete, Evolves, ProcessEvent, ProcessCheck, Reload, AcknowledgeAlert,
         Work, AllTold, Hears, Quiet, Evaluation.Judged;
    var all, hist := inputs + [i], History(d, inputs);
    assert all[..|inputs|] == inputs;
    forall k: ActiveKey ensures History(d, all)(k) == hist(k) + SignalIn(d, all, k) {}
    match i
    case Telemetry(e, now) =>
      cat' := EventTold(d, m, inputs, e, now, cat);
    case Check(r) =>
      CheckHears(m, r);
      if CheckedAs(r) == [] {
        SameHistoryOf(m, hist, History(d, all), cat);
        cat' := cat;
      } else {
        cat' := SignalTold(m, ProcessCheck(m, r), OnCheck(r.check), CheckedAs(r)[0], hist, cat);
        SameHistoryOf(ProcessCheck(m, r), Heard(hist, OnCheck(r.check), CheckedAs(r)[0]), History(d, all), cat');
      }
    case _ =>
      OtherInputsAreQuiet(m, i);
      QuietTold(m, Step(m, i), hist, cat);
      SameHistoryOf(Step(m, i), hist, History(d, all), cat);
      cat' := cat;
  }

  lemma EventTold(d: Detector.State, m: State, inputs: seq<Input>, e: Event, now: Time, cat: Catalogue) returns (cat': Catalogue)
    requires d.minHistory >= 1 && d.history == map[] && Steady(m) && m.detector == Detector.Run(d, EventsOf(inputs))
    requires AllTold(m, History(d, inputs), cat)
    ensures AllTold(ProcessEvent(m, e, now), History(d, inputs + [Telemetry(e, now)]), cat')
  {
    hide Healthy, NotifiesOnce, Tracks, EngineAgrees, Complete, Evolves, ProcessEvent, AllTold, Quiet, ApplyVerdicts,
         Evaluation.RuleSteps, HasRule, Evaluation.StepsFound, Detector.ObserveAll, SignalsFrom, JudgedAs;
    var all, hist := inputs + [Telemetry(e, now)], History(d, inputs);
    assert all[..|inputs|] == inputs;
    var es := EventsOf(all);
    assert es[..|es| - 1] == EventsOf(inputs) && es[|es| - 1] == e;
    var p := Detector.Observe(m.detector, e);
    var m0 := m.(detector := p.state);
    QuietToItself(m, m0);
    QuietTold(m, m0, hist, cat);
    cat' := VerdictsTold(m0, e, now, p.verdicts, hist, cat);
    forall k: ActiveKey ensures History(d, all)(k) == hist(k) + SignalsFrom(p.verdicts, e, now, k) { EventSignals(d, es, now, k); }
    var m1 := Evaluation.Judged(m, e, now);
    SameHistoryOf(m1, k => hist(k) + SignalsFrom(p.verdicts, e, now, k), History(d, all), cat');
    Evaluation.JudgedCoherent(m, e, now, false);
    Evaluation.LoadedRules(m1.book.rules);
    RuleStepsQuiet(m1.book.rules, m1, e);
    Evaluation.ProcessEventIsRuleByRule(m, e, now);
    QuietTold(m1, ProcessEvent(m, e, now), History(d, all), cat');
  }

  lemma {:induction false} RunTold(d: Detector.State, home: Option<HostId>, ac: nat, ic: nat, inputs: seq<Input>)
      returns (cat: Catalogue)
    requires d.minHistory >= 1 && d.history == map[]
    ensures AllTold(Run(Initial(d, home, ac, ic), inputs), History(d, inputs), cat)
  {
    hide Healthy, NotifiesOnce, Tracks, EngineAgrees, Complete, Evolves, Step, AllTold;
    var start := Initial(d, home, ac, ic);
    if inputs == [] {
      cat := map[];
      NothingTold(d, home, ac, ic);
    } else {
      var n := |inputs| - 1;
      var before := RunTold(d, home, ac, ic, inputs[..n]);
      InitialCoherent(d, home, ac, ic);
      RunCoherent(start, inputs[..n], false);
      RunDetector(d, home, ac, ic, inputs[..n]);
      cat := StepTold(d, Run(start, inputs[..n]), inputs[..n], inputs[n], before);
      assert inputs[..n] + [inputs[n]] == inputs;
    }
  }

  lemma NothingTold(d: Detector.State, home: Option<HostId>, ac: nat, ic: nat)
    requires d.minHistory >= 1
    ensures AllTold(Initial(d, home, ac, ic), History(d, []), map[])
  {
  }

  /** In every run the alerts of anomalies and synthetic checks are, one to one, the maximal abnormal periods of their keys,
      in order: each has the time, baseline and severity of the signal that opened it, the latest value, and is resolved
      at the first normal signal after it. A key is active exactly if its last signal was abnormal. */
  lemma AlertsAreEpisodes(d: Detector.State, home: Option<HostId>, ac: nat, ic: nat, inputs: seq<Input>)
      returns (cat: Catalogue)
    requires d.minHistory >= 1 && d.history == map[]
    ensures var m := Run(Initial(d, home, ac, ic), inputs);
      && OneToOne(m, cat)
      && (forall k: ActiveKey :: !k.OnRule? ==> Told(m, k, Listed(cat, k), Episodes(Signals(d, inputs, k))))
      && (forall k: ActiveKey :: !k.OnRule? ==>
            (k in m.active <==> Signals(d, inputs, k) != [] && Signals(d, inputs, k)[|Signals(d, inputs, k)| - 1].Up?))
  {
    hide Run, Signals, Episodes, OneToOne;
    RunDetector(d, home, ac, ic, inputs);
    cat := RunTold(d, home, ac, ic, inputs);
    var m := Run(Initial(d, home, ac, ic), inputs);
    forall k: ActiveKey | !k.OnRule?
      ensures Told(m, k, Listed(cat, k), Episodes(Signals(d, inputs, k)))
      ensures k in m.active <==> Signals(d, inputs, k) != [] && Signals(d, inputs, k)[|Signals(d, inputs, k)| - 1].Up?
    {
      assert Told(m, k, Listed(cat, k), Episodes(History(d, inputs)(k)));
      OpenIffLastUp(Signals(d, inputs, k));
    }
  }
}
