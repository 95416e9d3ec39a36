/** The ingestion endpoint: persist a batch, then process exactly what was accepted, in order. */
module IngestApi {
  import opened Common
  import opened Domain
  import opened Agent
  import opened Ingestion
  import opened Rules
  import Detector
  import Manager
  import Pipeline
  import opened Live
  import Runs

  datatype Response =
    | Unprocessable
    | Unauthorized
    | Ingested(received: nat, accepted: nat, deduplicated: nat, lastSequence: nat)

  /** What `process_event` is called with: one event per sample, in order, carrying the host it was stored for. */
  function Handed(host: HostId, samples: seq<Sample>, now: Time): (r: seq<Manager.Input>)
    ensures |r| == |samples|
    ensures forall i :: 0 <= i < |r| ==> r[i] == Manager.Telemetry(samples[i].reading.(host := Some(host)), now)
  {
    seq(|samples|, i requires 0 <= i < |samples| => Manager.Telemetry(samples[i].reading.(host := Some(host)), now))
  }

  lemma {:induction false} FewerAccepted(events: seq<Sample>, known: set<nat>)
    ensures |Without(FirstOfEach(events), known)| <= |FirstOfEach(events)| <= |events|
  {
    if events != [] { FewerAccepted(events[..|events| - 1], known); }
    WithoutIsShorter(FirstOfEach(events), known);
  }

  lemma {:induction false} WithoutIsShorter(events: seq<Sample>, known: set<nat>)
    ensures |Without(events, known)| <= |events|
  {
    if events != [] { WithoutIsShorter(events[..|events| - 1], known); }
  }

  method LargestSequence(events: seq<Sample>) returns (m: nat)
    requires events != []
    ensures m in SequencesOf(events) && forall s :: s in events ==> s.sequence <= m
  {
    m := events[0].sequence;
    var i := 1;
    while i < |events|
      invariant 1 <= i <= |events| && m in SequencesOf(events) && forall j :: 0 <= j < i ==> events[j].sequence <= m
    {
      if m < events[i].sequence { m := events[i].sequence; }
      i := i + 1;
    }
  }

  method ProcessAccepted(manager: TelemetryManager, host: HostId, accepted: seq<Sample>, now: Time)
    requires manager.Valid() && manager.detector.minHistory >= 1
    modifies manager, manager.detector, manager.engine, manager.ids, manager.incidents, manager.incidents.persistence, manager.alertOut
    ensures manager.Valid() && manager.Value() == Runs.Run(old(manager.Value()), Handed(host, accepted, now))
  {
    hide Manager.ProcessEvent;
    ghost var inputs := Handed(host, accepted, now);
    var i := 0;
    while i < |accepted|
      invariant 0 <= i <= |accepted| && manager.Valid()
      invariant manager.Value() == Runs.Run(old(manager.Value()), inputs[..i])
    {
      assert inputs[..i + 1][..i] == inputs[..i] && inputs[..i + 1][i] == inputs[i];
      manager.ProcessEvent(accepted[i].reading.(host := Some(host)), now);
      i := i + 1;
    }
    assert inputs[..i] == inputs;
  }

  /** `ingest_telemetry`, behind its schema: a batch of none or of more than 250 samples is refused before anything else. */
  method IngestTelemetry(hostActive: bool, table: TelemetryTable, host: HostRecord, events: seq<Sample>,
                         meanwhile: Table,
                         manager: TelemetryManager, now: Time) returns (r: Response)
    requires manager.Valid() && manager.detector.minHistory >= 1 && table.rows.Keys !! meanwhile.Keys
    modifies table, host, manager, manager.detector, manager.engine, manager.ids, manager.incidents,
             manager.incidents.persistence, manager.alertOut
    ensures manager.Valid()
    ensures r == Unprocessable <==> |events| < 1 || |events| > MAX_BATCH
    ensures r == Unauthorized <==> 1 <= |events| <= MAX_BATCH && !hostActive
    ensures !r.Ingested? ==>
      table.rows == old(table.rows) && host.lastSeen == old(host.lastSeen) && manager.Value() == old(manager.Value())
    ensures r.Ingested? ==>
      var rows := if Without(FirstOfEach(events), StoredFor(old(table.rows), host.id)) == [] then old(table.rows)
                  else old(table.rows) + meanwhile;
      var accepted := Accepted(rows, host.id, events);
      && table.rows == InsertAll(rows, host.id, FirstOfEach(events))
      && manager.Value() == Runs.Run(old(manager.Value()), Handed(host.id, accepted, now))
      && r.received == |events| && r.accepted == |accepted| && r.accepted + r.deduplicated == r.received
      && r.lastSequence in SequencesOf(events) && forall s :: s in events ==> s.sequence <= r.lastSequence
  {
    hide FirstOfEach, Without, InsertAll, SequencesOf, StoredFor, Handed, Runs.Run;
    if |events| < 1 || |events| > MAX_BATCH { return Unprocessable; }
    if !hostActive { return Unauthorized; }
    ghost var rows := if Without(FirstOfEach(events), StoredFor(table.rows, host.id)) == [] then table.rows else table.rows + meanwhile;
    var accepted := PersistBatch(table, host, events, meanwhile);
    FewerAccepted(events, StoredFor(rows, host.id));
    ProcessAccepted(manager, host.id, accepted, now);
    var largest := LargestSequence(events);
    return Ingested(|events|, |accepted|, |events| - |accepted|, largest);
  }

  // ----- What the detector learns from a request -----

  /** The values of one metric, in the order of the samples. */
  function ValuesIn(samples: seq<Sample>, metric: Metric): (r: seq<real>)
    ensures |r| == |samples| && forall i :: 0 <= i < |r| ==> r[i] == samples[i].reading.Value(metric)
  {
    seq(|samples|, i requires 0 <= i < |samples| => samples[i].reading.Value(metric))
  }

  lemma EventHistory(m: Manager.State, e: Event, now: Time, k: Detector.Series)
    requires m.detector.minHistory >= 1
    ensures var m' := Manager.Step(m, Manager.Telemetry(e, now));
      && m'.detector == m.detector.(history := m'.detector.history)
      && Detector.HistoryAt(m'.detector, k) == if k.host == e.host then Detector.Pushed(m.detector, k, e.Value(k.metric))
                                               else Detector.HistoryAt(m.detector, k)
  {
    hide Pipeline.Raise, Pipeline.Settle, Manager.ApplyVerdicts, Manager.ApplyAll, EvaluateAll;
    var p := Detector.Observe(m.detector, e);
    Runs.VerdictsDetector(m.(detector := p.state), e, now, p.verdicts);
    var m1 := Manager.ApplyVerdicts(m.(detector := p.state), e, now, p.verdicts);
    var q := Evaluate(m1.book, e, m1.next);
    Runs.TransitionsDetector(m1.(book := EndPass(m1.book, q), next := q.next), q.out);
    Detector.AllMetrics(k.metric);
    Detector.ObserveHistory(Detector.METRICS, Detector.Pass(m.detector, []), e, k);
  }

  /** A request appends the accepted samples' values to the host's deques, in order and up to the window, and leaves the
      deques of other hosts alone. */
  lemma {:induction false} RequestHistory(m: Manager.State, host: HostId, accepted: seq<Sample>, now: Time, k: Detector.Series)
    requires m.detector.minHistory >= 1 && |Detector.HistoryAt(m.detector, k)| <= m.detector.windowSize
    ensures var m' := Runs.Run(m, Handed(host, accepted, now));
      && m'.detector == m.detector.(history := m'.detector.history)
      && Detector.HistoryAt(m'.detector, k)
         == if k.host == Some(host)
            then Detector.Suffix(Detector.HistoryAt(m.detector, k) + ValuesIn(accepted, k.metric), m.detector.windowSize)
            else Detector.HistoryAt(m.detector, k)
  {
    hide Manager.Step;
    var inputs, was := Handed(host, accepted, now), Detector.HistoryAt(m.detector, k);
    if accepted == [] {
      assert was + ValuesIn(accepted, k.metric) == was;
    } else {
      var n := |accepted| - 1;
      RequestHistory(m, host, accepted[..n], now, k);
      assert inputs[..n] == Handed(host, accepted[..n], now);
      var before, e := Runs.Run(m, inputs[..n]), accepted[n].reading.(host := Some(host));
      EventHistory(before, e, now, k);
      var x, vs := e.Value(k.metric), ValuesIn(accepted[..n], k.metric);
      SameReading(accepted[n].reading, Some(host), k.metric);
      assert ValuesIn(accepted, k.metric) == vs + [x];
      assert was + (vs + [x]) == was + vs + [x];
      Detector.SuffixOfSuffix(was + vs, x, m.detector.windowSize);
    }
  }

  lemma SameReading(e: Event, host: Option<HostId>, metric: Metric)
    ensures e.(host := host).Value(metric) == e.Value(metric)
  {
  }
}
