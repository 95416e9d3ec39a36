/** `TelemetryIngestionService.persist_batch`: deduplication inside the batch, by a SELECT, and by the INSERT itself. */
module Ingestion {
  import opened Common
  import opened Domain
  import opened Agent

  /** The schema's limit on the samples of one request. */
  const MAX_BATCH: nat := 250

  /** The unique constraint of the table. */
  datatype RowKey = RowKey(host: HostId, sequence: nat)

  type Table = map<RowKey, Sample>

  function SequencesOf(events: seq<Sample>): (r: set<nat>)
    ensures forall i :: 0 <= i < |events| ==> events[i].sequence in r
    ensures forall q :: q in r ==> exists i :: 0 <= i < |events| && events[i].sequence == q
  {
    if events == [] then {} else SequencesOf(events[..|events| - 1]) + {events[|events| - 1].sequence}
  }

  predicate OnePerSequence(samples: seq<Sample>) {
    forall i, j :: 0 <= i < j < |samples| ==> samples[i].sequence != samples[j].sequence
  }

  /** The first sample of each sequence number, in order. */
  function FirstOfEach(events: seq<Sample>): (r: seq<Sample>)
    ensures SequencesOf(r) == SequencesOf(events) && OnePerSequence(r)
    ensures forall s :: s in r ==> s in events
  {
    if events == [] then [] else
    var last, rest := events[|events| - 1], FirstOfEach(events[..|events| - 1]);
    assert (rest + [last])[..|rest|] == rest;
    if last.sequence in SequencesOf(rest) then rest else rest + [last]
  }

  function Without(events: seq<Sample>, known: set<nat>): (r: seq<Sample>)
    ensures forall s :: s in r <==> s in events && s.sequence !in known
  {
    if events == [] then []
    else if events[|events| - 1].sequence in known then Without(events[..|events| - 1], known)
    else Without(events[..|events| - 1], known) + [events[|events| - 1]]
  }

  function StoredFor(rows: Table, host: HostId): set<nat> {
    set k | k in rows && k.host == host :: k.sequence
  }

  /** The rows after `INSERT ... ON CONFLICT DO NOTHING`. */
  function InsertAll(rows: Table, host: HostId, samples: seq<Sample>): Table {
    if samples == [] then rows else
    var before, s := InsertAll(rows, host, samples[..|samples| - 1]), samples[|samples| - 1];
    if RowKey(host, s.sequence) in before then before else before[RowKey(host, s.sequence) := s]
  }

  /** What the request accepts if the table holds `rows` when the INSERT runs. */
  function Accepted(rows: Table, host: HostId, events: seq<Sample>): seq<Sample> {
    Without(FirstOfEach(events), StoredFor(rows, host))
  }

  lemma {:induction false} WithoutTwice(events: seq<Sample>, a: set<nat>, b: set<nat>)
    requires a <= b
    ensures Without(Without(events, a), b) == Without(events, b)
  {
    if events != [] {
      var front := events[..|events| - 1];
      WithoutTwice(front, a, b);
      var w := Without(front, a);
      if events[|events| - 1].sequence !in a { assert (w + [events[|events| - 1]])[..|w|] == w; }
    }
  }

  /** The SELECT in front of the INSERT never changes the result, however many rows arrive in between. */
  lemma PrefilterIsIrrelevant(before: Table, rows: Table, host: HostId, events: seq<Sample>)
    requires before.Keys <= rows.Keys
    ensures Without(Without(FirstOfEach(events), StoredFor(before, host)), StoredFor(rows, host)) == Accepted(rows, host, events)
  {
    WithoutTwice(FirstOfEach(events), StoredFor(before, host), StoredFor(rows, host));
  }

  /** The INSERT stores exactly the accepted samples beside the old rows, and no sequence twice. */
  lemma {:induction false} InsertAddsTheAccepted(rows: Table, host: HostId, samples: seq<Sample>, k: RowKey)
    requires OnePerSequence(samples)
    ensures var r := InsertAll(rows, host, samples);
      && (k in r <==> k in rows || (k.host == host && k.sequence in SequencesOf(samples)))
      && (k in rows ==> r[k] == rows[k])
      && (k in r && k !in rows ==> r[k] in samples && r[k].sequence == k.sequence && r[k] in Without(samples, StoredFor(rows, host)))
  {
    if samples != [] {
      InsertAddsTheAccepted(rows, host, samples[..|samples| - 1], k);
    }
  }

  class TelemetryTable {
    var rows: Table

    constructor ()
      ensures rows == map[]
    {
      rows := map[];
    }

    method Insert(host: HostId, candidates: seq<Sample>) returns (inserted: set<nat>)
      requires OnePerSequence(candidates)
      modifies this
      ensures rows == InsertAll(old(rows), host, candidates)
      ensures inserted == SequencesOf(candidates) - StoredFor(old(rows), host)
    {
      inserted := {};
      var i := 0;
      while i < |candidates|
        invariant 0 <= i <= |candidates| && rows == InsertAll(old(rows), host, candidates[..i])
        invariant inserted == SequencesOf(candidates[..i]) - StoredFor(old(rows), host)
      {
        var s := candidates[i];
        assert candidates[..i + 1][..i] == candidates[..i];
        InsertAddsTheAccepted(old(rows), host, candidates[..i], RowKey(host, s.sequence));
        if RowKey(host, s.sequence) !in rows {
          rows := rows[RowKey(host, s.sequence) := s];
          inserted := inserted + {s.sequence};
        }
        i := i + 1;
      }
      assert candidates[..i] == candidates;
    }
  }

  class HostRecord {
    const id: HostId
    var lastSeen: Option<Time>

    constructor (id: HostId)
      ensures this.id == id && lastSeen == None
    {
      this.id := id;
      lastSeen := None;
    }
  }

  /** The latest timestamp of some samples. */
  predicate IsLatest(t: Time, samples: seq<Sample>) {
    (exists s :: s in samples && s.reading.timestamp == t) && forall s :: s in samples ==> s.reading.timestamp <= t
  }

  /** Concurrent transactions may store `meanwhile` between the SELECT and the INSERT. */
  method PersistBatch(table: TelemetryTable, host: HostRecord, events: seq<Sample>, meanwhile: Table)
    returns (accepted: seq<Sample>)
    requires table.rows.Keys !! meanwhile.Keys
    modifies table, host
    ensures var rows := if Without(FirstOfEach(events), StoredFor(old(table.rows), host.id)) == [] then old(table.rows)
                        else old(table.rows) + meanwhile;
      accepted == Accepted(rows, host.id, events) && table.rows == InsertAll(rows, host.id, FirstOfEach(events))
    ensures accepted == [] ==> host.lastSeen == old(host.lastSeen)
    ensures accepted != [] ==> host.lastSeen.Some? && IsLatest(host.lastSeen.value, accepted)
  {
    hide FirstOfEach, Without, InsertAll, SequencesOf, StoredFor, OnePerSequence, IsLatest;
    var first := KeepFirst(events);
    var existing := StoredFor(table.rows, host.id);
    var candidates := Keep(first, {}, existing);
    assert {} + existing == existing;
    if candidates == [] {
      NothingToInsert(table.rows, host.id, first);
      return [];
    }
    MoreRows(table.rows, meanwhile, host.id);
    table.rows := table.rows + meanwhile;
    ghost var rows := table.rows;
    DistinctWithout(first, existing);
    var inserted := table.Insert(host.id, candidates);
    accepted := Keep(candidates, SequencesOf(candidates) - inserted, {});
    TheInsertedAreAccepted(rows, host.id, events, existing);
    if accepted != [] {
      var latest := LatestOf(accepted);
      host.lastSeen := Some(latest);
    }
  }

  lemma MoreRows(rows: Table, more: Table, host: HostId)
    ensures StoredFor(rows, host) <= StoredFor(rows + more, host)
  {
  }

  /** What the code computes from the RETURNING clause is what the table did not hold. */
  lemma TheInsertedAreAccepted(rows: Table, host: HostId, events: seq<Sample>, existing: set<nat>)
    requires existing <= StoredFor(rows, host)
    ensures var first := FirstOfEach(events);
      var candidates := Without(first, existing);
      var inserted := SequencesOf(candidates) - StoredFor(rows, host);
      && Without(candidates, (SequencesOf(candidates) - inserted) + {}) == Accepted(rows, host, events)
      && InsertAll(rows, host, candidates) == InsertAll(rows, host, first)
  {
    var first := FirstOfEach(events);
    var candidates := Without(first, existing);
    var inserted := SequencesOf(candidates) - StoredFor(rows, host);
    InsertOnlyTheNew(rows, host, first, existing);
    SameWithout(candidates, (SequencesOf(candidates) - inserted) + {}, StoredFor(rows, host));
    WithoutTwice(first, existing, StoredFor(rows, host));
  }

  method LatestOf(samples: seq<Sample>) returns (latest: Time)
    requires samples != []
    ensures IsLatest(latest, samples)
  {
    latest := samples[0].reading.timestamp;
    var i := 1;
    assert samples[0] in samples[..1];
    while i < |samples|
      invariant 1 <= i <= |samples| && IsLatest(latest, samples[..i])
    {
      assert samples[..i + 1] == samples[..i] + [samples[i]];
      assert samples[i] in samples[..i + 1];
      if latest < samples[i].reading.timestamp { latest := samples[i].reading.timestamp; }
      i := i + 1;
    }
    assert samples[..i] == samples;
  }

  /** The dictionary of first occurrences, in insertion order. */
  method KeepFirst(events: seq<Sample>) returns (first: seq<Sample>)
    ensures first == FirstOfEach(events)
  {
    first := [];
    var seen := {};
    var i := 0;
    while i < |events|
      invariant 0 <= i <= |events| && first == FirstOfEach(events[..i]) && seen == SequencesOf(first)
    {
      assert events[..i + 1][..i] == events[..i];
      if events[i].sequence !in seen {
        assert (first + [events[i]])[..|first|] == first;
        first := first + [events[i]];
        seen := seen + {events[i].sequence};
      }
      i := i + 1;
    }
    assert events[..i] == events;
  }

  /** The samples in neither of two sets of sequences. */
  method Keep(samples: seq<Sample>, a: set<nat>, b: set<nat>) returns (kept: seq<Sample>)
    ensures kept == Without(samples, a + b)
  {
    kept := [];
    var i := 0;
    while i < |samples|
      invariant 0 <= i <= |samples| && kept == Without(samples[..i], a + b)
    {
      assert samples[..i + 1][..i] == samples[..i];
      if samples[i].sequence !in a && samples[i].sequence !in b { kept := kept + [samples[i]]; }
      i := i + 1;
    }
    assert samples[..i] == samples;
  }

  lemma {:induction false} SameWithout(events: seq<Sample>, a: set<nat>, b: set<nat>)
    requires forall s :: s in events ==> (s.sequence in a <==> s.sequence in b)
    ensures Without(events, a) == Without(events, b)
  {
    if events != [] { SameWithout(events[..|events| - 1], a, b); }
  }

  lemma {:induction false} DistinctWithout(events: seq<Sample>, known: set<nat>)
    requires OnePerSequence(events)
    ensures OnePerSequence(Without(events, known))
  {
    if events != [] {
      var front := events[..|events| - 1];
      DistinctWithout(front, known);
      var w := Without(front, known);
      forall i | 0 <= i < |w| ensures w[i].sequence != events[|events| - 1].sequence {
        assert w[i] in front;
      }
    }
  }

  lemma NothingToInsert(rows: Table, host: HostId, samples: seq<Sample>)
    requires Without(samples, StoredFor(rows, host)) == []
    ensures InsertAll(rows, host, samples) == rows
  {
    InsertOnlyTheNew(rows, host, samples, StoredFor(rows, host));
  }

  /** Rows known to exist need not be sent. */
  lemma {:induction false} InsertOnlyTheNew(rows: Table, host: HostId, samples: seq<Sample>, known: set<nat>)
    requires known <= StoredFor(rows, host)
    ensures InsertAll(rows, host, Without(samples, known)) == InsertAll(rows, host, samples)
  {
    if samples != [] {
      var front, last := samples[..|samples| - 1], samples[|samples| - 1];
      InsertOnlyTheNew(rows, host, front, known);
      KeepsRows(rows, host, front);
      var w := Without(front, known);
      if last.sequence !in known { assert (w + [last])[..|w|] == w; }
    }
  }

  lemma {:induction false} KeepsRows(rows: Table, host: HostId, samples: seq<Sample>)
    ensures rows.Keys <= InsertAll(rows, host, samples).Keys
  {
    if samples != [] { KeepsRows(rows, host, samples[..|samples| - 1]); }
  }
}
