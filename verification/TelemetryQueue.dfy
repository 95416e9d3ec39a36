/** `TelemetryPersistence`: a bounded queue, batches with one retry, and a conflict-ignoring INSERT. */
module TelemetryQueue {
  import opened Common
  import opened Domain
  import opened Agent
  import opened Ingestion

  /** A queued event: its host, if it has one, and its sequence and reading. */
  datatype Queued = Queued(host: Option<HostId>, sample: Sample)

  function KeyOf(own: HostId, q: Queued): RowKey {
    RowKey(if q.host.Some? then q.host.value else own, q.sample.sequence)
  }

  /** The event is for that host: its own, or the queue's if it has none. */
  predicate IsFor(own: HostId, q: Queued, h: HostId) {
    q.host == Some(h) || (q.host.None? && h == own)
  }

  predicate HasKey(own: HostId, q: Queued, k: RowKey) {
    IsFor(own, q, k.host) && q.sample.sequence == k.sequence
  }

  function Write(rows: Table, own: HostId, q: Queued): Table {
    if KeyOf(own, q) in rows then rows else rows[KeyOf(own, q) := q.sample]
  }

  function WriteAll(rows: Table, own: HostId, qs: seq<Queued>): Table {
    if qs == [] then rows else Write(WriteAll(rows, own, qs[..|qs| - 1]), own, qs[|qs| - 1])
  }

  lemma {:induction false} WriteConcat(rows: Table, own: HostId, a: seq<Queued>, b: seq<Queued>)
    ensures WriteAll(rows, own, a + b) == WriteAll(WriteAll(rows, own, a), own, b)
  {
    if b == [] {
      assert a + b == a;
    } else {
      assert (a + b)[..|a + b| - 1] == a + b[..|b| - 1];
      WriteConcat(rows, own, a, b[..|b| - 1]);
    }
  }

  /** The first event of a key decides its row; earlier rows win over all of them. */
  lemma {:induction false} FirstWriteWins(rows: Table, own: HostId, qs: seq<Queued>, k: RowKey)
    ensures var r := WriteAll(rows, own, qs);
      && (k in rows ==> k in r && r[k] == rows[k])
      && (k in r && k !in rows ==> exists i :: 0 <= i < |qs| && HasKey(own, qs[i], k) && qs[i].sample == r[k]
                                              && forall j :: 0 <= j < i ==> !HasKey(own, qs[j], k))
      && (forall i :: 0 <= i < |qs| && HasKey(own, qs[i], k) ==> k in r)
  {
    if qs != [] {
      var n := |qs| - 1;
      FirstWriteWins(rows, own, qs[..n], k);
      var before := WriteAll(rows, own, qs[..n]);
      if k in before && k !in rows {
        var i :| 0 <= i < n && HasKey(own, qs[..n][i], k) && qs[..n][i].sample == before[k]
                 && forall j :: 0 <= j < i ==> !HasKey(own, qs[..n][j], k);
        assert forall j :: 0 <= j < n ==> qs[..n][j] == qs[j];
      } else if k !in before && KeyOf(own, qs[n]) == k {
        assert forall j :: 0 <= j < n ==> qs[..n][j] == qs[j];
      }
    }
  }

  /** The latest timestamp of each host in a batch. */
  function HostUpdates(own: HostId, qs: seq<Queued>): map<HostId, Time> {
    if qs == [] then map[] else
    var before, q := HostUpdates(own, qs[..|qs| - 1]), qs[|qs| - 1];
    var h := KeyOf(own, q).host;
    if h !in before || q.sample.reading.timestamp > before[h] then before[h := q.sample.reading.timestamp] else before
  }

  lemma {:induction false} UpdatesAreLatest(own: HostId, qs: seq<Queued>, h: HostId)
    ensures var u := HostUpdates(own, qs);
      && (h in u <==> exists i :: 0 <= i < |qs| && IsFor(own, qs[i], h))
      && (h in u ==> (exists i :: 0 <= i < |qs| && IsFor(own, qs[i], h) && qs[i].sample.reading.timestamp == u[h])
                     && (forall i :: 0 <= i < |qs| && IsFor(own, qs[i], h) ==> qs[i].sample.reading.timestamp <= u[h]))
  {
    if qs != [] {
      var n := |qs| - 1;
      UpdatesAreLatest(own, qs[..n], h);
      assert forall i :: 0 <= i < n ==> qs[..n][i] == qs[i];
    }
  }

  function OrNothing(batch: Option<seq<Queued>>): seq<Queued> {
    if batch.Some? then batch.value else []
  }

  lemma OneRowMore(rows: Table, k: RowKey, s: Sample)
    requires k !in rows
    ensures |rows[k := s]| == |rows| + 1
  {
    assert rows[k := s].Keys == rows.Keys + {k};
  }

  /** `written` and `accepted` record, in order, what was persisted and what the queue took. */
  class TelemetryPersistence {
    const own: HostId
    const capacity: nat
    const batchSize: nat
    ghost const start: Table
    var rows: Table
    var lastSeen: map<HostId, Time>
    var queue: seq<Queued>
    var retryBatch: Option<seq<Queued>>
    var dropped: nat
    var persisted: nat
    ghost var accepted: seq<Queued>
    ghost var written: seq<Queued>

    /** Accepted events are persisted, in the batch being retried, or queued, in that order; and the table is what
        writing the persisted ones in order gives. */
    ghost predicate Valid()
      reads this
    {
      && accepted == written + OrNothing(retryBatch) + queue
      && (retryBatch.Some? ==> 1 <= |retryBatch.value| <= batchSize) && batchSize >= 1
      && rows == WriteAll(start, own, written) && |rows| == |start| + persisted
    }

    constructor (own: HostId, capacity: nat, batchSize: nat, rows: Table)
      requires batchSize >= 1
      ensures Valid() && accepted == [] && this.rows == rows && this.batchSize == batchSize && this.capacity == capacity
    {
      this.own, this.capacity, this.batchSize, this.rows, start := own, capacity, batchSize, rows, rows;
      lastSeen, queue, retryBatch, dropped, persisted := map[], [], None, 0, 0;
      accepted, written := [], [];
    }

    /** Capacity 0 means unbounded. */
    method Enqueue(q: Queued)
      requires Valid()
      modifies this
      ensures Valid() && written == old(written) && rows == old(rows) && retryBatch == old(retryBatch)
      ensures if old(capacity == 0 || |queue| < capacity)
              then accepted == old(accepted) + [q] && queue == old(queue) + [q] && dropped == old(dropped)
              else accepted == old(accepted) && queue == old(queue) && dropped == old(dropped) + 1
    {
      if capacity == 0 || |queue| < capacity {
        assert written + OrNothing(retryBatch) + (queue + [q]) == written + OrNothing(retryBatch) + queue + [q];
        queue := queue + [q];
        accepted := accepted + [q];
      } else {
        dropped := dropped + 1;
      }
    }

    method TakeBatch() returns (batch: seq<Queued>)
      requires queue != [] && batchSize >= 1
      modifies this`queue
      ensures 1 <= |batch| <= batchSize && batch + queue == old(queue) && (|batch| < batchSize ==> queue == [])
    {
      batch := [queue[0]];
      queue := queue[1..];
      while |batch| < batchSize && queue != []
        invariant 1 <= |batch| <= batchSize && batch + queue == old(queue)
        decreases |queue|
      {
        assert batch + queue == batch + [queue[0]] + queue[1..];
        batch := batch + [queue[0]];
        queue := queue[1..];
      }
    }

    method InsertRows(batch: seq<Queued>) returns (inserted: nat)
      modifies this`rows
      ensures rows == WriteAll(old(rows), own, batch) && |rows| == |old(rows)| + inserted
    {
      inserted := 0;
      var i := 0;
      while i < |batch|
        invariant 0 <= i <= |batch| && rows == WriteAll(old(rows), own, batch[..i]) && |rows| == |old(rows)| + inserted
      {
        assert batch[..i + 1][..i] == batch[..i];
        var key := KeyOf(own, batch[i]);
        if key !in rows {
          OneRowMore(rows, key, batch[i].sample);
          rows := rows[key := batch[i].sample];
          inserted := inserted + 1;
        }
        i := i + 1;
      }
      assert batch[..i] == batch;
    }

    method LatestPerHost(batch: seq<Queued>) returns (updates: map<HostId, Time>)
      ensures updates == HostUpdates(own, batch)
    {
      updates := map[];
      var i := 0;
      while i < |batch|
        invariant 0 <= i <= |batch| && updates == HostUpdates(own, batch[..i])
      {
        assert batch[..i + 1][..i] == batch[..i];
        var host, at := KeyOf(own, batch[i]).host, batch[i].sample.reading.timestamp;
        if host !in updates || at > updates[host] { updates := updates[host := at]; }
        i := i + 1;
      }
      assert batch[..i] == batch;
    }

    method Persist(batch: seq<Queued>)
      modifies this`rows, this`lastSeen, this`persisted
      ensures rows == WriteAll(old(rows), own, batch) && persisted + |old(rows)| == old(persisted) + |rows|
      ensures lastSeen == old(lastSeen) + HostUpdates(own, batch)
    {
      var inserted := InsertRows(batch);
      var updates := LatestPerHost(batch);
      lastSeen := lastSeen + updates;
      persisted := persisted + inserted;
    }

    /** One pass through the worker's loop; a failing transaction leaves no trace and its batch is retried first. */
    method Iterate(healthy: bool)
      requires Valid()
      modifies this
      ensures Valid() && accepted == old(accepted) && dropped == old(dropped)
      ensures old(written) <= written && (!healthy ==> written == old(written) && rows == old(rows))
      ensures healthy && old(accepted) != old(written) ==> |written| > |old(written)|
    {
      hide WriteAll, HostUpdates;
      if retryBatch.None? && queue == [] { return; }
      var batch;
      if retryBatch.None? {
        batch := TakeBatch();
      } else {
        batch := retryBatch.value;
        retryBatch := None;
      }
      assert accepted == written + batch + queue;
      if healthy {
        Persist(batch);
        WriteConcat(start, own, written, batch);
        written := written + batch;
      } else {
        retryBatch := Some(batch);
      }
    }
  }
}
