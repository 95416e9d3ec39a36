/** Telemetry retention: bounded batches of the oldest rows below a cutoff. */
module Retention {
  import opened Common

  datatype Row = Row(id: nat, timestamp: Time)

  /** The order of the query: by timestamp, then by identifier. */
  predicate Before(a: Row, b: Row) {
    a.timestamp < b.timestamp || (a.timestamp == b.timestamp && a.id < b.id)
  }

  function Expired(rows: set<Row>, cutoff: Time): set<Row> {
    set r | r in rows && r.timestamp < cutoff
  }

  function Smaller(a: nat, b: nat): nat {
    if b < a then b else a
  }

  /** `removed` are the `n` first of `rows`, or all of them if there are fewer. */
  ghost predicate FirstOf(rows: set<Row>, n: nat, removed: set<Row>) {
    && removed <= rows && |removed| == Smaller(n, |rows|)
    && forall r, x :: r in removed && x in rows - removed ==> Before(r, x)
  }

  lemma FirstOfFirst(rows: set<Row>, n: nat, a: set<Row>, k: nat, b: set<Row>)
    requires FirstOf(rows, n, a) && FirstOf(rows - a, k, b)
    ensures FirstOf(rows, n + k, a + b)
  {
    assert |a + b| == |a| + |b| && |rows - a| == |rows| - |a| by {
      assert a !! b;
    }
    assert rows - (a + b) == rows - a - b;
  }

  lemma Total(a: Row, b: Row)
    ensures a == b || Before(a, b) || Before(b, a)
    ensures !(Before(a, b) && Before(b, a))
  {
  }

  lemma Shared(rows: set<Row>, n: nat, a: set<Row>, b: set<Row>, r: Row, x: Row)
    requires FirstOf(rows, n, a) && FirstOf(rows, n, b) && r in a - b && x in b
    ensures x in a
  {
    Total(r, x);
  }

  lemma SameSize(a: set<Row>, b: set<Row>)
    requires a <= b && |a| == |b|
    ensures a == b
  {
    assert b == a + (b - a) && |b| == |a| + |b - a|;
  }

  /** The first `n` are determined: there is only one such set. */
  lemma FirstOfIsUnique(rows: set<Row>, n: nat, a: set<Row>, b: set<Row>)
    requires FirstOf(rows, n, a) && FirstOf(rows, n, b)
    ensures a == b
  {
    if r :| r in a - b {
      forall x | x in b ensures x in a {
        Shared(rows, n, a, b, r, x);
      }
      SameSize(b, a);
    } else {
      assert forall x :: x in a ==> x in b by { assert forall x :: x in a && x !in b ==> x in a - b; }
      SameSize(a, b);
    }
  }

  lemma OneFirst(rows: set<Row>, m: Row)
    requires IsLeast(rows, m)
    ensures FirstOf(rows, 1, {m})
  {
  }

  predicate IsLeast(rows: set<Row>, m: Row) {
    m in rows && forall x :: x in rows ==> x == m || Before(m, x)
  }

  lemma LeastStep(rows: set<Row>, m: Row, x: Row)
    requires IsLeast(rows, m)
    ensures IsLeast(rows + {x}, if Before(x, m) then x else m)
  {
    Total(x, m);
  }

  method First(rows: set<Row>) returns (m: Row)
    requires rows != {}
    ensures IsLeast(rows, m)
  {
    m :| m in rows;
    var seen, rest := {m}, rows - {m};
    while rest != {}
      invariant seen + rest == rows && IsLeast(seen, m)
      decreases |rest|
    {
      var x :| x in rest;
      LeastStep(seen, m, x);
      if Before(x, m) { m := x; }
      seen, rest := seen + {x}, rest - {x};
    }
    assert seen == rows;
  }

  class TelemetryRetention {
    const enabled: bool
    const batchSize: nat
    const maxBatches: nat
    var rows: set<Row>
    var lastDeleted: nat

    constructor (enabled: bool, batchSize: nat, maxBatches: nat, rows: set<Row>)
      ensures this.enabled == enabled && this.batchSize == batchSize && this.maxBatches == maxBatches
      ensures this.rows == rows
    {
      this.enabled, this.batchSize, this.maxBatches, this.rows, lastDeleted := enabled, batchSize, maxBatches, rows, 0;
    }

    /** The first `limit` identifiers of the ordered query. */
    method Select(cutoff: Time, limit: nat) returns (found: set<Row>)
      ensures FirstOf(Expired(rows, cutoff), limit, found)
    {
      found := {};
      var all := Expired(rows, cutoff);
      var n := 0;
      while n < limit && all - found != {}
        invariant n <= limit && FirstOf(all, n, found)
        decreases limit - n
      {
        var m := First(all - found);
        OneFirst(all - found, m);
        FirstOfFirst(all, n, found, 1, {m});
        found, n := found + {m}, n + 1;
      }
      if n < limit { AllFound(all, n, limit, found); }
    }

    method DeleteBatch(cutoff: Time) returns (deleted: nat)
      modifies this`rows
      ensures FirstOf(Expired(old(rows), cutoff), batchSize, old(rows) - rows) && rows <= old(rows)
      ensures deleted == |old(rows) - rows|
    {
      var found := Select(cutoff, batchSize);
      assert rows - (rows - found) == found;
      if found == {} { return 0; }
      rows := rows - found;
      return |found|;
    }

    /** `run_once`: exactly the oldest rows below the cutoff, at most `maxBatches` full batches of them. */
    method RunOnce(cutoff: Time) returns (deleted: nat)
      requires batchSize >= 1
      modifies this
      ensures !enabled ==> deleted == 0 && rows == old(rows)
      ensures enabled ==> FirstOf(Expired(old(rows), cutoff), maxBatches * batchSize, old(rows) - rows) && rows <= old(rows)
      ensures deleted == |old(rows) - rows| && (enabled ==> lastDeleted == deleted)
      ensures forall r :: r in old(rows) - rows ==> r.timestamp < cutoff
    {
      hide FirstOf, Expired;
      deleted := 0;
      ghost var gone: set<Row> := {};
      assert old(rows) - rows == gone;
      if !enabled { return; }
      ghost var all := Expired(rows, cutoff);
      NoneYet(all);
      var batch := 0;
      while batch < maxBatches
        invariant batch <= maxBatches && rows == old(rows) - gone && gone <= old(rows) && deleted == |gone|
        invariant FirstOf(all, batch * batchSize, gone) && Expired(rows, cutoff) == all - gone
      {
        ghost var before := rows;
        var n := DeleteBatch(cutoff);
        BatchStep(old(rows), gone, before, rows, cutoff, all, batch, batchSize);
        gone := gone + (before - rows);
        batch := batch + 1;
        deleted := deleted + n;
        if n < batchSize {
          assert batch * batchSize <= maxBatches * batchSize by { MoreBatches(batch, maxBatches, batchSize); }
          Exhausted(all, gone, batch * batchSize, maxBatches * batchSize);
          break;
        }
      }
      OnlyExpired(old(rows), cutoff, maxBatches * batchSize, gone);
      assert old(rows) - rows == gone;
      lastDeleted := deleted;
    }
  }

  lemma NoneYet(all: set<Row>)
    ensures FirstOf(all, 0, {})
  {
  }

  lemma BatchStep(start: set<Row>, gone: set<Row>, before: set<Row>, rows: set<Row>, cutoff: Time, all: set<Row>,
                  batch: nat, size: nat)
    requires before == start - gone && gone <= start && rows <= before && all == Expired(start, cutoff)
    requires Expired(before, cutoff) == all - gone && FirstOf(all, batch * size, gone)
    requires FirstOf(Expired(before, cutoff), size, before - rows)
    ensures FirstOf(all, (batch + 1) * size, gone + (before - rows))
    ensures Expired(rows, cutoff) == all - (gone + (before - rows))
    ensures rows == start - (gone + (before - rows)) && |gone + (before - rows)| == |gone| + |before - rows|
    ensures |before - rows| < size ==> all == gone + (before - rows)
  {
    var more := before - rows;
    FirstOfFirst(all, batch * size, gone, size, more);
    assert (batch + 1) * size == batch * size + size;
    assert gone !! more;
    if |more| < size { SameSize(more, all - gone); }
  }

  lemma AllFound(all: set<Row>, n: nat, limit: nat, found: set<Row>)
    requires FirstOf(all, n, found) && n <= limit && all - found == {}
    ensures FirstOf(all, limit, found)
  {
    assert forall x :: x in all ==> x in found by { assert forall x :: x in all && x !in found ==> x in all - found; }
    assert found == all;
  }

  /** A batch that is not full leaves nothing for the batches that are not run. */
  lemma Exhausted(all: set<Row>, removed: set<Row>, n: nat, limit: nat)
    requires FirstOf(all, n, removed) && removed == all && n <= limit
    ensures FirstOf(all, limit, removed)
  {
  }

  lemma MoreBatches(a: nat, b: nat, size: nat)
    requires a <= b
    ensures a * size <= b * size
  {
  }

  lemma OnlyExpired(rows: set<Row>, cutoff: Time, n: nat, removed: set<Row>)
    requires FirstOf(Expired(rows, cutoff), n, removed)
    ensures forall r :: r in removed ==> r.timestamp < cutoff
  {
    forall r | r in removed ensures r.timestamp < cutoff { assert r in Expired(rows, cutoff); }
  }
}
