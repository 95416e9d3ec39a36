/** The host agent: sequence numbers, buffering, and the bounded retry loop of a flush. */
module Agent {
  import opened Common
  import opened Domain

  /** A collected sample; the host is only known to the server. */
  datatype Sample = Sample(sequence: nat, reading: Event)

  /** What one POST comes back with; `retryAfter` is the header, one second if absent, or None if it is no number. */
  datatype Reply = NoReply | Status(code: nat, retryAfter: Option<real>)

  datatype Outcome = Delivered | Buffered | Raised

  const ATTEMPTS: nat := 5

  function NextSequence(last: nat, clock: nat): nat {
    if last + 1 < clock then clock else last + 1
  }

  predicate Limited(r: Reply) {
    r.Status? && r.code == 429
  }

  /** May the same batch be posted again after this reply? */
  predicate Retryable(r: Reply) {
    r.NoReply? || (Limited(r) && r.retryAfter.Some?) || (r.Status? && 500 <= r.code < 600)
  }

  /** Does this reply to the last attempt leave the batch in the buffer? The header is not read any more. */
  predicate Keeps(r: Reply) {
    r.NoReply? || Limited(r) || (r.Status? && 500 <= r.code < 600)
  }

  predicate Success(r: Reply) {
    r.Status? && 200 <= r.code < 300
  }

  /** The pause after a retryable reply, and the back-off delay that follows it. */
  function Pause(r: Reply, delay: real): real
    requires Retryable(r)
  {
    if Limited(r) then Least(Max(r.retryAfter.value, 0.1), 30.0) else Least(delay, 8.0)
  }

  function NextDelay(r: Reply, delay: real): real {
    if Limited(r) then delay else Least(delay * 2.0, 8.0)
  }

  /** The back-off delay and the pauses after a series of retryable replies. */
  function DelayAfter(rs: seq<Reply>): (d: real)
    ensures 1.0 <= d <= 8.0
  {
    if rs == [] then 1.0 else NextDelay(rs[|rs| - 1], DelayAfter(rs[..|rs| - 1]))
  }

  function Pauses(rs: seq<Reply>): (p: seq<real>)
    requires forall i :: 0 <= i < |rs| ==> Retryable(rs[i])
    ensures |p| == |rs| && forall i :: 0 <= i < |p| ==> 0.1 <= p[i] <= if Limited(rs[i]) then 30.0 else 8.0
  {
    if rs == [] then [] else Pauses(rs[..|rs| - 1]) + [Pause(rs[|rs| - 1], DelayAfter(rs[..|rs| - 1]))]
  }

  function Least(x: real, y: real): real {
    if y < x then y else x
  }

  // ----- Reference: what a flush does with the replies it would get -----

  /** Number of leading replies that do not end the flush; the last one counts if it keeps the batch. */
  function Retries(replies: seq<Reply>): (n: nat)
    ensures n <= |replies| && (forall i :: 0 <= i < n && i < |replies| - 1 ==> Retryable(replies[i]))
    ensures n == |replies| && n > 0 ==> Keeps(replies[n - 1])
    ensures n < |replies| - 1 ==> !Retryable(replies[n])
    ensures n == |replies| - 1 ==> !Keeps(replies[n])
  {
    if replies == [] then 0
    else if if |replies| == 1 then Keeps(replies[0]) else Retryable(replies[0]) then 1 + Retries(replies[1..])
    else 0
  }

  /** The first reply that cannot be retried decides; if none of five does, the batch stays in the buffer. */
  function Verdict(replies: seq<Reply>): Outcome
    requires |replies| == ATTEMPTS
  {
    var n := Retries(replies);
    if n == ATTEMPTS then Buffered else if Success(replies[n]) then Delivered else Raised
  }

  /** No answer, a rate limit with a readable Retry-After, or a server error. */
  predicate Transient(r: Reply) {
    match r
    case NoReply => true
    case Status(code, header) => (code == 429 && header.Some?) || code / 100 == 5
  }

  /** The batch is delivered exactly if some attempt, with only transient replies before it, is answered with a 2xx; it
      stays in the buffer exactly if four transient replies are followed by a fifth or by an unreadable rate limit. */
  lemma VerdictIs(replies: seq<Reply>)
    requires |replies| == ATTEMPTS
    ensures Verdict(replies) == Delivered <==>
      exists n: nat :: n < 5 && replies[n].Status? && replies[n].code / 100 == 2 && forall i :: 0 <= i < n ==> Transient(replies[i])
    ensures Verdict(replies) == Buffered <==>
      (forall i :: 0 <= i < 4 ==> Transient(replies[i]))
      && (Transient(replies[4]) || (replies[4].Status? && replies[4].code == 429))
  {
    var n := Retries(replies);
    forall i: nat | i < 5 ensures Transient(replies[i]) <==> Retryable(replies[i]) { Hundreds(replies[i]); }
    if n < 5 { Hundreds(replies[n]); }
    if m: nat :| m < 5 && replies[m].Status? && replies[m].code / 100 == 2 && forall i :: 0 <= i < m ==> Transient(replies[i]) {
      Hundreds(replies[m]);
      assert n == m;
    }
  }

  lemma Hundreds(r: Reply)
    ensures Transient(r) <==> Retryable(r)
    ensures r.Status? ==> (r.code / 100 == 5 <==> 500 <= r.code < 600) && (r.code / 100 == 2 <==> Success(r))
  {
  }

  /** How many of the replies were no rate limits. */
  function Failures(rs: seq<Reply>): nat {
    if rs == [] then 0
    else Failures(rs[..|rs| - 1]) + if rs[|rs| - 1].Status? && rs[|rs| - 1].code == 429 then 0 else 1
  }

  /** The pauses: a rate limit's own, between 0.1 and 30 seconds, or 1, 2, 4 and then 8 seconds after the other failures. */
  lemma {:induction false} PausesAre(rs: seq<Reply>, i: nat)
    requires i < |rs| && forall k :: 0 <= k < |rs| ==> Retryable(rs[k])
    ensures var p, k := Pauses(rs)[i], Failures(rs[..i]);
      if rs[i].Status? && rs[i].code == 429 then
        var asked := rs[i].retryAfter.value;
        p == if asked < 0.1 then 0.1 else if asked > 30.0 then 30.0 else asked
      else p == if k == 0 then 1.0 else if k == 1 then 2.0 else if k == 2 then 4.0 else 8.0
  {
    if i < |rs| - 1 {
      PausesAre(rs[..|rs| - 1], i);
      assert rs[..|rs| - 1][..i] == rs[..i];
    } else {
      DelaysAre(rs[..i]);
    }
  }

  lemma {:induction false} DelaysAre(rs: seq<Reply>)
    ensures var k := Failures(rs); DelayAfter(rs) == if k == 0 then 1.0 else if k == 1 then 2.0 else if k == 2 then 4.0 else 8.0
  {
    if rs != [] { DelaysAre(rs[..|rs| - 1]); }
  }

  class HostCollector {
    var lastSequence: nat
    /** The buffer of `run`. */
    var pending: seq<Sample>

    constructor ()
      ensures lastSequence == 0 && pending == []
    {
      lastSequence, pending := 0, [];
    }

    /** The sequence of a sample: strictly larger than the last, and never behind the millisecond clock. */
    method Collect(clock: nat, reading: Event) returns (s: Sample)
      modifies this`lastSequence
      ensures s == Sample(lastSequence, reading) && lastSequence == NextSequence(old(lastSequence), clock)
      ensures old(lastSequence) < lastSequence && clock <= lastSequence
      ensures lastSequence == old(lastSequence) + 1 || lastSequence == clock
    {
      lastSequence := lastSequence + 1;
      if lastSequence < clock { lastSequence := clock; }
      s := Sample(lastSequence, reading);
    }

    /** `_flush`: `replies[i]` is what attempt `i` would get; `sleeps` are the pauses between attempts. */
    method Flush(replies: seq<Reply>) returns (outcome: Outcome, posts: nat, sleeps: seq<real>)
      requires |replies| == ATTEMPTS
      ensures outcome == Verdict(replies)
      ensures posts == (if outcome == Buffered then ATTEMPTS else Retries(replies) + 1)
      ensures forall i :: 0 <= i < posts - 1 ==> Retryable(replies[i])
      ensures posts <= ATTEMPTS && sleeps == Pauses(replies[..posts - 1])
    {
      var delay := 1.0;
      posts, sleeps := 0, [];
      for attempt := 0 to ATTEMPTS
        invariant attempt < ATTEMPTS && posts == attempt <= Retries(replies)
        invariant forall i :: 0 <= i < attempt ==> Retryable(replies[i])
        invariant delay == DelayAfter(replies[..attempt]) && sleeps == Pauses(replies[..attempt])
      {
        var reply := replies[attempt];
        assert replies[..attempt + 1][..attempt] == replies[..attempt];
        posts := posts + 1;
        if reply.NoReply? {
          if attempt == 4 { return Buffered, posts, sleeps; }
          sleeps := sleeps + [Least(delay, 8.0)];
          delay := Least(delay * 2.0, 8.0);
        } else if reply.code == 401 {
          return Raised, posts, sleeps;
        } else if reply.code == 429 {
          if attempt == 4 { return Buffered, posts, sleeps; }
          if reply.retryAfter.None? { return Raised, posts, sleeps; }
          sleeps := sleeps + [Least(Max(reply.retryAfter.value, 0.1), 30.0)];
        } else if 500 <= reply.code < 600 {
          if attempt == 4 { return Buffered, posts, sleeps; }
          sleeps := sleeps + [Least(delay, 8.0)];
          delay := Least(delay * 2.0, 8.0);
        } else if reply.code < 200 || reply.code >= 300 {
          return Raised, posts, sleeps;
        } else {
          return Delivered, posts, sleeps;
        }
      }
      return Buffered, posts, sleeps;
    }

    /** One pass through the loop of `run`; an outcome `Raised` ends the agent with its buffer. */
    method Tick(clock: nat, reading: Event, batchSize: nat, replies: seq<Reply>) returns (outcome: Outcome)
      requires |replies| == ATTEMPTS && batchSize >= 1
      modifies this
      ensures var buffer := old(pending) + [Sample(NextSequence(old(lastSequence), clock), reading)];
        && lastSequence == NextSequence(old(lastSequence), clock)
        && outcome == (if |buffer| >= batchSize then Verdict(replies) else Buffered)
        && pending == (if outcome == Delivered then [] else buffer)
    {
      var s := Collect(clock, reading);
      pending := pending + [s];
      outcome := Buffered;
      if |pending| >= batchSize {
        var posts, sleeps;
        outcome, posts, sleeps := Flush(replies);
        if outcome == Delivered { pending := []; }
      }
    }
  }
}
