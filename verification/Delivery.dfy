/** The webhook delivery worker: durable rows, bounded attempts, restores and manual retries. */
module Delivery {
  import opened Common

  type DeliveryId = nat
  type ChannelId = nat

  /** What a delivery is about; unique in the table. */
  datatype Subject = Subject(channel: ChannelId, eventType: string, eventId: nat)

  datatype Status = Pending | Delivering | Delivered | Failed

  datatype Row = Row(subject: Subject, payload: string, url: string, status: Status, attempts: nat,
                     lastStatus: Option<nat>, lastError: bool)

  datatype Job = Job(id: DeliveryId, subject: Subject, payload: string, url: string)

  datatype Post = Post(id: DeliveryId, url: string, body: string)

  /** What one attempt meets. A success may fail to be recorded; the process may die around the POST. */
  datatype Outcome = Responds(code: nat, recorded: bool) | Throws | Dies(posted: bool)

  /** Every row ever inserted, every POST made, the attempts that were counted but died before their POST, and the
      channels that were deleted. The rows of a deleted channel go with it: they are on record here, but out of the table. */
  datatype State = State(rows: map<DeliveryId, Row>, posts: seq<Post>, interrupted: multiset<DeliveryId>,
                         deleted: set<ChannelId>)

  /** The row is in the table. */
  predicate Stored(s: State, id: DeliveryId) {
    id in s.rows && s.rows[id].subject.channel !in s.deleted
  }

  /** An identifier stays with its channel. */
  predicate Issued(s: State, job: Job) {
    job.id in s.rows ==> s.rows[job.id].subject.channel == job.subject.channel
  }

  predicate RetryableStatus(last: Option<nat>) {
    last.None? || last.value == 408 || last.value == 425 || last.value == 429 || last.value >= 500
  }

  predicate IsSuccess(code: nat) {
    200 <= code < 300
  }

  function Marked(s: State, id: DeliveryId, status: Status, attempts: nat, last: Option<nat>, error: bool): State
    requires id in s.rows
  {
    s.(rows := s.rows[id := s.rows[id].(status := status, attempts := attempts, lastStatus := last, lastError := error)])
  }

  function Posted(s: State, id: DeliveryId): State
    requires id in s.rows
  {
    s.(posts := s.posts + [Post(id, s.rows[id].url, s.rows[id].payload)])
  }

  /** The status and error that an attempt leaves behind; an exception keeps the status of an earlier attempt. */
  function StatusAfter(last: Option<nat>, o: Outcome): Option<nat>
    requires !o.Dies?
  {
    if o.Responds? then Some(o.code) else last
  }

  /** One attempt: the state it leaves, whether the loop goes on, and the last status seen. */
  datatype Step = Step(state: State, again: bool, last: Option<nat>)

  function OneAttempt(s: State, id: DeliveryId, total: nat, final: bool, last: Option<nat>, error: bool,
                      o: Outcome): (r: Step)
    requires id in s.rows
    ensures r.state.rows.Keys == s.rows.Keys
  {
    var s1 := Marked(s, id, Delivering, total, last, error);
    if o.Dies? then
      Step(if o.posted then Posted(s1, id) else s1.(interrupted := s1.interrupted + multiset{id}), false, last)
    else
      var s2 := Posted(s1, id);
      var status := StatusAfter(last, o);
      if o.Responds? && IsSuccess(o.code) && o.recorded then Step(Marked(s2, id, Delivered, total, status, false), false, status)
      else if !RetryableStatus(status) || final then Step(Marked(s2, id, Failed, total, status, true), false, status)
      else Step(s2, true, status)
  }

  /** The attempt loop from number `attempt` on; without a further outcome the process died before the next one. */
  function Loop(s: State, id: DeliveryId, previous: nat, attempt: nat, max: nat, last: Option<nat>, error: bool,
                outs: seq<Outcome>): (r: State)
    requires id in s.rows
    ensures r.rows.Keys == s.rows.Keys
    decreases |outs|
  {
    if outs == [] || attempt > max then s else
    var step := OneAttempt(s, id, previous + attempt, attempt >= max, last, error, outs[0]);
    if step.again then Loop(step.state, id, previous, attempt + 1, max, step.last, true, outs[1..]) else step.state
  }

  ghost predicate HasRow(s: State, subject: Subject) {
    exists i :: Stored(s, i) && s.rows[i].subject == subject
  }

  /** A new row for a job. */
  function FreshRow(j: Job): Row {
    Row(j.subject, j.payload, j.url, Pending, 0, None, false)
  }

  // ----- The dispatcher -----

  /** A full queue is reported by an exception, not by an answer. */
  datatype Retried = Requeued | Declined | Raised

  const RESTORE_LIMIT := 500

  class NotificationDispatcher {
    const maxAttempts: nat
    const capacity: nat
    /** The stored payloads that can be read back. */
    const parses: string -> bool
    var rows: map<DeliveryId, Row>
    var posts: seq<Post>
    var interrupted: multiset<DeliveryId>
    var deleted: set<ChannelId>
    var queue: seq<Job>
    var channels: set<ChannelId>
    var droppedJobs: nat

    function Value(): State
      reads this
    {
      State(rows, posts, interrupted, deleted)
    }

    constructor (maxAttempts: nat, capacity: nat, parses: string -> bool, rows: map<DeliveryId, Row>, channels: set<ChannelId>)
      ensures this.maxAttempts == maxAttempts && this.capacity == capacity && this.parses == parses
      ensures Value() == State(rows, [], multiset{}, {}) && queue == [] && this.channels == channels && droppedJobs == 0
    {
      this.maxAttempts, this.capacity, this.parses := maxAttempts, capacity, parses;
      this.rows, this.channels, deleted := rows, channels, {};
      posts, interrupted, queue, droppedJobs := [], multiset{}, [], 0;
    }

    method FindBySubject(subject: Subject) returns (id: Option<DeliveryId>)
      ensures id.Some? ==> Stored(Value(), id.value) && rows[id.value].subject == subject
      ensures id.None? ==> !HasRow(Value(), subject)
    {
      var rest := rows.Keys;
      while rest != {}
        invariant rest <= rows.Keys
        invariant forall i :: i in rows.Keys - rest && Stored(Value(), i) ==> rows[i].subject != subject
        decreases |rest|
      {
        var i :| i in rest;
        if Stored(Value(), i) && rows[i].subject == subject { return Some(i); }
        rest := rest - {i};
      }
      return None;
    }

    /** `delete_channel`: its deliveries leave the table with it. */
    method DeleteChannel(channel: ChannelId)
      modifies this`deleted, this`channels
      ensures Value() == old(Value()).(deleted := old(deleted) + {channel}) && channels == old(channels) - {channel}
      ensures forall i :: Stored(Value(), i) <==> Stored(old(Value()), i) && rows[i].subject.channel != channel
    {
      deleted := deleted + {channel};
      channels := channels - {channel};
    }

    /** `_ensure_delivery_row`; `raced` is the identifier of a row that another process may insert for the same
        notification between the query and the INSERT. Without its channel the INSERT fails for good. */
    method EnsureDeliveryRow(job: Job, raced: Option<DeliveryId>) returns (id: Option<DeliveryId>)
      requires Issued(Value(), job)
      requires raced.Some? ==> raced.value !in rows && raced.value != job.id && job.subject.channel !in deleted
      modifies this`rows
      ensures id.None? <==> job.subject.channel in deleted
      ensures id.None? ==> rows == old(rows)
      ensures id.Some? ==> id.value in rows
      ensures id.Some? && job.id in old(rows) ==> id.value == job.id && rows == old(rows)
      ensures id.Some? && job.id !in old(rows) ==>
        (&& rows[id.value].subject == job.subject
         && if HasRow(old(Value()), job.subject) then rows == old(rows)
            else rows == old(rows)[id.value := FreshRow(job)] && id == (if raced.Some? then raced else Some(job.id)))
    {
      if Stored(Value(), job.id) { return Some(job.id); }
      var existing := FindBySubject(job.subject);
      if existing.Some? { return existing; }
      if job.subject.channel in deleted { return None; }
      if raced.Some? {
        rows := rows[raced.value := FreshRow(job)];
        return raced;
      }
      rows := rows[job.id := FreshRow(job)];
      return Some(job.id);
    }

    /** `_queue_job`: when it does not take the job, it raises in its own error branch. */
    method QueueJob(job: Job) returns (ok: bool)
      modifies this`queue, this`droppedJobs
      ensures ok <==> |old(queue)| < capacity
      ensures queue == (if ok then old(queue) + [job] else old(queue))
      ensures droppedJobs == old(droppedJobs) + if ok then 0 else 1
    {
      ok := |queue| < capacity;
      if ok { queue := queue + [job]; } else { droppedJobs := droppedJobs + 1; }
    }

    method SetDeliveryState(id: DeliveryId, status: Status, attempts: nat, last: Option<nat>, error: bool)
      requires id in rows
      modifies this`rows
      ensures Value() == Marked(old(Value()), id, status, attempts, last, error)
    {
      rows := rows[id := rows[id].(status := status, attempts := attempts, lastStatus := last, lastError := error)];
    }

    method AttemptOnce(id: DeliveryId, body: string, url: string, total: nat, final: bool, last: Option<nat>,
                       error: bool, o: Outcome)
      returns (again: bool, status: Option<nat>)
      requires id in rows && rows[id].payload == body && rows[id].url == url
      modifies this`rows, this`posts, this`interrupted
      ensures OneAttempt(old(Value()), id, total, final, last, error, o) == Step(Value(), again, status)
      ensures id in rows && rows[id].payload == body && rows[id].url == url
    {
      status := last;
      SetDeliveryState(id, Delivering, total, last, error);
      if o.Dies? {
        if o.posted { posts := posts + [Post(id, url, body)]; } else { interrupted := interrupted + multiset{id}; }
        return false, status;
      }
      posts := posts + [Post(id, url, body)];
      if o.Responds? {
        status := Some(o.code);
        if 200 <= o.code < 300 && o.recorded {
          SetDeliveryState(id, Delivered, total, Some(o.code), false);
          return false, status;
        }
      }
      if !RetryableStatus(status) || final {
        SetDeliveryState(id, Failed, total, status, true);
        return false, status;
      }
      return true, status;
    }

    /** `_deliver` once its row is known; `outs` are the outcomes of its attempts. */
    method Attempt(id: DeliveryId, outs: seq<Outcome>)
      requires id in rows
      modifies this`rows, this`posts, this`interrupted
      ensures Value() == if old(rows)[id].status == Delivered then old(Value())
                         else Loop(old(Value()), id, old(rows)[id].attempts, 1, maxAttempts, None, false, outs)
    {
      hide OneAttempt;
      if rows[id].status == Delivered { return; }
      var body, url, previous := rows[id].payload, rows[id].url, rows[id].attempts;
      ghost var target := Loop(Value(), id, previous, 1, maxAttempts, None, false, outs);
      var last, error := None, false;
      var attempt := 1;
      while attempt <= maxAttempts && attempt <= |outs|
        invariant 1 <= attempt <= |outs| + 1 && id in rows && rows[id].payload == body && rows[id].url == url
        invariant Loop(Value(), id, previous, attempt, maxAttempts, last, error, outs[attempt - 1..]) == target
        decreases |outs| + 1 - attempt
      {
        assert outs[attempt - 1..][1..] == outs[attempt..];
        var again;
        again, last := AttemptOnce(id, body, url, previous + attempt, attempt >= maxAttempts, last, error, outs[attempt - 1]);
        if !again { return; }
        error := true;
        attempt := attempt + 1;
      }
    }

    /** One job of the worker. */
    method Deliver(outs: seq<Outcome>, raced: Option<DeliveryId>)
      requires queue != [] && Issued(Value(), queue[0])
      requires raced.Some? ==> raced.value !in rows && raced.value != queue[0].id && queue[0].subject.channel !in deleted
      modifies this`rows, this`posts, this`interrupted, this`queue
      ensures queue == old(queue)[1..] && Delivers(old(Value()), old(queue)[0], maxAttempts, outs, Value())
    {
      var job := queue[0];
      queue := queue[1..];
      var id := EnsureDeliveryRow(job, raced);
      if id.Some? { Attempt(id.value, outs); }
    }

    /** `retry_delivery`: only a failed delivery of an enabled channel with a readable payload goes back to the queue, as
        stored. If the queue is full the row has already become pending, and stays so. */
    method RetryDelivery(id: DeliveryId) returns (r: Retried)
      modifies this`rows, this`queue, this`droppedJobs
      ensures var ready := CanRetry(old(Value()), old(channels), id) && parses(old(rows)[id].payload);
        && (r == if !ready then Declined else if |old(queue)| < capacity then Requeued else Raised)
        && Value() == (if ready then Marked(old(Value()), id, Pending, old(rows)[id].attempts, None, false) else old(Value()))
        && queue == (if r == Requeued then old(queue) + [JobOf(id, old(rows)[id])] else old(queue))
    {
      if !Stored(Value(), id) || rows[id].status != Failed { return Declined; }
      if rows[id].subject.channel !in channels { return Declined; }
      if !parses(rows[id].payload) { return Declined; }
      SetDeliveryState(id, Pending, rows[id].attempts, None, false);
      var queued := QueueJob(JobOf(id, rows[id]));
      return if queued then Requeued else Raised;
    }

    /** `_restore_pending_jobs`: `found` are the unfinished deliveries of the table, oldest first. */
    method RestorePendingJobs(found: seq<DeliveryId>)
      requires forall k :: 0 <= k < |found| ==> found[k] in rows && Unfinished(Value(), found[k])
      requires forall i :: Unfinished(Value(), i) ==> i in found
      modifies this`queue, this`droppedJobs
      ensures var jobs := RestoredJobs(rows, channels, parses, Upto(found, RESTORE_LIMIT));
        queue == old(queue) + Upto(jobs, Room(old(queue), capacity))
    {
      hide Upto, Room;
      var due := Upto(found, RESTORE_LIMIT);
      ghost var before, all := queue, RestoredJobs(rows, channels, parses, due);
      var k := 0;
      while k < |due|
        invariant 0 <= k <= |due| && queue == before + RestoredJobs(rows, channels, parses, due[..k])
        invariant |queue| <= capacity || queue == before
      {
        RestoredStep(rows, channels, parses, due, k);
        var row := rows[due[k]];
        if row.subject.channel in channels && parses(row.payload) {
          var queued := QueueJob(Job(due[k], row.subject, row.payload, row.url));
          if !queued {
            Fits(before, RestoredJobs(rows, channels, parses, due[..k]), all, capacity);
            return;
          }
        }
        k := k + 1;
      }
      assert due[..k] == due;
      Fits(before, all, all, capacity);
    }
  }

  /** What the queue still takes. */
  function Room(queue: seq<Job>, capacity: nat): nat {
    if |queue| < capacity then capacity - |queue| else 0
  }

  lemma Fits(before: seq<Job>, jobs: seq<Job>, all: seq<Job>, capacity: nat)
    requires jobs <= all && (|before + jobs| >= capacity || jobs == all) && (|before + jobs| <= capacity || jobs == [])
    ensures Upto(all, Room(before, capacity)) == jobs
  {
  }

  function JobOf(id: DeliveryId, r: Row): Job {
    Job(id, r.subject, r.payload, r.url)
  }

  predicate CanRetry(s: State, channels: set<ChannelId>, id: DeliveryId) {
    Stored(s, id) && s.rows[id].status == Failed && s.rows[id].subject.channel in channels
  }

  predicate Unfinished(s: State, id: DeliveryId) {
    Stored(s, id) && (s.rows[id].status == Pending || s.rows[id].status == Delivering)
  }

  function Upto<T>(s: seq<T>, n: nat): (r: seq<T>)
    ensures r <= s && |r| == (if |s| <= n then |s| else n) && forall k :: 0 <= k < |r| ==> r[k] == s[k]
  {
    if |s| <= n then s else s[..n]
  }

  /** The jobs of the rows whose channel is enabled and whose payload can be read, in order. */
  function RestoredJobs(rows: map<DeliveryId, Row>, channels: set<ChannelId>, parses: string -> bool,
                        found: seq<DeliveryId>): seq<Job>
    requires forall k :: 0 <= k < |found| ==> found[k] in rows
  {
    if found == [] then [] else
    var id, rest := found[|found| - 1], RestoredJobs(rows, channels, parses, found[..|found| - 1]);
    if rows[id].subject.channel in channels && parses(rows[id].payload) then rest + [JobOf(id, rows[id])] else rest
  }

  lemma RestoredStep(rows: map<DeliveryId, Row>, channels: set<ChannelId>, parses: string -> bool, found: seq<DeliveryId>, k: nat)
    requires k < |found| && forall j :: 0 <= j < |found| ==> found[j] in rows
    ensures RestoredJobs(rows, channels, parses, found[..k]) <= RestoredJobs(rows, channels, parses, found)
    ensures RestoredJobs(rows, channels, parses, found[..k + 1]) == RestoredJobs(rows, channels, parses, found[..k])
      + if rows[found[k]].subject.channel in channels && parses(rows[found[k]].payload) then [JobOf(found[k], rows[found[k]])] else []
  {
    assert found[..k + 1][..k] == found[..k];
    RestoredPrefix(rows, channels, parses, found, k);
  }

  lemma {:induction false} RestoredPrefix(rows: map<DeliveryId, Row>, channels: set<ChannelId>, parses: string -> bool,
                                          found: seq<DeliveryId>, k: nat)
    requires k <= |found| && forall j :: 0 <= j < |found| ==> found[j] in rows
    ensures RestoredJobs(rows, channels, parses, found[..k]) <= RestoredJobs(rows, channels, parses, found)
  {
    if k == |found| {
      assert found[..k] == found;
    } else {
      assert found[..|found| - 1][..k] == found[..k];
      RestoredPrefix(rows, channels, parses, found[..|found| - 1], k);
    }
  }

  /** What delivering a job may do to the state; without its channel, nothing. */
  ghost predicate Delivers(s: State, job: Job, max: nat, outs: seq<Outcome>, s': State) {
    if job.subject.channel in s.deleted then s' == s else
    exists id, t ::
      && Established(s, job, id, t)
      && s' == (if t.rows[id].status == Delivered then t else Loop(t, id, t.rows[id].attempts, 1, max, None, false, outs))
  }

  /** The row of a job: its own, the one of its subject, or a new one. */
  ghost predicate Established(s: State, job: Job, id: DeliveryId, t: State) {
    && id in t.rows && t == s.(rows := t.rows)
    && if job.id in s.rows then id == job.id && t == s
       else t.rows[id].subject == job.subject
            && if HasRow(s, job.subject) then t == s else id !in s.rows && t.rows == s.rows[id := FreshRow(job)]
  }

  // ----- What one delivery does -----

  function Posts(posts: seq<Post>, id: DeliveryId): nat {
    if posts == [] then 0 else Posts(posts[..|posts| - 1], id) + (if posts[|posts| - 1].id == id then 1 else 0)
  }

  lemma {:induction false} PostsConcat(a: seq<Post>, b: seq<Post>, id: DeliveryId)
    ensures Posts(a + b, id) == Posts(a, id) + Posts(b, id)
  {
    if b == [] {
      assert a + b == a;
    } else {
      assert (a + b)[..|a + b| - 1] == a + b[..|b| - 1];
      PostsConcat(a, b[..|b| - 1], id);
    }
  }

  function Same(p: Post, n: nat): seq<Post> {
    seq(n, _ => p)
  }

  lemma {:induction false} PostsOfSame(p: Post, n: nat, id: DeliveryId)
    ensures Posts(Same(p, n), id) == if p.id == id then n else 0
  {
    if n > 0 {
      PostsOfSame(p, n - 1, id);
      assert Same(p, n)[..n - 1] == Same(p, n - 1);
    }
  }

  /** An outcome after which the attempt is repeated, whatever came before. */
  predicate Repeats(o: Outcome) {
    o.Throws? || (o.Responds? && (o.code == 408 || o.code == 425 || o.code == 429 || o.code >= 500))
  }

  /** Number of leading outcomes that repeat, up to `n`. */
  function Repeating(outs: seq<Outcome>, n: nat): (k: nat)
    ensures k <= n && k <= |outs|
  {
    if outs == [] || n == 0 || !Repeats(outs[0]) then 0 else 1 + Repeating(outs[1..], n - 1)
  }

  /** How a delivery with `max` attempts ends: the number of POSTs, the attempts counted, and the status. */
  datatype Ending = Ending(posts: nat, counted: nat, status: Status)

  function EndingOf(outs: seq<Outcome>, max: nat, before: Status): (e: Ending)
    ensures e.posts <= e.counted <= max && e.counted <= e.posts + 1
    ensures e.status == Delivered ==> before == Delivered || (e.posts >= 1 && e.posts == e.counted)
  {
    var k := Repeating(outs, max);
    if k == max then Ending(max, max, if max == 0 then before else Failed)
    else if k == |outs| then Ending(k, k, if k == 0 then before else Delivering)
    else if outs[k].Dies? then Ending(if outs[k].posted then k + 1 else k, k + 1, Delivering)
    else Ending(k + 1, k + 1, if outs[k].Responds? && 200 <= outs[k].code < 300 && outs[k].recorded then Delivered else Failed)
  }

  /** The attempts from number `base` on ended like this. */
  ghost predicate Ended(s: State, r: State, id: DeliveryId, base: nat, e: Ending)
    requires id in s.rows && id in r.rows
  {
    && r.posts == s.posts + Same(Post(id, s.rows[id].url, s.rows[id].payload), e.posts)
    && r.rows == s.rows[id := s.rows[id].(status := e.status, attempts := base + e.counted,
                                         lastStatus := r.rows[id].lastStatus, lastError := r.rows[id].lastError)]
    && r.deleted == s.deleted && r.interrupted[id] == s.interrupted[id] + e.counted - e.posts
    && (forall i :: i != id ==> r.interrupted[i] == s.interrupted[i])
  }

  /** How things end if the first outcome decides, or is the last one allowed. */
  lemma EndingNow(outs: seq<Outcome>, left: nat, before: Status)
    requires outs != [] && left >= 1 && (Repeats(outs[0]) ==> left == 1)
    ensures EndingOf(outs, left, before) ==
      var o := outs[0];
      if o.Dies? then Ending(if o.posted then 1 else 0, 1, Delivering)
      else Ending(1, 1, if o.Responds? && 200 <= o.code < 300 && o.recorded then Delivered else Failed)
  {
    hide RetryableStatus;
  }

  lemma FirstAttempt(s: State, id: DeliveryId, base: nat, left: nat, last: Option<nat>, error: bool, outs: seq<Outcome>)
    requires id in s.rows && outs != [] && left >= 1 && RetryableStatus(last)
    ensures var step := OneAttempt(s, id, base + 1, left == 1, last, error, outs[0]);
      && RetryableStatus(last) && (step.again ==> RetryableStatus(step.last))
      && (step.again <==> Repeats(outs[0]) && left > 1)
      && Ended(s, step.state, id, base, if step.again then Ending(1, 1, Delivering) else EndingOf(outs, left, s.rows[id].status))
  {
    var p := Post(id, s.rows[id].url, s.rows[id].payload);
    if Repeats(outs[0]) ==> left == 1 { EndingNow(outs, left, s.rows[id].status); }
    hide EndingOf;
    assert Same(p, 1) == [p] && Same(p, 0) == [];
  }

  lemma EndingsChain(s: State, t: State, r: State, id: DeliveryId, base: nat, e: Ending)
    requires id in s.rows && id in t.rows && id in r.rows
    requires Ended(s, t, id, base, Ending(1, 1, Delivering)) && Ended(t, r, id, base + 1, e)
    ensures Ended(s, r, id, base, Ending(e.posts + 1, e.counted + 1, e.status))
  {
    var p := Post(id, s.rows[id].url, s.rows[id].payload);
    assert Same(p, e.posts + 1) == Same(p, 1) + Same(p, e.posts);
  }

  lemma NothingAttempted(s: State, id: DeliveryId, base: nat)
    requires id in s.rows && s.rows[id].attempts == base
    ensures Ended(s, s, id, base, Ending(0, 0, s.rows[id].status))
  {
    assert Same(Post(id, s.rows[id].url, s.rows[id].payload), 0) == [];
  }

  /** A stale status at the head of the loop is always absent or retryable, so an exception is repeated while
      attempts remain: the outcome is the one decided by the first outcome that does not repeat. */
  lemma {:induction false} LoopEnds(s: State, id: DeliveryId, previous: nat, attempt: nat, max: nat,
                                    last: Option<nat>, error: bool, outs: seq<Outcome>)
    requires id in s.rows && 1 <= attempt <= max + 1 && RetryableStatus(last)
    requires s.rows[id].attempts == previous + attempt - 1
    ensures Ended(s, Loop(s, id, previous, attempt, max, last, error, outs), id, previous + attempt - 1,
                  EndingOf(outs, max + 1 - attempt, s.rows[id].status))
    decreases |outs|
  {
    hide OneAttempt, Ended, RetryableStatus, Repeats;
    if outs == [] || attempt > max {
      NothingAttempted(s, id, previous + attempt - 1);
    } else {
      var base := previous + attempt - 1;
      FirstAttempt(s, id, base, max + 1 - attempt, last, error, outs);
      var step := OneAttempt(s, id, base + 1, attempt >= max, last, error, outs[0]);
      if step.again {
        AfterRepeat(s, step.state, id, base);
        LoopEnds(step.state, id, previous, attempt + 1, max, step.last, true, outs[1..]);
        var r := Loop(step.state, id, previous, attempt + 1, max, step.last, true, outs[1..]);
        EndingsChain(s, step.state, r, id, base, EndingOf(outs[1..], max - attempt, Delivering));
        EndingStep(outs, max + 1 - attempt, s.rows[id].status);
      }
    }
  }

  lemma AfterRepeat(s: State, t: State, id: DeliveryId, base: nat)
    requires id in s.rows && id in t.rows && Ended(s, t, id, base, Ending(1, 1, Delivering))
    ensures t.rows[id].attempts == base + 1 && t.rows[id].status == Delivering
  {
  }

  lemma EndingStep(outs: seq<Outcome>, left: nat, before: Status)
    requires outs != [] && left > 1 && Repeats(outs[0])
    ensures var e := EndingOf(outs[1..], left - 1, Delivering);
      EndingOf(outs, left, before) == Ending(e.posts + 1, e.counted + 1, e.status)
  {
    hide Repeats;
  }

  // ----- Whole histories -----

  predicate UniqueSubjects(rows: map<DeliveryId, Row>) {
    forall i, j :: i in rows && j in rows && rows[i].subject == rows[j].subject ==> i == j
  }

  predicate IsStored(rows: map<DeliveryId, Row>, p: Post) {
    p.id in rows && p.url == rows[p.id].url && p.body == rows[p.id].payload
  }

  predicate PostsAreStored(rows: map<DeliveryId, Row>, posts: seq<Post>) {
    forall k :: 0 <= k < |posts| ==> IsStored(rows, posts[k])
  }

  predicate CountedAt(s: State, i: DeliveryId) {
    if i in s.rows then s.rows[i].attempts == Posts(s.posts, i) + s.interrupted[i] else s.interrupted[i] == 0
  }

  ghost predicate Counted(s: State) {
    forall i :: CountedAt(s, i)
  }

  /** Rows are unique per channel, event type and event; what was posted is what the row holds; and the attempts
      counted are the POSTs made plus those interrupted before their POST. */
  ghost predicate Consistent(s: State) {
    UniqueSubjects(s.rows) && PostsAreStored(s.rows, s.posts) && Counted(s)
  }

  predicate RowKept(s: State, t: State, i: DeliveryId) {
    i in s.rows ==>
      && i in t.rows
      && t.rows[i].subject == s.rows[i].subject && t.rows[i].url == s.rows[i].url && t.rows[i].payload == s.rows[i].payload
      && (Closed(s, i) ==> t.rows[i] == s.rows[i] && Posts(t.posts, i) == Posts(s.posts, i))
  }

  /** Delivered, or gone with its channel. */
  predicate Closed(s: State, i: DeliveryId)
    requires i in s.rows
  {
    s.rows[i].status == Delivered || s.rows[i].subject.channel in s.deleted
  }

  /** Rows keep their content; a row that is delivered or gone stays as it is and is never posted again. */
  ghost predicate Faithful(s: State, t: State) {
    (forall i :: RowKept(s, t, i)) && s.posts <= t.posts && s.deleted <= t.deleted
  }

  datatype Move =
    | Run(job: Job, outs: seq<Outcome>, id: DeliveryId)
    | Retry(id: DeliveryId)
    | DeleteChannel(channel: ChannelId)

  /** The row under which the job is delivered: `id` names a new one. */
  predicate Allowed(s: State, m: Move) {
    match m
    case Run(job, _, id) =>
      && Issued(s, job)
      && (job.subject.channel in s.deleted
          || if job.id in s.rows then id == job.id
             else if id in s.rows then s.rows[id].subject == job.subject
             else forall i :: i in s.rows ==> s.rows[i].subject != job.subject)
    case Retry(id) => Stored(s, id) && s.rows[id].status == Failed
    case DeleteChannel(_) => true
  }

  function Ensured(s: State, job: Job, id: DeliveryId): State {
    if id in s.rows || job.subject.channel in s.deleted then s else s.(rows := s.rows[id := FreshRow(job)])
  }

  /** The delivery of the job gets to its first attempt. */
  predicate Attempts(s: State, job: Job, id: DeliveryId) {
    job.subject.channel !in s.deleted && (id in s.rows ==> s.rows[id].status != Delivered)
  }

  function Apply(s: State, m: Move, max: nat): State
    requires Allowed(s, m)
  {
    match m
    case Run(job, outs, id) =>
      var t := Ensured(s, job, id);
      if !Attempts(s, job, id) then t else Loop(t, id, t.rows[id].attempts, 1, max, None, false, outs)
    case Retry(id) => Marked(s, id, Pending, s.rows[id].attempts, None, false)
    case DeleteChannel(channel) => s.(deleted := s.deleted + {channel})
  }

  lemma NoPostsYet(s: State, id: DeliveryId)
    requires Consistent(s) && id !in s.rows
    ensures Posts(s.posts, id) == 0
  {
    forall k | 0 <= k < |s.posts| ensures s.posts[k].id != id { assert IsStored(s.rows, s.posts[k]); }
    NoneOf(s.posts, id);
  }

  lemma {:induction false} NoneOf(posts: seq<Post>, id: DeliveryId)
    requires forall k :: 0 <= k < |posts| ==> posts[k].id != id
    ensures Posts(posts, id) == 0
  {
    if posts != [] { NoneOf(posts[..|posts| - 1], id); }
  }

  lemma EnsuredIsConsistent(s: State, job: Job, id: DeliveryId)
    requires Consistent(s) && Allowed(s, Run(job, [], id))
    ensures Consistent(Ensured(s, job, id)) && Faithful(s, Ensured(s, job, id))
  {
    var t := Ensured(s, job, id);
    if id !in s.rows && job.subject.channel !in s.deleted { NoPostsYet(s, id); }
    forall i ensures CountedAt(t, i) { assert CountedAt(s, i); }
    forall k | 0 <= k < |t.posts| ensures IsStored(t.rows, t.posts[k]) { assert IsStored(s.rows, s.posts[k]); }
  }

  lemma EndedPosts(s: State, r: State, id: DeliveryId, base: nat, e: Ending, i: DeliveryId)
    requires id in s.rows && id in r.rows && Ended(s, r, id, base, e)
    ensures Posts(r.posts, i) == Posts(s.posts, i) + (if i == id then e.posts else 0)
  {
    var p := Post(id, s.rows[id].url, s.rows[id].payload);
    PostsConcat(s.posts, Same(p, e.posts), i);
    PostsOfSame(p, e.posts, i);
  }

  lemma EndedIsConsistent(s: State, r: State, id: DeliveryId, e: Ending)
    requires Consistent(s) && id in s.rows && !Closed(s, id) && id in r.rows
    requires Ended(s, r, id, s.rows[id].attempts, e)
    ensures Consistent(r) && Faithful(s, r)
  {
    hide Posts;
    var p := Post(id, s.rows[id].url, s.rows[id].payload);
    forall i ensures CountedAt(r, i) {
      EndedPosts(s, r, id, s.rows[id].attempts, e, i);
      assert CountedAt(s, i);
    }
    forall k | 0 <= k < |r.posts| ensures IsStored(r.rows, r.posts[k]) {
      if k < |s.posts| { assert IsStored(s.rows, s.posts[k]); } else { assert r.posts[k] == p; }
    }
    forall i ensures RowKept(s, r, i) { EndedPosts(s, r, id, s.rows[id].attempts, e, i); }
  }

  lemma OpenRow(s: State, job: Job, outs: seq<Outcome>, id: DeliveryId)
    requires Allowed(s, Run(job, outs, id)) && Attempts(s, job, id)
    ensures var t := Ensured(s, job, id); id in t.rows && !Closed(t, id)
  {
  }

  lemma RunKeeps(s: State, job: Job, outs: seq<Outcome>, id: DeliveryId, max: nat)
    requires Consistent(s) && Allowed(s, Run(job, outs, id))
    ensures Consistent(Apply(s, Run(job, outs, id), max)) && Faithful(s, Apply(s, Run(job, outs, id), max))
  {
    hide Consistent, Faithful, Ended, Loop;
    var t := Ensured(s, job, id);
    EnsuredIsConsistent(s, job, id);
    if Attempts(s, job, id) {
      OpenRow(s, job, outs, id);
      var r := Loop(t, id, t.rows[id].attempts, 1, max, None, false, outs);
      LoopEnds(t, id, t.rows[id].attempts, 1, max, None, false, outs);
      EndedIsConsistent(t, r, id, EndingOf(outs, max, t.rows[id].status));
      FaithfulTransitive(s, t, r);
    }
  }

  lemma RetryKeeps(s: State, id: DeliveryId, max: nat)
    requires Consistent(s) && Allowed(s, Retry(id))
    ensures Consistent(Apply(s, Retry(id), max)) && Faithful(s, Apply(s, Retry(id), max))
  {
    hide Posts;
    var t := Apply(s, Retry(id), max);
    forall i ensures CountedAt(t, i) { assert CountedAt(s, i); }
    forall k | 0 <= k < |t.posts| ensures IsStored(t.rows, t.posts[k]) { assert IsStored(s.rows, s.posts[k]); }
  }

  lemma DeletionKeeps(s: State, channel: ChannelId, max: nat)
    requires Consistent(s)
    ensures Consistent(Apply(s, DeleteChannel(channel), max)) && Faithful(s, Apply(s, DeleteChannel(channel), max))
  {
    hide Posts;
    var t := Apply(s, DeleteChannel(channel), max);
    forall i ensures CountedAt(t, i) { assert CountedAt(s, i); }
  }

  /** Every delivery, manual retry and deletion of a channel keeps the table consistent and closed rows untouched. */
  lemma ApplyKeeps(s: State, m: Move, max: nat)
    requires Consistent(s) && Allowed(s, m)
    ensures Consistent(Apply(s, m, max)) && Faithful(s, Apply(s, m, max))
  {
    hide Consistent, Faithful, Apply, Allowed;
    match m
    case Run(job, outs, id) => RunKeeps(s, job, outs, id, max);
    case Retry(id) => RetryKeeps(s, id, max);
    case DeleteChannel(channel) => DeletionKeeps(s, channel, max);
  }

  lemma FaithfulTransitive(s: State, t: State, r: State)
    requires Faithful(s, t) && Faithful(t, r)
    ensures Faithful(s, r)
  {
    forall i ensures RowKept(s, r, i) { assert RowKept(s, t, i) && RowKept(t, r, i); }
  }

  /** The worker's method makes an allowed move. */
  lemma DeliversIsAMove(s: State, job: Job, max: nat, outs: seq<Outcome>, s': State) returns (id: DeliveryId)
    requires Issued(s, job) && Delivers(s, job, max, outs, s')
    ensures Allowed(s, Run(job, outs, id)) && s' == Apply(s, Run(job, outs, id), max)
  {
    id := job.id;
    if job.subject.channel !in s.deleted {
      var i, t :| Established(s, job, i, t)
        && s' == (if t.rows[i].status == Delivered then t else Loop(t, i, t.rows[i].attempts, 1, max, None, false, outs));
      id := i;
      if id !in s.rows {
        forall j | j in s.rows ensures s.rows[j].subject != job.subject {
          if s.rows[j].subject == job.subject { assert Stored(s, j); }
        }
      }
      assert t == Ensured(s, job, id);
    }
  }

  predicate AllAllowed(s: State, ms: seq<Move>, max: nat)
    decreases |ms|
  {
    ms == [] || (Allowed(s, ms[0]) && AllAllowed(Apply(s, ms[0], max), ms[1..], max))
  }

  function History(s: State, ms: seq<Move>, max: nat): State
    requires AllAllowed(s, ms, max)
    decreases |ms|
  {
    if ms == [] then s else History(Apply(s, ms[0], max), ms[1..], max)
  }

  /** Over any history: unique rows, posts with the stored URL and payload, attempts equal to POSTs plus interrupted
      attempts, and a row that is delivered or gone with its channel never changes again and is never posted again. */
  lemma {:induction false} HistoriesAreConsistent(s: State, ms: seq<Move>, max: nat)
    requires Consistent(s) && AllAllowed(s, ms, max)
    ensures Consistent(History(s, ms, max)) && Faithful(s, History(s, ms, max))
    decreases |ms|
  {
    hide Consistent, Faithful, Apply, Allowed;
    if ms == [] {
      FaithfulToItself(s);
    } else {
      ApplyKeeps(s, ms[0], max);
      HistoriesAreConsistent(Apply(s, ms[0], max), ms[1..], max);
      FaithfulTransitive(s, Apply(s, ms[0], max), History(s, ms, max));
    }
  }

  // ----- Attempts and POSTs -----

  /** The first outcome within budget that does not repeat is a death after the attempt was counted, before its POST. */
  predicate DiesUnposted(outs: seq<Outcome>, max: nat) {
    var k := Repeating(outs, max);
    k < max && k < |outs| && outs[k] == Dies(false)
  }

  ghost predicate AttemptsArePosts(s: State) {
    forall i :: i in s.rows ==> s.rows[i].attempts == Posts(s.posts, i)
  }

  /** No delivery of the history died that way. */
  ghost predicate Uninterrupted(s: State, ms: seq<Move>, max: nat)
    requires AllAllowed(s, ms, max)
    decreases |ms|
  {
    ms == [] || (!Interrupts(s, ms[0], max) && Uninterrupted(Apply(s, ms[0], max), ms[1..], max))
  }

  predicate Interrupts(s: State, m: Move, max: nat) {
    m.Run? && Attempts(s, m.job, m.id) && DiesUnposted(m.outs, max)
  }

  /** A delivery's new attempts are its new POSTs exactly if it does not die between the two. */
  lemma AttemptsEqualPostsIff(s: State, id: DeliveryId, max: nat, outs: seq<Outcome>)
    requires id in s.rows
    ensures var previous, r := s.rows[id].attempts, Loop(s, id, s.rows[id].attempts, 1, max, None, false, outs);
      && Posts(s.posts, id) <= Posts(r.posts, id)
      && (r.rows[id].attempts - previous == Posts(r.posts, id) - Posts(s.posts, id) <==> !DiesUnposted(outs, max))
      && (forall i :: s.interrupted[i] <= r.interrupted[i])
      && (forall i :: i != id || !DiesUnposted(outs, max) ==> r.interrupted[i] == s.interrupted[i])
      && (DiesUnposted(outs, max) ==> r.interrupted[id] > s.interrupted[id])
  {
    hide Loop, Repeats, Posts;
    var previous := s.rows[id].attempts;
    var e := EndingOf(outs, max, s.rows[id].status);
    LoopEnds(s, id, previous, 1, max, None, false, outs);
    EndedPosts(s, Loop(s, id, previous, 1, max, None, false, outs), id, previous, e, id);
    assert e.counted == e.posts <==> !DiesUnposted(outs, max);
  }

  lemma InterruptionsOf(s: State, m: Move, max: nat, i: DeliveryId)
    requires Allowed(s, m)
    ensures s.interrupted[i] <= Apply(s, m, max).interrupted[i]
    ensures !Interrupts(s, m, max) ==> Apply(s, m, max).interrupted[i] == s.interrupted[i]
    ensures Interrupts(s, m, max) ==> m.id in Apply(s, m, max).rows && Apply(s, m, max).interrupted[m.id] > s.interrupted[m.id]
  {
    hide Loop, DiesUnposted, Posts;
    if m.Run? && Attempts(s, m.job, m.id) { AttemptsEqualPostsIff(Ensured(s, m.job, m.id), m.id, max, m.outs); }
  }

  lemma {:induction false} InterruptionsStay(s: State, ms: seq<Move>, max: nat, i: DeliveryId)
    requires Consistent(s) && AllAllowed(s, ms, max)
    ensures s.interrupted[i] <= History(s, ms, max).interrupted[i]
    ensures i in s.rows ==> i in History(s, ms, max).rows
    decreases |ms|
  {
    hide Consistent, Apply, Allowed;
    if ms != [] {
      InterruptionsOf(s, ms[0], max, i);
      ApplyKeeps(s, ms[0], max);
      assert RowKept(s, Apply(s, ms[0], max), i);
      InterruptionsStay(Apply(s, ms[0], max), ms[1..], max, i);
    }
  }

  lemma NoneInterrupted(s: State)
    requires Consistent(s)
    ensures AttemptsArePosts(s) <==> forall i :: s.interrupted[i] == 0
  {
    hide Posts;
    if AttemptsArePosts(s) {
      forall i ensures s.interrupted[i] == 0 { assert CountedAt(s, i); }
    } else {
      var i :| i in s.rows && s.rows[i].attempts != Posts(s.posts, i);
      assert CountedAt(s, i);
    }
  }

  /** After any history each row's attempts are its POSTs exactly if no delivery died between the two. */
  lemma {:induction false} HistoryAttemptsArePostsIff(s: State, ms: seq<Move>, max: nat)
    requires Consistent(s) && AttemptsArePosts(s) && AllAllowed(s, ms, max)
    ensures AttemptsArePosts(History(s, ms, max)) <==> Uninterrupted(s, ms, max)
    decreases |ms|
  {
    hide Consistent, Apply, Allowed, Attempts, DiesUnposted, AttemptsArePosts, Faithful;
    if ms != [] {
      var m, t := ms[0], Apply(s, ms[0], max);
      ApplyKeeps(s, m, max);
      NoneInterrupted(s);
      NoneInterrupted(t);
      forall i ensures !Interrupts(s, m, max) ==> t.interrupted[i] == 0 { InterruptionsOf(s, m, max, i); }
      if Interrupts(s, m, max) {
        InterruptionsOf(s, m, max, m.id);
        InterruptionsStay(t, ms[1..], max, m.id);
        HistoriesAreConsistent(t, ms[1..], max);
        NoneInterrupted(History(t, ms[1..], max));
      } else {
        HistoryAttemptsArePostsIff(t, ms[1..], max);
      }
    }
  }

  /** Such a death: one attempt on record, nothing posted. */
  lemma AnAttemptWithoutPost(job: Job)
    ensures var ms := [Run(job, [Dies(false)], job.id)];
      && AllAllowed(EMPTY, ms, 3)
      && var r := History(EMPTY, ms, 3);
         job.id in r.rows && r.rows[job.id].attempts == 1 && r.rows[job.id].status == Delivering && r.posts == []
  {
    var m := Run(job, [Dies(false)], job.id);
    assert [m][1..] == [];
    assert History(EMPTY, [m], 3) == Apply(EMPTY, m, 3);
  }

  const EMPTY: State := State(map[], [], multiset{}, {})

  lemma EmptyTableIsConsistent()
    ensures Consistent(EMPTY) && AttemptsArePosts(EMPTY)
  {
  }

  lemma FaithfulToItself(s: State)
    ensures Faithful(s, s)
  {
  }
}
