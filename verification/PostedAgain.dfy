/** Which deliveries can be posted again: exactly those that are neither delivered nor gone with their channel, so a POST
    that succeeded is repeated unless its success was recorded. */
module PostedAgain {
  import opened Common
  import opened Delivery

  const SUCCESS := Responds(200, true)

  /** Some later history of deliveries, restores, manual retries and deleted channels posts the row once more. */
  ghost predicate CanBePosted(s: State, id: DeliveryId, max: nat) {
    exists ms :: AllAllowed(s, ms, max) && Posts(History(s, ms, max).posts, id) > Posts(s.posts, id)
  }

  /** The outcome that decides the delivery is a success that is recorded. */
  predicate RecordsASuccess(outs: seq<Outcome>, max: nat) {
    var k := Repeating(outs, max);
    k < max && k < |outs| && outs[k].Responds? && 200 <= outs[k].code < 300 && outs[k].recorded
  }

  /** How an open delivery gets back to the worker: by a manual retry if it failed, by a restore otherwise. */
  function Requeue(s: State, id: DeliveryId): seq<Move>
    requires id in s.rows
  {
    var again := Run(JobOf(id, s.rows[id]), [SUCCESS], id);
    if s.rows[id].status == Failed then [Retry(id), again] else [again]
  }

  /** A delivery that a single outcome with a POST decides. */
  lemma OneOutcome(s: State, job: Job, id: DeliveryId, max: nat, o: Outcome)
    requires Allowed(s, Run(job, [o], id)) && Attempts(s, job, id) && max >= 1 && !Repeats(o) && o != Dies(false)
    ensures var r, row := Apply(s, Run(job, [o], id), max), Ensured(s, job, id).rows[id];
      && r.posts == s.posts + [Post(id, row.url, row.payload)] && r.deleted == s.deleted
      && id in r.rows && r.rows[id].(status := row.status, attempts := row.attempts, lastStatus := row.lastStatus,
                                     lastError := row.lastError) == row
      && r.rows[id].status == (if o.Dies? then Delivering
                               else if o.Responds? && 200 <= o.code < 300 && o.recorded then Delivered else Failed)
  {
    hide Loop, Repeats;
    var t := Ensured(s, job, id);
    LoopEnds(t, id, t.rows[id].attempts, 1, max, None, false, [o]);
    EndingNow([o], max, t.rows[id].status);
    assert Same(Post(id, t.rows[id].url, t.rows[id].payload), 1) == [Post(id, t.rows[id].url, t.rows[id].payload)];
  }

  lemma Decisive()
    ensures !Repeats(SUCCESS) && !Repeats(Responds(200, false)) && !Repeats(Dies(true))
  {
  }

  /** One success. */
  lemma OneSuccess(s: State, id: DeliveryId, max: nat)
    requires id in s.rows && max >= 1 && !Closed(s, id)
    ensures var m, r := Run(JobOf(id, s.rows[id]), [SUCCESS], id), s.rows[id];
      && Allowed(s, m) && Apply(s, m, max).posts == s.posts + [Post(id, r.url, r.payload)]
      && id in Apply(s, m, max).rows && Apply(s, m, max).rows[id].status == Delivered
  {
    hide Apply, Repeats;
    Decisive();
    OneOutcome(s, JobOf(id, s.rows[id]), id, max, SUCCESS);
  }

  lemma RetryMarks(s: State, id: DeliveryId, max: nat)
    requires Allowed(s, Retry(id))
    ensures Apply(s, Retry(id), max) == Marked(s, id, Pending, s.rows[id].attempts, None, false)
  {
  }

  /** An open row is posted once more by being requeued. */
  lemma OpenRowsCanBePosted(s: State, id: DeliveryId, max: nat)
    requires Consistent(s) && id in s.rows && max >= 1 && !Closed(s, id)
    ensures AllAllowed(s, Requeue(s, id), max)
    ensures Posts(History(s, Requeue(s, id), max).posts, id) == Posts(s.posts, id) + 1
  {
    hide Apply, Consistent;
    var again := Run(JobOf(id, s.rows[id]), [SUCCESS], id);
    if s.rows[id].status == Failed {
      var t := Apply(s, Retry(id), max);
      assert t == Marked(s, id, Pending, s.rows[id].attempts, None, false) by { RetryMarks(s, id, max); }
      OneSuccess(t, id, max);
      assert JobOf(id, t.rows[id]) == again.job && [Retry(id), again][1..] == [again] && [again][1..] == [];
      assert AllAllowed(t, [again], max) && History(t, [again], max) == Apply(t, again, max);
    } else {
      OneSuccess(s, id, max);
      assert [again][1..] == [];
    }
  }

  /** A delivery can be posted again exactly if it is neither recorded as delivered nor gone with its channel. */
  lemma CanBePostedIffOpen(s: State, id: DeliveryId, max: nat)
    requires Consistent(s) && id in s.rows && max >= 1
    ensures CanBePosted(s, id, max) <==> !Closed(s, id)
  {
    hide Consistent, Apply, Allowed, Posts;
    if Closed(s, id) {
      forall ms | AllAllowed(s, ms, max) ensures Posts(History(s, ms, max).posts, id) == Posts(s.posts, id) {
        HistoriesAreConsistent(s, ms, max);
        assert RowKept(s, History(s, ms, max), id);
      }
    } else {
      OpenRowsCanBePosted(s, id, max);
    }
  }

  /** After a delivery's attempts it can be posted again exactly if they did not end in a recorded success: whatever the
      receiver answered, an answer that could not be stored, or a death before it was, does not count. */
  lemma PostedAgainIffNotRecorded(s: State, id: DeliveryId, max: nat, outs: seq<Outcome>)
    requires Consistent(s) && id in s.rows && max >= 1 && !Closed(s, id)
    ensures var r := Loop(s, id, s.rows[id].attempts, 1, max, None, false, outs);
      CanBePosted(r, id, max) <==> !RecordsASuccess(outs, max)
  {
    hide Loop, Consistent, Posts, Repeats;
    var e, r := EndingOf(outs, max, s.rows[id].status), Loop(s, id, s.rows[id].attempts, 1, max, None, false, outs);
    LoopEnds(s, id, s.rows[id].attempts, 1, max, None, false, outs);
    EndedIsConsistent(s, r, id, e);
    CanBePostedIffOpen(r, id, max);
    assert e.status == Delivered <==> RecordsASuccess(outs, max);
  }

  // ----- Both ways in which a success is posted twice -----

  lemma TwoMoves(s: State, m: Move, n: Move, max: nat)
    requires Allowed(s, m) && Allowed(Apply(s, m, max), n)
    ensures AllAllowed(s, [m, n], max) && History(s, [m, n], max) == Apply(Apply(s, m, max), n, max)
  {
    hide Apply, Allowed;
    var t := Apply(s, m, max);
    assert [m, n][1..] == [n] && [n][1..] == [];
    assert AllAllowed(t, [n], max) && History(t, [n], max) == Apply(t, n, max);
  }

  /** The process dies after a POST; the restart restores the delivery and posts it again, without any manual retry. */
  lemma ARestorePostsAgain(job: Job)
    ensures var ms := [Run(job, [Dies(true)], job.id), Run(job, [SUCCESS], job.id)];
      && AllAllowed(EMPTY, ms, 3)
      && var r, p := History(EMPTY, ms, 3), Post(job.id, job.url, job.payload);
         r.posts == [p, p] && job.id in r.rows && r.rows[job.id].status == Delivered
  {
    hide Apply, Repeats;
    var m, n := Run(job, [Dies(true)], job.id), Run(job, [SUCCESS], job.id);
    var p, t := Post(job.id, job.url, job.payload), Apply(EMPTY, m, 3);
    Decisive();
    OneOutcome(EMPTY, job, job.id, 3, Dies(true));
    OneSuccess(t, job.id, 3);
    assert JobOf(job.id, t.rows[job.id]) == job;
    TwoMoves(EMPTY, m, n, 3);
    assert Apply(t, n, 3).posts == [p] + [p];
  }

  /** A POST that succeeded but could not be recorded is marked failed; a manual retry posts it again. */
  lemma ARetryPostsAgain(job: Job)
    ensures var ms := [Run(job, [Responds(200, false)], job.id), Retry(job.id), Run(job, [SUCCESS], job.id)];
      && AllAllowed(EMPTY, ms, 3)
      && var r, p := History(EMPTY, ms, 3), Post(job.id, job.url, job.payload);
         r.posts == [p, p] && job.id in r.rows && r.rows[job.id].status == Delivered
  {
    hide Apply, Repeats;
    var m1, m2, m3 := Run(job, [Responds(200, false)], job.id), Retry(job.id), Run(job, [SUCCESS], job.id);
    var p, s1 := Post(job.id, job.url, job.payload), Apply(EMPTY, m1, 3);
    Decisive();
    OneOutcome(EMPTY, job, job.id, 3, Responds(200, false));
    RetryMarks(s1, job.id, 3);
    var s2 := Apply(s1, m2, 3);
    OneSuccess(s2, job.id, 3);
    assert JobOf(job.id, s2.rows[job.id]) == job;
    TwoMoves(s1, m2, m3, 3);
    assert [m1, m2, m3][1..] == [m2, m3];
    assert Apply(s2, m3, 3).posts == [p] + [p];
  }

  // ----- A manual retry that meets a full queue -----

  /** The retry raises, its row is pending, and nothing was queued for it. */
  method RetryAgainstAFullQueue(failed: DeliveryId, row: Row, other: Job, parses: string -> bool)
    returns (d: NotificationDispatcher, answer: Retried)
    requires row.status == Failed && parses(row.payload)
    ensures fresh(d) && answer == Raised && d.queue == [other]
    ensures d.rows == map[failed := row.(status := Pending, lastStatus := None, lastError := false)]
  {
    d := new NotificationDispatcher(3, 1, parses, map[failed := row], {row.subject.channel});
    var queued := d.QueueJob(other);
    assert Stored(d.Value(), failed);
    answer := d.RetryDelivery(failed);
  }
}
