/** When an agent ends: exactly when a request of more than 250 samples gets through, unless its key is refused or it is
    ended from outside. */
module Endings {
  import opened Common
  import opened Domain
  import opened Agent
  import opened Ingestion
  import opened Delivered
  import opened ExactlyOnce

  // ----- One flush -----

  /** What happens to one attempt: its request or reply is lost, the server answers that it is busy, or the request
      gets through to the schema check and everything behind it works. */
  datatype Weather = Storm | Busy(reply: Reply) | Through

  predicate Forecast(w: Weather) {
    w.Busy? ==> Retryable(w.reply)
  }

  /** What the server answers to a batch of `size` samples that gets through. */
  function Served(size: nat): Reply {
    Status(if 1 <= size <= MAX_BATCH then 200 else 422, Some(1.0))
  }

  function ReplyIn(w: Weather, size: nat): Reply {
    match w
    case Storm => NoReply
    case Busy(r) => r
    case Through => Served(size)
  }

  function Replies(ws: seq<Weather>, size: nat): (r: seq<Reply>)
    ensures |r| == |ws| && forall i :: 0 <= i < |ws| ==> r[i] == ReplyIn(ws[i], size)
  {
    if ws == [] then [] else [ReplyIn(ws[0], size)] + Replies(ws[1..], size)
  }

  lemma OnlyThroughDecides(w: Weather, size: nat)
    requires Forecast(w)
    ensures Retryable(ReplyIn(w, size)) <==> !w.Through?
    ensures Keeps(ReplyIn(w, size)) <==> !w.Through?
  {
  }

  /** The first request that gets through decides the flush. */
  lemma FirstThroughDecides(ws: seq<Weather>, size: nat)
    requires forall i :: 0 <= i < |ws| ==> Forecast(ws[i])
    ensures var n := Retries(Replies(ws, size));
      && (n < |ws| ==> ws[n].Through?)
      && (forall i :: 0 <= i < n ==> !ws[i].Through?)
  {
    var rs := Replies(ws, size);
    var n := Retries(rs);
    hide Retryable, Keeps, ReplyIn, Forecast, Retries;
    forall i | 0 <= i < |ws| ensures rs[i] == ReplyIn(ws[i], size) && (Retryable(rs[i]) <==> !ws[i].Through?)
    {
      OnlyThroughDecides(ws[i], size);
    }
    forall i | 0 <= i < n ensures !ws[i].Through? { OnlyThroughDecides(ws[i], size); }
    if n < |ws| { OnlyThroughDecides(ws[n], size); }
  }

  /** Against a server that answers success or a retryable status to what it accepts, a flush raises exactly if some
      request gets through and the buffer holds more than 250 samples, and delivers exactly if one gets through and it
      holds at most that many. */
  lemma FlushRaisesIffOversized(ws: seq<Weather>, size: nat)
    requires |ws| == ATTEMPTS && size >= 1 && forall i :: 0 <= i < |ws| ==> Forecast(ws[i])
    ensures var gotThrough := exists i :: 0 <= i < |ws| && ws[i].Through?;
      && (Verdict(Replies(ws, size)) == Raised <==> gotThrough && size > MAX_BATCH)
      && (Verdict(Replies(ws, size)) == Agent.Delivered <==> gotThrough && size <= MAX_BATCH)
      && (Verdict(Replies(ws, size)) == Buffered <==> !gotThrough)
  {
    FirstThroughDecides(ws, size);
  }

  // ----- Whole runs -----

  /** No key is revoked, no host made inactive, and no agent killed or sent a Retry-After that it cannot read. */
  predicate Undisturbed(ms: seq<Move>) {
    forall i :: 0 <= i < |ms| ==> !ms[i].Deny? && !ms[i].Perish?
  }

  /** Rejected requests and the buffers of ended agents are too large. */
  ghost predicate Oversized(s: System) {
    && (forall r :: 0 <= r < |s.requests| && s.requests[r].phase.Rejected? ==> |s.requests[r].events| > MAX_BATCH)
    && (forall h :: h in s.senders && s.senders[h].crashed ==>
          |s.senders[h].pending| > MAX_BATCH && s.senders[h].inflight.None?)
  }

  lemma InflightIsTheBuffer(s: System, h: HostId)
    requires SendersGood(s) && h in s.senders && s.senders[h].inflight.Some?
    ensures s.senders[h].inflight.value < |s.requests|
    ensures s.requests[s.senders[h].inflight.value].events == s.senders[h].pending
  {
    assert SenderGood(s, h, s.senders[h]);
  }

  lemma MoveKeepsOversized(s: System, m: Move)
    requires SendersGood(s) && Oversized(s) && Enabled(s, m) && !m.Deny? && !m.Perish?
    ensures Oversized(Apply(s, m))
  {
    hide SendersGood, AcceptedOf, CandidatesOf, InsertAll, StoredFor, KeysFor, ItemsFrom, NextSequence;
    if m.Refuse? { InflightIsTheBuffer(s, m.host); }
  }

  lemma {:induction false} RunKeepsOversized(hosts: set<HostId>, ms: seq<Move>)
    requires Possible(Begin(hosts), ms) && Undisturbed(ms)
    ensures Oversized(Run(Begin(hosts), ms))
  {
    if ms != [] {
      var n := |ms| - 1;
      assert !ms[n].Deny? && !ms[n].Perish?;
      RunIsGood(hosts, ms[..n]);
      hide RequestsGood, KeysGood, ItemsGood, SparesGood, RowsGood, Balanced, SendersGood, Oversized, Apply, Enabled;
      RunKeepsOversized(hosts, ms[..n]);
      MoveKeepsOversized(Run(Begin(hosts), ms[..n]), ms[n]);
    }
  }

  lemma ProcessedRequest(s: System, h: HostId)
    requires SendersGood(s) && RequestsGood(s) && h in s.senders && s.senders[h].inflight.Some?
    ensures s.senders[h].inflight.value < |s.requests|
    ensures var q := s.requests[s.senders[h].inflight.value];
      q.events == s.senders[h].pending && (q.phase.Answered? ==> |q.events| <= MAX_BATCH)
  {
    InflightIsTheBuffer(s, h);
    assert RequestGood(s, s.requests[s.senders[h].inflight.value]);
  }

  /** Undisturbed, an agent has ended only with more than 250 samples in its buffer; and a processed request ends its
      agent exactly if it carries more than 250 samples, and is acknowledged exactly if it does not. */
  lemma AgentsEndIffOversized(hosts: set<HostId>, ms: seq<Move>, h: HostId)
    requires Possible(Begin(hosts), ms) && Undisturbed(ms) && h in Run(Begin(hosts), ms).senders
    ensures var s := Run(Begin(hosts), ms);
      var a := s.senders[h];
      && (a.crashed ==> |a.pending| > MAX_BATCH)
      && (a.inflight.Some? ==>
            && a.inflight.value < |s.requests|
            && (var q := s.requests[a.inflight.value];
                q.phase.Answered? || q.phase.Rejected? ==>
                  && (Enabled(s, Refuse(h)) <==> |a.pending| > MAX_BATCH)
                  && (Enabled(s, Acknowledge(h)) <==> |a.pending| <= MAX_BATCH)))
  {
    hide Run, Possible, KeysGood, ItemsGood, SparesGood, RowsGood, Balanced, SendersGood, RequestsGood;
    RunIsGood(hosts, ms);
    RunKeepsOversized(hosts, ms);
    var s := Run(Begin(hosts), ms);
    if s.senders[h].inflight.Some? { ProcessedRequest(s, h); }
  }

  // ----- An outage that ends an agent -----

  const HOST: HostId := 1

  function Samples(n: nat): seq<Sample> {
    seq(n, (i: nat) => Sample(i + 1, READING))
  }

  function Collects(n: nat): seq<Move> {
    seq(n, (i: nat) => Collect(HOST, 0, READING))
  }

  /** The agent with `n` samples in its buffer, after `posts` requests that all got lost. */
  predicate Waiting(s: System, n: nat, posts: nat) {
    && s == Begin({HOST}).(senders := map[HOST := Sender([], Samples(n), n, None, false)], requests := s.requests)
    && |s.requests| == posts
  }

  lemma OneMoreSample(s: System, n: nat, posts: nat)
    requires Waiting(s, n, posts)
    ensures Enabled(s, Collect(HOST, 0, READING)) && Waiting(Apply(s, Collect(HOST, 0, READING)), n + 1, posts)
  {
    assert Samples(n + 1) == Samples(n) + [Sample(n + 1, READING)];
  }

  lemma {:induction false} Buffering(n: nat)
    ensures Possible(Begin({HOST}), Collects(n)) && Waiting(Run(Begin({HOST}), Collects(n)), n, 0)
  {
    hide Apply, Enabled;
    if n == 0 {
      NothingYet();
    } else {
      Buffering(n - 1);
      OneMoreSample(Run(Begin({HOST}), Collects(n - 1)), n - 1, 0);
      RunMore(Begin({HOST}), Collects(n - 1), Collect(HOST, 0, READING));
      assert Collects(n - 1) + [Collect(HOST, 0, READING)] == Collects(n);
    }
  }

  lemma NothingYet()
    ensures Waiting(Begin({HOST}), 0, 0)
  {
    assert Begin({HOST}).senders == map[HOST := Sender([], [], 0, None, false)];
    assert Samples(0) == [];
  }

  /** A flush of five lost requests. */
  function Outage(n: nat): seq<Move> {
    if n == 0 then [] else Outage(n - 1) + [Post(HOST), GiveUp(HOST)]
  }

  lemma LostPost(s: System, n: nat, posts: nat)
    requires Waiting(s, n, posts) && n >= 1
    ensures Possible(s, [Post(HOST), GiveUp(HOST)]) && Waiting(Run(s, [Post(HOST), GiveUp(HOST)]), n, posts + 1)
  {
    var s1 := s.(senders := map[HOST := Sender([], Samples(n), n, Some(|s.requests|), false)],
                 requests := s.requests + [Request(HOST, Samples(n), Arrived)]);
    assert Samples(n) != [] && Apply(s, Post(HOST)) == s1;
    assert Apply(s1, GiveUp(HOST)) == s1.(senders := map[HOST := Sender([], Samples(n), n, None, false)]);
    hide Apply, Enabled;
    RunOne(s, Post(HOST));
    RunMore(s, [Post(HOST)], GiveUp(HOST));
    assert [Post(HOST)] + [GiveUp(HOST)] == [Post(HOST), GiveUp(HOST)];
  }

  lemma {:induction false} LostPosts(s: System, n: nat, posts: nat, k: nat)
    requires Waiting(s, n, posts) && n >= 1
    ensures Possible(s, Outage(k)) && Waiting(Run(s, Outage(k)), n, posts + k)
  {
    hide Waiting;
    if k > 0 {
      LostPosts(s, n, posts, k - 1);
      LostPost(Run(s, Outage(k - 1)), n, posts + k - 1);
      RunConcat(s, Outage(k - 1), [Post(HOST), GiveUp(HOST)]);
    }
  }

  /** A full buffer of 250 samples, a flush whose five requests are lost, one sample more, and a request that gets through. */
  function FatalRun(): seq<Move> {
    Collects(250) + Outage(5) + [Collect(HOST, 0, READING)] + FatalPost(5)
  }

  function FatalPost(r: nat): seq<Move> {
    [Post(HOST), Reject(r), Refuse(HOST)]
  }

  lemma FatalEnd(s: System, n: nat, posts: nat)
    requires Waiting(s, n, posts) && n > MAX_BATCH
    ensures Possible(s, FatalPost(posts))
    ensures var t := Run(s, FatalPost(posts));
      t.senders == map[HOST := Sender([], Samples(n), n, None, true)] && t.stored == multiset{}
  {
    var batch := Request(HOST, Samples(n), Arrived);
    var s1 := s.(senders := map[HOST := Sender([], Samples(n), n, Some(posts), false)], requests := s.requests + [batch]);
    var s2 := s1.(requests := s.requests + [batch.(phase := Rejected)]);
    assert Samples(n) != [] && Apply(s, Post(HOST)) == s1;
    assert Apply(s1, Reject(posts)).requests == s2.requests;
    assert Apply(s1, Reject(posts)) == s2;
    assert Apply(s2, Refuse(HOST)).senders == map[HOST := Sender([], Samples(n), n, None, true)];
    hide Apply, Enabled;
    RunOne(s, Post(HOST));
    RunMore(s, [Post(HOST)], Reject(posts));
    RunMore(s, [Post(HOST)] + [Reject(posts)], Refuse(HOST));
    assert [Post(HOST)] + [Reject(posts)] + [Refuse(HOST)] == FatalPost(posts);
  }

  /** With 251 samples in its buffer the agent ends at the first request that gets through, and loses all of them. */
  lemma OutageEndsTheAgent()
    ensures Possible(Begin({HOST}), FatalRun()) && Undisturbed(FatalRun())
    ensures var s := Run(Begin({HOST}), FatalRun());
      && HOST in s.senders && s.senders[HOST].crashed && s.senders[HOST].pending == Samples(251)
      && forall i :: 0 <= i < 251 ==> Lost(s, HOST, Samples(251)[i])
  {
    hide Run, Possible, Waiting;
    var s0 := Begin({HOST});
    Buffering(250);
    LostPosts(Run(s0, Collects(250)), 250, 0, 5);
    RunConcat(s0, Collects(250), Outage(5));
    var a := Collects(250) + Outage(5);
    OneMoreSample(Run(s0, a), 250, 5);
    RunMore(s0, a, Collect(HOST, 0, READING));
    var b := a + [Collect(HOST, 0, READING)];
    FatalEnd(Run(s0, b), 251, 5);
    RunConcat(s0, b, FatalPost(5));
    UndisturbedInOutage(5);
  }

  lemma {:induction false} UndisturbedInOutage(n: nat)
    ensures Undisturbed(Outage(n))
  {
    if n > 0 { UndisturbedInOutage(n - 1); }
  }
}
