/** What whole runs of the ingestion protocol guarantee: which samples are kept, accepted and handed on, how often,
    and when an agent ends. */
module ExactlyOnce {
  import opened Common
  import opened Domain
  import opened Agent
  import opened Ingestion
  import opened Delivered

  /** Every move is possible when it happens. */
  predicate Possible(s: System, ms: seq<Move>)
    decreases |ms|, 0
  {
    ms == [] || (Possible(s, ms[..|ms| - 1]) && Enabled(Run(s, ms[..|ms| - 1]), ms[|ms| - 1]))
  }

  function Run(s: System, ms: seq<Move>): System
    requires Possible(s, ms)
    decreases |ms|, 1
  {
    if ms == [] then s else Apply(Run(s, ms[..|ms| - 1]), ms[|ms| - 1])
  }

  lemma {:induction false} RunIsGood(hosts: set<HostId>, ms: seq<Move>)
    requires Possible(Begin(hosts), ms)
    ensures Good(Run(Begin(hosts), ms))
  {
    hide Good, Apply, Enabled;
    if ms == [] {
      BeginIsGood(hosts);
    } else {
      RunIsGood(hosts, ms[..|ms| - 1]);
      MoveKeepsGood(Run(Begin(hosts), ms[..|ms| - 1]), ms[|ms| - 1]);
    }
  }

  lemma {:induction false} RunConcat(s: System, a: seq<Move>, b: seq<Move>)
    requires Possible(s, a) && Possible(Run(s, a), b)
    ensures Possible(s, a + b) && Run(s, a + b) == Run(Run(s, a), b)
  {
    hide Apply, Enabled;
    if b == [] {
      assert a + b == a;
    } else {
      assert (a + b)[..|a + b| - 1] == a + b[..|b| - 1];
      RunConcat(s, a, b[..|b| - 1]);
    }
  }

  lemma RunOne(s: System, m: Move)
    requires Enabled(s, m)
    ensures Possible(s, [m]) && Run(s, [m]) == Apply(s, m)
  {
    hide Apply, Enabled;
    assert [m][..0] == [] && Possible(s, []) && Run(s, []) == s;
  }

  /** One move more at the end. */
  lemma RunMore(s: System, ms: seq<Move>, m: Move)
    requires Possible(s, ms) && Enabled(Run(s, ms), m)
    ensures Possible(s, ms + [m]) && Run(s, ms + [m]) == Apply(Run(s, ms), m)
  {
    hide Apply, Enabled;
    assert (ms + [m])[..|ms|] == ms;
  }

  // ----- No sample is lost while its agent lives -----

  /** The sample was never stored, and no living agent holds it any more. */
  predicate Lost(s: System, h: HostId, x: Sample)
    requires h in s.senders
  {
    s.stored[RowKey(h, x.sequence)] == 0 && (s.senders[h].crashed || x !in s.senders[h].pending)
  }

  /** Whatever requests and replies are lost, delayed or retried: a host's samples carry strictly increasing sequences;
      while its agent lives each is buffered or has been stored, and is stored now unless it was deleted since; once it
      has ended, exactly the samples of its last buffer that were never stored are lost. */
  lemma NoSampleIsLost(hosts: set<HostId>, ms: seq<Move>, h: HostId, i: nat)
    requires Possible(Begin(hosts), ms) && h in Run(Begin(hosts), ms).senders
    requires i < |Collected(Run(Begin(hosts), ms).senders[h])|
    ensures var s := Run(Begin(hosts), ms);
      var a, c := s.senders[h], Collected(s.senders[h]);
      var k := RowKey(h, c[i].sequence);
      && (forall j :: 0 <= j < i ==> c[j].sequence < c[i].sequence)
      && (!a.crashed ==> c[i] in a.pending || s.stored[k] >= 1)
      && (s.stored[k] >= 1 && s.removed[k] == 0 ==> k in s.rows)
      && (Lost(s, h, c[i]) <==> a.crashed && c[i] in a.pending && s.stored[k] == 0)
  {
    hide Run, Possible, RequestsGood, ItemsGood, SparesGood, RowsGood, Balanced;
    RunIsGood(hosts, ms);
    var s := Run(Begin(hosts), ms);
    var a := s.senders[h];
    assert SenderGood(s, h, a);
    assert KeyGood(s, RowKey(h, Collected(a)[i].sequence));
    if i < |a.delivered| { assert WasStored(s, RowKey(h, a.delivered[i].sequence)); }
  }

  // ----- How often a sample is accepted and handed on -----

  function Present(rows: Table, k: RowKey): nat {
    if k in rows then 1 else 0
  }

  /** The acceptances of a collected sample are counted exactly: as often as its row was deleted, once more if the row
      is there, less the insertions of other writers; each is handed on or left over. So it is accepted at most once
      exactly if that number is at most one. */
  lemma AcceptancesAreCounted(hosts: set<HostId>, ms: seq<Move>, i: Item)
    requires Possible(Begin(hosts), ms) && FromSender(Run(Begin(hosts), ms), i.host, i.sample)
    ensures var s, k := Run(Begin(hosts), ms), KeyOf(i);
      && s.accepted[i] + s.foreign[k] == s.removed[k] + Present(s.rows, k)
      && s.accepted[i] == s.handed[i] + Unhanded(s.requests)[i]
      && (s.accepted[i] <= 1 <==> s.removed[k] + Present(s.rows, k) <= 1 + s.foreign[k])
  {
    hide Run, Possible, RequestsGood, SendersGood, RowsGood, SparesGood, Unhanded, FromSender;
    RunIsGood(hosts, ms);
    var s := Run(Begin(hosts), ms);
    assert ItemGood(s, i) && KeyGood(s, KeyOf(i));
    assert s.accepted[i] == (s.handed + Unhanded(s.requests))[i];
  }

  /** Nothing but collected samples is ever accepted or handed on. */
  lemma OnlyCollectedIsAccepted(hosts: set<HostId>, ms: seq<Move>, i: Item)
    requires Possible(Begin(hosts), ms) && !FromSender(Run(Begin(hosts), ms), i.host, i.sample)
    ensures Run(Begin(hosts), ms).accepted[i] == 0 && Run(Begin(hosts), ms).handed[i] == 0
  {
    hide Run, Possible, RequestsGood, SendersGood, RowsGood, SparesGood, Unhanded, FromSender;
    RunIsGood(hosts, ms);
    var s := Run(Begin(hosts), ms);
    assert ItemGood(s, i);
    assert s.accepted[i] == (s.handed + Unhanded(s.requests))[i];
  }

  /** A sample whose row was never deleted is accepted at most once and handed on at most once. */
  lemma HandedAtMostOnce(hosts: set<HostId>, ms: seq<Move>, i: Item)
    requires Possible(Begin(hosts), ms) && Run(Begin(hosts), ms).removed[KeyOf(i)] == 0
    ensures var s := Run(Begin(hosts), ms);
      && s.handed[i] <= s.accepted[i] <= 1
      && (s.handed[i] == s.accepted[i] <==> i !in Unhanded(s.requests))
  {
    hide Run, Possible, Good, FromSender, Unhanded;
    var s := Run(Begin(hosts), ms);
    RunIsGood(hosts, ms);
    if FromSender(s, i.host, i.sample) {
      AcceptancesAreCounted(hosts, ms, i);
    } else {
      OnlyCollectedIsAccepted(hosts, ms, i);
      BalancedItem(s, i);
    }
  }

  lemma BalancedItem(s: System, i: Item)
    requires Good(s)
    ensures s.accepted[i] == s.handed[i] + Unhanded(s.requests)[i]
  {
    hide SendersGood, RequestsGood, KeysGood, ItemsGood, SparesGood, RowsGood, Unhanded;
    assert s.accepted[i] == (s.handed + Unhanded(s.requests))[i];
  }

  /** An acknowledged sample whose row nobody else wrote or deleted is stored exactly as collected, and once no
      accepted sample is left over it has been handed on exactly once. */
  lemma AcknowledgedExactlyOnce(hosts: set<HostId>, ms: seq<Move>, h: HostId, x: Sample)
    requires Possible(Begin(hosts), ms) && h in Run(Begin(hosts), ms).senders
    requires x in Run(Begin(hosts), ms).senders[h].delivered
    requires var s, k := Run(Begin(hosts), ms), RowKey(h, x.sequence); s.removed[k] == 0 && s.foreign[k] == 0
    ensures var s := Run(Begin(hosts), ms);
      && RowKey(h, x.sequence) in s.rows && s.rows[RowKey(h, x.sequence)] == x
      && s.accepted[Item(h, x)] == 1
      && (s.handed[Item(h, x)] == 1 <==> Item(h, x) !in Unhanded(s.requests))
  {
    hide Run, Possible, RequestsGood, Balanced, SparesGood, Unhanded;
    RunIsGood(hosts, ms);
    HandedAtMostOnce(hosts, ms, Item(h, x));
    var s, k := Run(Begin(hosts), ms), RowKey(h, x.sequence);
    var a := s.senders[h];
    assert SenderGood(s, h, a) && KeyGood(s, k) && RowGood(s, k);
    var i :| 0 <= i < |a.delivered| && a.delivered[i] == x;
    assert WasStored(s, RowKey(h, a.delivered[i].sequence));
    assert x in Collected(a);
    assert ItemGood(s, Item(h, s.rows[k])) && ItemGood(s, Item(h, x));
    SameSequenceSameSample(a, x, s.rows[k]);
  }

  /** When every request was answered, nothing is left over: accepted and handed on are the same. */
  lemma {:induction false} AnsweredLeavesNothing(rs: seq<Request>)
    requires forall r :: 0 <= r < |rs| ==> rs[r].phase.Answered?
    ensures Unhanded(rs) == multiset{}
  {
    if rs != [] { AnsweredLeavesNothing(rs[..|rs| - 1]); }
  }

  // ----- A row deleted while its sample is being retried -----

  const READING := Event(None, 0.0, 0.0, 0.0, 0.0, 0.0, 0.0, 0.0, 0.0)
  const FIRST := Sample(5, READING)

  /** A sample is stored and handed on, its reply is lost, its row is deleted, and the retry stores it again. */
  const RETRIED: seq<Move> := [
    Collect(1, 5, READING), Post(1), Select(0), Insert(0), Hand(0), GiveUp(1), Remove(RowKey(1, 5)),
    Post(1), Select(1), Insert(1), Hand(1)]

  /** The request for the sample at its stages. */
  function Asked(s: System, r: nat, p: Phase): System
    requires r < |s.requests|
  {
    s.(requests := s.requests[r := Request(1, [FIRST], p)])
  }

  function Recorded(s: System): System {
    s.(rows := map[RowKey(1, 5) := FIRST], stored := s.stored + multiset{RowKey(1, 5)},
       accepted := s.accepted + multiset{Item(1, FIRST)})
  }

  lemma SelectOnce(s: System, r: nat)
    requires r < |s.requests| && s.requests[r] == Request(1, [FIRST], Arrived) && s.rows == map[]
    ensures Enabled(s, Select(r)) && Apply(s, Select(r)) == Asked(s, r, Selected({}))
  {
    OneSampleBatch();
    hide StoredFor;
  }

  lemma InsertOnce(s: System, r: nat)
    requires r < |s.requests| && s.requests[r] == Request(1, [FIRST], Selected({})) && s.rows == map[]
    ensures Enabled(s, Insert(r)) && Apply(s, Insert(r)) == Recorded(Asked(s, r, Handing([FIRST], 0)))
  {
    OneSampleBatch();
    assert CandidatesOf(s.requests[r]) == [FIRST] && AcceptedOf(s, s.requests[r]) == [FIRST];
    hide CandidatesOf, AcceptedOf, InsertAll, KeysFor, ItemsFrom;
    assert multiset({RowKey(1, 5)}) == multiset{RowKey(1, 5)};
    assert multiset({Item(1, FIRST)}) == multiset{Item(1, FIRST)};
  }

  lemma HandOnce(s: System, r: nat)
    requires r < |s.requests| && s.requests[r] == Request(1, [FIRST], Handing([FIRST], 0))
    ensures Enabled(s, Hand(r))
    ensures Apply(s, Hand(r)) == Asked(s, r, Handing([FIRST], 1)).(handed := s.handed + multiset{Item(1, FIRST)})
  {
  }

  /** The server's part in one request for the sample, on a table without its row. */
  lemma StoredOnce(s: System, r: nat)
    requires r < |s.requests| && s.requests[r] == Request(1, [FIRST], Arrived) && s.rows == map[]
    ensures var ms := [Select(r), Insert(r), Hand(r)];
      && Possible(s, ms)
      && Run(s, ms) == Recorded(Asked(s, r, Handing([FIRST], 1))).(handed := s.handed + multiset{Item(1, FIRST)})
  {
    hide Apply, Enabled;
    SelectOnce(s, r);
    var s1 := Asked(s, r, Selected({}));
    InsertOnce(s1, r);
    var s2 := Recorded(Asked(s1, r, Handing([FIRST], 0)));
    HandOnce(s2, r);
    RunOne(s, Select(r));
    RunMore(s, [Select(r)], Insert(r));
    RunMore(s, [Select(r)] + [Insert(r)], Hand(r));
    assert [Select(r)] + [Insert(r)] + [Hand(r)] == [Select(r), Insert(r), Hand(r)];
    assert Asked(Asked(s1, r, Handing([FIRST], 0)), r, Handing([FIRST], 1)) == Asked(s, r, Handing([FIRST], 1));
  }

  lemma OneSampleBatch()
    ensures FirstOfEach([FIRST]) == [FIRST] && Without([FIRST], {}) == [FIRST]
    ensures StoredFor(map[], 1) == {} && InsertAll(map[], 1, [FIRST]) == map[RowKey(1, 5) := FIRST]
    ensures KeysFor(1, [FIRST]) == {RowKey(1, 5)} && ItemsFrom(1, [FIRST], 0) == {Item(1, FIRST)}
  {
    assert [FIRST][..0] == [];
    assert FirstOfEach([FIRST][..0]) == [] && Without([FIRST][..0], {}) == [] && SequencesOf([FIRST][..0]) == {};
    assert InsertAll(map[], 1, [FIRST][..0]) == map[];
  }

  function Holding(inflight: Option<nat>): Sender {
    Sender([], [FIRST], 5, inflight, false)
  }

  lemma FirstPost()
    ensures var s0 := Begin({1});
      && Possible(s0, [Collect(1, 5, READING), Post(1)])
      && Run(s0, [Collect(1, 5, READING), Post(1)])
         == s0.(senders := map[1 := Holding(Some(0))], requests := [Request(1, [FIRST], Arrived)])
  {
    var s0 := Begin({1});
    assert s0.senders == map[1 := Sender([], [], 0, None, false)];
    assert [] + [FIRST] == [FIRST];
    var s1 := s0.(senders := map[1 := Holding(None)]);
    assert Apply(s0, Collect(1, 5, READING)) == s1;
    assert Apply(s1, Post(1)) == s1.(senders := map[1 := Holding(Some(0))], requests := [Request(1, [FIRST], Arrived)]);
    hide Apply, Enabled;
    RunOne(s0, Collect(1, 5, READING));
    RunMore(s0, [Collect(1, 5, READING)], Post(1));
    assert [Collect(1, 5, READING)] + [Post(1)] == [Collect(1, 5, READING), Post(1)];
  }

  lemma LoseReply(s: System)
    requires s.senders == map[1 := Holding(Some(0))] && |s.requests| == 1
    ensures Enabled(s, GiveUp(1)) && Apply(s, GiveUp(1)) == s.(senders := map[1 := Holding(None)])
  {
  }

  lemma RemoveRow(s: System)
    requires s.rows == map[RowKey(1, 5) := FIRST]
    ensures Enabled(s, Remove(RowKey(1, 5)))
    ensures Apply(s, Remove(RowKey(1, 5))) == s.(rows := map[], removed := s.removed + multiset{RowKey(1, 5)})
  {
    assert s.rows - {RowKey(1, 5)} == map[];
  }

  lemma PostHeld(s: System)
    requires s.senders == map[1 := Holding(None)]
    ensures Enabled(s, Post(1))
    ensures Apply(s, Post(1)) == s.(senders := map[1 := Holding(Some(|s.requests|))],
                                    requests := s.requests + [Request(1, [FIRST], Arrived)])
  {
  }

  /** The reply is lost, the row deleted, the sample posted again. */
  lemma PostAgain(s: System)
    requires s.senders == map[1 := Holding(Some(0))] && |s.requests| == 1 && s.rows == map[RowKey(1, 5) := FIRST]
    ensures var ms := [GiveUp(1), Remove(RowKey(1, 5)), Post(1)];
      && Possible(s, ms)
      && Run(s, ms) == s.(senders := map[1 := Holding(Some(1))], rows := map[],
                          removed := s.removed + multiset{RowKey(1, 5)},
                          requests := s.requests + [Request(1, [FIRST], Arrived)])
  {
    hide Apply, Enabled;
    var s1 := s.(senders := map[1 := Holding(None)]);
    var s2 := s1.(rows := map[], removed := s.removed + multiset{RowKey(1, 5)});
    LoseReply(s);
    RemoveRow(s1);
    PostHeld(s2);
    RunOne(s, GiveUp(1));
    RunMore(s, [GiveUp(1)], Remove(RowKey(1, 5)));
    RunMore(s, [GiveUp(1)] + [Remove(RowKey(1, 5))], Post(1));
    assert [GiveUp(1)] + [Remove(RowKey(1, 5))] + [Post(1)] == [GiveUp(1), Remove(RowKey(1, 5)), Post(1)];
  }

  /** Deleting the row while the retry is under way lets the same sample be accepted and handed on twice. */
  lemma DeletedRowIsAcceptedAgain()
    ensures Possible(Begin({1}), RETRIED)
    ensures var s := Run(Begin({1}), RETRIED); s.accepted[Item(1, FIRST)] == 2 && s.handed[Item(1, FIRST)] == 2
  {
    hide Run, Possible;
    var s0, a := Begin({1}), [Collect(1, 5, READING), Post(1)];
    FirstPost();
    var b, c := [Select(0), Insert(0), Hand(0)], [GiveUp(1), Remove(RowKey(1, 5)), Post(1)];
    StoredOnce(Run(s0, a), 0);
    RunConcat(s0, a, b);
    PostAgain(Run(s0, a + b));
    RunConcat(s0, a + b, c);
    var d := [Select(1), Insert(1), Hand(1)];
    StoredOnce(Run(s0, a + b + c), 1);
    RunConcat(s0, a + b + c, d);
    assert a + b + c + d == RETRIED;
  }
}
