/** Agents, requests and server together as a protocol of small moves, and the invariant that every move keeps. */
module Delivered {
  import opened Common
  import opened Domain
  import opened Agent
  import opened Ingestion

  /** `delivered` are the samples of acknowledged batches, `pending` the buffer, `inflight` the request waited for. */
  datatype Sender = Sender(delivered: seq<Sample>, pending: seq<Sample>, last: nat, inflight: Option<nat>, crashed: bool)

  function Collected(a: Sender): seq<Sample> {
    a.delivered + a.pending
  }

  /** A request on the server: arrived; past the SELECT; committed, with `handed` of its accepted samples
      processed; answered; rejected with a client error; or ended by an exception, a restart or a lost message. */
  datatype Phase =
    | Arrived
    | Selected(known: set<nat>)
    | Handing(accepted: seq<Sample>, handed: nat)
    | Answered
    | Rejected
    | Ended(accepted: seq<Sample>, handed: nat)

  datatype Request = Request(host: HostId, events: seq<Sample>, phase: Phase)

  datatype Item = Item(host: HostId, sample: Sample)

  function KeyOf(i: Item): RowKey {
    RowKey(i.host, i.sample.sequence)
  }

  /** `stored` counts how often a row of a key was inserted, by this path (`accepted`) or by another writer
      (`foreign`); `removed` how often it was deleted; `handed` the calls of `process_event`. */
  datatype System = System(
    senders: map<HostId, Sender>, requests: seq<Request>, rows: Table,
    stored: multiset<RowKey>, foreign: multiset<RowKey>, removed: multiset<RowKey>,
    accepted: multiset<Item>, handed: multiset<Item>)

  /** `Reject` is the schema's 422, `Deny` any other client error, such as 401 for a revoked key or an inactive host.
      `Refuse` is the agent's end at such a reply, `Perish` any other end: it is killed, or raises on a Retry-After that is
      no number. */
  datatype Move =
    | Collect(host: HostId, clock: nat, reading: Event)
    | Post(host: HostId)
    | Select(request: nat)
    | Reject(request: nat)
    | Deny(request: nat)
    | Insert(request: nat)
    | Hand(request: nat)
    | Answer(request: nat)
    | End(request: nat)
    | Acknowledge(host: HostId)
    | GiveUp(host: HostId)
    | Refuse(host: HostId)
    | Perish(host: HostId)
    | StoreOther(key: RowKey, sample: Sample)
    | Remove(key: RowKey)

  function SetPhase(s: System, r: nat, p: Phase): System
    requires r < |s.requests|
  {
    s.(requests := s.requests[r := s.requests[r].(phase := p)])
  }

  function SetSender(s: System, h: HostId, a: Sender): System {
    s.(senders := s.senders[h := a])
  }

  function KeysFor(h: HostId, samples: seq<Sample>): set<RowKey> {
    set q | q in SequencesOf(samples) :: RowKey(h, q)
  }

  function ItemsFrom(h: HostId, samples: seq<Sample>, n: nat): set<Item> {
    set i | n <= i < |samples| :: Item(h, samples[i])
  }

  /** The samples that the INSERT of a request sends, and those of them that the table lacks. */
  function CandidatesOf(q: Request): (r: seq<Sample>)
    requires q.phase.Selected?
    ensures OnePerSequence(r) && forall x :: x in r ==> x in q.events
  {
    DistinctWithout(FirstOfEach(q.events), q.phase.known);
    Without(FirstOfEach(q.events), q.phase.known)
  }

  function AcceptedOf(s: System, q: Request): (r: seq<Sample>)
    requires q.phase.Selected?
    ensures OnePerSequence(r) && forall x :: x in r ==> x in q.events
  {
    DistinctWithout(CandidatesOf(q), StoredFor(s.rows, q.host));
    Without(CandidatesOf(q), StoredFor(s.rows, q.host))
  }

  predicate Enabled(s: System, m: Move) {
    match m
    case Collect(h, _, _) => h in s.senders && s.senders[h].inflight.None? && !s.senders[h].crashed
    case Post(h) => h in s.senders && s.senders[h].inflight.None? && !s.senders[h].crashed && s.senders[h].pending != []
    case Select(r) => r < |s.requests| && s.requests[r].phase.Arrived? && |s.requests[r].events| <= MAX_BATCH
    case Reject(r) => r < |s.requests| && s.requests[r].phase.Arrived? && |s.requests[r].events| > MAX_BATCH
    case Deny(r) => r < |s.requests| && s.requests[r].phase.Arrived?
    case Insert(r) => r < |s.requests| && s.requests[r].phase.Selected?
    case Hand(r) => r < |s.requests| && s.requests[r].phase.Handing? && s.requests[r].phase.handed < |s.requests[r].phase.accepted|
    case Answer(r) => r < |s.requests| && s.requests[r].phase.Handing? && s.requests[r].phase.handed == |s.requests[r].phase.accepted|
    case End(r) => r < |s.requests| && !s.requests[r].phase.Answered? && !s.requests[r].phase.Ended?
                   && !s.requests[r].phase.Rejected?
    case Acknowledge(h) => h in s.senders && s.senders[h].inflight.Some? && s.senders[h].inflight.value < |s.requests|
                           && s.requests[s.senders[h].inflight.value].phase.Answered?
    case GiveUp(h) => h in s.senders && s.senders[h].inflight.Some?
    case Refuse(h) => h in s.senders && s.senders[h].inflight.Some? && s.senders[h].inflight.value < |s.requests|
                      && s.requests[s.senders[h].inflight.value].phase.Rejected?
    case Perish(h) => h in s.senders && !s.senders[h].crashed
    case StoreOther(k, _) => k !in s.rows
    case Remove(k) => k in s.rows
  }

  function Apply(s: System, m: Move): System
    requires Enabled(s, m)
  {
    match m
    case Collect(h, clock, reading) =>
      var a := s.senders[h];
      var q := NextSequence(a.last, clock);
      SetSender(s, h, a.(pending := a.pending + [Sample(q, reading)], last := q))
    case Post(h) =>
      var a := s.senders[h];
      SetSender(s.(requests := s.requests + [Request(h, a.pending, Arrived)]), h, a.(inflight := Some(|s.requests|)))
    case Select(r) =>
      SetPhase(s, r, Selected(StoredFor(s.rows, s.requests[r].host)))
    case Reject(r) =>
      SetPhase(s, r, Rejected)
    case Deny(r) =>
      SetPhase(s, r, Rejected)
    case Insert(r) =>
      var q := s.requests[r];
      var accepted := AcceptedOf(s, q);
      SetPhase(s, r, Handing(accepted, 0)).(
        rows := InsertAll(s.rows, q.host, CandidatesOf(q)),
        stored := s.stored + multiset(KeysFor(q.host, accepted)),
        accepted := s.accepted + multiset(ItemsFrom(q.host, accepted, 0)))
    case Hand(r) =>
      var q := s.requests[r];
      SetPhase(s, r, Handing(q.phase.accepted, q.phase.handed + 1)).(
        handed := s.handed + multiset{Item(q.host, q.phase.accepted[q.phase.handed])})
    case Answer(r) =>
      SetPhase(s, r, Answered)
    case End(r) =>
      var p := s.requests[r].phase;
      SetPhase(s, r, if p.Handing? then Ended(p.accepted, p.handed) else Ended([], 0))
    case Acknowledge(h) =>
      var a := s.senders[h];
      SetSender(s, h, a.(delivered := a.delivered + a.pending, pending := [], inflight := None))
    case GiveUp(h) =>
      SetSender(s, h, s.senders[h].(inflight := None))
    case Refuse(h) =>
      SetSender(s, h, s.senders[h].(inflight := None, crashed := true))
    case Perish(h) =>
      SetSender(s, h, s.senders[h].(inflight := None, crashed := true))
    case StoreOther(k, x) =>
      s.(rows := s.rows[k := x], stored := s.stored + multiset{k}, foreign := s.foreign + multiset{k})
    case Remove(k) =>
      s.(rows := s.rows - {k}, removed := s.removed + multiset{k})
  }

  // ----- Invariant -----

  /** Sequence numbers strictly increase, up to the last one given out. */
  predicate Increasing(a: Sender) {
    var c := Collected(a);
    && (forall i, j :: 0 <= i < j < |c| ==> c[i].sequence < c[j].sequence)
    && (forall i :: 0 <= i < |c| ==> c[i].sequence <= a.last)
  }

  predicate WasStored(s: System, k: RowKey) {
    s.stored[k] >= 1
  }

  predicate AllStored(s: System, h: HostId, samples: seq<Sample>) {
    forall i :: 0 <= i < |samples| ==> WasStored(s, RowKey(h, samples[i].sequence))
  }

  ghost predicate SenderGood(s: System, h: HostId, a: Sender) {
    && Increasing(a) && AllStored(s, h, a.delivered)
    && (a.inflight.Some? ==> a.inflight.value < |s.requests| && s.requests[a.inflight.value].host == h
                             && s.requests[a.inflight.value].events == a.pending)
  }

  predicate FromSender(s: System, h: HostId, x: Sample) {
    h in s.senders && x in Collected(s.senders[h])
  }

  ghost predicate RequestGood(s: System, q: Request) {
    && (forall x :: x in q.events ==> FromSender(s, q.host, x))
    && (q.phase.Selected? ==> forall n :: n in q.phase.known ==> WasStored(s, RowKey(q.host, n)))
    && (q.phase.Handing? || q.phase.Answered? ==> AllStored(s, q.host, q.events))
    && (q.phase.Handing? || q.phase.Ended? ==> OnePerSequence(q.phase.accepted))
    && (q.phase.Handing? ==> q.phase.handed <= |q.phase.accepted|)
    && (q.phase.Selected? || q.phase.Handing? || q.phase.Answered? ==> |q.events| <= MAX_BATCH)
  }

  /** The accepted samples a request has not handed on. */
  function Left(q: Request): set<Item> {
    if q.phase.Handing? || q.phase.Ended? then ItemsFrom(q.host, q.phase.accepted, q.phase.handed) else {}
  }

  function Unhanded(rs: seq<Request>): multiset<Item> {
    if rs == [] then multiset{} else Unhanded(rs[..|rs| - 1]) + multiset(Left(rs[|rs| - 1]))
  }

  ghost predicate KeyGood(s: System, k: RowKey) {
    s.stored[k] == s.removed[k] + (if k in s.rows then 1 else 0)
  }

  /** Only collected samples are accepted, and each insertion of a collected sample's key is an acceptance of that
      sample or another writer's. */
  predicate ItemGood(s: System, i: Item) {
    if FromSender(s, i.host, i.sample) then s.accepted[i] + s.foreign[KeyOf(i)] == s.stored[KeyOf(i)]
    else s.accepted[i] == 0
  }

  ghost predicate HasCollected(s: System, k: RowKey) {
    exists x :: FromSender(s, k.host, x) && x.sequence == k.sequence
  }

  /** The key of no collected sample was inserted by other writers only. */
  ghost predicate SpareGood(s: System, k: RowKey) {
    HasCollected(s, k) || s.stored[k] == s.foreign[k]
  }

  ghost predicate SparesGood(s: System) {
    forall k :: SpareGood(s, k)
  }

  ghost predicate SendersGood(s: System) {
    forall h :: h in s.senders ==> SenderGood(s, h, s.senders[h])
  }

  ghost predicate RequestsGood(s: System) {
    forall r :: 0 <= r < |s.requests| ==> RequestGood(s, s.requests[r])
  }

  ghost predicate KeysGood(s: System) {
    forall k :: KeyGood(s, k)
  }

  ghost predicate ItemsGood(s: System) {
    forall i :: ItemGood(s, i)
  }

  /** A row that only agents can have written is an accepted sample under its own sequence. */
  ghost predicate RowGood(s: System, k: RowKey) {
    k in s.rows && s.foreign[k] == 0 ==> s.rows[k].sequence == k.sequence && s.accepted[Item(k.host, s.rows[k])] > 0
  }

  ghost predicate RowsGood(s: System) {
    forall k :: RowGood(s, k)
  }

  /** What was accepted is what was handed on and what is left to hand on. */
  predicate Balanced(s: System) {
    s.accepted == s.handed + Unhanded(s.requests)
  }

  ghost predicate Good(s: System) {
    SendersGood(s) && RequestsGood(s) && KeysGood(s) && ItemsGood(s) && SparesGood(s) && RowsGood(s) && Balanced(s)
  }

  function Begin(hosts: set<HostId>): System {
    System(map h | h in hosts :: Sender([], [], 0, None, false), [], map[], multiset{}, multiset{}, multiset{}, multiset{}, multiset{})
  }

  lemma BeginIsGood(hosts: set<HostId>)
    ensures Good(Begin(hosts))
  {
  }

  // ----- Preservation -----

  lemma {:induction false} UnhandedUpdate(rs: seq<Request>, r: nat, q: Request, x: Item)
    requires r < |rs|
    ensures Unhanded(rs[r := q])[x] + multiset(Left(rs[r]))[x] == Unhanded(rs)[x] + multiset(Left(q))[x]
  {
    hide Left;
    var n, rs' := |rs| - 1, rs[r := q];
    assert Unhanded(rs') == Unhanded(rs'[..n]) + multiset(Left(rs'[n]));
    if r < n {
      assert rs'[..n] == rs[..n][r := q] && rs'[n] == rs[n];
      UnhandedUpdate(rs[..n], r, q, x);
    } else {
      assert rs'[..n] == rs[..n] && rs'[n] == q;
    }
  }

  lemma UnhandedAppend(rs: seq<Request>, q: Request)
    requires Left(q) == {}
    ensures Unhanded(rs + [q]) == Unhanded(rs)
  {
    assert (rs + [q])[..|rs|] == rs;
  }

  /** Nothing that was stored or collected is forgotten. */
  ghost predicate Grows(s: System, s': System) {
    && (forall k :: s.stored[k] <= s'.stored[k])
    && (forall h, x :: FromSender(s, h, x) ==> FromSender(s', h, x))
  }

  /** Requests keep their host and batch for ever. */
  predicate SameBatches(s: System, s': System) {
    && |s.requests| <= |s'.requests|
    && forall r :: 0 <= r < |s.requests| ==> s'.requests[r].host == s.requests[r].host && s'.requests[r].events == s.requests[r].events
  }

  lemma SendersFrame(s: System, s': System)
    requires SendersGood(s) && s'.senders == s.senders && Grows(s, s') && SameBatches(s, s')
    ensures SendersGood(s')
  {
    forall h | h in s'.senders ensures SenderGood(s', h, s'.senders[h]) { assert SenderGood(s, h, s.senders[h]); }
  }

  lemma OneSender(s: System, s': System, h: HostId)
    requires SendersGood(s) && h in s.senders && s'.senders.Keys == s.senders.Keys && SenderGood(s', h, s'.senders[h])
    requires forall g :: g in s.senders && g != h ==> s'.senders[g] == s.senders[g]
    requires Grows(s, s') && SameBatches(s, s')
    ensures SendersGood(s')
  {
    forall g | g in s'.senders ensures SenderGood(s', g, s'.senders[g]) { assert SenderGood(s, g, s.senders[g]); }
  }

  lemma RequestFrame(s: System, s': System, q: Request)
    requires RequestGood(s, q) && Grows(s, s')
    ensures RequestGood(s', q)
  {
  }

  lemma OneRequest(s: System, s': System, r: nat)
    requires RequestsGood(s) && Grows(s, s') && r <= |s.requests| && r < |s'.requests|
    requires RequestGood(s', s'.requests[r])
    requires |s.requests| <= |s'.requests| <= (if r < |s.requests| then |s.requests| else r + 1)
    requires forall i :: 0 <= i < |s.requests| && i != r ==> s'.requests[i] == s.requests[i]
    ensures RequestsGood(s')
  {
    forall i | 0 <= i < |s'.requests| ensures RequestGood(s', s'.requests[i]) {
      if i != r { RequestFrame(s, s', s.requests[i]); }
    }
  }

  /** The same samples were collected. */
  ghost predicate SameCollected(s: System, s': System) {
    forall h, x :: FromSender(s, h, x) <==> FromSender(s', h, x)
  }

  lemma ItemsFrame(s: System, s': System)
    requires ItemsGood(s) && SparesGood(s) && SameCollected(s, s')
    requires s'.stored == s.stored && s'.accepted == s.accepted && s'.foreign == s.foreign
    ensures ItemsGood(s') && SparesGood(s')
  {
    hide FromSender;
    forall i ensures ItemGood(s', i) { assert ItemGood(s, i); }
    forall k ensures SpareGood(s', k) { assert SpareGood(s, k); }
  }

  lemma KeysFrame(s: System, s': System)
    requires KeysGood(s) && s'.rows == s.rows && s'.stored == s.stored && s'.removed == s.removed
    ensures KeysGood(s')
  {
    forall k ensures KeyGood(s', k) { assert KeyGood(s, k); }
  }

  lemma RowsFrame(s: System, s': System)
    requires RowsGood(s) && s'.rows == s.rows && s'.foreign == s.foreign && s'.accepted == s.accepted
    ensures RowsGood(s')
  {
    forall k ensures RowGood(s', k) { assert RowGood(s, k); }
  }

  // ----- The agent's moves -----

  predicate Agents(m: Move) {
    m.Collect? || m.Post? || m.Acknowledge? || m.GiveUp? || m.Refuse? || m.Perish?
  }

  lemma SenderKeeps(s: System, m: Move)
    requires Enabled(s, m) && Agents(m) && SenderGood(s, m.host, s.senders[m.host])
    requires m.Acknowledge? ==> RequestGood(s, s.requests[s.senders[m.host].inflight.value])
    ensures SenderGood(Apply(s, m), m.host, Apply(s, m).senders[m.host])
    ensures forall x :: x in Collected(s.senders[m.host]) ==> x in Collected(Apply(s, m).senders[m.host])
  {
    var a, a' := s.senders[m.host], Apply(s, m).senders[m.host];
    if m.Collect? {
      assert Collected(a') == Collected(a) + [Sample(a'.last, m.reading)];
    } else {
      assert Collected(a') == Collected(a);
    }
  }

  lemma SenderMove(s: System, m: Move)
    requires Good(s) && Enabled(s, m) && Agents(m)
    ensures Good(Apply(s, m))
  {
    hide SenderGood, RequestGood, KeysGood, ItemGood, SpareGood, RowsGood, Unhanded, SameCollected;
    var s', h := Apply(s, m), m.host;
    var a := s.senders[h];
    assert SenderGood(s, h, a);
    InflightExists(s, h);
    if m.Acknowledge? { assert RequestGood(s, s.requests[a.inflight.value]); }
    SenderKeeps(s, m);
    SenderGrows(s, m);
    OneSender(s, s', h);
    KeysFrame(s, s');
    RowsFrame(s, s');
    if m.Collect? {
      CollectedIsNew(s, m);
    } else {
      NothingCollected(s, m);
      ItemsFrame(s, s');
    }
    if m.Post? {
      PostedGood(s, h);
      OneRequest(s, s', |s.requests|);
      UnhandedAppend(s.requests, Request(h, a.pending, Arrived));
    } else {
      forall i | 0 <= i < |s'.requests| ensures RequestGood(s', s'.requests[i]) { RequestFrame(s, s', s.requests[i]); }
    }
  }

  lemma NothingCollected(s: System, m: Move)
    requires Enabled(s, m) && Agents(m) && !m.Collect?
    ensures SameCollected(s, Apply(s, m))
  {
    var a, a' := s.senders[m.host], Apply(s, m).senders[m.host];
    assert Collected(a') == Collected(a);
  }

  /** A new sample has a sequence of its own, so nothing was stored or accepted under it yet. */
  lemma CollectedIsNew(s: System, m: Move)
    requires SendersGood(s) && ItemsGood(s) && SparesGood(s) && Enabled(s, m) && m.Collect?
    ensures ItemsGood(Apply(s, m)) && SparesGood(Apply(s, m))
  {
    var s', h := Apply(s, m), m.host;
    var a, a' := s.senders[h], s'.senders[h];
    assert SenderGood(s, h, a);
    var x := Sample(a'.last, m.reading);
    assert Collected(a') == Collected(a) + [x];
    assert !HasCollected(s, RowKey(h, x.sequence)) by {
      forall y | FromSender(s, h, y) ensures y.sequence != x.sequence { }
    }
    hide SenderGood, Collected;
    assert SpareGood(s, RowKey(h, x.sequence));
    forall i ensures ItemGood(s', i) { assert ItemGood(s, i); OneCollected(s, m, i.host, i.sample); }
    forall k ensures SpareGood(s', k) {
      assert SpareGood(s, k);
      if y :| FromSender(s, k.host, y) && y.sequence == k.sequence { OneCollected(s, m, k.host, y); }
    }
  }

  lemma OneCollected(s: System, m: Move, h: HostId, y: Sample)
    requires Enabled(s, m) && m.Collect?
    ensures FromSender(Apply(s, m), h, y) <==>
      FromSender(s, h, y) || (h == m.host && y == Sample(Apply(s, m).senders[h].last, m.reading))
  {
    var a, a' := s.senders[m.host], Apply(s, m).senders[m.host];
    assert Collected(a') == Collected(a) + [Sample(a'.last, m.reading)];
  }

  lemma InflightExists(s: System, h: HostId)
    requires h in s.senders && SenderGood(s, h, s.senders[h])
    ensures s.senders[h].inflight.Some? ==> s.senders[h].inflight.value < |s.requests|
  {
  }

  lemma SenderGrows(s: System, m: Move)
    requires Enabled(s, m) && Agents(m)
    requires forall x :: x in Collected(s.senders[m.host]) ==> x in Collected(Apply(s, m).senders[m.host])
    ensures Grows(s, Apply(s, m))
  {
    hide Collected;
  }

  lemma PostedGood(s: System, h: HostId)
    requires Enabled(s, Post(h))
    ensures RequestGood(Apply(s, Post(h)), Request(h, s.senders[h].pending, Arrived))
  {
  }

  // ----- The server's moves -----

  lemma {:induction false} LeftInPlace(s: System, s': System, r: nat, q': Request)
    requires Balanced(s) && r < |s.requests| && s'.requests == s.requests[r := q']
    requires s'.accepted + s.handed + multiset(Left(s.requests[r])) == s.accepted + s'.handed + multiset(Left(q'))
    ensures Balanced(s')
  {
    hide Left, Unhanded;
    var left, left' := multiset(Left(s.requests[r])), multiset(Left(q'));
    forall x ensures s'.accepted[x] == s'.handed[x] + Unhanded(s'.requests)[x] {
      UnhandedUpdate(s.requests, r, q', x);
      assert (s'.accepted + s.handed + left)[x] == (s.accepted + s'.handed + left')[x];
      assert s.accepted[x] == (s.handed + Unhanded(s.requests))[x];
    }
  }

  lemma ItemsLeft(h: HostId, samples: seq<Sample>, n: nat)
    requires n < |samples| && OnePerSequence(samples)
    ensures multiset(ItemsFrom(h, samples, n)) == multiset(ItemsFrom(h, samples, n + 1)) + multiset{Item(h, samples[n])}
  {
    var x := Item(h, samples[n]);
    assert ItemsFrom(h, samples, n) == ItemsFrom(h, samples, n + 1) + {x};
    assert x !in ItemsFrom(h, samples, n + 1);
  }

  lemma StoredNow(s: System, h: HostId)
    requires KeysGood(s)
    ensures forall n :: n in StoredFor(s.rows, h) ==> WasStored(s, RowKey(h, n))
  {
    forall n | n in StoredFor(s.rows, h) ensures WasStored(s, RowKey(h, n)) { assert KeyGood(s, RowKey(h, n)); }
  }

  predicate ServerStep(m: Move) {
    m.Select? || m.Reject? || m.Deny? || m.Hand? || m.Answer? || m.End?
  }

  /** Moves of one request that touch neither rows nor senders. */
  lemma RequestMove(s: System, m: Move)
    requires Good(s) && Enabled(s, m) && ServerStep(m)
    ensures Good(Apply(s, m))
  {
    hide SendersGood, KeysGood, ItemGood, SpareGood, RowsGood, Unhanded, SequencesOf, StoredFor;
    var s', r := Apply(s, m), m.request;
    var q, q' := s.requests[r], s'.requests[r];
    assert RequestGood(s, q);
    assert Grows(s, s') && SameBatches(s, s');
    SendersFrame(s, s');
    KeysFrame(s, s');
    ItemsFrame(s, s');
    RowsFrame(s, s');
    StoredNow(s, q.host);
    OneRequest(s, s', r);
    PhaseMove(q, q', m, s, s');
  }

  lemma PhaseMove(q: Request, q': Request, m: Move, s: System, s': System)
    requires Balanced(s) && Enabled(s, m) && ServerStep(m) && s' == Apply(s, m)
    requires q == s.requests[m.request] && q' == s'.requests[m.request] && RequestGood(s, q)
    ensures Balanced(s')
  {
    hide Unhanded, RequestGood, StoredFor;
    if m.Hand? { Chosen(s, q); ItemsLeft(q.host, q.phase.accepted, q.phase.handed); }
    if m.Answer? { assert ItemsFrom(q.host, q.phase.accepted, q.phase.handed) == {}; }
    if m.Reject? || m.Deny? { assert Left(q) == Left(q') == {}; }
    if m.End? { assert Left(q') == Left(q) by { assert ItemsFrom(q.host, [], 0) == {}; } }
    LeftInPlace(s, s', m.request, q');
  }

  lemma Chosen(s: System, q: Request)
    requires RequestGood(s, q) && q.phase.Handing?
    ensures OnePerSequence(q.phase.accepted)
  {
  }

  // ----- The INSERT -----

  /** What an INSERT does to the counts. */
  lemma InsertCounts(s: System, m: Move)
    requires Enabled(s, m) && m.Insert?
    ensures var q, s' := s.requests[m.request], Apply(s, m);
      && s'.rows == InsertAll(s.rows, q.host, CandidatesOf(q))
      && s'.foreign == s.foreign && s'.removed == s.removed && s'.senders == s.senders
      && (forall k :: s'.stored[k] == s.stored[k] + (if k in KeysFor(q.host, AcceptedOf(s, q)) then 1 else 0))
      && (forall i :: s'.accepted[i] == s.accepted[i] + (if i in ItemsFrom(q.host, AcceptedOf(s, q), 0) then 1 else 0))
  {
    hide InsertAll, CandidatesOf, AcceptedOf, KeysFor, ItemsFrom;
  }

  /** A key is newly stored exactly if it was sent and missing. */
  lemma NewlyStored(s: System, q: Request, k: RowKey)
    requires q.phase.Selected?
    ensures k in KeysFor(q.host, AcceptedOf(s, q)) <==>
      k.host == q.host && k.sequence in SequencesOf(q.events) && k.sequence !in q.phase.known && k !in s.rows
    ensures k in InsertAll(s.rows, q.host, CandidatesOf(q)) <==>
      k in s.rows || (k.host == q.host && k.sequence in SequencesOf(q.events) && k.sequence !in q.phase.known)
  {
    InsertAddsTheAccepted(s.rows, q.host, CandidatesOf(q), k);
    SequencesWithout(FirstOfEach(q.events), q.phase.known, k.sequence);
    SequencesWithout(CandidatesOf(q), StoredFor(s.rows, q.host), k.sequence);
    assert k in KeysFor(q.host, AcceptedOf(s, q)) <==> k.host == q.host && k.sequence in SequencesOf(AcceptedOf(s, q));
    assert k.host == q.host ==> (k in s.rows <==> k.sequence in StoredFor(s.rows, q.host));
  }

  lemma InsertRows(s: System, m: Move, k: RowKey)
    requires Enabled(s, m) && m.Insert? && KeyGood(s, k)
    ensures KeyGood(Apply(s, m), k)
    ensures var q := s.requests[m.request];
      k.host == q.host && k.sequence in SequencesOf(q.events) && (k.sequence in q.phase.known ==> WasStored(s, k))
      ==> WasStored(Apply(s, m), k)
  {
    hide Apply, InsertAll, KeysFor, ItemsFrom, AcceptedOf, CandidatesOf, SequencesOf;
    InsertCounts(s, m);
    NewlyStored(s, s.requests[m.request], k);
  }

  lemma {:induction false} SequencesWithout(events: seq<Sample>, known: set<nat>, n: nat)
    ensures n in SequencesOf(Without(events, known)) <==> n in SequencesOf(events) && n !in known
  {
    if events != [] {
      SequencesWithout(events[..|events| - 1], known, n);
      var w := Without(events[..|events| - 1], known);
      assert (w + [events[|events| - 1]])[..|w|] == w;
    }
  }

  lemma SameSequenceSameSample(a: Sender, x: Sample, y: Sample)
    requires Increasing(a) && x in Collected(a) && y in Collected(a) && x.sequence == y.sequence
    ensures x == y
  {
    var c := Collected(a);
    var i :| 0 <= i < |c| && c[i] == x;
    var j :| 0 <= j < |c| && c[j] == y;
  }

  lemma OneSample(s: System, h: HostId, x: Sample, y: Sample)
    requires SendersGood(s) && FromSender(s, h, x) && FromSender(s, h, y) && x.sequence == y.sequence
    ensures x == y
  {
    assert SenderGood(s, h, s.senders[h]);
    SameSequenceSameSample(s.senders[h], x, y);
  }

  /** The accepted samples of an INSERT were collected by its host. */
  lemma AcceptedWereCollected(s: System, q: Request, samples: seq<Sample>)
    requires RequestGood(s, q) && forall x :: x in samples ==> x in q.events
    ensures forall i :: i in ItemsFrom(q.host, samples, 0) ==> FromSender(s, i.host, i.sample)
    ensures forall k :: k in KeysFor(q.host, samples) ==>
      exists x :: x in samples && RowKey(q.host, x.sequence) == k && FromSender(s, q.host, x)
  {
    hide FromSender;
    forall k | k in KeysFor(q.host, samples)
      ensures exists x :: x in samples && RowKey(q.host, x.sequence) == k && FromSender(s, q.host, x)
    {
      var j :| 0 <= j < |samples| && samples[j].sequence == k.sequence;
      assert samples[j] in samples;
    }
  }

  /** For a collected sample, to be among the accepted is to have its key among theirs. */
  lemma KeyIffItem(s: System, q: Request, accepted: seq<Sample>, i: Item)
    requires SendersGood(s) && RequestGood(s, q) && FromSender(s, i.host, i.sample)
    requires forall x :: x in accepted ==> x in q.events
    ensures i in ItemsFrom(q.host, accepted, 0) <==> KeyOf(i) in KeysFor(q.host, accepted)
  {
    hide SendersGood, FromSender, RequestGood, SequencesOf;
    AcceptedWereCollected(s, q, accepted);
    if KeyOf(i) in KeysFor(q.host, accepted) {
      var x :| x in accepted && RowKey(q.host, x.sequence) == KeyOf(i) && FromSender(s, q.host, x);
      OneSample(s, q.host, x, i.sample);
      var j :| 0 <= j < |accepted| && accepted[j] == x;
    }
  }

  lemma InsertItems(s: System, m: Move, i: Item)
    requires Enabled(s, m) && m.Insert? && ItemGood(s, i) && SendersGood(s) && RequestGood(s, s.requests[m.request])
    ensures ItemGood(Apply(s, m), i)
  {
    InsertCounts(s, m);
    SendersSame(s, m);
    hide Apply, SendersGood, FromSender, InsertAll, RequestGood, KeysFor, ItemsFrom, AcceptedOf, CandidatesOf;
    var q := s.requests[m.request];
    if FromSender(s, i.host, i.sample) {
      KeyIffItem(s, q, AcceptedOf(s, q), i);
    } else {
      AcceptedWereCollected(s, q, AcceptedOf(s, q));
    }
  }

  lemma SendersSame(s: System, m: Move)
    requires Enabled(s, m) && m.Insert?
    ensures forall h, x :: FromSender(Apply(s, m), h, x) <==> FromSender(s, h, x)
  {
  }

  lemma InsertSpares(s: System, m: Move, k: RowKey)
    requires Enabled(s, m) && m.Insert? && SpareGood(s, k) && RequestGood(s, s.requests[m.request])
    ensures SpareGood(Apply(s, m), k)
  {
    InsertCounts(s, m);
    SendersSame(s, m);
    hide Apply, FromSender, InsertAll, RequestGood, KeysFor, ItemsFrom, AcceptedOf, CandidatesOf;
    var q := s.requests[m.request];
    AcceptedWereCollected(s, q, AcceptedOf(s, q));
  }

  lemma InsertedRequest(s: System, m: Move)
    requires Enabled(s, m) && m.Insert? && KeysGood(s) && RequestGood(s, s.requests[m.request])
    ensures RequestGood(Apply(s, m), Apply(s, m).requests[m.request])
  {
    var q, s' := s.requests[m.request], Apply(s, m);
    forall i | 0 <= i < |q.events| ensures WasStored(s', RowKey(q.host, q.events[i].sequence)) {
      assert KeyGood(s, RowKey(q.host, q.events[i].sequence));
      InsertRows(s, m, RowKey(q.host, q.events[i].sequence));
    }
  }

  lemma InsertedRow(s: System, m: Move, k: RowKey)
    requires Enabled(s, m) && m.Insert? && RowGood(s, k)
    ensures RowGood(Apply(s, m), k)
  {
    InsertCounts(s, m);
    var q, s' := s.requests[m.request], Apply(s, m);
    InsertAddsTheAccepted(s.rows, q.host, CandidatesOf(q), k);
    var accepted := AcceptedOf(s, q);
    assert accepted == Without(CandidatesOf(q), StoredFor(s.rows, q.host));
    hide Apply, InsertAll, AcceptedOf, CandidatesOf, Without, StoredFor, SequencesOf;
    if k in s'.rows && k !in s.rows {
      var i :| 0 <= i < |accepted| && accepted[i] == s'.rows[k];
      assert Item(q.host, s'.rows[k]) in ItemsFrom(q.host, accepted, 0);
    }
  }

  lemma InsertMove(s: System, m: Move)
    requires Good(s) && Enabled(s, m) && m.Insert?
    ensures Good(Apply(s, m))
  {
    hide SendersGood, RequestGood, Unhanded, SequencesOf, AcceptedOf, CandidatesOf, InsertAll, KeyGood, ItemGood,
         SpareGood, RowGood;
    var s', r := Apply(s, m), m.request;
    var q := s.requests[r];
    assert RequestGood(s, q);
    assert Grows(s, s') && SameBatches(s, s');
    SendersFrame(s, s');
    forall k ensures KeyGood(s', k) { InsertRows(s, m, k); }
    forall i ensures ItemGood(s', i) { assert ItemGood(s, i); InsertItems(s, m, i); }
    forall k ensures SpareGood(s', k) { assert SpareGood(s, k); InsertSpares(s, m, k); }
    forall k ensures RowGood(s', k) { InsertedRow(s, m, k); }
    InsertedRequest(s, m);
    OneRequest(s, s', r);
    LeftInPlace(s, s', r, s'.requests[r]);
  }

  // ----- Other writers -----

  lemma RowMove(s: System, m: Move)
    requires Good(s) && Enabled(s, m) && (m.StoreOther? || m.Remove?)
    ensures Good(Apply(s, m))
  {
    hide SendersGood, RequestGood, Unhanded;
    var s' := Apply(s, m);
    assert Grows(s, s') && SameBatches(s, s');
    SendersFrame(s, s');
    forall k ensures KeyGood(s', k) { assert KeyGood(s, k); }
    forall i ensures ItemGood(s', i) { assert ItemGood(s, i); }
    forall k ensures SpareGood(s', k) { assert SpareGood(s, k); }
    forall k ensures RowGood(s', k) { assert RowGood(s, k); }
    forall i | 0 <= i < |s'.requests| ensures RequestGood(s', s'.requests[i]) { RequestFrame(s, s', s.requests[i]); }
  }

  lemma MoveKeepsGood(s: System, m: Move)
    requires Good(s) && Enabled(s, m)
    ensures Good(Apply(s, m))
  {
    hide Good, Apply, Enabled;
    match m
    case Collect(_, _, _) => SenderMove(s, m);
    case Post(_) => SenderMove(s, m);
    case Acknowledge(_) => SenderMove(s, m);
    case GiveUp(_) => SenderMove(s, m);
    case Refuse(_) => SenderMove(s, m);
    case Perish(_) => SenderMove(s, m);
    case Select(_) => RequestMove(s, m);
    case Reject(_) => RequestMove(s, m);
    case Deny(_) => RequestMove(s, m);
    case Hand(_) => RequestMove(s, m);
    case Answer(_) => RequestMove(s, m);
    case End(_) => RequestMove(s, m);
    case Insert(_) => InsertMove(s, m);
    case StoreOther(_, _) => RowMove(s, m);
    case Remove(_) => RowMove(s, m);
  }
}
