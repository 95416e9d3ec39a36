/** Correlation is sessionisation: one incident per group of alerts without a gap over five minutes. */
module Sessions {
  import opened Common
  import opened Domain
  import opened Incidents

  datatype Scope = Scope(host: Option<HostId>, service: Option<ServiceId>)

  predicate InScope(a: Alert, s: Scope) {
    a.host == s.host && a.service == s.service
  }

  // ----- Reference: splitting a list of alerts at gaps -----

  /** Does alert `k` follow the previous one without a gap? */
  predicate Near(alerts: seq<Alert>, k: nat) {
    0 < k < |alerts| && alerts[k].timestamp - alerts[k - 1].timestamp <= CORRELATION_WINDOW
  }

  /** The alerts `lo`, ..., `hi - 1` of a list. */
  datatype Group = Group(lo: nat, hi: nat)

  /** The groups of the first `n` alerts, split where consecutive alerts are over five minutes apart. */
  function Split(alerts: seq<Alert>, n: nat): (s: seq<Group>)
    ensures n == 0 <==> s == []
    ensures s != [] ==> s[|s| - 1].hi == n && s[|s| - 1].lo < n
  {
    if n == 0 then [] else
    var s := Split(alerts, n - 1);
    if Near(alerts, n - 1) then s[|s| - 1 := Group(s[|s| - 1].lo, n)] else s + [Group(n - 1, n)]
  }

  /** The groups tile the first `n` positions. */
  predicate Tiles(s: seq<Group>, n: nat) {
    && (s != [] ==> s[0].lo == 0 && s[|s| - 1].hi == n)
    && (forall k :: 0 <= k < |s| ==> s[k].lo < s[k].hi <= n)
    && (forall k :: 0 < k < |s| ==> s[k - 1].hi == s[k].lo)
  }

  lemma {:induction false} SplitTiles(alerts: seq<Alert>, n: nat)
    ensures Tiles(Split(alerts, n), n)
  {
    if n > 0 { SplitTiles(alerts, n - 1); }
  }

  /** The groups are maximal: no gap inside a group, a gap before every group but the first. */
  lemma {:induction false} SplitCutsAtGaps(alerts: seq<Alert>, n: nat, k: nat, i: nat)
    requires k < |Split(alerts, n)|
    ensures Split(alerts, n)[k].lo < i < Split(alerts, n)[k].hi ==> Near(alerts, i)
    ensures k > 0 ==> !Near(alerts, Split(alerts, n)[k].lo)
  {
    var s := Split(alerts, n - 1);
    if k < |s| { SplitCutsAtGaps(alerts, n - 1, k, i); }
  }

  predicate Chronological(alerts: seq<Alert>) {
    forall i, j :: 0 <= i <= j < |alerts| ==> alerts[i].timestamp <= alerts[j].timestamp
  }

  /** All groups but the last are over five minutes older than every later alert. */
  lemma OldGroupsAreOutOfReach(alerts: seq<Alert>, n: nat, k: nat, i: nat)
    requires Chronological(alerts) && k + 1 < |Split(alerts, n)| && n - 1 <= i < |alerts| && n <= |alerts|
    ensures 0 < Split(alerts, n)[k].hi <= n
    ensures alerts[Split(alerts, n)[k].hi - 1].timestamp + CORRELATION_WINDOW < alerts[i].timestamp
  {
    var s := Split(alerts, n);
    SplitTiles(alerts, n);
    SplitCutsAtGaps(alerts, n, k + 1, 0);
    assert s[k].hi == s[k + 1].lo && !Near(alerts, s[k + 1].lo);
    assert alerts[s[k + 1].lo].timestamp <= alerts[i].timestamp;
  }

  // ----- The incidents of one scope -----

  predicate Scoped(i: Incident, s: Scope) {
    i.host == s.host && i.service == s.service
  }

  /** The incidents of a scope among the first `n`, in dictionary order. */
  function Filter(m: map<IncidentId, Incident>, n: nat, s: Scope): (r: seq<IncidentId>)
    ensures forall k :: 0 <= k < |r| ==> r[k] < n && r[k] in m && Scoped(m[r[k]], s)
    ensures forall j, k :: 0 <= j < k < |r| ==> r[j] < r[k]
  {
    if n == 0 then []
    else if n - 1 in m && Scoped(m[n - 1], s) then Filter(m, n - 1, s) + [n - 1]
    else Filter(m, n - 1, s)
  }

  lemma {:induction false} FilterFinds(m: map<IncidentId, Incident>, n: nat, s: Scope, i: IncidentId) returns (k: nat)
    requires i < n && i in m && Scoped(m[i], s)
    ensures k < |Filter(m, n, s)| && Filter(m, n, s)[k] == i
  {
    if i == n - 1 { k := |Filter(m, n, s)| - 1; } else { k := FilterFinds(m, n - 1, s, i); }
  }

  function IncidentsOf(l: Ledger, s: Scope): seq<IncidentId> {
    Filter(l.incidents, l.next, s)
  }

  function IdsOf(alerts: seq<Alert>, lo: nat, hi: nat): set<AlertId>
    requires lo <= hi <= |alerts|
  {
    if lo == hi then {} else IdsOf(alerts, lo, hi - 1) + {alerts[hi - 1].id}
  }

  /** The highest severity among the alerts `lo`, ..., `hi - 1`. */
  function Worst(alerts: seq<Alert>, lo: nat, hi: nat): Severity
    requires lo < hi <= |alerts|
  {
    if lo + 1 == hi then alerts[lo].severity
    else
      var w, v := Worst(alerts, lo, hi - 1), alerts[hi - 1].severity;
      if Rank(v) > Rank(w) then v else w
  }

  lemma {:induction false} IdsAndWorst(alerts: seq<Alert>, lo: nat, hi: nat, a: AlertId)
    requires lo < hi <= |alerts|
    ensures a in IdsOf(alerts, lo, hi) <==> exists k :: lo <= k < hi && alerts[k].id == a
    ensures forall k :: lo <= k < hi ==> Rank(alerts[k].severity) <= Rank(Worst(alerts, lo, hi))
    ensures exists k :: lo <= k < hi && alerts[k].severity == Worst(alerts, lo, hi)
  {
    if lo + 1 == hi {
      assert IdsOf(alerts, lo, lo) == {};
      assert alerts[lo].severity == Worst(alerts, lo, hi);
    } else {
      IdsAndWorst(alerts, lo, hi - 1, a);
      var k :| lo <= k < hi - 1 && alerts[k].severity == Worst(alerts, lo, hi - 1);
      assert alerts[k].severity == Worst(alerts, lo, hi) || alerts[hi - 1].severity == Worst(alerts, lo, hi);
    }
  }

  /** An unresolved incident that records exactly the alerts of group `g`. */
  predicate Records(i: Incident, alerts: seq<Alert>, g: Group)
    requires g.lo < g.hi <= |alerts|
  {
    && i.status != Closed
    && i.firstSeen == alerts[g.lo].timestamp && i.lastSeen == alerts[g.hi - 1].timestamp
    && i.alertIds == IdsOf(alerts, g.lo, g.hi)
    && i.severity == Worst(alerts, g.lo, g.hi)
  }

  /** The `k`-th incident of the list records the group `g`. */
  predicate RecordsGroup(m: map<IncidentId, Incident>, ids: seq<IncidentId>, alerts: seq<Alert>, g: Group, k: nat) {
    && k < |ids| && ids[k] in m
    && g.lo < g.hi <= |alerts| && Records(m[ids[k]], alerts, g)
  }

  /** The listed incidents are exactly the groups of the first `n` alerts. */
  predicate RecordsAll(m: map<IncidentId, Incident>, ids: seq<IncidentId>, alerts: seq<Alert>, n: nat) {
    && n <= |alerts| && |ids| == |Split(alerts, n)|
    && forall k :: 0 <= k < |ids| ==> RecordsGroup(m, ids, alerts, Split(alerts, n)[k], k)
  }

  ghost predicate Tracks(l: Ledger, s: Scope, alerts: seq<Alert>, n: nat) {
    Indexed(l) && RecordsAll(l.incidents, IncidentsOf(l, s), alerts, n)
  }

  /** Only the youngest group's incident can take the next alert. */
  lemma OnlyTheLastCanJoin(l: Ledger, s: Scope, alerts: seq<Alert>, n: nat, i: IncidentId)
    requires Tracks(l, s, alerts, n) && n < |alerts| && InScope(alerts[n], s) && Chronological(alerts)
    requires i in l.incidents && Joins(l.incidents[i], alerts[n])
    ensures Near(alerts, n) && n > 0
    ensures i == IncidentsOf(l, s)[|Split(alerts, n)| - 1]
  {
    var ids := IncidentsOf(l, s);
    var k := FilterFinds(l.incidents, l.next, s, i);
    assert RecordsGroup(l.incidents, IncidentsOf(l, s), alerts, Split(alerts, n)[k], k);
    if k + 1 < |ids| { OldGroupsAreOutOfReach(alerts, n, k, n); }
  }

  /** `_candidate` never has two matches, so the order of the dictionary does not matter. */
  lemma CandidateIsUnique(l: Ledger, s: Scope, alerts: seq<Alert>, n: nat, i: IncidentId, j: IncidentId)
    requires Tracks(l, s, alerts, n) && n < |alerts| && InScope(alerts[n], s) && Chronological(alerts)
    requires i in l.incidents && Joins(l.incidents[i], alerts[n]) && j in l.incidents
    requires Joins(l.incidents[j], alerts[n])
    ensures i == j
  {
    OnlyTheLastCanJoin(l, s, alerts, n, i);
    OnlyTheLastCanJoin(l, s, alerts, n, j);
  }

  lemma CandidateIsTheGroup(l: Ledger, s: Scope, alerts: seq<Alert>, n: nat)
    requires Tracks(l, s, alerts, n) && n < |alerts| && InScope(alerts[n], s) && Chronological(alerts)
    ensures var c := Candidate(l, alerts[n]);
      if Near(alerts, n) then c == Some(IncidentsOf(l, s)[|Split(alerts, n)| - 1]) else c.None?
  {
    var c := Candidate(l, alerts[n]);
    if c.Some? { OnlyTheLastCanJoin(l, s, alerts, n, c.value); }
    if Near(alerts, n) {
      var k := |Split(alerts, n)| - 1;
      assert RecordsGroup(l.incidents, IncidentsOf(l, s), alerts, Split(alerts, n)[k], k);
      var i := IncidentsOf(l, s)[k];
      assert alerts[n - 1].timestamp <= alerts[n].timestamp;
      assert Joins(l.incidents[i], alerts[n]);
    }
  }

  // ----- Runs -----

  datatype Op = Raise(alert: Alert) | Ack(id: IncidentId)

  function Apply(op: Op, l: Ledger): Ledger {
    match op
    case Raise(a) => OnCreated(l, a).ledger
    case Ack(id) => Acknowledge(l, id).ledger
  }

  lemma {:induction false} FilterFrame(m: map<IncidentId, Incident>, m': map<IncidentId, Incident>, n: nat, s: Scope)
    requires forall i :: i < n ==> (i in m <==> i in m') && (i in m ==> (Scoped(m[i], s) <==> Scoped(m'[i], s)))
    ensures Filter(m, n, s) == Filter(m', n, s)
  {
    if n > 0 { FilterFrame(m, m', n - 1, s); }
  }

  lemma ApplyIndexed(op: Op, l: Ledger)
    requires Indexed(l)
    ensures Indexed(Apply(op, l))
  {
    if op.Raise? { EnterIndexed(l, Candidate(l, op.alert), op.alert); }
  }

  lemma IncidentsStay(op: Op, l: Ledger, s: Scope)
    requires Indexed(l) && (op.Raise? ==> !InScope(op.alert, s))
    ensures Indexed(Apply(op, l))
    ensures IncidentsOf(Apply(op, l), s) == IncidentsOf(l, s)
  {
    var l' := Apply(op, l);
    ApplyIndexed(op, l);
    FilterFrame(l.incidents, l'.incidents, l.next, s);
  }

  lemma IncidentStays(op: Op, l: Ledger, s: Scope, i: IncidentId)
    requires Indexed(l) && (op.Raise? ==> !InScope(op.alert, s)) && i in l.incidents && Scoped(l.incidents[i], s)
    ensures i in Apply(op, l).incidents
    ensures var j := Apply(op, l).incidents[i];
      j == l.incidents[i].(status := j.status) && (j.status == Closed <==> l.incidents[i].status == Closed)
  {
  }

  lemma RecordsJoined(i: Incident, alerts: seq<Alert>, g: Group)
    requires g.lo < g.hi < |alerts| && Records(i, alerts, g)
    requires alerts[g.hi - 1].timestamp <= alerts[g.hi].timestamp
    ensures Records(Joined(i, alerts[g.hi]), alerts, Group(g.lo, g.hi + 1))
  {
  }

  lemma RecordsOpened(alerts: seq<Alert>, n: nat, id: IncidentId)
    requires n < |alerts|
    ensures Records(Opened(alerts[n], id), alerts, Group(n, n + 1))
  {
    assert IdsOf(alerts, n, n) == {};
  }

  /** An acknowledgement, or an alert of another scope, keeps the groups of this scope. */
  lemma OthersKeepTrack(op: Op, l: Ledger, s: Scope, alerts: seq<Alert>, n: nat)
    requires Tracks(l, s, alerts, n) && (op.Raise? ==> !InScope(op.alert, s))
    ensures Tracks(Apply(op, l), s, alerts, n)
  {
    var l' := Apply(op, l);
    IncidentsStay(op, l, s);
    var ids := IncidentsOf(l, s);
    forall k | 0 <= k < |ids| ensures RecordsGroup(l'.incidents, ids, alerts, Split(alerts, n)[k], k) {
      assert RecordsGroup(l.incidents, ids, alerts, Split(alerts, n)[k], k);
      IncidentStays(op, l, s, ids[k]);
    }
  }

  lemma RaisedIncidents(l: Ledger, s: Scope, a: Alert)
    requires Indexed(l) && InScope(a, s)
    ensures Indexed(Apply(Raise(a), l))
    ensures IncidentsOf(Apply(Raise(a), l), s)
         == if Candidate(l, a).Some? then IncidentsOf(l, s) else IncidentsOf(l, s) + [l.next]
  {
    var l' := Apply(Raise(a), l);
    ApplyIndexed(Raise(a), l);
    FilterFrame(l.incidents, l'.incidents, l.next, s);
  }

  lemma ExtendLast(m: map<IncidentId, Incident>, ids: seq<IncidentId>, alerts: seq<Alert>, n: nat)
    requires RecordsAll(m, ids, alerts, n) && (forall j, k :: 0 <= j < k < |ids| ==> ids[j] < ids[k]) && n < |alerts| && Near(alerts, n)
    requires alerts[n - 1].timestamp <= alerts[n].timestamp
    ensures ids != [] && var i := ids[|ids| - 1]; i in m && RecordsAll(m[i := Joined(m[i], alerts[n])], ids, alerts, n + 1)
  {
    var last := |ids| - 1;
    assert RecordsGroup(m, ids, alerts, Split(alerts, n)[last], last);
    RecordsJoined(m[ids[last]], alerts, Split(alerts, n)[last]);
    forall k | 0 <= k < last ensures RecordsGroup(m, ids, alerts, Split(alerts, n)[k], k) && ids[k] != ids[last] {}
  }

  lemma StartNew(m: map<IncidentId, Incident>, ids: seq<IncidentId>, alerts: seq<Alert>, n: nat, id: IncidentId)
    requires RecordsAll(m, ids, alerts, n) && id !in m && n < |alerts| && !Near(alerts, n)
    ensures RecordsAll(m[id := Opened(alerts[n], id)], ids + [id], alerts, n + 1)
  {
    RecordsOpened(alerts, n, id);
    forall k | 0 <= k < |ids| ensures RecordsGroup(m, ids, alerts, Split(alerts, n)[k], k) {}
  }

  lemma RaiseExtends(l: Ledger, s: Scope, alerts: seq<Alert>, n: nat, ids: seq<IncidentId>)
    requires Tracks(l, s, alerts, n) && n < |alerts| && InScope(alerts[n], s) && Chronological(alerts)
    requires Near(alerts, n) && ids == IncidentsOf(l, s)
    ensures RecordsAll(Apply(Raise(alerts[n]), l).incidents, ids, alerts, n + 1)
  {
    hide RecordsGroup, Split, FirstCandidate;
    CandidateIsTheGroup(l, s, alerts, n);
    assert alerts[n - 1].timestamp <= alerts[n].timestamp;
    ExtendLast(l.incidents, ids, alerts, n);
  }

  lemma RaiseStarts(l: Ledger, s: Scope, alerts: seq<Alert>, n: nat, ids: seq<IncidentId>)
    requires Tracks(l, s, alerts, n) && n < |alerts| && InScope(alerts[n], s) && Chronological(alerts)
    requires !Near(alerts, n) && ids == IncidentsOf(l, s)
    ensures RecordsAll(Apply(Raise(alerts[n]), l).incidents, ids + [l.next], alerts, n + 1)
  {
    hide RecordsGroup, Split, FirstCandidate;
    CandidateIsTheGroup(l, s, alerts, n);
    StartNew(l.incidents, ids, alerts, n, l.next);
  }

  /** The next alert of the scope extends the last group or starts a new one, and so does its incident. */
  lemma RaiseKeepsTrack(l: Ledger, s: Scope, alerts: seq<Alert>, n: nat)
    requires Tracks(l, s, alerts, n) && n < |alerts| && InScope(alerts[n], s) && Chronological(alerts)
    ensures Tracks(Apply(Raise(alerts[n]), l), s, alerts, n + 1)
  {
    CandidateIsTheGroup(l, s, alerts, n);
    RaisedIncidents(l, s, alerts[n]);
    if Near(alerts, n) {
      RaiseExtends(l, s, alerts, n, IncidentsOf(l, s));
    } else {
      RaiseStarts(l, s, alerts, n, IncidentsOf(l, s));
    }
  }

  /** The alerts raised in a scope by the first `m` operations. */
  function RaisedIn(ops: seq<Op>, m: nat, s: Scope): seq<Alert>
    requires m <= |ops|
  {
    if m == 0 then []
    else if ops[m - 1].Raise? && InScope(ops[m - 1].alert, s) then RaisedIn(ops, m - 1, s) + [ops[m - 1].alert]
    else RaisedIn(ops, m - 1, s)
  }

  /** The ledger after the first `m` operations of a run from the empty engine. */
  ghost function After(ops: seq<Op>, m: nat): (l: Ledger)
    requires m <= |ops|
    ensures Indexed(l)
  {
    if m == 0 then EMPTY
    else
      ApplyIndexed(ops[m - 1], After(ops, m - 1));
      Apply(ops[m - 1], After(ops, m - 1))
  }

  lemma {:induction false} RaisedPrefix(ops: seq<Op>, m: nat, n: nat, s: Scope)
    requires m <= n <= |ops|
    ensures RaisedIn(ops, m, s) <= RaisedIn(ops, n, s)
    decreases n - m
  {
    if m < n { RaisedPrefix(ops, m, n - 1, s); }
  }

  lemma NothingTracked(s: Scope, alerts: seq<Alert>)
    ensures Tracks(EMPTY, s, alerts, 0)
  {
  }

  lemma {:induction false} PrefixTracks(ops: seq<Op>, m: nat, s: Scope)
    requires m <= |ops| && Chronological(RaisedIn(ops, |ops|, s))
    ensures Tracks(After(ops, m), s, RaisedIn(ops, |ops|, s), |RaisedIn(ops, m, s)|)
  {
    hide Tracks, Apply, Chronological, InScope;
    var alerts := RaisedIn(ops, |ops|, s);
    RaisedPrefix(ops, m, |ops|, s);
    if m == 0 {
      NothingTracked(s, alerts);
    } else {
      PrefixTracks(ops, m - 1, s);
      var op, l, n := ops[m - 1], After(ops, m - 1), |RaisedIn(ops, m - 1, s)|;
      if op.Raise? && InScope(op.alert, s) {
        assert alerts[n] == RaisedIn(ops, m, s)[n];
        RaiseKeepsTrack(l, s, alerts, n);
      } else {
        OthersKeepTrack(op, l, s, alerts, n);
      }
    }
  }

  /** In every run of creations and acknowledgements whose timestamps never decrease within the scope,
      the scope's incidents are exactly the groups of its alerts split at gaps over five minutes. */
  lemma CorrelationIsSessionisation(ops: seq<Op>, s: Scope)
    requires Chronological(RaisedIn(ops, |ops|, s))
    ensures var l, alerts := After(ops, |ops|), RaisedIn(ops, |ops|, s);
      RecordsAll(l.incidents, IncidentsOf(l, s), alerts, |alerts|)
  {
    PrefixTracks(ops, |ops|, s);
  }
}
