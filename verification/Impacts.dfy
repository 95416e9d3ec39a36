/** `build_service_impacts`: which services depend on a failing one, how far away, and whether critically. */
module Impacts {
  import opened Common
  import opened Domain
  import opened Graphs
  import opened Topology

  type Dependencies = map<Edge, Criticality>

  // ----- Reference: shortest dependency paths -----

  /** A shortest path from its first service to `root`. */
  ghost predicate Shortest(deps: Dependencies, root: ServiceId, p: seq<ServiceId>) {
    && IsPath(deps.Keys, p) && p[|p| - 1] == root
    && forall q :: IsPath(deps.Keys, q) && Joins(q, p[0], root) ==> |p| <= |q|
  }

  predicate CriticalPath(deps: Dependencies, p: seq<ServiceId>) {
    exists i: nat :: i < |p| - 1 && CriticalStep(deps, p, i)
  }

  /** `v` depends on `root` over `h` edges and no fewer. */
  ghost predicate Distance(deps: Dependencies, root: ServiceId, v: ServiceId, h: nat) {
    exists p :: Shortest(deps, root, p) && p[0] == v && |p| == h + 1
  }

  /** Some shortest path from `v` has a critical edge. */
  ghost predicate CriticallyDependent(deps: Dependencies, root: ServiceId, v: ServiceId) {
    exists p :: Shortest(deps, root, p) && p[0] == v && CriticalPath(deps, p)
  }

  lemma DistanceIsUnique(deps: Dependencies, root: ServiceId, v: ServiceId, h: nat, k: nat)
    requires Distance(deps, root, v, h) && Distance(deps, root, v, k)
    ensures h == k
  {
    var p :| Shortest(deps, root, p) && p[0] == v && |p| == h + 1;
    var q :| Shortest(deps, root, q) && q[0] == v && |q| == k + 1;
    assert Joins(p, v, root) && Joins(q, v, root);
  }

  lemma {:induction false} ShortestExists(deps: Dependencies, root: ServiceId,
                                          q: seq<ServiceId>) returns (p: seq<ServiceId>)
    requires IsPath(deps.Keys, q) && q[|q| - 1] == root
    ensures Shortest(deps, root, p) && p[0] == q[0] && |p| <= |q|
    decreases |q|
  {
    if Shortest(deps, root, q) {
      p := q;
    } else {
      var r :| IsPath(deps.Keys, r) && Joins(r, q[0], root) && |r| < |q|;
      p := ShortestExists(deps, root, r);
    }
  }

  /** The rest of a shortest path is a shortest path. */
  lemma SuffixIsShortest(deps: Dependencies, root: ServiceId, p: seq<ServiceId>, i: nat)
    requires Shortest(deps, root, p) && i < |p|
    ensures Shortest(deps, root, p[i..])
  {
    var s := p[i..];
    forall q | IsPath(deps.Keys, q) && Joins(q, s[0], root) ensures |s| <= |q| {
      PathConcat(deps.Keys, p[..i + 1], q);
    }
  }

  predicate CriticalStep(deps: Dependencies, p: seq<ServiceId>, i: nat)
    requires i + 1 < |p|
  {
    Edge(p[i], p[i + 1]) in deps && deps[Edge(p[i], p[i + 1])] == CriticalEdge
  }

  lemma CriticalGrows(deps: Dependencies, v: ServiceId, q: seq<ServiceId>)
    requires |q| >= 1 && Edge(v, q[0]) in deps
    ensures CriticalPath(deps, [v] + q) <==> deps[Edge(v, q[0])] == CriticalEdge || CriticalPath(deps, q)
  {
    var p := [v] + q;
    if CriticalPath(deps, q) {
      var i: nat :| i < |q| - 1 && CriticalStep(deps, q, i);
      assert CriticalStep(deps, p, i + 1);
    }
    if deps[Edge(v, q[0])] == CriticalEdge { assert CriticalStep(deps, p, 0); }
    if CriticalPath(deps, p) {
      var i: nat :| i < |p| - 1 && CriticalStep(deps, p, i);
      if i > 0 { assert CriticalStep(deps, q, i - 1); }
    }
  }

  lemma PathGrows(deps: Dependencies, v: ServiceId, q: seq<ServiceId>)
    requires IsPath(deps.Keys, q) && Edge(v, q[0]) in deps
    ensures IsPath(deps.Keys, [v] + q)
    ensures CriticalPath(deps, [v] + q) <==> deps[Edge(v, q[0])] == CriticalEdge || CriticalPath(deps, q)
  {
    CriticalGrows(deps, v, q);
    hide CriticalPath;
    var p := [v] + q;
    assert forall i :: 0 < i < |p| ==> p[i] == q[i - 1];
  }

  // ----- The search -----

  datatype Visit = Visit(service: ServiceId, hops: nat, critical: bool)
  datatype Impact = Impact(hops: nat, critical: bool)
  datatype Dependent = Dependent(service: ServiceId, criticality: Criticality)

  type Reverse = map<ServiceId, seq<Dependent>>

  function DependentsOf(reverse: Reverse, v: ServiceId): seq<Dependent> {
    if v in reverse then reverse[v] else []
  }

  /** The dictionary lists, for each service, the edges into it. */
  ghost predicate ListsDependents(reverse: Reverse, deps: Dependencies) {
    forall v, d :: d in DependentsOf(reverse, v) <==> Edge(d.service, v) in deps && deps[Edge(d.service, v)] == d.criticality
  }

  ghost predicate ShortLists(reverse: Reverse, n: nat) {
    forall v :: |DependentsOf(reverse, v)| <= n
  }

  /** The dependencies whose edges have been dealt with. */
  predicate Done(deps: Dependencies, rest: set<Edge>, done: Dependencies) {
    rest <= deps.Keys && done == map e | e in deps && e !in rest :: deps[e]
  }

  lemma DoneStarts(deps: Dependencies)
    ensures Done(deps, deps.Keys, map[])
  {
  }

  lemma DoneStep(deps: Dependencies, rest: set<Edge>, done: Dependencies, e: Edge)
    requires Done(deps, rest, done) && e in rest
    ensures e in deps && e !in done && Done(deps, rest - {e}, done[e := deps[e]]) && |done[e := deps[e]]| == |done| + 1
  {
    assert done[e := deps[e]].Keys == done.Keys + {e};
  }

  lemma DoneEnds(deps: Dependencies, done: Dependencies)
    requires Done(deps, {}, done)
    ensures done == deps
  {
  }

  method BuildReverse(deps: Dependencies) returns (reverse: Reverse)
    ensures ListsDependents(reverse, deps) && ShortLists(reverse, |deps|)
  {
    hide ListsDependents, ShortLists, DependentsOf, Done;
    reverse := map[];
    NoDependents();
    DoneStarts(deps);
    ghost var done: Dependencies := map[];
    var rest := deps.Keys;
    while rest != {}
      invariant Done(deps, rest, done) && ListsDependents(reverse, done) && ShortLists(reverse, |done|)
      decreases |rest|
    {
      var e :| e in rest;
      DoneStep(deps, rest, done, e);
      ListsOneMoreDependent(reverse, done, e, deps[e]);
      reverse := reverse[e.target := DependentsOf(reverse, e.target) + [Dependent(e.source, deps[e])]];
      done, rest := done[e := deps[e]], rest - {e};
    }
    DoneEnds(deps, done);
  }

  lemma NoDependents()
    ensures ListsDependents(map[], map[]) && ShortLists(map[], 0)
  {
  }

  lemma ListsOneMoreDependent(reverse: Reverse, deps: Dependencies, e: Edge, c: Criticality)
    requires ListsDependents(reverse, deps) && e !in deps && ShortLists(reverse, |deps|)
    ensures var more := reverse[e.target := DependentsOf(reverse, e.target) + [Dependent(e.source, c)]];
      ListsDependents(more, deps[e := c]) && ShortLists(more, |deps| + 1)
  {
    var more := reverse[e.target := DependentsOf(reverse, e.target) + [Dependent(e.source, c)]];
    forall v, d
      ensures d in DependentsOf(more, v) <==> Edge(d.service, v) in deps[e := c] && deps[e := c][Edge(d.service, v)] == d.criticality
    {
      assert d in DependentsOf(reverse, v) <==> Edge(d.service, v) in deps && deps[Edge(d.service, v)] == d.criticality;
    }
    forall v ensures |DependentsOf(more, v)| <= |deps| + 1 { assert |DependentsOf(reverse, v)| <= |deps|; }
  }

  /** The visit that the search makes at position `i` of a path, coming from the root. */
  function VisitAt(deps: Dependencies, p: seq<ServiceId>, i: nat): Visit
    requires i < |p|
  {
    Visit(p[i], |p| - 1 - i, CriticalPath(deps, p[i..]))
  }

  predicate Recorded(deps: Dependencies, impacts: map<ServiceId, Impact>, p: seq<ServiceId>)
    requires |p| >= 1
  {
    |p| >= 2 ==> p[0] in impacts && impacts[p[0]].hops == |p| - 1 && (CriticalPath(deps, p) ==> impacts[p[0]].critical)
  }

  predicate Awaits(deps: Dependencies, queue: seq<Visit>, p: seq<ServiceId>) {
    exists i :: 0 < i < |p| && VisitAt(deps, p, i) in queue
  }

  /** The path goes on from the visit in hand through one of its dependents from `j` on. */
  predicate InHand(deps: Dependencies, x: Visit, ds: seq<Dependent>, j: nat, p: seq<ServiceId>) {
    exists i, m :: 0 < i < |p| && VisitAt(deps, p, i) == x && j <= m < |ds| && ds[m].service == p[i - 1]
  }

  ghost predicate VisitSound(deps: Dependencies, root: ServiceId, x: Visit) {
    exists p :: Shortest(deps, root, p) && |p| == x.hops + 1 && p[0] == x.service && CriticalPath(deps, p) == x.critical
  }

  /** Everything found so far is right. */
  ghost predicate Sound(deps: Dependencies, root: ServiceId, maxHops: nat, best: map<ServiceId, nat>,
                        impacts: map<ServiceId, Impact>) {
    && best.Keys == impacts.Keys + {root} && root !in impacts && best[root] == 0
    && (forall v :: v in best ==> Distance(deps, root, v, best[v]))
    && (forall v :: v in impacts ==> impacts[v].hops == best[v] && 1 <= best[v] <= maxHops
                                     && (impacts[v].critical ==> CriticallyDependent(deps, root, v)))
  }

  /** Visits wait in order of distance, within one hop of each other. */
  ghost predicate Ordered(deps: Dependencies, root: ServiceId, maxHops: nat, queue: seq<Visit>, low: nat) {
    && (forall i :: 0 <= i < |queue| ==> low <= queue[i].hops <= low + 1 && queue[i].hops <= maxHops && VisitSound(deps, root, queue[i]))
    && (forall i, j :: 0 <= i < j < |queue| ==> queue[i].hops <= queue[j].hops)
  }

  /** Every short enough shortest path is recorded, or will be. */
  ghost predicate Complete(deps: Dependencies, root: ServiceId, maxHops: nat, queue: seq<Visit>,
                           impacts: map<ServiceId, Impact>) {
    forall p :: Shortest(deps, root, p) && |p| - 1 <= maxHops ==> Recorded(deps, impacts, p) || Awaits(deps, queue, p)
  }

  ghost predicate CompleteWith(deps: Dependencies, root: ServiceId, maxHops: nat, queue: seq<Visit>,
                               impacts: map<ServiceId, Impact>,
                               x: Visit, ds: seq<Dependent>, j: nat) {
    forall p :: Shortest(deps, root, p) && |p| - 1 <= maxHops ==>
      Recorded(deps, impacts, p) || Awaits(deps, queue, p) || InHand(deps, x, ds, j, p)
  }

  /** Whatever is nearer than the next hop has been met. */
  lemma NearIsKnown(deps: Dependencies, root: ServiceId, maxHops: nat, queue: seq<Visit>, best: map<ServiceId, nat>,
                    impacts: map<ServiceId, Impact>, x: Visit, ds: seq<Dependent>, j: nat, s: seq<ServiceId>)
    requires best.Keys == impacts.Keys + {root} && Ordered(deps, root, maxHops, queue, x.hops)
    requires CompleteWith(deps, root, maxHops, queue, impacts, x, ds, j)
    requires Shortest(deps, root, s) && |s| <= x.hops + 1 && x.hops < maxHops
    ensures s[0] in best
  {
    hide Shortest, VisitSound, CriticalPath;
    SingleIsRoot(deps, root, s);
    assert Recorded(deps, impacts, s) || Awaits(deps, queue, s) || InHand(deps, x, ds, j, s);
  }

  lemma SingleIsRoot(deps: Dependencies, root: ServiceId, s: seq<ServiceId>)
    requires Shortest(deps, root, s)
    ensures |s| >= 1 && s[|s| - 1] == root
  {
  }

  /** A dependent met for the first time is met over a shortest path. */
  lemma FirstMeeting(deps: Dependencies, root: ServiceId, maxHops: nat, queue: seq<Visit>, best: map<ServiceId, nat>,
                     impacts: map<ServiceId, Impact>, x: Visit, ds: seq<Dependent>, j: nat)
    requires Sound(deps, root, maxHops, best, impacts) && Ordered(deps, root, maxHops, queue, x.hops)
    requires CompleteWith(deps, root, maxHops, queue, impacts, x, ds, j) && VisitSound(deps, root, x)
    requires j < |ds| && Edge(ds[j].service, x.service) in deps
    requires deps[Edge(ds[j].service, x.service)] == ds[j].criticality
    requires x.hops < maxHops && (ds[j].service in best ==> best[ds[j].service] >= x.hops + 1)
    ensures VisitSound(deps, root, Visit(ds[j].service, x.hops + 1, x.critical || ds[j].criticality == CriticalEdge))
  {
    hide Ordered, CompleteWith, CriticalPath, CriticallyDependent;
    var v := ds[j].service;
    var q :| Shortest(deps, root, q) && |q| == x.hops + 1 && q[0] == x.service && CriticalPath(deps, q) == x.critical;
    var r := [v] + q;
    PathGrows(deps, v, q);
    var s := ShortestExists(deps, root, r);
    if |s| < |r| {
      NearIsKnown(deps, root, maxHops, queue, best, impacts, x, ds, j, s);
    }
    AsShort(deps, root, r, s);
  }

  lemma AsShort(deps: Dependencies, root: ServiceId, r: seq<ServiceId>, s: seq<ServiceId>)
    requires IsPath(deps.Keys, r) && r[|r| - 1] == root && Shortest(deps, root, s) && s[0] == r[0] && |s| == |r|
    ensures Shortest(deps, root, r)
  {
  }

  lemma MetBefore(deps: Dependencies, root: ServiceId, p: seq<ServiceId>, x: Visit, i: nat, h: nat)
    requires Shortest(deps, root, p) && 0 < i < |p| && VisitAt(deps, p, i) == x && Distance(deps, root, p[i - 1], h)
    ensures h == x.hops + 1
  {
    SuffixIsShortest(deps, root, p, i - 1);
    assert Distance(deps, root, p[i - 1], x.hops + 1) by {
      assert p[i - 1..][0] == p[i - 1] && |p[i - 1..]| == x.hops + 2;
    }
    DistanceIsUnique(deps, root, p[i - 1], h, x.hops + 1);
  }

  /** A dependent that is nearer by another way is on no shortest path through this visit. */
  lemma SkipKeepsComplete(deps: Dependencies, root: ServiceId, maxHops: nat, queue: seq<Visit>,
                          best: map<ServiceId, nat>,
                          impacts: map<ServiceId, Impact>, x: Visit, ds: seq<Dependent>, j: nat)
    requires CompleteWith(deps, root, maxHops, queue, impacts, x, ds, j) && Sound(deps, root, maxHops, best, impacts)
    requires j < |ds| && ds[j].service in best && best[ds[j].service] < x.hops + 1
    ensures CompleteWith(deps, root, maxHops, queue, impacts, x, ds, j + 1)
  {
    forall p | Shortest(deps, root, p) && |p| - 1 <= maxHops
      ensures Recorded(deps, impacts, p) || Awaits(deps, queue, p) || InHand(deps, x, ds, j + 1, p)
    {
      if InHand(deps, x, ds, j, p) {
        var i, m :| 0 < i < |p| && VisitAt(deps, p, i) == x && j <= m < |ds| && ds[m].service == p[i - 1];
        if m == j { MetBefore(deps, root, p, x, i, best[ds[j].service]); }
      }
    }
  }

  lemma OnePathMore(deps: Dependencies, root: ServiceId, p: seq<ServiceId>, x: Visit, i: nat, d: Dependent)
    requires Shortest(deps, root, p) && 0 < i < |p| && VisitAt(deps, p, i) == x && d.service == p[i - 1]
    requires Edge(d.service, x.service) in deps && deps[Edge(d.service, x.service)] == d.criticality
    ensures VisitAt(deps, p, i - 1) == Visit(d.service, x.hops + 1, x.critical || d.criticality == CriticalEdge)
  {
    assert IsPath(deps.Keys, p[i..]);
    PathGrows(deps, p[i - 1], p[i..]);
    assert p[i - 1..] == [p[i - 1]] + p[i..];
  }

  /** Recording a dependent and queueing its visit takes care of the paths through it. */
  lemma VisitKeepsComplete(deps: Dependencies, root: ServiceId, maxHops: nat, queue: seq<Visit>,
                           impacts: map<ServiceId, Impact>, impacts': map<ServiceId, Impact>, x: Visit, ds: seq<Dependent>, j: nat, y: Visit)
    requires CompleteWith(deps, root, maxHops, queue, impacts, x, ds, j)
    requires j < |ds| && Edge(ds[j].service, x.service) in deps
    requires deps[Edge(ds[j].service, x.service)] == ds[j].criticality
    requires y == Visit(ds[j].service, x.hops + 1, x.critical || ds[j].criticality == CriticalEdge)
    requires y.service in impacts ==> impacts[y.service].hops == y.hops
    requires impacts' == impacts[y.service := Impact(y.hops, y.critical || (y.service in impacts && impacts[y.service].critical))]
    ensures CompleteWith(deps, root, maxHops, queue + [y], impacts', x, ds, j + 1)
  {
    forall p | Shortest(deps, root, p) && |p| - 1 <= maxHops
      ensures Recorded(deps, impacts', p) || Awaits(deps, queue + [y], p) || InHand(deps, x, ds, j + 1, p)
    {
      if Recorded(deps, impacts, p) {
        assert Recorded(deps, impacts', p);
      } else if Awaits(deps, queue, p) {
        var i :| 0 < i < |p| && VisitAt(deps, p, i) in queue;
        assert VisitAt(deps, p, i) in queue + [y];
      } else {
        var i, m :| 0 < i < |p| && VisitAt(deps, p, i) == x && j <= m < |ds| && ds[m].service == p[i - 1];
        if m == j {
          OnePathMore(deps, root, p, x, i, ds[j]);
          assert VisitAt(deps, p, i - 1) in queue + [y];
          if i == 1 { assert p[0..] == p; }
        }
      }
    }
  }

  // ----- Termination: every visit can still cause a bounded number of others -----

  function Power(base: nat, e: nat): (r: nat)
    ensures base >= 1 ==> r >= 1
  {
    if e == 0 then 1 else base * Power(base, e - 1)
  }

  function VisitWeight(n: nat, maxHops: nat, x: Visit): nat {
    if x.hops <= maxHops then Power(n + 1, maxHops - x.hops) else 0
  }

  function Weight(n: nat, maxHops: nat, queue: seq<Visit>): nat {
    if queue == [] then 0 else VisitWeight(n, maxHops, queue[0]) + Weight(n, maxHops, queue[1..])
  }

  lemma {:induction false} WeightAppend(n: nat, maxHops: nat, queue: seq<Visit>, y: Visit)
    ensures Weight(n, maxHops, queue + [y]) == Weight(n, maxHops, queue) + VisitWeight(n, maxHops, y)
  {
    if queue == [] {
      assert (queue + [y])[1..] == [];
    } else {
      assert (queue + [y])[1..] == queue[1..] + [y];
      WeightAppend(n, maxHops, queue[1..], y);
    }
  }

  /** What the remaining dependents of a visit may still add. */
  function Budget(n: nat, maxHops: nat, x: Visit, left: nat): nat {
    if x.hops < maxHops then left * Power(n + 1, maxHops - x.hops - 1) else 0
  }

  lemma BudgetSpends(n: nat, maxHops: nat, x: Visit, left: nat, y: Visit)
    requires left >= 1 && x.hops < maxHops && y.hops == x.hops + 1
    ensures Budget(n, maxHops, x, left) == Budget(n, maxHops, x, left - 1) + VisitWeight(n, maxHops, y)
  {
  }

  lemma BudgetFits(n: nat, maxHops: nat, x: Visit, left: nat)
    requires left <= n && x.hops <= maxHops
    ensures Budget(n, maxHops, x, left) < VisitWeight(n, maxHops, x)
  {
    if x.hops < maxHops {
      var w := Power(n + 1, maxHops - x.hops - 1);
      assert left * w <= n * w;
      assert (n + 1) * w == n * w + w;
    }
  }

  // ----- The loop -----

  lemma RootIsShortest(deps: Dependencies, root: ServiceId)
    ensures Shortest(deps, root, [root]) && !CriticalPath(deps, [root])
    ensures Distance(deps, root, root, 0) && VisitSound(deps, root, Visit(root, 0, false))
  {
    var p := [root];
    assert Shortest(deps, root, p) && !CriticalPath(deps, p) && |p| == 1;
  }

  lemma PathsAwaitTheRoot(deps: Dependencies, root: ServiceId, p: seq<ServiceId>)
    requires |p| >= 2 && p[|p| - 1] == root && !CriticalPath(deps, [root])
    ensures Awaits(deps, [Visit(root, 0, false)], p)
  {
    hide CriticalPath;
    assert p[|p| - 1..] == [root];
    assert VisitAt(deps, p, |p| - 1) == Visit(root, 0, false);
  }

  lemma SearchStarts(deps: Dependencies, root: ServiceId, maxHops: nat)
    ensures Sound(deps, root, maxHops, map[root := 0], map[])
    ensures Ordered(deps, root, maxHops, [Visit(root, 0, false)], 0)
    ensures Complete(deps, root, maxHops, [Visit(root, 0, false)], map[])
  {
    hide Shortest, Distance, VisitSound, CriticalPath, Awaits;
    RootIsShortest(deps, root);
    forall p | Shortest(deps, root, p) && |p| - 1 <= maxHops
      ensures |p| >= 1 && (Recorded(deps, map[], p) || Awaits(deps, [Visit(root, 0, false)], p))
    {
      SingleIsRoot(deps, root, p);
      if |p| >= 2 { PathsAwaitTheRoot(deps, root, p); }
    }
  }

  lemma VisitPops(deps: Dependencies, root: ServiceId, maxHops: nat, queue: seq<Visit>, low: nat)
    requires queue != [] && Ordered(deps, root, maxHops, queue, low)
    ensures Ordered(deps, root, maxHops, queue[1..], queue[0].hops) && VisitSound(deps, root, queue[0])
    ensures queue[0].hops <= maxHops
  {
    hide VisitSound;
  }

  /** The paths that waited for the popped visit go on through its dependents. */
  lemma PopTakesInHand(deps: Dependencies, root: ServiceId, maxHops: nat, queue: seq<Visit>,
                       impacts: map<ServiceId, Impact>, ds: seq<Dependent>)
    requires queue != [] && Complete(deps, root, maxHops, queue, impacts)
    requires forall d :: d in ds <==> Edge(d.service, queue[0].service) in deps && deps[Edge(d.service, queue[0].service)] == d.criticality
    ensures CompleteWith(deps, root, maxHops, queue[1..], impacts, queue[0], ds, 0)
  {
    hide CriticalPath, Recorded;
    forall p | Shortest(deps, root, p) && |p| - 1 <= maxHops
      ensures Recorded(deps, impacts, p) || Awaits(deps, queue[1..], p) || InHand(deps, queue[0], ds, 0, p)
    {
      if !Recorded(deps, impacts, p) {
        assert Awaits(deps, queue, p);
        var i :| 0 < i < |p| && VisitAt(deps, p, i) in queue;
        assert Edge(p[i - 1], p[i - 1 + 1]) in deps;
        if VisitAt(deps, p, i) == queue[0] {
          var d := Dependent(p[i - 1], deps[Edge(p[i - 1], p[i])]);
          assert d in ds;
          var m :| 0 <= m < |ds| && ds[m] == d;
        } else {
          assert VisitAt(deps, p, i) in queue[1..];
        }
      }
    }
  }

  /** No short path waits for a visit at the limit. */
  lemma LastHopIsDone(deps: Dependencies, root: ServiceId, maxHops: nat, queue: seq<Visit>,
                      impacts: map<ServiceId, Impact>)
    requires queue != [] && Complete(deps, root, maxHops, queue, impacts) && queue[0].hops >= maxHops
    ensures Complete(deps, root, maxHops, queue[1..], impacts)
  {
    hide CriticalPath, Recorded;
    forall p | Shortest(deps, root, p) && |p| - 1 <= maxHops ensures Recorded(deps, impacts, p) || Awaits(deps, queue[1..], p) {
      if !Recorded(deps, impacts, p) {
        assert Awaits(deps, queue, p);
        var i :| 0 < i < |p| && VisitAt(deps, p, i) in queue;
        assert VisitAt(deps, p, i).hops < maxHops;
        assert VisitAt(deps, p, i) in queue[1..];
      }
    }
  }

  lemma NothingInHand(deps: Dependencies, root: ServiceId, maxHops: nat, queue: seq<Visit>,
                      impacts: map<ServiceId, Impact>, x: Visit, ds: seq<Dependent>)
    requires CompleteWith(deps, root, maxHops, queue, impacts, x, ds, |ds|)
    ensures Complete(deps, root, maxHops, queue, impacts)
  {
    hide CriticalPath, Recorded, Awaits;
  }

  lemma VisitIsDistance(deps: Dependencies, root: ServiceId, y: Visit)
    requires VisitSound(deps, root, y)
    ensures Distance(deps, root, y.service, y.hops) && (y.critical ==> CriticallyDependent(deps, root, y.service))
  {
  }

  lemma RecordIsSound(deps: Dependencies, root: ServiceId, maxHops: nat, best: map<ServiceId, nat>,
                      impacts: map<ServiceId, Impact>, y: Visit)
    requires Sound(deps, root, maxHops, best, impacts) && VisitSound(deps, root, y) && 1 <= y.hops <= maxHops
    ensures y.service != root && (y.service in best ==> best[y.service] == y.hops)
    ensures y.service in impacts ==> impacts[y.service].hops == y.hops
    ensures Sound(deps, root, maxHops, best[y.service := y.hops],
                  impacts[y.service := Impact(y.hops, y.critical || (y.service in impacts && impacts[y.service].critical))])
  {
    VisitIsDistance(deps, root, y);
    if y.service in best { DistanceIsUnique(deps, root, y.service, best[y.service], y.hops); }
    hide VisitSound, Distance, CriticallyDependent;
  }

  lemma OrderedAppend(deps: Dependencies, root: ServiceId, maxHops: nat, queue: seq<Visit>, low: nat, y: Visit)
    requires Ordered(deps, root, maxHops, queue, low) && VisitSound(deps, root, y) && y.hops == low + 1 <= maxHops
    ensures Ordered(deps, root, maxHops, queue + [y], low)
  {
    hide VisitSound;
  }

  function Fewer(a: nat, b: nat): nat {
    if b < a then b else a
  }

  /** The search's variables: the queue, the best distances and what is reported so far. */
  datatype Search = Search(queue: seq<Visit>, best: map<ServiceId, nat>, impacts: map<ServiceId, Impact>)

  ghost predicate Good(deps: Dependencies, root: ServiceId, maxHops: nat, s: Search, low: nat) {
    Sound(deps, root, maxHops, s.best, s.impacts) && Ordered(deps, root, maxHops, s.queue, low)
  }

  /** One dependent of the visit in hand. */
  method Meet(ghost deps: Dependencies, ghost root: ServiceId, ghost maxHops: nat, x: Visit, ghost ds: seq<Dependent>,
              ghost j: nat,
              d: Dependent, s: Search, ghost n: nat) returns (t: Search)
    requires Good(deps, root, maxHops, s, x.hops) && VisitSound(deps, root, x) && x.hops < maxHops
    requires CompleteWith(deps, root, maxHops, s.queue, s.impacts, x, ds, j) && j < |ds| && ds[j] == d
    requires Edge(d.service, x.service) in deps && deps[Edge(d.service, x.service)] == d.criticality
    ensures Good(deps, root, maxHops, t, x.hops) && CompleteWith(deps, root, maxHops, t.queue, t.impacts, x, ds, j + 1)
    ensures Weight(n, maxHops, t.queue) + Budget(n, maxHops, x, |ds| - j - 1) <= Weight(n, maxHops, s.queue) + Budget(n, maxHops, x, |ds| - j)
  {
    hide Ordered, Sound, VisitSound, CompleteWith, Budget, VisitWeight, Weight;
    var nextHops := x.hops + 1;
    var nextCritical := x.critical || d.criticality == CriticalEdge;
    ghost var y := Visit(d.service, nextHops, nextCritical);
    BudgetSpends(n, maxHops, x, |ds| - j, y);
    if d.service in s.best && s.best[d.service] < nextHops {
      SkipKeepsComplete(deps, root, maxHops, s.queue, s.best, s.impacts, x, ds, j);
      return s;
    }
    FirstMeeting(deps, root, maxHops, s.queue, s.best, s.impacts, x, ds, j);
    RecordIsSound(deps, root, maxHops, s.best, s.impacts, y);
    OrderedAppend(deps, root, maxHops, s.queue, x.hops, y);
    WeightAppend(n, maxHops, s.queue, y);
    var best, impacts := s.best, s.impacts;
    if d.service !in best || nextHops < best[d.service] { best := best[d.service := nextHops]; }
    assert best == s.best[y.service := y.hops];
    var hops := if d.service in impacts then Fewer(impacts[d.service].hops, nextHops) else nextHops;
    var critical := (d.service in impacts && impacts[d.service].critical) || nextCritical;
    impacts := impacts[d.service := Impact(hops, critical)];
    VisitKeepsComplete(deps, root, maxHops, s.queue, s.impacts, impacts, x, ds, j, y);
    return Search(s.queue + [Visit(d.service, nextHops, nextCritical)], best, impacts);
  }

  /** All dependents of a visit. */
  method Spread(ghost deps: Dependencies, ghost root: ServiceId, ghost maxHops: nat, x: Visit, ds: seq<Dependent>,
                s: Search, ghost n: nat)
    returns (t: Search)
    requires Good(deps, root, maxHops, s, x.hops) && VisitSound(deps, root, x) && x.hops < maxHops
    requires CompleteWith(deps, root, maxHops, s.queue, s.impacts, x, ds, 0)
    requires forall d :: d in ds <==> Edge(d.service, x.service) in deps && deps[Edge(d.service, x.service)] == d.criticality
    ensures Good(deps, root, maxHops, t, x.hops) && Complete(deps, root, maxHops, t.queue, t.impacts)
    requires |ds| <= n
    ensures Weight(n, maxHops, t.queue) < Weight(n, maxHops, s.queue) + VisitWeight(n, maxHops, x)
  {
    hide Good, VisitSound, CompleteWith, Complete, Weight, Budget, VisitWeight;
    t := s;
    var j := 0;
    while j < |ds|
      invariant 0 <= j <= |ds| && Good(deps, root, maxHops, t, x.hops)
      invariant CompleteWith(deps, root, maxHops, t.queue, t.impacts, x, ds, j)
      invariant Weight(n, maxHops, t.queue) + Budget(n, maxHops, x, |ds| - j) <= Weight(n, maxHops, s.queue) + Budget(n, maxHops, x, |ds|)
    {
      assert ds[j] in ds;
      t := Meet(deps, root, maxHops, x, ds, j, ds[j], t, n);
      j := j + 1;
    }
    NothingInHand(deps, root, maxHops, t.queue, t.impacts, x, ds);
    BudgetFits(n, maxHops, x, |ds|);
  }

  lemma WeightPops(n: nat, maxHops: nat, queue: seq<Visit>)
    requires queue != [] && queue[0].hops <= maxHops
    ensures Weight(n, maxHops, queue) == VisitWeight(n, maxHops, queue[0]) + Weight(n, maxHops, queue[1..])
    ensures Weight(n, maxHops, queue[1..]) < Weight(n, maxHops, queue)
  {
  }

  /** What the function reports. */
  ghost predicate Reports(deps: Dependencies, root: ServiceId, maxHops: nat, impacts: map<ServiceId, Impact>) {
    && (forall v :: v in impacts <==> exists h :: 1 <= h <= maxHops && Distance(deps, root, v, h))
    && (forall v :: v in impacts ==> Distance(deps, root, v, impacts[v].hops)
                                     && (impacts[v].critical <==> CriticallyDependent(deps, root, v)))
  }

  lemma RecordedPath(deps: Dependencies, root: ServiceId, maxHops: nat, impacts: map<ServiceId, Impact>,
                     p: seq<ServiceId>)
    requires Complete(deps, root, maxHops, [], impacts) && Shortest(deps, root, p) && 2 <= |p| <= maxHops + 1
    ensures p[0] in impacts && impacts[p[0]].hops == |p| - 1 && (CriticalPath(deps, p) ==> impacts[p[0]].critical)
  {
    hide CriticalPath;
    assert Recorded(deps, impacts, p) || Awaits(deps, [], p);
  }

  lemma DistanceIsReported(deps: Dependencies, root: ServiceId, maxHops: nat, impacts: map<ServiceId, Impact>,
                           v: ServiceId, h: nat)
    requires Complete(deps, root, maxHops, [], impacts) && 1 <= h <= maxHops && Distance(deps, root, v, h)
    ensures v in impacts && impacts[v].hops == h
  {
    var p :| Shortest(deps, root, p) && p[0] == v && |p| == h + 1;
    RecordedPath(deps, root, maxHops, impacts, p);
  }

  lemma CriticalIsReported(deps: Dependencies, root: ServiceId, maxHops: nat, impacts: map<ServiceId, Impact>,
                           v: ServiceId, h: nat)
    requires Complete(deps, root, maxHops, [], impacts) && 1 <= h <= maxHops && Distance(deps, root, v, h)
    requires CriticallyDependent(deps, root, v)
    ensures v in impacts && impacts[v].critical
  {
    var p :| Shortest(deps, root, p) && p[0] == v && CriticalPath(deps, p);
    assert Distance(deps, root, v, |p| - 1);
    DistanceIsUnique(deps, root, v, |p| - 1, h);
    RecordedPath(deps, root, maxHops, impacts, p);
  }

  lemma EmptyQueueReports(deps: Dependencies, root: ServiceId, maxHops: nat, s: Search, low: nat)
    requires Good(deps, root, maxHops, s, low) && Complete(deps, root, maxHops, s.queue, s.impacts) && s.queue == []
    ensures Reports(deps, root, maxHops, s.impacts)
  {
    hide Distance, CriticallyDependent, Complete, Ordered;
    forall v, h | 1 <= h <= maxHops && Distance(deps, root, v, h) ensures v in s.impacts && s.impacts[v].hops == h {
      DistanceIsReported(deps, root, maxHops, s.impacts, v, h);
    }
    forall v | v in s.impacts && CriticallyDependent(deps, root, v) ensures s.impacts[v].critical {
      CriticalIsReported(deps, root, maxHops, s.impacts, v, s.best[v]);
    }
  }

  /** `build_service_impacts`, before the result is sorted and cut: exactly the services at distance 1 to `maxHops`,
      with their shortest distance, critical exactly if a shortest path is. */
  method BuildServiceImpacts(services: set<ServiceId>, deps: Dependencies, service: Option<ServiceId>, maxHops: nat)
    returns (impacts: map<ServiceId, Impact>)
    ensures service.None? || service.value !in services ==> impacts == map[]
    ensures service.Some? && service.value in services ==> Reports(deps, service.value, maxHops, impacts)
  {
    if service.None? || service.value !in services { return map[]; }
    var root := service.value;
    var reverse := BuildReverse(deps);
    var s := Search([Visit(root, 0, false)], map[root := 0], map[]);
    ghost var low := 0;
    SearchStarts(deps, root, maxHops);
    hide Ordered, Sound, Complete, CompleteWith, Weight, VisitWeight, VisitSound, Reports;
    while s.queue != []
      invariant Good(deps, root, maxHops, s, low) && Complete(deps, root, maxHops, s.queue, s.impacts)
      decreases Weight(|deps|, maxHops, s.queue)
    {
      var x := s.queue[0];
      VisitPops(deps, root, maxHops, s.queue, low);
      WeightPops(|deps|, maxHops, s.queue);
      low := x.hops;
      if x.hops >= maxHops {
        LastHopIsDone(deps, root, maxHops, s.queue, s.impacts);
        s := s.(queue := s.queue[1..]);
      } else {
        var ds := DependentsOf(reverse, x.service);
        PopTakesInHand(deps, root, maxHops, s.queue, s.impacts, ds);
        s := Spread(deps, root, maxHops, x, ds, s.(queue := s.queue[1..]), |deps|);
      }
    }
    EmptyQueueReports(deps, root, maxHops, s, low);
    return s.impacts;
  }
}
