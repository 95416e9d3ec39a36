/** Paths and reachability in the service dependency graph. */
module Graphs {
  import opened Domain

  /** `source` depends on `target`. */
  datatype Edge = Edge(source: ServiceId, target: ServiceId)

  predicate IsPath(edges: set<Edge>, p: seq<ServiceId>) {
    |p| >= 1 && forall i :: 0 <= i < |p| - 1 ==> Edge(p[i], p[i + 1]) in edges
  }

  predicate Joins(p: seq<ServiceId>, a: ServiceId, b: ServiceId) {
    |p| >= 1 && p[0] == a && p[|p| - 1] == b
  }

  ghost predicate Reaches(edges: set<Edge>, a: ServiceId, b: ServiceId) {
    exists p :: IsPath(edges, p) && Joins(p, a, b)
  }

  ghost predicate Acyclic(edges: set<Edge>) {
    forall p :: IsPath(edges, p) && |p| >= 2 ==> p[0] != p[|p| - 1]
  }

  lemma ReachesItself(edges: set<Edge>, a: ServiceId)
    ensures Reaches(edges, a, a)
  {
    assert IsPath(edges, [a]) && Joins([a], a, a);
  }

  lemma PathConcat(edges: set<Edge>, p: seq<ServiceId>, q: seq<ServiceId>)
    requires IsPath(edges, p) && IsPath(edges, q) && p[|p| - 1] == q[0]
    ensures IsPath(edges, p + q[1..]) && Joins(p + q[1..], p[0], q[|q| - 1])
  {
    var r := p + q[1..];
    forall i | 0 <= i < |r| - 1 ensures Edge(r[i], r[i + 1]) in edges {
      if i >= |p| - 1 { assert r[i] == q[i - |p| + 1] && r[i + 1] == q[i - |p| + 2]; }
    }
  }

  lemma OneMoreEdge(edges: set<Edge>, a: ServiceId, b: ServiceId, c: ServiceId)
    requires Reaches(edges, a, b) && Edge(b, c) in edges
    ensures Reaches(edges, a, c)
  {
    var p :| IsPath(edges, p) && Joins(p, a, b);
    assert IsPath(edges, p + [c]) && Joins(p + [c], a, c);
  }

  /** A set closed under the edges holds everything its members reach. */
  lemma {:induction false} ClosedHolds(edges: set<Edge>, closed: set<ServiceId>, p: seq<ServiceId>)
    requires IsPath(edges, p) && p[0] in closed
    requires forall e :: e in edges && e.source in closed ==> e.target in closed
    ensures p[|p| - 1] in closed
  {
    if |p| > 1 {
      ClosedHolds(edges, closed, p[..|p| - 1]);
      assert Edge(p[|p| - 2], p[|p| - 1]) in edges;
    }
  }

  /** Where a path first uses an edge, and where it last does. */
  lemma {:induction false} FirstUse(edges: set<Edge>, e: Edge, p: seq<ServiceId>) returns (i: nat)
    requires IsPath(edges + {e}, p) && !IsPath(edges, p)
    ensures i < |p| - 1 && Edge(p[i], p[i + 1]) == e && IsPath(edges, p[..i + 1])
  {
    if IsPath(edges, p[..|p| - 1]) {
      i := |p| - 2;
    } else {
      i := FirstUse(edges, e, p[..|p| - 1]);
      assert p[..|p| - 1][..i + 1] == p[..i + 1];
    }
  }

  lemma {:induction false} LastUse(edges: set<Edge>, e: Edge, p: seq<ServiceId>) returns (i: nat)
    requires IsPath(edges + {e}, p) && !IsPath(edges, p)
    ensures i < |p| - 1 && Edge(p[i], p[i + 1]) == e && IsPath(edges, p[i + 1..])
  {
    var rest := p[1..];
    assert forall k :: 0 <= k < |rest| ==> rest[k] == p[k + 1];
    if IsPath(edges, rest) {
      i := 0;
    } else {
      i := LastUse(edges, e, rest);
      assert rest[i + 1..] == p[i + 2..];
      i := i + 1;
    }
  }

  /** A new edge closes a cycle exactly when its source is reachable from its target. */
  lemma NewEdgeClosesACycle(edges: set<Edge>, e: Edge)
    requires Acyclic(edges)
    ensures Acyclic(edges + {e}) <==> !Reaches(edges, e.target, e.source)
  {
    if Reaches(edges, e.target, e.source) {
      var q :| IsPath(edges, q) && Joins(q, e.target, e.source);
      assert IsPath(edges + {e}, [e.source] + q);
    }
    if !Acyclic(edges + {e}) {
      var p :| IsPath(edges + {e}, p) && |p| >= 2 && p[0] == p[|p| - 1];
      var i := FirstUse(edges, e, p);
      var j := LastUse(edges, e, p);
      var after, before := p[j + 1..], p[..i + 1];
      PathConcat(edges, after, before);
    }
  }

  /** What one more edge adds to reachability. */
  lemma ReachesThrough(edges: set<Edge>, e: Edge, a: ServiceId, b: ServiceId)
    ensures Reaches(edges + {e}, a, b) <==>
      Reaches(edges, a, b) || (Reaches(edges, a, e.source) && Reaches(edges, e.target, b))
  {
    if Reaches(edges + {e}, a, b) {
      var p :| IsPath(edges + {e}, p) && Joins(p, a, b);
      if !IsPath(edges, p) {
        var i := FirstUse(edges, e, p);
        var j := LastUse(edges, e, p);
        assert Joins(p[..i + 1], a, e.source) && Joins(p[j + 1..], e.target, b);
      }
    }
    if Reaches(edges, a, b) {
      var p :| IsPath(edges, p) && Joins(p, a, b);
      assert IsPath(edges + {e}, p);
    }
    if Reaches(edges, a, e.source) && Reaches(edges, e.target, b) {
      var p :| IsPath(edges, p) && Joins(p, a, e.source);
      var q :| IsPath(edges, q) && Joins(q, e.target, b);
      ThroughEdge(edges, e, p, q);
    }
  }

  lemma ThroughEdge(edges: set<Edge>, e: Edge, p: seq<ServiceId>, q: seq<ServiceId>)
    requires IsPath(edges, p) && IsPath(edges, q) && p[|p| - 1] == e.source && q[0] == e.target
    ensures Reaches(edges + {e}, p[0], q[|q| - 1])
  {
    var r := p + q;
    forall i | 0 <= i < |r| - 1 ensures Edge(r[i], r[i + 1]) in edges + {e} {
      if i >= |p| { assert r[i] == q[i - |p|] && r[i + 1] == q[i - |p| + 1]; }
    }
    assert IsPath(edges + {e}, r) && Joins(r, p[0], q[|q| - 1]);
  }

  /** Two edges that each pass the check close a cycle together exactly if each one's source is reachable from the
      other's target. */
  lemma TwoEdgesCloseACycle(edges: set<Edge>, e: Edge, f: Edge)
    requires Acyclic(edges) && !Reaches(edges, e.target, e.source) && !Reaches(edges, f.target, f.source)
    ensures Acyclic(edges + {e, f}) <==> !(Reaches(edges, e.target, f.source) && Reaches(edges, f.target, e.source))
  {
    NewEdgeClosesACycle(edges, e);
    NewEdgeClosesACycle(edges + {e}, f);
    ReachesThrough(edges, e, f.target, f.source);
    assert edges + {e} + {f} == edges + {e, f};
  }

  lemma FewerEdges(edges: set<Edge>, fewer: set<Edge>)
    requires Acyclic(edges) && fewer <= edges
    ensures Acyclic(fewer)
  {
    forall p | IsPath(fewer, p) && |p| >= 2 ensures p[0] != p[|p| - 1] { assert IsPath(edges, p); }
  }

  lemma NoEdges()
    ensures Acyclic({})
  {
    var none: set<Edge> := {};
    forall p: seq<ServiceId> | |p| >= 2 ensures !IsPath(none, p) {
      var i := 0;
      assert Edge(p[i], p[i + 1]) !in none;
    }
  }
}
