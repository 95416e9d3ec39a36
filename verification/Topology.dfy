/** The service registry's dependency edges: the cycle check in front of every insertion, and the endpoints. */
module Topology {
  import opened Domain
  import opened Graphs

  // ----- The cycle check -----

  /** Endpoints of the edges, and `target`: everything the search can meet. */
  function Nodes(edges: set<Edge>, target: ServiceId): set<ServiceId> {
    {target} + (set e | e in edges :: e.source) + (set e | e in edges :: e.target)
  }

  function TargetsOf(edges: set<Edge>, v: ServiceId): set<ServiceId> {
    set e | e in edges && e.source == v :: e.target
  }

  type Adjacency = map<ServiceId, set<ServiceId>>

  function Neighbours(adjacency: Adjacency, v: ServiceId): set<ServiceId> {
    if v in adjacency then adjacency[v] else {}
  }

  /** The dictionary lists the targets of every source. */
  ghost predicate Lists(adjacency: Adjacency, edges: set<Edge>) {
    forall v :: Neighbours(adjacency, v) == TargetsOf(edges, v)
  }

  lemma ListsOneMore(adjacency: Adjacency, edges: set<Edge>, e: Edge)
    requires Lists(adjacency, edges)
    ensures Lists(adjacency[e.source := Neighbours(adjacency, e.source) + {e.target}], edges + {e})
  {
    var more := adjacency[e.source := Neighbours(adjacency, e.source) + {e.target}];
    forall v ensures Neighbours(more, v) == TargetsOf(edges + {e}, v) {
      assert Neighbours(adjacency, v) == TargetsOf(edges, v);
      assert TargetsOf(edges + {e}, v) == TargetsOf(edges, v) + (if v == e.source then {e.target} else {});
    }
  }

  /** The adjacency dictionary, from rows in any order. */
  method BuildAdjacency(edges: set<Edge>) returns (adjacency: Adjacency)
    ensures Lists(adjacency, edges)
  {
    adjacency := map[];
    var rest, done := edges, {};
    while rest != {}
      invariant done + rest == edges && Lists(adjacency, done)
      decreases |rest|
    {
      var e :| e in rest;
      ListsOneMore(adjacency, done, e);
      adjacency := adjacency[e.source := Neighbours(adjacency, e.source) + {e.target}];
      rest, done := rest - {e}, done + {e};
    }
    assert done == edges;
  }

  /** The stack with some services pushed, in any order. */
  predicate Pushed(stack: seq<ServiceId>, more: set<ServiceId>, r: seq<ServiceId>) {
    (forall v :: v in r ==> v in stack || v in more) && (forall v :: v in stack ==> v in r) && (forall v :: v in more ==> v in r)
  }

  method Extend(stack: seq<ServiceId>, more: set<ServiceId>) returns (r: seq<ServiceId>)
    ensures Pushed(stack, more, r)
  {
    r := stack;
    var rest := more;
    while rest != {}
      invariant rest <= more && forall v :: v in r <==> v in stack || v in more - rest
      decreases |rest|
    {
      var v :| v in rest;
      r, rest := r + [v], rest - {v};
    }
  }

  /** The search so far: it has only met services that the target reaches, the source is not among the visited,
      and everything a visited service depends on is visited or waiting. */
  ghost predicate SearchGood(edges: set<Edge>, source: ServiceId, target: ServiceId, visited: set<ServiceId>,
                             stack: seq<ServiceId>) {
    && (target in stack || target in visited) && source !in visited
    && (forall v :: v in visited || v in stack ==> v in Nodes(edges, target) && Reaches(edges, target, v))
    && (forall e :: e in edges && e.source in visited ==> e.target in visited || e.target in stack)
  }

  lemma SearchBegins(edges: set<Edge>, source: ServiceId, target: ServiceId)
    ensures SearchGood(edges, source, target, {}, [target])
  {
    ReachesItself(edges, target);
  }

  lemma SearchPops(edges: set<Edge>, source: ServiceId, target: ServiceId, visited: set<ServiceId>,
                   stack: seq<ServiceId>)
    requires SearchGood(edges, source, target, visited, stack) && stack != []
    ensures var current := stack[|stack| - 1];
      && Reaches(edges, target, current) && current in Nodes(edges, target)
      && (current in visited ==> SearchGood(edges, source, target, visited, stack[..|stack| - 1]))
  {
    hide Reaches, Nodes;
    assert stack == stack[..|stack| - 1] + [stack[|stack| - 1]];
  }

  lemma SearchExpands(edges: set<Edge>, source: ServiceId, target: ServiceId, visited: set<ServiceId>,
                      stack: seq<ServiceId>,
                      stack': seq<ServiceId>)
    requires SearchGood(edges, source, target, visited, stack) && stack != [] && stack[|stack| - 1] != source
    requires Pushed(stack[..|stack| - 1], TargetsOf(edges, stack[|stack| - 1]), stack')
    ensures SearchGood(edges, source, target, visited + {stack[|stack| - 1]}, stack')
  {
    var current := stack[|stack| - 1];
    assert stack == stack[..|stack| - 1] + [current];
    SearchPops(edges, source, target, visited, stack);
    hide Reaches;
    forall w | w in TargetsOf(edges, current) ensures Reaches(edges, target, w) { OneMoreEdge(edges, target, current, w); }
  }

  lemma SearchEnds(edges: set<Edge>, source: ServiceId, target: ServiceId, visited: set<ServiceId>)
    requires SearchGood(edges, source, target, visited, [])
    ensures !Reaches(edges, target, source)
  {
    if Reaches(edges, target, source) {
      var p :| IsPath(edges, p) && Joins(p, target, source);
      ClosedHolds(edges, visited, p);
    }
  }

  /** The edge under test only concerns its own source. */
  lemma OtherTargets(adjacency: Adjacency, edges: set<Edge>, e: Edge, v: ServiceId)
    requires Lists(adjacency, edges + {e}) && v != e.source
    ensures Neighbours(adjacency, v) == TargetsOf(edges, v)
  {
    assert TargetsOf(edges + {e}, v) == TargetsOf(edges, v);
  }

  lemma OneFewer(nodes: set<ServiceId>, visited: set<ServiceId>, v: ServiceId)
    requires v in nodes && v !in visited
    ensures |nodes - (visited + {v})| < |nodes - visited|
  {
    assert nodes - (visited + {v}) == (nodes - visited) - {v};
  }

  /** `_would_create_cycle`: is the source reachable from the target? The edge under test is in the dictionary,
      but never followed. */
  method WouldCreateCycle(edges: set<Edge>, source: ServiceId, target: ServiceId) returns (b: bool)
    ensures b <==> Reaches(edges, target, source)
  {
    hide SearchGood, Nodes, TargetsOf, Reaches, Lists, Pushed;
    var adjacency := BuildAdjacency(edges);
    ListsOneMore(adjacency, edges, Edge(source, target));
    adjacency := adjacency[source := Neighbours(adjacency, source) + {target}];
    var stack, visited := [target], {};
    ghost var nodes := Nodes(edges, target);
    SearchBegins(edges, source, target);
    while stack != []
      invariant SearchGood(edges, source, target, visited, stack)
      decreases |nodes - visited|, |stack|
    {
      ghost var before := stack;
      SearchPops(edges, source, target, visited, stack);
      var current := stack[|stack| - 1];
      stack := stack[..|stack| - 1];
      if current == source { return true; }
      if current in visited { continue; }
      OtherTargets(adjacency, edges, Edge(source, target), current);
      OneFewer(nodes, visited, current);
      var next := Neighbours(adjacency, current);
      stack := Extend(stack, next);
      SearchExpands(edges, source, target, visited, before, stack);
      visited := visited + {current};
    }
    SearchEnds(edges, source, target, visited);
    return false;
  }

  // ----- The registry -----

  datatype Criticality = LowEdge | NormalEdge | HighEdge | CriticalEdge

  /** HTTP answers: created or deleted, not found, conflict, unprocessable, or an unhandled integrity error. */
  datatype Answer = Done | NotFound | Conflict | Unprocessable | Failed

  datatype Registry = Registry(services: set<ServiceId>, dependencies: map<Edge, Criticality>)

  /** Edges join registered services and form no cycle. */
  ghost predicate Orderly(r: Registry) {
    && (forall e :: e in r.dependencies ==> e.source in r.services && e.target in r.services)
    && Acyclic(r.dependencies.Keys)
  }

  /** What the INSERT answers: the constraints of the table decide. */
  function Inserted(r: Registry, e: Edge): Answer {
    if e.source in r.services && e.target in r.services && e !in r.dependencies then Done else Failed
  }

  /** What the checks in front of an insertion answer. */
  ghost function Checked(r: Registry, e: Edge): Answer {
    if e.source !in r.services || e.target !in r.services then NotFound
    else if e in r.dependencies then Conflict
    else if !Acyclic(r.dependencies.Keys + {e}) then Unprocessable
    else Done
  }

  class ServiceRegistry {
    var services: set<ServiceId>
    var dependencies: map<Edge, Criticality>

    function Value(): Registry
      reads this
    {
      Registry(services, dependencies)
    }

    constructor ()
      ensures Value() == Registry({}, map[]) && Orderly(Value())
    {
      services, dependencies := {}, map[];
      new;
      NoEdges();
      assert dependencies.Keys == {};
    }

    method CreateService(id: ServiceId)
      requires Orderly(Value())
      modifies this
      ensures Value() == Registry(old(services) + {id}, old(dependencies)) && Orderly(Value())
    {
      services := services + {id};
    }

    /** The part of `add_dependency` in front of the INSERT. */
    method CheckDependency(source: ServiceId, target: ServiceId) returns (answer: Answer)
      requires Orderly(Value())
      ensures answer == Checked(Value(), Edge(source, target))
    {
      NewEdgeClosesACycle(dependencies.Keys, Edge(source, target));
      if source !in services { return NotFound; }
      if target !in services { return NotFound; }
      if source == target {
        NoSelfEdge(dependencies.Keys, source);
        ReachesItself(dependencies.Keys, source);
        return Unprocessable;
      }
      if Edge(source, target) in dependencies { return Conflict; }
      var cycle := WouldCreateCycle(dependencies.Keys, source, target);
      return if cycle then Unprocessable else Done;
    }

    /** The INSERT itself, on whatever the tables hold by then: the primary key refuses a second row, the foreign keys one
        whose services are gone. */
    method InsertDependency(source: ServiceId, target: ServiceId, criticality: Criticality) returns (answer: Answer)
      modifies this`dependencies
      ensures answer == Inserted(old(Value()), Edge(source, target))
      ensures dependencies == if answer == Done then old(dependencies)[Edge(source, target) := criticality] else old(dependencies)
    {
      if source !in services || target !in services || Edge(source, target) in dependencies { return Failed; }
      dependencies := dependencies[Edge(source, target) := criticality];
      return Done;
    }

    /** An edge is added exactly when both services exist, it is new, and the graph stays acyclic. */
    method AddDependency(source: ServiceId, target: ServiceId, criticality: Criticality) returns (answer: Answer)
      requires Orderly(Value())
      modifies this
      ensures Orderly(Value())
      ensures answer == Done <==>
        && source in services && target in services && Edge(source, target) !in old(dependencies)
        && Acyclic(old(dependencies).Keys + {Edge(source, target)})
      ensures answer == NotFound <==> source !in services || target !in services
      ensures answer == Conflict <==> source in services && target in services && Edge(source, target) in old(dependencies)
      ensures answer != Failed
      ensures Value() == if answer == Done then Registry(old(services), old(dependencies)[Edge(source, target) := criticality])
                         else old(Value())
    {
      NewEdgeClosesACycle(dependencies.Keys, Edge(source, target));
      answer := CheckDependency(source, target);
      if answer == Done {
        assert dependencies[Edge(source, target) := criticality].Keys == dependencies.Keys + {Edge(source, target)};
        answer := InsertDependency(source, target, criticality);
      }
    }

    /** Two requests at once: both check before either inserts. If both pass and are different, both edges are added, and
        the graph stays acyclic unless each edge's source is reachable from the other's target. */
    method AddTwo(e: Edge, f: Edge, c: Criticality, d: Criticality) returns (first: Answer, second: Answer)
      requires Orderly(Value())
      modifies this
      ensures services == old(services)
      ensures first == Checked(old(Value()), e)
      ensures second == if first == Done && f == e then Failed else Checked(old(Value()), f)
      ensures dependencies.Keys == old(dependencies).Keys + (if first == Done then {e} else {})
                                                          + (if second == Done then {f} else {})
      ensures first != Done || second != Done ==> Orderly(Value())
      ensures first == second == Done ==>
        (Orderly(Value()) <==> !(Reaches(old(dependencies).Keys, e.target, f.source) && Reaches(old(dependencies).Keys, f.target, e.source)))
    {
      ghost var edges := dependencies.Keys;
      NewEdgeClosesACycle(edges, e);
      NewEdgeClosesACycle(edges, f);
      first := CheckDependency(e.source, e.target);
      second := CheckDependency(f.source, f.target);
      if first == second == Done { TwoEdgesCloseACycle(edges, e, f); }
      if first == Done { first := InsertDependency(e.source, e.target, c); }
      assert dependencies.Keys == edges + if first == Done then {e} else {};
      if second == Done { second := InsertDependency(f.source, f.target, d); }
      assert edges + {e} + {f} == edges + {e, f};
    }

    /** An addition during which a service is deleted, after the check and before the INSERT. The edge is added exactly if
        it passed the check and does not touch that service; the graph stays acyclic in any case. */
    method AddWhileDeleting(e: Edge, criticality: Criticality, gone: ServiceId) returns (answer: Answer)
      requires Orderly(Value())
      modifies this
      ensures Orderly(Value()) && services == old(services) - {gone}
      ensures answer == if Checked(old(Value()), e) != Done then Checked(old(Value()), e)
                        else if e.source == gone || e.target == gone then Failed else Done
      ensures dependencies.Keys == (set f | f in old(dependencies) && f.source != gone && f.target != gone)
                                   + (if answer == Done then {e} else {})
    {
      ghost var edges := dependencies.Keys;
      NewEdgeClosesACycle(edges, e);
      answer := CheckDependency(e.source, e.target);
      var _ := DeleteService(gone);
      assert dependencies.Keys == set f | f in old(dependencies) && f.source != gone && f.target != gone;
      ghost var kept := dependencies.Keys;
      if answer == Done {
        answer := InsertDependency(e.source, e.target, criticality);
        if answer == Done { FewerEdges(edges + {e}, kept + {e}); }
      }
      assert dependencies.Keys == kept + if answer == Done then {e} else {};
    }

    method DeleteDependency(source: ServiceId, target: ServiceId) returns (answer: Answer)
      requires Orderly(Value())
      modifies this
      ensures Orderly(Value()) && answer == (if Edge(source, target) in old(dependencies) then Done else NotFound)
      ensures Value() == Registry(old(services), old(dependencies) - {Edge(source, target)})
    {
      FewerEdges(dependencies.Keys, dependencies.Keys - {Edge(source, target)});
      if Edge(source, target) !in dependencies {
        assert dependencies == dependencies - {Edge(source, target)};
        return NotFound;
      }
      dependencies := dependencies - {Edge(source, target)};
      return Done;
    }

    /** The foreign keys cascade: a service takes its edges with it. */
    method DeleteService(id: ServiceId) returns (answer: Answer)
      requires Orderly(Value())
      modifies this
      ensures Orderly(Value()) && answer == (if id in old(services) then Done else NotFound)
      ensures services == old(services) - {id}
      ensures dependencies
           == map e | e in old(dependencies) && (e.source != id && e.target != id) :: old(dependencies)[e]
    {
      var kept := map e | e in dependencies && (e.source != id && e.target != id) :: dependencies[e];
      if id !in services {
        assert kept == dependencies;
        return NotFound;
      }
      FewerEdges(dependencies.Keys, kept.Keys);
      services, dependencies := services - {id}, kept;
      return Done;
    }
  }

  lemma NoSelfEdge(edges: set<Edge>, v: ServiceId)
    requires Acyclic(edges)
    ensures Edge(v, v) !in edges
  {
    var p := [v, v];
    assert IsPath(edges, p) <==> Edge(v, v) in edges;
  }

  /** Such a pair: two opposite edges between services that do not depend on each other. */
  lemma OppositeInsertionsClose(edges: set<Edge>, a: ServiceId, b: ServiceId)
    requires Acyclic(edges) && !Reaches(edges, b, a) && !Reaches(edges, a, b)
    ensures Acyclic(edges + {Edge(a, b)}) && Acyclic(edges + {Edge(b, a)}) && !Acyclic(edges + {Edge(a, b), Edge(b, a)})
  {
    var e, f := Edge(a, b), Edge(b, a);
    NewEdgeClosesACycle(edges, e);
    NewEdgeClosesACycle(edges, f);
    ReachesItself(edges, a);
    ReachesItself(edges, b);
    TwoEdgesCloseACycle(edges, e, f);
  }
}
