/** The mutable builder of evaluation pipelines
    (gigaevo/entrypoint/default_pipelines.py) and the graph it describes. */
module PipelineBuilders {
  import opened Digraphs
  import opened Ordering

  /** What a stage is built from; the graph never looks inside. */
  type Factory = string

  datatype Edge = Edge(source: Node, destination: Node, input: string)

  datatype Condition = Success | Failure | Always

  datatype Dep = Dep(stage: Node, condition: Condition)

  datatype Pipeline = Pipeline(nodes: map<Node, Factory>, edges: seq<Edge>, deps: map<Node, seq<Dep>>) {
    function DepsOf(stage: Node): seq<Dep> { if stage in deps then deps[stage] else [] }

    /** `b` waits for `a`: it takes data from it or is ordered after it. */
    ghost predicate Waits(a: Node, b: Node) {
      (exists e :: e in edges && e.source == a && e.destination == b) || (exists d :: d in DepsOf(b) && d.stage == a)
    }

    ghost function Order(): Arcs { iset a, b | Waits(a, b) :: (a, b) }
  }

  const EMPTY_PIPELINE := Pipeline(map[], [], map[])

  function Keep(edges: seq<Edge>, keep: Edge -> bool): (kept: seq<Edge>)
    ensures forall e :: e in kept <==> e in edges && keep(e)
    decreases |edges|
  {
    if edges == [] then [] else
      assert forall e :: e in edges <==> e == edges[0] || e in edges[1..];
      (if keep(edges[0]) then [edges[0]] else []) + Keep(edges[1..], keep)
  }

  function KeepDeps(deps: seq<Dep>, keep: Dep -> bool): (kept: seq<Dep>)
    ensures forall d :: d in kept <==> d in deps && keep(d)
    decreases |deps|
  {
    if deps == [] then [] else
      assert forall d :: d in deps <==> d == deps[0] || d in deps[1..];
      (if keep(deps[0]) then [deps[0]] else []) + KeepDeps(deps[1..], keep)
  }

  /** What is kept stays in order and as often as it was there. */
  lemma {:induction false} KeepIs(edges: seq<Edge>, keep: Edge -> bool)
    ensures Subsequence(Keep(edges, keep), edges)
    ensures forall e :: multiset(Keep(edges, keep))[e] == if keep(e) then multiset(edges)[e] else 0
  {
    KeepOrder(edges, keep);
    forall e ensures multiset(Keep(edges, keep))[e] == if keep(e) then multiset(edges)[e] else 0 {
      KeepCount(edges, keep, e);
    }
  }

  lemma {:induction false} KeepOrder(edges: seq<Edge>, keep: Edge -> bool)
    ensures Subsequence(Keep(edges, keep), edges)
    decreases |edges|
  {
    if edges != [] {
      var rest := Keep(edges[1..], keep);
      KeepOrder(edges[1..], keep);
      assert ([edges[0]] + rest)[1..] == rest && [] + rest == rest;
    }
  }

  lemma {:induction false} KeepCount(edges: seq<Edge>, keep: Edge -> bool, e: Edge)
    ensures multiset(Keep(edges, keep))[e] == if keep(e) then multiset(edges)[e] else 0
    decreases |edges|
  {
    if edges != [] {
      var rest := Keep(edges[1..], keep);
      KeepCount(edges[1..], keep, e);
      assert multiset(edges)[e] == multiset(edges[1..])[e] + if edges[0] == e then 1 else 0 by {
        assert edges == [edges[0]] + edges[1..];
      }
      if keep(edges[0]) {
        assert multiset([edges[0]] + rest)[e] == multiset(rest)[e] + if edges[0] == e then 1 else 0;
      } else {
        assert [] + rest == rest;
      }
    }
  }

  lemma {:induction false} KeepDepsIs(deps: seq<Dep>, keep: Dep -> bool)
    ensures Subsequence(KeepDeps(deps, keep), deps)
    ensures forall d :: multiset(KeepDeps(deps, keep))[d] == if keep(d) then multiset(deps)[d] else 0
  {
    KeepDepsOrder(deps, keep);
    forall d ensures multiset(KeepDeps(deps, keep))[d] == if keep(d) then multiset(deps)[d] else 0 {
      KeepDepsCount(deps, keep, d);
    }
  }

  lemma {:induction false} KeepDepsOrder(deps: seq<Dep>, keep: Dep -> bool)
    ensures Subsequence(KeepDeps(deps, keep), deps)
    decreases |deps|
  {
    if deps != [] {
      var rest := KeepDeps(deps[1..], keep);
      KeepDepsOrder(deps[1..], keep);
      assert ([deps[0]] + rest)[1..] == rest && [] + rest == rest;
    }
  }

  lemma {:induction false} KeepDepsCount(deps: seq<Dep>, keep: Dep -> bool, d: Dep)
    ensures multiset(KeepDeps(deps, keep))[d] == if keep(d) then multiset(deps)[d] else 0
    decreases |deps|
  {
    if deps != [] {
      var rest := KeepDeps(deps[1..], keep);
      KeepDepsCount(deps[1..], keep, d);
      assert multiset(deps)[d] == multiset(deps[1..])[d] + if deps[0] == d then 1 else 0 by {
        assert deps == [deps[0]] + deps[1..];
      }
      if keep(deps[0]) {
        assert multiset([deps[0]] + rest)[d] == multiset(rest)[d] + if deps[0] == d then 1 else 0;
      } else {
        assert [] + rest == rest;
      }
    }
  }

  // ---------------------------------------------------------------- the operations

  function WithStage(p: Pipeline, name: Node, factory: Factory): Pipeline {
    p.(nodes := p.nodes[name := factory])
  }

  function Avoiding(name: Node): Edge -> bool {
    (e: Edge) => e.source != name && e.destination != name
  }

  function NotBetween(source: Node, destination: Node): Edge -> bool {
    (e: Edge) => !(e.source == source && e.destination == destination)
  }

  function NotAfter(name: Node): Dep -> bool {
    (d: Dep) => d.stage != name
  }

  function DropDeps(deps: map<Node, seq<Dep>>, name: Node): map<Node, seq<Dep>> {
    map s | s in deps :: KeepDeps(deps[s], NotAfter(name))
  }

  function WithoutStage(p: Pipeline, name: Node): Pipeline {
    Pipeline(p.nodes - {name}, Keep(p.edges, Avoiding(name)), DropDeps(p.deps - {name}, name))
  }

  function WithEdge(p: Pipeline, source: Node, destination: Node, input: string): Pipeline {
    p.(edges := p.edges + [Edge(source, destination, input)])
  }

  function WithoutEdges(p: Pipeline, source: Node, destination: Node): Pipeline {
    p.(edges := Keep(p.edges, NotBetween(source, destination)))
  }

  function WithDep(p: Pipeline, stage: Node, d: Dep): Pipeline {
    p.(deps := p.deps[stage := p.DepsOf(stage) + [d]])
  }

  function WithoutDep(p: Pipeline, stage: Node, d: Dep): Pipeline {
    if stage in p.deps then p.(deps := p.deps[stage := KeepDeps(p.deps[stage], (x: Dep) => x != d)]) else p
  }

  // ---------------------------------------------------------------- what they do to the order

  lemma {:induction false} EdgeAddsArc(p: Pipeline, source: Node, destination: Node, input: string)
    ensures WithEdge(p, source, destination, input).Order() == p.Order() + iset{(source, destination)}
  {
    var q := WithEdge(p, source, destination, input);
    var e := Edge(source, destination, input);
    assert e in q.edges;
    forall a, b ensures q.Waits(a, b) <==> p.Waits(a, b) || (a, b) == (source, destination) {
      assert forall x :: x in q.edges <==> x in p.edges || x == e;
      assert q.DepsOf(b) == p.DepsOf(b);
    }
  }

  lemma {:induction false} DepAddsArc(p: Pipeline, stage: Node, d: Dep)
    ensures WithDep(p, stage, d).Order() == p.Order() + iset{(d.stage, stage)}
  {
    var q := WithDep(p, stage, d);
    forall a, b ensures q.Waits(a, b) <==> p.Waits(a, b) || (a, b) == (d.stage, stage) {
      assert b != stage ==> q.DepsOf(b) == p.DepsOf(b);
      assert forall x :: x in q.DepsOf(stage) <==> x in p.DepsOf(stage) || x == d;
    }
  }

  /** Adding an edge closes a cycle exactly when its destination already leads to
      its source. */
  lemma {:induction false} EdgeKeepsAcyclicIff(p: Pipeline, source: Node, destination: Node, input: string)
    ensures Acyclic(WithEdge(p, source, destination, input).Order())
            <==> Acyclic(p.Order()) && !Leads(p.Order(), destination, source)
  {
    EdgeAddsArc(p, source, destination, input);
    AcyclicWithArcIff(p.Order(), source, destination);
  }

  lemma {:induction false} DepKeepsAcyclicIff(p: Pipeline, stage: Node, d: Dep)
    ensures Acyclic(WithDep(p, stage, d).Order()) <==> Acyclic(p.Order()) && !Leads(p.Order(), stage, d.stage)
  {
    DepAddsArc(p, stage, d);
    AcyclicWithArcIff(p.Order(), d.stage, stage);
  }

  /** Removing a stage removes exactly the arcs at it: every other stage waits
      for the same others as before. */
  lemma {:induction false} RemovalLeavesTheRest(p: Pipeline, name: Node, a: Node, b: Node)
    ensures WithoutStage(p, name).Waits(a, b) <==> p.Waits(a, b) && a != name && b != name
    ensures name !in WithoutStage(p, name).nodes
  {
    var q := WithoutStage(p, name);
    if b != name {
      assert forall d :: d in q.DepsOf(b) <==> d in p.DepsOf(b) && d.stage != name;
    } else {
      assert q.DepsOf(b) == [];
    }
  }

  /** Cutting the edges between two stages leaves every arc but, unless a
      dependency orders them anyway, the one between them. */
  lemma {:induction false} CutLeaves(p: Pipeline, source: Node, destination: Node, a: Node, b: Node)
    ensures WithoutEdges(p, source, destination).Waits(a, b)
            <==> p.Waits(a, b) && ((a, b) != (source, destination) || exists d :: d in p.DepsOf(b) && d.stage == a)
  {
    assert WithoutEdges(p, source, destination).DepsOf(b) == p.DepsOf(b);
  }

  /** Dropping a dependency drops its ordering unless an edge, or a dependency with
      another condition, asks for it too. */
  lemma {:induction false} DroppedDepLeaves(p: Pipeline, stage: Node, d: Dep, a: Node, b: Node)
    ensures WithoutDep(p, stage, d).Waits(a, b)
            <==> p.Waits(a, b) && ((a, b) != (d.stage, stage) || StillAsked(p, stage, d))
  {
    var q := WithoutDep(p, stage, d);
    assert forall x :: x in q.DepsOf(b) <==> x in p.DepsOf(b) && !(b == stage && x == d);
  }

  ghost predicate StillAsked(p: Pipeline, stage: Node, d: Dep) {
    || (exists e :: e in p.edges && e.source == d.stage && e.destination == stage)
    || (exists x :: x in p.DepsOf(stage) && x.stage == d.stage && x != d)
  }

  /** So removing a stage keeps a pipeline acyclic. */
  lemma {:induction false} RemovalKeepsAcyclic(p: Pipeline, name: Node)
    requires Acyclic(p.Order())
    ensures Acyclic(WithoutStage(p, name).Order())
  {
    var q := WithoutStage(p, name);
    forall x, y | (x, y) in q.Order() ensures Reach(p.Order(), x, y) {
      RemovalLeavesTheRest(p, name, x, y);
      ArcReaches(p.Order(), x, y);
    }
    forall a ensures !Reach(q.Order(), a, a) {
      if Reach(q.Order(), a, a) {
        ReachCarriesOver(q.Order(), p.Order(), a, a);
      }
    }
  }

  // ---------------------------------------------------------------- producers of an input

  /** How many stages produce the named input of a stage. */
  function Producers(edges: seq<Edge>, destination: Node, input: string): nat
    decreases |edges|
  {
    if edges == [] then 0
    else (if edges[0].destination == destination && edges[0].input == input then 1 else 0) + Producers(edges[1..], destination, input)
  }

  lemma {:induction false} ProducersSplit(a: seq<Edge>, b: seq<Edge>, destination: Node, input: string)
    ensures Producers(a + b, destination, input) == Producers(a, destination, input) + Producers(b, destination, input)
    decreases |a|
  {
    if a == [] {
      assert a + b == b;
    } else {
      assert (a + b)[1..] == a[1..] + b;
      ProducersSplit(a[1..], b, destination, input);
    }
  }

  lemma {:induction false} ProducersOfOne(e: Edge, destination: Node, input: string)
    ensures Producers([e], destination, input) == if e.destination == destination && e.input == input then 1 else 0
  {
    assert [e][1..] == [];
  }

  // ---------------------------------------------------------------- the builder object

  method FilterDeps(deps: map<Node, seq<Dep>>, name: Node) returns (filtered: map<Node, seq<Dep>>)
    ensures filtered == DropDeps(deps, name)
  {
    filtered := map[];
    var left := deps.Keys;
    while left != {}
      invariant left <= deps.Keys
      invariant filtered.Keys == deps.Keys - left
      invariant forall s :: s in filtered ==> filtered[s] == KeepDeps(deps[s], NotAfter(name))
      decreases |left|
    {
      var stage :| stage in left;
      filtered := filtered[stage := KeepDeps(deps[stage], NotAfter(name))];
      left := left - {stage};
    }
  }

  class PipelineBuilder {
    var nodes: map<Node, Factory>
    var dataFlowEdges: seq<Edge>
    var deps: map<Node, seq<Dep>>

    constructor ()
      ensures Contents() == EMPTY_PIPELINE
    {
      nodes, dataFlowEdges, deps := map[], [], map[];
    }

    function Contents(): Pipeline
      reads this
    {
      Pipeline(nodes, dataFlowEdges, deps)
    }

    method AddStage(name: Node, factory: Factory)
      modifies this
      ensures Contents() == WithStage(old(Contents()), name, factory)
    {
      nodes := nodes[name := factory];
    }

    method RemoveStage(name: Node)
      modifies this
      ensures Contents() == WithoutStage(old(Contents()), name)
      ensures forall a, b :: Contents().Waits(a, b) <==> old(Contents()).Waits(a, b) && a != name && b != name
      ensures nodes == old(nodes) - {name} && Subsequence(dataFlowEdges, old(dataFlowEdges))
      ensures forall e :: multiset(dataFlowEdges)[e] == if e.source == name || e.destination == name then 0 else multiset(old(dataFlowEdges))[e]
      ensures forall s :: s in deps ==> s in old(deps) && Subsequence(deps[s], old(deps)[s])
      ensures forall s, d :: s in old(deps) && s != name ==>
                s in deps && multiset(deps[s])[d] == if d.stage == name then 0 else multiset(old(deps)[s])[d]
    {
      ghost var before := Contents();
      KeepIs(dataFlowEdges, Avoiding(name));
      forall s | s in deps {
        KeepDepsIs(deps[s], NotAfter(name));
      }
      nodes := nodes - {name};
      dataFlowEdges := Keep(dataFlowEdges, Avoiding(name));
      deps := deps - {name};
      deps := FilterDeps(deps, name);
      forall a, b ensures WithoutStage(before, name).Waits(a, b) <==> before.Waits(a, b) && a != name && b != name {
        RemovalLeavesTheRest(before, name, a, b);
      }
    }

    method AddDataFlowEdge(source: Node, destination: Node, input: string)
      modifies this
      ensures Contents() == WithEdge(old(Contents()), source, destination, input)
      ensures Contents().Order() == old(Contents()).Order() + iset{(source, destination)}
      ensures Acyclic(Contents().Order()) <==> Acyclic(old(Contents()).Order()) && !Leads(old(Contents()).Order(), destination, source)
    {
      EdgeAddsArc(Contents(), source, destination, input);
      EdgeKeepsAcyclicIff(Contents(), source, destination, input);
      dataFlowEdges := dataFlowEdges + [Edge(source, destination, input)];
    }

    method RemoveDataFlowEdge(source: Node, destination: Node)
      modifies this
      ensures Contents() == WithoutEdges(old(Contents()), source, destination)
      ensures nodes == old(nodes) && deps == old(deps) && Subsequence(dataFlowEdges, old(dataFlowEdges))
      ensures forall e :: multiset(dataFlowEdges)[e] == if e.source == source && e.destination == destination then 0 else multiset(old(dataFlowEdges))[e]
      ensures forall a, b ::
                Contents().Waits(a, b)
                <==> old(Contents()).Waits(a, b) && ((a, b) != (source, destination) || exists d :: d in old(Contents()).DepsOf(b) && d.stage == a)
    {
      forall a, b {
        CutLeaves(Contents(), source, destination, a, b);
      }
      KeepIs(dataFlowEdges, NotBetween(source, destination));
      dataFlowEdges := Keep(dataFlowEdges, NotBetween(source, destination));
    }

    method AddExecDep(stage: Node, d: Dep)
      modifies this
      ensures Contents() == WithDep(old(Contents()), stage, d)
      ensures Contents().Order() == old(Contents()).Order() + iset{(d.stage, stage)}
      ensures Acyclic(Contents().Order()) <==> Acyclic(old(Contents()).Order()) && !Leads(old(Contents()).Order(), stage, d.stage)
    {
      DepAddsArc(Contents(), stage, d);
      DepKeepsAcyclicIff(Contents(), stage, d);
      deps := deps[stage := (if stage in deps then deps[stage] else []) + [d]];
    }

    method RemoveExecDep(stage: Node, d: Dep)
      modifies this
      ensures Contents() == WithoutDep(old(Contents()), stage, d)
      ensures nodes == old(nodes) && dataFlowEdges == old(dataFlowEdges) && Subsequence(Contents().DepsOf(stage), old(Contents()).DepsOf(stage))
      ensures forall x :: multiset(Contents().DepsOf(stage))[x] == if x == d then 0 else multiset(old(Contents()).DepsOf(stage))[x]
      ensures forall a, b ::
                Contents().Waits(a, b)
                <==> old(Contents()).Waits(a, b) && ((a, b) != (d.stage, stage) || StillAsked(old(Contents()), stage, d))
    {
      forall a, b {
        DroppedDepLeaves(Contents(), stage, d, a, b);
      }
      if stage in deps {
        KeepDepsIs(deps[stage], (x: Dep) => x != d);
        deps := deps[stage := KeepDeps(deps[stage], (x: Dep) => x != d)];
      }
    }
  }
}
