/** The two rewirings of an adversarial pipeline
    (gigaevo/adversarial/asymmetric_pipeline.py): a parsing stage between the
    validator and its consumers, and the coverage stages in front of
    EnsureMetricsStage. */
module AsymmetricPipelines {
  import opened Digraphs
  import opened Ordering
  import opened PipelineBuilders
  import DGTrackerStages

  const VALIDATOR := "CallValidatorFunction"
  const PARSE := "ParseMetricsStage"
  const RESULT := "validation_result"
  const RAW := "raw_validator_output"
  const MERGE := "MergeMetricsStage"
  const COVERAGE_MERGE := "MergeCoverageMetricsStage"
  const ENSURE := "EnsureMetricsStage"
  const TRACKER := "DGTrackerStage"
  const CANDIDATE := "candidate"

  type Role = DGTrackerStages.Role

  function CoverageStage(role: Role): Node {
    if role == DGTrackerStages.Improver then "ComputeDWinsCountStage" else "ComputeGResistedCountStage"
  }

  /** No edge and no dependency mentions the stage. */
  ghost predicate Unused(p: Pipeline, name: Node) {
    forall a, b :: p.Waits(a, b) ==> a != name && b != name
  }

  lemma {:induction false} StageKeepsOrder(p: Pipeline, name: Node, factory: Factory)
    ensures WithStage(p, name, factory).Order() == p.Order()
  {
    forall a, b ensures WithStage(p, name, factory).Waits(a, b) <==> p.Waits(a, b) {
      assert WithStage(p, name, factory).DepsOf(b) == p.DepsOf(b);
    }
  }

  // ---------------------------------------------------------------- the parsing stage

  predicate Rewires(e: Edge) { e.source == VALIDATOR && e.input == RESULT }

  function Rewired(edges: seq<Edge>): seq<Edge>
    decreases |edges|
  {
    if edges == [] then [] else
      var e := edges[|edges| - 1];
      Rewired(edges[..|edges| - 1]) + [if Rewires(e) then Edge(PARSE, e.destination, RESULT) else e]
  }

  function WithRewired(p: Pipeline): Pipeline { p.(edges := Rewired(p.edges)) }

  function WithParse(p: Pipeline, factory: Factory): Pipeline {
    WithDep(WithEdge(WithRewired(WithStage(p, PARSE, factory)), VALIDATOR, PARSE, RAW), PARSE, Dep(VALIDATOR, Success))
  }

  lemma {:induction false} RewiredEdges(edges: seq<Edge>, e: Edge)
    ensures e in Rewired(edges)
            <==> (e in edges && !Rewires(e)) || (e.source == PARSE && e.input == RESULT && Edge(VALIDATOR, e.destination, RESULT) in edges)
                 || (e in edges && e.source == PARSE)
    decreases |edges|
  {
    if edges != [] {
      var before := edges[..|edges| - 1];
      var last := edges[|edges| - 1];
      RewiredEdges(before, e);
      assert forall x :: x in edges <==> x in before || x == last;
    }
  }

  ghost predicate Consumes(p: Pipeline, b: Node) { Edge(VALIDATOR, b, RESULT) in p.edges }

  lemma {:induction false} NoDepOn(p: Pipeline, name: Node, b: Node)
    requires Unused(p, name)
    ensures forall d :: d in p.DepsOf(b) ==> d.stage != name
    ensures forall e :: e in p.edges ==> e.source != name && e.destination != name
  {
    forall d | d in p.DepsOf(b) ensures d.stage != name {
      assert p.Waits(d.stage, b);
    }
    forall e | e in p.edges ensures e.source != name && e.destination != name {
      assert p.Waits(e.source, e.destination);
    }
  }

  lemma {:induction false} RewiredWaits(p: Pipeline, a: Node, b: Node)
    requires Unused(p, PARSE)
    ensures a != PARSE && WithRewired(p).Waits(a, b) ==> p.Waits(a, b) && b != PARSE
    ensures WithRewired(p).Waits(PARSE, b) <==> Consumes(p, b)
    ensures p.Waits(a, b) ==> WithRewired(p).Waits(a, b) || (a == VALIDATOR && Consumes(p, b))
  {
    var q := WithRewired(p);
    assert q.DepsOf(b) == p.DepsOf(b);
    NoDepOn(p, PARSE, b);
    if q.Waits(a, b) && exists e :: e in q.edges && e.source == a && e.destination == b {
      var e :| e in q.edges && e.source == a && e.destination == b;
      RewiredEdges(p.edges, e);
    }
    if q.Waits(PARSE, b) {
      var e :| e in q.edges && e.source == PARSE && e.destination == b;
      RewiredEdges(p.edges, e);
    }
    if Consumes(p, b) {
      RewiredEdges(p.edges, Edge(PARSE, b, RESULT));
    }
    if p.Waits(a, b) && exists e :: e in p.edges && e.source == a && e.destination == b {
      var e :| e in p.edges && e.source == a && e.destination == b;
      RewiredEdges(p.edges, e);
    }
  }

  ghost function ParseSplice(p: Pipeline): Splice {
    Splice({PARSE}, map[PARSE := iset b | Consumes(p, b)], map[PARSE := 0])
  }

  lemma {:induction false} ParseOrder(p: Pipeline, factory: Factory)
    ensures WithParse(p, factory).Order() == WithRewired(p).Order() + iset{(VALIDATOR, PARSE)}
  {
    var p1 := WithRewired(WithStage(p, PARSE, factory));
    var p2 := WithEdge(p1, VALIDATOR, PARSE, RAW);
    assert p1 == WithStage(WithRewired(p), PARSE, factory);
    StageKeepsOrder(WithRewired(p), PARSE, factory);
    EdgeAddsArc(p1, VALIDATOR, PARSE, RAW);
    DepAddsArc(p2, PARSE, Dep(VALIDATOR, Success));
  }

  lemma {:induction false} ParseIsSpliced(p: Pipeline, factory: Factory)
    requires Unused(p, PARSE)
    ensures Spliced(p.Order(), WithParse(p, factory).Order(), ParseSplice(p))
  {
    var r, s, sp := p.Order(), WithParse(p, factory).Order(), ParseSplice(p);
    ParseOrder(p, factory);
    forall a, b | (a, b) in r ensures a !in sp.inner && b !in sp.inner && Reach(s, a, b) {
      RewiredWaits(p, a, b);
      if WithRewired(p).Waits(a, b) {
        ArcReaches(s, a, b);
      } else {
        RewiredWaits(p, PARSE, b);
        ArcReaches(s, VALIDATOR, PARSE);
        ArcReaches(s, PARSE, b);
        ReachOnward(s, VALIDATOR, PARSE, b);
      }
    }
    forall a, b | (a, b) in s ensures ArcOk(r, sp, a, b) {
      RewiredWaits(p, a, b);
      if (a, b) == (VALIDATOR, PARSE) {
        forall c | Consumes(p, c) ensures (VALIDATOR, c) in r {
          assert p.Waits(VALIDATOR, c);
        }
      } else if a == PARSE {
        assert Edge(VALIDATOR, b, RESULT) in p.edges;
        assert p.Waits(VALIDATOR, b);
      }
    }
  }

  /** Inserting the parsing stage changes no ordering between the old stages and
      neither makes nor breaks a cycle. */
  lemma {:induction false} ParseKeepsOrder(p: Pipeline, factory: Factory, a: Node, b: Node)
    requires Unused(p, PARSE) && a != PARSE && b != PARSE
    ensures Reach(WithParse(p, factory).Order(), a, b) <==> Reach(p.Order(), a, b)
    ensures Acyclic(WithParse(p, factory).Order()) <==> Acyclic(p.Order())
  {
    ParseIsSpliced(p, factory);
    SpliceKeepsReach(p.Order(), WithParse(p, factory).Order(), ParseSplice(p), a, b);
    SpliceKeepsAcyclic(p.Order(), WithParse(p, factory).Order(), ParseSplice(p));
  }

  lemma {:induction false} RewiringKeepsProducers(edges: seq<Edge>, destination: Node, input: string)
    ensures Producers(Rewired(edges), destination, input) == Producers(edges, destination, input)
    decreases |edges|
  {
    if edges != [] {
      var before, e := edges[..|edges| - 1], edges[|edges| - 1];
      var e' := if Rewires(e) then Edge(PARSE, e.destination, RESULT) else e;
      RewiringKeepsProducers(before, destination, input);
      assert edges == before + [e];
      ProducersSplit(before, [e], destination, input);
      ProducersSplit(Rewired(before), [e'], destination, input);
      ProducersOfOne(e, destination, input);
      ProducersOfOne(e', destination, input);
    }
  }

  /** Every input keeps its number of producers, the parser gets the validator's
      raw output once more, and nobody reads the parsed result from the validator. */
  lemma {:induction false} ParseKeepsProducers(p: Pipeline, factory: Factory, destination: Node, input: string)
    ensures Producers(WithParse(p, factory).edges, destination, input)
            == Producers(p.edges, destination, input) + if destination == PARSE && input == RAW then 1 else 0
    ensures forall e :: e in WithParse(p, factory).edges && e.input == RESULT ==> e.source != VALIDATOR
  {
    RewiringKeepsProducers(p.edges, destination, input);
    ProducersSplit(Rewired(p.edges), [Edge(VALIDATOR, PARSE, RAW)], destination, input);
    ProducersOfOne(Edge(VALIDATOR, PARSE, RAW), destination, input);
    forall e | e in WithParse(p, factory).edges && e.input == RESULT ensures e.source != VALIDATOR {
      RewiredEdges(p.edges, e);
    }
  }

  // ---------------------------------------------------------------- the coverage stages

  function WithCoverage(p: Pipeline, role: Role, factory: Factory, merger: Factory): Pipeline {
    var cov := CoverageStage(role);
    var p1 := WithDep(WithStage(p, cov, factory), cov, Dep(TRACKER, Success));
    var p2 := WithoutEdges(WithStage(p1, COVERAGE_MERGE, merger), MERGE, ENSURE);
    WithEdge(WithEdge(WithEdge(p2, MERGE, COVERAGE_MERGE, "first"), cov, COVERAGE_MERGE, "second"), COVERAGE_MERGE, ENSURE, CANDIDATE)
  }

  ghost function CutOrder(p: Pipeline, cov: Node): Arcs {
    WithoutEdges(WithDep(p, cov, Dep(TRACKER, Success)), MERGE, ENSURE).Order()
  }

  lemma {:induction false} CoverageOrder(p: Pipeline, role: Role, factory: Factory, merger: Factory)
    ensures WithCoverage(p, role, factory, merger).Order()
            == Covered(CutOrder(p, CoverageStage(role)), CoverageStage(role), COVERAGE_MERGE, MERGE, ENSURE)
  {
    var cov := CoverageStage(role);
    var q := WithoutEdges(WithDep(p, cov, Dep(TRACKER, Success)), MERGE, ENSURE);
    var p1 := WithDep(WithStage(p, cov, factory), cov, Dep(TRACKER, Success));
    var p2 := WithoutEdges(WithStage(p1, COVERAGE_MERGE, merger), MERGE, ENSURE);
    assert p2 == WithStage(WithStage(q, cov, factory), COVERAGE_MERGE, merger);
    StageKeepsOrder(q, cov, factory);
    StageKeepsOrder(WithStage(q, cov, factory), COVERAGE_MERGE, merger);
    EdgeAddsArc(p2, MERGE, COVERAGE_MERGE, "first");
    EdgeAddsArc(WithEdge(p2, MERGE, COVERAGE_MERGE, "first"), cov, COVERAGE_MERGE, "second");
    EdgeAddsArc(WithEdge(WithEdge(p2, MERGE, COVERAGE_MERGE, "first"), cov, COVERAGE_MERGE, "second"), COVERAGE_MERGE, ENSURE, CANDIDATE);
  }

  lemma {:induction false} CutArcs(p: Pipeline, cov: Node, a: Node, b: Node)
    requires cov != ENSURE
    ensures (a, b) in CutOrder(p, cov) ==> (a, b) in p.Order() || (a, b) == (TRACKER, cov)
    ensures (a, b) in p.Order() + iset{(TRACKER, cov)} && (a, b) != (MERGE, ENSURE) ==> (a, b) in CutOrder(p, cov)
  {
    DepAddsArc(p, cov, Dep(TRACKER, Success));
    CutLeaves(WithDep(p, cov, Dep(TRACKER, Success)), MERGE, ENSURE, a, b);
  }

  /** Two stages `cov` and `mc` put in front of `en`: `tr -> cov -> mc -> en`,
      and `me -> mc` in place of `me -> en`. */
  ghost function Covered(cut: Arcs, cov: Node, mc: Node, me: Node, en: Node): Arcs {
    cut + iset{(me, mc)} + iset{(cov, mc)} + iset{(mc, en)}
  }

  /** What they amount to between the old stages: the merged metrics still come
      before the check, and now so does the tracker. */
  ghost function Amounting(base: Arcs, me: Node, en: Node, tr: Node): Arcs {
    base + iset{(me, en)} + iset{(tr, en)}
  }

  ghost function CoverageSplice(cov: Node, mc: Node, en: Node): Splice {
    Splice({cov, mc}, map[cov := iset{en}, mc := iset{en}], map[cov := 0, mc := 1])
  }

  /** The names differ, the graph mentions neither new stage, and cutting
      removed at most the arc `me -> en`. */
  ghost predicate Fits(base: Arcs, cut: Arcs, cov: Node, mc: Node, me: Node, en: Node, tr: Node) {
    && cov != mc && cov !in {me, en, tr} && mc !in {me, en, tr}
    && (forall a, b :: (a, b) in base ==> a !in {cov, mc} && b !in {cov, mc})
    && (forall a, b :: (a, b) in cut ==> (a, b) in base || (a, b) == (tr, cov))
    && (forall a, b :: (a, b) in base && (a, b) != (me, en) ==> (a, b) in cut)
    && (tr, cov) in cut
  }

  lemma {:induction false} CoveredReaches(base: Arcs, cut: Arcs, cov: Node, mc: Node, me: Node, en: Node, tr: Node, a: Node, b: Node)
    requires Fits(base, cut, cov, mc, me, en, tr) && (a, b) in Amounting(base, me, en, tr)
    ensures Reach(Covered(cut, cov, mc, me, en), a, b)
  {
    var s := Covered(cut, cov, mc, me, en);
    ArcReaches(s, me, mc);
    ArcReaches(s, mc, en);
    ReachOnward(s, me, mc, en);
    ArcReaches(s, tr, cov);
    ArcReaches(s, cov, mc);
    ReachOnward(s, tr, cov, mc);
    ReachOnward(s, tr, mc, en);
    if (a, b) != (me, en) && (a, b) != (tr, en) {
      ArcReaches(s, a, b);
    }
  }

  lemma {:induction false} CoveredIsSpliced(base: Arcs, cut: Arcs, cov: Node, mc: Node, me: Node, en: Node, tr: Node)
    requires Fits(base, cut, cov, mc, me, en, tr)
    ensures Spliced(Amounting(base, me, en, tr), Covered(cut, cov, mc, me, en), CoverageSplice(cov, mc, en))
  {
    var r, s, sp := Amounting(base, me, en, tr), Covered(cut, cov, mc, me, en), CoverageSplice(cov, mc, en);
    forall a, b | (a, b) in r ensures a !in sp.inner && b !in sp.inner && Reach(s, a, b) {
      CoveredReaches(base, cut, cov, mc, me, en, tr, a, b);
    }
    forall a, b | (a, b) in s ensures ArcOk(r, sp, a, b) {
    }
  }

  lemma {:induction false} CoveredKeepsOrderIff(base: Arcs, cut: Arcs, cov: Node, mc: Node, me: Node, en: Node, tr: Node, a: Node, b: Node)
    requires Fits(base, cut, cov, mc, me, en, tr) && (me, en) in base && en != tr
    requires a !in {cov, mc} && b !in {cov, mc}
    ensures Reach(Covered(cut, cov, mc, me, en), a, b) <==> Reach(base, a, b) || (Leads(base, a, tr) && Leads(base, en, b))
    ensures Acyclic(Covered(cut, cov, mc, me, en)) <==> Acyclic(base) && !Reach(base, en, tr)
  {
    var r, s, sp := Amounting(base, me, en, tr), Covered(cut, cov, mc, me, en), CoverageSplice(cov, mc, en);
    CoveredIsSpliced(base, cut, cov, mc, me, en, tr);
    SpliceKeepsReach(r, s, sp, a, b);
    SpliceKeepsAcyclic(r, s, sp);
    assert r == base + iset{(tr, en)};
    ReachWithArcIff(base, tr, en, a, b);
    AcyclicWithArcIff(base, tr, en);
  }

  lemma {:induction false} NamesDiffer(role: Role)
    ensures CoverageStage(role) !in {COVERAGE_MERGE, MERGE, ENSURE, TRACKER}
    ensures COVERAGE_MERGE !in {MERGE, ENSURE, TRACKER} && ENSURE != TRACKER
  {
    assert |MERGE| == 17 && |COVERAGE_MERGE| == 25 && |ENSURE| == 18 && |TRACKER| == 14;
    assert |CoverageStage(role)| == if role == DGTrackerStages.Improver then 22 else 26;
  }

  lemma {:induction false} CoverageFits(p: Pipeline, role: Role)
    requires Unused(p, CoverageStage(role)) && Unused(p, COVERAGE_MERGE)
    ensures Fits(p.Order(), CutOrder(p, CoverageStage(role)), CoverageStage(role), COVERAGE_MERGE, MERGE, ENSURE, TRACKER)
  {
    var cov := CoverageStage(role);
    NamesDiffer(role);
    forall a, b
      ensures (a, b) in CutOrder(p, cov) ==> (a, b) in p.Order() || (a, b) == (TRACKER, cov)
      ensures (a, b) in p.Order() + iset{(TRACKER, cov)} && (a, b) != (MERGE, ENSURE) ==> (a, b) in CutOrder(p, cov)
    {
      CutArcs(p, cov, a, b);
    }
    assert (TRACKER, cov) in p.Order() + iset{(TRACKER, cov)};
    forall a, b | (a, b) in p.Order() ensures a !in {cov, COVERAGE_MERGE} && b !in {cov, COVERAGE_MERGE} {
      assert p.Waits(a, b);
    }
  }

  ghost predicate Replaces(p: Pipeline) { exists e :: e in p.edges && e.source == MERGE && e.destination == ENSURE }

  /** With the replaced edge there, old stages keep their ordering and gain only
      what comes from putting the tracker before EnsureMetricsStage; a cycle
      appears exactly when EnsureMetricsStage already led to the tracker. */
  lemma {:induction false} CoverageKeepsOrderIff(p: Pipeline, role: Role, factory: Factory, merger: Factory, a: Node, b: Node)
    requires Unused(p, CoverageStage(role)) && Unused(p, COVERAGE_MERGE) && Replaces(p)
    requires a !in {CoverageStage(role), COVERAGE_MERGE} && b !in {CoverageStage(role), COVERAGE_MERGE}
    ensures Reach(WithCoverage(p, role, factory, merger).Order(), a, b)
            <==> Reach(p.Order(), a, b) || (Leads(p.Order(), a, TRACKER) && Leads(p.Order(), ENSURE, b))
    ensures Acyclic(WithCoverage(p, role, factory, merger).Order())
            <==> Acyclic(p.Order()) && !Reach(p.Order(), ENSURE, TRACKER)
  {
    NamesDiffer(role);
    CoverageOrder(p, role, factory, merger);
    CoverageFits(p, role);
    assert p.Waits(MERGE, ENSURE);
    CoveredKeepsOrderIff(p.Order(), CutOrder(p, CoverageStage(role)), CoverageStage(role), COVERAGE_MERGE, MERGE, ENSURE, TRACKER, a, b);
  }

  function Between(edges: seq<Edge>, source: Node, destination: Node, input: string): nat
    decreases |edges|
  {
    if edges == [] then 0
    else (if edges[0] == Edge(source, destination, input) then 1 else 0) + Between(edges[1..], source, destination, input)
  }

  lemma {:induction false} CutProducers(edges: seq<Edge>, source: Node, target: Node, destination: Node, input: string)
    ensures Producers(Keep(edges, NotBetween(source, target)), destination, input)
            == Producers(edges, destination, input) - if destination == target then Between(edges, source, target, input) else 0
    decreases |edges|
  {
    if edges != [] {
      var rest := Keep(edges[1..], NotBetween(source, target));
      CutProducers(edges[1..], source, target, destination, input);
      if NotBetween(source, target)(edges[0]) {
        assert ([edges[0]] + rest)[1..] == rest;
      } else {
        assert [] + rest == rest;
      }
    }
  }

  /** The check keeps its producers of `candidate` exactly when one edge with that
      input was replaced; any other input it took from the merged metrics is cut
      and not restored; every other old stage keeps its producers. */
  lemma {:induction false} CoverageProducers(p: Pipeline, role: Role, factory: Factory, merger: Factory, destination: Node, input: string)
    requires destination != COVERAGE_MERGE
    ensures Producers(WithCoverage(p, role, factory, merger).edges, destination, input)
            == Producers(p.edges, destination, input)
               - (if destination == ENSURE then Between(p.edges, MERGE, ENSURE, input) else 0)
               + (if destination == ENSURE && input == CANDIDATE then 1 else 0)
  {
    var cov := CoverageStage(role);
    var kept := Keep(p.edges, NotBetween(MERGE, ENSURE));
    var e1, e2, e3 := Edge(MERGE, COVERAGE_MERGE, "first"), Edge(cov, COVERAGE_MERGE, "second"), Edge(COVERAGE_MERGE, ENSURE, CANDIDATE);
    CutProducers(p.edges, MERGE, ENSURE, destination, input);
    ProducersSplit(kept, [e1], destination, input);
    ProducersSplit(kept + [e1], [e2], destination, input);
    ProducersSplit(kept + [e1] + [e2], [e3], destination, input);
    ProducersOfOne(e1, destination, input);
    ProducersOfOne(e2, destination, input);
    ProducersOfOne(e3, destination, input);
  }

  /** What the two rewirings leave, by the stages' names. */
  ghost predicate ParseInserted(before: Pipeline, factory: Factory, after: Pipeline) {
    && after.nodes == before.nodes["ParseMetricsStage" := factory]
    && after.deps == before.deps["ParseMetricsStage" := before.DepsOf("ParseMetricsStage") + [Dep("CallValidatorFunction", Success)]]
    && |after.edges| == |before.edges| + 1
    && after.edges[|before.edges|] == Edge("CallValidatorFunction", "ParseMetricsStage", "raw_validator_output")
    && forall i :: 0 <= i < |before.edges| ==>
         var e := before.edges[i];
         after.edges[i] == if e.source == "CallValidatorFunction" && e.input == "validation_result"
                           then Edge("ParseMetricsStage", e.destination, "validation_result") else e
  }

  lemma {:induction false} RewiredAt(edges: seq<Edge>)
    ensures |Rewired(edges)| == |edges|
    ensures forall i :: 0 <= i < |edges| ==> Rewired(edges)[i] == if Rewires(edges[i]) then Edge(PARSE, edges[i].destination, RESULT) else edges[i]
    decreases |edges|
  {
    if edges != [] {
      RewiredAt(edges[..|edges| - 1]);
    }
  }

  lemma {:induction false} ParseIsInserted(p: Pipeline, factory: Factory)
    ensures ParseInserted(p, factory, WithParse(p, factory))
  {
    RewiredAt(p.edges);
  }

  ghost function CoverageName(role: Role): Node {
    match role
    case Improver => "ComputeDWinsCountStage"
    case Constructor => "ComputeGResistedCountStage"
  }

  ghost predicate CoverageEdges(before: seq<Edge>, cov: Node, after: seq<Edge>) {
    exists kept: seq<Edge> :: Subsequence(kept, before)
      && (forall e: Edge :: multiset(kept)[e] == if e.source == "MergeMetricsStage" && e.destination == "EnsureMetricsStage" then 0
                                           else multiset(before)[e])
      && after == kept + [Edge("MergeMetricsStage", "MergeCoverageMetricsStage", "first")] + [Edge(cov, "MergeCoverageMetricsStage", "second")]
                  + [Edge("MergeCoverageMetricsStage", "EnsureMetricsStage", "candidate")]
  }

  ghost predicate CoverageAdded(before: Pipeline, role: Role, factory: Factory, merger: Factory, after: Pipeline) {
    var cov := CoverageName(role);
    && after.nodes == before.nodes[cov := factory]["MergeCoverageMetricsStage" := merger]
    && after.deps == before.deps[cov := before.DepsOf(cov) + [Dep("DGTrackerStage", Success)]]
    && CoverageEdges(before.edges, cov, after.edges)
  }

  lemma {:induction false} CoverageEdgesAre(edges: seq<Edge>, cov: Node)
    ensures CoverageEdges(edges, cov, Keep(edges, NotBetween(MERGE, ENSURE)) + [Edge(MERGE, COVERAGE_MERGE, "first")]
                                      + [Edge(cov, COVERAGE_MERGE, "second")] + [Edge(COVERAGE_MERGE, ENSURE, CANDIDATE)])
  {
    KeepIs(edges, NotBetween(MERGE, ENSURE));
  }

  lemma {:induction false} CoverageIsAdded(p: Pipeline, role: Role, factory: Factory, merger: Factory)
    ensures CoverageAdded(p, role, factory, merger, WithCoverage(p, role, factory, merger))
  {
    CoverageEdgesAre(p.edges, CoverageName(role));
  }

  // ---------------------------------------------------------------- on the builder

  method InsertParseMetricsStage(builder: PipelineBuilder, factory: Factory) returns (rewired: seq<Node>)
    modifies builder
    ensures builder.Contents() == WithParse(old(builder.Contents()), factory)
    ensures ParseInserted(old(builder.Contents()), factory, builder.Contents())
    ensures old(Unused(builder.Contents(), PARSE)) ==>
              (Acyclic(builder.Contents().Order()) <==> Acyclic(old(builder.Contents()).Order()))
    ensures forall b :: b in rewired <==> Consumes(old(builder.Contents()), b)
  {
    ParseIsInserted(builder.Contents(), factory);
    builder.AddStage(PARSE, factory);
    var edges := builder.dataFlowEdges;
    var newEdges: seq<Edge> := [];
    rewired := [];
    var i := 0;
    while i < |edges|
      invariant 0 <= i <= |edges|
      invariant newEdges == Rewired(edges[..i])
      invariant forall b :: b in rewired <==> Edge(VALIDATOR, b, RESULT) in edges[..i]
      invariant builder.Contents() == WithStage(old(builder.Contents()), PARSE, factory)
    {
      var e := edges[i];
      assert edges[..i + 1] == edges[..i] + [e];
      assert edges[..i + 1][..i] == edges[..i];
      if e.source == VALIDATOR && e.input == RESULT {
        newEdges := newEdges + [Edge(PARSE, e.destination, RESULT)];
        rewired := rewired + [e.destination];
      } else {
        newEdges := newEdges + [e];
      }
      i := i + 1;
    }
    assert edges[..i] == edges;
    builder.dataFlowEdges := newEdges;
    builder.AddDataFlowEdge(VALIDATOR, PARSE, RAW);
    builder.AddExecDep(PARSE, Dep(VALIDATOR, Success));
    ghost var before := old(builder.Contents());
    if Unused(before, PARSE) {
      assert VALIDATOR[0] != PARSE[0];
      ParseKeepsOrder(before, factory, VALIDATOR, VALIDATOR);
    }
  }

  method AddTrackerCoverageStages(builder: PipelineBuilder, role: Role, factory: Factory, merger: Factory)
    modifies builder
    ensures builder.Contents() == WithCoverage(old(builder.Contents()), role, factory, merger)
    ensures CoverageAdded(old(builder.Contents()), role, factory, merger, builder.Contents())
    ensures old(CoverageFitsIn(builder.Contents(), role)) ==>
              (Acyclic(builder.Contents().Order())
               <==> Acyclic(old(builder.Contents()).Order()) && !Reach(old(builder.Contents()).Order(), ENSURE, TRACKER))
    ensures Producers(builder.dataFlowEdges, ENSURE, CANDIDATE)
            == Producers(old(builder.dataFlowEdges), ENSURE, CANDIDATE) - Between(old(builder.dataFlowEdges), MERGE, ENSURE, CANDIDATE) + 1
  {
    ghost var before := builder.Contents();
    CoverageIsAdded(before, role, factory, merger);
    var cov := CoverageStage(role);
    builder.AddStage(cov, factory);
    builder.AddExecDep(cov, Dep(TRACKER, Success));
    builder.AddStage(COVERAGE_MERGE, merger);
    builder.RemoveDataFlowEdge(MERGE, ENSURE);
    builder.AddDataFlowEdge(MERGE, COVERAGE_MERGE, "first");
    builder.AddDataFlowEdge(cov, COVERAGE_MERGE, "second");
    builder.AddDataFlowEdge(COVERAGE_MERGE, ENSURE, CANDIDATE);
    NamesDiffer(role);
    CoverageProducers(before, role, factory, merger, ENSURE, CANDIDATE);
    if CoverageFitsIn(before, role) {
      CoverageKeepsOrderIff(before, role, factory, merger, ENSURE, TRACKER);
    }
  }

  /** The two new stages are new, and the edge they replace is there. */
  ghost predicate CoverageFitsIn(p: Pipeline, role: Role) {
    Unused(p, CoverageStage(role)) && Unused(p, COVERAGE_MERGE) && Replaces(p)
  }
}
