/** Whole-report properties of the validator: how many issues of each kind a
    topology produces, stated against the topology itself rather than against
    the walk that collects them. */
module ValidationProperties {
  import opened Wrappers
  import opened Collections
  import opened NodeTypes
  import opened NodeConfigs
  import opened Topology
  import opened Validation

  // ---------------------------------------------------------------------------
  // Issue selectors

  predicate IsMissingConfig(i: Issue)
  {
    i.kind.MissingConfig?
  }

  predicate IsDanglingEdge(i: Issue)
  {
    i.kind == DanglingEdge
  }

  predicate IsForbiddenConnection(i: Issue)
  {
    i.kind.ForbiddenConnection?
  }

  predicate IsCoverageWarning(i: Issue)
  {
    i.kind.MissingConnections?
  }

  /** Duplicate-id errors naming node `id`. */
  function DuplicateNodeErrors(issues: seq<Issue>, id: string): nat
  {
    CountIf(issues, (i: Issue) => i.kind == DuplicateNodeId && i.nodeId == Some(id))
  }

  /** Duplicate-id errors naming edge `id`. */
  function DuplicateEdgeErrors(issues: seq<Issue>, id: string): nat
  {
    CountIf(issues, (i: Issue) => i.kind == DuplicateEdgeId && i.edgeId == Some(id))
  }

  // ---------------------------------------------------------------------------
  // Counting over the three walks

  /** A count over the report is the sum of the counts over the three walks. */
  lemma CountOverWalks(infra: Infrastructure, p: Issue -> bool)
    ensures var m := NodeMap(infra.nodes);
      CountIf(ValidateInfrastructure(infra).errors, p)
      == CountIf(NodePhase(infra.nodes), p) + CountIf(EdgePhase(infra.edges, m), p)
         + CountIf(CoveragePhase(infra.nodes, infra.edges, m), p)
  {
    var m := NodeMap(infra.nodes);
    var a, b, c := NodePhase(infra.nodes), EdgePhase(infra.edges, m), CoveragePhase(infra.nodes, infra.edges, m);
    CountIfAppend(a + b, c, p);
    CountIfAppend(a, b, p);
  }

  lemma NodePhaseCount(nodes: seq<Node>, p: Issue -> bool, q: Node -> bool)
    requires forall i :: 0 <= i < |nodes| ==> CountIf(NodeStep(nodes, nodes[i]), p) == if q(nodes[i]) then 1 else 0
    ensures CountIf(NodePhase(nodes), p) == CountIf(nodes, q)
  {
    CountIfFlatMap(nodes, (n: Node) => NodeStep(nodes, n), p, q);
  }

  lemma EdgePhaseCount(edges: seq<Edge>, m: map<string, Node>, p: Issue -> bool, q: Edge -> bool)
    requires forall i :: 0 <= i < |edges| ==> CountIf(EdgeStep(edges, m, edges[i]), p) == if q(edges[i]) then 1 else 0
    ensures CountIf(EdgePhase(edges, m), p) == CountIf(edges, q)
  {
    CountIfFlatMap(edges, (e: Edge) => EdgeStep(edges, m, e), p, q);
  }

  lemma CoveragePhaseCount(nodes: seq<Node>, edges: seq<Edge>, m: map<string, Node>, p: Issue -> bool, q: Node -> bool)
    requires forall i :: 0 <= i < |nodes| ==> CountIf(CoverageStep(edges, m, nodes[i]), p) == if q(nodes[i]) then 1 else 0
    ensures CountIf(CoveragePhase(nodes, edges, m), p) == CountIf(nodes, q)
  {
    CountIfFlatMap(nodes, (n: Node) => CoverageStep(edges, m, n), p, q);
  }

  /** A sequence of at most one element is counted by testing that element. */
  lemma CountIfShort(s: seq<Issue>, p: Issue -> bool)
    requires |s| <= 1
    ensures CountIf(s, p) == if |s| == 1 && p(s[0]) then 1 else 0
  {
    if |s| == 1 {
      assert s == [s[0]];
      CountIfSingleton(s[0], p);
    }
  }

  // ---------------------------------------------------------------------------
  // The report, kind by kind

  /** An empty topology is valid and has nothing to report. */
  lemma EmptyTopologyIsClean()
    ensures ValidateInfrastructure(Infrastructure([], [])) == ValidationResult(true, [])
  {
    var r := ValidateInfrastructure(Infrastructure([], []));
    assert NodePhase([]) == [];
    assert EdgePhase([], map[]) == [];
    assert CoveragePhase([], [], map[]) == [];
    assert r.errors == [];
  }

  /** The issues one walk raised. */
  function WalkIssues(infra: Infrastructure, w: Walk): seq<Issue>
  {
    var m := NodeMap(infra.nodes);
    match w
    case NodeWalk => NodePhase(infra.nodes)
    case EdgeWalk => EdgePhase(infra.edges, m)
    case CoverageWalk => CoveragePhase(infra.nodes, infra.edges, m)
  }

  /** Issues of kinds raised by a single walk are counted over that walk alone. */
  lemma CountOverOneWalk(infra: Infrastructure, p: Issue -> bool, w: Walk)
    requires forall i: Issue :: p(i) ==> i.kind.Walk() == w
    ensures CountIf(ValidateInfrastructure(infra).errors, p) == CountIf(WalkIssues(infra, w), p)
  {
    CountOverWalks(infra, p);
    var m := NodeMap(infra.nodes);
    var a, b, c := NodePhase(infra.nodes), EdgePhase(infra.edges, m), CoveragePhase(infra.nodes, infra.edges, m);
    assert w != NodeWalk ==> CountIf(a, p) == 0 by {
      CountIfNone(a, p);
    }
    assert w != EdgeWalk ==> CountIf(b, p) == 0 by {
      CountIfNone(b, p);
    }
    assert w != CoverageWalk ==> CountIf(c, p) == 0 by {
      CountIfNone(c, p);
    }
    match w
    case NodeWalk => assert WalkIssues(infra, w) == a;
    case EdgeWalk => assert WalkIssues(infra, w) == b;
    case CoverageWalk => assert WalkIssues(infra, w) == c;
  }

  lemma NodeStepMissingConfig(nodes: seq<Node>, n: Node)
    ensures CountIf(NodeStep(nodes, n), IsMissingConfig) == if n.config.None? then 1 else 0
  {
    var dup := if NodesWithId(nodes, n.id) > 1 then [NodeIssue(Error, DuplicateNodeId, n.id)] else [];
    CountIfAppend(ConfigIssues(n), dup, IsMissingConfig);
    if n.config.None? {
      CountIfSingleton(NodeIssue(Error, MissingConfig(n.nodeType), n.id), IsMissingConfig);
    }
  }

  /** There is exactly one missing-configuration error per node without a
      configuration. */
  lemma MissingConfigCount(infra: Infrastructure)
    ensures CountIf(ValidateInfrastructure(infra).errors, IsMissingConfig)
            == CountIf(infra.nodes, (n: Node) => n.config.None?)
  {
    var nodes := infra.nodes;
    CountOverOneWalk(infra, IsMissingConfig, NodeWalk);
    forall i | 0 <= i < |nodes|
      ensures CountIf(NodeStep(nodes, nodes[i]), IsMissingConfig) == if nodes[i].config.None? then 1 else 0
    {
      NodeStepMissingConfig(nodes, nodes[i]);
    }
    NodePhaseCount(nodes, IsMissingConfig, (n: Node) => n.config.None?);
  }

  lemma NodeStepMissingConfigFor(nodes: seq<Node>, n: Node, x: string)
    ensures var p := (i: Issue) => i.kind.MissingConfig? && i.nodeId == Some(x);
      CountIf(NodeStep(nodes, n), p) == if n.id == x && n.config.None? then 1 else 0
  {
    var p := (i: Issue) => i.kind.MissingConfig? && i.nodeId == Some(x);
    var dup := if NodesWithId(nodes, n.id) > 1 then [NodeIssue(Error, DuplicateNodeId, n.id)] else [];
    CountIfAppend(ConfigIssues(n), dup, p);
    CountIfShort(dup, p);
    if n.config.None? {
      CountIfSingleton(NodeIssue(Error, MissingConfig(n.nodeType), n.id), p);
    } else {
      CountIfNone(ConfigIssues(n), p);
    }
  }

  /** The missing-configuration errors naming node id `x` are exactly one per
      node carrying `x` that has no configuration: each such error names the
      node it is about. */
  lemma MissingConfigPerNode(infra: Infrastructure, x: string)
    ensures CountIf(ValidateInfrastructure(infra).errors, (i: Issue) => i.kind.MissingConfig? && i.nodeId == Some(x))
            == CountIf(infra.nodes, (n: Node) => n.id == x && n.config.None?)
  {
    var nodes := infra.nodes;
    var p := (i: Issue) => i.kind.MissingConfig? && i.nodeId == Some(x);
    CountOverOneWalk(infra, p, NodeWalk);
    forall i | 0 <= i < |nodes|
      ensures CountIf(NodeStep(nodes, nodes[i]), p) == if nodes[i].id == x && nodes[i].config.None? then 1 else 0
    {
      NodeStepMissingConfigFor(nodes, nodes[i], x);
    }
    NodePhaseCount(nodes, p, (n: Node) => n.id == x && n.config.None?);
  }

  lemma NodeStepDuplicates(nodes: seq<Node>, n: Node, x: string)
    ensures var p := (i: Issue) => i.kind == DuplicateNodeId && i.nodeId == Some(x);
      CountIf(NodeStep(nodes, n), p) == if n.id == x && NodesWithId(nodes, x) > 1 then 1 else 0
  {
    var p := (i: Issue) => i.kind == DuplicateNodeId && i.nodeId == Some(x);
    var dup := if NodesWithId(nodes, n.id) > 1 then [NodeIssue(Error, DuplicateNodeId, n.id)] else [];
    CountIfAppend(ConfigIssues(n), dup, p);
    CountIfNone(ConfigIssues(n), p);
    CountIfShort(dup, p);
  }

  /** A node id carried by k > 1 nodes draws k duplicate-id errors naming it,
      one per node; an id carried once draws none. */
  lemma DuplicateNodeIdCount(infra: Infrastructure, x: string)
    ensures var k := NodesWithId(infra.nodes, x);
      DuplicateNodeErrors(ValidateInfrastructure(infra).errors, x) == if k > 1 then k else 0
  {
    var nodes := infra.nodes;
    var k := NodesWithId(nodes, x);
    var p := (i: Issue) => i.kind == DuplicateNodeId && i.nodeId == Some(x);
    CountOverOneWalk(infra, p, NodeWalk);
    forall i | 0 <= i < |nodes|
      ensures CountIf(NodeStep(nodes, nodes[i]), p) == if nodes[i].id == x && k > 1 then 1 else 0
    {
      NodeStepDuplicates(nodes, nodes[i], x);
    }
    if k > 1 {
      NodePhaseCount(nodes, p, (n: Node) => n.id == x);
    } else {
      NodePhaseCount(nodes, p, (n: Node) => false);
      CountIfNone(nodes, (n: Node) => false);
    }
  }

  lemma EdgeStepDuplicates(edges: seq<Edge>, m: map<string, Node>, e: Edge, x: string)
    ensures var p := (i: Issue) => i.kind == DuplicateEdgeId && i.edgeId == Some(x);
      CountIf(EdgeStep(edges, m, e), p) == if e.id == x && EdgesWithId(edges, x) > 1 then 1 else 0
  {
    var p := (i: Issue) => i.kind == DuplicateEdgeId && i.edgeId == Some(x);
    var dup := if EdgesWithId(edges, e.id) > 1 then [EdgeIssue(DuplicateEdgeId, e.id)] else [];
    CountIfAppend(dup, EndpointCheck(m, e), p);
    CountIfNone(EndpointCheck(m, e), p);
    CountIfShort(dup, p);
  }

  /** An edge id carried by k > 1 edges draws k duplicate-id errors naming it,
      one per edge; an id carried once draws none. */
  lemma DuplicateEdgeIdCount(infra: Infrastructure, x: string)
    ensures var k := EdgesWithId(infra.edges, x);
      DuplicateEdgeErrors(ValidateInfrastructure(infra).errors, x) == if k > 1 then k else 0
  {
    var edges := infra.edges;
    var m := NodeMap(infra.nodes);
    var k := EdgesWithId(edges, x);
    var p := (i: Issue) => i.kind == DuplicateEdgeId && i.edgeId == Some(x);
    CountOverOneWalk(infra, p, EdgeWalk);
    forall i | 0 <= i < |edges|
      ensures CountIf(EdgeStep(edges, m, edges[i]), p) == if edges[i].id == x && k > 1 then 1 else 0
    {
      EdgeStepDuplicates(edges, m, edges[i], x);
    }
    if k > 1 {
      EdgePhaseCount(edges, m, p, (e: Edge) => e.id == x);
    } else {
      EdgePhaseCount(edges, m, p, (e: Edge) => false);
      CountIfNone(edges, (e: Edge) => false);
    }
  }

  /** The endpoint check is the only source of dangling and forbidden errors
      in an edge's issues. */
  lemma EdgeStepEndpointOnly(edges: seq<Edge>, m: map<string, Node>, e: Edge, p: Issue -> bool)
    requires forall i: Issue :: p(i) ==> i.kind.DanglingEdge? || i.kind.ForbiddenConnection?
    ensures CountIf(EdgeStep(edges, m, e), p) == CountIf(EndpointCheck(m, e), p)
  {
    var dup := if EdgesWithId(edges, e.id) > 1 then [EdgeIssue(DuplicateEdgeId, e.id)] else [];
    CountIfAppend(dup, EndpointCheck(m, e), p);
    CountIfShort(dup, p);
  }

  /** Exactly one dangling-reference error per edge with an endpoint that names
      no node. */
  lemma DanglingEdgeCount(infra: Infrastructure)
    ensures var ids := NodeIdSet(infra.nodes);
      CountIf(ValidateInfrastructure(infra).errors, IsDanglingEdge)
      == CountIf(infra.edges, (e: Edge) => e.source !in ids || e.target !in ids)
  {
    var edges := infra.edges;
    var m := NodeMap(infra.nodes);
    var ids := NodeIdSet(infra.nodes);
    NodeMapKeys(infra.nodes);
    CountOverOneWalk(infra, IsDanglingEdge, EdgeWalk);
    forall i | 0 <= i < |edges|
      ensures CountIf(EdgeStep(edges, m, edges[i]), IsDanglingEdge)
              == if edges[i].source !in ids || edges[i].target !in ids then 1 else 0
    {
      EdgeStepEndpointOnly(edges, m, edges[i], IsDanglingEdge);
      CountIfShort(EndpointCheck(m, edges[i]), IsDanglingEdge);
    }
    EdgePhaseCount(edges, m, IsDanglingEdge, (e: Edge) => e.source !in ids || e.target !in ids);
  }

  /** Exactly one forbidden-connection error per edge whose endpoints both
      resolve and whose source role forbids its target role; dangling edges
      never draw one. */
  lemma ForbiddenConnectionCount(infra: Infrastructure)
    ensures var m := NodeMap(infra.nodes);
      CountIf(ValidateInfrastructure(infra).errors, IsForbiddenConnection)
      == CountIf(infra.edges, (e: Edge) => ForbiddenEdge(m, e))
  {
    var edges := infra.edges;
    var m := NodeMap(infra.nodes);
    CountOverOneWalk(infra, IsForbiddenConnection, EdgeWalk);
    forall i | 0 <= i < |edges|
      ensures CountIf(EdgeStep(edges, m, edges[i]), IsForbiddenConnection)
              == if ForbiddenEdge(m, edges[i]) then 1 else 0
    {
      EdgeStepEndpointOnly(edges, m, edges[i], IsForbiddenConnection);
      CountIfShort(EndpointCheck(m, edges[i]), IsForbiddenConnection);
    }
    EdgePhaseCount(edges, m, IsForbiddenConnection, (e: Edge) => ForbiddenEdge(m, e));
  }

  /** The dangling-reference errors naming edge id `x` are exactly one per
      edge carrying `x` with an endpoint that is not a node id. */
  lemma DanglingEdgePerEdge(infra: Infrastructure, x: string)
    ensures var ids := NodeIdSet(infra.nodes);
      CountIf(ValidateInfrastructure(infra).errors, (i: Issue) => i.kind.DanglingEdge? && i.edgeId == Some(x))
      == CountIf(infra.edges, (e: Edge) => e.id == x && (e.source !in ids || e.target !in ids))
  {
    var edges := infra.edges;
    var m := NodeMap(infra.nodes);
    var ids := NodeIdSet(infra.nodes);
    var p := (i: Issue) => i.kind.DanglingEdge? && i.edgeId == Some(x);
    NodeMapKeys(infra.nodes);
    CountOverOneWalk(infra, p, EdgeWalk);
    forall i | 0 <= i < |edges|
      ensures CountIf(EdgeStep(edges, m, edges[i]), p)
              == if edges[i].id == x && (edges[i].source !in ids || edges[i].target !in ids) then 1 else 0
    {
      EdgeStepEndpointOnly(edges, m, edges[i], p);
      CountIfShort(EndpointCheck(m, edges[i]), p);
    }
    EdgePhaseCount(edges, m, p, (e: Edge) => e.id == x && (e.source !in ids || e.target !in ids));
  }

  /** The forbidden-connection errors naming edge id `x` are exactly one per
      edge carrying `x` whose endpoints resolve to a forbidden role pair. */
  lemma ForbiddenConnectionPerEdge(infra: Infrastructure, x: string)
    ensures var m := NodeMap(infra.nodes);
      CountIf(ValidateInfrastructure(infra).errors, (i: Issue) => i.kind.ForbiddenConnection? && i.edgeId == Some(x))
      == CountIf(infra.edges, (e: Edge) => e.id == x && ForbiddenEdge(m, e))
  {
    var edges := infra.edges;
    var m := NodeMap(infra.nodes);
    var p := (i: Issue) => i.kind.ForbiddenConnection? && i.edgeId == Some(x);
    CountOverOneWalk(infra, p, EdgeWalk);
    forall i | 0 <= i < |edges|
      ensures CountIf(EdgeStep(edges, m, edges[i]), p) == if edges[i].id == x && ForbiddenEdge(m, edges[i]) then 1 else 0
    {
      EdgeStepEndpointOnly(edges, m, edges[i], p);
      CountIfShort(EndpointCheck(m, edges[i]), p);
    }
    EdgePhaseCount(edges, m, p, (e: Edge) => e.id == x && ForbiddenEdge(m, e));
  }

  lemma CoverageStepWarning(edges: seq<Edge>, m: map<string, Node>, n: Node)
    ensures CountIf(CoverageStep(edges, m, n), IsCoverageWarning) == if Uncovered(edges, m, n) then 1 else 0
  {
    CountIfShort(CoverageStep(edges, m, n), IsCoverageWarning);
  }

  /** The coverage walk warns once per node that misses a required peer role. */
  lemma CoveragePhaseWarnings(nodes: seq<Node>, edges: seq<Edge>, m: map<string, Node>)
    ensures CountIf(CoveragePhase(nodes, edges, m), IsCoverageWarning)
            == CountIf(nodes, (n: Node) => Uncovered(edges, m, n))
  {
    forall i | 0 <= i < |nodes|
      ensures CountIf(CoverageStep(edges, m, nodes[i]), IsCoverageWarning)
              == if Uncovered(edges, m, nodes[i]) then 1 else 0
    {
      CoverageStepWarning(edges, m, nodes[i]);
    }
    CoveragePhaseCount(nodes, edges, m, IsCoverageWarning, (n: Node) => Uncovered(edges, m, n));
  }

  /** Exactly one coverage warning per node that misses a required peer role,
      so never more than one per node. */
  lemma CoverageWarningCount(infra: Infrastructure)
    ensures var m := NodeMap(infra.nodes);
      CountIf(ValidateInfrastructure(infra).errors, IsCoverageWarning)
      == CountIf(infra.nodes, (n: Node) => Uncovered(infra.edges, m, n))
  {
    var m := NodeMap(infra.nodes);
    CountOverOneWalk(infra, IsCoverageWarning, CoverageWalk);
    assert WalkIssues(infra, CoverageWalk) == CoveragePhase(infra.nodes, infra.edges, m);
    CoveragePhaseWarnings(infra.nodes, infra.edges, m);
  }

  lemma CoverageStepWarningFor(edges: seq<Edge>, m: map<string, Node>, n: Node, x: string)
    ensures var p := (i: Issue) => i.kind.MissingConnections? && i.nodeId == Some(x);
      CountIf(CoverageStep(edges, m, n), p) == if n.id == x && Uncovered(edges, m, n) then 1 else 0
  {
    var p := (i: Issue) => i.kind.MissingConnections? && i.nodeId == Some(x);
    CountIfShort(CoverageStep(edges, m, n), p);
  }

  lemma CoveragePhaseWarningsFor(nodes: seq<Node>, edges: seq<Edge>, m: map<string, Node>, x: string)
    ensures CountIf(CoveragePhase(nodes, edges, m), (i: Issue) => i.kind.MissingConnections? && i.nodeId == Some(x))
            == CountIf(nodes, (n: Node) => n.id == x && Uncovered(edges, m, n))
  {
    var p := (i: Issue) => i.kind.MissingConnections? && i.nodeId == Some(x);
    forall i | 0 <= i < |nodes|
      ensures CountIf(CoverageStep(edges, m, nodes[i]), p) == if nodes[i].id == x && Uncovered(edges, m, nodes[i]) then 1 else 0
    {
      CoverageStepWarningFor(edges, m, nodes[i], x);
    }
    CoveragePhaseCount(nodes, edges, m, p, (n: Node) => n.id == x && Uncovered(edges, m, n));
  }

  /** The coverage warnings naming node id `x` are exactly one per node
      carrying `x` that misses a required peer role. */
  lemma CoverageWarningPerNode(infra: Infrastructure, x: string)
    ensures var m := NodeMap(infra.nodes);
      CountIf(ValidateInfrastructure(infra).errors, (i: Issue) => i.kind.MissingConnections? && i.nodeId == Some(x))
      == CountIf(infra.nodes, (n: Node) => n.id == x && Uncovered(infra.edges, m, n))
  {
    var m := NodeMap(infra.nodes);
    CountOverOneWalk(infra, (i: Issue) => i.kind.MissingConnections? && i.nodeId == Some(x), CoverageWalk);
    assert WalkIssues(infra, CoverageWalk) == CoveragePhase(infra.nodes, infra.edges, m);
    CoveragePhaseWarningsFor(infra.nodes, infra.edges, m, x);
  }

  /** A node with no outbound edge is connected to no role. */
  lemma {:induction false} SilentNodeConnectsNothing(edges: seq<Edge>, m: map<string, Node>, id: string)
    requires forall j :: 0 <= j < |edges| ==> edges[j].source != id
    ensures ConnectedTypes(edges, m, id) == []
  {
    if |edges| > 0 {
      SilentNodeConnectsNothing(edges[..|edges| - 1], m, id);
    }
  }

  /** An app server with no outbound edge draws one warning naming both the
      database and the cache role, in table order. */
  lemma LonelyAppServerWarning(edges: seq<Edge>, m: map<string, Node>, n: Node)
    requires n.nodeType == AppServer
    requires forall j :: 0 <= j < |edges| ==> edges[j].source != n.id
    ensures CoverageStep(edges, m, n) == [Issue(Warning, MissingConnections(AppServer, [Database, Cache]), Some(n.id), None)]
  {
    var required := RequiredPeers(AppServer);
    SilentNodeConnectsNothing(edges, m, n.id);
    assert MissingTypes(required, []) == required by {
      assert forall k :: 0 <= k < |required| ==> required[k] !in [];
    }
  }

  /** A node carrying the default configuration of its own role draws no
      configuration issue. */
  lemma DefaultConfigIsClean(n: Node)
    requires n.config == Some(DefaultConfig(n.nodeType))
    ensures ConfigIssues(n) == []
  {
  }
}
