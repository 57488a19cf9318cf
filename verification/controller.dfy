/** The request handler that ties the validator to the compiler: a topology
    with any error is rejected with the full report, and any other topology is
    compiled and returned together with its report (warnings included). The
    HTTP layer, status codes and message texts are not modelled. */
module Controller {
  import opened Wrappers
  import opened Collections
  import opened NodeTypes
  import opened NodeConfigs
  import opened Topology
  import opened Validation
  import opened DockerCompose
  import opened ComposeProperties

  datatype ApplyResponse =
    | Rejected(errors: seq<Issue>)
    | Accepted(compose: ComposeFile, validation: ValidationResult)

  /** Validates, and compiles only what validates. A rejection carries the
      whole report; an acceptance carries the descriptor and the report. */
  function ApplyInfrastructure(infra: Infrastructure): (r: ApplyResponse)
    ensures r.Rejected? ==> r.errors == ValidateInfrastructure(infra).errors
    ensures r.Accepted? ==> r.compose == GenerateDockerCompose(infra) && r.validation == ValidateInfrastructure(infra)
  {
    var v := ValidateInfrastructure(infra);
    if !v.isValid then Rejected(v.errors) else Accepted(GenerateDockerCompose(infra), v)
  }

  /** A topology is rejected exactly when its report holds an error, and an
      accepted report holds warnings only. */
  lemma RejectedIffError(infra: Infrastructure)
    ensures var v := ValidateInfrastructure(infra);
      && (ApplyInfrastructure(infra).Rejected? <==> exists k :: 0 <= k < |v.errors| && v.errors[k].severity == Error)
      && (ApplyInfrastructure(infra).Accepted? ==> forall k :: 0 <= k < |v.errors| ==> v.errors[k].severity == Warning)
  {
    ValidIffOnlyWarnings(infra);
  }

  // ---------------------------------------------------------------------------
  // What an accepted topology looks like, stated without the issue list

  /** A node passes: it has a configuration with no blocking defect, and no
      other node shares its id. */
  predicate NodeAcceptable(nodes: seq<Node>, n: Node)
  {
    n.config.Some? && !BlockingDefect(n.nodeType, n.config.value) && NodesWithId(nodes, n.id) <= 1
  }

  /** An edge passes: no other edge shares its id, both endpoints are node ids,
      and the roles they resolve to are not a forbidden pair. */
  predicate EdgeAcceptable(infra: Infrastructure, e: Edge)
  {
    && EdgesWithId(infra.edges, e.id) <= 1
    && e.source in NodeIdSet(infra.nodes) && e.target in NodeIdSet(infra.nodes)
    && !ForbiddenEdge(NodeMap(infra.nodes), e)
  }

  predicate Acceptable(infra: Infrastructure)
  {
    && (forall i :: 0 <= i < |infra.nodes| ==> NodeAcceptable(infra.nodes, infra.nodes[i]))
    && (forall j :: 0 <= j < |infra.edges| ==> EdgeAcceptable(infra, infra.edges[j]))
  }

  /** A node's issues hold no error exactly when the node passes. */
  lemma NodeStepClean(nodes: seq<Node>, n: Node)
    ensures CountIf(NodeStep(nodes, n), IsError) == 0 <==> NodeAcceptable(nodes, n)
  {
    var c := ConfigIssues(n);
    var d := if NodesWithId(nodes, n.id) > 1 then [NodeIssue(Error, DuplicateNodeId, n.id)] else [];
    CountIfAppend(c, d, IsError);
    if n.config.Some? && !BlockingDefect(n.nodeType, n.config.value) && |c| == 1 {
      assert c[|c| - 1] == c[0];
    }
  }

  /** An edge's issues hold no error exactly when the edge passes its id and
      endpoint checks. */
  lemma EdgeStepClean(edges: seq<Edge>, m: map<string, Node>, e: Edge)
    ensures CountIf(EdgeStep(edges, m, e), IsError) == 0
            <==> EdgesWithId(edges, e.id) <= 1 && !Dangles(m, e) && !ForbiddenEdge(m, e)
  {
    var d := if EdgesWithId(edges, e.id) > 1 then [EdgeIssue(DuplicateEdgeId, e.id)] else [];
    CountIfAppend(d, EndpointCheck(m, e), IsError);
  }

  /** The report has no error exactly when the node walk and the edge walk
      raised none: the coverage walk raises only warnings. */
  lemma ValidIffWalksClean(infra: Infrastructure)
    ensures var m := NodeMap(infra.nodes);
      ValidateInfrastructure(infra).isValid
      <==> CountIf(NodePhase(infra.nodes), IsError) == 0 && CountIf(EdgePhase(infra.edges, m), IsError) == 0
  {
    var m := NodeMap(infra.nodes);
    var a, b, c := NodePhase(infra.nodes), EdgePhase(infra.edges, m), CoveragePhase(infra.nodes, infra.edges, m);
    CountIfAppend(a + b, c, IsError);
    CountIfAppend(a, b, IsError);
    CountIfNone(c, IsError);
  }

  /** The node walk raises no error exactly when every node passes. */
  lemma NodePhaseClean(nodes: seq<Node>)
    ensures CountIf(NodePhase(nodes), IsError) == 0
            <==> forall i :: 0 <= i < |nodes| ==> NodeAcceptable(nodes, nodes[i])
  {
    CountIfFlatMapZero(nodes, (n: Node) => NodeStep(nodes, n), IsError);
    forall i | 0 <= i < |nodes|
      ensures CountIf(NodeStep(nodes, nodes[i]), IsError) == 0 <==> NodeAcceptable(nodes, nodes[i])
    {
      NodeStepClean(nodes, nodes[i]);
    }
  }

  /** The edge walk raises no error exactly when every edge passes. */
  lemma EdgePhaseClean(infra: Infrastructure)
    ensures CountIf(EdgePhase(infra.edges, NodeMap(infra.nodes)), IsError) == 0
            <==> forall j :: 0 <= j < |infra.edges| ==> EdgeAcceptable(infra, infra.edges[j])
  {
    var edges := infra.edges;
    var m := NodeMap(infra.nodes);
    CountIfFlatMapZero(edges, (e: Edge) => EdgeStep(edges, m, e), IsError);
    NodeMapKeys(infra.nodes);
    forall j | 0 <= j < |edges|
      ensures CountIf(EdgeStep(edges, m, edges[j]), IsError) == 0 <==> EdgeAcceptable(infra, edges[j])
    {
      EdgeStepClean(edges, m, edges[j]);
    }
  }

  /** The report of a topology has no error exactly when every node and every
      edge passes. */
  lemma ValidIffAcceptable(infra: Infrastructure)
    ensures ValidateInfrastructure(infra).isValid <==> Acceptable(infra)
  {
    ValidIffWalksClean(infra);
    NodePhaseClean(infra.nodes);
    EdgePhaseClean(infra);
  }

  /** In an acceptable topology node ids are unique. */
  lemma AcceptableIdsDistinct(infra: Infrastructure)
    requires Acceptable(infra)
    ensures DistinctNodeIds(infra.nodes)
  {
    var nodes := infra.nodes;
    forall i, j | 0 <= i < j < |nodes|
      ensures nodes[i].id != nodes[j].id
    {
      if nodes[i].id == nodes[j].id {
        var x := nodes[i].id;
        CountIfTwo(nodes, (n: Node) => n.id == x, i, j);
        assert false;
      }
    }
  }

  /** In an acceptable topology every outbound edge of a node ends at a node. */
  lemma AcceptableTargetsResolve(infra: Infrastructure, id: string)
    requires Acceptable(infra)
    ensures forall t :: t in OutboundTargets(infra.edges, id) ==> t in NodeIdSet(infra.nodes)
  {
    forall t | t in OutboundTargets(infra.edges, id)
      ensures t in NodeIdSet(infra.nodes)
    {
      var j :| 0 <= j < |infra.edges| && infra.edges[j].source == id && infra.edges[j].target == t;
      assert EdgeAcceptable(infra, infra.edges[j]);
    }
  }

  /** When every outbound edge of a node ends at a node, every entry of its
      dependency list names a service of the descriptor. */
  lemma DependsOnResolves(infra: Infrastructure, id: string)
    requires forall t :: t in OutboundTargets(infra.edges, id) ==> t in NodeIdSet(infra.nodes)
    ensures forall d :: d in DependsOn(infra, id) ==> d in GenerateDockerCompose(infra).services
  {
    var targets := OutboundTargets(infra.edges, id);
    var deps := DependsOn(infra, id);
    forall d | d in deps
      ensures d in GenerateDockerCompose(infra).services
    {
      var k :| 0 <= k < |deps| && deps[k] == d;
      assert targets[k] in targets;
      DependencyResolves(infra, targets[k]);
    }
  }

  /** In an acceptable topology every dependency of a load balancer names a
      service of the descriptor. */
  lemma AcceptableDependenciesResolve(infra: Infrastructure, i: nat)
    requires Acceptable(infra)
    requires i < |infra.nodes| && infra.nodes[i].nodeType == LoadBalancer
    ensures var services := GenerateDockerCompose(infra).services;
      var deps := services[ServiceName(LoadBalancer, infra.nodes[i].id)].dependsOn;
      deps.Some? && forall d :: d in deps.value ==> d in services
  {
    var id := infra.nodes[i].id;
    var services := GenerateDockerCompose(infra).services;
    CompiledServices(infra);
    assert infra.nodes[i] in infra.nodes;
    assert services[ServiceName(LoadBalancer, id)] == Service(infra, LoadBalancer, id);
    AcceptableTargetsResolve(infra, id);
    DependsOnResolves(infra, id);
  }

  /** An accepted descriptor has exactly one service per node. */
  lemma AcceptedServicePerNode(infra: Infrastructure)
    requires ApplyInfrastructure(infra).Accepted?
    ensures |ApplyInfrastructure(infra).compose.services| == |infra.nodes|
  {
    ValidIffAcceptable(infra);
    AcceptableIdsDistinct(infra);
    ServicePerNode(infra);
  }

  /** In an accepted descriptor every dependency of every load balancer names
      one of its services. */
  lemma AcceptedDescriptorIsClosed(infra: Infrastructure)
    requires ApplyInfrastructure(infra).Accepted?
    ensures var services := ApplyInfrastructure(infra).compose.services;
      forall i :: 0 <= i < |infra.nodes| && infra.nodes[i].nodeType == LoadBalancer ==>
        var deps := services[ServiceName(LoadBalancer, infra.nodes[i].id)].dependsOn;
        deps.Some? && forall d :: d in deps.value ==> d in services
  {
    ValidIffAcceptable(infra);
    forall i | 0 <= i < |infra.nodes| && infra.nodes[i].nodeType == LoadBalancer {
      AcceptableDependenciesResolve(infra, i);
    }
  }
}
