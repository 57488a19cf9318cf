/** Properties of the compose compiler as a whole: one service per node when
    ids are unique, which dependency entries resolve to services, and which
    parts of the topology the output depends on. */
module ComposeProperties {
  import opened Wrappers
  import opened Collections
  import opened NodeTypes
  import opened Topology
  import opened DockerCompose

  /** No two nodes share an id. */
  predicate DistinctNodeIds(nodes: seq<Node>)
  {
    forall i, j :: 0 <= i < j < |nodes| ==> nodes[i].id != nodes[j].id
  }

  /** With unique node ids no two nodes share a service name. */
  lemma DistinctServiceNames(nodes: seq<Node>)
    requires DistinctNodeIds(nodes)
    ensures forall i, j :: 0 <= i < j < |nodes| ==>
      ServiceName(nodes[i].nodeType, nodes[i].id) != ServiceName(nodes[j].nodeType, nodes[j].id)
  {
    forall i, j | 0 <= i < j < |nodes|
      ensures ServiceName(nodes[i].nodeType, nodes[i].id) != ServiceName(nodes[j].nodeType, nodes[j].id)
    {
      if ServiceName(nodes[i].nodeType, nodes[i].id) == ServiceName(nodes[j].nodeType, nodes[j].id) {
        ServiceNameInjective(nodes[i].nodeType, nodes[i].id, nodes[j].nodeType, nodes[j].id);
      }
    }
  }

  /** The descriptor has exactly one service per node when node ids are unique. */
  lemma ServicePerNode(infra: Infrastructure)
    requires DistinctNodeIds(infra.nodes)
    ensures |GenerateDockerCompose(infra).services| == |infra.nodes|
  {
    DistinctServiceNames(infra.nodes);
    MapFoldSize(infra.nodes, (n: Node) => ServiceName(n.nodeType, n.id), (n: Node) => Service(infra, n.nodeType, n.id));
  }

  /** No service is called `undefined-<anything>`: every role name starts
      with a letter other than `u`. */
  lemma UndefinedIsNoServiceName(nodes: seq<Node>, target: string)
    ensures forall i :: 0 <= i < |nodes| ==> ServiceName(nodes[i].nodeType, nodes[i].id) != "undefined-" + target
  {
    NodeTypesClosed();
    forall i | 0 <= i < |nodes|
      ensures ServiceName(nodes[i].nodeType, nodes[i].id) != "undefined-" + target
    {
      assert ServiceName(nodes[i].nodeType, nodes[i].id)[0] == TypeName(nodes[i].nodeType)[0];
    }
  }

  /** A dependency entry names a service of the descriptor exactly when its
      edge target is the id of some node; a dangling target yields
      `undefined-<target>`, which no service is called. */
  lemma DependencyResolves(infra: Infrastructure, target: string)
    ensures DependencyName(infra.nodes, target) in GenerateDockerCompose(infra).services
            <==> target in NodeIdSet(infra.nodes)
  {
    var nodes := infra.nodes;
    match FindNode(nodes, target)
    case Some(n) =>
      var i :| 0 <= i < |nodes| && nodes[i] == n && n.id == target;
      assert ServiceName(nodes[i].nodeType, nodes[i].id) in GenerateDockerCompose(infra).services;
    case None =>
      UndefinedIsNoServiceName(nodes, target);
  }

  /** The service of a load balancer depends on one entry per outbound edge,
      in edge order, and an entry resolves to a service of the descriptor
      exactly when its edge's target is a node. */
  lemma LoadBalancerDependencies(infra: Infrastructure, i: nat)
    requires i < |infra.nodes| && infra.nodes[i].nodeType == LoadBalancer
    ensures var n := infra.nodes[i];
      var c := GenerateDockerCompose(infra);
      var targets := OutboundTargets(infra.edges, n.id);
      var s := c.services[ServiceName(LoadBalancer, n.id)];
      && s.dependsOn.Some?
      && |s.dependsOn.value| == CountIf(infra.edges, (e: Edge) => e.source == n.id)
      && forall k :: 0 <= k < |targets| ==>
           s.dependsOn.value[k] == DependencyName(infra.nodes, targets[k])
           && (s.dependsOn.value[k] in c.services <==> targets[k] in NodeIdSet(infra.nodes))
  {
    var n := infra.nodes[i];
    var targets := OutboundTargets(infra.edges, n.id);
    CompiledServices(infra);
    assert n in infra.nodes;
    forall k | 0 <= k < |targets| {
      DependencyResolves(infra, targets[k]);
    }
  }

  /** Data-store services do not depend on the node's id nor on any edge. */
  lemma DataStoreServiceIsFixed(a: Infrastructure, b: Infrastructure, t: NodeType, id1: string, id2: string)
    requires t == Database || t == Cache || t == MessageQueue
    ensures Service(a, t, id1) == Service(b, t, id2)
  {
  }

  // ---------------------------------------------------------------------------
  // The compiler reads only node ids, node roles and edge endpoints.

  /** Two topologies agreeing on node ids and roles, and on edge endpoints,
      position by position. Positions, payloads, configurations and edge ids
      may differ. */
  predicate SameShape(a: Infrastructure, b: Infrastructure)
  {
    && |a.nodes| == |b.nodes|
    && |a.edges| == |b.edges|
    && (forall i :: 0 <= i < |a.nodes| ==> a.nodes[i].id == b.nodes[i].id && a.nodes[i].nodeType == b.nodes[i].nodeType)
    && (forall j :: 0 <= j < |a.edges| ==> a.edges[j].source == b.edges[j].source && a.edges[j].target == b.edges[j].target)
  }

  lemma {:induction false} FindNodeShape(a: seq<Node>, b: seq<Node>, id: string)
    requires |a| == |b|
    requires forall i :: 0 <= i < |a| ==> a[i].id == b[i].id && a[i].nodeType == b[i].nodeType
    ensures FindNode(a, id).Some? == FindNode(b, id).Some?
    ensures FindNode(a, id).Some? ==> FindNode(a, id).value.nodeType == FindNode(b, id).value.nodeType
  {
    if |a| > 0 && a[0].id != id {
      FindNodeShape(a[1..], b[1..], id);
    }
  }

  lemma {:induction false} OutboundTargetsShape(a: seq<Edge>, b: seq<Edge>, id: string)
    requires |a| == |b|
    requires forall j :: 0 <= j < |a| ==> a[j].source == b[j].source && a[j].target == b[j].target
    ensures OutboundTargets(a, id) == OutboundTargets(b, id)
  {
    if |a| > 0 {
      OutboundTargetsShape(a[..|a| - 1], b[..|b| - 1], id);
    }
  }

  lemma ServiceShape(a: Infrastructure, b: Infrastructure, t: NodeType, id: string)
    requires SameShape(a, b)
    ensures Service(a, t, id) == Service(b, t, id)
  {
    var targets := OutboundTargets(a.edges, id);
    OutboundTargetsShape(a.edges, b.edges, id);
    forall k | 0 <= k < |targets|
      ensures DependencyName(a.nodes, targets[k]) == DependencyName(b.nodes, targets[k])
    {
      FindNodeShape(a.nodes, b.nodes, targets[k]);
    }
    assert DependsOn(a, id) == DependsOn(b, id);
  }

  /** The descriptor depends on nothing but node ids, node roles and edge
      endpoints: configurations, positions, payloads and edge ids are ignored. */
  lemma CompileReadsOnlyShape(a: Infrastructure, b: Infrastructure)
    requires SameShape(a, b)
    ensures GenerateDockerCompose(a) == GenerateDockerCompose(b)
  {
    forall i | 0 <= i < |a.nodes|
      ensures Service(a, a.nodes[i].nodeType, a.nodes[i].id) == Service(b, b.nodes[i].nodeType, b.nodes[i].id)
    {
      ServiceShape(a, b, a.nodes[i].nodeType, a.nodes[i].id);
    }
    MapFoldCongruent(a.nodes, b.nodes,
      (n: Node) => ServiceName(n.nodeType, n.id), (n: Node) => Service(a, n.nodeType, n.id),
      (n: Node) => ServiceName(n.nodeType, n.id), (n: Node) => Service(b, n.nodeType, n.id));
  }
}
