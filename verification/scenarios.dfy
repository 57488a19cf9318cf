/** Two concrete topologies worked through the validator, the compiler and the
    handler: the placeholder topology the topology endpoint serves, and a
    minimal two-tier topology. */
module Scenarios {
  import opened Wrappers
  import opened Collections
  import opened NodeTypes
  import opened NodeConfigs
  import opened Topology
  import opened Validation
  import opened ValidationProperties
  import opened DockerCompose
  import opened Controller

  // ---------------------------------------------------------------------------
  // The placeholder topology: a load balancer fanning out to two app servers,
  // none of them configured.

  const StubBalancer: Node := Node("1", LoadBalancer, Position(250.0, 0.0), None, None)
  const StubServerA: Node := Node("2", AppServer, Position(100.0, 100.0), None, None)
  const StubServerB: Node := Node("3", AppServer, Position(400.0, 100.0), None, None)
  const StubEdges: seq<Edge> := [Edge("e1-2", "1", "2", None), Edge("e1-3", "1", "3", None)]
  const Stub: Infrastructure := Infrastructure([StubBalancer, StubServerA, StubServerB], StubEdges)

  lemma StubNodeMap()
    ensures NodeMap(Stub.nodes) == map["1" := StubBalancer, "2" := StubServerA, "3" := StubServerB]
  {
    var nodes := Stub.nodes;
    assert nodes[..2][..1] == [StubBalancer];
    assert nodes[..2] == [StubBalancer, StubServerA];
    assert NodeMap([StubBalancer]) == map["1" := StubBalancer];
  }

  /** Node ids in the placeholder topology are unique. */
  lemma StubIdsUnique(x: string)
    requires x == "1" || x == "2" || x == "3"
    ensures NodesWithId(Stub.nodes, x) == 1
  {
    CountIfTriple(StubBalancer, StubServerA, StubServerB, (n: Node) => n.id == x);
  }

  lemma StubNodeStep(n: Node)
    requires n == StubBalancer || n == StubServerA || n == StubServerB
    ensures NodeStep(Stub.nodes, n) == [NodeIssue(Error, MissingConfig(n.nodeType), n.id)]
  {
    StubIdsUnique(n.id);
  }

  lemma StubNodeWalk()
    ensures NodePhase(Stub.nodes) == [
      NodeIssue(Error, MissingConfig(LoadBalancer), "1"),
      NodeIssue(Error, MissingConfig(AppServer), "2"),
      NodeIssue(Error, MissingConfig(AppServer), "3")]
  {
    StubNodeStep(StubBalancer);
    StubNodeStep(StubServerA);
    StubNodeStep(StubServerB);
    FlatMapTriple(StubBalancer, StubServerA, StubServerB, (n: Node) => NodeStep(Stub.nodes, n));
  }

  lemma StubEdgeStep(e: Edge)
    requires e == Stub.edges[0] || e == Stub.edges[1]
    ensures EdgeStep(Stub.edges, NodeMap(Stub.nodes), e) == []
  {
    assert EdgesWithId(Stub.edges, e.id) == 1 by {
      CountIfPair(Stub.edges[0], Stub.edges[1], (x: Edge) => x.id == e.id);
    }
    assert EndpointCheck(NodeMap(Stub.nodes), e) == [] by {
      StubNodeMap();
      AllowedConnections(LoadBalancer, AppServer);
    }
  }

  lemma StubEdgeWalk()
    ensures EdgePhase(Stub.edges, NodeMap(Stub.nodes)) == []
  {
    var m := NodeMap(Stub.nodes);
    StubEdgeStep(Stub.edges[0]);
    StubEdgeStep(Stub.edges[1]);
    FlatMapPair(Stub.edges[0], Stub.edges[1], (e: Edge) => EdgeStep(Stub.edges, m, e));
  }

  /** The load balancer reaches two app servers, which covers its one
      required role. */
  lemma StubBalancerCovered()
    ensures CoverageStep(Stub.edges, NodeMap(Stub.nodes), StubBalancer) == []
  {
    var edges, m := Stub.edges, NodeMap(Stub.nodes);
    assert ConnectedTypes(edges, m, "1") == [AppServer, AppServer] by {
      StubNodeMap();
      assert edges[..1] == [edges[0]];
      assert ConnectedTypes([], m, "1") == [];
      assert ConnectedTypes(edges[..1], m, "1") == [AppServer];
    }
    assert MissingTypes([AppServer], [AppServer, AppServer]) == [] by {
      assert [AppServer][..0] == [];
    }
  }

  /** Neither app server has an outbound edge, so each misses both data stores. */
  lemma StubServersUncovered()
    ensures CoverageStep(Stub.edges, NodeMap(Stub.nodes), StubServerA)
            == [NodeIssue(Warning, MissingConnections(AppServer, [Database, Cache]), "2")]
    ensures CoverageStep(Stub.edges, NodeMap(Stub.nodes), StubServerB)
            == [NodeIssue(Warning, MissingConnections(AppServer, [Database, Cache]), "3")]
  {
    LonelyAppServerWarning(Stub.edges, NodeMap(Stub.nodes), StubServerA);
    LonelyAppServerWarning(Stub.edges, NodeMap(Stub.nodes), StubServerB);
  }

  /** The coverage walk over three nodes joins their three coverage steps. */
  lemma CoveragePhaseTriple(edges: seq<Edge>, m: map<string, Node>, a: Node, b: Node, c: Node)
    ensures CoveragePhase([a, b, c], edges, m)
            == CoverageStep(edges, m, a) + CoverageStep(edges, m, b) + CoverageStep(edges, m, c)
  {
    FlatMapTriple(a, b, c, (n: Node) => CoverageStep(edges, m, n));
  }

  lemma StubCoverageWalk()
    ensures CoveragePhase(Stub.nodes, Stub.edges, NodeMap(Stub.nodes)) == [
      NodeIssue(Warning, MissingConnections(AppServer, [Database, Cache]), "2"),
      NodeIssue(Warning, MissingConnections(AppServer, [Database, Cache]), "3")]
  {
    var w2 := NodeIssue(Warning, MissingConnections(AppServer, [Database, Cache]), "2");
    var w3 := NodeIssue(Warning, MissingConnections(AppServer, [Database, Cache]), "3");
    StubBalancerCovered();
    StubServersUncovered();
    CoveragePhaseTriple(Stub.edges, NodeMap(Stub.nodes), StubBalancer, StubServerA, StubServerB);
    assert [] + [w2] + [w3] == [w2, w3];
  }

  /** The three walks over the placeholder topology, joined in order. */
  lemma StubIssues()
    ensures var m := NodeMap(Stub.nodes);
      NodePhase(Stub.nodes) + EdgePhase(Stub.edges, m) + CoveragePhase(Stub.nodes, Stub.edges, m) == [
        NodeIssue(Error, MissingConfig(LoadBalancer), "1"),
        NodeIssue(Error, MissingConfig(AppServer), "2"),
        NodeIssue(Error, MissingConfig(AppServer), "3"),
        NodeIssue(Warning, MissingConnections(AppServer, [Database, Cache]), "2"),
        NodeIssue(Warning, MissingConnections(AppServer, [Database, Cache]), "3")]
  {
    var m := NodeMap(Stub.nodes);
    StubNodeWalk();
    StubEdgeWalk();
    StubCoverageWalk();
    var np, ep, cp := NodePhase(Stub.nodes), EdgePhase(Stub.edges, m), CoveragePhase(Stub.nodes, Stub.edges, m);
    assert np + ep + cp == np + cp;
  }

  /** The placeholder topology draws one missing-configuration error per node,
      then one coverage warning per app server (neither reaches a database or
      a cache); the load balancer is covered by its two edges. It is rejected. */
  lemma StubTopologyIsRejected()
    ensures ValidateInfrastructure(Stub) == ValidationResult(false, [
      NodeIssue(Error, MissingConfig(LoadBalancer), "1"),
      NodeIssue(Error, MissingConfig(AppServer), "2"),
      NodeIssue(Error, MissingConfig(AppServer), "3"),
      NodeIssue(Warning, MissingConnections(AppServer, [Database, Cache]), "2"),
      NodeIssue(Warning, MissingConnections(AppServer, [Database, Cache]), "3")])
    ensures ApplyInfrastructure(Stub).Rejected?
  {
    StubIssues();
    var issues := ValidateInfrastructure(Stub).errors;
    assert CountIf(issues, IsError) != 0 by {
      assert IsError(issues[0]);
      CountIfNone(issues, IsError);
    }
  }

  // ---------------------------------------------------------------------------
  // A minimal two-tier topology: a configured load balancer in front of one
  // configured app server.

  const Balancer: Node :=
    Node("1", LoadBalancer, Position(0.0, 0.0), None, Some(LoadBalancerConfig(BaseConfig(Some(8080), None, None, None))))
  const Server: Node :=
    Node("2", AppServer, Position(0.0, 100.0), None, Some(AppServerConfig(BaseConfig(Some(3000), None, Some("512M"), None))))
  const Link: Edge := Edge("e1-2", "1", "2", None)
  const TwoTier: Infrastructure := Infrastructure([Balancer, Server], [Link])

  /** The app server's single warning: it reaches neither a database nor a cache. */
  const ServerWarning: Issue := NodeIssue(Warning, MissingConnections(AppServer, [Database, Cache]), "2")

  lemma TwoTierNodeMap()
    ensures NodeMap(TwoTier.nodes) == map["1" := Balancer, "2" := Server]
  {
    assert TwoTier.nodes[..1] == [Balancer];
    assert NodeMap([Balancer]) == map["1" := Balancer];
  }

  lemma TwoTierNodeStep(n: Node)
    requires n == Balancer || n == Server
    ensures NodeStep(TwoTier.nodes, n) == []
  {
    assert NodesWithId(TwoTier.nodes, n.id) == 1 by {
      CountIfPair(Balancer, Server, (x: Node) => x.id == n.id);
    }
  }

  lemma TwoTierNodeWalk()
    ensures NodePhase(TwoTier.nodes) == []
  {
    TwoTierNodeStep(Balancer);
    TwoTierNodeStep(Server);
    FlatMapPair(Balancer, Server, (n: Node) => NodeStep(TwoTier.nodes, n));
  }

  lemma TwoTierEdgeWalk()
    ensures EdgePhase(TwoTier.edges, NodeMap(TwoTier.nodes)) == []
  {
    var edges, m := TwoTier.edges, NodeMap(TwoTier.nodes);
    assert EdgeStep(edges, m, Link) == [] by {
      TwoTierNodeMap();
      CountIfSnoc([], Link, (e: Edge) => e.id == "e1-2");
      AllowedConnections(LoadBalancer, AppServer);
    }
    FlatMapSnoc([], Link, (e: Edge) => EdgeStep(edges, m, e));
  }

  lemma TwoTierBalancerCovered()
    ensures CoverageStep(TwoTier.edges, NodeMap(TwoTier.nodes), Balancer) == []
  {
    var edges, m := TwoTier.edges, NodeMap(TwoTier.nodes);
    assert ConnectedTypes(edges, m, "1") == [AppServer] by {
      TwoTierNodeMap();
      assert ConnectedTypes([], m, "1") == [];
    }
    assert MissingTypes([AppServer], [AppServer]) == [] by {
      assert [AppServer][..0] == [];
    }
  }

  lemma TwoTierCoverageWalk()
    ensures CoveragePhase(TwoTier.nodes, TwoTier.edges, NodeMap(TwoTier.nodes)) == [ServerWarning]
  {
    var edges, m := TwoTier.edges, NodeMap(TwoTier.nodes);
    TwoTierBalancerCovered();
    LonelyAppServerWarning(edges, m, Server);
    FlatMapPair(Balancer, Server, (n: Node) => CoverageStep(edges, m, n));
  }

  /** The three walks over the two-tier topology, joined in order. */
  lemma TwoTierIssues()
    ensures var m := NodeMap(TwoTier.nodes);
      NodePhase(TwoTier.nodes) + EdgePhase(TwoTier.edges, m) + CoveragePhase(TwoTier.nodes, TwoTier.edges, m)
      == [ServerWarning]
  {
    var m := NodeMap(TwoTier.nodes);
    TwoTierNodeWalk();
    TwoTierEdgeWalk();
    TwoTierCoverageWalk();
    var np, ep, cp := NodePhase(TwoTier.nodes), EdgePhase(TwoTier.edges, m), CoveragePhase(TwoTier.nodes, TwoTier.edges, m);
    assert np + ep + cp == cp;
  }

  /** The two-tier topology is valid, with exactly one warning: the app server
      reaches neither a database nor a cache. It is accepted. */
  lemma TwoTierIsAccepted()
    ensures ValidateInfrastructure(TwoTier) == ValidationResult(true, [ServerWarning])
    ensures ApplyInfrastructure(TwoTier).Accepted?
  {
    TwoTierIssues();
  }

  /** The load balancer of the two-tier topology depends on the app server. */
  lemma TwoTierDependencies()
    ensures DependsOn(TwoTier, "1") == ["app-server-2"]
  {
    var nodes := TwoTier.nodes;
    assert OutboundTargets(TwoTier.edges, "1") == ["2"] by {
      assert OutboundTargets([], "1") == [];
    }
    assert DependencyName(nodes, "2") == "app-server-2" by {
      assert FindNode(nodes[1..], "2") == Some(Server);
    }
  }

  /** The two-tier descriptor: two services on the application network, the
      load balancer publishing port 8080 and depending on the app server, the
      app server publishing nothing. */
  lemma TwoTierDescriptor()
    ensures var c := GenerateDockerCompose(TwoTier);
      && c.networks == map["app_network" := Network("bridge")]
      && c.services.Keys == {"load-balancer-1", "app-server-2"}
      && c.services["load-balancer-1"].ports == Some(["8080:80"])
      && c.services["load-balancer-1"].dependsOn == Some(["app-server-2"])
      && c.services["load-balancer-1"].networks == ["app_network"]
      && c.services["app-server-2"].ports.None?
      && c.services["app-server-2"].networks == ["app_network"]
  {
    var nodes := TwoTier.nodes;
    var c := GenerateDockerCompose(TwoTier);
    assert ServiceName(nodes[0].nodeType, nodes[0].id) == "load-balancer-1";
    assert ServiceName(nodes[1].nodeType, nodes[1].id) == "app-server-2";
    assert c.services.Keys == {"load-balancer-1", "app-server-2"};
    CompiledServices(TwoTier);
    assert nodes[0] in nodes && nodes[1] in nodes;
    TwoTierDependencies();
  }
}
