/** The validator reads node ids, roles and configurations, and edge ids and
    endpoints. Node positions and the payloads of nodes and edges are carried
    along for the editor and never influence the report. */
module ValidationLayout {
  import opened Wrappers
  import opened Collections
  import opened NodeTypes
  import opened NodeConfigs
  import opened Topology
  import opened Validation

  /** Two topologies that differ at most in layout: position by position, the
      nodes agree on id, role and configuration and the edges agree on id and
      endpoints. */
  predicate SameContent(a: Infrastructure, b: Infrastructure)
  {
    && |a.nodes| == |b.nodes|
    && |a.edges| == |b.edges|
    && (forall i :: 0 <= i < |a.nodes| ==>
          a.nodes[i].id == b.nodes[i].id && a.nodes[i].nodeType == b.nodes[i].nodeType
          && a.nodes[i].config == b.nodes[i].config)
    && (forall j :: 0 <= j < |a.edges| ==>
          a.edges[j].id == b.edges[j].id && a.edges[j].source == b.edges[j].source
          && a.edges[j].target == b.edges[j].target)
  }

  /** Two id lookups that know the same ids and give each the same role. */
  predicate SameRoles(m1: map<string, Node>, m2: map<string, Node>)
  {
    m1.Keys == m2.Keys && forall id :: id in m1 ==> m1[id].nodeType == m2[id].nodeType
  }

  lemma {:induction false} NodeMapContent(xs: seq<Node>, ys: seq<Node>)
    requires |xs| == |ys|
    requires forall i :: 0 <= i < |xs| ==> xs[i].id == ys[i].id && xs[i].nodeType == ys[i].nodeType
    ensures SameRoles(NodeMap(xs), NodeMap(ys))
  {
    if |xs| > 0 {
      var xi, yi := xs[..|xs| - 1], ys[..|ys| - 1];
      assert forall i :: 0 <= i < |xi| ==> xi[i] == xs[i] && yi[i] == ys[i];
      NodeMapContent(xi, yi);
    }
  }

  lemma {:induction false} ConnectedTypesContent(xs: seq<Edge>, ys: seq<Edge>, m1: map<string, Node>, m2: map<string, Node>, id: string)
    requires |xs| == |ys|
    requires forall j :: 0 <= j < |xs| ==> xs[j].source == ys[j].source && xs[j].target == ys[j].target
    requires SameRoles(m1, m2)
    ensures ConnectedTypes(xs, m1, id) == ConnectedTypes(ys, m2, id)
  {
    if |xs| > 0 {
      var xi, yi := xs[..|xs| - 1], ys[..|ys| - 1];
      assert forall j :: 0 <= j < |xi| ==> xi[j] == xs[j] && yi[j] == ys[j];
      ConnectedTypesContent(xi, yi, m1, m2, id);
    }
  }

  lemma NodePhaseContent(xs: seq<Node>, ys: seq<Node>)
    requires |xs| == |ys|
    requires forall i :: 0 <= i < |xs| ==>
      xs[i].id == ys[i].id && xs[i].nodeType == ys[i].nodeType && xs[i].config == ys[i].config
    ensures NodePhase(xs) == NodePhase(ys)
  {
    forall i | 0 <= i < |xs| ensures NodeStep(xs, xs[i]) == NodeStep(ys, ys[i]) {
      var id := xs[i].id;
      CountIfCongruent(xs, ys, (n: Node) => n.id == id, (n: Node) => n.id == id);
      assert ConfigIssues(xs[i]) == ConfigIssues(ys[i]);
    }
    FlatMapCongruent(xs, ys, (n: Node) => NodeStep(xs, n), (n: Node) => NodeStep(ys, n));
  }

  lemma EdgePhaseContent(xs: seq<Edge>, ys: seq<Edge>, m1: map<string, Node>, m2: map<string, Node>)
    requires |xs| == |ys|
    requires forall j :: 0 <= j < |xs| ==>
      xs[j].id == ys[j].id && xs[j].source == ys[j].source && xs[j].target == ys[j].target
    requires SameRoles(m1, m2)
    ensures EdgePhase(xs, m1) == EdgePhase(ys, m2)
  {
    forall j | 0 <= j < |xs| ensures EdgeStep(xs, m1, xs[j]) == EdgeStep(ys, m2, ys[j]) {
      var id := xs[j].id;
      CountIfCongruent(xs, ys, (e: Edge) => e.id == id, (e: Edge) => e.id == id);
      assert EndpointCheck(m1, xs[j]) == EndpointCheck(m2, ys[j]);
    }
    FlatMapCongruent(xs, ys, (e: Edge) => EdgeStep(xs, m1, e), (e: Edge) => EdgeStep(ys, m2, e));
  }

  lemma CoveragePhaseContent(a: Infrastructure, b: Infrastructure, m1: map<string, Node>, m2: map<string, Node>)
    requires SameContent(a, b) && SameRoles(m1, m2)
    ensures CoveragePhase(a.nodes, a.edges, m1) == CoveragePhase(b.nodes, b.edges, m2)
  {
    forall i | 0 <= i < |a.nodes|
      ensures CoverageStep(a.edges, m1, a.nodes[i]) == CoverageStep(b.edges, m2, b.nodes[i])
    {
      ConnectedTypesContent(a.edges, b.edges, m1, m2, a.nodes[i].id);
    }
    FlatMapCongruent(a.nodes, b.nodes, (n: Node) => CoverageStep(a.edges, m1, n), (n: Node) => CoverageStep(b.edges, m2, n));
  }

  /** The report depends on nothing but node ids, roles and configurations and
      edge ids and endpoints: moving nodes on the canvas or editing their
      payloads never changes it. */
  lemma ValidationIgnoresLayout(a: Infrastructure, b: Infrastructure)
    requires SameContent(a, b)
    ensures ValidateInfrastructure(a) == ValidateInfrastructure(b)
  {
    var m1, m2 := NodeMap(a.nodes), NodeMap(b.nodes);
    NodeMapContent(a.nodes, b.nodes);
    NodePhaseContent(a.nodes, b.nodes);
    EdgePhaseContent(a.edges, b.edges, m1, m2);
    CoveragePhaseContent(a, b, m1, m2);
  }
}
