/** The topology validator: a rule engine driven by two tables keyed by node
    role. It never stops at the first defect; it walks the nodes, then the
    edges, then the nodes again, and collects every issue it finds into one
    ordered list:
      1. per node, the configuration issues and a duplicate-id error;
      2. per edge, a duplicate-id error and either a dangling-endpoint error or,
         when both endpoints resolve, a forbidden-connection error;
      3. per node with required peers, at most one coverage warning.
    The topology is valid exactly when no collected issue is an error. */
module Validation {
  import opened Wrappers
  import opened Collections
  import opened NodeTypes
  import opened NodeConfigs
  import opened Topology

  datatype Severity = Error | Warning

  /** What an issue is about. The message text of each issue is not modelled;
      the kind carries what the message interpolates. */
  datatype IssueKind =
    | MissingConfig(forType: NodeType)
    | PortRequired(forType: NodeType)
    | MemoryLimitAdvised
    | CredentialsRequired
    | MaxMemoryAdvised
    | QueueNamesAdvised
    | DuplicateNodeId
    | DuplicateEdgeId
    | DanglingEdge
    | ForbiddenConnection(from: NodeType, to: NodeType)
    | MissingConnections(forType: NodeType, missing: seq<NodeType>)
  {
    /** The walk that raises issues of this kind. */
    function Walk(): Walk
    {
      match this
      case DuplicateEdgeId | DanglingEdge | ForbiddenConnection(_, _) => EdgeWalk
      case MissingConnections(_, _) => CoverageWalk
      case _ => NodeWalk
    }
  }

  /** The three passes of the validator: over the nodes (configuration and
      duplicate ids), over the edges, and over the nodes again (coverage). */
  datatype Walk = NodeWalk | EdgeWalk | CoverageWalk

  datatype Issue = Issue(severity: Severity, kind: IssueKind, nodeId: Option<string>, edgeId: Option<string>)

  /** `errors` holds every issue, warnings included, in the order they were found. */
  datatype ValidationResult = ValidationResult(isValid: bool, errors: seq<Issue>)

  function NodeIssue(severity: Severity, kind: IssueKind, id: string): Issue
  {
    Issue(severity, kind, Some(id), None)
  }

  function EdgeIssue(kind: IssueKind, id: string): Issue
  {
    Issue(Error, kind, None, Some(id))
  }

  // ---------------------------------------------------------------------------
  // Rule tables

  /** The roles a node of role `t` should have at least one outbound edge to. */
  function RequiredPeers(t: NodeType): seq<NodeType>
  {
    match t
    case LoadBalancer => [AppServer]
    case AppServer => [Database, Cache]
    case Database => []
    case Cache => []
    case MessageQueue => []
  }

  /** The roles a node of role `t` must never have an outbound edge to.
      Nothing may point at a load balancer; only an app server may not point
      at an app server; and every role but the app server is kept away from
      the data stores (database, cache, message queue). */
  function ForbiddenPeers(t: NodeType): (r: seq<NodeType>)
    ensures LoadBalancer in r
    ensures AppServer in r <==> t == AppServer
    ensures Database in r <==> t != AppServer
    ensures Cache in r <==> t != AppServer
    ensures MessageQueue in r <==> t != AppServer
  {
    match t
    case LoadBalancer => [LoadBalancer, Database, Cache, MessageQueue]
    case AppServer => [LoadBalancer, AppServer]
    case Database => [LoadBalancer, Database, Cache, MessageQueue]
    case Cache => [LoadBalancer, Database, Cache, MessageQueue]
    case MessageQueue => [LoadBalancer, Database, Cache, MessageQueue]
  }

  /** The forbidden-peer table says an edge from role `from` to role `to` is an error. */
  predicate IsForbidden(from: NodeType, to: NodeType)
  {
    to in ForbiddenPeers(from)
  }

  /** The forbidden-peer table admits exactly three shapes of connection: a
      load balancer fronting an app server, an app server using a data store
      (database, cache or message queue), and a data store pointing back at an
      app server. Every other pair, a role connected to itself included, is an
      error. */
  lemma AllowedConnections(from: NodeType, to: NodeType)
    ensures !IsForbidden(from, to) <==>
      || (from == LoadBalancer && to == AppServer)
      || (from == AppServer && (to == Database || to == Cache || to == MessageQueue))
      || ((from == Database || from == Cache || from == MessageQueue) && to == AppServer)
  {
    match to
    case LoadBalancer =>
    case AppServer =>
    case Database =>
    case Cache =>
    case MessageQueue =>
  }

  /** The two tables agree: each required role is listed once, none is the
      role itself, and the forbidden-peer table never forbids an edge to one
      of them, so every coverage warning can be silenced without drawing a
      forbidden-connection error. */
  lemma RequiredPeersAllowed(t: NodeType)
    ensures forall i, j :: 0 <= i < j < |RequiredPeers(t)| ==> RequiredPeers(t)[i] != RequiredPeers(t)[j]
    ensures forall p :: p in RequiredPeers(t) ==> p != t && !IsForbidden(t, p)
  {
  }

  // ---------------------------------------------------------------------------
  // Per-node configuration checks

  /** The configuration defects that are errors: a load balancer or app server
      whose port is falsy, or a database with a falsy username, password or
      database name. Only a configuration tagged with the node's own role is
      inspected. */
  predicate BlockingDefect(t: NodeType, c: NodeConfig)
  {
    match c
    case LoadBalancerConfig(b) => t == LoadBalancer && FalsyNumber(b.port)
    case AppServerConfig(b) => t == AppServer && FalsyNumber(b.port)
    case DatabaseConfig(_, u, p, d) => t == Database && (FalsyText(u) || FalsyText(p) || FalsyText(d))
    case CacheConfig(_, _) => false
    case MessageQueueConfig(_, _) => false
  }

  /** The configuration defects that are only warnings: an app server without a
      memory limit, a cache without `maxMemory`, a message queue without queue
      names. */
  predicate AdvisoryDefect(t: NodeType, c: NodeConfig)
  {
    match c
    case LoadBalancerConfig(_) => false
    case AppServerConfig(b) => t == AppServer && FalsyText(b.memoryLimit)
    case DatabaseConfig(_, _, _, _) => false
    case CacheConfig(_, m) => t == Cache && FalsyText(m)
    case MessageQueueConfig(_, q) => t == MessageQueue && NoQueueNames(q)
  }

  /** The configuration issues of one node. A node without configuration gets
      exactly one error and nothing else is checked; a configuration tagged with
      another role is not checked at all; otherwise there is at most one error
      (first) and at most one warning (last), each present exactly when the
      corresponding defect is. */
  function ConfigIssues(n: Node): (r: seq<Issue>)
    ensures n.config.None? ==> r == [NodeIssue(Error, MissingConfig(n.nodeType), n.id)]
    ensures n.config.Some? && Discriminant(n.config.value) != n.nodeType ==> r == []
    ensures n.config.Some? ==>
      |r| == (if BlockingDefect(n.nodeType, n.config.value) then 1 else 0)
             + (if AdvisoryDefect(n.nodeType, n.config.value) then 1 else 0)
    ensures n.config.Some? ==> (BlockingDefect(n.nodeType, n.config.value) <==> |r| > 0 && r[0].severity == Error)
    ensures n.config.Some? ==> (AdvisoryDefect(n.nodeType, n.config.value) <==> |r| > 0 && r[|r| - 1].severity == Warning)
    ensures n.config.Some? ==> forall k :: 0 <= k < |r| ==> !r[k].kind.MissingConfig?
    ensures forall k :: 0 <= k < |r| ==>
      r[k].nodeId == Some(n.id) && r[k].edgeId.None? && r[k].kind.Walk() == NodeWalk && !r[k].kind.DuplicateNodeId?
  {
    match n.config
    case None => [NodeIssue(Error, MissingConfig(n.nodeType), n.id)]
    case Some(c) =>
      match n.nodeType
      case LoadBalancer =>
        if c.LoadBalancerConfig? && FalsyNumber(c.base.port) then [NodeIssue(Error, PortRequired(LoadBalancer), n.id)]
        else []
      case AppServer =>
        if c.AppServerConfig? then
          (if FalsyNumber(c.base.port) then [NodeIssue(Error, PortRequired(AppServer), n.id)] else [])
          + (if FalsyText(c.base.memoryLimit) then [NodeIssue(Warning, MemoryLimitAdvised, n.id)] else [])
        else []
      case Database =>
        if c.DatabaseConfig? && (FalsyText(c.username) || FalsyText(c.password) || FalsyText(c.databaseName)) then
          [NodeIssue(Error, CredentialsRequired, n.id)]
        else []
      case Cache =>
        if c.CacheConfig? && FalsyText(c.maxMemory) then [NodeIssue(Warning, MaxMemoryAdvised, n.id)]
        else []
      case MessageQueue =>
        if c.MessageQueueConfig? && NoQueueNames(c.queueNames) then [NodeIssue(Warning, QueueNamesAdvised, n.id)]
        else []
  }

  // ---------------------------------------------------------------------------
  // Node walk

  /** How many nodes carry the id `id`. */
  function NodesWithId(nodes: seq<Node>, id: string): nat
  {
    CountIf(nodes, (n: Node) => n.id == id)
  }

  /** How many edges carry the id `id`. */
  function EdgesWithId(edges: seq<Edge>, id: string): nat
  {
    CountIf(edges, (e: Edge) => e.id == id)
  }

  /** Node `i` is the last one carrying its id. */
  predicate LastWithId(nodes: seq<Node>, i: int)
    requires 0 <= i < |nodes|
  {
    forall j :: i < j < |nodes| ==> nodes[j].id != nodes[i].id
  }

  /** The id-to-node lookup, filled by setting each node under its id in node order. */
  function NodeMap(nodes: seq<Node>): map<string, Node>
  {
    if |nodes| == 0 then map[]
    else NodeMap(nodes[..|nodes| - 1])[nodes[|nodes| - 1].id := nodes[|nodes| - 1]]
  }

  /** The lookup knows exactly the ids that occur among the nodes. */
  lemma {:induction false} NodeMapKeys(nodes: seq<Node>)
    ensures NodeMap(nodes).Keys == NodeIdSet(nodes)
  {
    if |nodes| > 0 {
      var init := nodes[..|nodes| - 1];
      var last := nodes[|nodes| - 1];
      NodeMapKeys(init);
      assert nodes == init + [last];
      NodeIdSetSnoc(init, last);
    }
  }

  /** Every id is mapped to a node carrying that id. */
  lemma {:induction false} NodeMapIds(nodes: seq<Node>)
    ensures forall id :: id in NodeMap(nodes) ==> NodeMap(nodes)[id].id == id
  {
    if |nodes| > 0 {
      NodeMapIds(nodes[..|nodes| - 1]);
    }
  }

  /** For a repeated id, the last node carrying it is the one looked up. */
  lemma {:induction false} NodeMapLast(nodes: seq<Node>, i: int)
    requires 0 <= i < |nodes| && LastWithId(nodes, i)
    ensures nodes[i].id in NodeMap(nodes) && NodeMap(nodes)[nodes[i].id] == nodes[i]
  {
    var init := nodes[..|nodes| - 1];
    if i < |nodes| - 1 {
      assert init[i] == nodes[i];
      assert LastWithId(init, i) by {
        forall j | i < j < |init| ensures init[j].id != init[i].id {
          assert init[j] == nodes[j];
        }
      }
      NodeMapLast(init, i);
    }
  }

  /** Appending a node adds exactly its id to the id set. */
  lemma NodeIdSetSnoc(init: seq<Node>, last: Node)
    ensures NodeIdSet(init + [last]) == NodeIdSet(init) + {last.id}
  {
    var nodes := init + [last];
    forall id | id in NodeIdSet(nodes) ensures id in NodeIdSet(init) + {last.id} {
      var i :| 0 <= i < |nodes| && nodes[i].id == id;
      if i < |init| {
        assert init[i] == nodes[i];
      }
    }
    assert nodes[|init|] == last;
    forall id | id in NodeIdSet(init) ensures id in NodeIdSet(nodes) {
      var i :| 0 <= i < |init| && init[i].id == id;
      assert nodes[i] == init[i];
    }
  }

  /** The issues of one node: its configuration issues, then a duplicate-id
      error when another node shares its id. */
  function NodeStep(nodes: seq<Node>, n: Node): seq<Issue>
  {
    ConfigIssues(n)
    + (if NodesWithId(nodes, n.id) > 1 then [NodeIssue(Error, DuplicateNodeId, n.id)] else [])
  }

  /** The node walk. It raises only node-scoped issues, each naming a node. */
  function NodePhase(nodes: seq<Node>): (r: seq<Issue>)
    ensures forall k :: 0 <= k < |r| ==> r[k].kind.Walk() == NodeWalk && r[k].nodeId.Some? && r[k].edgeId.None?
  {
    FlatMapAll(nodes, (n: Node) => NodeStep(nodes, n),
               (i: Issue) => i.kind.Walk() == NodeWalk && i.nodeId.Some? && i.edgeId.None?);
    FlatMap(nodes, (n: Node) => NodeStep(nodes, n))
  }

  // ---------------------------------------------------------------------------
  // Edge walk

  /** The edge has an endpoint that names no node. */
  predicate Dangles(m: map<string, Node>, e: Edge)
  {
    e.source !in m || e.target !in m
  }

  /** Both endpoints resolve and the source's role forbids the target's role. */
  predicate ForbiddenEdge(m: map<string, Node>, e: Edge)
  {
    e.source in m && e.target in m && IsForbidden(m[e.source].nodeType, m[e.target].nodeType)
  }

  /** The endpoint check of one edge: a dangling edge gets exactly one error and
      is never classified; a resolved edge gets a forbidden-connection error
      exactly when the table forbids it. */
  function EndpointCheck(m: map<string, Node>, e: Edge): (r: seq<Issue>)
    ensures |r| <= 1
    ensures |r| == 0 <==> !Dangles(m, e) && !ForbiddenEdge(m, e)
    ensures Dangles(m, e) <==> |r| == 1 && r[0].kind == DanglingEdge
    ensures ForbiddenEdge(m, e) <==> |r| == 1 && r[0].kind.ForbiddenConnection?
    ensures forall k :: 0 <= k < |r| ==>
      r[k].severity == Error && r[k].edgeId == Some(e.id) && r[k].nodeId.None?
      && r[k].kind.Walk() == EdgeWalk && !r[k].kind.DuplicateEdgeId?
  {
    if e.source !in m || e.target !in m then [EdgeIssue(DanglingEdge, e.id)]
    else
      var from := m[e.source].nodeType;
      var to := m[e.target].nodeType;
      if IsForbidden(from, to) then [EdgeIssue(ForbiddenConnection(from, to), e.id)] else []
  }

  /** The issues of one edge: a duplicate-id error when another edge shares its
      id, then its endpoint check. */
  function EdgeStep(edges: seq<Edge>, m: map<string, Node>, e: Edge): seq<Issue>
  {
    (if EdgesWithId(edges, e.id) > 1 then [EdgeIssue(DuplicateEdgeId, e.id)] else [])
    + EndpointCheck(m, e)
  }

  /** The edge walk. It raises only edge-scoped errors, each naming an edge. */
  function EdgePhase(edges: seq<Edge>, m: map<string, Node>): (r: seq<Issue>)
    ensures forall k :: 0 <= k < |r| ==>
      r[k].kind.Walk() == EdgeWalk && r[k].severity == Error && r[k].edgeId.Some? && r[k].nodeId.None?
  {
    FlatMapAll(edges, (e: Edge) => EdgeStep(edges, m, e),
               (i: Issue) => i.kind.Walk() == EdgeWalk && i.severity == Error && i.edgeId.Some? && i.nodeId.None?);
    FlatMap(edges, (e: Edge) => EdgeStep(edges, m, e))
  }

  // ---------------------------------------------------------------------------
  // Coverage walk

  /** Some outbound edge of node `id` leads to an existing node of role `t`. */
  ghost predicate Reaches(edges: seq<Edge>, m: map<string, Node>, id: string, t: NodeType)
  {
    exists j :: 0 <= j < |edges| && edges[j].source == id && edges[j].target in m && m[edges[j].target].nodeType == t
  }

  /** The roles of the existing targets of node `id`'s outbound edges, in edge
      order; edges whose target names no node contribute nothing. */
  function ConnectedTypes(edges: seq<Edge>, m: map<string, Node>, id: string): (r: seq<NodeType>)
    ensures forall t :: t in r <==> Reaches(edges, m, id, t)
  {
    if |edges| == 0 then []
    else
      var init := edges[..|edges| - 1];
      var e := edges[|edges| - 1];
      var r := ConnectedTypes(init, m, id)
               + (if e.source == id && e.target in m then [m[e.target].nodeType] else []);
      assert forall t :: Reaches(init, m, id, t) ==> Reaches(edges, m, id, t) by {
        forall t | Reaches(init, m, id, t) ensures Reaches(edges, m, id, t) {
          var j :| 0 <= j < |init| && init[j].source == id && init[j].target in m && m[init[j].target].nodeType == t;
          assert edges[j] == init[j];
        }
      }
      assert forall t :: Reaches(edges, m, id, t) && !Reaches(init, m, id, t) ==>
        e.source == id && e.target in m && m[e.target].nodeType == t by {
        forall t | Reaches(edges, m, id, t) && !Reaches(init, m, id, t)
          ensures e.source == id && e.target in m && m[e.target].nodeType == t
        {
          var j :| 0 <= j < |edges| && edges[j].source == id && edges[j].target in m && m[edges[j].target].nodeType == t;
          if j < |init| {
            assert false;
          }
        }
      }
      r
  }

  /** The required roles absent from `connected`, in table order: one entry
      per absent entry of `required`, so a role listed once is missing at most
      once. */
  function MissingTypes(required: seq<NodeType>, connected: seq<NodeType>): (r: seq<NodeType>)
    ensures forall t :: t in r <==> t in required && t !in connected
    ensures |r| <= |required|
    ensures |r| == CountIf(required, (t: NodeType) => t !in connected)
    ensures (forall k :: 0 <= k < |required| ==> required[k] !in connected) ==> r == required
  {
    if |required| == 0 then []
    else
      var init := required[..|required| - 1];
      var t := required[|required| - 1];
      assert required == init + [t];
      MissingTypes(init, connected) + (if t in connected then [] else [t])
  }

  /** Node `n` misses at least one of its required peer roles. */
  ghost predicate Uncovered(edges: seq<Edge>, m: map<string, Node>, n: Node)
  {
    exists t :: t in RequiredPeers(n.nodeType) && !Reaches(edges, m, n.id, t)
  }

  /** The coverage check of one node: at most one warning, present exactly when
      a required peer role is unreached, and naming exactly the unreached
      required roles. */
  function CoverageStep(edges: seq<Edge>, m: map<string, Node>, n: Node): (r: seq<Issue>)
    ensures |r| <= 1
    ensures |r| == 1 <==> Uncovered(edges, m, n)
    ensures |r| == 1 ==>
      && r[0].severity == Warning && r[0].nodeId == Some(n.id) && r[0].edgeId.None?
      && r[0].kind.MissingConnections? && r[0].kind.forType == n.nodeType
      && (forall t :: t in r[0].kind.missing <==> t in RequiredPeers(n.nodeType) && !Reaches(edges, m, n.id, t))
  {
    var required := RequiredPeers(n.nodeType);
    if |required| == 0 then []
    else
      var missing := MissingTypes(required, ConnectedTypes(edges, m, n.id));
      if |missing| > 0 then
        assert missing[0] in missing;
        [NodeIssue(Warning, MissingConnections(n.nodeType, missing), n.id)]
      else
        []
  }

  /** A coverage warning lists each unreached required role exactly once: its
      length is the number of unreached entries of the required-peer table,
      whose entries are distinct. */
  lemma CoverageListExact(edges: seq<Edge>, m: map<string, Node>, n: Node)
    ensures var r := CoverageStep(edges, m, n);
      |r| == 1 ==> |r[0].kind.missing| == CountIf(RequiredPeers(n.nodeType), (t: NodeType) => !Reaches(edges, m, n.id, t))
  {
    var required := RequiredPeers(n.nodeType);
    var connected := ConnectedTypes(edges, m, n.id);
    CountIfCongruent(required, required, (t: NodeType) => t !in connected, (t: NodeType) => !Reaches(edges, m, n.id, t));
  }

  /** The coverage walk. It raises only coverage warnings. */
  function CoveragePhase(nodes: seq<Node>, edges: seq<Edge>, m: map<string, Node>): (r: seq<Issue>)
    ensures forall k :: 0 <= k < |r| ==>
      r[k].kind.MissingConnections? && r[k].kind.Walk() == CoverageWalk && r[k].severity == Warning
  {
    FlatMapAll(nodes, (n: Node) => CoverageStep(edges, m, n),
               (i: Issue) => i.kind.MissingConnections? && i.kind.Walk() == CoverageWalk && i.severity == Warning);
    FlatMap(nodes, (n: Node) => CoverageStep(edges, m, n))
  }

  // ---------------------------------------------------------------------------
  // The validator

  predicate IsError(i: Issue)
  {
    i.severity == Error
  }

  /** Validates a topology: the three walks in order, collected into one
      report, valid when the report counts no error. */
  function ValidateInfrastructure(infra: Infrastructure): ValidationResult
  {
    var m := NodeMap(infra.nodes);
    var issues := NodePhase(infra.nodes) + EdgePhase(infra.edges, m) + CoveragePhase(infra.nodes, infra.edges, m);
    ValidationResult(CountIf(issues, IsError) == 0, issues)
  }

  /** The result is valid exactly when every collected issue is a warning;
      warnings alone never make a topology invalid. */
  lemma ValidIffOnlyWarnings(infra: Infrastructure)
    ensures var r := ValidateInfrastructure(infra);
      r.isValid <==> forall k :: 0 <= k < |r.errors| ==> r.errors[k].severity == Warning
  {
    CountIfNone(ValidateInfrastructure(infra).errors, IsError);
  }
}
