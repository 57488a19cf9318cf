/** The topology documents both the validator and the compose compiler consume:
    typed nodes, directed edges between node ids, and the aggregate
    `Infrastructure` value. The node roles live in a module of their own because
    the node configurations are keyed by them and the nodes carry a configuration. */
module NodeTypes {

  /** The five roles a node can play. The set is closed, so every table keyed by
      it (required and forbidden peers, default images, ports, environments and
      configurations) is total by construction. */
  datatype NodeType = LoadBalancer | AppServer | Database | Cache | MessageQueue

  /** Every role, once each, in declaration order. */
  const AllNodeTypes: seq<NodeType> := [LoadBalancer, AppServer, Database, Cache, MessageQueue]

  /** The wire name of a role, used in topology documents and in service names. */
  function TypeName(t: NodeType): string
  {
    match t
    case LoadBalancer => "load-balancer"
    case AppServer => "app-server"
    case Database => "database"
    case Cache => "cache"
    case MessageQueue => "message-queue"
  }

  /** The role list is exhaustive and free of repetitions, and the wire names are
      pairwise distinguished by their first character (so none is a prefix of
      another, and none starts like the placeholder "undefined"). */
  lemma NodeTypesClosed()
    ensures |AllNodeTypes| == 5
    ensures forall t: NodeType :: t in AllNodeTypes
    ensures forall i, j :: 0 <= i < j < |AllNodeTypes| ==> AllNodeTypes[i] != AllNodeTypes[j]
    ensures forall t: NodeType, u: NodeType :: t != u ==> TypeName(t)[0] != TypeName(u)[0]
    ensures forall t: NodeType :: TypeName(t)[0] != 'u'
  {
    forall t: NodeType
      ensures t in AllNodeTypes
    {
      var i := match t
        case LoadBalancer => 0
        case AppServer => 1
        case Database => 2
        case Cache => 3
        case MessageQueue => 4;
      assert AllNodeTypes[i] == t;
    }
    forall t: NodeType, u: NodeType | t != u
      ensures TypeName(t)[0] != TypeName(u)[0]
    {
      match t
      case LoadBalancer =>
      case AppServer =>
      case Database =>
      case Cache =>
      case MessageQueue =>
    }
  }
}

module Topology {
  import opened Wrappers
  import opened NodeTypes
  import opened NodeConfigs

  /** A canvas coordinate. It is carried through but neither the validator nor
      the compiler ever reads it. */
  datatype Position = Position(x: real, y: real)

  /** The free-form `data` record of nodes and edges; opaque to the core. */
  datatype Payload = Payload(entries: map<string, string>)

  /** A node of the topology. Nothing forces `id` to be unique, nor `config` to
      be present, nor its discriminant to agree with `nodeType`: all three are
      defects the validator reports rather than preconditions. */
  datatype Node = Node(id: string, nodeType: NodeType, position: Position, data: Option<Payload>, config: Option<NodeConfig>)

  /** A directed edge. `source` and `target` are plain ids that need not name
      any node. */
  datatype Edge = Edge(id: string, source: string, target: string, data: Option<Payload>)

  /** The aggregate: two ordered sequences with no uniqueness constraint. */
  datatype Infrastructure = Infrastructure(nodes: seq<Node>, edges: seq<Edge>)

  /** The ids of the nodes, as a set. */
  function NodeIdSet(nodes: seq<Node>): (ids: set<string>)
    ensures forall i :: 0 <= i < |nodes| ==> nodes[i].id in ids
    ensures forall id :: id in ids ==> exists i :: 0 <= i < |nodes| && nodes[i].id == id
  {
    set i | 0 <= i < |nodes| :: nodes[i].id
  }
}
