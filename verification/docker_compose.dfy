/** The compose-descriptor compiler: every node becomes one service named
    `<role>-<id>`, built from per-role default tables, all on one bridge
    network. Load balancers depend on the targets of their outbound edges. The
    compiler reads only node roles, node ids and edge endpoints; it does not
    re-validate, and serialising the descriptor to text is not part of it. */
module DockerCompose {
  import opened Wrappers
  import opened Collections
  import opened NodeTypes
  import opened Topology

  /** One service of the descriptor. `environment`, `networks` and `restart`
      are always set by the compiler, so they are not optional here. */
  datatype ServiceConfig = ServiceConfig(
    image: string,
    ports: Option<seq<string>>,
    environment: map<string, string>,
    dependsOn: Option<seq<string>>,
    volumes: Option<seq<string>>,
    networks: seq<string>,
    command: Option<seq<string>>,
    restart: string)

  datatype Network = Network(driver: string)

  /** The descriptor: services by name, and networks by name. */
  datatype ComposeFile = ComposeFile(services: map<string, ServiceConfig>, networks: map<string, Network>)

  const AppNetwork: string := "app_network"
  const RestartPolicy: string := "unless-stopped"

  // ---------------------------------------------------------------------------
  // Default tables

  function DefaultImage(t: NodeType): string
  {
    match t
    case LoadBalancer => "nginx:alpine"
    case AppServer => "node:18-alpine"
    case Database => "postgres:15-alpine"
    case Cache => "redis:alpine"
    case MessageQueue => "rabbitmq:3-management-alpine"
  }

  function DefaultPorts(t: NodeType): seq<string>
  {
    match t
    case LoadBalancer => ["8080:80"]
    case AppServer => []
    case Database => ["5432:5432"]
    case Cache => ["6379:6379"]
    case MessageQueue => ["5672:5672", "15672:15672"]
  }

  function DefaultEnv(t: NodeType): map<string, string>
  {
    match t
    case LoadBalancer => map[]
    case AppServer => map["NODE_ENV" := "production"]
    case Database => map["POSTGRES_USER" := "postgres", "POSTGRES_PASSWORD" := "postgres", "POSTGRES_DB" := "app"]
    case Cache => map[]
    case MessageQueue => map["RABBITMQ_DEFAULT_USER" := "guest", "RABBITMQ_DEFAULT_PASS" := "guest"]
  }

  /** The volume each role mounts; none for app servers. */
  function DefaultVolumes(t: NodeType): Option<seq<string>>
  {
    match t
    case LoadBalancer => Some(["./nginx.conf:/etc/nginx/nginx.conf:ro"])
    case AppServer => None
    case Database => Some(["./postgres-data:/var/lib/postgresql/data"])
    case Cache => Some(["./redis-data:/data"])
    case MessageQueue => Some(["./rabbitmq-data:/var/lib/rabbitmq"])
  }

  // ---------------------------------------------------------------------------
  // Names

  /** The service a node of role `t` and id `id` compiles to. */
  function ServiceName(t: NodeType, id: string): string
  {
    TypeName(t) + "-" + id
  }

  /** Distinct (role, id) pairs give distinct service names: no role name is a
      prefix of another, since their first characters already differ. */
  lemma ServiceNameInjective(t1: NodeType, id1: string, t2: NodeType, id2: string)
    requires ServiceName(t1, id1) == ServiceName(t2, id2)
    ensures t1 == t2 && id1 == id2
  {
    NodeTypesClosed();
    assert ServiceName(t1, id1)[0] == TypeName(t1)[0];
    assert ServiceName(t2, id2)[0] == TypeName(t2)[0];
    var n := |TypeName(t1)| + 1;
    assert ServiceName(t1, id1)[n..] == id1;
    assert ServiceName(t2, id2)[n..] == id2;
  }

  /** The first node carrying `id`, as `Array.prototype.find` returns it. */
  function FindNode(nodes: seq<Node>, id: string): (r: Option<Node>)
    ensures r.None? <==> forall i :: 0 <= i < |nodes| ==> nodes[i].id != id
    ensures r.Some? ==> exists i :: 0 <= i < |nodes| && nodes[i] == r.value && r.value.id == id
                                    && forall j :: 0 <= j < i ==> nodes[j].id != id
  {
    if |nodes| == 0 then None
    else if nodes[0].id == id then
      Some(nodes[0])
    else
      var r := FindNode(nodes[1..], id);
      assert forall i :: 0 < i < |nodes| ==> nodes[i] == nodes[1..][i - 1];
      if r.Some? then
        var i :| 0 <= i < |nodes[1..]| && nodes[1..][i] == r.value && r.value.id == id
                 && forall j :: 0 <= j < i ==> nodes[1..][j].id != id;
        assert nodes[i + 1] == r.value;
        r
      else r
  }

  /** The dependency entry for an edge target: the target's service name, or
      `undefined-<target>` when no node carries the target id (the type lookup
      yields `undefined`, which is then interpolated). */
  function DependencyName(nodes: seq<Node>, target: string): string
  {
    match FindNode(nodes, target)
    case Some(n) => ServiceName(n.nodeType, target)
    case None => "undefined-" + target
  }

  /** The targets of the edges leaving node `id`, in edge order: one per
      outbound edge, whether or not the target names a node. */
  function OutboundTargets(edges: seq<Edge>, id: string): (r: seq<string>)
    ensures |r| == CountIf(edges, (e: Edge) => e.source == id)
    ensures forall t :: t in r <==> exists j :: 0 <= j < |edges| && edges[j].source == id && edges[j].target == t
  {
    if |edges| == 0 then []
    else
      var init := edges[..|edges| - 1];
      var e := edges[|edges| - 1];
      var r := OutboundTargets(init, id) + (if e.source == id then [e.target] else []);
      assert forall j :: 0 <= j < |init| ==> init[j] == edges[j];
      r
  }

  /** A load balancer's dependency list: one entry per outbound edge. */
  function DependsOn(infra: Infrastructure, id: string): seq<string>
  {
    var targets := OutboundTargets(infra.edges, id);
    seq(|targets|, k requires 0 <= k < |targets| => DependencyName(infra.nodes, targets[k]))
  }

  // ---------------------------------------------------------------------------
  // Commands

  const LoadBalancerCommand: seq<string> := ["nginx", "-g", "daemon off;"]

  /** The shell text before and after the node id in the app-server command:
      it writes a page naming the node and serves it on port 3000. */
  const AppScriptHead: string := "mkdir -p /app && echo \"<html><body><h1>Hello from app server</h1><p>Server ID: "
  const AppScriptTail: string :=
    "</p></body></html>\" > /app/index.html && "
    + "node -e \"const http = require('http'); const fs = require('fs'); "
    + "const server = http.createServer((req, res) => { res.writeHead(200, {'Content-Type': 'text/html'}); "
    + "res.end(fs.readFileSync('/app/index.html')); }); "
    + "server.listen(3000, '0.0.0.0', () => console.log('Server running on port 3000'));\""

  /** The app-server start script. It embeds the node id at a fixed offset. */
  function AppServerScript(id: string): (s: string)
    ensures |s| == |AppScriptHead| + |id| + |AppScriptTail|
    ensures s[|AppScriptHead|..|AppScriptHead| + |id|] == id
  {
    AppScriptHead + id + AppScriptTail
  }

  /** Different app servers get different scripts. */
  lemma AppServerScriptInjective(id1: string, id2: string)
    requires AppServerScript(id1) == AppServerScript(id2)
    ensures id1 == id2
  {
    assert |id1| == |id2|;
  }

  // ---------------------------------------------------------------------------
  // Services

  /** The service a node of role `t` and id `id` compiles to. Every service
      takes its image and environment from the role's tables, joins exactly the
      application network and restarts unless stopped. Only load balancers
      depend on anything; app servers publish no port and run a script naming
      their node; every other role publishes its table ports and mounts its
      table volume. */
  function Service(infra: Infrastructure, t: NodeType, id: string): (s: ServiceConfig)
    ensures s.image == DefaultImage(t) && s.environment == DefaultEnv(t)
    ensures s.networks == [AppNetwork] && s.restart == RestartPolicy
    ensures s.dependsOn.Some? <==> t == LoadBalancer
    ensures s.ports.None? <==> t == AppServer
    ensures t != AppServer ==> s.ports == Some(DefaultPorts(t)) && s.volumes == DefaultVolumes(t)
    ensures t == LoadBalancer ==> s.dependsOn == Some(DependsOn(infra, id)) && s.command == Some(LoadBalancerCommand)
    ensures t == AppServer ==> s.volumes.None? && s.command == Some(["sh", "-c", AppServerScript(id)])
    ensures t == Database || t == Cache || t == MessageQueue ==> s.command.None?
  {
    var base := ServiceConfig(DefaultImage(t), None, DefaultEnv(t), None, None, [AppNetwork], None, RestartPolicy);
    match t
    case LoadBalancer =>
      base.(ports := Some(DefaultPorts(LoadBalancer)), volumes := DefaultVolumes(LoadBalancer),
            command := Some(LoadBalancerCommand), dependsOn := Some(DependsOn(infra, id)))
    case AppServer =>
      base.(command := Some(["sh", "-c", AppServerScript(id)]))
    case Database =>
      base.(ports := Some(DefaultPorts(Database)), volumes := DefaultVolumes(Database))
    case Cache =>
      base.(ports := Some(DefaultPorts(Cache)), volumes := DefaultVolumes(Cache))
    case MessageQueue =>
      base.(ports := Some(DefaultPorts(MessageQueue)), volumes := DefaultVolumes(MessageQueue))
  }

  /** The service map: each node, in order, sets its service under its name,
      so a later node with the same name overwrites an earlier one. */
  function Services(infra: Infrastructure): map<string, ServiceConfig>
  {
    MapFold(infra.nodes, (n: Node) => ServiceName(n.nodeType, n.id), (n: Node) => Service(infra, n.nodeType, n.id))
  }

  /** The service names of the nodes. */
  function ServiceNames(nodes: seq<Node>): set<string>
  {
    set n | n in nodes :: ServiceName(n.nodeType, n.id)
  }

  /** Nodes with the same service name compile to the same service, so
      overwriting never changes an entry. */
  lemma SameNameSameService(infra: Infrastructure)
    ensures forall i, j ::
      (0 <= i < |infra.nodes| && 0 <= j < |infra.nodes|
       && ServiceName(infra.nodes[i].nodeType, infra.nodes[i].id) == ServiceName(infra.nodes[j].nodeType, infra.nodes[j].id))
      ==> Service(infra, infra.nodes[i].nodeType, infra.nodes[i].id) == Service(infra, infra.nodes[j].nodeType, infra.nodes[j].id)
  {
    var nodes := infra.nodes;
    forall i, j | 0 <= i < |nodes| && 0 <= j < |nodes|
      && ServiceName(nodes[i].nodeType, nodes[i].id) == ServiceName(nodes[j].nodeType, nodes[j].id)
      ensures Service(infra, nodes[i].nodeType, nodes[i].id) == Service(infra, nodes[j].nodeType, nodes[j].id)
    {
      ServiceNameInjective(nodes[i].nodeType, nodes[i].id, nodes[j].nodeType, nodes[j].id);
    }
  }

  /** Compiles a topology into a compose descriptor. The network map is always
      the single bridge network, and the service names are exactly those of
      the nodes. */
  function GenerateDockerCompose(infra: Infrastructure): (c: ComposeFile)
    ensures c.networks == map[AppNetwork := Network("bridge")]
    ensures c.services.Keys == ServiceNames(infra.nodes)
  {
    MapFoldKeys(infra.nodes, (n: Node) => ServiceName(n.nodeType, n.id), (n: Node) => Service(infra, n.nodeType, n.id));
    ComposeFile(Services(infra), map[AppNetwork := Network("bridge")])
  }

  /** Each node's service name holds the service that node compiles to, even
      when an equally named later node overwrote it. */
  lemma CompiledServices(infra: Infrastructure)
    ensures forall n :: n in infra.nodes ==>
      ServiceName(n.nodeType, n.id) in GenerateDockerCompose(infra).services
      && GenerateDockerCompose(infra).services[ServiceName(n.nodeType, n.id)] == Service(infra, n.nodeType, n.id)
  {
    var key := (n: Node) => ServiceName(n.nodeType, n.id);
    var val := (n: Node) => Service(infra, n.nodeType, n.id);
    MapFoldKeys(infra.nodes, key, val);
    SameNameSameService(infra);
    MapFoldValues(infra.nodes, key, val);
  }
}
