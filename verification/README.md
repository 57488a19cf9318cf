# Topology validator and compose compiler, modelled in Dafny

This project models the core of a system-design learning tool. A user draws
an infrastructure topology: typed nodes (load balancer, app server, database,
cache, message queue) joined by directed edges. The backend then does two
things with it:

- **Validator.** It checks the topology against two role-keyed tables: the
  peers each role must reach and the peers it must never reach. It also
  checks each node's configuration and looks for duplicate ids and dangling
  edge endpoints. It never stops at the first defect. It collects errors and
  warnings into one ordered report, and the topology is valid exactly when
  the report holds no error.
- **Compiler.** It turns a topology into a compose descriptor. Each node
  becomes a service named `<role>-<id>`, built from per-role default tables.
  Every service is on one bridge network. Load balancers depend on the
  targets of their outbound edges.

The request handler ties the two together: it compiles only topologies that
validate.

Modules, in dependency order:

| file | module | contents |
|---|---|---|
| wrappers.dfy | `Wrappers` | `Option` |
| collections.dfy | `Collections` | counting (`filter(...).length`), concatenation of per-element blocks (a `forEach` that pushes), and an ordered map fold (a `forEach` that assigns into a record), each with its lemmas |
| infrastructure.dfy | `NodeTypes`, `Topology` | the five roles and their wire names; nodes, edges, topologies |
| node_config.dfy | `NodeConfigs` | the tagged configuration union, the falsiness tests, and the default configurations |
| validation.dfy | `Validation` | the rule tables, the per-node configuration check, the three walks and `ValidateInfrastructure` |
| validation_properties.dfy | `ValidationProperties` | counts of each issue kind in the report, stated against the topology |
| validation_layout.dfy | `ValidationLayout` | the report does not depend on positions or payloads |
| docker_compose.dfy | `DockerCompose` | default tables, service names, services and `GenerateDockerCompose` |
| compose_properties.dfy | `ComposeProperties` | one service per node, resolution of dependencies, what the descriptor depends on |
| controller.dfy | `Controller` | validate-then-compile, and a characterisation of accepted topologies without the issue list |
| scenarios.dfy | `Scenarios` | two concrete topologies worked through end to end |

How the source's behaviour is represented:

- **Missing values.** The source tests them with JavaScript falsiness. A port
  is missing when it is absent or 0. A string is missing when it is absent or
  empty. A queue-name list is missing when it is absent or empty.
- **Issues.** An issue is a kind plus optional node and edge ids. The kind
  carries what the message would interpolate, for example the missing roles
  of a coverage warning.
- **Duplicate ids.** The validator's id lookup is filled in node order, so
  with a repeated id the last node wins. The compiler's lookup of a
  dependency's role returns the first node with the id. A dependency on an
  id no node carries becomes `undefined-<id>`.

Three behaviours of the code that are easy to miss:

- **Reverse edges are allowed.** The forbidden-peer table
  (backend/src/services/validation.ts:24-30) forbids neither
  database→app-server nor cache→app-server nor message-queue→app-server
  edges. So the role pairs that escape the forbidden-connection error are
  load balancer→app server, app server→{database, cache, message queue}, and
  {database, cache, message queue}→app server (`Validation.AllowedConnections`).
- **The two-tier topology draws one warning.** A configured load balancer
  in front of one configured app server is valid, but the report is not
  empty. It holds one coverage warning on the app server, because the server
  reaches neither a database nor a cache (backend/src/services/validation.ts:92-108,
  `Scenarios.TwoTierIsAccepted`).
- **Volumes are fixed paths.** Data-store volumes do not depend on the node
  id (backend/src/services/docker-compose.ts:86-97,
  `ComposeProperties.DataStoreServiceIsFixed`).

## Model

| member | source | states |
|---|---|---|
| NodeTypes.NodeTypesClosed | backend/src/types/infrastructure.ts:3 | there are exactly five roles, each listed once; their wire names differ pairwise in the first character (so no name is a prefix of another), and none starts with `u` |
| NodeConfigs.DefaultConfig | frontend/src/types/node-config.ts:44-74 | each default configuration is tagged with its own role, carries every field its variant declares required, and every field the validator inspects is truthy (non-zero port, memory limit, credentials, `maxMemory`, non-empty queue names) |
| ValidationProperties.DefaultConfigIsClean | frontend/src/types/node-config.ts:44-74 | a node carrying its role's default configuration draws no configuration issue |
| Validation.RequiredPeers | backend/src/services/validation.ts:16-22 | the peers each role must reach; its contract is stated by `Validation.RequiredPeersAllowed` |
| Validation.ForbiddenPeers | backend/src/services/validation.ts:24-30 | every role forbids an edge to a load balancer; only an app server forbids an edge to an app server; every role except the app server forbids edges to databases, caches and message queues |
| Validation.RequiredPeersAllowed | backend/src/services/validation.ts:16-30 | each role's required peers are listed without repetition, and no role is required to reach itself or a peer its forbidden table excludes |
| Validation.AllowedConnections | backend/src/services/validation.ts:24-30 | a role pair escapes the forbidden table exactly when it is LB→AS, AS→DB/cache/MQ, or DB/cache/MQ→AS |
| Validation.ConfigIssues | backend/src/services/validation.ts:117-200 | a node without configuration gets exactly one missing-configuration error and nothing else; a configuration tagged with another role gets no issue; otherwise an error comes first exactly when a blocking defect exists (falsy port on LB/AS, falsy credential on a database) and a warning comes last exactly when an advisory defect exists (AS memory limit, cache `maxMemory`, MQ queue names); every issue names the node and no edge |
| Validation.NodeMap | backend/src/services/validation.ts:36-38 | the validator's id lookup; its contract is stated by `Validation.NodeMapKeys`, `Validation.NodeMapIds` and `Validation.NodeMapLast` |
| Validation.NodeMapKeys | backend/src/services/validation.ts:36-38 | the id lookup knows exactly the ids that occur among the nodes |
| Validation.NodeMapIds | backend/src/services/validation.ts:36-38 | every id is looked up to a node carrying that id |
| Validation.NodeMapLast | backend/src/services/validation.ts:36-38 | for a repeated id, the last node carrying it is the one looked up |
| Validation.NodeStep | backend/src/services/validation.ts:37-51 | the issues of one node: its configuration issues, then a duplicate-node error when its id is shared; its contract is stated by `ValidationProperties.NodeStepMissingConfig`, `ValidationProperties.NodeStepDuplicates` and `Controller.NodeStepClean` |
| Validation.NodePhase | backend/src/services/validation.ts:37-52 | the node walk raises only configuration and duplicate-node issues, each naming a node and no edge |
| Validation.EndpointCheck | backend/src/services/validation.ts:68-88 | an edge gets at most one endpoint error: a dangling-reference error exactly when an endpoint names no node, otherwise a forbidden-connection error exactly when the resolved role pair is forbidden, and nothing when neither holds |
| Validation.EdgeStep | backend/src/services/validation.ts:56-88 | the issues of one edge: a duplicate-edge error when its id is shared, then its endpoint check; its contract is stated by `ValidationProperties.EdgeStepDuplicates`, `ValidationProperties.EdgeStepEndpointOnly` and `Controller.EdgeStepClean` |
| Validation.EdgePhase | backend/src/services/validation.ts:56-89 | the edge walk raises only errors, each naming an edge and no node |
| Validation.ConnectedTypes | backend/src/services/validation.ts:96-99 | a role is among a node's connected roles exactly when one of its outbound edges leads to an existing node of that role; edges to missing nodes contribute nothing |
| Validation.MissingTypes | backend/src/services/validation.ts:101 | the missing roles are exactly the required roles not connected, one entry per unconnected required entry (so no role twice when the required list has none twice), and the whole required list when none is connected |
| Validation.CoverageStep | backend/src/services/validation.ts:92-108 | a node gets at most one coverage warning, present exactly when some required role is unreached, naming the node and listing exactly the unreached required roles |
| Validation.CoverageListExact | backend/src/services/validation.ts:101-108 | a coverage warning lists one role per required role the node does not reach; with `Validation.RequiredPeersAllowed` no role is listed twice |
| Validation.CoveragePhase | backend/src/services/validation.ts:92-109 | the coverage walk raises only coverage warnings |
| Validation.ValidateInfrastructure | backend/src/services/validation.ts:32-115 | the report is the node walk, then the edge walk, then the coverage walk; its contract is stated by `Validation.ValidIffOnlyWarnings`, `Controller.ValidIffAcceptable`, `ValidationLayout.ValidationIgnoresLayout` and the per-kind counts in `ValidationProperties` |
| Validation.ValidIffOnlyWarnings | backend/src/services/validation.ts:111-114 | the topology is valid exactly when every issue in the report is a warning; warnings alone never make it invalid |
| ValidationProperties.EmptyTopologyIsClean | backend/src/services/validation.ts:32-115 | no nodes and no edges give a valid result with an empty report |
| ValidationProperties.MissingConfigCount | backend/src/services/validation.ts:120-127 | in total, the report holds exactly one missing-configuration error per node without configuration |
| ValidationProperties.MissingConfigPerNode | backend/src/services/validation.ts:120-127 | for every id, the missing-configuration errors naming it are exactly as many as the nodes with that id and no configuration |
| ValidationProperties.DuplicateNodeIdCount | backend/src/services/validation.ts:45-51 | an id carried by k > 1 nodes draws exactly k duplicate-node errors naming it, and a unique id draws none |
| ValidationProperties.DuplicateEdgeIdCount | backend/src/services/validation.ts:60-66 | an id carried by k > 1 edges draws exactly k duplicate-edge errors naming it, and a unique id draws none |
| ValidationProperties.DanglingEdgeCount | backend/src/services/validation.ts:69-79 | in total, the report holds exactly one dangling-reference error per edge with an endpoint that is not a node id |
| ValidationProperties.DanglingEdgePerEdge | backend/src/services/validation.ts:69-79 | for every edge id, the dangling-reference errors naming it are exactly as many as the edges with that id and an endpoint that is not a node id |
| ValidationProperties.ForbiddenConnectionCount | backend/src/services/validation.ts:81-88 | in total, the report holds exactly one forbidden-connection error per edge whose endpoints both resolve to a forbidden role pair; dangling edges draw none |
| ValidationProperties.ForbiddenConnectionPerEdge | backend/src/services/validation.ts:81-88 | for every edge id, the forbidden-connection errors naming it are exactly as many as the edges with that id whose endpoints resolve to a forbidden role pair |
| ValidationProperties.CoverageWarningCount | backend/src/services/validation.ts:92-108 | in total, the report holds exactly one coverage warning per node that misses a required role |
| ValidationProperties.CoverageWarningPerNode | backend/src/services/validation.ts:92-108 | for every id, the coverage warnings naming it are exactly as many as the nodes with that id that miss a required role |
| ValidationProperties.SilentNodeConnectsNothing | backend/src/services/validation.ts:96-99 | a node with no outbound edge is connected to no role |
| ValidationProperties.LonelyAppServerWarning | backend/src/services/validation.ts:92-108 | an app server with no outbound edge gets exactly one warning, naming database and cache in table order |
| ValidationLayout.ValidationIgnoresLayout | backend/src/types/infrastructure.ts:5-22 | two topologies that agree, position by position, on node ids, roles and configurations and on edge ids and endpoints get the same report: positions and payloads are inert for validation |
| DockerCompose.DefaultImage | backend/src/services/docker-compose.ts:14-20 | the image table; `DockerCompose.Service` states that every service takes its role's entry |
| DockerCompose.DefaultPorts | backend/src/services/docker-compose.ts:22-28 | the port table; `DockerCompose.Service` states that load balancers, databases, caches and message queues publish their role's entry and app servers publish nothing, and `Scenarios.TwoTierDescriptor` shows `8080:80` on a load balancer |
| DockerCompose.DefaultEnv | backend/src/services/docker-compose.ts:30-45 | the environment table; `DockerCompose.Service` states that every service takes its role's entry |
| DockerCompose.DefaultVolumes | backend/src/services/docker-compose.ts:69-96 | the volume each role mounts; `DockerCompose.Service` states that app servers mount nothing and the other roles mount their entry, and `ComposeProperties.DataStoreServiceIsFixed` that data-store volumes do not depend on the node |
| DockerCompose.ServiceName | backend/src/services/docker-compose.ts:58 | the name `<role>-<id>` of a node's service; its contract is stated by `DockerCompose.ServiceNameInjective` and `ComposeProperties.DistinctServiceNames` |
| DockerCompose.ServiceNameInjective | backend/src/services/docker-compose.ts:58 | equal service names imply equal role and equal id |
| DockerCompose.FindNode | backend/src/services/docker-compose.ts:74 | the lookup fails exactly when no node carries the id, and otherwise returns the first node carrying it |
| DockerCompose.DependencyName | backend/src/services/docker-compose.ts:74 | the entry for one edge target; `ComposeProperties.DependencyResolves` states that it names a service exactly when the target is a node id, and `ComposeProperties.UndefinedIsNoServiceName` that the fallback names none |
| DockerCompose.DependsOn | backend/src/services/docker-compose.ts:72-74 | a load balancer's dependency list; `ComposeProperties.LoadBalancerDependencies` states one entry per outbound edge, entry k built from the k-th target |
| DockerCompose.OutboundTargets | backend/src/services/docker-compose.ts:72-73 | there is one target per edge leaving the node, and a string is a target exactly when some edge from the node ends at it |
| DockerCompose.AppServerScript | backend/src/services/docker-compose.ts:78-84 | the app-server start script embeds the node id at a fixed offset |
| DockerCompose.AppServerScriptInjective | backend/src/services/docker-compose.ts:78-84 | different app servers get different start scripts |
| DockerCompose.Service | backend/src/services/docker-compose.ts:59-98 | each service takes its image and environment from the role's tables, joins exactly `app_network` and restarts unless stopped; only load balancers get a dependency list (their outbound targets) and the nginx command; app servers publish no port, mount nothing and run a script naming their node; the other roles publish their table ports, mount their table volume and have no command |
| DockerCompose.SameNameSameService | backend/src/services/docker-compose.ts:57-100 | nodes sharing a service name compile to the same service, so a later node overwriting an earlier one changes nothing |
| DockerCompose.GenerateDockerCompose | backend/src/services/docker-compose.ts:47-101 | the network map is always the single bridge network, whatever the input, and the service names are exactly those of the nodes |
| DockerCompose.Services | backend/src/services/docker-compose.ts:57-100 | the service map, filled in node order; its contract is stated by `DockerCompose.CompiledServices`, `DockerCompose.GenerateDockerCompose` and `ComposeProperties.ServicePerNode` |
| DockerCompose.CompiledServices | backend/src/services/docker-compose.ts:57-100 | each node's service name holds the service that node compiles to, even when a later node with the same name overwrote the entry |
| ComposeProperties.DistinctServiceNames | backend/src/services/docker-compose.ts:57-58 | nodes with distinct ids get distinct service names |
| ComposeProperties.ServicePerNode | backend/src/services/docker-compose.ts:57-100 | with pairwise distinct node ids the descriptor has exactly one service per node |
| ComposeProperties.UndefinedIsNoServiceName | backend/src/services/docker-compose.ts:74 | no node's service is called `undefined-<id>` |
| ComposeProperties.DependencyResolves | backend/src/services/docker-compose.ts:72-74 | a dependency entry names a service of the descriptor exactly when its edge target is a node id |
| ComposeProperties.LoadBalancerDependencies | backend/src/services/docker-compose.ts:68-75 | a load balancer's service depends on one entry per outbound edge; entry k is built from the k-th target and resolves to a service exactly when that target is a node id |
| ComposeProperties.DataStoreServiceIsFixed | backend/src/services/docker-compose.ts:86-97 | database, cache and message-queue services depend on neither the node id nor the edges |
| ComposeProperties.CompileReadsOnlyShape | backend/src/services/docker-compose.ts:57-101 | two topologies agreeing on node ids, node roles and edge endpoints compile to the same descriptor; configurations, positions, payloads and edge ids are ignored |
| Controller.ApplyInfrastructure | backend/src/controllers/infrastructure.ts:11-26 | a rejection carries the validator's whole report; an acceptance carries the compiled descriptor of the same topology together with its report |
| Controller.RejectedIffError | backend/src/controllers/infrastructure.ts:11-26 | a topology is rejected exactly when its report holds an error, and an accepted report holds warnings only |
| Controller.ValidIffWalksClean | backend/src/services/validation.ts:92-114 | validity depends only on the node walk and the edge walk; coverage warnings never block |
| Controller.ValidIffAcceptable | backend/src/services/validation.ts:32-114 | a topology is valid exactly when every node has a configuration without blocking defect and a unique id, and every edge has a unique id, two endpoints that are node ids, and an allowed role pair |
| Controller.AcceptableIdsDistinct | backend/src/services/validation.ts:45-51 | in a valid topology node ids are pairwise distinct |
| Controller.AcceptedServicePerNode | backend/src/controllers/infrastructure.ts:11-24 | an accepted descriptor has exactly one service per node, because validity rules out duplicate node ids |
| Controller.AcceptedDescriptorIsClosed | backend/src/controllers/infrastructure.ts:11-24 | in an accepted descriptor every dependency of every load balancer names one of its services |
| Scenarios.StubTopologyIsRejected | backend/src/index.ts:19-40 | the placeholder topology draws three missing-configuration errors and then two app-server coverage warnings naming database and cache; it is invalid and rejected |
| Scenarios.TwoTierIsAccepted | backend/src/services/validation.ts:32-115 | a configured load balancer linked to a configured app server is valid, with exactly one warning on the app server, and is accepted |
| Scenarios.TwoTierDescriptor | backend/src/services/docker-compose.ts:47-101 | that topology compiles to `load-balancer-1`, publishing `8080:80` and depending on `app-server-2`, and `app-server-2`, publishing nothing, both on `app_network` |

## Left out

- Process control of the compose stack (backend/src/services/docker.ts): it shells out and keeps shared mutable status across asynchronous steps. It is I/O.
- The HTTP layer: routing, status codes, JSON bodies, the response message texts, and the error branch that answers 500 on an exception. The handler is modelled as a function from topology to response.
- The server start-up in backend/src/index.ts. Its placeholder topology is used only as a fixture.
- The frontend components and fetch calls. The frontend copies of the topology and result types duplicate the backend ones.
- Serialising the descriptor to text. The model returns the structured descriptor.
- The message text of each issue. An issue is modelled as a kind plus node and edge ids.
- Input that does not fit the declared types: a role or configuration tag outside the five, a non-integer or NaN port, or a non-string field. Documents arrive as JSON and are not checked against the types at run time, but these cannot be represented in the model.
- Position coordinates are carried as reals and never read.
- The backend's own configuration-type module is not part of this model. The frontend declaration in frontend/src/types/node-config.ts, which the backend mirrors by name, gives the configuration shape.
- The validator's edge-id map and the compiler's app-server port counter. Both are written but never read.
- Sharing of the default tables' arrays and objects between services of one role. This is reference aliasing inside one run, with no effect on the produced descriptor.
- DockerCompose.OutboundTargets: its contract gives how many targets there are and which strings occur, not that they keep edge order. Edge order follows from its definition, which keeps matching edges in sequence.
- Validation.MissingTypes: its contract gives membership and length, not table order in general. Order is stated only for the case where no required role is connected; the concrete app-server warning is proved in table order.
- Validation.CoverageStep: its contract gives which roles the warning lists, not their order; the length is stated by `Validation.CoverageListExact`, and table order only for an app server with no outbound edge (`ValidationProperties.LonelyAppServerWarning`).
