/** Per-role node configuration: a tagged union whose discriminant is the
    constructor, a shared optional base, the role-specific fields and the table
    of default configurations offered for new nodes. Documents arrive as JSON,
    so every field a role declares as required may still be absent at run
    time; the fields are therefore optional here and the validator decides. */
module NodeConfigs {
  import opened Wrappers
  import opened NodeTypes

  /** The optional fields every configuration variant shares. */
  datatype BaseConfig = BaseConfig(
    port: Option<int>,
    healthCheckPath: Option<string>,
    memoryLimit: Option<string>,
    cpuLimit: Option<string>)

  datatype NodeConfig =
    | LoadBalancerConfig(base: BaseConfig)
    | AppServerConfig(base: BaseConfig)
    | DatabaseConfig(base: BaseConfig, username: Option<string>, password: Option<string>, databaseName: Option<string>)
    | CacheConfig(base: BaseConfig, maxMemory: Option<string>)
    | MessageQueueConfig(base: BaseConfig, queueNames: Option<seq<string>>)

  /** The `type` tag of a configuration. */
  function Discriminant(c: NodeConfig): NodeType
  {
    match c
    case LoadBalancerConfig(_) => LoadBalancer
    case AppServerConfig(_) => AppServer
    case DatabaseConfig(_, _, _, _) => Database
    case CacheConfig(_, _) => Cache
    case MessageQueueConfig(_, _) => MessageQueue
  }

  /** The fields each variant declares as required are present: a port for load
      balancers and app servers, the three credentials for databases,
      `maxMemory` for caches and `queueNames` for message queues. */
  predicate HasDeclaredFields(c: NodeConfig)
  {
    match c
    case LoadBalancerConfig(b) => b.port.Some?
    case AppServerConfig(b) => b.port.Some?
    case DatabaseConfig(_, u, p, d) => u.Some? && p.Some? && d.Some?
    case CacheConfig(_, m) => m.Some?
    case MessageQueueConfig(_, q) => q.Some?
  }

  /** JavaScript falsiness of an optional number: absent or zero. */
  predicate FalsyNumber(v: Option<int>)
  {
    v.None? || v.value == 0
  }

  /** JavaScript falsiness of an optional string: absent or empty. */
  predicate FalsyText(v: Option<string>)
  {
    v.None? || v.value == ""
  }

  /** An absent or empty list of queue names. */
  predicate NoQueueNames(q: Option<seq<string>>)
  {
    q.None? || |q.value| == 0
  }

  /** The configuration a freshly placed node of role `t` starts with. Each one
      is tagged with its own role, carries every declared field, and every field
      the validator inspects is truthy. */
  function DefaultConfig(t: NodeType): (c: NodeConfig)
    ensures Discriminant(c) == t
    ensures HasDeclaredFields(c)
    ensures !FalsyNumber(c.base.port)
    ensures c.AppServerConfig? ==> !FalsyText(c.base.memoryLimit)
    ensures c.DatabaseConfig? ==> !FalsyText(c.username) && !FalsyText(c.password) && !FalsyText(c.databaseName)
    ensures c.CacheConfig? ==> !FalsyText(c.maxMemory)
    ensures c.MessageQueueConfig? ==> !NoQueueNames(c.queueNames)
  {
    match t
    case LoadBalancer =>
      LoadBalancerConfig(BaseConfig(Some(8080), Some("/health"), None, None))
    case AppServer =>
      AppServerConfig(BaseConfig(Some(3000), Some("/health"), Some("512M"), Some("0.5")))
    case Database =>
      DatabaseConfig(BaseConfig(Some(5432), None, None, None), Some("admin"), Some("password"), Some("app"))
    case Cache =>
      CacheConfig(BaseConfig(Some(6379), None, None, None), Some("256M"))
    case MessageQueue =>
      MessageQueueConfig(BaseConfig(Some(5672), None, None, None), Some(["default"]))
  }
}
