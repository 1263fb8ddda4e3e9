/**
 * The state of an `AbstractContainer`: the settings its subclasses fill in
 * while configuring, the fields the start pipeline sets step by step, and the
 * fields a few subclasses add. C# subclassing becomes a `Kind` tag; the
 * subclass hooks live in one module per subclass and act on this class.
 */
module Containers {
  import opened Outcomes
  import opened Dicts
  import opened Exceptions
  import opened ContainerModel

  /** The concrete container classes of the core. */
  datatype Kind = Generic | Ryuk | MsSql | MySql | PostgreSql | ArangoDb

  /** The `IWaitStrategy` a container holds: `NoWaitStrategy`, an
    * `ExposedPortsWaitStrategy` over its ports, or a probing strategy with its
    * whitelist of retried exception types (`ProbingStrategy`, `AdoNetSqlProbeStrategy`). */
  datatype WaitStrategy = NoWait | ExposedPortsWait(ports: seq<int>) | ProbingWait(types: seq<ExnType>)

  /** The steps of `StartAsync`, in the order it runs them. */
  datatype Phase =
    | ConfigureHook | StartingHook | ImageStep | NetworkStep | CreateStep | StartStep
    | StartedHook | ServicesStep | ServiceStartedHook

  const Pipeline: seq<Phase> :=
    [ConfigureHook, StartingHook, ImageStep, NetworkStep, CreateStep, StartStep, StartedHook, ServicesStep, ServiceStartedHook]

  /** The Docker Engine calls the container makes itself. */
  datatype DockerCall =
    | ResolveImageCall(image: string)
    | ResolveNetworkCall(network: string)
    | CreateCall(config: ContainerConfig)       // sends ApplyConfiguration(config)
    | StartCall(id: string)
    | InspectCall(id: string)
    | StopCall(id: string)
    | RemoveCall(id: string)

  /** `IDatabaseContext`: what a database container is configured with. */
  datatype DatabaseContext = DatabaseContext(databaseName: Option<string>, username: Option<string>, password: Option<string>)

  /** A connection string, as the settings put into its builder, in order. */
  type ConnectionSettings = seq<(string, string)>

  class Container {
    const kind: Kind
    const imageName: string                        // DockerImageName
    const context: DatabaseContext                 // the database containers' context

    var containerId: Option<string>
    var containerInfo: Option<InspectResponse>
    var containerName: Option<string>

    var exposedPorts: seq<int>
    var portBindings: Dict<int, int>
    var env: Dict<string, string>
    var labels: Dict<string, string>
    var bindMounts: seq<Bind>
    var network: Option<Network>
    var aliases: seq<string>
    var privileged: bool
    var workingDir: Option<string>
    var command: seq<string>
    var autoRemove: bool
    var waitStrategy: WaitStrategy

    var connectionSettings: Option<ConnectionSettings>   // the database containers' _connectionString
    var tcpConnection: Option<(string, int)>             // RyukContainer's open TcpClient (host, port)

    ghost var phases: seq<Phase>                          // the steps entered, in order
    var calls: seq<DockerCall>

    /** A new container: nothing set yet, no wait strategy. */
    constructor(kind: Kind, imageName: string, context: DatabaseContext)
      ensures this.kind == kind && this.imageName == imageName && this.context == context
      ensures containerId.None? && containerInfo.None? && containerName.None?
      ensures exposedPorts == [] && portBindings == [] && env == [] && labels == [] && bindMounts == []
      ensures network.None? && aliases == [] && !privileged && workingDir.None? && command == [] && !autoRemove
      ensures waitStrategy == NoWait && connectionSettings.None? && tcpConnection.None?
      ensures phases == [] && calls == []
    {
      this.kind := kind;
      this.imageName := imageName;
      this.context := context;
      containerId, containerInfo, containerName := None, None, None;
      exposedPorts, portBindings, env, labels, bindMounts := [], [], [], [], [];
      network, aliases, privileged, workingDir, command, autoRemove := None, [], false, None, [], false;
      waitStrategy, connectionSettings, tcpConnection := NoWait, None, None;
      phases, calls := [], [];
    }

    /** The settings `ApplyConfiguration` reads. */
    function Config(): ContainerConfig
      reads this`env, this`exposedPorts, this`portBindings, this`labels, this`bindMounts, this`network,
            this`aliases, this`privileged, this`workingDir, this`command, this`autoRemove
    {
      ContainerConfig(imageName, env, exposedPorts, portBindings, labels, bindMounts, network, aliases,
                      privileged, workingDir, command, autoRemove)
    }
  }

  /** `Username`: fixed by the MsSql and ArangoDb containers, the context's otherwise. */
  function Username(kind: Kind, context: DatabaseContext): (r: Option<string>)
    ensures kind == MsSql ==> r == Some("sa")
    ensures kind == ArangoDb ==> r == Some("root")
    ensures kind != MsSql && kind != ArangoDb ==> r == context.username
  {
    match kind
    case MsSql => Some("sa")
    case ArangoDb => Some("root")
    case _ => context.username
  }

  /** `DatabaseName`: fixed by the ArangoDb container, the context's otherwise. */
  function DatabaseName(kind: Kind, context: DatabaseContext): (r: Option<string>)
    ensures kind == ArangoDb ==> r == Some("_system")
    ensures kind != ArangoDb ==> r == context.databaseName
  {
    if kind == ArangoDb then Some("_system") else context.databaseName
  }

  /** How `$"{k}={v}"` and `Env.Add(k, v)` render a `null` value. */
  function OrEmpty(s: Option<string>): string {
    if s.Some? then s.value else ""
  }

  /** `Env.Add(key, value)` on the container: the duplicate-key exception, or the entry appended. */
  method AddEnv(c: Container, key: string, value: string) returns (o: Outcome<Exn>)
    modifies c`env
    ensures o.Fail? <==> key in Keys(old(c.env))
    ensures o.Fail? ==> o.error == DuplicateKey(key) && c.env == old(c.env)
    ensures o.Pass? ==> c.env == old(c.env) + [(key, value)]
  {
    match Add(c.env, key, value)
    case None =>
      return Fail(DuplicateKey(key));
    case Some(e) =>
      c.env := e;
      return Pass;
  }

  /** Successive `Env.Add` calls, stopping at the first that throws; the
    * entries added before it stay. */
  method AddEnvAll(c: Container, entries: seq<(string, string)>) returns (o: Outcome<Exn>)
    modifies c`env
    ensures (c.env, o.Pass?) == AddAll(old(c.env), entries)
    ensures o.Fail? ==> o.error == DuplicateKey(entries[|c.env| - |old(c.env)|].0)
  {
    var before := c.env;
    var env, ok := AddEach(before, entries);
    c.env := env;
    o := if ok then Pass else Fail(DuplicateKey(entries[|env| - |before|].0));
  }
}
