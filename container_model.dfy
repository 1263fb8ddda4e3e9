/**
 * The pure parts of `AbstractContainer`: the values it reads from the Docker
 * client and from an inspect response, the transport-based host resolution,
 * the gateway lookup, the `"{port}/tcp"` mapped-port lookup and the
 * translation of the container's settings into create parameters.
 */
module ContainerModel {
  import opened Outcomes
  import opened Text
  import opened Dicts
  import opened Exceptions

  /** The parts of the client's `EndpointBaseUri` the core reads. */
  datatype Uri = Uri(scheme: string, host: string, absolutePath: string)

  function UriText(u: Uri): string {
    u.scheme + "://" + u.host + u.absolutePath
  }

  /** The client's endpoint and the two facts about the machine the gateway lookup
    * asks for: whether `/.dockerenv` exists and whether the OS is Windows. */
  datatype HostEnv = HostEnv(endpoint: Uri, inDockerEnv: bool, isWindows: bool)

  datatype AccessMode = ReadOnly | ReadWrite

  /** A bind mount: host path, container path and access mode. */
  datatype Bind = Bind(hostPath: string, containerPath: string, accessMode: AccessMode)

  /** The container's network: its name and whether it is a `UserDefinedNetwork`. */
  datatype Network = Network(name: string, userDefined: bool)

  datatype PortBinding = PortBinding(hostPort: Option<string>)

  datatype EndpointSettings = EndpointSettings(gateway: Option<string>)

  /** The parts of `ContainerInspectResponse` the core reads. */
  datatype InspectResponse = InspectResponse(
    name: string,
    gateway: Option<string>,                      // NetworkSettings.Gateway
    networkMode: Option<string>,                  // HostConfig.NetworkMode
    networks: map<string, EndpointSettings>,      // NetworkSettings.Networks
    ports: map<string, seq<PortBinding>>)         // NetworkSettings.Ports

  // ---------------------------------------------------------------------
  // Host and gateway

  /** `GetContainerGateway`: no gateway inside a Docker container, on Windows or
    * before the container was inspected; otherwise the non-blank settings gateway,
    * else the non-blank gateway of the network named by the network mode. */
  function GetContainerGateway(env: HostEnv, info: Option<InspectResponse>): (r: Option<string>)
    ensures env.inDockerEnv || env.isWindows || info.None? ==> r.None?
    ensures r.Some? ==> !IsBlank(r.value)
    ensures !(env.inDockerEnv || env.isWindows || info.None?) && IsNullOrWhiteSpace(info.value.gateway) ==>
      var i := info.value;
      (r.Some? <==> !IsNullOrWhiteSpace(i.networkMode) && i.networkMode.value in i.networks &&
                    !IsNullOrWhiteSpace(i.networks[i.networkMode.value].gateway)) &&
      (r.Some? ==> r == i.networks[i.networkMode.value].gateway)
    ensures !(env.inDockerEnv || env.isWindows || info.None?) && !IsNullOrWhiteSpace(info.value.gateway) ==>
      r == info.value.gateway
  {
    if env.inDockerEnv || env.isWindows || info.None? then None
    else
      var i := info.value;
      if !IsNullOrWhiteSpace(i.gateway) then i.gateway
      else if IsNullOrWhiteSpace(i.networkMode) then None
      else if i.networkMode.value !in i.networks then None
      else
        var g := i.networks[i.networkMode.value].gateway;
        if !IsNullOrWhiteSpace(g) then g else None
  }

  const TransportError: string := "Docker client is using a unsupported transport: "

  predicate IsTcpScheme(s: string) { s == "http" || s == "https" || s == "tcp" }

  predicate IsSocketScheme(s: string) { s == "npipe" || s == "unix" }

  /** `GetDockerHostIpAddress`: the URI host for TCP transports, the gateway or
    * `"localhost"` for local sockets, and an error for any other scheme. */
  function GetDockerHostIpAddress(env: HostEnv, info: Option<InspectResponse>): (r: Result<string, Exn>)
    ensures IsTcpScheme(env.endpoint.scheme) ==> r == Ok(env.endpoint.host)
    ensures IsSocketScheme(env.endpoint.scheme) ==>
      r == Ok(if GetContainerGateway(env, info).Some? then GetContainerGateway(env, info).value else "localhost")
    ensures r.Err? <==> !IsTcpScheme(env.endpoint.scheme) && !IsSocketScheme(env.endpoint.scheme)
    ensures r.Err? ==> r.error.typ == InvalidOperation
  {
    if IsTcpScheme(env.endpoint.scheme) then Ok(env.endpoint.host)
    else if IsSocketScheme(env.endpoint.scheme) then
      match GetContainerGateway(env, info)
      case Some(g) => Ok(g)
      case None => Ok("localhost")
    else Err(Make(InvalidOperation, TransportError + UriText(env.endpoint)))
  }

  /** Before the container is inspected a local-socket transport resolves to
    * `"localhost"`, and so does any socket transport inside a Docker container. */
  lemma SocketHostBeforeStart(env: HostEnv, info: Option<InspectResponse>)
    requires IsSocketScheme(env.endpoint.scheme)
    requires info.None? || env.inDockerEnv || env.isWindows
    ensures GetDockerHostIpAddress(env, info) == Ok("localhost")
  {
  }

  // ---------------------------------------------------------------------
  // Mapped ports

  /** `string.Format("{0}/tcp", port)`. */
  function TcpPortKey(port: int): string {
    IntToString(port) + "/tcp"
  }

  /** Different ports have different keys. */
  lemma TcpPortKeyInjective(p: int, q: int)
    ensures TcpPortKey(p) == TcpPortKey(q) ==> p == q
  {
    if TcpPortKey(p) == TcpPortKey(q) {
      var a, b := IntToString(p), IntToString(q);
      assert |a| == |b|;
      assert a == TcpPortKey(p)[..|a|] && b == TcpPortKey(q)[..|b|];
      IntToStringInjective(p, q);
    }
  }

  const NotStartedMessage: string := "Container must be started before mapped ports can be retrieved"

  function NotMapped(port: int): Exn {
    Make(InvalidOperation, "ExposedPort[" + IntToString(port) + "] is not mapped")
  }

  /** `GetMappedPort`: the first binding's host port under `"<port>/tcp"`, parsed as
    * an Int32; an error before start, for a missing key, an empty binding list or a
    * host port that does not parse. */
  function GetMappedPort(info: Option<InspectResponse>, port: int): (r: Result<int, Exn>)
    ensures info.None? ==> r == Err(Make(InvalidOperation, NotStartedMessage))
    ensures r.Ok? <==> (info.Some? && TcpPortKey(port) in info.value.ports &&
                        |info.value.ports[TcpPortKey(port)]| > 0 &&
                        info.value.ports[TcpPortKey(port)][0].hostPort.Some? &&
                        ParseInt32(info.value.ports[TcpPortKey(port)][0].hostPort.value).Some?)
    ensures r.Ok? ==> Some(r.value) == ParseInt32(info.value.ports[TcpPortKey(port)][0].hostPort.value)
    ensures info.Some? && r.Err? ==> r == Err(NotMapped(port))
  {
    if info.None? then Err(Make(InvalidOperation, NotStartedMessage))
    else
      var key := TcpPortKey(port);
      var ports := info.value.ports;
      if key in ports && |ports[key]| > 0 && ports[key][0].hostPort.Some? then
        match ParseInt32(ports[key][0].hostPort.value)
        case Some(v) => Ok(v)
        case None => Err(NotMapped(port))
      else Err(NotMapped(port))
  }

  // ---------------------------------------------------------------------
  // Create parameters

  /** The container settings `ApplyConfiguration` reads. */
  datatype ContainerConfig = ContainerConfig(
    imageName: string,
    env: Dict<string, string>,
    exposedPorts: seq<int>,
    portBindings: Dict<int, int>,
    labels: Dict<string, string>,
    bindMounts: seq<Bind>,
    network: Option<Network>,
    aliases: seq<string>,
    privileged: bool,
    workingDir: Option<string>,
    command: seq<string>,
    autoRemove: bool)

  datatype Mount = Mount(source: string, target: string, readOnly: bool, kind: string)

  /** `CreateContainerParameters` with its `HostConfig` and `NetworkingConfig`. */
  datatype CreateParameters = CreateParameters(
    image: string,
    env: seq<string>,
    exposedPorts: Dict<string, ()>,
    labels: Dict<string, string>,
    workingDir: Option<string>,
    cmd: seq<string>,
    tty: bool,
    attachStderr: bool,
    attachStdout: bool,
    autoRemove: bool,
    networkMode: Option<string>,
    portBindings: Dict<string, seq<PortBinding>>,
    mounts: seq<Mount>,
    publishAllPorts: bool,
    privileged: bool,
    endpoints: Option<Dict<string, seq<string>>>)

  function EnvStrings(env: seq<(string, string)>): (r: seq<string>)
    ensures |r| == |env| && forall i :: 0 <= i < |env| ==> r[i] == env[i].0 + "=" + env[i].1
  {
    seq(|env|, i requires 0 <= i < |env| => env[i].0 + "=" + env[i].1)
  }

  function ExposedPortEntries(ports: seq<int>): (r: seq<(string, ())>)
    ensures |r| == |ports| && forall i :: 0 <= i < |ports| ==> r[i] == (TcpPortKey(ports[i]), ())
  {
    seq(|ports|, i requires 0 <= i < |ports| => (TcpPortKey(ports[i]), ()))
  }

  predicate DistinctPorts(ports: seq<int>) {
    forall i, j :: 0 <= i < j < |ports| ==> ports[i] != ports[j]
  }

  /** The port-binding dictionary: a one-element binding list per entry, whose host
    * port is the bound port's text. Its keys are distinct because the source
    * dictionary's are and `TcpPortKey` is injective. */
  function PortBindingEntries(pb: Dict<int, int>): (r: Dict<string, seq<PortBinding>>)
    ensures |r| == |pb|
    ensures forall i :: 0 <= i < |pb| ==>
      r[i] == (TcpPortKey(pb[i].0), [PortBinding(Some(IntToString(pb[i].1)))])
  {
    var r := seq(|pb|, i requires 0 <= i < |pb| => (TcpPortKey(pb[i].0), [PortBinding(Some(IntToString(pb[i].1)))]));
    assert DistinctKeys(r) by {
      forall i, j | 0 <= i < j < |r| ensures r[i].0 != r[j].0 {
        TcpPortKeyInjective(pb[i].0, pb[j].0);
      }
    }
    r
  }

  function Mounts(binds: seq<Bind>): (r: seq<Mount>)
    ensures |r| == |binds|
    ensures forall i :: 0 <= i < |binds| ==>
      r[i].source == binds[i].hostPath && r[i].target == binds[i].containerPath &&
      (r[i].readOnly <==> binds[i].accessMode == ReadOnly) && r[i].kind == "bind"
  {
    seq(|binds|, i requires 0 <= i < |binds| =>
      Mount(binds[i].hostPath, binds[i].containerPath, binds[i].accessMode == ReadOnly, "bind"))
  }

  /** `ApplyConfiguration`. `ExposedPorts.ToDictionary` throws on a port listed
    * twice; everything else is a direct translation. */
  function ApplyConfiguration(cfg: ContainerConfig): (r: Result<CreateParameters, Exn>)
    ensures r.Ok? ==>
      var p := r.value;
      p.image == cfg.imageName && p.env == EnvStrings(cfg.env) && p.labels == cfg.labels &&
      p.exposedPorts == ExposedPortEntries(cfg.exposedPorts) &&
      p.portBindings == PortBindingEntries(cfg.portBindings) && p.mounts == Mounts(cfg.bindMounts) &&
      p.publishAllPorts && p.tty && p.attachStderr && p.attachStdout &&
      p.autoRemove == cfg.autoRemove && p.privileged == cfg.privileged &&
      p.workingDir == cfg.workingDir && p.cmd == cfg.command &&
      p.networkMode == (if cfg.network.Some? then Some(cfg.network.value.name) else None) &&
      (p.endpoints.Some? <==> cfg.network.Some? && cfg.network.value.userDefined) &&
      (p.endpoints.Some? ==> p.endpoints.value == [(cfg.network.value.name, cfg.aliases)])
    ensures r.Err? ==> r.error.typ == Argument
  {
    var (exposed, ok) := AddAll([], ExposedPortEntries(cfg.exposedPorts));
    if !ok then
      Err(DuplicateKey(ExposedPortEntries(cfg.exposedPorts)[|exposed|].0))
    else
      assert exposed == ExposedPortEntries(cfg.exposedPorts);
      var endpoints: Option<Dict<string, seq<string>>> :=
        if cfg.network.Some? && cfg.network.value.userDefined then Some([(cfg.network.value.name, cfg.aliases)])
        else None;
      Ok(CreateParameters(
        cfg.imageName, EnvStrings(cfg.env), exposed, cfg.labels, cfg.workingDir, cfg.command,
        true, true, true, cfg.autoRemove,
        if cfg.network.Some? then Some(cfg.network.value.name) else None,
        PortBindingEntries(cfg.portBindings), Mounts(cfg.bindMounts), true, cfg.privileged, endpoints))
  }

  /** The `"{port}/tcp"` keys are distinct exactly when the ports are. */
  lemma ExposedPortKeysDistinct(ports: seq<int>)
    ensures DistinctKeys(ExposedPortEntries(ports)) <==> DistinctPorts(ports)
  {
    var e := ExposedPortEntries(ports);
    if DistinctPorts(ports) {
      forall i, j | 0 <= i < j < |e| ensures e[i].0 != e[j].0 {
        TcpPortKeyInjective(ports[i], ports[j]);
      }
    } else {
      var i, j :| 0 <= i < j < |ports| && ports[i] == ports[j];
      assert e[i].0 == e[j].0;
    }
  }

  /** Creating fails exactly when some port is exposed twice. */
  lemma ApplyConfigurationFailsIff(cfg: ContainerConfig)
    ensures ApplyConfiguration(cfg).Err? <==> !DistinctPorts(cfg.exposedPorts)
  {
    var e := ExposedPortEntries(cfg.exposedPorts);
    AddAllSucceedsIff([], e);
    assert [] + e == e;
    ExposedPortKeysDistinct(cfg.exposedPorts);
  }

  /** A port binding requested at create time is what `GetMappedPort` reports once
    * the daemon's inspect response lists the bindings as they were requested. */
  lemma MappedPortOfRequestedBinding(cfg: ContainerConfig, info: InspectResponse, k: int, v: int)
    requires ApplyConfiguration(cfg).Ok?
    requires (k, v) in cfg.portBindings && Int32Min <= v <= Int32Max
    requires forall e :: e in ApplyConfiguration(cfg).value.portBindings ==> e.0 in info.ports && info.ports[e.0] == e.1
    ensures GetMappedPort(Some(info), k) == Ok(v)
  {
    var i :| 0 <= i < |cfg.portBindings| && cfg.portBindings[i] == (k, v);
    var pb := ApplyConfiguration(cfg).value.portBindings;
    assert pb[i] == (TcpPortKey(k), [PortBinding(Some(IntToString(v)))]);
    assert pb[i] in pb;
    IntToStringRoundTrip(v);
  }
}
