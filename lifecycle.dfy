/**
 * `AbstractContainer.StartAsync` and `StopAsync`: the guards, the order of the
 * steps, the cancellation checks, and the virtual hooks of the concrete
 * container classes, dispatched on the container's `Kind`. Every exception
 * ends the start at the step that raised it.
 */
module Lifecycle {
  import opened Outcomes
  import opened Exceptions
  import opened ContainerModel
  import opened Containers
  import StartupCheck
  import ExposedPortsWait
  import Probing
  import AbstractionsReaper
  import GenericContainer
  import AdoNet
  import Ryuk
  import MsSql
  import MySql
  import PostgreSql
  import ArangoDb

  /** What the outside world answers during a start or a stop: the Docker
    * client's endpoint and the host facts, whether cancellation was requested,
    * the daemon's replies, the states the startup check inspects, the outcomes
    * of the connections and probes the wait strategies try, and the reaper's
    * environment variables. */
  datatype World = World(
    env: HostEnv,
    cancelled: bool,
    imageResolved: Outcome<Exn>,
    networkResolved: Outcome<Exn>,
    created: Result<string, Exn>,
    started: Result<bool, Exn>,
    states: nat -> Result<StartupCheck.ContainerState, Exn>,
    inspected: Result<InspectResponse, Exn>,
    connects: nat -> (string, int) -> bool,
    probes: nat -> Outcome<Exn>,
    ryukConnects: bool,
    reaperDisabledVar: Option<string>,
    reaperImageVar: Option<string>)

  function StartFailure(id: string): Exn {
    Make(ContainerLaunch, "Unable to start container: " + id)
  }

  /** The result of the container's wait strategy. */
  function WaitVerdict(w: WaitStrategy, world: World, info: Option<InspectResponse>): Outcome<Exn> {
    match w
    case NoWait => Pass
    case ExposedPortsWait(ports) =>
      ExposedPortsWait.Verdict(ExposedPortsWait.FailedMessage, GetDockerHostIpAddress(world.env, info),
                               (p: int) => GetMappedPort(info, p), ports, world.connects)
    case ProbingWait(types) =>
      Probing.Verdict(types, world.probes, Probing.DefaultTimeoutMs, Probing.DefaultRetryIntervalMs)
  }

  // ---------------------------------------------------------------------
  // The virtual hooks

  /** `ConfigureAsync` of the container's class: each kind does what its own
    * `ConfigureAsync` does and leaves the settings it does not touch alone;
    * the `AdoNetContainer` classes are dispatched by `ConfigureAdoNet`. */
  method ConfigureAsync(c: Container, sessionId: string, env: HostEnv) returns (o: Outcome<Exn>)
    modifies c`labels, c`waitStrategy, c`exposedPorts, c`env, c`bindMounts, c`autoRemove
    ensures c.kind != Ryuk ==> c.bindMounts == old(c.bindMounts) && c.autoRemove == old(c.autoRemove)
    ensures c.kind == Generic ==>
      (c.labels, o.Pass?) == Dicts.AddAll(old(c.labels), AbstractionsReaper.Labels(sessionId)) &&
      c.waitStrategy == old(c.waitStrategy) && c.exposedPorts == old(c.exposedPorts) && c.env == old(c.env)
    ensures c.kind == Ryuk ==>
      o.Pass? && c.labels == old(c.labels) && c.env == old(c.env) &&
      c.waitStrategy == ExposedPortsWait([Ryuk.RyukPort]) && c.exposedPorts == old(c.exposedPorts) + [Ryuk.RyukPort] &&
      c.bindMounts == old(c.bindMounts) + [Bind(env.endpoint.absolutePath, env.endpoint.absolutePath, ReadOnly)] &&
      c.autoRemove
    ensures c.kind in {ArangoDb, MsSql, MySql, PostgreSql} ==>
      DatabaseConfigured(c, sessionId, old(c.labels), old(c.waitStrategy), old(c.exposedPorts), old(c.env), o)
  {
    match c.kind
    case Generic => o := GenericContainer.Configure(c, sessionId);
    case Ryuk => Ryuk.Configure(c, env); o := Pass;
    case _ => o := ConfigureDatabase(c, sessionId);
  }

  /** What the `ConfigureAsync` of each database container class leaves in
    * `c`, given the settings before it: the SQL Server password check and
    * the ADO.NET configuration with that class's port and variables, or
    * ArangoDB's own configuration. */
  predicate DatabaseConfigured(c: Container, sessionId: string, labels0: Dicts.Dict<string, string>,
                               wait0: WaitStrategy, ports0: seq<int>, env0: Dicts.Dict<string, string>,
                               o: Outcome<Exn>)
    reads c`labels, c`waitStrategy, c`exposedPorts, c`env
  {
    match c.kind
    case MsSql =>
      if MsSql.ValidatePassword(c.context.password).Fail? then
        o == MsSql.ValidatePassword(c.context.password) &&
        c.labels == labels0 && c.waitStrategy == wait0 && c.exposedPorts == ports0 && c.env == env0
      else
        AdoNet.ConfiguredWith(c, sessionId, MsSql.DefaultPort, MsSql.Env(c.context.password.value),
                              labels0, wait0, ports0, env0, o)
    case MySql =>
      AdoNet.ConfiguredWith(c, sessionId, MySql.DefaultPort, MySql.Env(c.context), labels0, wait0, ports0, env0, o)
    case PostgreSql =>
      AdoNet.ConfiguredWith(c, sessionId, PostgreSql.PostgreSqlPort, PostgreSql.Env(c.context),
                            labels0, wait0, ports0, env0, o)
    case ArangoDb =>
      ArangoDb.Configured(c, sessionId, labels0, wait0, ports0, env0, o)
    case _ => false
  }

  /** `ConfigureAsync` of the database container classes. */
  method ConfigureDatabase(c: Container, sessionId: string) returns (o: Outcome<Exn>)
    requires c.kind in {ArangoDb, MsSql, MySql, PostgreSql}
    modifies c`labels, c`waitStrategy, c`exposedPorts, c`env
    ensures DatabaseConfigured(c, sessionId, old(c.labels), old(c.waitStrategy), old(c.exposedPorts), old(c.env), o)
  {
    match c.kind
    case ArangoDb => o := ArangoDb.Configure(c, sessionId);
    case MsSql => o := MsSql.Configure(c, sessionId);
    case MySql => o := MySql.Configure(c, sessionId);
    case PostgreSql => o := PostgreSql.Configure(c, sessionId);
  }

  /** `ContainerStarting`: every `GenericContainer` starts the reaper; the
    * reaper's own container does nothing. */
  method ContainerStarting(c: Container, reaper: AbstractionsReaper.ResourceReaper, world: World) returns (o: Outcome<Exn>)
    requires reaper.Valid()
    modifies reaper
    ensures reaper.Valid() && o.Pass?
    ensures c.kind == Ryuk ==> unchanged(reaper)
    ensures c.kind != Ryuk && !AbstractionsReaper.ReaperDisabled(world.reaperDisabledVar) ==>
      reaper.completed && reaper.ryukCreations == 1 && reaper.hookRegistered &&
      reaper.ryukImage == (if old(reaper.initialised) then old(reaper.ryukImage)
                           else Some(AbstractionsReaper.ReaperImage(world.reaperImageVar))) &&
      reaper.filters == old(reaper.filters) +
        (if old(reaper.initialised) then [] else [AbstractionsReaper.LabelsFilter(AbstractionsReaper.Labels(reaper.sessionId))])
    ensures c.kind != Ryuk && AbstractionsReaper.ReaperDisabled(world.reaperDisabledVar) ==>
      reaper.ryukCreations == old(reaper.ryukCreations) && reaper.hookRegistered == old(reaper.hookRegistered) &&
      reaper.ryukImage == old(reaper.ryukImage) && reaper.filters == old(reaper.filters)
    ensures reaper.imagesToDelete == old(reaper.imagesToDelete)
  {
    if c.kind == Ryuk {
      return Pass;
    }
    o := GenericContainer.ContainerStarting(reaper, world.reaperDisabledVar, world.reaperImageVar);
  }

  /** `ContainerStarted`: the relational databases build and store their
    * connection settings, or throw the error building them raised. */
  method ContainerStarted(c: Container, env: HostEnv) returns (o: Outcome<Exn>)
    modifies c`connectionSettings
    ensures c.kind !in {MsSql, MySql, PostgreSql} ==> o.Pass? && c.connectionSettings == old(c.connectionSettings)
    ensures c.kind == MsSql ==>
      var r := MsSql.ConnectionSettingsFor(env, old(c.containerInfo), c.context);
      o == (if r.Ok? then Pass else Fail(r.error)) &&
      c.connectionSettings == (if r.Ok? then Some(r.value) else old(c.connectionSettings))
    ensures c.kind == MySql ==>
      var r := MySql.ConnectionSettingsFor(env, old(c.containerInfo), c.context);
      o == (if r.Ok? then Pass else Fail(r.error)) &&
      c.connectionSettings == (if r.Ok? then Some(r.value) else old(c.connectionSettings))
    ensures c.kind == PostgreSql ==>
      var r := PostgreSql.ConnectionSettingsFor(env, old(c.containerInfo), c.context);
      o == (if r.Ok? then Pass else Fail(r.error)) &&
      c.connectionSettings == (if r.Ok? then Some(r.value) else old(c.connectionSettings))
  {
    match c.kind
    case MsSql => o := MsSql.ContainerStarted(c, env);
    case MySql => o := MySql.ContainerStarted(c, env);
    case PostgreSql => o := PostgreSql.ContainerStarted(c, env);
    case _ => o := Pass;
  }

  /** `ServiceStarted`: the reaper's container opens its connection to the
    * mapped 8080 port, or throws the host's, the port's or the connect error. */
  method ServiceStarted(c: Container, world: World) returns (o: Outcome<Exn>)
    modifies c`tcpConnection
    ensures c.kind != Ryuk ==> o.Pass? && c.tcpConnection == old(c.tcpConnection)
    ensures c.kind == Ryuk ==>
      var host := GetDockerHostIpAddress(world.env, old(c.containerInfo));
      var port := GetMappedPort(old(c.containerInfo), Ryuk.RyukPort);
      && (host.Err? ==> o == Fail(host.error) && c.tcpConnection == old(c.tcpConnection))
      && (host.Ok? && port.Err? ==> o == Fail(port.error) && c.tcpConnection == old(c.tcpConnection))
      && (host.Ok? && port.Ok? ==>
            o == (if world.ryukConnects then Pass else Fail(ConnectionRefused)) &&
            c.tcpConnection == (if world.ryukConnects then Some((host.value, port.value)) else old(c.tcpConnection)))
  {
    if c.kind == Ryuk {
      o := Ryuk.ServiceStarted(c, world.env, world.ryukConnects);
    } else {
      o := Pass;
    }
  }

  /** `ContainerStopping`: the reaper's container closes its connection. */
  method ContainerStopping(c: Container)
    modifies c`tcpConnection
    ensures c.kind == Ryuk ==> c.tcpConnection.None?
    ensures c.kind != Ryuk ==> c.tcpConnection == old(c.tcpConnection)
  {
    if c.kind == Ryuk {
      Ryuk.ContainerStopping(c);
    }
  }

  // ---------------------------------------------------------------------
  // The private steps

  /** `ResolveImage`: nothing once cancelled, otherwise the image's `Resolve`. */
  method ResolveImage(c: Container, world: World) returns (o: Outcome<Exn>)
    modifies c`calls
    ensures world.cancelled ==> o.Pass? && c.calls == old(c.calls)
    ensures !world.cancelled ==> o == world.imageResolved && c.calls == old(c.calls) + [ResolveImageCall(c.imageName)]
  {
    if world.cancelled {
      return Pass;
    }
    c.calls := c.calls + [ResolveImageCall(c.imageName)];
    o := world.imageResolved;
  }

  /** `ResolveNetwork`: nothing once cancelled or without a network. */
  method ResolveNetwork(c: Container, world: World) returns (o: Outcome<Exn>)
    modifies c`calls
    ensures world.cancelled || c.network.None? ==> o.Pass? && c.calls == old(c.calls)
    ensures !world.cancelled && c.network.Some? ==>
      o == world.networkResolved && c.calls == old(c.calls) + [ResolveNetworkCall(c.network.value.name)]
  {
    if world.cancelled || c.network.None? {
      return Pass;
    }
    c.calls := c.calls + [ResolveNetworkCall(c.network.value.name)];
    o := world.networkResolved;
  }

  /** `CreateContainer`, with its result stored as the container id: `null` once
    * cancelled, otherwise the id the daemon assigns to the applied configuration. */
  method CreateContainer(c: Container, world: World) returns (o: Outcome<Exn>)
    modifies c`calls, c`containerId
    ensures world.cancelled ==> o.Pass? && c.containerId.None? && c.calls == old(c.calls)
    ensures !world.cancelled && !DistinctPorts(c.exposedPorts) ==>
      o.Fail? && o.error.typ == Argument && c.calls == old(c.calls) && c.containerId == old(c.containerId)
    ensures !world.cancelled && DistinctPorts(c.exposedPorts) ==>
      c.calls == old(c.calls) + [CreateCall(old(c.Config()))] &&
      (o.Pass? <==> world.created.Ok?) &&
      (o.Pass? ==> c.containerId == Some(world.created.value)) &&
      (o.Fail? ==> o.error == world.created.error && c.containerId == old(c.containerId))
  {
    if world.cancelled {
      c.containerId := None;
      return Pass;
    }
    var parameters := ApplyConfiguration(c.Config());
    ApplyConfigurationFailsIff(c.Config());
    if parameters.Err? {
      return Fail(parameters.error);
    }
    c.calls := c.calls + [CreateCall(c.Config())];
    match world.created
    case Err(e) =>
      return Fail(e);
    case Ok(id) =>
      c.containerId := Some(id);
      return Pass;
  }

  /** `StartContainer`: start, wait with the startup strategy, then inspect.
    * A daemon that reports the start as not done is a `ContainerLaunchException`;
    * every exception is rethrown as it is. */
  method StartContainer(c: Container, world: World) returns (o: Outcome<Exn>)
    requires world.cancelled || c.containerId.Some?
    modifies c`calls, c`containerInfo, c`containerName
    ensures world.cancelled ==> o.Pass? && c.calls == old(c.calls) && c.containerInfo == old(c.containerInfo)
    ensures !world.cancelled ==>
      var id := c.containerId.value;
      (world.started.Err? ==> o == Fail(world.started.error)) &&
      (world.started == Ok(false) ==> o == Fail(StartFailure(id))) &&
      (world.started == Ok(true) && StartupCheck.Verdict(world.states).Fail? ==> o == StartupCheck.Verdict(world.states)) &&
      (world.started == Ok(true) && StartupCheck.Verdict(world.states).Pass? ==>
        c.calls == old(c.calls) + [StartCall(id), InspectCall(id)] &&
        (o.Pass? <==> world.inspected.Ok?) &&
        (o.Fail? ==> o.error == world.inspected.error) &&
        (o.Pass? ==> c.containerInfo == Some(world.inspected.value) && c.containerName == Some(world.inspected.value.name))) &&
      (o.Fail? ==> c.containerInfo == old(c.containerInfo)) &&
      (!(world.started == Ok(true) && StartupCheck.Verdict(world.states).Pass?) ==> c.calls == old(c.calls) + [StartCall(id)]) &&
      (o.Pass? ==> world.started == Ok(true) && StartupCheck.Verdict(world.states).Pass? && world.inspected.Ok?)
  {
    if world.cancelled {
      return Pass;
    }
    var id := c.containerId.value;
    c.calls := c.calls + [StartCall(id)];
    match world.started
    case Err(e) =>
      return Fail(e);
    case Ok(started) =>
      if !started {
        return Fail(StartFailure(id));
      }
    o := StartupCheck.WaitUntilSuccess(world.states);
    if o.Fail? {
      return;
    }
    c.calls := c.calls + [InspectCall(id)];
    match world.inspected
    case Err(e) =>
      return Fail(e);
    case Ok(info) =>
      c.containerInfo := Some(info);
      c.containerName := Some(info.name);
      return Pass;
  }

  /** `StartServices`: nothing once cancelled, otherwise the wait strategy. */
  method StartServices(c: Container, world: World) returns (o: Outcome<Exn>)
    ensures world.cancelled ==> o.Pass?
    ensures !world.cancelled ==> o == WaitVerdict(c.waitStrategy, world, c.containerInfo)
  {
    if world.cancelled {
      return Pass;
    }
    match c.waitStrategy
    case NoWait =>
      o := Pass;
    case ExposedPortsWait(ports) =>
      o := ExposedPortsWait.WaitUntil(world.env, c.containerInfo, ports, world.connects);
    case ProbingWait(types) =>
      o := Probing.WaitUntil(types, world.probes, Probing.DefaultTimeoutMs, Probing.DefaultRetryIntervalMs);
  }

  /** The configure hook as the start pipeline runs it. Only the frame is
    * kept, so that the proofs about the pipeline do not carry the hooks'
    * per-kind effects; those are stated by `ConfigureAsync`. */
  method RunConfigure(c: Container, sessionId: string, env: HostEnv) returns (o: Outcome<Exn>)
    modifies c`labels, c`waitStrategy, c`exposedPorts, c`env, c`bindMounts, c`autoRemove
    ensures c.kind == Ryuk ==> o.Pass?
  {
    o := ConfigureAsync(c, sessionId, env);
  }

  /** The started hook as the start pipeline runs it; its effects are stated by `ContainerStarted`. */
  method RunContainerStarted(c: Container, env: HostEnv) returns (o: Outcome<Exn>)
    modifies c`connectionSettings
    ensures c.kind !in {MsSql, MySql, PostgreSql} ==> o.Pass?
  {
    o := ContainerStarted(c, env);
  }

  /** The service-started hook as the start pipeline runs it; its effects are stated by `ServiceStarted`. */
  method RunServiceStarted(c: Container, world: World) returns (o: Outcome<Exn>)
    modifies c`tcpConnection
    ensures c.kind != Ryuk ==> o.Pass?
  {
    o := ServiceStarted(c, world);
  }

  // ---------------------------------------------------------------------
  // Start and stop

  /** The slices of `Pipeline` that the step methods enter. */
  lemma PipelineSlices()
    ensures Pipeline[..1] == [ConfigureHook] && Pipeline[..2] == [ConfigureHook, StartingHook]
    ensures Pipeline[2..3] == [ImageStep] && Pipeline[2..4] == [ImageStep, NetworkStep]
    ensures Pipeline[4..5] == [CreateStep] && Pipeline[4..6] == [CreateStep, StartStep]
    ensures Pipeline[6..7] == [StartedHook] && Pipeline[6..8] == [StartedHook, ServicesStep]
    ensures Pipeline[6..9] == [StartedHook, ServicesStep, ServiceStartedHook]
  {
  }

  /** Consecutive slices of `Pipeline` join up. */
  lemma PipelineSplit(i: nat, j: nat, k: nat)
    requires i <= j <= k <= |Pipeline|
    ensures Pipeline[i..k] == Pipeline[i..j] + Pipeline[j..k]
    ensures i == 0 ==> Pipeline[..k] == Pipeline[..j] + Pipeline[j..k]
  {
  }

  /** The configure and starting hooks. */
  method Hooks(c: Container, reaper: AbstractionsReaper.ResourceReaper, world: World)
    returns (o: Outcome<Exn>, ghost reached: nat)
    requires reaper.Valid()
    modifies c`labels, c`waitStrategy, c`exposedPorts, c`env, c`bindMounts, c`autoRemove, c`phases, reaper
    ensures reaper.Valid()
    ensures 1 <= reached <= 2 && c.phases == old(c.phases) + Pipeline[..reached]
    ensures reached < 2 <==> o.Fail?
  {
    PipelineSlices();
    c.phases := c.phases + [ConfigureHook];
    reached := 1;
    o := RunConfigure(c, reaper.sessionId, world.env);
    if o.Fail? { return; }
    c.phases := c.phases + [StartingHook];
    reached := 2;
    o := ContainerStarting(c, reaper, world);
  }

  /** The image and network steps. */
  method Resolve(c: Container, world: World) returns (o: Outcome<Exn>, ghost reached: nat)
    modifies c`calls, c`phases
    ensures 1 <= reached <= 2 && c.phases == old(c.phases) + Pipeline[2..2 + reached]
    ensures reached < 2 ==> o.Fail?
    ensures world.cancelled ==> c.calls == old(c.calls)
    ensures !world.cancelled && o.Pass? ==>
      c.calls == old(c.calls) + [ResolveImageCall(c.imageName)] +
                 (if c.network.Some? then [ResolveNetworkCall(c.network.value.name)] else [])
  {
    PipelineSlices();
    c.phases := c.phases + [ImageStep];
    reached := 1;
    o := ResolveImage(c, world);
    if o.Fail? { return; }
    c.phases := c.phases + [NetworkStep];
    reached := 2;
    o := ResolveNetwork(c, world);
  }

  /** The first four steps: the configure and starting hooks, the image and
    * the network. `reached` counts the steps entered. */
  method Prepare(c: Container, reaper: AbstractionsReaper.ResourceReaper, world: World)
    returns (o: Outcome<Exn>, ghost reached: nat)
    requires reaper.Valid()
    modifies c`labels, c`waitStrategy, c`exposedPorts, c`env, c`bindMounts, c`autoRemove, c`calls, c`phases, reaper
    ensures reaper.Valid()
    ensures 1 <= reached <= 4 && c.phases == old(c.phases) + Pipeline[..reached]
    ensures reached < 4 ==> o.Fail?
    ensures world.cancelled ==> c.calls == old(c.calls)
    ensures !world.cancelled && o.Pass? ==>
      c.calls == old(c.calls) + [ResolveImageCall(c.imageName)] +
                 (if c.network.Some? then [ResolveNetworkCall(c.network.value.name)] else [])
  {
    ghost var r1, r2;
    o, r1 := Hooks(c, reaper, world);
    if o.Fail? {
      reached := r1;
      return;
    }
    o, r2 := Resolve(c, world);
    reached := 2 + r2;
    PipelineSplit(0, 2, 2 + r2);
  }

  /** The create and start steps. */
  method Launch(c: Container, world: World) returns (o: Outcome<Exn>, ghost reached: nat)
    modifies c`calls, c`containerId, c`containerInfo, c`containerName, c`phases
    ensures 1 <= reached <= 2 && c.phases == old(c.phases) + Pipeline[4..4 + reached]
    ensures reached < 2 ==> o.Fail?
    ensures world.cancelled ==> o.Pass? && c.calls == old(c.calls) && c.containerId.None?
    ensures !world.cancelled && reached == 2 ==> world.created.Ok? && c.containerId == Some(world.created.value)
    ensures !world.cancelled && reached == 2 && world.started == Ok(false) ==> o == Fail(StartFailure(world.created.value))
    ensures !world.cancelled && o.Pass? ==>
      world.started == Ok(true) && StartupCheck.Verdict(world.states).Pass? &&
      world.inspected.Ok? && c.containerInfo == Some(world.inspected.value) &&
      c.containerName == Some(world.inspected.value.name) &&
      DistinctPorts(c.exposedPorts) &&
      c.calls == old(c.calls) + [CreateCall(old(c.Config())), StartCall(world.created.value),
                                 InspectCall(world.created.value)]
  {
    PipelineSlices();
    c.phases := c.phases + [CreateStep];
    reached := 1;
    o := CreateContainer(c, world);
    if o.Fail? { return; }
    c.phases := c.phases + [StartStep];
    reached := 2;
    o := StartContainer(c, world);
  }

  /** The started hook, the wait strategy and the service-started hook. */
  method Serve(c: Container, world: World) returns (o: Outcome<Exn>, ghost reached: nat)
    modifies c`connectionSettings, c`tcpConnection, c`phases
    ensures 1 <= reached <= 3 && c.phases == old(c.phases) + Pipeline[6..6 + reached]
    ensures reached < 3 ==> o.Fail?
    ensures !world.cancelled && o.Pass? ==> WaitVerdict(c.waitStrategy, world, c.containerInfo).Pass?
  {
    PipelineSlices();
    c.phases := c.phases + [StartedHook];
    reached := 1;
    o := RunContainerStarted(c, world.env);
    if o.Fail? { return; }
    c.phases := c.phases + [ServicesStep];
    reached := 2;
    o := StartServices(c, world);
    if o.Fail? { return; }
    c.phases := c.phases + [ServiceStartedHook];
    reached := 3;
    o := RunServiceStarted(c, world);
  }

  /** The last five steps: create, start, the started hook, the wait strategy
    * and the service-started hook. */
  method Boot(c: Container, world: World) returns (o: Outcome<Exn>, ghost reached: nat)
    modifies c`calls, c`containerId, c`containerInfo, c`containerName, c`connectionSettings, c`tcpConnection, c`phases
    ensures 1 <= reached <= 5 && c.phases == old(c.phases) + Pipeline[4..4 + reached]
    ensures reached < 5 ==> o.Fail?
    ensures world.cancelled ==> c.calls == old(c.calls) && c.containerId.None?
    ensures !world.cancelled && reached > 1 ==> world.created.Ok? && c.containerId == Some(world.created.value)
    ensures !world.cancelled && reached > 1 && world.started == Ok(false) ==>
      reached == 2 && o == Fail(StartFailure(world.created.value))
    ensures !world.cancelled && o.Pass? ==>
      world.started == Ok(true) && StartupCheck.Verdict(world.states).Pass? &&
      world.inspected.Ok? && c.containerInfo == Some(world.inspected.value) &&
      c.containerName == Some(world.inspected.value.name) &&
      WaitVerdict(c.waitStrategy, world, c.containerInfo).Pass? &&
      DistinctPorts(c.exposedPorts) &&
      c.calls == old(c.calls) + [CreateCall(old(c.Config())), StartCall(world.created.value), InspectCall(world.created.value)]
  {
    ghost var r1, r2;
    o, r1 := Launch(c, world);
    reached := r1;
    if o.Fail? {
      return;
    }
    o, r2 := Serve(c, world);
    reached := 2 + r2;
    PipelineSplit(4, 6, 6 + r2);
  }

  /** The nine steps of a start, for a container not yet created. */
  method RunPipeline(c: Container, reaper: AbstractionsReaper.ResourceReaper, world: World)
    returns (o: Outcome<Exn>, ghost reached: nat)
    requires reaper.Valid() && c.containerId.None?
    modifies c`labels, c`waitStrategy, c`exposedPorts, c`env, c`bindMounts, c`autoRemove, c`calls, c`phases
    modifies c`containerId, c`containerInfo, c`containerName, c`connectionSettings, c`tcpConnection, reaper
    ensures reaper.Valid()
    ensures reached <= |Pipeline| && c.phases == old(c.phases) + Pipeline[..reached]
    ensures o.Pass? ==> reached == |Pipeline|
    ensures reached < |Pipeline| ==> o.Fail?
    ensures world.cancelled ==> c.calls == old(c.calls) && c.containerId.None?
    ensures !world.cancelled && reached > 5 ==> world.created.Ok? && c.containerId == Some(world.created.value)
    ensures !world.cancelled && reached > 5 && world.started == Ok(false) ==>
      reached == 6 && o == Fail(StartFailure(world.created.value))
    ensures !world.cancelled && o.Pass? ==>
      world.created.Ok? && world.started == Ok(true) && StartupCheck.Verdict(world.states).Pass? &&
      world.inspected.Ok? && c.containerInfo == Some(world.inspected.value) &&
      c.containerName == Some(world.inspected.value.name) &&
      WaitVerdict(c.waitStrategy, world, c.containerInfo).Pass? &&
      DistinctPorts(c.exposedPorts)
  {
    ghost var r1, r2;
    o, r1 := Prepare(c, reaper, world);
    if o.Fail? {
      reached := r1;
      return;
    }
    o, r2 := Boot(c, world);
    reached := 4 + r2;
    PipelineSplit(0, 4, 4 + r2);
  }

  /** `StartAsync`. A container that has an id is left alone. Otherwise the
    * steps run in `Pipeline` order, each entered only when every earlier one
    * succeeded (`reached` counts the steps entered), and a cancelled start
    * makes no Docker call and leaves the container without an id. */
  method StartAsync(c: Container, reaper: AbstractionsReaper.ResourceReaper, world: World)
    returns (o: Outcome<Exn>, ghost reached: nat)
    requires reaper.Valid()
    modifies c`labels, c`waitStrategy, c`exposedPorts, c`env, c`bindMounts, c`autoRemove, c`calls, c`phases
    modifies c`containerId, c`containerInfo, c`containerName, c`connectionSettings, c`tcpConnection, reaper
    ensures reaper.Valid()
    ensures old(c.containerId).Some? ==> o.Pass? && reached == 0 && unchanged(c) && unchanged(reaper)
    ensures reached <= |Pipeline| && c.phases == old(c.phases) + Pipeline[..reached]
    ensures old(c.containerId).None? && o.Pass? ==> reached == |Pipeline|
    ensures reached < |Pipeline| && old(c.containerId).None? ==> o.Fail?
    ensures old(c.containerId).None? && world.cancelled ==> c.calls == old(c.calls) && c.containerId.None?
    ensures old(c.containerId).None? && !world.cancelled && reached > 5 ==>
      world.created.Ok? && c.containerId == Some(world.created.value)
    ensures old(c.containerId).None? && !world.cancelled && reached > 5 && world.started == Ok(false) ==>
      reached == 6 && o == Fail(StartFailure(world.created.value))
    ensures old(c.containerId).None? && !world.cancelled && o.Pass? ==>
      world.created.Ok? && world.started == Ok(true) && StartupCheck.Verdict(world.states).Pass? &&
      world.inspected.Ok? && c.containerInfo == Some(world.inspected.value) &&
      c.containerName == Some(world.inspected.value.name) &&
      WaitVerdict(c.waitStrategy, world, c.containerInfo).Pass? &&
      DistinctPorts(c.exposedPorts)
  {
    if c.containerId.Some? {
      return Pass, 0;
    }
    o, reached := RunPipeline(c, reaper, world);
  }

  /** `StopAsync`: nothing without an id; otherwise the stopping hook, the stop,
    * and the removal unless the daemon removes the container itself. The id is
    * kept, so a stopped container is not started again. */
  method StopAsync(c: Container, stopped: Outcome<Exn>, removed: Outcome<Exn>) returns (o: Outcome<Exn>)
    modifies c`calls, c`tcpConnection
    ensures old(c.containerId).None? ==> o.Pass? && c.calls == old(c.calls) && c.tcpConnection == old(c.tcpConnection)
    ensures old(c.containerId).Some? ==>
      var id := c.containerId.value;
      (c.kind == Ryuk ==> c.tcpConnection.None?) &&
      (stopped.Fail? ==> o == stopped && c.calls == old(c.calls) + [StopCall(id)]) &&
      (stopped.Pass? && c.autoRemove ==> o.Pass? && c.calls == old(c.calls) + [StopCall(id)]) &&
      (stopped.Pass? && !c.autoRemove ==> o == removed && c.calls == old(c.calls) + [StopCall(id), RemoveCall(id)])
  {
    if c.containerId.None? {
      return Pass;
    }
    var id := c.containerId.value;
    ContainerStopping(c);
    c.calls := c.calls + [StopCall(id)];
    if stopped.Fail? {
      return stopped;
    }
    if !c.autoRemove {
      c.calls := c.calls + [RemoveCall(id)];
      if removed.Fail? {
        return removed;
      }
    }
    return Pass;
  }
}
