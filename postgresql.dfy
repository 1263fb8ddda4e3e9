/**
 * `PostgreSqlContainer`: port 5432 and the database, user and password of its
 * context as environment.
 */
module PostgreSql {
  import opened Outcomes
  import opened Text
  import opened Dicts
  import opened Exceptions
  import opened ContainerModel
  import opened Containers
  import AbstractionsReaper
  import AdoNet

  const Image: string := "postgres"
  const DefaultTag: string := "11-alpine"
  const PostgreSqlPort: int := 5432

  /** The only constructor takes an image name and a context. */
  method NewPostgreSqlContainer(imageName: string, context: DatabaseContext) returns (c: Container)
    ensures fresh(c) && c.kind == PostgreSql && c.context == context && c.imageName == imageName
    ensures c.containerId.None? && c.env == [] && c.exposedPorts == [] && c.connectionSettings.None?
  {
    c := new Container(PostgreSql, imageName, context);
  }

  /** The environment `ConfigureAsync` adds: the context's values, in order. */
  function Env(context: DatabaseContext): seq<(string, string)> {
    [("POSTGRES_DB", OrEmpty(context.databaseName)), ("POSTGRES_USER", OrEmpty(context.username)),
     ("POSTGRES_PASSWORD", OrEmpty(context.password))]
  }

  /** The environment holds exactly the three variables, each once, with the context's values. */
  lemma EnvEntries(context: DatabaseContext)
    ensures |Env(context)| == 3 && DistinctKeys(Env(context))
    ensures Get(Env(context), "POSTGRES_DB") == Some(OrEmpty(context.databaseName))
    ensures Get(Env(context), "POSTGRES_USER") == Some(OrEmpty(context.username))
    ensures Get(Env(context), "POSTGRES_PASSWORD") == Some(OrEmpty(context.password))
  {
    var r := Env(context);
    assert r[0] in r && r[1] in r && r[2] in r;
  }

  /** `ConfigureAsync`: the AdoNet configuration first, then port 5432 and the environment. */
  method Configure(c: Container, sessionId: string) returns (o: Outcome<Exn>)
    modifies c`labels, c`waitStrategy, c`exposedPorts, c`env
    ensures AdoNet.ConfiguredWith(c, sessionId, PostgreSqlPort, Env(c.context),
                                  old(c.labels), old(c.waitStrategy), old(c.exposedPorts), old(c.env), o)
  {
    o := AdoNet.Configure(c, sessionId);
    if o.Fail? {
      return;
    }
    c.exposedPorts := c.exposedPorts + [PostgreSqlPort];
    o := AddEnvAll(c, Env(c.context));
  }

  /** On a container with none of these variables set, configuring adds all three. */
  lemma ConfigureOnCleanEnv(env: Dict<string, string>, context: DatabaseContext)
    requires "POSTGRES_DB" !in Keys(env) && "POSTGRES_USER" !in Keys(env) && "POSTGRES_PASSWORD" !in Keys(env)
    ensures AddAll(env, Env(context)).1
    ensures AddAll(env, Env(context)).0 == env + Env(context)
  {
    var e := Env(context);
    assert Keys(e) == ["POSTGRES_DB", "POSTGRES_USER", "POSTGRES_PASSWORD"];
    AddAllFresh(env, e);
  }

  /** What `ContainerStarted` puts into the builder. */
  function ConnectionSettingsFor(env: HostEnv, info: Option<InspectResponse>, context: DatabaseContext)
    : (r: Result<ConnectionSettings, Exn>)
    ensures GetDockerHostIpAddress(env, info).Err? ==> r == Err(GetDockerHostIpAddress(env, info).error)
    ensures GetDockerHostIpAddress(env, info).Ok? && GetMappedPort(info, PostgreSqlPort).Err? ==>
      r == Err(GetMappedPort(info, PostgreSqlPort).error)
    ensures r.Ok? <==> GetDockerHostIpAddress(env, info).Ok? && GetMappedPort(info, PostgreSqlPort).Ok?
    ensures r.Ok? ==>
      GetDockerHostIpAddress(env, info).Ok? && GetMappedPort(info, PostgreSqlPort).Ok? &&
      r.value == [("server", GetDockerHostIpAddress(env, info).value),
                  ("port", IntToString(GetMappedPort(info, PostgreSqlPort).value)),
                  ("database", OrEmpty(context.databaseName)), ("username", OrEmpty(context.username)),
                  ("password", OrEmpty(context.password))]
  {
    var host := GetDockerHostIpAddress(env, info);
    if host.Err? then Err(host.error)
    else
      var port := GetMappedPort(info, PostgreSqlPort);
      if port.Err? then Err(port.error)
      else Ok([("server", host.value), ("port", IntToString(port.value)), ("database", OrEmpty(context.databaseName)),
               ("username", OrEmpty(context.username)), ("password", OrEmpty(context.password))])
  }

  /** Before the container has been inspected there are no settings to build. */
  lemma SettingsNeedInspect(env: HostEnv, context: DatabaseContext)
    ensures ConnectionSettingsFor(env, None, context).Err?
  {
  }

  /** `ContainerStarted`: build and keep the connection string. */
  method ContainerStarted(c: Container, env: HostEnv) returns (o: Outcome<Exn>)
    modifies c`connectionSettings
    ensures var r := ConnectionSettingsFor(env, old(c.containerInfo), c.context);
      o == (if r.Ok? then Pass else Fail(r.error)) &&
      c.connectionSettings == (if r.Ok? then Some(r.value) else old(c.connectionSettings))
  {
    var r := ConnectionSettingsFor(env, c.containerInfo, c.context);
    if r.Err? {
      return Fail(r.error);
    }
    c.connectionSettings := Some(r.value);
    return Pass;
  }
}
