/**
 * `MySqlContainer`: port 3306 and an environment whose user variables depend
 * on whether the configured user is `root`.
 */
module MySql {
  import opened Outcomes
  import opened Text
  import opened Dicts
  import opened Exceptions
  import opened ContainerModel
  import opened Containers
  import GenericContainer
  import AbstractionsReaper
  import AdoNet

  const DefaultImage: string := "mysql"
  const DefaultTag: string := "8"
  const DefaultPort: int := 3306

  /** The three constructors; a null or `NullImage` image falls back to `mysql:8`. */
  method NewMySqlContainer(arg: GenericContainer.ImageArgument, context: DatabaseContext) returns (c: Container)
    ensures fresh(c) && c.kind == MySql && c.context == context
    ensures c.imageName == GenericContainer.DockerImageName(arg, DefaultImage + ":" + DefaultTag)
    ensures c.containerId.None? && c.env == [] && c.exposedPorts == [] && c.connectionSettings.None?
  {
    c := new Container(MySql, GenericContainer.DockerImageName(arg, DefaultImage + ":" + DefaultTag), context);
  }

  /** The environment `ConfigureAsync` adds, in order. */
  function Env(context: DatabaseContext): seq<(string, string)> {
    [("MYSQL_DATABASE", OrEmpty(context.databaseName)), ("MYSQL_ALLOW_EMPTY_PASSWORD", "yes")] +
    if context.username == Some("root") then [("MYSQL_ROOT_PASSWORD", OrEmpty(context.password))]
    else [("MYSQL_USER", OrEmpty(context.username)), ("MYSQL_PASSWORD", OrEmpty(context.password))]
  }

  /** The database and the empty-password flag come first, and no variable is set twice. */
  lemma EnvEntries(context: DatabaseContext)
    ensures DistinctKeys(Env(context)) && |Env(context)| >= 3
    ensures Env(context)[..2] == [("MYSQL_DATABASE", OrEmpty(context.databaseName)), ("MYSQL_ALLOW_EMPTY_PASSWORD", "yes")]
  {
    assert "MYSQL_DATABASE"[6] != "MYSQL_PASSWORD"[6];
  }

  /** The user `root` gets only a root password; any other user, a null one
    * included, gets its own user and password and no root password. */
  lemma EnvUserVariables(context: DatabaseContext)
    ensures context.username == Some("root") ==>
      Get(Env(context), "MYSQL_ROOT_PASSWORD") == Some(OrEmpty(context.password)) &&
      "MYSQL_USER" !in Keys(Env(context)) && "MYSQL_PASSWORD" !in Keys(Env(context))
    ensures context.username != Some("root") ==>
      Get(Env(context), "MYSQL_USER") == Some(OrEmpty(context.username)) &&
      Get(Env(context), "MYSQL_PASSWORD") == Some(OrEmpty(context.password)) &&
      "MYSQL_ROOT_PASSWORD" !in Keys(Env(context))
  {
    if context.username == Some("root") {
      EnvOfRoot(context);
    } else {
      EnvOfUser(context);
    }
  }

  /** The environment of the `root` user. */
  lemma EnvOfRoot(context: DatabaseContext)
    requires context.username == Some("root")
    ensures Get(Env(context), "MYSQL_ROOT_PASSWORD") == Some(OrEmpty(context.password))
    ensures "MYSQL_USER" !in Keys(Env(context)) && "MYSQL_PASSWORD" !in Keys(Env(context))
  {
    assert "MYSQL_DATABASE"[6] != "MYSQL_PASSWORD"[6];
  }

  /** The environment of any other user. */
  lemma EnvOfUser(context: DatabaseContext)
    requires context.username != Some("root")
    ensures Get(Env(context), "MYSQL_USER") == Some(OrEmpty(context.username))
    ensures Get(Env(context), "MYSQL_PASSWORD") == Some(OrEmpty(context.password))
    ensures "MYSQL_ROOT_PASSWORD" !in Keys(Env(context))
  {
    EnvEntries(context);
    var e := Env(context);
    assert |e| == 4;
    assert e[2] == ("MYSQL_USER", OrEmpty(context.username)) && e[2] in e;
    assert e[3] == ("MYSQL_PASSWORD", OrEmpty(context.password)) && e[3] in e;
    assert forall i :: 0 <= i < 4 ==> |e[i].0| != |"MYSQL_ROOT_PASSWORD"|;
  }

  /** `ConfigureAsync`: the AdoNet configuration, then port 3306 and the environment. */
  method Configure(c: Container, sessionId: string) returns (o: Outcome<Exn>)
    modifies c`labels, c`waitStrategy, c`exposedPorts, c`env
    ensures AdoNet.ConfiguredWith(c, sessionId, DefaultPort, Env(c.context),
                                  old(c.labels), old(c.waitStrategy), old(c.exposedPorts), old(c.env), o)
  {
    o := AdoNet.Configure(c, sessionId);
    if o.Fail? {
      return;
    }
    c.exposedPorts := c.exposedPorts + [DefaultPort];
    o := AddEnvAll(c, Env(c.context));
  }

  /** What `ContainerStarted` puts into the builder: host, mapped port,
    * database, user and password. */
  function ConnectionSettingsFor(env: HostEnv, info: Option<InspectResponse>, context: DatabaseContext)
    : (r: Result<ConnectionSettings, Exn>)
    ensures GetDockerHostIpAddress(env, info).Err? ==> r == Err(GetDockerHostIpAddress(env, info).error)
    ensures GetDockerHostIpAddress(env, info).Ok? && GetMappedPort(info, DefaultPort).Err? ==>
      r == Err(GetMappedPort(info, DefaultPort).error)
    ensures r.Ok? <==> GetDockerHostIpAddress(env, info).Ok? && GetMappedPort(info, DefaultPort).Ok?
    ensures r.Ok? ==>
      GetDockerHostIpAddress(env, info).Ok? && GetMappedPort(info, DefaultPort).Ok? &&
      r.value == [("server", GetDockerHostIpAddress(env, info).value),
                  ("port", IntToString(GetMappedPort(info, DefaultPort).value)),
                  ("database", OrEmpty(context.databaseName)), ("username", OrEmpty(context.username)),
                  ("password", OrEmpty(context.password))]
  {
    var host := GetDockerHostIpAddress(env, info);
    if host.Err? then Err(host.error)
    else
      var port := GetMappedPort(info, DefaultPort);
      if port.Err? then Err(port.error)
      else Ok([("server", host.value), ("port", IntToString(port.value)), ("database", OrEmpty(context.databaseName)),
               ("username", OrEmpty(context.username)), ("password", OrEmpty(context.password))])
  }

  /** Before the container has been inspected there are no settings to build. */
  lemma SettingsNeedInspect(env: HostEnv, context: DatabaseContext)
    ensures ConnectionSettingsFor(env, None, context).Err?
  {
  }

  /** `ContainerStarted`: build and keep the connection string. */
  method ContainerStarted(c: Container, env: HostEnv) returns (o: Outcome<Exn>)
    modifies c`connectionSettings
    ensures var r := ConnectionSettingsFor(env, old(c.containerInfo), c.context);
      o == (if r.Ok? then Pass else Fail(r.error)) &&
      c.connectionSettings == (if r.Ok? then Some(r.value) else old(c.connectionSettings))
  {
    var r := ConnectionSettingsFor(env, c.containerInfo, c.context);
    if r.Err? {
      return Fail(r.error);
    }
    c.connectionSettings := Some(r.value);
    return Pass;
  }
}
