/**
 * `ArangoDbContainer`: a root password is required before anything is
 * configured; the container waits by probing its HTTP endpoint, whose URL is
 * built from the host and the mapped port 8529.
 */
module ArangoDb {
  import opened Outcomes
  import opened Text
  import opened Dicts
  import opened Exceptions
  import opened ContainerModel
  import opened Containers
  import GenericContainer
  import AbstractionsReaper
  import Probing

  const DefaultImage: string := "arangodb"
  const DefaultTag: string := "3.4"
  const DefaultPort: int := 8529

  const PasswordMessage: string := "Root password cannot null or empty"

  /** The probe is retried on these: the HTTP server is not up yet, or it answers emptily. */
  const ProbeExceptionTypes: seq<ExnType> := [HttpRequest, InvalidOperation]

  /** The three constructors; a null or `NullImage` image falls back to `arangodb:3.4`. */
  method NewArangoDbContainer(arg: GenericContainer.ImageArgument, context: DatabaseContext) returns (c: Container)
    ensures fresh(c) && c.kind == ArangoDb && c.context == context
    ensures c.imageName == GenericContainer.DockerImageName(arg, DefaultImage + ":" + DefaultTag)
    ensures c.containerId.None? && c.env == [] && c.exposedPorts == [] && c.waitStrategy == NoWait
  {
    c := new Container(ArangoDb, GenericContainer.DockerImageName(arg, DefaultImage + ":" + DefaultTag), context);
  }

  /** The user and the database are fixed, whatever the context says. */
  lemma FixedUserAndDatabase(context: DatabaseContext)
    ensures Username(ArangoDb, context) == Some("root") && DatabaseName(ArangoDb, context) == Some("_system")
  {
  }

  /** What `ConfigureAsync` leaves in `c`, given the settings before it: a
    * null or empty password is refused with nothing changed; otherwise the
    * reaper labels are added, and unless one was already set, port 8529 is
    * appended and the root password added, followed by the probing wait
    * when that variable was not set yet. */
  predicate Configured(c: Container, sessionId: string, labels0: Dict<string, string>, wait0: WaitStrategy,
                       ports0: seq<int>, env0: Dict<string, string>, o: Outcome<Exn>)
    reads c`labels, c`waitStrategy, c`exposedPorts, c`env
  {
    var labels := AddAll(labels0, AbstractionsReaper.Labels(sessionId));
    && (IsNullOrEmpty(c.context.password) ==>
          o == Fail(Make(InvalidOperation, PasswordMessage)) &&
          c.labels == labels0 && c.waitStrategy == wait0 && c.exposedPorts == ports0 && c.env == env0)
    && (!IsNullOrEmpty(c.context.password) ==> c.labels == labels.0)
    && (!IsNullOrEmpty(c.context.password) && !labels.1 ==>
          o.Fail? && c.exposedPorts == ports0 && c.env == env0 && c.waitStrategy == wait0)
    && (!IsNullOrEmpty(c.context.password) && labels.1 ==>
          c.exposedPorts == ports0 + [DefaultPort] &&
          (o.Pass? <==> "ARANGO_ROOT_PASSWORD" !in Keys(env0)) &&
          (o.Pass? ==> c.env == env0 + [("ARANGO_ROOT_PASSWORD", c.context.password.value)] &&
                       c.waitStrategy == ProbingWait(ProbeExceptionTypes)) &&
          (o.Fail? ==> c.env == env0 && c.waitStrategy == wait0))
  }

  /** `ConfigureAsync`: reject a null or empty password, then the generic
    * configuration, port 8529, the root password and the probing wait. */
  method Configure(c: Container, sessionId: string) returns (o: Outcome<Exn>)
    modifies c`labels, c`waitStrategy, c`exposedPorts, c`env
    ensures Configured(c, sessionId, old(c.labels), old(c.waitStrategy), old(c.exposedPorts), old(c.env), o)
  {
    if IsNullOrEmpty(c.context.password) {
      return Fail(Make(InvalidOperation, PasswordMessage));
    }
    o := GenericContainer.Configure(c, sessionId);
    if o.Fail? {
      return;
    }
    c.exposedPorts := c.exposedPorts + [DefaultPort];
    o := AddEnv(c, "ARANGO_ROOT_PASSWORD", c.context.password.value);
    if o.Fail? {
      return;
    }
    c.waitStrategy := ProbingWait(ProbeExceptionTypes);
  }

  /** Outside an aggregate, the probe is retried exactly on HTTP request errors
    * and invalid operations, `ObjectDisposedException` included. */
  lemma ProbeRetries(e: Exn)
    requires !IsA(e.typ, Aggregate)
    ensures Probing.ShouldRetry(ProbeExceptionTypes, e) <==> IsA(e.typ, HttpRequest) || IsA(e.typ, InvalidOperation)
    ensures e.typ == ObjectDisposed ==> Probing.ShouldRetry(ProbeExceptionTypes, e)
  {
    if IsA(e.typ, HttpRequest) {
      assert HttpRequest in ProbeExceptionTypes && IsInstanceOf(e, HttpRequest);
    }
    if IsA(e.typ, InvalidOperation) {
      assert InvalidOperation in ProbeExceptionTypes && IsInstanceOf(e, InvalidOperation);
    }
    if e.typ == ObjectDisposed {
      assert Ancestors(ObjectDisposed)[1] == InvalidOperation;
    }
  }

  /** The endpoint the probe requests: `http://<host>:<port>`. */
  function Url(host: string, port: int): string {
    "http://" + host + ":" + IntToString(port)
  }

  /** The text after the URL's last `:` reads back as the port, whatever the host. */
  lemma UrlShape(host: string, port: int)
    requires Int32Min <= port <= Int32Max
    ensures ParseInt32(AfterLast(Url(host, port), ':')) == Some(port)
  {
    var prefix := "http://" + host;
    assert Url(host, port) == prefix + [':'] + IntToString(port);
    AfterColon(prefix, port);
  }

  /** The text after the last `:` of `prefix:<port>` is the port's text. */
  lemma AfterColon(prefix: string, port: int)
    requires Int32Min <= port <= Int32Max
    ensures ParseInt32(AfterLast(prefix + [':'] + IntToString(port), ':')) == Some(port)
  {
    IntToStringChars(port);
    AfterLastAppended(prefix, ':', IntToString(port));
    IntToStringRoundTrip(port);
  }

  /** `GetArangoUrl`: the URL of the host and the mapped port 8529, asking for the host first. */
  function GetArangoUrl(env: HostEnv, info: Option<InspectResponse>): (r: Result<string, Exn>)
    ensures GetDockerHostIpAddress(env, info).Err? ==> r == Err(GetDockerHostIpAddress(env, info).error)
    ensures GetDockerHostIpAddress(env, info).Ok? && GetMappedPort(info, DefaultPort).Err? ==>
      r == Err(GetMappedPort(info, DefaultPort).error)
    ensures GetDockerHostIpAddress(env, info).Ok? && GetMappedPort(info, DefaultPort).Ok? ==>
      r == Ok(Url(GetDockerHostIpAddress(env, info).value, GetMappedPort(info, DefaultPort).value))
  {
    var host := GetDockerHostIpAddress(env, info);
    if host.Err? then Err(host.error)
    else
      var port := GetMappedPort(info, DefaultPort);
      if port.Err? then Err(port.error)
      else Ok(Url(host.value, port.value))
  }

  /** A URL that was built reads back as the mapped port. */
  lemma ArangoUrlPort(env: HostEnv, info: Option<InspectResponse>)
    requires GetArangoUrl(env, info).Ok?
    ensures ParseInt32(AfterLast(GetArangoUrl(env, info).value, ':')) == Some(GetMappedPort(info, DefaultPort).value)
  {
    UrlShape(GetDockerHostIpAddress(env, info).value, GetMappedPort(info, DefaultPort).value);
  }
}
