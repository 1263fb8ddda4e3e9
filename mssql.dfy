/**
 * `MsSqlContainer`: the password rules SQL Server imposes, checked before
 * anything is configured, the port and environment it then sets, and the
 * connection settings it builds once started.
 */
module MsSql {
  import opened Outcomes
  import opened Text
  import opened Dicts
  import opened Exceptions
  import opened ContainerModel
  import opened Containers
  import GenericContainer
  import AbstractionsReaper
  import AdoNet

  const DefaultImage: string := "mcr.microsoft.com/mssql/server"
  const DefaultTag: string := "2017-latest-ubuntu"
  const DefaultPort: int := 1433

  const LengthMessage: string := "Password length must be at least 8"
  const CategoriesMessage: string :=
    "Password must be of at least three of these four categories: uppercase letters, " +
    "lowercase letters, numbers and non-alphanumeric symbols"

  /** The two constructors: the default image or an image name. */
  method NewMsSqlContainer(arg: GenericContainer.ImageArgument, context: DatabaseContext) returns (c: Container)
    requires !arg.ImageObjectArgument?
    ensures fresh(c) && c.kind == MsSql && c.context == context
    ensures c.imageName == GenericContainer.DockerImageName(arg, DefaultImage + ":" + DefaultTag)
    ensures c.containerId.None? && c.env == [] && c.exposedPorts == [] && c.connectionSettings.None?
  {
    c := new Container(MsSql, GenericContainer.DockerImageName(arg, DefaultImage + ":" + DefaultTag), context);
  }

  predicate IsLengthValid(password: string) { |password| >= 8 }

  /** Lower-casing changes the password. */
  predicate HasUpperCase(password: string) { Lower(password) != password }

  /** Upper-casing changes the password. */
  predicate HasLowerCase(password: string) { Upper(password) != password }

  /** `!password.Any(char.IsDigit)`: true when there is NO digit, the opposite of its name. */
  predicate HasNumber(password: string) { !exists i :: 0 <= i < |password| && IsDigit(password[i]) }

  /** `!password.All(char.IsLetterOrDigit)`. */
  predicate HasNonAlphaNumeric(password: string) { !forall i :: 0 <= i < |password| ==> IsLetterOrDigit(password[i]) }

  function Score(password: string): (r: nat)
    ensures r <= 4
  {
    (if HasUpperCase(password) then 1 else 0) + (if HasLowerCase(password) then 1 else 0) +
    (if HasNumber(password) then 1 else 0) + (if HasNonAlphaNumeric(password) then 1 else 0)
  }

  /** `ValidatePassword`; `None` is a `null` password, whose `Length` throws. */
  function ValidatePassword(password: Option<string>): (r: Outcome<Exn>)
    ensures password.None? ==> r == Fail(NullDereference)
    ensures password.Some? && !IsLengthValid(password.value) ==> r == Fail(Make(InvalidOperation, LengthMessage))
    ensures password.Some? && IsLengthValid(password.value) ==>
      r == (if Score(password.value) < 3 then Fail(Make(InvalidOperation, CategoriesMessage)) else Pass)
  {
    if password.None? then Fail(NullDereference)
    else if !IsLengthValid(password.value) then Fail(Make(InvalidOperation, LengthMessage))
    else if Score(password.value) < 3 then Fail(Make(InvalidOperation, CategoriesMessage))
    else Pass
  }

  /** The "upper case" test holds exactly when some character is an ASCII capital. */
  lemma HasUpperCaseIff(password: string)
    ensures HasUpperCase(password) <==> exists i :: 0 <= i < |password| && 'A' <= password[i] <= 'Z'
  {
    if exists i :: 0 <= i < |password| && 'A' <= password[i] <= 'Z' {
      var i :| 0 <= i < |password| && 'A' <= password[i] <= 'Z';
      assert Lower(password)[i] != password[i];
    } else {
      assert Lower(password) == password;
    }
  }

  /** The "lower case" test holds exactly when some character is an ASCII small letter. */
  lemma HasLowerCaseIff(password: string)
    ensures HasLowerCase(password) <==> exists i :: 0 <= i < |password| && 'a' <= password[i] <= 'z'
  {
    if exists i :: 0 <= i < |password| && 'a' <= password[i] <= 'z' {
      var i :| 0 <= i < |password| && 'a' <= password[i] <= 'z';
      assert Upper(password)[i] != password[i];
    } else {
      assert Upper(password) == password;
    }
  }

  /** The number of categories the validator credits: capitals, small letters,
    * the ABSENCE of digits and symbols. */
  function Credited(password: string): nat {
    (if exists i :: 0 <= i < |password| && 'A' <= password[i] <= 'Z' then 1 else 0) +
    (if exists i :: 0 <= i < |password| && 'a' <= password[i] <= 'z' then 1 else 0) +
    (if exists i :: 0 <= i < |password| && IsDigit(password[i]) then 0 else 1) +
    (if exists i :: 0 <= i < |password| && !IsLetterOrDigit(password[i]) then 1 else 0)
  }

  /** A password is accepted exactly when it has at least 8 characters and at
    * least three credited categories. */
  lemma ValidatePasswordIff(password: string)
    ensures ValidatePassword(Some(password)).Pass? <==> |password| >= 8 && Credited(password) >= 3
  {
    HasUpperCaseIff(password);
    HasLowerCaseIff(password);
    assert Score(password) == Credited(password);
  }

  /** Because the digit test is inverted, a password of upper- and lower-case
    * letters only is accepted, while adding a digit to the same letters makes
    * it fail. */
  lemma DigitCheckInverted()
    ensures ValidatePassword(Some("Abcdefgh")) == Pass
    ensures ValidatePassword(Some("Abcdefg1")) == Fail(Make(InvalidOperation, CategoriesMessage))
  {
    var good := "Abcdefgh";
    var bad := "Abcdefg1";
    assert Lower(good)[0] != good[0] && Upper(good)[1] != good[1];
    assert Lower(bad)[0] != bad[0] && Upper(bad)[1] != bad[1];
    assert IsDigit(bad[7]);
    assert Score(good) == 3 && Score(bad) == 2;
  }

  /** The environment `ConfigureAsync` adds. */
  function Env(password: string): (r: seq<(string, string)>)
    ensures DistinctKeys(r)
  {
    [("ACCEPT_EULA", "Y"), ("SA_PASSWORD", password)]
  }

  /** `ConfigureAsync`: validate the password first, then the AdoNet
    * configuration, then port 1433 and the environment. */
  method Configure(c: Container, sessionId: string) returns (o: Outcome<Exn>)
    modifies c`labels, c`waitStrategy, c`exposedPorts, c`env
    ensures ValidatePassword(c.context.password).Fail? ==>
      o == ValidatePassword(c.context.password) &&
      c.labels == old(c.labels) && c.waitStrategy == old(c.waitStrategy) &&
      c.exposedPorts == old(c.exposedPorts) && c.env == old(c.env)
    ensures ValidatePassword(c.context.password).Pass? ==>
      AdoNet.ConfiguredWith(c, sessionId, DefaultPort, Env(c.context.password.value),
                            old(c.labels), old(c.waitStrategy), old(c.exposedPorts), old(c.env), o)
  {
    o := ValidatePassword(c.context.password);
    if o.Fail? {
      return;
    }
    o := AdoNet.Configure(c, sessionId);
    if o.Fail? {
      return;
    }
    c.exposedPorts := c.exposedPorts + [DefaultPort];
    o := AddEnvAll(c, Env(c.context.password.value));
  }

  /** What `CreateConnectionStringBuilder` puts into the builder: the host and
    * the mapped port as `server`, the fixed user and the password. Asking for
    * the host or the port can throw, the host first. */
  function ConnectionSettingsFor(env: HostEnv, info: Option<InspectResponse>, context: DatabaseContext)
    : (r: Result<ConnectionSettings, Exn>)
    ensures GetDockerHostIpAddress(env, info).Err? ==> r == Err(GetDockerHostIpAddress(env, info).error)
    ensures GetDockerHostIpAddress(env, info).Ok? && GetMappedPort(info, DefaultPort).Err? ==>
      r == Err(GetMappedPort(info, DefaultPort).error)
    ensures r.Ok? <==> GetDockerHostIpAddress(env, info).Ok? && GetMappedPort(info, DefaultPort).Ok?
    ensures r.Ok? ==>
      GetDockerHostIpAddress(env, info).Ok? && GetMappedPort(info, DefaultPort).Ok? &&
      r.value == [("server", GetDockerHostIpAddress(env, info).value + "," + IntToString(GetMappedPort(info, DefaultPort).value)),
                  ("uid", "sa"), ("password", OrEmpty(context.password))]
  {
    var host := GetDockerHostIpAddress(env, info);
    if host.Err? then Err(host.error)
    else
      var port := GetMappedPort(info, DefaultPort);
      if port.Err? then Err(port.error)
      else Ok([("server", host.value + "," + IntToString(port.value)), ("uid", OrEmpty(Username(MsSql, context))),
               ("password", OrEmpty(context.password))])
  }

  /** Before the container has been inspected there are no settings to build. */
  lemma SettingsNeedInspect(env: HostEnv, context: DatabaseContext)
    ensures ConnectionSettingsFor(env, None, context).Err?
  {
  }

  /** `ContainerStarted`: build and keep the connection string. */
  method ContainerStarted(c: Container, env: HostEnv) returns (o: Outcome<Exn>)
    modifies c`connectionSettings
    ensures var r := ConnectionSettingsFor(env, old(c.containerInfo), c.context);
      o == (if r.Ok? then Pass else Fail(r.error)) &&
      c.connectionSettings == (if r.Ok? then Some(r.value) else old(c.connectionSettings))
  {
    var r := ConnectionSettingsFor(env, c.containerInfo, c.context);
    if r.Err? {
      return Fail(r.error);
    }
    c.connectionSettings := Some(r.value);
    return Pass;
  }

  /** `GetConnectionString(databaseName)`: the guard of the plain overload, then
    * a fresh builder with the database set. */
  function GetConnectionStringWithDatabase(c: Container, env: HostEnv, databaseName: string)
    : (r: Result<ConnectionSettings, Exn>)
    reads c
    ensures c.connectionSettings.None? ==> r == AdoNet.GetConnectionString(c)
    ensures r.Ok? ==> (c.connectionSettings.Some? && ConnectionSettingsFor(env, c.containerInfo, c.context).Ok? &&
      r.value == ConnectionSettingsFor(env, c.containerInfo, c.context).value + [("database", databaseName)])
    ensures r.Ok? <==> c.connectionSettings.Some? && ConnectionSettingsFor(env, c.containerInfo, c.context).Ok?
    ensures c.connectionSettings.Some? && r.Err? ==> r.error == ConnectionSettingsFor(env, c.containerInfo, c.context).error
  {
    if c.connectionSettings.None? then Err(Make(InvalidOperation, AdoNet.NotReadyMessage))
    else
      match ConnectionSettingsFor(env, c.containerInfo, c.context)
      case Err(e) => Err(e)
      case Ok(s) => Ok(s + [("database", databaseName)])
  }

  /** With the container started and the host unchanged, the overload is the
    * stored connection string with the database added. */
  lemma DatabaseOverloadExtendsStored(c: Container, env: HostEnv, databaseName: string)
    requires ConnectionSettingsFor(env, c.containerInfo, c.context).Ok?
    requires c.connectionSettings == Some(ConnectionSettingsFor(env, c.containerInfo, c.context).value)
    ensures GetConnectionStringWithDatabase(c, env, databaseName) ==
      Ok(AdoNet.GetConnectionString(c).value + [("database", databaseName)])
  {
  }
}
