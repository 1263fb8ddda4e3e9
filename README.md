# testcontainers-dotnet core, modelled in Dafny

This project models the sequential core of testcontainers-dotnet, a .NET
library that starts throw-away Docker containers for tests. The model covers
four groups of logic.

- **Reaper bookkeeping.**
  - `RyukContainer` keeps a "death note" of label filters. It sends the
    pending ones as `label=k=v&label=k=v…`, reads reply lines until an `ACK`,
    and then forgets the filters it sent.
  - The two static `ResourceReaper` classes decide from `REAPER_DISABLED`
    whether to run at all. They start the Ryuk companion at most once,
    register the process-exit hook once, and collect the images to delete.
  - The instance `ResourceReaper` chooses which listed containers to kill and
    remove by their labels.
- **Startup and readiness waits.**
  - `IsRunningStartupCheckStrategy` inspects the container's state.
  - `AbstractProbingStrategy` retries a whitelist of exception types and
    unwraps an `AggregateException` by one level.
  - `ExposedPortsWaitStrategy` (both variants) needs every exposed port to
    connect within one attempt.
  - All of them share one shape: Polly's retry at a fixed interval under a
    timeout. The model replaces wall-clock time with an attempt budget, and
    each attempt's result is an input.
- **Container configuration and lifecycle.**
  - `AbstractContainer`: the start and stop guards, the ordered start
    pipeline with its cancellation checks, host resolution by URI scheme,
    the `"{port}/tcp"` mapped-port lookup, and the translation of the
    settings into create parameters.
  - The `ConfigureAsync`, `ContainerStarted` and connection-string rules of
    the generic, ADO.NET, SQL Server, MySQL, PostgreSQL and ArangoDB
    containers.
  - C# subclassing becomes a `Kind` tag on one `Container` class. The virtual
    hooks are dispatched on that tag in `Lifecycle`.
- **String, path and selection rules.**
  - `.dockerignore` cleaning and the last-match ignore decision, relative
    paths, the temporary tar name and `DockerfileImage.Resolve`.
  - `GenericImage` tag derivation and its existing-image lookup.
  - `OS.NormalizePath`.
  - Docker-client provider ordering and selection.

**Conventions.**
- `Dictionary<K, V>` is an insertion-ordered entry list with distinct keys
  (`Dicts.Dict`). `Add` on a present key is the `ArgumentException`.
- Exceptions are values of type `Exceptions.Exn`, with a type, a message and
  inner exceptions. The .NET class hierarchy is spelled out in
  `Exceptions.BaseType`.
- A method that can throw returns an `Outcome` or a `Result`.
- Docker Engine calls are recorded in a `calls` sequence, and their replies
  are inputs.

The quirks of the code are modelled as written, and lemmas spell them out:
- MsSql's digit check is inverted (`MsSql.DigitCheckInverted`).
- A `!` pattern in `.dockerignore` never re-includes a file
  (`DockerfileImage.SingleBangNeverReincludes`).
- Pending death-note entries are removed even without an `ACK`
  (`Ryuk.RyukContainer.AwaitAck`).
- The current-session reap does not filter by session
  (`ContainersReaper.CurrentCoversPrevious`).
- An empty death note makes the payload throw (`Ryuk.PayloadShape`).

The database classes exist in two generations in the source: the
`IDatabaseContext` one (PostgreSQL, ADO.NET) and a newer one whose
constructors take an image object (MySQL, ArangoDB). The model gives every
database container a `DatabaseContext` and follows each file's own
constructors.

## Model

| member | source | states |
|---|---|---|
| Retry.Budget | src/Container.Abstractions/WaitStrategies/AbstractProbingStrategy.cs:49-53 | the number of attempts that start before the timeout is the ceiling of timeout ÷ interval |
| Retry.Execute | src/Container.Abstractions/WaitStrategies/AbstractProbingStrategy.cs:39-54 | the retry loop reports exactly what the policy specification `Run` reports for the attempt results and budget |
| Retry.RunDecided | src/Container.Abstractions/WaitStrategies/AbstractProbingStrategy.cs:49-54 | the first attempt within the budget that is not retried decides the outcome |
| Retry.RunTimesOut | src/Container.Abstractions/WaitStrategies/AbstractProbingStrategy.cs:51-53 | when every attempt in the budget is retried, the run fails with the timeout exception after exactly `budget` attempts |
| Retry.RunCases | src/Container.Abstractions/WaitStrategies/AbstractProbingStrategy.cs:49-54 | every run either has a first decisive attempt within the budget or retries every attempt |
| Retry.LaunchOutcome | src/Container.Abstractions/StartupStrategies/IsRunningStartupCheckStrategy.cs:23-26 | a captured failure becomes a `ContainerLaunchException` with the strategy's message and the final exception as inner exception; success passes |
| StartupCheck.IsContainerRunning | src/Container.Abstractions/StartupStrategies/IsRunningStartupCheckStrategy.cs:29-44 | running counts as ready even with `FinishedAt` set; not running with `FinishedAt` set throws an `InvalidOperationException` with the exit code; otherwise not yet |
| StartupCheck.WaitUntilSuccess | src/Container.Abstractions/StartupStrategies/IsRunningStartupCheckStrategy.cs:12-27 | the one-second, one-minute inspect loop returns the strategy's verdict over the inspect results |
| StartupCheck.RetriedIffStillStarting | src/Container.Abstractions/StartupStrategies/IsRunningStartupCheckStrategy.cs:14-44 | an inspect is retried exactly when the container is still starting, and succeeds exactly when it reports running |
| StartupCheck.SucceedsOnceRunning | src/Container.Abstractions/StartupStrategies/IsRunningStartupCheckStrategy.cs:14-34 | an inspect reporting running within the minute, after only "still starting" ones, ends the wait successfully |
| StartupCheck.ExitedContainerFails | src/Container.Abstractions/StartupStrategies/IsRunningStartupCheckStrategy.cs:23-40 | an exited container fails the wait at once with a launch exception wrapping the exit-code `InvalidOperationException` |
| StartupCheck.NeverRunningTimesOut | src/Container.Abstractions/StartupStrategies/IsRunningStartupCheckStrategy.cs:18-26 | a container still starting after a minute of inspects fails with a launch exception wrapping the timeout |
| StartupCheck.SucceedsIff | src/Container.Abstractions/StartupStrategies/IsRunningStartupCheckStrategy.cs:12-27 | the wait succeeds iff some inspect within the minute reports running and every earlier one said "still starting" |
| Probing.WhitelistCoversSubclasses | src/Container.Abstractions/WaitStrategies/AbstractProbingStrategy.cs:47 | `ShouldRetry`: whitelisting a type retries every exception of a subclass of it |
| Probing.ShouldRetryMonotone | src/Container.Abstractions/WaitStrategies/AbstractProbingStrategy.cs:40-48 | a larger whitelist retries at least the same exceptions |
| Probing.EmptyAggregateNotRetried | src/Container.Abstractions/WaitStrategies/AbstractProbingStrategy.cs:42-45 | an aggregate's own type is never checked: an empty aggregate is not retried even when `Exception` is whitelisted |
| Probing.NestedAggregateNotUnwrapped | src/Container.Abstractions/WaitStrategies/AbstractProbingStrategy.cs:42-45 | only one level is unwrapped: an aggregate inside an aggregate is retried only when `AggregateException` itself is whitelisted |
| Probing.ProbeOutcome | src/Container.Abstractions/WaitStrategies/AbstractProbingStrategy.cs:56-59 | a failed capture throws a launch exception with the final exception's message and that exception as inner; success passes |
| Probing.WaitUntil | src/Container.Abstractions/WaitStrategies/AbstractProbingStrategy.cs:37-60 | the probing loop returns the probing verdict for the probe results, timeout and interval |
| Probing.DefaultAttempts | src/Container.Abstractions/WaitStrategies/AbstractProbingStrategy.cs:19-24 | with the default one-minute timeout and three-second interval the probe runs at most 20 times |
| Probing.FirstCompletedProbeSucceeds | src/Container.Abstractions/WaitStrategies/AbstractProbingStrategy.cs:49-54 | a probe that completes within the budget, after only retried failures, ends the wait successfully |
| Probing.UnretriedFailureStops | src/Container.Abstractions/WaitStrategies/AbstractProbingStrategy.cs:40-59 | a failure the whitelist does not cover stops probing at once; the launch exception carries its message and has it as inner exception |
| Probing.RetriedUntilTimeout | src/Container.Abstractions/WaitStrategies/AbstractProbingStrategy.cs:51-59 | retried failures until the budget is spent end in a launch exception wrapping the timeout |
| ExposedPortsWait.PortsFrom | src/Container.Abstractions/WaitStrategies/ExposedPortsWaitStrategy.cs:49-60 | the port walk passes iff every port is mapped and connects, else fails with the first failing port's error |
| ExposedPortsWait.AllPortsExposed | src/Container.Abstractions/WaitStrategies/ExposedPortsWaitStrategy.cs:45-63 | the port loop of one attempt computes the host error or the port walk's result |
| ExposedPortsWait.StopsAtFirstFailure | src/Container.Abstractions/WaitStrategies/ExposedPortsWaitStrategy.cs:49-60 | once a port fails, what later ports would do does not change the attempt's result |
| ExposedPortsWait.WaitForPorts | src/Container.Abstractions/WaitStrategies/ExposedPortsWaitStrategy.cs:28-43 | the retry loop returns the verdict of the attempts over one minute at one-second intervals, retrying only `SocketException` |
| ExposedPortsWait.WaitUntil | src/Container.Abstractions/WaitStrategies/ExposedPortsWaitStrategy.cs:28-43 | the strategy's result for the container's host and mapped ports, with the "Container.Abstractions startup failed" message |
| ExposedPortsWait.EmptyPortsSucceed | src/Container.Abstractions/WaitStrategies/ExposedPortsWaitStrategy.cs:45-62 | an empty port list passes on the first attempt once the host resolves |
| ExposedPortsWait.UnmappedPortFailsAtOnce | src/Container.Abstractions/WaitStrategies/ExposedPortsWaitStrategy.cs:30-54 | an unmapped port fails the wait on the first attempt with a launch exception wrapping that error, without retry |
| ExposedPortsWait.AttemptSucceedsIff | src/Container.Abstractions/WaitStrategies/ExposedPortsWaitStrategy.cs:45-63 | an attempt succeeds iff the host resolves and every port is mapped and connects |
| ExposedPortsWait.RefusedUntilTimeout | src/Container.Abstractions/WaitStrategies/ExposedPortsWaitStrategy.cs:34-42 | refused connections for the whole minute end in a launch exception wrapping the timeout |
| LegacyExposedPortsWait.WaitUntil | src/Containers/WaitStrategies/ExposedPortsWaitStrategy.cs:19-54 | the older variant runs the same attempts and retries with the "Container startup failed" message |
| Exceptions.IsAOrder | src/Container.Abstractions/WaitStrategies/AbstractProbingStrategy.cs:44-47 | `IsInstanceOfType` is reflexive, transitive and antisymmetric, and every type is an `Exception` |
| ContainerModel.GetContainerGateway | src/Container.Abstractions/AbstractContainer.cs:437-466 | no gateway in a Docker container, on Windows or before inspect; otherwise the non-blank settings gateway; else the gateway of the network named by the network mode, present exactly when that mode is not blank, names a listed network and its gateway is not blank |
| ContainerModel.GetDockerHostIpAddress | src/Container.Abstractions/AbstractContainer.cs:171-188 | http/https/tcp give the URI host, npipe/unix the gateway or "localhost"; an error (an `InvalidOperationException`) exactly for any other scheme |
| ContainerModel.SocketHostBeforeStart | src/Container.Abstractions/AbstractContainer.cs:181-183 | a socket transport resolves to "localhost" before inspect, inside a Docker container or on Windows |
| ContainerModel.TcpPortKeyInjective | src/Container.Abstractions/AbstractContainer.cs:199 | different ports have different `"{port}/tcp"` keys |
| ContainerModel.GetMappedPort | src/Container.Abstractions/AbstractContainer.cs:191-209 | an error before start; otherwise the first binding's host port under `"<port>/tcp"`, parsed as an Int32, and the not-mapped error when the key is missing, the list is empty or the value does not parse |
| Text.ParseInt32 | src/Container.Abstractions/AbstractContainer.cs:203 | `int.TryParse` only yields values in the Int32 range |
| Text.ParseUnsigned | src/Container.Abstractions/AbstractContainer.cs:203 | a string of digits within range parses to its value |
| Text.ParseNegative | src/Container.Abstractions/AbstractContainer.cs:203 | "-" and digits within range parse to the negated value |
| Text.IntToStringRoundTrip | src/Container.Abstractions/AbstractContainer.cs:203 | parsing the decimal text of an Int32 gives it back |
| ContainerModel.EnvStrings | src/Container.Abstractions/AbstractContainer.cs:379 | one `"k=v"` string per environment entry, in order |
| ContainerModel.ExposedPortEntries | src/Container.Abstractions/AbstractContainer.cs:380-382 | one `"<p>/tcp"` key per exposed port, in order |
| ContainerModel.PortBindingEntries | src/Container.Abstractions/AbstractContainer.cs:395-403 | one `"<p>/tcp"` entry per binding, holding one binding whose host port is the bound port's text; the keys stay distinct |
| ContainerModel.Mounts | src/Container.Abstractions/AbstractContainer.cs:404-411 | one bind mount per `Bind`, with its source and target, read-only iff the access mode is `ReadOnly` |
| ContainerModel.ApplyConfiguration | src/Container.Abstractions/AbstractContainer.cs:374-435 | the image, env strings, `"<p>/tcp"` port maps, labels, mounts, `PublishAllPorts`, privileged flag, and aliases only for a user-defined network; an `ArgumentException` on a failure |
| ContainerModel.ExposedPortKeysDistinct | src/Container.Abstractions/AbstractContainer.cs:380-382 | the exposed-port keys are distinct exactly when the ports are |
| ContainerModel.ApplyConfigurationFailsIff | src/Container.Abstractions/AbstractContainer.cs:380-382 | building the create parameters fails exactly when some port is exposed twice |
| ContainerModel.MappedPortOfRequestedBinding | src/Container.Abstractions/AbstractContainer.cs:191-209 | a binding requested at create time is the port `GetMappedPort` reports when the inspect lists the bindings as requested |
| Containers.Container.constructor | src/Container.Abstractions/AbstractContainer.cs:62-104 | a new container has no id, no inspect result, empty settings and no wait strategy |
| Containers.Username | src/Container.Database.MsSql/MsSqlContainer.cs:45 | "sa" for SQL Server, "root" for ArangoDB, the context's user otherwise |
| Containers.DatabaseName | src/Container.Database.ArangoDb/ArangoDbContainer.cs:47 | "_system" for ArangoDB, the context's database otherwise |
| Containers.AddEnv | src/Container.Abstractions/AbstractContainer.cs:77 | `Env.Add` throws on a present key and leaves the environment; otherwise it appends the entry |
| Containers.AddEnvAll | src/Container.Abstractions/AbstractContainer.cs:77 | successive `Env.Add` calls stop at the first duplicate, keeping the entries added before it |
| GenericContainer.DockerImageName | src/Container.Abstractions/GenericContainer.cs:26-58 | the image name argument, the named image object's name, or the default for no argument, a null image or a `NullImage` |
| GenericContainer.NewGenericContainer | src/Container.Abstractions/GenericContainer.cs:26-58 | a generic container with that image name and nothing configured |
| GenericContainer.DefaultImageIsAlpine | src/Container.Abstractions/GenericContainer.cs:19-54 | with no image, a null image or a `NullImage` the image is "alpine:3.5" |
| GenericContainer.AddLabels | src/Container.Abstractions/GenericContainer.cs:76-79 | the labels are added one by one, stopping at the first duplicate key, which is the exception |
| GenericContainer.Configure | src/Container.Abstractions/GenericContainer.cs:70-80 | configuring adds the reaper labels to the existing ones, failing with the duplicate key's exception |
| GenericContainer.ConfigureSucceedsIff | src/Container.Abstractions/GenericContainer.cs:76-79 | configuring succeeds exactly when no existing label has a reaper label's key |
| GenericContainer.AddAllReadsBack | src/Container.Abstractions/GenericContainer.cs:76-79 | after successful adds the earlier labels are kept and every added key reads back its value |
| GenericContainer.ConfigureTwiceFails | src/Container.Abstractions/GenericContainer.cs:70-80 | configuring a second time always throws |
| GenericContainer.ContainerStarting | src/Container.Abstractions/GenericContainer.cs:61-67 | the starting hook starts the reaper: unless it is disabled, one Ryuk container is created, the hook registered, the image chosen and the session filter handed over on first start; disabled, nothing changes; the images to delete are untouched |
| AdoNet.Configure | src/Container.Database.AdoNet/AdoNetContainer.cs:20-25 | the generic configuration, then the SQL probe wait strategy only if it succeeded |
| AdoNet.ProbeRetries | src/Container.Database.AdoNet/WaitStrategies/AdoNetSqlProbeStrategy.cs:15-16 | outside an aggregate, the SQL probe is retried exactly on socket and database exceptions |
| AdoNet.GetConnectionString | src/Container.Database.MsSql/MsSqlContainer.cs:84-92 | the "must be started" `InvalidOperationException` exactly while no connection string is stored, otherwise the stored one |
| MsSql.NewMsSqlContainer | src/Container.Database.MsSql/MsSqlContainer.cs:51-60 | the default image "mcr.microsoft.com/mssql/server:2017-latest-ubuntu" or the given name |
| MsSql.Score | src/Container.Database.MsSql/MsSqlContainer.cs:135-139 | the score counts four flags, so it is at most 4 |
| MsSql.ValidatePassword | src/Container.Database.MsSql/MsSqlContainer.cs:128-147 | a null password is a null dereference; fewer than 8 characters is the length error; a score below 3 is the categories error |
| MsSql.HasUpperCaseIff | src/Container.Database.MsSql/MsSqlContainer.cs:154-157 | "lower-casing changes it" holds exactly when some character is a capital |
| MsSql.HasLowerCaseIff | src/Container.Database.MsSql/MsSqlContainer.cs:159-162 | "upper-casing changes it" holds exactly when some character is a small letter |
| MsSql.ValidatePasswordIff | src/Container.Database.MsSql/MsSqlContainer.cs:128-172 | a password passes iff it has at least 8 characters and 3 credited categories, the digit category being credited for having NO digit |
| MsSql.DigitCheckInverted | src/Container.Database.MsSql/MsSqlContainer.cs:164-167 | "Abcdefgh" passes while "Abcdefg1" fails the categories check |
| MsSql.Env | src/Container.Database.MsSql/MsSqlContainer.cs:72-73 | the added environment is `ACCEPT_EULA=Y` and `SA_PASSWORD=<password>`, with distinct keys |
| MsSql.Configure | src/Container.Database.MsSql/MsSqlContainer.cs:63-74 | a rejected password throws before anything changes; otherwise the AdoNet configuration, then port 1433 and the environment |
| MsSql.ConnectionSettingsFor | src/Container.Database.MsSql/MsSqlContainer.cs:113-126 | `server` = host + "," + mapped 1433, `uid` = "sa", `password`; built exactly when the host and the mapped port both resolve, otherwise the host's error first, then the port's |
| MsSql.SettingsNeedInspect | src/Container.Database.MsSql/MsSqlContainer.cs:121 | before inspect no connection settings can be built |
| MsSql.ContainerStarted | src/Container.Database.MsSql/MsSqlContainer.cs:77-81 | the started hook stores the built settings, or throws their error and keeps what was stored |
| MsSql.GetConnectionStringWithDatabase | src/Container.Database.MsSql/MsSqlContainer.cs:100-111 | the plain overload's "must be started" error while nothing is stored; otherwise it succeeds exactly when the settings build, with `database` appended, and fails with the build's own error |
| MsSql.DatabaseOverloadExtendsStored | src/Container.Database.MsSql/MsSqlContainer.cs:100-111 | with the container started, the overload is the stored settings plus the database |
| MySql.NewMySqlContainer | src/Container.Database.MySql/MySqlContainer.cs:85-102 | the default "mysql:8" for no image, a null image or a `NullImage`, else the given one |
| MySql.EnvEntries | src/Container.Database.MySql/MySqlContainer.cs:110-121 | `Env` starts with `MYSQL_DATABASE` and `MYSQL_ALLOW_EMPTY_PASSWORD=yes`, with distinct keys |
| MySql.EnvUserVariables | src/Container.Database.MySql/MySqlContainer.cs:113-121 | in `Env`, user "root" gets only `MYSQL_ROOT_PASSWORD`; any other user gets `MYSQL_USER` and `MYSQL_PASSWORD` and no root password |
| MySql.Configure | src/Container.Database.MySql/MySqlContainer.cs:105-122 | the AdoNet configuration, then port 3306 and the environment |
| MySql.ConnectionSettingsFor | src/Container.Database.MySql/MySqlContainer.cs:127-132 | server, mapped 3306, database, username and password, in that order; built exactly when the host and the mapped port both resolve, otherwise the host's error first, then the port's |
| MySql.SettingsNeedInspect | src/Container.Database.MySql/MySqlContainer.cs:129 | before inspect no connection settings can be built |
| MySql.ContainerStarted | src/Container.Database.MySql/MySqlContainer.cs:125-137 | the started hook stores the built settings, or throws their error |
| PostgreSql.NewPostgreSqlContainer | src/Container.Database.PostgreSql/PostgreSqlContainer.cs:22-26 | a container with the given image name and context |
| PostgreSql.EnvEntries | src/Container.Database.PostgreSql/PostgreSqlContainer.cs:33-35 | `Env` is exactly `POSTGRES_DB`, `POSTGRES_USER`, `POSTGRES_PASSWORD`, each once, holding the context's database, user and password |
| PostgreSql.Configure | src/Container.Database.PostgreSql/PostgreSqlContainer.cs:28-36 | the AdoNet configuration first, then port 5432 and the environment |
| PostgreSql.ConfigureOnCleanEnv | src/Container.Database.PostgreSql/PostgreSqlContainer.cs:33-35 | on an environment without these keys all three are appended |
| PostgreSql.ConnectionSettingsFor | src/Container.Database.PostgreSql/PostgreSqlContainer.cs:40-45 | server, mapped 5432, database, username and password; built exactly when the host and the mapped port both resolve, otherwise the host's error first, then the port's |
| PostgreSql.SettingsNeedInspect | src/Container.Database.PostgreSql/PostgreSqlContainer.cs:42 | before inspect no connection settings can be built |
| PostgreSql.ContainerStarted | src/Container.Database.PostgreSql/PostgreSqlContainer.cs:38-50 | the started hook stores the built settings, or throws their error |
| ArangoDb.NewArangoDbContainer | src/Container.Database.ArangoDb/ArangoDbContainer.cs:50-67 | the default "arangodb:3.4" for no image, a null image or a `NullImage`, else the given one |
| ArangoDb.FixedUserAndDatabase | src/Container.Database.ArangoDb/ArangoDbContainer.cs:44-47 | the user is "root" and the database "_system", whatever the context says |
| ArangoDb.Configure | src/Container.Database.ArangoDb/ArangoDbContainer.cs:70-85 | a null or empty password throws before any change; otherwise the generic configuration, port 8529, `ARANGO_ROOT_PASSWORD` and the probing wait |
| ArangoDb.ProbeRetries | src/Container.Database.ArangoDb/ArangoDbContainer.cs:82-84 | outside an aggregate the probe is retried exactly on HTTP request and invalid-operation exceptions, `ObjectDisposedException` included |
| ArangoDb.UrlShape | src/Container.Database.ArangoDb/ArangoDbContainer.cs:93 | the text after the URL's last ':' reads back as the port, whatever the host |
| ArangoDb.GetArangoUrl | src/Container.Database.ArangoDb/ArangoDbContainer.cs:91-94 | `http://<host>:<mapped 8529>`; the host's error first, then the port's |
| ArangoDb.ArangoUrlPort | src/Container.Database.ArangoDb/ArangoDbContainer.cs:91-94 | a built URL reads back as the mapped port |
| Ryuk.PayloadShape | src/Container.Abstractions/Reaper/RyukContainer.cs:112-118 | `Payload` fails exactly for an empty death note, with "Sequence contains no elements"; otherwise it is one `label=k=v` piece per entry joined by `&` |
| Ryuk.FoldIsJoin | src/Container.Abstractions/Reaper/RyukContainer.cs:114-116 | the seedless `Aggregate` is the `&` join of the pieces |
| Ryuk.PayloadSplits | src/Container.Abstractions/Reaper/RyukContainer.cs:114-116 | when no key or value holds an `&`, splitting the payload on `&` gives back every entry's piece exactly once, in order |
| Ryuk.ReadUntilAck | src/Container.Abstractions/Reaper/RyukContainer.cs:124-128 | lines are read until the first `ACK` ignoring case, or to the end of the stream; every line before it is skipped |
| Ryuk.RemoveSnapshotKeys | src/Container.Abstractions/Reaper/RyukContainer.cs:112-133 | removing the snapshot's keys leaves exactly the entries added after the snapshot |
| Ryuk.RyukContainer.constructor | src/Container.Abstractions/Reaper/RyukContainer.cs:37-41 | a Ryuk container with an empty death note and nothing sent |
| Ryuk.RyukContainer.AddToDeathNote | src/Container.Abstractions/Reaper/RyukContainer.cs:99-103 | a pending key throws and does not notify; otherwise the entry is appended and the worker notified once |
| Ryuk.RyukContainer.AddAllToDeathNote | src/Container.Abstractions/Reaper/RyukContainer.cs:84-92 | entries are added one by one; a duplicate throws, keeping the earlier ones, and only a complete add notifies |
| Ryuk.RyukContainer.BeginSend | src/Container.Abstractions/Reaper/RyukContainer.cs:110-122 | the death note is snapshotted and its payload written; an empty note throws before anything is written |
| Ryuk.RyukContainer.AwaitAck | src/Container.Abstractions/Reaper/RyukContainer.cs:124-133 | replies are consumed up to the first `ACK` or the end; the snapshot's keys are removed either way, and later entries stay |
| Ryuk.Configure | src/Container.Abstractions/Reaper/RyukContainer.cs:44-59 | waits on exactly [8080], exposes 8080, binds the endpoint path read-only onto itself, and sets auto-remove |
| Ryuk.ServiceStarted | src/Container.Abstractions/Reaper/RyukContainer.cs:62-71 | the connection opens to the host and mapped 8080, or the host, port or connect error is thrown |
| Ryuk.ContainerStopping | src/Container.Abstractions/Reaper/RyukContainer.cs:74-78 | the connection is disposed |
| AbstractionsReaper.ReaperDisabledIff | src/Container.Abstractions/Reaper/ResourceReaper.cs:64-70 | `ReaperDisabled` holds exactly for "1" or "true" in any letter case |
| AbstractionsReaper.ReaperImage | src/Container.Abstractions/Reaper/ResourceReaper.cs:72-76 | `REAPER_IMAGE` when it is set and not blank, else "quay.io/testcontainers/ryuk:0.2.3" |
| AbstractionsReaper.Labels | src/Container.Abstractions/Reaper/ResourceReaper.cs:24-42 | exactly the marker label "true" and the session label |
| AbstractionsReaper.CleanupRequests | src/Container.Abstractions/Reaper/ResourceReaper.cs:198-211 | one forced delete with `PruneChildren` false for each registered image and nothing else |
| AbstractionsReaper.CleanupRequestsCount | src/Container.Abstractions/Reaper/ResourceReaper.cs:209-210 | exactly one delete per image |
| AbstractionsReaper.ResourceReaper.constructor | src/Container.Abstractions/Reaper/ResourceReaper.cs:34-54 | no Ryuk container, no hook, no images, no filters |
| AbstractionsReaper.ResourceReaper.SetupShutdownHook | src/Container.Abstractions/Reaper/ResourceReaper.cs:171-196 | the hook is registered once, however often this is called |
| AbstractionsReaper.ResourceReaper.StartAsync | src/Container.Abstractions/Reaper/ResourceReaper.cs:62-126 | disabled: nothing changes; otherwise one Ryuk container ever, the session filter handed over before completion, and the hook registered once |
| AbstractionsReaper.ResourceReaper.RegisterFilterForCleanup | src/Container.Abstractions/Reaper/ResourceReaper.cs:132-135 | a null dereference before the reaper started, otherwise the filter is handed over |
| AbstractionsReaper.ResourceReaper.RegisterImageForCleanup | src/Container.Abstractions/Reaper/ResourceReaper.cs:142-149 | the hook exists once and the image joins the set, so duplicates collapse |
| ContainersReaper.Labels | src/Containers/ResourceReaper.cs:13-34 | marker "true", marker + ".SessionId" → session, marker + ".EntryAssembly" → entry assembly |
| ContainersReaper.WhereAppend | src/Containers/ResourceReaper.cs:53-62 | LINQ `Where` keeps the order: filtering a concatenation filters each part |
| ContainersReaper.ByReaperLabels | src/Containers/ResourceReaper.cs:70-97 | exactly the listed containers whose assembly label names the entry assembly |
| ContainersReaper.PreviousSession | src/Containers/ResourceReaper.cs:51-64 | exactly the listed containers of the entry assembly whose session label is missing or names another session |
| ContainersReaper.CurrentCoversPrevious | src/Containers/ResourceReaper.cs:43-96 | the current-session reap takes exactly the listed containers of the entry assembly, covers the previous-session reap, and adds only this session's containers |
| ContainersReaper.UnlabelledNeverReaped | src/Containers/ResourceReaper.cs:87-96 | a container without an assembly label is never reaped |
| ContainersReaper.Kills | src/Containers/ResourceReaper.cs:99-104 | one kill per container, in order |
| ContainersReaper.Removes | src/Containers/ResourceReaper.cs:106-121 | one remove per container, in order |
| ContainersReaper.AllOf | src/Containers/ResourceReaper.cs:101-103 | `Task.WhenAll` over one task per container succeeds exactly when every task does, and otherwise throws the first failing task's exception |
| ContainersReaper.KillContainers | src/Containers/ResourceReaper.cs:99-104 | every kill is issued (`Kills`), and the result is `AllOf` the kill replies |
| ContainersReaper.RemoveContainers | src/Containers/ResourceReaper.cs:106-121 | every remove is issued (`Removes`), and the result is `AllOf` the remove replies |
| ContainersReaper.KillsThenRemoves | src/Containers/ResourceReaper.cs:47-48 | each selected container is killed and removed, every kill before every remove |
| ContainersReaper.KillThenRemoveAll | src/Containers/ResourceReaper.cs:47-48 | the kills; the removes only when every kill succeeded; the first failed kill's exception otherwise |
| ContainersReaper.ReapCurrentSessionContainers | src/Containers/ResourceReaper.cs:43-49 | the list call first; a failed list ends the reap with its exception; otherwise the kills of the assembly-matched containers and, only if all of them succeeded, their removes, with the first failure's exception |
| ContainersReaper.ReapPreviousSessionContainers | src/Containers/ResourceReaper.cs:51-68 | as the current-session reap, over the assembly-matched containers whose session label is missing or different |
| ContainersReaperStart.Labels | src/Containers/Reaper/ResourceReaper.cs:11-19 | exactly the marker label "true" and the session label |
| ContainersReaperStart.ResourceReaper.constructor | src/Containers/Reaper/ResourceReaper.cs:13-25 | no Ryuk container and nothing started |
| ContainersReaperStart.ResourceReaper.Start | src/Containers/Reaper/ResourceReaper.cs:27-62 | disabled: nothing changes; otherwise one Ryuk container ever, given the labels before completion, and every caller sees the completion |
| Lifecycle.ConfigureAsync | src/Container.Abstractions/AbstractContainer.cs:234-237 | dispatched on the kind: the generic labels; Ryuk's wait on [8080], port 8080, read-only endpoint bind and auto-remove; each database class's full configure result (`DatabaseConfigured`); bind mounts and auto-remove untouched except for Ryuk |
| Lifecycle.ConfigureDatabase | src/Container.Abstractions/AbstractContainer.cs:234-237 | the SQL Server password check, then the ADO.NET configuration with the class's port and variables for SQL Server, MySQL and PostgreSQL, and ArangoDB's own configuration |
| Lifecycle.ContainerStarting | src/Container.Abstractions/AbstractContainer.cs:242-245 | every generic container starts the reaper, with the state `ResourceReaper.StartAsync` promises (Ryuk created once, hook, image, session filter; nothing when disabled); the Ryuk container leaves it unchanged |
| Lifecycle.ContainerStarted | src/Container.Abstractions/AbstractContainer.cs:250-253 | SQL Server, MySQL and PostgreSQL store the settings their `ConnectionSettingsFor` builds from the inspect result, or throw its error and keep what was stored; other kinds pass and change nothing |
| Lifecycle.ServiceStarted | src/Container.Abstractions/AbstractContainer.cs:258-261 | the Ryuk container throws the host error, then the mapped-8080 error, then a refused connect, and otherwise connects to that host and port; other kinds pass and change nothing |
| Lifecycle.ContainerStopping | src/Container.Abstractions/AbstractContainer.cs:266-269 | the Ryuk container closes its connection; other kinds change nothing |
| Lifecycle.ResolveImage | src/Container.Abstractions/AbstractContainer.cs:279-287 | nothing once cancelled, otherwise the image's resolve |
| Lifecycle.ResolveNetwork | src/Container.Abstractions/AbstractContainer.cs:289-300 | nothing once cancelled or without a network, otherwise the network's resolve |
| Lifecycle.CreateContainer | src/Container.Abstractions/AbstractContainer.cs:302-314 | no id once cancelled; a port exposed twice throws; otherwise the daemon's id for the applied configuration |
| Lifecycle.StartContainer | src/Container.Abstractions/AbstractContainer.cs:316-349 | start, startup check, inspect; a start that is not done is a launch exception with the id; every error is rethrown |
| Lifecycle.StartServices | src/Container.Abstractions/AbstractContainer.cs:351-372 | nothing once cancelled, otherwise the wait strategy's verdict |
| Lifecycle.Hooks | src/Container.Abstractions/AbstractContainer.cs:131-133 | the configure hook, then the starting hook only when configuring succeeded |
| Lifecycle.Resolve | src/Container.Abstractions/AbstractContainer.cs:135-137 | the image, then the network only when the image resolved; the calls made |
| Lifecycle.Prepare | src/Container.Abstractions/AbstractContainer.cs:131-137 | the configure and starting hooks, image and network, each entered only after the earlier ones succeed |
| Lifecycle.Launch | src/Container.Abstractions/AbstractContainer.cs:139-141 | create, then start, the id stored from the create |
| Lifecycle.Serve | src/Container.Abstractions/AbstractContainer.cs:143-147 | the started hook, the wait strategy and the service-started hook, in order |
| Lifecycle.Boot | src/Container.Abstractions/AbstractContainer.cs:139-147 | the last five steps in order, stopping at the first failure |
| Lifecycle.StartAsync | src/Container.Abstractions/AbstractContainer.cs:124-148 | nothing once there is an id; otherwise the nine steps in order, stopping at the first failure, and a cancelled start makes no Docker call and leaves no id |
| Lifecycle.StopAsync | src/Container.Abstractions/AbstractContainer.cs:151-168 | nothing without an id; otherwise the stopping hook, the stop, and the removal only when auto-remove is off |
| OS.NormalizePath | src/Container.Abstractions/Utilities/OS.cs:22-43 | `\` turns every `/` into `\` and `/` every `\` into `/`; any other separator is a `NotSupportedException`; same length, other characters unchanged, the replaced one gone |
| OS.NormalizeIdempotent | src/Container.Abstractions/Utilities/OS.cs:42 | normalising twice is normalising once |
| OS.NormalizeFixedPoint | src/Container.Abstractions/Utilities/OS.cs:42 | a path is left unchanged exactly when it holds no foreign separator |
| GenericImage.FirstMatch | src/Container.Abstractions/Images/GenericImage.cs:37 | the first listed image whose tags are present and contain the name, or none exactly when there is no such image |
| GenericImage.Tag | src/Container.Abstractions/Images/GenericImage.cs:48 | the suffix after the last ':', or the whole name without one |
| GenericImage.TagOf | src/Container.Abstractions/Images/GenericImage.cs:48 | `repository:tag` gives `tag` when the tag holds no ':'; a name without ':' is its own tag |
| GenericImage.TagAfterRegistryPort | src/Container.Abstractions/Images/GenericImage.cs:48 | "localhost:5000/alpine" gives the tag "5000/alpine" |
| GenericImage.Image.constructor | src/Container.Abstractions/Images/GenericImage.cs:19-23 | an image with its name, no id and no calls |
| GenericImage.Image.Resolve | src/Container.Abstractions/Images/GenericImage.cs:29-63 | cancelled: null before any call; a listed match's id without a pull; otherwise the pull with the derived tag and the inspected id; each call's error is rethrown |
| DockerfileImage.FilterMap | src/Container.Abstractions/Images/DockerfileImage.cs:170-172 | `Where` then `Select` keeps at most the input's length |
| DockerfileImage.CleanIgnoresShape | src/Container.Abstractions/Images/DockerfileImage.cs:165-174 | `CleanIgnores` keeps a pattern iff some line trims to it and is not blank; every pattern is non-empty and trimmed; cleaning distributes over appending and is idempotent |
| DockerfileImage.Matches | src/Container.Abstractions/Images/DockerfileImage.cs:180-183 | the stripped patterns that match, in order: every one of them matches, and there are none exactly when no pattern matches |
| DockerfileImage.StripBang | src/Container.Abstractions/Images/DockerfileImage.cs:181 | a pattern starting with "!" loses exactly that one character; any other pattern is unchanged |
| DockerfileImage.MatchesComplete | src/Container.Abstractions/Images/DockerfileImage.cs:180-183 | every pattern whose stripped form matches is among the matches |
| DockerfileImage.LastMatchIndex | src/Container.Abstractions/Images/DockerfileImage.cs:180-189 | the index of the last pattern whose stripped form matches, -1 when none does; no later pattern matches |
| DockerfileImage.MatchesLast | src/Container.Abstractions/Images/DockerfileImage.cs:180-189 | there are matches exactly when some pattern matches, and the last match is the stripped last matching pattern |
| DockerfileImage.IsFileIgnored | src/Container.Abstractions/Images/DockerfileImage.cs:176-192 | a file that no pattern matches is not ignored |
| DockerfileImage.SingleBangNeverReincludes | src/Container.Abstractions/Images/DockerfileImage.cs:180-191 | without `!!` patterns a file is ignored iff some stripped pattern matches: a `!` never re-includes |
| DockerfileImage.LastMatchDecides | src/Container.Abstractions/Images/DockerfileImage.cs:190-191 | the last matching stripped pattern decides |
| DockerfileImage.GetRelativePath | src/Container.Abstractions/Images/DockerfileImage.cs:223-231 | outside the base the path itself; under it the rest after the base, with leading '/' removed |
| DockerfileImage.RelativePathRoundTrip | src/Container.Abstractions/Images/DockerfileImage.cs:228-230 | base + "/" + relative gives back the relative path |
| DockerfileImage.RelativePathTextualPrefix | src/Container.Abstractions/Images/DockerfileImage.cs:228-230 | the prefix test is textual: "/base" strips from "/basement/x" to "ment/x" |
| DockerfileImage.ContextFiles | src/Container.Abstractions/Images/DockerfileImage.cs:105-114 | each archived file is a listed, non-ignored file under its relative path |
| DockerfileImage.ContextFilesComplete | src/Container.Abstractions/Images/DockerfileImage.cs:105-114 | every listed file that is not ignored is archived |
| DockerfileImage.TransferEntries | src/Container.Abstractions/Images/DockerfileImage.cs:119-126 | one entry per transferable, under its key, in order |
| DockerfileImage.BuildContextMembership | src/Container.Abstractions/Images/DockerfileImage.cs:100-126 | in `BuildContext`, transferables are always included; a file is included iff not ignored; without a base path only the transferables |
| DockerfileImage.TempTarName | src/Container.Abstractions/Images/DockerfileImage.cs:93 | the image name with every '/' replaced by '_', plus ".tar" |
| DockerfileImage.DefaultNames | src/Container.Abstractions/Images/DockerfileImage.cs:63-68 | the default name is "testcontainers/" + the lower-cased suffix, its tar name "testcontainers_" + the lower-cased suffix + ".tar", and different suffixes give different names |
| DockerfileImage.Image.constructor | src/Container.Abstractions/Images/DockerfileImage.cs:27-68 | "Dockerfile", delete-on-exit, no base path, no transferables, the default name |
| DockerfileImage.Image.ArchiveBasePath | src/Container.Abstractions/Images/DockerfileImage.cs:105-114 | the file loop archives exactly `ContextFiles` |
| DockerfileImage.Image.ArchiveTransferables | src/Container.Abstractions/Images/DockerfileImage.cs:119-126 | the transferable loop archives exactly `TransferEntries` |
| DockerfileImage.Image.WriteContext | src/Container.Abstractions/Images/DockerfileImage.cs:100-126 | the archive is exactly `BuildContext` |
| DockerfileImage.Image.Build | src/Container.Abstractions/Images/DockerfileImage.cs:131-163 | after the archive is written: deleted when cancelled, otherwise built, deleted and inspected, stopping at the first error |
| DockerfileImage.Image.Resolve | src/Container.Abstractions/Images/DockerfileImage.cs:74-163 | null when cancelled at the start; with delete-on-exit the image joins the delete set and the exit hook is registered, otherwise both stay as they were; the archive written, deleted in every case, and built only when not cancelled; then the inspected id |
| DockerClientFactory.SortSortsAndPermutes | src/Container.Abstractions/DockerClient/DockerClientFactory.cs:20-27 | `SortByPriority` orders the providers by descending priority, as a permutation |
| DockerClientFactory.SortStable | src/Container.Abstractions/DockerClient/DockerClientFactory.cs:20-27 | providers of equal priority keep their listed order |
| DockerClientFactory.TiesKeepListedOrder | src/Container.Abstractions/DockerClient/DockerClientFactory.cs:20-27 | when all priorities tie the order is the listed one |
| DockerClientFactory.DeclaredTies | src/Container.Abstractions/DockerClient/DockerClientFactory.cs:20-27 | with default priorities the order is Environment, Npipe, Unix |
| DockerClientFactory.FirstWorking | src/Container.Abstractions/DockerClient/DockerClientFactory.cs:41-54 | the first applicable provider whose test passes, or none exactly when there is none |
| DockerClientFactory.Selection | src/Container.Abstractions/DockerClient/DockerClientFactory.cs:39-59 | the endpoint of the first applicable provider whose test passes; the "no supported providers" `InvalidOperationException` exactly when there is none |
| DockerClientFactory.Tested | src/Container.Abstractions/DockerClient/DockerClientFactory.cs:41-49 | only applicable providers are tested, in order |
| DockerClientFactory.SelectProvider | src/Container.Abstractions/DockerClient/DockerClientFactory.cs:39-59 | the selection loop returns the first working provider's configuration, or the "no supported providers" `InvalidOperationException`, testing only the applicable ones up to it |
| DockerClientFactory.InapplicableNeverMatter | src/Container.Abstractions/DockerClient/DockerClientFactory.cs:41-44 | providers that are not applicable change neither the selection nor the tests |
| DockerClientFactory.Factory.constructor | src/Container.Abstractions/DockerClient/DockerClientFactory.cs:20-27 | the providers are kept sorted and nothing is selected yet |
| DockerClientFactory.Factory.Create | src/Container.Abstractions/DockerClient/DockerClientFactory.cs:31-37 | the selection runs once and every later call returns the cached result, failure included |
| DockerClientFactory.BuildDockerConfigBasedOnOs | src/Container.Abstractions/DockerClient/DockerClientFactory.cs:102-116 | Windows gives the npipe endpoint, OSX and Linux the unix socket, any other OS the "OS is not supported" `InvalidOperationException` |
| DockerClientFactory.NpipeAgreesWithOs | src/Container.Abstractions/DockerClient/DockerClientFactory.cs:104-106 | the npipe provider's endpoint is the one the OS factory picks on Windows |

## Left out

- GenericImage.Tag: taken as the text after the last `:`; that this is the last piece `Split(':')` returns is not proved.
- Docker Engine API calls, HTTP, npipe and unix transport: every call is recorded in a `calls` sequence, and its reply is an input. The image deletes of the exit hook are the exception: they are recorded as requests only (`CleanupRequests`).
- TCP sockets: Ryuk's replies are a sequence of lines, its writes a log of payloads, and each wait connect a boolean oracle per attempt and port. UTF-8 encoding, `KillTcpConnection`, `Dispose` and `IsConnected` are not modelled.
- Wall-clock time and Polly: an attempt budget replaces the timeout. The probing interval must be positive, since an interval of zero has no budget.
- Cancellation tokens: a cancellation flag, read only at the checks the source makes.
- Concurrency: `SemaphoreSlim`, `lock`, `volatile`, `TaskCompletionSource` and `ContinueWith` become sequential calls. Ryuk's start outcome does not matter, because the continuation runs after a faulted start too.
- `BatchWorker`: its base class is not part of this model, so `Notify` is a counter, and `SendToRyuk` is modelled by the two halves `BeginSend` and `AwaitAck`.
- The process-exit and cancel-key handlers: registering them is a flag, and running them is `CleanupRequests`.
- `AddToDeathNote(IFilter)`, `LabelsFilter` and the three-argument Ryuk constructor are not in this revision's RyukContainer.cs: the Abstractions reaper records its filters as values.
- The static constructor of the instance reaper, which registers the exit hooks: not modelled.
- The `DockerContainerNotFoundException` catch in `RemoveContainers` only covers an exception thrown before the remove task is returned. The model takes every remove reply, failures included, from the `remove` input, so a missing container fails the reap like any other error.
- `Guid.NewGuid`, `Random.NextAlphaNumeric` and `Assembly.GetEntryAssembly`: parameters.
- `GoLangFileMatch.Match`: a predicate parameter.
- `Path.GetFullPath`: the identity. `Path.Combine` with the temp directory: the tar name alone. File reading, directory walking, tar writing and `File.Delete`: the ignore file's lines and the file listing are inputs, and the archive is a list of entries.
- `GetIgnoredFilesInBasePath`: never called by the source.
- Transfer failures of `TransferTo`, and build output streaming.
- Connection-string builders: a connection string is the list of settings put into the builder, in order.
- MySQL's reflection-based provider loading (`TypeLoadException`): no provider is modelled.
- The ADO.NET SQL probe and the ArangoDB probe, beyond their exception whitelists: their results are probe outcomes.
- `ExecuteCommand`, `PrintContainerLogs` and the empty `ContainerStopped` hook.
- Case conversion, `char.IsDigit` and `char.IsLetterOrDigit` are ASCII-only; culture-sensitive `StartsWith` is an ordinal prefix test.
- `Dictionary` enumeration after a `Remove` is modelled as insertion order, although the real class reuses freed slots.
- A `null` value inserted into `Env` is rendered as "".
- Image resolution inside `StartAsync` is the image's outcome as an input, not one of the two image classes.
- The Environment and Unix Docker-client providers and `TryTest`: their applicability, endpoints and test results are inputs.
- The OS-only factories in src/Container.Abstractions/DockerClientFactory.cs and src/Containers/DockerClientFactory.cs: they repeat `BuildDockerConfigBasedOnOs`.
- Hosting, dependency injection and logging.
- DockerfileImage.GetIgnores: no contract of its own; what it keeps is stated by `CleanIgnoresShape`.
- Specification functions without a contract of their own, each stated by the lemmas named: `Probing.ShouldRetry` (`WhitelistCoversSubclasses`, `ShouldRetryMonotone`, `EmptyAggregateNotRetried`, `NestedAggregateNotUnwrapped`, the `ProbeRetries` lemmas), `Ryuk.Payload` (`PayloadShape`, `PayloadSplits`), `AbstractionsReaper.ReaperDisabled` (`ReaperDisabledIff`), `DockerClientFactory.SortByPriority` (`SortSortsAndPermutes`, `SortStable`), `MySql.Env` and `PostgreSql.Env` (`EnvEntries`, `EnvUserVariables`), `DockerfileImage.CleanIgnores` (`CleanIgnoresShape`) and `DockerfileImage.BuildContext` (`BuildContextMembership`).
- Lifecycle.StartAsync: the Docker calls of a successful start are stated in parts, by `Resolve` (image and network) and by `Boot` (create with the configuration at the create step, then start and inspect), not as one list over the whole pipeline, because equating the container configuration across every later step of the pipeline is beyond the proof budget of a single method.
