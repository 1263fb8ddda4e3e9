/**
 * `ExposedPortsWaitStrategy`: an attempt resolves the Docker host once, then
 * opens a TCP connection to the mapped port of every exposed port in list
 * order. Only a `SocketException` is retried, once a second, for a minute.
 * The same strategy exists in two variants that differ in the launch message.
 */
module ExposedPortsWait {
  import opened Outcomes
  import opened Exceptions
  import opened Retry
  import opened ContainerModel

  const FailedMessage: string := "Container.Abstractions startup failed"

  /** One connection attempt per second within one minute. */
  const Attempts: nat := Budget(60000, 1000)

  /** The ports from `ports` on, connected in order, stopping at the first failure. */
  function PortsFrom(host: string, mapped: int -> Result<int, Exn>, ports: seq<int>, connect: (string, int) -> bool): (o: Outcome<Exn>)
    ensures o.Pass? <==> forall p :: p in ports ==> mapped(p).Ok? && connect(host, mapped(p).value)
  {
    if |ports| == 0 then Pass
    else
      assert forall p :: p in ports <==> p == ports[0] || p in ports[1..];
      match mapped(ports[0])
      case Err(e) => Fail(e)
      case Ok(m) => if connect(host, m) then PortsFrom(host, mapped, ports[1..], connect) else Fail(ConnectionRefused)
  }

  /** One attempt: the host resolution's error, or the port walk. */
  function PortsCheck(host: Result<string, Exn>, mapped: int -> Result<int, Exn>, ports: seq<int>, connect: (string, int) -> bool): Outcome<Exn> {
    if host.Err? then Fail(host.error) else PortsFrom(host.value, mapped, ports, connect)
  }

  /** `AllPortsExposed` for one attempt. */
  method AllPortsExposed(host: Result<string, Exn>, mapped: int -> Result<int, Exn>, ports: seq<int>, connect: (string, int) -> bool)
    returns (o: Outcome<Exn>)
    ensures o == PortsCheck(host, mapped, ports, connect)
  {
    if host.Err? {
      return Fail(host.error);
    }
    var i := 0;
    while i < |ports|
      invariant 0 <= i <= |ports|
      invariant PortsFrom(host.value, mapped, ports[i..], connect) == PortsCheck(host, mapped, ports, connect)
    {
      assert ports[i..][1..] == ports[i + 1..];
      var port := mapped(ports[i]);
      if port.Err? {
        return Fail(port.error);
      }
      if !connect(host.value, port.value) {
        return Fail(ConnectionRefused);
      }
      i := i + 1;
    }
    return Pass;
  }

  /** The attempt stops at the first port that fails: what later ports would do
    * does not matter. */
  lemma StopsAtFirstFailure(host: string, mapped: int -> Result<int, Exn>, ports: seq<int>, c1: (string, int) -> bool, c2: (string, int) -> bool, k: nat)
    requires k < |ports|
    requires forall j :: 0 <= j <= k ==> mapped(ports[j]).Ok? ==> c1(host, mapped(ports[j]).value) == c2(host, mapped(ports[j]).value)
    requires forall j :: 0 <= j < k ==> mapped(ports[j]).Ok? && c1(host, mapped(ports[j]).value)
    requires mapped(ports[k]).Err? || !c1(host, mapped(ports[k]).value)
    ensures PortsFrom(host, mapped, ports, c1) == PortsFrom(host, mapped, ports, c2)
    ensures PortsFrom(host, mapped, ports, c1) == Fail(if mapped(ports[k]).Err? then mapped(ports[k]).error else ConnectionRefused)
    decreases k
  {
    if k > 0 {
      StopsAtFirstFailure(host, mapped, ports[1..], c1, c2, k - 1);
    }
  }

  /** How the retry policy treats one attempt: only a `SocketException` is retried. */
  function Classify(o: Outcome<Exn>): Step {
    match o
    case Pass => Succeeded
    case Fail(e) => if IsInstanceOf(e, Socket) then Retryable else Fatal(e)
  }

  function Steps(host: Result<string, Exn>, mapped: int -> Result<int, Exn>, ports: seq<int>, connects: nat -> (string, int) -> bool): nat -> Step {
    (i: nat) => Classify(PortsCheck(host, mapped, ports, connects(i)))
  }

  /** The wait's result, with `connects(i)` telling which connections attempt `i` can open. */
  function Verdict(message: string, host: Result<string, Exn>, mapped: int -> Result<int, Exn>, ports: seq<int>, connects: nat -> (string, int) -> bool): Outcome<Exn> {
    LaunchOutcome(Run(Steps(host, mapped, ports, connects), Attempts), message)
  }

  /** The retry loop both variants share, throwing with `message`. */
  method WaitForPorts(message: string, host: Result<string, Exn>, mapped: int -> Result<int, Exn>, ports: seq<int>, connects: nat -> (string, int) -> bool)
    returns (o: Outcome<Exn>)
    ensures o == Verdict(message, host, mapped, ports, connects)
  {
    ghost var steps := Steps(host, mapped, ports, connects);
    var i: nat := 0;
    while i < Attempts
      invariant i <= Attempts
      invariant RunFrom(steps, i, Attempts) == Run(steps, Attempts)
      decreases Attempts - i
    {
      var attempt := AllPortsExposed(host, mapped, ports, connects(i));
      var step := Classify(attempt);
      assert steps(i) == step;
      if step.Succeeded? {
        return Pass;
      }
      if step.Fatal? {
        return Fail(Wrap(ContainerLaunch, message, step.error));
      }
      i := i + 1;
    }
    return Fail(Wrap(ContainerLaunch, message, TimedOut));
  }

  /** `WaitUntil` of the `Container.Abstractions` variant: the host and the mapped
    * ports come from the container's endpoint and inspect response. */
  method WaitUntil(env: HostEnv, info: Option<InspectResponse>, ports: seq<int>, connects: nat -> (string, int) -> bool)
    returns (o: Outcome<Exn>)
    ensures o == Verdict(FailedMessage, GetDockerHostIpAddress(env, info), (p: int) => GetMappedPort(info, p), ports, connects)
  {
    o := WaitForPorts(FailedMessage, GetDockerHostIpAddress(env, info), (p: int) => GetMappedPort(info, p), ports, connects);
  }

  /** An empty port list passes on the first attempt once the host resolves. */
  lemma EmptyPortsSucceed(message: string, host: Result<string, Exn>, mapped: int -> Result<int, Exn>, connects: nat -> (string, int) -> bool)
    requires host.Ok?
    ensures Verdict(message, host, mapped, [], connects) == Pass
  {
    RunDecided(Steps(host, mapped, [], connects), 0, Attempts);
  }

  /** A port that is not mapped fails the wait on the first attempt, without retry. */
  lemma UnmappedPortFailsAtOnce(message: string, host: Result<string, Exn>, mapped: int -> Result<int, Exn>, ports: seq<int>, connects: nat -> (string, int) -> bool, k: nat)
    requires host.Ok? && k < |ports|
    requires forall j :: 0 <= j < k ==> mapped(ports[j]).Ok? && connects(0)(host.value, mapped(ports[j]).value)
    requires mapped(ports[k]) == Err(NotMapped(ports[k]))
    ensures Verdict(message, host, mapped, ports, connects) == Fail(Wrap(ContainerLaunch, message, NotMapped(ports[k])))
  {
    StopsAtFirstFailure(host.value, mapped, ports, connects(0), connects(0), k);
    RunDecided(Steps(host, mapped, ports, connects), 0, Attempts);
  }

  /** An attempt succeeds exactly when every port is mapped and its connection opens. */
  lemma AttemptSucceedsIff(host: Result<string, Exn>, mapped: int -> Result<int, Exn>, ports: seq<int>, connect: (string, int) -> bool)
    ensures Classify(PortsCheck(host, mapped, ports, connect)).Succeeded? <==>
      host.Ok? && forall p :: p in ports ==> mapped(p).Ok? && connect(host.value, mapped(p).value)
  {
  }

  /** Ports that never all connect within the minute end in a launch exception
    * wrapping the timeout. */
  lemma RefusedUntilTimeout(message: string, host: Result<string, Exn>, mapped: int -> Result<int, Exn>, ports: seq<int>, connects: nat -> (string, int) -> bool)
    requires forall i: nat :: i < Attempts ==> PortsCheck(host, mapped, ports, connects(i)) == Fail(ConnectionRefused)
    ensures Verdict(message, host, mapped, ports, connects) == Fail(Wrap(ContainerLaunch, message, TimedOut))
  {
    IsAOrder(Socket, Socket, Socket);
    RunTimesOut(Steps(host, mapped, ports, connects), Attempts);
  }
}

/**
 * The `Containers` variant of `ExposedPortsWaitStrategy`: the same attempt and
 * retry loop, with its own launch message. Its container's host and port
 * lookups are inputs here.
 */
module LegacyExposedPortsWait {
  import opened Outcomes
  import opened Exceptions
  import ExposedPortsWait

  const FailedMessage: string := "Container startup failed"

  method WaitUntil(host: Result<string, Exn>, mapped: int -> Result<int, Exn>, ports: seq<int>, connects: nat -> (string, int) -> bool)
    returns (o: Outcome<Exn>)
    ensures o == ExposedPortsWait.Verdict(FailedMessage, host, mapped, ports, connects)
  {
    o := ExposedPortsWait.WaitForPorts(FailedMessage, host, mapped, ports, connects);
  }
}
