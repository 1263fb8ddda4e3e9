/**
 * `IsRunningStartupCheckStrategy`: inspect the container once a second, for
 * at most a minute, until its state says it is running. A container that has
 * already finished is a fatal error, which, like the timeout, surfaces as a
 * `ContainerLaunchException`.
 */
module StartupCheck {
  import opened Outcomes
  import opened Text
  import opened Exceptions
  import opened Retry

  /** The parts of Docker's `ContainerState` the check reads. */
  datatype ContainerState = ContainerState(running: bool, finishedAt: Option<string>, exitCode: int)

  const FailedMessage: string := "Container.Abstractions startup failed"

  /** One inspect per second within one minute. */
  const Attempts: nat := Budget(60000, 1000)

  function ExitedEarly(exitCode: int): Exn {
    Make(InvalidOperation, "Container.Abstractions has exited with code: " + IntToString(exitCode))
  }

  /** `IsContainerRunning`: running wins even if `FinishedAt` is set; a finished
    * container throws; otherwise it is still starting. */
  function IsContainerRunning(s: ContainerState): (r: Result<bool, Exn>)
    ensures r == Ok(true) <==> s.running
    ensures r.Err? <==> !s.running && !IsNullOrEmpty(s.finishedAt)
    ensures r.Err? ==> r.error == ExitedEarly(s.exitCode) && r.error.typ == InvalidOperation
  {
    if s.running then Ok(true)
    else if !IsNullOrEmpty(s.finishedAt) then Err(ExitedEarly(s.exitCode))
    else Ok(false)
  }

  /** How the retry policy treats one inspect: a state that is not running is
    * retried, an exception from the inspect or from the result predicate escapes. */
  function Classify(obs: Result<ContainerState, Exn>): Step {
    match obs
    case Err(e) => Fatal(e)
    case Ok(s) =>
      match IsContainerRunning(s)
      case Ok(true) => Succeeded
      case Ok(false) => Retryable
      case Err(e) => Fatal(e)
  }

  /** The container is still starting: inspected, not running, not finished. */
  predicate StillStarting(obs: Result<ContainerState, Exn>) {
    obs.Ok? && !obs.value.running && IsNullOrEmpty(obs.value.finishedAt)
  }

  function Steps(inspect: nat -> Result<ContainerState, Exn>): nat -> Step {
    (i: nat) => Classify(inspect(i))
  }

  /** The strategy's result for the inspect results `inspect(0), inspect(1), ...`. */
  function Verdict(inspect: nat -> Result<ContainerState, Exn>): Outcome<Exn> {
    LaunchOutcome(Run(Steps(inspect), Attempts), FailedMessage)
  }

  /** `WaitUntilSuccess`, with `inspect(i)` the state the `i`-th inspect returns. */
  method WaitUntilSuccess(inspect: nat -> Result<ContainerState, Exn>) returns (o: Outcome<Exn>)
    ensures o == Verdict(inspect)
  {
    var captured := Execute(Steps(inspect), Attempts);
    o := LaunchOutcome(captured, FailedMessage);
  }

  /** An attempt is retried exactly when the container is still starting. */
  lemma RetriedIffStillStarting(obs: Result<ContainerState, Exn>)
    ensures Classify(obs).Retryable? <==> StillStarting(obs)
    ensures Classify(obs).Succeeded? <==> obs.Ok? && obs.value.running
  {
  }

  /** A running state ends the wait successfully, even one with `FinishedAt` set,
    * once every earlier inspect said "still starting". */
  lemma SucceedsOnceRunning(inspect: nat -> Result<ContainerState, Exn>, k: nat)
    requires k < Attempts
    requires forall j: nat :: j < k ==> StillStarting(inspect(j))
    requires inspect(k).Ok? && inspect(k).value.running
    ensures Verdict(inspect) == Pass
  {
    forall j: nat | j < k ensures Steps(inspect)(j).Retryable? {
      RetriedIffStillStarting(inspect(j));
    }
    RunDecided(Steps(inspect), k, Attempts);
  }

  /** A container that has exited fails the wait at once with a
    * `ContainerLaunchException` whose inner exception is the exit-code
    * `InvalidOperationException`. */
  lemma ExitedContainerFails(inspect: nat -> Result<ContainerState, Exn>, k: nat)
    requires k < Attempts
    requires forall j: nat :: j < k ==> StillStarting(inspect(j))
    requires inspect(k).Ok? && !inspect(k).value.running && !IsNullOrEmpty(inspect(k).value.finishedAt)
    ensures Verdict(inspect) == Fail(Wrap(ContainerLaunch, FailedMessage, ExitedEarly(inspect(k).value.exitCode)))
    ensures Verdict(inspect).error.inner[0].typ == InvalidOperation
  {
    forall j: nat | j < k ensures Steps(inspect)(j).Retryable? {
      RetriedIffStillStarting(inspect(j));
    }
    RunDecided(Steps(inspect), k, Attempts);
  }

  /** A container that is still starting after a minute of inspects times out. */
  lemma NeverRunningTimesOut(inspect: nat -> Result<ContainerState, Exn>)
    requires forall j: nat :: j < Attempts ==> StillStarting(inspect(j))
    ensures Verdict(inspect) == Fail(Wrap(ContainerLaunch, FailedMessage, TimedOut))
  {
    forall j: nat | j < Attempts ensures Steps(inspect)(j).Retryable? {
      RetriedIffStillStarting(inspect(j));
    }
    RunTimesOut(Steps(inspect), Attempts);
  }

  /** The wait succeeds exactly when, within the minute, an inspect reports the
    * container running and every inspect before it said "still starting". */
  lemma SucceedsIff(inspect: nat -> Result<ContainerState, Exn>)
    ensures Verdict(inspect) == Pass <==>
      exists k: nat :: k < Attempts && inspect(k).Ok? && inspect(k).value.running &&
        forall j: nat :: j < k ==> StillStarting(inspect(j))
  {
    var steps := Steps(inspect);
    forall k: nat | k < Attempts && inspect(k).Ok? && inspect(k).value.running &&
                    forall j: nat :: j < k ==> StillStarting(inspect(j))
      ensures Verdict(inspect) == Pass
    {
      SucceedsOnceRunning(inspect, k);
    }
    RunCases(steps, Attempts);
    if exists k: nat :: FirstDecisive(steps, k, Attempts) {
      var k: nat :| FirstDecisive(steps, k, Attempts);
      RunDecided(steps, k, Attempts);
      RetriedIffStillStarting(inspect(k));
      forall j: nat | j < k ensures StillStarting(inspect(j)) {
        assert steps(j).Retryable?;
        RetriedIffStillStarting(inspect(j));
      }
    } else {
      RunTimesOut(steps, Attempts);
    }
  }
}
