/**
 * `AbstractProbingStrategy`: run the probe at a fixed interval until it
 * completes, retrying only the exceptions a subclass whitelists, and turn a
 * failure or the timeout into a `ContainerLaunchException` with the final
 * exception's message.
 */
module Probing {
  import opened Outcomes
  import opened Exceptions
  import opened Retry

  const DefaultTimeoutMs: nat := 60000
  const DefaultRetryIntervalMs: nat := 3000

  /** `ExceptionTypes.Any(t => t.IsInstanceOfType(e))`. */
  predicate AnyInstance(types: seq<ExnType>, e: Exn) {
    exists t :: t in types && IsInstanceOf(e, t)
  }

  /** The retry predicate: an `AggregateException` is retried when one of its
    * direct inner exceptions is whitelisted, any other exception when it is. */
  predicate ShouldRetry(types: seq<ExnType>, e: Exn) {
    if IsA(e.typ, Aggregate) then exists ie :: ie in e.inner && AnyInstance(types, ie)
    else AnyInstance(types, e)
  }

  /** Whitelisting a type retries its subclasses too. */
  lemma WhitelistCoversSubclasses(types: seq<ExnType>, e: Exn, t: ExnType, s: ExnType)
    requires s in types && IsA(t, s) && !IsA(t, Aggregate)
    requires e.typ == t
    ensures ShouldRetry(types, e)
  {
    assert IsInstanceOf(e, s);
  }

  /** A larger whitelist retries at least as much. */
  lemma ShouldRetryMonotone(types: seq<ExnType>, more: seq<ExnType>, e: Exn)
    requires forall t :: t in types ==> t in more
    requires ShouldRetry(types, e)
    ensures ShouldRetry(more, e)
  {
    if IsA(e.typ, Aggregate) {
      var ie :| ie in e.inner && AnyInstance(types, ie);
      var t :| t in types && IsInstanceOf(ie, t);
      assert t in more;
    } else {
      var t :| t in types && IsInstanceOf(e, t);
      assert t in more;
    }
  }

  /** The aggregate's own type is never checked: an aggregate with no inner
    * exceptions is not retried even when `Exception` itself is whitelisted. */
  lemma EmptyAggregateNotRetried(types: seq<ExnType>, message: string)
    ensures !ShouldRetry(types, Exn(Aggregate, message, []))
  {
    IsAOrder(Aggregate, Aggregate, Aggregate);
  }

  /** Only one level is unwrapped: an aggregate whose one inner exception is
    * itself an aggregate is retried only when an aggregate is whitelisted, not
    * when the exception nested inside is. */
  lemma NestedAggregateNotUnwrapped(types: seq<ExnType>, m1: string, m2: string, e: Exn)
    requires forall t :: t in types ==> !IsA(Aggregate, t)
    ensures !ShouldRetry(types, Exn(Aggregate, m1, [Exn(Aggregate, m2, [e])]))
  {
    IsAOrder(Aggregate, Aggregate, Aggregate);
  }

  /** How the retry policy treats one probe. */
  function Classify(types: seq<ExnType>, probe: Outcome<Exn>): Step {
    match probe
    case Pass => Succeeded
    case Fail(e) => if ShouldRetry(types, e) then Retryable else Fatal(e)
  }

  function Steps(types: seq<ExnType>, probes: nat -> Outcome<Exn>): nat -> Step {
    (i: nat) => Classify(types, probes(i))
  }

  /** The exception the strategy throws for a failed capture, and success otherwise. */
  function ProbeOutcome(c: Captured): (o: Outcome<Exn>)
    ensures o.Pass? <==> c.Completed?
    ensures o.Fail? ==> o.error == Wrap(ContainerLaunch, c.final.message, c.final)
  {
    if c.Completed? then Pass else LaunchOutcome(c, c.final.message)
  }

  function Verdict(types: seq<ExnType>, probes: nat -> Outcome<Exn>, timeoutMs: nat, intervalMs: nat): Outcome<Exn>
    requires intervalMs > 0
  {
    ProbeOutcome(Run(Steps(types, probes), Budget(timeoutMs, intervalMs)))
  }

  /** `WaitUntil`, with `probes(i)` what the `i`-th `Probe` call does. */
  method WaitUntil(types: seq<ExnType>, probes: nat -> Outcome<Exn>, timeoutMs: nat, intervalMs: nat)
    returns (o: Outcome<Exn>)
    requires intervalMs > 0
    ensures o == Verdict(types, probes, timeoutMs, intervalMs)
  {
    var captured := Execute(Steps(types, probes), Budget(timeoutMs, intervalMs));
    o := ProbeOutcome(captured);
  }

  /** With the defaults the probe runs at most 20 times. */
  lemma DefaultAttempts()
    ensures Budget(DefaultTimeoutMs, DefaultRetryIntervalMs) == 20
  {
    var n := Budget(DefaultTimeoutMs, DefaultRetryIntervalMs);
    assert n * 3000 >= 60000;
    assert n > 0;
    assert (n - 1) * 3000 < 60000;
  }

  /** Probe `k` completes after `k` retried failures: the wait succeeds, within the budget. */
  lemma FirstCompletedProbeSucceeds(types: seq<ExnType>, probes: nat -> Outcome<Exn>, timeoutMs: nat, intervalMs: nat, k: nat)
    requires intervalMs > 0 && k < Budget(timeoutMs, intervalMs)
    requires forall j: nat :: j < k ==> probes(j).Fail? && ShouldRetry(types, probes(j).error)
    requires probes(k).Pass?
    ensures Verdict(types, probes, timeoutMs, intervalMs) == Pass
  {
    var steps := Steps(types, probes);
    assert forall j: nat :: j < k ==> steps(j).Retryable?;
    RunDecided(steps, k, Budget(timeoutMs, intervalMs));
  }

  /** A failure that is not retried stops probing at once: the launch exception
    * carries that failure's message and has it as inner exception. */
  lemma UnretriedFailureStops(types: seq<ExnType>, probes: nat -> Outcome<Exn>, timeoutMs: nat, intervalMs: nat, k: nat)
    requires intervalMs > 0 && k < Budget(timeoutMs, intervalMs)
    requires forall j: nat :: j < k ==> probes(j).Fail? && ShouldRetry(types, probes(j).error)
    requires probes(k).Fail? && !ShouldRetry(types, probes(k).error)
    ensures Verdict(types, probes, timeoutMs, intervalMs) ==
      Fail(Wrap(ContainerLaunch, probes(k).error.message, probes(k).error))
  {
    var steps := Steps(types, probes);
    assert forall j: nat :: j < k ==> steps(j).Retryable?;
    RunDecided(steps, k, Budget(timeoutMs, intervalMs));
  }

  /** Retried failures until the time is up end in a launch exception wrapping
    * the timeout policy's exception. */
  lemma RetriedUntilTimeout(types: seq<ExnType>, probes: nat -> Outcome<Exn>, timeoutMs: nat, intervalMs: nat)
    requires intervalMs > 0
    requires forall j: nat :: j < Budget(timeoutMs, intervalMs) ==> probes(j).Fail? && ShouldRetry(types, probes(j).error)
    ensures Verdict(types, probes, timeoutMs, intervalMs) == Fail(Wrap(ContainerLaunch, TimeoutMessage, TimedOut))
  {
    var steps := Steps(types, probes);
    assert forall j: nat :: j < Budget(timeoutMs, intervalMs) ==> steps(j).Retryable?;
    RunTimesOut(steps, Budget(timeoutMs, intervalMs));
  }
}
