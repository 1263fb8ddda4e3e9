/**
 * The shape every wait in the core shares: Polly's
 * `Policy.TimeoutAsync(timeout).WrapAsync(retry-forever at a fixed interval)
 * .ExecuteAndCaptureAsync(action)`. Wall-clock time is replaced by an attempt
 * budget: attempt `i` starts at `i * interval`, so the attempts that start
 * before the timeout are those below `Budget(timeout, interval)`.
 */
module Retry {
  import opened Outcomes
  import opened Exceptions

  /** How the policy treats one attempt: the action completed, its result or
    * exception is one the retry policy handles, or it escaped the retry policy. */
  datatype Step = Succeeded | Retryable | Fatal(error: Exn)

  /** `PolicyResult`: `OutcomeType.Successful` or `OutcomeType.Failure` with its
    * `FinalException`, and the number of attempts made. */
  datatype Captured = Completed(attempts: nat) | Faulted(final: Exn, attempts: nat)

  const TimeoutMessage: string :=
    "The delegate executed asynchronously through TimeoutPolicy did not complete within the timeout."

  /** The exception the timeout policy raises when the time is up. */
  const TimedOut: Exn := Make(TimeoutRejected, TimeoutMessage)

  /** The number of attempts that start before the timeout: the ceiling of
    * `timeoutMs / intervalMs`. */
  function Budget(timeoutMs: nat, intervalMs: nat): (n: nat)
    requires intervalMs > 0
    ensures n * intervalMs >= timeoutMs
    ensures n > 0 ==> (n - 1) * intervalMs < timeoutMs
  {
    var q := (timeoutMs + intervalMs - 1) / intervalMs;
    var r := (timeoutMs + intervalMs - 1) % intervalMs;
    assert timeoutMs + intervalMs - 1 == q * intervalMs + r;
    assert (q - 1) * intervalMs == q * intervalMs - intervalMs;
    q
  }

  /** The policy run from attempt `i` on. */
  function RunFrom(steps: nat -> Step, i: nat, budget: nat): Captured
    decreases budget - i
  {
    if i >= budget then Faulted(TimedOut, i)
    else
      match steps(i)
      case Succeeded => Completed(i + 1)
      case Fatal(e) => Faulted(e, i + 1)
      case Retryable => RunFrom(steps, i + 1, budget)
  }

  /** What `ExecuteAndCaptureAsync` reports for the attempts `steps` within `budget`. */
  function Run(steps: nat -> Step, budget: nat): Captured {
    RunFrom(steps, 0, budget)
  }

  /** Attempt `k` is the first one that is not retried. */
  predicate FirstDecisive(steps: nat -> Step, k: nat, budget: nat) {
    k < budget && !steps(k).Retryable? && forall j: nat :: j < k ==> steps(j).Retryable?
  }

  /** What the policy reports when attempt `k` decides. */
  function Decided(s: Step, k: nat): Captured
    requires !s.Retryable?
  {
    if s.Succeeded? then Completed(k + 1) else Faulted(s.error, k + 1)
  }

  lemma {:induction false} RunFromDecided(steps: nat -> Step, i: nat, k: nat, budget: nat)
    requires i <= k < budget && !steps(k).Retryable?
    requires forall j: nat :: i <= j < k ==> steps(j).Retryable?
    ensures RunFrom(steps, i, budget) == Decided(steps(k), k)
    decreases k - i
  {
    if i < k {
      RunFromDecided(steps, i + 1, k, budget);
    }
  }

  lemma {:induction false} RunFromTimesOut(steps: nat -> Step, i: nat, budget: nat)
    requires forall j: nat :: i <= j < budget ==> steps(j).Retryable?
    ensures RunFrom(steps, i, budget) == Faulted(TimedOut, if i < budget then budget else i)
    decreases budget - i
  {
    if i < budget {
      RunFromTimesOut(steps, i + 1, budget);
    }
  }

  /** The first attempt that is not retried decides the outcome, within the budget. */
  lemma RunDecided(steps: nat -> Step, k: nat, budget: nat)
    requires FirstDecisive(steps, k, budget)
    ensures Run(steps, budget) == Decided(steps(k), k)
  {
    RunFromDecided(steps, 0, k, budget);
  }

  /** When every attempt within the budget is retried, the run fails with the
    * timeout policy's exception after exactly `budget` attempts. */
  lemma RunTimesOut(steps: nat -> Step, budget: nat)
    requires forall j: nat :: j < budget ==> steps(j).Retryable?
    ensures Run(steps, budget) == Faulted(TimedOut, budget)
  {
    RunFromTimesOut(steps, 0, budget);
  }

  /** There is nothing else: a run either has a first decisive attempt, or every
    * attempt in the budget was retried. */
  lemma {:induction false} RunCases(steps: nat -> Step, budget: nat)
    ensures (exists k: nat :: FirstDecisive(steps, k, budget)) ||
            (forall j: nat :: j < budget ==> steps(j).Retryable?)
  {
    var i: nat := 0;
    while i < budget && steps(i).Retryable?
      invariant i <= budget
      invariant forall j: nat :: j < i ==> steps(j).Retryable?
      decreases budget - i
    {
      i := i + 1;
    }
    if i < budget {
      assert FirstDecisive(steps, i, budget);
    }
  }

  /** What a strategy does with the captured result: return normally on
    * success, otherwise throw `ContainerLaunchException(message, FinalException)`. */
  function LaunchOutcome(c: Captured, message: string): (o: Outcome<Exn>)
    ensures o.Pass? <==> c.Completed?
    ensures o.Fail? ==> o.error.typ == ContainerLaunch && o.error.message == message && o.error.inner == [c.final]
  {
    if c.Completed? then Pass else Fail(Wrap(ContainerLaunch, message, c.final))
  }

  /** The policy loop: run attempts until one decides or the budget is spent. */
  method Execute(steps: nat -> Step, budget: nat) returns (c: Captured)
    ensures c == Run(steps, budget)
  {
    var i: nat := 0;
    while i < budget
      invariant i <= budget
      invariant RunFrom(steps, i, budget) == Run(steps, budget)
      decreases budget - i
    {
      var s := steps(i);
      if !s.Retryable? {
        return Decided(s, i);
      }
      i := i + 1;
    }
    return Faulted(TimedOut, i);
  }
}
