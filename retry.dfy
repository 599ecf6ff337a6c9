/** The bounded retry of `getRecording` and `fetchTranscriptWithRetry` (utils/zoom.js): an attempt
    that fails with status 404, 202 or no status at all is repeated after a fixed wait, up to five
    attempts in all; any other failure, and any success, ends the sequence. The self-recursive
    calls of the source are written here as a loop. */
module Retry {
  import opened Common

  const MAX_ATTEMPTS: nat := 5
  /** The wait before another recording attempt, in milliseconds. */
  const RECORDING_WAIT_MS: nat := 10000
  /** The wait before another transcript attempt, in milliseconds. */
  const TRANSCRIPT_WAIT_MS: nat := 15000

  /** `status === 404 || status === 202 || !status`; `!status` also holds for status 0. */
  predicate RetryableStatus(status: Option<int>) {
    status.None? || status.value == 0 || status.value == 404 || status.value == 202
  }

  predicate Retries<T>(o: Outcome<T>) {
    o.Err? && RetryableStatus(o.status)
  }

  /** The attempt at which the sequence stops when attempt `k` answers `outcome(k)`. */
  function StopFrom<T>(outcome: nat -> Outcome<T>, attempt: nat): (stop: nat)
    requires 1 <= attempt <= MAX_ATTEMPTS
    ensures attempt <= stop <= MAX_ATTEMPTS
    decreases MAX_ATTEMPTS - attempt
  {
    if Retries(outcome(attempt)) && attempt < MAX_ATTEMPTS then StopFrom(outcome, attempt + 1)
    else attempt
  }

  function StopAttempt<T>(outcome: nat -> Outcome<T>): nat {
    StopFrom(outcome, 1)
  }

  /** What the caller of the retried call observes: the answer of the last attempt made. */
  function Retried<T>(outcome: nat -> Outcome<T>): Outcome<T> {
    outcome(StopAttempt(outcome))
  }

  /** The stopping attempt is the first one that does not ask for a retry, or the fifth. */
  lemma {:induction false} StopFromIsFirstFinal<T>(outcome: nat -> Outcome<T>, attempt: nat)
    requires 1 <= attempt <= MAX_ATTEMPTS
    ensures forall k :: attempt <= k < StopFrom(outcome, attempt) ==> Retries(outcome(k))
    ensures StopFrom(outcome, attempt) < MAX_ATTEMPTS ==>
      !Retries(outcome(StopFrom(outcome, attempt)))
    decreases MAX_ATTEMPTS - attempt
  {
    if Retries(outcome(attempt)) && attempt < MAX_ATTEMPTS {
      StopFromIsFirstFinal(outcome, attempt + 1);
    }
  }

  /** A failure with any other status (401, 500, ...) stops at the first attempt. */
  lemma NonRetryableFailsFirst<T>(outcome: nat -> Outcome<T>)
    requires outcome(1).Err? && !RetryableStatus(outcome(1).status)
    ensures StopAttempt(outcome) == 1 && Retried(outcome) == outcome(1)
  {
  }

  /** A call that is never ready is attempted exactly five times and surfaces the fifth failure. */
  lemma {:induction false} NeverReadyExhausts<T>(outcome: nat -> Outcome<T>)
    requires forall k :: 1 <= k <= MAX_ATTEMPTS ==> Retries(outcome(k))
    ensures StopAttempt(outcome) == MAX_ATTEMPTS && Retried(outcome) == outcome(MAX_ATTEMPTS)
  {
    StopFromIsFirstFinal(outcome, 1);
  }

  /** Runs the attempts. `waits` records the delay slept before each repeated attempt. */
  method WithRetry<T>(outcome: nat -> Outcome<T>, waitMs: nat)
    returns (r: Outcome<T>, attempts: nat, waits: seq<nat>)
    ensures 1 <= attempts <= MAX_ATTEMPTS && attempts == StopAttempt(outcome)
    ensures r == outcome(attempts) && r == Retried(outcome)
    ensures forall k :: 1 <= k < attempts ==> Retries(outcome(k))
    ensures attempts < MAX_ATTEMPTS ==> !Retries(r)
    ensures |waits| == attempts - 1 && forall i :: 0 <= i < |waits| ==> waits[i] == waitMs
  {
    attempts := 1;
    waits := [];
    r := outcome(1);
    while Retries(r) && attempts < MAX_ATTEMPTS
      invariant 1 <= attempts <= MAX_ATTEMPTS
      invariant r == outcome(attempts)
      invariant StopFrom(outcome, attempts) == StopAttempt(outcome)
      invariant forall k :: 1 <= k < attempts ==> Retries(outcome(k))
      invariant |waits| == attempts - 1 && forall i :: 0 <= i < |waits| ==> waits[i] == waitMs
      decreases MAX_ATTEMPTS - attempts
    {
      waits := waits + [waitMs];
      attempts := attempts + 1;
      r := outcome(attempts);
    }
  }
}
