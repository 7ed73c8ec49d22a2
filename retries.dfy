/**
 * sendAsyncWithRetries: every message to the kernel is sent asynchronously;
 * a failed attempt below the maximum schedules the next one after an
 * exponentially growing delay, the last failure is logged as permanent.
 * Whether each attempt fails is an oracle.
 */
module Retries {
  const MaxAsyncRetries: nat := 3
  const RetryBackoffSeconds: nat := 1

  function Pow2(n: nat): nat {
    if n == 0 then 1 else 2 * Pow2(n - 1)
  }

  /** The delay before retrying after failed attempt `attempt`: backoff * (1 << (attempt - 1)). */
  function Delay(attempt: nat): nat
    requires attempt >= 1
  {
    RetryBackoffSeconds * Pow2(attempt - 1)
  }

  datatype Outcome =
    | Sent(attempt: nat)
    | RetryScheduled(attempt: nat, delaySeconds: nat)
    | PermanentFailure(attempt: nat)

  /** What happens to one request from attempt `attempt` on, given which attempts fail. */
  function SendAsyncWithRetries(fails: nat -> bool, attempt: nat): (log: seq<Outcome>)
    requires 1 <= attempt
    ensures |log| >= 1
    ensures log[|log| - 1].Sent? || log[|log| - 1].PermanentFailure?
    ensures log[|log| - 1].Sent? ==> !fails(log[|log| - 1].attempt)
    decreases MaxAsyncRetries - attempt
  {
    if !fails(attempt) then [Sent(attempt)]
    else if attempt < MaxAsyncRetries then
      [RetryScheduled(attempt, Delay(attempt))] + SendAsyncWithRetries(fails, attempt + 1)
    else [PermanentFailure(attempt)]
  }

  /**
   * Starting at attempt 1: the request is tried at most three times, each
   * retry is scheduled after 2^(attempt-1) seconds, and the run ends in
   * exactly one Sent or one PermanentFailure, the latter only when every
   * attempt failed.
   */
  lemma {:induction false} RetriesBounded(fails: nat -> bool, attempt: nat)
    requires 1 <= attempt <= MaxAsyncRetries
    ensures var log := SendAsyncWithRetries(fails, attempt);
            1 <= |log| <= MaxAsyncRetries - attempt + 1 &&
            (forall i :: 0 <= i < |log| - 1 ==> log[i] == RetryScheduled(attempt + i, Pow2(attempt + i - 1))) &&
            (log[|log| - 1].Sent? || log[|log| - 1].PermanentFailure?) &&
            log[|log| - 1].attempt == attempt + |log| - 1 &&
            (log[|log| - 1].PermanentFailure? <==>
               forall k :: attempt <= k <= MaxAsyncRetries ==> fails(k))
    decreases MaxAsyncRetries - attempt
  {
    var log := SendAsyncWithRetries(fails, attempt);
    if fails(attempt) && attempt < MaxAsyncRetries {
      RetriesBounded(fails, attempt + 1);
      var rest := SendAsyncWithRetries(fails, attempt + 1);
      assert log == [RetryScheduled(attempt, Delay(attempt))] + rest;
      forall i | 0 < i < |log| - 1
        ensures log[i] == RetryScheduled(attempt + i, Pow2(attempt + i - 1))
      {
        assert log[i] == rest[i - 1];
      }
    }
  }

  /** From the first attempt the two possible delays are one and two seconds. */
  lemma FirstSendDelays(fails: nat -> bool)
    requires fails(1) && fails(2)
    ensures SendAsyncWithRetries(fails, 1)[..2] == [RetryScheduled(1, 1), RetryScheduled(2, 2)]
  {
    var rest := SendAsyncWithRetries(fails, 2);
    assert rest == [RetryScheduled(2, 2)] + SendAsyncWithRetries(fails, 3);
  }
}
