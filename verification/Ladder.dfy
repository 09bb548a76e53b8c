/** The retry ladder of the failure handler: what repeated failures do to one dispatch row. `process` gives every
    delivery a fresh row, so the running pipeline only ever takes the first step (Theorems). */
module Ladder {
  import opened Domain
  import opened Worker

  datatype Failure = Failure(at: Time, errorCode: string, errorMessage: string)

  /** The row after these failures, one after the other. */
  function AfterFailures(d: Dispatch, failures: seq<Failure>): Dispatch {
    if failures == [] then d
    else
      var last := failures[|failures| - 1];
      OnFailure(AfterFailures(d, failures[..|failures| - 1]), last.at, last.errorCode, last.errorMessage)
  }

  /** The attempts a row still has: `maxRetryCount` minus `retryCount`, never negative. */
  function Left(d: Dispatch): nat {
    if d.retryCount < d.maxRetryCount then d.maxRetryCount - d.retryCount else 0
  }

  /** The seconds of k waits that start at the given rung. */
  function TotalWait(rung: nat, k: nat): nat {
    if k == 0 then 0 else TotalWait(rung, k - 1) + BackoffSeconds(rung + k - 1)
  }

  /** 0, 60, 360, 1260 and then 900 more for each rung. */
  function Climb(rung: nat): nat {
    if rung <= 1 then 60 * rung else if rung == 2 then 360 else 1260 + 900 * (rung - 3)
  }

  /** For any `maxRetryCount`, the row waits for a retry after each of its first max - retryCount failures, the
      k-th time for the k-th rung's wait, and is FAILED from the next failure on. Each failure uses up one attempt,
      and nothing else of the counts changes. */
  lemma {:induction false} WaitsThenFails(d: Dispatch, failures: seq<Failure>)
    requires failures != []
    ensures var k, last, d' := |failures|, failures[|failures| - 1], AfterFailures(d, failures);
      && d'.maxRetryCount == d.maxRetryCount && d'.id == d.id
      && Left(d') == (if k <= Left(d) then Left(d) - k else 0)
      && d'.retryCount == d.retryCount + (if k <= Left(d) then k else Left(d))
      && d'.status == (if k <= Left(d) then DispatchStatus.RetryWait else DispatchStatus.Failed)
      && (k <= Left(d) ==> d'.nextRetryAt == Some(last.at + BackoffSeconds(d.retryCount + k - 1) * 1000))
      && (k > Left(d) ==> d'.failedAt == Some(last.at))
      && d'.lastErrorCode == Some(last.errorCode) && d'.lastErrorMessage == Some(last.errorMessage)
    decreases |failures|
  {
    var before := failures[..|failures| - 1];
    if before == [] {
      assert AfterFailures(d, before) == d;
    } else {
      WaitsThenFails(d, before);
    }
  }

  /** The waits add up to a difference of rungs. */
  lemma {:induction false} TotalWaitIsClosed(rung: nat, k: nat)
    ensures TotalWait(rung, k) == Climb(rung + k) - Climb(rung)
  {
    if k > 0 { TotalWaitIsClosed(rung, k - 1); }
  }

  /** Each failure comes no earlier than the retry its predecessor scheduled. */
  predicate Patient(d: Dispatch, failures: seq<Failure>) {
    |failures| <= 1 ||
    (var before, last := failures[..|failures| - 1], failures[|failures| - 1];
     var due := AfterFailures(d, before).nextRetryAt;
     Patient(d, before) && (due.Some? ==> due.value <= last.at))
  }

  /** So a row that starts unfailed and uses all its attempts is given up no earlier than the closed form of its
      `maxRetryCount` after the first failure; with the default of 3, 1260 seconds. */
  lemma {:induction false} GivesUpNoEarlier(d: Dispatch, failures: seq<Failure>)
    requires d.retryCount == 0 && failures != [] && |failures| <= Left(d) + 1 && Patient(d, failures)
    ensures failures[0].at + Climb(|failures| - 1) * 1000 <= failures[|failures| - 1].at
    decreases |failures|
  {
    var n := |failures| - 1;
    if n > 0 {
      var before := failures[..n];
      GivesUpNoEarlier(d, before);
      WaitsThenFails(d, before);
      TotalWaitIsClosed(0, n);
      TotalWaitIsClosed(0, n - 1);
    }
  }
}
