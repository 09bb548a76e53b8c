/** The retry ladder and the dead-letter topic are not reached however often a request fails: here it fails n times. */
module Retries {
  import opened Domain
  import opened Crypto
  import opened Events
  import opened World
  import opened Pipeline
  import opened Invariants
  import opened Theorems
  import opened WorkerService
  import opened Recovery
  import opened Scenario
  import Scheduler
  import SchedulerService
  import Undisturbed

  /** There are n dispatches, all of request 0, each of which failed once, waited exactly a minute for its retry and
      was rescheduled. */
  ghost predicate FailedRows(w: World, n: nat) {
    && (forall d: Id :: d in w.dispatches <==> d < n)
    && (forall d | d in w.dispatches ::
          var row := w.dispatches[d];
          && row.messageRequestId == 0 && row.retryCount == 1 && row.status == DispatchStatus.Processing
          && d in w.failedAt && row.processingAt == Some(w.failedAt[d] + 60_000))
  }

  /** Request 0 has failed n times, and the event of its last retry is next in line. */
  ghost predicate FailedTimes(s: State, n: nat) {
    && FailedRows(s.w, n)
    && |s.w.topic| == n + 1 && (forall i | 0 <= i < |s.w.topic| :: s.w.topic[i].key == "r")
    && s.w.origin == map[0 := SENT]
    && ConsumerOf(s, Lane(Email, "r")) == Consumer(n, None)
    && (forall run | run in s.scheds :: run < n)
  }

  /** A worker all of whose calls take effect but the SUCCESS save. */
  function Failing(row: Id): nat -> Answer {
    n => if n == 4 then Undisturbed.FINE.(ok := false) else Undisturbed.FINE.(uuid := row)
  }

  /** The delivery of the event next in line, when its SUCCESS save throws. */
  lemma FailsAgain(c: Cipher, s: State, n: nat) returns (run: seq<Action>)
    requires Faithful(c) && Reachable(c, s) && FailedTimes(s, n)
    ensures var s' := Exec(c, s, run);
      && s' == s.(w := s'.w, lanes := s.lanes[Lane(Email, "r") := Consumer(n + 1, None)])
      && n in s'.w.dispatches
      && s'.w == s.w.(dispatches := s.w.dispatches[n := s'.w.dispatches[n]], failedAt := s.w.failedAt[n := s.w.now], logs := s'.w.logs)
      && var d := s'.w.dispatches[n];
      && d.id == n && d.messageRequestId == 0 && d.recipientId == 0 && d.retryCount == 1
      && d.status == DispatchStatus.RetryWait && d.nextRetryAt == Some(s.w.now + 60_000)
  {
    hide Exec, Faithful, Reachable, Consistent, TablesOk, JobsOk, ProcessRun, Opened, HasSuccess, Undisturbed.FailedOnce, LogsOf;
    ReachableConsistent(c, s);
    var e := MessageOpens(c, s.w, n, 0);
    var env := Failing(n);
    run := HandledIsARun(c, s, Lane(Email, "r"), env);
    NoneSucceeded(s, n, e);
    Undisturbed.FailedDelivery(Email, s.w, e, env);
  }

  lemma NoneSucceeded(s: State, n: nat, e: Event)
    requires FailedTimes(s, n)
    ensures !HasSuccess(s.w, e.messageRequestId, e.recipientId, Email)
  {
  }

  /** One more failure, one more minute, one more retry. */
  lemma OneMoreFailure(c: Cipher, s: State, n: nat) returns (run: seq<Action>)
    requires Faithful(c) && Reachable(c, s) && FailedTimes(s, n)
    ensures FailedTimes(Exec(c, s, run), n + 1)
  {
    hide Exec, Faithful, Reachable, Consistent, TablesOk, JobsOk, FailedTimes, SchedulerService.SchedRun, FindPayload, RetryEvent, Wire,
         Scheduler.IsRetryBatch;
    var fails := FailsAgain(c, s, n);
    var s1 := Exec(c, s, fails);
    ReachesOn(c, s, fails);
    OneStep(c, s1, Tick(60_000));
    var s2 := Exec(c, s1, [Tick(60_000)]);
    ReachesOn(c, s1, [Tick(60_000)]);
    ReachableConsistent(c, s2);
    RowsOfJob(c, s2.w, n);
    var d := s2.w.dispatches[n];
    OnlyItIsDue(s, s2, n);
    var env: nat -> Answer := _ => Undisturbed.FINE;
    var retries := SchedulerService.SchedRunIsARun(c, s2, n, [d], env);
    Undisturbed.Retry(s2.w, d, env, 1);
    var e := RetryEvent(s2.w.requests[0], FindPayload(s2.w, 0).value, s2.w.recipients[d.recipientId]);
    RetryKey(s2.w.requests[0], FindPayload(s2.w, 0).value, s2.w.recipients[d.recipientId]);
    ExecConcat(c, s1, [Tick(60_000)], retries);
    ExecConcat(c, s, fails, [Tick(60_000)] + retries);
    run := fails + ([Tick(60_000)] + retries);
    FailedOrigin(s, n);
    OneMore(s, s2, Exec(c, s, run), n, d, Message(e.requestId, Wire(e)));
  }

  lemma OnlyItIsDue(s: State, s2: State, n: nat)
    requires FailedTimes(s, n) && n in s2.w.dispatches && s2.w.dispatches == s.w.dispatches[n := s2.w.dispatches[n]]
    requires var d := s2.w.dispatches[n]; d.id == n && Scheduler.Due(d, s2.w.now)
    requires s2.scheds == s.scheds
    ensures n !in s2.scheds && Scheduler.IsRetryBatch(s2.w, [s2.w.dispatches[n]])
  {
    forall id | id in s2.w.dispatches && Scheduler.Due(s2.w.dispatches[id], s2.w.now) ensures s2.w.dispatches[id] in [s2.w.dispatches[n]] {
      assert id == n;
    }
  }

  lemma FailedOrigin(s: State, n: nat)
    requires FailedTimes(s, n)
    ensures 0 in s.w.origin && s.w.origin[0].dto.requestId == "r"
  {
  }

  lemma OneMore(s: State, s2: State, s3: State, n: nat, d: Dispatch, m: Message)
    requires FailedTimes(s, n) && m.key == "r"
    requires s2.w.dispatches == s.w.dispatches[n := d] && s2.w.failedAt == s.w.failedAt[n := s.w.now] && s2.w.now == s.w.now + 60_000
    requires s2.w.topic == s.w.topic && s2.w.origin == s.w.origin && s2.scheds == s.scheds
    requires s2.lanes == s.lanes[Lane(Email, "r") := Consumer(n + 1, None)]
    requires d.id == n && d.messageRequestId == 0 && d.retryCount == 1
    requires s3.w == s2.w.(topic := s2.w.topic + Copies(m, Undisturbed.FINE),
                           dispatches := s2.w.dispatches[n := Scheduler.Reschedule(d, s2.w.now)])
    requires s3 == s2.(w := s3.w, scheds := s2.scheds[n := Scheduler.Done])
    ensures FailedTimes(s3, n + 1)
  {
    hide FailedRows;
    OneMoreRow(s.w, s3.w, n, Scheduler.Reschedule(d, s2.w.now));
  }

  lemma OneMoreRow(w: World, w': World, n: nat, d: Dispatch)
    requires FailedRows(w, n) && w'.dispatches == w.dispatches[n := d] && w'.failedAt == w.failedAt[n := w.now]
    requires d.messageRequestId == 0 && d.retryCount == 1
    requires d.status == DispatchStatus.Processing && d.processingAt == Some(w.now + 60_000)
    ensures FailedRows(w', n + 1)
  {
  }

  /** For every n there is a run after which one request has failed n times and been retried n times: it has n
      dispatches, each with retryCount 1 and each having waited exactly one minute, none of them FAILED, and nothing
      is on the dead-letter topic. The documented waits of 5 and 15 minutes and the dead letter never come. */
  lemma {:induction false} RetriesNeverEnd(c: Cipher, n: nat) returns (run: seq<Action>)
    requires Faithful(c)
    ensures var s := Exec(c, INITIAL, run); FailedTimes(s, n) && s.w.dlq == []
    decreases n
  {
    hide Exec, Faithful, Reachable, FailedTimes, Consistent, TablesOk, JobsOk;
    if n == 0 {
      run := WholeFirstSend(c);
      NotFailedYet(c, Exec(c, INITIAL, run));
    } else {
      run := RetriesNeverEnd(c, n - 1);
      RunReachable(c, run);
      var more := OneMoreFailure(c, Exec(c, INITIAL, run), n - 1);
      ExecConcat(c, INITIAL, run, more);
      run := run + more;
    }
    RunReachable(c, run);
    LadderStaysOnFirstRung(c, Exec(c, INITIAL, run));
  }

  lemma NotFailedYet(c: Cipher, s: State)
    requires s.w.origin == map[0 := SENT] && s.w.dispatches == map[] && s.lanes == map[] && s.scheds == map[]
    requires |s.w.topic| == 1 && s.w.topic[0].key == "r"
    ensures FailedTimes(s, 0)
  {
  }
}
