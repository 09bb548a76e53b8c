/** `RetrySchedulerService` as a program over the repositories, against the steps of the pipeline's scheduler. */
module SchedulerService {
  import opened Domain
  import opened Crypto
  import opened Events
  import opened World
  import opened Scheduler
  import opened Store
  import opened Pipeline

  /** The scheduler's steps without anybody in between, from one point to the end of the run. */
  ghost function SchedRun(w: World, pc: SchedPc, env: nat -> Answer, n: nat): World
    requires !pc.Fetch?
    decreases Rank(pc)
  {
    if pc.Done? then w
    else
      var (w', pc') := SchedStep(w, pc, env(n));
      SchedRun(w', pc', env, n + 1)
  }

  lemma RunOn(w: World, pc: SchedPc, env: nat -> Answer, n: nat)
    requires !pc.Fetch? && !pc.Done?
    ensures var (w', pc') := SchedStep(w, pc, env(n)); SchedRun(w, pc, env, n) == SchedRun(w', pc', env, n + 1)
  {
    hide SchedStep;
  }

  lemma EmptyRun(w: World, env: nat -> Answer, n: nat)
    ensures SchedRun(w, Next([]), env, n) == w
  {
    RunOn(w, Next([]), env, n);
  }

  /** A run of the scheduler under way, stepped to its end. */
  lemma {:induction false} DriveScheduler(c: Cipher, s: State, prefix: seq<Action>, id: nat, env: nat -> Answer, n: nat)
    returns (run: seq<Action>)
    requires var s1 := Exec(c, s, prefix); id in s1.scheds && !s1.scheds[id].Fetch?
    ensures var s1 := Exec(c, s, prefix);
      Exec(c, s, run) == s1.(w := SchedRun(s1.w, s1.scheds[id], env, n), scheds := s1.scheds[id := Done])
    decreases Rank(Exec(c, s, prefix).scheds[id])
  {
    hide Exec, SchedStep;
    var s1 := Exec(c, s, prefix);
    if s1.scheds[id].Done? {
      run := prefix;
      assert s1.scheds == s1.scheds[id := Done];
    } else {
      var step := StepSched(id, env(n));
      ExecMore(c, s, prefix, step);
      run := DriveScheduler(c, s, prefix + [step], id, env, n + 1);
      assert Exec(c, s, prefix + [step]).scheds[id := Done] == s1.scheds[id := Done];
    }
  }

  /** A whole run: its query throws, or it returns this batch. */
  ghost function SchedCall(w: World, batch: seq<Dispatch>, env: nat -> Answer): World {
    if env(0).ok then SchedRun(w, Next(batch), env, 1) else w
  }

  lemma NothingToRun(w: World, env: nat -> Answer, n: nat)
    ensures SchedRun(w, Done, env, n) == w
  {
  }

  /** Such a run is a run of the pipeline: so everything proved of the pipeline's runs holds of the program below. */
  lemma SchedRunIsARun(c: Cipher, s: State, id: nat, batch: seq<Dispatch>, env: nat -> Answer) returns (run: seq<Action>)
    requires id !in s.scheds && (env(0).ok ==> IsRetryBatch(s.w, batch))
    ensures Exec(c, s, run) == s.(w := SchedCall(s.w, batch, env), scheds := s.scheds[id := Done])
  {
    hide Exec, SchedRun, IsRetryBatch;
    var fetch := StepSched(id, env(0).(dispatchRows := batch));
    ExecNothing(c, s);
    ExecMore(c, s, [], StartSched(id));
    ExecMore(c, s, [] + [StartSched(id)], fetch);
    var s2 := Exec(c, s, [] + [StartSched(id)] + [fetch]);
    run := DriveScheduler(c, s, [] + [StartSched(id)] + [fetch], id, env, 1);
    NothingToRun(s.w, env, 1);
    assert s2.scheds[id := Done] == s.scheds[id := Done];
  }

  /** Whether the rows of a dispatch are there. */
  ghost predicate HasRows(w: World, d: Dispatch) {
    d.messageRequestId in w.requests && FindPayload(w, d.messageRequestId).Some? && d.recipientId in w.recipients
  }

  /** What one dispatch comes to, if its first call is the n-th. A read that throws leaves everything. With a row
      missing, the dispatch is FAILED as of now if that save takes effect. Otherwise its event is published and, if the
      publish returns and the save takes effect, it is PROCESSING as of now. */
  ghost function Retried(w: World, d: Dispatch, env: nat -> Answer, n: nat): World {
    if !(env(n).ok && env(n + 1).ok && env(n + 2).ok) then w
    else if !HasRows(w, d) then
      if env(n + 3).ok then w.(dispatches := w.dispatches[d.id := d.(status := DispatchStatus.Failed, failedAt := Some(w.now))]) else w
    else
      var e := RetryEvent(w.requests[d.messageRequestId], FindPayload(w, d.messageRequestId).value, w.recipients[d.recipientId]);
      var sent := w.(topic := w.topic + Copies(Message(e.requestId, Wire(e)), env(n + 3)));
      if env(n + 3).ok && env(n + 4).ok then
        sent.(dispatches := w.dispatches[d.id :=
          d.(status := DispatchStatus.Processing, processingAt := Some(w.now), nextRetryAt := None)])
      else sent
  }

  /** The awaited calls that takes. */
  ghost function CallsOf(w: World, d: Dispatch, env: nat -> Answer, n: nat): nat {
    if !env(n).ok then 1 else if !env(n + 1).ok then 2 else if !env(n + 2).ok then 3
    else if !HasRows(w, d) || !env(n + 3).ok then 4 else 5
  }

  /** One dispatch after the other. */
  ghost function AllRetried(w: World, batch: seq<Dispatch>, env: nat -> Answer, n: nat): World
    decreases |batch|
  {
    if batch == [] then w
    else AllRetried(Retried(w, batch[0], env, n), batch[1..], env, n + CallsOf(w, batch[0], env, n))
  }

  lemma OneRetried(w: World, batch: seq<Dispatch>, env: nat -> Answer, n: nat)
    requires batch != []
    ensures SchedRun(w, Next(batch), env, n)
         == SchedRun(Retried(w, batch[0], env, n), Next(batch[1..]), env, n + CallsOf(w, batch[0], env, n))
  {
    hide SchedRun, FindPayload, RetryEvent, Wire, Copies;
    var d, rest := batch[0], batch[1..];
    var request, payload := Lookup(w.requests, d.messageRequestId), FindPayload(w, d.messageRequestId);
    RunOn(w, Next(batch), env, n);
    RunOn(w, ReadPayload(d, request, rest), env, n + 1);
    RunOn(w, ReadRecipient(d, request, payload, rest), env, n + 2);
    if HasRows(w, d) {
      var e := RetryEvent(request.value, payload.value, w.recipients[d.recipientId]);
      RunOn(w, Publish(d, e, rest), env, n + 3);
      RunOn(PublishSend(w, e, env(n + 3)), Save(Reschedule(d, w.now), rest), env, n + 4);
    } else {
      RunOn(w, Save(MarkMissing(d, w.now), rest), env, n + 3);
    }
  }

  /** Whatever throws for one dispatch, a run goes on to the next and attempts its whole batch in order. */
  lemma {:induction false} RunAttemptsAll(w: World, batch: seq<Dispatch>, env: nat -> Answer, n: nat)
    ensures SchedRun(w, Next(batch), env, n) == AllRetried(w, batch, env, n)
    decreases |batch|
  {
    hide SchedRun, Retried, CallsOf;
    if batch == [] {
      EmptyRun(w, env, n);
    } else {
      OneRetried(w, batch, env, n);
      RunAttemptsAll(Retried(w, batch[0], env, n), batch[1..], env, n + CallsOf(w, batch[0], env, n));
    }
  }

  lemma OneRowStays(w: World)
    requires OneRowEach(w)
    ensures forall w': World {:trigger OneRowEach(w')} ::
      w'.requests == w.requests && w'.payloads == w.payloads && w'.recipients == w.recipients ==> OneRowEach(w')
  {
  }

  /** `retryPendingDispatches`: the n-th awaited call is answered by env(n). The tables and the topic end as the
      steps of the pipeline's scheduler would leave them for some possible result of the query, if it returns. */
  method RetryPendingDispatches(store: Repositories, env: nat -> Answer) returns (ghost batch: seq<Dispatch>)
    requires OneRowEach(store.W()) && forall id | id in store.dispatches :: store.dispatches[id].id == id
    modifies store
    ensures env(0).ok ==> IsRetryBatch(old(store.W()), batch)
    ensures store.W() == SchedCall(old(store.W()), batch, env)
  {
    hide SchedRun, IsRetryBatch, OneRowEach;
    batch := [];
    if !env(0).ok { return; }
    var dispatches := store.FindDue();
    batch := dispatches;
    ghost var goal := SchedRun(store.W(), Next(dispatches), env, 1);
    var n := 1;
    for i := 0 to |dispatches|
      invariant OneRowEach(store.W())
      invariant goal == SchedRun(store.W(), Next(dispatches[i..]), env, n)
    {
      assert dispatches[i..] == [dispatches[i]] + dispatches[i + 1..];
      n := RetryDispatch(store, dispatches[i], dispatches[i + 1..], env, n);
    }
    assert dispatches[|dispatches|..] == [];
    EmptyRun(store.W(), env, n);
  }

  /** `retryDispatch`: whatever throws is logged, and the next dispatch is taken. */
  method RetryDispatch(store: Repositories, row: Dispatch, ghost rest: seq<Dispatch>, env: nat -> Answer, n: nat)
    returns (next: nat)
    requires OneRowEach(store.W())
    modifies store
    ensures OneRowEach(store.W())
    ensures SchedRun(old(store.W()), Next([row] + rest), env, n) == SchedRun(store.W(), Next(rest), env, next)
    ensures store.W() == Retried(old(store.W()), row, env, n)
  {
    hide SchedRun, RetryEvent, Wire, StoredRequest, FindPayload, OneRowEach, Copies;
    var dispatch := row;
    ghost var w := store.W();
    OneRowStays(w);
    ghost var queue := [row] + rest;
    assert queue[0] == row && queue[1..] == rest;
    RunOn(store.W(), Next(queue), env, n);
    if !env(n).ok { return n + 1; }
    var request := Lookup(store.requests, dispatch.messageRequestId);
    RunOn(store.W(), ReadPayload(dispatch, request, rest), env, n + 1);
    if !env(n + 1).ok { return n + 2; }
    var payload := store.FindPayloadOf(dispatch.messageRequestId);
    RunOn(store.W(), ReadRecipient(dispatch, request, payload, rest), env, n + 2);
    if !env(n + 2).ok { return n + 3; }
    var recipient := Lookup(store.recipients, dispatch.recipientId);

    if request.None? || payload.None? || recipient.None? {
      dispatch := dispatch.(status := DispatchStatus.Failed, failedAt := Some(store.now));
      RunOn(store.W(), Save(dispatch, rest), env, n + 3);
      var _ := store.SaveDispatchRow(dispatch, env(n + 3));
      return n + 4;
    }
    var event := RetryEvent(request.value, payload.value, recipient.value);
    RunOn(store.W(), Publish(dispatch, event, rest), env, n + 3);
    var published := store.PublishMessage(event.requestId, event, env(n + 3));
    if !published { return n + 4; }
    dispatch := dispatch.(status := DispatchStatus.Processing, processingAt := Some(store.now), nextRetryAt := None);
    RunOn(store.W(), Save(dispatch, rest), env, n + 4);
    var _ := store.SaveDispatchRow(dispatch, env(n + 4));
    return n + 5;
  }
}
