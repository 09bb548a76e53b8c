/** `BaseWorkerService` as a program over the repositories, against the steps of the pipeline's deliveries. */
module WorkerService {
  import opened Domain
  import opened Crypto
  import opened Events
  import opened World
  import opened Worker
  import opened Pipeline
  import opened Store

  /** A delivery's steps without anybody in between, from one point on: the world it leaves and how it ended. */
  ghost function ProcessRun(channel: Channel, w: World, pc: WorkerPc, env: nat -> Answer, n: nat): (r: (World, WorkerPc))
    ensures Ended(r.1)
    decreases Rank(pc)
  {
    if Ended(pc) then (w, pc)
    else
      var (w', pc') := WorkerStep(channel, w, pc, env(n));
      ProcessRun(channel, w', pc', env, n + 1)
  }

  lemma RunOn(channel: Channel, w: World, pc: WorkerPc, env: nat -> Answer, n: nat)
    requires !Ended(pc)
    ensures var (w', pc') := WorkerStep(channel, w, pc, env(n));
      ProcessRun(channel, w, pc, env, n) == if Ended(pc') then (w', pc') else ProcessRun(channel, w', pc', env, n + 1)
  {
    hide WorkerStep;
    var (w', pc') := WorkerStep(channel, w, pc, env(n));
    if Ended(pc') { assert ProcessRun(channel, w', pc', env, n + 1) == (w', pc'); }
  }

  /** The world after `eachMessage` on one message: another channel's is skipped, and an error is logged and
      forgotten. */
  ghost function Handled(c: Cipher, channel: Channel, w: World, m: Message, env: nat -> Answer): World {
    if m.event.channel != ChannelName(channel) then w
    else
      match Opened(c, m.event)
      case None => w
      case Some(e) => ProcessRun(channel, w, ReadRequest(e), env, 0).0
  }

  /** A delivery under way, stepped to its end. */
  lemma {:induction false} DriveDelivery(c: Cipher, s: State, prefix: seq<Action>, lane: Lane, env: nat -> Answer, n: nat)
    returns (run: seq<Action>)
    requires lane.channel != Chat
    requires var s1 := Exec(c, s, prefix);
      lane in s1.lanes && var k := s1.lanes[lane];
      && k.offset < |s1.w.topic| && k.delivery.Some? && !Ended(k.delivery.value)
    ensures var s1 := Exec(c, s, prefix);
      var k := s1.lanes[lane];
      Exec(c, s, run) == s1.(
        w := ProcessRun(lane.channel, s1.w, k.delivery.value, env, n).0,
        lanes := s1.lanes[lane := Consumer(k.offset + 1, None)])
    ensures NoGateway(prefix) ==> NoGateway(run)
    decreases Rank(Exec(c, s, prefix).lanes[lane].delivery.value)
  {
    hide Exec, WorkerStep, ProcessRun, Deliver;
    var s1 := Exec(c, s, prefix);
    var k := s1.lanes[lane];
    var pc := k.delivery.value;
    var step := StepLane(lane, env(n));
    ExecMore(c, s, prefix, step);
    RunOn(lane.channel, s1.w, pc, env, n);
    WorkerFrame(lane.channel, s1.w, pc, env(n));
    run := prefix + [step];
    var s2 := Exec(c, s, run);
    if s2.lanes[lane].delivery.Some? {
      run := DriveDelivery(c, s, run, lane, env, n + 1);
      assert s2.lanes[lane := Consumer(k.offset + 1, None)] == s1.lanes[lane := Consumer(k.offset + 1, None)];
    }
  }

  /** What `eachMessage` does to the next message of its lane is a run of the pipeline: so everything proved of
      the pipeline's runs holds of the program below. */
  lemma HandledIsARun(c: Cipher, s: State, lane: Lane, env: nat -> Answer) returns (run: seq<Action>)
    requires lane.channel != Chat
    requires var k := ConsumerOf(s, lane);
      k.delivery.None? && k.offset < |s.w.topic| && s.w.topic[k.offset].key == lane.key
    ensures var k := ConsumerOf(s, lane);
      Exec(c, s, run) == s.(
        w := Handled(c, lane.channel, s.w, s.w.topic[k.offset], env), lanes := s.lanes[lane := Consumer(k.offset + 1, None)])
    ensures NoGateway(run)
  {
    hide Exec, ProcessRun, Opened;
    var k := ConsumerOf(s, lane);
    ExecNothing(c, s);
    ExecMore(c, s, [], StepLane(lane, env(0)));
    run := [] + [StepLane(lane, env(0))];
    var s1 := Exec(c, s, run);
    if s1.lanes[lane].delivery.Some? {
      run := DriveDelivery(c, s, run, lane, env, 0);
      assert s1.lanes[lane := Consumer(k.offset + 1, None)] == s.lanes[lane := Consumer(k.offset + 1, None)];
    }
  }

  class ChannelWorker {
    const channel: Channel
    const cipher: Cipher
    const store: Repositories

    constructor (channel: Channel, cipher: Cipher, store: Repositories)
      ensures this.channel == channel && this.cipher == cipher && this.store == store
    {
      this.channel, this.cipher, this.store := channel, cipher, store;
    }

    /** The n-th awaited call is answered by env(n). */
    method EachMessage(m: Message, env: nat -> Answer)
      modifies store
      ensures store.W() == Handled(cipher, channel, old(store.W()), m, env)
      ensures store.W() ==
        if m.event.channel != ChannelName(channel) then old(store.W())
        else if "_enc" !in m.event.variables then ProcessRun(channel, old(store.W()), ReadRequest(m.event), env, 0).0
        else
          match Decrypt(cipher, m.event.variables)
          case None => old(store.W())
          case Some(variables) => ProcessRun(channel, old(store.W()), ReadRequest(m.event.(variables := variables)), env, 0).0
    {
      hide ProcessRun;
      var event := m.event;
      if event.channel != ChannelName(channel) { return; }
      if IsEncrypted(event.variables) {
        var variables := Decrypt(cipher, event.variables);
        if variables.None? { return; }
        event := event.(variables := variables.value);
      }
      assert Opened(cipher, m.event) == Some(event);
      var _ := Process(event, env);
    }

    method Process(event: Event, env: nat -> Answer) returns (threw: bool)
      modifies store
      ensures (store.W(), if threw then Threw else Returned)
           == ProcessRun(channel, old(store.W()), ReadRequest(event), env, 0)
    {
      hide ProcessRun, StoredRequest, LogsOf, HasSuccess, MarkSuccess, OnFailure;
      ghost var w := store.W();
      RunOn(channel, w, ReadRequest(event), env, 0);
      if !env(0).ok { return true; }
      if event.messageRequestId !in store.requests { return false; }
      var messageRequest := store.requests[event.messageRequestId];

      RunOn(channel, w, CheckSuccess(event, messageRequest), env, 1);
      if !env(1).ok { return true; }
      var existingSuccess := store.FindSuccess(event.messageRequestId, event.recipientId, channel);
      if existingSuccess { return false; }

      RunOn(channel, w, Insert(event, messageRequest), env, 2);
      var savedDispatch := Dispatch(
        env(2).uuid, event.messageRequestId, event.recipientId, channel, DispatchStatus.Processing,
        0, MAX_RETRY_COUNT, None, None, None, None, Some(store.now), Some(store.now), None, None, None);
      var done := store.InsertDispatchRow(savedDispatch, env(2));
      if !done { return true; }

      RunOn(channel, store.W(), LogRequest(event, messageRequest, savedDispatch), env, 3);
      done := store.WriteLogRow(savedDispatch.id, RequestLog, LogStatus.Processing, env(3));
      if !done { return true; }
      threw := Attempt(event, messageRequest, savedDispatch, env);
    }

    /** The try block, which starts at the fifth awaited call, and the handler. */
    method Attempt(event: Event, request: Request, dispatch: Dispatch, env: nat -> Answer)
      returns (threw: bool)
      modifies store
      ensures (store.W(), if threw then Threw else Returned)
           == ProcessRun(channel, old(store.W()), SaveSuccess(event, request, dispatch), env, 4)
    {
      hide ProcessRun, StoredRequest, LogsOf, OnFailure;
      var messageRequest, savedDispatch := request, dispatch;
      RunOn(channel, store.W(), SaveSuccess(event, messageRequest, savedDispatch), env, 4);
      savedDispatch := savedDispatch.(
        status := DispatchStatus.Success, providerMessageId := Some((savedDispatch.channelType, env(4).uuid)),
        sentAt := Some(store.now), successAt := Some(store.now));
      var n := 5;
      var done := store.SaveDispatchRow(savedDispatch, env(4));
      if done {
        RunOn(channel, store.W(), LogSuccess(event, messageRequest, savedDispatch), env, 5);
        n := 6;
        done := store.WriteLogRow(savedDispatch.id, SuccessLog, LogStatus.Success, env(5));
        if done {
          RunOn(channel, store.W(), SaveCompleted(event, messageRequest, savedDispatch), env, 6);
          messageRequest := messageRequest.(status := RequestStatus.Completed, completedAt := Some(store.now));
          n := 7;
          done := store.SaveRequestRow(messageRequest, env(6));
          if done { return false; }
        }
      }
      threw := Recover(event, messageRequest, savedDispatch, env(n - 1).error, env, n);
    }

    /** The catch block. */
    method Recover(event: Event, request: Request, dispatch: Dispatch, errorMessage: string, env: nat -> Answer, n: nat)
      returns (threw: bool)
      modifies store
      ensures var (w, pc) := Catch(old(store.W()), event, request, dispatch, errorMessage);
        (store.W(), if threw then Threw else Returned) == ProcessRun(channel, w, pc, env, n)
    {
      hide ProcessRun, StoredRequest, LogsOf;
      var messageRequest, savedDispatch := request, dispatch;
      store.failedAt := store.failedAt[savedDispatch.id := store.now];
      var errorCode := SendErrorCode(savedDispatch.channelType);
      var canRetry := savedDispatch.retryCount < savedDispatch.maxRetryCount;
      if canRetry {
        var backoffSeconds := BackoffSeconds(savedDispatch.retryCount);
        savedDispatch := savedDispatch.(
          status := DispatchStatus.RetryWait, retryCount := savedDispatch.retryCount + 1,
          nextRetryAt := Some(store.now + backoffSeconds * 1000), lastErrorCode := Some(errorCode),
          lastErrorMessage := Some(errorMessage));
        RunOn(channel, store.W(), SaveRetry(savedDispatch), env, n);
        var done := store.SaveDispatchRow(savedDispatch, env(n));
        if !done { return true; }
        RunOn(channel, store.W(), LogRetry(savedDispatch), env, n + 1);
        done := store.WriteLogRow(savedDispatch.id, RetryLog, LogStatus.Failed, env(n + 1));
        return !done;
      } else {
        savedDispatch := savedDispatch.(
          status := DispatchStatus.Failed, failedAt := Some(store.now), lastErrorCode := Some(errorCode),
          lastErrorMessage := Some(errorMessage));
        threw := GiveUp(event, messageRequest, savedDispatch, errorCode, errorMessage, env, n);
      }
    }

    method GiveUp(event: Event, request: Request, dispatch: Dispatch, errorCode: string, errorMessage: string,
                  env: nat -> Answer, n: nat)
      returns (threw: bool)
      requires errorCode == SendErrorCode(dispatch.channelType) && dispatch.lastErrorMessage == Some(errorMessage)
      modifies store
      ensures (store.W(), if threw then Threw else Returned)
           == ProcessRun(channel, old(store.W()), SaveFailed(event, request, dispatch), env, n)
    {
      hide ProcessRun, StoredRequest, LogsOf;
      var messageRequest := request;
      RunOn(channel, store.W(), SaveFailed(event, messageRequest, dispatch), env, n);
      var done := store.SaveDispatchRow(dispatch, env(n));
      if !done { return true; }
      RunOn(channel, store.W(), LogFailed(event, messageRequest, dispatch), env, n + 1);
      done := store.WriteLogRow(dispatch.id, FailLog, LogStatus.Failed, env(n + 1));
      if !done { return true; }
      RunOn(channel, store.W(), SaveRequestFailed(event, messageRequest, dispatch), env, n + 2);
      messageRequest := messageRequest.(status := RequestStatus.Failed);
      done := store.SaveRequestRow(messageRequest, env(n + 2));
      if !done { return true; }
      RunOn(channel, store.W(), PublishDlq(event, dispatch), env, n + 3);
      if env(n + 3).ok {
        store.dlq := store.dlq + [DlqEvent(event, dispatch.id, errorCode, errorMessage, dispatch.retryCount)];
      }
      assert store.dlq + [] == store.dlq;
      threw := false;
    }
  }
}
