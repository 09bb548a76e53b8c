/** Calls, deliveries and retries that nothing else disturbs: what exactly they leave. */
module Undisturbed {
  import opened Domain
  import opened Crypto
  import opened Events
  import opened Templates
  import opened World
  import opened Gateway
  import opened Worker
  import opened Invariants
  import opened WorkerService
  import GatewayService
  import Scheduler
  import SchedulerService

  /** An awaited call that takes effect. */
  const FINE := Answer(true, 0, 0, "", TxIds(0, 0, 0, 0), 0, Catalog([], []), true, [], [])

  // ---------------------------------------------------------------- the worker

  /** The dispatch of a first delivery that succeeds. */
  function Delivered(e: Event, channel: Channel, now: Time, row: Id, provider: Id): Dispatch {
    Dispatch(row, e.messageRequestId, e.recipientId, channel, DispatchStatus.Success, 0, 3, None, None, None,
             Some((channel, provider)), Some(now), Some(now), Some(now), Some(now), None)
  }

  /** A first delivery gets to its try block with a fresh dispatch and its REQUEST log. */
  lemma ReachesTry(channel: Channel, w: World, e: Event, env: nat -> Answer)
    requires env(0).ok && env(1).ok && env(2).ok && env(3).ok
    requires e.messageRequestId in w.requests && env(2).uuid !in w.dispatches
    requires !HasSuccess(w, e.messageRequestId, e.recipientId, channel)
    ensures var r, d := w.requests[e.messageRequestId], NewDispatch(env(2).uuid, e, channel, w.now);
      ProcessRun(channel, w, ReadRequest(e), env, 0) ==
        ProcessRun(channel, WriteLog(SaveDispatch(w, d), d.id, RequestLog, LogStatus.Processing), SaveSuccess(e, r, d), env, 4)
  {
    hide ProcessRun, HasSuccess;
    var r := w.requests[e.messageRequestId];
    var d := NewDispatch(env(2).uuid, e, channel, w.now);
    RunOn(channel, w, ReadRequest(e), env, 0);
    RunOn(channel, w, CheckSuccess(e, r), env, 1);
    RunOn(channel, w, Insert(e, r), env, 2);
    RunOn(channel, SaveDispatch(w, d), LogRequest(e, r, d), env, 3);
  }

  /** With every awaited call taking effect, a first delivery inserts one dispatch that ends SUCCESS, logs REQUEST
      and SUCCESS for it, completes the request and touches nothing else. */
  lemma Delivery(channel: Channel, w: World, e: Event, env: nat -> Answer)
    requires forall i: nat | i < 7 :: env(i).ok
    requires e.messageRequestId in w.requests && env(2).uuid !in w.dispatches
    requires !HasSuccess(w, e.messageRequestId, e.recipientId, channel)
    ensures var d := Delivered(e, channel, w.now, env(2).uuid, env(4).uuid);
      var r := w.requests[e.messageRequestId].(status := RequestStatus.Completed, completedAt := Some(w.now));
      var (w', end) := ProcessRun(channel, w, ReadRequest(e), env, 0);
      && end == Returned && d.id == env(2).uuid
      && w' == w.(dispatches := w.dispatches[d.id := d], requests := w.requests[r.id := StoredRequest(r)],
                  logs := w.logs[d.id := LogsOf(w, d.id) + [REQUESTED] + [SUCCEEDED]])
  {
    hide ProcessRun, HasSuccess, StoredRequest;
    var r := w.requests[e.messageRequestId];
    var d := NewDispatch(env(2).uuid, e, channel, w.now);
    var done := MarkSuccess(d, env(4).uuid, w.now);
    assert env(0).ok && env(1).ok && env(2).ok && env(3).ok;
    ReachesTry(channel, w, e, env);
    var w2 := WriteLog(SaveDispatch(w, d), d.id, RequestLog, LogStatus.Processing);
    TryBlock(channel, w2, e, r, d, env);
    assert w2.dispatches[d.id := done] == w.dispatches[d.id := done];
    assert w2.logs[d.id := LogsOf(w2, d.id) + [SUCCEEDED]] == w.logs[d.id := LogsOf(w, d.id) + [REQUESTED] + [SUCCEEDED]];
  }

  lemma TryBlock(channel: Channel, w: World, e: Event, r: Request, d: Dispatch, env: nat -> Answer)
    requires forall i: nat | i < 7 :: env(i).ok
    ensures var done, completed := MarkSuccess(d, env(4).uuid, w.now), MarkCompleted(r, w.now);
      var (w', end) := ProcessRun(channel, w, SaveSuccess(e, r, d), env, 4);
      && end == Returned
      && w' == w.(dispatches := w.dispatches[d.id := done], requests := w.requests[r.id := StoredRequest(completed)],
                  logs := w.logs[d.id := LogsOf(w, d.id) + [SUCCEEDED]])
  {
    hide ProcessRun, HasSuccess, StoredRequest;
    var done := MarkSuccess(d, env(4).uuid, w.now);
    assert env(4).ok && env(5).ok && env(6).ok;
    RunOn(channel, w, SaveSuccess(e, r, d), env, 4);
    var w3 := SaveDispatch(w, done);
    RunOn(channel, w3, LogSuccess(e, r, done), env, 5);
    var w4 := WriteLog(w3, d.id, SuccessLog, LogStatus.Success);
    RunOn(channel, w4, SaveCompleted(e, r, done), env, 6);
  }

  // ---------------------------------------------------------------- the gateway

  /** Which awaited call reads the template's variables: a PUBLIC template needs no access check. */
  function VariablesAt(t: Template): nat { if t.scope == Public then 2 else 3 }

  /** With every call taking effect and a template found, the call gets to its transaction. */
  lemma ReachesCommit(c: Cipher, w: World, client: Id, dto: SendDto, env: nat -> Answer, catalog: Catalog, t: Template)
    requires forall i: nat | i < 8 :: env(i).ok && env(i).catalog == catalog
    requires FindRequest(w, dto.requestId) == None
    requires GetTemplateByCode(catalog, dto.templateCode, client) == Some(t) && env(VariablesAt(t)).valid
    ensures GatewayService.SendRun(c, w, Start(client, dto), env, 0)
         == GatewayService.SendRun(c, w, Commit(client, dto, t), env, VariablesAt(t) + 1)
  {
    hide GatewayService.SendRun, FindRequest, FindActive, FindAccess;
    assert env(0).ok && env(1).ok && env(2).ok && env(3).ok && env(1).catalog == catalog && env(2).catalog == catalog;
    GatewayService.RunOn(c, w, Start(client, dto), env, 0);
    GatewayService.RunOn(c, w, FindTemplate(client, dto), env, 1);
    if t.scope != Public { GatewayService.RunOn(c, w, CheckAccess(client, dto, t), env, 2); }
    GatewayService.RunOn(c, w, ReadVariables(client, dto, t), env, VariablesAt(t));
  }

  /** After the transaction: the event is published once or more, the outbox row says PUBLISHED, the request QUEUED. */
  lemma PublishAndSave(c: Cipher, w: World, request: Request, entry: Outbox, channel: string, env: nat -> Answer, n: nat)
    requires env(n).ok && env(n + 1).ok && env(n + 2).ok
    ensures GatewayService.SendRun(c, w, Publish(request, entry, channel), env, n) ==
      (w.(topic := w.topic + Copies(Message(entry.payload.requestId, Wire(entry.payload)), env(n)),
          outbox := w.outbox[entry.id := StoredOutbox(entry.(status := OutboxStatus.Published, publishedAt := Some(w.now)))],
          requests := w.requests[request.id := StoredRequest(request.(status := RequestStatus.Queued, queuedAt := Some(w.now)))]),
       ToResponse(MarkQueued(request, w.now), Some(channel)))
  {
    hide GatewayService.SendRun, Wire, StoredOutbox, StoredRequest, ToResponse, Copies;
    var w1 := PublishSend(w, entry.payload, env(n));
    var entry1, request1 := MarkPublished(entry, w.now), MarkQueued(request, w.now);
    GatewayService.RunOn(c, w, Publish(request, entry, channel), env, n);
    GatewayService.RunOn(c, w1, SaveEntry(request, entry1, channel), env, n + 1);
    GatewayService.RunOn(c, SaveOutbox(w1, entry1), SaveQueued(request1, channel), env, n + 2);
  }

  lemma NewRowsSaid(c: Cipher, id: Id, o: Origin, now: Time)
    ensures var entry := NewOutbox(c, id, o);
      entry.id == o.outboxId && entry.payload == FirstEvent(c, id, o) && entry.payload.requestId == o.dto.requestId
    ensures var request := MarkQueued(NewRequest(id, o), now);
      && request.id == NewRequest(id, o).id == id
      && ToResponse(request, Some(ChannelName(o.dto.channel)))
           == Replied(o.dto.requestId, RequestStatus.Queued, Some(ChannelName(o.dto.channel)))
  {
  }

  /** A first call for a request id, whatever the tables and the body, with a template that the client may use, valid
      variables, free primary keys and every awaited call taking effect: it replies QUEUED with the requested channel,
      leaves one set of rows, the outbox row PUBLISHED and the request QUEUED, puts its one event on the topic, and
      changes nothing else. */
  lemma Send(c: Cipher, w: World, client: Id, dto: SendDto, env: nat -> Answer, catalog: Catalog, t: Template)
    requires forall i: nat | i < 8 :: env(i).ok && env(i).catalog == catalog
    requires GetTemplateByCode(catalog, dto.templateCode, client) == Some(t)
    requires env(VariablesAt(t)).valid && CanCommit(w, dto, env(VariablesAt(t) + 1).tx)
    ensures
      var commit, publish := env(VariablesAt(t) + 1), env(VariablesAt(t) + 2);
      var id := commit.tx.request;
      var o := Origin(client, dto, t.id, t.templateCode, w.now, commit.iv, commit.tx.payload, commit.tx.recipient, commit.tx.outbox);
      GatewayService.SendRun(c, w, Start(client, dto), env, 0) ==
        (w.(requests := w.requests[id := StoredRequest(NewRequest(id, o).(status := RequestStatus.Queued, queuedAt := Some(w.now)))],
            payloads := w.payloads[o.payloadId := StoredPayload(NewPayload(c, id, o))],
            recipients := w.recipients[o.recipientId := StoredRecipient(NewRecipient(id, o))],
            outbox := w.outbox[o.outboxId :=
              StoredOutbox(NewOutbox(c, id, o).(status := OutboxStatus.Published, publishedAt := Some(w.now)))],
            topic := w.topic + Copies(Message(dto.requestId, Wire(FirstEvent(c, id, o))), publish),
            origin := w.origin[id := o]),
         Replied(dto.requestId, RequestStatus.Queued, Some(ChannelName(dto.channel))))
  {
    hide GatewayService.SendRun, FindRequest, Wire, StoredOutbox, StoredRequest, StoredPayload, NewPayload, NewRecipient, Copies,
         GetTemplateByCode, NewRequest, NewOutbox, FirstEvent, ToResponse;
    var n := VariablesAt(t);
    assert env(n + 1).ok && env(n + 2).ok && env(n + 3).ok && env(n + 4).ok;
    var tx := env(n + 1).tx;
    var o := Origin(client, dto, t.id, t.templateCode, w.now, env(n + 1).iv, tx.payload, tx.recipient, tx.outbox);
    ReachesCommit(c, w, client, dto, env, catalog, t);
    GatewayService.RunOn(c, w, Commit(client, dto, t), env, n + 1);
    var w1 := CommitRows(c, w, tx.request, o);
    NewRowsSaid(c, tx.request, o, w.now);
    PublishAndSave(c, w1, NewRequest(tx.request, o), NewOutbox(c, tx.request, o), ChannelName(dto.channel), env, n + 2);
    var entry, request := MarkPublished(NewOutbox(c, tx.request, o), w.now), MarkQueued(NewRequest(tx.request, o), w.now);
    assert w1.outbox[o.outboxId := StoredOutbox(entry)] == w.outbox[o.outboxId := StoredOutbox(entry)];
    assert w1.requests[tx.request := StoredRequest(request)] == w.requests[tx.request := StoredRequest(request)];
  }

  // ---------------------------------------------------------------- a delivery that fails, and its retry

  /** The dispatch of a delivery whose SUCCESS save throws: it waits a minute, and keeps what the save would have
      written. */
  function FailedOnce(e: Event, channel: Channel, now: Time, row: Id, provider: Id, error: string): Dispatch {
    Dispatch(row, e.messageRequestId, e.recipientId, channel, DispatchStatus.RetryWait, 1, 3, Some(now + 60_000),
             Some(SendErrorCode(channel)), Some(error), Some((channel, provider)), Some(now), Some(now), Some(now), Some(now), None)
  }

  lemma FailedIsMarked(e: Event, channel: Channel, now: Time, row: Id, provider: Id, error: string)
    ensures OnFailure(MarkSuccess(NewDispatch(row, e, channel, now), provider, now), now, SendErrorCode(channel), error)
         == FailedOnce(e, channel, now, row, provider, error)
  {
  }

  /** When only the SUCCESS save throws, the delivery leaves one dispatch that waits for its retry, logs REQUEST and
      RETRY for it and touches nothing else. */
  lemma FailedDelivery(channel: Channel, w: World, e: Event, env: nat -> Answer)
    requires forall i: nat | i < 7 :: env(i).ok <==> i != 4
    requires e.messageRequestId in w.requests && env(2).uuid !in w.dispatches
    requires !HasSuccess(w, e.messageRequestId, e.recipientId, channel)
    ensures var d := FailedOnce(e, channel, w.now, env(2).uuid, env(4).uuid, env(4).error);
      && d.id == env(2).uuid && d.messageRequestId == e.messageRequestId && d.recipientId == e.recipientId
      && d.status == DispatchStatus.RetryWait && d.retryCount == 1 && d.nextRetryAt == Some(w.now + 60_000)
      && ProcessRun(channel, w, ReadRequest(e), env, 0) ==
           (w.(dispatches := w.dispatches[d.id := d], failedAt := w.failedAt[d.id := w.now],
               logs := w.logs[d.id := LogsOf(w, d.id) + [REQUESTED] + [RETRIED]]), Returned)
  {
    hide ProcessRun, HasSuccess, StoredRequest, OnFailure, MarkSuccess;
    var r := w.requests[e.messageRequestId];
    var d := NewDispatch(env(2).uuid, e, channel, w.now);
    assert env(0).ok && env(1).ok && env(2).ok && env(3).ok && !env(4).ok && env(5).ok && env(6).ok;
    ReachesTry(channel, w, e, env);
    var w2 := WriteLog(SaveDispatch(w, d), d.id, RequestLog, LogStatus.Processing);
    FailedTryBlock(channel, w2, e, r, d, env);
    var failed := FailedOnce(e, channel, w.now, env(2).uuid, env(4).uuid, env(4).error);
    FailedIsMarked(e, channel, w.now, env(2).uuid, env(4).uuid, env(4).error);
    assert w2.dispatches[d.id := failed] == w.dispatches[d.id := failed];
    assert w2.logs[d.id := LogsOf(w2, d.id) + [RETRIED]] == w.logs[d.id := LogsOf(w, d.id) + [REQUESTED] + [RETRIED]];
  }

  lemma FailedTryBlock(channel: Channel, w: World, e: Event, r: Request, d: Dispatch, env: nat -> Answer)
    requires !env(4).ok && env(5).ok && env(6).ok && CanRetry(d)
    ensures var failed := OnFailure(MarkSuccess(d, env(4).uuid, w.now), w.now, SendErrorCode(d.channelType), env(4).error);
      ProcessRun(channel, w, SaveSuccess(e, r, d), env, 4) ==
        (w.(dispatches := w.dispatches[d.id := failed], failedAt := w.failedAt[d.id := w.now],
            logs := w.logs[d.id := LogsOf(w, d.id) + [RETRIED]]), Returned)
  {
    hide ProcessRun, HasSuccess, StoredRequest;
    var done := MarkSuccess(d, env(4).uuid, w.now);
    var failed := OnFailure(done, w.now, SendErrorCode(d.channelType), env(4).error);
    var w1 := w.(failedAt := w.failedAt[d.id := w.now]);
    RunOn(channel, w, SaveSuccess(e, r, d), env, 4);
    RunOn(channel, w1, SaveRetry(failed), env, 5);
    RunOn(channel, SaveDispatch(w1, failed), LogRetry(failed), env, 6);
  }

  /** With every call taking effect and the request's rows there, the scheduler publishes one dispatch's event and puts
      the dispatch back to PROCESSING, and touches nothing else. */
  lemma Retry(w: World, d: Dispatch, env: nat -> Answer, n: nat)
    requires env(n).ok && env(n + 1).ok && env(n + 2).ok && env(n + 3).ok && env(n + 4).ok
    requires d.messageRequestId in w.requests && d.recipientId in w.recipients && FindPayload(w, d.messageRequestId).Some?
    ensures
      var e := RetryEvent(w.requests[d.messageRequestId], FindPayload(w, d.messageRequestId).value, w.recipients[d.recipientId]);
      SchedulerService.SchedRun(w, Scheduler.Next([d]), env, n) ==
        w.(topic := w.topic + Copies(Message(e.requestId, Wire(e)), env(n + 3)),
           dispatches := w.dispatches[d.id :=
             d.(status := DispatchStatus.Processing, processingAt := Some(w.now), nextRetryAt := None)])
  {
    hide SchedulerService.SchedRun, FindPayload, RetryEvent, Wire, Copies;
    var request, payload := w.requests[d.messageRequestId], FindPayload(w, d.messageRequestId);
    var e := RetryEvent(request, payload.value, w.recipients[d.recipientId]);
    var queue := [d];
    assert queue[0] == d && queue[1..] == [];
    SchedulerService.RunOn(w, Scheduler.Next(queue), env, n);
    SchedulerService.RunOn(w, Scheduler.ReadPayload(d, Some(request), []), env, n + 1);
    SchedulerService.RunOn(w, Scheduler.ReadRecipient(d, Some(request), payload, []), env, n + 2);
    SchedulerService.RunOn(w, Scheduler.Publish(d, e, []), env, n + 3);
    var w1 := PublishSend(w, e, env(n + 3));
    SchedulerService.RunOn(w1, Scheduler.Save(Scheduler.Reschedule(d, w.now), []), env, n + 4);
    SchedulerService.EmptyRun(SaveDispatch(w1, Scheduler.Reschedule(d, w.now)), env, n + 5);
  }

  // ---------------------------------------------------------------- a delivery that gives up

  /** A row with no attempts left whose SUCCESS save throws: FAILED with its FAIL entry, the request FAILED, one event
      on the dead-letter topic if its publish returns, and nothing else. The pipeline never gets there, since every
      delivery has a fresh row. */
  lemma GivenUp(channel: Channel, w: World, e: Event, r: Request, d: Dispatch, env: nat -> Answer)
    requires !env(4).ok && env(5).ok && env(6).ok && env(7).ok && d.retryCount >= d.maxRetryCount
    ensures var failed := d.(status := DispatchStatus.Failed, failedAt := Some(w.now),
        lastErrorCode := Some(SendErrorCode(d.channelType)), lastErrorMessage := Some(env(4).error),
        providerMessageId := Some((d.channelType, env(4).uuid)), sentAt := Some(w.now), successAt := Some(w.now));
      ProcessRun(channel, w, SaveSuccess(e, r, d), env, 4) ==
        (w.(dispatches := w.dispatches[d.id := failed], failedAt := w.failedAt[d.id := w.now],
            logs := w.logs[d.id := LogsOf(w, d.id) + [LogEntry(FailLog, LogStatus.Failed)]],
            requests := w.requests[r.id := StoredRequest(r.(status := RequestStatus.Failed))],
            dlq := w.dlq + if env(8).ok then [DlqEvent(e, d.id, SendErrorCode(d.channelType), env(4).error, d.retryCount)] else []),
         Returned)
  {
    hide ProcessRun, HasSuccess, StoredRequest;
    var failed := OnFailure(MarkSuccess(d, env(4).uuid, w.now), w.now, SendErrorCode(d.channelType), env(4).error);
    var w1 := w.(failedAt := w.failedAt[d.id := w.now]);
    RunOn(channel, w, SaveSuccess(e, r, d), env, 4);
    RunOn(channel, w1, SaveFailed(e, r, failed), env, 5);
    var w2 := SaveDispatch(w1, failed);
    RunOn(channel, w2, LogFailed(e, r, failed), env, 6);
    var w3 := WriteLog(w2, d.id, FailLog, LogStatus.Failed);
    RunOn(channel, w3, SaveRequestFailed(e, r, failed), env, 7);
    RunOn(channel, SaveRequest(w3, r.(status := RequestStatus.Failed)), PublishDlq(e, failed), env, 8);
  }
}
