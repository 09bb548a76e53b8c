/** The repositories and the producer as the services call them: one object whose tables and topic change. */
module Store {
  import opened Domain
  import opened Events
  import opened World
  import Relay
  import Scheduler

  /** At most one row answers each `findOne` of the gateway: the unique constraints of the schema, and one
      recipient per request. */
  ghost predicate OneRowEach(w: World) {
    && (forall i, j | i in w.requests && j in w.requests && w.requests[i].requestId == w.requests[j].requestId :: i == j)
    && (forall i, j | i in w.payloads && j in w.payloads
                      && w.payloads[i].messageRequestId == w.payloads[j].messageRequestId :: i == j)
    && (forall i, j | i in w.recipients && j in w.recipients
                      && w.recipients[i].messageRequestId == w.recipients[j].messageRequestId :: i == j)
  }

  /** Some of the pending rows, oldest first, with all of them either taken or still to be taken. */
  ghost predicate OldestTaken(outbox: map<Id, Outbox>, rows: seq<Outbox>, todo: set<Id>) {
    && (forall id | id in todo :: id in outbox && outbox[id].status == OutboxStatus.Pending)
    && (forall id | id in outbox && outbox[id].status == OutboxStatus.Pending :: outbox[id] in rows || id in todo)
    && (forall i | 0 <= i < |rows| ::
          && rows[i].id in outbox && rows[i] == outbox[rows[i].id] && rows[i].status == OutboxStatus.Pending
          && rows[i].id !in todo && forall id | id in todo :: rows[i].createdAt <= outbox[id].createdAt)
    && (forall i, j | 0 <= i < j < |rows| :: rows[i].id != rows[j].id && rows[i].createdAt <= rows[j].createdAt)
  }

  lemma TakeOldest(outbox: map<Id, Outbox>, rows: seq<Outbox>, todo: set<Id>, id: Id)
    requires OldestTaken(outbox, rows, todo) && id in todo && outbox[id].id == id
    requires forall other | other in todo :: outbox[id].createdAt <= outbox[other].createdAt
    ensures OldestTaken(outbox, rows + [outbox[id]], todo - {id})
  {
  }

  lemma TakenIsBatch(outbox: map<Id, Outbox>, rows: seq<Outbox>, todo: set<Id>)
    requires OldestTaken(outbox, rows, todo) && |rows| <= 100 && (todo == {} || |rows| == 100)
    ensures Relay.IsPendingBatch(outbox, rows)
  {
  }

  lemma NothingTaken(outbox: map<Id, Outbox>, todo: set<Id>)
    requires todo == set id | id in outbox && outbox[id].status == OutboxStatus.Pending
    ensures OldestTaken(outbox, [], todo)
  {
  }

  lemma BatchSays(outbox: map<Id, Outbox>, rows: seq<Outbox>)
    requires Relay.IsPendingBatch(outbox, rows)
    ensures |rows| <= 100
    ensures forall i | 0 <= i < |rows| :: rows[i].id in outbox && rows[i] == outbox[rows[i].id] && rows[i].status == OutboxStatus.Pending
    ensures forall i, j | 0 <= i < j < |rows| :: rows[i].id != rows[j].id && rows[i].createdAt <= rows[j].createdAt
    ensures forall id | id in outbox && outbox[id].status == OutboxStatus.Pending && outbox[id] !in rows ::
      |rows| == 100 && forall i | 0 <= i < |rows| :: rows[i].createdAt <= outbox[id].createdAt
  {
  }

  class Repositories {
    var now: Time
    var requests: map<Id, Request>
    var payloads: map<Id, Payload>
    var recipients: map<Id, Recipient>
    var outbox: map<Id, Outbox>
    var dispatches: map<Id, Dispatch>
    var logs: map<Id, seq<LogEntry>>
    var topic: seq<Message>
    var dlq: seq<DlqEvent>
    ghost var origin: map<Id, Origin>
    ghost var failedAt: map<Id, Time>

    ghost function W(): World
      reads this
    {
      World(now, requests, payloads, recipients, outbox, dispatches, logs, topic, dlq, origin, failedAt)
    }

    // -------------------------------------------------------------- reads

    method FindRequestByKey(requestId: string) returns (r: Option<Request>)
      requires OneRowEach(W())
      ensures r == FindRequest(W(), requestId)
      ensures r.None? <==> forall id | id in requests :: requests[id].requestId != requestId
      ensures r.Some? ==> exists id :: id in requests && requests[id] == r.value && r.value.requestId == requestId
    {
      var hits := set id | id in requests && requests[id].requestId == requestId;
      if hits == {} {
        assert forall id | id in requests :: requests[id].requestId == requestId ==> id in hits;
        return None;
      }
      var id :| id in hits;
      r := Some(requests[id]);
    }

    method FindPayloadOf(request: Id) returns (r: Option<Payload>)
      requires OneRowEach(W())
      ensures r == FindPayload(W(), request)
      ensures r.None? <==> forall id | id in payloads :: payloads[id].messageRequestId != request
      ensures r.Some? ==> exists id :: id in payloads && payloads[id] == r.value && r.value.messageRequestId == request
    {
      var hits := set id | id in payloads && payloads[id].messageRequestId == request;
      if hits == {} {
        assert forall id | id in payloads :: payloads[id].messageRequestId == request ==> id in hits;
        return None;
      }
      var id :| id in hits;
      r := Some(payloads[id]);
    }

    /** The oldest recipient, and with one row per request the one that the query of the pipeline finds. */
    method FindRecipientOf(request: Id) returns (r: Option<Recipient>)
      ensures r.None? <==> forall id | id in recipients :: recipients[id].messageRequestId != request
      ensures r.Some? ==> r.value in recipients.Values && r.value.messageRequestId == request
      ensures r.Some? ==> forall other | other in recipients && recipients[other].messageRequestId == request ::
        r.value.createdAt <= recipients[other].createdAt
      ensures OneRowEach(W()) ==> r == FindRecipient(W(), request)
    {
      var hits := set id | id in recipients && recipients[id].messageRequestId == request;
      assert forall id | id in recipients :: recipients[id].messageRequestId == request ==> id in hits;
      if hits == {} { return None; }
      var oldest :| oldest in hits;
      var rest := hits - {oldest};
      while rest != {}
        invariant rest <= hits && oldest in hits
        invariant forall id | id in hits - rest :: recipients[oldest].createdAt <= recipients[id].createdAt
        decreases rest
      {
        var id :| id in rest;
        if recipients[id].createdAt < recipients[oldest].createdAt { oldest := id; }
        rest := rest - {id};
      }
      assert IsOldestRecipient(W(), request, oldest);
      r := Some(recipients[oldest]);
    }

    /** `findOne` of a SUCCESS dispatch for one recipient and channel: whether there is one. */
    method FindSuccess(request: Id, recipient: Id, channel: Channel) returns (found: bool)
      ensures found == HasSuccess(W(), request, recipient, channel)
      ensures found <==> exists d | d in dispatches ::
        && dispatches[d].status == DispatchStatus.Success && dispatches[d].messageRequestId == request
        && dispatches[d].recipientId == recipient && dispatches[d].channelType == channel
    {
      var hits := set id | id in dispatches
        && dispatches[id].status == DispatchStatus.Success && dispatches[id].messageRequestId == request
        && dispatches[id].recipientId == recipient && dispatches[id].channelType == channel;
      found := hits != {};
      assert forall id | id in dispatches :: id in hits <==>
        dispatches[id].status == DispatchStatus.Success && dispatches[id].messageRequestId == request
        && dispatches[id].recipientId == recipient && dispatches[id].channelType == channel;
    }

    /** `find({ status: PENDING }, { createdAt: 'ASC' }, take 100)`: the oldest pending row, then the oldest of
        the rest, and so on. */
    method FindPending() returns (rows: seq<Outbox>)
      requires forall id | id in outbox :: outbox[id].id == id
      ensures Relay.IsPendingBatch(outbox, rows)
      ensures |rows| <= 100
      ensures forall i | 0 <= i < |rows| :: rows[i].id in outbox && rows[i] == outbox[rows[i].id] && rows[i].status == OutboxStatus.Pending
      ensures forall i, j | 0 <= i < j < |rows| :: rows[i].id != rows[j].id && rows[i].createdAt <= rows[j].createdAt
      ensures forall id | id in outbox && outbox[id].status == OutboxStatus.Pending && outbox[id] !in rows ::
        |rows| == 100 && forall i | 0 <= i < |rows| :: rows[i].createdAt <= outbox[id].createdAt
    {
      hide Relay.IsPendingBatch, OldestTaken;
      rows := [];
      var todo := set id | id in outbox && outbox[id].status == OutboxStatus.Pending;
      NothingTaken(outbox, todo);
      while todo != {} && |rows| < Relay.BATCH
        invariant todo <= outbox.Keys && |rows| <= Relay.BATCH && OldestTaken(outbox, rows, todo)
        decreases todo
      {
        var oldest := Oldest(todo);
        TakeOldest(outbox, rows, todo, oldest);
        rows := rows + [outbox[oldest]];
        todo := todo - {oldest};
      }
      TakenIsBatch(outbox, rows, todo);
      BatchSays(outbox, rows);
    }

    method Oldest(ids: set<Id>) returns (oldest: Id)
      requires ids != {} && ids <= outbox.Keys
      ensures oldest in ids && forall id | id in ids :: outbox[oldest].createdAt <= outbox[id].createdAt
    {
      oldest :| oldest in ids;
      var rest := ids - {oldest};
      while rest != {}
        invariant rest <= ids && oldest in ids
        invariant forall id | id in ids - rest :: outbox[oldest].createdAt <= outbox[id].createdAt
        decreases rest
      {
        var id :| id in rest;
        if outbox[id].createdAt < outbox[oldest].createdAt { oldest := id; }
        rest := rest - {id};
      }
    }

    /** `find({ status: RETRY_WAIT, nextRetryAt <= now }, take 100)`: any hundred of the due rows, or all. */
    method FindDue() returns (rows: seq<Dispatch>)
      requires forall id | id in dispatches :: dispatches[id].id == id
      ensures Scheduler.IsRetryBatch(W(), rows)
      ensures |rows| <= 100 && forall i, j | 0 <= i < j < |rows| :: rows[i].id != rows[j].id
      ensures forall i | 0 <= i < |rows| ::
        && rows[i].id in dispatches && rows[i] == dispatches[rows[i].id] && rows[i].status == DispatchStatus.RetryWait
        && rows[i].nextRetryAt.Some? && rows[i].nextRetryAt.value <= now
      ensures forall id | id in dispatches && dispatches[id] !in rows && dispatches[id].status == DispatchStatus.RetryWait
                && dispatches[id].nextRetryAt.Some? && dispatches[id].nextRetryAt.value <= now :: |rows| == 100
    {
      rows := [];
      var todo := set id | id in dispatches && Scheduler.Due(dispatches[id], now);
      while todo != {} && |rows| < Scheduler.BATCH
        invariant todo <= dispatches.Keys && |rows| <= Scheduler.BATCH
        invariant forall id | id in dispatches && Scheduler.Due(dispatches[id], now) :: dispatches[id] in rows || id in todo
        invariant forall i | 0 <= i < |rows| ::
          && rows[i].id in dispatches && rows[i] == dispatches[rows[i].id] && Scheduler.Due(rows[i], now)
          && rows[i].id !in todo
        invariant forall i, j | 0 <= i < j < |rows| :: rows[i].id != rows[j].id
        invariant forall id | id in todo :: Scheduler.Due(dispatches[id], now)
        decreases todo
      {
        var id :| id in todo;
        rows := rows + [dispatches[id]];
        todo := todo - {id};
      }
    }

    // -------------------------------------------------------------- writes: each takes effect or throws

    /** The inserts of `send`'s transaction: four rows, all or none. A request id or a primary key that is taken
        violates a constraint. */
    method InsertSendRows(request: Request, payload: Payload, recipient: Recipient, entry: Outbox, ghost o: Origin, a: Answer)
      returns (done: bool)
      modifies this
      ensures done == (
        && a.ok && request.id !in old(requests) && payload.id !in old(payloads) && recipient.id !in old(recipients)
        && entry.id !in old(outbox)
        && forall r | r in old(requests) :: old(requests)[r].requestId != request.requestId)
      ensures W() ==
        if done then old(W()).(
          requests := old(requests)[request.id := StoredRequest(request)],
          payloads := old(payloads)[payload.id := StoredPayload(payload)],
          recipients := old(recipients)[recipient.id := StoredRecipient(recipient)],
          outbox := old(outbox)[entry.id := StoredOutbox(entry)],
          origin := old(origin)[request.id := o])
        else old(W())
    {
      hide StoredRequest, StoredPayload, StoredOutbox, StoredRecipient;
      done := a.ok && request.id !in requests && payload.id !in payloads && recipient.id !in recipients && entry.id !in outbox
        && forall r | r in requests :: requests[r].requestId != request.requestId;
      if done {
        requests := requests[request.id := StoredRequest(request)];
        payloads := payloads[payload.id := StoredPayload(payload)];
        recipients := recipients[recipient.id := StoredRecipient(recipient)];
        outbox := outbox[entry.id := StoredOutbox(entry)];
        origin := origin[request.id := o];
      }
    }

    method SaveRequestRow(row: Request, a: Answer) returns (done: bool)
      modifies this
      ensures done == a.ok && W() == if a.ok then SaveRequest(old(W()), row) else old(W())
    {
      done := a.ok;
      if done { requests := requests[row.id := StoredRequest(row)]; }
    }

    method SaveOutboxRow(row: Outbox, a: Answer) returns (done: bool)
      modifies this
      ensures done == a.ok && W() == if a.ok then SaveOutbox(old(W()), row) else old(W())
    {
      done := a.ok;
      if done { outbox := outbox[row.id := StoredOutbox(row)]; }
    }

    method SaveDispatchRow(row: Dispatch, a: Answer) returns (done: bool)
      modifies this
      ensures done == a.ok && W() == if a.ok then SaveDispatch(old(W()), row) else old(W())
    {
      done := a.ok;
      if done { dispatches := dispatches[row.id := row]; }
    }

    /** `save` of a new row: a primary key that is taken violates a constraint. */
    method InsertDispatchRow(row: Dispatch, a: Answer) returns (done: bool)
      modifies this
      ensures done == (a.ok && row.id !in old(dispatches))
      ensures W() == if done then SaveDispatch(old(W()), row) else old(W())
    {
      done := a.ok && row.id !in dispatches;
      if done { dispatches := dispatches[row.id := row]; }
    }

    method WriteLogRow(dispatch: Id, logType: LogType, status: LogStatus, a: Answer) returns (done: bool)
      modifies this
      ensures done == a.ok && W() == if a.ok then WriteLog(old(W()), dispatch, logType, status) else old(W())
    {
      done := a.ok;
      if done {
        logs := logs[dispatch := (if dispatch in logs then logs[dispatch] else []) + [LogEntry(logType, status)]];
      }
    }

    /** `publishMessageSend` and `publish`: one send to the broker under the given key. */
    method PublishMessage(key: string, event: Event, a: Answer) returns (done: bool)
      modifies this
      ensures done == a.ok && W() == PublishKeyed(old(W()), key, event, a)
    {
      done := a.ok;
      topic := topic + Copies(Message(key, Wire(event)), a);
    }
  }
}
