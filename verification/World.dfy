/** The shared tables, the topic and the clock, and the single database or Kafka calls on them.

    Every awaited call is one atomic step. A read or a save either takes effect or throws without effect. A
    publish that returns has appended its message at least once; one that throws may have appended it too. */
module World {
  import opened Domain
  import opened Crypto
  import opened Events
  import opened Templates

  datatype World = World(
    now: Time,
    requests: map<Id, Request>,
    payloads: map<Id, Payload>,
    recipients: map<Id, Recipient>,
    outbox: map<Id, Outbox>,
    dispatches: map<Id, Dispatch>,
    logs: map<Id, seq<LogEntry>>,
    topic: seq<Message>,
    dlq: seq<DlqEvent>,
    // Kept for the statements only; no service reads these.
    origin: map<Id, Origin>,
    failedAt: map<Id, Time>)

  const EMPTY := World(0, map[], map[], map[], map[], map[], map[], [], [], map[], map[])

  /** The ids the database gives to the rows of one `send`. */
  datatype TxIds = TxIds(request: Id, payload: Id, recipient: Id, outbox: Id)

  /** What the surroundings contribute to one awaited call: whether it succeeds, how many times more the broker
      keeps a published message, the generated ids, the error text, and the rows a query happens to return. */
  datatype Answer = Answer(
    ok: bool, copies: nat, uuid: Id, error: string, tx: TxIds, iv: nat, catalog: Catalog, valid: bool,
    outboxRows: seq<Outbox>, dispatchRows: seq<Dispatch>)

  // ---------------------------------------------------------------- queries

  /** `findOne({ requestId })` */
  ghost function FindRequest(w: World, requestId: string): (r: Option<Request>)
    ensures r.Some? <==> exists id :: id in w.requests && w.requests[id].requestId == requestId
    ensures r.Some? ==>
      exists id :: id in w.requests && w.requests[id].requestId == requestId && r.value == w.requests[id]
  {
    if exists id :: id in w.requests && w.requests[id].requestId == requestId then
      var id :| id in w.requests && w.requests[id].requestId == requestId;
      Some(w.requests[id])
    else None
  }

  /** `findOne({ messageRequestId })` on the payload table */
  ghost function FindPayload(w: World, request: Id): (r: Option<Payload>)
    ensures r.Some? <==> exists id :: id in w.payloads && w.payloads[id].messageRequestId == request
    ensures r.Some? ==>
      exists id :: id in w.payloads && w.payloads[id].messageRequestId == request && r.value == w.payloads[id]
  {
    if exists id :: id in w.payloads && w.payloads[id].messageRequestId == request then
      var id :| id in w.payloads && w.payloads[id].messageRequestId == request;
      Some(w.payloads[id])
    else None
  }

  ghost predicate IsOldestRecipient(w: World, request: Id, id: Id) {
    && id in w.recipients && w.recipients[id].messageRequestId == request
    && forall other | other in w.recipients && w.recipients[other].messageRequestId == request ::
         w.recipients[id].createdAt <= w.recipients[other].createdAt
  }

  /** `findOne({ messageRequestId }, { createdAt: 'ASC' })` on the recipient table */
  ghost function FindRecipient(w: World, request: Id): (r: Option<Recipient>)
    ensures r.Some? <==> exists id :: IsOldestRecipient(w, request, id)
    ensures r.Some? ==> exists id :: IsOldestRecipient(w, request, id) && r.value == w.recipients[id]
  {
    if exists id :: IsOldestRecipient(w, request, id) then
      var id :| IsOldestRecipient(w, request, id);
      Some(w.recipients[id])
    else None
  }

  /** `findOne` of a SUCCESS dispatch for one recipient and channel */
  predicate HasSuccess(w: World, request: Id, recipient: Id, channel: Channel) {
    exists d | d in w.dispatches ::
      && w.dispatches[d].status == DispatchStatus.Success && w.dispatches[d].messageRequestId == request
      && w.dispatches[d].recipientId == recipient && w.dispatches[d].channelType == channel
  }

  // ---------------------------------------------------------------- writes

  /** `save` of a whole request row: the last writer wins. */
  function SaveRequest(w: World, row: Request): World {
    w.(requests := w.requests[row.id := StoredRequest(row)])
  }

  function SaveOutbox(w: World, row: Outbox): World {
    w.(outbox := w.outbox[row.id := StoredOutbox(row)])
  }

  function SaveDispatch(w: World, row: Dispatch): World {
    w.(dispatches := w.dispatches[row.id := row])
  }

  function LogsOf(w: World, dispatch: Id): seq<LogEntry> {
    if dispatch in w.logs then w.logs[dispatch] else []
  }

  function WriteLog(w: World, dispatch: Id, logType: LogType, status: LogStatus): World {
    w.(logs := w.logs[dispatch := LogsOf(w, dispatch) + [LogEntry(logType, status)]])
  }

  /** The copies of one message that a publish leaves on the topic. */
  function Copies(m: Message, a: Answer): (r: seq<Message>)
    ensures |r| == if a.ok then a.copies + 1 else a.copies
    ensures forall i | 0 <= i < |r| :: r[i] == m
  {
    seq(if a.ok then a.copies + 1 else a.copies, _ => m)
  }

  /** `publishMessageSend`: the partition key is the event's request id, the value its JSON text. */
  function PublishSend(w: World, e: Event, a: Answer): World {
    w.(topic := w.topic + Copies(Message(e.requestId, Wire(e)), a))
  }

  /** `publish` with an explicit key */
  function PublishKeyed(w: World, key: string, e: Event, a: Answer): World {
    w.(topic := w.topic + Copies(Message(key, Wire(e)), a))
  }

  /** The transaction of `send`: four rows at once. A repeated request id or a repeated primary key violates a
      constraint and rolls everything back. */
  predicate CanCommit(w: World, dto: SendDto, ids: TxIds) {
    && ids.request !in w.requests && ids.payload !in w.payloads && ids.recipient !in w.recipients
    && ids.outbox !in w.outbox
    && forall r | r in w.requests :: w.requests[r].requestId != dto.requestId
  }

  function CommitRows(c: Cipher, w: World, id: Id, o: Origin): World {
    w.(requests := w.requests[id := StoredRequest(NewRequest(id, o))],
       payloads := w.payloads[o.payloadId := StoredPayload(NewPayload(c, id, o))],
       recipients := w.recipients[o.recipientId := StoredRecipient(NewRecipient(id, o))],
       outbox := w.outbox[o.outboxId := StoredOutbox(NewOutbox(c, id, o))],
       origin := w.origin[id := o])
  }
}
