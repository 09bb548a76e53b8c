/** What holds in every reachable state: of the tables, of what each actor has in memory, and of the two
    together. */
module Invariants {
  import opened Json
  import opened Domain
  import opened Crypto
  import opened Events
  import opened World
  import opened Gateway
  import opened Worker
  import opened Pipeline
  import Relay
  import Scheduler

  // ---------------------------------------------------------------- the tables

  type Origins = map<Id, Origin>

  ghost predicate OnTopic(topic: seq<Message>, key: string) {
    exists i :: 0 <= i < |topic| && topic[i].key == key
  }

  /** An outbox row with what the relay and the gateway may change set back. */
  function OutboxCore(o: Outbox): Outbox {
    o.(status := OutboxStatus.Pending, publishedAt := None, errorMessage := None)
  }

  /** The columns of an outbox row that come with its status. */
  predicate EntryStamped(row: Outbox) {
    match row.status
    case Pending => row.publishedAt == None && row.errorMessage == None
    case Published => row.publishedAt.Some? && row.errorMessage == None
    case Failed => row.publishedAt == None && row.errorMessage.Some?
  }

  ghost predicate IsOutboxOf(c: Cipher, row: Outbox, id: Id, o: Origin) {
    StoredOutbox(OutboxCore(row)) == StoredOutbox(NewOutbox(c, id, o)) && EntryStamped(row)
  }

  /** A request row of the table. */
  ghost predicate RequestOk(row: Request, id: Id, o: Origin) {
    && IsRequestOf(row, id, o) && StoredRequest(row) == row
    && (row.status == RequestStatus.Validated || row.status == RequestStatus.Queued
        || row.status == RequestStatus.Completed)
  }

  ghost predicate RequestsOk(origin: Origins, requests: map<Id, Request>) {
    && origin.Keys == requests.Keys
    && (forall r | r in origin :: RequestOk(requests[r], r, origin[r]))
    && (forall r, q | r in origin && q in origin && origin[r].dto.requestId == origin[q].dto.requestId :: r == q)
  }

  ghost predicate PayloadsOk(c: Cipher, origin: Origins, payloads: map<Id, Payload>) {
    && (forall r | r in origin ::
          origin[r].payloadId in payloads
          && payloads[origin[r].payloadId] == StoredPayload(NewPayload(c, r, origin[r])))
    && (forall p | p in payloads ::
          payloads[p].messageRequestId in origin && origin[payloads[p].messageRequestId].payloadId == p)
  }

  ghost predicate RecipientsOk(origin: Origins, recipients: map<Id, Recipient>) {
    && (forall r | r in origin ::
          origin[r].recipientId in recipients && recipients[origin[r].recipientId] == StoredRecipient(NewRecipient(r, origin[r])))
    && (forall p | p in recipients ::
          recipients[p].messageRequestId in origin && origin[recipients[p].messageRequestId].recipientId == p)
  }

  ghost predicate OutboxOk(c: Cipher, origin: Origins, outbox: map<Id, Outbox>) {
    && (forall r | r in origin ::
          origin[r].outboxId in outbox && IsOutboxOf(c, outbox[origin[r].outboxId], r, origin[r]))
    && (forall p | p in outbox ::
          && outbox[p].aggregateId in origin && origin[outbox[p].aggregateId].outboxId == p
          && StoredOutbox(outbox[p]) == outbox[p])
  }

  /** An event that every publisher of its request could have put on the wire. */
  ghost predicate EventOk(c: Cipher, origin: Origins, e: Event) {
    && e.messageRequestId in origin
    && Agrees(e, Wire(FirstEvent(c, e.messageRequestId, origin[e.messageRequestId])))
  }

  ghost predicate TopicOk(c: Cipher, origin: Origins, topic: seq<Message>) {
    forall i | 0 <= i < |topic| :: EventOk(c, origin, topic[i].event) && topic[i].key == topic[i].event.requestId
  }

  /** A status past the first is only ever written once the event is on the topic. */
  ghost predicate StatusesOk(w: World) {
    && (forall r | r in w.requests && w.requests[r].status != RequestStatus.Validated ::
          OnTopic(w.topic, w.requests[r].requestId))
    && (forall p | p in w.outbox && w.outbox[p].status == OutboxStatus.Published ::
          OnTopic(w.topic, w.outbox[p].eventKey))
  }

  const BACKOFF: Time := 60_000

  /** A dispatch row is consistent with its status. */
  ghost predicate Shape(d: Dispatch) {
    && d.maxRetryCount == MAX_RETRY_COUNT && d.channelType != Chat && d.failedAt == None
    && (d.retryCount == 0 || d.retryCount == 1)
    && (d.nextRetryAt.Some? <==> d.status == DispatchStatus.RetryWait)
    && (d.retryCount == 1 <==> d.lastErrorCode == Some(SendErrorCode(d.channelType)))
    && (d.retryCount == 0 <==> d.lastErrorCode == None)
    && (d.status == DispatchStatus.Success || d.retryCount == 1 <==> d.providerMessageId.Some?)
    && (d.successAt.Some? <==> d.providerMessageId.Some?) && d.sentAt == d.successAt
    && (d.providerMessageId.Some? ==> d.providerMessageId.value.0 == d.channelType)
    && (d.lastErrorMessage.Some? <==> d.lastErrorCode.Some?) && d.queuedAt.Some? && d.processingAt.Some?
    && (d.status == DispatchStatus.Processing
        || (d.status == DispatchStatus.Success && d.retryCount == 0)
        || (d.status == DispatchStatus.RetryWait && d.retryCount == 1))
  }

  ghost predicate DispatchOk(origin: Origins, failedAt: map<Id, Time>, id: Id, d: Dispatch) {
    && d.id == id && d.messageRequestId in origin && Shape(d)
    && d.recipientId == origin[d.messageRequestId].recipientId
    && d.channelType == origin[d.messageRequestId].dto.channel
    && (d.retryCount == 1 ==> id in failedAt)
    && (d.status == DispatchStatus.RetryWait ==> d.nextRetryAt == Some(failedAt[id] + BACKOFF))
  }

  ghost predicate DispatchesOk(origin: Origins, dispatches: map<Id, Dispatch>, failedAt: map<Id, Time>) {
    forall d | d in dispatches :: DispatchOk(origin, failedAt, d, dispatches[d])
  }

  const REQUESTED := LogEntry(RequestLog, LogStatus.Processing)
  const SUCCEEDED := LogEntry(SuccessLog, LogStatus.Success)
  const RETRIED := LogEntry(RetryLog, LogStatus.Failed)

  /** A log is REQUEST, then perhaps SUCCESS, then perhaps RETRY, or a beginning of that; a RETRY entry means the
      failure was recorded on the row, a SUCCESS entry that the row is or was successful. */
  ghost predicate LogOk(log: seq<LogEntry>, d: Dispatch) {
    && (log == [] || log == [REQUESTED] || log == [REQUESTED, SUCCEEDED] || log == [REQUESTED, RETRIED]
        || log == [REQUESTED, SUCCEEDED, RETRIED])
    && (RETRIED in log ==> d.retryCount == 1)
    && (SUCCEEDED in log ==> d.status == DispatchStatus.Success || d.retryCount == 1)
    && (d.status == DispatchStatus.Success || d.retryCount == 1 ==> log != [])
  }

  ghost predicate LogsOk(w: World) {
    && (forall d | d in w.logs :: d in w.dispatches)
    && (forall d | d in w.dispatches :: LogOk(LogsOf(w, d), w.dispatches[d]))
  }

  predicate IsSuccess(dispatches: map<Id, Dispatch>, d: Id, request: Id) {
    d in dispatches && dispatches[d].status == DispatchStatus.Success && dispatches[d].messageRequestId == request
  }

  ghost predicate SingleSuccess(dispatches: map<Id, Dispatch>) {
    forall d, e, r :: IsSuccess(dispatches, d, r) && IsSuccess(dispatches, e, r) ==> d == e
  }

  ghost predicate TablesOk(c: Cipher, w: World) {
    && RequestsOk(w.origin, w.requests) && PayloadsOk(c, w.origin, w.payloads)
    && RecipientsOk(w.origin, w.recipients) && OutboxOk(c, w.origin, w.outbox)
    && TopicOk(c, w.origin, w.topic) && StatusesOk(w)
  }

  ghost predicate JobsOk(w: World) {
    && DispatchesOk(w.origin, w.dispatches, w.failedAt) && LogsOk(w) && SingleSuccess(w.dispatches) && w.dlq == []
  }

  // ---------------------------------------------------------------- actors' memory

  /** A request row held in memory. */
  ghost predicate Holds(w: World, r: Request) {
    r.id in w.origin && IsRequestOf(r, r.id, w.origin[r.id])
  }

  /** A request's payload row held in memory. */
  ghost predicate HoldsPayload(c: Cipher, w: World, r: Id, p: Payload) {
    r in w.origin && p == StoredPayload(NewPayload(c, r, w.origin[r]))
  }

  ghost predicate HoldsQueued(w: World, r: Request) {
    Holds(w, r) && r.status == RequestStatus.Queued && OnTopic(w.topic, r.requestId)
  }

  /** An outbox row held in memory. */
  ghost predicate HoldsEntry(c: Cipher, w: World, o: Outbox) {
    && o.aggregateId in w.origin && o.id == w.origin[o.aggregateId].outboxId
    && IsOutboxOf(c, o, o.aggregateId, w.origin[o.aggregateId])
  }

  ghost predicate SendOk(c: Cipher, w: World, pc: SendPc) {
    match pc
    case Start(_, _) => true
    case FindTemplate(_, _) => true
    case CheckAccess(_, dto, t) => t.templateCode == dto.templateCode
    case ReadVariables(_, dto, t) => t.templateCode == dto.templateCode
    case Commit(_, dto, t) => t.templateCode == dto.templateCode
    case Publish(r, o, channel) =>
      && Holds(w, r) && HoldsEntry(c, w, o) && o.status == OutboxStatus.Pending && o.aggregateId == r.id && channel == ChannelName(w.origin[r.id].dto.channel)
    case SaveEntry(r, o, channel) =>
      && Holds(w, r) && HoldsEntry(c, w, o) && o.aggregateId == r.id && channel == ChannelName(w.origin[r.id].dto.channel)
      && o.status == OutboxStatus.Published && OnTopic(w.topic, r.requestId)
    case SaveQueued(r, channel) => HoldsQueued(w, r) && channel == ChannelName(w.origin[r.id].dto.channel)
    case ReadStored(r) => Holds(w, r) && StoredRequest(r) == r
    case ReadRecipient(r, p) => Holds(w, r) && StoredRequest(r) == r && HoldsPayload(c, w, r.id, p)
    case Republish(r, e) => Holds(w, r) && EventOk(c, w.origin, Wire(e)) && e.messageRequestId == r.id
    case SaveRequeued(r, channel) => HoldsQueued(w, r) && channel == ChannelName(w.origin[r.id].dto.channel)
    case Done(reply) => ReplyOk(w, reply)
  }

  /** A reply names the stored request and its channel, and the event is on the topic; the two data-missing errors never go out. */
  ghost predicate ReplyOk(w: World, reply: Reply) {
    match reply
    case Replied(requestId, status, channel) =>
      exists r :: r in w.origin && w.origin[r].dto.requestId == requestId
        && channel == Some(ChannelName(w.origin[r].dto.channel)) && status != RequestStatus.Validated
        && OnTopic(w.topic, requestId)
    case Rejected(code) => code != PayloadNotFound && code != DataMissing
    case Unhandled => true
  }

  ghost predicate RelayOk(c: Cipher, w: World, pc: Relay.RelayPc) {
    match pc
    case Fetch => true
    case Next(q) => forall i | 0 <= i < |q| :: HoldsEntry(c, w, q[i]) && q[i].status == OutboxStatus.Pending
    case Save(o, q) =>
      && HoldsEntry(c, w, o) && (o.status == OutboxStatus.Published || o.status == OutboxStatus.Failed)
      && (o.status == OutboxStatus.Published ==> OnTopic(w.topic, o.eventKey))
      && forall i | 0 <= i < |q| :: HoldsEntry(c, w, q[i]) && q[i].status == OutboxStatus.Pending
    case Done => true
  }

  /** The same dispatch up to what the scheduler changes. */
  ghost predicate SameJob(a: Dispatch, b: Dispatch) {
    a.(status := b.status, processingAt := b.processingAt, nextRetryAt := b.nextRetryAt) == b
  }

  /** A dispatch row in a scheduler's batch: its delivery has failed, was recorded, and has waited its minute. */
  ghost predicate HoldsJob(w: World, d: Dispatch) {
    && d.id in w.dispatches && SameJob(d, w.dispatches[d.id]) && d.retryCount == 1 && Shape(d)
    && d.id in w.failedAt && w.failedAt[d.id] + BACKOFF <= w.now
  }

  ghost predicate SchedOk(c: Cipher, w: World, pc: Scheduler.SchedPc) {
    match pc
    case Fetch => true
    case Next(q) => forall i | 0 <= i < |q| :: HoldsJob(w, q[i])
    case ReadPayload(d, r, q) =>
      && HoldsJob(w, d) && r.Some? && Holds(w, r.value) && StoredRequest(r.value) == r.value
      && r.value.id == d.messageRequestId && forall i | 0 <= i < |q| :: HoldsJob(w, q[i])
    case ReadRecipient(d, r, p, q) =>
      && HoldsJob(w, d) && r.Some? && Holds(w, r.value) && StoredRequest(r.value) == r.value
      && r.value.id == d.messageRequestId && p.Some? && HoldsPayload(c, w, d.messageRequestId, p.value)
      && forall i | 0 <= i < |q| :: HoldsJob(w, q[i])
    case Publish(d, e, q) =>
      && HoldsJob(w, d) && EventOk(c, w.origin, Wire(e)) && e.messageRequestId == d.messageRequestId
      && forall i | 0 <= i < |q| :: HoldsJob(w, q[i])
    case Save(d, q) =>
      && HoldsJob(w, d) && d.status == DispatchStatus.Processing
      && forall i | 0 <= i < |q| :: HoldsJob(w, q[i])
    case Done => true
  }

  /** The event a delivery works on: the message's, with the variables the client sent. */
  ghost predicate EventInHand(w: World, m: Message, e: Event) {
    && m.event.messageRequestId in w.origin
    && e == m.event.(variables := CleanRecord(w.origin[m.event.messageRequestId].dto.variables))
  }

  /** A delivery's own dispatch: in memory exactly as in the table, and the only one that may be SUCCESS. */
  ghost predicate OwnJob(w: World, request: Id, d: Dispatch) {
    && d.id in w.dispatches && w.dispatches[d.id] == d && d.messageRequestId == request && d.retryCount == 0
    && forall e :: IsSuccess(w.dispatches, e, request) ==> e == d.id
  }

  ghost predicate DeliveryOk(w: World, m: Message, pc: WorkerPc) {
    var request := m.event.messageRequestId;
    match pc
    case ReadRequest(e) => EventInHand(w, m, e)
    case CheckSuccess(e, r) => EventInHand(w, m, e) && Holds(w, r) && r.id == request
    case Insert(e, r) =>
      && EventInHand(w, m, e) && Holds(w, r) && r.id == request
      && forall d :: !IsSuccess(w.dispatches, d, request)
    case LogRequest(e, r, d) =>
      && EventInHand(w, m, e) && Holds(w, r) && r.id == request
      && OwnJob(w, request, d) && d.status == DispatchStatus.Processing && LogsOf(w, d.id) == []
    case SaveSuccess(e, r, d) =>
      && EventInHand(w, m, e) && Holds(w, r) && r.id == request
      && OwnJob(w, request, d) && d.status == DispatchStatus.Processing && LogsOf(w, d.id) == [REQUESTED]
    case LogSuccess(e, r, d) =>
      && EventInHand(w, m, e) && Holds(w, r) && r.id == request
      && OwnJob(w, request, d) && d.status == DispatchStatus.Success && LogsOf(w, d.id) == [REQUESTED]
    case SaveCompleted(e, r, d) =>
      && EventInHand(w, m, e) && Holds(w, r) && r.id == request
      && OwnJob(w, request, d) && d.status == DispatchStatus.Success && LogsOf(w, d.id) == [REQUESTED, SUCCEEDED]
    case SaveRetry(d) =>
      && d.id in w.dispatches && w.dispatches[d.id].retryCount == 0
      && DispatchOk(w.origin, w.failedAt, d.id, d) && d.messageRequestId == request
      && w.dispatches[d.id].messageRequestId == request && d.status == DispatchStatus.RetryWait
      && (LogsOf(w, d.id) == [REQUESTED] || LogsOf(w, d.id) == [REQUESTED, SUCCEEDED])
      && forall e :: IsSuccess(w.dispatches, e, request) ==> e == d.id
    case LogRetry(d) =>
      && d.id in w.dispatches && w.dispatches[d.id].retryCount == 1
      && w.dispatches[d.id].messageRequestId == request
      && (LogsOf(w, d.id) == [REQUESTED] || LogsOf(w, d.id) == [REQUESTED, SUCCEEDED])
    case _ => false
  }

  ghost predicate LaneOk(w: World, lane: Lane, k: Consumer) {
    && k.offset <= |w.topic|
    && (lane.channel == Chat ==> k == Consumer(0, None))
    && (k.delivery.Some? ==>
         && k.offset < |w.topic| && w.topic[k.offset].key == lane.key
         && w.topic[k.offset].event.channel == ChannelName(lane.channel)
         && DeliveryOk(w, w.topic[k.offset], k.delivery.value))
  }

  ghost predicate SendsOk(c: Cipher, s: State) { forall call | call in s.sends :: SendOk(c, s.w, s.sends[call]) }
  ghost predicate RelaysOk(c: Cipher, s: State) { forall run | run in s.relays :: RelayOk(c, s.w, s.relays[run]) }
  ghost predicate SchedsOk(c: Cipher, s: State) { forall run | run in s.scheds :: SchedOk(c, s.w, s.scheds[run]) }
  ghost predicate LanesOk(s: State) { forall lane | lane in s.lanes :: LaneOk(s.w, lane, s.lanes[lane]) }

  /** The tables are consistent and every actor's memory fits them. */
  ghost predicate Consistent(c: Cipher, s: State) {
    && TablesOk(c, s.w) && JobsOk(s.w)
    && SendsOk(c, s) && RelaysOk(c, s) && SchedsOk(c, s) && LanesOk(s)
  }

  // ---------------------------------------------------------------- what is still to come

  /** Where a lane's unfinished business begins: past a delivery whose retry row is already saved. */
  function Frontier(k: Consumer): nat {
    if k.delivery.Some? && k.delivery.value.LogRetry? then k.offset + 1 else k.offset
  }

  function LaneOf(w: World, request: Id): Lane
    requires request in w.origin
  {
    Lane(w.origin[request].dto.channel, w.origin[request].dto.requestId)
  }

  /** An event of the request waits on the topic or is being delivered. */
  ghost predicate Waiting(s: State, request: Id)
    requires request in s.w.origin
  {
    var lane := LaneOf(s.w, request);
    exists i :: Frontier(ConsumerOf(s, lane)) <= i < |s.w.topic| && s.w.topic[i].key == lane.key
  }

  /** Some actor has published this outbox row and is about to record that. */
  ghost predicate EntryBeingPublished(sends: map<nat, SendPc>, relays: map<nat, Relay.RelayPc>, entry: Id) {
    || (exists call :: call in sends && sends[call].SaveEntry? && sends[call].entry.id == entry)
    || (exists run :: run in relays && relays[run].Save? && relays[run].entry.id == entry
          && relays[run].entry.status == OutboxStatus.Published)
  }

  /** The relay, or an operator looking at FAILED rows, still has the event to send. */
  ghost predicate InOutbox(s: State, request: Id)
    requires request in s.w.origin
  {
    var entry := s.w.origin[request].outboxId;
    && entry in s.w.outbox && s.w.outbox[entry].status != OutboxStatus.Published && !EntryBeingPublished(s.sends, s.relays, entry)
  }

  /** Some scheduler run has published a retry for this dispatch and is about to record that. */
  ghost predicate JobBeingRetried(scheds: map<nat, Scheduler.SchedPc>, d: Id) {
    exists run :: run in scheds && scheds[run].Save? && scheds[run].dispatch.id == d
  }

  ghost predicate AwaitsRetry(dispatches: map<Id, Dispatch>, scheds: map<nat, Scheduler.SchedPc>, d: Id, request: Id) {
    && d in dispatches && dispatches[d].messageRequestId == request
    && dispatches[d].status == DispatchStatus.RetryWait && !JobBeingRetried(scheds, d)
  }

  /** The request has been delivered or will be attempted again. A row that some actor is about to mark as published
      or retried does not count. */
  ghost predicate Accounted(s: State, request: Id)
    requires request in s.w.origin
  {
    || (exists d :: IsSuccess(s.w.dispatches, d, request))
    || Waiting(s, request)
    || InOutbox(s, request)
    || (exists d :: AwaitsRetry(s.w.dispatches, s.scheds, d, request))
  }

  // ---------------------------------------------------------------- success is final

  /** The dispatch a delivery may still change. */
  function Busy(k: Consumer): Option<Id> {
    match k.delivery
    case None => None
    case Some(pc) =>
      match pc
      case LogRequest(_, _, d) => Some(d.id)
      case SaveSuccess(_, _, d) => Some(d.id)
      case LogSuccess(_, _, d) => Some(d.id)
      case SaveCompleted(_, _, d) => Some(d.id)
      case SaveRetry(d) => Some(d.id)
      case _ => None
  }

  /** A SUCCESS dispatch whose `process` call is over. */
  ghost predicate Settled(s: State, d: Id, request: Id) {
    && request in s.w.origin && IsSuccess(s.w.dispatches, d, request)
    && Busy(ConsumerOf(s, LaneOf(s.w, request))) != Some(d)
  }

  ghost predicate CompletedOk(s: State) {
    forall r | r in s.w.requests && s.w.requests[r].status == RequestStatus.Completed :: exists d :: Settled(s, d, r)
  }

  /** The invariant of the pipeline. */
  ghost predicate Inv(c: Cipher, s: State) {
    Consistent(c, s) && CompletedOk(s)
  }
}
