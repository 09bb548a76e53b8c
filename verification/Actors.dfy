/** Each actor's step keeps the tables and its own memory; what another actor does meanwhile does no harm. */
module Actors {
  import opened Json
  import opened Domain
  import opened Crypto
  import opened Events
  import opened World
  import opened Gateway
  import opened Worker
  import opened Pipeline
  import opened Invariants
  import opened Steps
  import opened Jobs
  import Relay
  import Scheduler

  // ---------------------------------------------------------------- stability

  lemma OnTopicStable(w: World, w': World, key: string)
    requires Evolves(w, w') && OnTopic(w.topic, key)
    ensures OnTopic(w'.topic, key)
  {
    var i :| 0 <= i < |w.topic| && w.topic[i].key == key;
    assert w'.topic[i].key == key;
  }

  lemma SendStable(c: Cipher, w: World, w': World, pc: SendPc)
    requires SendOk(c, w, pc) && Evolves(w, w')
    ensures SendOk(c, w', pc)
  {
    hide IsRequestOf, IsOutboxOf, Agrees, OnTopic, StoredRequest, StoredPayload, NewPayload, Wire, FirstEvent;
    forall key | OnTopic(w.topic, key) ensures OnTopic(w'.topic, key) { OnTopicStable(w, w', key); }
  }

  lemma RelayStable(c: Cipher, w: World, w': World, pc: Relay.RelayPc)
    requires RelayOk(c, w, pc) && Evolves(w, w')
    ensures RelayOk(c, w', pc)
  {
    hide IsOutboxOf, OnTopic;
    forall key | OnTopic(w.topic, key) ensures OnTopic(w'.topic, key) { OnTopicStable(w, w', key); }
  }

  lemma JobStable(w: World, w': World, d: Dispatch)
    requires HoldsJob(w, d) && Evolves(w, w')
    ensures HoldsJob(w', d)
  {
    hide Shape;
    assert SameJob(w'.dispatches[d.id], w.dispatches[d.id]);
  }

  lemma SchedStable(c: Cipher, w: World, w': World, pc: Scheduler.SchedPc)
    requires SchedOk(c, w, pc) && Evolves(w, w')
    ensures SchedOk(c, w', pc)
  {
    hide HoldsJob, Evolves, Agrees, Wire, FirstEvent, IsRequestOf, StoredRequest, StoredPayload, NewPayload;
    forall d | HoldsJob(w, d) ensures HoldsJob(w', d) { JobStable(w, w', d); }
    assert Evolves(w, w') ==> forall r | r in w.origin :: r in w'.origin && w'.origin[r] == w.origin[r] by {
      OriginsStay(w, w');
    }
  }

  lemma OriginsStay(w: World, w': World)
    requires Evolves(w, w')
    ensures forall r | r in w.origin :: r in w'.origin && w'.origin[r] == w.origin[r]
  {
  }

  lemma SuccessStable(w: World, w': World, request: Id, d: Id)
    requires Untouched(w, w', request) && IsSuccess(w'.dispatches, d, request)
    ensures IsSuccess(w.dispatches, d, request)
  {
    assert RowKept(w, w', d);
  }

  lemma WaitingRowStable(w: World, w': World, d: Dispatch)
    requires DispatchOk(w.origin, w.failedAt, d.id, d) && RowKept(w, w', d.id) && Evolves(w, w')
    ensures DispatchOk(w'.origin, w'.failedAt, d.id, d)
  {
    hide LogsOf;
  }

  lemma DeliveryStable(w: World, w': World, m: Message, pc: WorkerPc)
    requires DeliveryOk(w, m, pc) && Evolves(w, w') && Untouched(w, w', m.event.messageRequestId)
    ensures DeliveryOk(w', m, pc)
  {
    hide IsRequestOf, CleanRecord, Shape, LogsOf, DispatchOk;
    forall d | IsSuccess(w'.dispatches, d, m.event.messageRequestId)
      ensures IsSuccess(w.dispatches, d, m.event.messageRequestId)
    {
      SuccessStable(w, w', m.event.messageRequestId, d);
    }
    forall d | d in w.dispatches && w.dispatches[d].messageRequestId == m.event.messageRequestId
      ensures RowKept(w, w', d)
    {
      assert d in w'.dispatches && w'.dispatches[d].messageRequestId == m.event.messageRequestId;
    }
    if pc.LogRetry? {
      assert SameJob(w'.dispatches[pc.dispatch.id], w.dispatches[pc.dispatch.id]);
      assert DeliveryOk(w', m, pc);
    } else if pc.SaveRetry? {
      var d := pc.dispatch;
      assert RowKept(w, w', d.id);
      WaitingRowStable(w, w', d);
      assert w'.dispatches[d.id].retryCount == 0;
      assert LogsOf(w', d.id) == LogsOf(w, d.id);
      assert DeliveryOk(w', m, pc);
    } else if pc.LogRequest? || pc.SaveSuccess? || pc.LogSuccess? || pc.SaveCompleted? {
      assert RowKept(w, w', pc.dispatch.id);
      assert OwnJob(w', m.event.messageRequestId, pc.dispatch);
      assert DeliveryOk(w', m, pc);
    } else {
      assert DeliveryOk(w', m, pc);
    }
  }

  lemma LaneStable(w: World, w': World, lane: Lane, k: Consumer)
    requires LaneOk(w, lane, k) && Evolves(w, w')
    requires k.delivery.Some? ==> Untouched(w, w', w.topic[k.offset].event.messageRequestId)
    ensures LaneOk(w', lane, k)
  {
    hide DeliveryOk, Untouched;
    if k.delivery.Some? {
      DeliveryStable(w, w', w.topic[k.offset], k.delivery.value);
    }
  }

  // ---------------------------------------------------------------- the gateway

  /** A step that changes no dispatch keeps the tables. */
  ghost predicate QuietStep(c: Cipher, w: World, w': World) {
    TablesOk(c, w') && JobsOk(w') && Evolves(w, w') && Quiet(w, w')
  }

  lemma NoStep(c: Cipher, w: World)
    requires TablesOk(c, w) && JobsOk(w)
    ensures QuietStep(c, w, w)
  {
    hide TablesOk, JobsOk;
    forall d | d in w.dispatches ensures SameJob(w.dispatches[d], w.dispatches[d]) { SameJobReflexive(w.dispatches[d]); }
  }

  /** A row that the first read finds is held as it is stored, and answers truly. */
  lemma FoundRow(c: Cipher, w: World, id: Id)
    requires TablesOk(c, w) && id in w.requests
    ensures var r := w.requests[id];
      && Holds(w, r) && StoredRequest(r) == r
      && (r.status != RequestStatus.Validated ==> ReplyOk(w, ToResponse(r, None)))
  {
    hide PayloadsOk, RecipientsOk, OutboxOk, TopicOk, NewRequest, IsRequestOf, ReceiverToRecord, CleanRecord,
         StoredRequest, ReadString, ReadRecord, AsRecord, OnTopic;
    RequestKeys(w.origin, w.requests);
    assert RequestOk(w.requests[id], id, w.origin[id]);
    MetadataReads(w.requests[id], id, w.origin[id]);
  }

  lemma StartKeeps(c: Cipher, w: World, pc: SendPc, a: Answer)
    requires TablesOk(c, w) && pc.Start?
    ensures var (w', pc') := SendStep(c, w, pc, a); w' == w && SendOk(c, w, pc')
  {
    hide TablesOk, ToResponse, StoredRequest, Holds, ReplyOk, FindRequest;
    var found := FindRequest(w, pc.dto.requestId);
    if found.Some? {
      var id :| id in w.requests && w.requests[id].requestId == pc.dto.requestId && found.value == w.requests[id];
      FoundRow(c, w, id);
    }
    assert ReplyOk(w, Unhandled) by { UnhandledIsOk(w); }
  }

  lemma UnhandledIsOk(w: World)
    ensures ReplyOk(w, Unhandled)
  {
  }

  lemma CommitStep(c: Cipher, w: World, pc: SendPc, a: Answer)
    requires TablesOk(c, w) && JobsOk(w) && SendOk(c, w, pc) && pc.Commit? && a.ok && CanCommit(w, pc.dto, a.tx)
    ensures var (w', pc') := SendStep(c, w, pc, a); QuietStep(c, w, w') && SendOk(c, w', pc')
  {
    hide TablesOk, JobsOk, IsRequestOf, IsOutboxOf, RequestMetadata, FirstEvent, Evolves, CanCommit;
    var o := Origin(pc.clientAppId, pc.dto, pc.template.id, pc.template.templateCode, w.now, a.iv, a.tx.payload,
                    a.tx.recipient, a.tx.outbox);
    assert CanCommit(w, o.dto, TxIds(a.tx.request, o.payloadId, o.recipientId, o.outboxId)) by {
      assert a.tx == TxIds(a.tx.request, o.payloadId, o.recipientId, o.outboxId);
    }
    CommitKeeps(c, w, a.tx.request, o);
  }

  /** Publishing an event in hand; a publish that returned has it on the topic. */
  lemma PublishStep(c: Cipher, w: World, e: Event, r: Id, a: Answer)
    requires TablesOk(c, w) && JobsOk(w) && EventOk(c, w.origin, Wire(e)) && e.messageRequestId == r
    ensures var w' := PublishSend(w, e, a);
      && QuietStep(c, w, w') && (a.ok ==> OnTopic(w'.topic, w.origin[r].dto.requestId)) && w'.outbox == w.outbox
  {
    hide TablesOk, JobsOk, EventOk, OnTopic, Evolves, Agrees;
    PublishKeeps(c, w, e, a);
    EventFacts(c, w.origin, Wire(e));
  }

  lemma EntryEvent(c: Cipher, w: World, o: Outbox)
    requires HoldsEntry(c, w, o)
    ensures EventOk(c, w.origin, Wire(o.payload)) && o.payload.messageRequestId == o.aggregateId
    ensures o.eventType == MessageRequestCreated && o.eventKey == w.origin[o.aggregateId].dto.requestId
  {
    hide CleanRecord, IsOutboxOf, Encrypt, Masking.Mask, RequestMetadata;
    OutboxIdentity(c, o, o.aggregateId, w.origin[o.aggregateId]);
    FirstEventAgrees(c, o.aggregateId, w.origin[o.aggregateId]);
  }

  lemma FirstEventAgrees(c: Cipher, id: Id, o: Origin)
    ensures Agrees(Wire(FirstEvent(c, id, o)), Wire(FirstEvent(c, id, o)))
    ensures FirstEvent(c, id, o).messageRequestId == id
  {
    var sent := ReceiverToRecord(o.dto.receiver);
    forall k | k in CleanRecord(sent) ensures k in RECEIVER_KEYS { CleanRecordAt(sent, k); }
  }

  lemma ReadStoredKeeps(c: Cipher, w: World, pc: SendPc, a: Answer)
    requires TablesOk(c, w) && SendOk(c, w, pc) && pc.ReadStored?
    ensures var (w', pc') := SendStep(c, w, pc, a); w' == w && SendOk(c, w, pc')
  {
    hide TablesOk, IsRequestOf, StoredRequest, FindPayload, NewPayload, StoredPayload;
    PayloadFound(c, w, pc.request.id);
  }

  lemma ReadRecipientKeeps(c: Cipher, w: World, pc: SendPc, a: Answer)
    requires Faithful(c) && TablesOk(c, w) && SendOk(c, w, pc) && pc.ReadRecipient?
    ensures var (w', pc') := SendStep(c, w, pc, a); w' == w && SendOk(c, w, pc')
  {
    hide TablesOk, IsRequestOf, ResendEvent, Faithful, StoredRequest, EventOk, FindRecipient, NewPayload, StoredPayload;
    ResendData(c, w, pc.request);
  }

  /** For every committed request the re-send path finds its data and rebuilds a proper event. */
  lemma ResendData(c: Cipher, w: World, r: Request)
    requires Faithful(c) && TablesOk(c, w) && Holds(w, r) && StoredRequest(r) == r
    ensures var e := ResendEvent(r, StoredPayload(NewPayload(c, r.id, w.origin[r.id])), FindRecipient(w, r.id));
      e.Some? && EventOk(c, w.origin, Wire(e.value)) && e.value.messageRequestId == r.id
  {
    hide RequestsOk, OutboxOk, TopicOk, StatusesOk, IsRequestOf, ResendEvent, NewOutbox, NewPayload, StoredPayload,
         NewRecipient, StoredRecipient, Faithful, StoredRequest, Wire, Agrees, FirstEvent, FindPayload, FindRecipient;
    var o := w.origin[r.id];
    StoredRows(c, w, r.id);
    ResendRebuildsTheEvent(c, r, r.id, o);
    ResendIsOk(c, r.id, o);
    WireKeepsIds(StoredOutbox(NewOutbox(c, r.id, o)).payload);
  }

  lemma WireKeepsIds(e: Event)
    ensures Wire(e).messageRequestId == e.messageRequestId && Wire(e).requestId == e.requestId
  {
  }

  /** The payload and recipient that the queries find are the request's own. */
  lemma StoredRows(c: Cipher, w: World, id: Id)
    requires PayloadsOk(c, w.origin, w.payloads) && RecipientsOk(w.origin, w.recipients) && id in w.origin
    ensures FindPayload(w, id) == Some(StoredPayload(NewPayload(c, id, w.origin[id])))
    ensures FindRecipient(w, id) == Some(StoredRecipient(NewRecipient(id, w.origin[id])))
  {
    hide CleanRecord, Encrypt, Masking.Mask, Masking.Lower, FieldColumn;
    var o := w.origin[id];
    assert w.payloads[o.payloadId].messageRequestId == id;
    assert w.recipients[o.recipientId].messageRequestId == id;
    assert IsOldestRecipient(w, id, o.recipientId);
  }

  lemma PayloadFound(c: Cipher, w: World, id: Id)
    requires TablesOk(c, w) && id in w.origin
    ensures FindPayload(w, id) == Some(StoredPayload(NewPayload(c, id, w.origin[id])))
  {
    hide RequestsOk, PayloadsOk, RecipientsOk, OutboxOk, TopicOk, StatusesOk, FindPayload, NewPayload, StoredPayload;
    StoredRows(c, w, id);
  }

  lemma ResendIsOk(c: Cipher, id: Id, o: Origin)
    ensures var e := StoredOutbox(NewOutbox(c, id, o)).payload;
      && Wire(e) == Wire(FirstEvent(c, id, o)) && e.messageRequestId == id && e.channel == ChannelName(o.dto.channel)
      && Agrees(Wire(e), Wire(FirstEvent(c, id, o)))
  {
    WireTwice(FirstEvent(c, id, o));
    FirstEventAgrees(c, id, o);
  }

  lemma QueuedHolds(w: World, w': World, r: Request, now: Time)
    requires Holds(w, r) && Evolves(w, w') && OnTopic(w'.topic, w.origin[r.id].dto.requestId)
    ensures HoldsQueued(w', MarkQueued(r, now))
  {
    hide RequestMetadata, CleanRecord;
    RequestIdentity(r, r.id, w.origin[r.id]);
  }

  lemma SaveQueuedKeeps(c: Cipher, w: World, r: Request, channel: string)
    requires TablesOk(c, w) && JobsOk(w) && HoldsQueued(w, r) && channel == ChannelName(w.origin[r.id].dto.channel)
    ensures QuietStep(c, w, SaveRequest(w, r)) && ReplyOk(SaveRequest(w, r), ToResponse(r, Some(channel)))
  {
    hide TablesOk, JobsOk, IsRequestOf, Evolves;
    RequestIdentity(r, r.id, w.origin[r.id]);
    SaveRequestKeeps(c, w, r);
  }

  /** Every step of `send`, from any point, whatever fails. */
  lemma SendKeeps(c: Cipher, w: World, pc: SendPc, a: Answer)
    requires Faithful(c) && TablesOk(c, w) && JobsOk(w) && SendOk(c, w, pc)
    ensures var (w', pc') := SendStep(c, w, pc, a); QuietStep(c, w, w') && SendOk(c, w', pc')
  {
    hide TablesOk, JobsOk, QuietStep, IsRequestOf, IsOutboxOf, Agrees, OnTopic, Evolves, CommitRows, CanCommit, Faithful,
         FirstEvent;
    NoStep(c, w);
    match pc
    case Start(_, _) => StartKeeps(c, w, pc, a);
    case FindTemplate(_, _) =>
    case CheckAccess(_, _, _) =>
    case ReadVariables(_, _, _) =>
    case Commit(_, _, _) => if a.ok && CanCommit(w, pc.dto, a.tx) { CommitStep(c, w, pc, a); }
    case Publish(r, o, _) => PublishFirst(c, w, pc, a);
    case SaveEntry(r, o, _) => SaveEntryKeeps(c, w, pc, a);
    case SaveQueued(r, channel) => if a.ok { SaveQueuedKeeps(c, w, r, channel); }
    case ReadStored(_) => ReadStoredKeeps(c, w, pc, a);
    case ReadRecipient(_, _) => ReadRecipientKeeps(c, w, pc, a);
    case Republish(r, e) => RepublishKeeps(c, w, pc, a);
    case SaveRequeued(r, channel) => if a.ok { SaveQueuedKeeps(c, w, r, channel); }
    case Done(_) =>
  }

  lemma PublishFirst(c: Cipher, w: World, pc: SendPc, a: Answer)
    requires TablesOk(c, w) && JobsOk(w) && SendOk(c, w, pc) && pc.Publish?
    ensures var (w', pc') := SendStep(c, w, pc, a); QuietStep(c, w, w') && SendOk(c, w', pc')
  {
    hide TablesOk, JobsOk, IsRequestOf, EventOk, OnTopic, StoredOutbox, NewOutbox;
    EntryEvent(c, w, pc.entry);
    PublishStep(c, w, pc.entry.payload, pc.entry.aggregateId, a);
    RequestIdentity(pc.request, pc.request.id, w.origin[pc.request.id]);
  }

  lemma SaveEntryKeeps(c: Cipher, w: World, pc: SendPc, a: Answer)
    requires TablesOk(c, w) && JobsOk(w) && SendOk(c, w, pc) && pc.SaveEntry?
    ensures var (w', pc') := SendStep(c, w, pc, a); QuietStep(c, w, w') && SendOk(c, w', pc')
  {
    hide TablesOk, JobsOk, IsRequestOf, IsOutboxOf, OnTopic, Evolves, HoldsQueued;
    NoStep(c, w);
    RequestIdentity(pc.request, pc.request.id, w.origin[pc.request.id]);
    OutboxIdentity(c, pc.entry, pc.entry.aggregateId, w.origin[pc.entry.aggregateId]);
    if a.ok {
      SaveOutboxKeeps(c, w, pc.entry);
      QueuedHolds(w, SaveOutbox(w, pc.entry), pc.request, w.now);
    }
  }

  lemma RepublishKeeps(c: Cipher, w: World, pc: SendPc, a: Answer)
    requires TablesOk(c, w) && JobsOk(w) && SendOk(c, w, pc) && pc.Republish?
    ensures var (w', pc') := SendStep(c, w, pc, a); QuietStep(c, w, w') && SendOk(c, w', pc')
  {
    hide TablesOk, JobsOk, IsRequestOf, EventOk, OnTopic, Evolves, HoldsQueued;
    PublishStep(c, w, pc.event, pc.request.id, a);
    EventFacts(c, w.origin, Wire(pc.event));
    if a.ok {
      QueuedHolds(w, PublishSend(w, pc.event, a), pc.request, w.now);
    }
  }

  // ---------------------------------------------------------------- the relay

  lemma RelayKeeps(c: Cipher, w: World, pc: Relay.RelayPc, a: Answer)
    requires TablesOk(c, w) && JobsOk(w) && RelayOk(c, w, pc)
    ensures var (w', pc') := Relay.RelayStep(w, pc, a); QuietStep(c, w, w') && RelayOk(c, w', pc')
  {
    hide TablesOk, JobsOk, QuietStep, IsOutboxOf, OnTopic, Evolves;
    NoStep(c, w);
    match pc
    case Fetch => if a.ok && Relay.IsPendingBatch(w.outbox, a.outboxRows) { FetchedEntries(c, w, a.outboxRows); }
    case Next(q) => if q != [] { RelayPublishes(c, w, pc, a); }
    case Save(o, q) => if a.ok { RelaySaves(c, w, pc, a); }
    case Done =>
  }

  lemma FetchedEntries(c: Cipher, w: World, rows: seq<Outbox>)
    requires TablesOk(c, w) && Relay.IsPendingBatch(w.outbox, rows)
    ensures forall i | 0 <= i < |rows| :: HoldsEntry(c, w, rows[i])
  {
    hide RequestsOk, PayloadsOk, RecipientsOk, TopicOk, StatusesOk, IsOutboxOf, StoredOutbox;
    forall i | 0 <= i < |rows| ensures HoldsEntry(c, w, rows[i]) {
      var id := rows[i].id;
      assert IsOutboxOf(c, w.outbox[id], w.outbox[id].aggregateId, w.origin[w.outbox[id].aggregateId]);
    }
  }

  lemma RelayPublishes(c: Cipher, w: World, pc: Relay.RelayPc, a: Answer)
    requires TablesOk(c, w) && JobsOk(w) && RelayOk(c, w, pc) && pc.Next? && pc.queue != []
    ensures var (w', pc') := Relay.RelayStep(w, pc, a); QuietStep(c, w, w') && RelayOk(c, w', pc')
  {
    hide TablesOk, JobsOk, EventOk, OnTopic, StoredOutbox, NewOutbox;
    var o := pc.queue[0];
    EntryEvent(c, w, o);
    PublishStep(c, w, o.payload, o.aggregateId, a);
  }

  lemma RelaySaves(c: Cipher, w: World, pc: Relay.RelayPc, a: Answer)
    requires TablesOk(c, w) && JobsOk(w) && RelayOk(c, w, pc) && pc.Save? && a.ok
    ensures var (w', pc') := Relay.RelayStep(w, pc, a); QuietStep(c, w, w') && RelayOk(c, w', pc')
  {
    hide TablesOk, JobsOk, IsOutboxOf, OnTopic, Evolves;
    SaveOutboxKeeps(c, w, pc.entry);
  }

  // ---------------------------------------------------------------- the scheduler

  /** A scheduler step keeps the tables and every dispatch's own outcome. */
  ghost predicate SchedStepKeeps(c: Cipher, w: World, w': World) {
    TablesOk(c, w') && JobsOk(w') && Evolves(w, w') && AllKept(w, w')
  }

  lemma QuietIsKept(c: Cipher, w: World, w': World)
    requires JobsOk(w) && QuietStep(c, w, w')
    ensures SchedStepKeeps(c, w, w')
  {
    hide TablesOk;
    QuietKeepsAll(w, w');
  }

  /** Every step of the scheduler; the missing-data branch is never entered. */
  lemma SchedKeeps(c: Cipher, w: World, pc: Scheduler.SchedPc, a: Answer)
    requires Faithful(c) && TablesOk(c, w) && JobsOk(w) && SchedOk(c, w, pc)
    ensures var (w', pc') := Scheduler.SchedStep(w, pc, a); SchedStepKeeps(c, w, w') && SchedOk(c, w', pc')
  {
    hide TablesOk, JobsOk, QuietStep, SchedStepKeeps, EventOk, HoldsJob, Evolves, Faithful, RetryEvent;
    NoStep(c, w);
    QuietIsKept(c, w, w);
    match pc
    case Fetch => if a.ok && Scheduler.IsRetryBatch(w, a.dispatchRows) { FetchedJobs(w, a.dispatchRows); }
    case Next(q) => if q != [] { RequestRead(c, w, pc, a); }
    case ReadPayload(_, _, _) => PayloadRead(c, w, pc, a);
    case ReadRecipient(_, _, _, _) => RecipientRead(c, w, pc, a);
    case Publish(d, e, q) => RetryPublished(c, w, pc, a);
    case Save(d, q) => if a.ok { RetryRecorded(c, w, pc, a); }
    case Done =>
  }

  lemma FetchedJobs(w: World, rows: seq<Dispatch>)
    requires JobsOk(w) && Scheduler.IsRetryBatch(w, rows)
    ensures forall i | 0 <= i < |rows| :: HoldsJob(w, rows[i])
  {
    forall i | 0 <= i < |rows| ensures HoldsJob(w, rows[i]) {
      assert DispatchOk(w.origin, w.failedAt, rows[i].id, w.dispatches[rows[i].id]);
      SameJobReflexive(rows[i]);
    }
  }

  lemma JobOwner(w: World, d: Dispatch)
    requires JobsOk(w) && HoldsJob(w, d)
    ensures d.messageRequestId in w.origin && d.recipientId == w.origin[d.messageRequestId].recipientId
  {
    hide Shape, LogsOk, SingleSuccess;
    assert DispatchOk(w.origin, w.failedAt, d.id, w.dispatches[d.id]);
  }

  lemma RequestRead(c: Cipher, w: World, pc: Scheduler.SchedPc, a: Answer)
    requires TablesOk(c, w) && JobsOk(w) && SchedOk(c, w, pc) && pc.Next? && pc.queue != []
    ensures var (w', pc') := Scheduler.SchedStep(w, pc, a); w' == w && SchedOk(c, w', pc')
  {
    hide PayloadsOk, RecipientsOk, OutboxOk, TopicOk, StatusesOk, JobsOk, HoldsJob, IsRequestOf, StoredRequest;
    var d := pc.queue[0];
    assert HoldsJob(w, d);
    JobOwner(w, d);
    RequestKeys(w.origin, w.requests);
    assert RequestOk(w.requests[d.messageRequestId], d.messageRequestId, w.origin[d.messageRequestId]);
    StoredIdentity(w.requests[d.messageRequestId], d.messageRequestId, w.origin[d.messageRequestId]);
  }

  lemma StoredIdentity(row: Request, r: Id, o: Origin)
    requires RequestOk(row, r, o)
    ensures row.id == r
  {
    hide CleanRecord, RequestMetadata;
  }

  lemma PayloadRead(c: Cipher, w: World, pc: Scheduler.SchedPc, a: Answer)
    requires TablesOk(c, w) && JobsOk(w) && SchedOk(c, w, pc) && pc.ReadPayload?
    ensures var (w', pc') := Scheduler.SchedStep(w, pc, a); w' == w && SchedOk(c, w', pc')
  {
    hide TablesOk, JobsOk, HoldsJob, IsRequestOf, StoredRequest, FindPayload, NewPayload, StoredPayload;
    PayloadFound(c, w, pc.dispatch.messageRequestId);
  }

  /** The scheduler finds its data and rebuilds a proper event. */
  lemma RecipientRead(c: Cipher, w: World, pc: Scheduler.SchedPc, a: Answer)
    requires Faithful(c) && TablesOk(c, w) && JobsOk(w) && SchedOk(c, w, pc) && pc.ReadRecipient?
    ensures var (w', pc') := Scheduler.SchedStep(w, pc, a); w' == w && SchedOk(c, w', pc')
  {
    hide RequestsOk, PayloadsOk, OutboxOk, TopicOk, StatusesOk, JobsOk, HoldsJob, IsRequestOf, StoredRequest, NewPayload,
         StoredPayload, NewRecipient, StoredRecipient, RetryEvent, Faithful, Wire, Agrees, FirstEvent;
    var id, r := pc.dispatch.messageRequestId, pc.request.value;
    var o := w.origin[id];
    JobOwner(w, pc.dispatch);
    var e := RetryEvent(r, StoredPayload(NewPayload(c, id, o)), StoredRecipient(NewRecipient(id, o)));
    RetryRebuildsTheEvent(c, r, id, o);
    RetryOfRequest(r, StoredPayload(NewPayload(c, id, o)), StoredRecipient(NewRecipient(id, o)));
    assert Wire(e) == e;
  }

  lemma RetryOfRequest(r: Request, p: Payload, t: Recipient)
    ensures RetryEvent(r, p, t).messageRequestId == r.id
  {
  }

  lemma RetryPublished(c: Cipher, w: World, pc: Scheduler.SchedPc, a: Answer)
    requires TablesOk(c, w) && JobsOk(w) && SchedOk(c, w, pc) && pc.Publish?
    ensures var (w', pc') := Scheduler.SchedStep(w, pc, a); SchedStepKeeps(c, w, w') && SchedOk(c, w', pc')
  {
    hide TablesOk, JobsOk, EventOk, HoldsJob, Evolves, OnTopic;
    PublishStep(c, w, pc.event, pc.dispatch.messageRequestId, a);
    var w' := PublishSend(w, pc.event, a);
    QuietIsKept(c, w, w');
    forall d | HoldsJob(w, d) ensures HoldsJob(w', d) { JobStable(w, w', d); }
    RescheduledHolds(w', pc.dispatch, w.now);
  }

  lemma RescheduledHolds(w: World, d: Dispatch, now: Time)
    requires HoldsJob(w, d)
    ensures HoldsJob(w, Scheduler.Reschedule(d, now))
  {
  }

  lemma RetryRecorded(c: Cipher, w: World, pc: Scheduler.SchedPc, a: Answer)
    requires TablesOk(c, w) && JobsOk(w) && SchedOk(c, w, pc) && pc.Save? && a.ok
    ensures var (w', pc') := Scheduler.SchedStep(w, pc, a); SchedStepKeeps(c, w, w') && SchedOk(c, w', pc')
  {
    hide TablesOk, JobsOk, HoldsJob, Evolves;
    RescheduleKeeps(c, w, pc.dispatch);
    var w' := SaveDispatch(w, pc.dispatch);
    forall d | HoldsJob(w, d) ensures HoldsJob(w', d) { JobStable(w, w', d); }
  }
}
