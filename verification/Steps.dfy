/** Single writes keep the tables consistent, and what every step guarantees to the other actors. */
module Steps {
  import opened Json
  import opened Domain
  import opened Crypto
  import opened Events
  import opened World
  import opened Invariants
  import Masking

  // ---------------------------------------------------------------- guarantees

  /** What every step of every actor keeps: the origins, the topic so far, a status past VALIDATED, and the
      recorded failures. */
  ghost predicate Evolves(w: World, w': World) {
    && w.now <= w'.now
    && (forall r | r in w.origin :: r in w'.origin && w'.origin[r] == w.origin[r])
    && |w.topic| <= |w'.topic| && (forall i | 0 <= i < |w.topic| :: w'.topic[i] == w.topic[i])
    && (forall r | r in w.requests && w.requests[r].status != RequestStatus.Validated ::
          r in w'.requests && w'.requests[r].status != RequestStatus.Validated)
    && (forall d | d in w.dispatches ::
          d in w'.dispatches && w'.dispatches[d].messageRequestId == w.dispatches[d].messageRequestId)
    && (forall d | d in w.dispatches && w.dispatches[d].retryCount == 1 ::
          SameJob(w'.dispatches[d], w.dispatches[d]) && (d in w.failedAt ==> d in w'.failedAt && w'.failedAt[d] == w.failedAt[d]))
  }

  /** One dispatch as its own worker left it: others touch none but already failed ones, and never revive those. */
  ghost predicate RowKept(w: World, w': World, d: Id) {
    && d in w.dispatches && d in w'.dispatches
    && w'.dispatches[d].messageRequestId == w.dispatches[d].messageRequestId
    && (w.dispatches[d].retryCount != 1 ==> w'.dispatches[d] == w.dispatches[d])
    && (w.dispatches[d].retryCount == 1 ==> w'.dispatches[d].status != DispatchStatus.Success)
    && LogsOf(w', d) == LogsOf(w, d)
    && (d in w'.failedAt <==> d in w.failedAt) && (d in w.failedAt ==> w'.failedAt[d] == w.failedAt[d])
  }

  /** All dispatches of one request are kept, and it gains none. */
  ghost predicate Untouched(w: World, w': World, request: Id) {
    forall d | d in w'.dispatches && w'.dispatches[d].messageRequestId == request :: RowKept(w, w', d)
  }

  /** The dispatches of every other request are the very same. */
  ghost predicate OthersKept(w: World, w': World, request: Id) {
    forall d | d in w'.dispatches && w'.dispatches[d].messageRequestId != request ::
      RowKept(w, w', d) && w'.dispatches[d] == w.dispatches[d]
  }

  /** Every dispatch is kept. */
  ghost predicate AllKept(w: World, w': World) {
    forall d | d in w'.dispatches :: RowKept(w, w', d)
  }

  /** No dispatch, log or failure changes at all. */
  ghost predicate Quiet(w: World, w': World) {
    w'.dispatches == w.dispatches && w'.logs == w.logs && w'.failedAt == w.failedAt && w'.dlq == w.dlq
  }

  lemma EvolvesTransitively(a: World, b: World, c: World)
    requires Evolves(a, b) && Evolves(b, c)
    ensures Evolves(a, c)
  {
    forall d | d in a.dispatches && a.dispatches[d].retryCount == 1
      ensures SameJob(c.dispatches[d], a.dispatches[d])
    {
      assert SameJob(b.dispatches[d], a.dispatches[d]) && b.dispatches[d].retryCount == 1;
    }
  }

  lemma QuietKeepsAll(w: World, w': World)
    requires JobsOk(w) && Quiet(w, w')
    ensures AllKept(w, w')
  {
    forall d | d in w'.dispatches ensures RowKept(w, w', d) {
      assert DispatchOk(w.origin, w.failedAt, d, w.dispatches[d]);
    }
  }

  lemma QuietKeepsJobs(w: World, w': World)
    requires JobsOk(w) && Quiet(w, w')
    requires forall r | r in w.origin :: r in w'.origin && w'.origin[r] == w.origin[r]
    ensures JobsOk(w')
  {
    forall d | d in w'.dispatches ensures DispatchOk(w'.origin, w'.failedAt, d, w'.dispatches[d]) {
      assert DispatchOk(w.origin, w.failedAt, d, w.dispatches[d]);
    }
    forall d | d in w'.dispatches ensures LogOk(LogsOf(w', d), w'.dispatches[d]) {
      assert LogOk(LogsOf(w, d), w.dispatches[d]);
    }
  }

  // ---------------------------------------------------------------- publishing

  lemma OnTopicStays(topic: seq<Message>, more: seq<Message>, key: string)
    requires OnTopic(topic, key)
    ensures OnTopic(topic + more, key)
  {
    var i :| 0 <= i < |topic| && topic[i].key == key;
    assert (topic + more)[i].key == key;
  }

  lemma NowOnTopic(topic: seq<Message>, i: nat)
    requires i < |topic|
    ensures OnTopic(topic, topic[i].key)
  {
  }

  /** Publishing a proper event, with whatever duplicates, keeps everything; a publish that returned put it on
      the topic. */
  lemma PublishKeeps(c: Cipher, w: World, e: Event, a: Answer)
    requires TablesOk(c, w) && JobsOk(w) && EventOk(c, w.origin, Wire(e))
    ensures var w' := PublishSend(w, e, a);
      && TablesOk(c, w') && JobsOk(w') && Evolves(w, w') && Quiet(w, w')
      && (a.ok ==> OnTopic(w'.topic, e.requestId))
  {
    hide RequestsOk, PayloadsOk, RecipientsOk, OutboxOk, EventOk, OnTopic, JobsOk;
    var m := Message(e.requestId, Wire(e));
    var w' := PublishSend(w, e, a);
    forall i | 0 <= i < |w'.topic|
      ensures EventOk(c, w.origin, w'.topic[i].event) && w'.topic[i].key == w'.topic[i].event.requestId
    {
      if i < |w.topic| { assert w'.topic[i] == w.topic[i]; } else { assert w'.topic[i] == m; }
    }
    forall key | OnTopic(w.topic, key) ensures OnTopic(w'.topic, key) {
      OnTopicStays(w.topic, Copies(m, a), key);
    }
    if a.ok { NowOnTopic(w'.topic, |w.topic|); }
    QuietKeepsJobs(w, w');
  }

  // ---------------------------------------------------------------- saves

  lemma StoredCore(row: Request)
    ensures StoredRequest(Core(StoredRequest(row))) == StoredRequest(Core(row))
    ensures StoredRequest(StoredRequest(row)) == StoredRequest(row)
  {
    if row.metadata.Some? { CleanRecordTwice(row.metadata.value); }
  }

  lemma StoredOutboxCore(row: Outbox)
    ensures StoredOutbox(OutboxCore(StoredOutbox(row))) == StoredOutbox(OutboxCore(row))
    ensures StoredOutbox(StoredOutbox(row)) == StoredOutbox(row)
  {
    WireTwice(row.payload);
  }

  lemma RequestIdentity(r: Request, id: Id, o: Origin)
    requires IsRequestOf(r, id, o)
    ensures r.id == id && r.requestId == o.dto.requestId
  {
    assert StoredRequest(Core(r)).id == id && StoredRequest(Core(r)).requestId == o.dto.requestId;
  }

  lemma OutboxIdentity(c: Cipher, row: Outbox, id: Id, o: Origin)
    requires IsOutboxOf(c, row, id, o)
    ensures row.id == o.outboxId && row.aggregateId == id && row.eventKey == o.dto.requestId
    ensures row.eventType == MessageRequestCreated && Wire(row.payload) == Wire(FirstEvent(c, id, o))
    ensures row.payload.requestId == o.dto.requestId && row.createdAt == o.at
  {
    assert StoredOutbox(OutboxCore(row)).payload == Wire(row.payload);
    assert StoredOutbox(NewOutbox(c, id, o)).payload == Wire(FirstEvent(c, id, o));
  }

  lemma RequestKeys(origin: Origins, requests: map<Id, Request>)
    requires RequestsOk(origin, requests)
    ensures origin.Keys == requests.Keys
    ensures forall r | r in origin :: requests[r].id == r && requests[r].requestId == origin[r].dto.requestId
  {
    hide NewRequest;
    forall r | r in origin ensures requests[r].id == r && requests[r].requestId == origin[r].dto.requestId {
      assert RequestOk(requests[r], r, origin[r]);
      RequestIdentity(requests[r], r, origin[r]);
    }
  }

  lemma WriteRequest(origin: Origins, requests: map<Id, Request>, row: Request)
    requires RequestsOk(origin, requests) && row.id in origin && IsRequestOf(row, row.id, origin[row.id])
    requires row.status == RequestStatus.Queued || row.status == RequestStatus.Completed
    ensures RequestsOk(origin, requests[row.id := StoredRequest(row)])
  {
    hide NewRequest, CleanRecord;
    StoredCore(row);
    assert RequestOk(StoredRequest(row), row.id, origin[row.id]);
  }

  lemma SaveRequestEvolves(w: World, row: Request)
    requires StatusesOk(w) && OnTopic(w.topic, row.requestId) && row.status != RequestStatus.Validated
    ensures var w' := SaveRequest(w, row); StatusesOk(w') && Evolves(w, w') && w'.requests[row.id].status == row.status
  {
    hide OnTopic, CleanRecord;
    RowsAreThemselves(w);
  }

  /** Saving a whole request row that is past VALIDATED keeps everything, however stale the row. */
  lemma SaveRequestKeeps(c: Cipher, w: World, row: Request)
    requires TablesOk(c, w) && JobsOk(w) && Holds(w, row) && OnTopic(w.topic, row.requestId)
    requires row.status == RequestStatus.Queued || row.status == RequestStatus.Completed
    ensures var w' := SaveRequest(w, row);
      && TablesOk(c, w') && JobsOk(w') && Evolves(w, w') && Quiet(w, w')
      && w'.requests.Keys == w.requests.Keys && w'.requests[row.id].status == row.status
  {
    hide RequestsOk, PayloadsOk, RecipientsOk, OutboxOk, TopicOk, StatusesOk, IsRequestOf, JobsOk, OnTopic, Evolves, StoredRequest;
    WriteRequest(w.origin, w.requests, row);
    RequestKeys(w.origin, w.requests);
    SaveRequestEvolves(w, row);
    QuietKeepsJobs(w, SaveRequest(w, row));
  }

  lemma WriteOutbox(c: Cipher, origin: Origins, outbox: map<Id, Outbox>, row: Outbox)
    requires OutboxOk(c, origin, outbox) && row.aggregateId in origin && row.id == origin[row.aggregateId].outboxId
    requires IsOutboxOf(c, row, row.aggregateId, origin[row.aggregateId])
    ensures OutboxOk(c, origin, outbox[row.id := StoredOutbox(row)])
  {
    hide NewOutbox, Wire;
    StoredOutboxCore(row);
    var outbox' := outbox[row.id := StoredOutbox(row)];
    forall r | r in origin
      ensures origin[r].outboxId in outbox' && IsOutboxOf(c, outbox'[origin[r].outboxId], r, origin[r])
    {
      assert IsOutboxOf(c, outbox[origin[r].outboxId], r, origin[r]);
      OutboxIdentity(c, outbox[origin[r].outboxId], r, origin[r]);
      OutboxIdentity(c, outbox[row.id], row.aggregateId, origin[row.aggregateId]);
    }
  }

  lemma SaveOutboxKeeps(c: Cipher, w: World, row: Outbox)
    requires TablesOk(c, w) && JobsOk(w) && HoldsEntry(c, w, row)
    requires row.status == OutboxStatus.Published ==> OnTopic(w.topic, row.eventKey)
    ensures var w' := SaveOutbox(w, row);
      TablesOk(c, w') && JobsOk(w') && Evolves(w, w') && Quiet(w, w')
  {
    hide RequestsOk, PayloadsOk, RecipientsOk, OutboxOk, TopicOk, IsOutboxOf, JobsOk, OnTopic;
    WriteOutbox(c, w.origin, w.outbox, row);
    QuietKeepsJobs(w, SaveOutbox(w, row));
  }

  // ---------------------------------------------------------------- the transaction

  lemma CommitRequests(origin: Origins, requests: map<Id, Request>, id: Id, o: Origin)
    requires RequestsOk(origin, requests) && id !in requests
    requires forall r | r in requests :: requests[r].requestId != o.dto.requestId
    ensures RequestsOk(origin[id := o], requests[id := StoredRequest(NewRequest(id, o))])
    ensures IsRequestOf(NewRequest(id, o), id, o)
  {
    RequestKeys(origin, requests);
    hide RequestMetadata, CleanRecord;
    StoredCore(NewRequest(id, o));
    assert RequestOk(StoredRequest(NewRequest(id, o)), id, o);
  }

  lemma CommitPayloads(c: Cipher, origin: Origins, payloads: map<Id, Payload>, id: Id, o: Origin)
    requires PayloadsOk(c, origin, payloads) && id !in origin && o.payloadId !in payloads
    ensures PayloadsOk(c, origin[id := o], payloads[o.payloadId := StoredPayload(NewPayload(c, id, o))])
  {
    hide CleanRecord, Encrypt, Masking.Mask;
  }

  lemma CommitRecipients(origin: Origins, recipients: map<Id, Recipient>, id: Id, o: Origin)
    requires RecipientsOk(origin, recipients) && id !in origin && o.recipientId !in recipients
    ensures RecipientsOk(origin[id := o], recipients[o.recipientId := StoredRecipient(NewRecipient(id, o))])
  {
    hide FieldColumn, Masking.Lower;
  }

  lemma CommitOutbox(c: Cipher, origin: Origins, outbox: map<Id, Outbox>, id: Id, o: Origin)
    requires OutboxOk(c, origin, outbox) && id !in origin && o.outboxId !in outbox
    ensures OutboxOk(c, origin[id := o], outbox[o.outboxId := StoredOutbox(NewOutbox(c, id, o))])
    ensures IsOutboxOf(c, NewOutbox(c, id, o), id, o)
  {
    hide Wire, FirstEvent;
    StoredOutboxCore(NewOutbox(c, id, o));
  }

  lemma CommitTopic(c: Cipher, origin: Origins, topic: seq<Message>, id: Id, o: Origin)
    requires TopicOk(c, origin, topic) && id !in origin
    ensures TopicOk(c, origin[id := o], topic)
  {
    hide Agrees, FirstEvent, Wire;
    forall i | 0 <= i < |topic| ensures EventOk(c, origin[id := o], topic[i].event) {
      assert EventOk(c, origin, topic[i].event);
    }
  }

  lemma NewRowsNamed(c: Cipher, id: Id, o: Origin)
    ensures var row := NewOutbox(c, id, o); row.aggregateId == id && row.id == o.outboxId
    ensures StoredOutbox(NewOutbox(c, id, o)).status == OutboxStatus.Pending
    ensures NewRequest(id, o).id == id && StoredRequest(NewRequest(id, o)).status == RequestStatus.Validated
  {
  }

  lemma CommitEvolves(c: Cipher, w: World, id: Id, o: Origin)
    requires id !in w.origin && id !in w.requests && StatusesOk(w) && o.outboxId !in w.outbox
    requires forall d | d in w.dispatches && w.dispatches[d].retryCount == 1 :: SameJob(w.dispatches[d], w.dispatches[d])
    ensures var w' := CommitRows(c, w, id, o); Evolves(w, w') && StatusesOk(w') && Quiet(w, w')
  {
    hide NewOutbox, NewRequest, NewPayload, NewRecipient, StoredOutbox, StoredRequest, StoredPayload, OnTopic, SameJob;
    NewRowsNamed(c, id, o);
  }

  lemma RowsAreThemselves(w: World)
    ensures forall d | d in w.dispatches :: SameJob(w.dispatches[d], w.dispatches[d])
  {
  }

  /** The transaction of `send` adds one consistent set of rows. */
  lemma CommitKeeps(c: Cipher, w: World, id: Id, o: Origin)
    requires TablesOk(c, w) && JobsOk(w)
    requires CanCommit(w, o.dto, TxIds(id, o.payloadId, o.recipientId, o.outboxId))
    ensures var w' := CommitRows(c, w, id, o);
      && TablesOk(c, w') && JobsOk(w') && Evolves(w, w') && Quiet(w, w') && id !in w.origin
      && Holds(w', NewRequest(id, o)) && HoldsEntry(c, w', NewOutbox(c, id, o))
  {
    hide RequestsOk, PayloadsOk, RecipientsOk, OutboxOk, TopicOk, IsRequestOf, IsOutboxOf, JobsOk, OnTopic,
         NewPayload, NewRecipient, FirstEvent, StoredPayload, Wire, NewOutbox, StoredOutbox, NewRequest, StoredRequest, Evolves, StatusesOk,
         Quiet;
    NewRowsNamed(c, id, o);
    RowsAreThemselves(w);
    RequestKeys(w.origin, w.requests);
    CommitRequests(w.origin, w.requests, id, o);
    CommitPayloads(c, w.origin, w.payloads, id, o);
    CommitRecipients(w.origin, w.recipients, id, o);
    CommitOutbox(c, w.origin, w.outbox, id, o);
    CommitTopic(c, w.origin, w.topic, id, o);
    CommitEvolves(c, w, id, o);
    QuietKeepsJobs(w, CommitRows(c, w, id, o));
  }
}
