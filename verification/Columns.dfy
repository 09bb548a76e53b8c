/** What the rows of one `send` and the events about it say, column by column, in terms of who sent what. */
module Columns {
  import opened Json
  import opened Domain
  import opened Crypto
  import opened Events
  import opened Masking
  import opened World
  import opened Gateway
  import opened Worker
  import opened Pipeline
  import opened Invariants
  import opened Steps
  import opened Jobs
  import opened Safety
  import opened Theorems
  import Relay
  import Scheduler

  // ---------------------------------------------------------------- single values

  ghost predicate ChannelSays(text: string, channel: Channel) {
    match channel
    case Email => text == "EMAIL"
    case Sms => text == "SMS"
    case Kakao => text == "KAKAO"
    case Chat => text == "CHAT"
  }

  ghost predicate PrioritySays(p: Priority, sent: Option<Priority>) {
    match sent
    case Some(q) => p == q
    case None => p == Normal
  }

  /** A property as it was sent: gone, null or the text itself. */
  ghost predicate Sent(r: Record, key: string, f: Field) {
    match f
    case Absent => key !in r
    case NullField => key in r && r[key] == Null
    case Text(s) => key in r && r[key] == Str(s)
  }

  ghost predicate ReceiverSent(r: Record, d: ReceiverDto) {
    && r.Keys <= {"userId", "receiverName", "email", "phoneNumber", "kakaoPhoneNumber"}
    && Sent(r, "userId", d.userId) && Sent(r, "receiverName", d.receiverName) && Sent(r, "email", d.email)
    && Sent(r, "phoneNumber", d.phoneNumber) && Sent(r, "kakaoPhoneNumber", d.kakaoPhoneNumber)
  }

  /** A property as some publisher tells it: null may stand for gone, gone for null. */
  ghost predicate Told(r: Record, key: string, f: Field) {
    match f
    case Text(s) => key in r && r[key] == Str(s)
    case _ => key !in r || r[key] == Null
  }

  /** A user id as some publisher tells it: its case may differ. */
  ghost predicate UserTold(r: Record, f: Field) {
    match f
    case Text(s) => "userId" in r && r["userId"].Str? && Lower(r["userId"].s) == Lower(s)
    case _ => "userId" !in r || r["userId"] == Null
  }

  ghost predicate ReceiverTold(r: Record, d: ReceiverDto) {
    && r.Keys <= {"userId", "receiverName", "email", "phoneNumber", "kakaoPhoneNumber"}
    && UserTold(r, d.userId) && Told(r, "receiverName", d.receiverName) && Told(r, "email", d.email)
    && Told(r, "phoneNumber", d.phoneNumber) && Told(r, "kakaoPhoneNumber", d.kakaoPhoneNumber)
  }

  ghost predicate ColumnSays(column: Option<string>, f: Field) {
    match f
    case Text(s) => column == Some(s)
    case _ => column == None
  }

  /** The envelope of exactly what was sent, and nothing beside it. */
  ghost predicate Seals(c: Cipher, envelope: Record, sent: Record) {
    envelope.Keys == {"_enc", "_iv", "_tag"} && Decrypt(c, envelope) == Some(CleanRecord(sent))
  }

  // ---------------------------------------------------------------- rows and events

  /** The client's own metadata, with channel and receiver in the places of any such keys of its own. */
  ghost predicate MetadataSays(m: Record, dto: SendDto) {
    && "channel" in m && m["channel"].Str? && ChannelSays(m["channel"].s, dto.channel)
    && "receiver" in m && m["receiver"].Obj? && ReceiverSent(m["receiver"].fields, dto.receiver)
    && (forall k | k != "channel" && k != "receiver" ::
          && (k in m <==> dto.metadata.Some? && k in dto.metadata.value && !dto.metadata.value[k].Undefined?)
          && (k in m ==> m[k] == Clean(dto.metadata.value[k])))
  }

  ghost predicate RequestSays(row: Request, id: Id, o: Origin) {
    && row.id == id && row.requestId == o.dto.requestId && row.clientAppId == o.clientAppId
    && row.templateId == o.templateId && row.templateCode == Some(o.templateCode)
    && PrioritySays(row.priority, o.dto.priority) && row.callbackUrl == o.dto.callbackUrl
    && row.requestedAt == o.at && row.validatedAt == Some(o.at)
    && row.metadata.Some? && MetadataSays(row.metadata.value, o.dto)
  }

  /** Everything in an event but its receiver. */
  ghost predicate EventSays(c: Cipher, e: Event, id: Id, o: Origin) {
    && e.messageRequestId == id && e.requestId == o.dto.requestId && e.recipientId == o.recipientId
    && e.clientAppId == o.clientAppId && e.templateCode == o.templateCode && ChannelSays(e.channel, o.dto.channel)
    && Seals(c, e.variables, o.dto.variables)
    && PrioritySays(e.priority, o.dto.priority) && e.callbackUrl == o.dto.callbackUrl && e.requestedAt == o.at
  }

  // ---------------------------------------------------------------- the rows as built

  lemma EnvelopeSays(c: Cipher, o: Origin)
    requires Faithful(c)
    ensures var e := Encrypt(c, o.dto.variables, o.iv); Seals(c, e, o.dto.variables) && CleanRecord(e) == e
  {
    EnvelopeRoundTrip(c, o.dto.variables, o.iv);
  }

  lemma PropertySent(d: ReceiverDto, k: string)
    requires k in RECEIVER_KEYS
    ensures Sent(CleanRecord(ReceiverToRecord(d)), k, FieldOf(d, k))
  {
    CleanRecordAt(ReceiverToRecord(d), k);
  }

  lemma ReceiverIsSent(d: ReceiverDto)
    ensures ReceiverSent(CleanRecord(ReceiverToRecord(d)), d)
  {
    hide Sent, CleanRecord, ReceiverToRecord;
    SentKeys(d);
    forall k | k in RECEIVER_KEYS ensures Sent(CleanRecord(ReceiverToRecord(d)), k, FieldOf(d, k)) { PropertySent(d, k); }
    assert "userId" in RECEIVER_KEYS && "receiverName" in RECEIVER_KEYS && "email" in RECEIVER_KEYS
           && "phoneNumber" in RECEIVER_KEYS && "kakaoPhoneNumber" in RECEIVER_KEYS;
  }

  lemma FirstEventSays(c: Cipher, id: Id, o: Origin)
    requires Faithful(c)
    ensures var e := Wire(FirstEvent(c, id, o)); EventSays(c, e, id, o) && ReceiverSent(e.receiver, o.dto.receiver)
  {
    hide CleanRecord, Encrypt, Seals, Faithful, ReceiverSent, ReceiverToRecord, Mask;
    EnvelopeSays(c, o);
    ReceiverIsSent(o.dto.receiver);
  }

  lemma MetadataIsSent(dto: SendDto)
    ensures MetadataSays(CleanRecord(RequestMetadata(dto)), dto)
  {
    hide ReceiverSent, ReceiverToRecord;
    var m := RequestMetadata(dto);
    ReceiverIsSent(dto.receiver);
    forall k ensures (k in CleanRecord(m) <==> k in m && !m[k].Undefined?) && (k in CleanRecord(m) ==> CleanRecord(m)[k] == Clean(m[k])) {
      CleanRecordAt(m, k);
    }
  }

  lemma NewRequestSays(id: Id, o: Origin)
    ensures RequestSays(StoredRequest(NewRequest(id, o)), id, o)
  {
    hide MetadataSays, CleanRecord, RequestMetadata;
    MetadataIsSent(o.dto);
  }

  // ---------------------------------------------------------------- every reachable state

  /** A request row says who asked for what, whatever its status; its two later times come with its status. */
  lemma RequestColumns(c: Cipher, s: State, r: Id)
    requires Faithful(c) && Reachable(c, s) && r in s.w.requests
    ensures r in s.w.origin && RequestSays(s.w.requests[r], r, s.w.origin[r])
    ensures var row := s.w.requests[r];
      && (row.status == RequestStatus.Validated ==> row.queuedAt == None && row.completedAt == None)
      && (row.status == RequestStatus.Queued ==> row.queuedAt.Some?)
      && (row.status == RequestStatus.Completed ==> row.completedAt.Some?)
  {
    hide Faithful, Reachable, Consistent, JobsOk, PayloadsOk, RecipientsOk, OutboxOk, TopicOk, StatusesOk,
         NewRequest, MetadataSays;
    ReachableConsistent(c, s);
    assert RequestOk(s.w.requests[r], r, s.w.origin[r]);
    NewRequestSays(r, s.w.origin[r]);
    SameCore(s.w.requests[r], r, s.w.origin[r]);
  }

  lemma SameCore(row: Request, r: Id, o: Origin)
    requires RequestOk(row, r, o)
    ensures row == StoredRequest(NewRequest(r, o)).(status := row.status, queuedAt := row.queuedAt, completedAt := row.completedAt)
  {
    hide NewRequest, CleanRecord;
    assert StoredRequest(Core(row)) == Core(row);
  }

  /** The payload row has the variables sealed, and nothing of them in the clear. */
  lemma PayloadColumns(c: Cipher, s: State, r: Id)
    requires Faithful(c) && Reachable(c, s) && r in s.w.origin
    ensures var o := s.w.origin[r];
      && o.payloadId in s.w.payloads
      && var row := s.w.payloads[o.payloadId];
      && row.id == o.payloadId && row.messageRequestId == r && Seals(c, row.payloadJson, o.dto.variables)
      && row.maskedPayloadJson == CleanRecord(Mask(o.dto.variables))
  {
    hide Faithful, Reachable, Consistent, JobsOk, RequestsOk, RecipientsOk, OutboxOk, TopicOk, StatusesOk, Encrypt,
         Mask, CleanRecord, Seals;
    ReachableConsistent(c, s);
    EnvelopeSays(c, s.w.origin[r]);
  }

  /** JSON text keeps the paths through objects but for undefined ends, and what is there. */
  lemma {:induction false} CleanAtEveryPath(v: Value, p: Path)
    requires !v.Undefined?
    ensures Reaches(Clean(v), p) <==> Reaches(v, p) && !At(v, p).Undefined?
    ensures Reaches(Clean(v), p) ==> At(Clean(v), p) == Clean(At(v, p))
    decreases |p|
  {
    if p != [] && v.Obj? && p[0] in v.fields && !v.fields[p[0]].Undefined? { CleanAtEveryPath(v.fields[p[0]], p[1..]); }
  }

  /** Its masked copy has the places of the variables, but none under a key `__proto__`, and every text in it shows
      what its own key allows. */
  lemma MaskedColumn(c: Cipher, s: State, r: Id, p: Path)
    requires Faithful(c) && Reachable(c, s) && r in s.w.origin && p != []
    ensures s.w.origin[r].payloadId in s.w.payloads
    ensures var sent, masked := Obj(s.w.origin[r].dto.variables), Obj(s.w.payloads[s.w.origin[r].payloadId].maskedPayloadJson);
      && (Reaches(masked, p) <==> Reaches(sent, p) && "__proto__" !in p && !At(sent, p).Undefined?)
      && (Reaches(masked, p) && At(sent, p).Str? ==> At(masked, p).Str? && Shown(p[|p| - 1], At(sent, p).s, At(masked, p).s))
      && (Reaches(masked, p) && !At(sent, p).Str? && !At(sent, p).Obj? ==> At(masked, p) == Clean(At(sent, p)))
  {
    hide Faithful, Reachable, Shown, Clean, MaskText, Lower, Reaches, At, Seals;
    PayloadColumns(c, s, r);
    var sent := s.w.origin[r].dto.variables;
    assert MaskValue("", Obj(sent)) == Obj(Mask(sent));
    assert Obj(CleanRecord(Mask(sent))) == Clean(Obj(Mask(sent))) by { CleanIsObject(Mask(sent)); }
    MaskAtEveryPath("", Obj(sent), p);
    CleanAtEveryPath(Obj(Mask(sent)), p);
    if Reaches(Obj(sent), p) && "__proto__" !in p && At(Obj(sent), p).Str? {
      MaskShows(sent, p);
      CleanText(At(Obj(Mask(sent)), p));
    }
  }

  lemma CleanIsObject(f: Record)
    ensures Clean(Obj(f)) == Obj(CleanRecord(f))
  {
  }

  lemma CleanText(v: Value)
    requires v.Str?
    ensures Clean(v) == v
  {
  }

  /** The recipient row has each field of the body in its own column, the user id in lower case. */
  lemma RecipientColumns(c: Cipher, s: State, r: Id)
    requires Faithful(c) && Reachable(c, s) && r in s.w.origin
    ensures var o := s.w.origin[r];
      && o.recipientId in s.w.recipients
      && var row, d := s.w.recipients[o.recipientId], o.dto.receiver;
      && row.id == o.recipientId && row.messageRequestId == r && row.createdAt == o.at
      && row.userId == (match d.userId case Text(u) => Some(Lower(u)) case _ => None)
      && ColumnSays(row.receiverName, d.receiverName) && ColumnSays(row.email, d.email)
      && ColumnSays(row.phoneNumber, d.phoneNumber) && ColumnSays(row.kakaoPhoneNumber, d.kakaoPhoneNumber)
  {
    hide Faithful, Reachable, Consistent, JobsOk, RequestsOk, PayloadsOk, OutboxOk, TopicOk, StatusesOk, Lower;
    ReachableConsistent(c, s);
  }

  /** The outbox row has the event with every field as it was sent; its publishing columns come with its status. */
  lemma OutboxColumns(c: Cipher, s: State, r: Id)
    requires Faithful(c) && Reachable(c, s) && r in s.w.origin
    ensures var o := s.w.origin[r];
      && o.outboxId in s.w.outbox
      && var row := s.w.outbox[o.outboxId];
      && row.id == o.outboxId && row.aggregateId == r && row.eventType == MessageRequestCreated
      && row.eventKey == o.dto.requestId && row.createdAt == o.at
      && EventSays(c, row.payload, r, o) && ReceiverSent(row.payload.receiver, o.dto.receiver)
      && (row.status == OutboxStatus.Pending ==> row.publishedAt == None && row.errorMessage == None)
      && (row.status == OutboxStatus.Published ==> row.publishedAt.Some? && row.errorMessage == None)
      && (row.status == OutboxStatus.Failed ==> row.publishedAt == None && row.errorMessage.Some?)
  {
    hide Faithful, Reachable, Consistent, JobsOk, RequestsOk, PayloadsOk, RecipientsOk, TopicOk, StatusesOk,
         EventSays, FirstEvent, Wire,
         ReceiverSent;
    ReachableConsistent(c, s);
    var o := s.w.origin[r];
    OneOutboxRow(c, s.w, r);
    OutboxIdentity(c, s.w.outbox[o.outboxId], r, o);
    FirstEventSays(c, r, o);
  }

  lemma TellsWhatWasSent(a: Record, b: Record, d: ReceiverDto)
    requires SameReceiver(a, b) && ReceiverSent(b, d)
    ensures ReceiverTold(a, d)
  {
    hide Lower;
    assert "userId" in RECEIVER_KEYS && "receiverName" in RECEIVER_KEYS && "email" in RECEIVER_KEYS
           && "phoneNumber" in RECEIVER_KEYS && "kakaoPhoneNumber" in RECEIVER_KEYS;
    forall k | k in RECEIVER_KEYS ensures SameProperty(k, PropertyOrNull(a, k), PropertyOrNull(b, k)) {}
  }

  /** And so does every message on the topic, whoever published it, up to null for gone and the case of the user id. */
  lemma MessageColumns(c: Cipher, s: State, i: nat)
    requires Faithful(c) && Reachable(c, s) && i < |s.w.topic|
    ensures var e := s.w.topic[i].event;
      && e.messageRequestId in s.w.origin
      && var o := s.w.origin[e.messageRequestId];
      && s.w.topic[i].key == o.dto.requestId
      && EventSays(c, e, e.messageRequestId, o) && ReceiverTold(e.receiver, o.dto.receiver)
  {
    hide Faithful, Reachable, FirstEvent, Wire, Seals, ReceiverSent, SameReceiver, ReceiverTold;
    EveryMessageIsTheEvent(c, s, i);
    var e := s.w.topic[i].event;
    var o := s.w.origin[e.messageRequestId];
    FirstEventSays(c, e.messageRequestId, o);
    TellsWhatWasSent(e.receiver, Wire(FirstEvent(c, e.messageRequestId, o)).receiver, o.dto.receiver);
  }

  // ---------------------------------------------------------------- times

  /** What a gateway step marks in memory is marked as of that step: the entry after the publish, the request after the
      entry's save or the second publish. */
  lemma GatewayMarks(c: Cipher, w: World, pc: SendPc, a: Answer)
    ensures var pc' := SendStep(c, w, pc, a).1;
      && (pc.Publish? && pc'.SaveEntry? ==>
            pc'.entry == pc.entry.(status := OutboxStatus.Published, publishedAt := Some(w.now)) && pc'.request == pc.request)
      && ((pc.SaveEntry? && pc'.SaveQueued?) || (pc.Republish? && pc'.SaveRequeued?) ==>
            pc'.request == pc.request.(status := RequestStatus.Queued, queuedAt := Some(w.now)))
      && (pc'.SaveEntry? && pc != pc' ==> pc.Publish?) && (pc'.SaveQueued? && pc != pc' ==> pc.SaveEntry?)
      && (pc'.SaveRequeued? && pc != pc' ==> pc.Republish?)
  {
    hide CommitRows, CanCommit, FindRequest, FindPayload, FindRecipient, ResendEvent, NewRequest, NewOutbox,
         ToResponse, Wire;
  }

  /** What a delivery writes is written as of its step, and so is what its handler takes down: the inserted row, the
      SUCCESS row, the COMPLETED request, and the wait that starts with the failure. */
  lemma WorkerMarks(channel: Channel, w: World, pc: WorkerPc, a: Answer)
    ensures var (w', pc') := WorkerStep(channel, w, pc, a);
      && (pc.Insert? && pc'.LogRequest? ==>
            && pc'.dispatch == Dispatch(a.uuid, pc.event.messageRequestId, pc.event.recipientId, channel, DispatchStatus.Processing,
                                        0, 3, None, None, None, None, Some(w.now), Some(w.now), None, None, None)
            && w'.dispatches == w.dispatches[a.uuid := pc'.dispatch])
      && (pc.SaveSuccess? && a.ok ==>
            w'.dispatches == w.dispatches[pc.dispatch.id :=
              pc.dispatch.(status := DispatchStatus.Success, providerMessageId := Some((pc.dispatch.channelType, a.uuid)),
                           sentAt := Some(w.now), successAt := Some(w.now))])
      && (pc.SaveCompleted? && a.ok ==>
            w'.requests == w.requests[pc.request.id :=
              StoredRequest(pc.request.(status := RequestStatus.Completed, completedAt := Some(w.now)))])
      && (!pc.SaveRetry? && pc'.SaveRetry? ==>
            && pc'.dispatch.retryCount == pc.dispatch.retryCount + 1 && pc'.dispatch.lastErrorMessage == Some(a.error)
            && (pc.dispatch.retryCount == 0 ==> pc'.dispatch.nextRetryAt == Some(w.now + 60_000)))
      && (!pc.SaveFailed? && pc'.SaveFailed? ==> pc'.dispatch.failedAt == Some(w.now) && pc'.dispatch.lastErrorMessage == Some(a.error))
  {
    hide HasSuccess, StoredRequest, LogsOf;
  }

  /** A delivery ends with an error of its own exactly when a call outside its try block throws, or the insert finds its
      primary key taken. */
  lemma ThrowsExactly(channel: Channel, w: World, pc: WorkerPc, a: Answer)
    requires !Ended(pc)
    ensures WorkerStep(channel, w, pc, a).1.Threw? <==>
      || (!a.ok && !pc.SaveSuccess? && !pc.LogSuccess? && !pc.SaveCompleted? && !pc.PublishDlq?)
      || (pc.Insert? && a.uuid in w.dispatches)
  {
    hide HasSuccess, StoredRequest, LogsOf;
  }

  /** Step n of the run saved the dispatch as SUCCESS, as of then, with the provider id drawn there. */
  ghost predicate SavedAt(c: Cipher, run: seq<Action>, n: nat, row: Dispatch) {
    && n < |run| && run[n].StepLane? && run[n].answer.ok && run[n].lane.channel == row.channelType
    && var s := Exec(c, INITIAL, run[..n]);
       var k := ConsumerOf(s, run[n].lane);
    && k.delivery.Some? && k.delivery.value.SaveSuccess? && k.delivery.value.dispatch.id == row.id
    && row.sentAt == Some(s.w.now) && row.successAt == Some(s.w.now)
    && row.providerMessageId == Some((run[n].lane.channel, run[n].answer.uuid))
  }

  lemma WhoSucceeds(c: Cipher, s: State, action: Action, d: Id)
    requires Consistent(c, s)
    requires var w' := Apply(c, s, action).w; d in w'.dispatches && w'.dispatches[d].status == DispatchStatus.Success
    requires var w' := Apply(c, s, action).w; !(d in s.w.dispatches && s.w.dispatches[d] == w'.dispatches[d])
    ensures action.StepLane? && action.answer.ok
    ensures var k, row := ConsumerOf(s, action.lane), Apply(c, s, action).w.dispatches[d];
      && k.delivery.Some? && k.delivery.value.SaveSuccess? && k.delivery.value.dispatch.id == row.id
      && row.sentAt == Some(s.w.now) && row.successAt == Some(s.w.now) && row.channelType == action.lane.channel
      && row.providerMessageId == Some((action.lane.channel, action.answer.uuid))
  {
    hide TablesOk, JobsOk, SendsOk, RelaysOk, LanesOk, SchedOk, SendStep, LaneStep, Relay.RelayStep, Scheduler.SchedStep;
    match action
    case StepSend(call, a) => if call in s.sends { SendLeavesDispatches(c, s.w, s.sends[call], a); }
    case StepRelay(run, a) => if run in s.relays { Relay.RelayFrame(s.w, s.relays[run], a); }
    case StepSched(run, a) => if run in s.scheds { SchedSucceedsNone(c, s.w, s.scheds[run], a, d); }
    case StepLane(lane, a) => LaneSucceeds(c, s, lane, a, d);
    case _ =>
  }

  lemma SchedSucceedsNone(c: Cipher, w: World, pc: Scheduler.SchedPc, a: Answer, d: Id)
    requires SchedOk(c, w, pc)
    ensures var w' := Scheduler.SchedStep(w, pc, a).0;
      d in w'.dispatches && w'.dispatches[d].status == DispatchStatus.Success ==> d in w.dispatches && w'.dispatches[d] == w.dispatches[d]
  {
    hide EventOk, Wire, RetryEvent, Holds, HoldsPayload, StoredRequest, HoldsJob;
  }

  lemma LaneSucceeds(c: Cipher, s: State, lane: Lane, a: Answer, d: Id)
    requires Consistent(c, s)
    requires var w' := Apply(c, s, StepLane(lane, a)).w;
      && d in w'.dispatches && w'.dispatches[d].status == DispatchStatus.Success
      && !(d in s.w.dispatches && s.w.dispatches[d] == w'.dispatches[d])
    ensures a.ok
    ensures var k, row := ConsumerOf(s, lane), Apply(c, s, StepLane(lane, a)).w.dispatches[d];
      && k.delivery.Some? && k.delivery.value.SaveSuccess? && k.delivery.value.dispatch.id == row.id
      && row.sentAt == Some(s.w.now) && row.successAt == Some(s.w.now) && row.channelType == lane.channel
      && row.providerMessageId == Some((lane.channel, a.uuid))
  {
    hide TablesOk, JobsOk, SendsOk, RelaysOk, SchedsOk, DeliveryOk, WorkerStep, Deliver;
    var k := ConsumerOf(s, lane);
    IdleLane(s.w, lane);
    assert LaneOk(s.w, lane, k);
    if k.delivery.Some? {
      TopicEvent(c, s.w, k.offset);
      DeliverySucceeds(c, s.w, lane, s.w.topic[k.offset], k.delivery.value, a, d);
    }
  }

  lemma TopicEvent(c: Cipher, w: World, i: nat)
    requires TablesOk(c, w) && i < |w.topic|
    ensures EventOk(c, w.origin, w.topic[i].event)
  {
    hide RequestsOk, PayloadsOk, RecipientsOk, OutboxOk, StatusesOk, EventOk;
  }

  lemma DeliverySucceeds(c: Cipher, w: World, lane: Lane, m: Message, pc: WorkerPc, a: Answer, d: Id)
    requires DeliveryOk(w, m, pc) && EventOk(c, w.origin, m.event) && JobsOk(w) && m.event.channel == ChannelName(lane.channel)
    requires var w' := WorkerStep(lane.channel, w, pc, a).0;
      && d in w'.dispatches && w'.dispatches[d].status == DispatchStatus.Success
      && !(d in w.dispatches && w.dispatches[d] == w'.dispatches[d])
    ensures a.ok && pc.SaveSuccess?
    ensures var row := WorkerStep(lane.channel, w, pc, a).0.dispatches[d];
      && pc.dispatch.id == row.id && row.sentAt == Some(w.now) && row.successAt == Some(w.now)
      && row.channelType == lane.channel && row.providerMessageId == Some((lane.channel, a.uuid))
  {
    hide IsRequestOf, CleanRecord, Shape, LogsOf, StoredRequest, HasSuccess, EventInHand, Holds, EventOk, LogsOk,
         SingleSuccess;
    if pc.SaveSuccess? {
      assert DispatchOk(w.origin, w.failedAt, pc.dispatch.id, w.dispatches[pc.dispatch.id]);
      EventFacts(c, w.origin, m.event);
      ChannelNamesDiffer(lane.channel, w.origin[m.event.messageRequestId].dto.channel);
    }
  }

  /** In every run, a SUCCESS dispatch is exactly as one step of its own channel's worker saved it: sent and successful
      as of that step, with the provider id drawn in it. */
  lemma {:induction false} SuccessWasSaved(c: Cipher, run: seq<Action>, d: Id) returns (n: nat)
    requires Faithful(c)
    requires var w := Exec(c, INITIAL, run).w; d in w.dispatches && w.dispatches[d].status == DispatchStatus.Success
    ensures SavedAt(c, run, n, Exec(c, INITIAL, run).w.dispatches[d])
    decreases |run|
  {
    hide Apply, Faithful, Consistent, Reachable, TablesOk, JobsOk;
    assert run != [];
    var k := |run| - 1;
    var s := Exec(c, INITIAL, run[..k]);
    var row := Exec(c, INITIAL, run).w.dispatches[d];
    if d in s.w.dispatches && s.w.dispatches[d] == row {
      n := SuccessWasSaved(c, run[..k], d);
      assert run[..k][..n] == run[..n];
    } else {
      RunReachable(c, run[..k]);
      ReachableConsistent(c, s);
      WhoSucceeds(c, s, run[k], d);
      n := k;
    }
  }
}
