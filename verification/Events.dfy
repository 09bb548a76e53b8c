/** The three places that build a `message.send` event, and how far they agree.

    The gateway builds one from the request body inside the transaction, the re-send path rebuilds it from the
    stored request, payload and recipient, and the retry scheduler rebuilds it from the same rows but takes the
    receiver from the recipient's columns. */
module Events {
  import opened Json
  import opened Domain
  import opened Crypto
  import opened Masking

  // ---------------------------------------------------------------- the rows one `send` creates

  /** Everything one committed `send` fixed: who sent what, and the ids and times its rows were given. */
  datatype Origin = Origin(
    clientAppId: Id, dto: SendDto, templateId: Id, templateCode: string, at: Time, iv: nat,
    payloadId: Id, recipientId: Id, outboxId: Id)

  function FieldValue(f: Field): Value {
    match f
    case Absent => Undefined
    case NullField => Null
    case Text(s) => Str(s)
  }

  /** `value ?? null` */
  function FieldColumn(f: Field): Option<string> {
    match f
    case Text(s) => Some(s)
    case _ => None
  }

  /** `receiverToRecord`: all five properties, undefined where the field is absent. */
  function ReceiverToRecord(r: ReceiverDto): Record {
    map["userId" := FieldValue(r.userId), "receiverName" := FieldValue(r.receiverName),
        "email" := FieldValue(r.email), "phoneNumber" := FieldValue(r.phoneNumber),
        "kakaoPhoneNumber" := FieldValue(r.kakaoPhoneNumber)]
  }

  /** `{ ...(dto.metadata ?? {}), channel, receiver }` */
  function RequestMetadata(dto: SendDto): Record {
    (match dto.metadata case Some(m) => m case None => map[])
      ["channel" := Str(ChannelName(dto.channel))]
      ["receiver" := Obj(ReceiverToRecord(dto.receiver))]
  }

  /** The request row as the transaction creates it in memory. */
  function NewRequest(id: Id, o: Origin): Request {
    Request(id, o.dto.requestId, o.clientAppId, o.templateId, Some(o.templateCode),
            match o.dto.priority case Some(p) => p case None => Normal,
            RequestStatus.Validated, o.dto.callbackUrl, Some(RequestMetadata(o.dto)),
            o.at, Some(o.at), None, None)
  }

  function NewPayload(c: Cipher, id: Id, o: Origin): Payload {
    Payload(o.payloadId, id, Encrypt(c, o.dto.variables, o.iv), Mask(o.dto.variables))
  }

  function NewRecipient(id: Id, o: Origin): Recipient {
    var r := o.dto.receiver;
    Recipient(o.recipientId, id, FieldColumn(r.userId), FieldColumn(r.receiverName), FieldColumn(r.email),
              FieldColumn(r.phoneNumber), FieldColumn(r.kakaoPhoneNumber), o.at)
  }

  /** The event `send` builds from the saved rows and the request body. */
  function SendEvent(request: Request, recipient: Recipient, payload: Payload, dto: SendDto): Event {
    Event(request.id, request.requestId, recipient.id, request.clientAppId,
          match request.templateCode case Some(t) => t case None => dto.templateCode,
          ChannelName(dto.channel), ReceiverToRecord(dto.receiver), payload.payloadJson,
          request.priority, request.callbackUrl, request.requestedAt)
  }

  function FirstEvent(c: Cipher, id: Id, o: Origin): Event {
    SendEvent(NewRequest(id, o), NewRecipient(id, o), NewPayload(c, id, o), o.dto)
  }

  function NewOutbox(c: Cipher, id: Id, o: Origin): Outbox {
    Outbox(o.outboxId, id, MessageRequestCreated, o.dto.requestId, FirstEvent(c, id, o),
           OutboxStatus.Pending, None, None, o.at)
  }

  // ---------------------------------------------------------------- storage and the wire

  /** An event as JSON text carries it: a Kafka value, or the outbox payload column read back. */
  function Wire(e: Event): Event {
    e.(receiver := CleanRecord(e.receiver), variables := CleanRecord(e.variables))
  }

  /** A request row as the database returns it. */
  function StoredRequest(r: Request): Request {
    match r.metadata
    case Some(m) => r.(metadata := Some(CleanRecord(m)))
    case None => r
  }

  function StoredOutbox(o: Outbox): Outbox {
    o.(payload := Wire(o.payload))
  }

  /** A recipient row as the database returns it: `user_id` is a uuid column and comes back in lower case. */
  function StoredRecipient(r: Recipient): Recipient {
    match r.userId
    case Some(u) => r.(userId := Some(Lower(u)))
    case None => r
  }

  function StoredPayload(p: Payload): Payload {
    p.(payloadJson := CleanRecord(p.payloadJson), maskedPayloadJson := CleanRecord(p.maskedPayloadJson))
  }

  lemma WireTwice(e: Event)
    ensures Wire(Wire(e)) == Wire(e)
  {
    CleanRecordTwice(e.receiver);
    CleanRecordTwice(e.variables);
  }

  // ---------------------------------------------------------------- the two rebuilders

  /** `asRecord` */
  function AsRecord(m: Option<Record>): Record {
    match m case Some(r) => r case None => map[]
  }

  /** `readString` */
  function ReadString(r: Record, key: string): Option<string> {
    if key in r && r[key].Str? then Some(r[key].s) else None
  }

  /** `readRecord` */
  function ReadRecord(r: Record, key: string): Option<Record> {
    if key in r && r[key].Obj? then Some(r[key].fields) else None
  }

  function TextOrEmpty(t: Option<string>): string {
    match t case Some(s) => s case None => ""
  }

  /** The event of `handleExistingRequest`; None is MSG_REQUEST_DATA_MISSING. An empty channel is falsy too. */
  function ResendEvent(request: Request, payload: Payload, recipient: Option<Recipient>): Option<Event> {
    var metadata := AsRecord(request.metadata);
    var channel := ReadString(metadata, "channel");
    var receiver := ReadRecord(metadata, "receiver");
    if channel.None? || channel.value == "" || receiver.None? || recipient.None? then None
    else
      Some(Event(request.id, request.requestId, recipient.value.id, request.clientAppId,
                 TextOrEmpty(request.templateCode), channel.value, receiver.value, payload.payloadJson,
                 request.priority, request.callbackUrl, request.requestedAt))
  }

  function ColumnValue(c: Option<string>): Value {
    match c case Some(s) => Str(s) case None => Null
  }

  function RecipientToRecord(r: Recipient): Record {
    map["userId" := ColumnValue(r.userId), "receiverName" := ColumnValue(r.receiverName),
        "email" := ColumnValue(r.email), "phoneNumber" := ColumnValue(r.phoneNumber),
        "kakaoPhoneNumber" := ColumnValue(r.kakaoPhoneNumber)]
  }

  /** The event of `retryDispatch`: a channel that is not a string falls back to EMAIL. */
  function RetryEvent(request: Request, payload: Payload, recipient: Recipient): Event {
    var channel := ReadString(AsRecord(request.metadata), "channel");
    Event(request.id, request.requestId, recipient.id, request.clientAppId, TextOrEmpty(request.templateCode),
          match channel case Some(ch) => ch case None => "EMAIL",
          RecipientToRecord(recipient), payload.payloadJson, request.priority, request.callbackUrl,
          request.requestedAt)
  }

  /** A stored request whose metadata has no string channel, whatever else it has, is retried as an EMAIL; one without
      a template code is published again under an empty one. */
  lemma FallsBack(request: Request, payload: Payload, recipient: Recipient)
    ensures var m := if request.metadata.Some? then request.metadata.value else map[];
      var code := if request.templateCode.Some? then request.templateCode.value else "";
      var retried, resent := RetryEvent(request, payload, recipient), ResendEvent(request, payload, Some(recipient));
      && retried.channel == (if "channel" in m && m["channel"].Str? then m["channel"].s else "EMAIL")
      && retried.templateCode == code && (resent.Some? ==> resent.value.templateCode == code)
  {
  }

  // ---------------------------------------------------------------- agreement

  const RECEIVER_KEYS := {"userId", "receiverName", "email", "phoneNumber", "kakaoPhoneNumber"}

  /** A receiver property, with absent read as null. */
  function PropertyOrNull(r: Record, key: string): Value {
    if key in r then r[key] else Null
  }

  /** The same property; a user id may differ in case. */
  predicate SameProperty(key: string, a: Value, b: Value) {
    a == b || (key == "userId" && a.Str? && b.Str? && Lower(a.s) == Lower(b.s))
  }

  /** The same receiver up to absent versus null and the case of the user id. */
  ghost predicate SameReceiver(a: Record, b: Record) {
    a.Keys <= RECEIVER_KEYS && b.Keys <= RECEIVER_KEYS &&
    forall k | k in RECEIVER_KEYS :: SameProperty(k, PropertyOrNull(a, k), PropertyOrNull(b, k))
  }

  /** Two events that differ at most in absent versus null receiver properties and the case of the user id. */
  ghost predicate Agrees(a: Event, b: Event) {
    a.(receiver := b.receiver) == b && SameReceiver(a.receiver, b.receiver)
  }

  /** The columns of a request row that no service ever changes. */
  function Core(r: Request): Request {
    r.(status := RequestStatus.Validated, queuedAt := None, completedAt := None)
  }

  /** The two times of a request row that come with a status. */
  predicate Stamped(r: Request) {
    && (r.status == RequestStatus.Validated ==> r.queuedAt == None && r.completedAt == None)
    && (r.status == RequestStatus.Queued ==> r.queuedAt.Some?)
    && (r.status == RequestStatus.Completed ==> r.completedAt.Some?)
  }

  /** A request row in memory that would be stored as the request `o` created, whatever its status. */
  ghost predicate IsRequestOf(r: Request, id: Id, o: Origin) {
    StoredRequest(Core(r)) == StoredRequest(NewRequest(id, o)) && Stamped(r)
  }

  lemma MetadataReads(r: Request, id: Id, o: Origin)
    requires IsRequestOf(r, id, o) && r == StoredRequest(r)
    ensures var m := AsRecord(r.metadata);
      && ReadString(m, "channel") == Some(ChannelName(o.dto.channel))
      && ReadRecord(m, "receiver") == Some(CleanRecord(ReceiverToRecord(o.dto.receiver)))
  {
    assert StoredRequest(Core(r)).metadata == r.metadata;
    var m := RequestMetadata(o.dto);
    CleanRecordAt(m, "channel");
    CleanRecordAt(m, "receiver");
  }

  /** The event rebuilt on re-send is the stored outbox payload itself, for every request body, also one whose
      `metadata` has `channel` or `receiver` keys of its own; the data-missing error cannot arise. */
  lemma ResendRebuildsTheEvent(c: Cipher, r: Request, id: Id, o: Origin)
    requires Faithful(c) && IsRequestOf(r, id, o) && r == StoredRequest(r)
    ensures ResendEvent(r, StoredPayload(NewPayload(c, id, o)), Some(StoredRecipient(NewRecipient(id, o))))
         == Some(StoredOutbox(NewOutbox(c, id, o)).payload)
  {
    MetadataReads(r, id, o);
    EnvelopeRoundTrip(c, o.dto.variables, o.iv);
    assert ChannelName(o.dto.channel) != "";
  }

  /** One receiver field, sent and cleaned, against its column. */
  lemma FieldRebuilt(f: Field)
    ensures var v := FieldValue(f);
      (if v.Undefined? then Null else Clean(v)) == ColumnValue(FieldColumn(f)) && IsJson(ColumnValue(FieldColumn(f)))
  {
  }

  /** A sent receiver property, read back through JSON with absent read as null. */
  lemma PropertyRebuilt(r: ReceiverDto, k: string)
    requires k in RECEIVER_KEYS
    ensures k in ReceiverToRecord(r)
    ensures var v := ReceiverToRecord(r)[k];
      PropertyOrNull(CleanRecord(ReceiverToRecord(r)), k) == if v.Undefined? then Null else Clean(v)
  {
    hide Clean, FieldValue;
    CleanRecordAt(ReceiverToRecord(r), k);
  }

  /** A user id, lower-cased by its column, against the one sent. */
  lemma UserIdRebuilt(f: Field)
    ensures var column := match FieldColumn(f) case Some(u) => Some(Lower(u)) case None => None;
      && IsJson(ColumnValue(column)) && SameProperty("userId", ColumnValue(column), ColumnValue(FieldColumn(f)))
      && (ColumnValue(column) == ColumnValue(FieldColumn(f)) <==> (f.Text? ==> Lower(f.text) == f.text))
  {
    if f.Text? { LowerTwice(f.text); }
  }

  /** The receiver read back from the recipient's columns, against the one sent. */
  lemma ReceiverRebuilt(id: Id, o: Origin)
    ensures var rebuilt := RecipientToRecord(StoredRecipient(NewRecipient(id, o)));
      && SameReceiver(rebuilt, CleanRecord(ReceiverToRecord(o.dto.receiver)))
      && CleanRecord(rebuilt) == rebuilt
  {
    hide FieldColumn, FieldValue, ColumnValue, Clean, Lower, SameProperty;
    var r := o.dto.receiver;
    var rebuilt := RecipientToRecord(StoredRecipient(NewRecipient(id, o)));
    UserIdRebuilt(r.userId);
    FieldRebuilt(r.userId);
    FieldRebuilt(r.receiverName);
    FieldRebuilt(r.email);
    FieldRebuilt(r.phoneNumber);
    FieldRebuilt(r.kakaoPhoneNumber);
    SameItself();
    CleanKeepsRecord(rebuilt);
    SentKeys(r);
    forall k | k in RECEIVER_KEYS
      ensures SameProperty(k, PropertyOrNull(rebuilt, k), PropertyOrNull(CleanRecord(ReceiverToRecord(r)), k))
    {
      PropertyRebuilt(r, k);
    }
  }

  lemma SameItself()
    ensures forall k, v :: SameProperty(k, v, v)
  {
  }

  lemma SentKeys(r: ReceiverDto)
    ensures CleanRecord(ReceiverToRecord(r)).Keys <= RECEIVER_KEYS
  {
    hide Clean, FieldValue;
    forall k | k in CleanRecord(ReceiverToRecord(r)) ensures k in RECEIVER_KEYS { CleanRecordAt(ReceiverToRecord(r), k); }
  }

  lemma CleanKeepsRecord(f: Record)
    requires forall k | k in f :: IsJson(f[k])
    ensures CleanRecord(f) == f
  {
    CleanKeepsJson(Obj(f));
  }

  /** The event rebuilt on retry agrees with the stored outbox payload up to absent versus null receiver properties
      and the case of the user id, under the same generality. */
  lemma RetryRebuildsTheEvent(c: Cipher, r: Request, id: Id, o: Origin)
    requires Faithful(c) && IsRequestOf(r, id, o) && r == StoredRequest(r)
    ensures var rebuilt := RetryEvent(r, StoredPayload(NewPayload(c, id, o)), StoredRecipient(NewRecipient(id, o)));
      Wire(rebuilt) == rebuilt && Agrees(rebuilt, Wire(FirstEvent(c, id, o)))
  {
    MetadataReads(r, id, o);
    EnvelopeRoundTrip(c, o.dto.variables, o.iv);
    ReceiverRebuilt(id, o);
  }

  /** The three builders give the same event exactly when no optional receiver field is left out and the user id, if
      there is one, is in lower case: absent becomes null on the retry path, and the uuid column lower-cases. */
  lemma RetryEqualsSentIff(c: Cipher, r: Request, id: Id, o: Origin)
    requires Faithful(c) && IsRequestOf(r, id, o) && r == StoredRequest(r)
    ensures RetryEvent(r, StoredPayload(NewPayload(c, id, o)), StoredRecipient(NewRecipient(id, o))) == Wire(FirstEvent(c, id, o))
       <==> var d := o.dto.receiver;
            && !d.userId.Absent? && !d.receiverName.Absent? && !d.email.Absent? && !d.phoneNumber.Absent?
            && !d.kakaoPhoneNumber.Absent? && (d.userId.Text? ==> Lower(d.userId.text) == d.userId.text)
  {
    hide Lower, Clean, FieldValue, FieldColumn, ColumnValue;
    RetryRebuildsTheEvent(c, r, id, o);
    var d := o.dto.receiver;
    var sent := CleanRecord(ReceiverToRecord(d));
    var rebuilt := RecipientToRecord(StoredRecipient(NewRecipient(id, o)));
    UserIdRebuilt(d.userId);
    SentWhole(d);
    forall k | k in RECEIVER_KEYS ensures PropertyOrNull(sent, k) == ColumnValue(FieldColumn(FieldOf(d, k))) {
      PropertyRebuilt(d, k);
      FieldRebuilt(FieldOf(d, k));
    }
    assert "userId" in RECEIVER_KEYS && "receiverName" in RECEIVER_KEYS && "email" in RECEIVER_KEYS
           && "phoneNumber" in RECEIVER_KEYS && "kakaoPhoneNumber" in RECEIVER_KEYS;
    assert rebuilt == sent <==> sent.Keys == RECEIVER_KEYS && rebuilt["userId"] == sent["userId"];
  }

  function FieldOf(r: ReceiverDto, key: string): Field {
    if key == "userId" then r.userId
    else if key == "receiverName" then r.receiverName
    else if key == "email" then r.email
    else if key == "phoneNumber" then r.phoneNumber
    else r.kakaoPhoneNumber
  }

  /** All five properties are sent exactly when none is left out. */
  lemma SentWhole(r: ReceiverDto)
    ensures CleanRecord(ReceiverToRecord(r)).Keys <= RECEIVER_KEYS
    ensures CleanRecord(ReceiverToRecord(r)).Keys == RECEIVER_KEYS <==>
      !r.userId.Absent? && !r.receiverName.Absent? && !r.email.Absent? && !r.phoneNumber.Absent? && !r.kakaoPhoneNumber.Absent?
  {
    hide Clean;
    SentKeys(r);
    var sent := ReceiverToRecord(r);
    forall k | k in RECEIVER_KEYS ensures k in CleanRecord(sent) <==> !sent[k].Undefined? { CleanRecordAt(sent, k); }
    assert "userId" in RECEIVER_KEYS && "receiverName" in RECEIVER_KEYS && "email" in RECEIVER_KEYS
           && "phoneNumber" in RECEIVER_KEYS && "kakaoPhoneNumber" in RECEIVER_KEYS;
  }

  /** A complete receiver whose user id is in upper case: the retry event differs from the one sent, and not only in
      absent versus null. */
  lemma UpperCaseUserIdDiffers(c: Cipher, r: Request, id: Id, o: Origin)
    requires Faithful(c) && IsRequestOf(r, id, o) && r == StoredRequest(r)
    requires o.dto.receiver == ReceiverDto(Text("A0EEBC99-9C0B-4EF8-BB6D-6BB9BD380A11"), NullField, NullField, NullField, NullField)
    ensures var rebuilt, sent :=
        RetryEvent(r, StoredPayload(NewPayload(c, id, o)), StoredRecipient(NewRecipient(id, o))), Wire(FirstEvent(c, id, o));
      && rebuilt != sent
      && PropertyOrNull(rebuilt.receiver, "userId") == Str(Lower("A0EEBC99-9C0B-4EF8-BB6D-6BB9BD380A11"))
      && PropertyOrNull(sent.receiver, "userId") == Str("A0EEBC99-9C0B-4EF8-BB6D-6BB9BD380A11")
      && PropertyOrNull(rebuilt.receiver, "userId") != PropertyOrNull(sent.receiver, "userId")
  {
    var u := "A0EEBC99-9C0B-4EF8-BB6D-6BB9BD380A11";
    assert Lower(u)[0] == 'a' && u[0] == 'A';
    CleanRecordAt(ReceiverToRecord(o.dto.receiver), "userId");
  }
}
