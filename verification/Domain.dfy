/** The rows, events and requests that the services exchange. */
module Domain {
  import opened Json

  datatype Option<+T> = None | Some(value: T)

  /** `findOne` by primary key */
  function Lookup<V>(table: map<Id, V>, id: Id): Option<V> {
    if id in table then Some(table[id]) else None
  }

  /** A UUID. Rows get theirs from the database or from the caller of `save`. */
  type Id = nat

  /** Milliseconds since the epoch. */
  type Time = nat

  datatype Channel = Email | Sms | Kakao | Chat

  function ChannelName(c: Channel): string {
    match c
    case Email => "EMAIL"
    case Sms => "SMS"
    case Kakao => "KAKAO"
    case Chat => "CHAT"
  }

  lemma ChannelNamesDiffer(a: Channel, b: Channel)
    requires ChannelName(a) == ChannelName(b)
    ensures a == b
  {
    assert "EMAIL"[0] == 'E' && "SMS"[0] == 'S' && "KAKAO"[0] == 'K' && "CHAT"[0] == 'C';
  }

  datatype Priority = Low | Normal | High | Urgent

  datatype RequestStatus =
    Received | Validated | Queued | Processing | Completed | PartialFailed | Failed | Canceled

  datatype DispatchStatus =
    Queued | Processing | Sent | Delivered | Success | Failed | RetryWait | Canceled

  datatype OutboxStatus = Pending | Published | Failed

  datatype OutboxEventType = MessageRequestCreated | OtherEvent

  datatype LogType = RequestLog | SuccessLog | RetryLog | FailLog

  datatype LogStatus = Processing | Success | Failed

  /** tb_message_request */
  datatype Request = Request(
    id: Id, requestId: string, clientAppId: Id, templateId: Id, templateCode: Option<string>,
    priority: Priority, status: RequestStatus, callbackUrl: Option<string>, metadata: Option<Record>,
    requestedAt: Time, validatedAt: Option<Time>, queuedAt: Option<Time>, completedAt: Option<Time>)

  /** tb_message_payload */
  datatype Payload = Payload(id: Id, messageRequestId: Id, payloadJson: Record, maskedPayloadJson: Record)

  /** tb_message_recipient */
  datatype Recipient = Recipient(
    id: Id, messageRequestId: Id, userId: Option<string>, receiverName: Option<string>, email: Option<string>,
    phoneNumber: Option<string>, kakaoPhoneNumber: Option<string>, createdAt: Time)

  /** The event on topic `message.send`. */
  datatype Event = Event(
    messageRequestId: Id, requestId: string, recipientId: Id, clientAppId: Id, templateCode: string,
    channel: string, receiver: Record, variables: Record, priority: Priority, callbackUrl: Option<string>,
    requestedAt: Time)

  /** The event on topic `message.dlq`. */
  datatype DlqEvent = DlqEvent(event: Event, dispatchId: Id, errorCode: string, errorMessage: string, retryCount: int)

  /** tb_message_outbox */
  datatype Outbox = Outbox(
    id: Id, aggregateId: Id, eventType: OutboxEventType, eventKey: string, payload: Event,
    status: OutboxStatus, publishedAt: Option<Time>, errorMessage: Option<string>, createdAt: Time)

  /** tb_message_dispatch */
  datatype Dispatch = Dispatch(
    id: Id, messageRequestId: Id, recipientId: Id, channelType: Channel, status: DispatchStatus,
    retryCount: int, maxRetryCount: int, nextRetryAt: Option<Time>, lastErrorCode: Option<string>,
    lastErrorMessage: Option<string>, providerMessageId: Option<(Channel, Id)>, queuedAt: Option<Time>,
    processingAt: Option<Time>, sentAt: Option<Time>, successAt: Option<Time>, failedAt: Option<Time>)

  /** tb_message_dispatch_log, without the free-form response. */
  datatype LogEntry = LogEntry(logType: LogType, status: LogStatus)

  /** An optional field of the request body: `@IsOptional` admits both an absent field and null. */
  datatype Field = Absent | NullField | Text(text: string)

  datatype ReceiverDto = ReceiverDto(
    userId: Field, receiverName: Field, email: Field, phoneNumber: Field, kakaoPhoneNumber: Field)

  datatype SendDto = SendDto(
    requestId: string, templateCode: string, channel: Channel, receiver: ReceiverDto, variables: Record,
    priority: Option<Priority>, callbackUrl: Option<string>, metadata: Option<Record>)

  /** One message of the topic: its partition key and its value. */
  datatype Message = Message(key: string, event: Event)
}
