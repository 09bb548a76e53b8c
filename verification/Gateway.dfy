/** `MessageRequestService`, one awaited call at a time. */
module Gateway {
  import opened Domain
  import opened Crypto
  import opened Events
  import opened Templates
  import opened World

  datatype ErrorCode = TemplateNotFound | InvalidVariables | PayloadNotFound | DataMissing | KafkaPublishFailed

  datatype Reply =
    | Replied(requestId: string, status: RequestStatus, channel: Option<string>)
    | Rejected(code: ErrorCode)
    | Unhandled

  /** Where a call of `send` stands: what it holds in memory before its next awaited call. */
  datatype SendPc =
    | Start(clientAppId: Id, dto: SendDto)
    | FindTemplate(clientAppId: Id, dto: SendDto)
    | CheckAccess(clientAppId: Id, dto: SendDto, template: Template)
    | ReadVariables(clientAppId: Id, dto: SendDto, template: Template)
    | Commit(clientAppId: Id, dto: SendDto, template: Template)
    | Publish(request: Request, entry: Outbox, channel: string)
    | SaveEntry(request: Request, entry: Outbox, channel: string)
    | SaveQueued(request: Request, channel: string)
    | ReadStored(request: Request)
    | ReadRecipient(request: Request, payload: Payload)
    | Republish(request: Request, event: Event)
    | SaveRequeued(request: Request, channel: string)
    | Done(reply: Reply)

  /** `toResponse` */
  function ToResponse(r: Request, channel: Option<string>): Reply {
    Replied(r.requestId, r.status, if channel.Some? then channel else ReadString(AsRecord(r.metadata), "channel"))
  }

  function MarkQueued(r: Request, now: Time): Request {
    r.(status := RequestStatus.Queued, queuedAt := Some(now))
  }

  function MarkPublished(o: Outbox, now: Time): Outbox {
    o.(status := OutboxStatus.Published, publishedAt := Some(now))
  }

  /** Awaited calls left before the reply, at most. */
  function Rank(pc: SendPc): nat {
    match pc
    case Start(_, _) => 8
    case FindTemplate(_, _) => 7
    case CheckAccess(_, _, _) => 6
    case ReadVariables(_, _, _) => 5
    case Commit(_, _, _) | ReadStored(_) => 4
    case Publish(_, _, _) | ReadRecipient(_, _) => 3
    case SaveEntry(_, _, _) | Republish(_, _) => 2
    case SaveQueued(_, _) | SaveRequeued(_, _) => 1
    case Done(_) => 0
  }

  /** `getTemplateByCode`, `getVariablesByTemplateId` and the validator. */
  function TemplateStep(pc: SendPc, a: Answer): (r: SendPc)
    requires pc.FindTemplate? || pc.CheckAccess? || pc.ReadVariables?
    ensures Rank(r) < Rank(pc)
  {
    if !a.ok then Done(Unhandled)
    else
      match pc
      case FindTemplate(client, dto) =>
        (match FindActive(a.catalog.templates, dto.templateCode)
         case None => Done(Rejected(TemplateNotFound))
         case Some(t) => if t.scope == Public then ReadVariables(client, dto, t) else CheckAccess(client, dto, t))
      case CheckAccess(client, dto, t) =>
        if FindAccess(a.catalog.accesses, t.id, client).None? then Done(Rejected(TemplateNotFound))
        else ReadVariables(client, dto, t)
      case ReadVariables(client, dto, t) => if a.valid then Commit(client, dto, t) else Done(Rejected(InvalidVariables))
  }

  /** The try block after the transaction. */
  function PublishStep(w: World, pc: SendPc, a: Answer): (r: (World, SendPc))
    requires pc.Publish? || pc.SaveEntry? || pc.SaveQueued?
    ensures Rank(r.1) < Rank(pc)
  {
    match pc
    case Publish(request, entry, channel) =>
      (PublishSend(w, entry.payload, a),
       if a.ok then SaveEntry(request, MarkPublished(entry, w.now), channel) else Done(Rejected(KafkaPublishFailed)))
    case SaveEntry(request, entry, channel) =>
      if a.ok then (SaveOutbox(w, entry), SaveQueued(MarkQueued(request, w.now), channel))
      else (w, Done(Rejected(KafkaPublishFailed)))
    case SaveQueued(request, channel) =>
      if a.ok then (SaveRequest(w, request), Done(ToResponse(request, Some(channel))))
      else (w, Done(Rejected(KafkaPublishFailed)))
  }

  /** `handleExistingRequest` for a request that is still VALIDATED. */
  ghost function ResendStep(w: World, pc: SendPc, a: Answer): (r: (World, SendPc))
    requires pc.ReadStored? || pc.ReadRecipient? || pc.Republish? || pc.SaveRequeued?
    ensures Rank(r.1) < Rank(pc)
  {
    match pc
    case ReadStored(request) =>
      if !a.ok then (w, Done(Unhandled)) else
      (match FindPayload(w, request.id)
       case None => (w, Done(Rejected(PayloadNotFound)))
       case Some(p) => (w, ReadRecipient(request, p)))
    case ReadRecipient(request, payload) =>
      if !a.ok then (w, Done(Unhandled)) else
      (match ResendEvent(request, payload, FindRecipient(w, request.id))
       case None => (w, Done(Rejected(DataMissing)))
       case Some(e) => (w, Republish(request, e)))
    case Republish(request, e) =>
      (PublishSend(w, e, a),
       if a.ok then SaveRequeued(MarkQueued(request, w.now), e.channel) else Done(Rejected(KafkaPublishFailed)))
    case SaveRequeued(request, channel) =>
      if a.ok then (SaveRequest(w, request), Done(ToResponse(request, Some(channel)))) else (w, Done(Unhandled))
  }

  /** One awaited call of `send` or `handleExistingRequest` and the code up to the next one. */
  ghost function SendStep(c: Cipher, w: World, pc: SendPc, a: Answer): (r: (World, SendPc))
    ensures !pc.Done? ==> Rank(r.1) < Rank(pc)
  {
    match pc
    case Start(client, dto) =>
      if !a.ok then (w, Done(Unhandled)) else
      (match FindRequest(w, dto.requestId)
       case Some(r) =>
         // Only VALIDATED is published again.
         if r.status != RequestStatus.Validated then (w, Done(ToResponse(r, None))) else (w, ReadStored(r))
       case None => (w, FindTemplate(client, dto)))
    case FindTemplate(_, _) | CheckAccess(_, _, _) | ReadVariables(_, _, _) => (w, TemplateStep(pc, a))
    case Commit(client, dto, t) =>
      if !a.ok || !CanCommit(w, dto, a.tx) then (w, Done(Unhandled))
      else
        var o := Origin(client, dto, t.id, t.templateCode, w.now, a.iv, a.tx.payload, a.tx.recipient, a.tx.outbox);
        (CommitRows(c, w, a.tx.request, o),
         Publish(NewRequest(a.tx.request, o), NewOutbox(c, a.tx.request, o), ChannelName(dto.channel)))
    case Publish(_, _, _) | SaveEntry(_, _, _) | SaveQueued(_, _) => PublishStep(w, pc, a)
    case ReadStored(_) | ReadRecipient(_, _) | Republish(_, _) | SaveRequeued(_, _) => ResendStep(w, pc, a)
    case Done(_) => (w, pc)
  }
}
