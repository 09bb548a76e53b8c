/** `MessageRequestService` as a program over the repositories, against the steps of the pipeline's gateway calls. */
module GatewayService {
  import opened Json
  import opened Domain
  import opened Crypto
  import opened Events
  import opened Masking
  import opened Templates
  import opened World
  import opened Gateway
  import opened Store
  import opened Pipeline

  /** A call's steps without anybody in between, from one point on: the world it leaves, and its reply. */
  ghost function SendRun(c: Cipher, w: World, pc: SendPc, env: nat -> Answer, n: nat): (World, Reply)
    decreases Rank(pc)
  {
    if pc.Done? then (w, pc.reply)
    else
      var (w', pc') := SendStep(c, w, pc, env(n));
      SendRun(c, w', pc', env, n + 1)
  }

  lemma RunOn(c: Cipher, w: World, pc: SendPc, env: nat -> Answer, n: nat)
    requires !pc.Done?
    ensures var (w', pc') := SendStep(c, w, pc, env(n));
      SendRun(c, w, pc, env, n) == if pc'.Done? then (w', pc'.reply) else SendRun(c, w', pc', env, n + 1)
  {
    hide SendStep;
    var (w', pc') := SendStep(c, w, pc, env(n));
    if pc'.Done? { assert SendRun(c, w', pc', env, n + 1) == (w', pc'.reply); }
  }

  /** A call under way, stepped to its reply. */
  lemma {:induction false} DriveSend(c: Cipher, s: State, prefix: seq<Action>, call: nat, env: nat -> Answer, n: nat)
    returns (run: seq<Action>)
    requires call in Exec(c, s, prefix).sends
    ensures var s1 := Exec(c, s, prefix);
      var end := SendRun(c, s1.w, s1.sends[call], env, n);
      Exec(c, s, run) == s1.(w := end.0, sends := s1.sends[call := Done(end.1)])
    decreases Rank(Exec(c, s, prefix).sends[call])
  {
    hide Exec, SendStep;
    var s1 := Exec(c, s, prefix);
    if s1.sends[call].Done? {
      run := prefix;
      assert s1.sends == s1.sends[call := s1.sends[call]];
    } else {
      var step := StepSend(call, env(n));
      ExecMore(c, s, prefix, step);
      run := DriveSend(c, s, prefix + [step], call, env, n + 1);
      var end := Done(SendRun(c, s1.w, s1.sends[call], env, n).1);
      assert Exec(c, s, prefix + [step]).sends[call := end] == s1.sends[call := end];
    }
  }

  /** An uninterrupted call is a run of the pipeline: so everything proved of the pipeline's runs holds of the
      program below. */
  lemma SendRunIsARun(c: Cipher, s: State, call: nat, clientAppId: Id, dto: SendDto, env: nat -> Answer)
    returns (run: seq<Action>)
    requires call !in s.sends
    ensures var end := SendRun(c, s.w, Start(clientAppId, dto), env, 0);
      Exec(c, s, run) == s.(w := end.0, sends := s.sends[call := Done(end.1)])
  {
    hide Exec, SendRun;
    ExecNothing(c, s);
    ExecMore(c, s, [], StartSend(call, clientAppId, dto));
    run := DriveSend(c, s, [] + [StartSend(call, clientAppId, dto)], call, env, 0);
    var end := Done(SendRun(c, s.w, Start(clientAppId, dto), env, 0).1);
    assert Exec(c, s, [] + [StartSend(call, clientAppId, dto)]).sends[call := end] == s.sends[call := end];
  }

  class MessageRequestService {
    const cipher: Cipher
    const store: Repositories

    constructor (cipher: Cipher, store: Repositories)
      ensures this.cipher == cipher && this.store == store
    {
      this.cipher, this.store := cipher, store;
    }

    /** The n-th awaited call is answered by env(n); a thrown exception is a reply as well. */
    method Send(clientAppId: Id, dto: SendDto, env: nat -> Answer) returns (reply: Reply)
      requires OneRowEach(store.W())
      modifies store
      ensures (store.W(), reply) == SendRun(cipher, old(store.W()), Start(clientAppId, dto), env, 0)
    {
      hide SendRun, FindRequest, StoredRequest, ToResponse, NewRequest, NewOutbox, FindActive, FindAccess, OneRowEach, CommitRows;
      ghost var w := store.W();
      RunOn(cipher, w, Start(clientAppId, dto), env, 0);
      if !env(0).ok { return Unhandled; }
      var existingRequest := store.FindRequestByKey(dto.requestId);
      if existingRequest.Some? {
        reply := HandleExistingRequest(existingRequest.value, env, 1);
        return;
      }
      RunOn(cipher, w, FindTemplate(clientAppId, dto), env, 1);
      if !env(1).ok { return Unhandled; }
      var found := FindActive(env(1).catalog.templates, dto.templateCode);
      if found.None? { return Rejected(TemplateNotFound); }
      var template := found.value;
      var n := 2;
      if template.scope != Public {
        RunOn(cipher, w, CheckAccess(clientAppId, dto, template), env, 2);
        if !env(2).ok { return Unhandled; }
        var access := FindAccess(env(2).catalog.accesses, template.id, clientAppId);
        if access.None? { return Rejected(TemplateNotFound); }
        n := 3;
      }
      RunOn(cipher, w, ReadVariables(clientAppId, dto, template), env, n);
      if !env(n).ok { return Unhandled; }
      if !env(n).valid { return Rejected(InvalidVariables); }

      RunOn(cipher, w, Commit(clientAppId, dto, template), env, n + 1);
      var saved := Transact(clientAppId, dto, template, env(n + 1));
      if saved.None? { return Unhandled; }
      reply := PublishNew(saved.value.0, saved.value.1, ChannelName(dto.channel), env, n + 2);
    }

    /** The transaction: the request, its payload masked and encrypted, its recipient and the outbox row with the
        event. */
    method Transact(clientAppId: Id, dto: SendDto, template: Template, a: Answer) returns (saved: Option<(Request, Outbox)>)
      modifies store
      ensures saved.Some? <==> a.ok && CanCommit(old(store.W()), dto, a.tx)
      ensures
        var o := Origin(clientAppId, dto, template.id, template.templateCode, old(store.now), a.iv, a.tx.payload,
                        a.tx.recipient, a.tx.outbox);
        if saved.Some? then
          && saved.value == (NewRequest(a.tx.request, o), NewOutbox(cipher, a.tx.request, o))
          && store.W() == CommitRows(cipher, old(store.W()), a.tx.request, o)
        else store.W() == old(store.W())
    {
      hide StoredRequest, StoredPayload, StoredOutbox, StoredRecipient, Encrypt, Mask;
      ghost var o := Origin(clientAppId, dto, template.id, template.templateCode, store.now, a.iv, a.tx.payload,
                            a.tx.recipient, a.tx.outbox);
      var metadata := match dto.metadata case Some(m) => m case None => map[];
      metadata := metadata["channel" := Str(ChannelName(dto.channel))];
      metadata := metadata["receiver" := Obj(ReceiverToRecord(dto.receiver))];
      var savedRequest := Request(
        a.tx.request, dto.requestId, clientAppId, template.id, Some(template.templateCode),
        match dto.priority case Some(p) => p case None => Normal,
        RequestStatus.Validated, dto.callbackUrl, Some(metadata), store.now, Some(store.now), None, None);

      var maskedPayload := MaskRecord(Obj(dto.variables));
      var encryptedPayload := Encrypt(cipher, dto.variables, a.iv);
      var payload := Payload(a.tx.payload, savedRequest.id, encryptedPayload, maskedPayload);

      var receiver := dto.receiver;
      var savedRecipient := Recipient(
        a.tx.recipient, savedRequest.id, FieldColumn(receiver.userId), FieldColumn(receiver.receiverName),
        FieldColumn(receiver.email), FieldColumn(receiver.phoneNumber), FieldColumn(receiver.kakaoPhoneNumber), store.now);

      var event := Event(
        savedRequest.id, savedRequest.requestId, savedRecipient.id, savedRequest.clientAppId, template.templateCode,
        ChannelName(dto.channel), ReceiverToRecord(dto.receiver), encryptedPayload, savedRequest.priority,
        savedRequest.callbackUrl, savedRequest.requestedAt);
      var outboxEntry := Outbox(
        a.tx.outbox, savedRequest.id, MessageRequestCreated, savedRequest.requestId, event, OutboxStatus.Pending, None, None,
        store.now);

      var done := store.InsertSendRows(savedRequest, payload, savedRecipient, outboxEntry, o, a);
      saved := if done then Some((savedRequest, outboxEntry)) else None;
    }

    /** The try block after the transaction. */
    method PublishNew(request: Request, entry: Outbox, channel: string, env: nat -> Answer, n: nat)
      returns (reply: Reply)
      modifies store
      ensures (store.W(), reply) == SendRun(cipher, old(store.W()), Publish(request, entry, channel), env, n)
    {
      hide SendRun, StoredRequest, Wire, ToResponse;
      var savedRequest, outboxEntry := request, entry;
      RunOn(cipher, store.W(), Publish(savedRequest, outboxEntry, channel), env, n);
      var done := store.PublishMessage(outboxEntry.payload.requestId, outboxEntry.payload, env(n));
      if !done { return Rejected(KafkaPublishFailed); }
      outboxEntry := outboxEntry.(status := OutboxStatus.Published, publishedAt := Some(store.now));
      RunOn(cipher, store.W(), SaveEntry(savedRequest, outboxEntry, channel), env, n + 1);
      done := store.SaveOutboxRow(outboxEntry, env(n + 1));
      if !done { return Rejected(KafkaPublishFailed); }
      savedRequest := savedRequest.(status := RequestStatus.Queued, queuedAt := Some(store.now));
      RunOn(cipher, store.W(), SaveQueued(savedRequest, channel), env, n + 2);
      done := store.SaveRequestRow(savedRequest, env(n + 2));
      if !done { return Rejected(KafkaPublishFailed); }
      reply := ToResponse(savedRequest, Some(channel));
    }

    method HandleExistingRequest(request: Request, env: nat -> Answer, n: nat) returns (reply: Reply)
      requires OneRowEach(store.W())
      modifies store
      ensures (store.W(), reply) ==
        if request.status != RequestStatus.Validated then (old(store.W()), ToResponse(request, None))
        else SendRun(cipher, old(store.W()), ReadStored(request), env, n)
    {
      hide SendRun, FindPayload, FindRecipient, ResendEvent, StoredRequest, Wire, ToResponse, OneRowEach;
      var existingRequest := request;
      if existingRequest.status != RequestStatus.Validated { return ToResponse(existingRequest, None); }
      RunOn(cipher, store.W(), ReadStored(existingRequest), env, n);
      if !env(n).ok { return Unhandled; }
      var payload := store.FindPayloadOf(existingRequest.id);
      if payload.None? { return Rejected(PayloadNotFound); }
      RunOn(cipher, store.W(), ReadRecipient(existingRequest, payload.value), env, n + 1);
      if !env(n + 1).ok { return Unhandled; }
      var recipient := store.FindRecipientOf(existingRequest.id);
      var event := ResendEvent(existingRequest, payload.value, recipient);
      if event.None? { return Rejected(DataMissing); }
      RunOn(cipher, store.W(), Republish(existingRequest, event.value), env, n + 2);
      var done := store.PublishMessage(event.value.requestId, event.value, env(n + 2));
      if !done { return Rejected(KafkaPublishFailed); }
      existingRequest := existingRequest.(status := RequestStatus.Queued, queuedAt := Some(store.now));
      RunOn(cipher, store.W(), SaveRequeued(existingRequest, event.value.channel), env, n + 3);
      done := store.SaveRequestRow(existingRequest, env(n + 3));
      if !done { return Unhandled; }
      reply := ToResponse(existingRequest, Some(event.value.channel));
    }
  }
}
