/** What a gateway call answers, and what it has to find before it commits anything. */
module Calls {
  import opened Domain
  import opened Crypto
  import opened Events
  import opened Templates
  import opened World
  import opened Gateway
  import opened Pipeline
  import opened Invariants
  import opened Steps
  import opened Actors
  import opened Theorems
  import opened GatewayService

  // ---------------------------------------------------------------- one call: whom it refuses

  /** The template is active under the code of the body, and PUBLIC or allowed to this client by the access table. */
  ghost predicate Usable(templates: seq<Template>, accesses: seq<Access>, code: string, client: Id, t: Template) {
    && t in templates && t.templateCode == code && t.isActive
    && (t.scope == Public || Access(client, t.id, true) in accesses)
  }

  ghost predicate UniqueCodes(templates: seq<Template>) {
    forall i, j | 0 <= i < j < |templates| :: templates[i].templateCode != templates[j].templateCode
  }

  /** Past the access check a call is not refused its template, and past the validation not its variables. */
  lemma {:induction false} NotRefusedLater(c: Cipher, w: World, pc: SendPc, env: nat -> Answer, n: nat)
    requires !pc.Start? && !pc.FindTemplate? && !pc.CheckAccess?
    requires pc.Done? ==> pc.reply != Rejected(TemplateNotFound) && pc.reply != Rejected(InvalidVariables)
    ensures var reply := SendRun(c, w, pc, env, n).1;
      reply != Rejected(TemplateNotFound) && (!pc.ReadVariables? ==> reply != Rejected(InvalidVariables))
    decreases Rank(pc)
  {
    hide CommitRows, CanCommit, FindPayload, FindRecipient, ResendEvent, FindRequest, NewRequest, NewOutbox,
         AsRecord, ReadString;
    if !pc.Done? {
      var (w', pc') := SendStep(c, w, pc, env(n));
      if !(pc.ReadVariables? && pc'.Done?) { NotRefusedLater(c, w', pc', env, n + 1); }
    }
  }

  /** The one active template of a code is the one that the query finds. */
  lemma {:induction false} FoundActive(rows: seq<Template>, code: string, t: Template)
    requires t in rows && t.templateCode == code && t.isActive && UniqueCodes(rows)
    ensures FindActive(rows, code) == Some(t)
  {
    if rows[0] != t { FoundActive(rows[1..], code, t); }
  }

  /** A call with a new request id is refused with MSG_TEMPLATE_NOT_FOUND if and only if there is no template of this
      code that is active and that this client may use, and with the variables error if and only if there is one and
      the variables do not fit; either way it leaves everything as it was. */
  lemma RefusedIff(c: Cipher, w: World, client: Id, dto: SendDto, env: nat -> Answer)
    requires forall r | r in w.requests :: w.requests[r].requestId != dto.requestId
    requires forall i: nat | i < 4 :: env(i).ok
    requires UniqueCodes(env(1).catalog.templates)
    ensures var (w', reply) := SendRun(c, w, Start(client, dto), env, 0);
      && (reply == Rejected(TemplateNotFound) <==>
            !exists t :: Usable(env(1).catalog.templates, env(2).catalog.accesses, dto.templateCode, client, t))
      && (reply == Rejected(InvalidVariables) <==>
            exists t :: && Usable(env(1).catalog.templates, env(2).catalog.accesses, dto.templateCode, client, t)
                        && !env(if t.scope == Public then 2 else 3).valid)
      && (reply == Rejected(TemplateNotFound) || reply == Rejected(InvalidVariables) ==> w' == w)
  {
    hide SendRun, FindRequest, FindActive, FindAccess, SendStep, UniqueCodes;
    assert env(0).ok && env(1).ok && env(2).ok && env(3).ok;
    var templates, accesses := env(1).catalog.templates, env(2).catalog.accesses;
    FirstReads(c, w, client, dto, env);
    if t :| Usable(templates, accesses, dto.templateCode, client, t) {
      FoundActive(templates, dto.templateCode, t);
      VariablesRead(c, w, client, dto, t, env, if t.scope == Public then 2 else 3);
      forall u | Usable(templates, accesses, dto.templateCode, client, u) ensures u == t {
        FoundActive(templates, dto.templateCode, u);
      }
    } else {
      var found := FindActive(templates, dto.templateCode);
      if found.Some? { assert !Usable(templates, accesses, dto.templateCode, client, found.value); }
    }
  }

  /** The reads up to the template: refused, or on to its variables. */
  lemma FirstReads(c: Cipher, w: World, client: Id, dto: SendDto, env: nat -> Answer)
    requires forall r | r in w.requests :: w.requests[r].requestId != dto.requestId
    requires env(0).ok && env(1).ok && env(2).ok
    ensures var run := SendRun(c, w, Start(client, dto), env, 0);
      match FindActive(env(1).catalog.templates, dto.templateCode)
      case None => run == (w, Rejected(TemplateNotFound))
      case Some(t) =>
        if t.scope == Public then run == SendRun(c, w, ReadVariables(client, dto, t), env, 2)
        else if Access(client, t.id, true) in env(2).catalog.accesses then run == SendRun(c, w, ReadVariables(client, dto, t), env, 3)
        else run == (w, Rejected(TemplateNotFound))
  {
    hide SendRun, FindRequest, FindActive, FindAccess;
    assert FindRequest(w, dto.requestId) == None;
    RunOn(c, w, Start(client, dto), env, 0);
    RunOn(c, w, FindTemplate(client, dto), env, 1);
    var found := FindActive(env(1).catalog.templates, dto.templateCode);
    if found.Some? && found.value.scope != Public { RunOn(c, w, CheckAccess(client, dto, found.value), env, 2); }
  }

  lemma VariablesRead(c: Cipher, w: World, client: Id, dto: SendDto, t: Template, env: nat -> Answer, n: nat)
    requires env(n).ok
    ensures var run := SendRun(c, w, ReadVariables(client, dto, t), env, n);
      && run.1 != Rejected(TemplateNotFound)
      && (run.1 == Rejected(InvalidVariables) <==> !env(n).valid) && (!env(n).valid ==> run.0 == w)
  {
    hide SendRun;
    RunOn(c, w, ReadVariables(client, dto, t), env, n);
    NotRefusedLater(c, w, ReadVariables(client, dto, t), env, n);
    if env(n).valid { NotRefusedLater(c, w, Commit(client, dto, t), env, n + 1); }
  }

  // ---------------------------------------------------------------- one step: which failure gives which answer

  /** What the re-send path misses: a channel, a receiver or a recipient. */
  ghost predicate Misses(r: Request, recipients: map<Id, Recipient>) {
    var m := if r.metadata.Some? then r.metadata.value else map[];
    || !("channel" in m && m["channel"].Str? && m["channel"].s != "")
    || !("receiver" in m && m["receiver"].Obj?)
    || (forall id | id in recipients :: recipients[id].messageRequestId != r.id)
  }

  lemma OldestExists(w: World, request: Id, id: Id, rest: set<Id>) returns (oldest: Id)
    requires id in w.recipients && w.recipients[id].messageRequestId == request && rest <= w.recipients.Keys
    requires forall other | other in w.recipients && w.recipients[other].messageRequestId == request && other !in rest ::
      w.recipients[id].createdAt <= w.recipients[other].createdAt
    ensures IsOldestRecipient(w, request, oldest)
    decreases rest
  {
    if other :| other in rest && w.recipients[other].messageRequestId == request
                && w.recipients[other].createdAt < w.recipients[id].createdAt {
      oldest := OldestExists(w, request, other, rest - {other});
    } else {
      oldest := id;
    }
  }

  lemma MissesIff(w: World, r: Request, p: Payload)
    ensures ResendEvent(r, p, FindRecipient(w, r.id)).None? <==> Misses(r, w.recipients)
  {
    hide FindRecipient;
    if id :| id in w.recipients && w.recipients[id].messageRequestId == r.id {
      var oldest := OldestExists(w, r.id, id, w.recipients.Keys);
    }
  }

  /** A step that ends a call with an error, exactly when: MSG_KAFKA_PUBLISH_FAILED for every publish and for the two
      saves after the first publish; no error of its own for every other call that throws and for a transaction that
      violates a constraint; and the other codes for what the reads did not find. Such a step writes no row. */
  lemma RejectedExactly(c: Cipher, w: World, pc: SendPc, a: Answer)
    requires !pc.Done?
    ensures var (w', pc') := SendStep(c, w, pc, a);
      && (pc' == Done(Rejected(KafkaPublishFailed)) <==> !a.ok && (pc.Publish? || pc.SaveEntry? || pc.SaveQueued? || pc.Republish?))
      && (pc' == Done(Rejected(TemplateNotFound)) <==>
            && a.ok
            && ((pc.FindTemplate? && forall t | t in a.catalog.templates :: !(t.templateCode == pc.dto.templateCode && t.isActive))
                || (pc.CheckAccess? && Access(pc.clientAppId, pc.template.id, true) !in a.catalog.accesses)))
      && (pc' == Done(Rejected(InvalidVariables)) <==> a.ok && pc.ReadVariables? && !a.valid)
      && (pc' == Done(Rejected(PayloadNotFound)) <==>
            a.ok && pc.ReadStored? && forall p | p in w.payloads :: w.payloads[p].messageRequestId != pc.request.id)
      && (pc' == Done(Rejected(DataMissing)) <==> a.ok && pc.ReadRecipient? && Misses(pc.request, w.recipients))
      && (pc' == Done(Unhandled) <==>
            || (!a.ok && !pc.Publish? && !pc.SaveEntry? && !pc.SaveQueued? && !pc.Republish?)
            || (pc.Commit? && !CanCommit(w, pc.dto, a.tx)))
      && (pc'.Done? && !pc'.reply.Replied? ==> w' == w.(topic := w'.topic))
  {
    hide CommitRows, CanCommit, FindRecipient, ResendEvent, FindRequest, NewRequest, NewOutbox, AsRecord, ReadString,
         Misses, Wire;
    if pc.ReadRecipient? { MissesIff(w, pc.request, pc.payload); }
  }

  /** A reply tells the truth when it is given: the row of its request id says the very status it names, the channel
      is the request's own, and the event is on the topic. */
  lemma ReplyTellsTheRow(c: Cipher, s: State, call: nat, a: Answer) returns (r: Id)
    requires Faithful(c) && Reachable(c, s) && call in s.sends && !s.sends[call].Done?
    requires var pc' := Apply(c, s, StepSend(call, a)).sends[call]; pc'.Done? && pc'.reply.Replied?
    ensures var s' := Apply(c, s, StepSend(call, a));
      var reply := s'.sends[call].reply;
      && r in s'.w.requests && s'.w.requests[r].requestId == reply.requestId && s'.w.requests[r].status == reply.status
      && r in s'.w.origin && reply.channel == Some(ChannelName(s'.w.origin[r].dto.channel))
      && OnTopic(s'.w.topic, reply.requestId)
  {
    hide Faithful, Reachable, TablesOk, JobsOk, RelaysOk, SchedsOk, LanesOk, SendStep;
    ReachableConsistent(c, s);
    assert SendOk(c, s.w, s.sends[call]);
    r := RowAnswered(c, s.w, s.sends[call], a);
  }

  lemma RowAnswered(c: Cipher, w: World, pc: SendPc, a: Answer) returns (r: Id)
    requires Faithful(c) && TablesOk(c, w) && SendOk(c, w, pc) && !pc.Done?
    requires var pc' := SendStep(c, w, pc, a).1; pc'.Done? && pc'.reply.Replied?
    ensures var (w', pc') := SendStep(c, w, pc, a);
      && r in w'.requests && w'.requests[r].requestId == pc'.reply.requestId && w'.requests[r].status == pc'.reply.status
      && r in w'.origin && pc'.reply.channel == Some(ChannelName(w'.origin[r].dto.channel))
      && OnTopic(w'.topic, pc'.reply.requestId)
  {
    hide TablesOk, IsRequestOf, OnTopic, FindRequest, FindPayload, FindRecipient, ResendEvent, HoldsEntry, EventOk,
         CanCommit, CommitRows,
         AsRecord, ReadString, Faithful;
    if pc.Start? {
      r :| r in w.requests && w.requests[r].requestId == pc.dto.requestId && FindRequest(w, pc.dto.requestId).value == w.requests[r];
      AnswersFromRow(c, w, r);
      SentPastValidated(c, w, r);
    } else {
      r := pc.request.id;
      RequestIdentity(pc.request, r, w.origin[r]);
    }
  }

  lemma SentPastValidated(c: Cipher, w: World, r: Id)
    requires TablesOk(c, w) && r in w.requests && w.requests[r].status != RequestStatus.Validated
    ensures OnTopic(w.topic, w.requests[r].requestId)
  {
    hide RequestsOk, PayloadsOk, RecipientsOk, OutboxOk, TopicOk, OnTopic;
  }

  // ---------------------------------------------------------------- one call: a request sent again

  /** What a re-send of a VALIDATED request puts on the topic: the event of its outbox row, once or more. */
  function Resent(w: World, r: Id, a: Answer): World
    requires r in w.requests && r in w.origin && w.origin[r].outboxId in w.outbox
  {
    w.(topic := w.topic + Copies(Message(w.requests[r].requestId, w.outbox[w.origin[r].outboxId].payload), a))
  }

  /** The reads of a re-send find everything, and what it is about to publish is the stored event. */
  lemma ReachesRepublish(c: Cipher, s: State, r: Id, client: Id, dto: SendDto, env: nat -> Answer) returns (e: Event)
    requires Faithful(c) && Reachable(c, s) && r in s.w.requests && s.w.requests[r].status == RequestStatus.Validated
    requires dto.requestId == s.w.requests[r].requestId && env(0).ok && env(1).ok && env(2).ok
    ensures r in s.w.origin && s.w.origin[r].outboxId in s.w.outbox
    ensures SendRun(c, s.w, Start(client, dto), env, 0) == SendRun(c, s.w, Republish(s.w.requests[r], e), env, 3)
    ensures PublishSend(s.w, e, env(3)) == Resent(s.w, r, env(3)) && e.channel == ChannelName(s.w.origin[r].dto.channel)
    ensures s.w.requests[r].id == r
  {
    hide SendRun, FindRequest, FindPayload, FindRecipient, ResendEvent, Faithful, Reachable, Consistent, TablesOk,
         JobsOk, NewPayload, NewRecipient,
         NewOutbox, StoredPayload, StoredOutbox, StoredRecipient, StoredRequest, Wire, FirstEvent, IsRequestOf, Copies, EventOk;
    ReachableConsistent(c, s);
    var row, o := s.w.requests[r], s.w.origin[r];
    FoundByKey(c, s.w, r, dto.requestId);
    var p := StoredPayload(NewPayload(c, r, o));
    PayloadFound(c, s.w, r);
    StoredIsItself(c, s.w, r);
    RecipientFound(c, s.w, r);
    ResendRebuildsTheEvent(c, row, r, o);
    e := StoredOutbox(NewOutbox(c, r, o)).payload;
    StoredEvent(c, s.w, r, e);
    RunOn(c, s.w, Start(client, dto), env, 0);
    RunOn(c, s.w, ReadStored(row), env, 1);
    RunOn(c, s.w, ReadRecipient(row, p), env, 2);
  }

  lemma FoundByKey(c: Cipher, w: World, r: Id, key: string)
    requires TablesOk(c, w) && r in w.requests && w.requests[r].requestId == key
    ensures FindRequest(w, key) == Some(w.requests[r])
  {
    hide TablesOk, FindRequest;
    OneRequest(c, w, r);
    var found := FindRequest(w, key);
  }

  lemma StoredIsItself(c: Cipher, w: World, r: Id)
    requires TablesOk(c, w) && r in w.requests
    ensures r in w.origin && IsRequestOf(w.requests[r], r, w.origin[r]) && StoredRequest(w.requests[r]) == w.requests[r]
    ensures w.requests[r].id == r && w.requests[r].requestId == w.origin[r].dto.requestId
  {
    hide PayloadsOk, RecipientsOk, OutboxOk, TopicOk, StatusesOk, IsRequestOf, StoredRequest;
    assert RequestOk(w.requests[r], r, w.origin[r]);
    RequestIdentity(w.requests[r], r, w.origin[r]);
  }

  lemma RecipientFound(c: Cipher, w: World, r: Id)
    requires TablesOk(c, w) && r in w.origin
    ensures FindRecipient(w, r) == Some(StoredRecipient(NewRecipient(r, w.origin[r])))
  {
    hide RequestsOk, PayloadsOk, RecipientsOk, OutboxOk, TopicOk, StatusesOk, FindRecipient, FindPayload,
         NewRecipient, StoredRecipient;
    StoredRows(c, w, r);
  }

  lemma StoredEvent(c: Cipher, w: World, r: Id, e: Event)
    requires TablesOk(c, w) && r in w.requests && r in w.origin && e == StoredOutbox(NewOutbox(c, r, w.origin[r])).payload
    ensures var o := w.origin[r];
      && o.outboxId in w.outbox && Wire(e) == w.outbox[o.outboxId].payload && e.requestId == w.requests[r].requestId
      && e.channel == ChannelName(o.dto.channel)
  {
    hide TablesOk, FirstEvent;
    OneRequest(c, w, r);
    OneOutboxRow(c, w, r);
    WireTwice(FirstEvent(c, r, w.origin[r]));
    FirstEventKeys(c, r, w.origin[r]);
  }

  lemma FirstEventKeys(c: Cipher, r: Id, o: Origin)
    ensures var e := FirstEvent(c, r, o); e.requestId == o.dto.requestId && e.channel == ChannelName(o.dto.channel)
  {
  }

  /** A second call for a request that is still VALIDATED, with every awaited call taking effect: it publishes the very
      event of the outbox row, says QUEUED as of now, answers that with the request's channel and changes nothing else,
      whatever else is in its body. */
  lemma Resend(c: Cipher, s: State, r: Id, client: Id, dto: SendDto, env: nat -> Answer)
    requires Faithful(c) && Reachable(c, s) && r in s.w.requests && s.w.requests[r].status == RequestStatus.Validated
    requires dto.requestId == s.w.requests[r].requestId && forall i: nat | i < 5 :: env(i).ok
    ensures r in s.w.origin && s.w.origin[r].outboxId in s.w.outbox
    ensures var row := s.w.requests[r].(status := RequestStatus.Queued, queuedAt := Some(s.w.now));
      SendRun(c, s.w, Start(client, dto), env, 0) ==
        (Resent(s.w, r, env(3)).(requests := s.w.requests[r := row]),
         Replied(dto.requestId, RequestStatus.Queued, Some(ChannelName(s.w.origin[r].dto.channel))))
  {
    hide SendRun, Faithful, Reachable, StoredRequest, Copies, Wire, AsRecord, ReadString;
    assert env(0).ok && env(1).ok && env(2).ok && env(3).ok && env(4).ok;
    var e := ReachesRepublish(c, s, r, client, dto, env);
    var row := s.w.requests[r];
    var queued := MarkQueued(row, s.w.now);
    RunOn(c, s.w, Republish(row, e), env, 3);
    RunOn(c, Resent(s.w, r, env(3)), SaveRequeued(queued, e.channel), env, 4);
    StoredAsIs(c, s, r, queued);
  }

  lemma StoredAsIs(c: Cipher, s: State, r: Id, row: Request)
    requires Faithful(c) && Reachable(c, s) && r in s.w.requests && row.metadata == s.w.requests[r].metadata
    ensures StoredRequest(row) == row
  {
    hide Faithful, Reachable, Consistent, TablesOk, JobsOk, StoredRequest, IsRequestOf;
    ReachableConsistent(c, s);
    StoredIsItself(c, s.w, r);
    SameMetadata(row, s.w.requests[r]);
  }

  lemma SameMetadata(a: Request, b: Request)
    requires a.metadata == b.metadata && StoredRequest(b) == b
    ensures StoredRequest(a) == a
  {
  }

  /** If its publish throws the answer is MSG_KAFKA_PUBLISH_FAILED, and no row changes. */
  lemma ResendThrows(c: Cipher, s: State, r: Id, client: Id, dto: SendDto, env: nat -> Answer)
    requires Faithful(c) && Reachable(c, s) && r in s.w.requests && s.w.requests[r].status == RequestStatus.Validated
    requires dto.requestId == s.w.requests[r].requestId && env(0).ok && env(1).ok && env(2).ok && !env(3).ok
    ensures r in s.w.origin && s.w.origin[r].outboxId in s.w.outbox
    ensures SendRun(c, s.w, Start(client, dto), env, 0) == (Resent(s.w, r, env(3)), Rejected(KafkaPublishFailed))
  {
    hide SendRun, Faithful, Reachable, StoredRequest, Copies, Wire;
    var e := ReachesRepublish(c, s, r, client, dto, env);
    RunOn(c, s.w, Republish(s.w.requests[r], e), env, 3);
  }
}
