/** What the pipeline promises in every reachable state and over every run. */
module Theorems {
  import opened Json
  import opened Domain
  import opened Crypto
  import opened Events
  import opened World
  import opened Gateway
  import opened Worker
  import opened Pipeline
  import opened Invariants
  import opened Steps
  import opened Jobs
  import opened Actors
  import opened Safety
  import opened NoLoss
  import opened Finality
  import Relay
  import Scheduler
  import Store

  // ---------------------------------------------------------------- runs

  lemma InvInitially(c: Cipher)
    ensures Inv(c, INITIAL)
  {
  }

  lemma InvStep(c: Cipher, s: State, action: Action)
    requires Faithful(c) && Inv(c, s)
    ensures Inv(c, Apply(c, s, action))
  {
    hide Consistent, CompletedOk, Apply, Faithful;
    ConsistentStep(c, s, action);
    CompletedStep(c, s, action);
  }

  /** The invariant is kept over every run, and every run only evolves the world. */
  lemma {:induction false} RunKeepsInv(c: Cipher, s: State, actions: seq<Action>)
    requires Faithful(c) && Inv(c, s)
    ensures Inv(c, Exec(c, s, actions)) && Evolves(s.w, Exec(c, s, actions).w)
    decreases |actions|
  {
    hide Consistent, CompletedOk, Apply, Faithful, Evolves;
    if actions == [] {
      assert Evolves(s.w, s.w) by { ConsistentEvolves(c, s); }
    } else {
      var n := |actions| - 1;
      var before := Exec(c, s, actions[..n]);
      RunKeepsInv(c, s, actions[..n]);
      InvStep(c, before, actions[n]);
      ConsistentStep(c, before, actions[n]);
      EvolvesTransitively(s.w, before.w, Exec(c, s, actions).w);
    }
  }

  lemma ConsistentEvolves(c: Cipher, s: State)
    requires Consistent(c, s)
    ensures Evolves(s.w, s.w)
  {
    hide TablesOk, JobsOk, Evolves;
    NothingMoves(c, s.w);
  }

  /** A state that some run of the whole system reaches. */
  ghost predicate Reachable(c: Cipher, s: State) {
    exists run :: s == Exec(c, INITIAL, run)
  }

  /** Every reachable state satisfies the invariant. */
  lemma ReachableInv(c: Cipher, s: State)
    requires Faithful(c) && Reachable(c, s)
    ensures Inv(c, s)
  {
    hide Inv, Faithful;
    InvInitially(c);
    var run :| s == Exec(c, INITIAL, run);
    RunKeepsInv(c, INITIAL, run);
  }

  lemma ReachableConsistent(c: Cipher, s: State)
    requires Faithful(c) && Reachable(c, s)
    ensures Consistent(c, s) && TablesOk(c, s.w) && JobsOk(s.w) && s.w.origin.Keys == s.w.requests.Keys
  {
    hide Faithful, Reachable, TablesOk, JobsOk, SendsOk, RelaysOk, SchedsOk, LanesOk, CompletedOk;
    ReachableInv(c, s);
    assert s.w.origin.Keys == s.w.requests.Keys by { OriginKeys(c, s.w); }
  }

  lemma OriginKeys(c: Cipher, w: World)
    requires TablesOk(c, w)
    ensures w.origin.Keys == w.requests.Keys
  {
    hide PayloadsOk, RecipientsOk, OutboxOk, TopicOk, StatusesOk, RequestOk;
  }

  // ---------------------------------------------------------------- no silent loss

  /** Something of the request is left: a SUCCESS dispatch, a message waiting or in delivery, an outbox row that is
      PENDING or FAILED, or a RETRY_WAIT dispatch. A row that some actor is about to mark as published or retried
      does not count. A CHAT message counts as it lies on the topic, where no worker will ever take it. */
  ghost predicate NotForgotten(s: State, r: Id) {
    && r in s.w.origin
    && (|| (exists d :: IsSuccess(s.w.dispatches, d, r))
        || (s.w.origin[r].dto.channel != Chat && Waiting(s, r))
        || (s.w.origin[r].dto.channel == Chat && OnTopic(s.w.topic, s.w.origin[r].dto.requestId))
        || InOutbox(s, r)
        || (exists d :: AwaitsRetry(s.w.dispatches, s.scheds, d, r)))
  }

  lemma NotForgottenIffAccounted(c: Cipher, s: State, r: Id)
    requires Consistent(c, s) && r in s.w.origin
    ensures NotForgotten(s, r) <==> Accounted(s, r)
  {
    hide TablesOk, JobsOk, SendsOk, RelaysOk, SchedsOk, DeliveryOk, IsSuccess, InOutbox, AwaitsRetry;
    if s.w.origin[r].dto.channel == Chat {
      var lane := LaneOf(s.w, r);
      assert lane in s.lanes ==> LaneOk(s.w, lane, s.lanes[lane]);
      assert Waiting(s, r) <==> OnTopic(s.w.topic, s.w.origin[r].dto.requestId);
    }
  }

  /** A request is forgotten by one step exactly when a delivery of it throws before or outside the try block, or
      while saving the retry row, and nothing else is left: no SUCCESS dispatch, no later message, no unsent outbox
      row, no retry row. Every other step of any actor keeps it. */
  lemma ForgottenExactlyByAbandoning(c: Cipher, s: State, action: Action, r: Id)
    requires Faithful(c) && Reachable(c, s) && NotForgotten(s, r)
    ensures !NotForgotten(Apply(c, s, action), r) <==> Abandons(s, action, r)
  {
    hide Faithful, Reachable, Consistent, Accounted, Abandons, Apply, NotForgotten, Evolves, TablesOk, JobsOk;
    ReachableConsistent(c, s);
    ConsistentStep(c, s, action);
    OriginsStay(s.w, Apply(c, s, action).w);
    assert r in s.w.origin by { OfARequest(s, r); }
    NotForgottenIffAccounted(c, s, r);
    NotForgottenIffAccounted(c, Apply(c, s, action), r);
    AccountedStep(c, s, action, r);
  }

  lemma OfARequest(s: State, r: Id)
    requires NotForgotten(s, r)
    ensures r in s.w.origin
  {
  }

  /** Step n of the run abandoned the request, and nothing brought it back. */
  ghost predicate ForgottenAt(c: Cipher, run: seq<Action>, n: nat, r: Id) {
    && n < |run| && Abandons(Exec(c, INITIAL, run[..n]), run[n], r)
    && forall m | n < m <= |run| :: !NotForgotten(Exec(c, INITIAL, run[..m]), r)
  }

  /** No request vanishes silently: after any run of any number of actors, under any interleaving, duplication,
      failure and crash, every committed request has something left, unless one step of the run abandoned it and none
      brought it back; and then it has nothing. */
  lemma NoRequestVanishes(c: Cipher, run: seq<Action>, r: Id)
    requires Faithful(c) && r in Exec(c, INITIAL, run).w.requests
    ensures NotForgotten(Exec(c, INITIAL, run), r) <==> !exists n: nat :: ForgottenAt(c, run, n, r)
  {
    hide Faithful, NotForgotten, Abandons, Exec;
    assert run[..|run|] == run;
    if !NotForgotten(Exec(c, INITIAL, run), r) {
      var n := LastAbandoned(c, run, r);
    }
  }

  lemma {:induction false} LastAbandoned(c: Cipher, run: seq<Action>, r: Id) returns (n: nat)
    requires Faithful(c) && r in Exec(c, INITIAL, run).w.requests && !NotForgotten(Exec(c, INITIAL, run), r)
    ensures ForgottenAt(c, run, n, r)
    decreases |run|
  {
    hide Faithful, NotForgotten, Abandons, Apply, Reachable, ForgottenAt, TablesOk, JobsOk, Consistent, Exec;
    LastExec(c, run);
    var k := |run| - 1;
    var s := Exec(c, INITIAL, run[..k]);
    RunReachable(c, run[..k]);
    RunReachable(c, run);
    ReachableConsistent(c, Exec(c, INITIAL, run));
    LastStep(c, s, run[k], r);
    if NotForgotten(s, r) {
      n := k;
      JustForgotten(c, run, r);
    } else {
      n := LastAbandoned(c, run[..k], r);
      StillForgotten(c, run, n, r);
    }
  }

  lemma LastExec(c: Cipher, run: seq<Action>)
    requires Exec(c, INITIAL, run).w.requests != map[]
    ensures run != [] && Exec(c, INITIAL, run) == Apply(c, Exec(c, INITIAL, run[..|run| - 1]), run[|run| - 1])
  {
    hide Apply;
  }

  lemma JustForgotten(c: Cipher, run: seq<Action>, r: Id)
    requires run != [] && Abandons(Exec(c, INITIAL, run[..|run| - 1]), run[|run| - 1], r)
    requires !NotForgotten(Exec(c, INITIAL, run), r)
    ensures ForgottenAt(c, run, |run| - 1, r)
  {
    hide NotForgotten, Abandons, Exec;
    assert run[..|run|] == run;
  }

  lemma RunReachable(c: Cipher, run: seq<Action>)
    ensures Reachable(c, Exec(c, INITIAL, run))
  {
  }

  /** A step after which nothing is left of a committed request found something left and abandoned it, or found
      nothing. */
  lemma LastStep(c: Cipher, s: State, action: Action, r: Id)
    requires Faithful(c) && Reachable(c, s) && r in Apply(c, s, action).w.origin
    requires !NotForgotten(Apply(c, s, action), r)
    ensures r in s.w.origin && r in s.w.requests
    ensures NotForgotten(s, r) ==> Abandons(s, action, r)
  {
    hide Faithful, Reachable, Consistent, Accounted, Abandons, Apply, NotForgotten, TablesOk, JobsOk, Evolves;
    ReachableConsistent(c, s);
    ConsistentStep(c, s, action);
    NotForgottenIffAccounted(c, Apply(c, s, action), r);
    if r !in s.w.origin {
      AccountedStep(c, s, action, r);
      NewlyCommitted(s, action, r);
    } else if NotForgotten(s, r) {
      ForgottenExactlyByAbandoning(c, s, action, r);
    }
  }

  lemma NewlyCommitted(s: State, action: Action, r: Id)
    requires r !in s.w.origin
    ensures !Abandons(s, action, r)
  {
  }

  lemma StillForgotten(c: Cipher, run: seq<Action>, n: nat, r: Id)
    requires run != [] && ForgottenAt(c, run[..|run| - 1], n, r) && !NotForgotten(Exec(c, INITIAL, run), r)
    ensures ForgottenAt(c, run, n, r)
  {
    hide NotForgotten, Abandons, Exec;
    var before := run[..|run| - 1];
    assert before[..n] == run[..n] && before[n] == run[n];
    forall m | n < m <= |run| ensures !NotForgotten(Exec(c, INITIAL, run[..m]), r) {
      if m < |run| { assert before[..m] == run[..m]; } else { assert run[..m] == run; }
    }
  }

  /** The one SUCCESS dispatch of a request. */
  ghost predicate DeliveredOnceBy(dispatches: map<Id, Dispatch>, d: Id, r: Id) {
    forall e :: IsSuccess(dispatches, e, r) <==> e == d
  }

  /** Every worker is through with the messages of every request that has one, every outbox row is PUBLISHED and no
      retry is waiting, whatever calls and runs are still under way. */
  ghost predicate Quiescent(s: State) {
    && (forall r | r in s.w.origin && s.w.origin[r].dto.channel != Chat ::
          var k := ConsumerOf(s, LaneOf(s.w, r)); k.delivery.None? && k.offset >= |s.w.topic|)
    && (forall o | o in s.w.outbox :: s.w.outbox[o].status == OutboxStatus.Published)
    && (forall d | d in s.w.dispatches :: s.w.dispatches[d].status != DispatchStatus.RetryWait)
  }

  /** Once the system has come to rest, a request for a channel with a worker has been delivered, and exactly once,
      if and only if no step of the run abandoned it without a later one bringing it back. */
  lemma AtRestEachIsDeliveredOnce(c: Cipher, run: seq<Action>, r: Id)
    requires Faithful(c) && Quiescent(Exec(c, INITIAL, run))
    requires var s := Exec(c, INITIAL, run); r in s.w.requests && r in s.w.origin && s.w.origin[r].dto.channel != Chat
    ensures (exists d :: DeliveredOnceBy(Exec(c, INITIAL, run).w.dispatches, d, r))
       <==> !exists n: nat :: ForgottenAt(c, run, n, r)
  {
    hide Faithful, Reachable, ForgottenAt, Exec, TablesOk, JobsOk, Consistent;
    var s := Exec(c, INITIAL, run);
    assert Reachable(c, s) by { RunReachable(c, run); }
    ReachableConsistent(c, s);
    NoRequestVanishes(c, run, r);
    RestIsSuccess(c, s, r);
  }

  lemma RestIsSuccess(c: Cipher, s: State, r: Id)
    requires TablesOk(c, s.w) && JobsOk(s.w) && Quiescent(s) && r in s.w.origin && s.w.origin[r].dto.channel != Chat
    ensures NotForgotten(s, r) <==> exists d :: DeliveredOnceBy(s.w.dispatches, d, r)
  {
    hide TablesOk, DispatchesOk, LogsOk;
    if d :| DeliveredOnceBy(s.w.dispatches, d, r) { assert IsSuccess(s.w.dispatches, d, r); }
    if d :| IsSuccess(s.w.dispatches, d, r) { assert DeliveredOnceBy(s.w.dispatches, d, r); }
  }

  // ---------------------------------------------------------------- at most one success

  /** However many duplicate events the gateway, the re-send path, the relay and the scheduler have published, at
      most one dispatch of a request is SUCCESS, and it is for that request's one recipient and channel. */
  lemma AtMostOneSuccess(c: Cipher, s: State, d: Id, e: Id)
    requires Faithful(c) && Reachable(c, s) && d in s.w.dispatches && e in s.w.dispatches
    requires s.w.dispatches[d].status == DispatchStatus.Success && s.w.dispatches[e].status == DispatchStatus.Success
    requires s.w.dispatches[d].messageRequestId == s.w.dispatches[e].messageRequestId
    ensures d == e
    ensures var r := s.w.dispatches[d].messageRequestId;
      && r in s.w.origin && s.w.dispatches[d].recipientId == s.w.origin[r].recipientId
      && s.w.dispatches[d].channelType == s.w.origin[r].dto.channel
  {
    hide Faithful, Reachable, Consistent, TablesOk, Shape, LogsOk;
    ReachableConsistent(c, s);
    var r := s.w.dispatches[d].messageRequestId;
    assert IsSuccess(s.w.dispatches, d, r) && IsSuccess(s.w.dispatches, e, r);
    assert DispatchOk(s.w.origin, s.w.failedAt, d, s.w.dispatches[d]);
  }

  /** Every publisher uses the request's id as partition key and names its one channel, so no two lanes ever
      deliver the same request at once. */
  lemma OneLanePerRequest(c: Cipher, s: State, one: Lane, other: Lane)
    requires Faithful(c) && Reachable(c, s)
    requires var k, q := ConsumerOf(s, one), ConsumerOf(s, other);
      && k.delivery.Some? && q.delivery.Some? && k.offset < |s.w.topic| && q.offset < |s.w.topic|
      && s.w.topic[k.offset].event.messageRequestId == s.w.topic[q.offset].event.messageRequestId
    ensures one == other
  {
    hide Faithful, Reachable, TablesOk, JobsOk, SendsOk, RelaysOk, SchedsOk, DeliveryOk;
    ReachableConsistent(c, s);
    LaneRequest(c, s.w, one, ConsumerOf(s, one));
    LaneRequest(c, s.w, other, ConsumerOf(s, other));
  }

  /** Every message on the topic is its request's event, under the request's own key, up to absent versus null
      receiver properties and the case of the user id, whichever of the four publishers put it there. */
  lemma EveryMessageIsTheEvent(c: Cipher, s: State, i: nat)
    requires Faithful(c) && Reachable(c, s) && i < |s.w.topic|
    ensures var e := s.w.topic[i].event;
      && e.messageRequestId in s.w.origin && s.w.topic[i].key == s.w.origin[e.messageRequestId].dto.requestId
      && Agrees(e, Wire(FirstEvent(c, e.messageRequestId, s.w.origin[e.messageRequestId])))
  {
    hide Faithful, Reachable, Consistent, JobsOk, RequestsOk, PayloadsOk, RecipientsOk, OutboxOk, StatusesOk, FirstEvent,
         SameReceiver;
    ReachableConsistent(c, s);
    assert EventOk(c, s.w.origin, s.w.topic[i].event);
    EventFacts(c, s.w.origin, s.w.topic[i].event);
  }

  /** PUBLISHED is never claimed too early: the row's own event is on the topic, so a relay that skips the row
      skips nothing. */
  lemma PublishedMeansSent(c: Cipher, s: State, id: Id) returns (i: nat)
    requires Faithful(c) && Reachable(c, s) && id in s.w.outbox && s.w.outbox[id].status == OutboxStatus.Published
    ensures i < |s.w.topic| && s.w.topic[i].key == s.w.outbox[id].eventKey
    ensures s.w.topic[i].event.messageRequestId == s.w.outbox[id].aggregateId
    ensures Agrees(s.w.topic[i].event, s.w.outbox[id].payload)
  {
    hide Faithful, Reachable, Consistent, TablesOk, JobsOk, Agrees, FirstEvent, Wire;
    ReachableConsistent(c, s);
    var r := OutboxAggregate(c, s.w, id);
    OneOutboxRow(c, s.w, r);
    i := SentUnderKey(c, s.w, id);
    EveryMessageIsTheEvent(c, s, i);
    OwnMessage(c, s.w, i, r);
  }

  lemma OutboxAggregate(c: Cipher, w: World, id: Id) returns (r: Id)
    requires TablesOk(c, w) && id in w.outbox
    ensures r in w.origin && r == w.outbox[id].aggregateId && w.origin[r].outboxId == id
  {
    hide RequestsOk, PayloadsOk, RecipientsOk, TopicOk, StatusesOk, IsOutboxOf, StoredOutbox;
    r := w.outbox[id].aggregateId;
  }

  lemma SentUnderKey(c: Cipher, w: World, id: Id) returns (i: nat)
    requires TablesOk(c, w) && id in w.outbox && w.outbox[id].status == OutboxStatus.Published
    ensures i < |w.topic| && w.topic[i].key == w.outbox[id].eventKey
  {
    hide RequestsOk, PayloadsOk, RecipientsOk, OutboxOk, TopicOk;
    i :| 0 <= i < |w.topic| && w.topic[i].key == w.outbox[id].eventKey;
  }

  // ---------------------------------------------------------------- one set of rows per request id

  /** However many sends with one request id run at once, there is no row for it, or exactly one request with
      exactly one payload, one recipient and one outbox row, and the outbox row carries that request's event. */
  lemma OneSetOfRows(c: Cipher, s: State, r: Id)
    requires Faithful(c) && Reachable(c, s) && r in s.w.requests
    ensures forall q | q in s.w.requests && s.w.requests[q].requestId == s.w.requests[r].requestId :: q == r
    ensures r in s.w.origin && var o := s.w.origin[r];
      && (forall p | p in s.w.payloads :: s.w.payloads[p].messageRequestId == r <==> p == o.payloadId)
      && (forall p | p in s.w.recipients :: s.w.recipients[p].messageRequestId == r <==> p == o.recipientId)
      && (forall p | p in s.w.outbox :: s.w.outbox[p].aggregateId == r <==> p == o.outboxId)
      && o.payloadId in s.w.payloads && o.recipientId in s.w.recipients && o.outboxId in s.w.outbox
      && s.w.outbox[o.outboxId].payload == Wire(FirstEvent(c, r, o))
      && s.w.outbox[o.outboxId].eventKey == s.w.requests[r].requestId
  {
    hide Faithful, Reachable, Consistent, TablesOk, JobsOk, FirstEvent, Wire;
    ReachableConsistent(c, s);
    OneRequest(c, s.w, r);
    OnePayload(c, s.w, r);
    OneRecipient(c, s.w, r);
    OneOutboxRow(c, s.w, r);
  }

  lemma OneRequest(c: Cipher, w: World, r: Id)
    requires TablesOk(c, w) && r in w.requests
    ensures r in w.origin && w.requests[r].requestId == w.origin[r].dto.requestId
    ensures forall q | q in w.requests && w.requests[q].requestId == w.requests[r].requestId :: q == r
  {
    hide PayloadsOk, RecipientsOk, OutboxOk, TopicOk, StatusesOk, RequestOk;
    RequestKeys(w.origin, w.requests);
  }

  lemma OnePayload(c: Cipher, w: World, r: Id)
    requires TablesOk(c, w) && r in w.origin
    ensures var id := w.origin[r].payloadId;
      id in w.payloads && forall p | p in w.payloads :: w.payloads[p].messageRequestId == r <==> p == id
  {
    hide RequestsOk, RecipientsOk, OutboxOk, TopicOk, StatusesOk, NewPayload;
    PayloadOfRequest(c, r, w.origin[r]);
  }

  lemma OneRecipient(c: Cipher, w: World, r: Id)
    requires TablesOk(c, w) && r in w.origin
    ensures var id := w.origin[r].recipientId;
      id in w.recipients && forall p | p in w.recipients :: w.recipients[p].messageRequestId == r <==> p == id
  {
    hide RequestsOk, PayloadsOk, OutboxOk, TopicOk, StatusesOk, NewRecipient;
    PayloadOfRequest(c, r, w.origin[r]);
  }

  lemma OneOutboxRow(c: Cipher, w: World, r: Id)
    requires TablesOk(c, w) && r in w.origin
    ensures var o := w.origin[r];
      && o.outboxId in w.outbox && (forall p | p in w.outbox :: w.outbox[p].aggregateId == r <==> p == o.outboxId)
      && w.outbox[o.outboxId].payload == Wire(FirstEvent(c, r, o)) && w.outbox[o.outboxId].eventKey == o.dto.requestId
  {
    hide RequestsOk, PayloadsOk, RecipientsOk, TopicOk, StatusesOk, NewOutbox, FirstEvent, Wire;
    OutboxIdentity(c, w.outbox[w.origin[r].outboxId], r, w.origin[r]);
  }

  /** So every `findOne` of the services has at most one row to find: what the programs over the repositories
      require holds in every reachable state. */
  lemma ServicesMayRun(c: Cipher, s: State)
    requires Faithful(c) && Reachable(c, s)
    ensures Store.OneRowEach(s.w)
    ensures forall id | id in s.w.outbox :: s.w.outbox[id].id == id
    ensures forall id | id in s.w.dispatches :: s.w.dispatches[id].id == id
  {
    hide Faithful, Reachable, Consistent, JobsOk, TopicOk, StatusesOk, NewPayload, NewOutbox, NewRecipient, StoredRecipient, StoredPayload, RequestOk, IsOutboxOf,
         FirstEvent, Shape;
    ReachableConsistent(c, s);
    RequestKeys(s.w.origin, s.w.requests);
    forall id | id in s.w.outbox ensures s.w.outbox[id].id == id {
      var r := s.w.outbox[id].aggregateId;
      OutboxIdentity(c, s.w.outbox[id], r, s.w.origin[r]);
    }
    forall id | id in s.w.dispatches ensures s.w.dispatches[id].id == id { DispatchId(s.w, id); }
  }

  lemma DispatchId(w: World, id: Id)
    requires JobsOk(w) && id in w.dispatches
    ensures w.dispatches[id].id == id
  {
    assert DispatchOk(w.origin, w.failedAt, id, w.dispatches[id]);
  }

  lemma PayloadOfRequest(c: Cipher, r: Id, o: Origin)
    ensures StoredPayload(NewPayload(c, r, o)).messageRequestId == r && StoredRecipient(NewRecipient(r, o)).messageRequestId == r
  {
  }

  // ---------------------------------------------------------------- statuses

  /** Whenever a request says COMPLETED, it has one SUCCESS dispatch that no further run of any actors ever changes. */
  lemma CompletedIsFinal(c: Cipher, s: State, r: Id) returns (d: Id)
    requires Faithful(c) && Reachable(c, s) && r in s.w.requests && s.w.requests[r].status == RequestStatus.Completed
    ensures IsSuccess(s.w.dispatches, d, r)
    ensures forall more ::
      var s' := Exec(c, s, more); d in s'.w.dispatches && s'.w.dispatches[d] == s.w.dispatches[d]
  {
    hide Faithful, Reachable, Consistent, Settled, StaysSettled;
    ReachableInv(c, s);
    d :| Settled(s, d, r);
    assert IsSuccess(s.w.dispatches, d, r) by { SettledIsSuccess(s, d, r); }
    forall more ensures var s' := Exec(c, s, more); d in s'.w.dispatches && s'.w.dispatches[d] == s.w.dispatches[d] {
      SettledForever(c, s, more, d, r);
    }
  }

  lemma SettledIsSuccess(s: State, d: Id, r: Id)
    requires Settled(s, d, r)
    ensures IsSuccess(s.w.dispatches, d, r)
  {
  }

  lemma {:induction false} SettledForever(c: Cipher, s: State, more: seq<Action>, d: Id, r: Id)
    requires Faithful(c) && Consistent(c, s) && Settled(s, d, r)
    ensures Consistent(c, Exec(c, s, more)) && Settled(Exec(c, s, more), d, r)
    ensures d in s.w.dispatches && d in Exec(c, s, more).w.dispatches
    ensures Exec(c, s, more).w.dispatches[d] == s.w.dispatches[d]
    decreases |more|
  {
    hide Faithful, Consistent, Apply, Evolves, LaneOf;
    if more != [] {
      var n := |more| - 1;
      SettledForever(c, s, more[..n], d, r);
      SettledStays(c, Exec(c, s, more[..n]), more[n], d, r);
      ConsistentStep(c, Exec(c, s, more[..n]), more[n]);
    }
  }

  /** Once a request has left VALIDATED its event is on the topic, and no run ever takes it back to VALIDATED,
      whatever stale rows are saved. */
  lemma NeverValidatedAgain(c: Cipher, s: State, r: Id, more: seq<Action>)
    requires Faithful(c) && Reachable(c, s) && r in s.w.requests && s.w.requests[r].status != RequestStatus.Validated
    ensures OnTopic(s.w.topic, s.w.requests[r].requestId)
    ensures var w' := Exec(c, s, more).w; r in w'.requests && w'.requests[r].status != RequestStatus.Validated
  {
    hide Faithful, Reachable, Consistent, CompletedOk, Exec, JobsOk, RequestsOk, PayloadsOk, RecipientsOk, OutboxOk,
         TopicOk, OnTopic;
    ReachableInv(c, s);
    RunKeepsInv(c, s, more);
    ReachableConsistent(c, s);
  }

  /** So a `send` whose first read comes after that point answers at once with the stored status and channel: it
      publishes nothing, creates no row and changes nothing, ever after. */
  lemma LaterSendIsSilent(c: Cipher, s: State, r: Id, more: seq<Action>, call: nat, a: Answer)
    requires Faithful(c) && Reachable(c, s) && r in s.w.requests && s.w.requests[r].status != RequestStatus.Validated
    requires var s1 := Exec(c, s, more);
      && call in s1.sends && s1.sends[call].Start? && s1.sends[call].dto.requestId == s.w.requests[r].requestId
    ensures var s1 := Exec(c, s, more);
      && var s2 := Apply(c, s1, StepSend(call, a));
      && s2 == s1.(sends := s2.sends) && s2.sends == s1.sends[call := s2.sends[call]]
      && r in s1.w.requests && r in s.w.origin
      && s2.sends[call] == Done(
           if a.ok then
             Replied(s.w.requests[r].requestId, s1.w.requests[r].status, Some(ChannelName(s.w.origin[r].dto.channel)))
           else Unhandled)
  {
    hide Faithful, Reachable, Inv, Exec, TablesOk, JobsOk, OnTopic, SendStep, Consistent;
    NeverValidatedAgain(c, s, r, more);
    ReachableConsistent(c, s);
    StillConsistent(c, s, more);
    var s1 := Exec(c, s, more);
    SameKey(c, s.w, s1.w, r);
    StartAnswers(c, s1.w, r, s1.sends[call], a);
  }

  lemma StillConsistent(c: Cipher, s: State, more: seq<Action>)
    requires Faithful(c) && Reachable(c, s)
    ensures var w' := Exec(c, s, more).w; TablesOk(c, w') && Evolves(s.w, w')
  {
    hide Faithful, Reachable, Exec, Evolves, TablesOk, JobsOk, SendsOk, RelaysOk, SchedsOk, LanesOk, CompletedOk;
    ReachableInv(c, s);
    RunKeepsInv(c, s, more);
  }

  lemma SameKey(c: Cipher, w: World, w': World, r: Id)
    requires TablesOk(c, w) && TablesOk(c, w') && Evolves(w, w') && r in w.requests && r in w'.requests
    ensures r in w.origin && r in w'.origin && w'.origin[r] == w.origin[r]
    ensures w'.requests[r].requestId == w.requests[r].requestId
  {
    hide PayloadsOk, RecipientsOk, OutboxOk, TopicOk, StatusesOk, RequestOk, Evolves;
    RequestKeys(w.origin, w.requests);
    RequestKeys(w'.origin, w'.requests);
    OriginsStay(w, w');
  }

  /** The first read finds the row, and its status decides. */
  lemma StartAnswers(c: Cipher, w: World, r: Id, pc: SendPc, a: Answer)
    requires TablesOk(c, w) && r in w.requests && w.requests[r].status != RequestStatus.Validated
    requires pc.Start? && pc.dto.requestId == w.requests[r].requestId
    ensures r in w.origin && SendStep(c, w, pc, a) ==
      (w, Done(if a.ok then Replied(pc.dto.requestId, w.requests[r].status, Some(ChannelName(w.origin[r].dto.channel)))
               else Unhandled))
  {
    hide TablesOk, ToResponse, FindRequest;
    AnswersFromRow(c, w, r);
    OneRequest(c, w, r);
    var found := FindRequest(w, pc.dto.requestId);
    assert w.requests[r].requestId == pc.dto.requestId;
    assert found == Some(w.requests[r]);
  }

  lemma AnswersFromRow(c: Cipher, w: World, r: Id)
    requires TablesOk(c, w) && r in w.requests
    ensures r in w.origin && ToResponse(w.requests[r], None)
      == Replied(w.requests[r].requestId, w.requests[r].status, Some(ChannelName(w.origin[r].dto.channel)))
  {
    hide PayloadsOk, RecipientsOk, OutboxOk, TopicOk, StatusesOk, IsRequestOf, StoredRequest, AsRecord, ReadString, ReadRecord;
    assert RequestOk(w.requests[r], r, w.origin[r]);
    MetadataReads(w.requests[r], r, w.origin[r]);
  }

  /** A reply is true: it names a stored request by its own request id, its one channel and a status past VALIDATED,
      the request's event is on the topic, and neither data-missing error ever goes out, also when `metadata` had keys of its own. */
  lemma RepliesAreTrue(c: Cipher, s: State, call: nat)
    requires Faithful(c) && Reachable(c, s) && call in s.sends && s.sends[call].Done?
    ensures match s.sends[call].reply
      case Replied(requestId, status, channel) =>
        exists r :: r in s.w.requests && r in s.w.origin && s.w.requests[r].requestId == requestId
          && channel == Some(ChannelName(s.w.origin[r].dto.channel)) && status != RequestStatus.Validated
          && OnTopic(s.w.topic, requestId)
      case Rejected(code) => code != PayloadNotFound && code != DataMissing
      case Unhandled => true
  {
    hide Faithful, Reachable, TablesOk, JobsOk, RelaysOk, SchedsOk, LanesOk;
    ReachableConsistent(c, s);
    assert SendOk(c, s.w, s.sends[call]);
    var reply := s.sends[call].reply;
    if reply.Replied? {
      var r :| r in s.w.origin && s.w.origin[r].dto.requestId == reply.requestId
        && reply.channel == Some(ChannelName(s.w.origin[r].dto.channel));
      OneRequest(c, s.w, r);
    }
  }

  /** Request status is not monotone: a COMPLETED request leaves that status exactly when a gateway call that has
      been holding the row since before saves its late QUEUED over it. */
  lemma CompletedIsOverwrittenIff(c: Cipher, s: State, r: Id, action: Action)
    requires Faithful(c) && Reachable(c, s) && r in s.w.requests && s.w.requests[r].status == RequestStatus.Completed
    ensures var s' := Apply(c, s, action);
      && r in s'.w.requests
      && (s'.w.requests[r].status != RequestStatus.Completed <==>
           && action.StepSend? && action.call in s.sends && action.answer.ok
           && var pc := s.sends[action.call]; (pc.SaveQueued? || pc.SaveRequeued?) && pc.request.id == r)
  {
    hide Faithful, Reachable, TablesOk, JobsOk, RelaysOk, SchedsOk, LanesOk, SendOk, SendStep, LaneStep, Relay.RelayStep,
         Scheduler.SchedStep;
    ReachableConsistent(c, s);
    match action
    case StepSend(call, a) => if call in s.sends { LateSave(c, s.w, s.sends[call], a, r); }
    case StepRelay(run, a) => if run in s.relays { Relay.RelayFrame(s.w, s.relays[run], a); }
    case StepSched(run, a) => if run in s.scheds { Scheduler.SchedFrame(s.w, s.scheds[run], a); }
    case StepLane(lane, a) => LaneOnlyCompletes(c, s, lane, a, r);
    case _ =>
  }

  /** A request with a SUCCESS dispatch whose `process` call is over and that does not say COMPLETED, be it for a late
      QUEUED save or for a crash before the COMPLETED save, never says it: every redelivery stops at the SUCCESS. */
  lemma {:induction false} NeverCompletedAgain(c: Cipher, s: State, d: Id, r: Id, more: seq<Action>)
    requires Faithful(c) && Consistent(c, s) && Settled(s, d, r)
    requires r in s.w.requests && s.w.requests[r].status != RequestStatus.Completed
    ensures Consistent(c, Exec(c, s, more)) && Settled(Exec(c, s, more), d, r)
    ensures var w' := Exec(c, s, more).w; r in w'.requests && w'.requests[r].status != RequestStatus.Completed
    decreases |more|
  {
    hide Faithful, Consistent, Apply, Settled, Evolves;
    if more != [] {
      var n := |more| - 1;
      NeverCompletedAgain(c, s, d, r, more[..n]);
      var s1 := Exec(c, s, more[..n]);
      ConsistentStep(c, s1, more[n]);
      SettledStays(c, s1, more[n], d, r);
      NotCompletedStep(c, s1, more[n], d, r);
    }
  }

  lemma NotCompletedStep(c: Cipher, s: State, action: Action, d: Id, r: Id)
    requires Faithful(c) && Consistent(c, s) && Settled(s, d, r)
    requires r in s.w.requests && s.w.requests[r].status != RequestStatus.Completed
    ensures var w' := Apply(c, s, action).w; r in w'.requests && w'.requests[r].status != RequestStatus.Completed
  {
    hide TablesOk, JobsOk, RelaysOk, SchedsOk, LanesOk, SendOk, Settled, Faithful, SendStep, LaneStep, Relay.RelayStep,
         Scheduler.SchedStep;
    match action
    case StepSend(call, a) => if call in s.sends { SendNeverCompletes(c, s.w, s.sends[call], a, r); }
    case StepRelay(run, a) => if run in s.relays { Relay.RelayFrame(s.w, s.relays[run], a); }
    case StepSched(run, a) => if run in s.scheds { Scheduler.SchedFrame(s.w, s.scheds[run], a); }
    case StepLane(lane, a) => LaneCompletesNone(c, s, lane, a, d, r);
    case _ =>
  }

  lemma LaneCompletesNone(c: Cipher, s: State, lane: Lane, a: Answer, d: Id, r: Id)
    requires Consistent(c, s) && Settled(s, d, r)
    requires r in s.w.requests && s.w.requests[r].status != RequestStatus.Completed
    ensures var w' := Apply(c, s, StepLane(lane, a)).w; r in w'.requests && w'.requests[r].status != RequestStatus.Completed
  {
    hide TablesOk, JobsOk, SendsOk, RelaysOk, SchedsOk, DeliveryOk, WorkerStep, Deliver, StoredRequest, Busy, IsSuccess;
    var k := ConsumerOf(s, lane);
    IdleLane(s.w, lane);
    assert LaneOk(s.w, lane, k);
    if LaneStep(c, s.w, lane, k, a).0.requests != s.w.requests {
      LaneTouchesRequests(c, s.w, lane, k, a);
      CompletingStep(s.w, lane.channel, s.w.topic[k.offset], k.delivery.value, a);
      if k.delivery.value.request.id == r { CompletingIsBusy(c, s, lane, d, r); }
    }
  }

  /** A delivery that is about to complete a request is busy with its one SUCCESS dispatch, so that is not settled. */
  lemma CompletingIsBusy(c: Cipher, s: State, lane: Lane, d: Id, r: Id)
    requires Consistent(c, s) && r in s.w.origin && IsSuccess(s.w.dispatches, d, r)
    requires var k := ConsumerOf(s, lane);
      && k.delivery.Some? && k.delivery.value.SaveCompleted? && LaneOk(s.w, lane, k)
      && s.w.topic[k.offset].event.messageRequestId == r && IsSuccess(s.w.dispatches, k.delivery.value.dispatch.id, r)
    ensures Busy(ConsumerOf(s, LaneOf(s.w, r))) == Some(d)
  {
    hide TablesOk, DispatchesOk, LogsOk, SendsOk, RelaysOk, SchedsOk, LanesOk, DeliveryOk;
    LaneRequest(c, s.w, lane, ConsumerOf(s, lane));
  }

  lemma LateSave(c: Cipher, w: World, pc: SendPc, a: Answer, r: Id)
    requires SendOk(c, w, pc) && r in w.requests && w.requests[r].status == RequestStatus.Completed
    ensures var w' := SendStep(c, w, pc, a).0;
      && r in w'.requests
      && (w'.requests[r].status != RequestStatus.Completed <==>
           a.ok && (pc.SaveQueued? || pc.SaveRequeued?) && pc.request.id == r)
  {
    hide IsRequestOf, IsOutboxOf, EventOk, OnTopic, NewOutbox, NewPayload, NewRecipient, RequestMetadata, CleanRecord;
  }

  lemma LaneOnlyCompletes(c: Cipher, s: State, lane: Lane, a: Answer, r: Id)
    requires Consistent(c, s) && r in s.w.requests && s.w.requests[r].status == RequestStatus.Completed
    ensures var w' := Apply(c, s, StepLane(lane, a)).w; r in w'.requests && w'.requests[r].status == RequestStatus.Completed
  {
    hide TablesOk, JobsOk, SendsOk, RelaysOk, SchedsOk, DeliveryOk, WorkerStep, Deliver, StoredRequest;
    var k := ConsumerOf(s, lane);
    IdleLane(s.w, lane);
    assert LaneOk(s.w, lane, k);
    if LaneStep(c, s.w, lane, k, a).0.requests != s.w.requests {
      LaneTouchesRequests(c, s.w, lane, k, a);
      CompletingStep(s.w, lane.channel, s.w.topic[k.offset], k.delivery.value, a);
      StoredStatus(MarkCompleted(k.delivery.value.request, s.w.now));
    }
  }

  lemma StoredStatus(r: Request)
    ensures StoredRequest(r).status == r.status
  {
  }

  /** SUCCESS is taken back exactly by the row's own delivery, when something threw after the SUCCESS save and the
      handler now saves its retry; no scheduler run, duplicate or gateway call ever does it. */
  lemma SuccessIsTakenBackIff(c: Cipher, s: State, d: Id, action: Action)
    requires Faithful(c) && Reachable(c, s) && d in s.w.dispatches && s.w.dispatches[d].status == DispatchStatus.Success
    ensures var s' := Apply(c, s, action);
      && d in s'.w.dispatches
      && (s'.w.dispatches[d].status != DispatchStatus.Success <==>
           && action.StepLane? && action.answer.ok
           && var k := ConsumerOf(s, action.lane);
           && k.delivery.Some? && k.delivery.value.SaveRetry? && k.delivery.value.dispatch.id == d)
  {
    hide Faithful, Reachable, TablesOk, JobsOk, SendsOk, RelaysOk, LanesOk, SchedOk, SendStep, LaneStep, Relay.RelayStep,
         Scheduler.SchedStep;
    ReachableConsistent(c, s);
    match action
    case StepSend(call, a) => if call in s.sends { SendLeavesDispatches(c, s.w, s.sends[call], a); }
    case StepRelay(run, a) => if run in s.relays { Relay.RelayFrame(s.w, s.relays[run], a); }
    case StepSched(run, a) => if run in s.scheds { SchedLeavesSuccess(c, s.w, s.scheds[run], a, d); }
    case StepLane(lane, a) => LaneTakesBack(c, s, lane, a, d);
    case _ =>
  }

  lemma SendLeavesDispatches(c: Cipher, w: World, pc: SendPc, a: Answer)
    ensures SendStep(c, w, pc, a).0.dispatches == w.dispatches
  {
    hide NewRequest, NewPayload, NewRecipient, NewOutbox, FirstEvent, Wire, StoredRequest, StoredOutbox, StoredPayload;
  }

  lemma SchedLeavesSuccess(c: Cipher, w: World, pc: Scheduler.SchedPc, a: Answer, d: Id)
    requires JobsOk(w) && SchedOk(c, w, pc) && d in w.dispatches && w.dispatches[d].status == DispatchStatus.Success
    ensures var w' := Scheduler.SchedStep(w, pc, a).0; d in w'.dispatches && w'.dispatches[d] == w.dispatches[d]
  {
    hide EventOk, Wire, RetryEvent, Holds, HoldsPayload, LogsOk, SingleSuccess, StoredRequest;
    DispatchFacts(w.origin, w.dispatches, w.failedAt, d);
  }

  lemma LaneTakesBack(c: Cipher, s: State, lane: Lane, a: Answer, d: Id)
    requires Consistent(c, s) && d in s.w.dispatches && s.w.dispatches[d].status == DispatchStatus.Success
    ensures var w' := Apply(c, s, StepLane(lane, a)).w;
      && d in w'.dispatches
      && (w'.dispatches[d].status != DispatchStatus.Success <==>
           var k := ConsumerOf(s, lane);
           a.ok && k.delivery.Some? && k.delivery.value.SaveRetry? && k.delivery.value.dispatch.id == d)
  {
    hide TablesOk, JobsOk, SendsOk, RelaysOk, SchedsOk, DeliveryOk, WorkerStep, Deliver;
    var k := ConsumerOf(s, lane);
    IdleLane(s.w, lane);
    assert LaneOk(s.w, lane, k);
    if k.delivery.Some? {
      DeliveryTakesBack(s.w, lane.channel, s.w.topic[k.offset], k.delivery.value, a, d);
    }
  }

  lemma DeliveryTakesBack(w: World, channel: Channel, m: Message, pc: WorkerPc, a: Answer, d: Id)
    requires DeliveryOk(w, m, pc) && d in w.dispatches && w.dispatches[d].status == DispatchStatus.Success
    ensures var w' := WorkerStep(channel, w, pc, a).0;
      && d in w'.dispatches
      && (w'.dispatches[d].status != DispatchStatus.Success <==> a.ok && pc.SaveRetry? && pc.dispatch.id == d)
  {
    hide IsRequestOf, CleanRecord, Shape, LogsOf, StoredRequest, HasSuccess, EventInHand, Holds;
  }

  // ---------------------------------------------------------------- what a delivery works on

  /** Whichever publisher put the event on the topic, `process` is handed the message with exactly the variables
      the client sent, opened once, also when those variables have an `_enc` key of their own. */
  lemma ProcessGetsWhatWasSent(c: Cipher, s: State, lane: Lane, a: Answer)
    requires Faithful(c) && Reachable(c, s) && lane.channel != Chat
    requires var k := ConsumerOf(s, lane);
      && k.delivery.None? && k.offset < |s.w.topic| && s.w.topic[k.offset].key == lane.key
      && s.w.topic[k.offset].event.channel == ChannelName(lane.channel)
    ensures var m := s.w.topic[ConsumerOf(s, lane).offset].event;
      && m.messageRequestId in s.w.origin
      && var sent := s.w.origin[m.messageRequestId].dto.variables;
      && Apply(c, s, StepLane(lane, a)).lanes[lane]
           == Consumer(ConsumerOf(s, lane).offset, Some(ReadRequest(m.(variables := CleanRecord(sent)))))
      && (IsJson(Obj(sent)) ==> CleanRecord(sent) == sent)
  {
    hide Faithful, Reachable, JobsOk, RequestsOk, PayloadsOk, RecipientsOk, OutboxOk, StatusesOk, SendsOk, RelaysOk, SchedsOk,
         LanesOk, Encrypt, Decrypt, CleanRecord, IsEncrypted, Agrees, FirstEvent, WorkerStep;
    ReachableConsistent(c, s);
    var m := s.w.topic[ConsumerOf(s, lane).offset];
    assert EventOk(c, s.w.origin, m.event);
    EventFacts(c, s.w.origin, m.event);
    var o := s.w.origin[m.event.messageRequestId];
    EnvelopeRoundTrip(c, o.dto.variables, o.iv);
    JsonUnchanged(o.dto.variables);
  }

  lemma JsonUnchanged(f: Record)
    ensures IsJson(Obj(f)) ==> CleanRecord(f) == f
  {
    if IsJson(Obj(f)) { CleanKeepsJson(Obj(f)); }
  }

  // ---------------------------------------------------------------- dispatch rows, retries and logs

  /** The ladder never advances past its first rung: every dispatch row has failed at most once and then waits
      exactly a minute from its failure; no row, request or delivery is ever on the give-up path, nothing
      reaches the dead-letter topic, and the scheduler never finds data missing. */
  lemma LadderStaysOnFirstRung(c: Cipher, s: State)
    requires Faithful(c) && Reachable(c, s)
    ensures forall d | d in s.w.dispatches ::
      var row := s.w.dispatches[d];
      && 0 <= row.retryCount <= 1 && row.status != DispatchStatus.Failed
      && (row.status == DispatchStatus.RetryWait ==> d in s.w.failedAt && row.nextRetryAt == Some(s.w.failedAt[d] + 60_000))
    ensures forall r | r in s.w.requests :: s.w.requests[r].status != RequestStatus.Failed
    ensures s.w.dlq == []
    ensures forall lane | lane in s.lanes && s.lanes[lane].delivery.Some? ::
      var pc := s.lanes[lane].delivery.value;
      !pc.SaveFailed? && !pc.LogFailed? && !pc.SaveRequestFailed? && !pc.PublishDlq?
    ensures forall run | run in s.scheds && s.scheds[run].Save? ::
      s.scheds[run].dispatch.status == DispatchStatus.Processing
  {
    hide Faithful, Reachable, Consistent, TablesOk, JobsOk;
    ReachableConsistent(c, s);
    RowsOnFirstRung(s.w);
    RequestsNotFailed(c, s.w);
    forall lane | lane in s.lanes && s.lanes[lane].delivery.Some? ensures
      var pc := s.lanes[lane].delivery.value;
      !pc.SaveFailed? && !pc.LogFailed? && !pc.SaveRequestFailed? && !pc.PublishDlq?
    {
      DeliveryNeverGivesUp(c, s, lane);
    }
    forall run | run in s.scheds && s.scheds[run].Save?
      ensures s.scheds[run].dispatch.status == DispatchStatus.Processing
    {
      SchedulerNeverGivesUp(c, s, run);
    }
  }

  lemma RowsOnFirstRung(w: World)
    requires JobsOk(w)
    ensures w.dlq == []
    ensures forall d | d in w.dispatches ::
      var row := w.dispatches[d];
      && 0 <= row.retryCount <= 1 && row.status != DispatchStatus.Failed
      && (row.status == DispatchStatus.RetryWait ==> d in w.failedAt && row.nextRetryAt == Some(w.failedAt[d] + 60_000))
  {
    hide LogsOk, SingleSuccess;
    forall d | d in w.dispatches ensures DispatchOk(w.origin, w.failedAt, d, w.dispatches[d]) {}
  }

  lemma RequestsNotFailed(c: Cipher, w: World)
    requires TablesOk(c, w)
    ensures forall r | r in w.requests :: w.requests[r].status != RequestStatus.Failed
  {
    hide PayloadsOk, RecipientsOk, OutboxOk, TopicOk, StatusesOk, IsRequestOf, StoredRequest;
    forall r | r in w.requests ensures RequestOk(w.requests[r], r, w.origin[r]) {}
  }

  lemma DeliveryNeverGivesUp(c: Cipher, s: State, lane: Lane)
    requires Consistent(c, s) && lane in s.lanes && s.lanes[lane].delivery.Some?
    ensures var pc := s.lanes[lane].delivery.value;
      !pc.SaveFailed? && !pc.LogFailed? && !pc.SaveRequestFailed? && !pc.PublishDlq?
  {
    hide TablesOk, JobsOk, SendsOk, RelaysOk, SchedsOk, Holds, OwnJob, DispatchOk, LogsOf, EventInHand;
    assert LaneOk(s.w, lane, s.lanes[lane]);
  }

  lemma SchedulerNeverGivesUp(c: Cipher, s: State, run: nat)
    requires Consistent(c, s) && run in s.scheds && s.scheds[run].Save?
    ensures s.scheds[run].dispatch.status == DispatchStatus.Processing
  {
    hide TablesOk, JobsOk, SendsOk, RelaysOk, LanesOk, HoldsJob, EventOk;
    assert SchedOk(c, s.w, s.scheds[run]);
  }

  /** No retry event is published earlier than a minute after the failure it answers. */
  lemma NoEarlyRetry(c: Cipher, s: State, run: nat)
    requires Faithful(c) && Reachable(c, s) && run in s.scheds && s.scheds[run].Publish?
    ensures var d := s.scheds[run].dispatch;
      && d.id in s.w.dispatches && s.w.dispatches[d.id].retryCount == 1
      && d.id in s.w.failedAt && s.w.failedAt[d.id] + 60_000 <= s.w.now
  {
    hide Faithful, Reachable, TablesOk, JobsOk, SendsOk, RelaysOk, LanesOk, EventOk, Shape;
    ReachableConsistent(c, s);
    assert SchedOk(c, s.w, s.scheds[run]);
  }

  /** Every dispatch row is consistent with its status, and its log is a beginning of REQUEST, perhaps SUCCESS,
      perhaps RETRY, that fits the row. */
  lemma RowsAndLogsFit(c: Cipher, s: State, d: Id)
    requires Faithful(c) && Reachable(c, s) && d in s.w.dispatches
    ensures var row, log := s.w.dispatches[d], LogsOf(s.w, d);
      && (row.status == DispatchStatus.Success ==>
            row.providerMessageId.Some? && row.successAt.Some? && row.nextRetryAt == None && row.lastErrorCode == None
            && row.lastErrorMessage == None && row.retryCount == 0 && (log == [REQUESTED] || log == [REQUESTED, SUCCEEDED]))
      && (row.status == DispatchStatus.RetryWait ==>
            row.nextRetryAt.Some? && row.lastErrorMessage.Some?
            && (row.channelType == Email ==> row.lastErrorCode == Some("EMAIL_SEND_FAILED"))
            && (row.channelType == Sms ==> row.lastErrorCode == Some("SMS_SEND_FAILED"))
            && (row.channelType == Kakao ==> row.lastErrorCode == Some("KAKAO_SEND_FAILED"))
            && 1 <= row.retryCount <= row.maxRetryCount && row.providerMessageId.Some?)
      && (row.status == DispatchStatus.Processing ==>
            row.nextRetryAt == None
            && (row.retryCount == 0 ==> row.providerMessageId == None && row.lastErrorCode == None && (log == [] || log == [REQUESTED])))
      && (row.status == DispatchStatus.Processing || row.status == DispatchStatus.Success || row.status == DispatchStatus.RetryWait)
      && row.channelType != Chat && row.maxRetryCount == 3 && row.queuedAt.Some? && row.processingAt.Some? && row.failedAt == None
      && row.sentAt == row.successAt && (row.sentAt.Some? <==> row.providerMessageId.Some?)
      && (row.providerMessageId.Some? ==> row.providerMessageId.value.0 == row.channelType)
      && (log == [] || log == [REQUESTED] || log == [REQUESTED, SUCCEEDED] || log == [REQUESTED, RETRIED]
          || log == [REQUESTED, SUCCEEDED, RETRIED])
      // A RETRY entry means a recorded failure, a recorded failure or success means an entry, and a SUCCESS entry
      // means that the row is successful or was until it failed.
      && (RETRIED in log ==> row.retryCount == 1)
      && (row.retryCount == 1 || row.status == DispatchStatus.Success ==> REQUESTED in log)
      && (SUCCEEDED in log ==> row.status == DispatchStatus.Success || row.retryCount == 1)
  {
    hide Faithful, Reachable, TablesOk, SendsOk, RelaysOk, SchedsOk, LanesOk, SingleSuccess;
    ReachableConsistent(c, s);
    assert DispatchOk(s.w.origin, s.w.failedAt, d, s.w.dispatches[d]) && LogOk(LogsOf(s.w, d), s.w.dispatches[d]);
  }

  /** No worker takes channel CHAT: such a request is never dispatched and never COMPLETED. */
  lemma ChatIsNeverDispatched(c: Cipher, s: State, r: Id)
    requires Faithful(c) && Reachable(c, s) && r in s.w.requests && r in s.w.origin && s.w.origin[r].dto.channel == Chat
    ensures forall d | d in s.w.dispatches :: s.w.dispatches[d].messageRequestId != r
    ensures s.w.requests[r].status != RequestStatus.Completed
  {
    hide Faithful, Reachable, TablesOk, SendsOk, RelaysOk, SchedsOk, LanesOk, LogsOk, SingleSuccess;
    ReachableInv(c, s);
    forall d | d in s.w.dispatches ensures s.w.dispatches[d].messageRequestId != r {
      assert DispatchOk(s.w.origin, s.w.failedAt, d, s.w.dispatches[d]);
    }
  }

  // ---------------------------------------------------------------- FAILED outbox rows

  /** An outbox row becomes FAILED exactly when a relay run that holds it after a publish that threw saves that. */
  lemma EntryFailsIff(c: Cipher, s: State, id: Id, action: Action)
    requires Faithful(c) && Reachable(c, s) && id in s.w.outbox && s.w.outbox[id].status != OutboxStatus.Failed
    ensures var s' := Apply(c, s, action);
      && id in s'.w.outbox
      && (s'.w.outbox[id].status == OutboxStatus.Failed <==>
           && action.StepRelay? && action.run in s.relays && action.answer.ok
           && var pc := s.relays[action.run]; pc.Save? && pc.entry.id == id && pc.entry.status == OutboxStatus.Failed)
  {
    hide Faithful, Reachable, TablesOk, JobsOk, RelaysOk, SchedsOk, LanesOk, SendOk, SendStep, LaneStep, Relay.RelayStep,
         Scheduler.SchedStep;
    ReachableConsistent(c, s);
    match action
    case StepSend(call, a) => if call in s.sends { SendFailsNone(c, s.w, s.sends[call], a, id); }
    case StepRelay(run, a) => if run in s.relays { RelayFailsIff(s.w, s.relays[run], a, id); }
    case StepSched(run, a) => if run in s.scheds { Scheduler.SchedFrame(s.w, s.scheds[run], a); }
    case StepLane(lane, a) => LaneLeavesOutbox(c, s.w, lane, ConsumerOf(s, lane), a);
    case _ =>
  }

  lemma RelayFailsIff(w: World, pc: Relay.RelayPc, a: Answer, id: Id)
    requires id in w.outbox && w.outbox[id].status != OutboxStatus.Failed
    ensures var w' := Relay.RelayStep(w, pc, a).0;
      && id in w'.outbox
      && (w'.outbox[id].status == OutboxStatus.Failed <==>
           a.ok && pc.Save? && pc.entry.id == id && pc.entry.status == OutboxStatus.Failed)
  {
    hide Wire, Relay.RelayPublish, Relay.IsPendingBatch;
    Relay.RelayFrame(w, pc, a);
  }

  /** A step in which a relay run publishes the row and that throws. */
  ghost predicate PublishThrows(s: State, action: Action, id: Id) {
    && action.StepRelay? && action.run in s.relays && !action.answer.ok
    && var pc := s.relays[action.run]; pc.Next? && pc.queue != [] && pc.queue[0].id == id
  }

  ghost predicate HeldAsFailed(pc: Relay.RelayPc, id: Id) {
    pc.Save? && pc.entry.id == id && pc.entry.status == OutboxStatus.Failed
  }

  /** The row says FAILED, or some relay run is about to save that. */
  ghost predicate FailedOrHeld(s: State, id: Id) {
    || (id in s.w.outbox && s.w.outbox[id].status == OutboxStatus.Failed)
    || (exists run :: run in s.relays && HeldAsFailed(s.relays[run], id))
  }

  /** It comes about only by such a throw. */
  lemma FailedStep(c: Cipher, s: State, action: Action, id: Id)
    requires Consistent(c, s) && FailedOrHeld(Apply(c, s, action), id) && !FailedOrHeld(s, id)
    ensures PublishThrows(s, action, id)
  {
    hide TablesOk, JobsOk, RelaysOk, SchedsOk, LanesOk, SendOk, SendStep, LaneStep, Relay.RelayStep, Scheduler.SchedStep,
         HeldAsFailed;
    match action
    case StepSend(call, a) => if call in s.sends { SendFailsNone(c, s.w, s.sends[call], a, id); }
    case StepRelay(run, a) => if run in s.relays { RelayFailsOwn(s.w, s.relays[run], a, id); }
    case StepSched(run, a) => if run in s.scheds { Scheduler.SchedFrame(s.w, s.scheds[run], a); }
    case StepLane(lane, a) => LaneLeavesOutbox(c, s.w, lane, ConsumerOf(s, lane), a);
    case StartRelay(run) => assert !HeldAsFailed(Relay.Fetch, id) by { FetchHoldsNothing(id); }
    case _ =>
  }

  lemma FetchHoldsNothing(id: Id)
    ensures !HeldAsFailed(Relay.Fetch, id)
  {
  }

  lemma SendFailsNone(c: Cipher, w: World, pc: SendPc, a: Answer, id: Id)
    requires SendOk(c, w, pc) && !(id in w.outbox && w.outbox[id].status == OutboxStatus.Failed)
    ensures var w' := SendStep(c, w, pc, a).0;
      (id in w.outbox ==> id in w'.outbox) && !(id in w'.outbox && w'.outbox[id].status == OutboxStatus.Failed)
  {
    hide NewRequest, NewPayload, NewRecipient, FirstEvent, Wire, StoredRequest, Holds, HoldsEntry, HoldsPayload, EventOk;
  }

  lemma RelayFailsOwn(w: World, pc: Relay.RelayPc, a: Answer, id: Id)
    requires !(id in w.outbox && w.outbox[id].status == OutboxStatus.Failed) && !HeldAsFailed(pc, id)
    ensures var (w', pc') := Relay.RelayStep(w, pc, a);
      && !(id in w'.outbox && w'.outbox[id].status == OutboxStatus.Failed)
      && (HeldAsFailed(pc', id) ==> !a.ok && pc.Next? && pc.queue != [] && pc.queue[0].id == id)
  {
    hide Wire, Relay.RelayPublish, Relay.IsPendingBatch;
    Relay.RelayFrame(w, pc, a);
  }

  /** A row says FAILED, or is about to, only if an earlier relay publish of that very row threw. */
  lemma {:induction false} FailedMeansThrown(c: Cipher, run: seq<Action>, id: Id) returns (n: nat)
    requires Faithful(c) && FailedOrHeld(Exec(c, INITIAL, run), id)
    ensures n < |run| && PublishThrows(Exec(c, INITIAL, run[..n]), run[n], id)
    decreases |run|
  {
    hide Faithful, Apply, PublishThrows, Reachable, TablesOk, JobsOk, Consistent, FailedOrHeld;
    NothingFailedYet(id);
    var k := |run| - 1;
    var s := Exec(c, INITIAL, run[..k]);
    if FailedOrHeld(s, id) {
      n := FailedMeansThrown(c, run[..k], id);
      assert run[..k][..n] == run[..n];
    } else {
      n := k;
      RunReachable(c, run[..k]);
      ReachableConsistent(c, s);
      FailedStep(c, s, run[k], id);
    }
  }

  lemma NothingFailedYet(id: Id)
    ensures !FailedOrHeld(INITIAL, id)
  {
  }

  /** Some actor has the outbox row in memory. */
  ghost predicate EntryInHand(s: State, id: Id) {
    || (exists call :: call in s.sends && (s.sends[call].Publish? || s.sends[call].SaveEntry?) && s.sends[call].entry.id == id)
    || (exists run :: run in s.relays && RelayHas(s.relays[run], id))
  }

  ghost predicate RelayHas(pc: Relay.RelayPc, id: Id) {
    match pc
    case Next(q) => exists i :: 0 <= i < |q| && q[i].id == id
    case Save(o, q) => o.id == id || exists i :: 0 <= i < |q| && q[i].id == id
    case _ => false
  }

  ghost predicate Stranded(s: State, id: Id) {
    id in s.w.outbox && s.w.outbox[id].status == OutboxStatus.Failed && !EntryInHand(s, id)
  }

  lemma StrandedStep(c: Cipher, s: State, id: Id, action: Action)
    requires Stranded(s, id)
    ensures var s' := Apply(c, s, action); Stranded(s', id) && s'.w.outbox[id] == s.w.outbox[id]
  {
    hide LaneStep, SendStep, Relay.RelayStep, Scheduler.SchedStep;
    match action
    case StepSend(call, a) => if call in s.sends { SendStrands(c, s.w, s.sends[call], a, id); }
    case StepRelay(run, a) => if run in s.relays { RelayStrands(s.w, s.relays[run], a, id); }
    case StepSched(run, a) => if run in s.scheds { Scheduler.SchedFrame(s.w, s.scheds[run], a); }
    case StepLane(lane, a) => LaneLeavesOutbox(c, s.w, lane, ConsumerOf(s, lane), a);
    case _ =>
  }

  ghost predicate SendHas(pc: SendPc, id: Id) { (pc.Publish? || pc.SaveEntry?) && pc.entry.id == id }

  lemma SendStrands(c: Cipher, w: World, pc: SendPc, a: Answer, id: Id)
    requires id in w.outbox && !SendHas(pc, id)
    ensures var (w', pc') := SendStep(c, w, pc, a); id in w'.outbox && w'.outbox[id] == w.outbox[id] && !SendHas(pc', id)
  {
    hide NewRequest, NewPayload, NewRecipient, FirstEvent, Wire, StoredRequest;
  }

  lemma RelayStrands(w: World, pc: Relay.RelayPc, a: Answer, id: Id)
    requires id in w.outbox && w.outbox[id].status == OutboxStatus.Failed && !RelayHas(pc, id)
    ensures var (w', pc') := Relay.RelayStep(w, pc, a);
      id in w'.outbox && w'.outbox[id] == w.outbox[id] && !RelayHas(pc', id)
  {
    hide Wire, Relay.RelayPublish;
    Relay.RelayFrame(w, pc, a);
  }

  lemma LaneLeavesOutbox(c: Cipher, w: World, lane: Lane, k: Consumer, a: Answer)
    ensures LaneStep(c, w, lane, k, a).0.outbox == w.outbox
  {
    hide WorkerStep, Opened;
    if k.delivery.Some? { WorkerFrame(lane.channel, w, k.delivery.value, a); }
  }

  /** A FAILED outbox row is never selected again: unless some actor still has it in memory, it stays as it is
      over every run. */
  lemma {:induction false} FailedEntryStays(c: Cipher, s: State, id: Id, more: seq<Action>)
    requires id in s.w.outbox && s.w.outbox[id].status == OutboxStatus.Failed && !EntryInHand(s, id)
    ensures var w' := Exec(c, s, more).w; id in w'.outbox && w'.outbox[id] == s.w.outbox[id]
    ensures Stranded(Exec(c, s, more), id)
    decreases |more|
  {
    hide Apply, EntryInHand;
    if more != [] {
      var n := |more| - 1;
      FailedEntryStays(c, s, id, more[..n]);
      StrandedStep(c, Exec(c, s, more[..n]), id, more[n]);
    }
  }
}
