/** When a request stops being accounted for: exactly when a delivery of it throws outside, or in the handler of,
    the try block and nothing else of it is left. */
module NoLoss {
  import opened Json
  import opened Domain
  import opened Crypto
  import opened Events
  import opened World
  import opened Gateway
  import opened Worker
  import opened Pipeline
  import opened Invariants
  import opened Steps
  import opened Jobs
  import opened Actors
  import opened Safety
  import Relay
  import Scheduler

  /** A delivery of request r whose next awaited call throws outside, or inside the handler of, the try block. */
  ghost predicate Swallows(s: State, action: Action, r: Id) {
    && action.StepLane?
    && var k := ConsumerOf(s, action.lane);
    && k.delivery.Some? && k.offset < |s.w.topic| && s.w.topic[k.offset].event.messageRequestId == r
    && match k.delivery.value
       case ReadRequest(_) => !action.answer.ok
       case CheckSuccess(_, _) => !action.answer.ok
       case Insert(_, _) => !action.answer.ok || action.answer.uuid in s.w.dispatches
       case LogRequest(_, _, _) => !action.answer.ok
       case SaveRetry(_) => !action.answer.ok
       case _ => false
  }

  /** A later message of the request waits behind the one its consumer is at. */
  ghost predicate HasLaterMessage(s: State, lane: Lane, r: Id)
    requires r in s.w.origin
  {
    exists i :: ConsumerOf(s, lane).offset < i < |s.w.topic| && s.w.topic[i].key == s.w.origin[r].dto.requestId
  }

  /** Such a throw, with no SUCCESS dispatch of the request, no later message, no unsent outbox row and no retry row. */
  ghost predicate Abandons(s: State, action: Action, r: Id) {
    && r in s.w.origin && Swallows(s, action, r)
    && !(exists d :: IsSuccess(s.w.dispatches, d, r)) && !HasLaterMessage(s, action.lane, r)
    && !InOutbox(s, r) && !(exists d :: AwaitsRetry(s.w.dispatches, s.scheds, d, r))
  }

  /** The request tables and the topic carry on: what was waiting still waits. */
  ghost predicate Onward(s: State, s': State, r: Id) {
    && r in s.w.origin && r in s'.w.origin && s'.w.origin[r] == s.w.origin[r]
    && |s.w.topic| <= |s'.w.topic| && (forall i | 0 <= i < |s.w.topic| :: s'.w.topic[i] == s.w.topic[i])
    && Frontier(ConsumerOf(s', LaneOf(s.w, r))) <= Frontier(ConsumerOf(s, LaneOf(s.w, r)))
  }

  lemma WaitsOn(s: State, s': State, r: Id)
    requires Onward(s, s', r) && Waiting(s, r)
    ensures Waiting(s', r)
  {
    var lane := LaneOf(s.w, r);
    var i :| Frontier(ConsumerOf(s, lane)) <= i < |s.w.topic| && s.w.topic[i].key == lane.key;
    assert s'.w.topic[i].key == lane.key;
  }

  lemma OnwardKeeps(s: State, s': State, r: Id)
    requires Onward(s, s', r)
    ensures r in s.w.origin && r in s'.w.origin && s'.w.origin[r] == s.w.origin[r]
    ensures Waiting(s, r) ==> Waiting(s', r)
  {
    hide Waiting;
    if Waiting(s, r) { WaitsOn(s, s', r); }
  }

  lemma Carries(s: State, s': State, r: Id)
    requires r in s.w.origin && r in s'.w.origin && Accounted(s, r)
    requires Waiting(s, r) ==> Waiting(s', r)
    requires forall d :: IsSuccess(s.w.dispatches, d, r) ==> IsSuccess(s'.w.dispatches, d, r)
    requires Waiting(s', r) || (InOutbox(s, r) ==> InOutbox(s', r))
    requires Waiting(s', r) || forall d :: AwaitsRetry(s.w.dispatches, s.scheds, d, r) ==> AwaitsRetry(s'.w.dispatches, s'.scheds, d, r)
    ensures Accounted(s', r)
  {
    hide InOutbox, AwaitsRetry, IsSuccess, Waiting;
  }

  /** The lanes' positions never pass the end of the topic. */
  lemma FrontierBound(c: Cipher, s: State, lane: Lane)
    requires LanesOk(s)
    ensures Frontier(ConsumerOf(s, lane)) <= |s.w.topic|
  {
    hide DeliveryOk;
    if lane in s.lanes { assert LaneOk(s.w, lane, s.lanes[lane]); }
  }

  /** A message just published waits for its lane. */
  lemma Arrives(c: Cipher, s: State, s': State, r: Id)
    requires LanesOk(s) && Onward(s, s', r) && s'.lanes == s.lanes
    requires |s.w.topic| < |s'.w.topic| && s'.w.topic[|s.w.topic|].key == s.w.origin[r].dto.requestId
    ensures Waiting(s', r)
  {
    FrontierBound(c, s, LaneOf(s.w, r));
    var i := |s.w.topic|;
    assert s'.w.topic[i].key == LaneOf(s'.w, r).key;
  }

  lemma OutboxOwner(c: Cipher, w: World, r: Id, q: Id)
    requires TablesOk(c, w) && r in w.origin && q in w.origin && w.origin[r].outboxId == w.origin[q].outboxId
    ensures r == q
  {
    hide RequestsOk, PayloadsOk, RecipientsOk, TopicOk, StatusesOk, NewOutbox, Wire;
    OutboxIdentity(c, w.outbox[w.origin[r].outboxId], r, w.origin[r]);
    OutboxIdentity(c, w.outbox[w.origin[q].outboxId], q, w.origin[q]);
  }

  /** A quiet step keeps a request accounted for if it keeps or replaces its outbox row. */
  lemma QuietCarries(c: Cipher, s: State, s': State, r: Id)
    requires Consistent(c, s) && QuietStep(c, s.w, s'.w) && r in s.w.origin && Accounted(s, r)
    requires s'.lanes == s.lanes && s'.scheds == s.scheds
    requires Waiting(s', r) || (InOutbox(s, r) ==> InOutbox(s', r))
    ensures Accounted(s', r)
  {
    hide Consistent, InOutbox, Waiting, Accounted, AwaitsRetry, IsSuccess, TablesOk, JobsOk, Onward;
    QuietOnward(c, s, s', r);
    OnwardKeeps(s, s', r);
    Carries(s, s', r);
  }

  // ---------------------------------------------------------------- the gateway

  lemma CommittedIsAccounted(c: Cipher, s: State, call: nat, a: Answer)
    requires Faithful(c) && Consistent(c, s) && call in s.sends && s.sends[call].Commit?
    requires a.ok && CanCommit(s.w, s.sends[call].dto, a.tx)
    ensures InOutbox(Apply(c, s, StepSend(call, a)), a.tx.request)
    ensures Apply(c, s, StepSend(call, a)).w.origin.Keys == s.w.origin.Keys + {a.tx.request}
  {
    hide RequestsOk, PayloadsOk, RecipientsOk, TopicOk, StatusesOk, NewOutbox, IsOutboxOf, JobsOk, SchedOk, LanesOk,
         NewRequest, NewPayload, NewRecipient, IsRequestOf, Wire;
    var s' := Apply(c, s, StepSend(call, a));
    var entry := a.tx.outbox;
    NobodyKnows(c, s, entry);
    NothingPublishedNow(s, s', call, entry);
    NewEntryPending(c, a.tx.request, s'.w.origin[a.tx.request]);
  }

  lemma NobodyKnows(c: Cipher, s: State, entry: Id)
    requires Consistent(c, s) && entry !in s.w.outbox
    ensures !EntryBeingPublished(s.sends, s.relays, entry)
  {
    hide RequestsOk, PayloadsOk, RecipientsOk, TopicOk, StatusesOk, JobsOk, IsOutboxOf, IsRequestOf, OnTopic, EventOk;
    assert forall call | call in s.sends :: SendOk(c, s.w, s.sends[call]);
    assert forall run | run in s.relays :: RelayOk(c, s.w, s.relays[run]);
  }

  lemma NewEntryPending(c: Cipher, id: Id, o: Origin)
    ensures StoredOutbox(NewOutbox(c, id, o)).status == OutboxStatus.Pending
  {
  }

  lemma SendAccounted(c: Cipher, s: State, call: nat, a: Answer, r: Id)
    requires Faithful(c) && Consistent(c, s) && call in s.sends && (r in s.w.origin ==> Accounted(s, r))
    requires r in Apply(c, s, StepSend(call, a)).w.origin
    ensures Accounted(Apply(c, s, StepSend(call, a)), r)
  {
    hide TablesOk, JobsOk, SendsOk, RelaysOk, SchedsOk, LanesOk, QuietStep, Accounted, Faithful, InOutbox, Waiting, SendStep;
    var s' := Apply(c, s, StepSend(call, a));
    var pc := s.sends[call];
    SendConsistent(c, s, call, a);
    OriginsOfSend(c, s.w, pc, a);
    if pc.Commit? && a.ok && CanCommit(s.w, pc.dto, a.tx) {
      CommittedIsAccounted(c, s, call, a);
    }
    if r !in s.w.origin {
      assert Accounted(s', r) by { OutboxAccounts(s', r); }
    } else {
      SendKeepsHope(c, s, call, a, r);
      QuietCarries(c, s, s', r);
    }
  }

  lemma OriginsOfSend(c: Cipher, w: World, pc: SendPc, a: Answer)
    ensures !(pc.Commit? && a.ok && CanCommit(w, pc.dto, a.tx)) ==> SendStep(c, w, pc, a).0.origin == w.origin
  {
  }

  lemma OutboxAccounts(s: State, r: Id)
    requires r in s.w.origin && InOutbox(s, r)
    ensures Accounted(s, r)
  {
  }

  /** A gateway step keeps the outbox row in play, or has just put its event on the topic. */
  lemma SendKeepsHope(c: Cipher, s: State, call: nat, a: Answer, r: Id)
    requires Faithful(c) && Consistent(c, s) && call in s.sends && r in s.w.origin
    requires QuietStep(c, s.w, Apply(c, s, StepSend(call, a)).w)
    ensures var s' := Apply(c, s, StepSend(call, a));
      r in s'.w.origin && (Waiting(s', r) || (InOutbox(s, r) ==> InOutbox(s', r)))
  {
    hide TablesOk, JobsOk, RelaysOk, SchedsOk, LanesOk, QuietStep, SendOk, InOutbox, Waiting, SendStep, Onward;
    var s' := Apply(c, s, StepSend(call, a));
    var pc := s.sends[call];
    var entry := s.w.origin[r].outboxId;
    QuietOnward(c, s, s', r);
    OnwardKeeps(s, s', r);
    if pc.Publish? && a.ok && pc.entry.id == entry {
      PublishedWaits(c, s, call, a, r);
    } else if InOutbox(s, r) {
      SendLeavesRow(c, s, s', call, a, r);
    }
  }

  lemma PublishedWaits(c: Cipher, s: State, call: nat, a: Answer, r: Id)
    requires Consistent(c, s) && call in s.sends && r in s.w.origin && s.sends[call].Publish? && a.ok
    requires s.sends[call].entry.id == s.w.origin[r].outboxId
    requires Onward(s, Apply(c, s, StepSend(call, a)), r)
    ensures Waiting(Apply(c, s, StepSend(call, a)), r)
  {
    hide TablesOk, JobsOk, RelaysOk, SchedsOk, LanesOk, IsOutboxOf, IsRequestOf, EventOk, Onward, Waiting;
    var s' := Apply(c, s, StepSend(call, a));
    var entry := s.sends[call].entry;
    assert SendOk(c, s.w, s.sends[call]);
    OutboxOwner(c, s.w, r, entry.aggregateId);
    EntryEvent(c, s.w, entry);
    EventFacts(c, s.w.origin, Wire(entry.payload));
    assert s'.w.topic[|s.w.topic|] == Message(entry.payload.requestId, Wire(entry.payload));
    Arrives(c, s, s', r);
  }

  /** A gateway step leaves an outbox row in play, unless it has just published that row. */
  lemma SendLeavesRow(c: Cipher, s: State, s': State, call: nat, a: Answer, r: Id)
    requires call in s.sends && s' == Apply(c, s, StepSend(call, a)) && r in s.w.origin && r in s'.w.origin
    requires s'.w.origin[r] == s.w.origin[r]
    requires InOutbox(s, r) && !(s.sends[call].Publish? && a.ok && s.sends[call].entry.id == s.w.origin[r].outboxId)
    ensures InOutbox(s', r)
  {
    hide SendStep, CanCommit;
    var entry := s.w.origin[r].outboxId;
    assert !(s.sends[call].SaveEntry? && s.sends[call].entry.id == entry);
    SendTouchesOneRow(c, s.w, s.sends[call], a, entry);
    NothingPublishedNow(s, s', call, entry);
  }

  lemma SendTouchesOneRow(c: Cipher, w: World, pc: SendPc, a: Answer, entry: Id)
    requires entry in w.outbox && !(pc.SaveEntry? && pc.entry.id == entry)
    ensures var (w', pc') := SendStep(c, w, pc, a);
      && entry in w'.outbox && w'.outbox[entry] == w.outbox[entry]
      && (pc'.SaveEntry? ==> pc.Publish? && a.ok && pc'.entry.id == pc.entry.id)
  {
    hide NewOutbox, NewRequest, NewPayload, Wire, StoredRequest;
  }

  lemma NothingPublishedNow(s: State, s': State, call: nat, entry: Id)
    requires !EntryBeingPublished(s.sends, s.relays, entry) && s'.relays == s.relays && call in s'.sends
    requires s'.sends == s.sends[call := s'.sends[call]]
    requires s'.sends[call].SaveEntry? ==> s'.sends[call].entry.id != entry
    ensures !EntryBeingPublished(s'.sends, s'.relays, entry)
  {
  }

  // ---------------------------------------------------------------- the relay

  lemma RelayAccounted(c: Cipher, s: State, run: nat, a: Answer, r: Id)
    requires Consistent(c, s) && run in s.relays && r in s.w.origin && Accounted(s, r)
    ensures var s' := Apply(c, s, StepRelay(run, a)); s'.w.origin == s.w.origin && Accounted(s', r)
  {
    hide TablesOk, JobsOk, SendsOk, SchedsOk, LanesOk, RelayOk, Accounted, QuietStep, Onward, Waiting,
         Relay.RelayPublish;
    var s' := Apply(c, s, StepRelay(run, a));
    var pc := s.relays[run];
    RelayConsistent(c, s, run, a);
    Relay.RelayFrame(s.w, pc, a);
    var entry := s.w.origin[r].outboxId;
    QuietOnward(c, s, s', r);
    if pc.Next? && pc.queue != [] && a.ok && pc.queue[0].id == entry {
      RelayedWaits(c, s, run, a, r);
    } else if InOutbox(s, r) {
      RelayLeavesRow(s, s', run, a, entry);
    }
    QuietCarries(c, s, s', r);
  }

  lemma RelayedWaits(c: Cipher, s: State, run: nat, a: Answer, r: Id)
    requires Consistent(c, s) && run in s.relays && r in s.w.origin && s.relays[run].Next? && s.relays[run].queue != []
    requires a.ok && s.relays[run].queue[0].id == s.w.origin[r].outboxId
    requires Onward(s, Apply(c, s, StepRelay(run, a)), r)
    ensures Waiting(Apply(c, s, StepRelay(run, a)), r)
  {
    hide TablesOk, JobsOk, SendsOk, SchedsOk, LanesOk, HoldsEntry, EventOk, Onward, Waiting;
    var s' := Apply(c, s, StepRelay(run, a));
    var entry := s.relays[run].queue[0];
    assert RelayOk(c, s.w, s.relays[run]) && HoldsEntry(c, s.w, entry);
    EntryOwner(c, s.w, entry, r);
    EntryEvent(c, s.w, entry);
    EventFacts(c, s.w.origin, Wire(entry.payload));
    assert s'.w.topic[|s.w.topic|] == Message(entry.payload.requestId, Wire(entry.payload));
    Arrives(c, s, s', r);
  }

  lemma EntryOwner(c: Cipher, w: World, o: Outbox, r: Id)
    requires TablesOk(c, w) && HoldsEntry(c, w, o) && r in w.origin && o.id == w.origin[r].outboxId
    ensures o.aggregateId == r
  {
    hide TablesOk, IsOutboxOf;
    OutboxOwner(c, w, r, o.aggregateId);
  }

  lemma QuietOnward(c: Cipher, s: State, s': State, r: Id)
    requires QuietStep(c, s.w, s'.w) && r in s.w.origin && s'.lanes == s.lanes
    ensures Onward(s, s', r)
  {
    hide TablesOk, JobsOk;
  }

  /** What a relay step does to one outbox row: nothing, unless it saves that very row. */
  lemma RelayTouchesOneRow(w: World, pc: Relay.RelayPc, a: Answer, entry: Id)
    requires entry in w.outbox && w.outbox[entry].status != OutboxStatus.Published
    requires !(pc.Save? && pc.entry.id == entry && pc.entry.status == OutboxStatus.Published)
    requires !(pc.Next? && pc.queue != [] && a.ok && pc.queue[0].id == entry)
    ensures var (w', pc') := Relay.RelayStep(w, pc, a);
      && entry in w'.outbox && w'.outbox[entry].status != OutboxStatus.Published
      && !(pc'.Save? && pc'.entry.id == entry && pc'.entry.status == OutboxStatus.Published)
  {
    hide Relay.IsPendingBatch, Relay.RelayPublish, Wire;
    Relay.RelayFrame(w, pc, a);
  }

  lemma RelayLeavesRow(s: State, s': State, run: nat, a: Answer, entry: Id)
    requires run in s.relays && run in s'.relays
    requires s' == s.(w := s'.w, relays := s.relays[run := s'.relays[run]])
    requires (s'.w, s'.relays[run]) == Relay.RelayStep(s.w, s.relays[run], a)
    requires !EntryBeingPublished(s.sends, s.relays, entry) && entry in s.w.outbox && s.w.outbox[entry].status != OutboxStatus.Published
    requires !(s.relays[run].Next? && s.relays[run].queue != [] && a.ok && s.relays[run].queue[0].id == entry)
    ensures entry in s'.w.outbox && s'.w.outbox[entry].status != OutboxStatus.Published
    ensures !EntryBeingPublished(s'.sends, s'.relays, entry)
  {
    hide Relay.RelayStep;
    RelayTouchesOneRow(s.w, s.relays[run], a, entry);
  }

  // ---------------------------------------------------------------- the scheduler

  lemma RetryPublished(w: World, pc: Scheduler.SchedPc, a: Answer)
    requires pc.Publish? && a.ok
    ensures var w' := Scheduler.SchedStep(w, pc, a).0;
      |w.topic| < |w'.topic| && w'.topic[|w.topic|].key == pc.event.requestId
  {
    hide Wire;
  }

  lemma SchedAccounted(c: Cipher, s: State, run: nat, a: Answer, r: Id)
    requires Faithful(c) && Consistent(c, s) && run in s.scheds && r in s.w.origin && Accounted(s, r)
    ensures var s' := Apply(c, s, StepSched(run, a)); s'.w.origin == s.w.origin && Accounted(s', r)
  {
    hide TablesOk, JobsOk, SendsOk, RelaysOk, LanesOk, EventOk, Accounted, Faithful, SchedStepKeeps, Onward, HoldsJob,
         IsSuccess, AwaitsRetry, RetryEvent, Waiting, InOutbox, Scheduler.SchedStep;
    var s' := Apply(c, s, StepSched(run, a));
    var pc := s.scheds[run];
    Scheduler.SchedFrame(s.w, pc, a);
    SchedConsistent(c, s, run, a);
    assert SchedOk(c, s.w, pc);
    forall d | IsSuccess(s.w.dispatches, d, r) ensures IsSuccess(s'.w.dispatches, d, r) {
      SchedKeepsSuccess(c, s.w, s'.w, d, r);
    }
    SchedOnward(c, s, s', r);
    OnwardKeeps(s, s', r);
    if pc.Publish? && a.ok && pc.dispatch.messageRequestId == r {
      EventFacts(c, s.w.origin, Wire(pc.event));
      RetryPublished(s.w, pc, a);
      Arrives(c, s, s', r);
    } else {
      forall d | AwaitsRetry(s.w.dispatches, s.scheds, d, r) ensures AwaitsRetry(s'.w.dispatches, s'.scheds, d, r) {
        SchedLeavesRow(c, s, s', run, a, d, r);
      }
    }
    assert InOutbox(s, r) ==> InOutbox(s', r) by { SameOutbox(s, s', r); }
    Carries(s, s', r);
  }

  lemma SameOutbox(s: State, s': State, r: Id)
    requires s.w.origin == s'.w.origin && s.w.outbox == s'.w.outbox && s.sends == s'.sends && s.relays == s'.relays
    requires r in s.w.origin
    ensures InOutbox(s, r) <==> InOutbox(s', r)
  {
  }

  /** A scheduler step leaves a row that awaits its retry, unless it has just published for that row. */
  lemma SchedLeavesRow(c: Cipher, s: State, s': State, run: nat, a: Answer, d: Id, r: Id)
    requires run in s.scheds && run in s'.scheds && s' == s.(w := s'.w, scheds := s.scheds[run := s'.scheds[run]])
    requires (s'.w, s'.scheds[run]) == Scheduler.SchedStep(s.w, s.scheds[run], a)
    requires SchedOk(c, s.w, s.scheds[run]) && SchedOk(c, s'.w, s'.scheds[run])
    requires AwaitsRetry(s.w.dispatches, s.scheds, d, r)
    requires !(s.scheds[run].Publish? && a.ok && s.scheds[run].dispatch.messageRequestId == r)
    ensures AwaitsRetry(s'.w.dispatches, s'.scheds, d, r)
  {
    hide EventOk, RetryEvent, Wire, Shape, Scheduler.IsRetryBatch;
    var pc, pc' := s.scheds[run], s'.scheds[run];
    assert !(pc.Save? && pc.dispatch.id == d);
    assert s'.w.dispatches[d] == s.w.dispatches[d];
    if pc'.Save? && pc.Publish? {
      assert HoldsJob(s.w, pc.dispatch) && SameJob(pc.dispatch, s.w.dispatches[pc.dispatch.id]);
    }
    assert !(pc'.Save? && pc'.dispatch.id == d);
  }

  lemma SchedOnward(c: Cipher, s: State, s': State, r: Id)
    requires SchedStepKeeps(c, s.w, s'.w) && r in s.w.origin && s'.lanes == s.lanes
    ensures Onward(s, s', r)
  {
    hide TablesOk, JobsOk, AllKept;
  }

  lemma SchedKeepsSuccess(c: Cipher, w: World, w': World, d: Id, r: Id)
    requires JobsOk(w) && SchedStepKeeps(c, w, w') && IsSuccess(w.dispatches, d, r)
    ensures IsSuccess(w'.dispatches, d, r)
  {
    hide TablesOk;
    DispatchFacts(w.origin, w.dispatches, w.failedAt, d);
    assert RowKept(w, w', d);
  }

  // ---------------------------------------------------------------- the workers

  lemma LaneAccounted(c: Cipher, s: State, lane: Lane, a: Answer, r: Id)
    requires Faithful(c) && Consistent(c, s) && r in s.w.origin && Accounted(s, r)
    ensures var s' := Apply(c, s, StepLane(lane, a));
      s'.w.origin == s.w.origin && (Accounted(s', r) <==> !Abandons(s, StepLane(lane, a), r))
  {
    hide Consistent, Accounted, Faithful, LaneStepKeeps, LaneStep, Swallows;
    LaneConsistent(c, s, lane, a);
    LaneKeepsTables(c, s.w, lane, Apply(c, s, StepLane(lane, a)).w, Apply(c, s, StepLane(lane, a)).lanes[lane]);
    if LaneOf(s.w, r) != lane {
      OtherLaneAccounted(c, s, lane, a, r);
      OthersDelivery(c, s, lane, a, r);
    } else if ConsumerOf(s, lane).delivery.None? {
      IdleLaneAccounted(c, s, lane, a, r);
      IdleSwallowsNothing(s, lane, a, r);
    } else {
      OwnLaneAccounted(c, s, lane, a, r);
    }
  }

  /** A lane swallows errors of its own request only. */
  lemma OthersDelivery(c: Cipher, s: State, lane: Lane, a: Answer, r: Id)
    requires Consistent(c, s) && r in s.w.origin && LaneOf(s.w, r) != lane
    ensures !Swallows(s, StepLane(lane, a), r)
  {
    hide TablesOk, JobsOk, SendsOk, RelaysOk, SchedsOk, DeliveryOk;
    var k := ConsumerOf(s, lane);
    if k.delivery.Some? {
      assert LaneOk(s.w, lane, k);
      LaneRequest(c, s.w, lane, k);
    }
  }

  lemma IdleSwallowsNothing(s: State, lane: Lane, a: Answer, r: Id)
    requires ConsumerOf(s, lane).delivery.None?
    ensures !Swallows(s, StepLane(lane, a), r)
  {
  }

  lemma LaneKeepsTables(c: Cipher, w: World, lane: Lane, w': World, k': Consumer)
    requires LaneStepKeeps(c, w, lane, w', k')
    ensures w'.origin == w.origin && w'.outbox == w.outbox && w'.topic == w.topic
  {
    hide TablesOk, JobsOk, OtherLanesKept, LaneOk;
  }

  lemma OtherLaneAccounted(c: Cipher, s: State, lane: Lane, a: Answer, r: Id)
    requires r in s.w.origin && Accounted(s, r) && LaneOf(s.w, r) != lane
    requires var s' := Apply(c, s, StepLane(lane, a)); LaneStepKeeps(c, s.w, lane, s'.w, s'.lanes[lane])
    ensures Accounted(Apply(c, s, StepLane(lane, a)), r)
  {
    hide TablesOk, JobsOk, Accounted, LaneStep, LaneOk;
    var s' := Apply(c, s, StepLane(lane, a));
    forall d | d in s.w.dispatches && s.w.dispatches[d].messageRequestId == r
      ensures d in s'.w.dispatches && s'.w.dispatches[d] == s.w.dispatches[d]
    {
      assert d in s'.w.dispatches && s'.w.dispatches[d].messageRequestId == r;
    }
    assert ConsumerOf(s', LaneOf(s.w, r)) == ConsumerOf(s, LaneOf(s.w, r));
    OnwardKeeps(s, s', r);
    SameOutbox(s, s', r);
    Carries(s, s', r);
  }

  /** A lane between deliveries skips nothing of its own. */
  lemma IdleLaneAccounted(c: Cipher, s: State, lane: Lane, a: Answer, r: Id)
    requires Faithful(c) && Consistent(c, s) && r in s.w.origin && Accounted(s, r) && LaneOf(s.w, r) == lane
    requires ConsumerOf(s, lane).delivery.None?
    requires Apply(c, s, StepLane(lane, a)).w.origin == s.w.origin
    ensures Accounted(Apply(c, s, StepLane(lane, a)), r)
  {
    hide TablesOk, JobsOk, SendsOk, RelaysOk, SchedsOk, LanesOk, Accounted, Faithful, LaneStepKeeps;
    var s' := Apply(c, s, StepLane(lane, a));
    var k := ConsumerOf(s, lane);
    if lane.channel != Chat && k.offset < |s.w.topic| {
      DeliverKeeps(c, s.w, lane, k.offset);
      if s.w.topic[k.offset].key == lane.key { OwnMessage(c, s.w, k.offset, r); }
    }
    assert s'.w == s.w;
    if Waiting(s, r) {
      var i :| Frontier(k) <= i < |s.w.topic| && s.w.topic[i].key == lane.key;
      assert Frontier(s'.lanes[lane]) <= i && s'.w.topic[i].key == lane.key;
    }
    SameOutbox(s, s', r);
    Carries(s, s', r);
  }

  /** A message under a request's key is that request's, for its channel. */
  lemma OwnMessage(c: Cipher, w: World, i: nat, r: Id)
    requires TablesOk(c, w) && i < |w.topic| && r in w.origin && w.topic[i].key == w.origin[r].dto.requestId
    ensures w.topic[i].event.messageRequestId == r && w.topic[i].event.channel == ChannelName(w.origin[r].dto.channel)
  {
    hide PayloadsOk, RecipientsOk, OutboxOk, StatusesOk, RequestOk, Agrees, FirstEvent, Wire;
    var e := w.topic[i].event;
    assert EventOk(c, w.origin, e) && w.topic[i].key == e.requestId;
    EventFacts(c, w.origin, e);
  }

  lemma StepIsSettled(c: Cipher, s: State, lane: Lane, a: Answer)
    requires LaneOk(s.w, lane, ConsumerOf(s, lane)) && ConsumerOf(s, lane).delivery.Some?
    ensures var s' := Apply(c, s, StepLane(lane, a));
      var k := ConsumerOf(s, lane);
      var (w1, pc1) := WorkerStep(lane.channel, s.w, k.delivery.value, a);
      && s'.w == w1 && s'.lanes[lane] == Settle(k.offset, pc1)
      && s' == s.(w := s'.w, lanes := s.lanes[lane := s'.lanes[lane]])
  {
    hide WorkerStep, DeliveryOk, Settle;
  }

  lemma OwnDelivery(c: Cipher, s: State, lane: Lane, r: Id)
    requires Consistent(c, s) && r in s.w.origin && LaneOf(s.w, r) == lane && ConsumerOf(s, lane).delivery.Some?
    ensures var k := ConsumerOf(s, lane);
      && LaneOk(s.w, lane, k) && k.offset < |s.w.topic| && s.w.topic[k.offset].key == lane.key
      && s.w.topic[k.offset].event.messageRequestId == r && DeliveryOk(s.w, s.w.topic[k.offset], k.delivery.value)
  {
    hide TablesOk, JobsOk, SendsOk, RelaysOk, SchedsOk, DeliveryOk;
    var k := ConsumerOf(s, lane);
    assert LaneOk(s.w, lane, k);
    LaneRequest(c, s.w, lane, k);
    LaneOwner(c, s.w, r, s.w.topic[k.offset].event.messageRequestId);
  }

  lemma OwnLaneAccounted(c: Cipher, s: State, lane: Lane, a: Answer, r: Id)
    requires Faithful(c) && Consistent(c, s) && r in s.w.origin && Accounted(s, r) && LaneOf(s.w, r) == lane
    requires ConsumerOf(s, lane).delivery.Some?
    requires var s' := Apply(c, s, StepLane(lane, a)); Consistent(c, s') && s'.w.origin == s.w.origin && s'.w.topic == s.w.topic
    ensures Accounted(Apply(c, s, StepLane(lane, a)), r) <==> !Abandons(s, StepLane(lane, a), r)
  {
    hide Consistent, LaneOk, DeliveryOk, Accounted, Faithful, WorkerStep, Apply, Frontier, Swallows, InOutbox, AwaitsRetry, HasLaterMessage;
    var s' := Apply(c, s, StepLane(lane, a));
    var k := ConsumerOf(s, lane);
    OwnDelivery(c, s, lane, r);
    StepIsSettled(c, s, lane, a);
    var m := s.w.topic[k.offset];
    var pc := k.delivery.value;
    var (w1, pc1) := WorkerStep(lane.channel, s.w, pc, a);
    SwallowsIff(s, lane, a, r);
    if pc.LogRetry? {
      LoggedAccounted(s, s', lane, a, r);
    } else if !Ended(pc1) && !pc1.LogRetry? {
      InDeliveryAccounts(s', lane, r);
    } else if pc1.Threw? {
      SwallowedAccounts(s, s', lane, a, r);
    } else if pc1.LogRetry? {
      RetrySavedAccounted(c, s, s', m, pc, a, r);
    } else {
      ReturnedAccounted(c, s, s', m, pc, a, r);
    }
  }

  lemma InDeliveryAccounts(s: State, lane: Lane, r: Id)
    requires r in s.w.origin && lane == LaneOf(s.w, r) && lane in s.lanes
    requires var k := s.lanes[lane];
      k.offset < |s.w.topic| && s.w.topic[k.offset].key == lane.key && k.delivery.Some? && !k.delivery.value.LogRetry?
    ensures Accounted(s, r)
  {
    hide InOutbox, AwaitsRetry, IsSuccess;
    assert Frontier(ConsumerOf(s, lane)) <= s.lanes[lane].offset;
    assert Waiting(s, r);
  }

  /** In a proper delivery, an error is swallowed exactly when the step throws and the retry row is not yet saved. */
  lemma SwallowsIff(s: State, lane: Lane, a: Answer, r: Id)
    requires var k := ConsumerOf(s, lane);
      && k.delivery.Some? && k.offset < |s.w.topic| && s.w.topic[k.offset].event.messageRequestId == r
      && DeliveryOk(s.w, s.w.topic[k.offset], k.delivery.value)
    ensures var pc := ConsumerOf(s, lane).delivery.value;
      var (w', pc') := WorkerStep(lane.channel, s.w, pc, a);
      && (Swallows(s, StepLane(lane, a), r) <==> pc'.Threw? && !pc.LogRetry?)
      && (pc'.Threw? ==> w' == s.w)
  {
    hide IsRequestOf, CleanRecord, StoredRequest, LogsOf, HasSuccess;
  }

  /** A delivery that threw is gone; what else there is of the request decides. */
  lemma SwallowedAccounts(s: State, s': State, lane: Lane, a: Answer, r: Id)
    requires r in s.w.origin && lane == LaneOf(s.w, r) && Swallows(s, StepLane(lane, a), r)
    requires s' == s.(lanes := s.lanes[lane := Consumer(ConsumerOf(s, lane).offset + 1, None)])
    ensures Accounted(s', r) <==> !Abandons(s, StepLane(lane, a), r)
  {
    hide Swallows, InOutbox, AwaitsRetry, IsSuccess;
    SameOutbox(s, s', r);
    assert ConsumerOf(s', lane) == Consumer(ConsumerOf(s, lane).offset + 1, None);
    assert Waiting(s', r) <==> HasLaterMessage(s, lane, r);
  }

  /** The retry row was already saved: finishing the delivery, with or without its log entry, changes nothing. */
  lemma LoggedAccounted(s: State, s': State, lane: Lane, a: Answer, r: Id)
    requires r in s.w.origin && Accounted(s, r) && LaneOf(s.w, r) == lane
    requires ConsumerOf(s, lane).delivery.Some? && ConsumerOf(s, lane).delivery.value.LogRetry?
    requires var k := ConsumerOf(s, lane);
      && s' == s.(w := s'.w, lanes := s.lanes[lane := Consumer(k.offset + 1, None)])
      && var (w1, pc1) := WorkerStep(lane.channel, s.w, k.delivery.value, a); s'.w == w1
    ensures Accounted(s', r)
  {
    hide Accounted;
    assert s'.w.dispatches == s.w.dispatches && s'.w.topic == s.w.topic;
    OnwardKeeps(s, s', r);
    SameOutbox(s, s', r);
    Carries(s, s', r);
  }

  /** The retry row was just saved: it awaits a retry that nobody has started. */
  lemma RetrySavedAccounted(c: Cipher, s: State, s': State, m: Message, pc: WorkerPc, a: Answer, r: Id)
    requires Consistent(c, s) && DeliveryOk(s.w, m, pc) && m.event.messageRequestId == r && r in s'.w.origin
    requires var (w1, pc1) := WorkerStep(s'.w.origin[r].dto.channel, s.w, pc, a); pc1.LogRetry? && s'.w == w1
    requires s'.scheds == s.scheds
    ensures Accounted(s', r)
  {
    hide TablesOk, JobsOk, SendsOk, RelaysOk, LanesOk, EventOk, Shape, HoldsPayload, Holds, EventInHand, LogsOf, StoredRequest, HasSuccess;
    var d := pc.dispatch.id;
    forall run | run in s.scheds && s.scheds[run].Save? ensures s.scheds[run].dispatch.id != d {
      assert SchedOk(c, s.w, s.scheds[run]);
    }
    assert AwaitsRetry(s'.w.dispatches, s'.scheds, d, r);
  }

  /** `process` returned: there is a SUCCESS dispatch, its own or an earlier one. */
  lemma ReturnedSuccess(w: World, channel: Channel, m: Message, pc: WorkerPc, a: Answer, r: Id)
    requires DeliveryOk(w, m, pc) && m.event.messageRequestId == r && r in w.requests && !pc.LogRetry?
    requires WorkerStep(channel, w, pc, a).1.Returned?
    ensures exists d :: IsSuccess(WorkerStep(channel, w, pc, a).0.dispatches, d, r)
  {
    hide IsRequestOf, CleanRecord, Shape, LogsOf, Holds, StoredRequest;
    var dispatches := WorkerStep(channel, w, pc, a).0.dispatches;
    match pc
    case CheckSuccess(e, _) =>
      var d :| d in w.dispatches && w.dispatches[d].status == DispatchStatus.Success && w.dispatches[d].messageRequestId == r;
      assert IsSuccess(dispatches, d, r);
    case SaveCompleted(_, _, d) => assert IsSuccess(dispatches, d.id, r);
    case _ =>
  }

  lemma ReturnedAccounted(c: Cipher, s: State, s': State, m: Message, pc: WorkerPc, a: Answer, r: Id)
    requires Consistent(c, s) && DeliveryOk(s.w, m, pc) && m.event.messageRequestId == r && r in s.w.origin
    requires r in s'.w.origin && !pc.LogRetry?
    requires var (w1, pc1) := WorkerStep(s.w.origin[r].dto.channel, s.w, pc, a); pc1.Returned? && s'.w == w1
    ensures Accounted(s', r)
  {
    hide PayloadsOk, RecipientsOk, OutboxOk, TopicOk, StatusesOk, JobsOk, SendsOk, RelaysOk, SchedsOk, LanesOk, RequestOk,
         DeliveryOk, WorkerStep, IsSuccess;
    assert r in s.w.requests;
    ReturnedSuccess(s.w, s.w.origin[r].dto.channel, m, pc, a, r);
  }

  // ---------------------------------------------------------------- everything else

  /** The same rows, and no new hand on any of them. */
  ghost predicate NoNewHands(s: State, s': State) {
    && s.w.origin == s'.w.origin && s.w.outbox == s'.w.outbox && s.w.dispatches == s'.w.dispatches
    && (forall call | call in s'.sends && s'.sends[call].SaveEntry? :: call in s.sends && s.sends[call] == s'.sends[call])
    && (forall run | run in s'.relays && s'.relays[run].Save? :: run in s.relays && s.relays[run] == s'.relays[run])
    && (forall run | run in s'.scheds && s'.scheds[run].Save? :: run in s.scheds && s.scheds[run] == s'.scheds[run])
  }

  /** So what awaited an actor still does. */
  lemma FewerHands(s: State, s': State, r: Id)
    requires r in s.w.origin && NoNewHands(s, s')
    ensures InOutbox(s, r) ==> InOutbox(s', r)
    ensures forall d :: AwaitsRetry(s.w.dispatches, s.scheds, d, r) ==> AwaitsRetry(s'.w.dispatches, s'.scheds, d, r)
  {
  }

  lemma OtherHands(c: Cipher, s: State, action: Action)
    requires !action.StepSend? && !action.StepRelay? && !action.StepSched? && !action.StepLane?
    ensures NoNewHands(s, Apply(c, s, action))
  {
    hide ConsumerOf;
  }

  lemma OtherOnward(c: Cipher, s: State, action: Action, r: Id)
    requires !action.StepSend? && !action.StepRelay? && !action.StepSched? && !action.StepLane? && r in s.w.origin
    ensures var s' := Apply(c, s, action); Onward(s, s', r) && s'.w == s.w.(now := s'.w.now)
  {
    hide Frontier;
    if action.CrashLane? { FrontierAfterCrash(c, s, action.lane, action.offset, LaneOf(s.w, r)); }
  }

  lemma OtherAccounted(c: Cipher, s: State, action: Action, r: Id)
    requires !action.StepSend? && !action.StepRelay? && !action.StepSched? && !action.StepLane?
    requires r in s.w.origin && Accounted(s, r)
    ensures var s' := Apply(c, s, action); s'.w.origin == s.w.origin && Accounted(s', r)
  {
    hide Accounted, InOutbox, AwaitsRetry, Waiting, IsSuccess, Onward, ConsumerOf, LaneOf, Apply, NoNewHands;
    var s' := Apply(c, s, action);
    OtherOnward(c, s, action, r);
    OtherHands(c, s, action);
    FewerHands(s, s', r);
    OnwardKeeps(s, s', r);
    Carries(s, s', r);
  }

  lemma FrontierAfterCrash(c: Cipher, s: State, lane: Lane, offset: nat, other: Lane)
    ensures Frontier(ConsumerOf(Apply(c, s, CrashLane(lane, offset)), other)) <= Frontier(ConsumerOf(s, other))
  {
  }

  /** An action that commits a request accounts for it, and one that finds it accounted for leaves it so, except
      exactly when it abandons it. */
  lemma AccountedStep(c: Cipher, s: State, action: Action, r: Id)
    requires Faithful(c) && Consistent(c, s) && r in Apply(c, s, action).w.origin && (r in s.w.origin ==> Accounted(s, r))
    ensures Accounted(Apply(c, s, action), r) <==> !Abandons(s, action, r)
  {
    hide Consistent, Accounted, Faithful, SendStep, LaneStep, Relay.RelayStep, Scheduler.SchedStep, InOutbox, AwaitsRetry;
    match action
    case StepSend(call, a) => if call in s.sends { SendAccounted(c, s, call, a, r); }
    case StepRelay(run, a) => if run in s.relays { Relay.RelayFrame(s.w, s.relays[run], a); RelayAccounted(c, s, run, a, r); }
    case StepSched(run, a) => if run in s.scheds { Scheduler.SchedFrame(s.w, s.scheds[run], a); SchedAccounted(c, s, run, a, r); }
    case StepLane(lane, a) => LaneKeepsOrigins(c, s, lane, a); LaneAccounted(c, s, lane, a, r);
    case _ => OtherAccounted(c, s, action, r);
  }

  lemma LaneKeepsOrigins(c: Cipher, s: State, lane: Lane, a: Answer)
    requires Faithful(c) && Consistent(c, s)
    ensures Apply(c, s, StepLane(lane, a)).w.origin == s.w.origin
  {
    hide Consistent, Faithful, LaneStepKeeps, LaneStep;
    LaneConsistent(c, s, lane, a);
    LaneKeepsTables(c, s.w, lane, Apply(c, s, StepLane(lane, a)).w, Apply(c, s, StepLane(lane, a)).lanes[lane]);
  }
}
