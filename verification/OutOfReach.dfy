/** The other side of recovery: when nothing but a row that no query selects is left of a request, no actor delivers
    it by itself. */
module OutOfReach {
  import opened Domain
  import opened Crypto
  import opened Events
  import opened World
  import opened Gateway
  import opened Pipeline
  import opened Invariants
  import opened Steps
  import opened Jobs
  import opened Actors
  import opened Safety
  import Relay
  import Scheduler

  // ---------------------------------------------------------------- what an actor may still publish

  /** The call may still publish an event of the request. */
  predicate SendMayPublish(pc: SendPc, r: Id, key: string) {
    match pc
    case Start(_, dto) => dto.requestId == key
    case Publish(_, entry, _) => entry.aggregateId == r
    case ReadStored(q) => q.id == r
    case ReadRecipient(q, _) => q.id == r
    case Republish(q, _) => q.id == r
    case _ => false
  }

  predicate Queued(queue: seq<Outbox>, r: Id) { exists i :: 0 <= i < |queue| && queue[i].aggregateId == r }

  predicate RelayMayPublish(pc: Relay.RelayPc, r: Id) {
    match pc
    case Next(q) => Queued(q, r)
    case Save(_, q) => Queued(q, r)
    case _ => false
  }

  predicate Batched(queue: seq<Dispatch>, r: Id) { exists i :: 0 <= i < |queue| && queue[i].messageRequestId == r }

  predicate SchedMayPublish(pc: Scheduler.SchedPc, r: Id) {
    match pc
    case Next(q) => Batched(q, r)
    case ReadPayload(d, _, q) => d.messageRequestId == r || Batched(q, r)
    case ReadRecipient(d, _, _, q) => d.messageRequestId == r || Batched(q, r)
    case Publish(d, _, q) => d.messageRequestId == r || Batched(q, r)
    case Save(_, q) => Batched(q, r)
    case _ => false
  }

  /** The request's rows: no SUCCESS, no RETRY_WAIT, and an outbox row that is not PENDING. */
  ghost predicate RowsAtRest(w: World, r: Id) {
    && r in w.origin && w.origin[r].outboxId in w.outbox
    && w.outbox[w.origin[r].outboxId].status != OutboxStatus.Pending
    && forall d | d in w.dispatches && w.dispatches[d].messageRequestId == r ::
         w.dispatches[d].status != DispatchStatus.Success && w.dispatches[d].status != DispatchStatus.RetryWait
  }

  ghost predicate LaneAtRest(s: State, r: Id)
    requires r in s.w.origin
  {
    var k := ConsumerOf(s, LaneOf(s.w, r));
    (k.delivery.None? || k.delivery.value.LogRetry?) && !Waiting(s, r)
  }

  /** No gateway call, relay run or scheduler run may still publish an event of the request. */
  ghost predicate InNobodysHands(s: State, r: Id, key: string) {
    && (forall call | call in s.sends :: !SendMayPublish(s.sends[call], r, key))
    && (forall run | run in s.relays :: !RelayMayPublish(s.relays[run], r))
    && (forall run | run in s.scheds :: !SchedMayPublish(s.scheds[run], r))
  }

  /** No message of the request waits, no row of it is selected by any query, and nobody has it in hand. */
  ghost predicate Unreachable(s: State, r: Id) {
    RowsAtRest(s.w, r) && LaneAtRest(s, r) && InNobodysHands(s, r, s.w.origin[r].dto.requestId)
  }

  /** A client sends the request id again, or the request's consumer restarts from an earlier offset. */
  ghost predicate Revives(s: State, action: Action, r: Id)
    requires r in s.w.origin
  {
    match action
    case StartSend(_, _, dto) => dto.requestId == s.w.origin[r].dto.requestId
    case CrashLane(lane, _) => lane == LaneOf(s.w, r)
    case _ => false
  }

  // ---------------------------------------------------------------- one step

  /** The topic goes on without a message of this key. */
  ghost predicate NothingNew(w: World, w': World, key: string) {
    && |w.topic| <= |w'.topic| && (forall i | 0 <= i < |w.topic| :: w'.topic[i] == w.topic[i])
    && forall i | |w.topic| <= i < |w'.topic| :: w'.topic[i].key != key
  }

  lemma OtherKey(c: Cipher, w: World, q: Id, r: Id)
    requires TablesOk(c, w) && q in w.origin && r in w.origin && q != r
    ensures w.origin[q].dto.requestId != w.origin[r].dto.requestId && w.origin[q].outboxId != w.origin[r].outboxId
  {
    hide RequestOk, PayloadsOk, RecipientsOk, TopicOk, StatusesOk, IsOutboxOf, StoredOutbox, NewOutbox;
    OutboxIdentity(c, w.outbox[w.origin[q].outboxId], q, w.origin[q]);
    OutboxIdentity(c, w.outbox[w.origin[r].outboxId], r, w.origin[r]);
  }

  lemma EventOwner(c: Cipher, w: World, e: Event)
    requires EventOk(c, w.origin, Wire(e))
    ensures e.messageRequestId in w.origin
  {
  }

  /** What a step of an actor without the request in hand leaves of it. */
  ghost predicate LeavesAtRest(w: World, w': World, r: Id)
    requires r in w.origin
  {
    && RowsAtRest(w', r) && w'.origin[r] == w.origin[r] && NothingNew(w, w', w.origin[r].dto.requestId)
  }

  lemma NothingHappens(w: World, r: Id)
    requires RowsAtRest(w, r)
    ensures r in w.origin && LeavesAtRest(w, w, r)
  {
  }

  /** Publishing another request's event. */
  lemma PublishesOther(c: Cipher, w: World, e: Event, r: Id, a: Answer)
    requires TablesOk(c, w) && RowsAtRest(w, r) && EventOk(c, w.origin, Wire(e)) && e.messageRequestId != r
    ensures LeavesAtRest(w, PublishSend(w, e, a), r)
  {
    hide TablesOk, EventOk;
    assert e.messageRequestId in w.origin by { EventOwner(c, w, e); }
    OtherKey(c, w, e.messageRequestId, r);
    EventFacts(c, w.origin, Wire(e));
  }

  lemma SendLeaves(c: Cipher, w: World, pc: SendPc, a: Answer, r: Id)
    requires Faithful(c) && TablesOk(c, w) && SendOk(c, w, pc) && RowsAtRest(w, r)
    requires !SendMayPublish(pc, r, w.origin[r].dto.requestId)
    ensures var (w', pc') := SendStep(c, w, pc, a);
      LeavesAtRest(w, w', r) && !SendMayPublish(pc', r, w.origin[r].dto.requestId)
  {
    hide TablesOk, LeavesAtRest, RowsAtRest, Holds, HoldsEntry, HoldsPayload, HoldsQueued, EventOk, OnTopic, StoredRequest, Faithful,
         PublishSend, CommitRows, SaveOutbox, SaveRequest, NewRequest, NewOutbox, FindRequest, ToResponse, CanCommit, ReplyOk;
    NothingHappens(w, r);
    match pc
    case Start(_, dto) => StartsOther(c, w, dto.requestId, r);
    case Commit(_, dto, t) =>
      if a.ok && CanCommit(w, dto, a.tx) {
        var o := Origin(pc.clientAppId, dto, t.id, t.templateCode, w.now, a.iv, a.tx.payload, a.tx.recipient, a.tx.outbox);
        CommitsOther(c, w, dto, a.tx, o, r);
      }
    case Publish(_, entry, _) =>
      EntryEvent(c, w, entry);
      PublishesOther(c, w, entry.payload, r, a);
    case SaveEntry(_, entry, _) => SavesNotPending(c, w, entry, r);
    case SaveQueued(q, _) => OnlyRequests(w, q, r);
    case Republish(_, e) => PublishesOther(c, w, e, r, a);
    case SaveRequeued(q, _) => OnlyRequests(w, q, r);
    case _ =>
  }

  lemma StartsOther(c: Cipher, w: World, requestId: string, r: Id)
    requires TablesOk(c, w) && r in w.origin && requestId != w.origin[r].dto.requestId
    ensures FindRequest(w, requestId).Some? ==> FindRequest(w, requestId).value.id != r
  {
    hide PayloadsOk, RecipientsOk, OutboxOk, TopicOk, StatusesOk, RequestOk, FindRequest;
    RequestKeys(w.origin, w.requests);
    var found := FindRequest(w, requestId);
    if found.Some? {
      var id :| id in w.requests && w.requests[id].requestId == requestId && found.value == w.requests[id];
    }
  }

  lemma CommitsOther(c: Cipher, w: World, dto: SendDto, tx: TxIds, o: Origin, r: Id)
    requires TablesOk(c, w) && RowsAtRest(w, r) && CanCommit(w, dto, tx) && o.outboxId == tx.outbox
    ensures LeavesAtRest(w, CommitRows(c, w, tx.request, o), r) && NewOutbox(c, tx.request, o).aggregateId != r
  {
    hide PayloadsOk, RecipientsOk, OutboxOk, TopicOk, StatusesOk, RequestOk, NewRequest, NewPayload, NewRecipient, FirstEvent,
         StoredRequest, StoredPayload, StoredRecipient, StoredOutbox;
    NewRowsNamed(c, tx.request, o);
  }

  lemma OnlyRequests(w: World, row: Request, r: Id)
    requires RowsAtRest(w, r)
    ensures LeavesAtRest(w, SaveRequest(w, row), r)
  {
    hide StoredRequest;
  }

  lemma SavesNotPending(c: Cipher, w: World, entry: Outbox, r: Id)
    requires RowsAtRest(w, r) && entry.status != OutboxStatus.Pending
    ensures LeavesAtRest(w, SaveOutbox(w, entry), r)
  {
    hide Wire;
  }

  lemma RelayLeaves(c: Cipher, w: World, pc: Relay.RelayPc, a: Answer, r: Id)
    requires TablesOk(c, w) && RelayOk(c, w, pc) && RowsAtRest(w, r) && !RelayMayPublish(pc, r)
    ensures var (w', pc') := Relay.RelayStep(w, pc, a); LeavesAtRest(w, w', r) && !RelayMayPublish(pc', r)
  {
    hide TablesOk, LeavesAtRest, RowsAtRest, HoldsEntry, OnTopic, Relay.IsPendingBatch, Relay.RelayPublish, SaveOutbox;
    NothingHappens(w, r);
    match pc
    case Fetch => if a.ok && Relay.IsPendingBatch(w.outbox, a.outboxRows) { FetchesOthers(c, w, a.outboxRows, r); }
    case Next(q) => if q != [] { RelaysOther(c, w, q[0], r, a); }
    case Save(entry, q) => if a.ok { SavesNotPending(c, w, entry, r); }
    case Done =>
  }

  lemma FetchesOthers(c: Cipher, w: World, rows: seq<Outbox>, r: Id)
    requires TablesOk(c, w) && RowsAtRest(w, r) && Relay.IsPendingBatch(w.outbox, rows)
    ensures !Queued(rows, r)
  {
    hide RequestsOk, PayloadsOk, RecipientsOk, TopicOk, StatusesOk, IsOutboxOf, StoredOutbox;
  }

  lemma RelaysOther(c: Cipher, w: World, entry: Outbox, r: Id, a: Answer)
    requires TablesOk(c, w) && RowsAtRest(w, r) && HoldsEntry(c, w, entry) && entry.aggregateId != r
    ensures LeavesAtRest(w, Relay.RelayPublish(w, entry, a), r)
  {
    hide TablesOk, LeavesAtRest, RowsAtRest, HoldsEntry, EventOk, Wire;
    EntryEvent(c, w, entry);
    PublishesOther(c, w, entry.payload, r, a);
    assert Relay.RelayPublish(w, entry, a) == PublishSend(w, entry.payload, a);
  }

  lemma SchedLeaves(c: Cipher, w: World, pc: Scheduler.SchedPc, a: Answer, r: Id)
    requires TablesOk(c, w) && SchedOk(c, w, pc) && RowsAtRest(w, r) && !SchedMayPublish(pc, r)
    ensures var (w', pc') := Scheduler.SchedStep(w, pc, a);
      SchedOk(c, w', pc') ==> LeavesAtRest(w, w', r) && !SchedMayPublish(pc', r)
  {
    hide TablesOk, LeavesAtRest, RowsAtRest, HoldsJob, Holds, HoldsPayload, EventOk, Scheduler.IsRetryBatch, FindPayload, RetryEvent,
         PublishSend, SaveDispatch, StoredRequest;
    NothingHappens(w, r);
    match pc
    case Fetch => if a.ok && Scheduler.IsRetryBatch(w, a.dispatchRows) { FetchesOtherJobs(w, a.dispatchRows, r); }
    case Publish(d, e, q) => PublishesOther(c, w, e, r, a);
    case Save(d, q) => if a.ok { SavesProcessing(w, d, r); }
    case _ =>
  }

  lemma FetchesOtherJobs(w: World, rows: seq<Dispatch>, r: Id)
    requires RowsAtRest(w, r) && Scheduler.IsRetryBatch(w, rows)
    ensures !Batched(rows, r)
  {
  }

  lemma SavesProcessing(w: World, d: Dispatch, r: Id)
    requires RowsAtRest(w, r) && d.status == DispatchStatus.Processing
    ensures LeavesAtRest(w, SaveDispatch(w, d), r)
  {
  }

  // ---------------------------------------------------------------- the workers

  /** Another lane has nothing to do with the request's rows. */
  lemma OtherLaneLeaves(c: Cipher, s: State, lane: Lane, a: Answer, r: Id)
    requires RowsAtRest(s.w, r) && LaneOf(s.w, r) != lane
    requires var s' := Apply(c, s, StepLane(lane, a)); LaneStepKeeps(c, s.w, lane, s'.w, s'.lanes[lane])
    ensures LeavesAtRest(s.w, Apply(c, s, StepLane(lane, a)).w, r)
  {
    hide TablesOk, JobsOk, LaneStep, LaneOk;
    var w' := Apply(c, s, StepLane(lane, a)).w;
    forall d | d in w'.dispatches && w'.dispatches[d].messageRequestId == r
      ensures d in s.w.dispatches && w'.dispatches[d] == s.w.dispatches[d]
    {
    }
  }

  /** Its own lane steps over other messages, or finishes a delivery whose retry row is saved. */
  lemma OwnLaneRests(c: Cipher, s: State, lane: Lane, a: Answer, r: Id)
    requires RowsAtRest(s.w, r) && LaneOf(s.w, r) == lane && LaneAtRest(s, r)
    ensures var s' := Apply(c, s, StepLane(lane, a)); LeavesAtRest(s.w, s'.w, r) && LaneAtRest(s', r)
  {
    hide RowsAtRest, Waiting, Opened, LogsOf;
    assert r in s.w.origin by { AtRestIsOf(s.w, r); }
    var k := ConsumerOf(s, lane);
    var s' := Apply(c, s, StepLane(lane, a));
    if k.delivery.None? && lane.channel != Chat && k.offset < |s.w.topic| { NotAtOwn(s, r); }
    RowsOnly(s.w, s'.w, r);
    AtRestIsOf(s'.w, r);
    StillNotWaiting(s, s', r);
  }

  lemma NotAtOwn(s: State, r: Id)
    requires r in s.w.origin && !Waiting(s, r) && ConsumerOf(s, LaneOf(s.w, r)).delivery.None?
    ensures var k := ConsumerOf(s, LaneOf(s.w, r)); k.offset < |s.w.topic| ==> s.w.topic[k.offset].key != s.w.origin[r].dto.requestId
  {
    assert Frontier(ConsumerOf(s, LaneOf(s.w, r))) <= ConsumerOf(s, LaneOf(s.w, r)).offset;
  }

  lemma RowsOnly(w: World, w': World, r: Id)
    requires RowsAtRest(w, r) && w' == w.(logs := w'.logs)
    ensures LeavesAtRest(w, w', r)
  {
  }

  lemma StillNotWaiting(s: State, s': State, r: Id)
    requires r in s.w.origin && r in s'.w.origin && s'.w.origin[r] == s.w.origin[r] && !Waiting(s, r)
    requires NothingNew(s.w, s'.w, s.w.origin[r].dto.requestId)
    requires Frontier(ConsumerOf(s', LaneOf(s.w, r))) >= Frontier(ConsumerOf(s, LaneOf(s.w, r)))
    ensures !Waiting(s', r)
  {
    var lane := LaneOf(s.w, r);
    forall i | Frontier(ConsumerOf(s', lane)) <= i < |s'.w.topic| ensures s'.w.topic[i].key != lane.key {
      if i < |s.w.topic| { assert s.w.topic[i].key != lane.key; }
    }
  }

  // ---------------------------------------------------------------- every step, every run

  lemma StaysUnreachable(c: Cipher, s: State, action: Action, r: Id)
    requires Faithful(c) && Consistent(c, s) && Unreachable(s, r) && r in s.w.origin && !Revives(s, action, r)
    ensures var s' := Apply(c, s, action); Unreachable(s', r) && r in s'.w.origin && s'.w.origin[r] == s.w.origin[r]
  {
    hide Faithful, Consistent, Unreachable, Apply;
    match action
    case StepSend(call, a) => SendStays(c, s, call, a, r);
    case StepRelay(run, a) => RelayStays(c, s, run, a, r);
    case StepSched(run, a) => SchedStays(c, s, run, a, r);
    case StepLane(lane, a) => LaneStays(c, s, lane, a, r);
    case _ => OtherStays(c, s, action, r);
  }

  lemma SendStays(c: Cipher, s: State, call: nat, a: Answer, r: Id)
    requires Faithful(c) && Consistent(c, s) && Unreachable(s, r) && r in s.w.origin
    ensures var s' := Apply(c, s, StepSend(call, a)); Unreachable(s', r) && r in s'.w.origin && s'.w.origin[r] == s.w.origin[r]
  {
    hide Faithful, TablesOk, JobsOk, SendOk, RelayOk, SchedOk, LanesOk, SendStep, LaneStep, Relay.RelayStep, Scheduler.SchedStep,
         SendMayPublish, RelayMayPublish, SchedMayPublish, RowsAtRest, LaneAtRest, LaneStepKeeps, SchedStepKeeps, LeavesAtRest;
    if call in s.sends {
      SendLeaves(c, s.w, s.sends[call], a, r);
      SameLane(s, Apply(c, s, StepSend(call, a)), r);
    }
  }

  lemma RelayStays(c: Cipher, s: State, run: nat, a: Answer, r: Id)
    requires Consistent(c, s) && Unreachable(s, r) && r in s.w.origin
    ensures var s' := Apply(c, s, StepRelay(run, a)); Unreachable(s', r) && r in s'.w.origin && s'.w.origin[r] == s.w.origin[r]
  {
    hide Faithful, TablesOk, JobsOk, SendOk, RelayOk, SchedOk, LanesOk, SendStep, LaneStep, Relay.RelayStep, Scheduler.SchedStep,
         SendMayPublish, RelayMayPublish, SchedMayPublish, RowsAtRest, LaneAtRest, LaneStepKeeps, SchedStepKeeps, LeavesAtRest;
    if run in s.relays {
      RelayLeaves(c, s.w, s.relays[run], a, r);
      SameLane(s, Apply(c, s, StepRelay(run, a)), r);
    }
  }

  lemma SchedStays(c: Cipher, s: State, run: nat, a: Answer, r: Id)
    requires Faithful(c) && Consistent(c, s) && Unreachable(s, r) && r in s.w.origin
    ensures var s' := Apply(c, s, StepSched(run, a)); Unreachable(s', r) && r in s'.w.origin && s'.w.origin[r] == s.w.origin[r]
  {
    hide Faithful, TablesOk, JobsOk, SendOk, RelayOk, SchedOk, LanesOk, SendStep, LaneStep, Relay.RelayStep, Scheduler.SchedStep,
         SendMayPublish, RelayMayPublish, SchedMayPublish, RowsAtRest, LaneAtRest, LaneStepKeeps, SchedStepKeeps, LeavesAtRest;
    if run in s.scheds {
      var s' := Apply(c, s, StepSched(run, a));
      SchedConsistent(c, s, run, a);
      assert SchedOk(c, s'.w, s'.scheds[run]);
      SchedLeaves(c, s.w, s.scheds[run], a, r);
      SameLane(s, s', r);
    }
  }

  lemma LaneStays(c: Cipher, s: State, lane: Lane, a: Answer, r: Id)
    requires Faithful(c) && Consistent(c, s) && Unreachable(s, r) && r in s.w.origin
    ensures var s' := Apply(c, s, StepLane(lane, a)); Unreachable(s', r) && r in s'.w.origin && s'.w.origin[r] == s.w.origin[r]
  {
    hide Faithful, TablesOk, JobsOk, SendOk, RelayOk, SchedOk, LanesOk, SendStep, LaneStep, Relay.RelayStep, Scheduler.SchedStep,
         SendMayPublish, RelayMayPublish, SchedMayPublish, RowsAtRest, LaneAtRest, LaneStepKeeps, SchedStepKeeps, LeavesAtRest;
    var s' := Apply(c, s, StepLane(lane, a));
    LaneConsistent(c, s, lane, a);
    if LaneOf(s.w, r) == lane {
      OwnLaneRests(c, s, lane, a, r);
      Left(s.w, s'.w, r);
    } else {
      OtherLaneLeaves(c, s, lane, a, r);
      SameLane(s, s', r);
    }
  }

  lemma OtherStays(c: Cipher, s: State, action: Action, r: Id)
    requires Unreachable(s, r) && r in s.w.origin && !Revives(s, action, r)
    requires !action.StepSend? && !action.StepRelay? && !action.StepSched? && !action.StepLane?
    ensures var s' := Apply(c, s, action); Unreachable(s', r) && r in s'.w.origin && s'.w.origin[r] == s.w.origin[r]
  {
    hide RowsAtRest, LaneAtRest, LeavesAtRest, InNobodysHands, SendStep, LaneStep, Relay.RelayStep, Scheduler.SchedStep;
    var s' := Apply(c, s, action);
    OthersHandNothing(c, s, action, r);
    TimeOnly(s.w, s'.w, r);
    SameLane(s, s', r);
  }

  lemma OthersHandNothing(c: Cipher, s: State, action: Action, r: Id)
    requires r in s.w.origin && InNobodysHands(s, r, s.w.origin[r].dto.requestId) && !Revives(s, action, r)
    requires !action.StepSend? && !action.StepRelay? && !action.StepSched? && !action.StepLane?
    ensures InNobodysHands(Apply(c, s, action), r, s.w.origin[r].dto.requestId)
  {
    hide SendStep, LaneStep, Relay.RelayStep, Scheduler.SchedStep, SendMayPublish, RelayMayPublish, SchedMayPublish;
    OthersPublishNothing(s, action, r);
  }

  lemma Left(w: World, w': World, r: Id)
    requires r in w.origin && LeavesAtRest(w, w', r)
    ensures r in w'.origin && RowsAtRest(w', r) && w'.origin[r] == w.origin[r]
  {
  }

  lemma AtRestIsOf(w: World, r: Id)
    requires RowsAtRest(w, r)
    ensures r in w.origin
  {
  }

  lemma TimeOnly(w: World, w': World, r: Id)
    requires RowsAtRest(w, r) && w' == w.(now := w'.now)
    ensures LeavesAtRest(w, w', r)
  {
  }

  lemma OthersPublishNothing(s: State, action: Action, r: Id)
    requires r in s.w.origin && !Revives(s, action, r)
    ensures action.StartSend? ==> !SendMayPublish(Start(action.clientAppId, action.dto), r, s.w.origin[r].dto.requestId)
    ensures !RelayMayPublish(Relay.Fetch, r) && !SchedMayPublish(Scheduler.Fetch, r)
  {
  }

  lemma SameLane(s: State, s': State, r: Id)
    requires r in s.w.origin && LeavesAtRest(s.w, s'.w, r) && LaneAtRest(s, r)
    requires ConsumerOf(s', LaneOf(s.w, r)) == ConsumerOf(s, LaneOf(s.w, r))
    ensures r in s'.w.origin && LaneAtRest(s', r) && RowsAtRest(s'.w, r) && s'.w.origin[r] == s.w.origin[r]
  {
    hide Waiting, Frontier, RowsAtRest;
    assert r in s'.w.origin by { AtRestIsOf(s'.w, r); }
    StillNotWaiting(s, s', r);
  }

  /** A request with nothing but a FAILED or PUBLISHED outbox row and dispatches that no query selects, in nobody's
      hands, is never delivered as long as no client sends its request id again and its consumer does not restart. */
  lemma {:induction false} NeverDeliveredByItself(c: Cipher, s: State, r: Id, more: seq<Action>)
    requires Faithful(c) && Consistent(c, s) && Unreachable(s, r) && r in s.w.origin
    requires forall action | action in more :: !Revives(s, action, r)
    ensures var s' := Exec(c, s, more);
      && Consistent(c, s') && Unreachable(s', r) && r in s'.w.origin && s'.w.origin[r] == s.w.origin[r]
      && forall d :: !IsSuccess(s'.w.dispatches, d, r)
    decreases |more|
  {
    hide Faithful, Consistent, Apply, Unreachable, Evolves;
    if more != [] {
      var n := |more| - 1;
      NeverDeliveredByItself(c, s, r, more[..n]);
      var s1 := Exec(c, s, more[..n]);
      assert !Revives(s, more[n], r);
      StaysUnreachable(c, s1, more[n], r);
      ConsistentStep(c, s1, more[n]);
    }
    UnreachableRows(Exec(c, s, more), r);
  }

  lemma UnreachableRows(s: State, r: Id)
    requires Unreachable(s, r)
    ensures r in s.w.origin && forall d :: !IsSuccess(s.w.dispatches, d, r)
  {
  }
}
