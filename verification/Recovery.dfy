/** What can still become of a request: as long as an actor has something of it to act on, it can be delivered; with
    nothing but a row that no query selects, only a client or a restarted consumer can bring it back. */
module Recovery {
  import opened Json
  import opened Domain
  import opened Crypto
  import opened Events
  import opened World
  import opened Pipeline
  import opened Invariants
  import opened Steps
  import opened Jobs
  import opened Actors
  import opened NoLoss
  import opened Theorems
  import opened WorkerService
  import Relay
  import RelayService
  import Scheduler
  import Undisturbed

  // ---------------------------------------------------------------- runs put together

  lemma ReachesOn(c: Cipher, s: State, run: seq<Action>)
    requires Reachable(c, s)
    ensures Reachable(c, Exec(c, s, run))
  {
    hide Exec;
    var start :| s == Exec(c, INITIAL, start);
    ExecConcat(c, INITIAL, start, run);
  }

  lemma OneStep(c: Cipher, s: State, action: Action)
    ensures Exec(c, s, [action]) == Apply(c, s, action)
  {
    hide Exec, Apply;
    ExecNothing(c, s);
    ExecMore(c, s, [], action);
    assert [] + [action] == [action];
  }

  /** An id that a table does not have yet. */
  lemma {:induction false} FreshId(taken: set<Id>) returns (id: Id)
    ensures forall t | t in taken :: t < id
  {
    if taken == {} {
      id := 0;
    } else {
      var t :| t in taken;
      var above := FreshId(taken - {t});
      id := if t < above then above else t + 1;
      forall u | u in taken ensures u < id { assert u == t || u in taken - {t}; }
    }
  }

  // ---------------------------------------------------------------- a message on the topic

  /** A message under a request's key is for its channel and opens to an event of it. */
  lemma MessageOpens(c: Cipher, w: World, i: nat, r: Id) returns (e: Event)
    requires Faithful(c) && TablesOk(c, w) && i < |w.topic| && r in w.origin && w.topic[i].key == w.origin[r].dto.requestId
    ensures w.topic[i].event.channel == ChannelName(w.origin[r].dto.channel)
    ensures Opened(c, w.topic[i].event) == Some(e)
    ensures e.messageRequestId == r && e.recipientId == w.origin[r].recipientId
  {
    hide RequestsOk, PayloadsOk, RecipientsOk, OutboxOk, StatusesOk, Faithful, Encrypt, Decrypt, CleanRecord, IsEncrypted,
         Agrees, FirstEvent;
    OwnMessage(c, w, i, r);
    var m := w.topic[i].event;
    assert EventOk(c, w.origin, m);
    EventFacts(c, w.origin, m);
    EnvelopeRoundTrip(c, w.origin[r].dto.variables, w.origin[r].iv);
    e := m.(variables := CleanRecord(w.origin[r].dto.variables));
  }

  /** An idle consumer steps over messages of other keys up to its next own one. */
  lemma {:induction false} StepsToOwn(c: Cipher, s: State, lane: Lane, i: nat) returns (run: seq<Action>)
    requires lane.channel != Chat && ConsumerOf(s, lane).delivery.None?
    requires ConsumerOf(s, lane).offset <= i < |s.w.topic| && s.w.topic[i].key == lane.key
    ensures var s' := Exec(c, s, run);
      var k := ConsumerOf(s', lane);
      && s' == s.(lanes := s'.lanes) && k.delivery.None? && k.offset < |s.w.topic| && s.w.topic[k.offset].key == lane.key
    ensures NoGateway(run)
    decreases i - ConsumerOf(s, lane).offset
  {
    hide Exec;
    var k := ConsumerOf(s, lane);
    if s.w.topic[k.offset].key == lane.key {
      run := [];
      ExecNothing(c, s);
    } else {
      var skip := StepLane(lane, Undisturbed.FINE);
      OneStep(c, s, skip);
      var rest := StepsToOwn(c, Exec(c, s, [skip]), lane, i);
      ExecConcat(c, s, [skip], rest);
      run := [skip] + rest;
    }
  }

  /** An own message at an idle consumer, delivered with every call taking effect. */
  lemma DeliverNow(c: Cipher, s: State, r: Id) returns (run: seq<Action>, d: Id)
    requires Faithful(c) && Consistent(c, s) && r in s.w.origin && s.w.origin[r].dto.channel != Chat
    requires forall d :: !IsSuccess(s.w.dispatches, d, r)
    requires var k := ConsumerOf(s, LaneOf(s.w, r));
      k.delivery.None? && k.offset < |s.w.topic| && s.w.topic[k.offset].key == s.w.origin[r].dto.requestId
    ensures IsSuccess(Exec(c, s, run).w.dispatches, d, r) && NoGateway(run)
  {
    hide Exec, Faithful, RequestsOk, PayloadsOk, RecipientsOk, OutboxOk, TopicOk, StatusesOk, JobsOk, SendsOk, RelaysOk, SchedsOk,
         LanesOk, ProcessRun, Opened, HasSuccess, Undisturbed.Delivered;
    var lane := LaneOf(s.w, r);
    var i := ConsumerOf(s, lane).offset;
    var e := MessageOpens(c, s.w, i, r);
    d := FreshId(s.w.dispatches.Keys);
    var env: nat -> Answer := _ => Undisturbed.FINE.(uuid := d);
    run := HandledIsARun(c, s, lane, env);
    assert !HasSuccess(s.w, r, e.recipientId, lane.channel) by { NoneIsSuccess(s.w, r, e.recipientId, lane.channel); }
    assert r in s.w.requests by { OriginKeys(c, s.w); }
    Undisturbed.Delivery(lane.channel, s.w, e, env);
    DeliveredIsSuccess(e, lane.channel, s.w.now, d, d);
  }

  lemma NoneIsSuccess(w: World, r: Id, recipient: Id, channel: Channel)
    requires forall d :: !IsSuccess(w.dispatches, d, r)
    ensures !HasSuccess(w, r, recipient, channel)
  {
    forall d | d in w.dispatches && w.dispatches[d].messageRequestId == r
      ensures w.dispatches[d].status != DispatchStatus.Success
    {
      assert !IsSuccess(w.dispatches, d, r);
    }
  }

  lemma DeliveredIsSuccess(e: Event, channel: Channel, now: Time, row: Id, provider: Id)
    ensures var d := Undisturbed.Delivered(e, channel, now, row, provider);
      d.id == row && d.status == DispatchStatus.Success && d.messageRequestId == e.messageRequestId
  {
  }

  /** A waiting message can be delivered, also when its delivery is under way: the consumer may restart. */
  lemma WaitingIsDeliverable(c: Cipher, s: State, r: Id) returns (run: seq<Action>, d: Id)
    requires Faithful(c) && Reachable(c, s) && r in s.w.origin && s.w.origin[r].dto.channel != Chat && Waiting(s, r)
    ensures IsSuccess(Exec(c, s, run).w.dispatches, d, r) && NoGateway(run)
  {
    hide Exec, Faithful, Reachable, Consistent, TablesOk, JobsOk;
    if d' :| IsSuccess(s.w.dispatches, d', r) {
      run, d := [], d';
      ExecNothing(c, s);
    } else {
      var lane := LaneOf(s.w, r);
      var i :| Frontier(ConsumerOf(s, lane)) <= i < |s.w.topic| && s.w.topic[i].key == lane.key;
      var restart := CrashLane(lane, ConsumerOf(s, lane).offset);
      OneStep(c, s, restart);
      var s1 := Exec(c, s, [restart]);
      var skips := StepsToOwn(c, s1, lane, i);
      var s2 := Exec(c, s1, skips);
      ReachesOn(c, s, [restart]);
      ReachesOn(c, s1, skips);
      ReachableConsistent(c, s2);
      var delivery;
      delivery, d := DeliverNow(c, s2, r);
      ExecConcat(c, s1, skips, delivery);
      ExecConcat(c, s, [restart], skips + delivery);
      run := [restart] + (skips + delivery);
    }
  }

  // ---------------------------------------------------------------- a PENDING outbox row

  /** There is always a possible result of the relay's query: here the oldest of some pending rows first. */
  lemma {:induction false} SortedRows(outbox: map<Id, Outbox>, ids: set<Id>, n: nat) returns (rows: seq<Outbox>)
    requires ids <= outbox.Keys && RelayService.Keyed(outbox)
    ensures |rows| == if |ids| < n then |ids| else n
    ensures forall i | 0 <= i < |rows| :: rows[i].id in ids && rows[i] == outbox[rows[i].id]
    ensures forall i, j | 0 <= i < j < |rows| :: rows[i].id != rows[j].id && rows[i].createdAt <= rows[j].createdAt
    ensures forall id | id in ids :: outbox[id] in rows || (|rows| == n && forall i | 0 <= i < |rows| :: rows[i].createdAt <= outbox[id].createdAt)
    decreases n
  {
    if ids == {} || n == 0 {
      rows := [];
    } else {
      var oldest := OldestOf(outbox, ids);
      var rest := SortedRows(outbox, ids - {oldest}, n - 1);
      rows := [outbox[oldest]] + rest;
      forall id | id in ids
        ensures outbox[id] in rows || (|rows| == n && forall i | 0 <= i < |rows| :: rows[i].createdAt <= outbox[id].createdAt)
      {
        if id == oldest { assert rows[0] == outbox[id]; }
      }
    }
  }

  lemma {:induction false} OldestOf(outbox: map<Id, Outbox>, ids: set<Id>) returns (oldest: Id)
    requires ids != {} && ids <= outbox.Keys
    ensures oldest in ids && forall id | id in ids :: outbox[oldest].createdAt <= outbox[id].createdAt
    decreases ids
  {
    oldest :| oldest in ids;
    if ids != {oldest} {
      var other := OldestOf(outbox, ids - {oldest});
      if outbox[other].createdAt < outbox[oldest].createdAt { oldest := other; }
    }
  }

  lemma PendingBatch(outbox: map<Id, Outbox>) returns (rows: seq<Outbox>)
    requires RelayService.Keyed(outbox)
    ensures Relay.IsPendingBatch(outbox, rows)
  {
    rows := SortedRows(outbox, RelayService.Pending(outbox), Relay.BATCH);
    forall id | id in outbox && outbox[id].status == OutboxStatus.Pending
      ensures outbox[id] in rows || (|rows| == Relay.BATCH && forall i | 0 <= i < |rows| :: rows[i].createdAt <= outbox[id].createdAt)
    {
      assert id in RelayService.Pending(outbox);
    }
  }

  /** A relay run over a possible batch, with every call taking effect. */
  lemma RelayAllFine(c: Cipher, s: State, batch: seq<Outbox>) returns (run: seq<Action>, outcomes: seq<Answer>)
    requires Relay.IsPendingBatch(s.w.outbox, batch)
    ensures |outcomes| == |batch| && forall i | 0 <= i < |batch| :: outcomes[i].ok
    ensures var s' := Exec(c, s, run); s' == s.(w := RelayService.RelayAll(s.w, batch, outcomes), relays := s'.relays)
    ensures NoGateway(run)
  {
    hide Exec, Relay.IsPendingBatch, RelayService.RelayAll, RelayService.RelayRun;
    var id := FreshId(s.relays.Keys);
    var env: nat -> Answer := _ => Undisturbed.FINE;
    outcomes := seq(|batch|, _ => Undisturbed.FINE);
    run := RelayService.RelayRunIsARun(c, s, id, batch, env);
    RelayService.RunWithSaves(s.w, batch, outcomes, env, 1);
  }

  /** A PENDING row gets its event onto the topic: the relay takes the older rows out of its way. */
  lemma {:induction false} PendingIsPublished(c: Cipher, s: State, r: Id) returns (run: seq<Action>)
    requires Faithful(c) && Reachable(c, s) && r in s.w.origin
    requires var id := s.w.origin[r].outboxId; id in s.w.outbox && s.w.outbox[id].status == OutboxStatus.Pending
    ensures var s' := Exec(c, s, run); r in s'.w.origin && s'.w.origin[r] == s.w.origin[r] && Waiting(s', r) && NoGateway(run)
    decreases |RelayService.Pending(s.w.outbox)|
  {
    hide Exec, Faithful, Reachable, Consistent, TablesOk, JobsOk, Waiting, Relay.IsPendingBatch, RelayService.RelayAll,
         RelayService.Ids, RelayService.Distinct, RelayService.Keyed, RelayService.Sent;
    var id := s.w.origin[r].outboxId;
    ReachableConsistent(c, s);
    assert RelayService.Keyed(s.w.outbox) by { OutboxKeyed(c, s); }
    var batch := PendingBatch(s.w.outbox);
    var outcomes;
    run, outcomes := RelayAllFine(c, s, batch);
    var s1 := Exec(c, s, run);
    RelayService.RunShrinks(s.w, batch, outcomes);
    RelayService.BatchAttempted(s.w, batch, outcomes);
    RelayService.BatchFrame(s.w, batch, outcomes);
    if id in RelayService.Ids(batch) {
      BatchPublishes(c, s, s1, batch, outcomes, r);
    } else {
      assert id in RelayService.Pending(s1.w.outbox);
      ReachesOn(c, s, run);
      var rest := PendingIsPublished(c, s1, r);
      ExecConcat(c, s, run, rest);
      run := run + rest;
    }
  }

  lemma BatchPublishes(c: Cipher, s: State, s1: State, batch: seq<Outbox>, outcomes: seq<Answer>, r: Id)
    requires Consistent(c, s) && r in s.w.origin && s1.w.origin == s.w.origin && s1.lanes == s.lanes
    requires Relay.IsPendingBatch(s.w.outbox, batch) && s.w.origin[r].outboxId in RelayService.Ids(batch)
    requires |outcomes| == |batch| && (forall i | 0 <= i < |batch| :: outcomes[i].ok)
    requires s1.w.topic == s.w.topic + RelayService.Sent(batch, outcomes)
    ensures Waiting(s1, r)
  {
    hide TablesOk, JobsOk, SendsOk, RelaysOk, SchedsOk, LanesOk, Waiting, Relay.IsPendingBatch, RelayService.Ids, RelayService.Sent;
    var id := s.w.origin[r].outboxId;
    RelayService.IdsOf(batch, id);
    var i :| 0 <= i < |batch| && batch[i].id == id;
    var j := RelayService.SentHas(batch, outcomes, i);
    BatchRow(s.w.outbox, batch, i);
    RowKey(c, s.w, r);
    NewMessageWaits(c, s, s1, r, |s.w.topic| + j);
  }

  lemma OutboxKeyed(c: Cipher, s: State)
    requires Faithful(c) && Reachable(c, s)
    ensures RelayService.Keyed(s.w.outbox)
  {
    hide Faithful, Reachable;
    ServicesMayRun(c, s);
  }

  lemma BatchRow(outbox: map<Id, Outbox>, batch: seq<Outbox>, i: nat)
    requires Relay.IsPendingBatch(outbox, batch) && i < |batch|
    ensures batch[i].id in outbox && batch[i] == outbox[batch[i].id]
  {
  }

  lemma RowKey(c: Cipher, w: World, r: Id)
    requires TablesOk(c, w) && r in w.origin
    ensures var id := w.origin[r].outboxId; id in w.outbox && Relay.KeyFor(w.outbox[id]) == w.origin[r].dto.requestId
  {
    hide RequestsOk, PayloadsOk, RecipientsOk, TopicOk, StatusesOk, NewOutbox, FirstEvent, Wire;
    OutboxIdentity(c, w.outbox[w.origin[r].outboxId], r, w.origin[r]);
  }

  /** What has just come onto the topic under the request's key waits for its consumer. */
  lemma NewMessageWaits(c: Cipher, s: State, s': State, r: Id, i: nat)
    requires Consistent(c, s) && r in s.w.origin && s'.w.origin == s.w.origin && s'.lanes == s.lanes
    requires |s.w.topic| <= i < |s'.w.topic| && s'.w.topic[i].key == s.w.origin[r].dto.requestId
    ensures Waiting(s', r)
  {
    hide TablesOk, JobsOk, SendsOk, RelaysOk, SchedsOk, LanesOk, Frontier;
    FrontierBound(c, s, LaneOf(s.w, r));
    assert ConsumerOf(s', LaneOf(s'.w, r)) == ConsumerOf(s, LaneOf(s.w, r));
  }

  // ---------------------------------------------------------------- a RETRY_WAIT dispatch

  /** There is always a possible result of the scheduler's query, and one that starts with a given due row. */
  lemma {:induction false} SomeRows(dispatches: map<Id, Dispatch>, ids: set<Id>, n: nat) returns (rows: seq<Dispatch>)
    requires ids <= dispatches.Keys && forall id | id in ids :: dispatches[id].id == id
    ensures |rows| == if |ids| < n then |ids| else n
    ensures forall i | 0 <= i < |rows| :: rows[i].id in ids && rows[i] == dispatches[rows[i].id]
    ensures forall i, j | 0 <= i < j < |rows| :: rows[i].id != rows[j].id
    ensures forall id | id in ids :: dispatches[id] in rows || |rows| == n
    decreases n
  {
    if ids == {} || n == 0 {
      rows := [];
    } else {
      var one :| one in ids;
      var rest := SomeRows(dispatches, ids - {one}, n - 1);
      rows := [dispatches[one]] + rest;
      forall id | id in ids ensures dispatches[id] in rows || |rows| == n {
        if id == one { assert rows[0] == dispatches[id]; }
      }
    }
  }

  lemma BatchStartingWith(w: World, d: Id) returns (rows: seq<Dispatch>)
    requires d in w.dispatches && Scheduler.Due(w.dispatches[d], w.now)
    requires forall id | id in w.dispatches :: w.dispatches[id].id == id
    ensures Scheduler.IsRetryBatch(w, rows) && rows != [] && rows[0] == w.dispatches[d]
  {
    hide Scheduler.Due;
    var due := set id | id in w.dispatches && Scheduler.Due(w.dispatches[id], w.now);
    var rest := SomeRows(w.dispatches, due - {d}, Scheduler.BATCH - 1);
    rows := [w.dispatches[d]] + rest;
    forall id | id in w.dispatches && Scheduler.Due(w.dispatches[id], w.now)
      ensures w.dispatches[id] in rows || |rows| == Scheduler.BATCH
    {
      if id == d { assert rows[0] == w.dispatches[id]; }
    }
  }

  /** A due retry gets its event onto the topic. */
  lemma DueIsPublished(c: Cipher, s: State, d: Id, r: Id) returns (run: seq<Action>)
    requires Faithful(c) && Reachable(c, s) && d in s.w.dispatches && s.w.dispatches[d].messageRequestId == r && r in s.w.origin
    requires Scheduler.Due(s.w.dispatches[d], s.w.now)
    ensures var s' := Exec(c, s, run);
      r in s'.w.origin && s'.w.origin[r] == s.w.origin[r] && Waiting(s', r) && NoGateway(run)
  {
    hide Exec, Faithful, Reachable, Consistent, TablesOk, JobsOk, Waiting, Scheduler.Due, FindPayload, RetryEvent, Wire, Apply;
    ReachableConsistent(c, s);
    ServicesMayRun(c, s);
    RowsOfJob(c, s.w, d);
    var row := s.w.dispatches[d];
    var request, payload, recipient := s.w.requests[r], FindPayload(s.w, r).value, s.w.recipients[row.recipientId];
    var e := RetryEvent(request, payload, recipient);
    var id := FreshId(s.scheds.Keys);
    var rest;
    run, rest := ReadsForRetry(c, s, d, id);
    var fine := StepSched(id, Undisturbed.FINE);
    var s' := At(s, id, Scheduler.Save(Scheduler.Reschedule(row, s.w.now), rest)).(w := PublishSend(s.w, e, Undisturbed.FINE));
    PublishesRetry(c, s, id, row, e, rest);
    run := SchedOn(c, s, run, fine, At(s, id, Scheduler.Publish(row, e, rest)), s');
    RetryKey(request, payload, recipient);
    NewMessageWaits(c, s, s', r, |s.w.topic|);
  }

  lemma PublishesRetry(c: Cipher, s: State, id: nat, row: Dispatch, e: Event, rest: seq<Dispatch>)
    ensures Apply(c, At(s, id, Scheduler.Publish(row, e, rest)), StepSched(id, Undisturbed.FINE))
         == At(s, id, Scheduler.Save(Scheduler.Reschedule(row, s.w.now), rest)).(w := PublishSend(s.w, e, Undisturbed.FINE))
  {
    hide Wire;
  }

  /** A fresh scheduler run fetches the due row and reads what it needs. */
  lemma ReadsForRetry(c: Cipher, s: State, d: Id, id: nat) returns (run: seq<Action>, rest: seq<Dispatch>)
    requires id !in s.scheds && d in s.w.dispatches && Scheduler.Due(s.w.dispatches[d], s.w.now)
    requires forall other | other in s.w.dispatches :: s.w.dispatches[other].id == other
    requires var row := s.w.dispatches[d];
      row.messageRequestId in s.w.requests && row.recipientId in s.w.recipients && FindPayload(s.w, row.messageRequestId).Some?
    ensures var row := s.w.dispatches[d];
      var e := RetryEvent(s.w.requests[row.messageRequestId], FindPayload(s.w, row.messageRequestId).value,
                          s.w.recipients[row.recipientId]);
      Exec(c, s, run) == At(s, id, Scheduler.Publish(row, e, rest))
    ensures NoGateway(run)
  {
    hide Exec, Apply, Scheduler.IsRetryBatch, Scheduler.Due, FindPayload, RetryEvent;
    var row := s.w.dispatches[d];
    var rows := BatchStartingWith(s.w, d);
    rest := rows[1..];
    var fine := StepSched(id, Undisturbed.FINE);
    var request, payload := s.w.requests[row.messageRequestId], FindPayload(s.w, row.messageRequestId).value;
    var fetched := At(s, id, Scheduler.Next(rows));
    var one := At(s, id, Scheduler.ReadPayload(row, Some(request), rest));
    var two := At(s, id, Scheduler.ReadRecipient(row, Some(request), Some(payload), rest));
    var e := RetryEvent(request, payload, s.w.recipients[row.recipientId]);
    ExecNothing(c, s);
    Starts(c, s, id);
    run := SchedOn(c, s, [], StartSched(id), s, At(s, id, Scheduler.Fetch));
    var fetch := Undisturbed.FINE.(dispatchRows := rows);
    StepsAt(c, s, id, Scheduler.Fetch, fetch);
    run := SchedOn(c, s, run, StepSched(id, fetch), At(s, id, Scheduler.Fetch), fetched);
    StepsAt(c, s, id, Scheduler.Next(rows), Undisturbed.FINE);
    run := SchedOn(c, s, run, fine, fetched, one);
    StepsAt(c, s, id, one.scheds[id], Undisturbed.FINE);
    run := SchedOn(c, s, run, fine, one, two);
    StepsAt(c, s, id, two.scheds[id], Undisturbed.FINE);
    run := SchedOn(c, s, run, fine, two, At(s, id, Scheduler.Publish(row, e, rest)));
  }

  lemma Starts(c: Cipher, s: State, id: nat)
    requires id !in s.scheds
    ensures Apply(c, s, StartSched(id)) == At(s, id, Scheduler.Fetch)
  {
  }

  lemma StepsAt(c: Cipher, s: State, id: nat, pc: Scheduler.SchedPc, a: Answer)
    ensures var (w', pc') := Scheduler.SchedStep(s.w, pc, a);
      Apply(c, At(s, id, pc), StepSched(id, a)) == At(s, id, pc').(w := w')
  {
    hide Scheduler.SchedStep;
  }

  function At(s: State, id: nat, pc: Scheduler.SchedPc): State {
    s.(scheds := s.scheds[id := pc])
  }

  lemma SchedOn(c: Cipher, s: State, run: seq<Action>, action: Action, s1: State, s2: State) returns (run': seq<Action>)
    requires Exec(c, s, run) == s1 && Apply(c, s1, action) == s2
    ensures Exec(c, s, run') == s2 && run' == run + [action]
  {
    hide Exec, Apply;
    ExecMore(c, s, run, action);
    run' := run + [action];
  }

  lemma RetryKey(request: Request, payload: Payload, recipient: Recipient)
    ensures RetryEvent(request, payload, recipient).requestId == request.requestId
  {
  }

  /** The rows that the scheduler reads for a dispatch are there. */
  lemma RowsOfJob(c: Cipher, w: World, d: Id)
    requires TablesOk(c, w) && JobsOk(w) && d in w.dispatches
    ensures var r := w.dispatches[d].messageRequestId;
      && r in w.origin && r in w.requests && w.requests[r].requestId == w.origin[r].dto.requestId
      && w.dispatches[d].id == d && w.dispatches[d].recipientId in w.recipients && FindPayload(w, r).Some?
  {
    hide PayloadsOk, OutboxOk, TopicOk, StatusesOk, RequestOk, LogsOk, SingleSuccess, Shape, NewRecipient, StoredRecipient,
         FindPayload;
    assert DispatchOk(w.origin, w.failedAt, d, w.dispatches[d]);
    RequestKeys(w.origin, w.requests);
    PayloadFound(c, w, w.dispatches[d].messageRequestId);
  }

  /** A RETRY_WAIT dispatch gets its event onto the topic, once its minute is over. */
  lemma RetryIsPublished(c: Cipher, s: State, d: Id, r: Id) returns (run: seq<Action>)
    requires Faithful(c) && Reachable(c, s) && d in s.w.dispatches && s.w.dispatches[d].messageRequestId == r && r in s.w.origin
    requires s.w.dispatches[d].status == DispatchStatus.RetryWait
    ensures var s' := Exec(c, s, run); r in s'.w.origin && s'.w.origin[r] == s.w.origin[r] && Waiting(s', r) && NoGateway(run)
  {
    hide Exec, Faithful, Reachable, Consistent, TablesOk, JobsOk, Waiting;
    ReachableConsistent(c, s);
    WaitsForATime(s.w, d);
    var wait := Tick(s.w.dispatches[d].nextRetryAt.value);
    OneStep(c, s, wait);
    ReachesOn(c, s, [wait]);
    var rest := DueIsPublished(c, Exec(c, s, [wait]), d, r);
    ExecConcat(c, s, [wait], rest);
    run := [wait] + rest;
  }

  lemma WaitsForATime(w: World, d: Id)
    requires JobsOk(w) && d in w.dispatches && w.dispatches[d].status == DispatchStatus.RetryWait
    ensures w.dispatches[d].nextRetryAt.Some?
  {
    hide LogsOk, SingleSuccess;
    assert DispatchOk(w.origin, w.failedAt, d, w.dispatches[d]);
  }

  // ---------------------------------------------------------------- the theorem

  /** Some actor's own queries or its place in the topic still lead to the request. */
  ghost predicate WithinReach(s: State, r: Id)
    requires r in s.w.origin
  {
    || (exists d :: IsSuccess(s.w.dispatches, d, r))
    || Waiting(s, r)
    || (var id := s.w.origin[r].outboxId; id in s.w.outbox && s.w.outbox[id].status == OutboxStatus.Pending)
    || (exists d :: d in s.w.dispatches && s.w.dispatches[d].messageRequestId == r
                    && s.w.dispatches[d].status == DispatchStatus.RetryWait)
  }

  /** What is left can still be delivered: from every reachable state a request for a channel with a worker that has
      a SUCCESS dispatch, a waiting message, a PENDING outbox row or a RETRY_WAIT dispatch has a continuation, of
      relay runs, scheduler runs and its worker alone, after which it has exactly one SUCCESS dispatch. */
  lemma StillDeliverable(c: Cipher, s: State, r: Id) returns (more: seq<Action>, d: Id)
    requires Faithful(c) && Reachable(c, s) && r in s.w.origin && s.w.origin[r].dto.channel != Chat && WithinReach(s, r)
    ensures DeliveredOnceBy(Exec(c, s, more).w.dispatches, d, r) && NoGateway(more)
  {
    hide Exec, Faithful, Reachable, Waiting, Consistent, TablesOk, DispatchesOk, LogsOk;
    if d' :| IsSuccess(s.w.dispatches, d', r) {
      more, d := [], d';
      ExecNothing(c, s);
    } else {
      more := [];
      ExecNothing(c, s);
      var id := s.w.origin[r].outboxId;
      if Waiting(s, r) {
      } else if id in s.w.outbox && s.w.outbox[id].status == OutboxStatus.Pending {
        more := PendingIsPublished(c, s, r);
      } else {
        var waiting :| waiting in s.w.dispatches && s.w.dispatches[waiting].messageRequestId == r
          && s.w.dispatches[waiting].status == DispatchStatus.RetryWait;
        more := RetryIsPublished(c, s, waiting, r);
      }
      ReachesOn(c, s, more);
      var delivery;
      delivery, d := WaitingIsDeliverable(c, Exec(c, s, more), r);
      ExecConcat(c, s, more, delivery);
      more := more + delivery;
    }
    ReachesOn(c, s, more);
    ReachableConsistent(c, Exec(c, s, more));
  }
}
