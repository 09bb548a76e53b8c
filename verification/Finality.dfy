/** A dispatch that is SUCCESS once its `process` call is over stays exactly as it is, and COMPLETED means there
    is one. */
module Finality {
  import opened Json
  import opened Domain
  import opened Crypto
  import opened Events
  import opened World
  import opened Gateway
  import opened Worker
  import opened Pipeline
  import opened Invariants
  import opened Steps
  import opened Jobs
  import opened Actors
  import opened Safety
  import Relay
  import Scheduler

  /** The settled dispatch is the very same afterwards, and still settled. */
  ghost predicate StaysSettled(s: State, s': State, d: Id, r: Id) {
    Settled(s', d, r) && d in s.w.dispatches && s'.w.dispatches[d] == s.w.dispatches[d]
  }

  lemma SameRowSettled(s: State, s': State, d: Id, r: Id)
    requires Settled(s, d, r) && r in s'.w.origin && s'.w.origin[r] == s.w.origin[r]
    requires d in s'.w.dispatches && s'.w.dispatches[d] == s.w.dispatches[d]
    requires Busy(ConsumerOf(s', LaneOf(s.w, r))) != Some(d)
    ensures StaysSettled(s, s', d, r)
  {
  }

  lemma OffLaneSettled(c: Cipher, s: State, s': State, d: Id, r: Id)
    requires Consistent(c, s) && Settled(s, d, r) && Evolves(s.w, s'.w) && AllKept(s.w, s'.w)
    requires forall lane :: Busy(ConsumerOf(s', lane)).Some? ==> Busy(ConsumerOf(s', lane)) == Busy(ConsumerOf(s, lane))
    ensures StaysSettled(s, s', d, r)
  {
    hide TablesOk, SendsOk, RelaysOk, SchedsOk, LanesOk, StaysSettled, Busy;
    DispatchFacts(s.w.origin, s.w.dispatches, s.w.failedAt, d);
    assert RowKept(s.w, s'.w, d) by { assert d in s'.w.dispatches; }
    SameRowSettled(s, s', d, r);
  }

  lemma QuietSettled(c: Cipher, s: State, s': State, d: Id, r: Id)
    requires Consistent(c, s) && Settled(s, d, r) && QuietStep(c, s.w, s'.w) && s'.lanes == s.lanes
    ensures StaysSettled(s, s', d, r)
  {
    hide TablesOk, JobsOk, SendsOk, RelaysOk, SchedsOk, LanesOk, StaysSettled, Settled, Busy, AllKept;
    QuietKeepsAll(s.w, s'.w);
    OffLaneSettled(c, s, s', d, r);
  }

  /** A delivery that runs while a settled success exists is not about that dispatch and changes none. */
  lemma IdleDelivery(w: World, channel: Channel, m: Message, pc: WorkerPc, a: Answer, d: Id)
    requires DeliveryOk(w, m, pc) && JobsOk(w) && IsSuccess(w.dispatches, d, m.event.messageRequestId)
    requires Busy(Consumer(0, Some(pc))) != Some(d)
    ensures var (w', pc') := WorkerStep(channel, w, pc, a);
      w'.dispatches == w.dispatches && Busy(Consumer(0, Some(pc'))) == None && w'.origin == w.origin
  {
    hide IsRequestOf, CleanRecord, JobsOk, DispatchOk, Holds, EventInHand, LogsOf;
    assert pc.ReadRequest? || pc.CheckSuccess? || pc.LogRetry?;
  }

  lemma IdleLaneStep(c: Cipher, w: World, lane: Lane, k: Consumer, a: Answer, d: Id, r: Id)
    requires LaneOk(w, lane, k) && JobsOk(w) && IsSuccess(w.dispatches, d, r) && Busy(k) != Some(d)
    requires k.delivery.Some? && k.offset < |w.topic| ==> w.topic[k.offset].event.messageRequestId == r
    ensures var (w', k') := LaneStep(c, w, lane, k, a);
      w'.dispatches == w.dispatches && w'.origin == w.origin && Busy(k') != Some(d)
  {
    hide JobsOk, DeliveryOk, WorkerStep, Opened;
    if k.delivery.Some? {
      var pc := k.delivery.value;
      IdleDelivery(w, lane.channel, w.topic[k.offset], pc, a, d);
      var pc' := WorkerStep(lane.channel, w, pc, a).1;
      assert Busy(Consumer(k.offset, Some(pc'))) == Busy(Consumer(0, Some(pc')));
    }
  }

  lemma OwnLaneSettled(c: Cipher, s: State, lane: Lane, a: Answer, d: Id, r: Id)
    requires Faithful(c) && Consistent(c, s) && Settled(s, d, r) && LaneOf(s.w, r) == lane
    ensures StaysSettled(s, Apply(c, s, StepLane(lane, a)), d, r)
  {
    hide TablesOk, JobsOk, SendsOk, RelaysOk, SchedsOk, LaneOk, LaneStep, Faithful, StaysSettled, Busy;
    var s' := Apply(c, s, StepLane(lane, a));
    var k := ConsumerOf(s, lane);
    IdleLane(s.w, lane);
    assert LaneOk(s.w, lane, k);
    if k.delivery.Some? && k.offset < |s.w.topic| {
      LaneRequest(c, s.w, lane, k);
      LaneOwner(c, s.w, r, s.w.topic[k.offset].event.messageRequestId);
    }
    IdleLaneStep(c, s.w, lane, k, a, d, r);
    SameRowSettled(s, s', d, r);
  }

  lemma OtherLaneSettled(c: Cipher, s: State, lane: Lane, a: Answer, d: Id, r: Id)
    requires Settled(s, d, r) && LaneOf(s.w, r) != lane
    requires var s' := Apply(c, s, StepLane(lane, a)); LaneStepKeeps(c, s.w, lane, s'.w, s'.lanes[lane])
    ensures StaysSettled(s, Apply(c, s, StepLane(lane, a)), d, r)
  {
    hide TablesOk, JobsOk, LaneStep, LaneOk, StaysSettled, Busy;
    var s' := Apply(c, s, StepLane(lane, a));
    assert d in s'.w.dispatches && s'.w.dispatches[d].messageRequestId == r;
    SameRowSettled(s, s', d, r);
  }

  /** No action of any actor changes a settled success. */
  lemma SettledStays(c: Cipher, s: State, action: Action, d: Id, r: Id)
    requires Faithful(c) && Consistent(c, s) && Settled(s, d, r)
    ensures StaysSettled(s, Apply(c, s, action), d, r)
  {
    hide Consistent, StaysSettled, Faithful, SendStep, LaneStep, Relay.RelayStep, Scheduler.SchedStep, Busy,
         QuietStep, LaneStepKeeps, SchedStepKeeps;
    var s' := Apply(c, s, action);
    match action
    case StepSend(call, a) =>
      if call in s.sends { SendConsistent(c, s, call, a); QuietSettled(c, s, s', d, r); } else { StillSettled(s, d, r); }
    case StepRelay(run, a) =>
      if run in s.relays { RelayConsistent(c, s, run, a); QuietSettled(c, s, s', d, r); } else { StillSettled(s, d, r); }
    case StepSched(run, a) =>
      if run in s.scheds { SchedConsistent(c, s, run, a); SchedSettled(c, s, s', d, r); } else { StillSettled(s, d, r); }
    case StepLane(lane, a) =>
      LaneConsistent(c, s, lane, a);
      if LaneOf(s.w, r) == lane { OwnLaneSettled(c, s, lane, a, d, r); } else { OtherLaneSettled(c, s, lane, a, d, r); }
    case _ =>
      OtherConsistent(c, s, action);
      OtherSettled(c, s, action, d, r);
  }

  lemma StillSettled(s: State, d: Id, r: Id)
    requires Settled(s, d, r)
    ensures StaysSettled(s, s, d, r)
  {
  }

  lemma SchedSettled(c: Cipher, s: State, s': State, d: Id, r: Id)
    requires Consistent(c, s) && Settled(s, d, r) && SchedStepKeeps(c, s.w, s'.w) && s'.lanes == s.lanes
    ensures StaysSettled(s, s', d, r)
  {
    hide Consistent, Settled, StaysSettled, TablesOk, JobsOk, Evolves, AllKept, Busy;
    OffLaneSettled(c, s, s', d, r);
  }

  lemma OtherSettled(c: Cipher, s: State, action: Action, d: Id, r: Id)
    requires !action.StepSend? && !action.StepRelay? && !action.StepSched? && !action.StepLane?
    requires Consistent(c, s) && Settled(s, d, r) && SchedStepKeeps(c, s.w, Apply(c, s, action).w)
    ensures StaysSettled(s, Apply(c, s, action), d, r)
  {
    hide Consistent, Settled, StaysSettled, TablesOk, JobsOk, Evolves, AllKept;
    var s' := Apply(c, s, action);
    OffLaneSettled(c, s, s', d, r);
  }

  // ---------------------------------------------------------------- COMPLETED

  /** The gateway never writes COMPLETED. */
  lemma SendNeverCompletes(c: Cipher, w: World, pc: SendPc, a: Answer, r: Id)
    requires SendOk(c, w, pc)
    ensures var w' := SendStep(c, w, pc, a).0;
      && (r in w.requests ==> r in w'.requests)
      && (r in w'.requests && w'.requests[r].status == RequestStatus.Completed
          ==> r in w.requests && w.requests[r].status == RequestStatus.Completed)
  {
    hide IsRequestOf, IsOutboxOf, EventOk, OnTopic, NewOutbox, NewPayload, NewRecipient, RequestMetadata, CleanRecord;
  }

  /** A delivery writes a request row only in its last step, when its own dispatch is SUCCESS. */
  lemma CompletingStep(w: World, channel: Channel, m: Message, pc: WorkerPc, a: Answer)
    requires DeliveryOk(w, m, pc) && WorkerStep(channel, w, pc, a).0.requests != w.requests
    ensures var (w', pc') := WorkerStep(channel, w, pc, a);
      && pc.SaveCompleted? && pc'.Returned? && w' == SaveRequest(w, MarkCompleted(pc.request, w.now))
      && pc.request.id == m.event.messageRequestId
      && IsSuccess(w.dispatches, pc.dispatch.id, m.event.messageRequestId)
  {
    hide IsRequestOf, CleanRecord, Shape, StoredRequest;
  }

  lemma LaneTouchesRequests(c: Cipher, w: World, lane: Lane, k: Consumer, a: Answer)
    requires LaneStep(c, w, lane, k, a).0.requests != w.requests
    ensures lane.channel != Chat && k.offset < |w.topic| && k.delivery.Some?
    ensures WorkerStep(lane.channel, w, k.delivery.value, a).0.requests != w.requests
  {
    hide WorkerStep, Opened;
  }

  /** So it leaves that dispatch settled. */
  lemma CompletesSettled(c: Cipher, s: State, lane: Lane, a: Answer, r: Id)
    requires Faithful(c) && Consistent(c, s)
    requires var s' := Apply(c, s, StepLane(lane, a));
      && r in s'.w.requests && s'.w.requests[r].status == RequestStatus.Completed
    requires !(r in s.w.requests && s.w.requests[r].status == RequestStatus.Completed)
    ensures exists d :: Settled(Apply(c, s, StepLane(lane, a)), d, r)
  {
    hide TablesOk, JobsOk, SendsOk, RelaysOk, SchedsOk, Faithful, DeliveryOk, WorkerStep, Deliver, StoredRequest;
    var s' := Apply(c, s, StepLane(lane, a));
    var k := ConsumerOf(s, lane);
    IdleLane(s.w, lane);
    assert LaneOk(s.w, lane, k);
    LaneTouchesRequests(c, s.w, lane, k, a);
    LaneRequest(c, s.w, lane, k);
    var pc := k.delivery.value;
    CompletingStep(s.w, lane.channel, s.w.topic[k.offset], pc, a);
    assert Settled(s', pc.dispatch.id, r);
  }

  lemma CompletedStep(c: Cipher, s: State, action: Action)
    requires Faithful(c) && Consistent(c, s) && CompletedOk(s)
    ensures CompletedOk(Apply(c, s, action))
  {
    hide Consistent, Settled, Faithful, SendStep, LaneStep, Relay.RelayStep, Scheduler.SchedStep;
    var s' := Apply(c, s, action);
    forall r | r in s'.w.requests && s'.w.requests[r].status == RequestStatus.Completed
      ensures exists d :: Settled(s', d, r)
    {
      if r in s.w.requests && s.w.requests[r].status == RequestStatus.Completed {
        var d :| Settled(s, d, r);
        SettledStays(c, s, action, d, r);
        assert Settled(s', d, r);
      } else {
        NewlyCompleted(c, s, action, r);
      }
    }
  }

  lemma NewlyCompleted(c: Cipher, s: State, action: Action, r: Id)
    requires Faithful(c) && Consistent(c, s)
    requires var s' := Apply(c, s, action); r in s'.w.requests && s'.w.requests[r].status == RequestStatus.Completed
    requires !(r in s.w.requests && s.w.requests[r].status == RequestStatus.Completed)
    ensures action.StepLane? && exists d :: Settled(Apply(c, s, action), d, r)
  {
    hide TablesOk, JobsOk, RelaysOk, SchedsOk, LanesOk, SendOk, Settled, Faithful, SendStep, LaneStep, Relay.RelayStep,
         Scheduler.SchedStep;
    match action
    case StepSend(call, a) => SendNeverCompletes(c, s.w, s.sends[call], a, r);
    case StepRelay(run, a) => Relay.RelayFrame(s.w, s.relays[run], a);
    case StepSched(run, a) => Scheduler.SchedFrame(s.w, s.scheds[run], a);
    case StepLane(lane, a) => CompletesSettled(c, s, lane, a, r);
    case _ =>
  }
}
