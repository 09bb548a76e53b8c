/** The invariant holds initially and is kept by every action, so it holds in every reachable state. */
module Safety {
  import opened Json
  import opened Domain
  import opened Crypto
  import opened Events
  import opened World
  import opened Gateway
  import opened Worker
  import opened Pipeline
  import opened Invariants
  import opened Steps
  import opened Jobs
  import opened Actors
  import Relay
  import Scheduler

  // ---------------------------------------------------------------- a lane's step

  /** A lane in a delivery is the lane of the message's own request. */
  lemma LaneRequest(c: Cipher, w: World, lane: Lane, k: Consumer)
    requires TablesOk(c, w) && LaneOk(w, lane, k) && k.delivery.Some?
    ensures var m := w.topic[k.offset];
      && m.event.messageRequestId in w.origin && EventOk(c, w.origin, m.event) && LaneOf(w, m.event.messageRequestId) == lane && m.key == m.event.requestId
  {
    hide RequestsOk, PayloadsOk, RecipientsOk, OutboxOk, StatusesOk, DeliveryOk, Agrees, FirstEvent;
    var m := w.topic[k.offset];
    EventFacts(c, w.origin, m.event);
    ChannelNamesDiffer(w.origin[m.event.messageRequestId].dto.channel, lane.channel);
  }

  /** Two requests never share a lane. */
  lemma LaneOwner(c: Cipher, w: World, r: Id, q: Id)
    requires TablesOk(c, w) && r in w.origin && q in w.origin && LaneOf(w, r) == LaneOf(w, q)
    ensures r == q
  {
    hide PayloadsOk, RecipientsOk, OutboxOk, TopicOk, StatusesOk, RequestOk;
  }

  lemma NothingMoves(c: Cipher, w: World)
    requires TablesOk(c, w) && JobsOk(w)
    ensures Evolves(w, w) && AllKept(w, w)
  {
    hide TablesOk;
    NoStep(c, w);
    QuietKeepsAll(w, w);
  }

  /** What a step of one lane leaves alone: the dispatches of every request of another lane. */
  ghost predicate OtherLanesKept(w: World, w': World, lane: Lane) {
    forall d | d in w'.dispatches && w'.dispatches[d].messageRequestId in w.origin
               && LaneOf(w, w'.dispatches[d].messageRequestId) != lane ::
      RowKept(w, w', d) && w'.dispatches[d] == w.dispatches[d]
  }

  ghost predicate LaneStepKeeps(c: Cipher, w: World, lane: Lane, w': World, k': Consumer) {
    && TablesOk(c, w') && JobsOk(w') && Evolves(w, w') && OtherLanesKept(w, w', lane)
    && w'.topic == w.topic && w'.origin == w.origin && w'.outbox == w.outbox && LaneOk(w', lane, k')
  }

  /** Handing over the next message: its payload opens to the variables that were sent. */
  lemma DeliverKeeps(c: Cipher, w: World, lane: Lane, offset: nat)
    requires Faithful(c) && TablesOk(c, w) && JobsOk(w) && offset < |w.topic| && lane.channel != Chat
    ensures var k' := Deliver(c, w, lane, offset);
      && LaneStepKeeps(c, w, lane, w, k')
      && (w.topic[offset].key == lane.key && w.topic[offset].event.channel == ChannelName(lane.channel)
          ==> k'.offset == offset && k'.delivery.Some? && k'.delivery.value.ReadRequest?)
  {
    hide JobsOk, RequestsOk, PayloadsOk, RecipientsOk, OutboxOk, StatusesOk, Faithful, Encrypt, Decrypt, CleanRecord,
         IsEncrypted, Agrees, FirstEvent, Evolves, RowKept;
    NothingMoves(c, w);
    var m := w.topic[offset];
    var o := w.origin[m.event.messageRequestId];
    assert EventOk(c, w.origin, m.event);
    EventFacts(c, w.origin, m.event);
    EnvelopeRoundTrip(c, o.dto.variables, o.iv);
  }

  /** One more step of a delivery under way. */
  lemma ProcessKeeps(c: Cipher, w: World, lane: Lane, k: Consumer, a: Answer)
    requires TablesOk(c, w) && JobsOk(w) && LaneOk(w, lane, k) && k.delivery.Some?
    ensures var (w', k') := LaneStep(c, w, lane, k, a); LaneStepKeeps(c, w, lane, w', k')
  {
    hide TablesOk, JobsOk, EventOk, DeliveryOk, Evolves, RowKept, OnTopic, IsRequestOf;
    var m := w.topic[k.offset];
    var pc := k.delivery.value;
    LaneRequest(c, w, lane, k);
    assert OnTopic(w.topic, m.event.requestId) by { TopicHas(w.topic, k.offset); }
    DeliveryStep(c, w, lane.channel, m, pc, a);
    var w1 := WorkerStep(lane.channel, w, pc, a).0;
    OthersAreOtherLanes(w, w1, lane, m.event.messageRequestId);
  }

  lemma TopicHas(topic: seq<Message>, i: nat)
    requires i < |topic|
    ensures OnTopic(topic, topic[i].key)
  {
  }

  lemma OthersAreOtherLanes(w: World, w': World, lane: Lane, request: Id)
    requires OthersKept(w, w', request)
    requires request in w.origin && LaneOf(w, request) == lane
    ensures OtherLanesKept(w, w', lane)
  {
    forall d | d in w'.dispatches && w'.dispatches[d].messageRequestId != request
      ensures RowKept(w, w', d) && w'.dispatches[d] == w.dispatches[d]
    {
      assert RowKept(w, w', d);
    }
  }

  lemma LaneKeeps(c: Cipher, w: World, lane: Lane, k: Consumer, a: Answer)
    requires Faithful(c) && TablesOk(c, w) && JobsOk(w) && LaneOk(w, lane, k)
    ensures var (w', k') := LaneStep(c, w, lane, k, a); LaneStepKeeps(c, w, lane, w', k')
  {
    hide TablesOk, JobsOk, DeliveryOk, Evolves, RowKept, Faithful;
    NothingMoves(c, w);
    if lane.channel == Chat || k.offset >= |w.topic| {
    } else if k.delivery.None? {
      DeliverKeeps(c, w, lane, k.offset);
    } else {
      ProcessKeeps(c, w, lane, k, a);
    }
  }

  // ---------------------------------------------------------------- actors after a step

  lemma SendsStable(c: Cipher, s: State, w': World)
    requires SendsOk(c, s) && Evolves(s.w, w')
    ensures SendsOk(c, s.(w := w'))
  {
    hide SendOk, Evolves;
    forall call | call in s.sends ensures SendOk(c, w', s.sends[call]) { SendStable(c, s.w, w', s.sends[call]); }
  }

  lemma RelaysStable(c: Cipher, s: State, w': World)
    requires RelaysOk(c, s) && Evolves(s.w, w')
    ensures RelaysOk(c, s.(w := w'))
  {
    hide RelayOk, Evolves;
    forall run | run in s.relays ensures RelayOk(c, w', s.relays[run]) { RelayStable(c, s.w, w', s.relays[run]); }
  }

  lemma SchedsStable(c: Cipher, s: State, w': World)
    requires SchedsOk(c, s) && Evolves(s.w, w')
    ensures SchedsOk(c, s.(w := w'))
  {
    hide SchedOk, Evolves;
    forall run | run in s.scheds ensures SchedOk(c, w', s.scheds[run]) { SchedStable(c, s.w, w', s.scheds[run]); }
  }

  /** Lanes do not notice a step that keeps every dispatch. */
  lemma LanesStable(s: State, w': World)
    requires LanesOk(s) && Evolves(s.w, w') && AllKept(s.w, w')
    ensures LanesOk(s.(w := w'))
  {
    hide LaneOk, Evolves, RowKept;
    forall lane | lane in s.lanes ensures LaneOk(w', lane, s.lanes[lane]) { LaneStable(s.w, w', lane, s.lanes[lane]); }
  }

  /** Nor a step of another lane. */
  lemma OtherLanesStable(c: Cipher, s: State, lane: Lane, w': World, k': Consumer)
    requires TablesOk(c, s.w) && LanesOk(s) && LaneStepKeeps(c, s.w, lane, w', k')
    ensures LanesOk(s.(w := w', lanes := s.lanes[lane := k']))
  {
    hide LaneOk, Evolves, RowKept, TablesOk, JobsOk, EventOk;
    forall other | other in s.lanes && other != lane ensures LaneOk(w', other, s.lanes[other]) {
      var k := s.lanes[other];
      if k.delivery.Some? {
        LaneBounds(s.w, other, k);
        LaneRequest(c, s.w, other, k);
      }
      LaneStable(s.w, w', other, k);
    }
  }

  lemma LaneBounds(w: World, lane: Lane, k: Consumer)
    requires LaneOk(w, lane, k) && k.delivery.Some?
    ensures k.offset < |w.topic|
  {
  }

  // ---------------------------------------------------------------- every action

  lemma OthersStable(c: Cipher, s: State, w': World)
    requires Consistent(c, s) && Evolves(s.w, w')
    ensures SendsOk(c, s.(w := w')) && RelaysOk(c, s.(w := w')) && SchedsOk(c, s.(w := w'))
  {
    hide SendsOk, RelaysOk, SchedsOk, LanesOk, TablesOk, JobsOk, Evolves;
    SendsStable(c, s, w');
    RelaysStable(c, s, w');
    SchedsStable(c, s, w');
  }

  lemma SendConsistent(c: Cipher, s: State, call: nat, a: Answer)
    requires Faithful(c) && Consistent(c, s) && call in s.sends
    ensures var s' := Apply(c, s, StepSend(call, a)); Consistent(c, s') && QuietStep(c, s.w, s'.w)
  {
    hide TablesOk, JobsOk, SendOk, RelaysOk, SchedsOk, LanesOk, Evolves, Faithful, AllKept;
    var (w', pc') := SendStep(c, s.w, s.sends[call], a);
    SendKeeps(c, s.w, s.sends[call], a);
    QuietKeepsAll(s.w, w');
    OthersStable(c, s, w');
    LanesStable(s, w');
    Restate(c, s.(w := w'), Apply(c, s, StepSend(call, a)));
  }

  lemma RelayConsistent(c: Cipher, s: State, run: nat, a: Answer)
    requires Consistent(c, s) && run in s.relays
    ensures var s' := Apply(c, s, StepRelay(run, a)); Consistent(c, s') && QuietStep(c, s.w, s'.w)
  {
    hide TablesOk, JobsOk, RelayOk, SendsOk, SchedsOk, LanesOk, Evolves, AllKept;
    var (w', pc') := Relay.RelayStep(s.w, s.relays[run], a);
    RelayKeeps(c, s.w, s.relays[run], a);
    QuietKeepsAll(s.w, w');
    OthersStable(c, s, w');
    LanesStable(s, w');
    Restate(c, s.(w := w'), Apply(c, s, StepRelay(run, a)));
  }

  lemma SchedConsistent(c: Cipher, s: State, run: nat, a: Answer)
    requires Faithful(c) && Consistent(c, s) && run in s.scheds
    ensures var s' := Apply(c, s, StepSched(run, a)); Consistent(c, s') && SchedStepKeeps(c, s.w, s'.w)
  {
    hide TablesOk, JobsOk, SchedOk, SendsOk, RelaysOk, LanesOk, Evolves, AllKept, Faithful;
    var (w', pc') := Scheduler.SchedStep(s.w, s.scheds[run], a);
    SchedKeeps(c, s.w, s.scheds[run], a);
    OthersStable(c, s, w');
    LanesStable(s, w');
    Restate(c, s.(w := w'), Apply(c, s, StepSched(run, a)));
  }

  lemma LaneConsistent(c: Cipher, s: State, lane: Lane, a: Answer)
    requires Faithful(c) && Consistent(c, s)
    ensures var s' := Apply(c, s, StepLane(lane, a));
      Consistent(c, s') && LaneStepKeeps(c, s.w, lane, s'.w, s'.lanes[lane])
  {
    hide TablesOk, JobsOk, LaneOk, SendsOk, RelaysOk, SchedsOk, Evolves, OtherLanesKept, Faithful, LaneStep;
    var k := ConsumerOf(s, lane);
    IdleLane(s.w, lane);
    var (w', k') := LaneStep(c, s.w, lane, k, a);
    LaneKeeps(c, s.w, lane, k, a);
    OthersStable(c, s, w');
    OtherLanesStable(c, s, lane, w', k');
    Restate(c, s.(w := w'), Apply(c, s, StepLane(lane, a)));
  }

  lemma IdleLane(w: World, lane: Lane)
    ensures LaneOk(w, lane, Consumer(0, None))
  {
  }

  /** The parts of a state that the other actors' invariants look at. */
  lemma Restate(c: Cipher, s: State, s': State)
    requires s.w == s'.w
    ensures s.sends == s'.sends ==> SendsOk(c, s) == SendsOk(c, s')
    ensures s.relays == s'.relays ==> RelaysOk(c, s) == RelaysOk(c, s')
    ensures s.scheds == s'.scheds ==> SchedsOk(c, s) == SchedsOk(c, s')
    ensures s.lanes == s'.lanes ==> LanesOk(s) == LanesOk(s')
  {
    hide SendOk, RelayOk, SchedOk, LaneOk;
  }

  /** Actions other than a step: starting, crashing, and time passing. */
  lemma OtherConsistent(c: Cipher, s: State, action: Action)
    requires Consistent(c, s) && !action.StepSend? && !action.StepRelay? && !action.StepSched? && !action.StepLane?
    ensures var s' := Apply(c, s, action); Consistent(c, s') && SchedStepKeeps(c, s.w, s'.w)
  {
    hide TablesOk, JobsOk, SendOk, RelayOk, SchedOk, Evolves, AllKept, DeliveryOk;
    var s' := Apply(c, s, action);
    NothingMoves(c, s.w);
    if action.Tick? {
      TimePasses(c, s.w, s'.w);
      OthersStable(c, s, s'.w);
      LanesStable(s, s'.w);
    } else {
      StartsOk(c, s.w);
      IdleLane(s.w, if action.CrashLane? then action.lane else Lane(Email, ""));
    }
  }

  lemma StartsOk(c: Cipher, w: World)
    ensures forall client, dto :: SendOk(c, w, Start(client, dto))
    ensures RelayOk(c, w, Relay.Fetch) && SchedOk(c, w, Scheduler.Fetch)
  {
  }

  lemma TimePasses(c: Cipher, w: World, w': World)
    requires TablesOk(c, w) && JobsOk(w) && w' == w.(now := w'.now) && w.now <= w'.now
    ensures SchedStepKeeps(c, w, w')
  {
    hide RequestsOk, PayloadsOk, RecipientsOk, OutboxOk, TopicOk, DispatchesOk, SingleSuccess, LogOk, RowKept;
    assert forall d :: LogsOf(w', d) == LogsOf(w, d);
    NothingMoves(c, w);
    forall d | d in w.dispatches ensures RowKept(w, w', d) { RowKeptLater(w, w', d); }
  }

  lemma RowKeptLater(w: World, w': World, d: Id)
    requires RowKept(w, w, d) && w' == w.(now := w'.now)
    ensures RowKept(w, w', d)
  {
  }

  /** Every action keeps the tables and every actor's memory consistent, and guarantees what the others rely on. */
  lemma ConsistentStep(c: Cipher, s: State, action: Action)
    requires Faithful(c) && Consistent(c, s)
    ensures Consistent(c, Apply(c, s, action)) && Evolves(s.w, Apply(c, s, action).w)
  {
    hide TablesOk, JobsOk, SendsOk, RelaysOk, SchedsOk, LanesOk, Evolves, AllKept, OtherLanesKept, Faithful, LaneOk;
    assert Evolves(s.w, s.w) by { NothingMoves(c, s.w); }
    match action
    case StepSend(call, a) => if call in s.sends { SendConsistent(c, s, call, a); }
    case StepRelay(run, a) => if run in s.relays { RelayConsistent(c, s, run, a); }
    case StepSched(run, a) => if run in s.scheds { SchedConsistent(c, s, run, a); }
    case StepLane(lane, a) => LaneConsistent(c, s, lane, a);
    case _ => OtherConsistent(c, s, action);
  }
}
