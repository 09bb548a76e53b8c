/** The whole delivery pipeline: any number of gateway calls, relay runs, scheduler runs and channel workers,
    interleaved at every awaited call, any of which may crash. */
module Pipeline {
  import opened Domain
  import opened Crypto
  import opened World
  import opened Gateway
  import opened Worker
  import Relay
  import Scheduler

  /** The messages of one partition key as one channel's consumer group takes them: one at a time, in order. */
  datatype Lane = Lane(channel: Channel, key: string)

  /** The position in the topic of the next message, and the delivery under way, if any. */
  datatype Consumer = Consumer(offset: nat, delivery: Option<WorkerPc>)

  datatype State = State(
    w: World,
    sends: map<nat, SendPc>,
    relays: map<nat, Relay.RelayPc>,
    scheds: map<nat, Scheduler.SchedPc>,
    lanes: map<Lane, Consumer>)

  const INITIAL := State(EMPTY, map[], map[], map[], map[])

  /** One step of the system. A crash drops what an actor held in memory; a crashed consumer restarts from some
      earlier committed offset. */
  datatype Action =
    | Tick(elapsed: nat)
    | StartSend(call: nat, clientAppId: Id, dto: SendDto)
    | StepSend(call: nat, answer: Answer)
    | CrashSend(call: nat)
    | StartRelay(run: nat)
    | StepRelay(run: nat, answer: Answer)
    | CrashRelay(run: nat)
    | StartSched(run: nat)
    | StepSched(run: nat, answer: Answer)
    | CrashSched(run: nat)
    | StepLane(lane: Lane, answer: Answer)
    | CrashLane(lane: Lane, offset: nat)

  function ConsumerOf(s: State, lane: Lane): Consumer {
    if lane in s.lanes then s.lanes[lane] else Consumer(0, None)
  }

  /** The event after the consumer's own work on it: an encrypted payload is opened once. */
  function Opened(c: Cipher, e: Event): Option<Event> {
    if IsEncrypted(e.variables) then
      (match Decrypt(c, e.variables) case Some(v) => Some(e.(variables := v)) case None => None)
    else Some(e)
  }

  /** `eachMessage` on the next message: skip another channel's, open the payload, hand it to `process`. A message
      of another key is another lane's business. */
  function Deliver(c: Cipher, w: World, lane: Lane, offset: nat): Consumer
    requires offset < |w.topic|
  {
    var m := w.topic[offset];
    if m.key != lane.key || m.event.channel != ChannelName(lane.channel) then Consumer(offset + 1, None)
    else
      match Opened(c, m.event)
      case Some(e) => Consumer(offset, Some(ReadRequest(e)))
      case None => Consumer(offset + 1, None)
  }

  /** After a step of `process`: a delivery that has returned is done with, and one that threw is logged and
      done with as well. */
  function Settle(offset: nat, after: WorkerPc): Consumer {
    if Ended(after) then Consumer(offset + 1, None) else Consumer(offset, Some(after))
  }

  function LaneStep(c: Cipher, w: World, lane: Lane, k: Consumer, a: Answer): (World, Consumer) {
    // There is no worker for CHAT.
    if lane.channel == Chat || k.offset >= |w.topic| then (w, k)
    else
      match k.delivery
      case None => (w, Deliver(c, w, lane, k.offset))
      case Some(pc) =>
        var (w', pc') := WorkerStep(lane.channel, w, pc, a);
        (w', Settle(k.offset, pc'))
  }

  /** One step; an action that does not apply changes nothing. */
  ghost function Apply(c: Cipher, s: State, action: Action): State {
    match action
    case Tick(elapsed) => s.(w := s.w.(now := s.w.now + elapsed))
    case StartSend(call, client, dto) =>
      if call in s.sends then s else s.(sends := s.sends[call := Start(client, dto)])
    case StepSend(call, a) =>
      if call !in s.sends then s
      else
        var (w, pc) := SendStep(c, s.w, s.sends[call], a);
        s.(w := w, sends := s.sends[call := pc])
    case CrashSend(call) => s.(sends := s.sends - {call})
    case StartRelay(run) => if run in s.relays then s else s.(relays := s.relays[run := Relay.Fetch])
    case StepRelay(run, a) =>
      if run !in s.relays then s
      else
        var (w, pc) := Relay.RelayStep(s.w, s.relays[run], a);
        s.(w := w, relays := s.relays[run := pc])
    case CrashRelay(run) => s.(relays := s.relays - {run})
    case StartSched(run) => if run in s.scheds then s else s.(scheds := s.scheds[run := Scheduler.Fetch])
    case StepSched(run, a) =>
      if run !in s.scheds then s
      else
        var (w, pc) := Scheduler.SchedStep(s.w, s.scheds[run], a);
        s.(w := w, scheds := s.scheds[run := pc])
    case CrashSched(run) => s.(scheds := s.scheds - {run})
    case StepLane(lane, a) =>
      var (w, k) := LaneStep(c, s.w, lane, ConsumerOf(s, lane), a);
      s.(w := w, lanes := s.lanes[lane := k])
    case CrashLane(lane, offset) =>
      if offset > ConsumerOf(s, lane).offset then s else s.(lanes := s.lanes[lane := Consumer(offset, None)])
  }

  /** A whole run. */
  ghost function Exec(c: Cipher, s: State, actions: seq<Action>): State
    decreases |actions|
  {
    if actions == [] then s
    else Apply(c, Exec(c, s, actions[..|actions| - 1]), actions[|actions| - 1])
  }

  /** No client and no gateway has a part in the run. */
  predicate NoGateway(run: seq<Action>) {
    forall action | action in run :: !action.StartSend? && !action.StepSend? && !action.CrashSend?
  }

  lemma ExecNothing(c: Cipher, s: State)
    ensures Exec(c, s, []) == s
  {
  }

  lemma ExecMore(c: Cipher, s: State, run: seq<Action>, action: Action)
    ensures Exec(c, s, run + [action]) == Apply(c, Exec(c, s, run), action)
  {
    assert (run + [action])[..|run|] == run;
  }

  lemma {:induction false} ExecConcat(c: Cipher, s: State, one: seq<Action>, two: seq<Action>)
    ensures Exec(c, s, one + two) == Exec(c, Exec(c, s, one), two)
    decreases |two|
  {
    hide Apply;
    if two == [] {
      assert one + two == one;
    } else {
      var n := |two| - 1;
      ExecConcat(c, s, one, two[..n]);
      assert (one + two)[..|one| + n] == one + two[..n];
    }
  }
}
