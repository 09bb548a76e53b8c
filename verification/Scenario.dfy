/** Concrete runs of what the code does against its intent, and what then holds ever after. */
module Scenario {
  import opened Json
  import opened Domain
  import opened Crypto
  import opened Events
  import opened Templates
  import opened World
  import opened Gateway
  import opened Worker
  import opened Pipeline
  import opened Invariants
  import opened WorkerService
  import opened Finality
  import opened Theorems
  import opened OutOfReach
  import GatewayService
  import Undisturbed
  import Relay
  import RelayService

  // ---------------------------------------------------------------- a concrete first request

  const NO_RECEIVER := ReceiverDto(Absent, Absent, Absent, Absent, Absent)
  const BODY := SendDto("r", "t", Email, NO_RECEIVER, map[], None, None, None)
  const CATALOG := Catalog([Template(7, "t", Public, true)], [])

  /** Every awaited call takes effect. */
  const FINE := Undisturbed.FINE.(catalog := CATALOG)

  const SENT := Origin(1, BODY, 7, "t", 0, 0, 0, 0, 0)

  function Committed(c: Cipher): World { CommitRows(c, EMPTY, 0, SENT) }

  function Published(c: Cipher): World { PublishSend(Committed(c), FirstEvent(c, 0, SENT), FINE) }

  lemma FirstEntry(c: Cipher)
    ensures NewOutbox(c, 0, SENT).payload == FirstEvent(c, 0, SENT) && Committed(c).now == 0
  {
  }

  lemma StepOn(c: Cipher, run: seq<Action>, action: Action, s: State, s': State) returns (run': seq<Action>)
    requires Exec(c, INITIAL, run) == s && Apply(c, s, action) == s'
    ensures Exec(c, INITIAL, run') == s'
  {
    hide Exec, Apply;
    ExecMore(c, INITIAL, run, action);
    run' := run + [action];
  }

  /** One call up to its transaction. */
  lemma FirstCommit(c: Cipher) returns (run: seq<Action>)
    ensures Exec(c, INITIAL, run) == INITIAL.(
      w := Committed(c), sends := map[0 := Publish(NewRequest(0, SENT), NewOutbox(c, 0, SENT), "EMAIL")])
  {
    hide Exec, NewRequest, NewOutbox, StoredRequest, CommitRows, Wire;
    var step := StepSend(0, FINE);
    var t := CATALOG.templates[0];
    ExecNothing(c, INITIAL);
    var s1 := INITIAL.(sends := map[0 := Start(1, BODY)]);
    var s2 := s1.(sends := map[0 := FindTemplate(1, BODY)]);
    var s3 := s1.(sends := map[0 := ReadVariables(1, BODY, t)]);
    var s4 := s1.(sends := map[0 := Commit(1, BODY, t)]);
    assert FindRequest(EMPTY, "r") == None;
    assert FindActive(CATALOG.templates, "t") == Some(t);
    run := StepOn(c, [], StartSend(0, 1, BODY), INITIAL, s1);
    run := StepOn(c, run, step, s1, s2);
    run := StepOn(c, run, step, s2, s3);
    run := StepOn(c, run, step, s3, s4);
    run := StepOn(c, run, step, s4, s1.(
      w := Committed(c), sends := map[0 := Publish(NewRequest(0, SENT), NewOutbox(c, 0, SENT), "EMAIL")]));
  }

  /** And its publish. */
  lemma FirstSend(c: Cipher) returns (run: seq<Action>)
    ensures Exec(c, INITIAL, run) == INITIAL.(
      w := Published(c),
      sends := map[0 := SaveEntry(NewRequest(0, SENT), MarkPublished(NewOutbox(c, 0, SENT), 0), "EMAIL")])
  {
    hide Exec, NewRequest, NewOutbox, StoredRequest, CommitRows, Wire;
    run := FirstCommit(c);
    FirstEntry(c);
    run := StepOn(c, run, StepSend(0, FINE), Exec(c, INITIAL, run), INITIAL.(
      w := Published(c), sends := map[0 := SaveEntry(NewRequest(0, SENT), MarkPublished(NewOutbox(c, 0, SENT), 0), "EMAIL")]));
  }

  /** The variables reach `process` opened, for any faithful cipher. */
  lemma FirstEventOpens(c: Cipher)
    requires Faithful(c)
    ensures Opened(c, Wire(FirstEvent(c, 0, SENT))) == Some(Wire(FirstEvent(c, 0, SENT)).(variables := CleanRecord(map[])))
  {
    hide Faithful, Encrypt, Decrypt, IsEncrypted;
    EnvelopeRoundTrip(c, BODY.variables, SENT.iv);
  }

  /** Meanwhile the delivery goes through: the request says COMPLETED. */
  lemma FirstDelivery(c: Cipher, s: State) returns (run: seq<Action>)
    requires Faithful(c) && s.w == Published(c) && s.lanes == map[]
    ensures var s' := Exec(c, s, run);
      && s'.sends == s.sends && 0 in s'.w.requests && s'.w.requests[0].status == RequestStatus.Completed
  {
    hide Exec, Faithful, Opened, HasSuccess, Encrypt, Undisturbed.Delivered;
    var lane, m := Lane(Email, "r"), Message("r", Wire(FirstEvent(c, 0, SENT)));
    assert s.w.topic == [m];
    run := HandledIsARun(c, s, lane, _ => FINE);
    FirstEventOpens(c);
    var e := m.event.(variables := CleanRecord(map[]));
    NoSuccessYet(s.w, e);
    Undisturbed.Delivery(Email, s.w, e, _ => FINE);
  }

  lemma NoSuccessYet(w: World, e: Event)
    requires w.dispatches == map[]
    ensures !HasSuccess(w, e.messageRequestId, e.recipientId, Email)
  {
  }

  /** Request status is not monotone: here is a run after which the request says COMPLETED, and one more step, the
      gateway's own late save, after which it says QUEUED. */
  lemma CompletedIsOverwritten(c: Cipher) returns (run: seq<Action>, last: Action)
    requires Faithful(c)
    ensures var s := Exec(c, INITIAL, run);
      && 0 in s.w.requests && s.w.requests[0].status == RequestStatus.Completed
      && var s' := Apply(c, s, last); 0 in s'.w.requests && s'.w.requests[0].status == RequestStatus.Queued
  {
    hide Exec, Faithful, NewOutbox, Published, StoredOutbox;
    var one := FirstSend(c);
    var s1 := Exec(c, INITIAL, one);
    var two := FirstDelivery(c, s1);
    var s2 := Exec(c, s1, two);
    ExecConcat(c, INITIAL, one, two);
    last := StepSend(0, FINE);
    ExecMore(c, INITIAL, one + two, last);
    run := one + two + [last];
  }

  /** The request has a SUCCESS dispatch, says QUEUED, and never says COMPLETED again. */
  ghost predicate DeliveredButQueued(c: Cipher, s: State) {
    && 0 in s.w.requests && s.w.requests[0].status == RequestStatus.Queued && (exists d :: IsSuccess(s.w.dispatches, d, 0))
    && forall more ::
         var w' := Exec(c, s, more).w; 0 in w'.requests && w'.requests[0].status != RequestStatus.Completed
  }

  lemma QueuedForever(c: Cipher, run: seq<Action>, d: Id)
    requires Faithful(c)
    requires var s := Exec(c, INITIAL, run);
      0 in s.w.requests && s.w.requests[0].status == RequestStatus.Queued && Settled(s, d, 0)
    ensures DeliveredButQueued(c, Exec(c, INITIAL, run))
  {
    hide Exec, Faithful, Reachable, Settled, Consistent, TablesOk, JobsOk;
    var s := Exec(c, INITIAL, run);
    RunReachable(c, run);
    ReachableConsistent(c, s);
    SettledIsSuccess(s, d, 0);
    forall more ensures var w' := Exec(c, s, more).w; 0 in w'.requests && w'.requests[0].status != RequestStatus.Completed {
      NeverCompletedAgain(c, s, d, 0, more);
    }
  }

  /** So the run that overwrites COMPLETED leaves the request QUEUED for good. */
  lemma OverwrittenForGood(c: Cipher) returns (run: seq<Action>)
    requires Faithful(c)
    ensures DeliveredButQueued(c, Exec(c, INITIAL, run))
  {
    hide Exec, Faithful, Reachable, Settled, Consistent, Apply, StaysSettled, DeliveredButQueued;
    var before, last := CompletedIsOverwritten(c);
    var s := Exec(c, INITIAL, before);
    RunReachable(c, before);
    ReachableInv(c, s);
    var d :| Settled(s, d, 0);
    SettledStays(c, s, last, d, 0);
    assert Settled(Apply(c, s, last), d, 0) by { StaysIsSettled(s, Apply(c, s, last), d, 0); }
    ExecMore(c, INITIAL, before, last);
    run := before + [last];
    QueuedForever(c, run, d);
  }

  lemma StaysIsSettled(s: State, s': State, d: Id, r: Id)
    requires StaysSettled(s, s', d, r)
    ensures Settled(s', d, r)
  {
  }

  /** And so does a crash of the worker between its SUCCESS save and its COMPLETED save. */
  lemma CrashBeforeCompleted(c: Cipher) returns (run: seq<Action>)
    requires Faithful(c)
    ensures DeliveredButQueued(c, Exec(c, INITIAL, run))
  {
    hide Exec, Faithful, DeliveredButQueued;
    var s, w, e, d;
    run, s, w, e, d := SuccessJustSaved(c);
    var crash := CrashLane(Lane(Email, "r"), 0);
    ExecMore(c, INITIAL, run, crash);
    run := run + [crash];
    QueuedForever(c, run, 0);
  }

  /** The whole first call on its own. */
  lemma WholeFirstSend(c: Cipher) returns (run: seq<Action>)
    ensures var s := Exec(c, INITIAL, run);
      && s == INITIAL.(w := s.w, sends := map[0 := Done(Replied("r", RequestStatus.Queued, Some("EMAIL")))])
      && s.w.requests.Keys == {0} && s.w.requests[0].status == RequestStatus.Queued && s.w.origin == map[0 := SENT]
      && s.w.outbox.Keys == {0} && s.w.outbox[0].status == OutboxStatus.Published
      && s.w.dispatches == map[] && s.w.logs == map[] && s.w.topic == [Message("r", Wire(FirstEvent(c, 0, SENT)))]
  {
    hide Exec, GatewayService.SendRun, Wire, NewPayload, NewRecipient, FirstEvent, GetTemplateByCode;
    var t := CATALOG.templates[0];
    assert GetTemplateByCode(CATALOG, "t", 1) == Some(t) by { FirstTemplate(); }
    Undisturbed.Send(c, EMPTY, 1, BODY, _ => FINE, CATALOG, t);
    run := GatewayService.SendRunIsARun(c, INITIAL, 0, 1, BODY, _ => FINE);
    FirstCopies(Message("r", Wire(FirstEvent(c, 0, SENT))));
  }

  lemma FirstTemplate()
    ensures GetTemplateByCode(CATALOG, "t", 1) == Some(CATALOG.templates[0])
  {
  }

  lemma FirstCopies(m: Message)
    ensures [] + Copies(m, FINE) == [m]
  {
  }

  lemma FirstEventNames(c: Cipher)
    ensures var e := FirstEvent(c, 0, SENT); e.requestId == "r" && e.messageRequestId == 0 && e.channel == "EMAIL"
  {
  }

  /** Handing the first request's message to its worker, whatever the worker's calls answer. */
  lemma FirstMessageHandled(c: Cipher, s: State, env: nat -> Answer) returns (run: seq<Action>, e: Event)
    requires Faithful(c) && s.lanes == map[] && s.w.topic == [Message("r", Wire(FirstEvent(c, 0, SENT)))]
    ensures e.messageRequestId == 0 && e.recipientId == 0
    ensures Exec(c, s, run) == s.(
      w := ProcessRun(Email, s.w, ReadRequest(e), env, 0).0, lanes := map[Lane(Email, "r") := Consumer(1, None)])
  {
    hide Exec, Faithful, Opened, ProcessRun, FirstEvent;
    FirstEventOpens(c);
    FirstEventNames(c);
    FirstRecipient(c);
    e := Wire(FirstEvent(c, 0, SENT)).(variables := CleanRecord(map[]));
    run := HandledIsARun(c, s, Lane(Email, "r"), env);
    assert s.lanes[Lane(Email, "r") := Consumer(1, None)] == map[Lane(Email, "r") := Consumer(1, None)];
  }

  lemma FirstRecipient(c: Cipher)
    ensures FirstEvent(c, 0, SENT).recipientId == 0
  {
  }

  /** Coming to rest is possible, and with a delivered request. */
  lemma DeliveredAndAtRest(c: Cipher) returns (run: seq<Action>)
    requires Faithful(c)
    ensures var s := Exec(c, INITIAL, run);
      && Quiescent(s) && 0 in s.w.requests && 0 in s.w.origin && s.w.origin[0].dto.channel == Email
      && DeliveredOnceBy(s.w.dispatches, 0, 0)
  {
    hide Exec, Faithful, ProcessRun, HasSuccess, FirstEvent;
    run := WholeFirstSend(c);
    var s := Exec(c, INITIAL, run);
    var delivery, e := FirstMessageHandled(c, s, _ => FINE);
    NoSuccessYet(s.w, e);
    Undisturbed.Delivery(Email, s.w, e, _ => FINE);
    ExecConcat(c, INITIAL, run, delivery);
    run := run + delivery;
    assert Exec(c, INITIAL, run).w.dispatches == map[0 := Undisturbed.Delivered(e, Email, s.w.now, 0, 0)];
  }

  /** A request can be lost: here is a run after which it says QUEUED, its outbox row is PUBLISHED, its one message
      is behind the consumer, and its delivery left no dispatch because the first read of `process` threw. Nothing
      of it is left. */
  lemma OneReadErrorLosesARequest(c: Cipher) returns (run: seq<Action>)
    requires Faithful(c)
    ensures var s := Exec(c, INITIAL, run);
      && s.w.requests.Keys == {0} && s.w.requests[0].status == RequestStatus.Queued
      && s.w.outbox.Keys == {0} && s.w.outbox[0].status == OutboxStatus.Published
      && s.w.dispatches == map[] && s.relays == map[] && s.scheds == map[]
      && (forall call | call in s.sends :: s.sends[call].Done?)
      && ConsumerOf(s, Lane(Email, "r")) == Consumer(|s.w.topic|, None)
      && !NotForgotten(s, 0) && Unreachable(s, 0)
  {
    hide Exec, Faithful, ProcessRun, FirstEvent, Wire;
    run := WholeFirstSend(c);
    var s := Exec(c, INITIAL, run);
    var failing: nat -> Answer := _ => FINE.(ok := false);
    var delivery, e := FirstMessageHandled(c, s, failing);
    RunOn(Email, s.w, ReadRequest(e), failing, 0);
    ExecConcat(c, INITIAL, run, delivery);
    run := run + delivery;
  }

  /** The first request when its SUCCESS row is saved and nothing after that. */
  lemma SuccessJustSaved(c: Cipher) returns (run: seq<Action>, s: State, w: World, e: Event, d: Dispatch)
    requires Faithful(c)
    ensures 0 in s.w.requests && Exec(c, INITIAL, run) == At(s, w, LogSuccess(e, s.w.requests[0], d))
    ensures w.dispatches == map[0 := d] && |w.topic| == 1 && w.origin == map[0 := SENT]
    ensures 0 in w.requests && w.requests[0].status == RequestStatus.Queued
    ensures d.id == 0 && d.messageRequestId == 0 && d.status == DispatchStatus.Success && d.retryCount == 0 && d.maxRetryCount == 3
  {
    hide Exec, Faithful, FirstEvent, Opened, StoredRequest, At;
    run := WholeFirstSend(c);
    s := Exec(c, INITIAL, run);
    FirstEventOpens(c);
    FirstEventNames(c);
    e := Wire(FirstEvent(c, 0, SENT)).(variables := CleanRecord(map[]));
    NoSuccessYet(s.w, e);
    run := UpToSuccess(c, s, run, e);
    d := Undisturbed.Delivered(e, Email, s.w.now, 0, 0);
    w :| Exec(c, INITIAL, run) == At(s, w, LogSuccess(e, s.w.requests[0], d)) && w == s.w.(dispatches := map[0 := d], logs := w.logs);
  }

  /** SUCCESS can be taken back: here is a run after which the request's dispatch says SUCCESS, and one more step,
      the handler's own save, after which it says RETRY_WAIT. The SUCCESS log had thrown. */
  lemma SuccessIsTakenBack(c: Cipher) returns (run: seq<Action>, last: Action)
    requires Faithful(c)
    ensures var s := Exec(c, INITIAL, run);
      && IsSuccess(s.w.dispatches, 0, 0)
      && var s' := Apply(c, s, last); 0 in s'.w.dispatches && s'.w.dispatches[0].status == DispatchStatus.RetryWait
  {
    hide Exec, Faithful, Apply;
    var s, w, e, d;
    run, s, w, e, d := SuccessJustSaved(c);
    run, last := TakeBack(c, s, run, w, e, s.w.requests[0], d);
  }

  lemma TakeBack(c: Cipher, s: State, prefix: seq<Action>, w: World, e: Event, r: Request, d: Dispatch)
    returns (run: seq<Action>, last: Action)
    requires Exec(c, INITIAL, prefix) == At(s, w, LogSuccess(e, r, d)) && w.dispatches == map[0 := d] && |w.topic| == 1
    requires d.id == 0 && d.messageRequestId == 0 && d.status == DispatchStatus.Success && d.retryCount == 0 && d.maxRetryCount == 3
    ensures var s := Exec(c, INITIAL, run);
      && IsSuccess(s.w.dispatches, 0, 0)
      && var s' := Apply(c, s, last); 0 in s'.w.dispatches && s'.w.dispatches[0].status == DispatchStatus.RetryWait
  {
    hide Exec, StoredRequest;
    var broken := FINE.(ok := false);
    var (w', pc') := WorkerStep(Email, w, LogSuccess(e, r, d), broken);
    run := DeliverOn(c, s, prefix, w, LogSuccess(e, r, d), broken, w', pc');
    last := StepLane(Lane(Email, "r"), FINE);
  }

  /** The first five steps of the delivery, up to the SUCCESS save. */
  lemma UpToSuccess(c: Cipher, s: State, prefix: seq<Action>, e: Event) returns (run: seq<Action>)
    requires Exec(c, INITIAL, prefix) == s && s.lanes == map[] && 0 in s.w.requests && s.w.dispatches == map[]
    requires |s.w.topic| == 1 && s.w.topic[0].key == "r" && s.w.topic[0].event.channel == "EMAIL"
    requires Opened(c, s.w.topic[0].event) == Some(e) && e.messageRequestId == 0
    requires !HasSuccess(s.w, e.messageRequestId, e.recipientId, Email)
    ensures var d := Undisturbed.Delivered(e, Email, s.w.now, 0, 0);
      exists w :: Exec(c, INITIAL, run) == At(s, w, LogSuccess(e, s.w.requests[0], d))
        && w == s.w.(dispatches := map[0 := d], logs := w.logs)
  {
    hide Exec, Opened, HasSuccess, Deliver, LogsOf;
    var lane, r, d := Lane(Email, "r"), s.w.requests[0], NewDispatch(0, e, Email, s.w.now);
    var step := StepLane(lane, FINE);
    run := prefix;
    assert Deliver(c, s.w, lane, 0) == Consumer(0, Some(ReadRequest(e))) by { Delivers(c, s.w, lane, e); }
    run := StepOn(c, run, step, s, At(s, s.w, ReadRequest(e)));
    run := DeliverOn(c, s, run, s.w, ReadRequest(e), FINE, s.w, CheckSuccess(e, r));
    run := DeliverOn(c, s, run, s.w, CheckSuccess(e, r), FINE, s.w, Insert(e, r));
    var w2 := SaveDispatch(s.w, d);
    run := DeliverOn(c, s, run, s.w, Insert(e, r), FINE, w2, LogRequest(e, r, d));
    run := LogAndSave(c, s, run, w2, e, r, d);
    var done := MarkSuccess(d, 0, s.w.now);
    var w' :| Exec(c, INITIAL, run) == At(s, w', LogSuccess(e, r, done)) && w' == w2.(logs := w'.logs, dispatches := w2.dispatches[0 := done]);
    assert w2.dispatches[0 := done] == map[0 := done];
  }

  lemma LogAndSave(c: Cipher, s: State, prefix: seq<Action>, w: World, e: Event, r: Request, d: Dispatch)
    returns (run: seq<Action>)
    requires Exec(c, INITIAL, prefix) == At(s, w, LogRequest(e, r, d)) && |w.topic| == 1 && d.id == 0
    ensures var done := MarkSuccess(d, 0, w.now);
      exists w' :: Exec(c, INITIAL, run) == At(s, w', LogSuccess(e, r, done))
        && w' == w.(logs := w'.logs, dispatches := w.dispatches[0 := done])
  {
    hide Exec, LogsOf, At;
    var w1 := WriteLog(w, 0, RequestLog, LogStatus.Processing);
    var done := MarkSuccess(d, 0, w.now);
    run := DeliverOn(c, s, prefix, w, LogRequest(e, r, d), FINE, w1, SaveSuccess(e, r, d));
    run := DeliverOn(c, s, run, w1, SaveSuccess(e, r, d), FINE, SaveDispatch(w1, done), LogSuccess(e, r, done));
  }

  /** One more step of the first request's delivery. */
  lemma DeliverOn(c: Cipher, s: State, run: seq<Action>, w: World, pc: WorkerPc, a: Answer, w': World, pc': WorkerPc)
    returns (run': seq<Action>)
    requires Exec(c, INITIAL, run) == At(s, w, pc) && |w.topic| == 1
    requires WorkerStep(Email, w, pc, a) == (w', pc') && !Ended(pc')
    ensures Exec(c, INITIAL, run') == At(s, w', pc')
  {
    hide Exec, WorkerStep;
    run' := StepOn(c, run, StepLane(Lane(Email, "r"), a), At(s, w, pc), At(s, w', pc'));
  }

  lemma Delivers(c: Cipher, w: World, lane: Lane, e: Event)
    requires |w.topic| == 1 && w.topic[0].key == lane.key && w.topic[0].event.channel == ChannelName(lane.channel)
    requires Opened(c, w.topic[0].event) == Some(e)
    ensures Deliver(c, w, lane, 0) == Consumer(0, Some(ReadRequest(e)))
  {
    hide Opened;
  }

  /** The first request's lane at some point of the delivery. */
  function At(s: State, w: World, pc: WorkerPc): State {
    s.(w := w, lanes := map[Lane(Email, "r") := Consumer(0, Some(pc))])
  }

  /** An outbox row can be stranded: the gateway's publish throws, the relay's publish throws, and the relay saves
      that. The row is FAILED, the request VALIDATED, nothing is on the topic, and nobody holds the row, so it stays
      so over every further run. */
  lemma OneRelayErrorStrandsARow(c: Cipher) returns (run: seq<Action>)
    ensures var s := Exec(c, INITIAL, run);
      && s.w.requests.Keys == {0} && s.w.requests[0].status == RequestStatus.Validated && s.w.topic == []
      && s.w.outbox.Keys == {0} && s.w.outbox[0].status == OutboxStatus.Failed && !EntryInHand(s, 0)
      && s.sends == map[0 := Done(Rejected(KafkaPublishFailed))] && s.lanes == map[] && s.scheds == map[]
      && Unreachable(s, 0)
  {
    hide Exec, NewRequest, NewOutbox, StoredRequest, Wire, Committed, RelayService.RelayRun, Relay.IsPendingBatch, Unreachable;
    var broken := FINE.(ok := false);
    run := FirstCommit(c);
    var s1 := INITIAL.(w := Committed(c), sends := map[0 := Done(Rejected(KafkaPublishFailed))]);
    NothingPublished(c);
    run := StepOn(c, run, StepSend(0, broken), Exec(c, INITIAL, run), s1);
    FirstRow(c);
    var row := s1.w.outbox[0];
    var env: nat -> Answer := n => if n == 1 then broken else FINE;
    var relay := RelayService.RelayRunIsARun(c, s1, 0, [row], env);
    RelayService.EntryWithSave(s1.w, [row], env, 1);
    RelayService.EmptyRun(RelayService.RelayEntry(s1.w, row, broken), env, 3);
    assert [row][1..] == [] && [row][0] == row;
    EntryFails(s1.w, row, broken);
    ExecConcat(c, INITIAL, run, relay);
    run := run + relay;
    NobodyHasIt(Exec(c, INITIAL, run));
  }

  lemma NobodyHasIt(s: State)
    requires s.w.origin == map[0 := SENT] && s.w.dispatches == map[] && s.w.topic == []
    requires 0 in s.w.outbox && s.w.outbox[0].status == OutboxStatus.Failed
    requires s.sends == map[0 := Done(Rejected(KafkaPublishFailed))] && s.relays == map[0 := Relay.Done]
    requires s.lanes == map[] && s.scheds == map[]
    ensures Unreachable(s, 0)
  {
  }

  lemma EntryFails(w: World, row: Outbox, a: Answer)
    requires !a.ok && a.copies == 0 && w.topic == []
    ensures var w' := RelayService.RelayEntry(w, row, a);
      && w' == w.(outbox := w.outbox[row.id := w'.outbox[row.id]]) && w'.outbox[row.id].status == OutboxStatus.Failed
  {
    var m := Message(Relay.KeyFor(row), Wire(row.payload));
    assert w.topic + Copies(m, a) == [];
    assert Relay.RelayPublish(w, row, a) == w.(topic := w.topic + Copies(m, a));
  }

  lemma NothingPublished(c: Cipher)
    ensures forall e: Event {:trigger PublishSend(Committed(c), e, FINE.(ok := false))} ::
      PublishSend(Committed(c), e, FINE.(ok := false)) == Committed(c)
  {
  }

  lemma FirstRow(c: Cipher)
    ensures var w := Committed(c);
      && w.now == 0 && w.topic == [] && w.dispatches == map[] && w.origin == map[0 := SENT]
      && w.requests.Keys == {0} && w.requests[0].status == RequestStatus.Validated
      && w.outbox.Keys == {0} && w.outbox[0].id == 0 && w.outbox[0].eventType == MessageRequestCreated
      && Relay.IsPendingBatch(w.outbox, [w.outbox[0]])
    ensures forall row :: StoredOutbox(row).status == row.status
  {
  }
}
