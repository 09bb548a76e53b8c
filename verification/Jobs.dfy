/** What `process` and the retry scheduler do to dispatch rows and their logs. */
module Jobs {
  import opened Json
  import opened Domain
  import opened Crypto
  import opened Events
  import opened World
  import opened Worker
  import opened Invariants
  import opened Steps

  /** A SUCCESS dispatch has retry count zero, a dispatch of count one stays failed. */
  lemma DispatchFacts(origin: Origins, dispatches: map<Id, Dispatch>, failedAt: map<Id, Time>, d: Id)
    requires DispatchesOk(origin, dispatches, failedAt) && d in dispatches
    ensures Shape(dispatches[d]) && dispatches[d].id == d && dispatches[d].messageRequestId in origin
  {
    assert DispatchOk(origin, failedAt, d, dispatches[d]);
  }

  /** The request tables do not look at dispatches, logs or failures. */
  lemma TablesOfJobs(c: Cipher, w: World, w': World)
    requires TablesOk(c, w)
    requires w' == w.(dispatches := w'.dispatches, logs := w'.logs, failedAt := w'.failedAt, dlq := w'.dlq)
    ensures TablesOk(c, w')
  {
    hide RequestsOk, PayloadsOk, RecipientsOk, OutboxOk, TopicOk;
  }

  /** Only one dispatch, its log and its failure time may differ. */
  ghost predicate OnlyRow(w: World, w': World, id: Id) {
    && w' == w.(dispatches := w'.dispatches, logs := w'.logs, failedAt := w'.failedAt)
    && w'.dispatches.Keys == w.dispatches.Keys + {id} && w'.logs.Keys <= w.logs.Keys + {id}
    && forall d | d in w.dispatches && d != id ::
         && w'.dispatches[d] == w.dispatches[d] && LogsOf(w', d) == LogsOf(w, d)
         && (d in w'.failedAt <==> d in w.failedAt) && (d in w.failedAt ==> w'.failedAt[d] == w.failedAt[d])
  }

  /** Rewriting one dispatch with a proper one, unrecorded so far, keeps everything. */
  lemma RowWritten(c: Cipher, w: World, w': World, id: Id)
    requires TablesOk(c, w) && JobsOk(w) && OnlyRow(w, w', id)
    requires DispatchOk(w'.origin, w'.failedAt, id, w'.dispatches[id]) && LogOk(LogsOf(w', id), w'.dispatches[id])
    requires id in w.dispatches ==> w'.dispatches[id].messageRequestId == w.dispatches[id].messageRequestId
    requires id in w.dispatches && w.dispatches[id].retryCount == 1 ==>
      && SameJob(w'.dispatches[id], w.dispatches[id])
      && id in w.failedAt && id in w'.failedAt && w'.failedAt[id] == w.failedAt[id]
    requires w'.dispatches[id].status == DispatchStatus.Success ==>
      forall e :: IsSuccess(w.dispatches, e, w'.dispatches[id].messageRequestId) ==> e == id
    ensures TablesOk(c, w') && JobsOk(w') && Evolves(w, w')
    ensures OthersKept(w, w', w'.dispatches[id].messageRequestId)
    ensures forall d | d in w.dispatches && d != id :: RowKept(w, w', d)
  {
    hide TablesOk, DispatchOk, LogOk, SameJob;
    TablesOfJobs(c, w, w');
    forall d | d in w.dispatches && d != id ensures RowKept(w, w', d) {
      DispatchFacts(w.origin, w.dispatches, w.failedAt, d);
    }
    forall d | d in w'.dispatches
      ensures DispatchOk(w'.origin, w'.failedAt, d, w'.dispatches[d]) && LogOk(LogsOf(w', d), w'.dispatches[d])
    {
      if d != id { RowStays(w, w', d); }
    }
    forall e, f, r | IsSuccess(w'.dispatches, e, r) && IsSuccess(w'.dispatches, f, r) ensures e == f {
      assert e != id ==> IsSuccess(w.dispatches, e, r);
      assert f != id ==> IsSuccess(w.dispatches, f, r);
    }
    forall d | d in w.dispatches && w.dispatches[d].retryCount == 1 ensures SameJob(w'.dispatches[d], w.dispatches[d]) {
      if d != id { SameJobReflexive(w.dispatches[d]); }
    }
  }

  lemma SameJobReflexive(d: Dispatch)
    ensures SameJob(d, d)
  {
  }

  lemma RowStays(w: World, w': World, d: Id)
    requires JobsOk(w) && d in w.dispatches && RowKept(w, w', d) && w'.dispatches[d] == w.dispatches[d]
    requires w'.origin == w.origin
    ensures DispatchOk(w'.origin, w'.failedAt, d, w'.dispatches[d]) && LogOk(LogsOf(w', d), w'.dispatches[d])
  {
    assert DispatchOk(w.origin, w.failedAt, d, w.dispatches[d]);
  }

  // ---------------------------------------------------------------- the scheduler's save

  lemma RescheduleKeeps(c: Cipher, w: World, d: Dispatch)
    requires TablesOk(c, w) && JobsOk(w) && HoldsJob(w, d) && d.status == DispatchStatus.Processing
    ensures var w' := SaveDispatch(w, d);
      && TablesOk(c, w') && JobsOk(w') && Evolves(w, w') && AllKept(w, w')
  {
    hide TablesOk;
    assert DispatchOk(w.origin, w.failedAt, d.id, w.dispatches[d.id]);
    assert LogOk(LogsOf(w, d.id), w.dispatches[d.id]);
    RowWritten(c, w, SaveDispatch(w, d), d.id);
  }

  // ---------------------------------------------------------------- one step of process

  /** A step of a delivery keeps the tables, hands its next memory on in order, and touches no other request's
      dispatches. */
  ghost predicate DeliveryKeeps(c: Cipher, w: World, m: Message, w': World, pc': WorkerPc) {
    && TablesOk(c, w') && JobsOk(w') && Evolves(w, w') && OthersKept(w, w', m.event.messageRequestId)
    && w'.topic == w.topic && w'.origin == w.origin && w'.outbox == w.outbox
    && (!Ended(pc') ==> DeliveryOk(w', m, pc'))
  }

  ghost predicate Delivering(c: Cipher, w: World, channel: Channel, m: Message, pc: WorkerPc) {
    && TablesOk(c, w) && JobsOk(w) && DeliveryOk(w, m, pc) && EventOk(c, w.origin, m.event)
    && channel != Chat && channel == w.origin[m.event.messageRequestId].dto.channel
    && OnTopic(w.topic, m.event.requestId)
  }

  lemma EventFacts(c: Cipher, origin: Origins, e: Event)
    requires EventOk(c, origin, e)
    ensures var o := origin[e.messageRequestId];
      && e.requestId == o.dto.requestId && e.recipientId == o.recipientId && e.channel == ChannelName(o.dto.channel)
      && e.variables == CleanRecord(Encrypt(c, o.dto.variables, o.iv))
  {
    hide CleanRecord, Encrypt, SameReceiver, ReceiverToRecord, RequestMetadata, Masking.Mask;
  }

  lemma ReadsKeep(c: Cipher, w: World, channel: Channel, m: Message, pc: WorkerPc, a: Answer)
    requires Delivering(c, w, channel, m, pc) && (pc.ReadRequest? || pc.CheckSuccess?)
    ensures var (w', pc') := WorkerStep(channel, w, pc, a); w' == w && DeliveryKeeps(c, w, m, w', pc')
  {
    hide PayloadsOk, RecipientsOk, OutboxOk, TopicOk, IsRequestOf, CleanRecord, EventOk, StatusesOk, Shape, LogsOk, OthersKept, Evolves;
    StillKeeps(c, w, m);
    RequestKeys(w.origin, w.requests);
    EventFacts(c, w.origin, m.event);
    forall d | IsSuccess(w.dispatches, d, m.event.messageRequestId)
      ensures HasSuccess(w, m.event.messageRequestId, m.event.recipientId, channel)
    {
      assert DispatchOk(w.origin, w.failedAt, d, w.dispatches[d]);
    }
    if pc.ReadRequest? {
      var r := w.requests[m.event.messageRequestId];
      assert RequestOk(r, m.event.messageRequestId, w.origin[m.event.messageRequestId]);
    }
  }

  lemma FreshLog(w: World, id: Id)
    requires JobsOk(w) && id !in w.dispatches
    ensures LogsOf(w, id) == []
  {
    hide LogOk, DispatchesOk, SingleSuccess;
  }

  lemma InsertKeeps(c: Cipher, w: World, channel: Channel, m: Message, pc: WorkerPc, a: Answer)
    requires Delivering(c, w, channel, m, pc) && pc.Insert? && a.ok && a.uuid !in w.dispatches
    ensures var (w', pc') := WorkerStep(channel, w, pc, a); DeliveryKeeps(c, w, m, w', pc')
  {
    hide TablesOk, JobsOk, IsRequestOf, CleanRecord, EventOk, RowKept, Evolves, OthersKept, SameJob, FirstEvent, StoredRequest;
    var (w', pc') := WorkerStep(channel, w, pc, a);
    EventFacts(c, w.origin, m.event);
    FreshLog(w, a.uuid);
    RowWritten(c, w, w', a.uuid);
    forall e | IsSuccess(w'.dispatches, e, m.event.messageRequestId) ensures e == a.uuid {
      assert e != a.uuid ==> IsSuccess(w.dispatches, e, m.event.messageRequestId);
    }
  }

  lemma LogWritesOneRow(w: World, d: Id, logType: LogType, status: LogStatus)
    ensures d in w.dispatches ==> OnlyRow(w, WriteLog(w, d, logType, status), d)
    ensures LogsOf(WriteLog(w, d, logType, status), d) == LogsOf(w, d) + [LogEntry(logType, status)]
  {
    var w' := WriteLog(w, d, logType, status);
    if d in w.dispatches { assert w'.dispatches.Keys == w.dispatches.Keys + {d}; }
  }

  lemma JobFacts(w: World, d: Id)
    requires JobsOk(w) && d in w.dispatches
    ensures DispatchOk(w.origin, w.failedAt, d, w.dispatches[d]) && LogOk(LogsOf(w, d), w.dispatches[d])
    ensures SameJob(w.dispatches[d], w.dispatches[d])
    ensures w.dispatches[d].retryCount == 1 ==> d in w.failedAt
    ensures w.dispatches[d].status == DispatchStatus.Success ==>
      forall e :: IsSuccess(w.dispatches, e, w.dispatches[d].messageRequestId) ==> e == d
  {
    hide Shape, LogOk;
    assert DispatchOk(w.origin, w.failedAt, d, w.dispatches[d]);
    assert w.dispatches[d].status == DispatchStatus.Success ==> IsSuccess(w.dispatches, d, w.dispatches[d].messageRequestId);
  }

  /** Writing a log entry of the delivery's own dispatch. */
  lemma LogKeeps(c: Cipher, w: World, d: Id, logType: LogType, status: LogStatus)
    requires TablesOk(c, w) && JobsOk(w) && d in w.dispatches
    requires LogOk(LogsOf(w, d) + [LogEntry(logType, status)], w.dispatches[d])
    ensures var w' := WriteLog(w, d, logType, status);
      && TablesOk(c, w') && JobsOk(w') && Evolves(w, w') && OthersKept(w, w', w.dispatches[d].messageRequestId)
      && LogsOf(w', d) == LogsOf(w, d) + [LogEntry(logType, status)]
  {
    hide TablesOk, LogOk, LogsOf, JobsOk, DispatchOk, SameJob, Evolves, OthersKept, OnlyRow, IsSuccess;
    LogWritesOneRow(w, d, logType, status);
    JobFacts(w, d);
    RowWritten(c, w, WriteLog(w, d, logType, status), d);
  }

  /** What a delivery knows of its own dispatch when it writes it from memory. */
  ghost predicate Writes(w: World, request: Id, d: Dispatch) {
    && d.id in w.dispatches && w.dispatches[d.id].messageRequestId == request
    && w.dispatches[d.id].retryCount == 0 && w.dispatches[d.id].status != DispatchStatus.RetryWait
    && d.messageRequestId == request && (LogsOf(w, d.id) == [REQUESTED] || LogsOf(w, d.id) == [REQUESTED, SUCCEEDED])
    && forall e :: IsSuccess(w.dispatches, e, request) ==> e == d.id
  }

  /** An exception inside the try block: never the give-up branch, since the row's count is zero. */
  lemma CatchKeeps(c: Cipher, w: World, m: Message, e: Event, r: Request, d: Dispatch, error: string)
    requires TablesOk(c, w) && JobsOk(w) && Writes(w, m.event.messageRequestId, d)
    requires DispatchOk(w.origin, w.failedAt, d.id, d) && d.status == DispatchStatus.Success
    ensures var (w', pc') := Catch(w, e, r, d, error); pc'.SaveRetry? && DeliveryKeeps(c, w, m, w', pc')
  {
    hide TablesOk, JobsOk, Evolves, OthersKept, RowKept;
    var (w', pc') := Catch(w, e, r, d, error);
    JobFacts(w, d.id);
    RowWritten(c, w, w', d.id);
    assert BackoffSeconds(0) * 1000 == BACKOFF;
  }

  /** Saving the delivery's own dispatch, as successful or as waiting for a retry. */
  lemma SaveOwnKeeps(c: Cipher, w: World, request: Id, d: Dispatch)
    requires TablesOk(c, w) && JobsOk(w) && Writes(w, request, d)
    requires DispatchOk(w.origin, w.failedAt, d.id, d) && LogOk(LogsOf(w, d.id), d)
    ensures var w' := SaveDispatch(w, d);
      && TablesOk(c, w') && JobsOk(w') && Evolves(w, w') && OthersKept(w, w', request)
      && (forall e :: IsSuccess(w'.dispatches, e, request) ==> e == d.id)
  {
    hide TablesOk, DispatchOk, LogOk;
    var w' := SaveDispatch(w, d);
    RowWritten(c, w, w', d.id);
    forall e | IsSuccess(w'.dispatches, e, request) ensures e == d.id {
      assert e != d.id ==> IsSuccess(w.dispatches, e, request);
    }
  }

  lemma OwnWrites(w: World, m: Message, d: Dispatch)
    requires JobsOk(w) && OwnJob(w, m.event.messageRequestId, d)
    requires LogsOf(w, d.id) == [REQUESTED] || LogsOf(w, d.id) == [REQUESTED, SUCCEEDED]
    ensures Writes(w, m.event.messageRequestId, d) && DispatchOk(w.origin, w.failedAt, d.id, d)
  {
    assert DispatchOk(w.origin, w.failedAt, d.id, w.dispatches[d.id]);
  }

  lemma RequestLogged(c: Cipher, w: World, m: Message, e: Event, r: Request, d: Dispatch)
    requires TablesOk(c, w) && JobsOk(w) && DeliveryOk(w, m, LogRequest(e, r, d))
    ensures DeliveryKeeps(c, w, m, WriteLog(w, d.id, RequestLog, LogStatus.Processing), SaveSuccess(e, r, d))
  {
    hide TablesOk, IsRequestOf, CleanRecord, Shape, RowKept, Evolves;
    LogKeeps(c, w, d.id, RequestLog, LogStatus.Processing);
  }

  lemma SuccessSaved(c: Cipher, w: World, channel: Channel, m: Message, e: Event, r: Request, d: Dispatch, a: Answer)
    requires TablesOk(c, w) && JobsOk(w) && DeliveryOk(w, m, SaveSuccess(e, r, d))
    ensures var (w', pc') := WorkerStep(channel, w, SaveSuccess(e, r, d), a); DeliveryKeeps(c, w, m, w', pc')
  {
    hide TablesOk, JobsOk, OthersKept, IsRequestOf, CleanRecord, OnFailure, Evolves, StoredRequest;
    var done := MarkSuccess(d, a.uuid, w.now);
    OwnWrites(w, m, d);
    assert Writes(w, m.event.messageRequestId, done) && DispatchOk(w.origin, w.failedAt, done.id, done);
    if a.ok {
      SaveOwnKeeps(c, w, m.event.messageRequestId, done);
    } else {
      CatchKeeps(c, w, m, e, r, done, a.error);
    }
  }

  lemma SuccessLogged(c: Cipher, w: World, channel: Channel, m: Message, e: Event, r: Request, d: Dispatch, a: Answer)
    requires TablesOk(c, w) && JobsOk(w) && DeliveryOk(w, m, LogSuccess(e, r, d))
    ensures var (w', pc') := WorkerStep(channel, w, LogSuccess(e, r, d), a); DeliveryKeeps(c, w, m, w', pc')
  {
    hide TablesOk, JobsOk, DispatchOk, OthersKept, IsRequestOf, CleanRecord, LogsOf, OnFailure, Evolves, StoredRequest;
    OwnWrites(w, m, d);
    if a.ok {
      LogKeeps(c, w, d.id, SuccessLog, LogStatus.Success);
    } else {
      CatchKeeps(c, w, m, e, r, d, a.error);
    }
  }

  lemma RetrySaved(c: Cipher, w: World, m: Message, d: Dispatch)
    requires TablesOk(c, w) && JobsOk(w) && DeliveryOk(w, m, SaveRetry(d))
    ensures DeliveryKeeps(c, w, m, SaveDispatch(w, d), LogRetry(d))
    ensures Writes(w, m.event.messageRequestId, d)
  {
    hide TablesOk, JobsOk, OthersKept, Evolves, IsRequestOf, CleanRecord;
    JobFacts(w, d.id);
    SaveOwnKeeps(c, w, m.event.messageRequestId, d);
  }

  lemma RetryLogged(c: Cipher, w: World, m: Message, d: Dispatch)
    requires TablesOk(c, w) && JobsOk(w) && DeliveryOk(w, m, LogRetry(d))
    ensures DeliveryKeeps(c, w, m, WriteLog(w, d.id, RetryLog, LogStatus.Failed), Returned)
  {
    hide TablesOk, IsRequestOf, CleanRecord, Shape, RowKept, Evolves;
    LogKeeps(c, w, d.id, RetryLog, LogStatus.Failed);
  }

  /** The save that completes a request. */
  lemma CompletedSaved(c: Cipher, w: World, channel: Channel, m: Message, pc: WorkerPc, a: Answer)
    requires Delivering(c, w, channel, m, pc) && pc.SaveCompleted? && a.ok
    ensures var (w', pc') := WorkerStep(channel, w, pc, a); DeliveryKeeps(c, w, m, w', pc') && pc'.Returned?
    ensures var (w', pc') := WorkerStep(channel, w, pc, a); Quiet(w, w')
  {
    hide TablesOk, JobsOk, Evolves, IsRequestOf, CleanRecord, OnTopic, EventOk;
    var row := MarkCompleted(pc.request, w.now);
    CompletedHolds(c, w, m, pc.request);
    SaveRequestKeeps(c, w, row);
    QuietKeepsAll(w, SaveRequest(w, row));
    AllKeptQuiet(w, SaveRequest(w, row), m.event.messageRequestId);
  }

  lemma CompletedHolds(c: Cipher, w: World, m: Message, r: Request)
    requires Holds(w, r) && EventOk(c, w.origin, m.event) && r.id == m.event.messageRequestId
    ensures Holds(w, MarkCompleted(r, w.now)) && r.requestId == m.event.requestId
  {
    hide CleanRecord, RequestMetadata;
    RequestIdentity(r, r.id, w.origin[r.id]);
    EventFacts(c, w.origin, m.event);
  }

  lemma AllKeptQuiet(w: World, w': World, request: Id)
    requires AllKept(w, w') && Quiet(w, w')
    ensures OthersKept(w, w', request)
  {
    hide RowKept;
  }

  /** Every step of `process` in a proper delivery, whatever fails; the give-up branch is never entered. */
  lemma DeliveryStep(c: Cipher, w: World, channel: Channel, m: Message, pc: WorkerPc, a: Answer)
    requires Delivering(c, w, channel, m, pc)
    ensures !Ended(pc)
    ensures var (w', pc') := WorkerStep(channel, w, pc, a);
      DeliveryKeeps(c, w, m, w', pc') && (pc.SaveCompleted? && a.ok ==> pc'.Returned? && Quiet(w, w'))
  {
    hide TablesOk, EventOk, DeliveryKeeps, Shape, JobsOk, IsRequestOf, CleanRecord, LogOk, RowKept;
    var request := m.event.messageRequestId;
    match pc
    case ReadRequest(_) => ReadsKeep(c, w, channel, m, pc, a);
    case CheckSuccess(_, _) => ReadsKeep(c, w, channel, m, pc, a);
    case Insert(_, _) => if a.ok && a.uuid !in w.dispatches { InsertKeeps(c, w, channel, m, pc, a); } else { StillKeeps(c, w, m); }
    case LogRequest(e, r, d) => if a.ok { RequestLogged(c, w, m, e, r, d); } else { StillKeeps(c, w, m); }
    case SaveSuccess(e, r, d) => SuccessSaved(c, w, channel, m, e, r, d, a);
    case LogSuccess(e, r, d) => SuccessLogged(c, w, channel, m, e, r, d, a);
    case SaveCompleted(e, r, d) => 
      if a.ok {
        CompletedSaved(c, w, channel, m, pc, a);
      } else {
        OwnWrites(w, m, d);
        CatchKeeps(c, w, m, e, MarkCompleted(r, w.now), d, a.error);
      }
    case SaveRetry(d) => if a.ok { RetrySaved(c, w, m, d); } else { StillKeeps(c, w, m); }
    case LogRetry(d) => if a.ok { RetryLogged(c, w, m, d); } else { StillKeeps(c, w, m); }
  }

  lemma StillKeeps(c: Cipher, w: World, m: Message)
    requires TablesOk(c, w) && JobsOk(w)
    ensures DeliveryKeeps(c, w, m, w, Threw)
  {
    hide TablesOk;
    QuietKeepsAll(w, w);
  }
}
