/** `BaseWorkerService.process`, one awaited call at a time. */
module Worker {
  import opened Domain
  import opened World

  const MAX_RETRY_COUNT := 3
  const RETRY_BACKOFF_SECONDS: seq<int> := [60, 300, 900]

  /** Where a delivery stands: what `process` holds in memory before its next awaited call. */
  datatype WorkerPc =
    | ReadRequest(event: Event)
    | CheckSuccess(event: Event, request: Request)
    | Insert(event: Event, request: Request)
    | LogRequest(event: Event, request: Request, dispatch: Dispatch)
    | SaveSuccess(event: Event, request: Request, dispatch: Dispatch)
    | LogSuccess(event: Event, request: Request, dispatch: Dispatch)
    | SaveCompleted(event: Event, request: Request, dispatch: Dispatch)
    | SaveRetry(dispatch: Dispatch)
    | LogRetry(dispatch: Dispatch)
    | SaveFailed(event: Event, request: Request, dispatch: Dispatch)
    | LogFailed(event: Event, request: Request, dispatch: Dispatch)
    | SaveRequestFailed(event: Event, request: Request, dispatch: Dispatch)
    | PublishDlq(event: Event, dispatch: Dispatch)
    | Returned
    | Threw

  predicate Ended(pc: WorkerPc) { pc.Returned? || pc.Threw? }

  function SendErrorCode(channel: Channel): string {
    match channel
    case Email => "EMAIL_SEND_FAILED"
    case Sms => "SMS_SEND_FAILED"
    case Kakao => "KAKAO_SEND_FAILED"
    case Chat => ""
  }

  function NewDispatch(id: Id, e: Event, channel: Channel, now: Time): Dispatch {
    Dispatch(id, e.messageRequestId, e.recipientId, channel, DispatchStatus.Processing, 0, MAX_RETRY_COUNT, None, None,
             None, None, Some(now), Some(now), None, None, None)
  }

  function MarkSuccess(d: Dispatch, uuid: Id, now: Time): Dispatch {
    d.(status := DispatchStatus.Success, providerMessageId := Some((d.channelType, uuid)), sentAt := Some(now),
       successAt := Some(now))
  }

  /** `RETRY_BACKOFF_SECONDS[retryCount] ?? 900` */
  function BackoffSeconds(retryCount: int): nat {
    if 0 <= retryCount < |RETRY_BACKOFF_SECONDS| then RETRY_BACKOFF_SECONDS[retryCount] else 900
  }

  function CanRetry(d: Dispatch): bool { d.retryCount < d.maxRetryCount }

  /** What the catch block does to the row in memory. */
  function OnFailure(d: Dispatch, now: Time, errorCode: string, errorMessage: string): Dispatch {
    if CanRetry(d) then
      d.(status := DispatchStatus.RetryWait, retryCount := d.retryCount + 1,
         nextRetryAt := Some(now + BackoffSeconds(d.retryCount) * 1000),
         lastErrorCode := Some(errorCode), lastErrorMessage := Some(errorMessage))
    else
      d.(status := DispatchStatus.Failed, failedAt := Some(now),
         lastErrorCode := Some(errorCode), lastErrorMessage := Some(errorMessage))
  }

  function MarkCompleted(r: Request, now: Time): Request {
    r.(status := RequestStatus.Completed, completedAt := Some(now))
  }

  /** An exception inside the try block: the handler's choice between waiting and giving up. */
  function Catch(w: World, e: Event, r: Request, d: Dispatch, errorMessage: string): (World, WorkerPc) {
    var failed := OnFailure(d, w.now, SendErrorCode(d.channelType), errorMessage);
    (w.(failedAt := w.failedAt[d.id := w.now]), if CanRetry(d) then SaveRetry(failed) else SaveFailed(e, r, failed))
  }

  function Rank(pc: WorkerPc): nat {
    match pc
    case ReadRequest(_) => 11
    case CheckSuccess(_, _) => 10
    case Insert(_, _) => 9
    case LogRequest(_, _, _) => 8
    case SaveSuccess(_, _, _) => 7
    case LogSuccess(_, _, _) => 6
    case SaveCompleted(_, _, _) => 5
    case SaveFailed(_, _, _) => 4
    case LogFailed(_, _, _) => 3
    case SaveRetry(_) | SaveRequestFailed(_, _, _) => 2
    case LogRetry(_) | PublishDlq(_, _) => 1
    case Returned | Threw => 0
  }

  /** One awaited call of `process` in the worker of `channel`, and the code up to the next one. */
  function WorkerStep(channel: Channel, w: World, pc: WorkerPc, a: Answer): (r: (World, WorkerPc))
    ensures !Ended(pc) ==> Rank(r.1) < Rank(pc)
  {
    match pc
    case ReadRequest(e) =>
      if !a.ok then (w, Threw)
      else if e.messageRequestId !in w.requests then (w, Returned)
      else (w, CheckSuccess(e, w.requests[e.messageRequestId]))
    case CheckSuccess(e, r) =>
      if !a.ok then (w, Threw)
      else if HasSuccess(w, e.messageRequestId, e.recipientId, channel) then (w, Returned)
      else (w, Insert(e, r))
    case Insert(e, r) =>
      if !a.ok || a.uuid in w.dispatches then (w, Threw)
      else
        var d := NewDispatch(a.uuid, e, channel, w.now);
        (SaveDispatch(w, d), LogRequest(e, r, d))
    case LogRequest(e, r, d) =>
      if a.ok then (WriteLog(w, d.id, RequestLog, LogStatus.Processing), SaveSuccess(e, r, d)) else (w, Threw)
    case SaveSuccess(e, r, d) =>
      var done := MarkSuccess(d, a.uuid, w.now);
      if a.ok then (SaveDispatch(w, done), LogSuccess(e, r, done)) else Catch(w, e, r, done, a.error)
    case LogSuccess(e, r, d) =>
      if a.ok then (WriteLog(w, d.id, SuccessLog, LogStatus.Success), SaveCompleted(e, r, d))
      else Catch(w, e, r, d, a.error)
    case SaveCompleted(e, r, d) =>
      if a.ok then (SaveRequest(w, MarkCompleted(r, w.now)), Returned)
      else Catch(w, e, MarkCompleted(r, w.now), d, a.error)
    case SaveRetry(d) =>
      if a.ok then (SaveDispatch(w, d), LogRetry(d)) else (w, Threw)
    case LogRetry(d) =>
      if a.ok then (WriteLog(w, d.id, RetryLog, LogStatus.Failed), Returned) else (w, Threw)
    case SaveFailed(e, r, d) =>
      if a.ok then (SaveDispatch(w, d), LogFailed(e, r, d)) else (w, Threw)
    case LogFailed(e, r, d) =>
      if a.ok then (WriteLog(w, d.id, FailLog, LogStatus.Failed), SaveRequestFailed(e, r, d)) else (w, Threw)
    case SaveRequestFailed(e, r, d) =>
      if a.ok then (SaveRequest(w, r.(status := RequestStatus.Failed)), PublishDlq(e, d)) else (w, Threw)
    case PublishDlq(e, d) =>
      // A failed publish is logged and ignored.
      var item := DlqEvent(e, d.id, SendErrorCode(d.channelType),
                           match d.lastErrorMessage case Some(m) => m case None => "", d.retryCount);
      (w.(dlq := w.dlq + (if a.ok then [item] else [])), Returned)
    case Returned => (w, pc)
    case Threw => (w, pc)
  }

  /** `process` writes requests, dispatches and logs, and the dead-letter topic; it never publishes a send event. */
  lemma WorkerFrame(channel: Channel, w: World, pc: WorkerPc, a: Answer)
    ensures var w' := WorkerStep(channel, w, pc, a).0;
      w' == w.(requests := w'.requests, dispatches := w'.dispatches, logs := w'.logs, dlq := w'.dlq,
               failedAt := w'.failedAt)
  {
    hide LogsOf, HasSuccess, NewDispatch, MarkSuccess, OnFailure, CanRetry;
  }
}
