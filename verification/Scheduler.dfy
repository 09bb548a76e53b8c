/** `RetrySchedulerService`, one awaited call at a time. */
module Scheduler {
  import opened Domain
  import opened Events
  import opened World

  const BATCH := 100

  /** Where a run of the scheduler stands. */
  datatype SchedPc =
    | Fetch
    | Next(queue: seq<Dispatch>)
    | ReadPayload(dispatch: Dispatch, request: Option<Request>, queue: seq<Dispatch>)
    | ReadRecipient(dispatch: Dispatch, request: Option<Request>, payload: Option<Payload>, queue: seq<Dispatch>)
    | Publish(dispatch: Dispatch, event: Event, queue: seq<Dispatch>)
    | Save(dispatch: Dispatch, queue: seq<Dispatch>)
    | Done

  predicate Due(d: Dispatch, now: Time) {
    d.status == DispatchStatus.RetryWait && d.nextRetryAt.Some? && d.nextRetryAt.value <= now
  }

  /** A possible result of `find({ status: RETRY_WAIT, nextRetryAt <= now }, take 100)`. */
  ghost predicate IsRetryBatch(w: World, rows: seq<Dispatch>) {
    && |rows| <= BATCH
    && (forall i | 0 <= i < |rows| ::
          rows[i].id in w.dispatches && rows[i] == w.dispatches[rows[i].id] && Due(rows[i], w.now))
    && (forall i, j | 0 <= i < j < |rows| :: rows[i].id != rows[j].id)
    && (forall id | id in w.dispatches && Due(w.dispatches[id], w.now) :: w.dispatches[id] in rows || |rows| == BATCH)
  }

  function Reschedule(d: Dispatch, now: Time): Dispatch {
    d.(status := DispatchStatus.Processing, processingAt := Some(now), nextRetryAt := None)
  }

  function MarkMissing(d: Dispatch, now: Time): Dispatch {
    d.(status := DispatchStatus.Failed, failedAt := Some(now))
  }

  function Rank(pc: SchedPc): nat
    requires !pc.Fetch?
  {
    match pc
    case Next(q) => 5 * |q| + 1
    case ReadPayload(_, _, q) => 5 * |q| + 5
    case ReadRecipient(_, _, _, q) => 5 * |q| + 4
    case Publish(_, _, q) => 5 * |q| + 3
    case Save(_, q) => 5 * |q| + 2
    case Done => 0
  }

  /** One awaited call of `retryPendingDispatches` or `retryDispatch`. Whatever throws for one dispatch is logged
      and the next one is taken. */
  ghost function SchedStep(w: World, pc: SchedPc, a: Answer): (r: (World, SchedPc))
    ensures !pc.Fetch? && !pc.Done? ==> !r.1.Fetch? && Rank(r.1) < Rank(pc)
  {
    match pc
    case Fetch => (w, if a.ok && IsRetryBatch(w, a.dispatchRows) then Next(a.dispatchRows) else Done)
    case Next(q) =>
      if q == [] then (w, Done)
      else if !a.ok then (w, Next(q[1..]))
      else (w, ReadPayload(q[0], Lookup(w.requests, q[0].messageRequestId), q[1..]))
    case ReadPayload(d, request, q) =>
      (w, if a.ok then ReadRecipient(d, request, FindPayload(w, d.messageRequestId), q) else Next(q))
    case ReadRecipient(d, request, payload, q) =>
      var recipient := Lookup(w.recipients, d.recipientId);
      if !a.ok then (w, Next(q))
      else if request.None? || payload.None? || recipient.None? then (w, Save(MarkMissing(d, w.now), q))
      else (w, Publish(d, RetryEvent(request.value, payload.value, recipient.value), q))
    case Publish(d, e, q) =>
      (PublishSend(w, e, a), if a.ok then Save(Reschedule(d, w.now), q) else Next(q))
    case Save(d, q) => (if a.ok then SaveDispatch(w, d) else w, Next(q))
    case Done => (w, Done)
  }

  /** The scheduler writes the topic and dispatch rows, nothing else. */
  lemma SchedFrame(w: World, pc: SchedPc, a: Answer)
    ensures var w' := SchedStep(w, pc, a).0; w' == w.(topic := w'.topic, dispatches := w'.dispatches)
  {
  }
}
