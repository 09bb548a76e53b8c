/** `OutboxRelayService`, one awaited call at a time. */
module Relay {
  import opened Domain
  import opened Events
  import opened World

  const BATCH := 100

  /** Where a run of the relay stands. */
  datatype RelayPc =
    | Fetch
    | Next(queue: seq<Outbox>)
    | Save(entry: Outbox, queue: seq<Outbox>)
    | Done

  /** A possible result of `find({ status: PENDING }, { createdAt: 'ASC' }, take 100)`: ties in any order. */
  ghost predicate IsPendingBatch(outbox: map<Id, Outbox>, rows: seq<Outbox>) {
    && |rows| <= BATCH
    && (forall i | 0 <= i < |rows| ::
          rows[i].id in outbox && rows[i] == outbox[rows[i].id] && rows[i].status == OutboxStatus.Pending)
    && (forall i, j | 0 <= i < j < |rows| :: rows[i].id != rows[j].id && rows[i].createdAt <= rows[j].createdAt)
    && (forall id | id in outbox && outbox[id].status == OutboxStatus.Pending ::
          || outbox[id] in rows
          || (|rows| == BATCH && forall i | 0 <= i < |rows| :: rows[i].createdAt <= outbox[id].createdAt))
  }

  /** `publishMessageSend` takes its key from the event, the other branch from the row. */
  function KeyFor(entry: Outbox): string {
    if entry.eventType == MessageRequestCreated then entry.payload.requestId else entry.eventKey
  }

  function RelayPublish(w: World, entry: Outbox, a: Answer): World {
    PublishKeyed(w, KeyFor(entry), entry.payload, a)
  }

  /** The entry in memory once its publish has returned or thrown. */
  function Attempted(entry: Outbox, now: Time, a: Answer): Outbox {
    if a.ok then entry.(status := OutboxStatus.Published, publishedAt := Some(now), errorMessage := None)
    else entry.(status := OutboxStatus.Failed, errorMessage := Some(a.error))
  }

  function Rank(pc: RelayPc): nat
    requires !pc.Fetch?
  {
    match pc
    case Next(q) => 2 * |q| + 1
    case Save(_, q) => 2 * |q| + 2
    case Done => 0
  }

  /** One awaited call of `relayPendingEvents` or `relayEvent`. The save is outside the try block: when it throws,
      the rest of the batch is abandoned. */
  ghost function RelayStep(w: World, pc: RelayPc, a: Answer): (r: (World, RelayPc))
    ensures !pc.Fetch? && !pc.Done? ==> !r.1.Fetch? && Rank(r.1) < Rank(pc)
  {
    match pc
    case Fetch => (w, if a.ok && IsPendingBatch(w.outbox, a.outboxRows) then Next(a.outboxRows) else Done)
    case Next(q) =>
      if q == [] then (w, Done)
      else (RelayPublish(w, q[0], a), Save(Attempted(q[0], w.now, a), q[1..]))
    case Save(entry, q) => if a.ok then (SaveOutbox(w, entry), Next(q)) else (w, Done)
    case Done => (w, Done)
  }

  /** The relay writes the topic and the outbox, nothing else. */
  lemma RelayFrame(w: World, pc: RelayPc, a: Answer)
    ensures var w' := RelayStep(w, pc, a).0; w' == w.(topic := w'.topic, outbox := w'.outbox)
    ensures !pc.Save? ==> RelayStep(w, pc, a).0.outbox == w.outbox
  {
    hide IsPendingBatch, Wire, KeyFor, Attempted, StoredOutbox, Copies;
  }
}
