/** `OutboxRelayService` as a program over the repositories, and the drain of the outbox. */
module RelayService {
  import opened Domain
  import opened Crypto
  import opened Events
  import opened World
  import opened Relay
  import opened Store
  import opened Pipeline

  /** The relay's steps without anybody in between, from one point to the end of the run. */
  ghost function RelayRun(w: World, pc: RelayPc, env: nat -> Answer, n: nat): World
    requires !pc.Fetch?
    decreases Rank(pc)
  {
    if pc.Done? then w
    else
      var (w', pc') := RelayStep(w, pc, env(n));
      RelayRun(w', pc', env, n + 1)
  }

  /** A run of the relay under way, stepped to its end. */
  lemma {:induction false} DriveRelay(c: Cipher, s: State, prefix: seq<Action>, id: nat, env: nat -> Answer, n: nat)
    returns (run: seq<Action>)
    requires var s1 := Exec(c, s, prefix); id in s1.relays && !s1.relays[id].Fetch?
    ensures var s1 := Exec(c, s, prefix);
      Exec(c, s, run) == s1.(w := RelayRun(s1.w, s1.relays[id], env, n), relays := s1.relays[id := Done])
    ensures NoGateway(prefix) ==> NoGateway(run)
    decreases Rank(Exec(c, s, prefix).relays[id])
  {
    hide Exec, RelayStep;
    var s1 := Exec(c, s, prefix);
    if s1.relays[id].Done? {
      run := prefix;
      assert s1.relays == s1.relays[id := Done];
    } else {
      var step := StepRelay(id, env(n));
      ExecMore(c, s, prefix, step);
      run := DriveRelay(c, s, prefix + [step], id, env, n + 1);
      assert Exec(c, s, prefix + [step]).relays[id := Done] == s1.relays[id := Done];
    }
  }

  /** A whole run: its query throws, or it returns this batch. */
  ghost function RelayCall(w: World, batch: seq<Outbox>, env: nat -> Answer): World {
    if env(0).ok then RelayRun(w, Next(batch), env, 1) else w
  }

  /** Such a run is a run of the pipeline: so everything proved of the pipeline's runs holds of the program below. */
  lemma RelayRunIsARun(c: Cipher, s: State, id: nat, batch: seq<Outbox>, env: nat -> Answer) returns (run: seq<Action>)
    requires id !in s.relays && (env(0).ok ==> IsPendingBatch(s.w.outbox, batch))
    ensures Exec(c, s, run) == s.(w := RelayCall(s.w, batch, env), relays := s.relays[id := Done])
    ensures NoGateway(run)
  {
    hide Exec, RelayRun, IsPendingBatch;
    var fetch := StepRelay(id, env(0).(outboxRows := batch));
    ExecNothing(c, s);
    ExecMore(c, s, [], StartRelay(id));
    ExecMore(c, s, [] + [StartRelay(id)], fetch);
    var s2 := Exec(c, s, [] + [StartRelay(id)] + [fetch]);
    run := DriveRelay(c, s, [] + [StartRelay(id)] + [fetch], id, env, 1);
    NothingToRun(s.w, env, 1);
    assert s2.relays[id := Done] == s.relays[id := Done];
  }

  lemma NothingToRun(w: World, env: nat -> Answer, n: nat)
    ensures RelayRun(w, Done, env, n) == w
  {
  }

  /** `relayPendingEvents`: the n-th awaited call is answered by env(n). The tables and the topic end as the steps of
      the pipeline's relay would leave them for some possible result of the query, if the query returns. */
  method RelayPendingEvents(store: Repositories, env: nat -> Answer) returns (ghost batch: seq<Outbox>)
    requires forall id | id in store.outbox :: store.outbox[id].id == id
    modifies store
    ensures env(0).ok ==> IsPendingBatch(old(store.outbox), batch)
    ensures store.W() == RelayCall(old(store.W()), batch, env)
  {
    hide RelayRun, IsPendingBatch;
    batch := [];
    if !env(0).ok { return; }
    var pending := store.FindPending();
    batch := pending;
    ghost var goal := RelayRun(store.W(), Next(pending), env, 1);
    var i := 0;
    var aborted := false;
    while i < |pending| && !aborted
      invariant i <= |pending|
      invariant !aborted ==> goal == RelayRun(store.W(), Next(pending[i..]), env, 2 * i + 1)
      invariant aborted ==> goal == store.W()
      decreases |pending| - i, !aborted
    {
      assert pending[i..] == [pending[i]] + pending[i + 1..];
      var saved := RelayEvent(store, pending[i], pending[i + 1..], env, 2 * i + 1);
      aborted := !saved;
      i := i + 1;
    }
    EmptyRun(store.W(), env, 2 * i + 1);
    assert !aborted ==> pending[i..] == [];
  }

  lemma EmptyRun(w: World, env: nat -> Answer, n: nat)
    ensures RelayRun(w, Next([]), env, n) == w
  {
    assert RelayRun(w, Next([]), env, n) == RelayRun(w, Done, env, n + 1);
  }

  /** `relayEvent`: publish, then save the outcome; it throws when that save does. The payload goes under its own key
      or under the row's, the row is PUBLISHED as of now with no error, or FAILED with the error of its publish. */
  method RelayEvent(store: Repositories, row: Outbox, ghost rest: seq<Outbox>, env: nat -> Answer, n: nat)
    returns (saved: bool)
    modifies store
    ensures var goal := RelayRun(old(store.W()), Next([row] + rest), env, n);
      if saved then goal == RelayRun(store.W(), Next(rest), env, n + 2) else goal == store.W()
    ensures saved == env(n + 1).ok && store.W() == old(store.W()).(topic := store.topic, outbox := store.outbox)
    ensures store.topic == old(store.topic)
      + Copies(Message(if row.eventType == MessageRequestCreated then row.payload.requestId else row.eventKey, Wire(row.payload)), env(n))
    ensures store.outbox ==
      if saved then
        old(store.outbox)[row.id := StoredOutbox(
          if env(n).ok then row.(status := OutboxStatus.Published, publishedAt := Some(old(store.now)), errorMessage := None)
          else row.(status := OutboxStatus.Failed, errorMessage := Some(env(n).error)))]
      else old(store.outbox)
  {
    var entry := row;
    ghost var queue := [row] + rest;
    assert queue[0] == row && queue[1..] == rest;
    ghost var w := store.W();
    var published;
    if entry.eventType == MessageRequestCreated {
      published := store.PublishMessage(entry.payload.requestId, entry.payload, env(n));
    } else {
      published := store.PublishMessage(entry.eventKey, entry.payload, env(n));
    }
    assert store.W() == RelayPublish(w, row, env(n));
    if published {
      entry := entry.(status := OutboxStatus.Published, publishedAt := Some(store.now), errorMessage := None);
    } else {
      entry := entry.(status := OutboxStatus.Failed, errorMessage := Some(env(n).error));
    }
    ghost var w1 := store.W();
    assert RelayRun(w, Next(queue), env, n) == RelayRun(w1, Save(entry, rest), env, n + 1);
    saved := store.SaveOutboxRow(entry, env(n + 1));
    assert !saved ==> RelayRun(w1, Save(entry, rest), env, n + 1) == RelayRun(w1, Done, env, n + 2);
  }

  // ---------------------------------------------------------------- draining the outbox

  /** One entry attempted and its outcome saved. */
  function RelayEntry(w: World, entry: Outbox, a: Answer): World {
    SaveOutbox(RelayPublish(w, entry, a), Attempted(entry, w.now, a))
  }

  /** A batch attempted in order; outcomes[i] answers the i-th publish. */
  function RelayAll(w: World, batch: seq<Outbox>, outcomes: seq<Answer>): World
    requires |outcomes| == |batch|
    decreases |batch|
  {
    if batch == [] then w else RelayAll(RelayEntry(w, batch[0], outcomes[0]), batch[1..], outcomes[1..])
  }

  /** With its save taking effect, an entry is attempted and the run goes on. */
  lemma EntryWithSave(w: World, batch: seq<Outbox>, env: nat -> Answer, n: nat)
    requires batch != [] && env(n + 1).ok
    ensures RelayRun(w, Next(batch), env, n) == RelayRun(RelayEntry(w, batch[0], env(n)), Next(batch[1..]), env, n + 2)
  {
    hide RelayPublish, Attempted, SaveOutbox;
    var w1, entry := RelayPublish(w, batch[0], env(n)), Attempted(batch[0], w.now, env(n));
    assert RelayStep(w, Next(batch), env(n)) == (w1, Save(entry, batch[1..]));
    assert RelayStep(w1, Save(entry, batch[1..]), env(n + 1)) == (SaveOutbox(w1, entry), Next(batch[1..]));
    assert RelayRun(w1, Save(entry, batch[1..]), env, n + 1) == RelayRun(SaveOutbox(w1, entry), Next(batch[1..]), env, n + 2);
  }

  /** From the n-th awaited call on, the publishes are answered as listed and the saves take effect. */
  ghost predicate Answered(env: nat -> Answer, n: nat, outcomes: seq<Answer>) {
    forall i: nat | i < |outcomes| :: outcomes[i] == env(n + 2 * i) && env(n + 2 * i + 1).ok
  }

  lemma AnsweredNext(env: nat -> Answer, n: nat, outcomes: seq<Answer>)
    requires Answered(env, n, outcomes) && outcomes != []
    ensures env(n) == outcomes[0] && env(n + 1).ok && Answered(env, n + 2, outcomes[1..])
  {
    assert outcomes[0] == env(n + 2 * 0) && env(n + 2 * 0 + 1).ok;
    forall i: nat | i < |outcomes[1..]| ensures outcomes[1..][i] == env(n + 2 + 2 * i) && env(n + 2 + 2 * i + 1).ok {
      assert outcomes[i + 1] == env(n + 2 * (i + 1)) && env(n + 2 * (i + 1) + 1).ok;
    }
  }

  /** With every save taking effect, a run attempts each entry of its batch in order. */
  lemma {:induction false} RunWithSaves(w: World, batch: seq<Outbox>, outcomes: seq<Answer>, env: nat -> Answer, n: nat)
    requires |outcomes| == |batch| && Answered(env, n, outcomes)
    ensures RelayRun(w, Next(batch), env, n) == RelayAll(w, batch, outcomes)
    decreases |batch|
  {
    hide Answered, RelayEntry;
    hide RelayRun;
    if batch == [] {
      EmptyRun(w, env, n);
    } else {
      AnsweredNext(env, n, outcomes);
      EntryWithSave(w, batch, env, n);
      RunWithSaves(RelayEntry(w, batch[0], outcomes[0]), batch[1..], outcomes[1..], env, n + 2);
    }
  }

  /** A save that throws ends the run: the entries before it are attempted and saved, its own is published and not
      saved, and those behind it are not touched. */
  lemma {:induction false} RunAborts(w: World, batch: seq<Outbox>, outcomes: seq<Answer>, env: nat -> Answer, n: nat)
    requires |outcomes| < |batch| && Answered(env, n, outcomes) && !env(n + 2 * |outcomes| + 1).ok
    ensures RelayRun(w, Next(batch), env, n)
         == RelayPublish(RelayAll(w, batch[..|outcomes|], outcomes), batch[|outcomes|], env(n + 2 * |outcomes|))
    decreases |outcomes|
  {
    hide Answered, RelayEntry, RelayRun, RelayPublish;
    if outcomes == [] {
      PublishedOnly(w, batch, env, n);
    } else {
      AnsweredNext(env, n, outcomes);
      EntryWithSave(w, batch, env, n);
      RunAborts(RelayEntry(w, batch[0], outcomes[0]), batch[1..], outcomes[1..], env, n + 2);
      assert batch[..|outcomes|][1..] == batch[1..][..|outcomes[1..]|];
    }
  }

  lemma PublishedOnly(w: World, batch: seq<Outbox>, env: nat -> Answer, n: nat)
    requires batch != [] && !env(n + 1).ok
    ensures RelayRun(w, Next(batch), env, n) == RelayPublish(w, batch[0], env(n))
  {
    hide RelayPublish, Attempted, SaveOutbox;
    var w1, entry := RelayPublish(w, batch[0], env(n)), Attempted(batch[0], w.now, env(n));
    assert RelayStep(w, Next(batch), env(n)) == (w1, Save(entry, batch[1..]));
    assert RelayStep(w1, Save(entry, batch[1..]), env(n + 1)) == (w1, Done);
    assert RelayRun(w1, Save(entry, batch[1..]), env, n + 1) == RelayRun(w1, Done, env, n + 2);
  }

  /** What a batch leaves on the topic: each payload in turn, at least once where its publish succeeded. */
  function Sent(batch: seq<Outbox>, outcomes: seq<Answer>): seq<Message>
    requires |outcomes| == |batch|
  {
    if batch == [] then []
    else Copies(Message(KeyFor(batch[0]), Wire(batch[0].payload)), outcomes[0]) + Sent(batch[1..], outcomes[1..])
  }

  function Pending(outbox: map<Id, Outbox>): set<Id> {
    set id | id in outbox && outbox[id].status == OutboxStatus.Pending
  }

  function Ids(rows: seq<Outbox>): set<Id> {
    if rows == [] then {} else {rows[0].id} + Ids(rows[1..])
  }

  /** The table keeps each row under its primary key. */
  ghost predicate Keyed(outbox: map<Id, Outbox>) {
    forall id | id in outbox :: outbox[id].id == id
  }

  /** No row twice. */
  ghost predicate Distinct(rows: seq<Outbox>) {
    rows == [] || (rows[0].id !in Ids(rows[1..]) && Distinct(rows[1..]))
  }

  lemma {:induction false} IdsOf(rows: seq<Outbox>, id: Id)
    ensures id in Ids(rows) <==> exists i :: 0 <= i < |rows| && rows[i].id == id
  {
    if rows != [] {
      IdsOf(rows[1..], id);
      if id in Ids(rows[1..]) {
        var i :| 0 <= i < |rows[1..]| && rows[1..][i].id == id;
        assert rows[i + 1].id == id;
      }
      if i :| 0 < i < |rows| && rows[i].id == id {
        assert rows[1..][i - 1].id == id;
      }
    }
  }

  lemma {:induction false} PairwiseDistinct(rows: seq<Outbox>)
    requires forall i, j | 0 <= i < j < |rows| :: rows[i].id != rows[j].id
    ensures Distinct(rows) && |Ids(rows)| == |rows|
  {
    if rows != [] {
      PairwiseDistinct(rows[1..]);
      IdsOf(rows[1..], rows[0].id);
    }
  }

  lemma EntryAttempted(w: World, entry: Outbox, a: Answer)
    requires Keyed(w.outbox)
    ensures var w' := RelayEntry(w, entry, a);
      && Keyed(w'.outbox) && w'.outbox.Keys == w.outbox.Keys + {entry.id}
      && (forall id | id in w.outbox && id != entry.id :: w'.outbox[id] == w.outbox[id])
      && w'.outbox[entry.id].status != OutboxStatus.Pending
      && w'.topic == w.topic + Copies(Message(KeyFor(entry), Wire(entry.payload)), a)
  {
    var w1 := RelayPublish(w, entry, a);
    assert w1 == w.(topic := w.topic + Copies(Message(KeyFor(entry), Wire(entry.payload)), a));
  }

  lemma {:induction false} BatchFrame(w: World, batch: seq<Outbox>, outcomes: seq<Answer>)
    requires |outcomes| == |batch|
    ensures var w' := RelayAll(w, batch, outcomes); w' == w.(topic := w'.topic, outbox := w'.outbox)
    decreases |batch|
  {
    hide Wire, KeyFor, Copies, Attempted, StoredOutbox;
    if batch != [] { BatchFrame(RelayEntry(w, batch[0], outcomes[0]), batch[1..], outcomes[1..]); }
  }

  /** A payload whose publish returned is among what was sent. */
  lemma {:induction false} SentHas(batch: seq<Outbox>, outcomes: seq<Answer>, i: nat) returns (j: nat)
    requires |outcomes| == |batch| && i < |batch| && outcomes[i].ok
    ensures j < |Sent(batch, outcomes)| && Sent(batch, outcomes)[j].key == KeyFor(batch[i])
  {
    hide Wire, KeyFor;
    var first := Copies(Message(KeyFor(batch[0]), Wire(batch[0].payload)), outcomes[0]);
    if i == 0 {
      j := 0;
    } else {
      var k := SentHas(batch[1..], outcomes[1..], i - 1);
      j := |first| + k;
      assert batch[1..][i - 1] == batch[i];
    }
  }

  /** A batch leaves its own rows attempted, every other row alone, and its payloads on the topic. */
  lemma {:induction false} BatchAttempted(w: World, batch: seq<Outbox>, outcomes: seq<Answer>)
    requires |outcomes| == |batch| && Distinct(batch) && Keyed(w.outbox)
    ensures var w' := RelayAll(w, batch, outcomes);
      && Keyed(w'.outbox) && w'.outbox.Keys == w.outbox.Keys + Ids(batch)
      && (forall id | id in w.outbox && id !in Ids(batch) :: w'.outbox[id] == w.outbox[id])
      && (forall id | id in Ids(batch) :: w'.outbox[id].status != OutboxStatus.Pending)
      && w'.topic == w.topic + Sent(batch, outcomes)
    decreases |batch|
  {
    hide RelayEntry, Copies, Wire, KeyFor;
    if batch != [] {
      EntryAttempted(w, batch[0], outcomes[0]);
      BatchAttempted(RelayEntry(w, batch[0], outcomes[0]), batch[1..], outcomes[1..]);
    }
  }

  /** A possible query result is made of distinct pending rows, and of all of them when there are fewer than a
      hundred. */
  lemma BatchIds(outbox: map<Id, Outbox>, batch: seq<Outbox>)
    requires Keyed(outbox) && IsPendingBatch(outbox, batch)
    ensures Distinct(batch) && Ids(batch) <= Pending(outbox) && |Ids(batch)| == |batch| <= BATCH
    ensures |batch| < BATCH ==> Ids(batch) == Pending(outbox)
  {
    hide Ids, Distinct;
    PairwiseDistinct(batch);
    forall id ensures id in Ids(batch) ==> id in Pending(outbox) { IdsOf(batch, id); }
    if |batch| < BATCH {
      forall id | id in Pending(outbox) ensures id in Ids(batch) {
        assert outbox[id] in batch;
        IdsOf(batch, id);
      }
    }
  }

  /** A run over a possible query result takes the hundred oldest pending rows, or all of them. */
  lemma RunShrinks(w: World, batch: seq<Outbox>, outcomes: seq<Answer>)
    requires |outcomes| == |batch| && Keyed(w.outbox) && IsPendingBatch(w.outbox, batch)
    ensures var w' := RelayAll(w, batch, outcomes);
      && Keyed(w'.outbox) && Distinct(batch) && Ids(batch) <= Pending(w.outbox)
      && Pending(w'.outbox) == Pending(w.outbox) - Ids(batch)
      && |Pending(w'.outbox)| == (if |Pending(w.outbox)| <= 100 then 0 else |Pending(w.outbox)| - 100)
  {
    hide RelayAll, Keyed, IsPendingBatch, Ids, Distinct, Sent;
    BatchIds(w.outbox, batch);
    BatchAttempted(w, batch, outcomes);
    SizeAfter(Pending(w.outbox), Ids(batch));
  }

  lemma SizeAfter(pending: set<Id>, taken: set<Id>)
    requires taken <= pending && |taken| <= BATCH && (|taken| < BATCH ==> taken == pending)
    ensures |pending - taken| == (if |pending| <= BATCH then 0 else |pending| - BATCH)
  {
    assert pending == taken + (pending - taken);
  }

  /** One run of the relay: what its query returned and how its publishes went. */
  datatype Run = Run(batch: seq<Outbox>, outcomes: seq<Answer>)

  /** The world after a number of runs, saves taking effect and no new sends in between. */
  function After(w: World, runs: seq<Run>): World
    requires forall i | 0 <= i < |runs| :: |runs[i].outcomes| == |runs[i].batch|
  {
    if runs == [] then w
    else
      var n := |runs| - 1;
      RelayAll(After(w, runs[..n]), runs[n].batch, runs[n].outcomes)
  }

  /** Every run works on a possible result of its query. */
  ghost predicate Proper(w: World, runs: seq<Run>) {
    && (forall i | 0 <= i < |runs| :: |runs[i].outcomes| == |runs[i].batch|)
    && (runs == [] ||
        var n := |runs| - 1;
        Proper(w, runs[..n]) && IsPendingBatch(After(w, runs[..n]).outbox, runs[n].batch))
  }

  /** All rows attempted, in order. */
  function Attempts(runs: seq<Run>): seq<Outbox> {
    if runs == [] then [] else Attempts(runs[..|runs| - 1]) + runs[|runs| - 1].batch
  }

  /** All messages sent, in order. */
  function AllSent(runs: seq<Run>): seq<Message>
    requires forall i | 0 <= i < |runs| :: |runs[i].outcomes| == |runs[i].batch|
  {
    if runs == [] then []
    else
      var last := runs[|runs| - 1];
      AllSent(runs[..|runs| - 1]) + Sent(last.batch, last.outcomes)
  }

  function Left(pending: nat, runs: nat): nat {
    if pending <= 100 * runs then 0 else pending - 100 * runs
  }

  /** After k runs that attempted these rows: what is still pending. */
  ghost predicate StillPending(w: World, w': World, k: nat, rows: seq<Outbox>) {
    && Keyed(w'.outbox) && |Pending(w'.outbox)| == Left(|Pending(w.outbox)|, k)
    && Pending(w'.outbox) == Pending(w.outbox) - Ids(rows) && Ids(rows) <= Pending(w.outbox) && Distinct(rows)
  }

  /** The attempted rows were the original ones, oldest first, and none is younger than a row still pending. */
  ghost predicate OldestFirst(w: World, w': World, rows: seq<Outbox>) {
    && (forall id | id in Pending(w'.outbox) :: id in w.outbox && w'.outbox[id] == w.outbox[id])
    && (forall i | 0 <= i < |rows| :: rows[i].id in w.outbox && rows[i] == w.outbox[rows[i].id])
    && (forall i, j | 0 <= i < j < |rows| :: rows[i].createdAt <= rows[j].createdAt)
    && (forall i, id | 0 <= i < |rows| && id in Pending(w'.outbox) :: rows[i].createdAt <= w'.outbox[id].createdAt)
  }

  lemma {:induction false} IdsJoin(a: seq<Outbox>, b: seq<Outbox>)
    ensures Ids(a + b) == Ids(a) + Ids(b)
    ensures Distinct(a) && Distinct(b) && Ids(a) !! Ids(b) ==> Distinct(a + b)
  {
    if a == [] {
      assert a + b == b;
    } else {
      IdsJoin(a[1..], b);
      assert (a + b)[0] == a[0] && (a + b)[1..] == a[1..] + b;
    }
  }

  /** One more run takes its batch from what was pending. */
  lemma PendingStep(w: World, before: World, k: nat, rows: seq<Outbox>, batch: seq<Outbox>, outcomes: seq<Answer>)
    requires StillPending(w, before, k, rows) && |outcomes| == |batch| && IsPendingBatch(before.outbox, batch)
    ensures StillPending(w, RelayAll(before, batch, outcomes), k + 1, rows + batch)
  {
    hide Keyed, RelayAll, Distinct, Ids, Pending, IsPendingBatch;
    RunShrinks(before, batch, outcomes);
    IdsJoin(rows, batch);
  }

  /** The rows of the next batch are unchanged originals, no older than any row attempted before them, and no
      younger than any row still pending. */
  lemma BatchStep(w: World, before: World, after: World, rows: seq<Outbox>, batch: seq<Outbox>)
    requires IsPendingBatch(before.outbox, batch) && Keyed(before.outbox) && OldestFirst(w, before, rows)
    requires Pending(after.outbox) == Pending(before.outbox) - Ids(batch)
    requires forall id | id in before.outbox && id !in Ids(batch) :: id in after.outbox && after.outbox[id] == before.outbox[id]
    ensures OldestFirst(w, after, rows + batch)
  {
    forall i | 0 <= i < |batch| ensures batch[i].id in Pending(before.outbox) {}
    forall i, id | 0 <= i < |batch| && id in Pending(after.outbox) ensures batch[i].createdAt <= after.outbox[id].createdAt {
      if before.outbox[id] in batch {
        var k :| 0 <= k < |batch| && batch[k] == before.outbox[id];
        IdsOf(batch, id);
      }
    }
  }

  lemma OrderStep(w: World, before: World, rows: seq<Outbox>, batch: seq<Outbox>, outcomes: seq<Answer>)
    requires OldestFirst(w, before, rows)
    requires Keyed(before.outbox) && |outcomes| == |batch| && IsPendingBatch(before.outbox, batch)
    ensures var after := RelayAll(before, batch, outcomes);
      OldestFirst(w, after, rows + batch) && after.topic == before.topic + Sent(batch, outcomes)
  {
    hide RelayAll, Pending, Ids, OldestFirst, Keyed, Distinct, Sent;
    RunShrinks(before, batch, outcomes);
    BatchAttempted(before, batch, outcomes);
    BatchStep(w, before, RelayAll(before, batch, outcomes), rows, batch);
  }

  /** Outbox drain: with n rows PENDING, no new sends and saves taking effect, k runs leave exactly
      max(0, n - 100 k) of them PENDING, so ceil(n / 100) leave none; no row is attempted twice, every row that
      is no longer PENDING was attempted, in `createdAt` order, and the topic has grown by exactly the messages
      of those attempts in that order. */
  lemma {:induction false} OutboxDrains(w: World, runs: seq<Run>)
    requires Keyed(w.outbox) && Proper(w, runs)
    ensures StillPending(w, After(w, runs), |runs|, Attempts(runs)) && OldestFirst(w, After(w, runs), Attempts(runs))
    ensures After(w, runs).topic == w.topic + AllSent(runs)
    ensures |Pending(w.outbox)| <= 100 * |runs| ==>
      Pending(After(w, runs).outbox) == {} && Ids(Attempts(runs)) == Pending(w.outbox)
    decreases |runs|
  {
    hide StillPending, OldestFirst, Keyed, RelayAll, Sent, IsPendingBatch, Pending, Ids;
    if runs == [] {
      NothingDrained(w);
    } else {
      var n := |runs| - 1;
      var before, last := After(w, runs[..n]), runs[n];
      OutboxDrains(w, runs[..n]);
      PendingStep(w, before, n, Attempts(runs[..n]), last.batch, last.outcomes);
      StillKeyed(w, before, n, Attempts(runs[..n]));
      OrderStep(w, before, Attempts(runs[..n]), last.batch, last.outcomes);
    }
    AllDrained(w, After(w, runs), |runs|, Attempts(runs));
  }

  lemma NothingDrained(w: World)
    requires Keyed(w.outbox)
    ensures StillPending(w, w, 0, []) && OldestFirst(w, w, [])
  {
  }

  lemma StillKeyed(w: World, w': World, k: nat, rows: seq<Outbox>)
    requires StillPending(w, w', k, rows)
    ensures Keyed(w'.outbox)
  {
  }

  lemma AllDrained(w: World, w': World, k: nat, rows: seq<Outbox>)
    requires StillPending(w, w', k, rows)
    ensures |Pending(w.outbox)| <= 100 * k ==> Pending(w'.outbox) == {} && Ids(rows) == Pending(w.outbox)
  {
    hide Pending, Ids, Keyed, Distinct;
  }
}
