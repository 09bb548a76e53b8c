/** Every committed request was asked for by a client that might use its template. */
module Vetting {
  import opened Domain
  import opened Crypto
  import opened Events
  import opened Templates
  import opened World
  import opened Gateway
  import opened Pipeline
  import opened Invariants
  import opened Theorems
  import Actors
  import Safety
  import Relay
  import Scheduler
  import Steps

  /** Step n of the run answers this call, at this point, without an error. */
  ghost predicate Answered(c: Cipher, run: seq<Action>, n: nat, call: nat, pc: SendPc) {
    && n < |run| && run[n].StepSend? && run[n].call == call && run[n].answer.ok
    && var s := Exec(c, INITIAL, run[..n]); call in s.sends && s.sends[call] == pc
  }

  /** The step of the run that took a call to the point where it stands. */
  ghost predicate TookTo(c: Cipher, run: seq<Action>, n: nat, call: nat, pc: SendPc) {
    && n < |run|
    && (pc.Start? ==> run[n] == StartSend(call, pc.clientAppId, pc.dto))
    && (!pc.Start? ==>
          && run[n].StepSend? && run[n].call == call
          && var s := Exec(c, INITIAL, run[..n]);
          call in s.sends && s.sends[call] != pc && SendStep(c, s.w, s.sends[call], run[n].answer).1 == pc)
  }

  lemma LastAction(c: Cipher, s: State, action: Action, call: nat, pc: SendPc)
    requires var s' := Apply(c, s, action); call in s'.sends && s'.sends[call] == pc
    requires !(call in s.sends && s.sends[call] == pc)
    ensures pc.Start? ==> action == StartSend(call, pc.clientAppId, pc.dto)
    ensures !pc.Start? ==>
      && action.StepSend? && action.call == call && call in s.sends
      && SendStep(c, s.w, s.sends[call], action.answer).1 == pc
  {
    hide LaneStep, Relay.RelayStep, Scheduler.SchedStep, CommitRows, CanCommit, FindRequest, FindPayload,
         FindRecipient, ResendEvent,
         NewRequest, NewOutbox, ToResponse;
  }

  lemma {:induction false} WhoTookTo(c: Cipher, run: seq<Action>, call: nat, pc: SendPc) returns (n: nat)
    requires var s := Exec(c, INITIAL, run); call in s.sends && s.sends[call] == pc
    ensures TookTo(c, run, n, call, pc)
    decreases |run|
  {
    hide Apply, SendStep;
    assert run != [];
    var k := |run| - 1;
    var s := Exec(c, INITIAL, run[..k]);
    if call in s.sends && s.sends[call] == pc {
      n := WhoTookTo(c, run[..k], call, pc);
      assert run[..k][..n] == run[..n];
    } else {
      n := k;
      LastAction(c, s, run[k], call, pc);
    }
  }

  // ---------------------------------------------------------------- from the transaction back to the client

  /** The point a call stands at before one of these. */
  lemma BeforeCommit(c: Cipher, w: World, pc: SendPc, a: Answer, client: Id, dto: SendDto, t: Template)
    requires SendStep(c, w, pc, a).1 == Commit(client, dto, t) && pc != Commit(client, dto, t)
    ensures a.ok && a.valid && pc == ReadVariables(client, dto, t)
  {
    hide CommitRows, CanCommit, FindRequest, FindPayload, FindRecipient, ResendEvent, NewRequest, NewOutbox,
         ToResponse, FindActive, FindAccess;
  }

  lemma BeforeVariables(c: Cipher, w: World, pc: SendPc, a: Answer, client: Id, dto: SendDto, t: Template)
    requires SendStep(c, w, pc, a).1 == ReadVariables(client, dto, t) && pc != ReadVariables(client, dto, t)
    ensures a.ok
    ensures if pc.CheckAccess? then pc == CheckAccess(client, dto, t) && Access(client, t.id, true) in a.catalog.accesses
            else && pc == FindTemplate(client, dto) && t.scope == Public && t in a.catalog.templates && t.isActive
                 && t.templateCode == dto.templateCode
  {
    hide CommitRows, CanCommit, FindRequest, FindPayload, FindRecipient, ResendEvent, NewRequest, NewOutbox,
         ToResponse, FindActive, FindAccess;
  }

  lemma BeforeAccess(c: Cipher, w: World, pc: SendPc, a: Answer, client: Id, dto: SendDto, t: Template)
    requires SendStep(c, w, pc, a).1 == CheckAccess(client, dto, t) && pc != CheckAccess(client, dto, t)
    ensures a.ok && pc == FindTemplate(client, dto) && t in a.catalog.templates && t.isActive && t.templateCode == dto.templateCode
  {
    hide CommitRows, CanCommit, FindRequest, FindPayload, FindRecipient, ResendEvent, NewRequest, NewOutbox,
         ToResponse, FindActive, FindAccess;
  }

  lemma BeforeTemplate(c: Cipher, w: World, pc: SendPc, a: Answer, client: Id, dto: SendDto)
    requires SendStep(c, w, pc, a).1 == FindTemplate(client, dto) && pc != FindTemplate(client, dto)
    ensures a.ok && pc == Start(client, dto) && forall r | r in w.requests :: w.requests[r].requestId != dto.requestId
  {
    hide CommitRows, CanCommit, FindRequest, FindPayload, FindRecipient, ResendEvent, NewRequest, NewOutbox,
         ToResponse, FindActive, FindAccess;
  }

  /** The template was found, for this body, in the answer to a step of this call. */
  ghost predicate Found(c: Cipher, run: seq<Action>, n: nat, call: nat, client: Id, dto: SendDto, t: Template) {
    && Answered(c, run, n, call, FindTemplate(client, dto))
    && t in run[n].answer.catalog.templates && t.isActive && t.templateCode == dto.templateCode
  }

  /** The client was found allowed to use it, in the answer to a step of this call. */
  ghost predicate Granted(c: Cipher, run: seq<Action>, n: nat, call: nat, client: Id, dto: SendDto, t: Template) {
    Answered(c, run, n, call, CheckAccess(client, dto, t)) && Access(client, t.id, true) in run[n].answer.catalog.accesses
  }

  /** Its variables were found to fit. */
  ghost predicate Validated(c: Cipher, run: seq<Action>, n: nat, call: nat, client: Id, dto: SendDto, t: Template) {
    Answered(c, run, n, call, ReadVariables(client, dto, t)) && run[n].answer.valid
  }

  /** Whatever was true of a step of a beginning of the run is true of the step. */
  lemma Earlier(c: Cipher, run: seq<Action>, k: nat, n: nat, call: nat, pc: SendPc)
    requires k <= |run| && n < k
    ensures Answered(c, run[..k], n, call, pc) <==> Answered(c, run, n, call, pc)
    ensures run[..k][n] == run[n]
  {
    hide Exec;
    assert run[..k][..n] == run[..n];
  }

  /** A call that is past the access check has found its template, and that it may use it. */
  lemma PastAccess(c: Cipher, run: seq<Action>, call: nat, client: Id, dto: SendDto, t: Template) returns (found: nat, granted: nat)
    requires var s := Exec(c, INITIAL, run); call in s.sends && s.sends[call] == ReadVariables(client, dto, t)
    ensures Found(c, run, found, call, client, dto, t)
    ensures t.scope == Public || (Granted(c, run, granted, call, client, dto, t) && found < granted)
  {
    hide Exec, SendStep;
    var n := WhoTookTo(c, run, call, ReadVariables(client, dto, t));
    var s := Exec(c, INITIAL, run[..n]);
    BeforeVariables(c, s.w, s.sends[call], run[n].answer, client, dto, t);
    found, granted := n, n;
    if s.sends[call].CheckAccess? {
      found := WhoTookTo(c, run[..n], call, CheckAccess(client, dto, t));
      assert run[..n][..found] == run[..found];
      var s0 := Exec(c, INITIAL, run[..found]);
      BeforeAccess(c, s0.w, s0.sends[call], run[found].answer, client, dto, t);
    }
  }

  /** A call that has found its template was started by a client with this body. */
  lemma PastStart(c: Cipher, run: seq<Action>, call: nat, client: Id, dto: SendDto) returns (started: nat)
    requires var s := Exec(c, INITIAL, run); call in s.sends && s.sends[call] == FindTemplate(client, dto)
    ensures started < |run| && run[started] == StartSend(call, client, dto)
  {
    hide Exec, SendStep;
    var n := WhoTookTo(c, run, call, FindTemplate(client, dto));
    var s := Exec(c, INITIAL, run[..n]);
    BeforeTemplate(c, s.w, s.sends[call], run[n].answer, client, dto);
    started := WhoTookTo(c, run[..n], call, Start(client, dto));
  }

  // ---------------------------------------------------------------- the transaction

  /** Step n of the run committed the request. */
  ghost predicate CommittedAt(c: Cipher, run: seq<Action>, n: nat, call: nat, t: Template, r: Id, o: Origin) {
    && Answered(c, run, n, call, Commit(o.clientAppId, o.dto, t))
    && o.templateId == t.id && o.templateCode == t.templateCode && o.at == Exec(c, INITIAL, run[..n]).w.now
    && run[n].answer.tx == TxIds(r, o.payloadId, o.recipientId, o.outboxId)
  }

  lemma SendAdds(c: Cipher, w: World, pc: SendPc, a: Answer, r: Id)
    requires r !in w.origin && r in SendStep(c, w, pc, a).0.origin
    ensures a.ok && pc.Commit?
    ensures var o := SendStep(c, w, pc, a).0.origin[r];
      && o.clientAppId == pc.clientAppId && o.dto == pc.dto && o.templateId == pc.template.id && o.templateCode == pc.template.templateCode
      && o.at == w.now && a.tx == TxIds(r, o.payloadId, o.recipientId, o.outboxId)
  {
    hide FindRequest, FindPayload, FindRecipient, ResendEvent, NewRequest, NewOutbox, NewPayload, NewRecipient,
         StoredRequest,
         StoredOutbox, StoredPayload, StoredRecipient, ToResponse, Wire, CanCommit, FindActive, FindAccess;
  }

  lemma OnlyCommitAdds(c: Cipher, s: State, action: Action, r: Id)
    requires r !in s.w.origin && r in Apply(c, s, action).w.origin
    ensures action.StepSend? && action.call in s.sends && action.answer.ok && s.sends[action.call].Commit?
    ensures var pc, o, a := s.sends[action.call], Apply(c, s, action).w.origin[r], action.answer;
      && o.clientAppId == pc.clientAppId && o.dto == pc.dto && o.templateId == pc.template.id && o.templateCode == pc.template.templateCode
      && o.at == s.w.now && a.tx == TxIds(r, o.payloadId, o.recipientId, o.outboxId)
  {
    hide LaneStep, SendStep, Relay.RelayStep, Scheduler.SchedStep;
    match action
    case StepSend(call, a) => if call in s.sends { SendAdds(c, s.w, s.sends[call], a, r); }
    case StepRelay(run, a) => if run in s.relays { Relay.RelayFrame(s.w, s.relays[run], a); }
    case StepSched(run, a) => if run in s.scheds { Scheduler.SchedFrame(s.w, s.scheds[run], a); }
    case StepLane(lane, a) => LaneLeavesOrigins(c, s.w, lane, ConsumerOf(s, lane), a);
    case _ =>
  }

  lemma LaneLeavesOrigins(c: Cipher, w: World, lane: Lane, k: Consumer, a: Answer)
    ensures LaneStep(c, w, lane, k, a).0.origin == w.origin
  {
    hide Worker.WorkerStep, Opened;
    if k.delivery.Some? { Worker.WorkerFrame(lane.channel, w, k.delivery.value, a); }
  }

  lemma {:induction false} WhoCommitted(c: Cipher, run: seq<Action>, r: Id) returns (n: nat, call: nat, t: Template)
    requires Faithful(c) && r in Exec(c, INITIAL, run).w.origin
    ensures CommittedAt(c, run, n, call, t, r, Exec(c, INITIAL, run).w.origin[r])
    decreases |run|
  {
    hide Apply, Faithful, Consistent, Reachable, TablesOk, JobsOk, Steps.Evolves;
    assert run != [];
    var k := |run| - 1;
    var s := Exec(c, INITIAL, run[..k]);
    RunReachable(c, run[..k]);
    ReachableConsistent(c, s);
    Safety.ConsistentStep(c, s, run[k]);
    Actors.OriginsStay(s.w, Exec(c, INITIAL, run).w);
    if r in s.w.origin {
      n, call, t := WhoCommitted(c, run[..k], r);
      assert run[..k][..n] == run[..n];
    } else {
      OnlyCommitAdds(c, s, run[k], r);
      n, call, t := k, run[k].call, s.sends[run[k].call].template;
    }
  }

  /** Over every run: whoever is named as the client of a committed request did send its body, and one call of the
      gateway, before it committed that, found a template active under the body's code, found it PUBLIC or found the
      access row of this very client, and found the variables to fit; the request has that template. */
  lemma CommittedWasVetted(c: Cipher, run: seq<Action>, r: Id)
    returns (call: nat, t: Template, started: nat, found: nat, granted: nat, validated: nat, committed: nat)
    requires Faithful(c) && r in Exec(c, INITIAL, run).w.origin
    ensures var o := Exec(c, INITIAL, run).w.origin[r];
      && started < found < validated < committed && CommittedAt(c, run, committed, call, t, r, o)
      && run[started] == StartSend(call, o.clientAppId, o.dto)
      && Found(c, run, found, call, o.clientAppId, o.dto, t)
      && (t.scope == Public || (Granted(c, run, granted, call, o.clientAppId, o.dto, t) && found < granted < validated))
      && Validated(c, run, validated, call, o.clientAppId, o.dto, t)
  {
    hide Exec, SendStep, Faithful;
    var o := Exec(c, INITIAL, run).w.origin[r];
    committed, call, t := WhoCommitted(c, run, r);
    validated := WhoTookTo(c, run[..committed], call, Commit(o.clientAppId, o.dto, t));
    assert run[..committed][..validated] == run[..validated];
    var s := Exec(c, INITIAL, run[..validated]);
    BeforeCommit(c, s.w, s.sends[call], run[validated].answer, o.clientAppId, o.dto, t);
    found, granted := PastAccess(c, run[..validated], call, o.clientAppId, o.dto, t);
    Earlier(c, run, validated, found, call, FindTemplate(o.clientAppId, o.dto));
    if t.scope != Public { Earlier(c, run, validated, granted, call, CheckAccess(o.clientAppId, o.dto, t)); }
    started := PastStart(c, run[..found], call, o.clientAppId, o.dto);
  }

  // ---------------------------------------------------------------- the reply

  /** The request id that a call is about, unless it has ended with an error. */
  function KeyOf(pc: SendPc): Option<string> {
    match pc
    case Start(_, dto) => Some(dto.requestId)
    case FindTemplate(_, dto) => Some(dto.requestId)
    case CheckAccess(_, dto, _) => Some(dto.requestId)
    case ReadVariables(_, dto, _) => Some(dto.requestId)
    case Commit(_, dto, _) => Some(dto.requestId)
    case Publish(r, _, _) => Some(r.requestId)
    case SaveEntry(r, _, _) => Some(r.requestId)
    case SaveQueued(r, _) => Some(r.requestId)
    case ReadStored(r) => Some(r.requestId)
    case ReadRecipient(r, _) => Some(r.requestId)
    case Republish(r, _) => Some(r.requestId)
    case SaveRequeued(r, _) => Some(r.requestId)
    case Done(reply) => if reply.Replied? then Some(reply.requestId) else None
  }

  lemma KeyStays(c: Cipher, w: World, pc: SendPc, a: Answer)
    ensures var pc' := SendStep(c, w, pc, a).1; KeyOf(pc').Some? ==> KeyOf(pc') == KeyOf(pc)
  {
    hide FindPayload, FindRecipient, ResendEvent, NewOutbox, CanCommit, FindActive, FindAccess, AsRecord, ReadString,
         RequestMetadata,
         CommitRows, Wire, StoredRequest, StoredOutbox;
  }

  lemma LastKey(c: Cipher, s: State, action: Action, call: nat)
    requires var s' := Apply(c, s, action); call in s'.sends && KeyOf(s'.sends[call]).Some?
    ensures var key := KeyOf(Apply(c, s, action).sends[call]);
      || (call in s.sends && KeyOf(s.sends[call]) == key)
      || (action.StartSend? && action.call == call && Some(action.dto.requestId) == key)
  {
    hide LaneStep, Relay.RelayStep, Scheduler.SchedStep, SendStep;
    if action.StepSend? && action.call in s.sends { KeyStays(c, s.w, s.sends[action.call], action.answer); }
  }

  /** A call is about the request id of the body that it was started with, from its start to its reply. */
  lemma {:induction false} RepliesToItsBody(c: Cipher, run: seq<Action>, call: nat) returns (started: nat)
    requires var s := Exec(c, INITIAL, run); call in s.sends && KeyOf(s.sends[call]).Some?
    ensures started < |run| && run[started].StartSend? && run[started].call == call
    ensures Some(run[started].dto.requestId) == KeyOf(Exec(c, INITIAL, run).sends[call])
    decreases |run|
  {
    hide Apply, KeyOf;
    assert run != [];
    var k := |run| - 1;
    var s := Exec(c, INITIAL, run[..k]);
    LastKey(c, s, run[k], call);
    if call in s.sends && KeyOf(s.sends[call]) == KeyOf(Exec(c, INITIAL, run).sends[call]) {
      started := RepliesToItsBody(c, run[..k], call);
    } else {
      started := k;
    }
  }
}
