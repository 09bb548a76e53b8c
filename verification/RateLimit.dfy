/** The sliding-window limiter of the gateway over a Redis sorted set per client. */
module RateLimit {
  type Client = nat
  type Time = int

  const WINDOW := 60_000

  /** A sorted-set member `${now}-${random}`; its score is the `now` inside it. */
  datatype Member = Member(score: Time, salt: nat)

  /** One call of the guard. */
  datatype Call = Call(client: Client, at: Time, salt: nat, limit: int, accepted: bool) {
    function Item(): Member { Member(at, salt) }
  }

  // ---------------------------------------------------------------- the history, without any Redis

  /** Every member the client's requests ever produced. */
  function Members(calls: seq<Call>, client: Client): set<Member> {
    if calls == [] then {}
    else
      var n := |calls| - 1;
      Members(calls[..n], client) + (if calls[n].client == client then {calls[n].Item()} else {})
  }

  /** The client's requests with a timestamp in (after, until]. */
  function InWindow(calls: seq<Call>, client: Client, after: Time, until: Time): set<Member> {
    set m | m in Members(calls, client) && after < m.score <= until
  }

  /** How many of the client's accepted requests have a timestamp in (after, until]. */
  function AcceptedIn(calls: seq<Call>, client: Client, after: Time, until: Time): nat {
    if calls == [] then 0
    else
      var last := calls[|calls| - 1];
      AcceptedIn(calls[..|calls| - 1], client, after, until)
      + (if last.client == client && last.accepted && after < last.at <= until then 1 else 0)
  }

  ghost predicate Ordered(calls: seq<Call>) {
    forall i, j | 0 <= i < j < |calls| :: calls[i].at <= calls[j].at
  }

  /** Call j was decided by counting the client's requests of the last minute, itself included. */
  ghost predicate DecidedAt(calls: seq<Call>, j: nat)
    requires j < |calls|
  {
    var call := calls[j];
    call.accepted <==> |InWindow(calls[..j + 1], call.client, call.at - WINDOW, call.at)| <= call.limit
  }

  ghost predicate Decided(calls: seq<Call>) {
    forall j: nat | j < |calls| :: DecidedAt(calls, j)
  }

  /** Call i is the client's last accepted request of this stretch. */
  ghost predicate LastAccepted(calls: seq<Call>, client: Client, after: Time, until: Time, i: nat) {
    && i < |calls| && calls[i].client == client && calls[i].accepted && after < calls[i].at <= until
    && forall j | i < j < |calls| :: !(calls[j].client == client && calls[j].accepted && after < calls[j].at <= until)
  }

  /** Every call of the client produced a member that none of its earlier calls had. */
  ghost predicate NoCollision(calls: seq<Call>, client: Client) {
    calls == [] ||
    var last, before := calls[|calls| - 1], calls[..|calls| - 1];
    NoCollision(before, client) && (last.client == client ==> last.Item() !in Members(before, client))
  }

  lemma {:induction false} MemberHasCall(calls: seq<Call>, client: Client, m: Member) returns (i: nat)
    requires m in Members(calls, client)
    ensures i < |calls| && calls[i].client == client && calls[i].Item() == m
  {
    var n := |calls| - 1;
    if calls[n].client == client && calls[n].Item() == m {
      i := n;
    } else {
      i := MemberHasCall(calls[..n], client, m);
    }
  }

  lemma {:induction false} PrefixDecided(calls: seq<Call>, n: nat)
    requires n <= |calls| && Decided(calls)
    ensures Decided(calls[..n])
  {
    forall j: nat | j < n ensures DecidedAt(calls[..n], j) {
      assert DecidedAt(calls, j) && calls[..n][..j + 1] == calls[..j + 1];
    }
  }

  /** The accepted requests of a stretch of time are no more than its members, unless two members collide. */
  lemma {:induction false} AcceptedAreMembers(calls: seq<Call>, client: Client, after: Time, until: Time)
    requires NoCollision(calls, client)
    ensures AcceptedIn(calls, client, after, until) <= |InWindow(calls, client, after, until)|
  {
    if calls != [] {
      var n := |calls| - 1;
      var last, before := calls[n], calls[..n];
      AcceptedAreMembers(before, client, after, until);
      if last.client == client && after < last.at <= until {
        assert InWindow(calls, client, after, until) == InWindow(before, client, after, until) + {last.Item()};
      } else {
        assert InWindow(calls, client, after, until) == InWindow(before, client, after, until);
      }
    }
  }

  lemma SubsetSize<T>(a: set<T>, b: set<T>)
    requires a <= b
    ensures |a| <= |b|
  {
    assert a + (b - a) == b;
  }

  /** Of the requests up to an accepted call, those in a minute that contains it are within its own minute. */
  lemma WindowOfAccepted(calls: seq<Call>, client: Client, until: Time)
    requires calls != [] && Ordered(calls) && Decided(calls)
    requires var last := calls[|calls| - 1];
             last.client == client && last.accepted && until - 60_000 < last.at <= until
    ensures |InWindow(calls, client, until - 60_000, until)| <= calls[|calls| - 1].limit
  {
    var n := |calls| - 1;
    var last := calls[n];
    assert DecidedAt(calls, n) && calls[..n + 1] == calls;
    var mine := InWindow(calls, client, last.at - WINDOW, last.at);
    forall m | m in InWindow(calls, client, until - WINDOW, until) ensures m in mine {
      var i := MemberHasCall(calls, client, m);
    }
    SubsetSize(InWindow(calls, client, until - WINDOW, until), mine);
  }

  /** Window theorem: however the calls fall and however the client's limit changes, a half-open minute with an
      accepted request in it holds at most as many as the limit at the last of them. */
  lemma {:induction false} AtMostLastLimit(calls: seq<Call>, client: Client, until: Time) returns (i: nat)
    requires Ordered(calls) && Decided(calls) && NoCollision(calls, client)
    requires AcceptedIn(calls, client, until - 60_000, until) > 0
    ensures LastAccepted(calls, client, until - 60_000, until, i)
    ensures AcceptedIn(calls, client, until - 60_000, until) <= calls[i].limit
  {
    var n := |calls| - 1;
    var last := calls[n];
    if last.client == client && last.accepted && until - WINDOW < last.at <= until {
      i := n;
      WindowOfAccepted(calls, client, until);
      AcceptedAreMembers(calls, client, until - WINDOW, until);
    } else {
      PrefixDecided(calls, n);
      i := AtMostLastLimit(calls[..n], client, until);
    }
  }

  /** So with limits of at most `limit`, every half-open minute holds at most that many accepted requests. */
  lemma AtMostLimitPerWindow(calls: seq<Call>, client: Client, limit: nat, until: Time)
    requires Ordered(calls) && Decided(calls) && NoCollision(calls, client)
    requires forall i | 0 <= i < |calls| && calls[i].client == client :: calls[i].limit <= limit
    ensures AcceptedIn(calls, client, until - 60_000, until) <= limit
  {
    if AcceptedIn(calls, client, until - 60_000, until) > 0 {
      var i := AtMostLastLimit(calls, client, until);
    }
  }

  // ---------------------------------------------------------------- the guard over Redis

  /** A client's set holds exactly its requests of the minute up to its last call, and the key expires a minute
      after that call; a client without a set has made no call. */
  ghost predicate Indexes(zsets: map<Client, set<Member>>, expireAt: map<Client, Time>, calls: seq<Call>, client: Client)
  {
    if client in zsets then
      && client in expireAt
      && var last := expireAt[client] - WINDOW;
      && zsets[client] == InWindow(calls, client, last - WINDOW, last)
      && (forall m | m in Members(calls, client) :: m.score <= last)
      && (exists m | m in Members(calls, client) :: m.score == last)
    else
      client !in expireAt && Members(calls, client) == {}
  }

  ghost predicate Consistent(zsets: map<Client, set<Member>>, expireAt: map<Client, Time>, calls: seq<Call>) {
    Ordered(calls) && Decided(calls) && forall client :: Indexes(zsets, expireAt, calls, client)
  }

  /** The key as Redis answers at `now`: gone once its expiry has passed. */
  function Live(zsets: map<Client, set<Member>>, expireAt: map<Client, Time>, client: Client, now: Time): set<Member> {
    if client in zsets && client in expireAt && now < expireAt[client] then zsets[client] else {}
  }

  function Trim(members: set<Member>, windowStart: Time): set<Member> {
    set m | m in members && m.score > windowStart
  }

  /** Trimming what is live leaves exactly the requests of the last minute, and the key expiry changes no answer:
      a set that had outlived its expiry would be trimmed to the same. */
  lemma TrimIsExact(zsets: map<Client, set<Member>>, expireAt: map<Client, Time>, calls: seq<Call>, client: Client,
                    now: Time)
    requires Indexes(zsets, expireAt, calls, client)
    requires forall m | m in Members(calls, client) :: m.score <= now
    ensures Trim(Live(zsets, expireAt, client, now), now - 60_000) == InWindow(calls, client, now - 60_000, now)
    ensures client in zsets ==>
      Trim(zsets[client], now - 60_000) == Trim(Live(zsets, expireAt, client, now), now - 60_000)
  {
  }

  /** A call keeps the index of every client: its own moves to the new minute, the others stand. */
  lemma CallKeepsIndex(zsets: map<Client, set<Member>>, expireAt: map<Client, Time>, calls: seq<Call>, call: Call,
                       members: set<Member>, client: Client)
    requires Indexes(zsets, expireAt, calls, client)
    requires forall m | m in Members(calls, call.client) :: m.score <= call.at
    requires members == InWindow(calls + [call], call.client, call.at - WINDOW, call.at)
    ensures Indexes(zsets[call.client := members], expireAt[call.client := call.at + WINDOW], calls + [call], client)
  {
    var all := calls + [call];
    assert all[..|calls|] == calls;
    if client == call.client {
      assert call.Item() in Members(all, client);
    } else {
      assert Members(all, client) == Members(calls, client);
    }
  }

  lemma {:induction false} CallHasMember(calls: seq<Call>, i: nat)
    requires i < |calls|
    ensures calls[i].Item() in Members(calls, calls[i].client)
  {
    var n := |calls| - 1;
    if i < n { CallHasMember(calls[..n], i); }
  }

  /** The members of the last minute are those that the client's calls in it produced. */
  lemma LastMinute(calls: seq<Call>, client: Client, now: Time)
    requires forall i | 0 <= i < |calls| :: calls[i].at <= now
    ensures InWindow(calls, client, now - 60_000, now)
         == set i | 0 <= i < |calls| && calls[i].client == client && now - 60_000 < calls[i].at :: Member(calls[i].at, calls[i].salt)
  {
    var members := InWindow(calls, client, now - 60_000, now);
    forall m | m in members
      ensures exists i :: 0 <= i < |calls| && calls[i].client == client && now - 60_000 < calls[i].at
                          && m == Member(calls[i].at, calls[i].salt)
    {
      var i := MemberHasCall(calls, client, m);
    }
    forall i | 0 <= i < |calls| && calls[i].client == client && now - 60_000 < calls[i].at
      ensures Member(calls[i].at, calls[i].salt) in InWindow(calls, client, now - 60_000, now)
    {
      CallHasMember(calls, i);
    }
  }

  class RateLimitGuard {
    /** The members of each sorted set. */
    var zsets: map<Client, set<Member>>
    /** When each key expires. */
    var expireAt: map<Client, Time>
    /** Every call so far, in order. */
    ghost var calls: seq<Call>

    ghost predicate Valid()
      reads this
    {
      Consistent(zsets, expireAt, calls)
    }

    constructor ()
      ensures Valid() && calls == []
    {
      zsets := map[];
      expireAt := map[];
      calls := [];
    }

    /** One pipeline (trim, add, count, expire) and the decision on its count. Afterwards the set is an exact
        index: the client's set holds its requests, accepted or not, of (now - 60000, now], every other set is
        as it was, and the call is accepted exactly when its count is within the limit. */
    method CanActivate(client: Client, limit: int, now: Time, salt: nat) returns (accepted: bool)
      requires Valid()
      requires forall i | 0 <= i < |calls| :: calls[i].at <= now
      modifies this
      ensures Valid()
      ensures calls == old(calls) + [Call(client, now, salt, limit, accepted)]
      ensures zsets == old(zsets)[client :=
        set i | 0 <= i < |calls| && calls[i].client == client && now - 60_000 < calls[i].at :: Member(calls[i].at, calls[i].salt)]
      ensures expireAt == old(expireAt)[client := now + 60_000]
      ensures accepted <==> |zsets[client]| <= limit
    {
      hide Consistent, Trim, Live, InWindow, Members;
      var members := Trim(Live(zsets, expireAt, client, now), now - WINDOW);
      members := members + {Member(now, salt)};
      var count := |members|;
      accepted := !(count > limit);

      ghost var call := Call(client, now, salt, limit, accepted);
      CallIsIndexed(zsets, expireAt, calls, call, members);
      zsets := zsets[client := members];
      expireAt := expireAt[client := now + WINDOW];
      calls := calls + [call];
      LastMinute(calls, client, now);
    }
  }

  /** The whole step on values: the trimmed and extended set is the last minute, and everything stays consistent. */
  lemma CallIsIndexed(zsets: map<Client, set<Member>>, expireAt: map<Client, Time>, calls: seq<Call>, call: Call,
                      members: set<Member>)
    requires Consistent(zsets, expireAt, calls)
    requires forall i | 0 <= i < |calls| :: calls[i].at <= call.at
    requires members == Trim(Live(zsets, expireAt, call.client, call.at), call.at - WINDOW) + {call.Item()}
    requires call.accepted <==> |members| <= call.limit
    ensures members == InWindow(calls + [call], call.client, call.at - WINDOW, call.at)
    ensures Consistent(zsets[call.client := members], expireAt[call.client := call.at + WINDOW], calls + [call])
  {
    hide Indexes, Trim, Live, InWindow, Members, Ordered, Decided;
    PastMembers(calls, call.client, call.at);
    TrimIsExact(zsets, expireAt, calls, call.client, call.at);
    MembersGrow(calls, call);
    HistoryGrows(calls, call);
    var zsets', expireAt', calls' :=
      zsets[call.client := members], expireAt[call.client := call.at + WINDOW], calls + [call];
    forall c ensures Indexes(zsets', expireAt', calls', c) {
      CallKeepsIndex(zsets, expireAt, calls, call, members, c);
    }
  }

  lemma PastMembers(calls: seq<Call>, client: Client, now: Time)
    requires forall i | 0 <= i < |calls| :: calls[i].at <= now
    ensures forall m | m in Members(calls, client) :: m.score <= now
  {
    forall m | m in Members(calls, client) ensures m.score <= now {
      var i := MemberHasCall(calls, client, m);
    }
  }

  lemma MembersGrow(calls: seq<Call>, call: Call)
    ensures Members(calls + [call], call.client) == Members(calls, call.client) + {call.Item()}
    ensures InWindow(calls + [call], call.client, call.at - WINDOW, call.at)
         == InWindow(calls, call.client, call.at - WINDOW, call.at) + {call.Item()}
  {
    assert (calls + [call])[..|calls|] == calls;
  }

  /** Appending a call decided by its own minute keeps a history ordered and decided. */
  lemma HistoryGrows(before: seq<Call>, call: Call)
    requires Ordered(before) && Decided(before)
    requires forall i | 0 <= i < |before| :: before[i].at <= call.at
    requires call.accepted <==>
      |InWindow(before + [call], call.client, call.at - WINDOW, call.at)| <= call.limit
    ensures Ordered(before + [call]) && Decided(before + [call])
  {
    var all := before + [call];
    forall j: nat | j < |all| ensures DecidedAt(all, j) {
      if j < |before| {
        assert DecidedAt(before, j) && all[..j + 1] == before[..j + 1];
      } else {
        assert all[..j + 1] == all;
      }
    }
  }
}
