/**
 * At most three reset links per account in any hour, although invitations share the purpose and the sweep deletes
 * rows.
 */
module ResetLimit {
  import opened Common
  import opened Runs
  import opened OneTimeTokens

  const MAX_RESETS_PER_HOUR: nat := 3

  /** A link that `forgot` mailed, and when its row was created. */
  datatype Link = Link(hash: Hash, at: int)

  type CallId = nat

  /** For whom and when a token was inserted, by `forgot` or by an invitation. */
  datatype Stamp = Stamp(user: UserId, at: int)

  /** `calls` are the `forgot` calls between their count and their insert; `issued` and `links` are the history. */
  datatype State = State(
    now: int, tokens: Tokens, calls: map<CallId, UserId>, issued: map<Hash, Stamp>, links: map<UserId, seq<Link>>)

  /** The statement of `issue` that revokes older links is a `Revoke` of its own, anywhere in the run. */
  datatype Event =
    | Tick(elapsed: nat)
    | ForgotCount(call: CallId, user: UserId)
    | ForgotInsert(call: CallId, hash: Hash, expiresAt: int)
    | ForgotDrop(call: CallId)
    | Invite(user: UserId, hash: Hash, expiresAt: int)
    | Redeem(hash: Hash)
    | Revoke(user: UserId, purpose: Purpose)
    | Sweep(cutoff: int)

  function Links(s: State, user: UserId): seq<Link> {
    if user in s.links then s.links[user] else []
  }

  function InFlight(s: State, user: UserId): set<CallId> {
    set c | c in s.calls && s.calls[c] == user
  }

  function InsertReset(s: State, user: UserId, hash: Hash, expiresAt: int): State {
    s.(tokens := s.tokens[hash := Row(user, PasswordReset, expiresAt, None, s.now)],
       issued := s.issued[hash := Stamp(user, s.now)])
  }

  function Mailed(s: State, call: CallId, hash: Hash, expiresAt: int): State
    requires call in s.calls
  {
    var user := s.calls[call];
    InsertReset(s, user, hash, expiresAt).(
      calls := s.calls - {call}, links := s.links[user := Links(s, user) + [Link(hash, s.now)]])
  }

  predicate MayInsert(s: State, call: CallId, hash: Hash, expiresAt: int) {
    call in s.calls && hash !in s.issued && s.now <= expiresAt
  }

  function Step(s: State, e: Event): State {
    match e
    case Tick(elapsed) => s.(now := s.now + elapsed)
    case ForgotCount(call, user) =>
      if call !in s.calls && |IssuedSince(s.tokens, user, PasswordReset, s.now - HOUR)| < MAX_RESETS_PER_HOUR
      then s.(calls := s.calls[call := user]) else s
    case ForgotInsert(call, hash, expiresAt) =>
      if MayInsert(s, call, hash, expiresAt) then Mailed(s, call, hash, expiresAt) else s
    case ForgotDrop(call) => s.(calls := s.calls - {call})
    case Invite(user, hash, expiresAt) =>
      if hash !in s.issued && s.now <= expiresAt then InsertReset(s, user, hash, expiresAt) else s
    case Redeem(hash) => s.(tokens := Claim(s.tokens, PasswordReset, hash, s.now))
    case Revoke(user, purpose) => s.(tokens := InvalidateUnused(s.tokens, user, purpose, s.now))
    case Sweep(cutoff) => if cutoff <= s.now - HOUR then s.(tokens := DeleteExpired(s.tokens, cutoff)) else s
  }

  predicate Initial(s: State) {
    s.tokens == map[] && s.calls == map[] && s.issued == map[] && s.links == map[]
  }

  /** `forgot` itself, uninterrupted: at the limit nothing changes, below it one new link is the only working one. */
  class PasswordResetService {
    const service: OneTimeTokenService

    constructor ()
      ensures fresh(service) && service.tokens == map[]
    {
      service := new OneTimeTokenService();
    }

    method Forgot(user: UserId, active: bool, hash: Hash, ttl: int, now: int) returns (mailed: bool)
      requires hash !in service.tokens
      modifies service
      ensures mailed <==>
                active && |IssuedSince(old(service.tokens), user, PasswordReset, now - HOUR)| < MAX_RESETS_PER_HOUR
      ensures !mailed ==> service.tokens == old(service.tokens)
      ensures mailed ==> service.tokens == Issue(old(service.tokens), user, PasswordReset, hash, now + ttl, now)
      ensures mailed ==> Unused(service.tokens, user, PasswordReset) == {hash}
    {
      mailed := false;
      if !active { return; }
      var recent := service.IssuedWithin(user, PasswordReset, HOUR, now);
      if recent >= MAX_RESETS_PER_HOUR { return; }
      service.IssueToken(user, PasswordReset, hash, ttl, now);
      mailed := true;
    }
  }

  // ---- the invariant -----------------------------------------------------------------

  /** The row of every token ever inserted is still there, or the token is at least an hour old. */
  predicate StampOk(s: State, h: Hash)
    requires h in s.issued
  {
    && s.issued[h].at <= s.now
    && if h in s.tokens then
         && s.tokens[h].user == s.issued[h].user && s.tokens[h].purpose == PasswordReset
         && s.tokens[h].createdAt == s.issued[h].at <= s.tokens[h].expiresAt
       else s.issued[h].at <= s.now - HOUR
  }

  /** Oldest first, each its own token. */
  predicate Ordered(links: seq<Link>) {
    forall i, j :: 0 <= i < j < |links| ==> links[i].at <= links[j].at && links[i].hash != links[j].hash
  }

  predicate LinkOk(s: State, user: UserId, l: Link) {
    l.hash in s.issued && s.issued[l.hash] == Stamp(user, l.at)
  }

  predicate UserOk(s: State, user: UserId) {
    Ordered(Links(s, user)) && forall i :: 0 <= i < |Links(s, user)| ==> LinkOk(s, user, Links(s, user)[i])
  }

  ghost predicate Inv(s: State) {
    && s.tokens.Keys <= s.issued.Keys
    && (forall h {:trigger StampOk(s, h)} :: h in s.issued ==> StampOk(s, h))
    && (forall user :: UserOk(s, user))
  }

  /** The tokens inserted for the account within the last hour, from the history and not from the table. */
  function InsertedLately(s: State, user: UserId): set<Hash> {
    set h | h in s.issued && s.issued[h].user == user && s.issued[h].at > s.now - HOUR
  }

  /** Whatever was swept, revoked or redeemed: what `forgot` counts is what was inserted for that account. */
  lemma CountIsHistory(s: State, user: UserId)
    requires Inv(s)
    ensures IssuedSince(s.tokens, user, PasswordReset, s.now - HOUR) == InsertedLately(s, user)
  {
    forall h | h in s.issued
      ensures h in IssuedSince(s.tokens, user, PasswordReset, s.now - HOUR) <==> h in InsertedLately(s, user)
    {
      assert StampOk(s, h);
    }
  }

  /** Three recent links would have been counted. */
  lemma CountSeesRecentLinks(s: State, user: UserId)
    requires Inv(s) && |IssuedSince(s.tokens, user, PasswordReset, s.now - HOUR)| < MAX_RESETS_PER_HOUR
    ensures var links := Links(s, user);
            |links| >= 3 ==> links[|links| - 3].at <= s.now - HOUR
  {
    CountIsHistory(s, user);
    assert UserOk(s, user);
    var links := Links(s, user);
    var n := |links|;
    if n >= 3 && links[n - 3].at > s.now - HOUR {
      var seen := {links[n - 3].hash, links[n - 2].hash, links[n - 1].hash};
      assert LinkOk(s, user, links[n - 3]) && LinkOk(s, user, links[n - 2]) && LinkOk(s, user, links[n - 1]);
      assert |seen| == 3;
      SubsetSize(seen, InsertedLately(s, user));
      assert false;
    }
  }

  /** Rows change without changing what they were inserted with, and go only when they are old. */
  predicate Faithful(s: State, s': State) {
    && s'.now >= s.now && s'.issued == s.issued && s'.links == s.links && s'.tokens.Keys <= s.tokens.Keys
    && (forall h :: h in s'.tokens ==> s'.tokens[h] == s.tokens[h].(usedAt := s'.tokens[h].usedAt))
    && (forall h :: h in s.tokens && h !in s'.tokens ==> s.tokens[h].expiresAt <= s'.now - HOUR)
  }

  lemma QuietStep(s: State, s': State)
    requires Inv(s) && Faithful(s, s')
    ensures Inv(s')
  {
    forall h | h in s'.issued ensures StampOk(s', h) { assert StampOk(s, h); }
    forall user ensures UserOk(s', user) {
      assert UserOk(s, user);
      var links := Links(s, user);
      forall i | 0 <= i < |links| ensures LinkOk(s', user, links[i]) { assert LinkOk(s, user, links[i]); }
    }
  }

  lemma ResetKeepsInv(s: State, user: UserId, hash: Hash, expiresAt: int)
    requires Inv(s) && hash !in s.issued && s.now <= expiresAt
    ensures Inv(InsertReset(s, user, hash, expiresAt))
  {
    var s' := InsertReset(s, user, hash, expiresAt);
    forall h | h in s'.issued ensures StampOk(s', h) {
      if h != hash { assert StampOk(s, h); }
    }
    forall u ensures UserOk(s', u) {
      assert UserOk(s, u);
      var links := Links(s, u);
      forall i | 0 <= i < |links| ensures LinkOk(s', u, links[i]) { assert LinkOk(s, u, links[i]); }
    }
  }

  lemma InsertKeepsInv(s: State, call: CallId, hash: Hash, expiresAt: int)
    requires Inv(s) && MayInsert(s, call, hash, expiresAt)
    ensures Inv(Mailed(s, call, hash, expiresAt))
  {
    var user := s.calls[call];
    var mid := InsertReset(s, user, hash, expiresAt);
    ResetKeepsInv(s, user, hash, expiresAt);
    var s' := Mailed(s, call, hash, expiresAt);
    forall h | h in s'.issued ensures StampOk(s', h) { assert StampOk(mid, h); }
    forall u ensures UserOk(s', u) {
      assert UserOk(s, u) && UserOk(mid, u);
      var links := Links(s, u);
      forall i | 0 <= i < |links|
        ensures LinkOk(s', u, links[i]) && links[i].at <= s.now && links[i].hash != hash
      {
        assert LinkOk(s, u, links[i]) && StampOk(s, links[i].hash);
      }
      assert Links(s', u) == if u == user then links + [Link(hash, s.now)] else links;
    }
  }

  lemma StepKeepsInv(s: State, e: Event)
    requires Inv(s)
    ensures Inv(Step(s, e))
  {
    var s' := Step(s, e);
    match e
    case ForgotInsert(call, hash, expiresAt) =>
      if MayInsert(s, call, hash, expiresAt) { InsertKeepsInv(s, call, hash, expiresAt); }
    case Invite(user, hash, expiresAt) =>
      if hash !in s.issued && s.now <= expiresAt { ResetKeepsInv(s, user, hash, expiresAt); }
    case _ => QuietStep(s, s');
  }

  // ---- at most k calls of an account in flight -----------------------------------------

  predicate Spaced(links: seq<Link>, gap: nat) {
    forall i, j :: 0 <= i && i + gap <= j < |links| ==> links[i].at + HOUR <= links[j].at
  }

  /** Recent links and calls in flight are together at most k + 2: of the last k + 3 - f links one is an hour old. */
  predicate Room(links: seq<Link>, k: nat, f: nat, now: int) {
    f <= k && (|links| >= k + 3 - f ==> links[|links| - (k + 3 - f)].at <= now - HOUR)
  }

  ghost predicate CrowdOk(s: State, user: UserId, k: nat) {
    Inv(s) && Spaced(Links(s, user), k + 2) && Room(Links(s, user), k, |InFlight(s, user)|, s.now)
  }

  /** The event leaves at most `k` calls of the account in flight. */
  function AtMost(user: UserId, k: nat): (State, Event) -> bool {
    (s, e) => |InFlight(Step(s, e), user)| <= k
  }

  lemma CountKeepsRoom(s: State, user: UserId, k: nat)
    requires Inv(s) && |IssuedSince(s.tokens, user, PasswordReset, s.now - HOUR)| < MAX_RESETS_PER_HOUR
    ensures forall f: nat :: f <= k ==> Room(Links(s, user), k, f, s.now)
  {
    assert UserOk(s, user);
    CountSeesRecentLinks(s, user);
  }

  lemma InsertKeepsRoom(links: seq<Link>, l: Link, k: nat, f: nat, now: int)
    requires Ordered(links) && Spaced(links, k + 2) && Room(links, k, f, now) && f >= 1 && l.at == now
    ensures Spaced(links + [l], k + 2) && Room(links + [l], k, f - 1, now)
  {
  }

  lemma InsertKeepsCrowd(s: State, user: UserId, k: nat, call: CallId, hash: Hash, expiresAt: int)
    requires CrowdOk(s, user, k) && MayInsert(s, call, hash, expiresAt)
    ensures CrowdOk(Mailed(s, call, hash, expiresAt), user, k)
  {
    var s' := Mailed(s, call, hash, expiresAt);
    InsertKeepsInv(s, call, hash, expiresAt);
    assert UserOk(s, user);
    if s.calls[call] == user {
      assert call in InFlight(s, user) && InFlight(s', user) == InFlight(s, user) - {call};
      InsertKeepsRoom(Links(s, user), Link(hash, s.now), k, |InFlight(s, user)|, s.now);
    } else {
      assert InFlight(s', user) == InFlight(s, user);
    }
  }

  lemma StepKeepsCrowd(s: State, user: UserId, k: nat, e: Event)
    requires CrowdOk(s, user, k) && AtMost(user, k)(s, e)
    ensures CrowdOk(Step(s, e), user, k)
  {
    var s' := Step(s, e);
    StepKeepsInv(s, e);
    assert UserOk(s, user);
    match e
    case ForgotInsert(call, hash, expiresAt) =>
      if MayInsert(s, call, hash, expiresAt) { InsertKeepsCrowd(s, user, k, call, hash, expiresAt); }
    case ForgotCount(call, u) =>
      if u == user && s' != s {
        CountKeepsRoom(s, user, k);
      } else {
        assert InFlight(s', user) == InFlight(s, user);
      }
    case ForgotDrop(call) =>
      SubsetSize(InFlight(s', user), InFlight(s, user));
    case _ =>
      assert InFlight(s', user) == InFlight(s, user);
  }

  lemma RunKeepsCrowd(s: State, user: UserId, k: nat, events: seq<Event>)
    requires Initial(s) && Allowed(Step, AtMost(user, k), s, events)
    ensures CrowdOk(Run(Step, s, events), user, k)
  {
    var inv := t => CrowdOk(t, user, k);
    assert InFlight(s, user) == {};
    forall t, e | inv(t) && AtMost(user, k)(t, e) ensures inv(Step(t, e)) { StepKeepsCrowd(t, user, k, e); }
    InvariantWhile(Step, AtMost(user, k), inv, s, events);
  }

  // ---- the guarantee -----------------------------------------------------------------

  /** Which links fall in the hour that starts at `a`. */
  function InHour(links: seq<Link>, a: int): set<nat> {
    set i | 0 <= i < |links| && a <= links[i].at < a + HOUR
  }

  lemma SpacedFitsHour(links: seq<Link>, gap: nat, a: int)
    requires Spaced(links, gap)
    ensures |InHour(links, a)| <= gap
  {
    var inside := InHour(links, a);
    if inside != {} {
      var m := First(inside);
      IntervalSize(inside, m, gap);
    }
  }

  lemma {:induction false} First(a: set<nat>) returns (m: nat)
    requires a != {}
    ensures m in a && forall x :: x in a ==> m <= x
  {
    var some: nat :| some in a;
    var below: set<nat> := set y | y in a && y < some;
    if below == {} {
      m := some;
      assert forall x :: x in a && x < some ==> x in below;
    } else {
      assert some !in below;
      m := First(below);
      assert forall x :: x in a && x < some ==> x in below;
    }
  }

  /** With at most k `forgot` calls of an account in flight, every hour has at most k + 2 of its reset links. */
  lemma LinksPerHour(s: State, user: UserId, k: nat, events: seq<Event>, a: int)
    requires Initial(s) && Allowed(Step, AtMost(user, k), s, events)
    ensures |InHour(Links(Run(Step, s, events), user), a)| <= k + 2
  {
    RunKeepsCrowd(s, user, k, events);
    SpacedFitsHour(Links(Run(Step, s, events), user), k + 2, a);
  }

  /**
   * In every run, from the history of inserts: a `forgot` call goes through if and only if fewer than three tokens,
   * invitations included, were inserted for its account within the last hour. Other accounts make no difference.
   */
  lemma RefusedIff(s: State, user: UserId, events: seq<Event>, call: CallId)
    requires Initial(s) && call !in Run(Step, s, events).calls
    ensures call in Run(Step, s, events + [ForgotCount(call, user)]).calls
            <==> |InsertedLately(Run(Step, s, events), user)| < 3
  {
    forall t, e | Inv(t) ensures Inv(Step(t, e)) { StepKeepsInv(t, e); }
    Invariant(Step, Inv, s, events);
    CountIsHistory(Run(Step, s, events), user);
    RunThen(Step, s, events, ForgotCount(call, user));
  }

  // ---- the bound is attained -----------------------------------------------------------

  /** `n` links of the account, all mailed at that instant; no token is numbered `n` or higher. */
  predicate HasMailed(t: State, user: UserId, n: nat, at: int) {
    && t.now == at && |t.tokens| == n && (forall h :: h in t.issued ==> h < n) && t.tokens.Keys <= t.issued.Keys
    && |Links(t, user)| == n && (forall i :: 0 <= i < n ==> Links(t, user)[i].at == at)
  }

  /** The calls 0, ..., j - 1 are in flight, all for the account. */
  ghost predicate Waiting(t: State, user: UserId, j: nat) {
    && |t.calls| == j && (forall c: CallId :: c in t.calls <==> c < j)
    && (forall c :: c in t.calls ==> t.calls[c] == user)
  }

  ghost predicate Stands(t: State, user: UserId, n: nat, j: nat, at: int) {
    HasMailed(t, user, n, at) && Waiting(t, user, j)
  }

  lemma FitsCalls(t: State, user: UserId, k: nat)
    requires |t.calls| <= k
    ensures |InFlight(t, user)| <= k
  {
    SubsetSize(InFlight(t, user), t.calls.Keys);
  }

  lemma OneMoreCounts(t: State, user: UserId, n: nat, j: nat, k: nat, at: int)
    requires Stands(t, user, n, j, at) && n <= 2 && j < k
    ensures Stands(Step(t, ForgotCount(j, user)), user, n, j + 1, at) && AtMost(user, k)(t, ForgotCount(j, user))
  {
    SubsetSize(IssuedSince(t.tokens, user, PasswordReset, t.now - HOUR), t.tokens.Keys);
    var t' := Step(t, ForgotCount(j, user));
    assert t'.calls == t.calls[j := user];
    FitsCalls(t', user, k);
  }

  lemma OneFewerWaits(t: State, t': State, user: UserId, j: nat)
    requires Waiting(t, user, j + 1) && t'.calls == t.calls - {j}
    ensures Waiting(t', user, j)
  {
    assert t'.calls.Keys == t.calls.Keys - {j};
    assert j in t.calls && |t'.calls| == |t'.calls.Keys| == |t.calls.Keys| - 1;
    forall c | c in t'.calls ensures t'.calls[c] == user { assert t.calls[c] == user; }
  }

  lemma OneMoreMailed(t: State, user: UserId, j: nat, n: nat, at: int)
    requires HasMailed(t, user, n, at) && j in t.calls && t.calls[j] == user
    ensures HasMailed(Mailed(t, j, n, at + HOUR), user, n + 1, at)
  {
    var t' := Mailed(t, j, n, at + HOUR);
    assert Links(t', user) == Links(t, user) + [Link(n, at)];
    assert t'.tokens.Keys == t.tokens.Keys + {n};
  }

  lemma OneMoreInserts(t: State, user: UserId, n: nat, j: nat, k: nat, at: int)
    requires Stands(t, user, n, j + 1, at) && j < k
    ensures var e := ForgotInsert(j, n, at + HOUR);
            Stands(Step(t, e), user, n + 1, j, at) && AtMost(user, k)(t, e)
  {
    var t' := Step(t, ForgotInsert(j, n, at + HOUR));
    assert t' == Mailed(t, j, n, at + HOUR);
    OneMoreMailed(t, user, j, n, at);
    OneFewerWaits(t, t', user, j);
    FitsCalls(t', user, k);
  }

  lemma {:induction false} AllCount(s: State, user: UserId, k: nat, before: seq<Event>, n: nat, j: nat)
    returns (events: seq<Event>)
    requires Allowed(Step, AtMost(user, k), s, before) && Stands(Run(Step, s, before), user, n, 0, s.now)
    requires n <= 2 && j <= k
    ensures Allowed(Step, AtMost(user, k), s, events) && Stands(Run(Step, s, events), user, n, j, s.now)
  {
    if j == 0 {
      events := before;
    } else {
      var fewer := AllCount(s, user, k, before, n, j - 1);
      OneMoreCounts(Run(Step, s, fewer), user, n, j - 1, k, s.now);
      AllowedThen(Step, AtMost(user, k), s, fewer, ForgotCount(j - 1, user));
      events := fewer + [ForgotCount(j - 1, user)];
    }
  }

  lemma {:induction false} AllInsert(s: State, user: UserId, k: nat, before: seq<Event>, n: nat, j: nat)
    returns (events: seq<Event>)
    requires Allowed(Step, AtMost(user, k), s, before) && Stands(Run(Step, s, before), user, n, j, s.now)
    requires j <= k
    ensures Allowed(Step, AtMost(user, k), s, events) && Stands(Run(Step, s, events), user, n + j, 0, s.now)
    decreases j
  {
    if j == 0 {
      events := before;
    } else {
      var e := ForgotInsert(j - 1, n, s.now + HOUR);
      OneMoreInserts(Run(Step, s, before), user, n, j - 1, k, s.now);
      AllowedThen(Step, AtMost(user, k), s, before, e);
      events := AllInsert(s, user, k, before + [e], n + 1, j - 1);
    }
  }

  lemma AllInHour(t: State, user: UserId, n: nat, at: int)
    requires HasMailed(t, user, n, at)
    ensures |InHour(Links(t, user), at)| == n
  {
    assert InHour(Links(t, user), at) == Below(n);
  }

  /** Two links one after the other, then k calls that all count before any of them inserts. */
  lemma BoundIsAttained(s: State, user: UserId, k: nat) returns (events: seq<Event>)
    requires Initial(s) && k >= 1
    ensures Allowed(Step, AtMost(user, k), s, events)
    ensures |InHour(Links(Run(Step, s, events), user), s.now)| == k + 2
  {
    assert Run(Step, s, []) == s && Stands(s, user, 0, 0, s.now);
    events := AllCount(s, user, k, [], 0, 1);
    events := AllInsert(s, user, k, events, 0, 1);
    events := AllCount(s, user, k, events, 1, 1);
    events := AllInsert(s, user, k, events, 1, 1);
    events := AllCount(s, user, k, events, 2, k);
    events := AllInsert(s, user, k, events, 2, k);
    AllInHour(Run(Step, s, events), user, k + 2, s.now);
  }

  /** Every run with at most k calls of the account in flight keeps to three links an hour. */
  ghost predicate LimitHolds(user: UserId, k: nat) {
    forall s, events, a :: Initial(s) && Allowed(Step, AtMost(user, k), s, events) ==>
      |InHour(Links(Run(Step, s, events), user), a)| <= MAX_RESETS_PER_HOUR
  }

  /** Three links an hour is the most if and only if `forgot` calls of an account do not overlap. */
  lemma ThreePerHourIff(user: UserId, k: nat)
    ensures LimitHolds(user, k) <==> k <= 1
  {
    if k <= 1 {
      forall s, events, a | Initial(s) && Allowed(Step, AtMost(user, k), s, events)
        ensures |InHour(Links(Run(Step, s, events), user), a)| <= MAX_RESETS_PER_HOUR
      {
        LinksPerHour(s, user, k, events, a);
      }
    } else {
      var s := State.State(0, map[], map[], map[], map[]);
      var events := BoundIsAttained(s, user, k);
    }
  }

  /** An invitation counts like a link of the account invited, and for nobody else. */
  lemma InviteCounts(s: State, user: UserId, hash: Hash, expiresAt: int, other: UserId)
    requires hash !in s.issued && s.now <= expiresAt
    ensures var after := Step(s, Invite(user, hash, expiresAt));
            && hash in after.tokens && Links(after, other) == Links(s, other)
            && InsertedLately(after, other) == InsertedLately(s, other) + if other == user then {hash} else {}
  {
  }

  /** So does a link that `forgot` inserts, which the account then has. */
  lemma ForgotInsertCounts(s: State, call: CallId, hash: Hash, expiresAt: int, other: UserId)
    requires MayInsert(s, call, hash, expiresAt)
    ensures var after, user := Step(s, ForgotInsert(call, hash, expiresAt)), s.calls[call];
            && hash in after.tokens && call !in after.calls
            && Links(after, other) == Links(s, other) + (if other == user then [Link(hash, s.now)] else [])
            && InsertedLately(after, other) == InsertedLately(s, other) + if other == user then {hash} else {}
  {
  }

  /** Links are used, revoked and swept, and calls cut off, beside all that. */
  lemma LinksComeAndGo(s: State, hash: Hash, user: UserId, cutoff: int, call: CallId)
    requires cutoff <= s.now - HOUR
    ensures forall at :: !Valid(Step(s, Redeem(hash)).tokens, PasswordReset, hash, at)
                         || !Valid(s.tokens, PasswordReset, hash, s.now)
    ensures Unused(Step(s, Event.Revoke(user, PasswordReset)).tokens, user, PasswordReset) == {}
    ensures forall h :: h in Step(s, Event.Sweep(cutoff)).tokens <==> h in s.tokens && s.tokens[h].expiresAt >= cutoff
    ensures call !in Step(s, ForgotDrop(call)).calls && Step(s, ForgotDrop(call)).tokens == s.tokens
  {
  }
}
