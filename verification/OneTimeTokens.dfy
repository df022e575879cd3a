/** The `auth_tokens` table: single-use, expiring links and two-factor hand-offs. */
module OneTimeTokens {
  import opened Common
  import opened Runs

  type Hash = nat

  datatype Purpose = PasswordReset | EmailVerification | EmailChange | TwoFactorPending

  datatype Row = Row(user: UserId, purpose: Purpose, expiresAt: int, usedAt: Option<int>, createdAt: int)

  /** Keyed by `token_hash`, which is unique; a generated token is always new. */
  type Tokens = map<Hash, Row>

  // ---- the SQL statements ------------------------------------------------------------

  function InvalidateUnused(tokens: Tokens, user: UserId, purpose: Purpose, now: int): Tokens {
    map h | h in tokens ::
      if tokens[h].user == user && tokens[h].purpose == purpose && tokens[h].usedAt == None
      then tokens[h].(usedAt := Some(now)) else tokens[h]
  }

  /** Unused and unexpired. */
  predicate Valid(tokens: Tokens, purpose: Purpose, hash: Hash, now: int) {
    hash in tokens && tokens[hash].purpose == purpose && tokens[hash].usedAt == None && tokens[hash].expiresAt > now
  }

  function FindUnused(tokens: Tokens, purpose: Purpose, hash: Hash, now: int): Option<Row> {
    if Valid(tokens, purpose, hash, now) then Some(tokens[hash]) else None
  }

  function Claim(tokens: Tokens, purpose: Purpose, hash: Hash, now: int): Tokens {
    if Valid(tokens, purpose, hash, now) then tokens[hash := tokens[hash].(usedAt := Some(now))] else tokens
  }

  function IssuedSince(tokens: Tokens, user: UserId, purpose: Purpose, since: int): set<Hash> {
    set h | h in tokens && tokens[h].user == user && tokens[h].purpose == purpose && tokens[h].createdAt > since
  }

  function DeleteExpired(tokens: Tokens, cutoff: int): Tokens {
    map h | h in tokens && !(tokens[h].expiresAt < cutoff) :: tokens[h]
  }

  function Issue(tokens: Tokens, user: UserId, purpose: Purpose, hash: Hash, expiresAt: int, now: int): Tokens {
    InvalidateUnused(tokens, user, purpose, now)[hash := Row(user, purpose, expiresAt, None, now)]
  }

  function Unused(tokens: Tokens, user: UserId, purpose: Purpose): set<Hash> {
    set h | h in tokens && tokens[h].user == user && tokens[h].purpose == purpose && tokens[h].usedAt == None
  }

  /** The repository and the service on top of it, one call at a time. */
  class OneTimeTokenService {
    var tokens: Tokens

    constructor ()
      ensures tokens == map[]
    {
      tokens := map[];
    }

    /** Older unused tokens of this kind stop working, the new one is the only unused one, and nothing else changes. */
    method IssueToken(user: UserId, purpose: Purpose, hash: Hash, ttl: int, now: int)
      requires hash !in tokens
      modifies this
      ensures tokens == Issue(old(tokens), user, purpose, hash, now + ttl, now)
      ensures Unused(tokens, user, purpose) == {hash}
      ensures forall at :: Valid(tokens, purpose, hash, at) <==> at < now + ttl
      ensures forall h :: h in old(tokens) && (old(tokens)[h].user != user || old(tokens)[h].purpose != purpose) ==>
                h in tokens && tokens[h] == old(tokens)[h]
    {
      tokens := map h | h in tokens ::
        if tokens[h].user == user && tokens[h].purpose == purpose && tokens[h].usedAt == None
        then tokens[h].(usedAt := Some(now)) else tokens[h];
      tokens := tokens[hash := Row(user, purpose, now + ttl, None, now)];
    }

    /** Valid exactly once: a second call with the same token finds nothing. */
    method Redeem(purpose: Purpose, hash: Hash, now: int) returns (found: Option<Row>)
      modifies this
      ensures tokens == Claim(old(tokens), purpose, hash, now)
      ensures found.Some? <==> Valid(old(tokens), purpose, hash, now)
      ensures found.Some? ==> found.value == old(tokens)[hash].(usedAt := Some(now))
      ensures forall p, later :: !Valid(tokens, p, hash, later) || !Valid(old(tokens), purpose, hash, now)
      ensures tokens.Keys == old(tokens).Keys && forall h :: h in tokens && h != hash ==> tokens[h] == old(tokens)[h]
    {
      found := None;
      if && hash in tokens && tokens[hash].purpose == purpose
         && tokens[hash].usedAt == None && tokens[hash].expiresAt > now {
        tokens := tokens[hash := tokens[hash].(usedAt := Some(now))];
        found := Some(tokens[hash]);
      }
    }

    /** Finds exactly what `Redeem` would claim at that moment, and spends nothing. */
    method Peek(purpose: Purpose, hash: Hash, now: int) returns (found: Option<Row>)
      ensures found.Some? <==> Claim(tokens, purpose, hash, now) != tokens
      ensures found.Some? ==> Claim(tokens, purpose, hash, now) == tokens[hash := found.value.(usedAt := Some(now))]
      ensures found.Some? ==> hash in tokens && found.value == tokens[hash] && found.value.usedAt == None
    {
      found := FindUnused(tokens, purpose, hash, now);
    }

    method Invalidate(user: UserId, purpose: Purpose, now: int)
      modifies this
      ensures tokens == InvalidateUnused(old(tokens), user, purpose, now)
      ensures Unused(tokens, user, purpose) == {}
      ensures forall h :: h in old(tokens) && (old(tokens)[h].user != user || old(tokens)[h].purpose != purpose) ==>
                h in tokens && tokens[h] == old(tokens)[h]
    {
      tokens := InvalidateUnused(tokens, user, purpose, now);
    }

    method IssuedWithin(user: UserId, purpose: Purpose, window: int, now: int) returns (n: nat)
      ensures n == |IssuedSince(tokens, user, purpose, now - window)|
    {
      n := |IssuedSince(tokens, user, purpose, now - window)|;
    }
  }

  /** A new token adds one to every count of its own user and purpose that reaches up to it, and to no other count. */
  lemma CountsItsOwn(
    tokens: Tokens, u: UserId, p: Purpose, hash: Hash, expiresAt: int, now: int,
    user: UserId, purpose: Purpose, since: int)
    requires hash !in tokens && since < now
    ensures |IssuedSince(Issue(tokens, u, p, hash, expiresAt, now), user, purpose, since)|
            == |IssuedSince(tokens, user, purpose, since)| + if u == user && p == purpose then 1 else 0
  {
    CountIgnoresUse(tokens, user, purpose, since);
    var revoked := InvalidateUnused(tokens, u, p, now);
    InsertCounts(revoked, hash, Row(u, p, expiresAt, None, now), user, purpose, since);
  }

  lemma InsertCounts(tokens: Tokens, hash: Hash, row: Row, user: UserId, purpose: Purpose, since: int)
    requires hash !in tokens && since < row.createdAt
    ensures |IssuedSince(tokens[hash := row], user, purpose, since)|
            == |IssuedSince(tokens, user, purpose, since)| + if row.user == user && row.purpose == purpose then 1 else 0
  {
    var before := IssuedSince(tokens, user, purpose, since);
    var after := IssuedSince(tokens[hash := row], user, purpose, since);
    if row.user == user && row.purpose == purpose {
      assert after == before + {hash};
    } else {
      assert after == before;
    }
  }

  /** Revoking and redeeming take nothing away from any count. */
  lemma CountIgnoresUse(tokens: Tokens, user: UserId, purpose: Purpose, since: int)
    ensures forall u, p, at :: IssuedSince(InvalidateUnused(tokens, u, p, at), user, purpose, since)
                               == IssuedSince(tokens, user, purpose, since)
    ensures forall p, h, at :: IssuedSince(Claim(tokens, p, h, at), user, purpose, since)
                               == IssuedSince(tokens, user, purpose, since)
  {
  }

  // ---- calls of `issue` in flight ----------------------------------------------------

  type CallId = nat

  /** A call between its two statements; `rivals` are the tokens of its kind inserted since its own revocation. */
  datatype Call = Call(user: UserId, purpose: Purpose, rivals: set<Hash>)

  /** `latest` remembers the last token inserted for each user and purpose. */
  datatype State = State(
    now: int, tokens: Tokens, calls: map<CallId, Call>, issued: set<Hash>, latest: map<(UserId, Purpose), Hash>)

  datatype Event =
    | Tick(elapsed: nat)
    | Revoke(call: CallId, user: UserId, purpose: Purpose)
    | Insert(call: CallId, hash: Hash, expiresAt: int)
    | Drop(call: CallId)
    | Spend(purpose: Purpose, hash: Hash)
    | RevokeAll(user: UserId, purpose: Purpose)
    | Sweep(cutoff: int)

  predicate SameKind(c: Call, user: UserId, purpose: Purpose) {
    c.user == user && c.purpose == purpose
  }

  function Inserted(s: State, call: CallId, hash: Hash, expiresAt: int): State
    requires call in s.calls
  {
    var c := s.calls[call];
    s.(tokens := s.tokens[hash := Row(c.user, c.purpose, expiresAt, None, s.now)],
       calls := map k | k in s.calls && k != call ::
         if SameKind(s.calls[k], c.user, c.purpose) then s.calls[k].(rivals := s.calls[k].rivals + {hash})
         else s.calls[k],
       issued := s.issued + {hash},
       latest := s.latest[(c.user, c.purpose) := hash])
  }

  function Step(s: State, e: Event): State {
    match e
    case Tick(elapsed) => s.(now := s.now + elapsed)
    case Revoke(call, user, purpose) =>
      if call in s.calls then s
      else s.(tokens := InvalidateUnused(s.tokens, user, purpose, s.now),
              calls := s.calls[call := Call(user, purpose, {})])
    case Insert(call, hash, expiresAt) =>
      if call in s.calls && hash !in s.issued then Inserted(s, call, hash, expiresAt) else s
    case Drop(call) => s.(calls := s.calls - {call})
    case Spend(purpose, hash) => s.(tokens := Claim(s.tokens, purpose, hash, s.now))
    case RevokeAll(user, purpose) => s.(tokens := InvalidateUnused(s.tokens, user, purpose, s.now))
    case Sweep(cutoff) => s.(tokens := DeleteExpired(s.tokens, cutoff))
  }

  predicate Initial(s: State) {
    s.tokens == map[] && s.calls == map[] && s.issued == {} && s.latest == map[]
  }

  /** Only a rival can be unused while a call is between its statements. */
  predicate CallOk(tokens: Tokens, c: Call) {
    Unused(tokens, c.user, c.purpose) <= c.rivals
  }

  predicate Inv(s: State) {
    && s.tokens.Keys <= s.issued
    && (forall k {:trigger CallOk(s.tokens, s.calls[k])} :: k in s.calls ==> CallOk(s.tokens, s.calls[k]))
  }

  lemma StepKeepsInv(s: State, e: Event)
    requires Inv(s)
    ensures Inv(Step(s, e))
  {
    var s' := Step(s, e);
    forall k | k in s'.calls ensures CallOk(s'.tokens, s'.calls[k]) {
      if k in s.calls { assert CallOk(s.tokens, s.calls[k]); }
    }
  }

  lemma RunKeepsInv(s: State, events: seq<Event>)
    requires Initial(s)
    ensures Inv(Run(Step, s, events))
  {
    forall t, e | Inv(t) ensures Inv(Step(t, e)) { StepKeepsInv(t, e); }
    Invariant(Step, Inv, s, events);
  }

  /**
   * In every interleaving: the token that `issue` inserts is the only unused one of its kind if and only if every token
   * of that kind inserted since the call's own revocation has been used or deleted by then.
   */
  lemma IssueLeavesOneIff(s: State, events: seq<Event>, call: CallId, hash: Hash, expiresAt: int)
    requires Initial(s) && call in Run(Step, s, events).calls && hash !in Run(Step, s, events).issued
    ensures var before := Run(Step, s, events);
            var c := before.calls[call];
            Unused(Run(Step, s, events + [Insert(call, hash, expiresAt)]).tokens, c.user, c.purpose) == {hash}
            <==> c.rivals !! Unused(before.tokens, c.user, c.purpose)
  {
    RunKeepsInv(s, events);
    RunThen(Step, s, events, Insert(call, hash, expiresAt));
    var before := Run(Step, s, events);
    var c := before.calls[call];
    assert CallOk(before.tokens, c);
    var unused := Unused(before.tokens, c.user, c.purpose);
    assert Unused(Step(before, Insert(call, hash, expiresAt)).tokens, c.user, c.purpose) == unused + {hash};
    assert hash !in unused;
    if unused != {} {
      var h :| h in unused;
      assert h in unused + {hash} && h != hash;
    }
  }

  /** The condition fails in a run: two calls that overlap leave two working tokens. */
  lemma OverlappingIssues(s: State, user: UserId, purpose: Purpose, a: Hash, b: Hash, expiresAt: int) returns (t: State)
    requires Initial(s) && a != b && s.now < expiresAt
    ensures Reaches(Step, s, t)
    ensures Valid(t.tokens, purpose, a, t.now) && Valid(t.tokens, purpose, b, t.now)
    ensures t.tokens[a].user == t.tokens[b].user == user
  {
    ReachesStart(Step, s);
    t := s;
    ReachesThen(Step, s, t, Revoke(0, user, purpose));
    t := Step(t, Revoke(0, user, purpose));
    ReachesThen(Step, s, t, Revoke(1, user, purpose));
    t := Step(t, Revoke(1, user, purpose));
    ReachesThen(Step, s, t, Insert(0, a, expiresAt));
    t := Step(t, Insert(0, a, expiresAt));
    assert t.tokens[a] == Row(user, purpose, expiresAt, None, s.now);
    ReachesThen(Step, s, t, Insert(1, b, expiresAt));
    t := Step(t, Insert(1, b, expiresAt));
  }

  // ---- no two calls of a kind at once ------------------------------------------------

  /** No call starts while another one for the same user and purpose is in flight. */
  predicate OneAtATime(s: State, e: Event) {
    e.Revoke? ==> forall k :: k in s.calls ==> !SameKind(s.calls[k], e.user, e.purpose)
  }

  predicate IsLatest(s: State, hash: Hash, row: Row) {
    (row.user, row.purpose) in s.latest && s.latest[(row.user, row.purpose)] == hash
  }

  /** One call of a kind, without rivals, and every unused token is the latest of its kind. */
  predicate OnlyLatest(s: State) {
    && Inv(s)
    && (forall k :: k in s.calls ==> s.calls[k].rivals == {})
    && (forall j, k :: j in s.calls && k in s.calls && SameKind(s.calls[j], s.calls[k].user, s.calls[k].purpose) ==>
          j == k)
    && (forall h {:trigger IsLatest(s, h, s.tokens[h])} ::
          h in s.tokens && s.tokens[h].usedAt == None ==> IsLatest(s, h, s.tokens[h]))
  }

  lemma InsertKeepsOnlyLatest(s: State, call: CallId, hash: Hash, expiresAt: int)
    requires OnlyLatest(s) && call in s.calls && hash !in s.issued
    ensures OnlyLatest(Inserted(s, call, hash, expiresAt))
  {
    var s' := Inserted(s, call, hash, expiresAt);
    StepKeepsInv(s, Insert(call, hash, expiresAt));
    var c := s.calls[call];
    assert CallOk(s.tokens, c);
    forall h | h in s'.tokens && s'.tokens[h].usedAt == None ensures IsLatest(s', h, s'.tokens[h]) {
      if h != hash {
        assert IsLatest(s, h, s.tokens[h]);
        assert h !in Unused(s.tokens, c.user, c.purpose);
      }
    }
  }

  lemma StepKeepsOnlyLatest(s: State, e: Event)
    requires OnlyLatest(s) && OneAtATime(s, e)
    ensures OnlyLatest(Step(s, e))
  {
    StepKeepsInv(s, e);
    if e.Insert? {
      if e.call in s.calls && e.hash !in s.issued { InsertKeepsOnlyLatest(s, e.call, e.hash, e.expiresAt); }
    } else {
      var s' := Step(s, e);
      forall h | h in s'.tokens && s'.tokens[h].usedAt == None ensures IsLatest(s', h, s'.tokens[h]) {
        assert IsLatest(s, h, s.tokens[h]);
      }
    }
  }

  lemma RunKeepsOnlyLatest(s: State, events: seq<Event>)
    requires Initial(s) && Allowed(Step, OneAtATime, s, events)
    ensures OnlyLatest(Run(Step, s, events))
  {
    forall t, e | OnlyLatest(t) && OneAtATime(t, e) ensures OnlyLatest(Step(t, e)) { StepKeepsOnlyLatest(t, e); }
    InvariantWhile(Step, OneAtATime, OnlyLatest, s, events);
  }

  /**
   * With calls of a kind one at a time, whatever is redeemed, revoked, swept or dropped between their statements: only
   * the newest link of a kind can still work, and it is the only unused one.
   */
  lemma OnlyNewestLinkWorks(s: State, events: seq<Event>, purpose: Purpose, hash: Hash, at: int)
    requires Initial(s) && Allowed(Step, OneAtATime, s, events)
    requires Valid(Run(Step, s, events).tokens, purpose, hash, at)
    ensures var now := Run(Step, s, events);
            var user := now.tokens[hash].user;
            && (user, purpose) in now.latest && now.latest[(user, purpose)] == hash
            && Unused(now.tokens, user, purpose) == {hash}
  {
    RunKeepsOnlyLatest(s, events);
    var now := Run(Step, s, events);
    var user := now.tokens[hash].user;
    assert IsLatest(now, hash, now.tokens[hash]);
    forall h | h in Unused(now.tokens, user, purpose) ensures h == hash {
      assert IsLatest(now, h, now.tokens[h]);
    }
  }

  /** Spending a working token ends it for good, and touches no other one. */
  lemma SpendWorks(s: State, purpose: Purpose, hash: Hash)
    requires Valid(s.tokens, purpose, hash, s.now)
    ensures var after := Step(s, Spend(purpose, hash)).tokens;
            && (forall p, at :: !Valid(after, p, hash, at))
            && (forall h, p, at :: h != hash ==> (Valid(after, p, h, at) <==> Valid(s.tokens, p, h, at)))
  {
  }

  /** Revoking ends exactly the tokens of that user and purpose. */
  lemma RevokeWorks(s: State, user: UserId, purpose: Purpose)
    ensures var after := Step(s, RevokeAll(user, purpose)).tokens;
            && Unused(after, user, purpose) == {}
            && (forall h, p, at :: h in s.tokens && (s.tokens[h].user != user || p != purpose) ==>
                  (Valid(after, p, h, at) <==> Valid(s.tokens, p, h, at)))
  {
  }

  /** A sweep removes exactly the rows that expired before its cutoff. */
  lemma SweepWorks(s: State, cutoff: int, call: CallId)
    ensures var after := Step(s, Sweep(cutoff)).tokens;
            && (forall h :: h in after <==> h in s.tokens && s.tokens[h].expiresAt >= cutoff)
            && (forall h :: h in after ==> after[h] == s.tokens[h])
    ensures call !in Step(s, Drop(call)).calls && Step(s, Drop(call)).tokens == s.tokens
  {
  }
}
