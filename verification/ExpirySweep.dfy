/**
 * The hourly expiry sweep deletes rows behind everyone's back. Over whole runs, inserting sweeps anywhere changes the
 * answer of no later claim, peek, scan, approval, hand-over or issue count.
 */
module ExpirySweep {
  import opened Common
  import Tokens = OneTimeTokens
  import OAuth
  import Qr = QrLogin

  type Key = nat

  datatype ChallengeKind = Registration | Authentication

  datatype Challenge = Challenge(kind: ChallengeKind, user: Option<UserId>, state: nat, expiresAt: int)

  type Challenges = map<Key, Challenge>

  predicate CanClaimChallenge(rows: Challenges, id: Key, kind: ChallengeKind, user: Option<UserId>, now: int) {
    id in rows && rows[id].kind == kind && rows[id].user == user && rows[id].expiresAt > now
  }

  class PasskeysRepository {
    var challenges: Challenges

    constructor ()
      ensures challenges == map[]
    {
      challenges := map[];
    }

    /** The new challenge can be answered until it expires, by its user alone; no other one is lost. */
    method AddChallenge(id: Key, challenge: Challenge, now: int)
      modifies this
      ensures challenges == ChallengesSince(old(challenges), now)[id := challenge]
      ensures forall kind, user, at ::
                CanClaimChallenge(challenges, id, kind, user, at)
                <==> kind == challenge.kind && user == challenge.user && at < challenge.expiresAt
      ensures forall k, kind, user, at :: k != id && now <= at ==>
                (CanClaimChallenge(challenges, k, kind, user, at)
                 <==> CanClaimChallenge(old(challenges), k, kind, user, at))
      ensures forall k :: k != id ==> (k in challenges <==> k in old(challenges) && old(challenges)[k].expiresAt >= now)
    {
      challenges := map k | k in challenges && challenges[k].expiresAt >= now :: challenges[k];
      challenges := challenges[id := challenge];
    }

    /** A challenge is answered once, by the user it was made for (or by nobody in particular). */
    method TakeChallenge(id: Key, kind: ChallengeKind, user: Option<UserId>, now: int) returns (state: Option<nat>)
      modifies this
      ensures state == if CanClaimChallenge(old(challenges), id, kind, user, now) then Some(old(challenges)[id].state)
                       else None
      ensures challenges == if state.Some? then old(challenges) - {id} else old(challenges)
      ensures state.Some? ==> forall k, u, later :: !CanClaimChallenge(challenges, id, k, u, later)
    {
      state := None;
      if && id in challenges && challenges[id].kind == kind
         && challenges[id].user == user && challenges[id].expiresAt > now {
        state := Some(challenges[id].state);
        challenges := challenges - {id};
      }
    }
  }

  /** The five swept tables. */
  datatype Db = Db(
    tokens: Tokens.Tokens, states: OAuth.States, challenges: Challenges, sessions: Qr.Sessions, grants: OAuth.Grants)

  datatype Table = AuthTokens | OAuthStates | WebauthnChallenges | QrSessions | LoginGrants

  const SWEPT_TABLES: seq<Table> := [AuthTokens, OAuthStates, WebauthnChallenges, QrSessions, LoginGrants]

  function StatesSince(rows: OAuth.States, cutoff: int): OAuth.States {
    map k | k in rows && !(rows[k].expiresAt < cutoff) :: rows[k]
  }

  function ChallengesSince(rows: Challenges, cutoff: int): Challenges {
    map k | k in rows && !(rows[k].expiresAt < cutoff) :: rows[k]
  }

  function SessionsSince(rows: Qr.Sessions, cutoff: int): Qr.Sessions {
    map k | k in rows && !(rows[k].expiresAt < cutoff) :: rows[k]
  }

  function GrantsSince(rows: OAuth.Grants, cutoff: int): OAuth.Grants {
    map k | k in rows && !(rows[k].expiresAt < cutoff) :: rows[k]
  }

  /** `DELETE FROM <table> WHERE expires_at < $1` */
  function Delete(db: Db, table: Table, cutoff: int): Db {
    match table
    case AuthTokens => db.(tokens := Tokens.DeleteExpired(db.tokens, cutoff))
    case OAuthStates => db.(states := StatesSince(db.states, cutoff))
    case WebauthnChallenges => db.(challenges := ChallengesSince(db.challenges, cutoff))
    case QrSessions => db.(sessions := SessionsSince(db.sessions, cutoff))
    case LoginGrants => db.(grants := GrantsSince(db.grants, cutoff))
  }

  function DeleteFirst(db: Db, n: nat, cutoff: int): Db
    requires n <= |SWEPT_TABLES|
  {
    if n == 0 then db else Delete(DeleteFirst(db, n - 1, cutoff), SWEPT_TABLES[n - 1], cutoff)
  }

  class Database {
    var db: Db

    constructor (db: Db)
      ensures this.db == db
    {
      this.db := db;
    }

    /** `cleanup::run` without the two prunes: one cutoff for all tables; exactly the rows an hour past expiry go. */
    method SweepExpired(now: int)
      modifies this
      ensures db == DeleteFirst(old(db), 5, now - HOUR)
      ensures forall k :: k in db.tokens <==> k in old(db).tokens && old(db).tokens[k].expiresAt >= now - HOUR
      ensures forall k :: k in db.states <==> k in old(db).states && old(db).states[k].expiresAt >= now - HOUR
      ensures forall k :: k in db.challenges <==>
                k in old(db).challenges && old(db).challenges[k].expiresAt >= now - HOUR
      ensures forall k :: k in db.sessions <==> k in old(db).sessions && old(db).sessions[k].expiresAt >= now - HOUR
      ensures forall k :: k in db.grants <==> k in old(db).grants && old(db).grants[k].expiresAt >= now - HOUR
    {
      var cutoff := now - HOUR;
      for i := 0 to |SWEPT_TABLES|
        invariant db == DeleteFirst(old(db), i, cutoff)
      {
        db := Delete(db, SWEPT_TABLES[i], cutoff);
      }
      SweptContents(old(db), cutoff);
    }
  }

  lemma SweptContents(db: Db, cutoff: int)
    ensures DeleteFirst(db, 5, cutoff)
            == Db(Tokens.DeleteExpired(db.tokens, cutoff), StatesSince(db.states, cutoff),
                  ChallengesSince(db.challenges, cutoff), SessionsSince(db.sessions, cutoff),
                  GrantsSince(db.grants, cutoff))
  {
    var one := Delete(db, AuthTokens, cutoff);
    var two := Delete(one, OAuthStates, cutoff);
    var three := Delete(two, WebauthnChallenges, cutoff);
    var four := Delete(three, QrSessions, cutoff);
    assert DeleteFirst(db, 1, cutoff) == one;
    assert DeleteFirst(db, 2, cutoff) == two;
    assert DeleteFirst(db, 3, cutoff) == three;
    assert DeleteFirst(db, 4, cutoff) == four;
  }

  // ---- operations and their answers --------------------------------------------------

  datatype Op =
    | InsertToken(hash: Key, user: UserId, purpose: Tokens.Purpose, expiresAt: int)
    | InvalidateTokens(user: UserId, purpose: Tokens.Purpose)
    | PeekToken(purpose: Tokens.Purpose, hash: Key)
    | ClaimToken(purpose: Tokens.Purpose, hash: Key)
    | CountTokens(user: UserId, purpose: Tokens.Purpose)
    | InsertState(hash: Key, state: OAuth.StateRow)
    | ClaimState(hash: Key)
    | InsertGrant(code: Key, grant: OAuth.GrantRow)
    | ClaimGrant(code: Key)
    | InsertChallenge(id: Key, challenge: Challenge)
    | ClaimChallenge(id: Key, kind: ChallengeKind, who: Option<UserId>)
    | InsertSession(id: Key, session: Qr.Row)
    | FindLiveSession(id: Key)
    | ScanSession(id: Key, user: UserId)
    | ResolveSession(id: Key, user: UserId, to: Qr.Status)
    | CountWrongCode(id: Key)
    | ConsumeSession(id: Key)
    | Sweep(table: Table, cutoff: int)

  /** An operation and the clock reading it makes. */
  datatype Timed = At(now: int, op: Op)

  datatype Answer =
    | NoAnswer
    | Token(found: Option<Tokens.Row>)
    | Count(n: nat)
    | State(state: Option<OAuth.StateRow>)
    | Grant(user: Option<UserId>)
    | Ceremony(ceremony: Option<nat>)
    | Session(session: Option<Qr.Row>)
    | Won(won: bool)

  function AnswerTo(db: Db, t: Timed): Answer {
    match t.op
    case PeekToken(purpose, hash) => Token(Tokens.FindUnused(db.tokens, purpose, hash, t.now))
    case ClaimToken(purpose, hash) => Token(Tokens.FindUnused(db.tokens, purpose, hash, t.now))
    case CountTokens(user, purpose) => Count(|Tokens.IssuedSince(db.tokens, user, purpose, t.now - HOUR)|)
    case ClaimState(hash) => State(if OAuth.CanClaimState(db.states, hash, t.now) then Some(db.states[hash]) else None)
    case ClaimGrant(code) =>
      Grant(if OAuth.CanClaimGrant(db.grants, code, t.now) then Some(db.grants[code].user) else None)
    case ClaimChallenge(id, kind, who) =>
      Ceremony(if CanClaimChallenge(db.challenges, id, kind, who, t.now) then Some(db.challenges[id].state) else None)
    case FindLiveSession(id) =>
      Session(if id in db.sessions && db.sessions[id].expiresAt > t.now then Some(db.sessions[id]) else None)
    case ScanSession(id, _) => Won(Qr.CanMarkScanned(db.sessions, id, t.now))
    case ResolveSession(id, user, _) => Won(Qr.CanResolve(db.sessions, id, user, t.now))
    case ConsumeSession(id) => Grant(if Qr.CanConsume(db.sessions, id, t.now) then db.sessions[id].user else None)
    case _ => NoAnswer
  }

  /** What the answers say: each is there exactly while its row can be claimed, and is that row's. */
  lemma AnswersMean(db: Db, now: int)
    ensures forall p, h :: AnswerTo(db, At(now, ClaimToken(p, h))) == AnswerTo(db, At(now, PeekToken(p, h)))
    ensures forall p, h :: AnswerTo(db, At(now, ClaimToken(p, h)))
                           == Token(if Tokens.Valid(db.tokens, p, h, now) then Some(db.tokens[h]) else None)
    ensures forall h :: AnswerTo(db, At(now, ClaimState(h)))
                        == State(if OAuth.CanClaimState(db.states, h, now) then Some(db.states[h]) else None)
    ensures forall c :: AnswerTo(db, At(now, ClaimGrant(c)))
                        == Grant(if OAuth.CanClaimGrant(db.grants, c, now) then Some(db.grants[c].user) else None)
    ensures forall id, k, u :: AnswerTo(db, At(now, ClaimChallenge(id, k, u))) == Ceremony(None)
                               <==> !CanClaimChallenge(db.challenges, id, k, u, now)
    ensures forall id :: AnswerTo(db, At(now, ConsumeSession(id)))
                         == Grant(if Qr.CanConsume(db.sessions, id, now) then db.sessions[id].user else None)
    ensures forall id, u :: AnswerTo(db, At(now, ScanSession(id, u))) == Won(Qr.CanMarkScanned(db.sessions, id, now))
    ensures forall id, u, to :: AnswerTo(db, At(now, ResolveSession(id, u, to)))
                                == Won(Qr.CanResolve(db.sessions, id, u, now))
    ensures forall u, p, n: nat :: AnswerTo(db, At(now, CountTokens(u, p))) == Count(n)
                                   <==> n == |Tokens.IssuedSince(db.tokens, u, p, now - HOUR)|
  {
  }

  function TokensAfter(rows: Tokens.Tokens, t: Timed): Tokens.Tokens {
    match t.op
    case InsertToken(hash, user, purpose, expiresAt) => rows[hash := Tokens.Row(user, purpose, expiresAt, None, t.now)]
    case InvalidateTokens(user, purpose) => Tokens.InvalidateUnused(rows, user, purpose, t.now)
    case ClaimToken(purpose, hash) => Tokens.Claim(rows, purpose, hash, t.now)
    case Sweep(table, cutoff) => if table == AuthTokens then Tokens.DeleteExpired(rows, cutoff) else rows
    case _ => rows
  }

  function StatesAfter(rows: OAuth.States, t: Timed): OAuth.States {
    match t.op
    case InsertState(hash, row) => OAuth.InsertState(rows, hash, row, t.now)
    case ClaimState(hash) => OAuth.ClaimState(rows, hash, t.now)
    case Sweep(table, cutoff) => if table == OAuthStates then StatesSince(rows, cutoff) else rows
    case _ => rows
  }

  /** Inserting a challenge first drops the expired ones. */
  function ChallengesAfter(rows: Challenges, t: Timed): Challenges {
    match t.op
    case InsertChallenge(id, row) => ChallengesSince(rows, t.now)[id := row]
    case ClaimChallenge(id, kind, who) => if CanClaimChallenge(rows, id, kind, who, t.now) then rows - {id} else rows
    case Sweep(table, cutoff) => if table == WebauthnChallenges then ChallengesSince(rows, cutoff) else rows
    case _ => rows
  }

  /** Inserting a session first drops those a day past their expiry. */
  function SessionsAfter(rows: Qr.Sessions, t: Timed): Qr.Sessions {
    match t.op
    case InsertSession(id, row) => SessionsSince(rows, t.now - DAY)[id := row]
    case ScanSession(id, user) => Qr.MarkScanned(rows, id, user, t.now)
    case ResolveSession(id, user, to) => Qr.Resolve(rows, id, user, to, t.now)
    case CountWrongCode(id) => Qr.RecordWrongCode(rows, id)
    case ConsumeSession(id) => Qr.Consume(rows, id, t.now)
    case Sweep(table, cutoff) => if table == QrSessions then SessionsSince(rows, cutoff) else rows
    case _ => rows
  }

  function GrantsAfter(rows: OAuth.Grants, t: Timed): OAuth.Grants {
    match t.op
    case InsertGrant(code, row) => OAuth.InsertGrant(rows, code, row, t.now)
    case ClaimGrant(code) => OAuth.ClaimGrant(rows, code, t.now)
    case Sweep(table, cutoff) => if table == LoginGrants then GrantsSince(rows, cutoff) else rows
    case _ => rows
  }

  function After(db: Db, t: Timed): Db {
    Db(TokensAfter(db.tokens, t), StatesAfter(db.states, t), ChallengesAfter(db.challenges, t),
       SessionsAfter(db.sessions, t), GrantsAfter(db.grants, t))
  }

  /** What was claimed or won once is never claimed or won again. */
  lemma SingleUse(db: Db, t: Timed, later: int)
    requires match t.op
             case ClaimToken(_, _) => AnswerTo(db, t).found.Some?
             case ClaimState(_) => AnswerTo(db, t).state.Some?
             case ClaimGrant(_) => AnswerTo(db, t).user.Some?
             case ClaimChallenge(_, _, _) => AnswerTo(db, t).ceremony.Some?
             case ScanSession(_, _) => AnswerTo(db, t).won
             case ResolveSession(_, _, to) => AnswerTo(db, t).won && to != Qr.Scanned
             case ConsumeSession(_) => AnswerTo(db, t).user.Some?
             case _ => false
    ensures var again := AnswerTo(After(db, t), At(later, t.op));
            match t.op
            case ClaimToken(_, _) => again == Token(None)
            case ClaimState(_) => again == State(None)
            case ClaimGrant(_) => again == Grant(None)
            case ClaimChallenge(_, _, _) => again == Ceremony(None)
            case ScanSession(_, _) => again == Won(false)
            case ResolveSession(_, _, _) => again == Won(false)
            case ConsumeSession(_) => again == Grant(None)
            case _ => true
  {
  }

  /** What was inserted is there, until it expires. */
  lemma InsertedIsThere(db: Db, now: int, key: Key, user: UserId, at: int)
    ensures forall p, until ::
              AnswerTo(After(db, At(now, InsertToken(key, user, p, until))), At(at, ClaimToken(p, key)))
              == Token(if at < until then Some(Tokens.Row(user, p, until, None, now)) else None)
    ensures forall row :: AnswerTo(After(db, At(now, InsertState(key, row))), At(at, ClaimState(key)))
                          == State(if at < row.expiresAt then Some(row) else None)
    ensures forall row :: AnswerTo(After(db, At(now, InsertGrant(key, row))), At(at, ClaimGrant(key)))
                          == Grant(if at < row.expiresAt && row.usedAt == None then Some(row.user) else None)
    ensures forall row ::
              AnswerTo(After(db, At(now, InsertChallenge(key, row))), At(at, ClaimChallenge(key, row.kind, row.user)))
              == Ceremony(if at < row.expiresAt then Some(row.state) else None)
    ensures forall row :: AnswerTo(After(db, At(now, InsertSession(key, row))), At(at, FindLiveSession(key)))
                          == Session(if at < row.expiresAt then Some(row) else None)
  {
  }

  /** The answers of a run, in order; sweeps answer nothing. */
  function Answers(db: Db, run: seq<Timed>): seq<Answer>
    decreases |run|
  {
    if run == [] then []
    else (if run[0].op.Sweep? then [] else [AnswerTo(db, run[0])]) + Answers(After(db, run[0]), run[1..])
  }

  function WithoutSweeps(run: seq<Timed>): seq<Timed> {
    if run == [] then []
    else (if run[0].op.Sweep? then [] else [run[0]]) + WithoutSweeps(run[1..])
  }

  /** The clock never goes back, a sweep leaves an hour of grace, and a token is stored before it expires. */
  predicate Plausible(run: seq<Timed>, from: int) {
    run == [] ||
    (&& from <= run[0].now
     && (run[0].op.Sweep? ==> run[0].op.cutoff <= run[0].now - HOUR)
     && (run[0].op.InsertToken? ==> run[0].now <= run[0].op.expiresAt)
     && Plausible(run[1..], run[0].now))
  }

  // ---- the simulation ----------------------------------------------------------------

  /** `kept` is `full` minus rows that expired before `cutoff`. */
  ghost predicate Lags<R(!new)>(full: map<Key, R>, kept: map<Key, R>, expiresAt: R -> int, cutoff: int) {
    && (forall k :: k in kept ==> k in full && full[k] == kept[k])
    && (forall k :: k in full && k !in kept ==> expiresAt(full[k]) < cutoff)
  }

  const TOKEN_EXPIRY := (r: Tokens.Row) => r.expiresAt
  const STATE_EXPIRY := (r: OAuth.StateRow) => r.expiresAt
  const CHALLENGE_EXPIRY := (r: Challenge) => r.expiresAt
  const SESSION_EXPIRY := (r: Qr.Row) => r.expiresAt
  const GRANT_EXPIRY := (r: OAuth.GrantRow) => r.expiresAt

  predicate TokenDatesOk(rows: Tokens.Tokens) {
    forall k :: k in rows ==> rows[k].createdAt <= rows[k].expiresAt
  }

  ghost predicate Simulates(full: Db, kept: Db, now: int) {
    && Lags(full.tokens, kept.tokens, TOKEN_EXPIRY, now - HOUR)
    && Lags(full.states, kept.states, STATE_EXPIRY, now - HOUR)
    && Lags(full.challenges, kept.challenges, CHALLENGE_EXPIRY, now - HOUR)
    && Lags(full.sessions, kept.sessions, SESSION_EXPIRY, now - HOUR)
    && Lags(full.grants, kept.grants, GRANT_EXPIRY, now - HOUR)
    && TokenDatesOk(full.tokens)
  }

  lemma SameAnswer(full: Db, kept: Db, t: Timed)
    requires Simulates(full, kept, t.now)
    ensures AnswerTo(full, t) == AnswerTo(kept, t)
  {
    if t.op.CountTokens? {
      assert Tokens.IssuedSince(full.tokens, t.op.user, t.op.purpose, t.now - HOUR)
             == Tokens.IssuedSince(kept.tokens, t.op.user, t.op.purpose, t.now - HOUR);
    }
  }

  // Each table by itself: running a statement on both copies, or a sweep on one, keeps the lag.

  lemma TokensLag(full: Tokens.Tokens, kept: Tokens.Tokens, t: Timed)
    requires Lags(full, kept, TOKEN_EXPIRY, t.now - HOUR)
    ensures !t.op.Sweep? ==> Lags(TokensAfter(full, t), TokensAfter(kept, t), TOKEN_EXPIRY, t.now - HOUR)
    ensures t.op.Sweep? && t.op.cutoff <= t.now - HOUR ==> Lags(full, TokensAfter(kept, t), TOKEN_EXPIRY, t.now - HOUR)
  {
  }

  lemma StatesLag(full: OAuth.States, kept: OAuth.States, t: Timed)
    requires Lags(full, kept, STATE_EXPIRY, t.now - HOUR)
    ensures !t.op.Sweep? ==> Lags(StatesAfter(full, t), StatesAfter(kept, t), STATE_EXPIRY, t.now - HOUR)
    ensures t.op.Sweep? && t.op.cutoff <= t.now - HOUR ==> Lags(full, StatesAfter(kept, t), STATE_EXPIRY, t.now - HOUR)
  {
  }

  lemma ChallengesLag(full: Challenges, kept: Challenges, t: Timed)
    requires Lags(full, kept, CHALLENGE_EXPIRY, t.now - HOUR)
    ensures !t.op.Sweep? ==> Lags(ChallengesAfter(full, t), ChallengesAfter(kept, t), CHALLENGE_EXPIRY, t.now - HOUR)
    ensures t.op.Sweep? && t.op.cutoff <= t.now - HOUR ==>
              Lags(full, ChallengesAfter(kept, t), CHALLENGE_EXPIRY, t.now - HOUR)
  {
  }

  lemma SessionsLag(full: Qr.Sessions, kept: Qr.Sessions, t: Timed)
    requires Lags(full, kept, SESSION_EXPIRY, t.now - HOUR)
    ensures !t.op.Sweep? ==> Lags(SessionsAfter(full, t), SessionsAfter(kept, t), SESSION_EXPIRY, t.now - HOUR)
    ensures t.op.Sweep? && t.op.cutoff <= t.now - HOUR ==>
              Lags(full, SessionsAfter(kept, t), SESSION_EXPIRY, t.now - HOUR)
  {
  }

  lemma GrantsLag(full: OAuth.Grants, kept: OAuth.Grants, t: Timed)
    requires Lags(full, kept, GRANT_EXPIRY, t.now - HOUR)
    ensures !t.op.Sweep? ==> Lags(GrantsAfter(full, t), GrantsAfter(kept, t), GRANT_EXPIRY, t.now - HOUR)
    ensures t.op.Sweep? && t.op.cutoff <= t.now - HOUR ==> Lags(full, GrantsAfter(kept, t), GRANT_EXPIRY, t.now - HOUR)
  {
  }

  lemma TokenDatesStay(rows: Tokens.Tokens, t: Timed)
    requires TokenDatesOk(rows) && (t.op.InsertToken? ==> t.now <= t.op.expiresAt)
    ensures TokenDatesOk(TokensAfter(rows, t))
  {
  }

  /** A step of the run without sweeps, matched by the same step, or by nothing if it is a sweep. */
  lemma StepSimulates(full: Db, kept: Db, t: Timed)
    requires Simulates(full, kept, t.now)
    requires t.op.Sweep? ==> t.op.cutoff <= t.now - HOUR
    requires t.op.InsertToken? ==> t.now <= t.op.expiresAt
    ensures Simulates(if t.op.Sweep? then full else After(full, t), After(kept, t), t.now)
  {
    TokensLag(full.tokens, kept.tokens, t);
    StatesLag(full.states, kept.states, t);
    ChallengesLag(full.challenges, kept.challenges, t);
    SessionsLag(full.sessions, kept.sessions, t);
    GrantsLag(full.grants, kept.grants, t);
    TokenDatesStay(full.tokens, t);
  }

  lemma TimePasses(full: Db, kept: Db, now: int, later: int)
    requires Simulates(full, kept, now) && now <= later
    ensures Simulates(full, kept, later)
  {
  }

  lemma {:induction false} SweepInvisibleFrom(full: Db, kept: Db, run: seq<Timed>, from: int)
    requires Simulates(full, kept, from) && Plausible(run, from)
    ensures Answers(full, WithoutSweeps(run)) == Answers(kept, run)
    decreases |run|
  {
    if run == [] {
      assert WithoutSweeps(run) == [];
    } else {
      var t := run[0];
      TimePasses(full, kept, from, t.now);
      StepSimulates(full, kept, t);
      var rest := WithoutSweeps(run);
      if t.op.Sweep? {
        SweepInvisibleFrom(full, After(kept, t), run[1..], t.now);
        assert rest == WithoutSweeps(run[1..]);
        assert Answers(kept, run) == Answers(After(kept, t), run[1..]);
      } else {
        SameAnswer(full, kept, t);
        SweepInvisibleFrom(After(full, t), After(kept, t), run[1..], t.now);
        assert rest[0] == t && rest[1..] == WithoutSweeps(run[1..]);
      }
    }
  }

  /** Taking every sweep out of a run leaves every answer as it was. */
  lemma SweepInvisible(db: Db, run: seq<Timed>, from: int)
    requires Plausible(run, from)
    requires TokenDatesOk(db.tokens)
    ensures Answers(db, run) == Answers(db, WithoutSweeps(run))
  {
    SweepInvisibleFrom(db, db, run, from);
  }

  // ---- what a sweep does show --------------------------------------------------------

  /** The database after a run. */
  function EndOf(db: Db, run: seq<Timed>): Db
    decreases |run|
  {
    if run == [] then db else EndOf(After(db, run[0]), run[1..])
  }

  /** The session table alone after a run. */
  function SessionsEnd(rows: Qr.Sessions, run: seq<Timed>): Qr.Sessions
    decreases |run|
  {
    if run == [] then rows else SessionsEnd(SessionsAfter(rows, run[0]), run[1..])
  }

  lemma {:induction false} EndOfSessions(db: Db, run: seq<Timed>)
    ensures EndOf(db, run).sessions == SessionsEnd(db.sessions, run)
    decreases |run|
  {
    if run == [] {
      assert EndOf(db, run) == db;
    } else {
      EndOfSessions(After(db, run[0]), run[1..]);
    }
  }

  /** The highest cutoff with which sessions were swept. */
  function Highest(run: seq<Timed>, sofar: Option<int>): Option<int>
    decreases |run|
  {
    if run == [] then sofar
    else
      var op := run[0].op;
      Highest(run[1..], if op.Sweep? && op.table == QrSessions then Later(sofar, op.cutoff) else sofar)
  }

  function Later(sofar: Option<int>, cutoff: int): Option<int> {
    if sofar.Some? && sofar.value >= cutoff then sofar else Some(cutoff)
  }

  function Unswept(rows: Qr.Sessions, cutoff: Option<int>): Qr.Sessions {
    if cutoff.None? then rows else SessionsSince(rows, cutoff.value)
  }

  /** Sessions are stored before they expire. */
  predicate SessionsOutlive(run: seq<Timed>) {
    forall i :: 0 <= i < |run| && run[i].op.InsertSession? ==> run[i].now <= run[i].op.session.expiresAt
  }

  /** A statement does the same to the rows that are left, whether the others are still there or not. */
  lemma SweepCommutes(rows: Qr.Sessions, t: Timed, cutoff: Option<int>)
    requires cutoff.Some? ==> cutoff.value <= t.now
    requires t.op.InsertSession? ==> t.now <= t.op.session.expiresAt
    requires !t.op.Sweep?
    ensures SessionsAfter(Unswept(rows, cutoff), t) == Unswept(SessionsAfter(rows, t), cutoff)
  {
  }

  lemma SweepAgain(rows: Qr.Sessions, t: Timed, cutoff: Option<int>)
    requires t.op.Sweep? && t.op.table == QrSessions
    ensures SessionsAfter(Unswept(rows, cutoff), t) == Unswept(rows, Later(cutoff, t.op.cutoff))
  {
  }

  lemma {:induction false} SweptSessionsFrom(rows: Qr.Sessions, run: seq<Timed>, from: int, cutoff: Option<int>)
    requires Plausible(run, from) && SessionsOutlive(run)
    requires cutoff.Some? ==> cutoff.value <= from
    ensures SessionsEnd(Unswept(rows, cutoff), run)
            == Unswept(SessionsEnd(rows, WithoutSweeps(run)), Highest(run, cutoff))
    decreases |run|
  {
    if run == [] {
      assert WithoutSweeps(run) == [];
    } else {
      var t := run[0];
      var rest := WithoutSweeps(run);
      assert forall i :: 0 <= i < |run[1..]| ==> run[1..][i] == run[i + 1];
      if t.op.Sweep? {
        assert rest == WithoutSweeps(run[1..]);
        if t.op.table == QrSessions {
          SweepAgain(rows, t, cutoff);
          SweptSessionsFrom(rows, run[1..], t.now, Later(cutoff, t.op.cutoff));
        } else {
          SweptSessionsFrom(rows, run[1..], t.now, cutoff);
        }
      } else {
        SweepCommutes(rows, t, cutoff);
        assert rest[0] == t && rest[1..] == WithoutSweeps(run[1..]);
        SweptSessionsFrom(SessionsAfter(rows, t), run[1..], t.now, cutoff);
      }
    }
  }

  /** After every run the swept table is the unswept one without the rows that expired before the highest cutoff. */
  lemma SweptSessions(db: Db, run: seq<Timed>, from: int)
    requires Plausible(run, from) && SessionsOutlive(run)
    ensures EndOf(db, run).sessions == Unswept(EndOf(db, WithoutSweeps(run)).sessions, Highest(run, None))
  {
    SweptSessionsFrom(db.sessions, run, from, None);
    EndOfSessions(db, run);
    EndOfSessions(db, WithoutSweeps(run));
  }

  /** The session would be there but for the sweeps, and one of them reached past its expiry. */
  predicate Gone(sessions: Qr.Sessions, id: Key, cutoff: Option<int>) {
    id in sessions && cutoff.Some? && sessions[id].expiresAt < cutoff.value
  }

  /**
   * Looking a session up by id, as polling does, tells `expired` from `not found`: after any run the sweeps show
   * exactly for sessions that expired before the highest cutoff.
   */
  lemma FindShowsSweepIff(db: Db, run: seq<Timed>, from: int, id: Key)
    requires Plausible(run, from) && SessionsOutlive(run)
    ensures var full, kept := EndOf(db, WithoutSweeps(run)).sessions, EndOf(db, run).sessions;
            && ((id in full) != (id in kept) <==> Gone(full, id, Highest(run, None)))
            && (id in kept ==> id in full && full[id] == kept[id])
  {
    SweptSessions(db, run, from);
  }

  /** What `record_wrong_code` answers: this wrong code cancels the session. */
  predicate Cancels(sessions: Qr.Sessions, id: Key) {
    Qr.CountsWrongCode(sessions, id) && sessions[id].attempts + 1 >= Qr.MAX_CODE_ATTEMPTS
  }

  /**
   * Counting a wrong code does not look at the expiry: after any run its answer differs exactly for a session that is
   * gone and was on its last try.
   */
  lemma WrongCodeShowsSweepIff(db: Db, run: seq<Timed>, from: int, id: Key)
    requires Plausible(run, from) && SessionsOutlive(run)
    ensures var full, kept := EndOf(db, WithoutSweeps(run)).sessions, EndOf(db, run).sessions;
            Cancels(full, id) != Cancels(kept, id) <==> Cancels(full, id) && Gone(full, id, Highest(run, None))
  {
    SweptSessions(db, run, from);
  }

  function TwoWrongCodes(id: Key, user: UserId, session: Qr.Row): seq<Timed> {
    [At(0, InsertSession(id, session)), At(1, ScanSession(id, user)),
     At(2, CountWrongCode(id)), At(2, CountWrongCode(id))]
  }

  /** An approval that reads the session in time, and whose wrong code is counted after a sweep. */
  function LateApproval(id: Key, user: UserId, session: Qr.Row): seq<Timed> {
    TwoWrongCodes(id, user, session)
    + [At(3, FindLiveSession(id)), At(HOUR + 20, Sweep(QrSessions, 20))]
  }

  lemma OnItsLastTry(id: Key, user: UserId, session: Qr.Row)
    requires session.status == Qr.Pending && session.attempts == 0 && session.expiresAt == 10
    ensures SessionsEnd(map[], TwoWrongCodes(id, user, session))
            == map[id := session.(status := Qr.Scanned, user := Some(user), attempts := 2)]
  {
    var run := TwoWrongCodes(id, user, session);
    var one: Qr.Sessions := map[id := session];
    assert SessionsAfter(map[], run[0]) == one;
    var two := one[id := session.(status := Qr.Scanned, user := Some(user))];
    assert SessionsAfter(one, run[1]) == two;
    var three := two[id := two[id].(attempts := 1)];
    assert SessionsAfter(two, run[2]) == three;
    var four := three[id := three[id].(attempts := 2)];
    assert SessionsAfter(three, run[3]) == four;
    assert run[1..][1..][1..][1..] == [];
    assert SessionsEnd(one, run[1..]) == SessionsEnd(two, run[1..][1..]);
    assert SessionsEnd(two, run[1..][1..]) == SessionsEnd(three, run[1..][1..][1..]);
    assert SessionsEnd(three, run[1..][1..][1..]) == four;
  }

  lemma {:induction false} SessionsEndConcat(rows: Qr.Sessions, a: seq<Timed>, b: seq<Timed>)
    ensures SessionsEnd(rows, a + b) == SessionsEnd(SessionsEnd(rows, a), b)
    decreases |a|
  {
    if a == [] {
      assert a + b == b;
    } else {
      assert (a + b)[1..] == a[1..] + b;
      SessionsEndConcat(SessionsAfter(rows, a[0]), a[1..], b);
    }
  }

  lemma {:induction false} NothingToTakeOut(a: seq<Timed>, b: seq<Timed>)
    requires forall i :: 0 <= i < |a| ==> !a[i].op.Sweep?
    ensures WithoutSweeps(a + b) == a + WithoutSweeps(b)
    decreases |a|
  {
    if a == [] {
      assert a + b == b;
    } else {
      assert (a + b)[1..] == a[1..] + b;
      NothingToTakeOut(a[1..], b);
    }
  }

  lemma {:induction false} PlausibleWhen(run: seq<Timed>, from: int)
    requires run != [] ==> from <= run[0].now
    requires forall i :: 0 <= i < |run| - 1 ==> run[i].now <= run[i + 1].now
    requires forall i :: 0 <= i < |run| && run[i].op.Sweep? ==> run[i].op.cutoff <= run[i].now - HOUR
    requires forall i :: 0 <= i < |run| ==> !run[i].op.InsertToken?
    ensures Plausible(run, from)
  {
    if run == [] {
      assert Plausible(run, from);
    } else {
      PlausibleWhen(run[1..], run[0].now);
    }
  }

  /**
   * Both differences occur: a session is scanned, two wrong codes are counted, an approval reads it in time, and a
   * sweep runs before that approval's wrong code is counted. Without the sweep the third wrong code cancels the
   * session.
   */
  lemma LateApprovalSeesSweep(db: Db, id: Key, user: UserId, session: Qr.Row) returns (run: seq<Timed>)
    requires db.sessions == map[]
    requires session.status == Qr.Pending && session.attempts == 0 && session.expiresAt == 10
    ensures Plausible(run, 0) && SessionsOutlive(run)
    ensures var full, kept := EndOf(db, WithoutSweeps(run)).sessions, EndOf(db, run).sessions;
            id in full && id !in kept && Cancels(full, id) && !Cancels(kept, id)
  {
    run := LateApproval(id, user, session);
    PlausibleWhen(run, 0);
    var start, find, sweep := TwoWrongCodes(id, user, session), run[4], run[5];
    OnItsLastTry(id, user, session);
    var rows := SessionsEnd(map[], start);

    assert run == start + [find, sweep];
    SessionsEndConcat(map[], start, [find, sweep]);
    assert [find, sweep][1..] == [sweep] && [sweep][1..] == [];
    assert SessionsEnd(rows, [find, sweep]) == SessionsEnd(rows, [sweep]) == SessionsSince(rows, 20);

    NothingToTakeOut(start, [find, sweep]);
    assert WithoutSweeps([find, sweep]) == [find] + WithoutSweeps([sweep]) == [find];
    SessionsEndConcat(map[], start, [find]);
    assert [find][1..] == [];
    assert SessionsEnd(rows, [find]) == rows;

    EndOfSessions(db, run);
    EndOfSessions(db, WithoutSweeps(run));
  }
}
