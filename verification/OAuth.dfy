/**
 * OAuth sign-in as a chain of single-use claims (section 4.1 of RFC 6749): a state is claimed once, leads to at most
 * one grant, a grant is claimed once and leads to at most one access token, for the user the grant was written for.
 */
module OAuth {
  import opened Common
  import opened Runs

  type Hash = nat
  type HandlerId = nat
  type ProviderUser = nat
  type Address = nat

  datatype Provider = Google | Github

  /** `user` is set when a signed-in user is linking the provider. */
  datatype StateRow = StateRow(provider: Provider, user: Option<UserId>, expiresAt: int)

  datatype GrantRow = GrantRow(user: UserId, expiresAt: int, usedAt: Option<int>)

  datatype Profile = Profile(id: ProviderUser, email: Option<Address>, emailVerified: bool)

  datatype Account = Account(email: Address, active: bool, emailVerified: bool)

  type States = map<Hash, StateRow>
  type Grants = map<Hash, GrantRow>
  type Identities = map<(Provider, ProviderUser), UserId>
  type Known = set<(Provider, ProviderUser, UserId)>

  const STATE_TTL: int := 10 * MINUTE
  const GRANT_TTL: int := 60 * SECOND

  // ---- the SQL statements ------------------------------------------------------------

  /** Abandoned requests are dropped before the new one is added. */
  function InsertState(states: States, hash: Hash, row: StateRow, now: int): States {
    (map h | h in states && !(states[h].expiresAt < now) :: states[h])[hash := row]
  }

  predicate CanClaimState(states: States, hash: Hash, now: int) {
    hash in states && states[hash].expiresAt > now
  }

  function ClaimState(states: States, hash: Hash, now: int): States {
    if CanClaimState(states, hash, now) then states - {hash} else states
  }

  function InsertGrant(grants: Grants, code: Hash, row: GrantRow, now: int): Grants {
    (map c | c in grants && !(grants[c].expiresAt < now) :: grants[c])[code := row]
  }

  predicate CanClaimGrant(grants: Grants, code: Hash, now: int) {
    code in grants && grants[code].usedAt == None && grants[code].expiresAt > now
  }

  function ClaimGrant(grants: Grants, code: Hash, now: int): Grants {
    if CanClaimGrant(grants, code, now) then grants[code := grants[code].(usedAt := Some(now))] else grants
  }

  function DeleteIdentity(identities: Identities, user: UserId, provider: Provider): Identities {
    map k | k in identities && !(k.0 == provider && identities[k] == user) :: identities[k]
  }

  class OAuthRepository {
    var states: States
    var grants: Grants
    var identities: Identities

    constructor ()
      ensures states == map[] && grants == map[] && identities == map[]
    {
      states, grants, identities := map[], map[], map[];
    }

    /** The new state works until it expires, and no other state stops working. */
    method AddState(hash: Hash, row: StateRow, now: int)
      modifies this`states
      ensures states == InsertState(old(states), hash, row, now)
      ensures forall at :: CanClaimState(states, hash, at) <==> at < row.expiresAt
      ensures forall h, at :: h != hash && now <= at ==>
                (CanClaimState(states, h, at) <==> CanClaimState(old(states), h, at))
      ensures forall h :: h != hash ==> (h in states <==> h in old(states) && old(states)[h].expiresAt >= now)
    {
      states := map h | h in states && states[h].expiresAt >= now :: states[h];
      states := states[hash := row];
    }

    /** A state works once, and only before it expires. */
    method TakeState(hash: Hash, now: int) returns (row: Option<StateRow>)
      modifies this`states
      ensures states == ClaimState(old(states), hash, now)
      ensures row == if CanClaimState(old(states), hash, now) then Some(old(states)[hash]) else None
      ensures row.Some? ==> forall later :: !CanClaimState(states, hash, later)
      ensures forall h :: h in old(states) && h != hash ==> h in states && states[h] == old(states)[h]
    {
      row := None;
      if hash in states && states[hash].expiresAt > now {
        row := Some(states[hash]);
        states := states - {hash};
      }
    }

    /** The new grant works until it expires, for that user, and no other grant stops working. */
    method AddGrant(code: Hash, user: UserId, expiresAt: int, now: int)
      modifies this`grants
      ensures grants == InsertGrant(old(grants), code, GrantRow(user, expiresAt, None), now)
      ensures forall at :: CanClaimGrant(grants, code, at) <==> at < expiresAt
      ensures code in grants && grants[code].user == user
      ensures forall c, at :: c != code && now <= at ==>
                (CanClaimGrant(grants, c, at) <==> CanClaimGrant(old(grants), c, at))
      ensures forall c :: c != code ==> (c in grants <==> c in old(grants) && old(grants)[c].expiresAt >= now)
    {
      grants := map c | c in grants && grants[c].expiresAt >= now :: grants[c];
      grants := grants[code := GrantRow(user, expiresAt, None)];
    }

    /** Consumes a grant and returns who it was issued for; it can never be claimed again. */
    method TakeGrant(code: Hash, now: int) returns (user: Option<UserId>)
      modifies this`grants
      ensures grants == ClaimGrant(old(grants), code, now)
      ensures user == if CanClaimGrant(old(grants), code, now) then Some(old(grants)[code].user) else None
      ensures user.Some? ==> forall later :: !CanClaimGrant(grants, code, later)
      ensures forall c :: c in old(grants) && c != code ==> c in grants && grants[c] == old(grants)[c]
    {
      user := None;
      if code in grants && grants[code].usedAt == None && grants[code].expiresAt > now {
        user := Some(grants[code].user);
        grants := grants[code := grants[code].(usedAt := Some(now))];
      }
    }

    /** `ON CONFLICT DO NOTHING`: nobody's link is taken over, and the account is linked to someone afterwards. */
    method AddIdentity(user: UserId, provider: Provider, who: ProviderUser) returns (linked: bool)
      modifies this`identities
      ensures forall k :: k in old(identities) ==> k in identities && identities[k] == old(identities)[k]
      ensures identities.Keys == old(identities).Keys + {(provider, who)}
      ensures linked <==> identities != old(identities)
      ensures linked ==> identities[(provider, who)] == user
    {
      linked := (provider, who) !in identities;
      if linked { identities := identities[(provider, who) := user]; }
    }

    method RemoveIdentity(user: UserId, provider: Provider) returns (removed: bool)
      modifies this`identities
      ensures identities == DeleteIdentity(old(identities), user, provider)
      ensures removed <==> identities != old(identities)
      ensures forall k :: k in identities <==> k in old(identities) && !(k.0 == provider && old(identities)[k] == user)
      ensures forall k :: k in identities ==> identities[k] == old(identities)[k]
    {
      ghost var before := identities;
      removed := exists k :: k in identities && k.0 == provider && identities[k] == user;
      identities := map k | k in identities && !(k.0 == provider && identities[k] == user) :: identities[k];
      if !removed { assert identities == before; }
    }
  }

  // ---- requests in flight ------------------------------------------------------------

  /** A callback carries the state it claimed as `origin`; one that links in order to sign in, the email it goes by. */
  datatype Pc =
    | ClaimingState(provider: Provider, hash: Hash, denied: bool)
    | AwaitingProfile(origin: Hash, provider: Provider, linking: Option<UserId>)
    | FindingIdentity(origin: Hash, provider: Provider, linking: Option<UserId>, profile: Profile)
    | CheckingLinker(origin: Hash, provider: Provider, who: ProviderUser, user: UserId)
    | FindingAccount(origin: Hash, provider: Provider, who: ProviderUser, email: Address)
    | CreatingAccount(origin: Hash, provider: Provider, who: ProviderUser, email: Address)
    | Linking(origin: Hash, provider: Provider, who: ProviderUser, user: UserId, via: Option<Address>)
    | CheckingUser(origin: Hash, provider: Provider, who: ProviderUser, user: UserId)
    | WritingGrant(origin: Hash, provider: Provider, who: ProviderUser, user: UserId, account: Account)
    | ClaimingGrant(code: Hash)
    | LoadingUser(code: Hash, user: UserId)

  /** What ever came of a state. */
  datatype StateLog = StateLog(
    provider: Provider, linking: Option<UserId>, startedAt: int,
    claimedBy: Option<HandlerId>, claimedAt: Option<int>, grant: Option<Hash>, linkedTo: Option<UserId>)

  /** An access token, and the account of its subject as read when it was issued. */
  datatype Access = Access(subject: UserId, account: Account)

  /** What ever came of a grant; `account` is the account as read before the grant was written. */
  datatype GrantLog = GrantLog(
    origin: Hash, user: UserId, provider: Provider, who: ProviderUser, account: Account, writtenAt: int,
    claimedBy: Option<HandlerId>, claimedAt: Option<int>, tokens: seq<Access>)

  /** A provider account that a callback linked to a user. */
  datatype Link = Link(origin: Hash, provider: Provider, who: ProviderUser, user: UserId, via: Option<Address>)

  /** What callbacks were told: profiles by the provider, accounts by the database, accounts they created. */
  datatype Seen = Seen(
    profiles: set<(Hash, Profile)>, found: set<(Hash, UserId, Account)>, created: set<(Hash, UserId, Address)>)

  /** The history of a run; it outlives the rows. */
  datatype Ledger = Ledger(
    states: map<Hash, StateLog>, grants: map<Hash, GrantLog>, everLinked: Known,
    links: set<Link>, seen: Seen)

  datatype State = State(
    now: int,
    states: States, grants: Grants, identities: Identities, accounts: map<UserId, Account>,
    handlers: map<HandlerId, Pc>,
    ledger: Ledger,
    requireVerifiedEmail: bool,
    held: set<(UserId, Account)>)

  datatype Event =
    | Tick(elapsed: nat)
    | Start(hash: Hash, provider: Provider, linking: Option<UserId>)
    | DeleteRows(states: set<Hash>, grants: set<Hash>)
    | Unlink(user: UserId, provider: Provider)
    | SetAccount(user: UserId, account: Option<Account>)
    | Begin(h: HandlerId, request: Pc)
    | ProfileArrives(h: HandlerId, profile: Option<Profile>)
    | AccountFound(h: HandlerId, found: Option<UserId>)
    | AccountCreated(h: HandlerId, user: UserId)
    | GrantWritten(h: HandlerId, code: Hash)
    | Advance(h: HandlerId)
    | Drop(h: HandlerId)

  function Done(s: State, h: HandlerId): State {
    s.(handlers := s.handlers - {h})
  }

  function Goto(s: State, h: HandlerId, pc: Pc): State {
    s.(handlers := s.handlers[h := pc])
  }

  predicate IsActive(s: State, user: UserId) {
    user in s.accounts && s.accounts[user].active
  }

  function NoteClaimed(l: Ledger, hash: Hash, h: HandlerId, now: int): Ledger
    requires hash in l.states
  {
    l.(states := l.states[hash := l.states[hash].(claimedBy := Some(h), claimedAt := Some(now))])
  }

  function NoteLinked(l: Ledger, link: Link): Ledger
    requires link.origin in l.states
  {
    l.(states := l.states[link.origin := l.states[link.origin].(linkedTo := Some(link.user))],
       everLinked := l.everLinked + {(link.provider, link.who, link.user)},
       links := l.links + {link})
  }

  function NoteGrant(l: Ledger, pc: Pc, code: Hash, now: int): Ledger
    requires pc.WritingGrant? && pc.origin in l.states
  {
    l.(states := l.states[pc.origin := l.states[pc.origin].(grant := Some(code))],
       grants := l.grants[code := GrantLog(pc.origin, pc.user, pc.provider, pc.who, pc.account, now, None, None, [])])
  }

  function NoteExchanged(l: Ledger, code: Hash, h: HandlerId, now: int): Ledger
    requires code in l.grants
  {
    l.(grants := l.grants[code := l.grants[code].(claimedBy := Some(h), claimedAt := Some(now))])
  }

  function NoteToken(l: Ledger, code: Hash, token: Access): Ledger
    requires code in l.grants
  {
    l.(grants := l.grants[code := l.grants[code].(tokens := l.grants[code].tokens + [token])])
  }

  function Claimed(s: State, h: HandlerId, hash: Hash): State
    requires hash in s.ledger.states
  {
    Done(s, h).(states := ClaimState(s.states, hash, s.now), ledger := NoteClaimed(s.ledger, hash, h, s.now))
  }

  function AdvanceClaim(s: State, h: HandlerId, provider: Provider, hash: Hash, denied: bool): State {
    if CanClaimState(s.states, hash, s.now) && hash in s.ledger.states then
      var row := s.states[hash];
      if row.provider != provider || denied then Claimed(s, h, hash)
      else Goto(Claimed(s, h, hash), h, AwaitingProfile(hash, provider, row.user))
    else Done(s, h)
  }

  function AdvanceIdentity(s: State, h: HandlerId, pc: Pc): State
    requires pc.FindingIdentity?
  {
    var who := pc.profile.id;
    if (pc.provider, who) in s.identities then
      if pc.linking.Some? then Done(s, h)
      else Goto(s, h, CheckingUser(pc.origin, pc.provider, who, s.identities[(pc.provider, who)]))
    else if pc.linking.Some? then Goto(s, h, CheckingLinker(pc.origin, pc.provider, who, pc.linking.value))
    else if pc.profile.email.Some? && pc.profile.emailVerified
      then Goto(s, h, FindingAccount(pc.origin, pc.provider, who, pc.profile.email.value))
    else Done(s, h)
  }

  function LinkOf(pc: Pc): Link
    requires pc.Linking?
  {
    Link(pc.origin, pc.provider, pc.who, pc.user, pc.via)
  }

  function Linked(s: State, h: HandlerId, pc: Pc): State
    requires pc.Linking? && pc.origin in s.ledger.states
  {
    Done(s, h).(identities := s.identities[(pc.provider, pc.who) := pc.user],
                ledger := NoteLinked(s.ledger, LinkOf(pc)))
  }

  function AdvanceLink(s: State, h: HandlerId, pc: Pc): State
    requires pc.Linking?
  {
    if (pc.provider, pc.who) in s.identities || pc.origin !in s.ledger.states then Done(s, h) else
      if pc.via.Some? then Goto(Linked(s, h, pc), h, CheckingUser(pc.origin, pc.provider, pc.who, pc.user))
      else Linked(s, h, pc)
  }

  function AdvanceCheckUser(s: State, h: HandlerId, pc: Pc): State
    requires pc.CheckingUser?
  {
    if IsActive(s, pc.user) && (s.requireVerifiedEmail ==> s.accounts[pc.user].emailVerified)
    then Goto(s, h, WritingGrant(pc.origin, pc.provider, pc.who, pc.user, s.accounts[pc.user]))
    else Done(s, h)
  }

  function AdvanceWriteGrant(s: State, h: HandlerId, pc: Pc, code: Hash): State
    requires pc.WritingGrant?
  {
    if code in s.ledger.grants || pc.origin !in s.ledger.states then s else
      Done(s.(grants := InsertGrant(s.grants, code, GrantRow(pc.user, s.now + GRANT_TTL, None), s.now),
              ledger := NoteGrant(s.ledger, pc, code, s.now)), h)
  }

  function AdvanceExchange(s: State, h: HandlerId, code: Hash): State {
    if CanClaimGrant(s.grants, code, s.now) && code in s.ledger.grants then
      Goto(s.(grants := ClaimGrant(s.grants, code, s.now), ledger := NoteExchanged(s.ledger, code, h, s.now)),
           h, LoadingUser(code, s.grants[code].user))
    else Done(s, h)
  }

  function AdvanceToken(s: State, h: HandlerId, code: Hash, user: UserId): State {
    if IsActive(s, user) && code in s.ledger.grants
    then Done(s.(ledger := NoteToken(s.ledger, code, Access(user, s.accounts[user]))), h)
    else Done(s, h)
  }

  function AdvanceHandler(s: State, h: HandlerId, pc: Pc): State {
    match pc
    case ClaimingState(provider, hash, denied) => AdvanceClaim(s, h, provider, hash, denied)
    case FindingIdentity(_, _, _, _) => AdvanceIdentity(s, h, pc)
    case CheckingLinker(origin, provider, who, user) =>
      if IsActive(s, user)
      then Goto(SawAccount(s, origin, user, s.accounts[user]), h, Linking(origin, provider, who, user, None))
      else Done(s, h)
    case Linking(_, _, _, _, _) => AdvanceLink(s, h, pc)
    case CheckingUser(_, _, _, _) => AdvanceCheckUser(s, h, pc)
    case ClaimingGrant(code) => AdvanceExchange(s, h, code)
    case LoadingUser(code, user) => AdvanceToken(s, h, code, user)
    case _ => s
  }

  /** The answer to `SELECT ... WHERE email = $1 AND deleted_at IS NULL`. */
  predicate IsAnswer(s: State, email: Address, user: Option<UserId>) {
    if user.Some? then user.value in s.accounts && s.accounts[user.value].email == email
    else forall u :: u in s.accounts ==> s.accounts[u].email != email
  }

  function Saw(s: State, seen: Seen): State {
    s.(ledger := s.ledger.(seen := seen))
  }

  function SawProfile(s: State, origin: Hash, profile: Profile): State {
    Saw(s, s.ledger.seen.(profiles := s.ledger.seen.profiles + {(origin, profile)}))
  }

  function SawAccount(s: State, origin: Hash, user: UserId, account: Account): State {
    Saw(s, s.ledger.seen.(found := s.ledger.seen.found + {(origin, user, account)}))
  }

  function SawCreated(s: State, origin: Hash, user: UserId, email: Address): State {
    Saw(s, s.ledger.seen.(created := s.ledger.seen.created + {(origin, user, email)}))
  }

  function Step(s: State, e: Event): State {
    match e
    case Tick(elapsed) => s.(now := s.now + elapsed)
    case Start(hash, provider, linking) =>
      if hash in s.ledger.states then s
      else s.(states := InsertState(s.states, hash, StateRow(provider, linking, s.now + STATE_TTL), s.now),
              ledger := s.ledger.(
                states := s.ledger.states[hash := StateLog(provider, linking, s.now, None, None, None, None)]))
    case DeleteRows(states, grants) => s.(states := s.states - states, grants := s.grants - grants)
    case Unlink(user, provider) => s.(identities := DeleteIdentity(s.identities, user, provider))
    case SetAccount(user, account) =>
      if account.Some?
      then s.(accounts := s.accounts[user := account.value], held := s.held + {(user, account.value)})
      else s.(accounts := s.accounts - {user})
    case Begin(h, request) =>
      if h !in s.handlers && (request.ClaimingState? || request.ClaimingGrant?) then Goto(s, h, request) else s
    case ProfileArrives(h, profile) =>
      if h in s.handlers && s.handlers[h].AwaitingProfile? then
        var pc := s.handlers[h];
        if profile.None? then Done(s, h)
        else Goto(SawProfile(s, pc.origin, profile.value), h,
                  FindingIdentity(pc.origin, pc.provider, pc.linking, profile.value))
      else s
    case AccountFound(h, found) =>
      if h in s.handlers && s.handlers[h].FindingAccount? && IsAnswer(s, s.handlers[h].email, found) then
        var pc := s.handlers[h];
        if found.None? then Goto(s, h, CreatingAccount(pc.origin, pc.provider, pc.who, pc.email))
        else
          var s' := SawAccount(s, pc.origin, found.value, s.accounts[found.value]);
          if s.accounts[found.value].active && s.accounts[found.value].emailVerified
          then Goto(s', h, Linking(pc.origin, pc.provider, pc.who, found.value, Some(pc.email)))
          else Done(s', h)
      else s
    case AccountCreated(h, user) =>
      if h in s.handlers && s.handlers[h].CreatingAccount? && user !in s.accounts then
        var pc := s.handlers[h];
        var s' := s.(accounts := s.accounts[user := Account(pc.email, true, true)],
                     held := s.held + {(user, Account(pc.email, true, true))});
        Goto(SawCreated(s', pc.origin, user, pc.email), h,
             Linking(pc.origin, pc.provider, pc.who, user, Some(pc.email)))
      else s
    case GrantWritten(h, code) =>
      if h in s.handlers && s.handlers[h].WritingGrant? then AdvanceWriteGrant(s, h, s.handlers[h], code) else s
    case Advance(h) => if h in s.handlers then AdvanceHandler(s, h, s.handlers[h]) else s
    case Drop(h) => Done(s, h)
  }

  predicate Initial(s: State) {
    && s.states == map[] && s.grants == map[] && s.handlers == map[]
    && s.ledger.states == map[] && s.ledger.grants == map[] && s.ledger.links == {}
    && (forall k :: k in s.identities ==> (k.0, k.1, s.identities[k]) in s.ledger.everLinked)
    && (forall u :: u in s.accounts ==> (u, s.accounts[u]) in s.held)
  }

  // ---- the invariant -----------------------------------------------------------------

  /** The callback owns its state: nobody else claimed it and it has not led to a grant. */
  predicate Owns(l: Ledger, h: HandlerId, origin: Hash, provider: Provider) {
    && origin in l.states && l.states[origin].claimedBy == Some(h)
    && l.states[origin].grant == None && l.states[origin].provider == provider
  }

  /** Only a state started without a user gets this far. */
  predicate OwnsSignIn(l: Ledger, h: HandlerId, origin: Hash, provider: Provider) {
    Owns(l, h, origin, provider) && l.states[origin].linking == None
  }

  predicate HandlerOk(l: Ledger, h: HandlerId, pc: Pc) {
    match pc
    case ClaimingState(_, _, _) => true
    case AwaitingProfile(o, p, linking) => Owns(l, h, o, p) && l.states[o].linking == linking
    case FindingIdentity(o, p, linking, _) => Owns(l, h, o, p) && l.states[o].linking == linking
    case CheckingLinker(o, p, _, user) => Owns(l, h, o, p) && l.states[o].linking == Some(user)
    case FindingAccount(o, p, _, _) => OwnsSignIn(l, h, o, p)
    case CreatingAccount(o, p, _, _) => OwnsSignIn(l, h, o, p)
    case Linking(o, p, _, user, via) =>
      Owns(l, h, o, p) && l.states[o].linking == if via.Some? then None else Some(user)
    case CheckingUser(o, p, who, user) => OwnsSignIn(l, h, o, p) && (p, who, user) in l.everLinked
    case WritingGrant(o, p, who, user, _) => OwnsSignIn(l, h, o, p) && (p, who, user) in l.everLinked
    case ClaimingGrant(_) => true
    case LoadingUser(code, user) =>
      && code in l.grants && l.grants[code].claimedBy == Some(h)
      && l.grants[code].tokens == [] && l.grants[code].user == user
  }

  predicate StateLogOk(t: StateLog) {
    && (t.linkedTo.Some? && t.linking.Some? ==> t.linkedTo == t.linking)
    && (t.claimedBy == None ==> t.grant == None)
    && (t.claimedBy.Some? ==> t.claimedAt.Some? && t.claimedAt.value < t.startedAt + STATE_TTL)
  }

  predicate GrantLogOk(l: Ledger, code: Hash, g: GrantLog) {
    && g.origin in l.states && l.states[g.origin].grant == Some(code)
    && l.states[g.origin].linking == None && l.states[g.origin].provider == g.provider
    && (g.provider, g.who, g.user) in l.everLinked
    && (g.tokens == [] || (g.claimedBy.Some? && |g.tokens| == 1 && g.tokens[0].subject == g.user))
    && (g.claimedBy.Some? ==> g.claimedAt.Some? && g.claimedAt.value < g.writtenAt + GRANT_TTL)
  }

  predicate LedgerOk(l: Ledger) {
    && (forall hash {:trigger StateLogOk(l.states[hash])} :: hash in l.states ==> StateLogOk(l.states[hash]))
    && (forall code {:trigger GrantLogOk(l, code, l.grants[code])} ::
          code in l.grants ==> GrantLogOk(l, code, l.grants[code]))
  }

  /** The tables agree with the history. */
  predicate StateMatches(l: Ledger, k: Hash, row: StateRow) {
    && k in l.states && row.provider == l.states[k].provider
    && row.user == l.states[k].linking && l.states[k].claimedBy == None
    && row.expiresAt == l.states[k].startedAt + STATE_TTL
  }

  predicate GrantMatches(l: Ledger, k: Hash, row: GrantRow) {
    && k in l.grants && row.user == l.grants[k].user
    && (row.usedAt == None <==> l.grants[k].claimedBy == None)
    && row.expiresAt == l.grants[k].writtenAt + GRANT_TTL
  }

  predicate StatesMatch(states: States, l: Ledger) {
    forall k {:trigger StateMatches(l, k, states[k])} :: k in states ==> StateMatches(l, k, states[k])
  }

  predicate GrantsMatch(grants: Grants, l: Ledger) {
    forall k {:trigger GrantMatches(l, k, grants[k])} :: k in grants ==> GrantMatches(l, k, grants[k])
  }

  predicate IdentitiesMatch(identities: Identities, l: Ledger) {
    forall k :: k in identities ==> (k.0, k.1, identities[k]) in l.everLinked
  }

  predicate HandlersOk(l: Ledger, handlers: map<HandlerId, Pc>) {
    forall h {:trigger HandlerOk(l, h, handlers[h])} :: h in handlers ==> HandlerOk(l, h, handlers[h])
  }

  predicate Inv(s: State) {
    && LedgerOk(s.ledger)
    && StatesMatch(s.states, s.ledger) && GrantsMatch(s.grants, s.ledger) && IdentitiesMatch(s.identities, s.ledger)
    && HandlersOk(s.ledger, s.handlers)
  }

  /** What the other handlers rely on is untouched by a step of `h`. */
  predicate KeepsState(a: Ledger, b: Ledger, h: HandlerId, k: Hash)
    requires k in a.states
  {
    && k in b.states && b.states[k].provider == a.states[k].provider && b.states[k].linking == a.states[k].linking
    && (a.states[k].claimedBy.Some? ==> b.states[k].claimedBy == a.states[k].claimedBy)
    && (a.states[k].claimedBy.Some? && a.states[k].claimedBy != Some(h) ==> b.states[k].grant == a.states[k].grant)
  }

  predicate KeepsGrant(a: Ledger, b: Ledger, h: HandlerId, k: Hash)
    requires k in a.grants
  {
    && k in b.grants && b.grants[k].user == a.grants[k].user
    && (a.grants[k].claimedBy.Some? ==> b.grants[k].claimedBy == a.grants[k].claimedBy)
    && (a.grants[k].claimedBy.Some? && a.grants[k].claimedBy != Some(h) ==> b.grants[k].tokens == a.grants[k].tokens)
  }

  predicate Respects(a: Ledger, b: Ledger, h: HandlerId) {
    && a.everLinked <= b.everLinked
    && (forall k {:trigger KeepsState(a, b, h, k)} :: k in a.states ==> KeepsState(a, b, h, k))
    && (forall k {:trigger KeepsGrant(a, b, h, k)} :: k in a.grants ==> KeepsGrant(a, b, h, k))
  }

  lemma OthersStayOk(a: Ledger, b: Ledger, h: HandlerId, handlers: map<HandlerId, Pc>, handlers': map<HandlerId, Pc>)
    requires HandlersOk(a, handlers) && Respects(a, b, h)
    requires forall k :: k in handlers' && k != h ==> k in handlers && handlers'[k] == handlers[k]
    requires h in handlers' ==> HandlerOk(b, h, handlers'[h])
    ensures HandlersOk(b, handlers')
  {
    forall k | k in handlers' && k != h ensures HandlerOk(b, k, handlers'[k]) {
      var pc := handlers[k];
      assert HandlerOk(a, k, pc);
      if pc.LoadingUser? {
        assert KeepsGrant(a, b, h, pc.code);
      } else if !pc.ClaimingState? && !pc.ClaimingGrant? {
        assert KeepsState(a, b, h, pc.origin);
      }
    }
  }

  // One lemma per entry in the ledger.

  lemma ClaimedOk(l: Ledger, hash: Hash, h: HandlerId, now: int)
    requires LedgerOk(l) && hash in l.states && l.states[hash].claimedBy == None
    requires now < l.states[hash].startedAt + STATE_TTL
    ensures LedgerOk(NoteClaimed(l, hash, h, now)) && Respects(l, NoteClaimed(l, hash, h, now), h)
  {
    var l' := NoteClaimed(l, hash, h, now);
    assert StateLogOk(l.states[hash]);
    forall code | code in l'.grants ensures GrantLogOk(l', code, l'.grants[code]) {
      assert GrantLogOk(l, code, l.grants[code]);
    }
  }

  lemma LinkedOk(l: Ledger, h: HandlerId, pc: Pc)
    requires LedgerOk(l) && pc.Linking? && HandlerOk(l, h, pc)
    ensures var l' := NoteLinked(l, LinkOf(pc));
            LedgerOk(l') && Respects(l, l', h)
  {
    var l' := NoteLinked(l, LinkOf(pc));
    assert StateLogOk(l.states[pc.origin]);
    forall code | code in l'.grants ensures GrantLogOk(l', code, l'.grants[code]) {
      assert GrantLogOk(l, code, l.grants[code]);
    }
  }

  lemma GrantedOk(l: Ledger, h: HandlerId, pc: Pc, code: Hash, now: int)
    requires LedgerOk(l) && pc.WritingGrant? && HandlerOk(l, h, pc) && code !in l.grants
    ensures var l' := NoteGrant(l, pc, code, now);
            LedgerOk(l') && Respects(l, l', h)
  {
    var l' := NoteGrant(l, pc, code, now);
    assert StateLogOk(l.states[pc.origin]);
    forall c | c in l'.grants ensures GrantLogOk(l', c, l'.grants[c]) {
      if c != code { assert GrantLogOk(l, c, l.grants[c]); }
    }
  }

  lemma ExchangedOk(l: Ledger, code: Hash, h: HandlerId, now: int)
    requires LedgerOk(l) && code in l.grants && l.grants[code].claimedBy == None
    requires now < l.grants[code].writtenAt + GRANT_TTL
    ensures LedgerOk(NoteExchanged(l, code, h, now)) && Respects(l, NoteExchanged(l, code, h, now), h)
    ensures l.grants[code].tokens == []
  {
    var l' := NoteExchanged(l, code, h, now);
    assert GrantLogOk(l, code, l.grants[code]);
    forall c | c in l'.grants ensures GrantLogOk(l', c, l'.grants[c]) {
      assert GrantLogOk(l, c, l.grants[c]);
    }
  }

  lemma TokenOk(l: Ledger, code: Hash, token: Access, h: HandlerId)
    requires LedgerOk(l) && HandlerOk(l, h, LoadingUser(code, token.subject))
    ensures LedgerOk(NoteToken(l, code, token)) && Respects(l, NoteToken(l, code, token), h)
  {
    var l' := NoteToken(l, code, token);
    forall c | c in l'.grants ensures GrantLogOk(l', c, l'.grants[c]) {
      assert GrantLogOk(l, c, l.grants[c]);
    }
  }

  // One lemma per kind of step.

  lemma GotoKeepsInv(s: State, h: HandlerId, pc: Pc)
    requires Inv(s) && HandlerOk(s.ledger, h, pc)
    ensures Inv(Goto(s, h, pc))
  {
  }

  lemma DoneKeepsInv(s: State, h: HandlerId)
    requires Inv(s)
    ensures Inv(Done(s, h))
  {
  }

  /** The claim itself, before the callback decides how to go on. */
  lemma ClaimedKeepsInv(s: State, h: HandlerId, hash: Hash)
    requires Inv(s) && h in s.handlers && CanClaimState(s.states, hash, s.now)
    ensures hash in s.ledger.states
    ensures Inv(Claimed(s, h, hash))
  {
    assert StateMatches(s.ledger, hash, s.states[hash]);
    var s' := Claimed(s, h, hash);
    ClaimedOk(s.ledger, hash, h, s.now);
    OthersStayOk(s.ledger, s'.ledger, h, s.handlers, s'.handlers);
    forall k | k in s'.states ensures StateMatches(s'.ledger, k, s'.states[k]) {
      assert StateMatches(s.ledger, k, s.states[k]);
    }
    forall k | k in s'.grants ensures GrantMatches(s'.ledger, k, s'.grants[k]) {
      assert GrantMatches(s.ledger, k, s.grants[k]);
    }
  }

  lemma ClaimKeepsInv(s: State, h: HandlerId, provider: Provider, hash: Hash, denied: bool)
    requires Inv(s) && h in s.handlers
    ensures Inv(AdvanceClaim(s, h, provider, hash, denied))
  {
    DoneKeepsInv(s, h);
    if CanClaimState(s.states, hash, s.now) {
      ClaimedKeepsInv(s, h, hash);
      assert StateLogOk(s.ledger.states[hash]) && StateMatches(s.ledger, hash, s.states[hash]);
      if s.states[hash].provider == provider {
        GotoKeepsInv(Claimed(s, h, hash), h, AwaitingProfile(hash, provider, s.states[hash].user));
      }
    }
  }

  lemma LinkedKeepsInv(s: State, h: HandlerId, pc: Pc)
    requires Inv(s) && h in s.handlers && pc.Linking? && HandlerOk(s.ledger, h, pc)
    ensures Inv(Linked(s, h, pc))
  {
    var s' := Linked(s, h, pc);
    LinkedOk(s.ledger, h, pc);
    OthersStayOk(s.ledger, s'.ledger, h, s.handlers, s'.handlers);
    forall k | k in s'.states ensures StateMatches(s'.ledger, k, s'.states[k]) {
      assert StateMatches(s.ledger, k, s.states[k]);
    }
    forall k | k in s'.grants ensures GrantMatches(s'.ledger, k, s'.grants[k]) {
      if k in s.grants { assert GrantMatches(s.ledger, k, s.grants[k]); }
    }
  }

  lemma LinkKeepsInv(s: State, h: HandlerId, pc: Pc)
    requires Inv(s) && h in s.handlers && pc.Linking? && HandlerOk(s.ledger, h, pc)
    ensures Inv(AdvanceLink(s, h, pc))
  {
    DoneKeepsInv(s, h);
    LinkedKeepsInv(s, h, pc);
    if pc.via.Some? {
      GotoKeepsInv(Linked(s, h, pc), h, CheckingUser(pc.origin, pc.provider, pc.who, pc.user));
    }
  }

  lemma WrittenGrantsMatch(s: State, pc: Pc, code: Hash)
    requires GrantsMatch(s.grants, s.ledger) && pc.WritingGrant? && pc.origin in s.ledger.states
    requires code !in s.ledger.grants
    ensures GrantsMatch(InsertGrant(s.grants, code, GrantRow(pc.user, s.now + GRANT_TTL, None), s.now),
                        NoteGrant(s.ledger, pc, code, s.now))
  {
    var grants := InsertGrant(s.grants, code, GrantRow(pc.user, s.now + GRANT_TTL, None), s.now);
    var l := NoteGrant(s.ledger, pc, code, s.now);
    forall k | k in grants ensures GrantMatches(l, k, grants[k]) {
      if k in s.grants { assert GrantMatches(s.ledger, k, s.grants[k]); }
    }
  }

  lemma WriteGrantKeepsInv(s: State, h: HandlerId, pc: Pc, code: Hash)
    requires Inv(s) && h in s.handlers && pc.WritingGrant? && HandlerOk(s.ledger, h, pc) && code !in s.ledger.grants
    ensures Inv(AdvanceWriteGrant(s, h, pc, code))
  {
    var s' := AdvanceWriteGrant(s, h, pc, code);
    GrantedOk(s.ledger, h, pc, code, s.now);
    OthersStayOk(s.ledger, s'.ledger, h, s.handlers, s'.handlers);
    forall k | k in s'.states ensures StateMatches(s'.ledger, k, s'.states[k]) {
      assert StateMatches(s.ledger, k, s.states[k]);
    }
    WrittenGrantsMatch(s, pc, code);
  }

  lemma ExchangeKeepsInv(s: State, h: HandlerId, code: Hash)
    requires Inv(s) && h in s.handlers && CanClaimGrant(s.grants, code, s.now)
    ensures Inv(AdvanceExchange(s, h, code))
  {
    var s' := AdvanceExchange(s, h, code);
    assert GrantMatches(s.ledger, code, s.grants[code]);
    ExchangedOk(s.ledger, code, h, s.now);
    OthersStayOk(s.ledger, s'.ledger, h, s.handlers, s'.handlers);
    forall k | k in s'.states ensures StateMatches(s'.ledger, k, s'.states[k]) {
      assert StateMatches(s.ledger, k, s.states[k]);
    }
    forall k | k in s'.grants ensures GrantMatches(s'.ledger, k, s'.grants[k]) {
      if k in s.grants { assert GrantMatches(s.ledger, k, s.grants[k]); }
    }
  }

  lemma TokenKeepsInv(s: State, h: HandlerId, code: Hash, user: UserId)
    requires Inv(s) && h in s.handlers && HandlerOk(s.ledger, h, LoadingUser(code, user)) && IsActive(s, user)
    ensures Inv(AdvanceToken(s, h, code, user))
  {
    var s' := AdvanceToken(s, h, code, user);
    TokenOk(s.ledger, code, Access(user, s.accounts[user]), h);
    OthersStayOk(s.ledger, s'.ledger, h, s.handlers, s'.handlers);
    forall k | k in s'.states ensures StateMatches(s'.ledger, k, s'.states[k]) {
      assert StateMatches(s.ledger, k, s.states[k]);
    }
    forall k | k in s'.grants ensures GrantMatches(s'.ledger, k, s'.grants[k]) {
      if k in s.grants { assert GrantMatches(s.ledger, k, s.grants[k]); }
    }
  }

  lemma IdentityKeepsInv(s: State, h: HandlerId, pc: Pc)
    requires Inv(s) && h in s.handlers && pc.FindingIdentity? && HandlerOk(s.ledger, h, pc)
    ensures Inv(AdvanceIdentity(s, h, pc))
  {
    DoneKeepsInv(s, h);
    var who := pc.profile.id;
    if pc.linking.Some? {
      GotoKeepsInv(s, h, CheckingLinker(pc.origin, pc.provider, who, pc.linking.value));
    } else if (pc.provider, who) in s.identities {
      GotoKeepsInv(s, h, CheckingUser(pc.origin, pc.provider, who, s.identities[(pc.provider, who)]));
    } else if pc.profile.email.Some? {
      GotoKeepsInv(s, h, FindingAccount(pc.origin, pc.provider, who, pc.profile.email.value));
    }
  }

  lemma AdvanceKeepsInv(s: State, h: HandlerId, pc: Pc)
    requires Inv(s) && h in s.handlers && HandlerOk(s.ledger, h, pc)
    ensures Inv(AdvanceHandler(s, h, pc))
  {
    DoneKeepsInv(s, h);
    match pc
    case ClaimingState(provider, hash, denied) => ClaimKeepsInv(s, h, provider, hash, denied);
    case FindingIdentity(_, _, _, _) => IdentityKeepsInv(s, h, pc);
    case CheckingLinker(o, p, who, user) =>
      if IsActive(s, user) {
        var s' := SawAccount(s, o, user, s.accounts[user]);
        SawKeepsInv(s, s'.ledger.seen);
        GotoKeepsInv(s', h, Linking(o, p, who, user, None));
      }
    case Linking(_, _, _, _, _) => LinkKeepsInv(s, h, pc);
    case CheckingUser(o, p, who, user) =>
      if IsActive(s, user) { GotoKeepsInv(s, h, WritingGrant(o, p, who, user, s.accounts[user])); }
    case ClaimingGrant(code) => if CanClaimGrant(s.grants, code, s.now) { ExchangeKeepsInv(s, h, code); }
    case LoadingUser(code, user) => if IsActive(s, user) { TokenKeepsInv(s, h, code, user); }
    case _ =>
  }

  lemma StartedOk(l: Ledger, hash: Hash, t: StateLog)
    requires LedgerOk(l) && hash !in l.states && StateLogOk(t)
    ensures LedgerOk(l.(states := l.states[hash := t]))
  {
    var l' := l.(states := l.states[hash := t]);
    forall k | k in l'.states ensures StateLogOk(l'.states[k]) {
      if k != hash { assert StateLogOk(l.states[k]); }
    }
    forall c | c in l'.grants ensures GrantLogOk(l', c, l'.grants[c]) {
      assert GrantLogOk(l, c, l.grants[c]);
    }
  }

  lemma StartKeepsInv(s: State, hash: Hash, provider: Provider, linking: Option<UserId>)
    requires Inv(s) && hash !in s.ledger.states
    ensures Inv(Step(s, Start(hash, provider, linking)))
  {
    var s' := Step(s, Start(hash, provider, linking));
    StartedOk(s.ledger, hash, StateLog(provider, linking, s.now, None, None, None, None));
    forall k | k in s'.states ensures StateMatches(s'.ledger, k, s'.states[k]) {
      if k in s.states { assert StateMatches(s.ledger, k, s.states[k]); }
    }
    forall k | k in s'.grants ensures GrantMatches(s'.ledger, k, s'.grants[k]) {
      assert GrantMatches(s.ledger, k, s.grants[k]);
    }
    forall k | k in s.handlers ensures HandlerOk(s'.ledger, k, s.handlers[k]) {
      assert HandlerOk(s.ledger, k, s.handlers[k]);
    }
  }

  /** Being told something changes nothing the invariant is about. */
  lemma SawKeepsInv(s: State, seen: Seen)
    requires Inv(s)
    ensures Inv(Saw(s, seen))
  {
    var s' := Saw(s, seen);
    forall k | k in s'.ledger.grants ensures GrantLogOk(s'.ledger, k, s'.ledger.grants[k]) {
      assert GrantLogOk(s.ledger, k, s.ledger.grants[k]);
    }
    forall k | k in s'.states ensures StateMatches(s'.ledger, k, s'.states[k]) {
      assert StateMatches(s.ledger, k, s.states[k]);
    }
    forall k | k in s'.grants ensures GrantMatches(s'.ledger, k, s'.grants[k]) {
      assert GrantMatches(s.ledger, k, s.grants[k]);
    }
    forall k | k in s'.handlers ensures HandlerOk(s'.ledger, k, s'.handlers[k]) {
      assert HandlerOk(s.ledger, k, s.handlers[k]);
    }
  }

  lemma CreatedKeepsInv(s: State, h: HandlerId, user: UserId)
    requires Inv(s) && h in s.handlers && s.handlers[h].CreatingAccount? && user !in s.accounts
    ensures Inv(Step(s, AccountCreated(h, user)))
  {
    var pc := s.handlers[h];
    assert HandlerOk(s.ledger, h, pc);
    var s1 := s.(accounts := s.accounts[user := Account(pc.email, true, true)],
                 held := s.held + {(user, Account(pc.email, true, true))});
    var s2 := SawCreated(s1, pc.origin, user, pc.email);
    SawKeepsInv(s1, s2.ledger.seen);
    GotoKeepsInv(s2, h, Linking(pc.origin, pc.provider, pc.who, user, Some(pc.email)));
  }

  lemma ProfileKeepsInv(s: State, h: HandlerId, profile: Option<Profile>)
    requires Inv(s) && h in s.handlers && s.handlers[h].AwaitingProfile?
    ensures Inv(Step(s, ProfileArrives(h, profile)))
  {
    var pc := s.handlers[h];
    assert HandlerOk(s.ledger, h, pc);
    DoneKeepsInv(s, h);
    if profile.Some? {
      var s' := SawProfile(s, pc.origin, profile.value);
      SawKeepsInv(s, s'.ledger.seen);
      GotoKeepsInv(s', h, FindingIdentity(pc.origin, pc.provider, pc.linking, profile.value));
    }
  }

  lemma FoundKeepsInv(s: State, h: HandlerId, found: Option<UserId>)
    requires Inv(s) && h in s.handlers && s.handlers[h].FindingAccount? && IsAnswer(s, s.handlers[h].email, found)
    ensures Inv(Step(s, AccountFound(h, found)))
  {
    var pc := s.handlers[h];
    assert HandlerOk(s.ledger, h, pc);
    GotoKeepsInv(s, h, CreatingAccount(pc.origin, pc.provider, pc.who, pc.email));
    if found.Some? {
      var s' := SawAccount(s, pc.origin, found.value, s.accounts[found.value]);
      SawKeepsInv(s, s'.ledger.seen);
      DoneKeepsInv(s', h);
      GotoKeepsInv(s', h, Linking(pc.origin, pc.provider, pc.who, found.value, Some(pc.email)));
    }
  }

  lemma DeletionKeepsInv(s: State, states: set<Hash>, grants: set<Hash>)
    requires Inv(s)
    ensures Inv(s.(states := s.states - states, grants := s.grants - grants))
  {
  }

  lemma UnlinkKeepsInv(s: State, user: UserId, provider: Provider)
    requires Inv(s)
    ensures Inv(s.(identities := DeleteIdentity(s.identities, user, provider)))
  {
  }

  lemma ElsewhereKeepsInv(s: State, now: int, accounts: map<UserId, Account>, held: set<(UserId, Account)>)
    requires Inv(s)
    ensures Inv(s.(now := now)) && Inv(s.(accounts := accounts, held := held))
  {
  }

  lemma SetAccountKeepsInv(s: State, user: UserId, account: Option<Account>)
    requires Inv(s)
    ensures Inv(Step(s, SetAccount(user, account)))
  {
    if account.Some? {
      ElsewhereKeepsInv(s, s.now, s.accounts[user := account.value], s.held + {(user, account.value)});
    } else {
      ElsewhereKeepsInv(s, s.now, s.accounts - {user}, s.held);
    }
  }

  lemma StepKeepsInv(s: State, e: Event)
    requires Inv(s)
    ensures Inv(Step(s, e))
  {
    match e
    case Start(hash, provider, linking) => if hash !in s.ledger.states { StartKeepsInv(s, hash, provider, linking); }
    case Begin(h, request) =>
      if h !in s.handlers && (request.ClaimingState? || request.ClaimingGrant?) { GotoKeepsInv(s, h, request); }
    case GrantWritten(h, code) =>
      if h in s.handlers && s.handlers[h].WritingGrant? && code !in s.ledger.grants {
        assert HandlerOk(s.ledger, h, s.handlers[h]);
        WriteGrantKeepsInv(s, h, s.handlers[h], code);
      }
    case Advance(h) =>
      if h in s.handlers {
        assert HandlerOk(s.ledger, h, s.handlers[h]);
        AdvanceKeepsInv(s, h, s.handlers[h]);
      }
    case Drop(h) => DoneKeepsInv(s, h);
    case ProfileArrives(h, profile) =>
      if h in s.handlers && s.handlers[h].AwaitingProfile? { ProfileKeepsInv(s, h, profile); }
    case AccountFound(h, found) =>
      if h in s.handlers && s.handlers[h].FindingAccount? && IsAnswer(s, s.handlers[h].email, found) {
        FoundKeepsInv(s, h, found);
      }
    case AccountCreated(h, user) =>
      if h in s.handlers && s.handlers[h].CreatingAccount? && user !in s.accounts { CreatedKeepsInv(s, h, user); }
    case Tick(elapsed) => ElsewhereKeepsInv(s, s.now + elapsed, s.accounts, s.held);
    case SetAccount(user, account) => SetAccountKeepsInv(s, user, account);
    case DeleteRows(states, grants) => DeletionKeepsInv(s, states, grants);
    case Unlink(user, provider) => UnlinkKeepsInv(s, user, provider);
  }

  lemma RunKeepsInv(s: State, events: seq<Event>)
    requires Initial(s)
    ensures Inv(Run(Step, s, events))
  {
    forall t, e | Inv(t) ensures Inv(Step(t, e)) { StepKeepsInv(t, e); }
    Invariant(Step, Inv, s, events);
  }

  // ---- whom a sign-in may link a provider account to -----------------------------------

  /**
   * In that callback the provider named `email` as this account's verified address, and the user is one it created with
   * that address or one it had read as active, verified and holding that address.
   */
  predicate Vouched(seen: Seen, origin: Hash, who: ProviderUser, user: UserId, email: Address) {
    && (origin, Profile(who, Some(email), true)) in seen.profiles
    && ((origin, user, Account(email, true, true)) in seen.found || (origin, user, email) in seen.created)
  }

  /** That callback had read the user's account as active. */
  predicate ReadActive(seen: Seen, origin: Hash, user: UserId) {
    exists f :: f in seen.found && f.0 == origin && f.1 == user && f.2.active
  }

  predicate PcTraced(seen: Seen, pc: Pc) {
    match pc
    case FindingIdentity(origin, _, _, profile) => (origin, profile) in seen.profiles
    case FindingAccount(origin, _, who, email) => (origin, Profile(who, Some(email), true)) in seen.profiles
    case CreatingAccount(origin, _, who, email) => (origin, Profile(who, Some(email), true)) in seen.profiles
    case Linking(origin, _, who, user, via) =>
      if via.Some? then Vouched(seen, origin, who, user, via.value) else ReadActive(seen, origin, user)
    case _ => true
  }

  /** Linked by the user who started the flow, or on the strength of a verified email. */
  predicate LinkTraced(l: Ledger, link: Link) {
    && link.origin in l.states && l.states[link.origin].provider == link.provider
    && match link.via
       case None => l.states[link.origin].linking == Some(link.user) && ReadActive(l.seen, link.origin, link.user)
       case Some(email) =>
         l.states[link.origin].linking == None && Vouched(l.seen, link.origin, link.who, link.user, email)
  }

  /** That account was linked from the start, or a callback linked it. */
  predicate Explained(base: Known, l: Ledger, k: (Provider, ProviderUser, UserId)) {
    k in base || exists link :: link in l.links && (link.provider, link.who, link.user) == k
  }

  predicate Traced(base: Known, s: State) {
    && (forall h {:trigger PcTraced(s.ledger.seen, s.handlers[h])} ::
          h in s.handlers ==> PcTraced(s.ledger.seen, s.handlers[h]))
    && (forall link {:trigger LinkTraced(s.ledger, link)} :: link in s.ledger.links ==> LinkTraced(s.ledger, link))
    && (forall k {:trigger Explained(base, s.ledger, k)} :: k in s.ledger.everLinked ==> Explained(base, s.ledger, k))
  }

  predicate SeenGrows(a: Seen, b: Seen) {
    a.profiles <= b.profiles && a.found <= b.found && a.created <= b.created
  }

  predicate LinkingStays(a: Ledger, b: Ledger) {
    forall k :: k in a.states ==>
      k in b.states && b.states[k].linking == a.states[k].linking && b.states[k].provider == a.states[k].provider
  }

  /** Callbacks learn more, states come along, and a handler that moves knows what it goes by. */
  lemma GrowthKeepsTraced(base: Known, s: State, s': State)
    requires Traced(base, s) && SeenGrows(s.ledger.seen, s'.ledger.seen) && LinkingStays(s.ledger, s'.ledger)
    requires s'.ledger.links == s.ledger.links && s'.ledger.everLinked == s.ledger.everLinked
    requires forall k :: k in s'.handlers ==>
               || (k in s.handlers && s'.handlers[k] == s.handlers[k]) || PcTraced(s'.ledger.seen, s'.handlers[k])
    ensures Traced(base, s')
  {
    forall k | k in s'.handlers ensures PcTraced(s'.ledger.seen, s'.handlers[k]) {
      if k in s.handlers { assert PcTraced(s.ledger.seen, s.handlers[k]); }
    }
    forall link | link in s'.ledger.links ensures LinkTraced(s'.ledger, link) { assert LinkTraced(s.ledger, link); }
    forall k | k in s'.ledger.everLinked ensures Explained(base, s'.ledger, k) { assert Explained(base, s.ledger, k); }
  }

  lemma LinkedKeepsTraced(base: Known, s: State, h: HandlerId, pc: Pc)
    requires Traced(base, s) && pc.Linking? && HandlerOk(s.ledger, h, pc) && PcTraced(s.ledger.seen, pc)
    ensures Traced(base, Linked(s, h, pc))
  {
    var s' := Linked(s, h, pc);
    forall k | k in s'.handlers ensures PcTraced(s'.ledger.seen, s'.handlers[k]) {
      assert PcTraced(s.ledger.seen, s.handlers[k]);
    }
    forall link | link in s'.ledger.links ensures LinkTraced(s'.ledger, link) {
      if link in s.ledger.links { assert LinkTraced(s.ledger, link); }
    }
    forall k | k in s'.ledger.everLinked ensures Explained(base, s'.ledger, k) {
      if k in s.ledger.everLinked {
        assert Explained(base, s.ledger, k);
      } else {
        assert LinkOf(pc) in s'.ledger.links;
      }
    }
  }

  lemma GotoKeepsTraced(base: Known, s: State, h: HandlerId, pc: Pc)
    requires Traced(base, s) && PcTraced(s.ledger.seen, pc)
    ensures Traced(base, Goto(s, h, pc)) && Traced(base, Done(s, h))
  {
    GrowthKeepsTraced(base, s, Goto(s, h, pc));
    GrowthKeepsTraced(base, s, Done(s, h));
  }

  lemma LinkKeepsTraced(base: Known, s: State, h: HandlerId, pc: Pc)
    requires Traced(base, s) && pc.Linking? && HandlerOk(s.ledger, h, pc) && PcTraced(s.ledger.seen, pc)
    ensures Traced(base, AdvanceLink(s, h, pc))
  {
    GotoKeepsTraced(base, s, h, pc);
    LinkedKeepsTraced(base, s, h, pc);
    GotoKeepsTraced(base, Linked(s, h, pc), h, CheckingUser(pc.origin, pc.provider, pc.who, pc.user));
  }

  lemma IdentityKeepsTraced(base: Known, s: State, h: HandlerId, pc: Pc)
    requires Traced(base, s) && pc.FindingIdentity? && PcTraced(s.ledger.seen, pc)
    ensures Traced(base, AdvanceIdentity(s, h, pc))
  {
    GotoKeepsTraced(base, s, h, pc);
    var who, email := pc.profile.id, pc.profile.email;
    if (pc.provider, who) in s.identities {
      GotoKeepsTraced(base, s, h, CheckingUser(pc.origin, pc.provider, who, s.identities[(pc.provider, who)]));
    } else if pc.linking.Some? {
      GotoKeepsTraced(base, s, h, CheckingLinker(pc.origin, pc.provider, who, pc.linking.value));
    } else if email.Some? && pc.profile.emailVerified {
      assert pc.profile == Profile(who, email, true);
      GotoKeepsTraced(base, s, h, FindingAccount(pc.origin, pc.provider, who, email.value));
    }
  }

  lemma ClaimKeepsTraced(base: Known, s: State, h: HandlerId, provider: Provider, hash: Hash, denied: bool)
    requires Traced(base, s)
    ensures Traced(base, AdvanceClaim(s, h, provider, hash, denied))
  {
    GotoKeepsTraced(base, s, h, ClaimingState(provider, hash, denied));
    if CanClaimState(s.states, hash, s.now) && hash in s.ledger.states {
      GrowthKeepsTraced(base, s, Claimed(s, h, hash));
      GotoKeepsTraced(base, Claimed(s, h, hash), h, AwaitingProfile(hash, provider, s.states[hash].user));
    }
  }

  lemma ExchangeKeepsTraced(base: Known, s: State, h: HandlerId, code: Hash)
    requires Traced(base, s)
    ensures Traced(base, AdvanceExchange(s, h, code))
  {
    GotoKeepsTraced(base, s, h, ClaimingGrant(code));
    if CanClaimGrant(s.grants, code, s.now) && code in s.ledger.grants {
      var s' := s.(grants := ClaimGrant(s.grants, code, s.now), ledger := NoteExchanged(s.ledger, code, h, s.now));
      GrowthKeepsTraced(base, s, s');
      GotoKeepsTraced(base, s', h, LoadingUser(code, s.grants[code].user));
    }
  }

  lemma TokenKeepsTraced(base: Known, s: State, h: HandlerId, code: Hash, user: UserId)
    requires Traced(base, s)
    ensures Traced(base, AdvanceToken(s, h, code, user))
  {
    GotoKeepsTraced(base, s, h, LoadingUser(code, user));
    if code in s.ledger.grants {
      if user in s.accounts {
        var s' := s.(ledger := NoteToken(s.ledger, code, Access(user, s.accounts[user])));
        GrowthKeepsTraced(base, s, s');
        GotoKeepsTraced(base, s', h, LoadingUser(code, user));
      }
    }
  }

  lemma AdvanceKeepsTraced(base: Known, s: State, h: HandlerId, pc: Pc)
    requires Traced(base, s) && HandlerOk(s.ledger, h, pc) && PcTraced(s.ledger.seen, pc)
    ensures Traced(base, AdvanceHandler(s, h, pc))
  {
    GotoKeepsTraced(base, s, h, pc);
    match pc
    case ClaimingState(provider, hash, denied) => ClaimKeepsTraced(base, s, h, provider, hash, denied);
    case FindingIdentity(_, _, _, _) => IdentityKeepsTraced(base, s, h, pc);
    case CheckingLinker(o, p, who, user) =>
      if IsActive(s, user) {
        var s' := SawAccount(s, o, user, s.accounts[user]);
        GrowthKeepsTraced(base, s, s');
        assert (o, user, s.accounts[user]) in s'.ledger.seen.found;
        GotoKeepsTraced(base, s', h, Linking(o, p, who, user, None));
      }
    case Linking(_, _, _, _, _) => LinkKeepsTraced(base, s, h, pc);
    case CheckingUser(o, p, who, user) =>
      if IsActive(s, user) { GotoKeepsTraced(base, s, h, WritingGrant(o, p, who, user, s.accounts[user])); }
    case ClaimingGrant(code) => ExchangeKeepsTraced(base, s, h, code);
    case LoadingUser(code, user) => TokenKeepsTraced(base, s, h, code, user);
    case _ =>
  }

  lemma ProfileKeepsTraced(base: Known, s: State, h: HandlerId, profile: Option<Profile>)
    requires Traced(base, s) && h in s.handlers && s.handlers[h].AwaitingProfile?
    ensures Traced(base, Step(s, ProfileArrives(h, profile)))
  {
    var pc := s.handlers[h];
    GotoKeepsTraced(base, s, h, pc);
    if profile.Some? {
      var s' := SawProfile(s, pc.origin, profile.value);
      GrowthKeepsTraced(base, s, s');
      GotoKeepsTraced(base, s', h, FindingIdentity(pc.origin, pc.provider, pc.linking, profile.value));
    }
  }

  lemma FoundKeepsTraced(base: Known, s: State, h: HandlerId, found: Option<UserId>)
    requires Traced(base, s) && h in s.handlers && s.handlers[h].FindingAccount?
    requires IsAnswer(s, s.handlers[h].email, found)
    ensures Traced(base, Step(s, AccountFound(h, found)))
  {
    var pc := s.handlers[h];
    assert PcTraced(s.ledger.seen, pc);
    if found.None? {
      GotoKeepsTraced(base, s, h, CreatingAccount(pc.origin, pc.provider, pc.who, pc.email));
    } else {
      var account := s.accounts[found.value];
      var s' := SawAccount(s, pc.origin, found.value, account);
      GrowthKeepsTraced(base, s, s');
      GotoKeepsTraced(base, s', h, CheckingLinker(pc.origin, pc.provider, pc.who, found.value));
      if account.active && account.emailVerified {
        assert account == Account(pc.email, true, true);
        GotoKeepsTraced(base, s', h, Linking(pc.origin, pc.provider, pc.who, found.value, Some(pc.email)));
      }
    }
  }

  lemma CreatedKeepsTraced(base: Known, s: State, h: HandlerId, user: UserId)
    requires Traced(base, s) && h in s.handlers && s.handlers[h].CreatingAccount? && user !in s.accounts
    ensures Traced(base, Step(s, AccountCreated(h, user)))
  {
    var pc := s.handlers[h];
    assert PcTraced(s.ledger.seen, pc);
    var created := s.(accounts := s.accounts[user := Account(pc.email, true, true)],
                      held := s.held + {(user, Account(pc.email, true, true))});
    var s' := SawCreated(created, pc.origin, user, pc.email);
    GrowthKeepsTraced(base, s, s');
    GotoKeepsTraced(base, s', h, Linking(pc.origin, pc.provider, pc.who, user, Some(pc.email)));
  }

  lemma WriteGrantKeepsTraced(base: Known, s: State, h: HandlerId, code: Hash)
    requires Traced(base, s) && h in s.handlers && s.handlers[h].WritingGrant?
    ensures Traced(base, AdvanceWriteGrant(s, h, s.handlers[h], code))
  {
    GrowthKeepsTraced(base, s, AdvanceWriteGrant(s, h, s.handlers[h], code));
  }

  lemma StartKeepsTraced(base: Known, s: State, hash: Hash, provider: Provider, linking: Option<UserId>)
    requires Traced(base, s)
    ensures Traced(base, Step(s, Start(hash, provider, linking)))
  {
    GrowthKeepsTraced(base, s, Step(s, Start(hash, provider, linking)));
  }

  lemma ElsewhereKeepsTraced(base: Known, s: State, s': State)
    requires Traced(base, s) && s'.ledger == s.ledger && s'.handlers == s.handlers
    ensures Traced(base, s')
  {
  }

  lemma StepKeepsTraced(base: Known, s: State, e: Event)
    requires Inv(s) && Traced(base, s)
    ensures Traced(base, Step(s, e))
  {
    match e
    case Begin(h, request) =>
      if request.ClaimingState? || request.ClaimingGrant? { GotoKeepsTraced(base, s, h, request); }
    case GrantWritten(h, code) =>
      if h in s.handlers && s.handlers[h].WritingGrant? { WriteGrantKeepsTraced(base, s, h, code); }
    case Advance(h) =>
      if h in s.handlers {
        assert HandlerOk(s.ledger, h, s.handlers[h]) && PcTraced(s.ledger.seen, s.handlers[h]);
        AdvanceKeepsTraced(base, s, h, s.handlers[h]);
      }
    case ProfileArrives(h, profile) =>
      if h in s.handlers && s.handlers[h].AwaitingProfile? { ProfileKeepsTraced(base, s, h, profile); }
    case AccountFound(h, found) =>
      if h in s.handlers && s.handlers[h].FindingAccount? && IsAnswer(s, s.handlers[h].email, found) {
        FoundKeepsTraced(base, s, h, found);
      }
    case AccountCreated(h, user) =>
      if h in s.handlers && s.handlers[h].CreatingAccount? && user !in s.accounts {
        CreatedKeepsTraced(base, s, h, user);
      }
    case Drop(h) => GotoKeepsTraced(base, s, h, ClaimingGrant(0));
    case Start(hash, provider, linking) => StartKeepsTraced(base, s, hash, provider, linking);
    case Tick(_) => ElsewhereKeepsTraced(base, s, Step(s, e));
    case SetAccount(_, _) => ElsewhereKeepsTraced(base, s, Step(s, e));
    case DeleteRows(_, _) => ElsewhereKeepsTraced(base, s, Step(s, e));
    case Unlink(_, _) => ElsewhereKeepsTraced(base, s, Step(s, e));
  }

  lemma RunKeepsTraced(s: State, events: seq<Event>)
    requires Initial(s)
    ensures Traced(s.ledger.everLinked, Run(Step, s, events))
  {
    var base := s.ledger.everLinked;
    var inv := t => Inv(t) && Traced(base, t);
    forall t, e | inv(t) ensures inv(Step(t, e)) {
      StepKeepsInv(t, e);
      StepKeepsTraced(base, t, e);
    }
    Invariant(Step, inv, s, events);
  }

  // ---- the guarantees ----------------------------------------------------------------

  /**
   * In every interleaving: at most one token per grant, for the grant's user; the grant came from a claimed state that
   * was not started for linking; and that user had been linked to the provider account that came back.
   */
  lemma TokenTracesBack(s: State, events: seq<Event>, code: Hash)
    requires Initial(s) && code in Run(Step, s, events).ledger.grants
    ensures var l := Run(Step, s, events).ledger;
            var g := l.grants[code];
            && |g.tokens| <= 1
            && (g.tokens != [] ==> g.tokens[0].subject == g.user)
            && (g.tokens != [] ==> g.claimedAt.Some? && g.claimedAt.value < g.writtenAt + 60 * SECOND)
            && g.origin in l.states && l.states[g.origin].claimedBy.Some?
            && l.states[g.origin].claimedAt.Some?
            && l.states[g.origin].claimedAt.value < l.states[g.origin].startedAt + 10 * MINUTE
            && l.states[g.origin].linking == None && l.states[g.origin].provider == g.provider
            && (g.provider, g.who, g.user) in l.everLinked
  {
    RunKeepsInv(s, events);
    var l := Run(Step, s, events).ledger;
    assert GrantLogOk(l, code, l.grants[code]) && StateLogOk(l.states[l.grants[code].origin]);
  }

  /** Two grants never come from one state. */
  lemma GrantsAreInjective(s: State, events: seq<Event>, c: Hash, d: Hash)
    requires Initial(s) && c in Run(Step, s, events).ledger.grants && d in Run(Step, s, events).ledger.grants
    requires Run(Step, s, events).ledger.grants[c].origin == Run(Step, s, events).ledger.grants[d].origin
    ensures c == d
  {
    RunKeepsInv(s, events);
    var l := Run(Step, s, events).ledger;
    assert GrantLogOk(l, c, l.grants[c]) && GrantLogOk(l, d, l.grants[d]);
  }

  /** A state started for linking links only to the user who started it, and no grant ever comes from it. */
  lemma LinkingNeverSignsIn(s: State, events: seq<Event>, hash: Hash)
    requires Initial(s) && hash in Run(Step, s, events).ledger.states
    requires Run(Step, s, events).ledger.states[hash].linking.Some?
    ensures var l := Run(Step, s, events).ledger;
            && (l.states[hash].linkedTo.Some? ==> l.states[hash].linkedTo == l.states[hash].linking)
            && (forall code :: code in l.grants ==> l.grants[code].origin != hash)
  {
    RunKeepsInv(s, events);
    var l := Run(Step, s, events).ledger;
    assert StateLogOk(l.states[hash]);
    forall code | code in l.grants ensures l.grants[code].origin != hash {
      assert GrantLogOk(l, code, l.grants[code]);
    }
  }

  /**
   * No account takeover: the user of every grant had that provider account linked from the start, or linked it while
   * signed in, or was linked because the provider vouched for a verified address which that user's account, newly
   * created or read as active and verified, holds.
   */
  lemma SignInLinksOwnerOnly(s: State, events: seq<Event>, code: Hash)
    requires Initial(s) && code in Run(Step, s, events).ledger.grants
    ensures var l := Run(Step, s, events).ledger;
            var g := l.grants[code];
            || (g.provider, g.who, g.user) in s.ledger.everLinked
            || exists link :: && link in l.links
                              && link.provider == g.provider && link.who == g.who && link.user == g.user
                              && link.origin in l.states && l.states[link.origin].provider == g.provider
                              && match link.via
                                 case None =>
                                   && l.states[link.origin].linking == Some(g.user)
                                   && ReadActive(l.seen, link.origin, g.user)
                                 case Some(email) =>
                                   && l.states[link.origin].linking == None
                                   && Vouched(l.seen, link.origin, g.who, g.user, email)
  {
    RunKeepsTraced(s, events);
    TokenTracesBack(s, events, code);
    var l := Run(Step, s, events).ledger;
    var g := l.grants[code];
    var base, k := s.ledger.everLinked, (g.provider, g.who, g.user);
    assert Explained(base, l, k);
    if k !in base {
      var link :| link in l.links && (link.provider, link.who, link.user) == k;
      assert LinkTraced(l, link);
    }
  }

  // ---- whose account a grant and a token are for ---------------------------------------

  /** Somebody's account as it really was, active, and verified where that is required. */
  predicate Admissible(s: State, user: UserId, account: Account) {
    (user, account) in s.held && account.active && (s.requireVerifiedEmail ==> account.emailVerified)
  }

  predicate GrantAdmissible(s: State, g: GrantLog) {
    && Admissible(s, g.user, g.account)
    && forall i :: 0 <= i < |g.tokens| ==>
         (g.tokens[i].subject, g.tokens[i].account) in s.held && g.tokens[i].account.active
  }

  predicate PcAdmissible(s: State, pc: Pc) {
    pc.WritingGrant? ==> Admissible(s, pc.user, pc.account)
  }

  predicate AccountsOk(s: State) {
    && (forall u :: u in s.accounts ==> (u, s.accounts[u]) in s.held)
    && (forall h {:trigger PcAdmissible(s, s.handlers[h])} :: h in s.handlers ==> PcAdmissible(s, s.handlers[h]))
    && (forall c {:trigger GrantAdmissible(s, s.ledger.grants[c])} ::
          c in s.ledger.grants ==> GrantAdmissible(s, s.ledger.grants[c]))
  }

  /** Grants have the user, account and tokens they had, or are admissible; so are handlers about to write one. */
  lemma GrowthKeepsAccounts(s: State, s': State)
    requires AccountsOk(s) && s.held <= s'.held && s'.requireVerifiedEmail == s.requireVerifiedEmail
    requires forall u :: u in s'.accounts ==> (u, s'.accounts[u]) in s'.held
    requires forall h :: h in s'.handlers ==>
               || (h in s.handlers && s'.handlers[h] == s.handlers[h]) || PcAdmissible(s', s'.handlers[h])
    requires forall c :: c in s'.ledger.grants ==>
               || (c in s.ledger.grants && SameAccounts(s.ledger.grants[c], s'.ledger.grants[c]))
               || GrantAdmissible(s', s'.ledger.grants[c])
    ensures AccountsOk(s')
  {
    forall h | h in s'.handlers ensures PcAdmissible(s', s'.handlers[h]) {
      if h in s.handlers { assert PcAdmissible(s, s.handlers[h]); }
    }
    forall c | c in s'.ledger.grants ensures GrantAdmissible(s', s'.ledger.grants[c]) {
      if c in s.ledger.grants { assert GrantAdmissible(s, s.ledger.grants[c]); }
    }
  }

  predicate SameAccounts(a: GrantLog, b: GrantLog) {
    a.user == b.user && a.account == b.account && a.tokens == b.tokens
  }

  lemma GotoKeepsAccounts(s: State, h: HandlerId, pc: Pc)
    requires AccountsOk(s) && PcAdmissible(s, pc)
    ensures AccountsOk(Goto(s, h, pc)) && AccountsOk(Done(s, h))
  {
    GrowthKeepsAccounts(s, Goto(s, h, pc));
    GrowthKeepsAccounts(s, Done(s, h));
  }

  /** Tables and ledger change, but neither accounts nor grants do, and no handler moves. */
  lemma QuietKeepsAccounts(s: State, s': State)
    requires AccountsOk(s) && s'.held == s.held && s'.requireVerifiedEmail == s.requireVerifiedEmail
    requires s'.accounts == s.accounts && s'.ledger.grants == s.ledger.grants
    requires forall k :: k in s'.handlers ==> k in s.handlers && s'.handlers[k] == s.handlers[k]
    ensures AccountsOk(s')
  {
    GrowthKeepsAccounts(s, s');
  }

  lemma CheckUserKeepsAccounts(s: State, h: HandlerId, pc: Pc)
    requires AccountsOk(s) && pc.CheckingUser?
    ensures AccountsOk(AdvanceCheckUser(s, h, pc))
  {
    GrowthKeepsAccounts(s, AdvanceCheckUser(s, h, pc));
  }

  lemma WriteGrantKeepsAccounts(s: State, h: HandlerId, pc: Pc, code: Hash)
    requires AccountsOk(s) && pc.WritingGrant? && PcAdmissible(s, pc)
    ensures AccountsOk(AdvanceWriteGrant(s, h, pc, code))
  {
    var s' := AdvanceWriteGrant(s, h, pc, code);
    if s' != s {
      assert GrantAdmissible(s', s'.ledger.grants[code]);
      GrowthKeepsAccounts(s, s');
    }
  }

  lemma ExchangeKeepsAccounts(s: State, h: HandlerId, code: Hash)
    requires AccountsOk(s)
    ensures AccountsOk(AdvanceExchange(s, h, code))
  {
    GrowthKeepsAccounts(s, AdvanceExchange(s, h, code));
  }

  lemma TokenKeepsAccounts(s: State, h: HandlerId, code: Hash, user: UserId)
    requires AccountsOk(s)
    ensures AccountsOk(AdvanceToken(s, h, code, user))
  {
    var s' := AdvanceToken(s, h, code, user);
    if IsActive(s, user) && code in s.ledger.grants {
      assert GrantAdmissible(s, s.ledger.grants[code]);
      assert GrantAdmissible(s', s'.ledger.grants[code]);
    }
    GrowthKeepsAccounts(s, s');
  }

  lemma ClaimKeepsAccounts(s: State, h: HandlerId, provider: Provider, hash: Hash, denied: bool)
    requires AccountsOk(s)
    ensures AccountsOk(AdvanceClaim(s, h, provider, hash, denied))
  {
    GotoKeepsAccounts(s, h, ClaimingState(provider, hash, denied));
    if CanClaimState(s.states, hash, s.now) && hash in s.ledger.states {
      QuietKeepsAccounts(s, Claimed(s, h, hash));
      GotoKeepsAccounts(Claimed(s, h, hash), h, AwaitingProfile(hash, provider, s.states[hash].user));
    }
  }

  lemma IdentityKeepsAccounts(s: State, h: HandlerId, pc: Pc)
    requires AccountsOk(s) && pc.FindingIdentity?
    ensures AccountsOk(AdvanceIdentity(s, h, pc))
  {
    GotoKeepsAccounts(s, h, pc);
    var who, email := pc.profile.id, pc.profile.email;
    if (pc.provider, who) in s.identities {
      GotoKeepsAccounts(s, h, CheckingUser(pc.origin, pc.provider, who, s.identities[(pc.provider, who)]));
    } else if pc.linking.Some? {
      GotoKeepsAccounts(s, h, CheckingLinker(pc.origin, pc.provider, who, pc.linking.value));
    } else if email.Some? {
      GotoKeepsAccounts(s, h, FindingAccount(pc.origin, pc.provider, who, email.value));
    }
  }

  lemma LinkerKeepsAccounts(s: State, h: HandlerId, pc: Pc)
    requires AccountsOk(s) && pc.CheckingLinker?
    ensures AccountsOk(AdvanceHandler(s, h, pc))
  {
    GotoKeepsAccounts(s, h, pc);
    if IsActive(s, pc.user) {
      var s' := SawAccount(s, pc.origin, pc.user, s.accounts[pc.user]);
      QuietKeepsAccounts(s, s');
      GotoKeepsAccounts(s', h, Linking(pc.origin, pc.provider, pc.who, pc.user, None));
    }
  }

  lemma LinkKeepsAccounts(s: State, h: HandlerId, pc: Pc)
    requires AccountsOk(s) && pc.Linking?
    ensures AccountsOk(AdvanceLink(s, h, pc))
  {
    GotoKeepsAccounts(s, h, pc);
    if pc.origin in s.ledger.states {
      QuietKeepsAccounts(s, Linked(s, h, pc));
      GotoKeepsAccounts(Linked(s, h, pc), h, CheckingUser(pc.origin, pc.provider, pc.who, pc.user));
    }
  }

  lemma AdvanceKeepsAccounts(s: State, h: HandlerId, pc: Pc)
    requires AccountsOk(s) && PcAdmissible(s, pc)
    ensures AccountsOk(AdvanceHandler(s, h, pc))
  {
    match pc
    case ClaimingState(provider, hash, denied) => ClaimKeepsAccounts(s, h, provider, hash, denied);
    case FindingIdentity(_, _, _, _) => IdentityKeepsAccounts(s, h, pc);
    case CheckingLinker(_, _, _, _) => LinkerKeepsAccounts(s, h, pc);
    case Linking(_, _, _, _, _) => LinkKeepsAccounts(s, h, pc);
    case CheckingUser(_, _, _, _) => CheckUserKeepsAccounts(s, h, pc);
    case ClaimingGrant(code) => ExchangeKeepsAccounts(s, h, code);
    case LoadingUser(code, user) => TokenKeepsAccounts(s, h, code, user);
    case _ =>
  }

  lemma ProfileKeepsAccounts(s: State, h: HandlerId, profile: Option<Profile>)
    requires AccountsOk(s) && h in s.handlers && s.handlers[h].AwaitingProfile?
    ensures AccountsOk(Step(s, ProfileArrives(h, profile)))
  {
    var pc := s.handlers[h];
    GotoKeepsAccounts(s, h, pc);
    if profile.Some? {
      var s' := SawProfile(s, pc.origin, profile.value);
      QuietKeepsAccounts(s, s');
      GotoKeepsAccounts(s', h, FindingIdentity(pc.origin, pc.provider, pc.linking, profile.value));
    }
  }

  lemma FoundKeepsAccounts(s: State, h: HandlerId, found: Option<UserId>)
    requires AccountsOk(s) && h in s.handlers && s.handlers[h].FindingAccount?
    requires IsAnswer(s, s.handlers[h].email, found)
    ensures AccountsOk(Step(s, AccountFound(h, found)))
  {
    var pc := s.handlers[h];
    GotoKeepsAccounts(s, h, CreatingAccount(pc.origin, pc.provider, pc.who, pc.email));
    if found.Some? {
      var s' := SawAccount(s, pc.origin, found.value, s.accounts[found.value]);
      QuietKeepsAccounts(s, s');
      GotoKeepsAccounts(s', h, Linking(pc.origin, pc.provider, pc.who, found.value, Some(pc.email)));
    }
  }

  lemma CreatedKeepsAccounts(s: State, h: HandlerId, user: UserId)
    requires AccountsOk(s)
    ensures AccountsOk(Step(s, AccountCreated(h, user)))
  {
    GrowthKeepsAccounts(s, Step(s, AccountCreated(h, user)));
  }

  lemma SetAccountKeepsAccounts(s: State, user: UserId, account: Option<Account>)
    requires AccountsOk(s)
    ensures AccountsOk(Step(s, SetAccount(user, account)))
  {
    GrowthKeepsAccounts(s, Step(s, SetAccount(user, account)));
  }

  lemma ElsewhereKeepsAccounts(s: State, e: Event)
    requires AccountsOk(s) && (e.Tick? || e.Start? || e.DeleteRows? || e.Unlink?)
    ensures AccountsOk(Step(s, e))
  {
    GrowthKeepsAccounts(s, Step(s, e));
  }

  lemma StepKeepsAccounts(s: State, e: Event)
    requires AccountsOk(s)
    ensures AccountsOk(Step(s, e))
  {
    match e
    case Begin(h, request) =>
      if request.ClaimingState? || request.ClaimingGrant? { GotoKeepsAccounts(s, h, request); }
    case ProfileArrives(h, profile) =>
      if h in s.handlers && s.handlers[h].AwaitingProfile? { ProfileKeepsAccounts(s, h, profile); }
    case AccountFound(h, found) =>
      if h in s.handlers && s.handlers[h].FindingAccount? && IsAnswer(s, s.handlers[h].email, found) {
        FoundKeepsAccounts(s, h, found);
      }
    case AccountCreated(h, user) => CreatedKeepsAccounts(s, h, user);
    case SetAccount(user, account) => SetAccountKeepsAccounts(s, user, account);
    case GrantWritten(h, code) =>
      if h in s.handlers && s.handlers[h].WritingGrant? {
        assert PcAdmissible(s, s.handlers[h]);
        WriteGrantKeepsAccounts(s, h, s.handlers[h], code);
      }
    case Advance(h) =>
      if h in s.handlers {
        assert PcAdmissible(s, s.handlers[h]);
        AdvanceKeepsAccounts(s, h, s.handlers[h]);
      }
    case Drop(h) => GotoKeepsAccounts(s, h, ClaimingGrant(0));
    case _ => ElsewhereKeepsAccounts(s, e);
  }

  /**
   * In every run a grant is written only for an account that was read as active, and as verified where that is
   * required, and a token is issued only for an account that was read as active.
   */
  lemma GrantsAndTokensAdmissible(s: State, events: seq<Event>, code: Hash)
    requires Initial(s) && code in Run(Step, s, events).ledger.grants
    ensures var now := Run(Step, s, events);
            var g := now.ledger.grants[code];
            && (g.user, g.account) in now.held && g.account.active
            && (now.requireVerifiedEmail ==> g.account.emailVerified)
            && forall i :: 0 <= i < |g.tokens| ==>
                 (g.tokens[i].subject, g.tokens[i].account) in now.held && g.tokens[i].account.active
  {
    forall t, e | AccountsOk(t) ensures AccountsOk(Step(t, e)) { StepKeepsAccounts(t, e); }
    Invariant(Step, AccountsOk, s, events);
    var now := Run(Step, s, events);
    assert GrantAdmissible(now, now.ledger.grants[code]);
  }

  // ---- the intended paths are open -----------------------------------------------------

  /** What stays while a callback is on its way to its grant. */
  predicate Kept(s: State, t: State) {
    && t.identities == s.identities && t.accounts == s.accounts && t.requireVerifiedEmail == s.requireVerifiedEmail
    && t.ledger.grants == s.ledger.grants && t.grants == s.grants
  }

  /** A flow can be finished for exactly ten minutes after it was started. */
  lemma StartWorks(s: State, hash: Hash, provider: Provider, linking: Option<UserId>)
    requires hash !in s.ledger.states
    ensures var t := Step(s, Start(hash, provider, linking));
            && Kept(s, t) && t.handlers == s.handlers && hash in t.ledger.states && hash in t.states && t.now == s.now
            && t.states[hash].provider == provider && t.states[hash].user == linking
            && forall at :: CanClaimState(t.states, hash, at) <==> at < s.now + 10 * MINUTE
  {
  }

  /** Every callback uses its state up; it goes on only at the right provider and without an error from there. */
  lemma ClaimWorks(s: State, h: HandlerId, provider: Provider, hash: Hash, denied: bool)
    requires h in s.handlers && s.handlers[h] == ClaimingState(provider, hash, denied)
    requires CanClaimState(s.states, hash, s.now) && hash in s.ledger.states
    ensures var t := Step(s, Advance(h));
            && Kept(s, t) && t.now == s.now && (forall at :: !CanClaimState(t.states, hash, at))
            && t.ledger.states.Keys == s.ledger.states.Keys
            && t.handlers == if s.states[hash].provider == provider && !denied
                             then s.handlers[h := AwaitingProfile(hash, provider, s.states[hash].user)]
                             else s.handlers - {h}
  {
  }

  /** Which way a callback goes once the provider has told it who signed in. */
  lemma IdentityDecides(s: State, h: HandlerId, pc: Pc)
    requires h in s.handlers && s.handlers[h] == pc && pc.FindingIdentity?
    ensures var t, who := Step(s, Advance(h)), pc.profile.id;
            var linked := (pc.provider, who) in s.identities;
            && Kept(s, t) && t.now == s.now && t.states == s.states && t.ledger == s.ledger
            && (linked && pc.linking == None ==>
                  var user := s.identities[(pc.provider, who)];
                  t.handlers == s.handlers[h := CheckingUser(pc.origin, pc.provider, who, user)])
            && (linked && pc.linking.Some? ==> t.handlers == s.handlers - {h})
            && (!linked && pc.linking.Some? ==>
                  t.handlers == s.handlers[h := CheckingLinker(pc.origin, pc.provider, who, pc.linking.value)])
            && (!linked && pc.linking == None && pc.profile.email.Some? && pc.profile.emailVerified ==>
                  t.handlers == s.handlers[h := FindingAccount(pc.origin, pc.provider, who, pc.profile.email.value)])
            && (!linked && pc.linking == None && (pc.profile.email == None || !pc.profile.emailVerified) ==>
                  t.handlers == s.handlers - {h})
  {
  }

  /** A signed-in user's provider account is linked to that user, if the user is active and nobody has it. */
  lemma LinkingWorks(s: State, h: HandlerId, origin: Hash, provider: Provider, who: ProviderUser, user: UserId)
    requires h in s.handlers && s.handlers[h] == CheckingLinker(origin, provider, who, user) && IsActive(s, user)
    requires (provider, who) !in s.identities && origin in s.ledger.states
    ensures var t := Step(Step(s, Advance(h)), Advance(h));
            t.identities == s.identities[(provider, who) := user] && h !in t.handlers && t.accounts == s.accounts
  {
    var a := Step(s, Advance(h));
    assert a.handlers[h] == Linking(origin, provider, who, user, None) && a.identities == s.identities;
  }

  /** A new address gets a new account of its own, active, verified and linked. */
  lemma SignUpWorks(
    s: State, h: HandlerId, origin: Hash, provider: Provider, who: ProviderUser, email: Address, user: UserId)
    requires h in s.handlers && s.handlers[h] == FindingAccount(origin, provider, who, email)
    requires (forall u :: u in s.accounts ==> s.accounts[u].email != email) && user !in s.accounts
    requires (provider, who) !in s.identities && origin in s.ledger.states
    ensures var t := Step(Step(Step(s, AccountFound(h, None)), AccountCreated(h, user)), Advance(h));
            && t.accounts == s.accounts[user := Account(email, true, true)]
            && t.identities == s.identities[(provider, who) := user]
            && h in t.handlers && t.handlers[h] == CheckingUser(origin, provider, who, user)
  {
    var a := Step(s, AccountFound(h, None));
    assert a == Goto(s, h, CreatingAccount(origin, provider, who, email));
    var b := Step(a, AccountCreated(h, user));
    assert b.handlers[h] == Linking(origin, provider, who, user, Some(email)) && b.identities == s.identities;
  }

  /** A known address is linked exactly if its account is active and verified; otherwise the callback ends. */
  lemma KnownAddressWorks(
    s: State, h: HandlerId, origin: Hash, provider: Provider, who: ProviderUser, email: Address, user: UserId)
    requires h in s.handlers && s.handlers[h] == FindingAccount(origin, provider, who, email)
    requires user in s.accounts && s.accounts[user].email == email
    requires (provider, who) !in s.identities && origin in s.ledger.states
    ensures var t := Step(Step(s, AccountFound(h, Some(user))), Advance(h));
            if s.accounts[user].active && s.accounts[user].emailVerified then
              && t.identities == s.identities[(provider, who) := user]
              && h in t.handlers && t.handlers[h] == CheckingUser(origin, provider, who, user)
            else t.identities == s.identities && h !in t.handlers
  {
    var a := Step(s, AccountFound(h, Some(user)));
    if s.accounts[user].active && s.accounts[user].emailVerified {
      assert a.handlers[h] == Linking(origin, provider, who, user, Some(email)) && a.identities == s.identities;
    } else {
      assert a.handlers == s.handlers - {h} && Step(a, Advance(h)) == a;
    }
  }

  /** An admissible account gets a grant that works for exactly a minute. */
  lemma GrantWorks(
    s: State, h: HandlerId, origin: Hash, provider: Provider, who: ProviderUser, user: UserId, code: Hash)
    requires h in s.handlers && s.handlers[h] == CheckingUser(origin, provider, who, user)
    requires user in s.accounts && s.accounts[user].active && s.accounts[user].emailVerified
    requires code !in s.ledger.grants && origin in s.ledger.states
    ensures var t := Step(Step(s, Advance(h)), GrantWritten(h, code));
            && t.accounts == s.accounts && h !in t.handlers && t.now == s.now
            && code in t.ledger.grants && t.ledger.grants[code].tokens == [] && t.ledger.grants[code].user == user
            && code in t.grants && t.grants[code].user == user
            && forall at :: CanClaimGrant(t.grants, code, at) <==> at < s.now + 60 * SECOND
  {
    var a := Step(s, Advance(h));
    assert a == Goto(s, h, WritingGrant(origin, provider, who, user, s.accounts[user]));
  }

  /** Exchanging a working grant issues the token of its user. */
  lemma ExchangeWorks(s: State, h: HandlerId, code: Hash)
    requires h !in s.handlers && CanClaimGrant(s.grants, code, s.now) && code in s.ledger.grants
    requires IsActive(s, s.grants[code].user)
    ensures var user := s.grants[code].user;
            var t := Step(Step(Step(s, Begin(h, ClaimingGrant(code))), Advance(h)), Advance(h));
            && code in t.ledger.grants
            && t.ledger.grants[code].tokens == s.ledger.grants[code].tokens + [Access(user, s.accounts[user])]
            && forall at :: !CanClaimGrant(t.grants, code, at)
  {
    var a := Step(s, Begin(h, ClaimingGrant(code)));
    assert a == Goto(s, h, ClaimingGrant(code));
    var b := Step(a, Advance(h));
    assert b == AdvanceExchange(a, h, code);
    assert b.handlers[h] == LoadingUser(code, s.grants[code].user) && b.accounts == s.accounts;
  }

  lemma CallbackReachesUser(
    s: State, h: HandlerId, hash: Hash, provider: Provider, profile: Profile, user: UserId, a: nat) returns (t: State)
    requires h !in s.handlers && hash !in s.ledger.states && a < 10 * MINUTE
    requires (provider, profile.id) in s.identities && s.identities[(provider, profile.id)] == user
    ensures Reaches(Step, s, t) && Kept(s, t) && hash in t.ledger.states
    ensures h in t.handlers && t.handlers[h] == CheckingUser(hash, provider, profile.id, user)
  {
    ReachesStart(Step, s);
    ReachesThen(Step, s, s, Start(hash, provider, None));
    StartWorks(s, hash, provider, None);
    var started := Step(s, Start(hash, provider, None));
    ReachesThen(Step, s, started, Tick(a));
    var later := Step(started, Tick(a));
    ReachesThen(Step, s, later, Begin(h, ClaimingState(provider, hash, false)));
    var begun := Step(later, Begin(h, ClaimingState(provider, hash, false)));
    ReachesThen(Step, s, begun, Advance(h));
    ClaimWorks(begun, h, provider, hash, false);
    var claimed := Step(begun, Advance(h));
    t := ProfileReachesUser(s, claimed, h, hash, provider, profile, user);
  }

  lemma ProfileReachesUser(
    s: State, c: State, h: HandlerId, hash: Hash, provider: Provider, profile: Profile, user: UserId) returns (t: State)
    requires Reaches(Step, s, c) && Kept(s, c) && hash in c.ledger.states
    requires h in c.handlers && c.handlers[h] == AwaitingProfile(hash, provider, None)
    requires (provider, profile.id) in s.identities && s.identities[(provider, profile.id)] == user
    ensures Reaches(Step, s, t) && Kept(s, t) && hash in t.ledger.states
    ensures h in t.handlers && t.handlers[h] == CheckingUser(hash, provider, profile.id, user)
  {
    ReachesThen(Step, s, c, ProfileArrives(h, Some(profile)));
    var told := Step(c, ProfileArrives(h, Some(profile)));
    assert told.handlers[h] == FindingIdentity(hash, provider, None, profile);
    ReachesThen(Step, s, told, Advance(h));
    IdentityDecides(told, h, told.handlers[h]);
    t := Step(told, Advance(h));
  }

  /**
   * The intended path is open to a linked, active and verified account: a callback within ten minutes of the start and
   * an exchange within a minute of the grant end in its access token.
   */
  lemma SignInWorks(
    s: State, h: HandlerId, hash: Hash, provider: Provider, profile: Profile, user: UserId, code: Hash, a: nat, b: nat)
    returns (last: State)
    requires h !in s.handlers && hash !in s.ledger.states && code !in s.ledger.grants
    requires a < 10 * MINUTE && b < 60 * SECOND
    requires (provider, profile.id) in s.identities && s.identities[(provider, profile.id)] == user
    requires user in s.accounts && s.accounts[user].active && s.accounts[user].emailVerified
    ensures Reaches(Step, s, last)
    ensures code in last.ledger.grants && last.ledger.grants[code].tokens == [Access(user, s.accounts[user])]
  {
    var t := CallbackReachesUser(s, h, hash, provider, profile, user, a);
    GrantWorks(t, h, hash, provider, profile.id, user, code);
    ReachesThen(Step, s, t, Advance(h));
    ReachesThen(Step, s, Step(t, Advance(h)), GrantWritten(h, code));
    var granted := Step(Step(t, Advance(h)), GrantWritten(h, code));
    ReachesThen(Step, s, granted, Tick(b));
    var later := Step(granted, Tick(b));
    assert later.grants == granted.grants && later.ledger == granted.ledger && later.accounts == s.accounts;
    ExchangeWorks(later, h, code);
    ReachesThen(Step, s, later, Begin(h, ClaimingGrant(code)));
    var begun := Step(later, Begin(h, ClaimingGrant(code)));
    ReachesThen(Step, s, begun, Advance(h));
    ReachesThen(Step, s, Step(begun, Advance(h)), Advance(h));
    last := Step(Step(begun, Advance(h)), Advance(h));
  }

  /** No step takes a link over: who has a provider account keeps it until that user unlinks the provider. */
  lemma LinksStay(s: State, e: Event, k: (Provider, ProviderUser))
    requires k in s.identities
    ensures if k in Step(s, e).identities then Step(s, e).identities[k] == s.identities[k]
            else e == Unlink(s.identities[k], k.0)
  {
    if e.Advance? && e.h in s.handlers { HandlerLinksStay(s, e.h, s.handlers[e.h], k); }
  }

  lemma HandlerLinksStay(s: State, h: HandlerId, pc: Pc, k: (Provider, ProviderUser))
    requires k in s.identities
    ensures k in AdvanceHandler(s, h, pc).identities && AdvanceHandler(s, h, pc).identities[k] == s.identities[k]
  {
  }

  /** Over any run a provider account moves from one user to another only if the first one unlinks it. */
  lemma LinksStayWhile(s: State, events: seq<Event>, k: (Provider, ProviderUser))
    requires k in s.identities && forall i :: 0 <= i < |events| ==> events[i] != Unlink(s.identities[k], k.0)
    ensures var now := Run(Step, s, events);
            k in now.identities && now.identities[k] == s.identities[k]
    decreases |events|
  {
    if events == [] {
      assert Run(Step, s, events) == s;
    } else {
      LinksStayWhile(s, events[..|events| - 1], k);
      LinksStay(Run(Step, s, events[..|events| - 1]), events[|events| - 1], k);
    }
  }

  /** Rows can go, links can be undone and requests can be cut off at any point; the history stays. */
  lemma LossesUndoNothing(
    s: State, states: set<Hash>, grants: set<Hash>, user: UserId, provider: Provider, h: HandlerId)
    ensures var swept := Step(s, DeleteRows(states, grants));
            swept.states == s.states - states && swept.grants == s.grants - grants && swept.ledger == s.ledger
    ensures var unlinked := Step(s, Unlink(user, provider));
            && unlinked.ledger == s.ledger
            && (forall k :: k in unlinked.identities <==>
                  k in s.identities && (k.0 != provider || s.identities[k] != user))
    ensures h !in Step(s, Drop(h)).handlers && Step(s, Drop(h)).ledger == s.ledger
  {
  }
}
