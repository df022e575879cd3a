/** The second sign-in step: pending tokens are spent once, by a right code only, and a recovery batch is finite. */
module TwoFactor {
  import opened Common
  import opened Runs
  import opened OneTimeTokens

  type CodeId = nat
  type HandlerId = nat
  type LoginId = nat

  const RECOVERY_CODES_PER_ENROLLMENT: nat := 8
  const TWO_FACTOR_PENDING_TTL: int := 5 * MINUTE

  datatype CodeRow = CodeRow(user: UserId, hash: Hash, used: bool)

  type Codes = map<CodeId, CodeRow>

  // ---- recovery codes ----------------------------------------------------------------

  predicate Matches(row: CodeRow, user: UserId, hash: Hash) {
    row.user == user && row.hash == hash && !row.used
  }

  predicate CanClaimCode(codes: Codes, user: UserId, hash: Hash) {
    exists id :: id in codes && Matches(codes[id], user, hash)
  }

  /** `UPDATE ... SET used_at` on every unused row with that hash. */
  function ClaimCode(codes: Codes, user: UserId, hash: Hash): Codes {
    map id | id in codes :: if Matches(codes[id], user, hash) then codes[id].(used := true) else codes[id]
  }

  function UnusedCodes(codes: Codes, user: UserId): set<CodeId> {
    set id | id in codes && codes[id].user == user && !codes[id].used
  }

  function DeleteCodes(codes: Codes, user: UserId): Codes {
    map id | id in codes && codes[id].user != user :: codes[id]
  }

  /** `codes` with one unused row per hash added, numbered from `first`, which is beyond every id in use. */
  function AddBatch(codes: Codes, user: UserId, hashes: seq<Hash>, first: CodeId): Codes {
    if hashes == [] then codes
    else
      var n := |hashes| - 1;
      AddBatch(codes, user, hashes[..n], first)[first + n := CodeRow(user, hashes[n], false)]
  }

  class TotpRecoveryCodeRepository {
    var codes: Codes

    constructor ()
      ensures codes == map[]
    {
      codes := map[];
    }

    /** One transaction: the old codes go, one unused row per new hash is inserted. */
    method ReplaceAll(user: UserId, hashes: seq<Hash>, first: CodeId)
      requires forall id :: id in codes ==> id < first
      modifies this
      ensures codes == AddBatch(DeleteCodes(old(codes), user), user, hashes, first)
      ensures |UnusedCodes(codes, user)| == |hashes|
      ensures forall hash :: CanClaimCode(codes, user, hash) <==> hash in hashes
    {
      codes := DeleteCodes(codes, user);
      ghost var kept := codes;
      for i := 0 to |hashes|
        invariant codes == AddBatch(kept, user, hashes[..i], first)
      {
        codes := codes[first + i := CodeRow(user, hashes[i], false)];
        assert hashes[..i + 1][..i] == hashes[..i];
      }
      assert hashes[..|hashes|] == hashes;
      BatchSize(kept, user, hashes, first);
      assert UnusedCodes(kept, user) == {};
      forall hash ensures CanClaimCode(codes, user, hash) <==> hash in hashes {
        BatchIsClaimable(kept, user, hashes, first, hash);
      }
    }

    method Claim(user: UserId, hash: Hash) returns (claimed: bool)
      modifies this
      ensures claimed == CanClaimCode(old(codes), user, hash)
      ensures codes == ClaimCode(old(codes), user, hash)
      ensures !CanClaimCode(codes, user, hash)
      ensures codes.Keys == old(codes).Keys
      ensures forall id :: id in codes && !Matches(old(codes)[id], user, hash) ==> codes[id] == old(codes)[id]
    {
      claimed := exists id :: id in codes && codes[id].user == user && codes[id].hash == hash && !codes[id].used;
      codes := map id | id in codes ::
        if codes[id].user == user && codes[id].hash == hash && !codes[id].used
        then codes[id].(used := true) else codes[id];
    }

    method DeleteAll(user: UserId)
      modifies this
      ensures codes == DeleteCodes(old(codes), user) && UnusedCodes(codes, user) == {}
      ensures forall u :: u != user ==> UnusedCodes(codes, u) == UnusedCodes(old(codes), u)
    {
      codes := DeleteCodes(codes, user);
    }
  }

  /** Every hash becomes one more unused code of that user; other users' codes stay. */
  lemma {:induction false} BatchSize(codes: Codes, user: UserId, hashes: seq<Hash>, first: CodeId)
    requires forall id :: id in codes ==> id < first
    ensures var after := AddBatch(codes, user, hashes, first);
            && (forall id :: id in after ==> id < first + |hashes|)
            && |UnusedCodes(after, user)| == |UnusedCodes(codes, user)| + |hashes|
            && (forall u :: u != user ==> UnusedCodes(after, u) == UnusedCodes(codes, u))
  {
    if hashes == [] {
      assert AddBatch(codes, user, hashes, first) == codes;
    } else {
      var n := |hashes| - 1;
      BatchSize(codes, user, hashes[..n], first);
      var before := AddBatch(codes, user, hashes[..n], first);
      var after := AddBatch(codes, user, hashes, first);
      assert UnusedCodes(after, user) == UnusedCodes(before, user) + {first + n};
      forall u | u != user ensures UnusedCodes(after, u) == UnusedCodes(codes, u) {
        assert UnusedCodes(after, u) == UnusedCodes(before, u);
      }
    }
  }

  /** Exactly the codes of the batch can be claimed, besides those that could be before. */
  lemma {:induction false} BatchIsClaimable(codes: Codes, user: UserId, hashes: seq<Hash>, first: CodeId, hash: Hash)
    requires forall id :: id in codes ==> id < first
    ensures CanClaimCode(AddBatch(codes, user, hashes, first), user, hash)
            <==> hash in hashes || CanClaimCode(codes, user, hash)
  {
    if hashes == [] {
      assert AddBatch(codes, user, hashes, first) == codes;
    } else {
      var n := |hashes| - 1;
      BatchSize(codes, user, hashes[..n], first);
      BatchIsClaimable(codes, user, hashes[..n], first, hash);
      assert hashes == hashes[..n] + [hashes[n]];
      OneMoreClaimable(AddBatch(codes, user, hashes[..n], first), first + n, CodeRow(user, hashes[n], false), hash);
    }
  }

  lemma OneMoreClaimable(codes: Codes, id: CodeId, row: CodeRow, hash: Hash)
    requires id !in codes && !row.used
    ensures CanClaimCode(codes[id := row], row.user, hash) <==> hash == row.hash || CanClaimCode(codes, row.user, hash)
  {
    var after := codes[id := row];
    if CanClaimCode(codes, row.user, hash) {
      var k :| k in codes && Matches(codes[k], row.user, hash);
      assert k in after && Matches(after[k], row.user, hash);
    }
    if hash == row.hash { assert Matches(after[id], row.user, hash); }
    if CanClaimCode(after, row.user, hash) {
      var k :| k in after && Matches(after[k], row.user, hash);
      if k != id { assert Matches(codes[k], row.user, hash); }
    }
  }

  lemma ClaimUsesACode(codes: Codes, user: UserId, hash: Hash)
    requires CanClaimCode(codes, user, hash)
    ensures |UnusedCodes(ClaimCode(codes, user, hash), user)| + 1 <= |UnusedCodes(codes, user)|
    ensures forall u :: u != user ==> UnusedCodes(ClaimCode(codes, user, hash), u) == UnusedCodes(codes, u)
  {
    var id :| id in codes && Matches(codes[id], user, hash);
    SubsetSize(UnusedCodes(ClaimCode(codes, user, hash), user), UnusedCodes(codes, user) - {id});
  }

  // ---- handlers in flight ------------------------------------------------------------

  datatype Account = Account(active: bool, totpEnabled: bool, hasSecret: bool)

  /** The successful claims of recovery codes, numbered within each batch of a user. */
  datatype Ticket = Ticket(user: UserId, batch: nat, number: nat)

  datatype Factor = AppCode | RecoveryCode(ticket: Ticket)

  /** Which pending tokens a right app code, or which recovery claim, was shown for; and how many batches there were. */
  datatype Shown = Shown(appCodes: set<Hash>, recovery: map<Ticket, Hash>, batches: map<UserId, nat>)

  /** An access token and the second factor behind it. */
  datatype Access = Access(subject: UserId, factor: Factor)

  /** `totpOk` says whether the submitted code is the authenticator's current one. */
  datatype Pc =
    | PasswordProven(user: UserId, login: LoginId)
    | Revoked(user: UserId, login: LoginId)
    | Peeking(hash: Hash, code: Hash, totpOk: bool)
    | LoadingUser(hash: Hash, code: Hash, totpOk: bool, user: UserId)
    | CheckingCode(hash: Hash, code: Hash, totpOk: bool, user: UserId)
    | Redeeming(hash: Hash, user: UserId, factor: Factor)
    | Issuing(hash: Hash, user: UserId, factor: Factor)

  /** A pending token: the login behind it, who redeemed it, and the access tokens that came of it. */
  datatype Pending = Pending(user: UserId, login: LoginId, redeemedBy: Option<HandlerId>, tokens: seq<Access>)

  /** A login whose password was accepted, and the pending token it led to. */
  datatype Login = Login(user: UserId, handler: HandlerId, hash: Option<Hash>)

  datatype State = State(
    now: int, tokens: Tokens, codes: Codes, accounts: map<UserId, Account>, handlers: map<HandlerId, Pc>,
    issued: set<Hash>, pending: map<Hash, Pending>, claims: map<UserId, nat>, logins: map<LoginId, Login>, shown: Shown)

  datatype Event =
    | Tick(elapsed: nat)
    | PasswordAccepted(h: HandlerId, user: UserId, login: LoginId)
    | PendingInserted(h: HandlerId, hash: Hash)
    | BeginVerify(h: HandlerId, hash: Hash, code: Hash, totpOk: bool)
    | Advance(h: HandlerId)
    | Drop(h: HandlerId)
    | IssueOther(user: UserId, purpose: Purpose, hash: Hash, expiresAt: int)
    | RedeemOther(purpose: Purpose, hash: Hash)
    | Sweep(cutoff: int)
    | SetAccount(user: UserId, account: Option<Account>)
    | ReplaceCodes(user: UserId, hashes: seq<Hash>, first: CodeId)
    | DeleteAllCodes(user: UserId)

  function Done(s: State, h: HandlerId): State {
    s.(handlers := s.handlers - {h})
  }

  function Goto(s: State, h: HandlerId, pc: Pc): State {
    s.(handlers := s.handlers[h := pc])
  }

  function ClaimsOf(s: State, user: UserId): nat {
    if user in s.claims then s.claims[user] else 0
  }

  function BatchOf(s: State, user: UserId): nat {
    if user in s.shown.batches then s.shown.batches[user] else 0
  }

  function NextTicket(s: State, user: UserId): Ticket {
    Ticket(user, BatchOf(s, user), ClaimsOf(s, user))
  }

  function ShowApp(s: State, hash: Hash): State {
    s.(shown := s.shown.(appCodes := s.shown.appCodes + {hash}))
  }

  function ShowRecovery(s: State, hash: Hash, code: Hash, user: UserId): State {
    s.(codes := ClaimCode(s.codes, user, code), claims := s.claims[user := ClaimsOf(s, user) + 1],
       shown := s.shown.(recovery := s.shown.recovery[NextTicket(s, user) := hash]))
  }

  function AdvanceCode(s: State, h: HandlerId, hash: Hash, code: Hash, totpOk: bool, user: UserId): State {
    if totpOk then Goto(ShowApp(s, hash), h, Redeeming(hash, user, AppCode))
    else if CanClaimCode(s.codes, user, code) then
      Goto(ShowRecovery(s, hash, code, user), h, Redeeming(hash, user, RecoveryCode(NextTicket(s, user))))
    else Done(s, h)
  }

  function AdvanceRedeem(s: State, h: HandlerId, hash: Hash, user: UserId, factor: Factor): State {
    if Valid(s.tokens, TwoFactorPending, hash, s.now) && hash in s.pending then
      Goto(s.(tokens := Claim(s.tokens, TwoFactorPending, hash, s.now),
              pending := s.pending[hash := s.pending[hash].(redeemedBy := Some(h))]), h, Issuing(hash, user, factor))
    else Done(s, h)
  }

  function WithToken(p: Pending, token: Access): Pending {
    p.(tokens := p.tokens + [token])
  }

  function AdvanceHandler(s: State, h: HandlerId, pc: Pc): State {
    match pc
    case PasswordProven(user, login) =>
      Goto(s.(tokens := InvalidateUnused(s.tokens, user, TwoFactorPending, s.now)), h, Revoked(user, login))
    case Revoked(_, _) => s
    case Peeking(hash, code, totpOk) =>
      if Valid(s.tokens, TwoFactorPending, hash, s.now)
      then Goto(s, h, LoadingUser(hash, code, totpOk, s.tokens[hash].user))
      else Done(s, h)
    case LoadingUser(hash, code, totpOk, user) =>
      if user in s.accounts && s.accounts[user].active && s.accounts[user].totpEnabled && s.accounts[user].hasSecret
      then Goto(s, h, CheckingCode(hash, code, totpOk, user))
      else Done(s, h)
    case CheckingCode(hash, code, totpOk, user) => AdvanceCode(s, h, hash, code, totpOk, user)
    case Redeeming(hash, user, factor) => AdvanceRedeem(s, h, hash, user, factor)
    case Issuing(hash, user, factor) =>
      if hash in s.pending
      then Done(s.(pending := s.pending[hash := WithToken(s.pending[hash], Access(user, factor))]), h)
      else Done(s, h)
  }

  function Step(s: State, e: Event): State {
    match e
    case Tick(elapsed) => s.(now := s.now + elapsed)
    case PasswordAccepted(h, user, login) =>
      if h in s.handlers || login in s.logins then s
      else Goto(s.(logins := s.logins[login := Login(user, h, None)]), h, PasswordProven(user, login))
    case PendingInserted(h, hash) =>
      if h in s.handlers && s.handlers[h].Revoked? && hash !in s.issued then
        var user, login := s.handlers[h].user, s.handlers[h].login;
        Done(s.(tokens := s.tokens[hash := Row(user, TwoFactorPending, s.now + TWO_FACTOR_PENDING_TTL, None, s.now)],
                issued := s.issued + {hash}, pending := s.pending[hash := Pending(user, login, None, [])],
                logins := s.logins[login := Login(user, h, Some(hash))]), h)
      else s
    case BeginVerify(h, hash, code, totpOk) => if h in s.handlers then s else Goto(s, h, Peeking(hash, code, totpOk))
    case Advance(h) => if h in s.handlers then AdvanceHandler(s, h, s.handlers[h]) else s
    case Drop(h) => Done(s, h)
    case IssueOther(user, purpose, hash, expiresAt) =>
      if purpose == TwoFactorPending || hash in s.issued then s
      else s.(tokens := Issue(s.tokens, user, purpose, hash, expiresAt, s.now), issued := s.issued + {hash})
    case RedeemOther(purpose, hash) =>
      if purpose == TwoFactorPending then s else s.(tokens := Claim(s.tokens, purpose, hash, s.now))
    case Sweep(cutoff) => s.(tokens := DeleteExpired(s.tokens, cutoff))
    case SetAccount(user, account) =>
      if account.Some? then s.(accounts := s.accounts[user := account.value]) else s.(accounts := s.accounts - {user})
    case ReplaceCodes(user, hashes, first) =>
      if |hashes| == RECOVERY_CODES_PER_ENROLLMENT && (forall id :: id in s.codes ==> id < first)
      then s.(codes := AddBatch(DeleteCodes(s.codes, user), user, hashes, first), claims := s.claims[user := 0],
              shown := s.shown.(batches := s.shown.batches[user := BatchOf(s, user) + 1]))
      else s
    case DeleteAllCodes(user) => s.(codes := DeleteCodes(s.codes, user))
  }

  predicate Initial(s: State) {
    && s.tokens == map[] && s.codes == map[] && s.handlers == map[] && s.issued == {} && s.pending == map[]
    && s.claims == map[] && s.logins == map[] && s.shown == Shown({}, map[], map[])
  }

  // ---- the invariant -----------------------------------------------------------------

  predicate PendingOk(p: Pending) {
    p.tokens == [] || (p.redeemedBy.Some? && |p.tokens| == 1 && p.tokens[0].subject == p.user)
  }

  predicate TokenMatches(issued: set<Hash>, pending: map<Hash, Pending>, hash: Hash, row: Row) {
    && hash in issued
    && (row.purpose == TwoFactorPending ==>
          && hash in pending && pending[hash].user == row.user
          && (row.usedAt == None ==> pending[hash].redeemedBy == None))
  }

  predicate HandlerOk(pending: map<Hash, Pending>, h: HandlerId, pc: Pc) {
    match pc
    case LoadingUser(hash, _, _, user) => hash in pending && pending[hash].user == user
    case CheckingCode(hash, _, _, user) => hash in pending && pending[hash].user == user
    case Redeeming(hash, user, _) => hash in pending && pending[hash].user == user
    case Issuing(hash, user, _) =>
      hash in pending && pending[hash].user == user && pending[hash].redeemedBy == Some(h) && pending[hash].tokens == []
    case _ => true
  }

  predicate TokensMatch(s: State) {
    && (forall hash {:trigger TokenMatches(s.issued, s.pending, hash, s.tokens[hash])} ::
          hash in s.tokens ==> TokenMatches(s.issued, s.pending, hash, s.tokens[hash]))
    && (forall hash :: hash in s.pending ==> hash in s.issued)
  }

  predicate AllPendingOk(pending: map<Hash, Pending>) {
    forall hash {:trigger PendingOk(pending[hash])} :: hash in pending ==> PendingOk(pending[hash])
  }

  predicate HandlersOk(pending: map<Hash, Pending>, handlers: map<HandlerId, Pc>) {
    forall h {:trigger HandlerOk(pending, h, handlers[h])} :: h in handlers ==> HandlerOk(pending, h, handlers[h])
  }

  ghost predicate BatchesOk(s: State) {
    forall user :: ClaimsOf(s, user) + |UnusedCodes(s.codes, user)| <= RECOVERY_CODES_PER_ENROLLMENT
  }

  ghost predicate Inv(s: State) {
    TokensMatch(s) && AllPendingOk(s.pending) && HandlersOk(s.pending, s.handlers) && BatchesOk(s)
  }

  lemma GotoKeepsInv(s: State, h: HandlerId, pc: Pc)
    requires Inv(s) && HandlerOk(s.pending, h, pc)
    ensures Inv(Goto(s, h, pc))
  {
    assert BatchesOk(Goto(s, h, pc)) by { SameBatches(s, Goto(s, h, pc)); }
  }

  lemma DoneKeepsInv(s: State, h: HandlerId)
    requires Inv(s)
    ensures Inv(Done(s, h))
  {
    assert BatchesOk(Done(s, h)) by { SameBatches(s, Done(s, h)); }
  }

  lemma SameBatches(s: State, s': State)
    requires BatchesOk(s) && s'.codes == s.codes && s'.claims == s.claims
    ensures BatchesOk(s')
  {
    forall user ensures ClaimsOf(s', user) + |UnusedCodes(s'.codes, user)| <= RECOVERY_CODES_PER_ENROLLMENT {
      assert ClaimsOf(s, user) + |UnusedCodes(s.codes, user)| <= RECOVERY_CODES_PER_ENROLLMENT;
    }
  }

  predicate Spent(before: Row, after: Row) {
    after == before.(usedAt := after.usedAt) && after.usedAt.Some?
  }

  /** Changing tokens without reviving any keeps the invariant. */
  lemma TokensOnlyAge(s: State, s': State)
    requires Inv(s) && s'.codes == s.codes && s'.claims == s.claims
    requires s'.pending == s.pending && s'.handlers == s.handlers
    requires s.issued <= s'.issued
    requires forall k :: k in s'.tokens && k in s.tokens ==>
               s'.tokens[k] == s.tokens[k] || Spent(s.tokens[k], s'.tokens[k])
    requires forall k :: k in s'.tokens && k !in s.tokens ==> k in s'.issued && s'.tokens[k].purpose != TwoFactorPending
    ensures Inv(s')
  {
    SameBatches(s, s');
    forall k | k in s'.tokens ensures TokenMatches(s'.issued, s'.pending, k, s'.tokens[k]) {
      if k in s.tokens { assert TokenMatches(s.issued, s.pending, k, s.tokens[k]); }
    }
  }

  lemma CodeStepKeepsInv(s: State, h: HandlerId, hash: Hash, code: Hash, totpOk: bool, user: UserId)
    requires Inv(s) && h in s.handlers && HandlerOk(s.pending, h, CheckingCode(hash, code, totpOk, user))
    ensures Inv(AdvanceCode(s, h, hash, code, totpOk, user))
  {
    DoneKeepsInv(s, h);
    if totpOk {
      var s' := ShowApp(s, hash);
      SameBatches(s, s');
      assert TokensMatch(s');
      GotoKeepsInv(s', h, Redeeming(hash, user, AppCode));
    } else if CanClaimCode(s.codes, user, code) {
      var s' := ShowRecovery(s, hash, code, user);
      ClaimUsesACode(s.codes, user, code);
      forall u ensures ClaimsOf(s', u) + |UnusedCodes(s'.codes, u)| <= RECOVERY_CODES_PER_ENROLLMENT {
        assert ClaimsOf(s, u) + |UnusedCodes(s.codes, u)| <= RECOVERY_CODES_PER_ENROLLMENT;
      }
      assert TokensMatch(s');
      GotoKeepsInv(s', h, Redeeming(hash, user, RecoveryCode(NextTicket(s, user))));
    }
  }

  /** One pending record changes; only its redeemer relies on the part that changes. */
  lemma OthersStayOk(a: map<Hash, Pending>, hash: Hash, p: Pending, h: HandlerId, handlers: map<HandlerId, Pc>)
    requires HandlersOk(a, handlers) && hash in a && p.user == a[hash].user
    requires a[hash].redeemedBy.Some? ==> a[hash].redeemedBy == Some(h)
    ensures HandlersOk(a[hash := p], handlers - {h})
  {
    forall k | k in handlers - {h} ensures HandlerOk(a[hash := p], k, (handlers - {h})[k]) {
      assert HandlerOk(a, k, handlers[k]);
    }
  }

  /** A pending record and its token row change together. */
  lemma PendingUpdateKeepsTokens(s: State, s': State, hash: Hash)
    requires TokensMatch(s) && hash in s.pending && hash in s'.pending && s'.issued == s.issued
    requires s'.pending == s.pending[hash := s'.pending[hash]] && s'.pending[hash].user == s.pending[hash].user
    requires forall k :: k in s'.tokens ==> k in s.tokens && (k != hash ==> s'.tokens[k] == s.tokens[k])
    requires hash in s'.tokens ==> Spent(s.tokens[hash], s'.tokens[hash])
    ensures TokensMatch(s')
  {
    forall k | k in s'.tokens ensures TokenMatches(s'.issued, s'.pending, k, s'.tokens[k]) {
      assert TokenMatches(s.issued, s.pending, k, s.tokens[k]);
    }
  }

  lemma RedeemKeepsInv(s: State, h: HandlerId, hash: Hash, user: UserId, factor: Factor)
    requires Inv(s) && h in s.handlers && HandlerOk(s.pending, h, Redeeming(hash, user, factor))
    requires Valid(s.tokens, TwoFactorPending, hash, s.now)
    ensures Inv(AdvanceRedeem(s, h, hash, user, factor))
  {
    assert TokenMatches(s.issued, s.pending, hash, s.tokens[hash]) && PendingOk(s.pending[hash]);
    var p := s.pending[hash].(redeemedBy := Some(h));
    var s' := Done(s, h).(tokens := Claim(s.tokens, TwoFactorPending, hash, s.now), pending := s.pending[hash := p]);
    PendingUpdateKeepsTokens(s, s', hash);
    OthersStayOk(s.pending, hash, p, h, s.handlers);
    SameBatches(s, s');
    forall k | k in s'.pending ensures PendingOk(s'.pending[k]) {
      if k != hash { assert PendingOk(s.pending[k]); }
    }
    GotoKeepsInv(s', h, Issuing(hash, user, factor));
    assert AdvanceRedeem(s, h, hash, user, factor) == Goto(s', h, Issuing(hash, user, factor));
  }

  lemma IssueKeepsInv(s: State, h: HandlerId, hash: Hash, user: UserId, factor: Factor)
    requires Inv(s) && h in s.handlers && HandlerOk(s.pending, h, Issuing(hash, user, factor))
    ensures Inv(AdvanceHandler(s, h, Issuing(hash, user, factor)))
  {
    var s' := AdvanceHandler(s, h, Issuing(hash, user, factor));
    var p := s'.pending[hash];
    OthersStayOk(s.pending, hash, p, h, s.handlers);
    SameBatches(s, s');
    forall k | k in s'.pending ensures PendingOk(s'.pending[k]) {
      if k != hash { assert PendingOk(s.pending[k]); }
    }
    forall k | k in s'.tokens ensures TokenMatches(s'.issued, s'.pending, k, s'.tokens[k]) {
      assert TokenMatches(s.issued, s.pending, k, s.tokens[k]);
    }
  }

  lemma AdvanceKeepsInv(s: State, h: HandlerId, pc: Pc)
    requires Inv(s) && h in s.handlers && HandlerOk(s.pending, h, pc)
    ensures Inv(AdvanceHandler(s, h, pc))
  {
    DoneKeepsInv(s, h);
    match pc
    case PasswordProven(user, login) =>
      var s' := s.(tokens := InvalidateUnused(s.tokens, user, TwoFactorPending, s.now));
      TokensOnlyAge(s, s');
      GotoKeepsInv(s', h, Revoked(user, login));
    case Revoked(_, _) =>
    case Peeking(hash, code, totpOk) =>
      if Valid(s.tokens, TwoFactorPending, hash, s.now) {
        assert TokenMatches(s.issued, s.pending, hash, s.tokens[hash]);
        GotoKeepsInv(s, h, LoadingUser(hash, code, totpOk, s.tokens[hash].user));
      }
    case LoadingUser(hash, code, totpOk, user) => GotoKeepsInv(s, h, CheckingCode(hash, code, totpOk, user));
    case CheckingCode(hash, code, totpOk, user) => CodeStepKeepsInv(s, h, hash, code, totpOk, user);
    case Redeeming(hash, user, factor) =>
      if Valid(s.tokens, TwoFactorPending, hash, s.now) { RedeemKeepsInv(s, h, hash, user, factor); }
    case Issuing(hash, user, factor) => IssueKeepsInv(s, h, hash, user, factor);
  }

  lemma InsertKeepsInv(s: State, h: HandlerId, hash: Hash)
    requires Inv(s) && h in s.handlers && s.handlers[h].Revoked? && hash !in s.issued
    ensures Inv(Step(s, PendingInserted(h, hash)))
  {
    var s' := Step(s, PendingInserted(h, hash));
    SameBatches(s, s');
    forall k | k in s'.pending ensures PendingOk(s'.pending[k]) {
      if k != hash { assert PendingOk(s.pending[k]); }
    }
    forall k | k in s'.handlers ensures HandlerOk(s'.pending, k, s'.handlers[k]) {
      assert HandlerOk(s.pending, k, s.handlers[k]);
    }
    forall k | k in s'.tokens ensures TokenMatches(s'.issued, s'.pending, k, s'.tokens[k]) {
      if k != hash { assert TokenMatches(s.issued, s.pending, k, s.tokens[k]); }
    }
  }

  lemma ReplaceKeepsInv(s: State, user: UserId, hashes: seq<Hash>, first: CodeId)
    requires Inv(s) && |hashes| == RECOVERY_CODES_PER_ENROLLMENT && forall id :: id in s.codes ==> id < first
    ensures Inv(Step(s, ReplaceCodes(user, hashes, first)))
  {
    var s' := Step(s, ReplaceCodes(user, hashes, first));
    var kept := DeleteCodes(s.codes, user);
    BatchSize(kept, user, hashes, first);
    assert UnusedCodes(kept, user) == {};
    forall u ensures ClaimsOf(s', u) + |UnusedCodes(s'.codes, u)| <= RECOVERY_CODES_PER_ENROLLMENT {
      assert ClaimsOf(s, u) + |UnusedCodes(s.codes, u)| <= RECOVERY_CODES_PER_ENROLLMENT;
      if u != user { assert UnusedCodes(kept, u) == UnusedCodes(s.codes, u); }
    }
    assert TokensMatch(s');
  }

  lemma DeleteKeepsInv(s: State, user: UserId)
    requires Inv(s)
    ensures Inv(Step(s, DeleteAllCodes(user)))
  {
    var s' := Step(s, DeleteAllCodes(user));
    forall u ensures ClaimsOf(s', u) + |UnusedCodes(s'.codes, u)| <= RECOVERY_CODES_PER_ENROLLMENT {
      assert ClaimsOf(s, u) + |UnusedCodes(s.codes, u)| <= RECOVERY_CODES_PER_ENROLLMENT;
      assert UnusedCodes(s'.codes, u) == if u == user then {} else UnusedCodes(s.codes, u);
    }
    assert TokensMatch(s');
  }

  lemma IssuedKnown(s: State, k: Hash)
    requires TokensMatch(s) && k in s.tokens
    ensures k in s.issued
  {
    assert TokenMatches(s.issued, s.pending, k, s.tokens[k]);
  }

  lemma IssueOtherKeepsInv(s: State, user: UserId, purpose: Purpose, hash: Hash, expiresAt: int)
    requires Inv(s) && purpose != TwoFactorPending && hash !in s.issued
    ensures Inv(s.(tokens := Issue(s.tokens, user, purpose, hash, expiresAt, s.now), issued := s.issued + {hash}))
  {
    forall k | k in s.tokens ensures k in s.issued { IssuedKnown(s, k); }
    var s' := s.(tokens := Issue(s.tokens, user, purpose, hash, expiresAt, s.now), issued := s.issued + {hash});
    TokensOnlyAge(s, s');
  }

  lemma RedeemOtherKeepsInv(s: State, purpose: Purpose, hash: Hash)
    requires Inv(s)
    ensures Inv(s.(tokens := Claim(s.tokens, purpose, hash, s.now)))
  {
    TokensOnlyAge(s, s.(tokens := Claim(s.tokens, purpose, hash, s.now)));
  }

  lemma SweepKeepsInv(s: State, cutoff: int)
    requires Inv(s)
    ensures Inv(s.(tokens := DeleteExpired(s.tokens, cutoff)))
  {
    TokensOnlyAge(s, s.(tokens := DeleteExpired(s.tokens, cutoff)));
  }

  /** Neither the clock nor the accounts matter to the invariant. */
  lemma ElsewhereKeepsInv(s: State, s': State)
    requires Inv(s)
    requires s' == s.(now := s'.now, accounts := s'.accounts)
    ensures Inv(s')
  {
    SameBatches(s, s');
    assert TokensMatch(s');
  }

  lemma StepKeepsInv(s: State, e: Event)
    requires Inv(s)
    ensures Inv(Step(s, e))
  {
    match e
    case PasswordAccepted(h, user, login) =>
      var s' := s.(logins := s.logins[login := Login(user, h, None)]);
      SameBatches(s, s');
      assert TokensMatch(s');
      GotoKeepsInv(s', h, PasswordProven(user, login));
    case PendingInserted(h, hash) =>
      if h in s.handlers && s.handlers[h].Revoked? && hash !in s.issued { InsertKeepsInv(s, h, hash); }
    case BeginVerify(h, hash, code, totpOk) => if h !in s.handlers { GotoKeepsInv(s, h, Peeking(hash, code, totpOk)); }
    case Advance(h) =>
      if h in s.handlers {
        assert HandlerOk(s.pending, h, s.handlers[h]);
        AdvanceKeepsInv(s, h, s.handlers[h]);
      }
    case Drop(h) => DoneKeepsInv(s, h);
    case ReplaceCodes(user, hashes, first) =>
      if |hashes| == RECOVERY_CODES_PER_ENROLLMENT && (forall id :: id in s.codes ==> id < first) {
        ReplaceKeepsInv(s, user, hashes, first);
      }
    case DeleteAllCodes(user) => DeleteKeepsInv(s, user);
    case IssueOther(user, purpose, hash, expiresAt) =>
      if purpose != TwoFactorPending && hash !in s.issued { IssueOtherKeepsInv(s, user, purpose, hash, expiresAt); }
    case RedeemOther(purpose, hash) => RedeemOtherKeepsInv(s, purpose, hash);
    case Sweep(cutoff) => SweepKeepsInv(s, cutoff);
    case Tick(_) => ElsewhereKeepsInv(s, Step(s, e));
    case SetAccount(_, _) => ElsewhereKeepsInv(s, Step(s, e));
  }

  lemma RunKeepsInv(s: State, events: seq<Event>)
    requires Initial(s)
    ensures Inv(Run(Step, s, events))
  {
    forall t, e | Inv(t) ensures Inv(Step(t, e)) { StepKeepsInv(t, e); }
    Invariant(Step, Inv, s, events);
  }

  // ---- every pending token goes back to an accepted password ------------------------

  predicate ProofOk(logins: map<LoginId, Login>, hash: Hash, p: Pending) {
    p.login in logins && logins[p.login].user == p.user && logins[p.login].hash == Some(hash)
  }

  predicate LoginHandlerOk(logins: map<LoginId, Login>, h: HandlerId, pc: Pc) {
    pc.PasswordProven? || pc.Revoked? ==> pc.login in logins && logins[pc.login] == Login(pc.user, h, None)
  }

  predicate LoginsOk(s: State) {
    && (forall hash {:trigger ProofOk(s.logins, hash, s.pending[hash])} ::
          hash in s.pending ==> ProofOk(s.logins, hash, s.pending[hash]))
    && (forall h {:trigger LoginHandlerOk(s.logins, h, s.handlers[h])} ::
          h in s.handlers ==> LoginHandlerOk(s.logins, h, s.handlers[h]))
  }

  lemma LoginStepKeepsLogins(s: State, e: Event)
    requires LoginsOk(s) && (e.PasswordAccepted? || e.PendingInserted?)
    ensures LoginsOk(Step(s, e))
  {
    var s' := Step(s, e);
    forall k | k in s'.handlers ensures LoginHandlerOk(s'.logins, k, s'.handlers[k]) {
      if k in s.handlers { assert LoginHandlerOk(s.logins, k, s.handlers[k]); }
      if e.h in s.handlers { assert LoginHandlerOk(s.logins, e.h, s.handlers[e.h]); }
    }
    forall k | k in s'.pending ensures ProofOk(s'.logins, k, s'.pending[k]) {
      if k in s.pending { assert ProofOk(s.logins, k, s.pending[k]); }
      if e.h in s.handlers { assert LoginHandlerOk(s.logins, e.h, s.handlers[e.h]); }
    }
  }

  /** Only tokens, codes, accounts or the clock change, and handlers may leave. */
  lemma QuietKeepsLogins(s: State, s': State)
    requires LoginsOk(s) && s'.logins == s.logins && s'.pending == s.pending
    requires forall k :: k in s'.handlers ==> k in s.handlers && s'.handlers[k] == s.handlers[k]
    ensures LoginsOk(s')
  {
    forall k | k in s'.handlers ensures LoginHandlerOk(s'.logins, k, s'.handlers[k]) {
      assert LoginHandlerOk(s.logins, k, s.handlers[k]);
    }
  }

  lemma GotoKeepsLogins(s: State, h: HandlerId, pc: Pc)
    requires LoginsOk(s) && LoginHandlerOk(s.logins, h, pc)
    ensures LoginsOk(Goto(s, h, pc))
  {
  }

  /** A pending record may be redeemed or gain a token; the login behind it stays. */
  lemma PendingKeepsLogins(s: State, hash: Hash, p: Pending)
    requires LoginsOk(s) && hash in s.pending && p.user == s.pending[hash].user && p.login == s.pending[hash].login
    ensures LoginsOk(s.(pending := s.pending[hash := p]))
  {
    var s' := s.(pending := s.pending[hash := p]);
    forall k | k in s'.pending ensures ProofOk(s'.logins, k, s'.pending[k]) {
      assert ProofOk(s.logins, k, s.pending[k]);
    }
  }

  lemma CodeKeepsLogins(s: State, h: HandlerId, hash: Hash, code: Hash, totpOk: bool, user: UserId)
    requires LoginsOk(s) && h in s.handlers
    ensures LoginsOk(AdvanceCode(s, h, hash, code, totpOk, user))
  {
    QuietKeepsLogins(s, Done(s, h));
    QuietKeepsLogins(s, ShowApp(s, hash));
    QuietKeepsLogins(s, ShowRecovery(s, hash, code, user));
    GotoKeepsLogins(ShowApp(s, hash), h, Redeeming(hash, user, AppCode));
    GotoKeepsLogins(ShowRecovery(s, hash, code, user), h, Redeeming(hash, user, RecoveryCode(NextTicket(s, user))));
  }

  lemma RedeemKeepsLogins(s: State, h: HandlerId, hash: Hash, user: UserId, factor: Factor)
    requires LoginsOk(s) && h in s.handlers
    ensures LoginsOk(AdvanceRedeem(s, h, hash, user, factor))
  {
    QuietKeepsLogins(s, Done(s, h));
    if hash in s.pending {
      var s' := s.(tokens := Claim(s.tokens, TwoFactorPending, hash, s.now));
      QuietKeepsLogins(s, s');
      var p := s.pending[hash].(redeemedBy := Some(h));
      PendingKeepsLogins(s', hash, p);
      GotoKeepsLogins(s'.(pending := s.pending[hash := p]), h, Issuing(hash, user, factor));
    }
  }

  lemma IssueKeepsLogins(s: State, h: HandlerId, hash: Hash, user: UserId, factor: Factor)
    requires LoginsOk(s) && h in s.handlers
    ensures LoginsOk(AdvanceHandler(s, h, Issuing(hash, user, factor)))
  {
    QuietKeepsLogins(s, Done(s, h));
    if hash in s.pending {
      PendingKeepsLogins(Done(s, h), hash, WithToken(s.pending[hash], Access(user, factor)));
    }
  }

  lemma AdvanceKeepsLogins(s: State, h: HandlerId, pc: Pc)
    requires LoginsOk(s) && h in s.handlers && LoginHandlerOk(s.logins, h, pc)
    ensures LoginsOk(AdvanceHandler(s, h, pc))
  {
    QuietKeepsLogins(s, Done(s, h));
    match pc
    case PasswordProven(user, login) =>
      var s' := s.(tokens := InvalidateUnused(s.tokens, user, TwoFactorPending, s.now));
      QuietKeepsLogins(s, s');
      GotoKeepsLogins(s', h, Revoked(user, login));
    case Revoked(_, _) =>
    case Peeking(hash, code, totpOk) =>
      if Valid(s.tokens, TwoFactorPending, hash, s.now) {
        GotoKeepsLogins(s, h, LoadingUser(hash, code, totpOk, s.tokens[hash].user));
      }
    case LoadingUser(hash, code, totpOk, user) => GotoKeepsLogins(s, h, CheckingCode(hash, code, totpOk, user));
    case CheckingCode(hash, code, totpOk, user) => CodeKeepsLogins(s, h, hash, code, totpOk, user);
    case Redeeming(hash, user, factor) => RedeemKeepsLogins(s, h, hash, user, factor);
    case Issuing(hash, user, factor) => IssueKeepsLogins(s, h, hash, user, factor);
  }

  lemma StepKeepsLogins(s: State, e: Event)
    requires LoginsOk(s)
    ensures LoginsOk(Step(s, e))
  {
    match e
    case PasswordAccepted(_, _, _) => LoginStepKeepsLogins(s, e);
    case PendingInserted(_, _) => LoginStepKeepsLogins(s, e);
    case BeginVerify(h, hash, code, totpOk) => GotoKeepsLogins(s, h, Peeking(hash, code, totpOk));
    case Advance(h) =>
      if h in s.handlers {
        assert LoginHandlerOk(s.logins, h, s.handlers[h]);
        AdvanceKeepsLogins(s, h, s.handlers[h]);
      }
    case _ => ElsewhereKeepsLogins(s, e);
  }

  lemma ElsewhereKeepsHandlers(s: State, e: Event)
    requires !e.PasswordAccepted? && !e.PendingInserted? && !e.BeginVerify? && !e.Advance?
    ensures Step(s, e).handlers == if e.Drop? then s.handlers - {e.h} else s.handlers
  {
  }

  lemma ElsewhereKeepsPending(s: State, e: Event)
    requires !e.PasswordAccepted? && !e.PendingInserted? && !e.BeginVerify? && !e.Advance?
    ensures Step(s, e).pending == s.pending
  {
  }

  lemma ElsewhereKeepsProofs(s: State, e: Event)
    requires !e.PasswordAccepted? && !e.PendingInserted? && !e.BeginVerify? && !e.Advance?
    ensures Step(s, e).logins == s.logins
  {
  }

  lemma ElsewhereKeepsLogins(s: State, e: Event)
    requires LoginsOk(s)
    requires !e.PasswordAccepted? && !e.PendingInserted? && !e.BeginVerify? && !e.Advance?
    ensures LoginsOk(Step(s, e))
  {
    ElsewhereKeepsHandlers(s, e);
    ElsewhereKeepsPending(s, e);
    ElsewhereKeepsProofs(s, e);
    QuietKeepsLogins(s, Step(s, e));
  }

  lemma RunKeepsLogins(s: State, events: seq<Event>)
    requires Initial(s)
    ensures LoginsOk(Run(Step, s, events))
  {
    forall t, e | LoginsOk(t) ensures LoginsOk(Step(t, e)) { StepKeepsLogins(t, e); }
    Invariant(Step, LoginsOk, s, events);
  }

  // ---- every access token goes back to a second factor --------------------------------

  /** That factor was shown for that pending token. */
  predicate WasShown(shown: Shown, hash: Hash, user: UserId, factor: Factor) {
    match factor
    case AppCode => hash in shown.appCodes
    case RecoveryCode(t) => t.user == user && t in shown.recovery && shown.recovery[t] == hash
  }

  predicate HandlerShown(shown: Shown, pc: Pc) {
    pc.Redeeming? || pc.Issuing? ==> WasShown(shown, pc.hash, pc.user, pc.factor)
  }

  predicate PendingShown(shown: Shown, hash: Hash, p: Pending) {
    forall i :: 0 <= i < |p.tokens| ==> WasShown(shown, hash, p.tokens[i].subject, p.tokens[i].factor)
  }

  /** Numbers run from 0 to 7 and restart with each batch. */
  predicate TicketOk(s: State, t: Ticket) {
    && t.number < RECOVERY_CODES_PER_ENROLLMENT
    && (t.batch < BatchOf(s, t.user) || (t.batch == BatchOf(s, t.user) && t.number < ClaimsOf(s, t.user)))
  }

  predicate FactorsOk(s: State) {
    && (forall t {:trigger TicketOk(s, t)} :: t in s.shown.recovery ==> TicketOk(s, t))
    && (forall h {:trigger HandlerShown(s.shown, s.handlers[h])} ::
          h in s.handlers ==> HandlerShown(s.shown, s.handlers[h]))
    && (forall hash {:trigger PendingShown(s.shown, hash, s.pending[hash])} ::
          hash in s.pending ==> PendingShown(s.shown, hash, s.pending[hash]))
  }

  /** What was shown is never forgotten or reassigned. */
  predicate ShownGrows(a: Shown, b: Shown) {
    a.appCodes <= b.appCodes && forall t :: t in a.recovery ==> t in b.recovery && b.recovery[t] == a.recovery[t]
  }

  /**
   * Handlers that appear or move hold no factor yet, and pending tokens that appear or change have the tokens they
   * had.
   */
  lemma GrowthKeepsFactors(s: State, s': State)
    requires FactorsOk(s) && ShownGrows(s.shown, s'.shown)
    requires forall t {:trigger TicketOk(s', t)} :: t in s'.shown.recovery ==> TicketOk(s', t)
    requires forall k :: k in s'.handlers ==>
               || (k in s.handlers && s'.handlers[k] == s.handlers[k]) || HandlerShown(s'.shown, s'.handlers[k])
    requires forall k :: k in s'.pending ==>
               || (k in s.pending && s'.pending[k].tokens == s.pending[k].tokens)
               || PendingShown(s'.shown, k, s'.pending[k])
    ensures FactorsOk(s')
  {
    forall k | k in s'.handlers ensures HandlerShown(s'.shown, s'.handlers[k]) {
      if k in s.handlers { assert HandlerShown(s.shown, s.handlers[k]); }
    }
    forall k | k in s'.pending ensures PendingShown(s'.shown, k, s'.pending[k]) {
      if k in s.pending { assert PendingShown(s.shown, k, s.pending[k]); }
    }
  }

  /** The same when no factor is shown. */
  lemma QuietKeepsFactors(s: State, s': State)
    requires FactorsOk(s) && s'.shown == s.shown && s'.claims == s.claims
    requires forall k :: k in s'.handlers ==>
               || (k in s.handlers && s'.handlers[k] == s.handlers[k]) || HandlerShown(s'.shown, s'.handlers[k])
    requires forall k :: k in s'.pending ==>
               || (k in s.pending && s'.pending[k].tokens == s.pending[k].tokens)
               || PendingShown(s'.shown, k, s'.pending[k])
    ensures FactorsOk(s')
  {
    forall t | t in s'.shown.recovery ensures TicketOk(s', t) { assert TicketOk(s, t); }
    GrowthKeepsFactors(s, s');
  }

  lemma RecoveryKeepsFactors(s: State, h: HandlerId, hash: Hash, code: Hash, user: UserId)
    requires Inv(s) && FactorsOk(s) && CanClaimCode(s.codes, user, code)
    ensures FactorsOk(AdvanceCode(s, h, hash, code, false, user))
  {
    var s' := AdvanceCode(s, h, hash, code, false, user);
    var ticket := NextTicket(s, user);
    ClaimUsesACode(s.codes, user, code);
    assert ClaimsOf(s, user) + |UnusedCodes(s.codes, user)| <= RECOVERY_CODES_PER_ENROLLMENT;
    assert !TicketOk(s, ticket);
    forall t | t in s'.shown.recovery ensures TicketOk(s', t) {
      if t != ticket { assert TicketOk(s, t); }
    }
    GrowthKeepsFactors(s, s');
  }

  lemma CodeKeepsFactors(s: State, h: HandlerId, hash: Hash, code: Hash, totpOk: bool, user: UserId)
    requires Inv(s) && FactorsOk(s)
    ensures FactorsOk(AdvanceCode(s, h, hash, code, totpOk, user))
  {
    var s' := AdvanceCode(s, h, hash, code, totpOk, user);
    if totpOk {
      forall t | t in s'.shown.recovery ensures TicketOk(s', t) { assert TicketOk(s, t); }
      GrowthKeepsFactors(s, s');
    } else if CanClaimCode(s.codes, user, code) {
      RecoveryKeepsFactors(s, h, hash, code, user);
    } else {
      QuietKeepsFactors(s, s');
    }
  }

  lemma IssueKeepsFactors(s: State, h: HandlerId, hash: Hash, user: UserId, factor: Factor)
    requires FactorsOk(s) && HandlerShown(s.shown, Issuing(hash, user, factor))
    ensures FactorsOk(AdvanceHandler(s, h, Issuing(hash, user, factor)))
  {
    var s' := AdvanceHandler(s, h, Issuing(hash, user, factor));
    if hash in s.pending {
      assert PendingShown(s.shown, hash, s.pending[hash]);
      assert PendingShown(s'.shown, hash, s'.pending[hash]);
    }
    QuietKeepsFactors(s, s');
  }

  lemma GotoKeepsFactors(s: State, h: HandlerId, pc: Pc)
    requires FactorsOk(s) && HandlerShown(s.shown, pc)
    ensures FactorsOk(Goto(s, h, pc)) && FactorsOk(Done(s, h))
  {
    QuietKeepsFactors(s, Goto(s, h, pc));
    QuietKeepsFactors(s, Done(s, h));
  }

  lemma SpendKeepsFactors(s: State, tokens: Tokens, hash: Hash, h: HandlerId)
    requires FactorsOk(s) && hash in s.pending
    ensures FactorsOk(s.(tokens := tokens, pending := s.pending[hash := s.pending[hash].(redeemedBy := Some(h))]))
  {
    QuietKeepsFactors(s, s.(tokens := tokens, pending := s.pending[hash := s.pending[hash].(redeemedBy := Some(h))]));
  }

  lemma RedeemKeepsFactors(s: State, h: HandlerId, hash: Hash, user: UserId, factor: Factor)
    requires FactorsOk(s) && HandlerShown(s.shown, Redeeming(hash, user, factor))
    ensures FactorsOk(AdvanceRedeem(s, h, hash, user, factor))
  {
    GotoKeepsFactors(s, h, Redeeming(hash, user, factor));
    if hash in s.pending {
      var tokens := Claim(s.tokens, TwoFactorPending, hash, s.now);
      SpendKeepsFactors(s, tokens, hash, h);
      var spent := s.(tokens := tokens, pending := s.pending[hash := s.pending[hash].(redeemedBy := Some(h))]);
      GotoKeepsFactors(spent, h, Issuing(hash, user, factor));
    }
  }

  lemma AdvanceKeepsFactors(s: State, h: HandlerId, pc: Pc)
    requires Inv(s) && FactorsOk(s) && HandlerShown(s.shown, pc)
    ensures FactorsOk(AdvanceHandler(s, h, pc))
  {
    GotoKeepsFactors(s, h, pc);
    match pc
    case PasswordProven(user, login) =>
      var s' := s.(tokens := InvalidateUnused(s.tokens, user, TwoFactorPending, s.now));
      QuietKeepsFactors(s, s');
      GotoKeepsFactors(s', h, Revoked(user, login));
    case Revoked(_, _) =>
    case Peeking(hash, code, totpOk) =>
      if Valid(s.tokens, TwoFactorPending, hash, s.now) {
        GotoKeepsFactors(s, h, LoadingUser(hash, code, totpOk, s.tokens[hash].user));
      }
    case LoadingUser(hash, code, totpOk, user) => GotoKeepsFactors(s, h, CheckingCode(hash, code, totpOk, user));
    case CheckingCode(hash, code, totpOk, user) => CodeKeepsFactors(s, h, hash, code, totpOk, user);
    case Redeeming(hash, user, factor) => RedeemKeepsFactors(s, h, hash, user, factor);
    case Issuing(hash, user, factor) => IssueKeepsFactors(s, h, hash, user, factor);
  }

  lemma ReplaceKeepsFactors(s: State, user: UserId, hashes: seq<Hash>, first: CodeId)
    requires FactorsOk(s)
    ensures FactorsOk(Step(s, ReplaceCodes(user, hashes, first)))
  {
    var s' := Step(s, ReplaceCodes(user, hashes, first));
    forall t | t in s'.shown.recovery ensures TicketOk(s', t) { assert TicketOk(s, t); }
    GrowthKeepsFactors(s, s');
  }

  lemma ElsewhereShowsNothing(s: State, e: Event)
    requires !e.Advance? && !e.ReplaceCodes?
    ensures Step(s, e).shown == s.shown && Step(s, e).claims == s.claims
  {
  }

  lemma BeginKeepsFactors(s: State, e: Event)
    requires FactorsOk(s) && (e.PasswordAccepted? || e.PendingInserted? || e.BeginVerify?)
    ensures FactorsOk(Step(s, e))
  {
    QuietKeepsFactors(s, Step(s, e));
  }

  lemma StepKeepsFactors(s: State, e: Event)
    requires Inv(s) && FactorsOk(s)
    ensures FactorsOk(Step(s, e))
  {
    match e
    case Advance(h) =>
      if h in s.handlers {
        assert HandlerShown(s.shown, s.handlers[h]);
        AdvanceKeepsFactors(s, h, s.handlers[h]);
      }
    case ReplaceCodes(user, hashes, first) => ReplaceKeepsFactors(s, user, hashes, first);
    case PasswordAccepted(_, _, _) => BeginKeepsFactors(s, e);
    case PendingInserted(_, _) => BeginKeepsFactors(s, e);
    case BeginVerify(_, _, _, _) => BeginKeepsFactors(s, e);
    case _ =>
      ElsewhereShowsNothing(s, e);
      ElsewhereKeepsHandlers(s, e);
      ElsewhereKeepsPending(s, e);
      QuietKeepsFactors(s, Step(s, e));
  }

  ghost predicate InvAndFactors(s: State) {
    Inv(s) && FactorsOk(s)
  }

  lemma RunKeepsFactors(s: State, events: seq<Event>)
    requires Initial(s)
    ensures FactorsOk(Run(Step, s, events))
  {
    forall t, e | InvAndFactors(t) ensures InvAndFactors(Step(t, e)) {
      StepKeepsInv(t, e);
      StepKeepsFactors(t, e);
    }
    Invariant(Step, InvAndFactors, s, events);
  }

  // ---- the guarantees ----------------------------------------------------------------

  /**
   * In every interleaving each access token issued by `verify_login` belongs to its own pending token, which was
   * redeemed, and that one to a login of the same user whose password had been accepted.
   */
  lemma OneAccessTokenPerPending(s: State, events: seq<Event>, hash: Hash)
    requires Initial(s) && hash in Run(Step, s, events).pending
    ensures var now := Run(Step, s, events);
            var p := now.pending[hash];
            && |p.tokens| <= 1
            && (p.tokens != [] ==> p.redeemedBy.Some? && p.tokens[0].subject == p.user)
            && p.login in now.logins && now.logins[p.login].user == p.user
  {
    RunKeepsInv(s, events);
    RunKeepsLogins(s, events);
    var now := Run(Step, s, events);
    assert PendingOk(now.pending[hash]) && ProofOk(now.logins, hash, now.pending[hash]);
  }

  /** No two pending tokens come from one accepted password. */
  lemma PendingTokensInjective(s: State, events: seq<Event>, a: Hash, b: Hash)
    requires Initial(s) && a in Run(Step, s, events).pending && b in Run(Step, s, events).pending
    requires Run(Step, s, events).pending[a].login == Run(Step, s, events).pending[b].login
    ensures a == b
  {
    RunKeepsLogins(s, events);
    var now := Run(Step, s, events);
    assert ProofOk(now.logins, a, now.pending[a]) && ProofOk(now.logins, b, now.pending[b]);
  }

  /** One batch of recovery codes gives at most eight successful claims, however they interleave. */
  lemma BatchGivesAtMostEight(s: State, events: seq<Event>, user: UserId)
    requires Initial(s)
    ensures ClaimsOf(Run(Step, s, events), user) <= 8
  {
    RunKeepsInv(s, events);
    var now := Run(Step, s, events);
    assert ClaimsOf(now, user) + |UnusedCodes(now.codes, user)| <= RECOVERY_CODES_PER_ENROLLMENT;
  }

  /**
   * Every access token was preceded by a right app code for its pending token, or by a recovery code claimed for it.
   */
  lemma TokenNeedsSecondFactor(s: State, events: seq<Event>, hash: Hash, i: nat)
    requires Initial(s) && hash in Run(Step, s, events).pending && i < |Run(Step, s, events).pending[hash].tokens|
    ensures var now := Run(Step, s, events);
            var token := now.pending[hash].tokens[i];
            match token.factor
            case AppCode => hash in now.shown.appCodes
            case RecoveryCode(t) =>
              t.user == token.subject && t.number < 8 && t in now.shown.recovery && now.shown.recovery[t] == hash
  {
    RunKeepsFactors(s, events);
    var now := Run(Step, s, events);
    assert PendingShown(now.shown, hash, now.pending[hash]);
    var factor := now.pending[hash].tokens[i].factor;
    if factor.RecoveryCode? { assert TicketOk(now, factor.ticket); }
  }

  /** The pending tokens that led to an access token by a recovery code of that batch. */
  function RecoverySignIns(s: State, user: UserId, batch: nat): set<Hash> {
    set hash | hash in s.pending && exists i ::
      && 0 <= i < |s.pending[hash].tokens| && s.pending[hash].tokens[i].factor.RecoveryCode?
      && s.pending[hash].tokens[i].factor.ticket.user == user && s.pending[hash].tokens[i].factor.ticket.batch == batch
  }

  /** The pending tokens that the first `n` claims of a batch were made for. */
  function ClaimedFor(recovery: map<Ticket, Hash>, user: UserId, batch: nat, n: nat): (r: set<Hash>)
    ensures |r| <= n
    ensures forall i: nat :: i < n && Ticket(user, batch, i) in recovery ==> recovery[Ticket(user, batch, i)] in r
  {
    if n == 0 then {}
    else
      var t := Ticket(user, batch, n - 1);
      ClaimedFor(recovery, user, batch, n - 1) + if t in recovery then {recovery[t]} else {}
  }

  /** One batch of recovery codes completes at most eight sign-ins, over any run. */
  lemma EightRecoverySignInsPerBatch(s: State, events: seq<Event>, user: UserId, batch: nat)
    requires Initial(s)
    ensures |RecoverySignIns(Run(Step, s, events), user, batch)| <= 8
  {
    var now := Run(Step, s, events);
    var claimed := ClaimedFor(now.shown.recovery, user, batch, 8);
    forall hash | hash in RecoverySignIns(now, user, batch) ensures hash in claimed {
      var i :| && 0 <= i < |now.pending[hash].tokens| && now.pending[hash].tokens[i].factor.RecoveryCode?
               && now.pending[hash].tokens[i].factor.ticket.user == user
               && now.pending[hash].tokens[i].factor.ticket.batch == batch;
      TokenNeedsSecondFactor(s, events, hash, i);
      var t := now.pending[hash].tokens[i].factor.ticket;
      assert t == Ticket(user, batch, t.number);
    }
    SubsetSize(RecoverySignIns(now, user, batch), claimed);
  }

  predicate IsWrongCode(s: State, pc: Pc) {
    pc.CheckingCode? && !pc.totpOk && !CanClaimCode(s.codes, pc.user, pc.code)
  }

  /**
   * Whatever runs beside it, up to and including a wrong code a handler spends neither its token nor a recovery code.
   */
  lemma WrongCodeSpendsNothing(s: State, h: HandlerId, pc: Pc)
    requires pc.Peeking? || pc.LoadingUser? || IsWrongCode(s, pc)
    ensures AdvanceHandler(s, h, pc) == s.(handlers := AdvanceHandler(s, h, pc).handlers)
  {
  }

  /** One submission up to the verdict on the code: peek, load the account, check. */
  function Attempt(s: State, h: HandlerId, hash: Hash, code: Hash, totpOk: bool): State {
    Step(Step(Step(Step(s, BeginVerify(h, hash, code, totpOk)), Advance(h)), Advance(h)), Advance(h))
  }

  predicate MayVerify(s: State, hash: Hash) {
    && Valid(s.tokens, TwoFactorPending, hash, s.now)
    && var user := s.tokens[hash].user;
       user in s.accounts && s.accounts[user].active && s.accounts[user].totpEnabled && s.accounts[user].hasSecret
  }

  lemma ReachesTheCheck(s: State, h: HandlerId, hash: Hash, code: Hash, totpOk: bool)
    requires h !in s.handlers && MayVerify(s, hash)
    ensures Step(Step(Step(s, BeginVerify(h, hash, code, totpOk)), Advance(h)), Advance(h))
            == Goto(s, h, CheckingCode(hash, code, totpOk, s.tokens[hash].user))
  {
    var a := Step(s, BeginVerify(h, hash, code, totpOk));
    assert a == Goto(s, h, Peeking(hash, code, totpOk));
    var b := Step(a, Advance(h));
    assert b == Goto(s, h, LoadingUser(hash, code, totpOk, s.tokens[hash].user));
    assert Step(b, Advance(h)) == Goto(s, h, CheckingCode(hash, code, totpOk, s.tokens[hash].user));
  }

  /** A whole attempt with a wrong code leaves the state exactly as it was. */
  lemma WrongAttemptLeavesNoTrace(s: State, h: HandlerId, hash: Hash, code: Hash)
    requires h !in s.handlers && MayVerify(s, hash) && !CanClaimCode(s.codes, s.tokens[hash].user, code)
    ensures Attempt(s, h, hash, code, false) == s
  {
    ReachesTheCheck(s, h, hash, code, false);
    var c := Goto(s, h, CheckingCode(hash, code, false, s.tokens[hash].user));
    assert Step(c, Advance(h)) == Done(c, h) == s;
  }

  lemma ShownCodeGetsRedeemed(s: State, h: HandlerId, hash: Hash, user: UserId, factor: Factor)
    requires h in s.handlers && s.handlers[h] == Redeeming(hash, user, factor)
    requires Valid(s.tokens, TwoFactorPending, hash, s.now) && hash in s.pending
    ensures var after := Step(Step(s, Advance(h)), Advance(h));
            && hash in after.pending && after.codes == s.codes
            && after.pending[hash].tokens == s.pending[hash].tokens + [Access(user, factor)]
            && !Valid(after.tokens, TwoFactorPending, hash, after.now)
  {
    var e := Step(s, Advance(h));
    assert e == AdvanceRedeem(s, h, hash, user, factor);
    assert e.handlers[h] == Issuing(hash, user, factor);
  }

  /** The right code of the authenticator signs in with the pending token and spends it. */
  lemma RightCodeSignsIn(s: State, h: HandlerId, hash: Hash, code: Hash)
    requires h !in s.handlers && MayVerify(s, hash) && hash in s.pending
    ensures var after := Step(Step(Attempt(s, h, hash, code, true), Advance(h)), Advance(h));
            && hash in after.pending && after.codes == s.codes
            && after.pending[hash].tokens == s.pending[hash].tokens + [Access(s.tokens[hash].user, AppCode)]
            && !Valid(after.tokens, TwoFactorPending, hash, after.now)
  {
    ReachesTheCheck(s, h, hash, code, true);
    var d := Attempt(s, h, hash, code, true);
    assert d == Goto(ShowApp(s, hash), h, Redeeming(hash, s.tokens[hash].user, AppCode));
    ShownCodeGetsRedeemed(d, h, hash, s.tokens[hash].user, AppCode);
  }

  /** So does an unused recovery code of that user, which is spent as well. */
  lemma RecoveryCodeSignsIn(s: State, h: HandlerId, hash: Hash, code: Hash)
    requires h !in s.handlers && MayVerify(s, hash) && hash in s.pending
    requires CanClaimCode(s.codes, s.tokens[hash].user, code)
    ensures var user := s.tokens[hash].user;
            var after := Step(Step(Attempt(s, h, hash, code, false), Advance(h)), Advance(h));
            && hash in after.pending
            && after.pending[hash].tokens == s.pending[hash].tokens + [Access(user, RecoveryCode(NextTicket(s, user)))]
            && !Valid(after.tokens, TwoFactorPending, hash, after.now) && !CanClaimCode(after.codes, user, code)
  {
    var user := s.tokens[hash].user;
    ReachesTheCheck(s, h, hash, code, false);
    var checking := Goto(s, h, CheckingCode(hash, code, false, user));
    var d := Attempt(s, h, hash, code, false);
    ClaimsOnTheWay(checking, h, hash, code, user);
    ShownCodeGetsRedeemed(d, h, hash, user, RecoveryCode(NextTicket(s, user)));
  }

  lemma ClaimsOnTheWay(s: State, h: HandlerId, hash: Hash, code: Hash, user: UserId)
    requires h in s.handlers && s.handlers[h] == CheckingCode(hash, code, false, user)
    requires CanClaimCode(s.codes, user, code)
    ensures var d := Step(s, Advance(h));
            && h in d.handlers && d.handlers[h] == Redeeming(hash, user, RecoveryCode(NextTicket(s, user)))
            && d.tokens == s.tokens && d.pending == s.pending && d.now == s.now
            && !CanClaimCode(d.codes, user, code)
  {
  }

  /**
   * Without a working pending token, or on an account that is disabled or has no second factor, no code gets anywhere.
   */
  lemma TurnedAway(s: State, h: HandlerId, hash: Hash, code: Hash, totpOk: bool)
    requires h !in s.handlers && !MayVerify(s, hash)
    ensures Attempt(s, h, hash, code, totpOk) == s
  {
    var a := Step(s, BeginVerify(h, hash, code, totpOk));
    assert a == Goto(s, h, Peeking(hash, code, totpOk));
    NothingToAdvance(s, h);
    if Valid(s.tokens, TwoFactorPending, hash, s.now) {
      var loading := Goto(s, h, LoadingUser(hash, code, totpOk, s.tokens[hash].user));
      PeekGoesOn(s, a, h, hash, code, totpOk);
      DisabledEnds(s, loading, h, hash, code, totpOk);
    } else {
      PeekEnds(s, a, h, hash, code, totpOk);
    }
  }

  lemma NothingToAdvance(s: State, h: HandlerId)
    requires h !in s.handlers
    ensures Step(s, Advance(h)) == s
  {
  }

  lemma PeekGoesOn(s: State, a: State, h: HandlerId, hash: Hash, code: Hash, totpOk: bool)
    requires a == Goto(s, h, Peeking(hash, code, totpOk)) && Valid(s.tokens, TwoFactorPending, hash, s.now)
    ensures Step(a, Advance(h)) == Goto(s, h, LoadingUser(hash, code, totpOk, s.tokens[hash].user))
  {
    var pc := LoadingUser(hash, code, totpOk, s.tokens[hash].user);
    assert s.handlers[h := Peeking(hash, code, totpOk)][h := pc] == s.handlers[h := pc];
  }

  lemma PeekEnds(s: State, a: State, h: HandlerId, hash: Hash, code: Hash, totpOk: bool)
    requires h !in s.handlers && a == Goto(s, h, Peeking(hash, code, totpOk))
    requires !Valid(s.tokens, TwoFactorPending, hash, s.now)
    ensures Step(a, Advance(h)) == s
  {
    assert s.handlers[h := Peeking(hash, code, totpOk)] - {h} == s.handlers;
  }

  lemma DisabledEnds(s: State, b: State, h: HandlerId, hash: Hash, code: Hash, totpOk: bool)
    requires h !in s.handlers && Valid(s.tokens, TwoFactorPending, hash, s.now) && !MayVerify(s, hash)
    requires b == Goto(s, h, LoadingUser(hash, code, totpOk, s.tokens[hash].user))
    ensures Step(b, Advance(h)) == s
  {
    assert b.handlers - {h} == s.handlers;
  }

  /** An accepted password revokes the pending tokens of earlier logins, and its own works for exactly five minutes. */
  lemma PendingTokenLasts(s: State, h: HandlerId, user: UserId, login: LoginId, hash: Hash)
    requires h !in s.handlers && login !in s.logins && hash !in s.issued && hash !in s.tokens
    ensures var revoked := Step(Step(s, PasswordAccepted(h, user, login)), Advance(h));
            var after := Step(revoked, PendingInserted(h, hash));
            && Unused(revoked.tokens, user, TwoFactorPending) == {}
            && Unused(after.tokens, user, TwoFactorPending) == {hash} && h !in after.handlers
            && hash in after.pending && after.pending[hash] == Pending(user, login, None, [])
            && forall at :: Valid(after.tokens, TwoFactorPending, hash, at) <==> at < s.now + 5 * MINUTE
  {
    var accepted := Step(s, PasswordAccepted(h, user, login));
    assert accepted.handlers[h] == PasswordProven(user, login) && accepted.tokens == s.tokens;
    PasswordLeadsToPending(accepted, h, user, login, hash);
  }

  lemma PasswordLeadsToPending(s: State, h: HandlerId, user: UserId, login: LoginId, hash: Hash)
    requires h in s.handlers && s.handlers[h] == PasswordProven(user, login) && hash !in s.issued && hash !in s.tokens
    ensures var revoked := Step(s, Advance(h));
            var after := Step(revoked, PendingInserted(h, hash));
            && Unused(revoked.tokens, user, TwoFactorPending) == {}
            && Unused(after.tokens, user, TwoFactorPending) == {hash} && h !in after.handlers
            && hash in after.pending && after.pending[hash] == Pending(user, login, None, [])
            && forall at :: Valid(after.tokens, TwoFactorPending, hash, at) <==> at < s.now + 5 * MINUTE
  {
    var revoked := Step(s, Advance(h));
    assert revoked.handlers[h] == Revoked(user, login) && revoked.issued == s.issued && revoked.now == s.now;
    var after := Step(revoked, PendingInserted(h, hash));
    assert after.tokens
           == revoked.tokens[hash := Row(user, TwoFactorPending, s.now + TWO_FACTOR_PENDING_TTL, None, s.now)];
  }

  /** A new batch is eight unused codes and a fresh count, and leaves other users alone; disabling leaves no code. */
  lemma ReplaceWorks(s: State, user: UserId, hashes: seq<Hash>, first: CodeId)
    requires |hashes| == 8 && forall id :: id in s.codes ==> id < first
    ensures var after := Step(s, ReplaceCodes(user, hashes, first));
            && |UnusedCodes(after.codes, user)| == 8 && ClaimsOf(after, user) == 0
            && BatchOf(after, user) == BatchOf(s, user) + 1
            && (forall u :: u != user ==> UnusedCodes(after.codes, u) == UnusedCodes(s.codes, u))
    ensures UnusedCodes(Step(s, DeleteAllCodes(user)).codes, user) == {}
  {
    var kept := DeleteCodes(s.codes, user);
    BatchSize(kept, user, hashes, first);
    assert UnusedCodes(kept, user) == {};
    forall u | u != user ensures UnusedCodes(kept, u) == UnusedCodes(s.codes, u) {}
  }

  /** Tokens of other purposes come and go, rows are swept and requests cut off beside a pending login. */
  lemma OthersComeAndGo(s: State, user: UserId, hash: Hash, expiresAt: int, cutoff: int, h: HandlerId)
    requires hash !in s.issued && hash !in s.tokens
    ensures var issued := Step(s, IssueOther(user, PasswordReset, hash, expiresAt));
            && Valid(issued.tokens, PasswordReset, hash, s.now) == (s.now < expiresAt)
            && !Valid(Step(issued, RedeemOther(PasswordReset, hash)).tokens, PasswordReset, hash, s.now)
    ensures forall k :: k in Step(s, Event.Sweep(cutoff)).tokens <==> k in s.tokens && s.tokens[k].expiresAt >= cutoff
    ensures h !in Step(s, Event.Drop(h)).handlers && Step(s, Event.Drop(h)).pending == s.pending
  {
  }
}
