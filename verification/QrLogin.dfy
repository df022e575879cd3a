/**
 * QR sign-in. Handlers read a row, decide, then issue a guarded `UPDATE`; every interleaving of them keeps a session
 * on its one legal path and hands out at most one access token, to the right user.
 */
module QrLogin {
  import opened Common
  import opened Runs

  type SessionId = nat
  type Hash = nat
  type Code = nat
  type HandlerId = nat

  datatype Status = Pending | Scanned | Approved | Rejected | Consumed

  datatype Row = Row(secretHash: Hash, code: Code, status: Status, user: Option<UserId>, attempts: nat, expiresAt: int)

  type Sessions = map<SessionId, Row>

  const MAX_CODE_ATTEMPTS: nat := 3

  // ---- the SQL statements ------------------------------------------------------------

  predicate CanMarkScanned(rows: Sessions, id: SessionId, now: int) {
    id in rows && rows[id].status == Pending && rows[id].expiresAt > now
  }

  function MarkScanned(rows: Sessions, id: SessionId, user: UserId, now: int): Sessions {
    if CanMarkScanned(rows, id, now) then rows[id := rows[id].(status := Scanned, user := Some(user))] else rows
  }

  predicate CanResolve(rows: Sessions, id: SessionId, user: UserId, now: int) {
    id in rows && rows[id].status == Scanned && rows[id].user == Some(user) && rows[id].expiresAt > now
  }

  function Resolve(rows: Sessions, id: SessionId, user: UserId, to: Status, now: int): Sessions {
    if CanResolve(rows, id, user, now) then rows[id := rows[id].(status := to)] else rows
  }

  predicate CountsWrongCode(rows: Sessions, id: SessionId) {
    id in rows && rows[id].status == Scanned
  }

  function RecordWrongCode(rows: Sessions, id: SessionId): Sessions {
    if CountsWrongCode(rows, id) then
      var n := rows[id].attempts + 1;
      rows[id := rows[id].(attempts := n, status := if n >= MAX_CODE_ATTEMPTS then Rejected else Scanned)]
    else rows
  }

  predicate CanConsume(rows: Sessions, id: SessionId, now: int) {
    id in rows && rows[id].status == Approved && rows[id].expiresAt > now
  }

  function Consume(rows: Sessions, id: SessionId, now: int): Sessions {
    if CanConsume(rows, id, now) then rows[id := rows[id].(status := Consumed)] else rows
  }

  class QrRepository {
    var rows: Sessions

    constructor ()
      ensures rows == map[]
    {
      rows := map[];
    }

    /** Drops sessions a day past their expiry, then adds the pending one. */
    method Insert(id: SessionId, secretHash: Hash, code: Code, expiresAt: int, now: int)
      modifies this
      ensures id in rows && rows[id] == Row(secretHash, code, Pending, None, 0, expiresAt)
      ensures forall k :: k != id ==> (k in rows <==> k in old(rows) && old(rows)[k].expiresAt >= now - DAY)
      ensures forall k :: k != id && k in rows ==> rows[k] == old(rows)[k]
    {
      rows := map k | k in rows && !(rows[k].expiresAt < now - DAY) :: rows[k];
      rows := rows[id := Row(secretHash, code, Pending, None, 0, expiresAt)];
    }

    /** One winner: after a scan nobody can ever scan again, and only the scanner can approve or reject. */
    method MarkScannedBy(id: SessionId, user: UserId, now: int) returns (won: bool)
      modifies this
      ensures rows == MarkScanned(old(rows), id, user, now) && won == CanMarkScanned(old(rows), id, now)
      ensures won ==> forall at :: !CanMarkScanned(rows, id, at)
      ensures won ==> forall u :: CanResolve(rows, id, u, now) <==> u == user
      ensures !won ==> rows == old(rows)
      ensures rows.Keys == old(rows).Keys && forall k :: k in rows && k != id ==> rows[k] == old(rows)[k]
    {
      won := id in rows && rows[id].status == Pending && rows[id].expiresAt > now;
      if won { rows := rows[id := rows[id].(status := Scanned, user := Some(user))]; }
    }

    /** Final for the phone: no second answer, no further wrong code; only an approval can be collected. */
    method ResolveTo(id: SessionId, user: UserId, to: Status, now: int) returns (done: bool)
      requires to in {Approved, Rejected}
      modifies this
      ensures rows == Resolve(old(rows), id, user, to, now) && done == CanResolve(old(rows), id, user, now)
      ensures done ==> !CountsWrongCode(rows, id) && forall u, at :: !CanResolve(rows, id, u, at)
      ensures done ==> forall at :: CanConsume(rows, id, at) <==> to == Approved && at < rows[id].expiresAt
      ensures !done ==> rows == old(rows)
      ensures rows.Keys == old(rows).Keys && forall k :: k in rows && k != id ==> rows[k] == old(rows)[k]
    {
      done := id in rows && rows[id].status == Scanned && rows[id].user == Some(user) && rows[id].expiresAt > now;
      if done { rows := rows[id := rows[id].(status := to)]; }
    }

    method CountWrongCode(id: SessionId) returns (cancelled: bool)
      modifies this
      ensures rows == RecordWrongCode(old(rows), id)
      ensures cancelled <==> CountsWrongCode(old(rows), id) && rows[id].status == Rejected
      ensures CountsWrongCode(old(rows), id) ==>
                && rows[id].attempts == old(rows)[id].attempts + 1
                && rows[id].status == if old(rows)[id].attempts + 1 >= 3 then Rejected else Scanned
      ensures rows.Keys == old(rows).Keys && forall k :: k in rows && k != id ==> rows[k] == old(rows)[k]
    {
      cancelled := false;
      if id in rows && rows[id].status == Scanned {
        rows := rows[id := rows[id].(attempts := rows[id].attempts + 1)];
        if rows[id].attempts >= MAX_CODE_ATTEMPTS {
          rows := rows[id := rows[id].(status := Rejected)];
          cancelled := true;
        }
      }
    }

    /** Single use: whoever collected, nobody can collect, scan, answer or miscount again. */
    method ConsumeOnce(id: SessionId, now: int) returns (user: Option<UserId>)
      modifies this
      ensures rows == Consume(old(rows), id, now)
      ensures user == if CanConsume(old(rows), id, now) then old(rows)[id].user else None
      ensures user.Some? ==> forall at :: !CanConsume(rows, id, at) && !CanMarkScanned(rows, id, at)
      ensures user.Some? ==> !CountsWrongCode(rows, id) && forall u, at :: !CanResolve(rows, id, u, at)
      ensures forall k :: k != id ==> (k in rows <==> k in old(rows)) && (k in rows ==> rows[k] == old(rows)[k])
    {
      user := None;
      if id in rows && rows[id].status == Approved && rows[id].expiresAt > now {
        user := rows[id].user;
        rows := rows[id := rows[id].(status := Consumed)];
      }
    }
  }

  // ---- handlers in flight ------------------------------------------------------------

  datatype Account = Account(active: bool, emailVerified: bool)

  /** Where a request stands, with the row it read. */
  datatype Pc =
    | ScanFind(user: UserId, id: SessionId)
    | ScanDecide(user: UserId, id: SessionId, row: Row)
    | ScanWrite(user: UserId, id: SessionId)
    | ScanFindAgain(user: UserId, id: SessionId)
    | ScanDecideAgain(user: UserId, id: SessionId, row: Row)
    | ApproveFind(user: UserId, id: SessionId, submitted: Code)
    | ApproveDecide(user: UserId, id: SessionId, submitted: Code, row: Row)
    | ApproveWrong(user: UserId, id: SessionId)
    | ApproveWrite(user: UserId, id: SessionId, submitted: Code)
    | RejectFind(user: UserId, id: SessionId)
    | RejectDecide(user: UserId, id: SessionId, row: Row)
    | RejectWrite(user: UserId, id: SessionId)
    | PollFind(id: SessionId, secret: Option<Hash>)
    | PollDecide(id: SessionId, secret: Option<Hash>, row: Row)
    | PollConsume(id: SessionId, secret: Option<Hash>)
    | PollCollect(id: SessionId, secret: Option<Hash>, user: UserId)

  datatype Approval = Approval(user: UserId, submitted: Code, at: int)

  /** An access token, and the account of its subject as read when it was issued. */
  datatype Token = Token(subject: UserId, secret: Option<Hash>, account: Account)

  /**
   * Wrong codes submitted for a session, noted when they are compared; how many of their handlers were dropped before
   * the write, and the status that the others found when it was too late.
   */
  datatype Misses = Misses(submitted: nat, dropped: nat, late: seq<Option<Status>>)

  /** Everything that ever happened to one session; it outlives the row. */
  datatype Story = Story(
    secretHash: Hash, code: Code, expiresAt: int,
    trail: seq<Status>,
    scanner: Option<UserId>,
    scans: set<UserId>,
    wrongCodes: nat,
    wrongCodesBy: set<UserId>,
    approval: Option<Approval>,
    refusedBy: Option<UserId>,
    collector: Option<HandlerId>,
    tokens: seq<Token>)

  function NoteScanned(t: Story, user: UserId): Story {
    t.(trail := t.trail + [Scanned], scanner := Some(user), scans := t.scans + {user})
  }

  function NoteScanAnswered(t: Story, user: UserId): Story {
    t.(scans := t.scans + {user})
  }

  function NoteWrongCode(t: Story, user: UserId, after: Status): Story {
    t.(trail := if after == Scanned then t.trail else t.trail + [after],
       wrongCodes := t.wrongCodes + 1, wrongCodesBy := t.wrongCodesBy + {user})
  }

  function NewStory(secretHash: Hash, code: Code, expiresAt: int): Story {
    Story(secretHash, code, expiresAt, [Pending], None, {}, 0, {}, None, None, None, [])
  }

  function NoteApproved(t: Story, user: UserId, submitted: Code, at: int): Story {
    t.(trail := t.trail + [Approved], approval := Some(Approval(user, submitted, at)))
  }

  function NoteRefused(t: Story, user: UserId): Story {
    t.(trail := t.trail + [Rejected], refusedBy := Some(user))
  }

  function NoteConsumed(t: Story, h: HandlerId): Story {
    t.(trail := t.trail + [Consumed], collector := Some(h))
  }

  function NoteToken(t: Story, token: Token): Story {
    t.(tokens := t.tokens + [token])
  }

  datatype State = State(
    now: int,
    sessions: Sessions,
    stories: map<SessionId, Story>,
    handlers: map<HandlerId, Pc>,
    accounts: map<UserId, Account>,
    requireVerifiedEmail: bool,
    misses: map<SessionId, Misses>,
    held: set<(UserId, Account)>)

  datatype Event =
    | Tick(elapsed: nat)
    | Create(id: SessionId, secretHash: Hash, code: Code, expiresAt: int)
    | Delete(ids: set<SessionId>)
    | SetAccount(user: UserId, account: Option<Account>)
    | Begin(h: HandlerId, request: Pc)
    | Advance(h: HandlerId)
    | Drop(h: HandlerId)

  predicate IsRequest(pc: Pc) {
    pc.ScanFind? || pc.ApproveFind? || pc.RejectFind? || pc.PollFind?
  }

  function Done(s: State, h: HandlerId): State {
    s.(handlers := s.handlers - {h})
  }

  function Goto(s: State, h: HandlerId, pc: Pc): State {
    s.(handlers := s.handlers[h := pc])
  }

  /** Records what happened; a session that never existed has no story. */
  function Note(s: State, id: SessionId, story: Story): State {
    s.(stories := s.stories[id := story])
  }

  function MissesOf(s: State, id: SessionId): Misses {
    if id in s.misses then s.misses[id] else Misses(0, 0, [])
  }

  function Missed(s: State, id: SessionId, misses: Misses): State {
    s.(misses := s.misses[id := misses])
  }

  /** The wrong code comes too late to be counted. */
  function TooLate(s: State, id: SessionId): Misses {
    var m := MissesOf(s, id);
    m.(late := m.late + [if id in s.sessions then Some(s.sessions[id].status) else None])
  }

  function Dropped(s: State, h: HandlerId): State {
    if h in s.handlers && s.handlers[h].ApproveWrong? then
      var id := s.handlers[h].id;
      Missed(Done(s, h), id, MissesOf(s, id).(dropped := MissesOf(s, id).dropped + 1))
    else Done(s, h)
  }

  function ScanSucceeded(s: State, h: HandlerId, user: UserId, id: SessionId): State {
    if id in s.stories then Done(Note(s, id, NoteScanAnswered(s.stories[id], user)), h) else Done(s, h)
  }

  predicate ScannedBy(row: Row, user: UserId) {
    row.status == Scanned && row.user == Some(user)
  }

  function AdvanceScan(s: State, h: HandlerId, pc: Pc): State {
    match pc
    case ScanFind(user, id) =>
      if id in s.sessions then Goto(s, h, ScanDecide(user, id, s.sessions[id])) else Done(s, h)
    case ScanDecide(user, id, row) =>
      if row.expiresAt <= s.now then Done(s, h)
      else if row.status == Pending then Goto(s, h, ScanWrite(user, id))
      else if ScannedBy(row, user) then ScanSucceeded(s, h, user, id)
      else Done(s, h)
    case ScanWrite(user, id) =>
      if CanMarkScanned(s.sessions, id, s.now) && id in s.stories then
        var s' := s.(sessions := MarkScanned(s.sessions, id, user, s.now));
        Done(Note(s', id, NoteScanned(s.stories[id], user)), h)
      else Goto(s, h, ScanFindAgain(user, id))
    case ScanFindAgain(user, id) =>
      if id in s.sessions then Goto(s, h, ScanDecideAgain(user, id, s.sessions[id])) else Done(s, h)
    case ScanDecideAgain(user, id, row) =>
      if row.expiresAt > s.now && row.user == Some(user) then ScanSucceeded(s, h, user, id) else Done(s, h)
    case _ => s
  }

  function AdvanceApprove(s: State, h: HandlerId, pc: Pc): State {
    match pc
    case ApproveFind(user, id, submitted) =>
      if id in s.sessions then Goto(s, h, ApproveDecide(user, id, submitted, s.sessions[id])) else Done(s, h)
    case ApproveDecide(user, id, submitted, row) =>
      if row.expiresAt <= s.now || !ScannedBy(row, user) then Done(s, h)
      else if row.code != submitted then
        Goto(Missed(s, id, MissesOf(s, id).(submitted := MissesOf(s, id).submitted + 1)), h, ApproveWrong(user, id))
      else Goto(s, h, ApproveWrite(user, id, submitted))
    case ApproveWrong(user, id) =>
      if CountsWrongCode(s.sessions, id) && id in s.stories then
        var rows := RecordWrongCode(s.sessions, id);
        Done(Note(s.(sessions := rows), id, NoteWrongCode(s.stories[id], user, rows[id].status)), h)
      else Done(Missed(s, id, TooLate(s, id)), h)
    case ApproveWrite(user, id, submitted) =>
      if CanResolve(s.sessions, id, user, s.now) && id in s.stories then
        var s' := s.(sessions := Resolve(s.sessions, id, user, Approved, s.now));
        Done(Note(s', id, NoteApproved(s.stories[id], user, submitted, s.now)), h)
      else Done(s, h)
    case _ => s
  }

  function AdvanceReject(s: State, h: HandlerId, pc: Pc): State {
    match pc
    case RejectFind(user, id) =>
      if id in s.sessions then Goto(s, h, RejectDecide(user, id, s.sessions[id])) else Done(s, h)
    case RejectDecide(user, id, row) =>
      if row.expiresAt <= s.now || !ScannedBy(row, user) then Done(s, h) else Goto(s, h, RejectWrite(user, id))
    case RejectWrite(user, id) =>
      if CanResolve(s.sessions, id, user, s.now) && id in s.stories then
        var s' := s.(sessions := Resolve(s.sessions, id, user, Rejected, s.now));
        Done(Note(s', id, NoteRefused(s.stories[id], user)), h)
      else Done(s, h)
    case _ => s
  }

  function AdvancePoll(s: State, h: HandlerId, pc: Pc): State {
    match pc
    case PollFind(id, secret) =>
      if id in s.sessions then Goto(s, h, PollDecide(id, secret, s.sessions[id])) else Done(s, h)
    case PollDecide(id, secret, row) =>
      if secret == Some(row.secretHash) && row.status == Approved && row.expiresAt > s.now
      then Goto(s, h, PollConsume(id, secret))
      else Done(s, h)
    case PollConsume(id, secret) =>
      if CanConsume(s.sessions, id, s.now) && s.sessions[id].user.Some? && id in s.stories then
        var s' := s.(sessions := Consume(s.sessions, id, s.now));
        Goto(Note(s', id, NoteConsumed(s.stories[id], h)), h, PollCollect(id, secret, s.sessions[id].user.value))
      else Done(s, h)
    case PollCollect(id, secret, user) =>
      if && user in s.accounts && s.accounts[user].active
         && (s.requireVerifiedEmail ==> s.accounts[user].emailVerified) && id in s.stories
      then Done(Note(s, id, NoteToken(s.stories[id], Token(user, secret, s.accounts[user]))), h)
      else Done(s, h)
    case _ => s
  }

  function AdvanceHandler(s: State, h: HandlerId): State
    requires h in s.handlers
  {
    var pc := s.handlers[h];
    if pc.ScanFind? || pc.ScanDecide? || pc.ScanWrite? || pc.ScanFindAgain? || pc.ScanDecideAgain?
    then AdvanceScan(s, h, pc)
    else if pc.ApproveFind? || pc.ApproveDecide? || pc.ApproveWrong? || pc.ApproveWrite? then AdvanceApprove(s, h, pc)
    else if pc.RejectFind? || pc.RejectDecide? || pc.RejectWrite? then AdvanceReject(s, h, pc)
    else AdvancePoll(s, h, pc)
  }

  function Step(s: State, e: Event): State {
    match e
    case Tick(elapsed) => s.(now := s.now + elapsed)
    case Create(id, secretHash, code, expiresAt) =>
      if id in s.stories then s else
        Note(s.(sessions := s.sessions[id := Row(secretHash, code, Pending, None, 0, expiresAt)]), id,
             NewStory(secretHash, code, expiresAt))
    case Delete(ids) => s.(sessions := s.sessions - ids)
    case SetAccount(user, account) =>
      if account.Some?
      then s.(accounts := s.accounts[user := account.value], held := s.held + {(user, account.value)})
      else s.(accounts := s.accounts - {user})
    case Begin(h, request) =>
      if h !in s.handlers && IsRequest(request) then Goto(s, h, request) else s
    case Advance(h) => if h in s.handlers then AdvanceHandler(s, h) else s
    case Drop(h) => Dropped(s, h)
  }

  predicate Initial(s: State) {
    && s.sessions == map[] && s.stories == map[] && s.handlers == map[] && s.misses == map[]
    && (forall u :: u in s.accounts ==> (u, s.accounts[u]) in s.held)
  }

  // ---- what every session's story looks like -----------------------------------------

  /** A non-empty prefix of pending, scanned, rejected or of pending, scanned, approved, consumed. */
  predicate LegalTrail(trail: seq<Status>) {
    && 1 <= |trail| <= 4
    && trail[0] == Pending
    && (|trail| >= 2 ==> trail[1] == Scanned)
    && (|trail| >= 3 ==> trail[2] == Rejected || trail[2] == Approved)
    && (|trail| == 4 ==> trail[2] == Approved && trail[3] == Consumed)
  }

  function Last(trail: seq<Status>): Status
    requires trail != []
  {
    trail[|trail| - 1]
  }

  predicate WasApproved(t: Story) {
    |t.trail| >= 3 && t.trail[2] == Approved
  }

  /** One scanner; three wrong codes or a refusal end it; one approval by the scanner, in time, with the right code. */
  predicate StoryOk(t: Story) {
    && LegalTrail(t.trail)
    && (t.scanner.Some? <==> |t.trail| >= 2)
    && t.scans <= (if t.scanner.Some? then {t.scanner.value} else {})
    && t.wrongCodesBy <= (if t.scanner.Some? then {t.scanner.value} else {})
    && (t.wrongCodes > 0 ==> t.scanner.Some?)
    && t.wrongCodes <= MAX_CODE_ATTEMPTS
    && (t.refusedBy.Some? ==> t.scanner == t.refusedBy && t.wrongCodes < MAX_CODE_ATTEMPTS)
    && (Last(t.trail) == Rejected <==> t.refusedBy.Some? || t.wrongCodes == MAX_CODE_ATTEMPTS)
    && (t.approval.Some? <==> WasApproved(t))
    && (t.approval.Some? ==> && t.scanner == Some(t.approval.value.user)
                             && t.approval.value.submitted == t.code
                             && t.approval.value.at < t.expiresAt)
    && (t.collector.Some? <==> |t.trail| == 4)
    && (t.tokens == [] ||
        (&& t.collector.Some? && |t.tokens| == 1
         && t.tokens[0].subject == t.scanner.value && t.tokens[0].secret == Some(t.secretHash)))
  }

  predicate RowMatches(row: Row, t: Story) {
    && row.secretHash == t.secretHash && row.code == t.code && row.expiresAt == t.expiresAt
    && t.trail != [] && row.status == Last(t.trail)
    && row.user == t.scanner && row.attempts == t.wrongCodes
  }

  /** What a handler read may be stale, but never wrong about the code, the secret, the expiry or the scanner. */
  predicate Snapshot(row: Row, t: Story) {
    && row.secretHash == t.secretHash && row.code == t.code && row.expiresAt == t.expiresAt
    && (row.user.Some? ==> t.scanner == row.user)
  }

  predicate HandlerOk(stories: map<SessionId, Story>, h: HandlerId, pc: Pc) {
    match pc
    case ScanDecide(_, id, row) => id in stories && Snapshot(row, stories[id])
    case ScanDecideAgain(_, id, row) => id in stories && Snapshot(row, stories[id])
    case ApproveDecide(_, id, _, row) => id in stories && Snapshot(row, stories[id])
    case ApproveWrong(user, id) => id in stories && stories[id].scanner == Some(user)
    case ApproveWrite(user, id, submitted) => id in stories && submitted == stories[id].code
    case PollDecide(id, _, row) => id in stories && Snapshot(row, stories[id])
    case PollConsume(id, secret) => id in stories && secret == Some(stories[id].secretHash)
    case PollCollect(id, secret, user) =>
      && id in stories && secret == Some(stories[id].secretHash)
      && stories[id].scanner == Some(user)
      && stories[id].collector == Some(h) && stories[id].tokens == []
    case _ => true
  }

  predicate Inv(s: State) {
    && (forall id {:trigger StoryOk(s.stories[id])} :: id in s.stories ==> StoryOk(s.stories[id]))
    && (forall id :: id in s.sessions ==> id in s.stories && RowMatches(s.sessions[id], s.stories[id]))
    && (forall h {:trigger HandlerOk(s.stories, h, s.handlers[h])} ::
          h in s.handlers ==> HandlerOk(s.stories, h, s.handlers[h]))
  }

  /** A story only grows; what a handler relies on stays true. */
  predicate Grows(a: Story, b: Story) {
    && b.secretHash == a.secretHash && b.code == a.code && b.expiresAt == a.expiresAt
    && (a.scanner.Some? ==> b.scanner == a.scanner)
    && (a.collector.Some? ==> b.collector == a.collector)
  }

  lemma NotePreserves(s: State, s': State, h: HandlerId, id: SessionId)
    requires Inv(s) && id in s.stories && id in s'.stories
    requires s'.stories == s.stories[id := s'.stories[id]]
    requires StoryOk(s'.stories[id]) && Grows(s.stories[id], s'.stories[id])
    requires s'.stories[id].tokens != s.stories[id].tokens ==> s.stories[id].collector == Some(h)
    requires s'.sessions == s.sessions || (id in s'.sessions && s'.sessions == s.sessions[id := s'.sessions[id]])
    requires id in s'.sessions ==> RowMatches(s'.sessions[id], s'.stories[id])
    requires forall k :: k in s'.handlers && k != h ==> k in s.handlers && s'.handlers[k] == s.handlers[k]
    requires h in s'.handlers ==> HandlerOk(s'.stories, h, s'.handlers[h])
    ensures Inv(s')
  {
    forall k | k in s'.handlers ensures HandlerOk(s'.stories, k, s'.handlers[k]) {
      if k != h { assert HandlerOk(s.stories, k, s.handlers[k]); }
    }
  }

  lemma GotoKeepsInv(s: State, h: HandlerId, pc: Pc)
    requires Inv(s) && HandlerOk(s.stories, h, pc)
    ensures Inv(Goto(s, h, pc))
  {
  }

  lemma DoneKeepsInv(s: State, h: HandlerId)
    requires Inv(s)
    ensures Inv(Done(s, h))
  {
  }

  /** The count of wrong submissions is not what the invariant is about. */
  lemma MissesAreFree(s: State, misses: map<SessionId, Misses>)
    requires Inv(s)
    ensures Inv(s.(misses := misses))
  {
  }

  /** What a handler reads is a faithful snapshot of the story. */
  lemma ReadIsSnapshot(s: State, id: SessionId)
    requires Inv(s) && id in s.sessions
    ensures id in s.stories && Snapshot(s.sessions[id], s.stories[id])
  {
  }

  // One lemma per thing that can happen to a story.

  lemma ScannedOk(t: Story, user: UserId)
    requires StoryOk(t) && Last(t.trail) == Pending
    ensures StoryOk(NoteScanned(t, user)) && Grows(t, NoteScanned(t, user))
    ensures Last(NoteScanned(t, user).trail) == Scanned
  {
  }

  lemma ScanAnsweredOk(t: Story, user: UserId)
    requires StoryOk(t) && t.scanner == Some(user)
    ensures StoryOk(NoteScanAnswered(t, user)) && Grows(t, NoteScanAnswered(t, user))
  {
  }

  lemma WrongCodeOk(t: Story, user: UserId, after: Status)
    requires StoryOk(t) && t.scanner == Some(user) && Last(t.trail) == Scanned
    requires after == if t.wrongCodes + 1 >= MAX_CODE_ATTEMPTS then Rejected else Scanned
    ensures StoryOk(NoteWrongCode(t, user, after)) && Grows(t, NoteWrongCode(t, user, after))
    ensures Last(NoteWrongCode(t, user, after).trail) == after
  {
  }

  lemma ApprovedOk(t: Story, user: UserId, at: int)
    requires StoryOk(t) && t.scanner == Some(user) && Last(t.trail) == Scanned && at < t.expiresAt
    ensures StoryOk(NoteApproved(t, user, t.code, at)) && Grows(t, NoteApproved(t, user, t.code, at))
    ensures Last(NoteApproved(t, user, t.code, at).trail) == Approved
  {
  }

  lemma RefusedOk(t: Story, user: UserId)
    requires StoryOk(t) && t.scanner == Some(user) && Last(t.trail) == Scanned
    ensures StoryOk(NoteRefused(t, user)) && Grows(t, NoteRefused(t, user))
    ensures Last(NoteRefused(t, user).trail) == Rejected
  {
  }

  lemma ConsumedOk(t: Story, h: HandlerId)
    requires StoryOk(t) && Last(t.trail) == Approved
    ensures StoryOk(NoteConsumed(t, h)) && Grows(t, NoteConsumed(t, h))
    ensures Last(NoteConsumed(t, h).trail) == Consumed
  {
  }

  lemma TokenOk(t: Story, user: UserId, account: Account)
    requires StoryOk(t) && t.scanner == Some(user) && t.collector.Some? && t.tokens == []
    ensures var t' := NoteToken(t, Token(user, Some(t.secretHash), account));
            StoryOk(t') && Grows(t, t')
  {
  }

  // One lemma per handler step that writes.

  lemma ScanWriteKeepsInv(s: State, h: HandlerId, user: UserId, id: SessionId)
    requires Inv(s) && h in s.handlers && CanMarkScanned(s.sessions, id, s.now)
    ensures Inv(AdvanceScan(s, h, ScanWrite(user, id)))
  {
    ScannedOk(s.stories[id], user);
    NotePreserves(s, AdvanceScan(s, h, ScanWrite(user, id)), h, id);
  }

  lemma ScanSucceededKeepsInv(s: State, h: HandlerId, user: UserId, id: SessionId)
    requires Inv(s) && h in s.handlers && id in s.stories && s.stories[id].scanner == Some(user)
    ensures Inv(ScanSucceeded(s, h, user, id))
  {
    ScanAnsweredOk(s.stories[id], user);
    NotePreserves(s, ScanSucceeded(s, h, user, id), h, id);
  }

  lemma WrongCodeKeepsInv(s: State, h: HandlerId, user: UserId, id: SessionId)
    requires Inv(s) && h in s.handlers && CountsWrongCode(s.sessions, id) && s.stories[id].scanner == Some(user)
    ensures Inv(AdvanceApprove(s, h, ApproveWrong(user, id)))
  {
    var s' := AdvanceApprove(s, h, ApproveWrong(user, id));
    WrongCodeOk(s.stories[id], user, s'.sessions[id].status);
    NotePreserves(s, s', h, id);
  }

  lemma ApproveWriteKeepsInv(s: State, h: HandlerId, user: UserId, id: SessionId, submitted: Code)
    requires Inv(s) && h in s.handlers && CanResolve(s.sessions, id, user, s.now) && submitted == s.stories[id].code
    ensures Inv(AdvanceApprove(s, h, ApproveWrite(user, id, submitted)))
  {
    ApprovedOk(s.stories[id], user, s.now);
    NotePreserves(s, AdvanceApprove(s, h, ApproveWrite(user, id, submitted)), h, id);
  }

  lemma ConsumeKeepsInv(s: State, h: HandlerId, id: SessionId, secret: Option<Hash>)
    requires Inv(s) && h in s.handlers && CanConsume(s.sessions, id, s.now) && secret == Some(s.stories[id].secretHash)
    ensures Inv(AdvancePoll(s, h, PollConsume(id, secret)))
  {
    ConsumedOk(s.stories[id], h);
    NotePreserves(s, AdvancePoll(s, h, PollConsume(id, secret)), h, id);
  }

  lemma CollectKeepsInv(s: State, h: HandlerId, id: SessionId, secret: Option<Hash>, user: UserId)
    requires Inv(s) && h in s.handlers && HandlerOk(s.stories, h, PollCollect(id, secret, user))
    ensures Inv(AdvancePoll(s, h, PollCollect(id, secret, user)))
  {
    var s' := AdvancePoll(s, h, PollCollect(id, secret, user));
    if user in s.accounts { TokenOk(s.stories[id], user, s.accounts[user]); }
    if s'.stories == s.stories { DoneKeepsInv(s, h); } else { NotePreserves(s, s', h, id); }
  }

  lemma RefuseKeepsInv(s: State, h: HandlerId, user: UserId, id: SessionId)
    requires Inv(s) && h in s.handlers && CanResolve(s.sessions, id, user, s.now)
    ensures Inv(AdvanceReject(s, h, RejectWrite(user, id)))
  {
    RefusedOk(s.stories[id], user);
    NotePreserves(s, AdvanceReject(s, h, RejectWrite(user, id)), h, id);
  }

  lemma ScanKeepsInv(s: State, h: HandlerId, pc: Pc)
    requires Inv(s) && h in s.handlers && HandlerOk(s.stories, h, pc)
    ensures Inv(AdvanceScan(s, h, pc))
  {
    DoneKeepsInv(s, h);
    match pc
    case ScanFind(user, id) =>
      if id in s.sessions {
        ReadIsSnapshot(s, id);
        GotoKeepsInv(s, h, ScanDecide(user, id, s.sessions[id]));
      }
    case ScanDecide(user, id, row) =>
      GotoKeepsInv(s, h, ScanWrite(user, id));
      if ScannedBy(row, user) { ScanSucceededKeepsInv(s, h, user, id); }
    case ScanWrite(user, id) =>
      GotoKeepsInv(s, h, ScanFindAgain(user, id));
      if CanMarkScanned(s.sessions, id, s.now) { ScanWriteKeepsInv(s, h, user, id); }
    case ScanFindAgain(user, id) =>
      if id in s.sessions {
        ReadIsSnapshot(s, id);
        GotoKeepsInv(s, h, ScanDecideAgain(user, id, s.sessions[id]));
      }
    case ScanDecideAgain(user, id, row) =>
      if row.user == Some(user) { ScanSucceededKeepsInv(s, h, user, id); }
    case _ =>
  }

  lemma ApproveKeepsInv(s: State, h: HandlerId, pc: Pc)
    requires Inv(s) && h in s.handlers && HandlerOk(s.stories, h, pc)
    ensures Inv(AdvanceApprove(s, h, pc))
  {
    DoneKeepsInv(s, h);
    match pc
    case ApproveFind(user, id, submitted) =>
      if id in s.sessions {
        ReadIsSnapshot(s, id);
        GotoKeepsInv(s, h, ApproveDecide(user, id, submitted, s.sessions[id]));
      }
    case ApproveDecide(user, id, submitted, row) =>
      if ScannedBy(row, user) {
        if row.code != submitted {
          GotoKeepsInv(s, h, ApproveWrong(user, id));
          MissesAreFree(Goto(s, h, ApproveWrong(user, id)), AdvanceApprove(s, h, pc).misses);
        } else {
          GotoKeepsInv(s, h, ApproveWrite(user, id, submitted));
        }
      }
    case ApproveWrong(user, id) =>
      MissesAreFree(Done(s, h), AdvanceApprove(s, h, pc).misses);
      if CountsWrongCode(s.sessions, id) { WrongCodeKeepsInv(s, h, user, id); }
    case ApproveWrite(user, id, submitted) =>
      if CanResolve(s.sessions, id, user, s.now) { ApproveWriteKeepsInv(s, h, user, id, submitted); }
    case _ =>
  }

  lemma RejectKeepsInv(s: State, h: HandlerId, pc: Pc)
    requires Inv(s) && h in s.handlers && HandlerOk(s.stories, h, pc)
    ensures Inv(AdvanceReject(s, h, pc))
  {
    DoneKeepsInv(s, h);
    match pc
    case RejectFind(user, id) =>
      if id in s.sessions { GotoKeepsInv(s, h, RejectDecide(user, id, s.sessions[id])); }
    case RejectDecide(user, id, row) =>
      GotoKeepsInv(s, h, RejectWrite(user, id));
    case RejectWrite(user, id) =>
      if CanResolve(s.sessions, id, user, s.now) { RefuseKeepsInv(s, h, user, id); }
    case _ =>
  }

  lemma PollKeepsInv(s: State, h: HandlerId, pc: Pc)
    requires Inv(s) && h in s.handlers && HandlerOk(s.stories, h, pc)
    ensures Inv(AdvancePoll(s, h, pc))
  {
    DoneKeepsInv(s, h);
    match pc
    case PollFind(id, secret) =>
      if id in s.sessions {
        ReadIsSnapshot(s, id);
        GotoKeepsInv(s, h, PollDecide(id, secret, s.sessions[id]));
      }
    case PollDecide(id, secret, row) =>
      if secret == Some(row.secretHash) { GotoKeepsInv(s, h, PollConsume(id, secret)); }
    case PollConsume(id, secret) =>
      if CanConsume(s.sessions, id, s.now) { ConsumeKeepsInv(s, h, id, secret); }
    case PollCollect(id, secret, user) =>
      CollectKeepsInv(s, h, id, secret, user);
    case _ =>
  }

  lemma FreshStoryOk(secretHash: Hash, code: Code, expiresAt: int)
    ensures StoryOk(NewStory(secretHash, code, expiresAt))
  {
  }

  lemma HandlerIgnoresFresh(stories: map<SessionId, Story>, h: HandlerId, pc: Pc, id: SessionId, t: Story)
    requires HandlerOk(stories, h, pc) && id !in stories
    ensures HandlerOk(stories[id := t], h, pc)
  {
  }

  lemma CreateKeepsInv(s: State, id: SessionId, secretHash: Hash, code: Code, expiresAt: int)
    requires Inv(s)
    ensures Inv(Step(s, Create(id, secretHash, code, expiresAt)))
  {
    if id !in s.stories {
      var s' := Step(s, Create(id, secretHash, code, expiresAt));
      FreshStoryOk(secretHash, code, expiresAt);
      assert s'.handlers == s.handlers;
      forall k | k in s'.handlers ensures HandlerOk(s'.stories, k, s'.handlers[k]) {
        HandlerIgnoresFresh(s.stories, k, s.handlers[k], id, NewStory(secretHash, code, expiresAt));
      }
    }
  }

  lemma AdvanceKeepsInv(s: State, h: HandlerId)
    requires Inv(s) && h in s.handlers
    ensures Inv(AdvanceHandler(s, h))
  {
    var pc := s.handlers[h];
    assert HandlerOk(s.stories, h, pc);
    ScanKeepsInv(s, h, pc);
    ApproveKeepsInv(s, h, pc);
    RejectKeepsInv(s, h, pc);
    PollKeepsInv(s, h, pc);
  }

  lemma EnvironmentKeepsInv(s: State, e: Event)
    requires Inv(s) && (e.Tick? || e.Delete? || e.SetAccount?)
    ensures Inv(Step(s, e))
  {
  }

  lemma StepKeepsInv(s: State, e: Event)
    requires Inv(s)
    ensures Inv(Step(s, e))
  {
    match e
    case Create(id, secretHash, code, expiresAt) => CreateKeepsInv(s, id, secretHash, code, expiresAt);
    case Begin(h, request) => if h !in s.handlers && IsRequest(request) { GotoKeepsInv(s, h, request); }
    case Drop(h) =>
      DoneKeepsInv(s, h);
      MissesAreFree(Done(s, h), Step(s, e).misses);
    case Advance(h) => if h in s.handlers { AdvanceKeepsInv(s, h); }
    case _ => EnvironmentKeepsInv(s, e);
  }

  lemma RunKeepsInv(s: State, events: seq<Event>)
    requires Initial(s)
    ensures Inv(Run(Step, s, events))
  {
    forall t, e | Inv(t) ensures Inv(Step(t, e)) { StepKeepsInv(t, e); }
    Invariant(Step, Inv, s, events);
  }

  // ---- the guarantees ----------------------------------------------------------------

  /**
   * Over a whole run, in any interleaving: a session yields at most one access token; its subject is the one user who
   * scanned the session and who then submitted its code before it expired; it goes to the poller holding the secret.
   */
  lemma OneTokenForTheScanner(s: State, events: seq<Event>, id: SessionId)
    requires Initial(s) && id in Run(Step, s, events).stories
    ensures var t := Run(Step, s, events).stories[id];
            && LegalTrail(t.trail)
            && |t.tokens| <= 1
            && (t.tokens != [] ==>
                  && t.trail == [Pending, Scanned, Approved, Consumed]
                  && t.scanner == Some(t.tokens[0].subject)
                  && t.tokens[0].secret == Some(t.secretHash)
                  && t.approval.Some? && t.approval.value.user == t.tokens[0].subject
                  && t.approval.value.submitted == t.code && t.approval.value.at < t.expiresAt)
  {
    RunKeepsInv(s, events);
    assert StoryOk(Run(Step, s, events).stories[id]);
  }

  /**
   * All successful scans of a session are by one user, and so are its counted wrong codes; fewer than three were
   * counted while it is still scanned, at most two if it was approved, and the third one rejects it.
   */
  lemma WrongCodesBounded(s: State, events: seq<Event>, id: SessionId)
    requires Initial(s) && id in Run(Step, s, events).stories
    ensures var t := Run(Step, s, events).stories[id];
            && t.trail != []
            && (forall u, v :: u in t.scans && v in t.scans + t.wrongCodesBy ==> u == v)
            && (Last(t.trail) == Scanned ==> t.wrongCodes < 3)
            && (t.wrongCodes >= 3 <==> Last(t.trail) == Rejected && t.refusedBy == None)
            && (Approved in t.trail ==> t.wrongCodes <= 2)
  {
    RunKeepsInv(s, events);
    WrongCodesOk(Run(Step, s, events).stories[id]);
  }

  lemma WrongCodesOk(t: Story)
    requires StoryOk(t)
    ensures forall u, v :: u in t.scans && v in t.scans + t.wrongCodesBy ==> u == v
    ensures Last(t.trail) == Scanned ==> t.wrongCodes < 3
    ensures t.wrongCodes >= 3 <==> Last(t.trail) == Rejected && t.refusedBy == None
    ensures Approved in t.trail ==> t.wrongCodes <= 2
  {
    if Approved in t.trail { assert WasApproved(t); }
  }

  // ---- every wrong code that is submitted is accounted for -----------------------------

  function Counted(s: State, id: SessionId): nat {
    if id in s.stories then s.stories[id].wrongCodes else 0
  }

  /** Handlers that have compared a wrong code for the session and not written yet. */
  function UnderWay(s: State, id: SessionId): set<HandlerId> {
    set h | h in s.handlers && s.handlers[h].ApproveWrong? && s.handlers[h].id == id
  }

  predicate MissOk(s: State, id: SessionId) {
    var m := MissesOf(s, id);
    && m.submitted == Counted(s, id) + |UnderWay(s, id)| + m.dropped + |m.late|
    && Some(Scanned) !in m.late
  }

  ghost predicate MissesOk(s: State) {
    forall id :: MissOk(s, id)
  }

  /** Nothing about wrong codes happens. */
  lemma QuietKeepsMisses(s: State, s': State)
    requires MissesOk(s) && s'.misses == s.misses
    requires forall id :: Counted(s', id) == Counted(s, id)
    requires forall h :: (h in s'.handlers && s'.handlers[h].ApproveWrong?)
                         <==> (h in s.handlers && s.handlers[h].ApproveWrong?)
    requires forall h :: h in s.handlers && s.handlers[h].ApproveWrong? ==> s'.handlers[h] == s.handlers[h]
    ensures MissesOk(s')
  {
    forall id ensures MissOk(s', id) {
      assert MissOk(s, id);
      assert UnderWay(s', id) == UnderWay(s, id);
    }
  }

  /** The handler ends or goes on; wrong codes, tokens and accounts are as they were. */
  predicate Moves(s: State, s': State, h: HandlerId) {
    && s'.misses == s.misses && s'.accounts == s.accounts && s'.held == s.held
    && s'.requireVerifiedEmail == s.requireVerifiedEmail && s'.stories.Keys == s.stories.Keys
    && (forall id :: id in s.stories ==> SameCounts(s.stories[id], s'.stories[id]))
    && (s'.handlers == s.handlers - {h}
        || (h in s'.handlers && s'.handlers == s.handlers[h := s'.handlers[h]] && !s'.handlers[h].ApproveWrong?))
  }

  predicate SameCounts(a: Story, b: Story) {
    b.wrongCodes == a.wrongCodes && b.tokens == a.tokens
  }

  lemma DoneMoves(s: State, h: HandlerId)
    ensures Moves(s, Done(s, h), h)
  {
  }

  lemma GotoMoves(s: State, h: HandlerId, pc: Pc)
    requires !pc.ApproveWrong?
    ensures Moves(s, Goto(s, h, pc), h)
  {
  }

  lemma NoteMoves(s: State, h: HandlerId, sessions: Sessions, id: SessionId, t: Story)
    requires id in s.stories && SameCounts(s.stories[id], t)
    ensures Moves(s, Done(Note(s.(sessions := sessions), id, t), h), h)
  {
  }

  lemma ScanSucceededMoves(s: State, h: HandlerId, user: UserId, id: SessionId)
    ensures Moves(s, ScanSucceeded(s, h, user, id), h)
  {
    DoneMoves(s, h);
    if id in s.stories { NoteMoves(s, h, s.sessions, id, NoteScanAnswered(s.stories[id], user)); }
  }

  predicate IsScan(pc: Pc) {
    pc.ScanFind? || pc.ScanDecide? || pc.ScanWrite? || pc.ScanFindAgain? || pc.ScanDecideAgain?
  }

  lemma ScanMoves(s: State, h: HandlerId, pc: Pc)
    requires IsScan(pc)
    ensures Moves(s, AdvanceScan(s, h, pc), h)
  {
    DoneMoves(s, h);
    match pc
    case ScanFind(user, id) => if id in s.sessions { GotoMoves(s, h, ScanDecide(user, id, s.sessions[id])); }
    case ScanDecide(user, id, row) =>
      GotoMoves(s, h, ScanWrite(user, id));
      ScanSucceededMoves(s, h, user, id);
    case ScanWrite(user, id) =>
      GotoMoves(s, h, ScanFindAgain(user, id));
      if id in s.stories {
        NoteMoves(s, h, MarkScanned(s.sessions, id, user, s.now), id, NoteScanned(s.stories[id], user));
      }
    case ScanFindAgain(user, id) =>
      if id in s.sessions { GotoMoves(s, h, ScanDecideAgain(user, id, s.sessions[id])); }
    case ScanDecideAgain(user, id, row) => ScanSucceededMoves(s, h, user, id);
  }

  lemma RejectMoves(s: State, h: HandlerId, pc: Pc)
    requires pc.RejectFind? || pc.RejectDecide? || pc.RejectWrite?
    ensures Moves(s, AdvanceReject(s, h, pc), h)
  {
    DoneMoves(s, h);
    match pc
    case RejectFind(user, id) => if id in s.sessions { GotoMoves(s, h, RejectDecide(user, id, s.sessions[id])); }
    case RejectDecide(user, id, _) => GotoMoves(s, h, RejectWrite(user, id));
    case RejectWrite(user, id) =>
      if id in s.stories {
        NoteMoves(s, h, Resolve(s.sessions, id, user, Rejected, s.now), id, NoteRefused(s.stories[id], user));
      }
  }

  lemma ConsumeMoves(s: State, h: HandlerId, sessions: Sessions, id: SessionId, t: Story, pc: Pc)
    requires id in s.stories && SameCounts(s.stories[id], t) && !pc.ApproveWrong?
    ensures Moves(s, Goto(Note(s.(sessions := sessions), id, t), h, pc), h)
  {
  }

  lemma PollMoves(s: State, h: HandlerId, pc: Pc)
    requires pc.PollFind? || pc.PollDecide? || pc.PollConsume?
    ensures Moves(s, AdvancePoll(s, h, pc), h)
  {
    DoneMoves(s, h);
    match pc
    case PollFind(id, secret) => if id in s.sessions { GotoMoves(s, h, PollDecide(id, secret, s.sessions[id])); }
    case PollDecide(id, secret, _) => GotoMoves(s, h, PollConsume(id, secret));
    case PollConsume(id, secret) =>
      if CanConsume(s.sessions, id, s.now) && s.sessions[id].user.Some? && id in s.stories {
        ConsumeMoves(s, h, Consume(s.sessions, id, s.now), id, NoteConsumed(s.stories[id], h),
                     PollCollect(id, secret, s.sessions[id].user.value));
      }
  }

  /** The steps of an approval other than those that deal with a wrong code. */
  lemma ApproveMoves(s: State, h: HandlerId, pc: Pc)
    requires pc.ApproveFind? || pc.ApproveWrite?
             || (pc.ApproveDecide? && (pc.row.expiresAt <= s.now || !ScannedBy(pc.row, pc.user)
                                       || pc.row.code == pc.submitted))
    ensures Moves(s, AdvanceApprove(s, h, pc), h)
  {
    DoneMoves(s, h);
    match pc
    case ApproveFind(user, id, submitted) =>
      if id in s.sessions { GotoMoves(s, h, ApproveDecide(user, id, submitted, s.sessions[id])); }
    case ApproveDecide(user, id, submitted, _) => GotoMoves(s, h, ApproveWrite(user, id, submitted));
    case ApproveWrite(user, id, submitted) =>
      if id in s.stories {
        NoteMoves(s, h, Resolve(s.sessions, id, user, Approved, s.now), id,
                  NoteApproved(s.stories[id], user, submitted, s.now));
      }
  }

  lemma MoveKeepsMisses(s: State, s': State, h: HandlerId)
    requires MissesOk(s) && h in s.handlers && !s.handlers[h].ApproveWrong? && Moves(s, s', h)
    ensures MissesOk(s')
  {
    QuietKeepsMisses(s, s');
  }

  lemma OneMoreUnderWay(s: State, s': State, h: HandlerId, user: UserId, id: SessionId, k: SessionId)
    requires h in s.handlers && !s.handlers[h].ApproveWrong? && s'.handlers == s.handlers[h := ApproveWrong(user, id)]
    ensures |UnderWay(s', k)| == |UnderWay(s, k)| + if k == id then 1 else 0
  {
    assert UnderWay(s', k) == if k == id then UnderWay(s, k) + {h} else UnderWay(s, k);
  }

  /** A wrong code has been compared: one more submitted, one more under way. */
  lemma SubmitKeepsMisses(s: State, h: HandlerId, user: UserId, id: SessionId)
    requires MissesOk(s) && h in s.handlers && !s.handlers[h].ApproveWrong?
    ensures var m := MissesOf(s, id).(submitted := MissesOf(s, id).submitted + 1);
            MissesOk(Goto(Missed(s, id, m), h, ApproveWrong(user, id)))
  {
    var m := MissesOf(s, id).(submitted := MissesOf(s, id).submitted + 1);
    var s' := Goto(Missed(s, id, m), h, ApproveWrong(user, id));
    forall k ensures MissOk(s', k) {
      assert MissOk(s, k);
      OneMoreUnderWay(s, s', h, user, id, k);
    }
  }

  /** A handler with a wrong code ends: the code is counted, comes too late, or is dropped. */
  lemma EndKeepsMisses(s: State, s': State, h: HandlerId, id: SessionId)
    requires MissesOk(s) && h in s.handlers && s.handlers[h].ApproveWrong? && s.handlers[h].id == id
    requires s'.handlers == s.handlers - {h}
    requires forall k :: k != id ==> Counted(s', k) == Counted(s, k) && MissesOf(s', k) == MissesOf(s, k)
    requires var m, m' := MissesOf(s, id), MissesOf(s', id);
             && m'.submitted == m.submitted && Some(Scanned) !in m'.late
             && Counted(s', id) + m'.dropped + |m'.late| == Counted(s, id) + m.dropped + |m.late| + 1
    ensures MissesOk(s')
  {
    forall k ensures MissOk(s', k) {
      assert MissOk(s, k);
      if k == id {
        assert h in UnderWay(s, k) && UnderWay(s', k) == UnderWay(s, k) - {h};
      } else {
        assert UnderWay(s', k) == UnderWay(s, k);
      }
    }
  }

  lemma WrongCodeKeepsMisses(s: State, h: HandlerId, user: UserId, id: SessionId)
    requires Inv(s) && MissesOk(s) && h in s.handlers && s.handlers[h] == ApproveWrong(user, id)
    ensures MissesOk(AdvanceApprove(s, h, ApproveWrong(user, id)))
  {
    assert HandlerOk(s.stories, h, s.handlers[h]);
    assert MissOk(s, id);
    if CountsWrongCode(s.sessions, id) {
      var rows := RecordWrongCode(s.sessions, id);
      var t := NoteWrongCode(s.stories[id], user, rows[id].status);
      EndKeepsMisses(s, Done(Note(s.(sessions := rows), id, t), h), h, id);
    } else {
      EndKeepsMisses(s, Done(Missed(s, id, TooLate(s, id)), h), h, id);
    }
  }

  lemma DropKeepsMisses(s: State, h: HandlerId)
    requires MissesOk(s)
    ensures MissesOk(Dropped(s, h))
  {
    if h in s.handlers && s.handlers[h].ApproveWrong? {
      assert MissOk(s, s.handlers[h].id);
      EndKeepsMisses(s, Dropped(s, h), h, s.handlers[h].id);
    } else {
      QuietKeepsMisses(s, Dropped(s, h));
    }
  }

  lemma CollectKeepsMisses(s: State, h: HandlerId, pc: Pc)
    requires MissesOk(s) && h in s.handlers && s.handlers[h] == pc && pc.PollCollect?
    ensures MissesOk(AdvancePoll(s, h, pc))
  {
    QuietKeepsMisses(s, AdvancePoll(s, h, pc));
  }

  lemma DecideKeepsMisses(s: State, h: HandlerId, pc: Pc)
    requires MissesOk(s) && h in s.handlers && s.handlers[h] == pc && pc.ApproveDecide?
    ensures MissesOk(AdvanceApprove(s, h, pc))
  {
    if pc.row.expiresAt > s.now && ScannedBy(pc.row, pc.user) && pc.row.code != pc.submitted {
      SubmitKeepsMisses(s, h, pc.user, pc.id);
    } else {
      ApproveMoves(s, h, pc);
      MoveKeepsMisses(s, AdvanceApprove(s, h, pc), h);
    }
  }

  lemma AdvanceKeepsMisses(s: State, h: HandlerId)
    requires Inv(s) && MissesOk(s) && h in s.handlers
    ensures MissesOk(AdvanceHandler(s, h))
  {
    var pc := s.handlers[h];
    if pc.ApproveWrong? {
      WrongCodeKeepsMisses(s, h, pc.user, pc.id);
    } else if pc.ApproveDecide? {
      DecideKeepsMisses(s, h, pc);
    } else if pc.PollCollect? {
      CollectKeepsMisses(s, h, pc);
    } else {
      HandlerMoves(s, h);
      MoveKeepsMisses(s, AdvanceHandler(s, h), h);
    }
  }

  lemma HandlerMoves(s: State, h: HandlerId)
    requires h in s.handlers && !s.handlers[h].ApproveWrong? && !s.handlers[h].ApproveDecide?
    requires !s.handlers[h].PollCollect?
    ensures Moves(s, AdvanceHandler(s, h), h)
  {
    var pc := s.handlers[h];
    if IsScan(pc) {
      ScanMoves(s, h, pc);
    } else if pc.ApproveFind? || pc.ApproveWrite? {
      ApproveMoves(s, h, pc);
    } else if pc.RejectFind? || pc.RejectDecide? || pc.RejectWrite? {
      RejectMoves(s, h, pc);
    } else {
      PollMoves(s, h, pc);
    }
  }

  lemma StepKeepsMisses(s: State, e: Event)
    requires Inv(s) && MissesOk(s)
    ensures MissesOk(Step(s, e))
  {
    match e
    case Advance(h) => if h in s.handlers { AdvanceKeepsMisses(s, h); }
    case Drop(h) => DropKeepsMisses(s, h);
    case Begin(h, request) => if h !in s.handlers && IsRequest(request) { QuietKeepsMisses(s, Step(s, e)); }
    case _ => ElsewhereKeepsMisses(s, e);
  }

  lemma ElsewhereKeepsMisses(s: State, e: Event)
    requires MissesOk(s) && (e.Tick? || e.Create? || e.Delete? || e.SetAccount?)
    ensures MissesOk(Step(s, e))
  {
    QuietKeepsMisses(s, Step(s, e));
  }

  /**
   * Over any run every wrong code that was submitted for a session was counted, or its handler is still under way or
   * was dropped before the write, or the session was no longer waiting for an answer when the handler wrote.
   */
  lemma WrongCodesAccountedFor(s: State, events: seq<Event>, id: SessionId)
    requires Initial(s)
    ensures var now := Run(Step, s, events);
            var m := MissesOf(now, id);
            && m.submitted == Counted(now, id) + |UnderWay(now, id)| + m.dropped + |m.late|
            && Some(Scanned) !in m.late
  {
    var inv := t => Inv(t) && MissesOk(t);
    forall id ensures MissOk(s, id) { assert UnderWay(s, id) == {}; }
    forall t, e | inv(t) ensures inv(Step(t, e)) {
      StepKeepsInv(t, e);
      StepKeepsMisses(t, e);
    }
    Invariant(Step, inv, s, events);
    assert MissOk(Run(Step, s, events), id);
  }

  // ---- whose account a token is for ----------------------------------------------------

  predicate Admissible(s: State, user: UserId, account: Account) {
    (user, account) in s.held && account.active && (s.requireVerifiedEmail ==> account.emailVerified)
  }

  predicate TokensAdmissible(s: State, t: Story) {
    forall i :: 0 <= i < |t.tokens| ==> Admissible(s, t.tokens[i].subject, t.tokens[i].account)
  }

  predicate AccountsOk(s: State) {
    && (forall u :: u in s.accounts ==> (u, s.accounts[u]) in s.held)
    && (forall id {:trigger TokensAdmissible(s, s.stories[id])} ::
          id in s.stories ==> TokensAdmissible(s, s.stories[id]))
  }

  /** Every story has the tokens it had, or none, or tokens for admissible accounts. */
  lemma SameTokensKeepAccounts(s: State, s': State)
    requires AccountsOk(s) && s'.accounts == s.accounts && s'.held == s.held
    requires s'.requireVerifiedEmail == s.requireVerifiedEmail
    requires forall id :: id in s'.stories ==>
               || (id in s.stories && s'.stories[id].tokens == s.stories[id].tokens) || s'.stories[id].tokens == []
               || TokensAdmissible(s', s'.stories[id])
    ensures AccountsOk(s')
  {
    forall id | id in s'.stories ensures TokensAdmissible(s', s'.stories[id]) {
      if id in s.stories { assert TokensAdmissible(s, s.stories[id]); }
    }
  }

  lemma CollectKeepsAccounts(s: State, h: HandlerId, id: SessionId, secret: Option<Hash>, user: UserId)
    requires AccountsOk(s)
    ensures AccountsOk(AdvancePoll(s, h, PollCollect(id, secret, user)))
  {
    var s' := AdvancePoll(s, h, PollCollect(id, secret, user));
    if id in s.stories {
      assert TokensAdmissible(s, s.stories[id]);
      assert TokensAdmissible(s', s'.stories[id]);
    }
    SameTokensKeepAccounts(s, s');
  }

  lemma CountKeepsAccounts(s: State, h: HandlerId, sessions: Sessions, id: SessionId, t: Story)
    requires AccountsOk(s) && id in s.stories && t.tokens == s.stories[id].tokens
    ensures AccountsOk(Done(Note(s.(sessions := sessions), id, t), h))
  {
    SameTokensKeepAccounts(s, Done(Note(s.(sessions := sessions), id, t), h));
  }

  lemma MissKeepsAccounts(s: State, id: SessionId, m: Misses, handlers: map<HandlerId, Pc>)
    requires AccountsOk(s)
    ensures AccountsOk(Missed(s, id, m).(handlers := handlers))
  {
    SameTokensKeepAccounts(s, Missed(s, id, m).(handlers := handlers));
  }

  /** The steps that deal with a wrong code touch no token. */
  lemma WrongCodeKeepsAccounts(s: State, h: HandlerId, user: UserId, id: SessionId)
    requires AccountsOk(s)
    ensures AccountsOk(AdvanceApprove(s, h, ApproveWrong(user, id)))
  {
    if CountsWrongCode(s.sessions, id) && id in s.stories {
      var rows := RecordWrongCode(s.sessions, id);
      CountKeepsAccounts(s, h, rows, id, NoteWrongCode(s.stories[id], user, rows[id].status));
    } else {
      MissKeepsAccounts(s, id, TooLate(s, id), s.handlers - {h});
    }
  }

  lemma DecideKeepsAccounts(s: State, h: HandlerId, pc: Pc)
    requires AccountsOk(s) && pc.ApproveDecide?
    ensures AccountsOk(AdvanceApprove(s, h, pc))
  {
    if pc.row.expiresAt > s.now && ScannedBy(pc.row, pc.user) && pc.row.code != pc.submitted {
      var m := MissesOf(s, pc.id).(submitted := MissesOf(s, pc.id).submitted + 1);
      MissKeepsAccounts(s, pc.id, m, s.handlers[h := ApproveWrong(pc.user, pc.id)]);
    } else {
      ApproveMoves(s, h, pc);
      SameTokensKeepAccounts(s, AdvanceApprove(s, h, pc));
    }
  }

  lemma AdvanceKeepsAccounts(s: State, h: HandlerId)
    requires AccountsOk(s) && h in s.handlers
    ensures AccountsOk(AdvanceHandler(s, h))
  {
    var pc := s.handlers[h];
    if pc.PollCollect? {
      CollectKeepsAccounts(s, h, pc.id, pc.secret, pc.user);
    } else if pc.ApproveWrong? {
      WrongCodeKeepsAccounts(s, h, pc.user, pc.id);
    } else if pc.ApproveDecide? {
      DecideKeepsAccounts(s, h, pc);
    } else {
      HandlerMoves(s, h);
      SameTokensKeepAccounts(s, AdvanceHandler(s, h));
    }
  }

  lemma SetAccountKeepsAccounts(s: State, user: UserId, account: Option<Account>)
    requires AccountsOk(s)
    ensures AccountsOk(Step(s, SetAccount(user, account)))
  {
    var s' := Step(s, SetAccount(user, account));
    forall id | id in s'.stories ensures TokensAdmissible(s', s'.stories[id]) {
      assert TokensAdmissible(s, s.stories[id]);
    }
  }

  lemma StepKeepsAccounts(s: State, e: Event)
    requires AccountsOk(s)
    ensures AccountsOk(Step(s, e))
  {
    match e
    case Advance(h) => if h in s.handlers { AdvanceKeepsAccounts(s, h); }
    case SetAccount(user, account) => SetAccountKeepsAccounts(s, user, account);
    case _ => SameTokensKeepAccounts(s, Step(s, e));
  }

  /**
   * In every run a token is issued only for an account that was read as active, and as verified where that is
   * required.
   */
  lemma TokenAccountsAdmissible(s: State, events: seq<Event>, id: SessionId, i: nat)
    requires Initial(s) && id in Run(Step, s, events).stories && i < |Run(Step, s, events).stories[id].tokens|
    ensures var now := Run(Step, s, events);
            var token := now.stories[id].tokens[i];
            && (token.subject, token.account) in now.held && token.account.active
            && (now.requireVerifiedEmail ==> token.account.emailVerified)
  {
    forall t, e | AccountsOk(t) ensures AccountsOk(Step(t, e)) { StepKeepsAccounts(t, e); }
    Invariant(Step, AccountsOk, s, events);
    var now := Run(Step, s, events);
    assert TokensAdmissible(now, now.stories[id]);
  }

  predicate Extends(s: State, s': State, id: SessionId)
    requires id in s.stories
  {
    && id in s'.stories
    && s.stories[id].trail <= s'.stories[id].trail
    && s.stories[id].tokens <= s'.stories[id].tokens
  }

  lemma ScanExtendsTrail(s: State, h: HandlerId, pc: Pc, id: SessionId)
    requires id in s.stories
    ensures Extends(s, AdvanceScan(s, h, pc), id)
  {
  }

  lemma RejectExtendsTrail(s: State, h: HandlerId, pc: Pc, id: SessionId)
    requires id in s.stories
    ensures Extends(s, AdvanceReject(s, h, pc), id)
  {
  }

  lemma ApproveExtendsTrail(s: State, h: HandlerId, pc: Pc, id: SessionId)
    requires id in s.stories
    ensures Extends(s, AdvanceApprove(s, h, pc), id)
  {
  }

  lemma PollExtendsTrail(s: State, h: HandlerId, pc: Pc, id: SessionId)
    requires id in s.stories
    ensures Extends(s, AdvancePoll(s, h, pc), id)
  {
  }

  lemma StepExtendsTrail(s: State, e: Event, id: SessionId)
    requires id in s.stories
    ensures Extends(s, Step(s, e), id)
  {
    if e.Advance? && e.h in s.handlers {
      ScanExtendsTrail(s, e.h, s.handlers[e.h], id);
      RejectExtendsTrail(s, e.h, s.handlers[e.h], id);
      ApproveExtendsTrail(s, e.h, s.handlers[e.h], id);
      PollExtendsTrail(s, e.h, s.handlers[e.h], id);
    }
  }

  /** Histories are never rewritten: what an earlier state recorded is a prefix of what a later one does. */
  lemma TrailsOnlyGrow(s: State, before: seq<Event>, after: seq<Event>, id: SessionId)
    requires id in Run(Step, s, before).stories
    ensures Extends(Run(Step, s, before), Run(Step, s, before + after), id)
  {
    RunConcat(Step, s, before, after);
    var start := Run(Step, s, before);
    var inv := t => Extends(start, t, id);
    forall t, e | inv(t) ensures inv(Step(t, e)) { StepExtendsTrail(t, e, id); }
    Invariant(Step, inv, start, after);
  }

  lemma ReachesAfterFour(s: State, a: State, e: Event, h: HandlerId)
    requires Reaches(Step, s, a)
    ensures Reaches(Step, s, Step(Step(Step(Step(a, e), Advance(h)), Advance(h)), Advance(h)))
  {
    ReachesThen(Step, s, a, e);
    ReachesThen(Step, s, Step(a, e), Advance(h));
    ReachesThen(Step, s, Step(Step(a, e), Advance(h)), Advance(h));
    ReachesThen(Step, s, Step(Step(Step(a, e), Advance(h)), Advance(h)), Advance(h));
  }

  /** No request is in flight and the session is stored as `row`. */
  predicate Quiet(s: State, id: SessionId, row: Row) {
    && s.handlers == map[] && s.now < row.expiresAt
    && id in s.sessions && s.sessions[id] == row
    && id in s.stories && s.stories[id].tokens == []
  }

  function Scan(a: State, id: SessionId, user: UserId): State {
    Step(Step(Step(Step(a, Begin(0, ScanFind(user, id))), Advance(0)), Advance(0)), Advance(0))
  }

  function Approve(a: State, id: SessionId, user: UserId, submitted: Code): State {
    Step(Step(Step(Step(a, Begin(0, ApproveFind(user, id, submitted))), Advance(0)), Advance(0)), Advance(0))
  }

  function Poll(a: State, id: SessionId, secret: Hash): State {
    Step(Step(Step(Step(a, Begin(0, PollFind(id, Some(secret)))), Advance(0)), Advance(0)), Advance(0))
  }

  lemma ScanWorks(a: State, id: SessionId, row: Row, user: UserId)
    requires row.status == Pending && Quiet(a, id, row)
    ensures Quiet(Scan(a, id, user), id, row.(status := Scanned, user := Some(user)))
    ensures Scan(a, id, user).accounts == a.accounts
  {
    var b := Step(a, Begin(0, ScanFind(user, id)));
    var c := Step(b, Advance(0));
    assert c.handlers[0] == ScanDecide(user, id, row);
    var d := Step(c, Advance(0));
    assert d.handlers[0] == ScanWrite(user, id);
  }

  lemma ApproveWorks(a: State, id: SessionId, row: Row, user: UserId)
    requires ScannedBy(row, user) && Quiet(a, id, row)
    ensures Quiet(Approve(a, id, user, row.code), id, row.(status := Approved))
    ensures Approve(a, id, user, row.code).accounts == a.accounts
  {
    var b := Step(a, Begin(0, ApproveFind(user, id, row.code)));
    var c := Step(b, Advance(0));
    assert c.handlers[0] == ApproveDecide(user, id, row.code, row);
    var d := Step(c, Advance(0));
    assert d.handlers[0] == ApproveWrite(user, id, row.code);
  }

  /** From a quiet state a wrong code is counted, and the third one rejects the session. */
  lemma WrongCodeCounts(a: State, id: SessionId, row: Row, user: UserId, submitted: Code)
    requires ScannedBy(row, user) && Quiet(a, id, row) && submitted != row.code
    ensures Quiet(Approve(a, id, user, submitted), id,
                  row.(attempts := row.attempts + 1, status := if row.attempts + 1 >= 3 then Rejected else Scanned))
  {
    var b := Step(a, Begin(0, ApproveFind(user, id, submitted)));
    var c := Step(b, Advance(0));
    assert c.handlers[0] == ApproveDecide(user, id, submitted, row);
    var d := Step(c, Advance(0));
    assert d.handlers == map[0 := ApproveWrong(user, id)] && d.now == a.now;
    assert d.sessions == a.sessions && d.stories == a.stories;
    WrongCodeIsWritten(d, id, row, user);
  }

  lemma WrongCodeIsWritten(d: State, id: SessionId, row: Row, user: UserId)
    requires d.handlers == map[0 := ApproveWrong(user, id)] && d.now < row.expiresAt && row.status == Scanned
    requires id in d.sessions && d.sessions[id] == row && id in d.stories && d.stories[id].tokens == []
    ensures Quiet(Step(d, Advance(0)), id,
                  row.(attempts := row.attempts + 1, status := if row.attempts + 1 >= 3 then Rejected else Scanned))
  {
  }

  /** Three wrong codes in a row cancel a session that had none. */
  lemma ThreeWrongCodesCancel(a: State, id: SessionId, row: Row, user: UserId, x: Code, y: Code, z: Code)
    requires ScannedBy(row, user) && Quiet(a, id, row) && row.attempts == 0 && row.code !in {x, y, z}
    ensures Quiet(Approve(Approve(Approve(a, id, user, x), id, user, y), id, user, z), id,
                  row.(attempts := 3, status := Rejected))
  {
    WrongCodeCounts(a, id, row, user, x);
    var b := Approve(a, id, user, x);
    WrongCodeCounts(b, id, row.(attempts := 1), user, y);
    WrongCodeCounts(Approve(b, id, user, y), id, row.(attempts := 2), user, z);
  }

  function Reject(a: State, id: SessionId, user: UserId): State {
    Step(Step(Step(Step(a, Begin(0, RejectFind(user, id))), Advance(0)), Advance(0)), Advance(0))
  }

  lemma RejectWorks(a: State, id: SessionId, row: Row, user: UserId)
    requires ScannedBy(row, user) && Quiet(a, id, row)
    ensures Quiet(Reject(a, id, user), id, row.(status := Rejected))
  {
    var b := Step(a, Begin(0, RejectFind(user, id)));
    var c := Step(b, Advance(0));
    assert c.handlers[0] == RejectDecide(user, id, row);
    var d := Step(c, Advance(0));
    assert d.handlers[0] == RejectWrite(user, id);
  }

  /** Scanning again is answered as before; whoever else scans gets nothing. */
  lemma ScanAgainWorks(a: State, id: SessionId, row: Row, scanner: UserId, user: UserId)
    requires ScannedBy(row, scanner) && Quiet(a, id, row)
    ensures Quiet(Scan(a, id, user), id, row)
    ensures Scan(a, id, user).stories[id].scans == a.stories[id].scans + if user == scanner then {user} else {}
  {
    var b := Step(a, Begin(0, ScanFind(user, id)));
    var c := Step(b, Advance(0));
    assert c.handlers[0] == ScanDecide(user, id, row);
    var d := Step(c, Advance(0));
    assert d.handlers == map[];
    assert Step(d, Advance(0)) == d;
  }

  /** A scan that loses the race to another one by the same user is answered as if it had won; to anyone else, not. */
  lemma LostRaceIsReread(a: State, id: SessionId, row: Row, user: UserId)
    requires a.handlers == map[0 := ScanWrite(user, id)] && a.now < row.expiresAt && row.status != Pending
    requires id in a.sessions && a.sessions[id] == row && id in a.stories
    ensures var after := Step(Step(Step(a, Advance(0)), Advance(0)), Advance(0));
            && after.handlers == map[] && after.sessions == a.sessions && id in after.stories
            && after.stories[id].scans == a.stories[id].scans + if row.user == Some(user) then {user} else {}
  {
    var b := Step(a, Advance(0));
    assert b.handlers == map[0 := ScanFindAgain(user, id)];
    var c := Step(b, Advance(0));
    assert c.handlers == map[0 := ScanDecideAgain(user, id, row)];
  }

  lemma PollConsumes(a: State, id: SessionId, row: Row, user: UserId)
    requires row.status == Approved && row.user == Some(user) && Quiet(a, id, row)
    ensures var e := Poll(a, id, row.secretHash);
            && 0 in e.handlers && e.handlers[0] == PollCollect(id, Some(row.secretHash), user)
            && e.accounts == a.accounts && e.requireVerifiedEmail == a.requireVerifiedEmail
            && id in e.stories && e.stories[id].tokens == []
  {
    var b := Step(a, Begin(0, PollFind(id, Some(row.secretHash))));
    var c := Step(b, Advance(0));
    assert c.handlers[0] == PollDecide(id, Some(row.secretHash), row);
    var d := Step(c, Advance(0));
    assert d.handlers[0] == PollConsume(id, Some(row.secretHash));
  }

  lemma PollWorks(a: State, id: SessionId, row: Row, user: UserId)
    requires row.status == Approved && row.user == Some(user) && Quiet(a, id, row)
    requires user in a.accounts && a.accounts[user] == Account(true, true)
    ensures var b := Step(Poll(a, id, row.secretHash), Advance(0));
            id in b.stories && b.stories[id].tokens == [Token(user, Some(row.secretHash), a.accounts[user])]
  {
    PollConsumes(a, id, row, user);
  }

  /** The intended path is open: scan, approve with the right code, poll with the secret, and the token is issued. */
  lemma SignInWorks(s: State, id: SessionId, secretHash: Hash, code: Code, expiresAt: int, user: UserId)
    returns (last: State)
    requires Initial(s) && s.now < expiresAt
    requires user in s.accounts && s.accounts[user] == Account(true, true)
    ensures Reaches(Step, s, last)
    ensures id in last.stories && last.stories[id].tokens == [Token(user, Some(secretHash), Account(true, true))]
  {
    var row := Row(secretHash, code, Pending, None, 0, expiresAt);
    ReachesStart(Step, s);
    ReachesThen(Step, s, s, Create(id, secretHash, code, expiresAt));
    var created := Step(s, Create(id, secretHash, code, expiresAt));
    ScanWorks(created, id, row, user);
    ReachesAfterFour(s, created, Begin(0, ScanFind(user, id)), 0);
    var scanned := Scan(created, id, user);
    ApproveWorks(scanned, id, row.(status := Scanned, user := Some(user)), user);
    ReachesAfterFour(s, scanned, Begin(0, ApproveFind(user, id, code)), 0);
    var approved := Approve(scanned, id, user, code);
    PollWorks(approved, id, row.(status := Approved, user := Some(user)), user);
    ReachesAfterFour(s, approved, Begin(0, PollFind(id, Some(secretHash))), 0);
    last := Step(Poll(approved, id, secretHash), Advance(0));
    ReachesThen(Step, s, Poll(approved, id, secretHash), Advance(0));
  }

  /** Sessions can go and requests can be cut off at any point; neither undoes what has happened. */
  lemma LossesUndoNothing(s: State, ids: set<SessionId>, h: HandlerId)
    ensures Step(s, Delete(ids)).sessions == s.sessions - ids && Step(s, Delete(ids)).stories == s.stories
    ensures Step(s, Delete(ids)).handlers == s.handlers
    ensures h !in Step(s, Drop(h)).handlers && Step(s, Drop(h)).sessions == s.sessions
    ensures Step(s, Drop(h)).stories == s.stories
  {
  }
}
