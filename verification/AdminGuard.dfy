/** "At least one active admin remains": advisory-lock transactions racing each other and unguarded ones. */
module AdminGuard {
  import opened Common
  import opened Runs

  type TxId = nat

  datatype Role = User | Admin

  datatype Row = Row(role: Role, active: bool, deleted: bool)

  type Users = map<UserId, Row>

  datatype Change =
    | Update(role: Option<Role>, active: Option<bool>)
    | SoftDelete

  predicate ActiveAdmin(row: Row) {
    row.role == Admin && row.active && !row.deleted
  }

  function ActiveAdmins(users: Users): set<UserId> {
    set id | id in users && ActiveAdmin(users[id])
  }

  /** `SELECT COUNT(*) ... AND id <> $1` */
  function Others(users: Users, target: UserId): set<UserId> {
    ActiveAdmins(users) - {target}
  }

  /** The `UPDATE ... WHERE id = $1 AND deleted_at IS NULL` of either transaction. */
  function Apply(users: Users, target: UserId, change: Change): Users {
    if target !in users || users[target].deleted then users else
      var row := users[target];
      users[target := match change
                      case Update(role, active) =>
                        row.(role := if role.Some? then role.value else row.role,
                             active := if active.Some? then active.value else row.active)
                      case SoftDelete => row.(deleted := true, active := false)]
  }

  /** `dto.role == Some(User) || dto.is_active == Some(false)` */
  predicate UpdateWantsGuard(role: Option<Role>, active: Option<bool>) {
    role == Some(User) || active == Some(false)
  }

  /** One administrator's request at a time: the whole transaction in one go. */
  class UsersRepository {
    var users: Users

    constructor (users: Users)
      ensures this.users == users
    {
      this.users := users;
    }

    /** `Err(CannotRemoveLastAdmin)` is `refused`; otherwise the change is applied. */
    method Change(target: UserId, change: Change, guardLastAdmin: bool) returns (refused: bool, changed: bool)
      modifies this
      ensures refused <==> guardLastAdmin && Others(old(users), target) == {}
      ensures users == if refused then old(users) else Apply(old(users), target, change)
      ensures changed <==> !refused && target in old(users) && !old(users)[target].deleted
    {
      refused, changed := false, false;
      if guardLastAdmin {
        var others := |Others(users, target)|;
        if others == 0 {
          refused := true;
          return;
        }
      }
      if target in users && !users[target].deleted {
        changed := true;
        if change.Update? {
          if change.role.Some? { users := users[target := users[target].(role := change.role.value)]; }
          if change.active.Some? { users := users[target := users[target].(active := change.active.value)]; }
        } else {
          users := users[target := users[target].(deleted := true, active := false)];
        }
      }
    }

    /**
     * The count says which guarded changes would be refused: all at zero, that of the only admin at one, none above.
     */
    method CountActiveAdmins() returns (n: nat)
      ensures n == |ActiveAdmins(users)|
      ensures forall target :: Others(users, target) == {} <==> n == 0 || (n == 1 && target in ActiveAdmins(users))
    {
      n := |ActiveAdmins(users)|;
      forall target ensures Others(users, target) == {} <==> n == 0 || (n == 1 && target in ActiveAdmins(users)) {
        var admins := ActiveAdmins(users);
        if target in admins {
          assert |admins| == |Others(users, target)| + 1;
        } else {
          assert Others(users, target) == admins;
        }
      }
    }
  }

  // ---- concurrent transactions -------------------------------------------------------

  datatype Phase = Begun | Locked | Counted | Written

  datatype Tx = Tx(actor: UserId, target: UserId, change: Change, guarded: bool, phase: Phase)

  /**
   * Writes become visible at commit; until then the row lock keeps other writers of that row waiting. `passed`
   * remembers the guarded transactions that were past their count when a delete with a stale flag committed.
   */
  datatype State = State(
    users: Users, txs: map<TxId, Tx>, lock: Option<TxId>, rowLocks: map<UserId, TxId>, passed: set<TxId>)

  datatype Event =
    | Create(id: UserId, row: Row)
    | BeginUpdate(tx: TxId, actor: UserId, target: UserId, role: Option<Role>, active: Option<bool>)
    | BeginDelete(tx: TxId, actor: UserId, target: UserId)
    | TakeLock(tx: TxId)
    | Count(tx: TxId)
    | Write(tx: TxId)
    | Commit(tx: TxId)
    | Abort(tx: TxId)

  /** The transaction ends: its advisory lock and row locks go with it. */
  function Close(s: State, tx: TxId): State {
    s.(txs := s.txs - {tx},
       lock := if s.lock == Some(tx) then None else s.lock,
       rowLocks := map id | id in s.rowLocks && s.rowLocks[id] != tx :: s.rowLocks[id],
       passed := s.passed - {tx})
  }

  function Advance(s: State, tx: TxId, phase: Phase): State
    requires tx in s.txs
  {
    s.(txs := s.txs[tx := s.txs[tx].(phase := phase)])
  }

  predicate ReadyToWrite(t: Tx) {
    (t.phase == Begun && !t.guarded) || t.phase == Counted
  }

  predicate IsLive(users: Users, id: UserId) {
    id in users && !users[id].deleted
  }

  /** `check_admin_update`: nobody demotes or deactivates themselves. */
  predicate MayUpdate(actor: UserId, target: UserId, role: Option<Role>, active: Option<bool>) {
    actor == target ==> !UpdateWantsGuard(role, active)
  }

  /** `check_delete`: nobody deletes themselves. */
  predicate MayDelete(actor: UserId, target: UserId) {
    actor != target
  }

  predicate WrittenBy(s: State, e: Event) {
    e.Commit? && e.tx in s.txs && s.txs[e.tx].phase == Written
  }

  /** An unguarded delete is about to commit on a row that has meanwhile become an active admin. */
  predicate StaleFlag(s: State, e: Event) {
    && WrittenBy(s, e) && s.txs[e.tx].change.SoftDelete? && !s.txs[e.tx].guarded
    && s.txs[e.tx].target in ActiveAdmins(s.users)
  }

  /** Guarded transactions that have found another admin and not ended yet. */
  function PastCount(s: State): set<TxId> {
    set tx | tx in s.txs && s.txs[tx].guarded && s.txs[tx].phase in {Counted, Written}
  }

  function Committed(s: State, tx: TxId): State
    requires tx in s.txs
  {
    Close(s.(users := Apply(s.users, s.txs[tx].target, s.txs[tx].change),
             passed := if StaleFlag(s, Commit(tx)) then s.passed + PastCount(s) else s.passed), tx)
  }

  function Step(s: State, e: Event): State {
    match e
    case Create(id, row) => if id in s.users then s else s.(users := s.users[id := row])
    case BeginUpdate(tx, actor, target, role, active) =>
      if tx in s.txs || !IsLive(s.users, target) || !MayUpdate(actor, target, role, active) then s
      else s.(txs := s.txs[tx := Tx(actor, target, Update(role, active), UpdateWantsGuard(role, active), Begun)])
    case BeginDelete(tx, actor, target) =>
      // The flag is read from the row before the transaction starts.
      if tx in s.txs || !IsLive(s.users, target) || !MayDelete(actor, target) then s
      else s.(txs := s.txs[tx := Tx(actor, target, SoftDelete, ActiveAdmin(s.users[target]), Begun)])
    case TakeLock(tx) =>
      if tx in s.txs && s.txs[tx].guarded && s.txs[tx].phase == Begun && s.lock == None
      then Advance(s, tx, Locked).(lock := Some(tx))
      else s
    case Count(tx) =>
      if tx in s.txs && s.txs[tx].phase == Locked
      then if Others(s.users, s.txs[tx].target) == {} then Close(s, tx) else Advance(s, tx, Counted)
      else s
    case Write(tx) =>
      if tx in s.txs && ReadyToWrite(s.txs[tx]) && s.txs[tx].target !in s.rowLocks
      then Advance(s, tx, Written).(rowLocks := s.rowLocks[s.txs[tx].target := tx])
      else s
    case Commit(tx) => if WrittenBy(s, e) then Committed(s, tx) else s
    case Abort(tx) => Close(s, tx)
  }

  predicate Initial(s: State) {
    s.txs == map[] && s.lock == None && s.rowLocks == map[] && s.passed == {} && ActiveAdmins(s.users) != {}
  }

  // ---- what every step keeps ---------------------------------------------------------

  /** Past its count a guarded transaction holds the lock, and still finds another admin unless it is in `passed`. */
  predicate TxOk(s: State, tx: TxId, t: Tx) {
    && (t.phase in {Locked, Counted} ==> t.guarded)
    && (t.guarded && t.phase != Begun ==> s.lock == Some(tx))
    && (t.guarded && t.phase in {Counted, Written} ==> Others(s.users, t.target) != {} || tx in s.passed)
    && (t.change.Update? ==> t.guarded == UpdateWantsGuard(t.change.role, t.change.active))
    && (t.actor == t.target ==> t.change.Update? && !t.guarded)
    && (t.phase == Written ==> t.target in s.rowLocks && s.rowLocks[t.target] == tx)
  }

  predicate Inv(s: State) {
    && (forall tx {:trigger TxOk(s, tx, s.txs[tx])} :: tx in s.txs ==> TxOk(s, tx, s.txs[tx]))
    && (forall tx :: tx in s.passed ==> tx in s.txs && s.txs[tx].guarded)
  }

  /** An unguarded change that is not a stale delete takes no admin away. */
  lemma HarmlessChange(users: Users, target: UserId, change: Change)
    requires change.Update? ==> !UpdateWantsGuard(change.role, change.active)
    requires change.SoftDelete? ==> target !in ActiveAdmins(users)
    ensures ActiveAdmins(users) <= ActiveAdmins(Apply(users, target, change))
  {
  }

  /** A guarded change, and any delete, leaves the target without the rights of an active admin, and nobody else. */
  lemma StrippingChange(users: Users, target: UserId, change: Change)
    requires change.Update? ==> UpdateWantsGuard(change.role, change.active)
    ensures ActiveAdmins(Apply(users, target, change)) == Others(users, target)
  {
  }

  lemma MoreAdminsKeepInv(s: State, s': State)
    requires Inv(s) && ActiveAdmins(s.users) <= ActiveAdmins(s'.users)
    requires forall tx :: tx in s'.txs ==> tx in s.txs && s'.txs[tx] == s.txs[tx]
    requires forall tx :: tx in s'.txs && s.lock == Some(tx) ==> s'.lock == Some(tx)
    requires forall u :: u in s.rowLocks && s.rowLocks[u] in s'.txs ==>
               u in s'.rowLocks && s'.rowLocks[u] == s.rowLocks[u]
    requires forall tx :: tx in s'.txs ==> (tx in s'.passed <==> tx in s.passed)
    requires s'.passed <= s'.txs.Keys
    ensures Inv(s')
  {
    forall tx | tx in s'.txs ensures TxOk(s', tx, s'.txs[tx]) {
      assert TxOk(s, tx, s.txs[tx]);
      assert Others(s.users, s.txs[tx].target) <= Others(s'.users, s.txs[tx].target);
    }
  }

  lemma CommitKeepsInv(s: State, tx: TxId)
    requires Inv(s) && WrittenBy(s, Commit(tx))
    ensures Inv(Committed(s, tx))
  {
    var t := s.txs[tx];
    var s' := Committed(s, tx);
    assert TxOk(s, tx, t);
    if !t.guarded && !StaleFlag(s, Commit(tx)) {
      HarmlessChange(s.users, t.target, t.change);
      MoreAdminsKeepInv(s, s');
    } else {
      forall u | u in s'.txs ensures TxOk(s', u, s'.txs[u]) {
        assert TxOk(s, u, s.txs[u]);
      }
    }
  }

  lemma LockStepKeepsInv(s: State, e: Event)
    requires Inv(s) && (e.TakeLock? || e.Count? || e.Write?)
    ensures Inv(Step(s, e))
  {
    var s' := Step(s, e);
    forall u | u in s'.txs ensures TxOk(s', u, s'.txs[u]) {
      assert u in s.txs && TxOk(s, u, s.txs[u]);
    }
  }

  lemma BeginKeepsInv(s: State, e: Event)
    requires Inv(s) && (e.BeginUpdate? || e.BeginDelete?)
    ensures Inv(Step(s, e))
  {
    var s' := Step(s, e);
    forall u | u in s'.txs ensures TxOk(s', u, s'.txs[u]) {
      if u in s.txs { assert TxOk(s, u, s.txs[u]); }
    }
  }

  lemma StepKeepsInv(s: State, e: Event)
    requires Inv(s)
    ensures Inv(Step(s, e))
  {
    match e
    case Create(id, row) =>
      assert ActiveAdmins(s.users) <= ActiveAdmins(Step(s, e).users);
      MoreAdminsKeepInv(s, Step(s, e));
    case BeginUpdate(_, _, _, _, _) => BeginKeepsInv(s, e);
    case BeginDelete(_, _, _) => BeginKeepsInv(s, e);
    case Commit(tx) => if WrittenBy(s, e) { CommitKeepsInv(s, tx); }
    case Abort(tx) => MoreAdminsKeepInv(s, Step(s, e));
    case _ => LockStepKeepsInv(s, e);
  }

  lemma RunKeepsInv(s: State, events: seq<Event>)
    requires Initial(s)
    ensures Inv(Run(Step, s, events))
  {
    forall t, e | Inv(t) ensures Inv(Step(t, e)) { StepKeepsInv(t, e); }
    Invariant(Step, Inv, s, events);
  }

  /** In every run at most one transaction at a time has written to a row. */
  lemma OneWriterPerRow(s: State, events: seq<Event>, a: TxId, b: TxId)
    requires Initial(s) && a in Run(Step, s, events).txs && b in Run(Step, s, events).txs
    requires var txs := Run(Step, s, events).txs;
             txs[a].phase == Written && txs[b].phase == Written && txs[a].target == txs[b].target
    ensures a == b
  {
    RunKeepsInv(s, events);
    var now := Run(Step, s, events);
    assert TxOk(now, a, now.txs[a]) && TxOk(now, b, now.txs[b]);
  }

  /** In every run nobody is deleted, demoted or deactivated at their own request. */
  lemma NobodyLocksThemselvesOut(s: State, events: seq<Event>, tx: TxId)
    requires Initial(s) && tx in Run(Step, s, events).txs
    ensures var t := Run(Step, s, events).txs[tx];
            t.actor == t.target ==> t.change.Update? && t.change.role != Some(User) && t.change.active != Some(false)
  {
    RunKeepsInv(s, events);
    var now := Run(Step, s, events);
    assert TxOk(now, tx, now.txs[tx]);
  }

  /** What a change does to a live row, field by field; a missing or deleted row and all other rows stay as they are. */
  lemma ChangeMeans(users: Users, target: UserId, change: Change)
    ensures var after := Apply(users, target, change);
            && after.Keys == users.Keys
            && (forall u :: u in users && (u != target || users[u].deleted) ==> after[u] == users[u])
            && (target in users && !users[target].deleted ==>
                  match change
                  case SoftDelete =>
                    after[target].deleted && !after[target].active && after[target].role == users[target].role
                  case Update(role, active) =>
                    && !after[target].deleted
                    && (role.Some? ==> after[target].role == role.value)
                    && (role == None ==> after[target].role == users[target].role)
                    && (active.Some? ==> after[target].active == active.value)
                    && (active == None ==> after[target].active == users[target].active))
  {
  }

  // ---- when the last admin is lost -----------------------------------------------------

  /**
   * A written transaction commits whose target is the only active admin, and its guard was read or passed too early.
   */
  predicate Loses(s: State, e: Event) {
    && WrittenBy(s, e) && ActiveAdmins(s.users) == {s.txs[e.tx].target}
    && (StaleFlag(s, e) || e.tx in s.passed)
  }

  lemma OthersKeepAdmins(s: State, e: Event)
    requires !e.Commit?
    ensures ActiveAdmins(s.users) <= ActiveAdmins(Step(s, e).users)
  {
  }

  lemma EmptiesIff(s: State, e: Event)
    requires Inv(s) && ActiveAdmins(s.users) != {}
    ensures ActiveAdmins(Step(s, e).users) == {} <==> Loses(s, e)
  {
    if WrittenBy(s, e) {
      var t := s.txs[e.tx];
      assert TxOk(s, e.tx, t);
      if t.guarded || StaleFlag(s, e) {
        StrippingChange(s.users, t.target, t.change);
      } else {
        HarmlessChange(s.users, t.target, t.change);
      }
    } else if !e.Commit? {
      OthersKeepAdmins(s, e);
    }
  }

  /**
   * In every interleaving that still has an active admin, the next event loses the last one if and only if it commits a
   * change of the only active admin by a delete whose flag has gone stale, or by a guarded transaction that had counted
   * before some delete with a stale flag committed.
   */
  lemma LastAdminLostIff(s: State, events: seq<Event>, e: Event)
    requires Initial(s) && ActiveAdmins(Run(Step, s, events).users) != {}
    ensures ActiveAdmins(Run(Step, s, events + [e]).users) == {} <==> Loses(Run(Step, s, events), e)
  {
    RunKeepsInv(s, events);
    RunThen(Step, s, events, e);
    EmptiesIff(Run(Step, s, events), e);
  }

  predicate FlagHolds(s: State, e: Event) {
    !StaleFlag(s, e)
  }

  predicate FlagsStayTrue(s: State, events: seq<Event>) {
    Allowed(Step, FlagHolds, s, events)
  }

  predicate Safe(s: State) {
    Inv(s) && s.passed == {} && ActiveAdmins(s.users) != {}
  }

  /**
   * In every interleaving of any number of updates and deletes, a table with an active admin keeps one, unless some
   * unguarded delete committed after its target had become an active admin.
   */
  lemma AdminAlwaysRemains(s: State, events: seq<Event>)
    requires Initial(s)
    ensures ActiveAdmins(Run(Step, s, events).users) != {} || !FlagsStayTrue(s, events)
  {
    if FlagsStayTrue(s, events) {
      forall t, e | Safe(t) && FlagHolds(t, e) ensures Safe(Step(t, e)) {
        StepKeepsInv(t, e);
        EmptiesIff(t, e);
      }
      InvariantWhile(Step, FlagHolds, Safe, s, events);
    }
  }

  // ---- both ways of losing it happen ---------------------------------------------------

  predicate AdminAndUser(s: State) {
    s == State(map[0 := Row(Admin, true, false), 1 := Row(User, true, false)], map[], None, map[], {})
  }

  lemma BeginBoth(s: State) returns (s': State)
    requires AdminAndUser(s)
    ensures Reaches(Step, s, s')
    ensures s' == s.(txs := map[7 := Tx(0, 1, SoftDelete, false, Begun),
                                8 := Tx(0, 1, Update(Some(Admin), None), false, Begun)])
  {
    ReachesStart(Step, s);
    ReachesThen(Step, s, s, BeginDelete(7, 0, 1));
    s' := Step(s, BeginDelete(7, 0, 1));
    ReachesThen(Step, s, s', BeginUpdate(8, 0, 1, Some(Admin), None));
    s' := Step(s', BeginUpdate(8, 0, 1, Some(Admin), None));
  }

  lemma PromoteWhileDeleting(s: State) returns (s': State)
    requires AdminAndUser(s)
    ensures Reaches(Step, s, s')
    ensures s'.users == map[0 := Row(Admin, true, false), 1 := Row(Admin, true, false)]
    ensures s'.txs == map[7 := Tx(0, 1, SoftDelete, false, Begun)] && s'.lock == None && s'.rowLocks == map[]
  {
    s' := BeginBoth(s);
    ReachesThen(Step, s, s', Write(8)); s' := Step(s', Write(8));
    ReachesThen(Step, s, s', Commit(8)); s' := Step(s', Commit(8));
  }

  /** User 1, an admin by now, starts a guarded delete of admin 0, which counts user 1 and passes. */
  lemma GuardPasses(s: State, a: State) returns (s': State)
    requires Reaches(Step, s, a)
    requires a.users == map[0 := Row(Admin, true, false), 1 := Row(Admin, true, false)]
    requires a.txs == map[7 := Tx(0, 1, SoftDelete, false, Begun)] && a.lock == None && a.rowLocks == map[]
    ensures Reaches(Step, s, s') && s'.users == a.users && s'.rowLocks == map[]
    ensures s'.txs == map[7 := Tx(0, 1, SoftDelete, false, Begun), 9 := Tx(1, 0, SoftDelete, true, Counted)]
  {
    assert 1 in Others(a.users, 0);
    s' := a;
    ReachesThen(Step, s, s', BeginDelete(9, 1, 0)); s' := Step(s', BeginDelete(9, 1, 0));
    ReachesThen(Step, s, s', TakeLock(9)); s' := Step(s', TakeLock(9));
    ReachesThen(Step, s, s', Count(9)); s' := Step(s', Count(9));
  }

  lemma GuardedDeleteOfTheOther(s: State, a: State) returns (s': State)
    requires Reaches(Step, s, a)
    requires a.users == map[0 := Row(Admin, true, false), 1 := Row(Admin, true, false)] && a.rowLocks == map[]
    requires a.txs == map[7 := Tx(0, 1, SoftDelete, false, Begun), 9 := Tx(1, 0, SoftDelete, true, Counted)]
    ensures Reaches(Step, s, s')
    ensures s'.users == map[0 := Row(Admin, false, true), 1 := Row(Admin, true, false)]
    ensures s'.txs == map[7 := Tx(0, 1, SoftDelete, false, Begun)] && s'.rowLocks == map[]
  {
    s' := a;
    ReachesThen(Step, s, s', Write(9)); s' := Step(s', Write(9));
    ReachesThen(Step, s, s', Commit(9)); s' := Step(s', Commit(9));
  }

  lemma StaleDeleteOfTheOther(s: State, a: State) returns (s': State)
    requires Reaches(Step, s, a)
    requires a.users == map[0 := Row(Admin, true, false), 1 := Row(Admin, true, false)] && a.rowLocks == map[]
    requires a.txs == map[7 := Tx(0, 1, SoftDelete, false, Begun), 9 := Tx(1, 0, SoftDelete, true, Counted)]
    ensures Reaches(Step, s, s')
    ensures s'.users == map[0 := Row(Admin, true, false), 1 := Row(Admin, false, true)]
    ensures s'.txs == map[9 := Tx(1, 0, SoftDelete, true, Counted)] && s'.rowLocks == map[]
  {
    s' := a;
    ReachesThen(Step, s, s', Write(7)); s' := Step(s', Write(7));
    ReachesThen(Step, s, s', Commit(7)); s' := Step(s', Commit(7));
  }

  /**
   * The first way: admin 0 asks to delete user 1, read as a plain user, and then promotes user 1. User 1, now an admin,
   * deletes admin 0 under the guard, which counts user 1. Then the unguarded delete of user 1 commits.
   */
  lemma StaleDeleteLosesLastAdmin() returns (s: State, s': State, e: Event)
    ensures Initial(s) && Reaches(Step, s, s') && ActiveAdmins(s'.users) != {}
    ensures StaleFlag(s', e) && ActiveAdmins(Step(s', e).users) == {}
  {
    s := State(map[0 := Row(Admin, true, false), 1 := Row(User, true, false)], map[], None, map[], {});
    assert 0 in ActiveAdmins(s.users);
    s' := PromoteWhileDeleting(s);
    s' := GuardPasses(s, s');
    s' := GuardedDeleteOfTheOther(s, s');
    ReachesThen(Step, s, s', Write(7)); s' := Step(s', Write(7));
    e := Commit(7);
    assert 1 in ActiveAdmins(s'.users);
  }

  /** The second way: the same, but the stale delete commits first, after the guarded one has counted user 1. */
  lemma GuardedDeleteLosesLastAdmin() returns (s: State, s': State, e: Event)
    ensures Initial(s) && Reaches(Step, s, s') && ActiveAdmins(s'.users) != {}
    ensures WrittenBy(s', e) && s'.txs[e.tx].guarded && ActiveAdmins(Step(s', e).users) == {}
  {
    s := State(map[0 := Row(Admin, true, false), 1 := Row(User, true, false)], map[], None, map[], {});
    assert 0 in ActiveAdmins(s.users);
    s' := PromoteWhileDeleting(s);
    s' := GuardPasses(s, s');
    s' := StaleDeleteOfTheOther(s, s');
    OnlyAdminIsDeleted(s');
    ReachesThen(Step, s, s', Write(9)); s' := Step(s', Write(9));
    e := Commit(9);
  }

  lemma OnlyAdminIsDeleted(a: State)
    requires a.users == map[0 := Row(Admin, true, false), 1 := Row(Admin, false, true)] && a.rowLocks == map[]
    requires a.txs == map[9 := Tx(1, 0, SoftDelete, true, Counted)]
    ensures var b := Step(a, Write(9));
            && 0 in ActiveAdmins(b.users) && WrittenBy(b, Commit(9)) && b.txs[9].guarded
            && ActiveAdmins(Step(b, Commit(9)).users) == {}
  {
  }

  /** A transaction that is rolled back gives up its locks and changes no row; a new user is added as given. */
  lemma AbortReleases(s: State, tx: TxId, id: UserId, row: Row)
    ensures var aborted := Step(s, Abort(tx));
            && aborted.users == s.users && tx !in aborted.txs && aborted.lock != Some(tx)
            && (forall u :: u in aborted.rowLocks ==> aborted.rowLocks[u] != tx)
            && (forall u :: u in s.rowLocks && s.rowLocks[u] != tx ==> u in aborted.rowLocks)
    ensures id !in s.users ==> Step(s, Create(id, row)).users == s.users[id := row]
  {
  }
}
