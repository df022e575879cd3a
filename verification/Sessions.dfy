/**
 * Session tokens carry the `token_version` read at sign-in; a password change invalidates every earlier token at once.
 */
module Sessions {
  import opened Common
  import opened Runs

  type HandlerId = nat

  datatype Role = User | Admin

  datatype Row = Row(role: Role, active: bool, deleted: bool, version: nat)

  type Users = map<UserId, Row>

  /** `SessionVerifier::verify`: the account must be live and active and the version current; the role is read live. */
  function Verify(users: Users, user: UserId, version: nat): Option<Role> {
    if user in users && !users[user].deleted && users[user].active && users[user].version == version
    then Some(users[user].role) else None
  }

  /** `UPDATE ... SET token_version = token_version + 1 WHERE id = $1 AND deleted_at IS NULL` */
  function SetPassword(users: Users, user: UserId): Users {
    if user in users && !users[user].deleted
    then users[user := users[user].(version := users[user].version + 1)] else users
  }

  class CredentialsRepository {
    var users: Users

    constructor (users: Users)
      ensures this.users == users
    {
      this.users := users;
    }

    /** Every token that was accepted before stops being accepted; nobody else is affected. */
    method SetPasswordHash(user: UserId)
      modifies this
      ensures users == SetPassword(old(users), user)
      ensures forall v :: Verify(old(users), user, v).Some? ==> Verify(users, user, v).None?
      ensures forall u, v :: u != user ==> Verify(users, u, v) == Verify(old(users), u, v)
    {
      if user in users && !users[user].deleted {
        users := users[user := users[user].(version := users[user].version + 1)];
      }
    }
  }

  // ---- sign-ins, password changes and requests interleaved ---------------------------

  /** A user row a sign-in handler has read (by any method), and the step at which it read it. */
  datatype Read = Read(user: UserId, version: nat, at: nat)

  datatype State = State(
    step: nat, users: Users, lastChange: map<UserId, nat>, handlers: map<HandlerId, Read>, tokens: set<Read>)

  datatype Event =
    | Register(user: UserId, role: Role)
    | SetRow(user: UserId, role: Role, active: bool)
    | SoftDelete(user: UserId)
    | ChangePassword(user: UserId)
    | ReadUser(h: HandlerId, user: UserId)
    | IssueToken(h: HandlerId)

  function Changed(s: State, user: UserId): nat {
    if user in s.lastChange then s.lastChange[user] else 0
  }

  /** The effect of an event; the step counter moves on in `Step`. */
  function Effect(s: State, e: Event): State {
    match e
    case Register(user, role) => if user in s.users then s else s.(users := s.users[user := Row(role, true, false, 1)])
    case SetRow(user, role, active) =>
      if user in s.users && !s.users[user].deleted
      then s.(users := s.users[user := s.users[user].(role := role, active := active)]) else s
    case SoftDelete(user) =>
      if user in s.users then s.(users := s.users[user := s.users[user].(deleted := true, active := false)]) else s
    case ChangePassword(user) =>
      if user in s.users && !s.users[user].deleted
      then s.(users := SetPassword(s.users, user), lastChange := s.lastChange[user := s.step]) else s
    case ReadUser(h, user) =>
      if user in s.users && !s.users[user].deleted
      then s.(handlers := s.handlers[h := Read(user, s.users[user].version, s.step)]) else s
    case IssueToken(h) =>
      if h in s.handlers then s.(tokens := s.tokens + {s.handlers[h]}, handlers := s.handlers - {h}) else s
  }

  function Step(s: State, e: Event): State {
    Effect(s, e).(step := s.step + 1)
  }

  predicate Initial(s: State) {
    s.step == 1 && s.lastChange == map[] && s.handlers == map[] && s.tokens == {}
  }

  /** The version in a read is the current one exactly when the password has not changed since. */
  predicate ReadOk(s: State, r: Read) {
    && r.user in s.users && r.at < s.step && r.version <= s.users[r.user].version
    && (r.version == s.users[r.user].version <==> Changed(s, r.user) < r.at)
  }

  predicate Inv(s: State) {
    && s.step >= 1
    && (forall u :: u in s.lastChange ==> s.lastChange[u] < s.step)
    && (forall h :: h in s.handlers ==> ReadOk(s, s.handlers[h]))
    && (forall t :: t in s.tokens ==> ReadOk(s, t))
  }

  lemma ReadStaysOk(s: State, e: Event, r: Read)
    requires Inv(s) && ReadOk(s, r)
    ensures ReadOk(Step(s, e), r)
  {
  }

  lemma StepKeepsInv(s: State, e: Event)
    requires Inv(s)
    ensures Inv(Step(s, e))
  {
    var s' := Step(s, e);
    forall h | h in s'.handlers ensures ReadOk(s', s'.handlers[h]) {
      if h in s.handlers && s'.handlers[h] == s.handlers[h] { ReadStaysOk(s, e, s.handlers[h]); }
    }
    forall t | t in s'.tokens ensures ReadOk(s', t) {
      if t in s.tokens { ReadStaysOk(s, e, t); } else { ReadStaysOk(s, e, s.handlers[e.h]); }
    }
  }

  lemma RunKeepsInv(s: State, events: seq<Event>)
    requires Initial(s)
    ensures Inv(Run(Step, s, events))
  {
    forall t, e | Inv(t) ensures Inv(Step(t, e)) { StepKeepsInv(t, e); }
    Invariant(Step, Inv, s, events);
  }

  /**
   * In every interleaving a token is accepted exactly when its account is live and active and the row it was built from
   * was read after that account's last password change.
   */
  lemma AcceptedIffReadAfterLastChange(s: State, events: seq<Event>, t: Read)
    requires Initial(s) && t in Run(Step, s, events).tokens
    ensures var now := Run(Step, s, events);
            Verify(now.users, t.user, t.version).Some?
            <==> && t.user in now.users && !now.users[t.user].deleted && now.users[t.user].active
                 && Changed(now, t.user) < t.at
  {
    RunKeepsInv(s, events);
  }

  lemma StepSticks(s: State, e: Event, user: UserId)
    requires Inv(s)
    ensures Changed(s, user) <= Changed(Step(s, e), user) && s.tokens <= Step(s, e).tokens
  {
  }

  lemma ChangeSticks(s: State, before: seq<Event>, after: seq<Event>, user: UserId)
    requires Initial(s)
    ensures Changed(Run(Step, s, before), user) <= Changed(Run(Step, s, before + after), user)
    ensures Run(Step, s, before).tokens <= Run(Step, s, before + after).tokens
  {
    RunKeepsInv(s, before);
    RunConcat(Step, s, before, after);
    var start := Run(Step, s, before);
    var inv := t => Inv(t) && Changed(start, user) <= Changed(t, user) && start.tokens <= t.tokens;
    forall t, e | inv(t) ensures inv(Step(t, e)) {
      StepKeepsInv(t, e);
      StepSticks(t, e, user);
    }
    Invariant(Step, inv, start, after);
  }

  /** Once a password change commits, no token issued before it is ever accepted again. */
  lemma ChangeRevokesForGood(s: State, before: seq<Event>, after: seq<Event>, t: Read)
    requires Initial(s) && t in Run(Step, s, before).tokens
    requires t.user in Run(Step, s, before).users && !Run(Step, s, before).users[t.user].deleted
    ensures Verify(Run(Step, s, before + [ChangePassword(t.user)] + after).users, t.user, t.version).None?
  {
    var changed := before + [ChangePassword(t.user)];
    assert changed[..|changed| - 1] == before;
    RunKeepsInv(s, before);
    assert ReadOk(Run(Step, s, before), t);
    ChangeSticks(s, changed, after, t.user);
    AcceptedIffReadAfterLastChange(s, changed + after, t);
  }

  // ---- acceptance, told from the events alone ------------------------------------------

  datatype Facts = Facts(role: Role, active: bool, deleted: bool)

  /** What the events say about one account. */
  function FactsFrom(base: Users, events: seq<Event>, user: UserId): Option<Facts> {
    if events == [] then
      if user in base then Some(Facts(base[user].role, base[user].active, base[user].deleted)) else None
    else
      var before := FactsFrom(base, events[..|events| - 1], user);
      match events[|events| - 1]
      case Register(u, role) => if u == user && before.None? then Some(Facts(role, true, false)) else before
      case SetRow(u, role, active) =>
        if u == user && before.Some? && !before.value.deleted then Some(Facts(role, active, false)) else before
      case SoftDelete(u) => if u == user && before.Some? then Some(Facts(before.value.role, false, true)) else before
      case _ => before
  }

  function RowFacts(users: Users, user: UserId): Option<Facts> {
    if user in users then Some(Facts(users[user].role, users[user].active, users[user].deleted)) else None
  }

  lemma {:induction false} FactsAreRows(s: State, events: seq<Event>, user: UserId)
    ensures RowFacts(Run(Step, s, events).users, user) == FactsFrom(s.users, events, user)
  {
    if events == [] {
      assert Run(Step, s, events) == s;
    } else {
      FactsAreRows(s, events[..|events| - 1], user);
      FactsStep(Run(Step, s, events[..|events| - 1]), events[|events| - 1], user);
    }
  }

  lemma FactsStep(s: State, e: Event, user: UserId)
    ensures RowFacts(Step(s, e).users, user) ==
            match e
            case Register(u, role) =>
              if u == user && user !in s.users then Some(Facts(role, true, false)) else RowFacts(s.users, user)
            case SetRow(u, role, active) =>
              if u == user && user in s.users && !s.users[user].deleted then Some(Facts(role, active, false))
              else RowFacts(s.users, user)
            case SoftDelete(u) =>
              if u == user && user in s.users then Some(Facts(s.users[user].role, false, true))
              else RowFacts(s.users, user)
            case _ => RowFacts(s.users, user)
  {
  }

  /** The step that read the row is the event with that number, counting from 1. */
  predicate ReadAt(events: seq<Event>, r: Read) {
    1 <= r.at <= |events| && events[r.at - 1].ReadUser? && events[r.at - 1].user == r.user
  }

  lemma StepCounts(s: State, events: seq<Event>)
    requires Initial(s)
    ensures Run(Step, s, events).step == |events| + 1
    decreases |events|
  {
    if events != [] { StepCounts(s, events[..|events| - 1]); }
  }

  predicate Holds(s: State, r: Read) {
    r in s.tokens || r in s.handlers.Values
  }

  lemma NewReads(s: State, e: Event, r: Read)
    requires Holds(Step(s, e), r)
    ensures Holds(s, r) || (e.ReadUser? && e.user == r.user && r.at == s.step && Live(s, r.user))
  {
  }

  lemma {:induction false} ReadsAreEvents(s: State, events: seq<Event>, r: Read)
    requires Initial(s) && Holds(Run(Step, s, events), r)
    ensures ReadAt(events, r) && r.user in Run(Step, s, events[..r.at - 1]).users
  {
    if events == [] {
      assert false;
    } else {
      var shorter := events[..|events| - 1];
      StepCounts(s, shorter);
      NewReads(Run(Step, s, shorter), events[|events| - 1], r);
      if Holds(Run(Step, s, shorter), r) {
        ReadsAreEvents(s, shorter, r);
        assert events[r.at - 1] == shorter[r.at - 1] && shorter[..r.at - 1] == events[..r.at - 1];
      }
    }
  }

  lemma NewChange(s: State, e: Event, user: UserId)
    ensures Changed(Step(s, e), user) == Changed(s, user)
            || (e == ChangePassword(user) && Changed(Step(s, e), user) == s.step)
  {
  }

  lemma {:induction false} ChangesAreEvents(s: State, events: seq<Event>, user: UserId)
    requires Initial(s)
    ensures var c := Changed(Run(Step, s, events), user);
            c == 0 || (1 <= c <= |events| && events[c - 1] == ChangePassword(user))
  {
    if events == [] {
      assert Run(Step, s, events) == s;
    } else {
      var shorter := events[..|events| - 1];
      ChangesAreEvents(s, shorter, user);
      StepCounts(s, shorter);
      NewChange(Run(Step, s, shorter), events[|events| - 1], user);
      var c := Changed(Run(Step, s, shorter), user);
      if c != 0 { assert events[c - 1] == shorter[c - 1]; }
    }
  }

  predicate Live(s: State, user: UserId) {
    user in s.users && !s.users[user].deleted
  }

  lemma StepKeepsDeleted(s: State, e: Event, user: UserId)
    ensures user in s.users && Live(Step(s, e), user) ==> Live(s, user)
    ensures user in s.users ==> user in Step(s, e).users
  {
  }

  /** A change of a live account's password counts from then on. */
  lemma {:induction false} ChangeCounts(s: State, events: seq<Event>, user: UserId, i: nat)
    requires Initial(s) && i < |events| && events[i] == ChangePassword(user)
    requires user in Run(Step, s, events[..i]).users && Live(Run(Step, s, events), user)
    ensures Changed(Run(Step, s, events), user) > i
    decreases |events|
  {
    var n := |events| - 1;
    var before := Run(Step, s, events[..n]);
    StepCounts(s, events[..n]);
    RunKeepsInv(s, events[..n]);
    if i == n {
      StepKeepsDeleted(before, events[n], user);
    } else {
      assert events[..n][..i] == events[..i];
      StillThere(s, events[..n], user, i);
      StepKeepsDeleted(before, events[n], user);
      ChangeCounts(s, events[..n], user, i);
      StepSticks(before, events[n], user);
    }
  }

  lemma {:induction false} StillThere(s: State, events: seq<Event>, user: UserId, i: nat)
    requires i <= |events| && user in Run(Step, s, events[..i]).users
    ensures user in Run(Step, s, events).users
    decreases |events|
  {
    if i == |events| {
      assert events[..i] == events;
    } else {
      var n := |events| - 1;
      assert events[..n][..i] == events[..i];
      StillThere(s, events[..n], user, i);
      StepKeepsDeleted(Run(Step, s, events[..n]), events[n], user);
    }
  }

  /** Somebody whose row was read is there ever after. */
  lemma ReadersExist(s: State, events: seq<Event>, r: Read, i: nat)
    requires Initial(s) && Holds(Run(Step, s, events), r) && r.at <= i <= |events|
    ensures r.user in Run(Step, s, events[..i]).users
  {
    ReadsAreEvents(s, events, r);
    assert events[..i][..r.at - 1] == events[..r.at - 1];
    StillThere(s, events[..i], r.user, r.at - 1);
  }

  /**
   * Every answer to every token, from the events alone: accepted if and only if the account is live and active by the
   * last event about it and no event since the read changed its password; and then with the role that the last event
   * about the account gave it, so that a demotion shows on the next request.
   */
  lemma AnswerFromEvents(s: State, events: seq<Event>, t: Read)
    requires Initial(s) && t in Run(Step, s, events).tokens
    ensures var facts := FactsFrom(s.users, events, t.user);
            && facts.Some?
            && Verify(Run(Step, s, events).users, t.user, t.version) ==
               if && !facts.value.deleted && facts.value.active
                  && forall i :: t.at <= i < |events| ==> events[i] != ChangePassword(t.user)
               then Some(facts.value.role) else None
  {
    var now := Run(Step, s, events);
    RunKeepsInv(s, events);
    assert ReadOk(now, t);
    FactsAreRows(s, events, t.user);
    ReadsAreEvents(s, events, t);
    ChangesAreEvents(s, events, t.user);
    if Live(now, t.user) {
      forall i | t.at <= i < |events| && events[i] == ChangePassword(t.user)
        ensures Changed(now, t.user) > i
      {
        ReadersExist(s, events, t, i);
        ChangeCounts(s, events, t.user, i);
      }
      var c := Changed(now, t.user);
      if c >= t.at { assert c != t.at && events[c - 1] == ChangePassword(t.user); }
    }
  }

  /** A sign-in on a live account yields a token that carries what was read. */
  lemma SignInGivesToken(s: State, h: HandlerId, user: UserId)
    requires Live(s, user)
    ensures var after := Step(Step(s, ReadUser(h, user)), IssueToken(h));
            var token := Read(user, s.users[user].version, s.step);
            && token in after.tokens && after.users == s.users
            && (s.users[user].active ==> Verify(after.users, user, token.version) == Some(s.users[user].role))
  {
  }
}
