/** Password sign-in with a failed-attempt counter and a lockout. */
module LoginLockout {
  import opened Common
  import opened Quotients
  import opened Runs

  datatype Config = Config(maxAttempts: int, lockout: int, requireVerifiedEmail: bool)

  /** `failed_login_attempts` and `locked_until`. */
  datatype Counter = Counter(failed: nat, lockedUntil: Option<int>)

  datatype Account = Account(active: bool, emailVerified: bool, totpEnabled: bool)

  datatype Outcome = InvalidCredentials | AccountDisabled | EmailNotVerified | TwoFactorRequired | Authenticated

  function RecordFailed(cfg: Config, c: Counter, now: int): Counter {
    Counter(c.failed + 1, if c.failed + 1 >= cfg.maxAttempts then Some(now + cfg.lockout) else c.lockedUntil)
  }

  const FRESH: Counter := Counter(0, None)

  predicate Locked(c: Counter, now: int) {
    c.lockedUntil.Some? && c.lockedUntil.value > now
  }

  /** A failure that reaches the limit locks the account for exactly the lockout; an earlier one keeps the lock. */
  lemma LockLasts(cfg: Config, c: Counter, now: int, at: int)
    ensures Locked(RecordFailed(cfg, c, now), at)
            <==> if c.failed + 1 >= cfg.maxAttempts then at < now + cfg.lockout else Locked(c, at)
  {
  }

  /** What a correct password leads to. */
  function Admit(cfg: Config, account: Account): Outcome {
    if !account.active then AccountDisabled
    else if cfg.requireVerifiedEmail && !account.emailVerified then EmailNotVerified
    else if account.totpEnabled then TwoFactorRequired
    else Authenticated
  }

  /** Which account gets which answer, `matched` saying that the password was compared and right. */
  predicate Answers(cfg: Config, account: Account, matched: bool, outcome: Outcome) {
    var trusted := cfg.requireVerifiedEmail ==> account.emailVerified;
    && (outcome == InvalidCredentials <==> !matched)
    && (outcome == AccountDisabled <==> matched && !account.active)
    && (outcome == EmailNotVerified <==> matched && account.active && !trusted)
    && (outcome == TwoFactorRequired <==> matched && account.active && trusted && account.totpEnabled)
    && (outcome == Authenticated <==> matched && account.active && trusted && !account.totpEnabled)
  }

  /** The counter after a login that nothing interrupts. */
  function AfterLogin(cfg: Config, c: Counter, matches: bool, checkedAt: int, writtenAt: int): Counter {
    if Locked(c, checkedAt) then c else if matches then FRESH else RecordFailed(cfg, c, writtenAt)
  }

  /** One account, one login at a time. */
  class SessionService {
    const cfg: Config
    var counter: Counter
    var account: Account

    constructor (cfg: Config, account: Account)
      ensures this.cfg == cfg && this.account == account && counter == FRESH
    {
      this.cfg, this.account, counter := cfg, account, Counter(0, None);
    }

    /** `checkedAt` is the reading against the lock, `writtenAt` the later one in the counter update. */
    method Login(passwordMatches: bool, checkedAt: int, writtenAt: int) returns (outcome: Outcome, compared: bool)
      modifies this`counter
      ensures compared == !Locked(old(counter), checkedAt)
      ensures Answers(cfg, account, compared && passwordMatches, outcome)
      ensures counter == AfterLogin(cfg, old(counter), passwordMatches, checkedAt, writtenAt)
    {
      compared := false;
      if counter.lockedUntil.Some? && counter.lockedUntil.value > checkedAt {
        outcome := InvalidCredentials;
        return;
      }
      compared := true;
      if !passwordMatches {
        counter := counter.(failed := counter.failed + 1);
        if counter.failed >= cfg.maxAttempts { counter := counter.(lockedUntil := Some(writtenAt + cfg.lockout)); }
        outcome := InvalidCredentials;
        return;
      }
      counter := Counter(0, None);
      if !account.active { outcome := AccountDisabled; return; }
      if cfg.requireVerifiedEmail && !account.emailVerified { outcome := EmailNotVerified; return; }
      outcome := if account.totpEnabled then TwoFactorRequired else Authenticated;
    }
  }

  // ---- logins in flight --------------------------------------------------------------

  type HandlerId = nat

  /**
   * A login that has read the row, or found it unlocked, or compared the password and will write. `seen` is the number
   * of entries the log had when the row was read.
   */
  datatype Pc =
    | Loaded(until: Option<int>, seen: nat)
    | Unlocked(seen: nat)
    | Wrong(seen: nat)
    | Right(seen: nat)

  datatype Entry = Failure(at: int) | Reset

  /** What a login was answered, and the account as it had read it. */
  datatype Answer = Answer(account: Account, matched: bool, outcome: Outcome)

  /**
   * `rows` holds the account as each login read it. `log` is what was ever written, `lost` counts logins dropped
   * between a wrong comparison and their write, `answers` are those given and `held` is every state the account was
   * in.
   */
  datatype State = State(
    now: int, counter: Counter, account: Account, handlers: map<HandlerId, Pc>, rows: map<HandlerId, Account>,
    compared: nat, log: seq<Entry>, lost: nat, answers: seq<Answer>, held: set<Account>)

  datatype Event =
    | Tick(elapsed: nat)
    | Read(h: HandlerId)
    | Check(h: HandlerId)
    | Compare(h: HandlerId, matches: bool)
    | Write(h: HandlerId)
    | Drop(h: HandlerId)
    | SetAccount(account: Account)

  function Reply(s: State, h: HandlerId, matched: bool, outcome: Outcome): seq<Answer> {
    if h in s.rows then s.answers + [Answer(s.rows[h], matched, outcome)] else s.answers
  }

  function Checked(s: State, h: HandlerId, pc: Pc): State
    requires pc.Loaded?
  {
    if pc.until.Some? && pc.until.value > s.now
    then s.(handlers := s.handlers - {h}, answers := Reply(s, h, false, InvalidCredentials))
    else s.(handlers := s.handlers[h := Unlocked(pc.seen)])
  }

  function Compared(s: State, h: HandlerId, seen: nat, matches: bool): State {
    s.(handlers := s.handlers[h := if matches then Right(seen) else Wrong(seen)], compared := s.compared + 1)
  }

  function Recorded(cfg: Config, s: State, h: HandlerId): State {
    s.(counter := RecordFailed(cfg, s.counter, s.now), handlers := s.handlers - {h}, log := s.log + [Failure(s.now)],
       answers := Reply(s, h, false, InvalidCredentials))
  }

  function Admitted(cfg: Config, s: State, h: HandlerId): State {
    s.(counter := FRESH, handlers := s.handlers - {h}, log := s.log + [Reset],
       answers := if h in s.rows then Reply(s, h, true, Admit(cfg, s.rows[h])) else s.answers)
  }

  function Step(cfg: Config, s: State, e: Event): State {
    match e
    case Tick(elapsed) => s.(now := s.now + elapsed)
    case Read(h) =>
      if h in s.handlers then s
      else s.(handlers := s.handlers[h := Loaded(s.counter.lockedUntil, |s.log|)], rows := s.rows[h := s.account])
    case Check(h) => if h in s.handlers && s.handlers[h].Loaded? then Checked(s, h, s.handlers[h]) else s
    case Compare(h, matches) =>
      if h in s.handlers && s.handlers[h].Unlocked? then Compared(s, h, s.handlers[h].seen, matches) else s
    case Write(h) =>
      if h in s.handlers && s.handlers[h].Wrong? then Recorded(cfg, s, h)
      else if h in s.handlers && s.handlers[h].Right? then Admitted(cfg, s, h)
      else s
    case Drop(h) =>
      s.(handlers := s.handlers - {h}, lost := s.lost + if h in s.handlers && s.handlers[h].Wrong? then 1 else 0)
    case SetAccount(account) => s.(account := account, held := s.held + {account})
  }

  function Steps(cfg: Config): (State, Event) -> State {
    (s, e) => Step(cfg, s, e)
  }

  predicate Initial(s: State) {
    && s.counter == FRESH && s.handlers == map[] && s.rows == map[] && s.compared == 0 && s.log == [] && s.lost == 0
    && s.answers == [] && s.held == {s.account}
  }

  function FailuresSinceReset(log: seq<Entry>): nat {
    if log == [] || log[|log| - 1] == Reset then 0 else 1 + FailuresSinceReset(log[..|log| - 1])
  }

  /** The lock in force: that of the last failure, if enough were counted by then. */
  function LockFrom(cfg: Config, log: seq<Entry>): Option<int> {
    if FailuresSinceReset(log) >= cfg.maxAttempts && log != [] && log[|log| - 1].Failure?
    then Some(log[|log| - 1].at + cfg.lockout) else None
  }

  function Replay(cfg: Config, log: seq<Entry>): Counter {
    Counter(FailuresSinceReset(log), LockFrom(cfg, log))
  }

  lemma ReplayFailure(cfg: Config, log: seq<Entry>, at: int)
    requires cfg.maxAttempts >= 1
    ensures Replay(cfg, log + [Failure(at)]) == RecordFailed(cfg, Replay(cfg, log), at)
  {
    assert (log + [Failure(at)])[..|log + [Failure(at)]| - 1] == log;
  }

  /** Under any interleaving the counter is the number of failures since the last reset and the lock follows from it. */
  lemma CounterCountsFailures(cfg: Config, s: State, events: seq<Event>)
    requires Initial(s) && cfg.maxAttempts >= 1
    ensures Run(Steps(cfg), s, events).counter == Replay(cfg, Run(Steps(cfg), s, events).log)
  {
    var inv := (t: State) => t.counter == Replay(cfg, t.log);
    forall t, e | inv(t) ensures inv(Step(cfg, t, e)) { ReplayFailure(cfg, t.log, t.now); }
    Invariant(Steps(cfg), inv, s, events);
  }

  /** A login on its own up to the check of the lock, and from there on. */
  function ReadAndCheck(cfg: Config, s: State, h: HandlerId, a: nat): State {
    Step(cfg, Step(cfg, Step(cfg, s, Read(h)), Tick(a)), Check(h))
  }

  function CompareAndWrite(cfg: Config, s: State, h: HandlerId, matches: bool, b: nat): State {
    Step(cfg, Step(cfg, Step(cfg, s, Tick(b)), Compare(h, matches)), Write(h))
  }

  lemma ChecksAlone(cfg: Config, s: State, h: HandlerId, a: nat)
    requires h !in s.handlers
    ensures ReadAndCheck(cfg, s, h, a) ==
            var read := s.(now := s.now + a, rows := s.rows[h := s.account]);
            if Locked(s.counter, s.now + a)
            then read.(answers := s.answers + [Answer(s.account, false, InvalidCredentials)])
            else read.(handlers := s.handlers[h := Unlocked(|s.log|)])
  {
    assert s.handlers[h := Loaded(s.counter.lockedUntil, |s.log|)] - {h} == s.handlers;
  }

  lemma RefusedAlone(cfg: Config, mid: State, h: HandlerId, matches: bool, b: nat)
    requires h !in mid.handlers
    ensures CompareAndWrite(cfg, mid, h, matches, b) == mid.(now := mid.now + b)
  {
  }

  lemma MeetsPassword(cfg: Config, mid: State, h: HandlerId, matches: bool, b: nat, others: map<HandlerId, Pc>)
    requires h !in others && mid.handlers == others[h := Unlocked(|mid.log|)]
    ensures Step(cfg, Step(cfg, mid, Tick(b)), Compare(h, matches))
            == mid.(now := mid.now + b, compared := mid.compared + 1,
                    handlers := others[h := if matches then Right(|mid.log|) else Wrong(|mid.log|)])
  {
    var pc := if matches then Right(|mid.log|) else Wrong(|mid.log|);
    assert mid.handlers[h := pc] == others[h := pc];
  }

  lemma ComparesAlone(cfg: Config, mid: State, h: HandlerId, matches: bool, b: nat, others: map<HandlerId, Pc>)
    requires h !in others && mid.handlers == others[h := Unlocked(|mid.log|)] && h in mid.rows
    ensures var after := CompareAndWrite(cfg, mid, h, matches, b);
            && after.counter == (if matches then FRESH else RecordFailed(cfg, mid.counter, mid.now + b))
            && after.compared == mid.compared + 1 && after.handlers == others
            && after.answers == mid.answers
               + [Answer(mid.rows[h], matches, if matches then Admit(cfg, mid.rows[h]) else InvalidCredentials)]
  {
    MeetsPassword(cfg, mid, h, matches, b, others);
    WritesAlone(cfg, Step(cfg, Step(cfg, mid, Tick(b)), Compare(h, matches)), h, matches, |mid.log|, others);
  }

  lemma WritesAlone(cfg: Config, s: State, h: HandlerId, matches: bool, seen: nat, others: map<HandlerId, Pc>)
    requires h !in others && s.handlers == others[h := if matches then Right(seen) else Wrong(seen)] && h in s.rows
    ensures var after := Step(cfg, s, Write(h));
            && after.counter == (if matches then FRESH else RecordFailed(cfg, s.counter, s.now))
            && after.compared == s.compared && after.handlers == others
            && after.answers == s.answers
               + [Answer(s.rows[h], matches, if matches then Admit(cfg, s.rows[h]) else InvalidCredentials)]
  {
    assert s.handlers - {h} == others;
  }

  /**
   * A login that no other one overlaps rows the row, checks the lock, compares and writes, each at its own time, and
   * `SessionService.Login` says what it does and what it answers.
   */
  lemma SoloLogin(cfg: Config, s: State, h: HandlerId, matches: bool, a: nat, b: nat)
    requires h !in s.handlers
    ensures var after := CompareAndWrite(cfg, ReadAndCheck(cfg, s, h, a), h, matches, b);
            var compared := !Locked(s.counter, s.now + a);
            && after.counter == AfterLogin(cfg, s.counter, matches, s.now + a, s.now + a + b)
            && after.compared == s.compared + (if compared then 1 else 0)
            && after.handlers == s.handlers
            && after.answers == s.answers
               + [Answer(s.account, compared && matches,
                         if compared && matches then Admit(cfg, s.account) else InvalidCredentials)]
  {
    ChecksAlone(cfg, s, h, a);
    var mid := ReadAndCheck(cfg, s, h, a);
    if Locked(s.counter, s.now + a) {
      RefusedAlone(cfg, mid, h, matches, b);
    } else {
      ComparesAlone(cfg, mid, h, matches, b, s.handlers);
    }
  }

  /** What a right password leads to, case by case. */
  lemma AdmitFits(cfg: Config, account: Account)
    ensures Answers(cfg, account, true, Admit(cfg, account)) && Answers(cfg, account, false, InvalidCredentials)
  {
  }

  predicate AnswerOk(cfg: Config, held: set<Account>, a: Answer) {
    a.account in held && Answers(cfg, a.account, a.matched, a.outcome)
  }

  predicate AnswersOk(cfg: Config, s: State) {
    && s.account in s.held
    && (forall h :: h in s.rows ==> s.rows[h] in s.held)
    && (forall i :: 0 <= i < |s.answers| ==> AnswerOk(cfg, s.held, s.answers[i]))
  }

  lemma StepKeepsAnswers(cfg: Config, s: State, e: Event)
    requires AnswersOk(cfg, s)
    ensures AnswersOk(cfg, Step(cfg, s, e))
  {
  }

  /**
   * Whatever overlaps: every answer ever given fits an account as it really was when read. So no password alone signs
   * in an account that had two-factor authentication on, was disabled, or lacked a verified email where one is
   * required.
   */
  lemma EveryAnswerFits(cfg: Config, s: State, events: seq<Event>, i: nat)
    requires Initial(s) && i < |Run(Steps(cfg), s, events).answers|
    ensures var end := Run(Steps(cfg), s, events);
            var a := end.answers[i];
            a.account in end.held && Answers(cfg, a.account, a.matched, a.outcome)
  {
    var inv := t => AnswersOk(cfg, t);
    forall t, e | inv(t) ensures inv(Steps(cfg)(t, e)) { StepKeepsAnswers(cfg, t, e); }
    Invariant(Steps(cfg), inv, s, events);
    var end := Run(Steps(cfg), s, events);
    assert AnswerOk(cfg, end.held, end.answers[i]);
  }

  // ---- wrong passwords with at most k logins in flight ---------------------------------

  /** Nobody knows the password; the event leaves at most `k` logins in flight and at most `l` lost. */
  function Guessing(cfg: Config, k: nat, l: nat): (State, Event) -> bool {
    (s, e) => |Step(cfg, s, e).handlers| <= k && Step(cfg, s, e).lost <= l && (e.Compare? ==> !e.matches)
  }

  /** Logins that compared a wrong password and have not recorded it yet. */
  function Unrecorded(s: State): set<HandlerId> {
    set h | h in s.handlers && s.handlers[h].Wrong?
  }

  /** Logins in flight that read the row before failure number `t` was recorded. */
  function Old(s: State, t: nat): set<HandlerId> {
    set h | h in s.handlers && s.handlers[h].seen < t
  }

  /** When failure number `j` was recorded, counting from 1. */
  function TimeOf(log: seq<Entry>, j: nat): int {
    if 1 <= j <= |log| && log[j - 1].Failure? then log[j - 1].at else 0
  }

  /** Whole lockouts between two moments. */
  function Lockouts(cfg: Config, from: int, to: int): int
    requires cfg.lockout > 0
  {
    (to - from) / cfg.lockout
  }

  /** What `k` logins in flight can compare if `w` lockouts pass. */
  function Cap(cfg: Config, k: nat, w: int): int {
    cfg.maxAttempts + k - 1 + k * w
  }

  lemma CapGrows(cfg: Config, k: nat, v: int, w: int)
    ensures v <= w ==> Cap(cfg, k, v) <= Cap(cfg, k, w)
    ensures Cap(cfg, k, v + 1) == Cap(cfg, k, v) + k
    ensures Cap(cfg, k, 0) == cfg.maxAttempts + k - 1
  {
    if v <= w { MulMonotone(k, v, w); }
    assert k * (v + 1) == k * v + k;
  }

  lemma LockoutsGrow(cfg: Config, from: int, a: int, b: int)
    requires cfg.lockout > 0
    ensures a <= b ==> Lockouts(cfg, from, a) <= Lockouts(cfg, from, b)
    ensures Lockouts(cfg, from, a + cfg.lockout) == Lockouts(cfg, from, a) + 1
    ensures Lockouts(cfg, from, from) == 0
  {
    if a <= b { DivMonotone(a - from, b - from, cfg.lockout); }
    DivShift(a + cfg.lockout - from, cfg.lockout);
    DivUnique(0, cfg.lockout, 0, 0);
  }

  function CapAt(cfg: Config, k: nat, start: int, now: int): int
    requires cfg.lockout > 0
  {
    Cap(cfg, k, Lockouts(cfg, start, now))
  }

  lemma CapAtGrows(cfg: Config, k: nat, start: int, a: int, b: int)
    requires cfg.lockout > 0
    ensures a <= b ==> CapAt(cfg, k, start, a) <= CapAt(cfg, k, start, b)
    ensures a + cfg.lockout <= b ==> CapAt(cfg, k, start, a) + k <= CapAt(cfg, k, start, b)
    ensures CapAt(cfg, k, start, start) == cfg.maxAttempts + k - 1
  {
    var v, w := Lockouts(cfg, start, a), Lockouts(cfg, start, b);
    LockoutsGrow(cfg, start, a, b);
    LockoutsGrow(cfg, start, a + cfg.lockout, b);
    CapGrows(cfg, k, v, w);
    CapGrows(cfg, k, v + 1, w);
  }

  /** Failures only, in order, none before the start, and each within the bound of its own time. */
  predicate LogOk(cfg: Config, k: nat, start: int, log: seq<Entry>, now: int)
    requires cfg.lockout > 0
  {
    && (forall i :: 0 <= i < |log| ==> log[i].Failure? && start <= log[i].at <= now)
    && (forall i, j :: 0 <= i < j < |log| ==> log[i].at <= log[j].at)
    && (forall j: nat {:trigger TimeOf(log, j)} :: 1 <= j <= |log| ==> j <= CapAt(cfg, k, start, TimeOf(log, j)))
  }

  function LockAfter(cfg: Config, log: seq<Entry>, n: nat): Option<int> {
    if n >= cfg.maxAttempts then Some(TimeOf(log, n) + cfg.lockout) else None
  }

  /** What a login read was the lock at that time; once past the check, that lock has run out. */
  predicate PcOk(cfg: Config, log: seq<Entry>, now: int, pc: Pc) {
    && pc.seen <= |log| && !pc.Right?
    && (pc.Loaded? ==> pc.until == LockAfter(cfg, log, pc.seen))
    && (!pc.Loaded? && pc.seen >= cfg.maxAttempts ==> TimeOf(log, pc.seen) + cfg.lockout <= now)
  }

  /** Until failure `t` is a lockout ago, the failures after it come from logins that had read the row before it. */
  predicate SpreadOk(cfg: Config, k: nat, s: State, t: nat) {
    TimeOf(s.log, t) + cfg.lockout <= s.now || |s.log| - t + |Old(s, t)| <= k - 1
  }

  predicate Bounded(cfg: Config, k: nat, start: int, s: State)
    requires cfg.lockout > 0
  {
    && start <= s.now && |s.handlers| <= k
    && s.compared == |s.log| + |Unrecorded(s)| + s.lost
    && s.counter == Counter(|s.log|, LockAfter(cfg, s.log, |s.log|))
    && LogOk(cfg, k, start, s.log, s.now)
    && (forall h {:trigger PcOk(cfg, s.log, s.now, s.handlers[h])} ::
          h in s.handlers ==> PcOk(cfg, s.log, s.now, s.handlers[h]))
    && (forall t: nat {:trigger SpreadOk(cfg, k, s, t)} ::
          1 <= t && cfg.maxAttempts <= t <= |s.log| ==> SpreadOk(cfg, k, s, t))
  }

  /** The first failure from `t` on that is not yet a lockout ago, if any. */
  lemma {:induction false} FirstRecent(cfg: Config, s: State, t: nat) returns (r: nat)
    requires 1 <= t <= |s.log| + 1
    ensures t <= r <= |s.log| + 1
    ensures r <= |s.log| ==> TimeOf(s.log, r) + cfg.lockout > s.now
    ensures r > t ==> TimeOf(s.log, r - 1) + cfg.lockout <= s.now
    decreases |s.log| + 1 - t
  {
    if t == |s.log| + 1 || TimeOf(s.log, t) + cfg.lockout > s.now {
      r := t;
    } else {
      r := FirstRecent(cfg, s, t + 1);
    }
  }

  /** Whoever has compared by now had read the row before the first recent failure. */
  lemma RecentAreOld(cfg: Config, k: nat, start: int, s: State, r: nat)
    requires cfg.lockout > 0 && Bounded(cfg, k, start, s) && 1 <= r && cfg.maxAttempts <= r <= |s.log|
    requires TimeOf(s.log, r) + cfg.lockout > s.now
    ensures Unrecorded(s) <= Old(s, r)
  {
    forall h | h in Unrecorded(s) ensures h in Old(s, r) {
      assert PcOk(cfg, s.log, s.now, s.handlers[h]);
    }
  }

  /** Failures recorded and failures to come from those who have compared are together within the bound. */
  lemma WithinCap(cfg: Config, k: nat, start: int, s: State)
    requires cfg.lockout > 0 && cfg.maxAttempts >= 1 && Bounded(cfg, k, start, s)
    ensures |s.log| + |Unrecorded(s)| <= CapAt(cfg, k, start, s.now)
  {
    SubsetSize(Unrecorded(s), s.handlers.Keys);
    CapAtGrows(cfg, k, start, start, s.now);
    if |s.log| >= cfg.maxAttempts {
      var r := FirstRecent(cfg, s, cfg.maxAttempts);
      if r <= |s.log| {
        RecentAreOld(cfg, k, start, s, r);
        SubsetSize(Unrecorded(s), Old(s, r));
        assert SpreadOk(cfg, k, s, r);
      }
      assert |s.log| + |Unrecorded(s)| <= r - 1 + k;
      if r > cfg.maxAttempts {
        CapAtGrows(cfg, k, start, TimeOf(s.log, r - 1), s.now);
      }
    }
  }

  /** Time passes or logins come, go and move on, but nothing is recorded. */
  lemma QuietKeepsBounded(cfg: Config, k: nat, start: int, s: State, s': State)
    requires cfg.lockout > 0 && Bounded(cfg, k, start, s)
    requires s'.counter == s.counter && s'.log == s.log && s'.now >= s.now && |s'.handlers| <= k
    requires s'.compared == |s'.log| + |Unrecorded(s')| + s'.lost
    requires forall h :: h in s'.handlers ==>
               || (h in s.handlers && s'.handlers[h] == s.handlers[h]) || PcOk(cfg, s'.log, s'.now, s'.handlers[h])
    requires forall t: nat {:trigger Old(s', t)} :: t <= |s.log| ==> Old(s', t) <= Old(s, t)
    ensures Bounded(cfg, k, start, s')
  {
    forall h | h in s'.handlers ensures PcOk(cfg, s'.log, s'.now, s'.handlers[h]) {
      if h in s.handlers { assert PcOk(cfg, s.log, s.now, s.handlers[h]); }
    }
    forall t: nat | 1 <= t && cfg.maxAttempts <= t <= |s'.log| ensures SpreadOk(cfg, k, s', t) {
      assert SpreadOk(cfg, k, s, t);
      SubsetSize(Old(s', t), Old(s, t));
    }
  }

  lemma ReadKeepsBounded(cfg: Config, k: nat, start: int, s: State, h: HandlerId)
    requires cfg.lockout > 0 && Bounded(cfg, k, start, s) && |Step(cfg, s, Read(h)).handlers| <= k
    ensures Bounded(cfg, k, start, Step(cfg, s, Read(h)))
  {
    var s' := Step(cfg, s, Read(h));
    assert Unrecorded(s') == Unrecorded(s);
    QuietKeepsBounded(cfg, k, start, s, s');
  }

  lemma CheckKeepsBounded(cfg: Config, k: nat, start: int, s: State, h: HandlerId)
    requires cfg.lockout > 0 && Bounded(cfg, k, start, s) && h in s.handlers && s.handlers[h].Loaded?
    ensures Bounded(cfg, k, start, Checked(s, h, s.handlers[h]))
  {
    var s' := Checked(s, h, s.handlers[h]);
    assert PcOk(cfg, s.log, s.now, s.handlers[h]);
    assert Unrecorded(s') == Unrecorded(s);
    SubsetSize(s'.handlers.Keys, s.handlers.Keys);
    QuietKeepsBounded(cfg, k, start, s, s');
  }

  lemma CompareKeepsBounded(cfg: Config, k: nat, start: int, s: State, h: HandlerId)
    requires cfg.lockout > 0 && Bounded(cfg, k, start, s) && h in s.handlers && s.handlers[h].Unlocked?
    ensures Bounded(cfg, k, start, Compared(s, h, s.handlers[h].seen, false))
  {
    var s' := Compared(s, h, s.handlers[h].seen, false);
    assert PcOk(cfg, s.log, s.now, s.handlers[h]);
    assert Unrecorded(s') == Unrecorded(s) + {h};
    assert s'.handlers.Keys == s.handlers.Keys;
    QuietKeepsBounded(cfg, k, start, s, s');
  }

  lemma DropKeepsBounded(cfg: Config, k: nat, start: int, s: State, h: HandlerId)
    requires cfg.lockout > 0 && Bounded(cfg, k, start, s)
    ensures Bounded(cfg, k, start, Step(cfg, s, Drop(h)))
  {
    var s' := Step(cfg, s, Drop(h));
    assert Unrecorded(s') == Unrecorded(s) - {h};
    SubsetSize(s'.handlers.Keys, s.handlers.Keys);
    QuietKeepsBounded(cfg, k, start, s, s');
  }

  /** A longer log says the same about the failures it had before. */
  lemma LogGrows(cfg: Config, log: seq<Entry>, at: int)
    ensures forall j: nat :: j <= |log| ==> TimeOf(log + [Failure(at)], j) == TimeOf(log, j)
    ensures TimeOf(log + [Failure(at)], |log| + 1) == at
  {
  }

  lemma LogStaysOk(cfg: Config, k: nat, start: int, s: State)
    requires cfg.lockout > 0 && cfg.maxAttempts >= 1 && Bounded(cfg, k, start, s) && Unrecorded(s) != {}
    ensures LogOk(cfg, k, start, s.log + [Failure(s.now)], s.now)
  {
    var log := s.log + [Failure(s.now)];
    LogGrows(cfg, s.log, s.now);
    WithinCap(cfg, k, start, s);
    assert |Unrecorded(s)| >= 1;
    forall j: nat | 1 <= j <= |log| ensures j <= CapAt(cfg, k, start, TimeOf(log, j)) {
      if j <= |s.log| { assert j <= CapAt(cfg, k, start, TimeOf(s.log, j)); }
    }
  }

  /** The writer had read the row before every failure that is not a lockout ago. */
  lemma SpreadStaysOk(cfg: Config, k: nat, start: int, s: State, h: HandlerId, t: nat)
    requires cfg.lockout > 0 && Bounded(cfg, k, start, s) && h in s.handlers && s.handlers[h].Wrong?
    requires 1 <= t && cfg.maxAttempts <= t <= |s.log| + 1
    ensures SpreadOk(cfg, k, Recorded(cfg, s, h), t)
  {
    var s' := Recorded(cfg, s, h);
    LogGrows(cfg, s.log, s.now);
    assert PcOk(cfg, s.log, s.now, s.handlers[h]);
    if t <= |s.log| {
      assert SpreadOk(cfg, k, s, t);
      if TimeOf(s.log, t) + cfg.lockout > s.now {
        RecentAreOld(cfg, k, start, s, t);
        assert Old(s', t) == Old(s, t) - {h};
      }
    } else {
      SubsetSize(Old(s', t), s.handlers.Keys - {h});
    }
  }

  lemma WriteKeepsBounded(cfg: Config, k: nat, start: int, s: State, h: HandlerId)
    requires cfg.lockout > 0 && cfg.maxAttempts >= 1 && Bounded(cfg, k, start, s)
    requires h in s.handlers && s.handlers[h].Wrong?
    ensures Bounded(cfg, k, start, Recorded(cfg, s, h))
  {
    var s' := Recorded(cfg, s, h);
    assert h in Unrecorded(s) && Unrecorded(s') == Unrecorded(s) - {h};
    SubsetSize(s'.handlers.Keys, s.handlers.Keys);
    LogGrows(cfg, s.log, s.now);
    LogStaysOk(cfg, k, start, s);
    forall u | u in s'.handlers ensures PcOk(cfg, s'.log, s'.now, s'.handlers[u]) {
      assert PcOk(cfg, s.log, s.now, s.handlers[u]);
    }
    forall t: nat | 1 <= t && cfg.maxAttempts <= t <= |s'.log| ensures SpreadOk(cfg, k, s', t) {
      SpreadStaysOk(cfg, k, start, s, h, t);
    }
  }

  lemma StepKeepsBounded(cfg: Config, k: nat, l: nat, start: int, s: State, e: Event)
    requires cfg.lockout > 0 && cfg.maxAttempts >= 1 && Bounded(cfg, k, start, s) && Guessing(cfg, k, l)(s, e)
    ensures Bounded(cfg, k, start, Step(cfg, s, e))
  {
    match e
    case Read(h) => ReadKeepsBounded(cfg, k, start, s, h);
    case Check(h) => if h in s.handlers && s.handlers[h].Loaded? { CheckKeepsBounded(cfg, k, start, s, h); }
    case Compare(h, _) => if h in s.handlers && s.handlers[h].Unlocked? { CompareKeepsBounded(cfg, k, start, s, h); }
    case Write(h) =>
      if h in s.handlers {
        assert PcOk(cfg, s.log, s.now, s.handlers[h]);
        if s.handlers[h].Wrong? { WriteKeepsBounded(cfg, k, start, s, h); }
      }
    case Drop(h) => DropKeepsBounded(cfg, k, start, s, h);
    case Tick(_) =>
      assert Unrecorded(Step(cfg, s, e)) == Unrecorded(s);
      QuietKeepsBounded(cfg, k, start, s, Step(cfg, s, e));
    case SetAccount(_) =>
      assert Unrecorded(Step(cfg, s, e)) == Unrecorded(s);
      QuietKeepsBounded(cfg, k, start, s, Step(cfg, s, e));
  }

  lemma RunKeepsBounded(cfg: Config, k: nat, l: nat, s: State, events: seq<Event>)
    requires cfg.maxAttempts >= 1 && cfg.lockout > 0 && Initial(s)
    requires Allowed(Steps(cfg), Guessing(cfg, k, l), s, events)
    ensures Bounded(cfg, k, s.now, Run(Steps(cfg), s, events))
  {
    var inv := t => Bounded(cfg, k, s.now, t);
    assert Unrecorded(s) == {};
    forall t, e | inv(t) && Guessing(cfg, k, l)(t, e) ensures inv(Steps(cfg)(t, e)) {
      StepKeepsBounded(cfg, k, l, s.now, t, e);
    }
    InvariantWhile(Steps(cfg), Guessing(cfg, k, l), inv, s, events);
  }

  lemma RunKeepsLost(cfg: Config, k: nat, l: nat, s: State, events: seq<Event>)
    requires Initial(s) && Allowed(Steps(cfg), Guessing(cfg, k, l), s, events)
    ensures Run(Steps(cfg), s, events).lost <= l
  {
    var inv := (t: State) => t.lost <= l;
    InvariantWhile(Steps(cfg), Guessing(cfg, k, l), inv, s, events);
  }

  /** At most max + k - 1 + k * floor(T / lockout) + l passwords were compared. */
  predicate WithinBound(cfg: Config, k: nat, l: nat, start: int, end: State)
    requires cfg.lockout > 0
  {
    start <= end.now && end.compared <= cfg.maxAttempts + k - 1 + k * ((end.now - start) / cfg.lockout) + l
  }

  lemma BoundedCap(cfg: Config, k: nat, l: nat, start: int, t: State)
    requires cfg.lockout > 0 && cfg.maxAttempts >= 1 && Bounded(cfg, k, start, t) && t.lost <= l
    ensures WithinBound(cfg, k, l, start, t)
  {
    WithinCap(cfg, k, start, t);
  }

  /**
   * With at most k logins in flight, at most l lost between comparison and write, and no correct password, from a fresh
   * counter: within time T at most max + k - 1 + k * floor(T / lockout) + l passwords are compared.
   */
  lemma WrongPasswordsBounded(cfg: Config, k: nat, l: nat, s: State, events: seq<Event>)
    requires cfg.maxAttempts >= 1 && cfg.lockout > 0 && Initial(s)
    requires Allowed(Steps(cfg), Guessing(cfg, k, l), s, events)
    ensures WithinBound(cfg, k, l, s.now, Run(Steps(cfg), s, events))
  {
    RunKeepsBounded(cfg, k, l, s, events);
    RunKeepsLost(cfg, k, l, s, events);
    BoundedCap(cfg, k, l, s.now, Run(Steps(cfg), s, events));
  }

  // ---- the bound is attained -----------------------------------------------------------

  /** All at one instant: `n` failures recorded, `lost` lost, `compared` comparisons, and these logins in flight. */
  predicate Stands(s: State, t: State, n: nat, lost: nat, compared: nat, inFlight: map<HandlerId, Pc>) {
    && t.now == s.now && t.counter == Counter(n, None) && |t.log| == n
    && t.lost == lost && t.compared == compared && t.handlers == inFlight
  }

  ghost predicate Builds(
    cfg: Config, k: nat, l: nat, s: State, events: seq<Event>, n: nat, lost: nat, compared: nat,
    inFlight: map<HandlerId, Pc>)
  {
    && Allowed(Steps(cfg), Guessing(cfg, k, l), s, events)
    && Stands(s, Run(Steps(cfg), s, events), n, lost, compared, inFlight)
  }

  lemma GuessOnce(cfg: Config, k: nat, l: nat, s: State, before: seq<Event>, n: nat, lost: nat, compared: nat)
    returns (events: seq<Event>)
    requires k >= 1 && lost <= l && Builds(cfg, k, l, s, before, n, lost, compared, map[])
    ensures Builds(cfg, k, l, s, events, n, lost, compared + 1, map[0 := Wrong(n)])
  {
    var step, allow := Steps(cfg), Guessing(cfg, k, l);
    AllowedThen(step, allow, s, before, Read(0));
    events := before + [Read(0)];
    assert Stands(s, Run(step, s, events), n, lost, compared, map[0 := Loaded(None, n)]);
    AllowedThen(step, allow, s, events, Check(0));
    events := events + [Check(0)];
    assert Stands(s, Run(step, s, events), n, lost, compared, map[0 := Unlocked(n)]);
    AllowedThen(step, allow, s, events, Compare(0, false));
    events := events + [Compare(0, false)];
  }

  lemma {:induction false} LoseOneByOne(cfg: Config, k: nat, l: nat, s: State, lost: nat) returns (events: seq<Event>)
    requires Initial(s) && k >= 1 && lost <= l
    ensures Builds(cfg, k, l, s, events, 0, lost, lost, map[])
  {
    if lost == 0 {
      events := [];
      assert Run(Steps(cfg), s, []) == s;
    } else {
      events := LoseOneByOne(cfg, k, l, s, lost - 1);
      events := GuessOnce(cfg, k, l, s, events, 0, lost - 1, lost - 1);
      AllowedThen(Steps(cfg), Guessing(cfg, k, l), s, events, Drop(0));
      events := events + [Drop(0)];
    }
  }

  lemma {:induction false} FailOneByOne(cfg: Config, k: nat, l: nat, s: State, n: nat) returns (events: seq<Event>)
    requires Initial(s) && k >= 1 && n < cfg.maxAttempts
    ensures Builds(cfg, k, l, s, events, n, l, n + l, map[])
  {
    if n == 0 {
      events := LoseOneByOne(cfg, k, l, s, l);
    } else {
      events := FailOneByOne(cfg, k, l, s, n - 1);
      events := GuessOnce(cfg, k, l, s, events, n - 1, l, n - 1 + l);
      AllowedThen(Steps(cfg), Guessing(cfg, k, l), s, events, Write(0));
      events := events + [Write(0)];
    }
  }

  /** A crowd of logins in flight, of which the first ones have compared. */
  function Waiting(seen: nat, compared: nat, size: nat): map<HandlerId, Pc> {
    map h | h in Below(size) :: if h < compared then Wrong(seen) else Unlocked(seen)
  }

  lemma WaitingSize(seen: nat, compared: nat, size: nat)
    ensures |Waiting(seen, compared, size)| == size
  {
    assert Waiting(seen, compared, size).Keys == Below(size);
  }

  lemma WaitingGrows(seen: nat, size: nat)
    ensures Waiting(seen, 0, size)[size := Unlocked(seen)] == Waiting(seen, 0, size + 1)
    ensures size !in Waiting(seen, 0, size)
  {
    assert Below(size + 1) == Below(size) + {size};
    var a, b := Waiting(seen, 0, size)[size := Unlocked(seen)], Waiting(seen, 0, size + 1);
    assert a.Keys == b.Keys;
    forall h | h in b ensures a[h] == b[h] {
      assert b[h] == Unlocked(seen);
    }
  }

  lemma OneMoreReads(cfg: Config, k: nat, l: nat, s: State, t: State, n: nat, j: nat)
    requires j < k && Stands(s, t, n, l, n + l, Waiting(n, 0, j))
    ensures Stands(s, Step(cfg, t, Read(j)), n, l, n + l, Waiting(n, 0, j)[j := Loaded(None, n)])
    ensures Guessing(cfg, k, l)(t, Read(j))
  {
    WaitingGrows(n, j);
    WaitingSize(n, 0, j);
  }

  lemma CheckPasses(cfg: Config, t: State, others: map<HandlerId, Pc>, j: HandlerId, n: nat)
    requires t.handlers == others[j := Loaded(None, n)]
    ensures Step(cfg, t, Check(j)) == t.(handlers := others[j := Unlocked(n)])
  {
    assert others[j := Loaded(None, n)][j := Unlocked(n)] == others[j := Unlocked(n)];
  }

  lemma OneMoreChecks(cfg: Config, k: nat, l: nat, s: State, t: State, n: nat, j: nat)
    requires j < k && Stands(s, t, n, l, n + l, Waiting(n, 0, j)[j := Loaded(None, n)])
    ensures Stands(s, Step(cfg, t, Check(j)), n, l, n + l, Waiting(n, 0, j + 1))
    ensures Guessing(cfg, k, l)(t, Check(j))
  {
    CheckPasses(cfg, t, Waiting(n, 0, j), j, n);
    WaitingGrows(n, j);
    WaitingSize(n, 0, j + 1);
  }

  lemma OneMoreCompares(cfg: Config, k: nat, l: nat, s: State, t: State, n: nat, j: nat)
    requires j < k && Stands(s, t, n, l, n + l + j, Waiting(n, j, k))
    ensures Stands(s, Step(cfg, t, Compare(j, false)), n, l, n + l + j + 1, Waiting(n, j + 1, k))
    ensures Guessing(cfg, k, l)(t, Compare(j, false))
  {
    assert Waiting(n, j, k)[j := Wrong(n)] == Waiting(n, j + 1, k);
    WaitingSize(n, j + 1, k);
  }

  lemma {:induction false} AllJoin(cfg: Config, k: nat, l: nat, s: State, n: nat, j: nat) returns (events: seq<Event>)
    requires Initial(s) && k >= 1 && n < cfg.maxAttempts && j <= k
    ensures Builds(cfg, k, l, s, events, n, l, n + l, Waiting(n, 0, j))
  {
    if j == 0 {
      events := FailOneByOne(cfg, k, l, s, n);
      assert Waiting(n, 0, 0) == map[];
    } else {
      var step, allow := Steps(cfg), Guessing(cfg, k, l);
      var fewer := AllJoin(cfg, k, l, s, n, j - 1);
      OneMoreReads(cfg, k, l, s, Run(step, s, fewer), n, j - 1);
      AllowedThen(step, allow, s, fewer, Read(j - 1));
      var read := fewer + [Read(j - 1)];
      OneMoreChecks(cfg, k, l, s, Run(step, s, read), n, j - 1);
      AllowedThen(step, allow, s, read, Check(j - 1));
      events := read + [Check(j - 1)];
    }
  }

  lemma {:induction false} AllCompare(cfg: Config, k: nat, l: nat, s: State, n: nat, j: nat)
    returns (events: seq<Event>)
    requires Initial(s) && k >= 1 && n < cfg.maxAttempts && j <= k
    ensures Builds(cfg, k, l, s, events, n, l, n + l + j, Waiting(n, j, k))
  {
    if j == 0 {
      events := AllJoin(cfg, k, l, s, n, k);
    } else {
      var fewer := AllCompare(cfg, k, l, s, n, j - 1);
      OneMoreCompares(cfg, k, l, s, Run(Steps(cfg), s, fewer), n, j - 1);
      AllowedThen(Steps(cfg), Guessing(cfg, k, l), s, fewer, Compare(j - 1, false));
      events := fewer + [Compare(j - 1, false)];
    }
  }

  /** For every k and l a run reaches the bound in no time at all: max + k - 1 + l comparisons. */
  lemma BoundIsAttained(cfg: Config, k: nat, l: nat, s: State) returns (events: seq<Event>)
    requires Initial(s) && k >= 1 && cfg.maxAttempts >= 1
    ensures Allowed(Steps(cfg), Guessing(cfg, k, l), s, events)
    ensures Run(Steps(cfg), s, events).compared == cfg.maxAttempts + k - 1 + l
    ensures Run(Steps(cfg), s, events).now == s.now
  {
    events := AllCompare(cfg, k, l, s, cfg.maxAttempts - 1, k);
  }

  // ---- when the intended limit holds ---------------------------------------------------

  /** No more wrong passwords than intended: max + floor(T / lockout). */
  predicate WithinLimit(cfg: Config, s: State, end: State)
    requires cfg.lockout > 0
  {
    end.compared <= cfg.maxAttempts + (end.now - s.now) / cfg.lockout
  }

  /** Every run with at most k logins in flight and at most l lost before their write keeps within the limit. */
  ghost predicate LimitHolds(cfg: Config, k: nat, l: nat)
    requires cfg.lockout > 0
  {
    forall s, events :: Initial(s) && Allowed(Steps(cfg), Guessing(cfg, k, l), s, events) ==>
      WithinLimit(cfg, s, Run(Steps(cfg), s, events))
  }

  lemma OneByOneBounded(cfg: Config, s: State, events: seq<Event>)
    requires cfg.maxAttempts >= 1 && cfg.lockout > 0 && Initial(s)
    requires Allowed(Steps(cfg), Guessing(cfg, 1, 0), s, events)
    ensures WithinLimit(cfg, s, Run(Steps(cfg), s, events))
  {
    WrongPasswordsBounded(cfg, 1, 0, s, events);
    var end := Run(Steps(cfg), s, events);
    assert 1 * ((end.now - s.now) / cfg.lockout) == (end.now - s.now) / cfg.lockout;
  }

  predicate Idle(start: int, t: State) {
    t.handlers == map[] && t.compared == 0 && start <= t.now
  }

  lemma StaysIdle(cfg: Config, start: int, t: State, e: Event)
    requires Idle(start, t) && |Step(cfg, t, e).handlers| == 0
    ensures Idle(start, Step(cfg, t, e))
  {
  }

  lemma IdleIsWithinLimit(cfg: Config, s: State, end: State)
    requires cfg.maxAttempts >= 1 && cfg.lockout > 0 && Idle(s.now, end)
    ensures WithinLimit(cfg, s, end)
  {
    LockoutsGrow(cfg, s.now, s.now, end.now);
  }

  lemma NobodyCompares(cfg: Config, l: nat, s: State, events: seq<Event>)
    requires cfg.maxAttempts >= 1 && cfg.lockout > 0 && Initial(s)
    requires Allowed(Steps(cfg), Guessing(cfg, 0, l), s, events)
    ensures WithinLimit(cfg, s, Run(Steps(cfg), s, events))
  {
    var inv := t => Idle(s.now, t);
    forall t, e | inv(t) && Guessing(cfg, 0, l)(t, e) ensures inv(Steps(cfg)(t, e)) { StaysIdle(cfg, s.now, t, e); }
    InvariantWhile(Steps(cfg), Guessing(cfg, 0, l), inv, s, events);
    IdleIsWithinLimit(cfg, s, Run(Steps(cfg), s, events));
  }

  lemma LimitHoldsOneByOne(cfg: Config, k: nat, l: nat)
    requires cfg.maxAttempts >= 1 && cfg.lockout > 0 && (k == 0 || (k == 1 && l == 0))
    ensures LimitHolds(cfg, k, l)
  {
    forall s, events | Initial(s) && Allowed(Steps(cfg), Guessing(cfg, k, l), s, events)
      ensures WithinLimit(cfg, s, Run(Steps(cfg), s, events))
    {
      if k == 0 { NobodyCompares(cfg, l, s, events); } else { OneByOneBounded(cfg, s, events); }
    }
  }

  lemma LimitFailsOtherwise(cfg: Config, k: nat, l: nat)
    requires cfg.maxAttempts >= 1 && cfg.lockout > 0 && k >= 1 && k + l >= 2
    ensures !LimitHolds(cfg, k, l)
  {
    var account := Account(true, true, false);
    var s := State(0, FRESH, account, map[], map[], 0, [], 0, [], {account});
    var events := BoundIsAttained(cfg, k, l, s);
    LockoutsGrow(cfg, s.now, s.now, s.now);
    assert !WithinLimit(cfg, s, Run(Steps(cfg), s, events));
  }

  /**
   * The lockout limits wrong passwords as intended, in every run with at most k logins in flight and l of them lost, if
   * and only if logins neither overlap nor get lost between comparison and write.
   */
  lemma LimitHoldsIff(cfg: Config, k: nat, l: nat)
    requires cfg.maxAttempts >= 1 && cfg.lockout > 0
    ensures LimitHolds(cfg, k, l) <==> k == 0 || (k == 1 && l == 0)
  {
    if k == 0 || (k == 1 && l == 0) { LimitHoldsOneByOne(cfg, k, l); } else { LimitFailsOtherwise(cfg, k, l); }
  }
}
