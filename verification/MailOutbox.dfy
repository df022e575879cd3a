/**
 * The durable mail outbox: a row is written before the first send, cleared by the delivery's outcome, and read again at
 * the next start. Deliveries, crashes, restarts, failing writes and pruning interleave freely.
 */
module MailOutbox {
  import opened Common
  import opened Runs

  type MailId = nat
  type TaskId = nat

  datatype Mail = Mail(to: string, subject: string, text: string, html: string)

  /** The stored JSON; a row written by another release may no longer parse. */
  datatype Payload = Json(mail: Mail) | Unreadable

  datatype Status = Pending | Dead

  datatype Row = Row(payload: Payload, status: Status, updated: int)

  type Rows = map<MailId, Row>

  datatype Entry = Entry(id: MailId, mail: Mail)

  datatype SendResult = Accepted | Retryable | Permanent

  datatype Outcome = Sent | GaveUp

  const RETENTION: int := 30 * DAY
  const RETRY_DELAYS: seq<int> := [1 * SECOND, 4 * SECOND]

  // ---- the retry loop ----------------------------------------------------------------

  /** The transport's answers so far call for another send. */
  predicate Retrying(results: seq<SendResult>) {
    |results| <= |RETRY_DELAYS| && forall i :: 0 <= i < |results| ==> results[i] == Retryable
  }

  /** One whole delivery: every answer but the last was retried, the last one was not. */
  predicate Complete(results: seq<SendResult>) {
    results != [] && Retrying(results[..|results| - 1]) && !Retrying(results)
  }

  function OutcomeOf(results: seq<SendResult>): Outcome
    requires results != []
  {
    if results[|results| - 1] == Accepted then Sent else GaveUp
  }

  /**
   * A complete delivery makes one to three sends, repeats only after retryable errors, and gives up only on a permanent
   * error or on the third retryable one.
   */
  lemma DeliveryBounds(results: seq<SendResult>)
    requires Complete(results)
    ensures 1 <= |results| <= 3
    ensures forall i :: 0 <= i < |results| - 1 ==> results[i] == Retryable
    ensures OutcomeOf(results) == Sent <==> Accepted in results
    ensures OutcomeOf(results) == GaveUp
            <==> Permanent in results || results == [Retryable, Retryable, Retryable]
  {
    var init, last := results[..|results| - 1], results[|results| - 1];
    assert results == init + [last];
    if last == Retryable {
      assert forall i :: 0 <= i < |results| ==> results[i] == Retryable;
    }
  }

  /** Some answer among the first three is an acceptance, with only retryable errors before it. */
  predicate GetsThrough(transport: nat -> SendResult) {
    exists k: nat {:trigger AcceptedAt(transport, k)} :: k <= |RETRY_DELAYS| && AcceptedAt(transport, k)
  }

  predicate AcceptedAt(transport: nat -> SendResult, k: nat) {
    transport(k) == Accepted && forall i: nat :: i < k ==> transport(i) == Retryable
  }

  lemma SentIffGetsThrough(transport: nat -> SendResult, results: seq<SendResult>)
    requires Complete(results) && forall i :: 0 <= i < |results| ==> results[i] == transport(i)
    ensures OutcomeOf(results) == Sent <==> GetsThrough(transport)
  {
    var last := |results| - 1;
    assert forall i :: 0 <= i < last ==> results[..last][i] == transport(i) == Retryable;
    if OutcomeOf(results) == Sent {
      assert AcceptedAt(transport, last);
    }
  }

  /** The guard of the loop's retry branch decides exactly whether the delivery goes on or is over. */
  lemma OneMoreAnswer(results: seq<SendResult>, answer: SendResult)
    requires Retrying(results)
    ensures if answer == Retryable && |results| < |RETRY_DELAYS| then Retrying(results + [answer])
            else Complete(results + [answer])
  {
    var longer := results + [answer];
    assert longer[..|longer| - 1] == results && longer[|longer| - 1] == answer;
  }

  /** `deliver`: `transport(i)` is the answer to the i-th send. */
  method Deliver(transport: nat -> SendResult) returns (outcome: Outcome, results: seq<SendResult>)
    ensures Complete(results) && outcome == OutcomeOf(results)
    ensures forall i :: 0 <= i < |results| ==> results[i] == transport(i)
    ensures outcome == Sent <==> GetsThrough(transport)
  {
    var attempt: nat := 0;
    results := [];
    while true
      invariant attempt == |results| && Retrying(results)
      invariant forall i :: 0 <= i < |results| ==> results[i] == transport(i)
      decreases |RETRY_DELAYS| - attempt
    {
      var answer := transport(attempt);
      OneMoreAnswer(results, answer);
      results := results + [answer];
      if answer == Accepted {
        SentIffGetsThrough(transport, results);
        return Sent, results;
      } else if answer == Retryable && attempt < |RETRY_DELAYS| {
        attempt := attempt + 1;
      } else {
        SentIffGetsThrough(transport, results);
        return GaveUp, results;
      }
    }
  }

  // ---- the table ---------------------------------------------------------------------

  /** The ids `SELECT ... WHERE status = 'pending'` finds and whose payload still parses. */
  function Waiting(rows: Rows): set<MailId> {
    set id | id in rows && rows[id].status == Pending && rows[id].payload.Json?
  }

  /** `finish` when its statement commits: the row is deleted after a send and marked dead after giving up. */
  function Finish(rows: Rows, id: MailId, outcome: Outcome, now: int): Rows {
    if outcome == Sent then rows - {id}
    else if id in rows then rows[id := rows[id].(status := Dead, updated := now)] else rows
  }

  predicate Prunable(row: Row, now: int) {
    row.status == Dead && row.updated < now - RETENTION
  }

  /** `queue` lists every waiting mail once, in whatever order the database answers. */
  predicate Lists(rows: Rows, queue: seq<Entry>) {
    && (forall i, j :: 0 <= i < j < |queue| ==> queue[i].id != queue[j].id)
    && (forall i :: 0 <= i < |queue| ==>
          queue[i].id in Waiting(rows) && rows[queue[i].id].payload == Json(queue[i].mail))
    && (forall id :: id in Waiting(rows) ==> exists i :: 0 <= i < |queue| && queue[i].id == id)
  }

  /** Where `recover_pending` leaves one row: `clock(id)` is the reading taken when that mail's delivery finished. */
  function Recovered(rows: Rows, transport: MailId -> nat -> SendResult, clock: MailId -> int, id: MailId): Option<Row>
  {
    if id !in rows then None
    else if id !in Waiting(rows) then Some(rows[id])
    else if GetsThrough(transport(id)) then None
    else Some(rows[id].(status := Dead, updated := clock(id)))
  }

  function Lookup(rows: Rows, id: MailId): Option<Row> {
    if id in rows then Some(rows[id]) else None
  }

  class OutboxRepository {
    var rows: Rows

    constructor ()
      ensures rows == map[]
    {
      rows := map[];
    }

    method Insert(id: MailId, mail: Mail, now: int)
      requires id !in rows
      modifies this
      ensures rows == old(rows)[id := Row(Json(mail), Pending, now)]
      ensures Waiting(rows) == Waiting(old(rows)) + {id}
    {
      rows := rows[id := Row(Json(mail), Pending, now)];
    }

    method Remove(id: MailId, now: int)
      modifies this
      ensures rows == Finish(old(rows), id, Sent, now)
      ensures id !in rows && forall other :: other != id ==> Lookup(rows, other) == Lookup(old(rows), other)
    {
      rows := rows - {id};
    }

    /** A missing row stays missing: a mail that another delivery has sent does not come back dead. */
    method MarkDead(id: MailId, now: int)
      modifies this
      ensures rows == Finish(old(rows), id, GaveUp, now)
      ensures rows.Keys == old(rows).Keys && Waiting(rows) == Waiting(old(rows)) - {id}
      ensures forall other :: other != id ==> Lookup(rows, other) == Lookup(old(rows), other)
      ensures id in rows ==> rows[id].payload == old(rows)[id].payload
      ensures forall at :: id in rows ==> (Prunable(rows[id], at) <==> at > now + 30 * DAY)
    {
      if id in rows {
        rows := rows[id := rows[id].(status := Dead, updated := now)];
      }
    }

    method PruneDead(now: int)
      modifies this
      ensures forall id :: id in rows <==> id in old(rows) && !Prunable(old(rows)[id], now)
      ensures forall id :: id in rows ==> rows[id] == old(rows)[id]
      ensures Waiting(rows) == Waiting(old(rows))
    {
      rows := map id | id in rows && !Prunable(rows[id], now) :: rows[id];
    }

    method PendingMails() returns (queue: seq<Entry>)
      ensures Lists(rows, queue)
    {
      queue := [];
      var left := Waiting(rows);
      while left != {}
        invariant left <= Waiting(rows)
        invariant forall i, j :: 0 <= i < j < |queue| ==> queue[i].id != queue[j].id
        invariant forall i :: 0 <= i < |queue| ==>
          queue[i].id in Waiting(rows) - left && rows[queue[i].id].payload == Json(queue[i].mail)
        invariant forall id :: id in Waiting(rows) ==> id in left || exists i :: 0 <= i < |queue| && queue[i].id == id
        decreases left
      {
        var id :| id in left;
        ghost var shorter := queue;
        queue := queue + [Entry(id, rows[id].payload.mail)];
        assert queue[|queue| - 1].id == id;
        assert forall i :: 0 <= i < |shorter| ==> queue[i] == shorter[i];
        left := left - {id};
      }
    }

    /**
     * `recover_pending` when nothing else touches the table: each waiting mail is delivered, then its row is gone if
     * the transport accepted it and dead otherwise; unreadable and dead rows are left as they were.
     */
    method RecoverPending(transport: MailId -> nat -> SendResult, clock: MailId -> int)
      modifies this
      ensures forall id :: Lookup(rows, id) == Recovered(old(rows), transport, clock, id)
      ensures Waiting(rows) == {}
    {
      var queue := PendingMails();
      for k := 0 to |queue|
        invariant forall i :: 0 <= i < k ==>
          Lookup(rows, queue[i].id) == Recovered(old(rows), transport, clock, queue[i].id)
        invariant forall id :: (forall i :: 0 <= i < k ==> queue[i].id != id) ==>
          Lookup(rows, id) == Lookup(old(rows), id)
      {
        var id := queue[k].id;
        assert Lookup(rows, id) == Lookup(old(rows), id);
        var outcome, _ := Deliver(transport(id));
        if outcome == Sent { Remove(id, clock(id)); } else { MarkDead(id, clock(id)); }
      }
      forall id ensures Lookup(rows, id) == Recovered(old(rows), transport, clock, id) {
        if id in Waiting(old(rows)) {
          var i :| 0 <= i < |queue| && queue[i].id == id;
        }
      }
      forall id ensures id !in Waiting(rows) {
        assert Lookup(rows, id) == Recovered(old(rows), transport, clock, id);
      }
    }
  }

  // ---- deliveries, crashes and restarts interleaved ------------------------------------

  /** A delivery that ran to its end: the transport's answers, the first send's time and the last one's. */
  datatype Delivery = Delivery(id: Option<MailId>, mail: Mail, results: seq<SendResult>, since: int, until: int)

  /**
   * A background task: asleep or sending (not before `wake`), or about to write an outcome to the table. `rest` is
   * what a recovery task has still to deliver; `id` is absent when the insert failed and the mail is sent without a
   * row.
   */
  datatype Task =
    | Sending(id: Option<MailId>, mail: Mail, results: seq<SendResult>, since: int, wake: int, rest: seq<Entry>)
    | Finishing(written: MailId, outcome: Outcome, rest: seq<Entry>)

  datatype Pruned = Pruned(deadSince: int, at: int)

  datatype History = History(inserted: map<MailId, Mail>, deliveries: seq<Delivery>, pruned: map<MailId, Pruned>)

  datatype State = State(now: int, rows: Rows, tasks: map<TaskId, Task>, past: History)

  datatype Event =
    | Tick(to: int)
    | Dispatch(task: TaskId, id: MailId, mail: Mail, insertCommits: bool)
    | Restart(task: TaskId, queue: seq<Entry>)
    | Answer(task: TaskId, result: SendResult)
    | Write(task: TaskId, commits: bool)
    | Crash(victims: set<TaskId>)
    | Prune
    | Release(unreadable: set<MailId>)

  /** The task goes on with the next mail of its queue, or ends. */
  function Next(s: State, task: TaskId, rest: seq<Entry>): State {
    if rest == [] then s.(tasks := s.tasks - {task})
    else s.(tasks := s.tasks[task := Sending(Some(rest[0].id), rest[0].mail, [], s.now, s.now, rest[1..])])
  }

  function Dispatched(s: State, task: TaskId, id: MailId, mail: Mail, insertCommits: bool): State {
    if task in s.tasks || id in s.past.inserted then s
    else if insertCommits then
      s.(rows := s.rows[id := Row(Json(mail), Pending, s.now)],
         tasks := s.tasks[task := Sending(Some(id), mail, [], s.now, s.now, [])],
         past := s.past.(inserted := s.past.inserted[id := mail]))
    else s.(tasks := s.tasks[task := Sending(None, mail, [], s.now, s.now, [])])
  }

  /** The time of the first send is the time of the first answer: nothing happens in between. */
  function Since(t: Task, now: int): int
    requires t.Sending?
  {
    if t.results == [] then now else t.since
  }

  /** The task goes back to sleep before the next send. */
  function Retry(t: Task, now: int): Task
    requires t.Sending? && |t.results| < |RETRY_DELAYS|
  {
    t.(results := t.results + [Retryable], since := Since(t, now), wake := now + RETRY_DELAYS[|t.results|])
  }

  function Ended(t: Task, result: SendResult, now: int): Delivery
    requires t.Sending?
  {
    Delivery(t.id, t.mail, t.results + [result], Since(t, now), now)
  }

  function AfterDelivery(past: History, d: Delivery): History {
    past.(deliveries := past.deliveries + [d])
  }

  function Answered(s: State, task: TaskId, result: SendResult): State {
    if task !in s.tasks || s.tasks[task].Finishing? || s.now < s.tasks[task].wake then s
    else
      var t := s.tasks[task];
      if result == Retryable && |t.results| < |RETRY_DELAYS| then s.(tasks := s.tasks[task := Retry(t, s.now)])
      else
        var d := Ended(t, result, s.now);
        match t.id
        case Some(id) =>
          s.(tasks := s.tasks[task := Finishing(id, OutcomeOf(d.results), t.rest)], past := AfterDelivery(s.past, d))
        case None => s.(tasks := s.tasks - {task}, past := AfterDelivery(s.past, d))
  }

  function Written(s: State, task: TaskId, commits: bool): State {
    if task !in s.tasks || s.tasks[task].Sending? then s
    else
      var t := s.tasks[task];
      Next(if commits then s.(rows := Finish(s.rows, t.written, t.outcome, s.now)) else s, task, t.rest)
  }

  function PruneAll(s: State): State {
    s.(rows := map id | id in s.rows && !Prunable(s.rows[id], s.now) :: s.rows[id],
       past := s.past.(pruned := s.past.pruned
         + map id | id in s.rows && Prunable(s.rows[id], s.now) :: Pruned(s.rows[id].updated, s.now)))
  }

  function Step(s: State, e: Event): State {
    match e
    case Tick(to) => s.(now := if to > s.now then to else s.now)
    case Dispatch(task, id, mail, insertCommits) => Dispatched(s, task, id, mail, insertCommits)
    case Restart(task, queue) => if task !in s.tasks && Lists(s.rows, queue) then Next(s, task, queue) else s
    case Answer(task, result) => Answered(s, task, result)
    case Write(task, commits) => Written(s, task, commits)
    case Crash(victims) => s.(tasks := s.tasks - victims)
    case Prune => PruneAll(s)
    case Release(unreadable) =>
      s.(rows := map id | id in s.rows :: if id in unreadable then s.rows[id].(payload := Unreadable) else s.rows[id])
  }

  predicate Initial(s: State) {
    s.rows == map[] && s.tasks == map[] && s.past == History(map[], [], map[])
  }

  // ---- what every step keeps -----------------------------------------------------------

  predicate Delivered(past: History, id: MailId) {
    exists d :: d in past.deliveries && d.id == Some(id) && Complete(d.results) && OutcomeOf(d.results) == Sent
  }

  /** A delivery of this mail had given up by then. */
  predicate GivenUp(past: History, id: MailId, deadline: int) {
    exists d :: d in past.deliveries && d.id == Some(id) && d.until <= deadline
                && Complete(d.results) && OutcomeOf(d.results) == GaveUp
  }

  /** Pending with its own text; or dead, or pruned a month after, because a delivery gave up; or accepted. */
  predicate Accounted(rows: Rows, past: History, id: MailId)
    requires id in past.inserted
  {
    if id in rows then
      && rows[id].payload in {Json(past.inserted[id]), Unreadable}
      && (rows[id].status == Dead ==> GivenUp(past, id, rows[id].updated))
    else
      || Delivered(past, id)
      || (id in past.pruned && past.pruned[id].deadSince + RETENTION < past.pruned[id].at
          && GivenUp(past, id, past.pruned[id].deadSince))
  }

  predicate OwnText(inserted: map<MailId, Mail>, id: Option<MailId>, mail: Mail) {
    id.Some? ==> id.value in inserted && inserted[id.value] == mail
  }

  /** Retries waited at least one second, then at least four more. */
  predicate Spaced(results: seq<SendResult>, since: int, until: int) {
    && (|results| >= 1 ==> since <= until)
    && (|results| >= 2 ==> since + 1 * SECOND <= until)
    && (|results| >= 3 ==> since + 5 * SECOND <= until)
  }

  predicate DeliveryOk(past: History, d: Delivery) {
    OwnText(past.inserted, d.id, d.mail) && Complete(d.results) && Spaced(d.results, d.since, d.until)
  }

  predicate QueueOk(inserted: map<MailId, Mail>, queue: seq<Entry>) {
    forall i :: 0 <= i < |queue| ==> OwnText(inserted, Some(queue[i].id), queue[i].mail)
  }

  predicate TaskOk(past: History, now: int, t: Task) {
    && QueueOk(past.inserted, t.rest)
    && (t.Sending? ==>
          && OwnText(past.inserted, t.id, t.mail) && Retrying(t.results)
          && Spaced(t.results + [Retryable], t.since, if t.results == [] then t.since else t.wake))
    && (t.Finishing? ==>
          && t.written in past.inserted
          && if t.outcome == Sent then Delivered(past, t.written) else GivenUp(past, t.written, now))
  }

  predicate Inv(s: State) {
    && (forall id {:trigger Accounted(s.rows, s.past, id)} :: id in s.past.inserted ==> Accounted(s.rows, s.past, id))
    && (forall id :: id in s.rows ==> id in s.past.inserted)
    && (forall d {:trigger DeliveryOk(s.past, d)} :: d in s.past.deliveries ==> DeliveryOk(s.past, d))
    && (forall t {:trigger TaskOk(s.past, s.now, s.tasks[t])} :: t in s.tasks ==> TaskOk(s.past, s.now, s.tasks[t]))
  }

  /** The past only grows. */
  predicate Extends(past: History, older: History) {
    && (forall id :: id in older.inserted ==> id in past.inserted && past.inserted[id] == older.inserted[id])
    && older.deliveries <= past.deliveries
  }

  lemma TaskStaysOk(older: History, past: History, t0: int, t1: int, t: Task)
    requires TaskOk(older, t0, t) && Extends(past, older) && t0 <= t1
    ensures TaskOk(past, t1, t)
  {
  }

  lemma AccountedStays(rows: Rows, older: History, past: History, id: MailId)
    requires id in older.inserted && Accounted(rows, older, id) && Extends(past, older) && older.pruned == past.pruned
    ensures Accounted(rows, past, id)
  {
  }

  lemma NextKeepsInv(s: State, task: TaskId, rest: seq<Entry>)
    requires Inv(s) && QueueOk(s.past.inserted, rest)
    ensures Inv(Next(s, task, rest))
  {
    var s' := Next(s, task, rest);
    forall t | t in s'.tasks ensures TaskOk(s'.past, s'.now, s'.tasks[t]) {
      if t != task {
        assert TaskOk(s.past, s.now, s.tasks[t]);
      } else {
        assert OwnText(s.past.inserted, Some(rest[0].id), rest[0].mail);
      }
    }
    forall id | id in s'.past.inserted ensures Accounted(s'.rows, s'.past, id) {
      assert Accounted(s.rows, s.past, id);
    }
    forall d | d in s'.past.deliveries ensures DeliveryOk(s'.past, d) {
      assert DeliveryOk(s.past, d);
    }
  }

  lemma DispatchKeepsInv(s: State, task: TaskId, id: MailId, mail: Mail, insertCommits: bool)
    requires Inv(s)
    ensures Inv(Dispatched(s, task, id, mail, insertCommits))
  {
    var s' := Dispatched(s, task, id, mail, insertCommits);
    forall t | t in s'.tasks ensures TaskOk(s'.past, s'.now, s'.tasks[t]) {
      if t in s.tasks { TaskStaysOk(s.past, s'.past, s.now, s'.now, s.tasks[t]); }
    }
    forall m | m in s'.past.inserted ensures Accounted(s'.rows, s'.past, m) {
      if m in s.past.inserted {
        assert Accounted(s.rows, s.past, m);
        AccountedStays(s.rows, s.past, s'.past, m);
      }
    }
    forall d | d in s'.past.deliveries ensures DeliveryOk(s'.past, d) {
      assert DeliveryOk(s.past, d);
    }
  }

  lemma RetryOk(past: History, now: int, t: Task)
    requires TaskOk(past, now, t) && t.Sending? && now >= t.wake && |t.results| < |RETRY_DELAYS|
    ensures TaskOk(past, now, Retry(t, now))
  {
    OneMoreAnswer(t.results, Retryable);
  }

  lemma EndedOk(past: History, now: int, t: Task, result: SendResult)
    requires TaskOk(past, now, t) && t.Sending? && now >= t.wake
    requires result != Retryable || |t.results| == |RETRY_DELAYS|
    ensures var d := Ended(t, result, now);
            var later := AfterDelivery(past, d);
            && DeliveryOk(later, d)
            && (t.id.Some? ==> TaskOk(later, now, Finishing(t.id.value, OutcomeOf(d.results), t.rest)))
  {
    OneMoreAnswer(t.results, result);
    var d := Ended(t, result, now);
    assert d in AfterDelivery(past, d).deliveries;
  }

  lemma RetryKeepsInv(s: State, task: TaskId)
    requires Inv(s) && task in s.tasks && s.tasks[task].Sending? && s.now >= s.tasks[task].wake
    requires |s.tasks[task].results| < |RETRY_DELAYS|
    ensures Inv(s.(tasks := s.tasks[task := Retry(s.tasks[task], s.now)]))
  {
    var s' := s.(tasks := s.tasks[task := Retry(s.tasks[task], s.now)]);
    forall u | u in s'.tasks ensures TaskOk(s'.past, s'.now, s'.tasks[u]) {
      assert TaskOk(s.past, s.now, s.tasks[u]);
      if u == task { RetryOk(s.past, s.now, s.tasks[u]); }
    }
    forall id | id in s'.past.inserted ensures Accounted(s'.rows, s'.past, id) { assert Accounted(s.rows, s.past, id); }
    forall d | d in s'.past.deliveries ensures DeliveryOk(s'.past, d) { assert DeliveryOk(s.past, d); }
  }

  /** One more delivery that ended well or badly disturbs neither mails nor earlier deliveries. */
  lemma PastGrows(s: State, d: Delivery)
    requires Inv(s) && DeliveryOk(AfterDelivery(s.past, d), d)
    ensures var past := AfterDelivery(s.past, d);
            && Extends(past, s.past)
            && (forall e :: e in past.deliveries ==> DeliveryOk(past, e))
            && (forall id :: id in past.inserted ==> Accounted(s.rows, past, id))
  {
    var past := AfterDelivery(s.past, d);
    forall e | e in past.deliveries ensures DeliveryOk(past, e) {
      if e in s.past.deliveries { assert DeliveryOk(s.past, e); }
    }
    forall id | id in past.inserted ensures Accounted(s.rows, past, id) {
      assert Accounted(s.rows, s.past, id);
      AccountedStays(s.rows, s.past, past, id);
    }
  }

  lemma EndKeepsInv(s: State, task: TaskId, result: SendResult)
    requires Inv(s) && task in s.tasks && s.tasks[task].Sending? && s.now >= s.tasks[task].wake
    requires result != Retryable || |s.tasks[task].results| == |RETRY_DELAYS|
    ensures Inv(Answered(s, task, result))
  {
    var s', t := Answered(s, task, result), s.tasks[task];
    assert TaskOk(s.past, s.now, t);
    EndedOk(s.past, s.now, t, result);
    PastGrows(s, Ended(t, result, s.now));
    assert s'.past == AfterDelivery(s.past, Ended(t, result, s.now)) && s'.rows == s.rows && s'.now == s.now;
    forall u | u in s'.tasks ensures TaskOk(s'.past, s'.now, s'.tasks[u]) {
      if u != task { TaskStaysOk(s.past, s'.past, s.now, s'.now, s.tasks[u]); }
    }
  }

  lemma AnswerKeepsInv(s: State, task: TaskId, result: SendResult)
    requires Inv(s)
    ensures Inv(Answered(s, task, result))
  {
    if task in s.tasks && s.tasks[task].Sending? && s.now >= s.tasks[task].wake {
      assert TaskOk(s.past, s.now, s.tasks[task]);
      if result == Retryable && |s.tasks[task].results| < |RETRY_DELAYS| {
        RetryKeepsInv(s, task);
      } else {
        EndKeepsInv(s, task, result);
      }
    }
  }

  lemma WriteKeepsInv(s: State, task: TaskId, commits: bool)
    requires Inv(s)
    ensures Inv(Written(s, task, commits))
  {
    if task in s.tasks && s.tasks[task].Finishing? {
      var t := s.tasks[task];
      assert TaskOk(s.past, s.now, t);
      var w := if commits then s.(rows := Finish(s.rows, t.written, t.outcome, s.now)) else s;
      forall id | id in w.past.inserted ensures Accounted(w.rows, w.past, id) {
        assert Accounted(s.rows, s.past, id);
      }
      forall u | u in w.tasks ensures TaskOk(w.past, w.now, w.tasks[u]) {
        assert TaskOk(s.past, s.now, s.tasks[u]);
      }
      forall d | d in w.past.deliveries ensures DeliveryOk(w.past, d) {
        assert DeliveryOk(s.past, d);
      }
      NextKeepsInv(w, task, t.rest);
    }
  }

  lemma PruneKeepsInv(s: State)
    requires Inv(s)
    ensures Inv(PruneAll(s))
  {
    var s' := PruneAll(s);
    forall id | id in s'.past.inserted ensures Accounted(s'.rows, s'.past, id) {
      assert Accounted(s.rows, s.past, id);
    }
    forall t | t in s'.tasks ensures TaskOk(s'.past, s'.now, s'.tasks[t]) {
      TaskStaysOk(s.past, s'.past, s.now, s'.now, s.tasks[t]);
    }
    forall d | d in s'.past.deliveries ensures DeliveryOk(s'.past, d) {
      assert DeliveryOk(s.past, d);
    }
  }

  lemma ListedIsOwn(s: State, queue: seq<Entry>)
    requires Inv(s) && Lists(s.rows, queue)
    ensures QueueOk(s.past.inserted, queue)
  {
    forall i | 0 <= i < |queue| ensures OwnText(s.past.inserted, Some(queue[i].id), queue[i].mail) {
      assert Accounted(s.rows, s.past, queue[i].id);
    }
  }

  /** The passing of time, crashes and new releases. */
  lemma OtherKeepsInv(s: State, e: Event)
    requires Inv(s) && (e.Tick? || e.Crash? || e.Release?)
    ensures Inv(Step(s, e))
  {
    var s' := Step(s, e);
    forall id | id in s'.past.inserted ensures Accounted(s'.rows, s'.past, id) {
      assert Accounted(s.rows, s.past, id);
    }
    forall t | t in s'.tasks ensures TaskOk(s'.past, s'.now, s'.tasks[t]) {
      TaskStaysOk(s.past, s'.past, s.now, s'.now, s.tasks[t]);
    }
    forall d | d in s'.past.deliveries ensures DeliveryOk(s'.past, d) {
      assert DeliveryOk(s.past, d);
    }
  }

  lemma StepKeepsInv(s: State, e: Event)
    requires Inv(s)
    ensures Inv(Step(s, e))
  {
    match e
    case Tick(_) => OtherKeepsInv(s, e);
    case Crash(_) => OtherKeepsInv(s, e);
    case Release(_) => OtherKeepsInv(s, e);
    case Dispatch(task, id, mail, ok) => DispatchKeepsInv(s, task, id, mail, ok);
    case Restart(task, queue) =>
      if task !in s.tasks && Lists(s.rows, queue) {
        ListedIsOwn(s, queue);
        NextKeepsInv(s, task, queue);
      }
    case Answer(task, result) => AnswerKeepsInv(s, task, result);
    case Write(task, ok) => WriteKeepsInv(s, task, ok);
    case Prune => PruneKeepsInv(s);
  }

  lemma RunKeepsInv(s: State, events: seq<Event>)
    requires Initial(s)
    ensures Inv(Run(Step, s, events))
  {
    forall t, e | Inv(t) ensures Inv(Step(t, e)) { StepKeepsInv(t, e); }
    Invariant(Step, Inv, s, events);
  }

  // ---- the promises --------------------------------------------------------------------

  /**
   * Whatever crashes, restarts and failed writes a run has seen, a mail whose insert committed is pending, was
   * accepted by the transport, or is dead (or was pruned more than 30 days after) because a whole delivery of it had
   * given up.
   */
  lemma NoMailIsLost(s: State, events: seq<Event>, id: MailId)
    requires Initial(s) && id in Run(Step, s, events).past.inserted
    ensures var now := Run(Step, s, events);
            || (id in now.rows && now.rows[id].status == Pending)
            || Delivered(now.past, id)
            || (id in now.rows && now.rows[id].status == Dead && GivenUp(now.past, id, now.rows[id].updated))
            || (id !in now.rows && id in now.past.pruned
                && now.past.pruned[id].at > now.past.pruned[id].deadSince + 30 * DAY
                && GivenUp(now.past, id, now.past.pruned[id].deadSince))
  {
    RunKeepsInv(s, events);
    var now := Run(Step, s, events);
    assert Accounted(now.rows, now.past, id);
  }

  /**
   * Every delivery in every run sends the text that was stored, at most three times, never again after an error that is
   * not retryable; one that gave up on retryable errors alone had been trying for at least five seconds.
   */
  lemma EveryDeliveryIsBounded(s: State, events: seq<Event>, d: Delivery)
    requires Initial(s) && d in Run(Step, s, events).past.deliveries
    ensures 1 <= |d.results| <= 3
    ensures forall i :: 0 <= i < |d.results| - 1 ==> d.results[i] == Retryable
    ensures var past := Run(Step, s, events).past;
            d.id.Some? ==> d.id.value in past.inserted && past.inserted[d.id.value] == d.mail
    ensures Accepted !in d.results && Permanent !in d.results ==> d.until - d.since >= 5 * SECOND
  {
    RunKeepsInv(s, events);
    assert DeliveryOk(Run(Step, s, events).past, d);
    DeliveryBounds(d.results);
  }

  /**
   * At every moment, so also when a crash is about to cut it off, a delivery under way is sending the text that was
   * stored and has made at most two sends before, all answered by retryable errors.
   */
  lemma UnfinishedDeliveryIsBounded(s: State, events: seq<Event>, task: TaskId)
    requires Initial(s) && task in Run(Step, s, events).tasks && Run(Step, s, events).tasks[task].Sending?
    ensures var t, past := Run(Step, s, events).tasks[task], Run(Step, s, events).past;
            && |t.results| <= 2 && (forall i :: 0 <= i < |t.results| ==> t.results[i] == Retryable)
            && (t.id.Some? ==> t.id.value in past.inserted && past.inserted[t.id.value] == t.mail)
  {
    RunKeepsInv(s, events);
    var now := Run(Step, s, events);
    assert TaskOk(now.past, now.now, now.tasks[task]);
  }

  // ---- a mail's way out ----------------------------------------------------------------

  /** A fresh task for a fresh mail. */
  predicate Fresh(s: State, task: TaskId, id: MailId) {
    task !in s.tasks && id !in s.past.inserted && id !in s.rows
  }

  /** A mail whose insert committed and that the transport accepts at once leaves no row behind. */
  lemma AcceptedMailLeaves(s: State, task: TaskId, id: MailId, mail: Mail)
    requires Fresh(s, task, id)
    ensures var sent := Step(Step(s, Dispatch(task, id, mail, true)), Answer(task, Accepted));
            var done := Step(sent, Write(task, true));
            && done.rows == s.rows && task !in done.tasks
            && done.past.deliveries == s.past.deliveries + [Delivery(Some(id), mail, [Accepted], s.now, s.now)]
  {
    var a := Step(s, Dispatch(task, id, mail, true));
    assert a.tasks[task] == Sending(Some(id), mail, [], s.now, s.now, []);
    var b := Step(a, Answer(task, Accepted));
    assert b.tasks[task] == Finishing(id, Sent, []) && b.rows == a.rows;
    assert b.past.deliveries == s.past.deliveries + [Delivery(Some(id), mail, [Accepted], s.now, s.now)] by {
      assert [] + [Accepted] == [Accepted];
    }
    assert a.rows - {id} == s.rows;
  }

  /** A mail that is refused for good stays, marked dead, with its text. */
  lemma RefusedMailStays(s: State, task: TaskId, id: MailId, mail: Mail)
    requires Fresh(s, task, id)
    ensures var sent := Step(Step(s, Dispatch(task, id, mail, true)), Answer(task, Permanent));
            var done := Step(sent, Write(task, true));
            done.rows == s.rows[id := Row(Json(mail), Dead, s.now)] && task !in done.tasks
  {
    var a := Step(s, Dispatch(task, id, mail, true));
    assert a.tasks[task] == Sending(Some(id), mail, [], s.now, s.now, []);
    var b := Step(a, Answer(task, Permanent));
    assert b.tasks[task] == Finishing(id, GaveUp, []) && b.rows == a.rows;
  }

  /** A mail whose insert failed is sent all the same, without a row. */
  lemma UnstoredMailIsSent(s: State, task: TaskId, id: MailId, mail: Mail)
    requires Fresh(s, task, id)
    ensures var done := Step(Step(s, Dispatch(task, id, mail, false)), Answer(task, Accepted));
            && done.rows == s.rows && task !in done.tasks
            && done.past.deliveries == s.past.deliveries + [Delivery(None, mail, [Accepted], s.now, s.now)]
  {
    var a := Step(s, Dispatch(task, id, mail, false));
    assert a.tasks[task] == Sending(None, mail, [], s.now, s.now, []);
    assert [] + [Accepted] == [Accepted];
  }

  /** Pruning removes exactly the mails that have been dead for more than 30 days. */
  lemma PruneWorks(s: State)
    ensures var pruned := Step(s, Prune).rows;
            && (forall id :: id in pruned <==>
                  id in s.rows && !(s.rows[id].status == Dead && s.rows[id].updated < s.now - 30 * DAY))
            && (forall id :: id in pruned ==> pruned[id] == s.rows[id])
  {
  }

  /**
   * After a retryable error the mail is sent again, not before the delay is over.
   */
  lemma RetriesAfterDelay(s: State, task: TaskId, result: SendResult)
    requires task in s.tasks && s.tasks[task].Sending? && s.tasks[task].wake <= s.now
    requires |s.tasks[task].results| < 2
    ensures var after := Step(s, Answer(task, Retryable));
            && task in after.tasks && after.tasks[task].Sending? && after.tasks[task].mail == s.tasks[task].mail
            && after.tasks[task].results == s.tasks[task].results + [Retryable]
            && after.tasks[task].wake == s.now + (if |s.tasks[task].results| == 0 then 1 else 4) * SECOND
            && Step(after, Answer(task, result)) == after
  {
  }

  // ---- a restart drops no mail ---------------------------------------------------------

  /** The task is sending that mail, or still has it in its queue. */
  predicate InHand(t: Task, id: MailId) {
    (t.Sending? && t.id == Some(id)) || exists i :: 0 <= i < |t.rest| && t.rest[i].id == id
  }

  /** A whole delivery of the mail has ended since there were `n` of them. */
  predicate DeliveredSince(past: History, n: nat, id: MailId) {
    exists i :: n <= i < |past.deliveries| && past.deliveries[i].id == Some(id) && Complete(past.deliveries[i].results)
  }

  predicate TakenCareOf(s: State, task: TaskId, n: nat, id: MailId) {
    && n <= |s.past.deliveries|
    && (DeliveredSince(s.past, n, id) || (task in s.tasks && InHand(s.tasks[task], id)))
    && (task in s.tasks && s.tasks[task].Sending? && s.tasks[task].id == None ==> s.tasks[task].rest == [])
  }

  /** The process running the task does not crash. */
  function Survives(task: TaskId): (State, Event) -> bool {
    (s: State, e: Event) => e.Crash? ==> task !in e.victims
  }

  lemma NextTakesCare(s: State, task: TaskId, rest: seq<Entry>, n: nat, id: MailId)
    requires n <= |s.past.deliveries|
    requires DeliveredSince(s.past, n, id) || exists i :: 0 <= i < |rest| && rest[i].id == id
    ensures TakenCareOf(Next(s, task, rest), task, n, id)
  {
    if !DeliveredSince(s.past, n, id) {
      var i :| 0 <= i < |rest| && rest[i].id == id;
      if i > 0 { assert rest[1..][i - 1].id == id; }
    }
  }

  lemma DeliveredStays(past: History, d: Delivery, n: nat, id: MailId)
    requires DeliveredSince(past, n, id)
    ensures DeliveredSince(AfterDelivery(past, d), n, id)
  {
    var i :| && n <= i < |past.deliveries| && past.deliveries[i].id == Some(id)
             && Complete(past.deliveries[i].results);
    assert AfterDelivery(past, d).deliveries[i] == past.deliveries[i];
  }

  lemma DeliveredNow(past: History, d: Delivery, n: nat, id: MailId)
    requires n <= |past.deliveries| && d.id == Some(id) && Complete(d.results)
    ensures DeliveredSince(AfterDelivery(past, d), n, id)
  {
    assert AfterDelivery(past, d).deliveries[|past.deliveries|] == d;
  }

  lemma AnswerTakesCare(s: State, task: TaskId, n: nat, id: MailId, result: SendResult)
    requires Inv(s) && TakenCareOf(s, task, n, id)
    requires task in s.tasks && s.tasks[task].Sending? && s.now >= s.tasks[task].wake
    ensures TakenCareOf(Answered(s, task, result), task, n, id)
  {
    var t := s.tasks[task];
    assert TaskOk(s.past, s.now, t);
    if result != Retryable || |t.results| == |RETRY_DELAYS| {
      OneMoreAnswer(t.results, result);
      var d := Ended(t, result, s.now);
      if DeliveredSince(s.past, n, id) {
        DeliveredStays(s.past, d, n, id);
      } else if t.id == Some(id) {
        DeliveredNow(s.past, d, n, id);
      }
    }
  }

  /** Steps of other tasks, and of the table, leave this one alone and only add deliveries. */
  lemma OthersTakeCare(s: State, s': State, task: TaskId, n: nat, id: MailId)
    requires TakenCareOf(s, task, n, id) && s.past.deliveries <= s'.past.deliveries
    requires task in s.tasks ==> task in s'.tasks && s'.tasks[task] == s.tasks[task]
    requires task in s'.tasks && task !in s.tasks && s'.tasks[task].Sending? && s'.tasks[task].id == None
             ==> s'.tasks[task].rest == []
    ensures TakenCareOf(s', task, n, id)
  {
    if DeliveredSince(s.past, n, id) {
      var i :| && n <= i < |s.past.deliveries| && s.past.deliveries[i].id == Some(id)
               && Complete(s.past.deliveries[i].results);
      assert s'.past.deliveries[i] == s.past.deliveries[i];
    }
  }

  lemma StepTakesCare(s: State, task: TaskId, n: nat, id: MailId, e: Event)
    requires Inv(s) && TakenCareOf(s, task, n, id) && Survives(task)(s, e)
    ensures TakenCareOf(Step(s, e), task, n, id)
  {
    match e
    case Answer(k, result) =>
      if k == task && task in s.tasks && s.tasks[task].Sending? && s.now >= s.tasks[task].wake {
        AnswerTakesCare(s, task, n, id, result);
      } else {
        OthersTakeCare(s, Step(s, e), task, n, id);
      }
    case Write(k, commits) =>
      if k == task && task in s.tasks && s.tasks[task].Finishing? {
        var t := s.tasks[task];
        var w := if commits then s.(rows := Finish(s.rows, t.written, t.outcome, s.now)) else s;
        NextTakesCare(w, task, t.rest, n, id);
      } else {
        OthersTakeCare(s, Step(s, e), task, n, id);
      }
    case _ => OthersTakeCare(s, Step(s, e), task, n, id);
  }

  /**
   * A restart drops no mail: unless its process crashes too, every mail that was waiting has since been through a whole
   * delivery, or the task still has it in hand. When the task has ended, all of them have been delivered.
   */
  lemma RestartPicksUpAll(
    s: State, before: seq<Event>, task: TaskId, queue: seq<Entry>, after: seq<Event>, id: MailId)
    requires Initial(s) && task !in Run(Step, s, before).tasks
    requires Lists(Run(Step, s, before).rows, queue) && id in Waiting(Run(Step, s, before).rows)
    requires Allowed(Step, Survives(task), Run(Step, s, before + [Restart(task, queue)]), after)
    ensures var end := Run(Step, s, before + [Restart(task, queue)] + after);
            || DeliveredSince(end.past, |Run(Step, s, before).past.deliveries|, id)
            || (task in end.tasks && InHand(end.tasks[task], id))
  {
    var started := before + [Restart(task, queue)];
    var n := |Run(Step, s, before).past.deliveries|;
    RunKeepsInv(s, started);
    RunThen(Step, s, before, Restart(task, queue));
    NextTakesCare(Run(Step, s, before), task, queue, n, id);
    RunConcat(Step, s, started, after);
    var inv := t => Inv(t) && TakenCareOf(t, task, n, id);
    forall t, e | inv(t) && Survives(task)(t, e) ensures inv(Step(t, e)) {
      StepKeepsInv(t, e);
      StepTakesCare(t, task, n, id, e);
    }
    InvariantWhile(Step, Survives(task), inv, Run(Step, s, started), after);
  }

  /** A crash loses the tasks and nothing else; a write that fails leaves the table as it was and the task goes on. */
  lemma CrashLosesTasksOnly(s: State, victims: set<TaskId>, task: TaskId)
    requires task in s.tasks && s.tasks[task].Finishing?
    ensures var crashed := Step(s, Crash(victims));
            crashed.tasks.Keys == s.tasks.Keys - victims && crashed.rows == s.rows && crashed.past == s.past
    ensures var unwritten := Step(s, Write(task, false));
            && unwritten.rows == s.rows && unwritten.past == s.past
            && (s.tasks[task].rest == [] ==> task !in unwritten.tasks)
  {
  }
}
