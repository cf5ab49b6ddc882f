// What each Postgres transaction of the dispatch path does to the rows. Every
// function gives the rows after a commit, or the error of a transaction that
// changed nothing.
module Transactions {
  import opened Wrappers
  import opened Rows

  datatype Error = NotFound | Conflict | AlreadyFinalized | AlreadyProcessing | InvalidTransition

  type Tx = Result<Db, Error>

  // The rows a reader sees after the call, whether or not it committed.
  function After(tx: Tx, db: Db): Db {
    tx.GetOr(db)
  }

  // ---------------------------------------------------------------- inserts

  // The primary key and the unique (notification, channel, attempt_number).
  ghost predicate SlotTaken(db: Db, a: AttemptId, key: Key, number: nat) {
    a in db.attempts
    || exists b :: b in db.attempts && db.attempts[b].key == key && db.attempts[b].number == number
  }

  ghost function InsertAttempt(db: Db, a: AttemptId, key: Key, number: nat): Tx {
    if SlotTaken(db, a, key, number) then Err(Conflict)
    else Ok(db.(attempts := db.attempts[a := Attempt(key, number, Pending, None, None)]))
  }

  // INSERT … ON CONFLICT (attempt_id) DO NOTHING. The status and published_at of
  // a repaired row follow the attempt's own dispatch marker.
  function InsertIntent(db: Db, a: AttemptId, source: Source, enqueuedAt: Option<Time>): Db {
    if a in db.outbox then db
    else db.(outbox := db.outbox[a :=
        Intent(source, if enqueuedAt.Some? then Published else Unpublished, None, enqueuedAt)])
  }

  // ------------------------------------------------------------- submission

  predicate IdTaken(db: Db, key: Key) {
    Key(key.notification, Webhook) in db.notifications || Key(key.notification, Email) in db.notifications
  }

  ghost function CreateNotification(db: Db, key: Key, scheduledFor: Option<Time>, now: Time): Tx {
    if IdTaken(db, key) then Err(Conflict)
    else
      var row := Notification(now, scheduledFor, None, None, if scheduledFor.Some? && scheduledFor.value > now then Scheduled else Accepted);
      match InsertAttempt(db.(notifications := db.notifications[key := row]), Initial(key), key, 1)
      case Err(e) => Err(e)
      case Ok(db') =>
        if scheduledFor.None? || scheduledFor.value <= now then Ok(InsertIntent(db', Initial(key), FromInitial, None))
        else Ok(db')
  }

  ghost function EnsureInitial(db: Db, key: Key): Tx {
    if key !in db.notifications then Err(NotFound)
    else
      var db' := InsertAttempt(db, Initial(key), key, 1).GetOr(db);
      if Initial(key) !in db'.attempts then Err(NotFound)
      else Ok(InsertIntent(db', Initial(key), FromInitial, db'.attempts[Initial(key)].enqueuedAt))
  }

  // -------------------------------------------------------- retry and replay

  predicate RetryDue(row: Attempt, now: Time) {
    row.status == RetryScheduled && row.nextRetryAt.Some? && row.nextRetryAt.value <= now
  }

  function RetireScheduled(db: Db, a: AttemptId): Db {
    if HasStatus(db, a, RetryScheduled)
    then db.(attempts := db.attempts[a := db.attempts[a].(status := Failed, nextRetryAt := None)])
    else db
  }

  ghost function EnsureRetry(db: Db, scheduled: AttemptId, now: Time): Tx {
    if scheduled !in db.attempts then Err(NotFound)
    else
      var row := db.attempts[scheduled];
      var child := Retry(scheduled);
      if child in db.attempts then
        Ok(RetireScheduled(InsertIntent(db, child, FromRetry, db.attempts[child].enqueuedAt), scheduled))
      else if !RetryDue(row, now) then Err(NotFound)
      else
        match InsertAttempt(db, child, row.key, row.number + 1)
        case Err(e) => Err(e)
        case Ok(db') => Ok(RetireScheduled(InsertIntent(db', child, FromRetry, None), scheduled))
  }

  ghost function NumbersOf(db: Db, key: Key): set<nat> {
    set a | a in db.attempts && db.attempts[a].key == key :: db.attempts[a].number
  }

  // COALESCE(MAX(attempt_number), 0)
  ghost function MaxOf(s: set<nat>): (m: nat)
    ensures s == {} ==> m == 0
    ensures s != {} ==> m in s
    ensures forall x :: x in s ==> x <= m
  {
    if s == {} then 0
    else
      var x :| x in s;
      var rest := MaxOf(s - {x});
      assert forall y :: y in s ==> y == x || y in s - {x};
      if rest > x then rest else x
  }

  function LinkReplay(db: Db, d: DeadLetterId, a: AttemptId): Db {
    if d in db.deadLetters && db.deadLetters[d].replayAttempt.None?
    then db.(deadLetters := db.deadLetters[d := db.deadLetters[d].(replayAttempt := Some(a))])
    else db
  }

  ghost function EnsureReplay(db: Db, d: DeadLetterId): Tx {
    if d !in db.deadLetters then Err(NotFound)
    else
      var row := db.deadLetters[d];
      if row.replayedAt.Some? && row.replayAttempt.Some? then
        if row.replayAttempt.value in db.attempts then Ok(db) else Err(NotFound)
      else
        var a := row.replayAttempt.GetOr(Replay(d));
        if a in db.attempts then
          Ok(LinkReplay(InsertIntent(db, a, FromReplay, db.attempts[a].enqueuedAt), d, a))
        else
          match InsertAttempt(db, a, row.key, MaxOf(NumbersOf(db, row.key)) + 1)
          case Err(e) => Err(e)
          case Ok(db') => Ok(LinkReplay(InsertIntent(db', a, FromReplay, None), d, a))
  }

  // ------------------------------------------------------- attempt transitions

  function SetStatus(db: Db, a: AttemptId, status: AttemptStatus, nextRetryAt: Option<Time>): Db
    requires a in db.attempts
  {
    db.(attempts := db.attempts[a := db.attempts[a].(status := status, nextRetryAt := nextRetryAt)])
  }

  function MarkInProgress(db: Db, a: AttemptId): Tx {
    if a !in db.attempts then Err(NotFound)
    else if db.attempts[a].status == Pending then Ok(SetStatus(db, a, InProgress, db.attempts[a].nextRetryAt))
    else if db.attempts[a].status == InProgress then Err(AlreadyProcessing)
    else Err(AlreadyFinalized)
  }

  // The compare-and-set all four outcome transitions share.
  function Finish(db: Db, a: AttemptId, status: AttemptStatus, nextRetryAt: Option<Time>): Tx {
    if a !in db.attempts then Err(NotFound)
    else if db.attempts[a].status == InProgress then Ok(SetStatus(db, a, status, nextRetryAt))
    else if Finalized(db.attempts[a].status) then Err(AlreadyFinalized)
    else Err(InvalidTransition)
  }

  function MarkSent(db: Db, a: AttemptId): Tx {
    Finish(db, a, Sent, if a in db.attempts then db.attempts[a].nextRetryAt else None)
  }

  function MarkFailed(db: Db, a: AttemptId): Tx {
    Finish(db, a, Failed, if a in db.attempts then db.attempts[a].nextRetryAt else None)
  }

  function ScheduleRetry(db: Db, a: AttemptId, at: Time): Tx {
    Finish(db, a, RetryScheduled, Some(at))
  }

  function MarkDeadLettered(db: Db, a: AttemptId): Tx {
    Finish(db, a, DeadLettered, None)
  }

  function InsertDeadLetter(db: Db, d: DeadLetterId, key: Key, now: Time): Tx {
    if d in db.deadLetters then Err(Conflict)
    else Ok(db.(deadLetters := db.deadLetters[d := DeadLetter(key, now, None, None)]))
  }

  // ------------------------------------------------------------------ outbox

  // A row one claim may lease: waiting, or leased so long ago that it is stale.
  predicate Claimable(db: Db, a: AttemptId, now: Time, staleAfter: nat) {
    a in db.outbox
    && (db.outbox[a].status == Unpublished
        || (db.outbox[a].status == Publishing && db.outbox[a].claimedAt.Some?
            && db.outbox[a].claimedAt.value + staleAfter <= now))
  }

  function Lease(db: Db, batch: set<AttemptId>, now: Time): Db {
    db.(outbox := map a | a in db.outbox ::
        if a in batch then db.outbox[a].(status := Publishing, claimedAt := Some(now)) else db.outbox[a])
  }

  predicate HeldBy(db: Db, a: AttemptId, claimedAt: Time) {
    a in db.outbox && db.outbox[a].status == Publishing && db.outbox[a].claimedAt == Some(claimedAt)
  }

  function MarkReplayed(db: Db, a: AttemptId, now: Time): Db {
    db.(deadLetters := map d | d in db.deadLetters ::
        if db.deadLetters[d].replayAttempt == Some(a)
        then db.deadLetters[d].(replayedAt := Some(db.deadLetters[d].replayedAt.GetOr(now)))
        else db.deadLetters[d])
  }

  function MarkEnqueued(db: Db, a: AttemptId, now: Time): Db {
    if a !in db.attempts then db
    else db.(attempts := db.attempts[a := db.attempts[a].(enqueuedAt := Some(db.attempts[a].enqueuedAt.GetOr(now)))])
  }

  function MarkPublished(db: Db, a: AttemptId, claimedAt: Time, now: Time): Tx {
    if HeldBy(db, a, claimedAt) then
      var row := db.outbox[a];
      var db1 := db.(outbox := db.outbox[a :=
          row.(status := Published, claimedAt := None, publishedAt := Some(row.publishedAt.GetOr(now)))]);
      var db2 := MarkEnqueued(db1, a, now);
      Ok(if row.source == FromReplay then MarkReplayed(db2, a, now) else db2)
    else if a !in db.outbox then Err(NotFound)
    else if db.outbox[a].status == Published then Ok(db)
    else Err(InvalidTransition)
  }

  function RecordIntentError(db: Db, a: AttemptId, claimedAt: Time): Tx {
    if HeldBy(db, a, claimedAt) then
      Ok(db.(outbox := db.outbox[a := db.outbox[a].(status := Unpublished, claimedAt := None)]))
    else if a !in db.outbox then Err(NotFound)
    else if db.outbox[a].status == Published then Ok(db)
    else Err(InvalidTransition)
  }

  // -------------------------------------------------------------- scheduling

  // The part of the promotion and redrive guards they share.
  predicate NotYetPromoted(db: Db, key: Key) {
    key in db.notifications
    && db.notifications[key].promotedAt.None?
    && db.notifications[key].cancelledAt.None?
    && Initial(key) in db.attempts
    && db.attempts[Initial(key)].number == 1
    && Initial(key) !in db.outbox
  }

  predicate ScheduleDue(db: Db, key: Key, now: Time) {
    key in db.notifications && db.notifications[key].scheduledFor.Some? && db.notifications[key].scheduledFor.value <= now
  }

  function MarkPromoted(db: Db, key: Key, now: Time): Db
    requires key in db.notifications
  {
    db.(notifications := db.notifications[key := db.notifications[key].(promotedAt := Some(now))])
  }

  // One row of a promotion sweep.
  function Promote(db: Db, key: Key, paused: bool, now: Time): Tx {
    if !NotYetPromoted(db, key) || !ScheduleDue(db, key, now) || paused then Err(NotFound)
    else Ok(MarkPromoted(InsertIntent(db, Initial(key), FromSchedule, None), key, now))
  }

  function Redrive(db: Db, key: Key, paused: bool, now: Time): Tx {
    if key !in db.notifications then Err(NotFound)
    else if !NotYetPromoted(db, key) || paused then Err(InvalidTransition)
    else Ok(MarkPromoted(InsertIntent(db, Initial(key), FromRedrive, None), key, now))
  }

  predicate HasOutboxRow(db: Db, key: Key) {
    exists a :: a in db.outbox && KeyOf(a) == key
  }

  function Cancel(db: Db, key: Key, now: Time): Tx {
    if key !in db.notifications then Err(NotFound)
    else
      var row := db.notifications[key];
      if row.scheduledFor.Some? && row.scheduledFor.value > now && row.rollup == Scheduled
         && row.promotedAt.None? && row.cancelledAt.None? && !HasOutboxRow(db, key)
      then Ok(db.(notifications := db.notifications[key := row.(rollup := Cancelled, cancelledAt := Some(now))]))
      else Err(InvalidTransition)
  }

  function WriteRollup(db: Db, key: Key, rollup: Rollup): Tx {
    if key !in db.notifications then Err(NotFound)
    else Ok(db.(notifications := db.notifications[key := db.notifications[key].(rollup := rollup)]))
  }

  // -------------------------------------------------------------- maintenance

  function CleanOutbox(db: Db, cutoff: Time): Db {
    db.(outbox := map a | a in db.outbox
        && !(db.outbox[a].status == Published && db.outbox[a].publishedAt.Some? && db.outbox[a].publishedAt.value < cutoff)
        :: db.outbox[a])
  }

  function CleanDeadLetters(db: Db, cutoff: Time): Db {
    db.(deadLetters := map d | d in db.deadLetters
        && !(db.deadLetters[d].replayedAt.Some? && db.deadLetters[d].replayedAt.value < cutoff)
        :: db.deadLetters[d])
  }
}
