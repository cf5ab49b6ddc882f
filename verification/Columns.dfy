// What each transaction asks of the columns it reads and writes into them, said
// on the columns themselves, in every state a run can reach: where a guard
// leaves no room for a constraint to fail, none does.
module Columns {
  import opened Wrappers
  import opened Rows
  import opened Transactions
  import opened Protocol
  import opened Chain
  import opened Steps
  import opened Markers
  import opened Claims
  import opened Token

  // ------------------------------------------------------------------ retries

  // A retry is created exactly when its attempt waits for one and its time has
  // come, with the next number and an intent to be published; the attempt that
  // waited is failed in the same transaction. Otherwise there is nothing to retry.
  lemma RetryOnTime(acts: seq<Action>, a: AttemptId)
    requires a in Exec(acts).db.attempts && Retry(a) !in Exec(acts).db.attempts
    ensures var s := Exec(acts);
      var row, tx := s.db.attempts[a], EnsureRetry(s.db, a, s.now);
      if row.status == RetryScheduled && row.nextRetryAt.Some? && row.nextRetryAt.value <= s.now then
        && tx.Ok?
        && tx.value.attempts == s.db.attempts[Retry(a) := Attempt(row.key, row.number + 1, Pending, None, None)]
                                             [a := Attempt(row.key, row.number, Failed, None, row.enqueuedAt)]
        && tx.value.outbox == s.db.outbox[Retry(a) := Intent(FromRetry, Unpublished, None, None)]
        && tx.value.notifications == s.db.notifications && tx.value.deadLetters == s.db.deadLetters
      else tx == Err(NotFound)
  {
    Always(acts);
    var s := Exec(acts);
    if s.db.attempts[a].status == RetryScheduled { RetrySlotFree(s.db, a); }
    assert Retry(a) !in s.db.outbox;
  }

  // Repeated, it only restores the intent, closed if the retry was enqueued.
  lemma RetryRepeated(db: Db, a: AttemptId, now: Time)
    requires a in db.attempts && Retry(a) in db.attempts && db.attempts[a].status == Failed
    ensures var child, tx := db.attempts[Retry(a)], EnsureRetry(db, a, now);
      && tx.Ok? && tx.value.attempts == db.attempts
      && tx.value.notifications == db.notifications && tx.value.deadLetters == db.deadLetters
      && tx.value.outbox ==
           if Retry(a) in db.outbox then db.outbox
           else db.outbox[Retry(a) := Intent(FromRetry, if child.enqueuedAt == None then Unpublished else Published, None, child.enqueuedAt)]
  {
  }

  lemma NothingToRetry(db: Db, a: AttemptId, now: Time)
    requires a !in db.attempts
    ensures EnsureRetry(db, a, now) == Err(NotFound)
  {
  }

  // ------------------------------------------------------------------ replays

  // A dead letter is replayed once: the first replay gets the number after the
  // last and an intent to be published, and the letter points to it.
  lemma ReplayOnce(acts: seq<Action>, d: DeadLetterId)
    requires d in Exec(acts).db.deadLetters
    ensures var s := Exec(acts);
      var row, tx, a := s.db.deadLetters[d], EnsureReplay(s.db, d), Replay(d);
      && d.origin in s.db.attempts && tx.Ok?
      && tx.value.notifications == s.db.notifications
      && tx.value.attempts == (
           if a in s.db.attempts then s.db.attempts
           else s.db.attempts[a := Attempt(row.key, s.db.attempts[d.origin].number + 1, Pending, None, None)])
      && tx.value.deadLetters == s.db.deadLetters[d := DeadLetter(row.key, row.deadLetteredAt, row.replayedAt, Some(a))]
      && tx.value.outbox == (
           if a in s.db.outbox || row.replayedAt != None then s.db.outbox
           else s.db.outbox[a := Intent(FromReplay, Unpublished, None, None)])
  {
    Always(acts);
    MarkersAlways(acts);
    var s := Exec(acts);
    assert LetterOk(s.db, d) && LetterMarked(s.db, d);
    if Replay(d) in s.db.attempts {
      assert s.db.deadLetters[d := s.db.deadLetters[d]] == s.db.deadLetters;
    } else {
      FirstReplay(s.db, d);
    }
  }

  lemma FirstReplay(db: Db, d: DeadLetterId)
    requires ChainOk(db) && d in db.deadLetters && Replay(d) !in db.attempts
    ensures var row := db.deadLetters[d];
      && d.origin in db.attempts && row.replayAttempt == None && row.replayedAt == None && Replay(d) !in db.outbox
      && EnsureReplay(db, d) == Ok(Db(
           db.notifications,
           db.attempts[Replay(d) := Attempt(row.key, db.attempts[d.origin].number + 1, Pending, None, None)],
           db.outbox[Replay(d) := Intent(FromReplay, Unpublished, None, None)],
           db.deadLetters[d := DeadLetter(row.key, row.deadLetteredAt, None, Some(Replay(d)))]))
  {
    assert LetterOk(db, d) && AttemptOk(db, d.origin);
    ReplaySlotFree(db, d);
  }

  // ------------------------------------------------------------------- outbox

  // A claim is allowed for one to ten different rows that wait, or whose lease
  // has lasted the timeout, and that are not paused; it stamps them with now and
  // hands them to a new publisher in that order, and touches nothing else.
  lemma ClaimStamps(s: State, pid: nat, batch: seq<AttemptId>)
    requires pid !in s.procs
    ensures var s' := Apply(s, Publish(pid, OpClaim(batch)));
      if 1 <= |batch| <= 10 && (forall i, j :: 0 <= i < j < |batch| ==> batch[i] != batch[j])
         && (forall a :: a in batch ==> Leasable(s, a))
      then
        && pid in s'.procs && s'.procs[pid].Publisher? && s'.procs[pid].publish == ToEnqueue
        && |s'.procs[pid].batch| == |batch|
        && (forall i :: 0 <= i < |batch| ==> s'.procs[pid].batch[i] == Claim(batch[i], s.now))
        && s'.db.outbox.Keys == s.db.outbox.Keys
        && (forall a :: a in s.db.outbox ==>
              s'.db.outbox[a] == if a in batch then Intent(s.db.outbox[a].source, Publishing, Some(s.now), s.db.outbox[a].publishedAt)
                                 else s.db.outbox[a])
        && s' == s.(db := s.db.(outbox := s'.db.outbox), procs := s.procs[pid := s'.procs[pid]])
      else s' == s
  {
    forall a | a in batch ensures Leasable(s, a) <==> Claimable(s.db, a, s.now, CLAIM_TIMEOUT) && KeyOf(a) !in s.paused {
    }
  }

  predicate Leasable(s: State, a: AttemptId) {
    && a in s.db.outbox && KeyOf(a) !in s.paused
    && (s.db.outbox[a].status == Unpublished
        || (s.db.outbox[a].status == Publishing && s.db.outbox[a].claimedAt.Some? && s.now - s.db.outbox[a].claimedAt.value >= 165))
  }

  function Stamped(was: Option<Time>, now: Time): Option<Time> {
    if was == None then Some(now) else was
  }

  // A mark under a current lease closes the row and stamps it, its attempt and,
  // for a replay, the dead letters it replays: with now, or keeps the stamp there.
  lemma MarkStamps(db: Db, a: AttemptId, claimedAt: Time, now: Time)
    requires Valid(db, Claim(a, claimedAt))
    ensures var tx, row := MarkPublished(db, a, claimedAt, now), db.outbox[a];
      && tx.Ok? && tx.value.notifications == db.notifications
      && tx.value.outbox == db.outbox[a := Intent(row.source, Published, None, Stamped(row.publishedAt, now))]
      && tx.value.attempts.Keys == db.attempts.Keys
      && (forall b :: b in db.attempts ==>
            var was := db.attempts[b];
            tx.value.attempts[b] ==
              if b == a then Attempt(was.key, was.number, was.status, was.nextRetryAt, Stamped(was.enqueuedAt, now)) else was)
      && tx.value.deadLetters.Keys == db.deadLetters.Keys
      && (forall d :: d in db.deadLetters ==>
            var was := db.deadLetters[d];
            tx.value.deadLetters[d] ==
              if row.source == FromReplay && was.replayAttempt == Some(a)
              then DeadLetter(was.key, was.deadLetteredAt, Stamped(was.replayedAt, now), was.replayAttempt) else was)
  {
  }

  // A release under a current lease puts the row back to waiting.
  lemma ReleaseReopens(db: Db, a: AttemptId, claimedAt: Time)
    requires Valid(db, Claim(a, claimedAt))
    ensures var row := db.outbox[a];
      RecordIntentError(db, a, claimedAt) ==
        Ok(Db(db.notifications, db.attempts, db.outbox[a := Intent(row.source, Unpublished, None, row.publishedAt)], db.deadLetters))
  {
  }

  // Without the lease neither writes; a row that is published already is fine.
  lemma WithoutLease(db: Db, a: AttemptId, claimedAt: Time, now: Time)
    requires !Valid(db, Claim(a, claimedAt))
    ensures MarkPublished(db, a, claimedAt, now) == RecordIntentError(db, a, claimedAt) ==
      if a !in db.outbox then Err(NotFound) else if db.outbox[a].status == Published then Ok(db) else Err(InvalidTransition)
  {
  }

  // ----------------------------------------------------------------- attempts

  // An attempt is activated from pending and finished from in progress; a row in
  // any other status tells why it is not, and stays as it is.
  lemma StatusGuards(db: Db, a: AttemptId, status: AttemptStatus, at: Option<Time>)
    requires a in db.attempts
    ensures var row := db.attempts[a];
      MarkInProgress(db, a) ==
        match row.status
        case Pending =>
          Ok(Db(db.notifications, db.attempts[a := Attempt(row.key, row.number, InProgress, row.nextRetryAt, row.enqueuedAt)],
                db.outbox, db.deadLetters))
        case InProgress => Err(AlreadyProcessing)
        case _ => Err(AlreadyFinalized)
    ensures var row := db.attempts[a];
      Finish(db, a, status, at) ==
        match row.status
        case InProgress =>
          Ok(Db(db.notifications, db.attempts[a := Attempt(row.key, row.number, status, at, row.enqueuedAt)], db.outbox, db.deadLetters))
        case Pending => Err(InvalidTransition)
        case _ => Err(AlreadyFinalized)
  {
  }

  // The four ways to finish, and the status each leaves.
  lemma FourFinishes(db: Db, a: AttemptId, at: Time)
    requires a in db.attempts && db.attempts[a].status == InProgress
    ensures MarkSent(db, a).Ok? && MarkFailed(db, a).Ok? && ScheduleRetry(db, a, at).Ok? && MarkDeadLettered(db, a).Ok?
    ensures MarkSent(db, a).value.attempts[a] == db.attempts[a].(status := Sent)
    ensures MarkFailed(db, a).value.attempts[a] == db.attempts[a].(status := Failed)
    ensures ScheduleRetry(db, a, at).value.attempts[a].status == RetryScheduled
    ensures ScheduleRetry(db, a, at).value.attempts[a].nextRetryAt == Some(at)
    ensures MarkDeadLettered(db, a).value.attempts[a].status == DeadLettered
    ensures MarkDeadLettered(db, a).value.attempts[a].nextRetryAt == None
  {
  }

  lemma UnknownAttempt(db: Db, a: AttemptId, at: Time)
    requires a !in db.attempts
    ensures MarkInProgress(db, a) == MarkSent(db, a) == MarkFailed(db, a) == ScheduleRetry(db, a, at) == MarkDeadLettered(db, a)
      == Err(NotFound)
  {
  }

  // One row per id, and one per notification, channel and number.
  lemma SlotsAreUnique(db: Db, a: AttemptId, key: Key, number: nat)
    ensures InsertAttempt(db, a, key, number) ==
      if a in db.attempts || (exists b :: b in db.attempts && db.attempts[b].key == key && db.attempts[b].number == number)
      then Err(Conflict)
      else Ok(Db(db.notifications, db.attempts[a := Attempt(key, number, Pending, None, None)], db.outbox, db.deadLetters))
  {
  }

  // What names nothing is not found.
  lemma UnknownLetter(db: Db, d: DeadLetterId)
    requires d !in db.deadLetters || (db.deadLetters[d].replayedAt.Some? && db.deadLetters[d].replayAttempt.Some?
                                      && db.deadLetters[d].replayAttempt.value !in db.attempts)
    ensures EnsureReplay(db, d) == Err(NotFound)
  {
  }

  lemma SlotOfAnother(db: Db, key: Key, b: AttemptId)
    requires Initial(key) !in db.attempts && b in db.attempts && db.attempts[b].key == key && db.attempts[b].number == 1
    ensures EnsureInitial(db, key) == Err(NotFound)
  {
  }

  // --------------------------------------------------------------- submission

  // A new notification is stored with its first attempt, and with an intent
  // unless it is scheduled ahead. The only obstacle is its id.
  lemma CreationStores(acts: seq<Action>, key: Key, scheduledFor: Option<Time>)
    ensures var s := Exec(acts);
      var tx, ahead := CreateNotification(s.db, key, scheduledFor, s.now), scheduledFor.Some? && scheduledFor.value > s.now;
      if exists other: Key :: other in s.db.notifications && other.notification == key.notification then tx == Err(Conflict)
      else tx == Ok(Db(
        s.db.notifications[key := Notification(s.now, scheduledFor, None, None, if ahead then Scheduled else Accepted)],
        s.db.attempts[Initial(key) := Attempt(key, 1, Pending, None, None)],
        if ahead then s.db.outbox else s.db.outbox[Initial(key) := Intent(FromInitial, Unpublished, None, None)],
        s.db.deadLetters))
  {
    Always(acts);
    var s := Exec(acts);
    forall other: Key | other.notification == key.notification
      ensures other == Key(key.notification, Webhook) || other == Key(key.notification, Email) {
      match other.channel case Webhook => case Email =>
    }
    assert Initial(key) in s.db.attempts ==> AttemptOk(s.db, Initial(key));
    if !exists other: Key :: other in s.db.notifications && other.notification == key.notification {
      assert !IdTaken(s.db, key);
      forall b | b in s.db.attempts ensures s.db.attempts[b].key != key { KeyIsStored(s.db, b); }
    }
  }

  // Every attempt belongs to a stored notification.
  lemma {:induction false} KeyIsStored(db: Db, a: AttemptId)
    requires ChainOk(db) && a in db.attempts
    ensures db.attempts[a].key in db.notifications
    decreases Depth(a)
  {
    assert AttemptOk(db, a);
    if !a.Initial? {
      assert AttemptOk(db, Parent(a));
      KeyIsStored(db, Parent(a));
    }
  }

  // A repair finds the first attempt and restores its intent, closed if it was
  // enqueued; it looks at no other column.
  lemma RepairRestores(acts: seq<Action>, key: Key)
    requires key in Exec(acts).db.notifications
    ensures var db := Exec(acts).db;
      && Initial(key) in db.attempts
      && var marker := db.attempts[Initial(key)].enqueuedAt;
      EnsureInitial(db, key) == Ok(Db(
        db.notifications, db.attempts,
        if Initial(key) in db.outbox then db.outbox
        else db.outbox[Initial(key) := Intent(FromInitial, if marker == None then Unpublished else Published, None, marker)],
        db.deadLetters))
  {
    Always(acts);
  }

  // --------------------------------------------------------------- scheduling

  // The promotion sweep dispatches scheduled work exactly when its time has come
  // and it is neither promoted, cancelled, paused nor in the outbox already.
  lemma PromotionOnTime(acts: seq<Action>, key: Key)
    requires key in Exec(acts).db.notifications
    ensures var s := Exec(acts);
      var row, tx := s.db.notifications[key], ApiTx(s, OpPromote(key));
      if row.scheduledFor.Some? && row.scheduledFor.value <= s.now && row.promotedAt == None && row.cancelledAt == None
         && key !in s.paused && Initial(key) !in s.db.outbox
      then tx == Ok(Released(s.db, key, s.now, FromSchedule)) else tx == Err(NotFound)
  {
    Always(acts);
    assert AttemptOk(Exec(acts).db, Initial(key));
  }

  // A redrive does so whatever the schedule says.
  lemma RedriveAtOnce(acts: seq<Action>, key: Key)
    requires key in Exec(acts).db.notifications
    ensures var s := Exec(acts);
      var row, tx := s.db.notifications[key], ApiTx(s, OpRedrive(key));
      if row.promotedAt == None && row.cancelledAt == None && key !in s.held && Initial(key) !in s.db.outbox
      then tx == Ok(Released(s.db, key, s.now, FromRedrive)) else tx == Err(InvalidTransition)
  {
    Always(acts);
    assert AttemptOk(Exec(acts).db, Initial(key));
  }

  ghost function Released(db: Db, key: Key, now: Time, source: Source): Db
    requires key in db.notifications
  {
    var row := db.notifications[key];
    Db(db.notifications[key := Notification(row.submittedAt, row.scheduledFor, Some(now), None, row.rollup)],
       db.attempts, db.outbox[Initial(key) := Intent(source, Unpublished, None, None)], db.deadLetters)
  }

  // A cancellation takes work that is still scheduled, ahead of its time, was
  // not released, and has no attempt in the outbox.
  lemma CancelInTime(db: Db, key: Key, now: Time)
    requires key in db.notifications
    ensures var row, tx := db.notifications[key], Cancel(db, key, now);
      if row.scheduledFor.Some? && row.scheduledFor.value > now && row.rollup == Scheduled
         && row.promotedAt == None && row.cancelledAt == None && (forall a :: a in db.outbox ==> KeyOf(a) != key)
      then tx == Ok(Db(
        db.notifications[key := Notification(row.submittedAt, row.scheduledFor, None, Some(now), Cancelled)],
        db.attempts, db.outbox, db.deadLetters))
      else tx == Err(InvalidTransition)
  {
  }

  lemma UnknownNotification(db: Db, key: Key, held: bool, now: Time, rollup: Rollup)
    requires key !in db.notifications
    ensures EnsureInitial(db, key) == Promote(db, key, held, now) == Redrive(db, key, held, now) == Cancel(db, key, now)
      == WriteRollup(db, key, rollup) == Err(NotFound)
  {
  }

  lemma RollupWritten(db: Db, key: Key, rollup: Rollup)
    requires key in db.notifications
    ensures var row := db.notifications[key];
      WriteRollup(db, key, rollup) == Ok(Db(
        db.notifications[key := Notification(row.submittedAt, row.scheduledFor, row.promotedAt, row.cancelledAt, rollup)],
        db.attempts, db.outbox, db.deadLetters))
  {
  }

  // --------------------------------------------------------------- maintenance

  // Maintenance deletes exactly the closed intents stamped before the cutoff and
  // the dead letters replayed before it; a stamp of the cutoff itself stays.
  lemma CleanupDeletes(db: Db, cutoff: Time)
    ensures var db' := CleanOutbox(db, cutoff);
      && db' == Db(db.notifications, db.attempts, db'.outbox, db.deadLetters)
      && (forall a :: a in db'.outbox <==>
            && a in db.outbox
            && (db.outbox[a].status in {Unpublished, Publishing} || db.outbox[a].publishedAt == None
                || cutoff <= db.outbox[a].publishedAt.value))
      && (forall a :: a in db'.outbox ==> db'.outbox[a] == db.outbox[a])
    ensures var db' := CleanDeadLetters(db, cutoff);
      && db' == Db(db.notifications, db.attempts, db.outbox, db'.deadLetters)
      && (forall d :: d in db'.deadLetters <==>
            && d in db.deadLetters
            && (db.deadLetters[d].replayedAt == None || cutoff <= db.deadLetters[d].replayedAt.value))
      && (forall d :: d in db'.deadLetters ==> db'.deadLetters[d] == db.deadLetters[d])
  {
  }

  // A dead letter is inserted open, once.
  lemma LetterOpens(db: Db, d: DeadLetterId, key: Key, now: Time)
    ensures InsertDeadLetter(db, d, key, now) ==
      if d in db.deadLetters then Err(Conflict)
      else Ok(Db(db.notifications, db.attempts, db.outbox, db.deadLetters[d := DeadLetter(key, now, None, None)]))
  {
  }
}
