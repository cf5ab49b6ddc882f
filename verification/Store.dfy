// The Postgres store: four tables updated in place. Every method is one
// transaction and follows the statements of the service; each is proved to do
// to the rows what its function in Transactions says.
module Store {
  import opened Wrappers
  import opened Rows
  import opened Transactions

  // A transaction that ended: its rows are in, or its error left them alone.
  ghost predicate Committed(before: Db, tx: Tx, after: Db, error: Option<Error>) {
    after == After(tx, before) && error == if tx.Err? then Some(tx.error) else None
  }

  class Postgres {
    var notifications: map<Key, Notification>
    var attempts: map<AttemptId, Attempt>
    var outbox: map<AttemptId, Intent>
    var deadLetters: map<DeadLetterId, DeadLetter>

    ghost function Tables(): Db
      reads this
    {
      Db(notifications, attempts, outbox, deadLetters)
    }

    constructor ()
      ensures Tables() == EMPTY
    {
      notifications, attempts, outbox, deadLetters := map[], map[], map[], map[];
    }

    // ------------------------------------------------ attempt transitions

    method MarkAttemptInProgress(a: AttemptId) returns (error: Option<Error>)
      modifies this
      ensures Committed(old(Tables()), MarkInProgress(old(Tables()), a), Tables(), error)
    {
      if a in attempts && attempts[a].status == Pending {
        attempts := attempts[a := attempts[a].(status := InProgress)];
        return None;
      }
      if a !in attempts {
        return Some(NotFound);
      } else if attempts[a].status == InProgress {
        return Some(AlreadyProcessing);
      }
      return Some(AlreadyFinalized);
    }

    // The compare-and-set of the four outcome transitions, and how each of them
    // explains a row that was not updated.
    method FinishAttempt(a: AttemptId, status: AttemptStatus, nextRetryAt: Option<Time>) returns (error: Option<Error>)
      modifies this
      ensures Committed(old(Tables()), Finish(old(Tables()), a, status, nextRetryAt), Tables(), error)
    {
      if a in attempts && attempts[a].status == InProgress {
        attempts := attempts[a := attempts[a].(status := status, nextRetryAt := nextRetryAt)];
        return None;
      }
      if a !in attempts {
        return Some(NotFound);
      }
      return Some(if Finalized(attempts[a].status) then AlreadyFinalized else InvalidTransition);
    }

    method MarkAttemptSent(a: AttemptId) returns (error: Option<Error>)
      modifies this
      ensures Committed(old(Tables()), MarkSent(old(Tables()), a), Tables(), error)
    {
      error := FinishAttempt(a, Sent, if a in attempts then attempts[a].nextRetryAt else None);
    }

    method MarkAttemptFailed(a: AttemptId) returns (error: Option<Error>)
      modifies this
      ensures Committed(old(Tables()), MarkFailed(old(Tables()), a), Tables(), error)
    {
      error := FinishAttempt(a, Failed, if a in attempts then attempts[a].nextRetryAt else None);
    }

    method ScheduleAttemptRetry(a: AttemptId, at: Time) returns (error: Option<Error>)
      modifies this
      ensures Committed(old(Tables()), ScheduleRetry(old(Tables()), a, at), Tables(), error)
    {
      error := FinishAttempt(a, RetryScheduled, Some(at));
    }

    method MarkAttemptDeadLettered(a: AttemptId) returns (error: Option<Error>)
      modifies this
      ensures Committed(old(Tables()), MarkDeadLettered(old(Tables()), a), Tables(), error)
    {
      error := FinishAttempt(a, DeadLettered, None);
    }

    method AddDeadLetter(d: DeadLetterId, key: Key, now: Time) returns (error: Option<Error>)
      modifies this
      ensures Committed(old(Tables()), InsertDeadLetter(old(Tables()), d, key, now), Tables(), error)
    {
      if d in deadLetters {
        return Some(Conflict);
      }
      deadLetters := deadLetters[d := DeadLetter(key, now, None, None)];
      return None;
    }

    // ------------------------------------------------------- inner inserts

    // createDeliveryAttemptTx
    method CreateAttempt(a: AttemptId, key: Key, number: nat) returns (ok: bool)
      modifies this
      ensures ok == InsertAttempt(old(Tables()), a, key, number).Ok?
      ensures Tables() == After(InsertAttempt(old(Tables()), a, key, number), old(Tables()))
    {
      if a in attempts || exists b :: b in attempts && attempts[b].key == key && attempts[b].number == number {
        return false;
      }
      attempts := attempts[a := Attempt(key, number, Pending, None, None)];
      return true;
    }

    // createDispatchIntentTx
    method CreateDispatchIntent(a: AttemptId, source: Source, enqueuedAt: Option<Time>)
      modifies this
      ensures Tables() == InsertIntent(old(Tables()), a, source, enqueuedAt)
    {
      if a !in outbox {
        outbox := outbox[a := Intent(source, if enqueuedAt.Some? then Published else Unpublished, None, enqueuedAt)];
      }
    }

    // SELECT COALESCE(MAX(attempt_number), 0)
    method HighestNumber(key: Key) returns (m: nat)
      ensures m == MaxOf(NumbersOf(Tables(), key))
    {
      m := 0;
      var rest := attempts.Keys;
      ghost var seen: set<nat> := {};
      while rest != {}
        invariant rest <= attempts.Keys
        invariant seen == set a | a in attempts && a !in rest && attempts[a].key == key :: attempts[a].number
        invariant forall n :: n in seen ==> n <= m
        invariant m in seen || (m == 0 && seen == {})
        decreases rest
      {
        var a :| a in rest;
        if attempts[a].key == key {
          seen := seen + {attempts[a].number};
          if attempts[a].number > m {
            m := attempts[a].number;
          }
        }
        rest := rest - {a};
      }
      assert seen == NumbersOf(Tables(), key);
    }

    // ---------------------------------------------------------- submission

    method CreateNotificationWithInitialDispatch(key: Key, scheduledFor: Option<Time>, now: Time) returns (error: Option<Error>)
      modifies this
      ensures Committed(old(Tables()), CreateNotification(old(Tables()), key, scheduledFor, now), Tables(), error)
    {
      if Key(key.notification, Webhook) in notifications || Key(key.notification, Email) in notifications {
        return Some(Conflict);
      }
      var before := notifications;
      var due := scheduledFor.None? || scheduledFor.value <= now;
      notifications := notifications[key :=
        Notification(now, scheduledFor, None, None, if due then Accepted else Scheduled)];
      var ok := CreateAttempt(Initial(key), key, 1);
      if !ok {
        notifications := before;   // rollback
        return Some(Conflict);
      }
      if due {
        CreateDispatchIntent(Initial(key), FromInitial, None);
      }
      return None;
    }

    method EnsureInitialAttempt(key: Key) returns (error: Option<Error>)
      modifies this
      ensures Committed(old(Tables()), EnsureInitial(old(Tables()), key), Tables(), error)
    {
      if key !in notifications {
        return Some(NotFound);
      }
      var _ := CreateAttempt(Initial(key), key, 1);   // ON CONFLICT DO NOTHING
      if Initial(key) !in attempts {
        return Some(NotFound);
      }
      CreateDispatchIntent(Initial(key), FromInitial, attempts[Initial(key)].enqueuedAt);
      return None;
    }

    // ----------------------------------------------------- retry and replay

    method EnsureRetryAttempt(scheduled: AttemptId, now: Time) returns (error: Option<Error>)
      modifies this
      ensures Committed(old(Tables()), EnsureRetry(old(Tables()), scheduled, now), Tables(), error)
    {
      if scheduled !in attempts {
        return Some(NotFound);
      }
      var row := attempts[scheduled];
      var child := Retry(scheduled);
      if child !in attempts {
        if row.status != RetryScheduled || row.nextRetryAt.None? || row.nextRetryAt.value > now {
          return Some(NotFound);
        }
        var ok := CreateAttempt(child, row.key, row.number + 1);
        if !ok {
          return Some(Conflict);
        }
      }
      CreateDispatchIntent(child, FromRetry, attempts[child].enqueuedAt);
      if attempts[scheduled].status == RetryScheduled {
        attempts := attempts[scheduled := attempts[scheduled].(status := Failed, nextRetryAt := None)];
      }
      return None;
    }

    method EnsureReplayAttempt(d: DeadLetterId) returns (error: Option<Error>)
      modifies this
      ensures Committed(old(Tables()), EnsureReplay(old(Tables()), d), Tables(), error)
    {
      if d !in deadLetters {
        return Some(NotFound);
      }
      var row := deadLetters[d];
      if row.replayedAt.Some? && row.replayAttempt.Some? {
        return if row.replayAttempt.value in attempts then None else Some(NotFound);
      }
      var a := row.replayAttempt.GetOr(Replay(d));
      if a !in attempts {
        var highest := HighestNumber(row.key);
        var ok := CreateAttempt(a, row.key, highest + 1);
        if !ok {
          return Some(Conflict);
        }
      }
      CreateDispatchIntent(a, FromReplay, attempts[a].enqueuedAt);
      if deadLetters[d].replayAttempt.None? {
        deadLetters := deadLetters[d := deadLetters[d].(replayAttempt := Some(a))];
      }
      return None;
    }

    // --------------------------------------------------------------- outbox

    // `scan` has the rows the query can lock, oldest first.
    method ClaimPendingDispatchIntents(scan: seq<AttemptId>, limit: int, paused: set<Key>, now: Time, staleAfter: int)
      returns (r: Result<seq<AttemptId>, ()>)
      requires forall i, j :: 0 <= i < j < |scan| ==> scan[i] != scan[j]
      modifies this`outbox
      ensures r.Err? <==> staleAfter <= 0
      ensures r.Err? ==> Tables() == old(Tables())
      ensures r.Ok? ==> Tables() == Lease(old(Tables()), (set a | a in r.value), now)
      ensures r.Ok? ==> |r.value| <= (if limit <= 0 then 100 else limit)
      ensures r.Ok? ==> forall i, j :: 0 <= i < j < |r.value| ==> r.value[i] != r.value[j]
      ensures r.Ok? ==> forall a :: a in r.value ==>
        a in scan && Claimable(old(Tables()), a, now, staleAfter) && KeyOf(a) !in paused
      ensures r.Ok? && |r.value| < (if limit <= 0 then 100 else limit) ==>
        forall a :: a in scan && Claimable(old(Tables()), a, now, staleAfter) && KeyOf(a) !in paused ==> a in r.value
      ensures r.Ok? ==> forall i, j | 0 <= i < j < |scan| && scan[j] in r.value ::
        Claimable(old(Tables()), scan[i], now, staleAfter) && KeyOf(scan[i]) !in paused ==> scan[i] in r.value
    {
      var most := if limit <= 0 then 100 else limit;
      if staleAfter <= 0 {
        return Err(());
      }
      var batch: seq<AttemptId> := [];
      var i := 0;
      ghost var before := Tables();
      assert Tables() == Lease(before, (set a | a in batch), now);
      while i < |scan| && |batch| < most
        invariant 0 <= i <= |scan| && |batch| <= most
        invariant Tables() == Lease(before, (set a | a in batch), now)
        invariant forall a :: a in batch ==> a in scan[..i] && Claimable(before, a, now, staleAfter) && KeyOf(a) !in paused
        invariant forall j, k :: 0 <= j < k < |batch| ==> batch[j] != batch[k]
        invariant forall j :: 0 <= j < i && Claimable(before, scan[j], now, staleAfter) && KeyOf(scan[j]) !in paused ==> scan[j] in batch
      {
        var a := scan[i];
        assert a !in batch;
        if Waits(a, now, staleAfter) && KeyOf(a) !in paused {
          outbox := outbox[a := outbox[a].(status := Publishing, claimedAt := Some(now))];
          LeaseMore(before, batch, a, now);
          batch := batch + [a];
        }
        i := i + 1;
      }
      r := Ok(batch);
    }

    // The status condition of the claim query.
    predicate Waits(a: AttemptId, now: Time, staleAfter: nat)
      reads this
      ensures Waits(a, now, staleAfter) == Claimable(Tables(), a, now, staleAfter)
    {
      a in outbox
      && (outbox[a].status == Unpublished
          || (outbox[a].status == Publishing && outbox[a].claimedAt.Some? && outbox[a].claimedAt.value + staleAfter <= now))
    }

    method MarkDispatchIntentPublished(a: AttemptId, claimedAt: Time, now: Time) returns (error: Option<Error>)
      modifies this
      ensures Committed(old(Tables()), MarkPublished(old(Tables()), a, claimedAt, now), Tables(), error)
    {
      if a !in outbox {
        return Some(NotFound);
      }
      var row := outbox[a];
      if row.status == Publishing && row.claimedAt == Some(claimedAt) {
        outbox := outbox[a := row.(status := Published, claimedAt := None, publishedAt := Some(row.publishedAt.GetOr(now)))];
        if a in attempts {
          attempts := attempts[a := attempts[a].(enqueuedAt := Some(attempts[a].enqueuedAt.GetOr(now)))];
        }
        if row.source == FromReplay {
          deadLetters := map d | d in deadLetters ::
            if deadLetters[d].replayAttempt == Some(a)
            then deadLetters[d].(replayedAt := Some(deadLetters[d].replayedAt.GetOr(now)))
            else deadLetters[d];
        }
        return None;
      }
      return if row.status == Published then None else Some(InvalidTransition);
    }

    method RecordDispatchIntentError(a: AttemptId, claimedAt: Time) returns (error: Option<Error>)
      modifies this
      ensures Committed(old(Tables()), RecordIntentError(old(Tables()), a, claimedAt), Tables(), error)
    {
      if a in outbox && outbox[a].status == Publishing && outbox[a].claimedAt == Some(claimedAt) {
        outbox := outbox[a := outbox[a].(status := Unpublished, claimedAt := None)];
        return None;
      }
      if a !in outbox {
        return Some(NotFound);
      }
      return if outbox[a].status == Published then None else Some(InvalidTransition);
    }

    // ----------------------------------------------------------- scheduling

    // One transaction over the first due rows of `scan`, earliest schedule first.
    method PromoteDueScheduledNotifications(scan: seq<Key>, limit: int, paused: set<Key>, now: Time)
      returns (promoted: seq<Key>)
      requires forall i, j :: 0 <= i < j < |scan| ==> scan[i] != scan[j]
      modifies this
      ensures |promoted| <= (if limit <= 0 then 100 else limit)
      ensures forall k :: k in promoted ==> k in scan && Due(old(Tables()), k, paused, now)
      ensures |promoted| < (if limit <= 0 then 100 else limit) ==>
        forall k :: k in scan && Due(old(Tables()), k, paused, now) ==> k in promoted
      ensures forall i, j :: 0 <= i < j < |scan| && scan[j] in promoted && Due(old(Tables()), scan[i], paused, now) ==>
        scan[i] in promoted
      ensures ByDueTime(old(Tables()), scan) ==> EarliestFirst(old(Tables()), scan, promoted, paused, now)
      ensures Tables() == PromoteAll(old(Tables()), promoted, paused, now)
    {
      var most := if limit <= 0 then 100 else limit;
      ghost var before := Tables();
      promoted := [];
      var i := 0;
      while i < |scan| && |promoted| < most
        invariant 0 <= i <= |scan| && |promoted| <= most
        invariant Tables() == PromoteAll(before, promoted, paused, now) && attempts == before.attempts
        invariant forall k :: k in promoted ==> k in scan[..i] && Due(before, k, paused, now)
        invariant forall j :: 0 <= j < i && Due(before, scan[j], paused, now) ==> scan[j] in promoted
        invariant forall k :: k !in promoted ==> (Due(Tables(), k, paused, now) <==> Due(before, k, paused, now))
      {
        var key := scan[i];
        assert key !in promoted;
        if key in notifications && notifications[key].scheduledFor.Some? && notifications[key].scheduledFor.value <= now
           && notifications[key].promotedAt.None? && notifications[key].cancelledAt.None?
           && Initial(key) in attempts && attempts[Initial(key)].number == 1 && Initial(key) !in outbox
           && key !in paused
        {
          assert Due(Tables(), key, paused, now);
          CreateDispatchIntent(Initial(key), FromSchedule, None);
          notifications := notifications[key := notifications[key].(promotedAt := Some(now))];
          assert (promoted + [key])[..|promoted|] == promoted;
          promoted := promoted + [key];
        }
        i := i + 1;
      }
      if ByDueTime(before, scan) { FirstIsEarliest(before, scan, promoted, paused, now); }
    }

    method RedriveNotification(key: Key, paused: bool, now: Time) returns (error: Option<Error>)
      modifies this
      ensures Committed(old(Tables()), Redrive(old(Tables()), key, paused, now), Tables(), error)
    {
      if key in notifications && notifications[key].promotedAt.None? && notifications[key].cancelledAt.None?
         && Initial(key) in attempts && attempts[Initial(key)].number == 1 && Initial(key) !in outbox
      {
        if paused {
          return Some(InvalidTransition);
        }
        CreateDispatchIntent(Initial(key), FromRedrive, None);
        notifications := notifications[key := notifications[key].(promotedAt := Some(now))];
        return None;
      }
      return Some(if key in notifications then InvalidTransition else NotFound);
    }

    method CancelScheduledNotification(key: Key, now: Time) returns (error: Option<Error>)
      modifies this
      ensures Committed(old(Tables()), Cancel(old(Tables()), key, now), Tables(), error)
    {
      if key !in notifications {
        return Some(NotFound);
      }
      var row := notifications[key];
      if row.scheduledFor.Some? && row.scheduledFor.value > now && row.rollup == Scheduled
         && row.promotedAt.None? && row.cancelledAt.None? && !exists a :: a in outbox && KeyOf(a) == key
      {
        notifications := notifications[key := row.(rollup := Cancelled, cancelledAt := Some(now))];
        return None;
      }
      return Some(InvalidTransition);
    }

    // ---------------------------------------------------------- maintenance

    // A retention that is not positive is refused, a dry run counts and deletes
    // nothing, and a zero dead-letter retention keeps every dead letter.
    method RunMaintenance(audit: AuditLog, now: Time, auditRetention: int, outboxRetention: int, deadLetterRetention: int, dryRun: bool)
      returns (ok: bool, events: nat, intents: nat, letters: nat)
      modifies this, audit
      ensures ok <==> auditRetention > 0 && outboxRetention > 0 && deadLetterRetention >= 0
      ensures !ok || dryRun ==> Tables() == old(Tables()) && audit.events == old(audit.events)
      ensures ok ==> events == |OldEvents(old(audit.events), now - auditRetention)|
      ensures ok ==> intents == |OldIntents(old(outbox), now - outboxRetention)|
      ensures ok ==> letters == if deadLetterRetention > 0 then |OldLetters(old(deadLetters), now - deadLetterRetention)| else 0
      ensures ok && !dryRun ==>
        && events == |old(audit.events).Keys - audit.events.Keys|
        && intents == |old(outbox).Keys - outbox.Keys| && letters == |old(deadLetters).Keys - deadLetters.Keys|
      ensures ok && !dryRun ==>
        forall e :: e in audit.events <==> e in old(audit.events) && old(audit.events)[e] >= now - auditRetention
      ensures forall e :: e in audit.events ==> e in old(audit.events) && audit.events[e] == old(audit.events)[e]
      ensures ok && !dryRun ==>
        Tables() == Swept(old(Tables()), now - outboxRetention, if deadLetterRetention > 0 then now - deadLetterRetention else -1)
    {
      if auditRetention <= 0 || outboxRetention <= 0 || deadLetterRetention < 0 {
        return false, 0, 0, 0;
      }
      var oldEvents := OldEvents(audit.events, now - auditRetention);
      var oldIntents := OldIntents(outbox, now - outboxRetention);
      var letterCutoff := if deadLetterRetention > 0 then now - deadLetterRetention else -1;
      var oldLetters := OldLetters(deadLetters, letterCutoff);
      ok, events, intents, letters := true, |oldEvents|, |oldIntents|, |oldLetters|;
      if !dryRun {
        ghost var goal := Tables().(outbox := outbox - oldIntents, deadLetters := deadLetters - oldLetters);
        assert goal == Swept(Tables(), now - outboxRetention, letterCutoff) by {
          SweepCleans(Tables(), now - outboxRetention, letterCutoff);
        }
        Delete(audit, oldEvents, oldIntents, oldLetters);
        assert Tables() == goal;
      }
    }

    // The three DELETE statements.
    method Delete(audit: AuditLog, oldEvents: set<nat>, oldIntents: set<AttemptId>, oldLetters: set<DeadLetterId>)
      requires oldEvents <= audit.events.Keys && oldIntents <= outbox.Keys && oldLetters <= deadLetters.Keys
      modifies this, audit
      ensures audit.events == old(audit.events) - oldEvents
      ensures Tables() == old(Tables()).(outbox := old(outbox) - oldIntents, deadLetters := old(deadLetters) - oldLetters)
      ensures old(audit.events).Keys - audit.events.Keys == oldEvents
      ensures old(outbox).Keys - outbox.Keys == oldIntents && old(deadLetters).Keys - deadLetters.Keys == oldLetters
    {
      Removed(audit.events, oldEvents);
      Removed(outbox, oldIntents);
      Removed(deadLetters, oldLetters);
      audit.events := audit.events - oldEvents;
      outbox := outbox - oldIntents;
      deadLetters := deadLetters - oldLetters;
    }
  }

  // What a sweep deletes is what the two cleanups delete; a cutoff before the
  // start of time deletes nothing.
  function Swept(db: Db, outboxCutoff: int, letterCutoff: int): Db {
    var cleaned := if outboxCutoff >= 0 then CleanOutbox(db, outboxCutoff) else db;
    if letterCutoff >= 0 then CleanDeadLetters(cleaned, letterCutoff) else cleaned
  }

  lemma SweepCleans(db: Db, outboxCutoff: int, letterCutoff: int)
    ensures db.(outbox := db.outbox - OldIntents(db.outbox, outboxCutoff),
                deadLetters := db.deadLetters - OldLetters(db.deadLetters, letterCutoff)) == Swept(db, outboxCutoff, letterCutoff)
  {
    IntentsClean(db, outboxCutoff);
    LettersClean(db, letterCutoff);
  }

  lemma IntentsClean(db: Db, cutoff: int)
    ensures db.outbox - OldIntents(db.outbox, cutoff) == if cutoff >= 0 then CleanOutbox(db, cutoff).outbox else db.outbox
  {
  }

  lemma LettersClean(db: Db, cutoff: int)
    ensures db.deadLetters - OldLetters(db.deadLetters, cutoff) ==
      if cutoff >= 0 then CleanDeadLetters(db, cutoff).deadLetters else db.deadLetters
  {
  }

  lemma Removed<K, V>(rows: map<K, V>, gone: set<K>)
    requires gone <= rows.Keys
    ensures rows.Keys - (rows - gone).Keys == gone
  {
  }

  // The audit table: when each event was recorded.
  class AuditLog {
    var events: map<nat, Time>
  }

  function OldEvents(events: map<nat, Time>, cutoff: int): set<nat> {
    set e | e in events && events[e] < cutoff
  }

  // The rows a deletion selects; a cutoff before the start of time selects none.
  function OldIntents(outbox: map<AttemptId, Intent>, cutoff: int): set<AttemptId> {
    set a | a in outbox && outbox[a].status == Published && outbox[a].publishedAt.Some? && outbox[a].publishedAt.value < cutoff
  }

  function OldLetters(deadLetters: map<DeadLetterId, DeadLetter>, cutoff: int): set<DeadLetterId> {
    set d | d in deadLetters && deadLetters[d].replayedAt.Some? && deadLetters[d].replayedAt.value < cutoff
  }

  // The rows the promotion query returns.
  predicate Due(db: Db, key: Key, paused: set<Key>, now: Time) {
    NotYetPromoted(db, key) && ScheduleDue(db, key, now) && key !in paused
  }

  predicate Timed(db: Db, k: Key) {
    k in db.notifications && db.notifications[k].scheduledFor.Some?
  }

  // ORDER BY scheduled_for ASC, submitted_at ASC
  predicate NoLater(db: Db, k: Key, l: Key) {
    Timed(db, k) && Timed(db, l)
    && var (row, other) := (db.notifications[k], db.notifications[l]);
    row.scheduledFor.value < other.scheduledFor.value
    || (row.scheduledFor == other.scheduledFor && row.submittedAt <= other.submittedAt)
  }

  ghost predicate ByDueTime(db: Db, scan: seq<Key>) {
    forall i, j :: 0 <= i < j < |scan| && Timed(db, scan[i]) && Timed(db, scan[j]) ==> NoLater(db, scan[i], scan[j])
  }

  // No due row is left behind for one that is due later.
  ghost predicate EarliestFirst(db: Db, scan: seq<Key>, promoted: seq<Key>, paused: set<Key>, now: Time) {
    forall p, k :: p in promoted && k in scan && k !in promoted && Due(db, k, paused, now) ==> NoLater(db, p, k)
  }

  lemma FirstIsEarliest(db: Db, scan: seq<Key>, promoted: seq<Key>, paused: set<Key>, now: Time)
    requires ByDueTime(db, scan) && forall p :: p in promoted ==> p in scan && Due(db, p, paused, now)
    requires forall i, j :: 0 <= i < j < |scan| && scan[j] in promoted && Due(db, scan[i], paused, now) ==> scan[i] in promoted
    ensures EarliestFirst(db, scan, promoted, paused, now)
  {
    forall p, k | p in promoted && k in scan && k !in promoted && Due(db, k, paused, now) ensures NoLater(db, p, k) {
      var i, j :| 0 <= i < |scan| && 0 <= j < |scan| && scan[i] == p && scan[j] == k;
      assert Timed(db, p) && Timed(db, k);
    }
  }

  lemma LeaseMore(db: Db, batch: seq<AttemptId>, a: AttemptId, now: Time)
    requires a in db.outbox
    ensures Lease(db, (set b | b in batch + [a]), now).outbox ==
      Lease(db, (set b | b in batch), now).outbox[a := db.outbox[a].(status := Publishing, claimedAt := Some(now))]
  {
  }

  // Promotion row by row.
  function PromoteAll(db: Db, rows: seq<Key>, paused: set<Key>, now: Time): Db {
    if rows == [] then db
    else
      var before := PromoteAll(db, rows[..|rows| - 1], paused, now);
      var key := rows[|rows| - 1];
      After(Promote(before, key, key in paused, now), before)
  }
}
