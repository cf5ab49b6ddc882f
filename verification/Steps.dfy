// How one step may change an attempt row: the one-way life of a status, and
// which steps touch which attempts.
module Steps {
  import opened Wrappers
  import opened Rows
  import opened Transactions
  import opened Protocol

  // The moves the compare-and-set guards allow.
  predicate Move(before: AttemptStatus, after: AttemptStatus) {
    || before == after
    || (before == Pending && after == InProgress)
    || (before == InProgress && after in {Sent, Failed, RetryScheduled, DeadLettered})
    || (before == RetryScheduled && after == Failed)
  }

  // The attempt a step may move to another status.
  ghost function Moved(s: State, act: Action): Option<AttemptId> {
    match act
    case Api(OpEnsureRetry(a)) => Some(a)
    case Work(pid, op) => if pid in s.procs && s.procs[pid].Worker? then Some(s.procs[pid].job.attempt) else None
    case _ => None
  }

  // The attempt a step may insert.
  ghost function Inserted(s: State, act: Action): Option<AttemptId> {
    match act
    case Api(OpCreate(key, _)) => Some(Initial(key))
    case Api(OpEnsureInitial(key)) => Some(Initial(key))
    case Api(OpEnsureRetry(a)) => Some(Retry(a))
    case Api(OpEnsureReplay(d)) =>
      if d in s.db.deadLetters then Some(s.db.deadLetters[d].replayAttempt.GetOr(Replay(d))) else None
    case _ => None
  }

  ghost predicate RowStep(s: State, act: Action, db': Db, a: AttemptId) {
    && (a in s.db.attempts ==>
          && a in db'.attempts
          && db'.attempts[a].key == s.db.attempts[a].key
          && db'.attempts[a].number == s.db.attempts[a].number
          && Move(s.db.attempts[a].status, db'.attempts[a].status)
          && (db'.attempts[a].status == s.db.attempts[a].status || Moved(s, act) == Some(a))
          && (s.db.attempts[a].enqueuedAt.Some? ==> db'.attempts[a].enqueuedAt == s.db.attempts[a].enqueuedAt)
          && (db'.attempts[a].enqueuedAt == s.db.attempts[a].enqueuedAt || (act.Publish? && act.publish == OpMark)))
    && (a !in s.db.attempts && a in db'.attempts ==>
          && Inserted(s, act) == Some(a)
          && db'.attempts[a].status == Pending
          && db'.attempts[a].enqueuedAt.None?)
  }

  // The rows with the attempt `a`, inserted if it was not there.
  function WithAttempt(db: Db, a: AttemptId, key: Key, number: nat): Db {
    if a in db.attempts then db else db.(attempts := db.attempts[a := Attempt(key, number, Pending, None, None)])
  }

  // What a retry transaction that commits is made of.
  lemma RetryShape(db: Db, p: AttemptId, now: Time) returns (grown: Db)
    requires EnsureRetry(db, p, now).Ok?
    ensures p in db.attempts
    ensures grown == WithAttempt(db, Retry(p), db.attempts[p].key, db.attempts[p].number + 1)
    ensures Retry(p) !in db.attempts ==>
      RetryDue(db.attempts[p], now) && !SlotTaken(db, Retry(p), db.attempts[p].key, db.attempts[p].number + 1)
    ensures EnsureRetry(db, p, now).value ==
      RetireScheduled(InsertIntent(grown, Retry(p), FromRetry, grown.attempts[Retry(p)].enqueuedAt), p)
  {
    grown := WithAttempt(db, Retry(p), db.attempts[p].key, db.attempts[p].number + 1);
  }

  // The same for a replay transaction that changes something.
  lemma ReplayShape(db: Db, d: DeadLetterId) returns (a: AttemptId, grown: Db)
    requires EnsureReplay(db, d).Ok? && EnsureReplay(db, d).value != db
    ensures d in db.deadLetters && a == db.deadLetters[d].replayAttempt.GetOr(Replay(d))
    ensures grown == WithAttempt(db, a, db.deadLetters[d].key, MaxOf(NumbersOf(db, db.deadLetters[d].key)) + 1)
    ensures a in grown.attempts && grown == db.(attempts := grown.attempts)
    ensures EnsureReplay(db, d).value ==
      LinkReplay(InsertIntent(grown, a, FromReplay, grown.attempts[a].enqueuedAt), d, a)
  {
    a := db.deadLetters[d].replayAttempt.GetOr(Replay(d));
    grown := WithAttempt(db, a, db.deadLetters[d].key, MaxOf(NumbersOf(db, db.deadLetters[d].key)) + 1);
  }

  lemma RetryRowStep(s: State, p: AttemptId, a: AttemptId)
    ensures RowStep(s, Api(OpEnsureRetry(p)), Apply(s, Api(OpEnsureRetry(p))).db, a)
  {
    if EnsureRetry(s.db, p, s.now).Ok? {
      var grown := RetryShape(s.db, p, s.now);
      assert InsertIntent(grown, Retry(p), FromRetry, grown.attempts[Retry(p)].enqueuedAt).attempts == grown.attempts;
    }
  }

  lemma GrownRowStep(s: State, act: Action, db': Db, b: AttemptId, a: AttemptId)
    requires db'.attempts == s.db.attempts
          || (Inserted(s, act) == Some(b) && exists row: Attempt :: IsNew(row) && db'.attempts == s.db.attempts[b := row])
    requires b !in s.db.attempts || db'.attempts == s.db.attempts
    ensures RowStep(s, act, db', a)
  {
  }

  predicate IsNew(row: Attempt) {
    row.status == Pending && row.enqueuedAt.None?
  }

  // A replay transaction inserts at most its one attempt.
  lemma ReplayRows(db: Db, d: DeadLetterId) returns (b: AttemptId)
    ensures var db' := After(EnsureReplay(db, d), db);
      && (db'.attempts != db.attempts ==> d in db.deadLetters && b == db.deadLetters[d].replayAttempt.GetOr(Replay(d)))
      && (b !in db.attempts || db'.attempts == db.attempts)
      && (db'.attempts == db.attempts || exists row: Attempt :: IsNew(row) && db'.attempts == db.attempts[b := row])
  {
    if EnsureReplay(db, d).Ok? && EnsureReplay(db, d).value != db {
      var grown;
      b, grown := ReplayShape(db, d);
      LinkTouches(db, grown, d, b, grown.attempts[b].enqueuedAt);
      assert b !in db.attempts ==> IsNew(grown.attempts[b]);
    } else {
      b := d.origin;
      assert After(EnsureReplay(db, d), db) == db;
    }
  }

  lemma ReplayRowStep(s: State, d: DeadLetterId, a: AttemptId)
    ensures RowStep(s, Api(OpEnsureReplay(d)), Apply(s, Api(OpEnsureReplay(d))).db, a)
  {
    var b := ReplayRows(s.db, d);
    GrownRowStep(s, Api(OpEnsureReplay(d)), After(EnsureReplay(s.db, d), s.db), b, a);
  }

  lemma CreateRowStep(s: State, key: Key, scheduledFor: Option<Time>, a: AttemptId)
    ensures RowStep(s, Api(OpCreate(key, scheduledFor)), Apply(s, Api(OpCreate(key, scheduledFor))).db, a)
  {
  }

  lemma ApiRowStep(s: State, op: ApiOp, a: AttemptId)
    ensures RowStep(s, Api(op), Apply(s, Api(op)).db, a)
  {
    if op.OpEnsureRetry? {
      RetryRowStep(s, op.scheduled, a);
    } else if op.OpEnsureReplay? {
      ReplayRowStep(s, op.deadLetter, a);
    } else if op.OpCreate? {
      CreateRowStep(s, op.key, op.scheduledFor, a);
    }
  }

  lemma PublishRowStep(s: State, pid: nat, op: PublisherOp, a: AttemptId)
    ensures RowStep(s, Publish(pid, op), PublishStep(s, pid, op).db, a)
  {
  }

  lemma WorkRowStep(s: State, pid: nat, op: WorkerOp, a: AttemptId)
    ensures RowStep(s, Work(pid, op), WorkStep(s, pid, op).db, a)
  {
    if pid in s.procs && s.procs[pid].Worker? && s.procs[pid].work.ToRecord? && op.OpRecord? {
      RecordRowStep(s, pid, s.procs[pid].work.outcome, a);
    }
  }

  lemma RecordRowStep(s: State, pid: nat, outcome: Outcome, a: AttemptId)
    requires pid in s.procs && s.procs[pid].Worker?
    ensures RowStep(s, Work(pid, OpRecord), RecordStep(s, pid, outcome).db, a)
  {
    var b, db' := s.procs[pid].job.attempt, RecordStep(s, pid, outcome).db;
    assert db' == s.db || (HasStatus(s.db, b, InProgress) && exists status, at ::
      Move(InProgress, status) && db' == SetStatus(s.db, b, status, at));
  }

  lemma RowsStep(s: State, act: Action, a: AttemptId)
    ensures RowStep(s, act, Apply(s, act).db, a)
  {
    match act {
      case Api(op) => ApiRowStep(s, op, a);
      case Publish(pid, op) => PublishRowStep(s, pid, op, a);
      case Work(pid, op) => WorkRowStep(s, pid, op, a);
      case Route(_, _) =>
      case Environment(_) =>
    }
  }

  // No step takes an attempt backwards or back to pending, and the only move
  // between finalized states retires a retried attempt.
  lemma StatusNeverFalls(s: State, act: Action, a: AttemptId)
    requires a in s.db.attempts
    ensures a in Apply(s, act).db.attempts
    ensures var before, after := s.db.attempts[a].status, Apply(s, act).db.attempts[a].status;
      && Rank(before) <= Rank(after)
      && (Rank(before) == Rank(after) ==> before == after)
      && (after == Pending ==> before == Pending)
      && (Finalized(before) && after != before ==> before == RetryScheduled && after == Failed)
  {
    RowsStep(s, act, a);
  }

  // ------------------------------------------------- rows a step leaves alone

  lemma IntentTouches(db: Db, a: AttemptId, source: Source, enqueuedAt: Option<Time>)
    ensures var db' := InsertIntent(db, a, source, enqueuedAt);
      && db' == db.(outbox := db'.outbox)
      && (forall b :: b in db.outbox ==> b in db'.outbox && db'.outbox[b] == db.outbox[b])
      && (forall b :: b in db'.outbox && b !in db.outbox ==> b == a && IsRepaired(db', a, source, enqueuedAt))
  {
  }

  // A fresh intent for the attempt, closed if the attempt was enqueued before.
  predicate IsRepaired(db: Db, a: AttemptId, source: Source, enqueuedAt: Option<Time>) {
    a in db.outbox
    && db.outbox[a] == Intent(source, if enqueuedAt.Some? then Published else Unpublished, None, enqueuedAt)
  }

  lemma RetryTouches(db: Db, p: AttemptId, now: Time)
    ensures var db' := After(EnsureRetry(db, p, now), db);
      && db'.notifications == db.notifications
      && db'.deadLetters == db.deadLetters
      && (forall a :: a in db.outbox ==> a in db'.outbox && db'.outbox[a] == db.outbox[a])
      && (forall a :: a in db'.outbox && a !in db.outbox ==>
            a == Retry(p) && a in db'.attempts && IsRepaired(db', a, FromRetry, db'.attempts[a].enqueuedAt))
  {
    if EnsureRetry(db, p, now).Ok? {
      var grown := RetryShape(db, p, now);
      IntentTouches(grown, Retry(p), FromRetry, grown.attempts[Retry(p)].enqueuedAt);
    }
  }

  lemma LinkTouches(db: Db, grown: Db, d: DeadLetterId, a: AttemptId, enqueuedAt: Option<Time>)
    requires grown == db.(attempts := grown.attempts)
    ensures var db' := LinkReplay(InsertIntent(grown, a, FromReplay, enqueuedAt), d, a);
      && db'.notifications == db.notifications
      && db'.attempts == grown.attempts
      && db'.deadLetters.Keys == db.deadLetters.Keys
      && (forall e :: e in db.deadLetters ==> db'.deadLetters[e] == db.deadLetters[e].(replayAttempt := db'.deadLetters[e].replayAttempt))
      && (forall b :: b in db.outbox ==> b in db'.outbox && db'.outbox[b] == db.outbox[b])
      && (forall b :: b in db'.outbox && b !in db.outbox ==> b == a && IsRepaired(db', a, FromReplay, enqueuedAt))
  {
    IntentTouches(grown, a, FromReplay, enqueuedAt);
  }

  lemma ReplayTouches(db: Db, d: DeadLetterId)
    ensures var db' := After(EnsureReplay(db, d), db);
      && db'.notifications == db.notifications
      && db'.deadLetters.Keys == db.deadLetters.Keys
      && (forall e :: e in db.deadLetters ==> db'.deadLetters[e] == db.deadLetters[e].(replayAttempt := db'.deadLetters[e].replayAttempt))
      && (forall a :: a in db.outbox ==> a in db'.outbox && db'.outbox[a] == db.outbox[a])
      && (forall a :: a in db'.outbox && a !in db.outbox ==>
            && d in db.deadLetters && a == db.deadLetters[d].replayAttempt.GetOr(Replay(d))
            && a in db'.attempts && IsRepaired(db', a, FromReplay, db'.attempts[a].enqueuedAt))
  {
    if EnsureReplay(db, d).Ok? && EnsureReplay(db, d).value != db {
      var a, grown := ReplayShape(db, d);
      LinkTouches(db, grown, d, a, grown.attempts[a].enqueuedAt);
    }
  }

  lemma CreateTouches(db: Db, key: Key, scheduledFor: Option<Time>, now: Time)
    ensures var db' := After(CreateNotification(db, key, scheduledFor, now), db);
      && (forall k :: k in db.notifications ==> k in db'.notifications && db'.notifications[k] == db.notifications[k])
      && db'.deadLetters == db.deadLetters
      && (forall a :: a in db.outbox ==> a in db'.outbox && db'.outbox[a] == db.outbox[a])
      && (forall a :: a in db'.outbox && a !in db.outbox ==> a == Initial(key))
  {
    assert key == Key(key.notification, if key.channel == Webhook then Webhook else Email);
  }

  lemma PublishTouches(s: State, pid: nat, op: PublisherOp)
    ensures PublishStep(s, pid, op).db.notifications == s.db.notifications
  {
  }

  lemma PublishOutbox(s: State, pid: nat, op: PublisherOp, a: AttemptId)
    ensures a in PublishStep(s, pid, op).db.outbox <==> a in s.db.outbox
  {
  }

  lemma PublishLeavesUnmarked(s: State, pid: nat, op: PublisherOp, a: AttemptId)
    requires a !in s.db.outbox && !IsEnqueued(s.db, a)
    ensures !IsEnqueued(PublishStep(s, pid, op).db, a)
  {
  }

  lemma RecordTouches(s: State, pid: nat, outcome: Outcome)
    requires pid in s.procs && s.procs[pid].Worker?
    ensures var s' := RecordStep(s, pid, outcome);
      && s'.db == s.db.(attempts := s'.db.attempts)
      && s'.redis == s.redis && s'.paused == s.paused && s'.now == s.now && s'.log == s.log
      && exists phase :: s'.procs == s.procs[pid := s.procs[pid].(work := phase)] && !phase.ToRecord? && !phase.ToSend? && !phase.ToActivate?
  {
  }

  lemma WorkTouches(s: State, pid: nat, op: WorkerOp)
    ensures WorkStep(s, pid, op).db.notifications == s.db.notifications
    ensures WorkStep(s, pid, op).db.outbox == s.db.outbox
  {
    if pid in s.procs && s.procs[pid].Worker? && s.procs[pid].work.ToRecord? {
      RecordTouches(s, pid, s.procs[pid].work.outcome);
    }
  }

  lemma OnlyApiWritesNotifications(s: State, act: Action)
    requires !act.Api?
    ensures Apply(s, act).db.notifications == s.db.notifications
  {
    match act
    case Publish(pid, op) => PublishTouches(s, pid, op);
    case Work(pid, op) => WorkTouches(s, pid, op);
    case _ =>
  }

  ghost predicate SameSchedule(before: Notification, after: Notification) {
    && after.submittedAt == before.submittedAt
    && after.scheduledFor == before.scheduledFor
    && (before.promotedAt.Some? ==> after.promotedAt.Some?)
    && (before.cancelledAt.Some? ==> after.cancelledAt == before.cancelledAt)
  }

  // A notification is never removed or rescheduled, and a promotion or a
  // cancellation is never undone.
  lemma NotificationsStay(s: State, act: Action, key: Key)
    requires key in s.db.notifications
    ensures key in Apply(s, act).db.notifications
    ensures SameSchedule(s.db.notifications[key], Apply(s, act).db.notifications[key])
  {
    if act.Api? { ApiNotificationsStay(s, act.api, key); } else { OnlyApiWritesNotifications(s, act); }
  }

  lemma ApiNotificationsStay(s: State, op: ApiOp, key: Key)
    requires key in s.db.notifications
    ensures var ns := After(ApiTx(s, op), s.db).notifications;
      key in ns && SameSchedule(s.db.notifications[key], ns[key])
  {
    match op
    case OpEnsureRetry(a) => RetryTouches(s.db, a, s.now);
    case OpEnsureReplay(d) => ReplayTouches(s.db, d);
    case OpCreate(k, scheduledFor) => CreateTouches(s.db, k, scheduledFor, s.now);
    case _ =>
  }

  // --------------------------------------------------- processes left alone

  // The process an action belongs to.
  predicate ActsFor(act: Action, pid: nat) {
    match act
    case Publish(p, _) => p == pid
    case Route(p, _) => p == pid
    case Work(p, _) => p == pid
    case _ => false
  }

  lemma OthersUntouched(s: State, act: Action, pid: nat)
    requires !ActsFor(act, pid) && pid in Apply(s, act).procs
    ensures pid in s.procs && Apply(s, act).procs[pid] == s.procs[pid]
  {
    if act.Work? && act.worker in s.procs && s.procs[act.worker].Worker? && s.procs[act.worker].work.ToRecord? {
      RecordTouches(s, act.worker, s.procs[act.worker].work.outcome);
    }
  }
}
