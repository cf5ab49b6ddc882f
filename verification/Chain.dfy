// The attempts of a notification form one chain: each attempt has at most one
// successor, and only a failed attempt that was retried or a dead-lettered
// attempt that was replayed has one. From this follow gap-free numbering, the
// single live token of a notification, and bounded work.
module Chain {
  import opened Wrappers
  import opened Rows
  import opened Transactions
  import opened Protocol

  // ------------------------------------------------------------- invariant

  ghost predicate AttemptOk(db: Db, a: AttemptId)
    requires a in db.attempts
  {
    && db.attempts[a].key == KeyOf(a)
    && db.attempts[a].number == Depth(a)
    && (a.Initial? ==> a.key in db.notifications)
    && (!a.Initial? ==> HasStatus(db, Parent(a), if a.Retry? then Failed else DeadLettered))
  }

  ghost predicate LetterOk(db: Db, d: DeadLetterId)
    requires d in db.deadLetters
  {
    var row := db.deadLetters[d];
    && HasStatus(db, d.origin, DeadLettered)
    && row.key == KeyOf(d.origin)
    && row.replayAttempt == (if Replay(d) in db.attempts then Some(Replay(d)) else None)
    && (row.replayedAt.Some? ==> row.replayAttempt.Some?)
  }

  // At most one dead letter was ever issued for an attempt.
  ghost predicate OnePerOrigin(db: Db) {
    forall d, e {:trigger Issued(db, d), Issued(db, e)} ::
      Issued(db, d) && Issued(db, e) && d.origin == e.origin ==> d == e
  }

  ghost predicate ChainOk(db: Db) {
    && (forall a {:trigger AttemptOk(db, a)} :: a in db.attempts ==> AttemptOk(db, a))
    && (forall d {:trigger LetterOk(db, d)} :: d in db.deadLetters ==> LetterOk(db, d))
    && OnePerOrigin(db)
    && (forall a :: a in db.outbox ==> a in db.attempts)
    && (forall k :: k in db.notifications ==> Initial(k) in db.attempts)
  }

  ghost predicate NeverIssued(db: Db, a: AttemptId) {
    forall d :: Issued(db, d) ==> d.origin != a
  }

  ghost predicate WorkOk(db: Db, p: Process) {
    p.Worker? ==>
      match p.work
      case ToSend => HasStatus(db, p.job.attempt, InProgress)
      case ToRecord(_) => HasStatus(db, p.job.attempt, InProgress)
      case ToInsertDeadLetter => HasStatus(db, p.job.attempt, DeadLettered) && NeverIssued(db, p.job.attempt)
      case _ => true
  }

  // At most one call owns an attempt, and while it does nobody else moves it.
  ghost predicate OwnersOk(db: Db, procs: map<nat, Process>) {
    && (forall p :: p in procs ==> WorkOk(db, procs[p]))
    && (forall p, q :: p in procs && q in procs && p != q && Owned(procs[p]).Some? ==>
          Owned(procs[p]) != Owned(procs[q]))
  }

  ghost predicate Inv(s: State) {
    ChainOk(s.db) && OwnersOk(s.db, s.procs)
  }

  // ------------------------------------------------- steps of the database

  // A change that adds no row and keeps every status a successor relies on.
  ghost predicate Gentle(db: Db, db': Db) {
    && db'.attempts.Keys == db.attempts.Keys
    && db'.notifications.Keys == db.notifications.Keys
    && db'.outbox.Keys <= db.outbox.Keys
    && (forall a :: a in db.attempts ==>
          && db'.attempts[a].key == db.attempts[a].key
          && db'.attempts[a].number == db.attempts[a].number
          && (db.attempts[a].status in {Failed, DeadLettered} ==> db'.attempts[a].status == db.attempts[a].status))
    && (forall d :: d in db'.deadLetters ==>
          && d in db.deadLetters
          && db'.deadLetters[d].key == db.deadLetters[d].key
          && db'.deadLetters[d].replayAttempt == db.deadLetters[d].replayAttempt
          && (db'.deadLetters[d].replayedAt.Some? ==> db'.deadLetters[d].replayAttempt.Some?))
  }

  lemma GentleKeeps(db: Db, db': Db)
    requires ChainOk(db) && Gentle(db, db')
    ensures ChainOk(db')
    ensures forall d :: Issued(db', d) ==> Issued(db, d)
  {
    forall a | a in db'.attempts ensures AttemptOk(db', a) {
      assert AttemptOk(db, a);
    }
    forall d | d in db'.deadLetters ensures LetterOk(db', d) {
      assert LetterOk(db, d);
    }
    forall d | Issued(db', d) ensures Issued(db, d) {
    }
  }

  // What the rows must keep for calls already in flight.
  ghost predicate Undisturbed(db: Db, db': Db) {
    && (forall a :: HasStatus(db, a, InProgress) ==> HasStatus(db', a, InProgress))
    && (forall a :: HasStatus(db, a, DeadLettered) ==> HasStatus(db', a, DeadLettered))
    && (forall d :: Issued(db', d) ==> Issued(db, d))
  }

  lemma UndisturbedKeeps(db: Db, db': Db, procs: map<nat, Process>)
    requires OwnersOk(db, procs) && Undisturbed(db, db')
    ensures OwnersOk(db', procs)
  {
    forall p | p in procs ensures WorkOk(db', procs[p]) {
      assert WorkOk(db, procs[p]);
    }
  }

  // The change that adds attempt `a` at the end of its chain, together with the
  // one row of its predecessor that the same transaction updates.
  ghost predicate Extends(db: Db, db': Db, a: AttemptId) {
    && a !in db.attempts
    && db'.attempts.Keys == db.attempts.Keys + {a}
    && db'.attempts[a].key == KeyOf(a) && db'.attempts[a].number == Depth(a) && db'.attempts[a].status == Pending
    && (forall b :: b in db.attempts ==>
          && db'.attempts[b].key == db.attempts[b].key
          && db'.attempts[b].number == db.attempts[b].number
          && (if a.Retry? && b == a.scheduled
              then db.attempts[b].status == RetryScheduled && db'.attempts[b].status == Failed
              else db'.attempts[b].status == db.attempts[b].status))
    && (a.Retry? ==> a.scheduled in db.attempts)
    && db'.notifications.Keys == (if a.Initial? then db.notifications.Keys + {a.key} else db.notifications.Keys)
    && db'.outbox.Keys <= db'.attempts.Keys
    && db'.deadLetters.Keys == db.deadLetters.Keys
    && (a.Replay? ==> a.deadLetter in db.deadLetters)
    && (forall d :: d in db.deadLetters ==>
          db'.deadLetters[d] == (if a == Replay(d) then db.deadLetters[d].(replayAttempt := Some(a)) else db.deadLetters[d]))
  }

  lemma ExtendsKeepsAttempts(db: Db, db': Db, a: AttemptId)
    requires ChainOk(db) && Extends(db, db', a)
    ensures forall b :: b in db'.attempts ==> AttemptOk(db', b)
  {
    if a.Replay? { assert LetterOk(db, a.deadLetter); }
    forall b | b in db'.attempts ensures AttemptOk(db', b) {
      if b != a { assert AttemptOk(db, b); }
    }
  }

  lemma ExtendsKeepsLetters(db: Db, db': Db, a: AttemptId)
    requires ChainOk(db) && Extends(db, db', a)
    ensures forall d :: d in db'.deadLetters ==> LetterOk(db', d)
    ensures forall d :: Issued(db', d) ==> Issued(db, d)
  {
    forall d | d in db'.deadLetters ensures LetterOk(db', d) {
      assert LetterOk(db, d);
    }
  }

  lemma ExtendsKeepsOrigins(db: Db, db': Db, a: AttemptId)
    requires ChainOk(db) && Extends(db, db', a)
    ensures OnePerOrigin(db')
  {
    ExtendsKeepsLetters(db, db', a);
    forall d, e | Issued(db', d) && Issued(db', e) && d.origin == e.origin ensures d == e {
      assert Issued(db, d) && Issued(db, e);
    }
  }

  lemma ExtendsKeeps(db: Db, db': Db, a: AttemptId)
    requires ChainOk(db) && Extends(db, db', a)
    ensures ChainOk(db') && Undisturbed(db, db')
  {
    ExtendsKeepsOrigins(db, db', a);
    ExtendsKeepsAttempts(db, db', a);
    ExtendsKeepsLetters(db, db', a);
    ExtendsIsUndisturbed(db, db', a);
  }

  lemma ExtendsIsUndisturbed(db: Db, db': Db, a: AttemptId)
    requires ChainOk(db) && Extends(db, db', a)
    ensures forall b :: HasStatus(db, b, InProgress) ==> HasStatus(db', b, InProgress)
    ensures forall b :: HasStatus(db, b, DeadLettered) ==> HasStatus(db', b, DeadLettered)
  {
  }

  lemma CreateKeeps(db: Db, key: Key, scheduledFor: Option<Time>, now: Time)
    requires ChainOk(db)
    ensures ChainOk(After(CreateNotification(db, key, scheduledFor, now), db))
    ensures Undisturbed(db, After(CreateNotification(db, key, scheduledFor, now), db))
  {
    var db' := After(CreateNotification(db, key, scheduledFor, now), db);
    if CreateNotification(db, key, scheduledFor, now).Ok? {
      assert Extends(db, db', Initial(key));
      ExtendsKeeps(db, db', Initial(key));
    }
  }

  lemma EnsureInitialKeeps(db: Db, key: Key)
    requires ChainOk(db)
    ensures ChainOk(After(EnsureInitial(db, key), db))
    ensures Undisturbed(db, After(EnsureInitial(db, key), db))
    ensures After(EnsureInitial(db, key), db).attempts == db.attempts
  {
    var db' := After(EnsureInitial(db, key), db);
    if key in db.notifications {
      assert Initial(key) in db.attempts;
      IntentKeeps(db, Initial(key), FromInitial, db.attempts[Initial(key)].enqueuedAt);
    }
  }

  lemma IntentKeeps(db: Db, a: AttemptId, source: Source, enqueuedAt: Option<Time>)
    requires ChainOk(db) && a in db.attempts
    ensures ChainOk(InsertIntent(db, a, source, enqueuedAt))
    ensures Undisturbed(db, InsertIntent(db, a, source, enqueuedAt))
  {
    var db' := InsertIntent(db, a, source, enqueuedAt);
    forall b | b in db'.attempts ensures AttemptOk(db', b) {
      assert AttemptOk(db, b);
    }
    forall d | d in db'.deadLetters ensures LetterOk(db', d) {
      assert LetterOk(db, d);
    }
    forall d ensures Issued(db', d) <==> Issued(db, d) {
    }
  }

  lemma RetireIsGentle(db: Db, a: AttemptId)
    requires forall d :: d in db.deadLetters && db.deadLetters[d].replayedAt.Some? ==> db.deadLetters[d].replayAttempt.Some?
    ensures Gentle(db, RetireScheduled(db, a))
    ensures forall b :: HasStatus(db, b, InProgress) ==> HasStatus(RetireScheduled(db, a), b, InProgress)
  {
  }

  lemma RetireKeeps(db: Db, a: AttemptId)
    requires ChainOk(db)
    ensures ChainOk(RetireScheduled(db, a)) && Undisturbed(db, RetireScheduled(db, a))
  {
    LettersConsistent(db);
    RetireIsGentle(db, a);
    GentleIsUndisturbed(db, RetireScheduled(db, a));
  }

  // A due, childless attempt can be given its retry attempt: the slot is free.
  lemma RetrySlotFree(db: Db, a: AttemptId)
    requires ChainOk(db) && HasStatus(db, a, RetryScheduled)
    ensures Retry(a) !in db.attempts
    ensures !SlotTaken(db, Retry(a), db.attempts[a].key, db.attempts[a].number + 1)
  {
    if Retry(a) in db.attempts { assert AttemptOk(db, Retry(a)); }
    NoChild(db, a);
    LeafIsLast(db, a);
    forall b | b in db.attempts ensures !(db.attempts[b].key == db.attempts[a].key && db.attempts[b].number == db.attempts[a].number + 1) {
      assert AttemptOk(db, b) && AttemptOk(db, a);
    }
  }

  lemma EnsureRetryExtends(db: Db, a: AttemptId, now: Time)
    requires ChainOk(db) && HasStatus(db, a, RetryScheduled) && RetryDue(db.attempts[a], now)
    ensures EnsureRetry(db, a, now).Ok?
    ensures Extends(db, EnsureRetry(db, a, now).value, Retry(a))
  {
    RetrySlotFree(db, a);
    assert AttemptOk(db, a);
    var db1 := InsertAttempt(db, Retry(a), db.attempts[a].key, db.attempts[a].number + 1).value;
    var db2 := InsertIntent(db1, Retry(a), FromRetry, None);
    assert EnsureRetry(db, a, now) == Ok(RetireScheduled(db2, a));
  }

  lemma EnsureRetryKeeps(db: Db, a: AttemptId, now: Time)
    requires ChainOk(db)
    ensures ChainOk(After(EnsureRetry(db, a, now), db))
    ensures Undisturbed(db, After(EnsureRetry(db, a, now), db))
    ensures EnsureRetry(db, a, now) != Err(Conflict)
  {
    var child := Retry(a);
    if a in db.attempts {
      if child in db.attempts {
        IntentKeeps(db, child, FromRetry, db.attempts[child].enqueuedAt);
        RetireKeeps(InsertIntent(db, child, FromRetry, db.attempts[child].enqueuedAt), a);
      } else if RetryDue(db.attempts[a], now) {
        EnsureRetryExtends(db, a, now);
        ExtendsKeeps(db, EnsureRetry(db, a, now).value, child);
      }
    }
  }

  lemma EnsureReplayKeeps(db: Db, d: DeadLetterId)
    requires ChainOk(db)
    ensures ChainOk(After(EnsureReplay(db, d), db))
    ensures Undisturbed(db, After(EnsureReplay(db, d), db))
    ensures EnsureReplay(db, d) != Err(Conflict)
  {
    if d in db.deadLetters {
      assert LetterOk(db, d);
      var row := db.deadLetters[d];
      var a := Replay(d);
      if a in db.attempts {
        IntentKeeps(db, a, FromReplay, db.attempts[a].enqueuedAt);
      } else {
        ReplaySlotFree(db, d);
        assert Extends(db, After(EnsureReplay(db, d), db), a);
        ExtendsKeeps(db, After(EnsureReplay(db, d), db), a);
      }
    }
  }

  // --------------------------------------------------------- chain structure

  lemma NoChild(db: Db, a: AttemptId)
    requires ChainOk(db) && a in db.attempts
    requires db.attempts[a].status !in {Failed, DeadLettered}
    ensures forall b :: b in db.attempts && !b.Initial? ==> Parent(b) != a
  {
    forall b | b in db.attempts && !b.Initial? ensures Parent(b) != a {
      assert AttemptOk(db, b);
    }
  }

  // Two attempts of one key at the same depth are the same attempt.
  lemma {:induction false} OnePerSlot(db: Db, a: AttemptId, b: AttemptId)
    requires ChainOk(db) && a in db.attempts && b in db.attempts
    requires KeyOf(a) == KeyOf(b) && Depth(a) == Depth(b)
    ensures a == b
    decreases Depth(a)
  {
    assert AttemptOk(db, a) && AttemptOk(db, b);
    if !a.Initial? {
      OnePerSlot(db, Parent(a), Parent(b));
      if a.Replay? {
        assert Issued(db, a.deadLetter) && Issued(db, b.deadLetter);
      }
    }
  }

  // Nothing of the same key lies beyond an attempt without successor.
  lemma {:induction false} LeafBounds(db: Db, a: AttemptId, b: AttemptId)
    requires ChainOk(db) && a in db.attempts && b in db.attempts && KeyOf(a) == KeyOf(b)
    requires forall c :: c in db.attempts && !c.Initial? ==> Parent(c) != a
    ensures Depth(b) <= Depth(a)
    decreases Depth(b)
  {
    assert AttemptOk(db, b);
    if !b.Initial? {
      LeafBounds(db, a, Parent(b));
      if Depth(Parent(b)) == Depth(a) {
        OnePerSlot(db, Parent(b), a);
      }
    }
  }

  lemma LeafIsLast(db: Db, a: AttemptId)
    requires ChainOk(db) && a in db.attempts
    requires forall c :: c in db.attempts && !c.Initial? ==> Parent(c) != a
    ensures forall b :: b in db.attempts && KeyOf(b) == KeyOf(a) ==> Depth(b) <= Depth(a)
    ensures MaxOf(NumbersOf(db, KeyOf(a))) == Depth(a)
  {
    forall b | b in db.attempts && KeyOf(b) == KeyOf(a) ensures Depth(b) <= Depth(a) {
      LeafBounds(db, a, b);
    }
    var numbers := NumbersOf(db, KeyOf(a));
    assert AttemptOk(db, a);
    assert Depth(a) in numbers;
    forall n | n in numbers ensures n <= Depth(a) {
      var b :| b in db.attempts && db.attempts[b].key == KeyOf(a) && db.attempts[b].number == n;
      assert AttemptOk(db, b);
    }
  }

  lemma ReplaySlotFree(db: Db, d: DeadLetterId)
    requires ChainOk(db) && d in db.deadLetters && Replay(d) !in db.attempts
    ensures var row := db.deadLetters[d];
      && MaxOf(NumbersOf(db, row.key)) + 1 == Depth(Replay(d))
      && !SlotTaken(db, Replay(d), row.key, Depth(Replay(d)))
  {
    assert LetterOk(db, d) && AttemptOk(db, d.origin);
    forall b | b in db.attempts && !b.Initial? ensures Parent(b) != d.origin {
      assert AttemptOk(db, b);
      if Parent(b) == d.origin {
        assert b.Replay?;
        assert Issued(db, b.deadLetter) && Issued(db, d);
      }
    }
    LeafIsLast(db, d.origin);
    forall b | b in db.attempts ensures !(db.attempts[b].key == db.deadLetters[d].key && db.attempts[b].number == Depth(Replay(d))) {
      assert AttemptOk(db, b);
    }
  }

  // ------------------------------------------------------ steps of the machine

  lemma GentleIsUndisturbed(db: Db, db': Db)
    requires ChainOk(db) && Gentle(db, db')
    requires forall a :: HasStatus(db, a, InProgress) ==> HasStatus(db', a, InProgress)
    ensures ChainOk(db') && Undisturbed(db, db')
  {
    GentleKeeps(db, db');
  }

  lemma ReplaceUnowned(db: Db, procs: map<nat, Process>, pid: nat, p: Process)
    requires OwnersOk(db, procs) && Owned(p).None?
    ensures OwnersOk(db, procs[pid := p]) && OwnersOk(db, procs - {pid})
  {
    var more, less := procs[pid := p], procs - {pid};
    forall q | q in more ensures WorkOk(db, more[q]) {
      if q != pid { assert WorkOk(db, procs[q]); }
    }
    forall q | q in less ensures WorkOk(db, less[q]) {
      assert WorkOk(db, procs[q]);
    }
  }

  lemma ApiKeeps(s: State, op: ApiOp)
    requires Inv(s)
    ensures Inv(Apply(s, Api(op)))
    ensures ApiTx(s, op) != Err(Conflict) || op.OpCreate?
  {
    var db, db' := s.db, Apply(s, Api(op)).db;
    match op {
      case OpCreate(key, scheduledFor) => CreateKeeps(db, key, scheduledFor, s.now);
      case OpEnsureInitial(key) => EnsureInitialKeeps(db, key);
      case OpEnsureRetry(a) => EnsureRetryKeeps(db, a, s.now);
      case OpEnsureReplay(d) => EnsureReplayKeeps(db, d);
      case OpPromote(key) => PromoteKeeps(db, key, FromSchedule, s.now);
      case OpRedrive(key) => PromoteKeeps(db, key, FromRedrive, s.now);
      case _ => SimpleKeeps(s, op);
    }
    UndisturbedKeeps(db, db', s.procs);
  }

  lemma PromoteKeeps(db: Db, key: Key, source: Source, now: Time)
    requires ChainOk(db)
    ensures NotYetPromoted(db, key) ==>
      var db' := MarkPromoted(InsertIntent(db, Initial(key), source, None), key, now);
      ChainOk(db') && Undisturbed(db, db')
  {
    if NotYetPromoted(db, key) {
      var db1 := InsertIntent(db, Initial(key), source, None);
      IntentKeeps(db, Initial(key), source, None);
      LettersConsistent(db1);
      GentleIsUndisturbed(db1, MarkPromoted(db1, key, now));
    }
  }

  lemma LettersConsistent(db: Db)
    requires ChainOk(db)
    ensures forall d :: d in db.deadLetters && db.deadLetters[d].replayedAt.Some? ==> db.deadLetters[d].replayAttempt.Some?
  {
    forall d | d in db.deadLetters ensures LetterOk(db, d) {
    }
  }

  lemma SimpleKeeps(s: State, op: ApiOp)
    requires Inv(s) && (op.OpCancel? || op.OpWriteRollup? || op.OpCleanOutbox? || op.OpCleanDeadLetters?)
    ensures ChainOk(After(ApiTx(s, op), s.db)) && Undisturbed(s.db, After(ApiTx(s, op), s.db))
  {
    LettersConsistent(s.db);
    GentleIsUndisturbed(s.db, After(ApiTx(s, op), s.db));
  }

  // The change of a claim, a publication or a release: statuses stay put.
  lemma MarkPublishedKeeps(db: Db, a: AttemptId, claimedAt: Time, now: Time)
    requires ChainOk(db)
    ensures var db' := After(MarkPublished(db, a, claimedAt, now), db);
      ChainOk(db') && Undisturbed(db, db')
  {
    if HeldBy(db, a, claimedAt) {
      var row := db.outbox[a];
      var db1 := db.(outbox := db.outbox[a :=
          row.(status := Published, claimedAt := None, publishedAt := Some(row.publishedAt.GetOr(now)))]);
      LettersConsistent(db);
      GentleIsUndisturbed(db, db1);
      var db2 := MarkEnqueued(db1, a, now);
      LettersConsistent(db1);
      GentleIsUndisturbed(db1, db2);
      LettersConsistent(db2);
      GentleIsUndisturbed(db2, MarkReplayed(db2, a, now));
    }
  }

  lemma PublishKeeps(s: State, pid: nat, op: PublisherOp)
    requires Inv(s)
    ensures Inv(PublishStep(s, pid, op))
  {
    var s' := PublishStep(s, pid, op);
    PublishKeepsDb(s, pid, op);
    UndisturbedKeeps(s.db, s'.db, s.procs);
    ReplaceUnowned(s'.db, s.procs, pid, Publisher([], ToEnqueue));
    if pid in s'.procs && s'.procs != s.procs { ReplaceUnowned(s'.db, s.procs, pid, s'.procs[pid]); }
  }

  lemma PublishKeepsDb(s: State, pid: nat, op: PublisherOp)
    requires Inv(s)
    ensures var db' := PublishStep(s, pid, op).db; ChainOk(db') && Undisturbed(s.db, db')
  {
    if op.OpClaim? {
      LeaseKeeps(s.db, (set a | a in op.batch), s.now);
    } else if pid in s.procs && s.procs[pid].Publisher? && s.procs[pid].batch != [] {
      var c := s.procs[pid].batch[0];
      MarkPublishedKeeps(s.db, c.attempt, c.claimedAt, s.now);
      ReleaseKeeps(s.db, c.attempt, c.claimedAt);
    }
  }

  lemma LeaseKeeps(db: Db, batch: set<AttemptId>, now: Time)
    requires ChainOk(db)
    ensures ChainOk(Lease(db, batch, now)) && Undisturbed(db, Lease(db, batch, now))
  {
    LettersConsistent(db);
    GentleIsUndisturbed(db, Lease(db, batch, now));
  }

  lemma ReleaseKeeps(db: Db, a: AttemptId, claimedAt: Time)
    requires ChainOk(db)
    ensures var db' := After(RecordIntentError(db, a, claimedAt), db); ChainOk(db') && Undisturbed(db, db')
  {
    LettersConsistent(db);
    GentleIsUndisturbed(db, After(RecordIntentError(db, a, claimedAt), db));
  }

  lemma RouteKeeps(s: State, pid: nat, op: DispatcherOp)
    requires Inv(s)
    ensures Inv(RouteStep(s, pid, op))
  {
    var s' := RouteStep(s, pid, op);
    ReplaceUnowned(s.db, s.procs, pid, Publisher([], ToEnqueue));
    if pid in s'.procs && s'.procs != s.procs { ReplaceUnowned(s'.db, s.procs, pid, s'.procs[pid]); }
  }

  // An outcome write by the call that owns the attempt.
  lemma FinishKeeps(s: State, pid: nat, status: AttemptStatus, nextRetryAt: Option<Time>)
    requires Inv(s) && pid in s.procs && s.procs[pid].Worker? && s.procs[pid].work.ToRecord?
    requires status !in {Pending, InProgress}
    ensures var a := s.procs[pid].job.attempt;
      && Finish(s.db, a, status, nextRetryAt).Ok?
      && var db' := Finish(s.db, a, status, nextRetryAt).value;
      && ChainOk(db')
      && (forall d :: Issued(db', d) ==> Issued(s.db, d))
      && NeverIssued(db', a)
      && (forall q :: q in s.procs && q != pid ==> WorkOk(db', s.procs[q]))
  {
    var a := s.procs[pid].job.attempt;
    assert WorkOk(s.db, s.procs[pid]);
    var db' := Finish(s.db, a, status, nextRetryAt).value;
    LettersConsistent(s.db);
    GentleKeeps(s.db, db');
    InProgressNeverIssued(s.db, a);
    forall q | q in s.procs && q != pid ensures WorkOk(db', s.procs[q]) {
      assert WorkOk(s.db, s.procs[q]);
      assert Owned(s.procs[q]) != Owned(s.procs[pid]);
    }
  }

  lemma InProgressNeverIssued(db: Db, a: AttemptId)
    requires ChainOk(db) && a in db.attempts && db.attempts[a].status != DeadLettered
    ensures NeverIssued(db, a)
  {
    forall d | Issued(db, d) ensures d.origin != a {
      if d in db.deadLetters { assert LetterOk(db, d); } else { assert AttemptOk(db, Replay(d)); }
    }
  }

  // What a recorded outcome writes, and where the call goes next.
  lemma Recorded(s: State, pid: nat, outcome: Outcome) returns (status: AttemptStatus, nextRetryAt: Option<Time>, phase: WorkPhase)
    requires pid in s.procs && s.procs[pid].Worker? && HasStatus(s.db, s.procs[pid].job.attempt, InProgress)
    ensures status !in {Pending, InProgress} && Finish(s.db, s.procs[pid].job.attempt, status, nextRetryAt).Ok?
    ensures RecordStep(s, pid, outcome) ==
      s.(db := Finish(s.db, s.procs[pid].job.attempt, status, nextRetryAt).value, procs := s.procs[pid := s.procs[pid].(work := phase)])
    ensures phase == ToFinish || (phase == ToInsertDeadLetter && status == DeadLettered)
  {
    var s' := RecordStep(s, pid, outcome);
    var a := s.procs[pid].job.attempt;
    status, nextRetryAt, phase := s'.db.attempts[a].status, s'.db.attempts[a].nextRetryAt, s'.procs[pid].work;
  }

  lemma RecordKeeps(s: State, pid: nat, outcome: Outcome)
    requires Inv(s) && pid in s.procs && s.procs[pid].Worker? && s.procs[pid].work.ToRecord?
    ensures Inv(RecordStep(s, pid, outcome))
  {
    var s' := RecordStep(s, pid, outcome);
    var a := s.procs[pid].job.attempt;
    assert WorkOk(s.db, s.procs[pid]);
    var status, nextRetryAt, phase := Recorded(s, pid, outcome);
    FinishKeeps(s, pid, status, nextRetryAt);
    forall q | q in s'.procs ensures WorkOk(s'.db, s'.procs[q]) {
      if q != pid { assert s'.procs[q] == s.procs[q]; }
    }
  }

  lemma ActivateKeeps(s: State, pid: nat)
    requires Inv(s) && pid in s.procs && s.procs[pid].Worker? && s.procs[pid].work == ToActivate
    ensures Inv(WorkStep(s, pid, OpActivate))
  {
    var s' := WorkStep(s, pid, OpActivate);
    var a := s.procs[pid].job.attempt;
    if IsPending(s.db, a) {
      LettersConsistent(s.db);
      GentleIsUndisturbed(s.db, s'.db);
      UndisturbedKeeps(s.db, s'.db, s.procs);
      forall q | q in s.procs ensures Owned(s.procs[q]) != Some(a) {
        assert WorkOk(s.db, s.procs[q]);
      }
      forall q | q in s'.procs ensures WorkOk(s'.db, s'.procs[q]) {
        if q != pid { assert s'.procs[q] == s.procs[q]; }
      }
    } else {
      ReplaceUnowned(s.db, s.procs, pid, s'.procs[pid]);
    }
  }

  lemma InsertDeadLetterKeeps(s: State, pid: nat, serial: nat)
    requires Inv(s) && pid in s.procs && s.procs[pid].Worker? && s.procs[pid].work == ToInsertDeadLetter
    ensures Inv(WorkStep(s, pid, OpInsertDeadLetter(serial)))
  {
    var s' := WorkStep(s, pid, OpInsertDeadLetter(serial));
    var a := s.procs[pid].job.attempt;
    var d := DeadLetterId(a, serial);
    assert WorkOk(s.db, s.procs[pid]) && !Issued(s.db, d);
    forall e ensures Issued(s'.db, e) <==> Issued(s.db, e) || e == d {
    }
    forall b | b in s'.db.attempts ensures AttemptOk(s'.db, b) {
      assert AttemptOk(s.db, b);
    }
    forall e | e in s'.db.deadLetters ensures LetterOk(s'.db, e) {
      if e != d { assert LetterOk(s.db, e); }
    }
    forall q | q in s'.procs ensures WorkOk(s'.db, s'.procs[q]) {
      if q != pid {
        assert WorkOk(s.db, s.procs[q]);
        assert Owned(s.procs[q]) != Owned(s.procs[pid]);
      }
    }
  }

  lemma WorkKeeps(s: State, pid: nat, op: WorkerOp)
    requires Inv(s)
    ensures Inv(WorkStep(s, pid, op))
  {
    var s' := WorkStep(s, pid, op);
    if op.OpReserve? {
      if s' != s { ReplaceUnowned(s.db, s.procs, pid, s'.procs[pid]); }
    } else if pid in s.procs && s.procs[pid].Worker? {
      var p := s.procs[pid];
      ReplaceUnowned(s.db, s.procs, pid, p.(work := ToFinish));
      if p.work == ToActivate && op == OpActivate {
        ActivateKeeps(s, pid);
      } else if p.work.ToRecord? && op == OpRecord {
        RecordKeeps(s, pid, p.work.outcome);
      } else if p.work == ToInsertDeadLetter && op.OpInsertDeadLetter? {
        InsertDeadLetterKeeps(s, pid, op.serial);
      } else if p.work == ToSend && op.OpSend? {
        assert WorkOk(s.db, p);
        forall q | q in s'.procs ensures WorkOk(s'.db, s'.procs[q]) {
          if q != pid { assert WorkOk(s.db, s.procs[q]); }
        }
      }
    }
  }

  lemma StepKeeps(s: State, act: Action)
    requires Inv(s)
    ensures Inv(Apply(s, act))
  {
    match act {
      case Api(op) => ApiKeeps(s, op);
      case Publish(pid, op) => PublishKeeps(s, pid, op);
      case Route(pid, op) => RouteKeeps(s, pid, op);
      case Work(pid, op) => WorkKeeps(s, pid, op);
      case Environment(op) =>
        if op.OpCrash? { ReplaceUnowned(s.db, s.procs, op.pid, Publisher([], ToEnqueue)); }
    }
  }

  // The invariant holds in every state of every run.
  lemma {:induction false} Always(acts: seq<Action>)
    ensures Inv(Exec(acts))
  {
    if acts != [] {
      Always(acts[..|acts| - 1]);
      StepKeeps(Exec(acts[..|acts| - 1]), acts[|acts| - 1]);
    }
  }
}
