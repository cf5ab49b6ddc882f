// The durable markers of publication never run ahead of Redis: what Postgres
// records as enqueued, published or replayed was enqueued before.
module Markers {
  import opened Rows
  import opened Transactions
  import opened Transport
  import opened Protocol
  import opened Steps
  import opened Chain

  ghost predicate AttemptMarked(s: State, a: AttemptId) {
    && (IsEnqueued(s.db, a) ==> a in s.log.enqueued)
    && (a in s.log.enqueued ==> a in s.db.attempts && (a in s.db.outbox || IsEnqueued(s.db, a)))
    && (HasJob(s.redis, a) ==> a in s.log.enqueued)
  }

  ghost predicate IntentMarked(db: Db, a: AttemptId) {
    a in db.outbox ==>
      && (db.outbox[a].status == Published ==> IsEnqueued(db, a))
      && (db.outbox[a].source == FromReplay <==> a.Replay?)
  }

  ghost predicate LetterMarked(db: Db, d: DeadLetterId) {
    d in db.deadLetters ==>
      var row := db.deadLetters[d];
      row.replayedAt.Some? <==> row.replayAttempt.Some? && IsEnqueued(db, row.replayAttempt.value)
  }

  ghost predicate ProcMarked(s: State, p: Process) {
    match p
    case Publisher(batch, publish) =>
      && (forall c :: c in batch ==> c.attempt in s.db.attempts && (c.attempt in s.db.outbox || IsEnqueued(s.db, c.attempt)))
      && (publish == ToMark && batch != [] ==> batch[0].attempt in s.log.enqueued)
    case Dispatcher(j, _) => j.attempt in s.log.enqueued
    case Worker(_, j, _) => j.attempt in s.log.enqueued
  }

  ghost predicate MarkersOk(s: State) {
    && (forall a {:trigger AttemptMarked(s, a)} :: AttemptMarked(s, a))
    && (forall a {:trigger IntentMarked(s.db, a)} :: IntentMarked(s.db, a))
    && (forall d {:trigger LetterMarked(s.db, d)} :: LetterMarked(s.db, d))
    && (forall p {:trigger ProcMarked(s, s.procs[p])} :: p in s.procs ==> ProcMarked(s, s.procs[p]))
  }

  // ----------------------------------------------------------- intents, letters

  // An outbox that only gained repaired intents, over rows that kept their markers.
  lemma RepairedIntents(db: Db, db': Db, a: AttemptId)
    requires IntentMarked(db, a)
    requires IsEnqueued(db, a) ==> IsEnqueued(db', a)
    requires a in db.outbox && a in db'.outbox ==> db'.outbox[a] == db.outbox[a]
    requires a in db'.outbox && a !in db.outbox ==>
      && a in db'.attempts
      && exists source :: IsRepaired(db', a, source, db'.attempts[a].enqueuedAt) && (source == FromReplay <==> a.Replay?)
    ensures IntentMarked(db', a)
  {
  }

  lemma ApiIntents(s: State, op: ApiOp, a: AttemptId)
    requires Inv(s) && MarkersOk(s)
    ensures IntentMarked(Apply(s, Api(op)).db, a)
  {
    assert IntentMarked(s.db, a);
    RowsStep(s, Api(op), a);
    var db' := Apply(s, Api(op)).db;
    if op.OpEnsureRetry? {
      RetryTouches(s.db, op.scheduled, s.now);
      RepairedIntents(s.db, db', a);
    } else if op.OpEnsureReplay? {
      ReplayTouches(s.db, op.deadLetter);
      if op.deadLetter in s.db.deadLetters { assert LetterOk(s.db, op.deadLetter); }
      RepairedIntents(s.db, db', a);
    } else {
      OtherIntents(s, op, a);
    }
  }

  lemma OtherIntents(s: State, op: ApiOp, a: AttemptId)
    requires IntentMarked(s.db, a) && !op.OpEnsureRetry? && !op.OpEnsureReplay?
    requires RowStep(s, Api(op), Apply(s, Api(op)).db, a)
    ensures IntentMarked(Apply(s, Api(op)).db, a)
  {
    if op.OpCreate? {
      CreateTouches(s.db, op.key, op.scheduledFor, s.now);
    }
  }

  lemma ReplayKeepsLetters(s: State, replayed: DeadLetterId, d: DeadLetterId)
    requires Inv(s) && LetterMarked(s.db, d) && d in s.db.deadLetters
    ensures LetterMarked(After(EnsureReplay(s.db, replayed), s.db), d)
  {
    assert LetterOk(s.db, d);
    RowsStep(s, Api(OpEnsureReplay(replayed)), Replay(d));
    if EnsureReplay(s.db, replayed).Ok? && EnsureReplay(s.db, replayed).value != s.db {
      var a, grown := ReplayShape(s.db, replayed);
      LinkedLetters(s.db, grown, replayed, d, EnsureReplay(s.db, replayed).value);
    }
  }

  // Linking a dead letter to its new replay attempt, which is not enqueued.
  lemma LinkedLetters(db: Db, grown: Db, replayed: DeadLetterId, d: DeadLetterId, db': Db)
    requires replayed in db.deadLetters && d in db.deadLetters && LetterOk(db, d) && LetterOk(db, replayed) && LetterMarked(db, d)
    requires exists number :: grown == WithAttempt(db, Replay(replayed), db.deadLetters[replayed].key, number)
    requires db' == LinkReplay(InsertIntent(grown, Replay(replayed), FromReplay, grown.attempts[Replay(replayed)].enqueuedAt), replayed, Replay(replayed))
    ensures LetterMarked(db', d)
  {
  }

  lemma ApiLetters(s: State, op: ApiOp, d: DeadLetterId)
    requires Inv(s) && MarkersOk(s)
    ensures LetterMarked(Apply(s, Api(op)).db, d)
  {
    assert LetterMarked(s.db, d);
    if d in s.db.deadLetters {
      assert LetterOk(s.db, d);
      RowsStep(s, Api(op), Replay(d));
    }
    if op.OpEnsureRetry? {
      RetryTouches(s.db, op.scheduled, s.now);
    } else if op.OpEnsureReplay? {
      ReplayTouches(s.db, op.deadLetter);
      if d in s.db.deadLetters { ReplayKeepsLetters(s, op.deadLetter, d); }
    } else if op.OpCreate? {
      CreateTouches(s.db, op.key, op.scheduledFor, s.now);
    }
  }

  lemma ApiMarkers(s: State, op: ApiOp)
    requires Inv(s) && MarkersOk(s)
    ensures MarkersOk(Apply(s, Api(op)))
  {
    var s' := Apply(s, Api(op));
    forall a ensures AttemptMarked(s', a) {
      assert AttemptMarked(s, a);
      RowsStep(s, Api(op), a);
      if a in s.db.outbox { ApiOutboxGrows(s, op, a); }
    }
    forall a ensures IntentMarked(s'.db, a) { ApiIntents(s, op, a); }
    forall d ensures LetterMarked(s'.db, d) { ApiLetters(s, op, d); }
    forall p | p in s'.procs ensures ProcMarked(s', s'.procs[p]) {
      assert ProcMarked(s, s.procs[p]);
      if s.procs[p].Publisher? {
        forall c | c in s.procs[p].batch
          ensures c.attempt in s'.db.attempts && (c.attempt in s'.db.outbox || IsEnqueued(s'.db, c.attempt)) {
          RowsStep(s, Api(op), c.attempt);
          if c.attempt in s.db.outbox { ApiOutboxGrows(s, op, c.attempt); }
        }
      }
    }
  }

  // Only maintenance removes an outbox row, and only a published one.
  lemma ApiOutboxGrows(s: State, op: ApiOp, a: AttemptId)
    requires MarkersOk(s) && a in s.db.outbox
    ensures var db' := Apply(s, Api(op)).db; a in db'.outbox || IsEnqueued(db', a)
  {
    assert IntentMarked(s.db, a);
    if op.OpEnsureRetry? {
      RetryTouches(s.db, op.scheduled, s.now);
    } else if op.OpEnsureReplay? {
      ReplayTouches(s.db, op.deadLetter);
    } else if op.OpCreate? {
      CreateTouches(s.db, op.key, op.scheduledFor, s.now);
    }
  }

  // -------------------------------------------------------------- publishers

  // What one publisher step does to the rows, marker by marker.
  lemma MarkIntents(db: Db, c: Claim, now: Time, a: AttemptId)
    requires IntentMarked(db, a) && ChainOk(db)
    ensures var db' := After(MarkPublished(db, c.attempt, c.claimedAt, now), db);
      && IntentMarked(db', a)
      && (a in db'.outbox <==> a in db.outbox)
      && (IsEnqueued(db', a) <==> IsEnqueued(db, a) || (a == c.attempt && HeldBy(db, a, c.claimedAt)))
      && (a in db'.attempts <==> a in db.attempts)
  {
  }

  lemma MarkLetters(db: Db, c: Claim, now: Time, d: DeadLetterId)
    requires LetterMarked(db, d) && ChainOk(db) && IntentMarked(db, c.attempt)
    ensures LetterMarked(After(MarkPublished(db, c.attempt, c.claimedAt, now), db), d)
  {
    if d in db.deadLetters { assert LetterOk(db, d); }
  }

  lemma ClaimMarkers(s: State, pid: nat, batch: seq<AttemptId>)
    requires Inv(s) && MarkersOk(s)
    ensures MarkersOk(PublishStep(s, pid, OpClaim(batch)))
  {
    var s' := PublishStep(s, pid, OpClaim(batch));
    forall a ensures AttemptMarked(s', a) { assert AttemptMarked(s, a); }
    forall a ensures IntentMarked(s'.db, a) { assert IntentMarked(s.db, a); }
    forall d ensures LetterMarked(s'.db, d) { assert LetterMarked(s.db, d); }
    forall p | p in s'.procs ensures ProcMarked(s', s'.procs[p]) {
      if p in s.procs {
        assert ProcMarked(s, s.procs[p]);
      } else {
        forall c | c in s'.procs[p].batch ensures c.attempt in s'.db.attempts && c.attempt in s'.db.outbox {
          assert c.attempt in batch;
        }
      }
    }
  }

  lemma ProcsKeptByMark(s: State, c: Claim, p: Process)
    requires Inv(s) && MarkersOk(s) && ProcMarked(s, p)
    ensures ProcMarked(s.(db := After(MarkPublished(s.db, c.attempt, c.claimedAt, s.now), s.db)), p)
  {
    if p.Publisher? {
      var db' := After(MarkPublished(s.db, c.attempt, c.claimedAt, s.now), s.db);
      forall e | e in p.batch ensures e.attempt in db'.attempts && (e.attempt in db'.outbox || IsEnqueued(db', e.attempt)) {
        assert IntentMarked(s.db, e.attempt);
        MarkIntents(s.db, c, s.now, e.attempt);
      }
    }
  }

  lemma MarkMarkers(s: State, pid: nat)
    requires Inv(s) && MarkersOk(s)
    ensures MarkersOk(PublishStep(s, pid, OpMark))
  {
    var s' := PublishStep(s, pid, OpMark);
    if pid in s.procs && s.procs[pid].Publisher? && s.procs[pid].batch != [] && s.procs[pid].publish == ToMark {
      var batch := s.procs[pid].batch;
      var c := batch[0];
      assert ProcMarked(s, s.procs[pid]);
      assert s'.db == After(MarkPublished(s.db, c.attempt, c.claimedAt, s.now), s.db);
      forall a ensures AttemptMarked(s', a) && IntentMarked(s'.db, a) {
        assert AttemptMarked(s, a) && IntentMarked(s.db, a);
        MarkIntents(s.db, c, s.now, a);
      }
      forall d ensures LetterMarked(s'.db, d) {
        assert LetterMarked(s.db, d) && IntentMarked(s.db, c.attempt);
        MarkLetters(s.db, c, s.now, d);
      }
      forall p | p in s'.procs ensures ProcMarked(s', s'.procs[p]) {
        var before := if p == pid then Publisher(batch[1..], ToEnqueue) else s.procs[p];
        assert ProcMarked(s, s.procs[p]);
        assert ProcMarked(s, before);
        ProcsKeptByMark(s, c, before);
      }
    }
  }

  lemma EnqueueProc(s: State, pid: nat, op: PublisherOp, p: nat)
    requires !op.OpClaim? && !op.OpMark? && p in s.procs && ProcMarked(s, s.procs[p])
    requires pid in s.procs && s.procs[pid].Publisher? && s.procs[pid].batch != []
    ensures var s' := PublishStep(s, pid, op); p in s'.procs && ProcMarked(s', s'.procs[p])
  {
  }

  lemma EnqueueMarkers(s: State, pid: nat, op: PublisherOp)
    requires Inv(s) && MarkersOk(s) && !op.OpClaim? && !op.OpMark?
    ensures MarkersOk(PublishStep(s, pid, op))
  {
    var s' := PublishStep(s, pid, op);
    if pid in s.procs && s.procs[pid].Publisher? && s.procs[pid].batch != [] {
      var c := s.procs[pid].batch[0];
      assert ProcMarked(s, s.procs[pid]);
      assert c in s.procs[pid].batch;
      forall a ensures AttemptMarked(s', a) && IntentMarked(s'.db, a) {
        assert AttemptMarked(s, a) && IntentMarked(s.db, a);
        if op.OpEnqueue? || op.OpEnqueueError? {
          PushJobs(s.redis, PushRight(s.redis, Ready(Dispatch), Job(op.serial, c.attempt)), Ready(Dispatch), Job(op.serial, c.attempt), a);
        }
      }
      forall d ensures LetterMarked(s'.db, d) { assert LetterMarked(s.db, d); }
      forall p | p in s'.procs ensures ProcMarked(s', s'.procs[p]) {
        assert ProcMarked(s, s.procs[p]);
        EnqueueProc(s, pid, op, p);
      }
    }
  }

  // ---------------------------------------------------- transport and workers

  ghost predicate SameMarker(db: Db, db': Db, a: AttemptId) {
    (a in db'.attempts <==> a in db.attempts)
    && (a in db.attempts ==> db'.attempts[a].enqueuedAt == db.attempts[a].enqueuedAt)
  }

  // Steps that leave the rows' markers alone and put no new attempt into Redis.
  lemma QuietLetter(s: State, s': State, d: DeadLetterId)
    requires MarkersOk(s) && Inv(s)
    requires forall a {:trigger SameMarker(s.db, s'.db, a)} :: SameMarker(s.db, s'.db, a)
    requires d in s'.db.deadLetters ==>
      if d in s.db.deadLetters then s'.db.deadLetters[d] == s.db.deadLetters[d]
      else s'.db.deadLetters[d].replayAttempt.None? && s'.db.deadLetters[d].replayedAt.None?
    ensures LetterMarked(s'.db, d)
  {
    if d in s.db.deadLetters {
      assert LetterMarked(s.db, d) && LetterOk(s.db, d);
      assert SameMarker(s.db, s'.db, Replay(d));
    }
  }

  lemma QuietMarkers(s: State, s': State)
    requires MarkersOk(s) && Inv(s)
    requires s'.db.outbox == s.db.outbox && s'.log.enqueued == s.log.enqueued
    requires forall a {:trigger SameMarker(s.db, s'.db, a)} :: SameMarker(s.db, s'.db, a)
    requires forall d :: d in s'.db.deadLetters ==>
      if d in s.db.deadLetters then s'.db.deadLetters[d] == s.db.deadLetters[d]
      else s'.db.deadLetters[d].replayAttempt.None? && s'.db.deadLetters[d].replayedAt.None?
    requires forall a :: HasJob(s'.redis, a) ==> HasJob(s.redis, a) || a in s.log.enqueued
    requires forall p :: p in s'.procs ==> ProcMarked(s, s'.procs[p])
    ensures MarkersOk(s')
  {
    forall a ensures AttemptMarked(s', a) && IntentMarked(s'.db, a) {
      assert AttemptMarked(s, a) && IntentMarked(s.db, a) && SameMarker(s.db, s'.db, a);
    }
    forall d ensures LetterMarked(s'.db, d) { QuietLetter(s, s', d); }
    forall p | p in s'.procs ensures ProcMarked(s', s'.procs[p]) {
      assert ProcMarked(s, s'.procs[p]);
      if s'.procs[p].Publisher? {
        forall c | c in s'.procs[p].batch ensures SameMarker(s.db, s'.db, c.attempt) {}
      }
    }
  }

  lemma RouteMarkers(s: State, pid: nat, op: DispatcherOp)
    requires Inv(s) && MarkersOk(s)
    ensures MarkersOk(RouteStep(s, pid, op))
  {
    var s' := RouteStep(s, pid, op);
    forall p | p in s.procs ensures ProcMarked(s, s.procs[p]) {}
    forall a ensures HasJob(s'.redis, a) ==> HasJob(s.redis, a) || a in s.log.enqueued {
      PopPushJobs(s.redis, Ready(Dispatch), Reserved(Dispatch), a);
      if pid in s.procs && s.procs[pid].Dispatcher? {
        var j := s.procs[pid].routed;
        PushJobs(s.redis, PushRight(s.redis, Ready(ChannelQueue(j)), j), Ready(ChannelQueue(j)), j, a);
        RemoveJobs(s.redis, Reserved(Dispatch), j, a);
        RequeueJobs(s.redis, Dispatch, j, a);
      }
    }
    if op.OpReserveDispatch? && s' != s {
      PoppedJob(s.redis, Ready(Dispatch));
      assert AttemptMarked(s, Last(Items(s.redis, Ready(Dispatch))).attempt);
    }
    QuietMarkers(s, s');
  }

  lemma WorkJobs(s: State, pid: nat, op: WorkerOp, a: AttemptId)
    ensures HasJob(WorkStep(s, pid, op).redis, a) ==> HasJob(s.redis, a)
  {
    if op.OpReserve? {
      PopPushJobs(s.redis, Ready(WorkQueue(op.channel)), Reserved(WorkQueue(op.channel)), a);
    } else if pid in s.procs && s.procs[pid].Worker? {
      RemoveJobs(s.redis, Reserved(s.procs[pid].queue), s.procs[pid].job, a);
      if s.procs[pid].work.ToRecord? {
        RecordTouches(s, pid, s.procs[pid].work.outcome);
      }
    }
  }

  lemma ReserveMarkers(s: State, pid: nat, channel: Channel)
    requires Inv(s) && MarkersOk(s)
    ensures MarkersOk(WorkStep(s, pid, OpReserve(channel)))
  {
    var s' := WorkStep(s, pid, OpReserve(channel));
    if s' != s {
      var list := Ready(WorkQueue(channel));
      PoppedJob(s.redis, list);
      assert AttemptMarked(s, Last(Items(s.redis, list)).attempt);
      forall a ensures HasJob(s'.redis, a) ==> HasJob(s.redis, a) { WorkJobs(s, pid, OpReserve(channel), a); }
      forall p | p in s'.procs ensures ProcMarked(s, s'.procs[p]) {
        assert p in s.procs ==> ProcMarked(s, s.procs[p]);
      }
      QuietMarkers(s, s');
    }
  }

  lemma WorkMarkers(s: State, pid: nat, op: WorkerOp)
    requires Inv(s) && MarkersOk(s)
    ensures MarkersOk(WorkStep(s, pid, op))
  {
    if op.OpReserve? {
      ReserveMarkers(s, pid, op.channel);
    } else {
      var s' := WorkStep(s, pid, op);
      forall a ensures HasJob(s'.redis, a) ==> HasJob(s.redis, a) { WorkJobs(s, pid, op, a); }
      forall a ensures SameMarker(s.db, s'.db, a) { RowsStep(s, Work(pid, op), a); }
      forall p | p in s.procs ensures ProcMarked(s, s.procs[p]) {}
      WorkTouches(s, pid, op);
      WorkLetters(s, pid, op);
      QuietMarkers(s, s');
    }
  }

  lemma WorkLetters(s: State, pid: nat, op: WorkerOp)
    requires !op.OpReserve?
    ensures var s' := WorkStep(s, pid, op);
      && (forall d :: d in s'.db.deadLetters ==>
            if d in s.db.deadLetters then s'.db.deadLetters[d] == s.db.deadLetters[d]
            else s'.db.deadLetters[d].replayAttempt.None? && s'.db.deadLetters[d].replayedAt.None?)
      && (forall p :: p in s'.procs ==>
            && p in s.procs
            && (s'.procs[p] == s.procs[p] || (s.procs[p].Worker? && exists w :: s'.procs[p] == s.procs[p].(work := w))))
      && s'.log.enqueued == s.log.enqueued
  {
    if pid in s.procs && s.procs[pid].Worker? && s.procs[pid].work.ToRecord? {
      RecordTouches(s, pid, s.procs[pid].work.outcome);
    }
  }

  lemma EnvironmentMarkers(s: State, op: EnvironmentOp)
    requires Inv(s) && MarkersOk(s)
    ensures MarkersOk(EnvironmentStep(s, op))
  {
    forall p | p in s.procs ensures ProcMarked(s, s.procs[p]) {}
    forall a ensures HasJob(EnvironmentStep(s, op).redis, a) ==> HasJob(s.redis, a) {
      if op.OpRecover? { PopPushJobs(s.redis, Reserved(op.queue), Ready(op.queue), a); }
    }
    QuietMarkers(s, EnvironmentStep(s, op));
  }

  lemma MarkersStep(s: State, act: Action)
    requires Inv(s) && MarkersOk(s)
    ensures MarkersOk(Apply(s, act))
  {
    match act {
      case Api(op) => ApiMarkers(s, op);
      case Publish(pid, op) =>
        if op.OpClaim? {
          ClaimMarkers(s, pid, op.batch);
        } else if op.OpMark? {
          MarkMarkers(s, pid);
        } else {
          EnqueueMarkers(s, pid, op);
        }
      case Route(pid, op) => RouteMarkers(s, pid, op);
      case Work(pid, op) => WorkMarkers(s, pid, op);
      case Environment(op) => EnvironmentMarkers(s, op);
    }
  }

  lemma {:induction false} MarkersAlways(acts: seq<Action>)
    ensures MarkersOk(Exec(acts))
  {
    if acts == [] {
      forall a ensures !HasJob(INIT.redis, a) {}
    } else {
      var front := acts[..|acts| - 1];
      MarkersAlways(front);
      Always(front);
      MarkersStep(Exec(front), acts[|acts| - 1]);
    }
  }

  // Every durable marker follows an enqueue that took effect, and the replay
  // marker of a dead letter is set exactly when its replay was enqueued.
  lemma MarkersFollowRedis(acts: seq<Action>, a: AttemptId, d: DeadLetterId)
    ensures var s := Exec(acts);
      && (IsEnqueued(s.db, a) ==> a in s.log.enqueued)
      && (a in s.db.outbox && s.db.outbox[a].status == Published ==> IsEnqueued(s.db, a))
      && (d in s.db.deadLetters ==>
            (s.db.deadLetters[d].replayedAt.Some? <==> IsEnqueued(s.db, Replay(d))))
      && (HasJob(s.redis, a) ==> a in s.log.enqueued && a in s.db.attempts)
  {
    MarkersAlways(acts);
    Always(acts);
    var s := Exec(acts);
    assert AttemptMarked(s, a) && IntentMarked(s.db, a) && LetterMarked(s.db, d);
    if d in s.db.deadLetters { assert LetterOk(s.db, d); }
  }

  // --------------------------------------------------------------- repairs

  predicate IsRepair(op: ApiOp) {
    op.OpEnsureInitial? || op.OpEnsureRetry? || op.OpEnsureReplay?
  }

  lemma RetryMarker(db: Db, p: AttemptId, now: Time, a: AttemptId)
    requires IsEnqueued(db, a)
    ensures IsEnqueued(After(EnsureRetry(db, p, now), db), a)
  {
  }

  lemma ReplayMarker(db: Db, d: DeadLetterId, a: AttemptId)
    requires IsEnqueued(db, a)
    ensures IsEnqueued(After(EnsureReplay(db, d), db), a)
  {
  }

  // Repeating a submission, a retry or a replay never reopens the dispatch of
  // work that was already enqueued, even after maintenance deleted its outbox row.
  lemma RepairNeverReopens(s: State, op: ApiOp, a: AttemptId)
    requires IsRepair(op) && IsEnqueued(s.db, a)
    ensures HasOpenIntent(Apply(s, Api(op)).db, a) ==> HasOpenIntent(s.db, a)
  {
    if op.OpEnsureRetry? {
      RetryMarker(s.db, op.scheduled, s.now, a);
      RetryTouches(s.db, op.scheduled, s.now);
    } else if op.OpEnsureReplay? {
      ReplayMarker(s.db, op.deadLetter, a);
      ReplayTouches(s.db, op.deadLetter);
    }
  }
}
