// The times in the rows are the times of the steps that wrote them: over every
// run, what a row says about when work was enqueued, published, replayed or is
// to be retried is what happened then.
module Stamps {
  import opened Wrappers
  import opened Rows
  import opened Transactions
  import opened Protocol
  import opened Chain
  import opened Steps
  import opened Markers
  import opened Claims
  import opened Columns

  // The step is a publisher's mark of the attempt, under a lease that is current.
  ghost predicate Marks(s: State, act: Action, a: AttemptId) {
    && act.Publish? && act.publish == OpMark && act.publisher in s.procs
    && var p := s.procs[act.publisher];
    p.Publisher? && p.publish == ToMark && p.batch != [] && p.batch[0].attempt == a && Valid(s.db, p.batch[0])
  }

  // When the run first marked the attempt.
  ghost function FirstMark(acts: seq<Action>, a: AttemptId): Option<Time> {
    if acts == [] then None
    else
      var front := acts[..|acts| - 1];
      if FirstMark(front, a).Some? then FirstMark(front, a)
      else if Marks(Exec(front), acts[|acts| - 1], a) then Some(Exec(front).now) else None
  }

  ghost predicate MarkedAt(acts: seq<Action>, a: AttemptId, t: Time) {
    acts != [] &&
      var front := acts[..|acts| - 1];
      MarkedAt(front, a, t) || (Marks(Exec(front), acts[|acts| - 1], a) && t == Exec(front).now)
  }

  // ----------------------------------------------------------------- one step

  lemma MarkStep(s: State, act: Action, a: AttemptId)
    requires Marks(s, act, a)
    ensures Apply(s, act).db == MarkPublished(s.db, a, s.procs[act.publisher].batch[0].claimedAt, s.now).value
  {
  }

  lemma EnqueuedStep(s: State, act: Action, a: AttemptId)
    requires Inv(s)
    ensures var db' := Apply(s, act).db;
      && (a in s.db.attempts ==>
            a in db'.attempts &&
            db'.attempts[a].enqueuedAt ==
              if Marks(s, act, a) then Stamped(s.db.attempts[a].enqueuedAt, s.now) else s.db.attempts[a].enqueuedAt)
      && (a !in s.db.attempts && a in db'.attempts ==> db'.attempts[a].enqueuedAt == None)
      && (Marks(s, act, a) ==> a in s.db.attempts)
  {
    RowsStep(s, act, a);
    if act.Publish? && act.publish == OpMark { OtherMarks(s, act.publisher, a); }
  }

  lemma OtherMarks(s: State, pid: nat, a: AttemptId)
    requires Inv(s)
    ensures var act, db' := Publish(pid, OpMark), Apply(s, Publish(pid, OpMark)).db;
      && (a in s.db.attempts && !Marks(s, act, a) ==> a in db'.attempts && db'.attempts[a] == s.db.attempts[a])
      && (Marks(s, act, a) ==>
            && a in s.db.attempts
            && db'.attempts[a].enqueuedAt == Stamped(s.db.attempts[a].enqueuedAt, s.now))
      && (a !in s.db.attempts ==> a !in db'.attempts)
  {
    if pid in s.procs && s.procs[pid].Publisher? && s.procs[pid].batch != [] && s.procs[pid].publish == ToMark {
      var c := s.procs[pid].batch[0];
      if Valid(s.db, c) {
        MarkStamps(s.db, c.attempt, c.claimedAt, s.now);
      } else {
        WithoutLease(s.db, c.attempt, c.claimedAt, s.now);
      }
    }
  }

  // ------------------------------------------------------------------ enqueued

  // In every run dispatch_enqueued_at is the time of the first mark.
  lemma {:induction false} EnqueuedAtFirstMark(acts: seq<Action>, a: AttemptId)
    ensures if a in Exec(acts).db.attempts then Exec(acts).db.attempts[a].enqueuedAt == FirstMark(acts, a)
            else FirstMark(acts, a) == None
  {
    if acts != [] {
      var front := acts[..|acts| - 1];
      EnqueuedAtFirstMark(front, a);
      Always(front);
      EnqueuedStep(Exec(front), acts[|acts| - 1], a);
    }
  }

  // A dead letter was replayed when its replay was enqueued.
  ghost predicate ReplayedTogether(db: Db, d: DeadLetterId) {
    d in db.deadLetters ==>
      db.deadLetters[d].replayedAt == if Replay(d) in db.attempts then db.attempts[Replay(d)].enqueuedAt else None
  }

  lemma MarkReplays(db: Db, a: AttemptId, claimedAt: Time, now: Time, d: DeadLetterId)
    requires ChainOk(db) && Valid(db, Claim(a, claimedAt)) && IntentMarked(db, a) && ReplayedTogether(db, d)
    ensures ReplayedTogether(MarkPublished(db, a, claimedAt, now).value, d)
  {
    if d in db.deadLetters { assert LetterOk(db, d); }
    MarkStamps(db, a, claimedAt, now);
  }

  lemma PublishReplays(s: State, pid: nat, op: PublisherOp, d: DeadLetterId)
    requires Inv(s) && MarkersOk(s) && ReplayedTogether(s.db, d)
    ensures ReplayedTogether(PublishStep(s, pid, op).db, d)
  {
    if op.OpMark? && pid in s.procs && s.procs[pid].Publisher? && s.procs[pid].batch != [] && s.procs[pid].publish == ToMark {
      var c := s.procs[pid].batch[0];
      if Valid(s.db, c) {
        assert IntentMarked(s.db, c.attempt);
        MarkReplays(s.db, c.attempt, c.claimedAt, s.now, d);
      }
    }
  }

  lemma WorkReplays(s: State, pid: nat, op: WorkerOp, d: DeadLetterId)
    requires Inv(s) && ReplayedTogether(s.db, d)
    ensures ReplayedTogether(WorkStep(s, pid, op).db, d)
  {
    RowsStep(s, Work(pid, op), Replay(d));
    if !op.OpReserve? { WorkLetters(s, pid, op); }
    if d in WorkStep(s, pid, op).db.deadLetters && d !in s.db.deadLetters { NewLetterHasNoReplay(s, pid, op, d); }
  }

  // The letter a call inserts was never issued before.
  lemma NewLetterHasNoReplay(s: State, pid: nat, op: WorkerOp, d: DeadLetterId)
    requires Inv(s) && d in WorkStep(s, pid, op).db.deadLetters && d !in s.db.deadLetters
    ensures Replay(d) !in s.db.attempts && WorkStep(s, pid, op).db.deadLetters[d].replayedAt == None
  {
    assert WorkOk(s.db, s.procs[pid]);
    if s.procs[pid].work.ToRecord? {
      RecordTouches(s, pid, s.procs[pid].work.outcome);
    } else if s.procs[pid].work == ToInsertDeadLetter {
      assert !Issued(s.db, d);
    }
  }

  lemma ApiReplays(s: State, op: ApiOp, d: DeadLetterId)
    requires Inv(s) && ReplayedTogether(s.db, d)
    ensures ReplayedTogether(Apply(s, Api(op)).db, d)
  {
    EnqueuedStep(s, Api(op), Replay(d));
    if d in s.db.deadLetters { assert LetterOk(s.db, d); }
    if op.OpEnsureRetry? {
      RetryTouches(s.db, op.scheduled, s.now);
    } else if op.OpEnsureReplay? {
      ReplayTouches(s.db, op.deadLetter);
    } else if op.OpCreate? {
      CreateTouches(s.db, op.key, op.scheduledFor, s.now);
    }
  }

  lemma {:induction false} ReplayedAtFirstMark(acts: seq<Action>, d: DeadLetterId)
    requires d in Exec(acts).db.deadLetters
    ensures Exec(acts).db.deadLetters[d].replayedAt == FirstMark(acts, Replay(d))
  {
    ReplayedAlways(acts, d);
    EnqueuedAtFirstMark(acts, Replay(d));
  }

  lemma {:induction false} ReplayedAlways(acts: seq<Action>, d: DeadLetterId)
    ensures ReplayedTogether(Exec(acts).db, d)
  {
    if acts != [] {
      var front, act := acts[..|acts| - 1], acts[|acts| - 1];
      ReplayedAlways(front, d);
      Always(front);
      MarkersAlways(front);
      match act
      case Api(op) => ApiReplays(Exec(front), op, d);
      case Publish(pid, op) => PublishReplays(Exec(front), pid, op, d);
      case Work(pid, op) => WorkReplays(Exec(front), pid, op, d);
      case _ =>
    }
  }

  // ----------------------------------------------------------------- published

  // A row has a publication time exactly when it is published.
  ghost predicate StampOk(acts: seq<Action>, a: AttemptId) {
    a in Exec(acts).db.outbox ==>
      var row := Exec(acts).db.outbox[a];
      if row.status == Published then row.publishedAt.Some? && MarkedAt(acts, a, row.publishedAt.value) else row.publishedAt == None
  }

  lemma {:induction false} FirstIsMarked(acts: seq<Action>, a: AttemptId)
    ensures FirstMark(acts, a).Some? ==> MarkedAt(acts, a, FirstMark(acts, a).value)
  {
    if acts != [] {
      FirstIsMarked(acts[..|acts| - 1], a);
    }
  }

  // How a step may write the row of an attempt.
  lemma RowWritten(s: State, act: Action, a: AttemptId)
    requires Inv(s) && a in Apply(s, act).db.outbox
    ensures var row := Apply(s, act).db.outbox[a];
      if a !in s.db.outbox then
        row.claimedAt == None &&
        (row == Intent(row.source, Unpublished, None, None)
         || (a in s.db.attempts && s.db.attempts[a].enqueuedAt.Some? && row == Intent(row.source, Published, None, s.db.attempts[a].enqueuedAt)))
      else if Marks(s, act, a) then
        row == Intent(s.db.outbox[a].source, Published, None, Stamped(s.db.outbox[a].publishedAt, s.now))
      else if row.status == Published then row == s.db.outbox[a]
      else s.db.outbox[a].status != Published && row.publishedAt == s.db.outbox[a].publishedAt
  {
    match act {
      case Api(op) => ApiWrites(s, op, a);
      case Publish(pid, op) =>
        PublishOutbox(s, pid, op, a);
        PublishWrites(s, pid, op, a);
      case Work(pid, op) => WorkTouches(s, pid, op);
      case _ =>
    }
  }

  lemma ApiWrites(s: State, op: ApiOp, a: AttemptId)
    requires Inv(s) && a in Apply(s, Api(op)).db.outbox
    ensures var row := Apply(s, Api(op)).db.outbox[a];
      if a in s.db.outbox then row == s.db.outbox[a]
      else
        || row == Intent(row.source, Unpublished, None, None)
        || (a in s.db.attempts && s.db.attempts[a].enqueuedAt.Some? && row == Intent(row.source, Published, None, s.db.attempts[a].enqueuedAt))
  {
    ApiLeavesLeases(s, op, a);
    EnqueuedStep(s, Api(op), a);
    if op.OpEnsureRetry? {
      RetryTouches(s.db, op.scheduled, s.now);
    } else if op.OpEnsureReplay? {
      ReplayTouches(s.db, op.deadLetter);
    } else if op.OpCreate? {
      CreateTouches(s.db, op.key, op.scheduledFor, s.now);
    }
  }

  lemma PublishWrites(s: State, pid: nat, op: PublisherOp, a: AttemptId)
    requires Inv(s) && a in s.db.outbox && a in PublishStep(s, pid, op).db.outbox
    ensures var row := PublishStep(s, pid, op).db.outbox[a];
      if Marks(s, Publish(pid, op), a) then
        row == Intent(s.db.outbox[a].source, Published, None, Stamped(s.db.outbox[a].publishedAt, s.now))
      else if row.status == Published then row == s.db.outbox[a]
      else s.db.outbox[a].status != Published && row.publishedAt == s.db.outbox[a].publishedAt
  {
  }

  lemma {:induction false} StampAlways(acts: seq<Action>, a: AttemptId)
    ensures StampOk(acts, a)
  {
    if acts != [] {
      var front, act := acts[..|acts| - 1], acts[|acts| - 1];
      StampAlways(front, a);
      Always(front);
      EnqueuedAtFirstMark(front, a);
      FirstIsMarked(front, a);
      if a in Exec(acts).db.outbox { RowWritten(Exec(front), act, a); }
    }
  }

  // In every run a published row carries the time of a mark of its attempt, and
  // a row that is not published carries none; so a mark stamps it with its own.
  lemma PublishedAtMark(acts: seq<Action>, act: Action, a: AttemptId)
    ensures var db := Exec(acts).db;
      a in db.outbox ==>
        if db.outbox[a].status == Published then db.outbox[a].publishedAt.Some? && MarkedAt(acts, a, db.outbox[a].publishedAt.value)
        else db.outbox[a].publishedAt == None
    ensures Marks(Exec(acts), act, a) ==>
      var db' := Apply(Exec(acts), act).db;
      a in db'.outbox && db'.outbox[a].status == Published && db'.outbox[a].publishedAt == Some(Exec(acts).now)
  {
    StampAlways(acts, a);
    Always(acts);
    if Marks(Exec(acts), act, a) { PublishWrites(Exec(acts), act.publisher, OpMark, a); }
  }

  // --------------------------------------------------------------- maintenance

  ghost predicate CutsUpTo(acts: seq<Action>, t: Time) {
    forall act :: act in acts && act.Api? && act.api.OpCleanOutbox? ==> act.api.cutoff <= t
  }

  lemma {:induction false} KeptFrom(s: State, more: seq<Action>, a: AttemptId, t: Time)
    requires ClaimsOk(s) && a in s.db.outbox && s.db.outbox[a].status == Published && s.db.outbox[a].publishedAt == Some(t)
    requires CutsUpTo(more, t)
    ensures ClaimsOk(RunFrom(s, more))
    ensures a in RunFrom(s, more).db.outbox && RunFrom(s, more).db.outbox[a] == s.db.outbox[a]
  {
    if more != [] {
      var front, act := more[..|more| - 1], more[|more| - 1];
      assert act in more && forall b :: b in front ==> b in more;
      KeptFrom(s, front, a, t);
      assert RowClaimOk(RunFrom(s, front), a);
      ClaimsStep(RunFrom(s, front), act);
      PublishedStays(RunFrom(s, front), act, a);
    }
  }

  // A row that a publisher marks is still there after any continuation whose
  // cleanups do not reach past the time of the mark.
  lemma KeptUntilCutoff(acts: seq<Action>, mark: Action, more: seq<Action>, a: AttemptId)
    requires Marks(Exec(acts), mark, a) && CutsUpTo(more, Exec(acts).now)
    ensures var row := RunFrom(Apply(Exec(acts), mark), more).db.outbox;
      a in row && row[a].status == Published && row[a].publishedAt == Some(Exec(acts).now)
  {
    PublishedAtMark(acts, mark, a);
    ClaimsAlways(acts);
    ClaimsStep(Exec(acts), mark);
    KeptFrom(Apply(Exec(acts), mark), more, a, Exec(acts).now);
  }

  // --------------------------------------------------------------- retry times

  // Whoever waits for a retry has a time for it.
  ghost predicate WaitOk(db: Db, a: AttemptId) {
    a in db.attempts && db.attempts[a].status == RetryScheduled ==> db.attempts[a].nextRetryAt.Some?
  }

  lemma ApiWaits(s: State, op: ApiOp, a: AttemptId)
    requires WaitOk(s.db, a)
    ensures WaitOk(Apply(s, Api(op)).db, a)
  {
    if op.OpEnsureRetry? {
      RetryWaits(s.db, op.scheduled, s.now, a);
    } else if op.OpEnsureReplay? {
      ReplayWaits(s.db, op.deadLetter, a);
    } else if op.OpCreate? {
      CreateWaits(s.db, op.key, op.scheduledFor, s.now, a);
    }
  }

  lemma RetryWaits(db: Db, p: AttemptId, now: Time, a: AttemptId)
    requires WaitOk(db, a)
    ensures WaitOk(After(EnsureRetry(db, p, now), db), a)
  {
    if EnsureRetry(db, p, now).Ok? { var grown := RetryShape(db, p, now); }
  }

  lemma ReplayWaits(db: Db, d: DeadLetterId, a: AttemptId)
    requires WaitOk(db, a)
    ensures WaitOk(After(EnsureReplay(db, d), db), a)
  {
    var b := ReplayRows(db, d);
  }

  lemma CreateWaits(db: Db, key: Key, scheduledFor: Option<Time>, now: Time, a: AttemptId)
    requires WaitOk(db, a)
    ensures WaitOk(After(CreateNotification(db, key, scheduledFor, now), db), a)
  {
  }

  lemma PublishWaits(s: State, pid: nat, op: PublisherOp, a: AttemptId)
    requires WaitOk(s.db, a)
    ensures WaitOk(PublishStep(s, pid, op).db, a)
  {
  }

  lemma WaitStep(s: State, act: Action, a: AttemptId)
    requires WaitOk(s.db, a)
    ensures WaitOk(Apply(s, act).db, a)
  {
    match act
    case Api(op) => ApiWaits(s, op, a);
    case Publish(pid, op) => PublishWaits(s, pid, op, a);
    case Work(pid, op) => WorkWaits(s, pid, op, a);
    case _ =>
  }

  lemma WorkWaits(s: State, pid: nat, op: WorkerOp, a: AttemptId)
    requires WaitOk(s.db, a)
    ensures WaitOk(WorkStep(s, pid, op).db, a)
  {
    if pid in s.procs && s.procs[pid].Worker? && s.procs[pid].work.ToRecord? { RecordWaits(s, pid, s.procs[pid].work.outcome, a); }
  }

  lemma RecordWaits(s: State, pid: nat, outcome: Outcome, a: AttemptId)
    requires WaitOk(s.db, a) && pid in s.procs && s.procs[pid].Worker?
    ensures WaitOk(RecordStep(s, pid, outcome).db, a)
  {
  }

  lemma {:induction false} WaitAlways(acts: seq<Action>, a: AttemptId)
    ensures WaitOk(Exec(acts).db, a)
  {
    if acts != [] {
      WaitAlways(acts[..|acts| - 1], a);
      WaitStep(Exec(acts[..|acts| - 1]), acts[|acts| - 1], a);
    }
  }

  // Nobody waits in vain: an attempt that waits has a time, and once the clock is
  // there the sweep retries it.
  lemma WaitingIsRetried(acts: seq<Action>, a: AttemptId, elapsed: nat)
    requires var db := Exec(acts).db; a in db.attempts && db.attempts[a].status == RetryScheduled
    ensures Exec(acts).db.attempts[a].nextRetryAt.Some?
    ensures var due := Exec(acts).db.attempts[a].nextRetryAt.value;
      var s := Apply(Apply(Exec(acts), Environment(OpTick(elapsed))), Api(OpEnsureRetry(a)));
      (Retry(a) in s.db.attempts) <==> Exec(acts).now + elapsed >= due
  {
    WaitAlways(acts, a);
    Always(acts);
    var ticked := acts + [Environment(OpTick(elapsed))];
    assert ticked[..|acts|] == acts;
    assert Retry(a) in Exec(acts).db.attempts ==> AttemptOk(Exec(acts).db, Retry(a));
    RetryOnTime(ticked, a);
  }
}
