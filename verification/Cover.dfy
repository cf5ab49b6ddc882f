// No work is lost: in every state any run can reach, a pending attempt is
// deferred scheduled work, or waits in the outbox, or is carried by a job in one
// of the six Redis lists, as long as no worker acknowledged a job of this very
// attempt whose activation failed in the store.
module Cover {
  import opened Wrappers
  import opened Rows
  import opened Transactions
  import opened Transport
  import opened Protocol
  import opened Steps
  import opened Chain
  import opened Markers
  import opened Claims
  import opened Jobs

  // Scheduled work that nobody promoted, repaired or dispatched yet.
  ghost predicate Deferred(db: Db, a: AttemptId) {
    && a.Initial? && a.key in db.notifications
    && db.notifications[a.key].scheduledFor.Some?
    && db.notifications[a.key].scheduledFor.value > db.notifications[a.key].submittedAt
    && db.notifications[a.key].promotedAt.None?
    && a !in db.outbox && a in db.attempts && !IsEnqueued(db, a)
  }

  ghost predicate Accounted(s: State, a: AttemptId) {
    Deferred(s.db, a) || HasOpenIntent(s.db, a) || HasJob(s.redis, a)
  }

  // No step of the run dropped the attempt `a`; what was dropped of others does not matter.
  ghost predicate DropFree(s: State, acts: seq<Action>, a: AttemptId) {
    acts == [] ||
    (DropFree(s, acts[..|acts| - 1], a) && !Drops(RunFrom(s, acts[..|acts| - 1]), acts[|acts| - 1], a))
  }

  // What holds of every reachable state, whatever was dropped before.
  ghost predicate AllOk(s: State) {
    Inv(s) && MarkersOk(s) && ClaimsOk(s) && JobsOk(s)
  }

  lemma AllStep(s: State, act: Action)
    requires AllOk(s)
    ensures AllOk(Apply(s, act))
  {
    StepKeeps(s, act);
    MarkersStep(s, act);
    ClaimsStep(s, act);
    JobsStep(s, act);
  }

  lemma AllAlways(acts: seq<Action>)
    ensures AllOk(Exec(acts))
  {
    Always(acts);
    MarkersAlways(acts);
    ClaimsAlways(acts);
    JobsAlways(acts);
  }

  // ------------------------------------------------------ beyond being lost

  // A publisher has pushed the job of the attempt and is about to close the intent.
  ghost predicate Closing(s: State, p: Process, a: AttemptId) {
    p.Publisher? && p.publish == ToMark && p.batch != [] && p.batch[0].attempt == a && Valid(s.db, p.batch[0])
  }

  // An open intent that nobody can close without pushing a new job first.
  ghost predicate Queued(s: State, a: AttemptId) {
    HasOpenIntent(s.db, a) && forall pid :: pid in s.procs ==> !Closing(s, s.procs[pid], a)
  }

  ghost predicate Carried(s: State, a: AttemptId) {
    exists j: Job :: j.attempt == a && Surplus(s, j) > 0
  }

  // No step of anyone can lose the attempt any more, unless it drops it.
  ghost predicate Safe(s: State, a: AttemptId) {
    Deferred(s.db, a) || Queued(s, a) || Carried(s, a)
  }

  lemma SafeIsAccounted(s: State, a: AttemptId)
    requires Safe(s, a)
    ensures Accounted(s, a)
  {
    if Carried(s, a) {
      var j: Job :| j.attempt == a && Surplus(s, j) > 0;
      SurplusIsJob(s, j);
    }
  }

  // ------------------------------------------------------- carried by a job

  lemma CarriedStep(s: State, act: Action, a: AttemptId)
    requires AllOk(s) && Carried(s, a) && !Drops(s, act, a)
    requires IsPending(s.db, a) && IsPending(Apply(s, act).db, a)
    ensures Carried(Apply(s, act), a)
  {
    var j: Job :| j.attempt == a && Surplus(s, j) > 0;
    SurplusStays(s, act, j);
  }

  // ---------------------------------------------------- waiting in the outbox

  // An intent stays open unless its publisher closes it.
  lemma OpenStays(s: State, act: Action, a: AttemptId)
    requires AllOk(s) && Queued(s, a)
    ensures HasOpenIntent(Apply(s, act).db, a)
  {
    match act {
      case Api(op) => ApiLeavesLeases(s, op, a);
      case Publish(pid, op) => PublishLeavesOpen(s, pid, op, a);
      case Work(pid, op) => WorkTouches(s, pid, op);
      case _ =>
    }
  }

  lemma PublishLeavesOpen(s: State, pid: nat, op: PublisherOp, a: AttemptId)
    requires Queued(s, a)
    ensures HasOpenIntent(PublishStep(s, pid, op).db, a)
  {
    if pid in s.procs { assert !Closing(s, s.procs[pid], a); }
  }

  // The push that takes a publisher to its mark leaves a job nobody threatens.
  lemma PushCarries(s: State, pid: nat, op: PublisherOp, a: AttemptId)
    requires AllOk(s) && pid in s.procs && pid in PublishStep(s, pid, op).procs
    requires !Closing(s, s.procs[pid], a) && op.OpEnqueue? && PublishStep(s, pid, op) != s
    requires s.procs[pid].Publisher? && s.procs[pid].batch != [] && s.procs[pid].batch[0].attempt == a
    ensures Carried(PublishStep(s, pid, op), a)
  {
    var s', j := PublishStep(s, pid, op), Job(op.serial, a);
    NewJob(s, j);
    NoNewThreats(s, s', pid, j);
    PushCopies(s.redis, Ready(Dispatch), j, false, Dispatch, j);
    PushCopies(s.redis, Ready(Dispatch), j, false, ChannelQueue(j), j);
    assert Surplus(s', j) > 0;
  }

  // A publisher that is closing after a step was closing before it, or has just pushed.
  lemma ClosingBefore(s: State, act: Action, pid: nat, a: AttemptId)
    requires AllOk(s) && pid in Apply(s, act).procs && Closing(Apply(s, act), Apply(s, act).procs[pid], a)
    ensures pid in s.procs && s.procs[pid].Publisher? && s.procs[pid].batch == Apply(s, act).procs[pid].batch
    ensures Closing(s, s.procs[pid], a)
      || (act.Publish? && act.publisher == pid && act.publish.OpEnqueue? && PublishStep(s, pid, act.publish) != s)
  {
    MarkingBefore(s, act, pid);
    var c := s.procs[pid].batch[0];
    assert HeldOk(s, s.procs[pid]);
    if !Valid(s.db, c) { StaleStays(s, act, c); }
  }

  lemma MarkingBefore(s: State, act: Action, pid: nat)
    requires pid in Apply(s, act).procs
    requires var p := Apply(s, act).procs[pid]; p.Publisher? && p.publish == ToMark && p.batch != []
    ensures pid in s.procs && s.procs[pid].Publisher? && s.procs[pid].batch == Apply(s, act).procs[pid].batch
    ensures s.procs[pid].publish == ToMark
      || (act.Publish? && act.publisher == pid && act.publish.OpEnqueue? && PublishStep(s, pid, act.publish) != s)
  {
    if !ActsFor(act, pid) {
      OthersUntouched(s, act, pid);
    } else if act.Work? && pid in s.procs && s.procs[pid].Worker? && s.procs[pid].work.ToRecord? {
      RecordTouches(s, pid, s.procs[pid].work.outcome);
    }
  }

  lemma QueuedStep(s: State, act: Action, a: AttemptId)
    requires AllOk(s) && Queued(s, a)
    ensures Queued(Apply(s, act), a) || Carried(Apply(s, act), a)
  {
    var s' := Apply(s, act);
    OpenStays(s, act, a);
    if pid :| pid in s'.procs && Closing(s', s'.procs[pid], a) {
      ClosingBefore(s, act, pid, a);
      PushCarries(s, pid, act.publish, a);
    }
  }

  // ---------------------------------------------------------------- deferred

  // An intent that was not there before the step is open and unclaimed.
  lemma NewIntent(s: State, act: Action, a: AttemptId)
    requires AllOk(s) && a !in s.db.outbox && a in Apply(s, act).db.outbox
    requires !IsEnqueued(s.db, a)
    ensures Queued(Apply(s, act), a)
  {
    var s' := Apply(s, act);
    RowsStep(s, act, a);
    match act {
      case Api(op) => NewApiIntent(s, op, a);
      case Publish(pid, op) => PublishOutbox(s, pid, op, a);
      case Work(pid, op) => WorkTouches(s, pid, op);
      case _ =>
    }
    assert s'.db.outbox[a].status == Unpublished;
  }

  lemma NewApiIntent(s: State, op: ApiOp, a: AttemptId)
    requires AllOk(s) && a !in s.db.outbox && a in Apply(s, Api(op)).db.outbox && !IsEnqueued(s.db, a)
    ensures Apply(s, Api(op)).db.outbox[a].status == Unpublished
  {
    RowsStep(s, Api(op), a);
    if op.OpEnsureRetry? {
      RetryTouches(s.db, op.scheduled, s.now);
    } else if op.OpEnsureReplay? {
      ReplayTouches(s.db, op.deadLetter);
    } else if op.OpCreate? {
      CreateTouches(s.db, op.key, op.scheduledFor, s.now);
    }
  }

  lemma DeferredStep(s: State, act: Action, a: AttemptId)
    requires AllOk(s) && Deferred(s.db, a)
    ensures Deferred(Apply(s, act).db, a) || Queued(Apply(s, act), a)
  {
    var s' := Apply(s, act);
    RowsStep(s, act, a);
    NotificationsStay(s, act, a.key);
    if a in s'.db.outbox {
      NewIntent(s, act, a);
    } else {
      StillDeferred(s, act, a);
    }
  }

  // Without an intent, nothing was promoted and nothing marked.
  lemma StillDeferred(s: State, act: Action, a: AttemptId)
    requires AllOk(s) && Deferred(s.db, a) && a !in Apply(s, act).db.outbox
    requires RowStep(s, act, Apply(s, act).db, a)
    requires a.key in Apply(s, act).db.notifications
    requires SameSchedule(s.db.notifications[a.key], Apply(s, act).db.notifications[a.key])
    ensures Deferred(Apply(s, act).db, a)
  {
    match act {
      case Api(op) => ApiLeavesDeferred(s, op, a);
      case Publish(pid, op) =>
        PublishTouches(s, pid, op);
        PublishLeavesUnmarked(s, pid, op, a);
      case Work(pid, op) => WorkTouches(s, pid, op);
      case _ =>
    }
  }

  lemma ApiLeavesDeferred(s: State, op: ApiOp, a: AttemptId)
    requires AllOk(s) && Deferred(s.db, a) && a !in Apply(s, Api(op)).db.outbox
    requires RowStep(s, Api(op), Apply(s, Api(op)).db, a) && a.key in Apply(s, Api(op)).db.notifications
    ensures Apply(s, Api(op)).db.notifications[a.key].promotedAt.None?
  {
    if op.OpEnsureRetry? {
      RetryTouches(s.db, op.scheduled, s.now);
    } else if op.OpEnsureReplay? {
      ReplayTouches(s.db, op.deadLetter);
    } else if op.OpCreate? {
      CreateTouches(s.db, op.key, op.scheduledFor, s.now);
    }
  }

  // ---------------------------------------------------------------- new work

  lemma NewIsSafe(s: State, act: Action, a: AttemptId)
    requires AllOk(s) && a !in s.db.attempts && a in Apply(s, act).db.attempts
    ensures Safe(Apply(s, act), a)
  {
    var s' := Apply(s, act);
    RowsStep(s, act, a);
    match act.api {
      case OpEnsureReplay(d) => ReplayInserts(s.db, d);
      case OpEnsureRetry(p) => RetryInserts(s.db, p, s.now);
      case OpCreate(key, scheduledFor) => CreateInserts(s.db, key, scheduledFor, s.now);
      case _ =>
    }
    assert a !in s.db.outbox;
    if a in s'.db.outbox { NewIntent(s, act, a); }
  }

  lemma RetryInserts(db: Db, p: AttemptId, now: Time)
    ensures var db' := After(EnsureRetry(db, p, now), db);
      Retry(p) in db'.attempts && Retry(p) !in db.attempts ==> Retry(p) in db'.outbox
  {
  }

  lemma ReplayInserts(db: Db, d: DeadLetterId)
    requires ChainOk(db)
    ensures var db' := After(EnsureReplay(db, d), db);
      forall a :: a in db'.attempts && a !in db.attempts ==> a in db'.outbox
  {
  }

  lemma CreateInserts(db: Db, key: Key, scheduledFor: Option<Time>, now: Time)
    ensures var db' := After(CreateNotification(db, key, scheduledFor, now), db);
      Initial(key) in db'.attempts && Initial(key) !in db.attempts && Initial(key) !in db'.outbox ==>
        key in db'.notifications && db'.notifications[key] == Notification(now, scheduledFor, None, None, Scheduled)
        && scheduledFor.Some? && scheduledFor.value > now
  {
  }

  // ------------------------------------------------------------ the invariant

  lemma SafeStep(s: State, act: Action, a: AttemptId)
    requires AllOk(s) && !Drops(s, act, a)
    requires IsPending(s.db, a) ==> Safe(s, a)
    ensures IsPending(Apply(s, act).db, a) ==> Safe(Apply(s, act), a)
  {
    RowsStep(s, act, a);
    if IsPending(Apply(s, act).db, a) {
      if a !in s.db.attempts {
        NewIsSafe(s, act, a);
      } else if Deferred(s.db, a) {
        DeferredStep(s, act, a);
      } else if Queued(s, a) {
        QueuedStep(s, act, a);
      } else {
        CarriedStep(s, act, a);
      }
    }
  }

  lemma {:induction false} SafeForever(s: State, acts: seq<Action>, a: AttemptId)
    requires AllOk(s) && DropFree(s, acts, a)
    requires IsPending(s.db, a) ==> Safe(s, a)
    ensures AllOk(RunFrom(s, acts))
    ensures IsPending(RunFrom(s, acts).db, a) ==> Safe(RunFrom(s, acts), a)
  {
    if acts != [] {
      var front := acts[..|acts| - 1];
      SafeForever(s, front, a);
      AllStep(RunFrom(s, front), acts[|acts| - 1]);
      SafeStep(RunFrom(s, front), acts[|acts| - 1], a);
    }
  }

  // In every state of every run that did not drop this attempt, with crashes
  // between any two steps, recovery sweeps against live reservations and store
  // errors on any other attempt, pending work is accounted for, and what
  // accounts for it is beyond the reach of every step to come.
  lemma NoLostWork(acts: seq<Action>, a: AttemptId)
    requires DropFree(INIT, acts, a) && IsPending(Exec(acts).db, a)
    ensures Safe(Exec(acts), a) && Accounted(Exec(acts), a)
  {
    AllAlways([]);
    SafeForever(INIT, acts, a);
    SafeIsAccounted(Exec(acts), a);
  }
}
