// The dispatch protocol as a step machine. One action is one Postgres
// transaction, one Redis command, one provider call or one local event; any
// number of processes run, and each may crash between any two of its steps.
// An action that the state does not allow changes nothing, so a run is just a
// sequence of actions.
module Protocol {
  import opened Wrappers
  import opened Rows
  import opened Transactions
  import opened Transport

  const CLAIM_BATCH_SIZE: nat := 10
  const PUBLISH_TIMEOUT: nat := 15
  const CLAIM_TIMEOUT: nat := (CLAIM_BATCH_SIZE + 1) * PUBLISH_TIMEOUT

  // An intent leased to a publisher, with the fencing timestamp.
  datatype Claim = Claim(attempt: AttemptId, claimedAt: Time)

  datatype PublishPhase = ToEnqueue | ToMark | ToRelease

  datatype RoutePhase = ToRoute | ToAck | ToRequeue

  // What the provider call reported, with what the policy adds to a retryable
  // failure: the attempt limit in force and the retry time.
  datatype Outcome = Delivered | Terminal | Retryable(limit: nat, retryAt: Time)

  datatype WorkPhase =
    | ToActivate
    | ToSend
    | ToRecord(outcome: Outcome)
    | ToInsertDeadLetter
    | ToFinish

  datatype Process =
    | Publisher(batch: seq<Claim>, publish: PublishPhase)
    | Dispatcher(routed: Job, route: RoutePhase)
    | Worker(queue: QueueName, job: Job, work: WorkPhase)

  // History only: which attempts had a successful enqueue, which job ids those
  // took, how often each attempt was activated, and how often it went to the
  // senders.
  datatype Log = Log(enqueued: set<AttemptId>, serials: set<nat>, activated: multiset<AttemptId>, sent: multiset<AttemptId>)

  datatype State = State(
    db: Db,
    redis: Redis,
    procs: map<nat, Process>,
    paused: set<Key>,     // as the claim and promotion queries read the policies
    held: set<Key>,       // as the resolver does, which redrive asks
    now: Time,
    log: Log)

  datatype ApiOp =
    | OpCreate(key: Key, scheduledFor: Option<Time>)
    | OpEnsureInitial(key: Key)
    | OpEnsureRetry(scheduled: AttemptId)
    | OpEnsureReplay(deadLetter: DeadLetterId)
    | OpPromote(key: Key)
    | OpRedrive(key: Key)
    | OpCancel(key: Key)
    | OpWriteRollup(key: Key, rollup: Rollup)
    | OpCleanOutbox(cutoff: Time)
    | OpCleanDeadLetters(cutoff: Time)

  datatype PublisherOp =
    | OpClaim(batch: seq<AttemptId>)
    | OpEnqueue(serial: nat)
    | OpEnqueueError(applied: bool, serial: nat)   // an error reply, with or without effect
    | OpMark
    | OpRelease(stored: bool)                      // false: the store failed, the lease stays

  datatype DispatcherOp =
    | OpReserveDispatch
    | OpRoute
    | OpRouteError(applied: bool)
    | OpAckRouted
    | OpRequeue

  datatype WorkerOp =
    | OpReserve(channel: Channel)
    | OpActivate
    | OpStoreError            // MarkAttemptInProgress failed in the store; nothing changed
    | OpSend(outcome: Outcome)
    | OpRecord
    | OpInsertDeadLetter(serial: nat)
    | OpAbandon               // a store error after activation
    | OpAck

  datatype EnvironmentOp =
    | OpRecover(queue: QueueName)
    | OpCrash(pid: nat)
    | OpTick(elapsed: nat)
    | OpSetPaused(key: Key, paused: bool, held: bool)

  datatype Action =
    | Api(api: ApiOp)
    | Publish(publisher: nat, publish: PublisherOp)
    | Route(dispatcher: nat, route: DispatcherOp)
    | Work(worker: nat, work: WorkerOp)
    | Environment(env: EnvironmentOp)

  const INIT: State := State(EMPTY, map[], map[], {}, {}, 0, Log({}, {}, multiset{}, multiset{}))

  ghost function ApiTx(s: State, op: ApiOp): Tx {
    match op
    case OpCreate(key, scheduledFor) => CreateNotification(s.db, key, scheduledFor, s.now)
    case OpEnsureInitial(key) => EnsureInitial(s.db, key)
    case OpEnsureRetry(a) => EnsureRetry(s.db, a, s.now)
    case OpEnsureReplay(d) => EnsureReplay(s.db, d)
    case OpPromote(key) => Transactions.Promote(s.db, key, key in s.paused, s.now)
    case OpRedrive(key) => Redrive(s.db, key, key in s.held, s.now)
    case OpCancel(key) => Cancel(s.db, key, s.now)
    case OpWriteRollup(key, rollup) => WriteRollup(s.db, key, rollup)
    case OpCleanOutbox(cutoff) => Ok(CleanOutbox(s.db, cutoff))
    case OpCleanDeadLetters(cutoff) => Ok(CleanDeadLetters(s.db, cutoff))
  }

  predicate Distinct(batch: seq<AttemptId>) {
    forall i, j :: 0 <= i < j < |batch| ==> batch[i] != batch[j]
  }

  predicate ClaimAllowed(s: State, batch: seq<AttemptId>) {
    0 < |batch| <= CLAIM_BATCH_SIZE && Distinct(batch)
    && forall a :: a in batch ==> Claimable(s.db, a, s.now, CLAIM_TIMEOUT) && KeyOf(a) !in s.paused
  }

  function Leased(batch: seq<AttemptId>, now: Time): seq<Claim> {
    seq(|batch|, i requires 0 <= i < |batch| => Claim(batch[i], now))
  }

  // The push of a job with a generated id, which no job had before.
  function Enqueued(s: State, a: AttemptId, serial: nat): State {
    s.(redis := PushRight(s.redis, Ready(Dispatch), Job(serial, a)),
       log := s.log.(enqueued := s.log.enqueued + {a}, serials := s.log.serials + {serial}))
  }

  function Stop(s: State, pid: nat): State {
    s.(procs := s.procs - {pid})
  }

  function PublishStep(s: State, pid: nat, op: PublisherOp): State {
    if op.OpClaim? then
      if pid in s.procs || !ClaimAllowed(s, op.batch) then s
      else
        s.(db := Lease(s.db, (set a | a in op.batch), s.now),
           procs := s.procs[pid := Publisher(Leased(op.batch, s.now), ToEnqueue)])
    else if pid !in s.procs || !s.procs[pid].Publisher? || s.procs[pid].batch == [] then s
    else
      var batch := s.procs[pid].batch;
      var c := batch[0];
      match (s.procs[pid].publish, op)
      case (ToEnqueue, OpEnqueue(serial)) =>
        if serial in s.log.serials then s
        else Enqueued(s, c.attempt, serial).(procs := s.procs[pid := Publisher(batch, ToMark)])
      case (ToEnqueue, OpEnqueueError(applied, serial)) =>
        if applied && serial in s.log.serials then s
        else (if applied then Enqueued(s, c.attempt, serial) else s)
        .(procs := s.procs[pid := Publisher(batch, ToRelease)])
      case (ToMark, OpMark) =>
        (match MarkPublished(s.db, c.attempt, c.claimedAt, s.now)
         case Ok(db') => s.(db := db', procs := s.procs[pid := Publisher(batch[1..], ToEnqueue)])
         case Err(_) => Stop(s, pid))
      case (ToRelease, OpRelease(stored)) =>
        s.(db := if stored then After(RecordIntentError(s.db, c.attempt, c.claimedAt), s.db) else s.db,
           procs := s.procs[pid := Publisher(batch[1..], ToEnqueue)])
      case _ => s
  }

  function RouteStep(s: State, pid: nat, op: DispatcherOp): State {
    if op.OpReserveDispatch? then
      if pid in s.procs || Items(s.redis, Ready(Dispatch)) == [] then s
      else
        s.(redis := PopPush(s.redis, Ready(Dispatch), Reserved(Dispatch)),
           procs := s.procs[pid := Dispatcher(Last(Items(s.redis, Ready(Dispatch))), ToRoute)])
    else if pid !in s.procs || !s.procs[pid].Dispatcher? then s
    else
      var j := s.procs[pid].routed;
      match (s.procs[pid].route, op)
      case (ToRoute, OpRoute) =>
        s.(redis := PushRight(s.redis, Ready(ChannelQueue(j)), j), procs := s.procs[pid := Dispatcher(j, ToAck)])
      case (ToRoute, OpRouteError(applied)) =>
        s.(redis := if applied then PushRight(s.redis, Ready(ChannelQueue(j)), j) else s.redis,
           procs := s.procs[pid := Dispatcher(j, ToRequeue)])
      case (ToAck, OpAckRouted) => Stop(s, pid).(redis := Remove(s.redis, Reserved(Dispatch), j))
      case (ToRequeue, OpRequeue) => Stop(s, pid).(redis := Requeue(s.redis, Dispatch, j))
      case _ => s
  }

  function Proceed(s: State, pid: nat, phase: WorkPhase): State
    requires pid in s.procs && s.procs[pid].Worker?
  {
    s.(procs := s.procs[pid := s.procs[pid].(work := phase)])
  }

  // The write that records a provider outcome, and where the call goes next.
  function RecordStep(s: State, pid: nat, outcome: Outcome): State
    requires pid in s.procs && s.procs[pid].Worker?
  {
    var a := s.procs[pid].job.attempt;
    match outcome
    case Delivered => Proceed(s, pid, ToFinish).(db := After(MarkSent(s.db, a), s.db))
    case Terminal => Proceed(s, pid, ToFinish).(db := After(MarkFailed(s.db, a), s.db))
    case Retryable(limit, retryAt) =>
      if a in s.db.attempts && s.db.attempts[a].number >= limit then
        match MarkDeadLettered(s.db, a)
        case Ok(db') => Proceed(s, pid, ToInsertDeadLetter).(db := db')
        case Err(_) => Proceed(s, pid, ToFinish)
      else Proceed(s, pid, ToFinish).(db := After(ScheduleRetry(s.db, a, retryAt), s.db))
  }

  function WorkStep(s: State, pid: nat, op: WorkerOp): State {
    if op.OpReserve? then
      var queue := WorkQueue(op.channel);
      if pid in s.procs || Items(s.redis, Ready(queue)) == [] then s
      else
        s.(redis := PopPush(s.redis, Ready(queue), Reserved(queue)),
           procs := s.procs[pid := Worker(queue, Last(Items(s.redis, Ready(queue))), ToActivate)])
    else if pid !in s.procs || !s.procs[pid].Worker? then s
    else
      var p := s.procs[pid];
      var a := p.job.attempt;
      match (p.work, op)
      case (ToActivate, OpActivate) =>
        (match MarkInProgress(s.db, a)
         case Ok(db') =>
           Proceed(s, pid, ToSend).(db := db', log := s.log.(activated := s.log.activated + multiset{a}))
         case Err(_) => Proceed(s, pid, ToFinish))
      case (ToActivate, OpStoreError) => Proceed(s, pid, ToFinish)
      case (ToSend, OpSend(outcome)) =>
        Proceed(s, pid, ToRecord(outcome)).(log := s.log.(sent := s.log.sent + multiset{a}))
      case (ToRecord(outcome), OpRecord) => RecordStep(s, pid, outcome)
      case (ToInsertDeadLetter, OpInsertDeadLetter(serial)) =>
        Proceed(s, pid, ToFinish)
        .(db := After(InsertDeadLetter(s.db, DeadLetterId(a, serial), KeyOf(a), s.now), s.db))
      case (_, OpAbandon) => if p.work == ToActivate then s else Proceed(s, pid, ToFinish)
      case (ToFinish, OpAck) => Stop(s, pid).(redis := Remove(s.redis, Reserved(p.queue), p.job))
      case _ => s
  }

  function EnvironmentStep(s: State, op: EnvironmentOp): State {
    match op
    case OpRecover(queue) => s.(redis := PopPush(s.redis, Reserved(queue), Ready(queue)))
    case OpCrash(pid) => Stop(s, pid)
    case OpTick(elapsed) => s.(now := s.now + elapsed)
    case OpSetPaused(key, paused, held) =>
      s.(paused := if paused then s.paused + {key} else s.paused - {key},
         held := if held then s.held + {key} else s.held - {key})
  }

  ghost function Apply(s: State, act: Action): State {
    match act
    case Api(op) => s.(db := After(ApiTx(s, op), s.db))
    case Publish(pid, op) => PublishStep(s, pid, op)
    case Route(pid, op) => RouteStep(s, pid, op)
    case Work(pid, op) => WorkStep(s, pid, op)
    case Environment(op) => EnvironmentStep(s, op)
  }

  // The state a run ends in.
  ghost function RunFrom(s: State, acts: seq<Action>): State {
    if acts == [] then s else Apply(RunFrom(s, acts[..|acts| - 1]), acts[|acts| - 1])
  }

  ghost function Exec(acts: seq<Action>): State {
    RunFrom(INIT, acts)
  }

  lemma {:induction false} RunConcat(s: State, acts: seq<Action>, more: seq<Action>)
    ensures RunFrom(s, acts + more) == RunFrom(RunFrom(s, acts), more)
  {
    if more == [] {
      assert acts + more == acts;
    } else {
      var front := more[..|more| - 1];
      assert (acts + more)[..|acts + more| - 1] == acts + front;
      RunConcat(s, acts, front);
    }
  }

  // The attempt a worker call owns once it has won the activation.
  function Owned(p: Process): Option<AttemptId> {
    if p.Worker? && p.work != ToActivate && p.work != ToFinish then Some(p.job.attempt) else None
  }
}
