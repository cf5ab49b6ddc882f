// The durable rows of the dispatch protocol, and the identities that link them.
//
// Child identities are deterministic in the service: the attempt that retries
// `a` is named after `a`, and the attempt that replays dead letter `d` is named
// after `d`. Structured identities keep exactly that information. A generated
// dead-letter id is fresh for the call that inserts it, so it is tagged with the
// attempt of that call; `serial` is the generated text.
module Rows {
  import opened Wrappers

  type Time = nat

  datatype Channel = Webhook | Email

  // A notification together with the channel of its (immutable) template.
  datatype Key = Key(notification: nat, channel: Channel)

  datatype AttemptId =
    | Initial(key: Key)
    | Retry(scheduled: AttemptId)
    | Replay(deadLetter: DeadLetterId)

  datatype DeadLetterId = DeadLetterId(origin: AttemptId, serial: nat)

  datatype AttemptStatus = Pending | InProgress | Sent | Failed | RetryScheduled | DeadLettered

  datatype Attempt = Attempt(
    key: Key,
    number: nat,
    status: AttemptStatus,
    nextRetryAt: Option<Time>,
    enqueuedAt: Option<Time>)   // dispatch_enqueued_at

  datatype Source = FromInitial | FromRetry | FromReplay | FromSchedule | FromRedrive

  datatype IntentStatus = Unpublished | Publishing | Published

  // One dispatch_outbox row. The table is unique on attempt_id, so rows are
  // kept in a map from the attempt they dispatch.
  datatype Intent = Intent(
    source: Source,
    status: IntentStatus,
    claimedAt: Option<Time>,
    publishedAt: Option<Time>)

  datatype DeadLetter = DeadLetter(
    key: Key,
    deadLetteredAt: Time,
    replayedAt: Option<Time>,
    replayAttempt: Option<AttemptId>)

  datatype Rollup =
    | Accepted | Scheduled | Processing | PartiallyDelivered
    | Delivered | AllFailed | AllDeadLettered | Cancelled

  datatype Notification = Notification(
    submittedAt: Time,
    scheduledFor: Option<Time>,
    promotedAt: Option<Time>,
    cancelledAt: Option<Time>,
    rollup: Rollup)

  datatype Db = Db(
    notifications: map<Key, Notification>,
    attempts: map<AttemptId, Attempt>,
    outbox: map<AttemptId, Intent>,
    deadLetters: map<DeadLetterId, DeadLetter>)

  // The attempt a retry or replay continues.
  function Parent(a: AttemptId): AttemptId
    requires !a.Initial?
  {
    if a.Retry? then a.scheduled else a.deadLetter.origin
  }

  function KeyOf(a: AttemptId): Key {
    match a
    case Initial(k) => k
    case Retry(p) => KeyOf(p)
    case Replay(d) => KeyOf(d.origin)
  }

  // How many attempts the chain that ends in `a` has.
  function Depth(a: AttemptId): (n: nat)
    ensures n >= 1
    ensures n == 1 <==> a.Initial?
  {
    match a
    case Initial(_) => 1
    case Retry(p) => Depth(p) + 1
    case Replay(d) => Depth(d.origin) + 1
  }

  function Replays(a: AttemptId): nat {
    match a
    case Initial(_) => 0
    case Retry(p) => Replays(p)
    case Replay(d) => Replays(d.origin) + 1
  }

  // Position of a status in the one-way life of an attempt.
  function Rank(status: AttemptStatus): nat {
    match status
    case Pending => 0
    case InProgress => 1
    case Sent => 2
    case RetryScheduled => 2
    case DeadLettered => 2
    case Failed => 3
  }

  predicate Finalized(status: AttemptStatus) {
    status in {Sent, Failed, RetryScheduled, DeadLettered}
  }

  predicate IsPending(db: Db, a: AttemptId) {
    a in db.attempts && db.attempts[a].status == Pending
  }

  predicate HasStatus(db: Db, a: AttemptId, status: AttemptStatus) {
    a in db.attempts && db.attempts[a].status == status
  }

  predicate IsEnqueued(db: Db, a: AttemptId) {
    a in db.attempts && db.attempts[a].enqueuedAt.Some?
  }

  // An intent some publisher still has to turn into a job.
  predicate HasOpenIntent(db: Db, a: AttemptId) {
    a in db.outbox && db.outbox[a].status != Published
  }

  // The dead letter exists now, or existed and was replayed.
  predicate Issued(db: Db, d: DeadLetterId) {
    d in db.deadLetters || Replay(d) in db.attempts
  }

  const EMPTY: Db := Db(map[], map[], map[], map[])
}
