# Verified model of the notification platform

A Dafny model of the durable dispatch path of the notification platform: how a submitted
notification becomes a delivery attempt, a dispatch intent in Postgres, a job in Redis and at most
one call to a provider, and what retries, replays, crashes, recovery sweeps, maintenance and
operators do to it on the way. `dafny verify dfyconfig.toml` checks the whole project.

## How it is organised

**The protocol.** `Rows` has the durable rows and the structured identities of attempts, `Transactions`
what each Postgres transaction does to the rows, `Transport` the six Redis lists. `Protocol` puts them
together as a step machine: one action is one transaction, one Redis command, one provider call or one
local event, any number of processes run, and a crash may fall between any two steps. A run is any
sequence of actions; an action the state does not allow changes nothing. `Chain`, `Steps`, `Token`,
`Once`, `Jobs`, `Cover`, `Loss`, `Fetch`, `Progress`, `Markers`, `Reopening`, `Claims`, `Deadline`, `Schedule`,
`Pairing`, `Columns` and `Stamps` prove what holds of every state of every run; `Lapses` has concrete runs in which a promise
fails.

**The code over state.** `Store` (class `Postgres`), `Queue` (class `RedisQueue`), `Processes` (the outbox
publisher), `Calls` (dispatcher and retry worker) and `Delivery` (the worker call) are written as the
service writes them, over objects updated in place. Each store method is proved equal to its function in
`Transactions`; each process loop is proved to take only steps of the machine, so the results about all
runs apply to it, and to reach its own result when it is left alone.

**Algorithms.** `FairScheduler` and `Fairness` (tenant round robin), `Resp` (the Redis wire format),
`Client` (its use of a connection), `RetryDelay` (back-off in int64 nanoseconds), `Policy` (policy resolution),
`RateLimit` (fixed-window limiter), `Rollups` (derived notification status), `Submission` (idempotent
submission, tied to the store's transactions by `Refinement`), `Names` (the text of attempt ids).

## What the proofs found

- **One database error can lose work.** A worker acknowledges its job on every processor error, also
  when activation failed and the attempt is still pending. An attempt that was not itself dropped this way
  is never lost, whatever happened to others (`Cover.NoLostWork`). One that was stays safe in all
  continuations exactly if it had an open intent no publisher was about to close, or more jobs than calls
  under way will still take out (`Loss.StoreErrorLoses`); `Lapses.WorkCanBeLost` is a run where it had neither.
- **A crash after activation is final.** The attempt stays `in_progress` and recovered copies of its job are
  suppressed (`Once.SettlesIffOwned`). README.md:177 of the service says that a duplicate delivery is
  still possible after a crash behind the provider call; the code never sends such an attempt again
  (`Once.AtMostOneSend`), so the delivery may be missing instead (`Lapses.WorkCanGetStuck`). The model follows
  the code.
- **Repair ignores schedule and cancellation.** An idempotent resubmission opens a dispatch for scheduled or
  cancelled work (`Schedule.RepairIgnoresSchedule`, `Schedule.CancelledCanBeDispatched`).
- **Redrive and the promotion sweep can reopen finished dispatch** once maintenance has deleted the published
  outbox row; the sweep does so by itself for work submitted with a schedule already due
  (`Reopening.RedriveReopens`, `Lapses.RedriveCanReopen`).
- **The scheduler starves under churn.** A waiting tenant lets one burst of each other queued tenant pass,
  and one more for each tenant that becomes newly pending; two that drain and come back can pass a third
  forever, whatever the caps (`Fairness.BoundedWait`, `Fairness.ChurnStarves`).
- **A failed write disables a Redis client for good.** Only a failed read drops the connection. After a write
  error the buffered writer refuses everything, and nothing replaces it until the process is restarted
  (`Client.RecoversIff`). Replies are never taken for those of other commands (`Client.RepliesMatch`).
- **The batch deadline rests on a limit the client does not enforce.** A batch keeps its leases if each push keeps
  to the publish timeout (`Deadline.BatchWithinLease`), but internal/queue/redis.go:302-320 uses that timeout
  for dialling only and sets no deadline on an established connection. A push that hangs longer lets leases
  go stale; they are then fenced (`Claims.Fenced`), and their jobs may be pushed twice.
- **The work lists are last-in first-out**, since `RPUSH` is paired with `BRPOPLPUSH`, and a recovery sweep
  rotates them (`Queue.NewestFirst`, `Queue.RecoveryRotates`).
- **Pausing can be read two ways.** A newer row of the same scope without a pause value hides an older one
  from the claim and promotion queries, not from the resolver (`Policy.PauseAgreesIff`,
  `Policy.ShadowedPauseIsIgnored`).
- **A lost `EXPIRE` locks a tenant out for good** once its limit is spent (`RateLimit.RecoversIff`). Otherwise the limiter
  lets at most 2·limit − 1 requests through in any window, and that many can happen
  (`RateLimit.BelowTwiceTheLimit`, `RateLimit.BoundIsReached`).
- **A base-delay override above the maximum override** makes the second wait shorter than the first
  (`RetryDelay.NeverShrinksIff`).

## Modelling choices

- An attempt is named by what it continues: `Initial(notification and channel)`, `Retry(attempt)`,
  `Replay(dead letter)`, as the service derives its ids. Generated ids (initial attempts, dead letters, jobs)
  are taken to be fresh; a dead-letter id is tagged with the attempt it was made for. The outbox is
  unique per attempt and so is a map from the attempt. A notification keeps the channel of its template.
- Each transaction is atomic: the row locks and unique indexes of the queries are what makes it so.
- Time is a logical clock that any step may find advanced. Whatever needs an order finer than the clock, such
  as two dead letters stamped alike, is left to an arbitrary tie-break.
- Which notifications are paused may change at any step, and separately for the two readers of the policies: the
  claim and promotion queries, and the resolver that redrive asks (`Policy.PauseAgreesIff`).
- The retry time of a worker call is a parameter of it; `RetryDelay` says what it is.
- The clock of the limiter counts milliseconds, as Redis does.
- A Redis reply that is lost is a failure that took effect. Provider results, random numbers and the moments of
  failure are parameters.

## Model

| member | source | states |
|---|---|---|
| Token.OneLiveToken | internal/store/postgres.go:1326-1519 | in every state of every run a notification has exactly one live token: an active attempt, a sent one, a failed one without retry, a dead-lettered one without dead letter, or a dead letter without replay |
| Token.OnlySubmissionConflicts | internal/store/postgres.go:1732-1884 | repeated and concurrent retries, replays and repairs never meet a unique constraint |
| Token.DeadLetterNeverConflicts | internal/store/postgres.go:1500-1519 | the dead letter of a dead-lettered attempt can always be inserted |
| Token.NumberedWithoutGaps | internal/store/postgres.go:1838-1854 | attempts are numbered 1..k, each number once, and all before the last are failed or dead-lettered |
| Token.AttemptsBounded | internal/delivery/service.go:267-291 | with limits at most m no attempt number exceeds m plus the replays on its chain |
| Token.ChildIsEarned | internal/store/postgres.go:1757-1790 | a retry is only created by its sweep, for an attempt in retry_scheduled whose next_retry_at has come, a replay only for an open dead letter; each gets the next number and an open intent |
| Token.RemainingFalls | internal/delivery/service.go:267-303 | a measure of remaining work never rises without a replay, and falls with every change of an attempt |
| Token.BoundedWork | internal/delivery/service.go:267-303 | from any reachable state the attempts change at most 4(m + replays) times more, however the run goes on, until an operator replays |
| Chain.StepKeeps | internal/store/postgres.go:1326-1884 | every step keeps the chain of attempts and dead letters, and at most one call per attempt that may settle it |
| Chain.RetrySlotFree | internal/store/postgres.go:1757-1773 | the next number of an attempt that waits for its retry is free |
| Chain.ReplaySlotFree | internal/store/postgres.go:1838-1854 | one more than the highest number is the free slot of an open dead letter's replay |
| Steps.StatusNeverFalls | internal/store/postgres.go:1326-1497 | no step returns an attempt to pending or lowers its rank; between finalized states only retry_scheduled to failed |
| Once.AtMostOneSend | internal/delivery/service.go:218-265 | whatever jobs are duplicated or recovered, an attempt is activated at most once and goes to its senders at most once, after activation |
| Once.SettlesIffOwned | internal/delivery/service.go:223-233 | an attempt in progress can still leave that state exactly while some call owns it |
| Cover.NoLostWork | internal/worker/runner.go:216-240 | a pending attempt that no worker dropped on a store error is deferred, has an open intent, or has a job in some list, in every state of every run, whatever befell other attempts |
| Cover.SafeForever | internal/outbox/publisher.go:68-101 | from any reachable state, what accounts for an attempt beyond the acknowledgements under way stays so until a worker drops it |
| Jobs.SurplusStays | internal/queue/redis.go:192-267 | no step but a drop lowers the number of an attempt's jobs beyond those that calls under way will take out |
| Loss.NeverLostIff | internal/worker/runner.go:216-240 | in every reachable state pending work stays accounted for in all continuations exactly if it is deferred, has an open intent nobody is about to close, or such a job |
| Loss.StoreErrorLoses | internal/worker/runner.go:219-233 | after a store error before activation the attempt stays accounted for in all continuations, with any steps of others in between, exactly if it had such an intent, or a job beyond this one and beyond those due to be acknowledged |
| Lapses.WorkCanBeLost | internal/worker/runner.go:219-233 | a run in which an acknowledged store error leaves pending work with no intent and no job |
| Lapses.WorkCanGetStuck | internal/delivery/service.go:223-246 | a run in which a worker crashes after activation: the attempt is in progress in every continuation, and no sender was called for it |
| Fetch.FetchJob | internal/queue/redis.go:167-267 | any job can be brought into the hands of a fresh process by recoveries and reservations that change no count |
| Progress.AccountedIsReachable | internal/outbox/publisher.go:43-106 | from every reachable state pending work that is accounted for and neither paused nor cancelled can be brought to activation |
| Progress.AlwaysReachable | internal/outbox/publisher.go:43-106 | so every such attempt that was not itself dropped can |
| Markers.MarkersFollowRedis | internal/store/postgres.go:1984-2042 | enqueued means it was pushed, published means enqueued, a dead letter is replayed exactly when its replay attempt is enqueued, and every job was pushed for a known attempt |
| Markers.RepairNeverReopens | internal/store/postgres.go:1009-1018 | repeating a submission, retry or replay never reopens the dispatch of enqueued work, also after cleanup |
| Reopening.CleanedIff | internal/store/postgres.go:2661 | in a reachable state an enqueued attempt has no outbox row exactly if maintenance deleted its published one and none came back |
| Reopening.RedriveReopens | internal/store/postgres.go:2302-2528 | promotion and redrive open an intent for enqueued work exactly if the notification is neither promoted, cancelled nor paused, for promotion due, and maintenance deleted the published row of its first attempt |
| Lapses.RedriveCanReopen | internal/store/postgres.go:2317-2321 | runs in which redrive, and the promotion sweep, do so after cleanup |
| Claims.Fenced | internal/store/postgres.go:1984-2077 | once a publisher's lease is not current, no later mark or release with it changes any row |
| Claims.OneLeaseHolder | internal/store/postgres.go:1887-1981 | two publishers never hold current leases on one intent |
| Claims.ClaimTimeIffPublishing | internal/store/postgres.go:1903-1984 | claimed_at is set exactly while the intent is publishing |
| Claims.PublishedStays | internal/store/postgres.go:2661 | a published row is never changed, and only removed by maintenance, when it was published before the cutoff |
| Claims.LeaseSurvives | internal/store/postgres.go:1903-1908 | before the timeout nobody but its holder ends a lease |
| Claims.FreshAlways | internal/store/postgres.go:1903-1908 | in every run a lease still on its publisher's list is current unless it timed out |
| Deadline.WatchAlways | internal/outbox/publisher.go:60-105 | along every run the time since a publisher's claim is what its pushes and store calls took, and items done and left are at most the batch size |
| Deadline.BatchWithinLease | internal/outbox/publisher.go:30-36 | in any run where each push of a batch keeps to the publish timeout and the store calls take less than one more, every claim left is current, can be marked, and is nobody else's |
| Schedule.PromotedOrCancelled | internal/store/postgres.go:2302-2448 | without repairs a notification is never both promoted and cancelled |
| Schedule.CancelledStaysSilent | internal/store/postgres.go:2413-2448 | without repairs a cancelled notification never has an outbox row, a job, or an attempt beyond its pending first |
| Schedule.FirstDispatchIsAllowed | internal/store/postgres.go:2302-2528 | the first outbox row of future work comes from a due promotion or a redrive, while not paused |
| Schedule.RepairIgnoresSchedule | internal/store/postgres.go:965-1029 | a repair leaves an open intent exactly if one was open or no dispatch was ever recorded, whatever the schedule |
| Schedule.CancelledCanBeDispatched | internal/store/postgres.go:965-1029 | a run in which cancelled work becomes claimable by a repair |
| Pairing.PairsRightlyIff | internal/store/postgres.go:1233-1260 | the rank join pairs every attempt with its own dead letter exactly when letters are ordered like attempts and none is missing before another |
| Pairing.PairingExact | internal/store/postgres.go:1233-1260 | on reachable states only equal insert times and deleted dead letters can break the pairing |
| Pairing.PairingRight | internal/store/postgres.go:1468-1519 | without cleanup and with distinct insert times the pairing is right, despite crashes between mark and insert |
| Pairing.LetterStays | internal/store/postgres.go:2669 | a dead letter is only removed by maintenance, when it was replayed before the cutoff |
| Columns.RetryOnTime | internal/store/postgres.go:1732-1801 | in reachable states a missing retry is created exactly if its attempt is in retry_scheduled with next_retry_at not after now, with what rows; else nothing is found |
| Columns.ReplayOnce | internal/store/postgres.go:1805-1884 | in reachable states a replay always goes through, creates at most the one replay attempt with the number after its origin's, and links it |
| Columns.CreationStores | internal/store/postgres.go:567-620 | in reachable states only a taken id stops a submission; the row, attempt 1 and, unless scheduled ahead, the waiting intent are what is stored |
| Columns.RepairRestores | internal/store/postgres.go:965-1029 | in reachable states a repair always finds attempt 1, and adds at most its intent, closed with the marker's time if it was enqueued |
| Columns.PromotionOnTime | internal/store/postgres.go:2302-2409 | in reachable states the sweep releases work exactly if its time has come and it is not promoted, cancelled, paused or in the outbox |
| Columns.RedriveAtOnce | internal/store/postgres.go:2452-2528 | a redrive does so whatever the schedule says |
| Stamps.EnqueuedAtFirstMark | internal/store/postgres.go:2020-2026 | in every run dispatch_enqueued_at is the time of the first mark of the attempt under a current lease |
| Stamps.ReplayedAtFirstMark | internal/store/postgres.go:2028-2036 | in every run a dead letter's replayed_at is the time of the first mark of its replay |
| Stamps.PublishedAtMark | internal/store/postgres.go:1984-2000 | in every run a row has a published_at exactly while it is published, the time of a mark; a mark stamps it with its own |
| Stamps.KeptUntilCutoff | internal/store/postgres.go:2661 | a row that was marked stays, so stamped, in every continuation whose cleanups do not cut past the time of the mark |
| Stamps.WaitingIsRetried | internal/store/postgres.go:1757-1760 | every attempt in retry_scheduled has a next_retry_at, and a sweep retries it exactly from that time on |
| Store.Postgres.MarkAttemptInProgress | internal/store/postgres.go:1326-1362 | moves pending to in_progress, or says not found, already processing or already finalized and changes nothing |
| Store.Postgres.FinishAttempt | internal/store/postgres.go:1365-1497 | the shared compare-and-set from in_progress and its error cases |
| Store.Postgres.AddDeadLetter | internal/store/postgres.go:1500-1519 | inserts the dead letter or reports a conflict |
| Store.Postgres.CreateDispatchIntent | internal/store/postgres.go:1108-1167 | at most one intent per attempt, published at once if the attempt was enqueued |
| Store.Postgres.HighestNumber | internal/store/postgres.go:1840 | the highest attempt number of the key, or 0 |
| Store.Postgres.CreateNotificationWithInitialDispatch | internal/store/postgres.go:567-620 | notification, attempt 1 and, unless scheduled ahead, its intent, or nothing |
| Store.Postgres.EnsureInitialAttempt | internal/store/postgres.go:965-1029 | restores attempt 1 and its intent without regard to schedule or cancellation |
| Store.Postgres.EnsureRetryAttempt | internal/store/postgres.go:1732-1801 | creates or repairs the retry of a due attempt and retires the scheduled one |
| Store.Postgres.EnsureReplayAttempt | internal/store/postgres.go:1805-1884 | creates or repairs the replay of a dead letter with the next number and links it |
| Store.Postgres.ClaimPendingDispatchIntents | internal/store/postgres.go:1887-1981 | leases up to the limit of waiting or stale rows that are not paused, distinct, the first of the scan, and all of them if fewer than the limit |
| Store.Postgres.MarkDispatchIntentPublished | internal/store/postgres.go:1984-2042 | under a current lease marks intent, attempt and replayed dead letter; otherwise changes nothing |
| Store.Postgres.RecordDispatchIntentError | internal/store/postgres.go:2046-2077 | gives a current lease back; otherwise changes nothing |
| Store.Postgres.PromoteDueScheduledNotifications | internal/store/postgres.go:2302-2409 | one transaction that promotes the due, unpaused rows up to the limit, earliest schedule and submission first, and all of them if fewer |
| Store.Postgres.RedriveNotification | internal/store/postgres.go:2452-2528 | promotes regardless of the due time, unless paused, promoted, cancelled or dispatched |
| Store.Postgres.CancelScheduledNotification | internal/store/postgres.go:2413-2448 | cancels only future scheduled work without outbox row |
| Store.Postgres.RunMaintenance | internal/store/postgres.go:2597-2682 | counts and deletes old audit events, old published intents and, if kept for a time at all, old replayed dead letters; only counts on a dry run, and refuses a bad retention |
| Queue.EnqueuedJob | internal/queue/redis.go:302-320 | an enqueue gives the attempt a job and adds exactly one copy of it, and changes no other count |
| Queue.RedisQueue.Reserve | internal/queue/redis.go:167-189 | moves the newest job to the processing list, none exactly when the list was empty |
| Queue.AckAfterReserve | internal/queue/redis.go:192-194 | acknowledging what was just reserved leaves every list as if the job had never been pushed |
| Queue.RequeueAfterReserve | internal/queue/redis.go:200-250 | giving it back leaves nothing reserved and puts it behind all that wait |
| Queue.RequeuedJobs | internal/queue/redis.go:200-250 | a requeue keeps every attempt's jobs, and adds a copy exactly if the job was no longer reserved |
| Queue.RedisQueue.RecoverProcessingQueue | internal/queue/redis.go:253-267 | empties the processing list in front of the source list, in order, and counts |
| Queue.NewestFirst | internal/queue/redis.go:302-344 | a pushed job is the next one reserved, and reserving it restores the list |
| Queue.ReservedSuffix | internal/queue/redis.go:322-344 | reserving n jobs moves the last n, in order |
| Queue.RecoveryRotates | internal/queue/redis.go:253-267 | recovery after a crash keeps every job and rotates the list |
| Processes.PublishItem | internal/outbox/publisher.go:71-101 | one item takes the machine's publish steps; by push and store it ends marked, given back, or with the run, and with what tables and lists |
| Processes.PublishBatch | internal/outbox/publisher.go:69-101 | only batch rows change, every newly published intent has its job, the result says whether a push failed, and without failure all are published |
| Processes.RunOnce | internal/outbox/publisher.go:43-106 | with time passing between its items it terminates, takes only machine steps, publishes nothing without a job, and on success leaves no intent that is claimable and not paused |
| Calls.RouteOnce | cmd/dispatcher/main.go:39-72 | one round takes the machine's steps and ends as push, acknowledgement and give-back go; what each end leaves in the lists; no attempt loses its last job whatever fails |
| Calls.RetrySweep | cmd/retry_worker/main.go:58-75 | takes only machine steps, never fails in a reachable state, and leaves every due attempt with its retry |
| Delivery.Senders.Send | internal/delivery/service.go:166-216 | a message that is not ready calls nobody; else the primary is called once and first, the backup once more exactly when the primary failed but not for good, failover is on and there is one; the first report stands unless the backup delivered |
| Delivery.Process | internal/delivery/service.go:218-265 | goes to the senders exactly when it won activation, suppresses duplicates without a write or a call, and without store errors settles rows and verdict by the outcome table applied to what the senders came to |
| Delivery.Record | internal/delivery/service.go:267-303 | sent, failed, retry scheduled or dead-lettered with its dead letter, by report and attempt limit; no other row changes |
| Delivery.RunReserved | internal/worker/runner.go:216-240 | the job is acknowledged whatever the call came to, unless the acknowledgement itself fails |
| FairScheduler.Scheduler.constructor | internal/worker/runner.go:41-48 | empty, with caps of at least one |
| FairScheduler.Scheduler.Add | internal/worker/runner.go:50-56 | appends the job, and its tenant if it had none; keeps the representation invariant |
| FairScheduler.Scheduler.Complete | internal/worker/runner.go:57-61 | releases one in-flight place, never below zero |
| FairScheduler.Scheduler.Next | internal/worker/runner.go:62-104 | hands out the first job of the first tenant in reach and moves the cursor, or refuses and leaves the state as it was |
| FairScheduler.Scheduler.Scan | internal/worker/runner.go:66-80 | finds the first tenant from the cursor that need not wait |
| FairScheduler.Scheduler.Take | internal/worker/runner.go:80-102 | charges cap and burst and advances or keeps the cursor |
| FairScheduler.RemoveTenant | internal/worker/runner.go:106-114 | the order without the tenant |
| FairScheduler.NextKeepsValid | internal/worker/runner.go:62-104 | dispatching keeps the order duplicate-free and equal to the queued tenants, the cursor in range and every cap |
| FairScheduler.AddKeepsValid | internal/worker/runner.go:50-56 | so does adding a job |
| Fairness.FifoPerTenant | internal/worker/runner.go:50-104 | over any events a tenant's jobs leave in order, none lost or copied |
| Fairness.InFlightCounts | internal/worker/runner.go:57-104 | in flight is dispatched minus completed and never above the cap |
| Fairness.RefusesIff | internal/worker/runner.go:62-80 | no job exactly when every queued tenant is at its cap, or was served last, has spent its burst and is not alone; then nothing moves |
| Fairness.AloneIsServed | internal/worker/runner.go:74 | a tenant alone in the queue and below its cap gets its next job, however long its burst |
| Fairness.FirstInReach | internal/worker/runner.go:66-95 | the job handed out is the oldest of the first tenant, from the cursor on and around, that need not wait |
| Fairness.HandsOut | internal/worker/runner.go:80-102 | its tenant is charged a place and its burst, and the cursor stays with it while it has jobs and burst left, else moves to the tenant behind it |
| Fairness.PatienceFalls | internal/worker/runner.go:62-104 | every dispatch to another tenant brings a waiting tenant closer |
| Fairness.BoundedWait | internal/worker/runner.go:62-104 | a queued tenant below its cap waits for at most burst times (queued tenants − 1 + tenants that become newly pending) jobs of others, over any events |
| Fairness.RefusedByOthers | internal/worker/runner.go:62-80 | while it waits the scheduler refuses only when all others are at their caps and it has just spent its burst |
| Fairness.ChurnStarves | internal/worker/runner.go:41-104 | whatever the burst and the cap, from the empty scheduler a tenant can be brought to wait below its cap while two that keep coming back pass it any number of times |
| Resp.Connection.WriteCommand | internal/queue/redis.go:436-452 | sends exactly the encoding of the command, or what the socket took of it and an error, after which this connection sends nothing more |
| Resp.Connection.ReadResponse | internal/queue/redis.go:456-516 | consumes exactly what the recursive parser consumes, with its value or fault |
| Resp.Connection.ReadItems | internal/queue/redis.go:500-512 | reads the items of an array in order and stops at the first fault |
| Resp.RoundTrip | internal/queue/redis.go:456-516 | any reply of any nesting and any bytes is read back as its meaning, and exactly the following bytes are left |
| Resp.StreamRoundTrip | internal/queue/redis.go:456-516 | k replies in a row are read back as those k values |
| Resp.CommandRoundTrip | internal/queue/redis.go:436-452 | a command is understood as the strings it was written from, including CR and LF |
| Resp.CutIsNoCommand | internal/queue/redis.go:436-452 | a command of which only a part was sent is no command to Redis |
| Resp.ErrorRoundTrip | internal/queue/redis.go:474-475 | an error reply comes back as that error |
| Resp.DecimalRoundTrip | internal/queue/redis.go:476-486 | decimal numbers are read back exactly in the int64 range and refused outside it |
| Resp.NumbersRead | internal/queue/redis.go:476-486 | what is read as a number is an optional sign and digits, nothing else, within 64 bits |
| Resp.Stable | internal/queue/redis.go:456-516 | a read that did not run out of bytes never depends on later ones |
| Resp.PartIsNoReply | internal/queue/redis.go:456-516 | a proper prefix of a reply is never taken for a reply |
| Client.RedisClient.Do | internal/queue/redis.go:302-320 | one command: dial if there is no connection, write, read, drop the connection on a failed read only |
| Client.ExchangeExact | internal/queue/redis.go:302-320 | it succeeds exactly if the connection can be used, the command goes out, and the reply arrives whole without an error in it; then nothing is left to read |
| Client.RepliesMatch | internal/queue/redis.go:302-394 | over any session, cut off and redialled anywhere, a command that succeeds returns its own reply |
| Client.RecoversIff | internal/queue/redis.go:312-318 | commands can succeed again exactly if no write of the session failed |
| RetryDelay.NextRetryDelay | internal/delivery/service.go:305-348 | the loops with int64 wrap-around compute the specified delay |
| RetryDelay.DoubleUpTo | internal/delivery/service.go:315-322 | the doubling loop with its early stop |
| RetryDelay.DoubledClosedForm | internal/delivery/service.go:315-322 | the loop is min(delay·2^k, cap) and does not overflow below 2^62 ns |
| RetryDelay.LargeBaseWraps | internal/delivery/service.go:317 | at 2^62 ns or more it does, into the past |
| RetryDelay.BackoffClosedForm | internal/delivery/service.go:305-325 | the exact back-off for every attempt and every override, positive and within the system maximum |
| RetryDelay.DelayClosedForm | internal/delivery/service.go:305-339 | one formula for every attempt, every override and every queue depth, with the pressure stage from the soft limit on |
| RetryDelay.DelayBounds | internal/delivery/service.go:305-348 | the delay is positive, at most max(1s, max(system maximum, floor) + jitter), at least 1s with jitter |
| RetryDelay.NeverShrinksIff | internal/delivery/service.go:315-325 | later attempts wait at least as long exactly when the effective base does not exceed the maximum |
| RetryDelay.DelayGrows | internal/delivery/service.go:326-339 | pressure keeps that order |
| RetryDelay.OverrideCanShrink | internal/http/handlers/api.go:657-662 | an accepted pair of overrides for which the wait shrinks |
| Policy.Resolution.ApplyPolicyRow | internal/store/postgres.go:840-865 | applied to what any rows resolved to, it gives what that row followed by those rows resolves to |
| Policy.ResolveDeliveryPolicy | internal/store/postgres.go:2273-2297 | the reverse fold gives, for each column by its own name, the first value set in precedence order, or its default |
| Policy.NarrowestWins | internal/store/postgres.go:2254-2297 | a field has the value of the narrowest row about the tenant and channel that sets it, the newest of its scope; other rows have no say |
| Policy.ChainTakesNewest | internal/store/postgres.go:1909-1939 | the pause chain answers with the newest row of the narrowest scope that says anything, if nothing newer in that scope hides it |
| Policy.FirstIsUnshadowed | internal/store/postgres.go:2273-2297 | that value is the one of the first row with the field set |
| Policy.PauseAgreesIff | internal/store/postgres.go:1909-1939 | resolver and COALESCE chain agree exactly when nobody sets the flag, or the row the chain reads in the deciding scope says what the resolver's row says, or is silent and the wider scopes say it |
| Policy.PauseAgreesUnlessShadowed | internal/store/postgres.go:1909-1939 | with distinct update times in a scope: exactly when a newer silent row does not shadow the deciding one, or wider scopes say the same |
| Policy.PauseAgrees | internal/store/postgres.go:1909-1939 | they agree whenever each scope has at most one row |
| Policy.ShadowedPauseIsIgnored | internal/store/postgres.go:1909-1939 | a table on which they differ |
| RateLimit.Limiter.AllowTenant | internal/queue/redis.go:108-130 | one call is one INCR and its EXPIRE; it grants exactly one place or none, and a denial names the time left within half a second, or the window if TTL is of no use |
| RateLimit.RoundedUp | internal/queue/redis.go:544-547 | the window in whole seconds, rounded up, at least one |
| RateLimit.LimitPerLife | internal/queue/redis.go:108-130 | each life of the key lets at most limit requests through |
| RateLimit.BelowTwiceTheLimit | internal/queue/redis.go:108-130 | any interval no longer than the window lets at most 2·limit − 1 through, with failed EXPIREs and concurrent callers |
| RateLimit.BoundIsReached | internal/queue/redis.go:108-130 | that bound is reached for every limit and every window |
| RateLimit.RecoversIff | internal/queue/redis.go:118-122 | a tenant can be let in again exactly when its key has an end, has room, or a caller still owes the EXPIRE |
| RateLimit.LostExpireLocks | internal/queue/redis.go:118-122 | after one failed EXPIRE the limit is used up once, and then nobody is let in in any continuation |
| Rollups.DeriveNotificationStatus | internal/store/postgres.go:894-930 | accepted without attempts, delivered if all are sent, partially delivered if some but not all are, else processing while any is active, dead-lettered if any is, failed if all are |
| Rollups.OrderDoesNotMatter | internal/store/postgres.go:894-930 | order and multiplicity of the attempts do not matter |
| Rollups.RollupFollowsLast | internal/store/postgres.go:894-930 | on reachable histories the last attempt decides: delivered or partially delivered, processing, else dead-lettered iff any attempt was |
| Submission.Idempotent | internal/http/handlers/api.go:366-422 | for any interleaving, success replies to one tenant and key name one notification, stored once, with one attempt numbered 1 and at most one outbox row |
| Submission.CreateAnswers | internal/http/handlers/api.go:388-430 | a submission that collides with nothing is stored and answered with success exactly if the store reports it; one that collides stores nothing, and looks again if it has a key |
| Submission.EnsureAnswers | internal/http/handlers/api.go:187-210 | a repair changes no notification and no attempt, and answers with the notification found exactly if the store reports success |
| Submission.NewSubmissionSucceeds | internal/http/handlers/api.go:366-430 | after any run, a handler alone with new ids ends with success for its id |
| Submission.RepeatSucceeds | internal/http/handlers/api.go:366-381 | after any run, one that posts the key of a stored notification again ends with success for that one, whatever else it asks for |
| Submission.ConflictAnswers | internal/http/handlers/api.go:382-420 | a conflict answer means a schedule the policy does not allow, an id that was taken, or that the look-up after a conflict on the key failed in the store |
| Submission.RepairRestoresIntent | internal/store/postgres.go:965-1029 | repair finds the existing attempt and leaves it an intent, published if it was enqueued |
| Refinement.SubmissionRefines | internal/store/postgres.go:567-620 | a submission that is stored does to the handler's tables what the store transaction does to its rows |
| Refinement.RepairRefines | internal/store/postgres.go:965-1029 | so does a repair |
| Names.TextsDistinct | cmd/retry_worker/main.go:80-82 | the derived attempt ids of different attempts are different texts |

## Left out

- Delivery.Process: the calls to the senders are one step of the machine; how templates are rendered, SMTP and webhooks are not modelled, only whether a message is ready.
- Store.Postgres.ClaimPendingDispatchIntents: the order of the scan is the caller's; rows carry no creation time, and rows locked by others are not in it.
- Store.Postgres.PromoteDueScheduledNotifications: rows locked by others are not in its scan.
- Processes.RunOnce: that other processes act between its steps is modelled by the machine, not by the method.
- RateLimit.Limiter.AllowTenant: one tenant's key, as keys of different tenants do not interact; an INCR that fails without effect changes nothing, and one whose reply is lost is the step followed by giving up.
- Resp.Connection.ReadResponse: a declared length too large to allocate is treated as a connection that ends early.
- Client.RedisClient.Do: AUTH and SELECT belong to the dial, which fails or not; calls with several commands (MULTI) are several round trips.
- FairScheduler.Scheduler.Next: the semaphore and goroutines around the scheduler; its calls are taken one at a time, as its mutex does.
- The submission handler is modelled as its store calls in sequence, since other handlers run between them; request validation, the rate limit and the queue-pressure check come before the first of them.
- Notification status is written outside the transition it follows; the protocol lets it be overwritten with any value at any time, and no result depends on it but cancellation's own guard.
- Unsupported channels and malformed job payloads, which the dispatcher discards.
- Legacy paths (FinalizeDeadLetterReplay, FinalizeRetryDispatch, FinalizeReplayEnqueue, MarkAttemptEnqueued, bare CreateNotification, CreateDeliveryAttempt and CreateDispatchIntent): the running commands do not use them and they break the invariants.
- Whether the provider delivered twice or not at all behind its interface; the in-memory notify package; HTTP routing, health, metrics, logging and what audit events say; configuration loading, of which only the numeric constraints appear as premises.
- Real time and fair scheduling of processes: progress is proved as reachability, not as a deadline.
