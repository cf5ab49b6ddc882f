// Short runs in which a promise fails, with every process doing what the code
// does: work that is lost after one database error, and work that is dispatched
// a second time after its outbox row was cleaned up.
module Lapses {
  import opened Wrappers
  import opened Rows
  import opened Transactions
  import opened Transport
  import opened Protocol
  import opened Cover
  import opened Once
  import opened Queue
  import opened Processes
  import opened Calls

  // One submission at time 0, not scheduled or due at once; `enqueuedAt` and
  // `intent` tell how far it got.
  function Rows1(key: Key, due: Option<Time>, enqueuedAt: Option<Time>, intent: Intent): Db {
    Db(map[key := Notification(0, due, None, None, Accepted)],
       map[Initial(key) := Attempt(key, 1, Pending, None, enqueuedAt)],
       map[Initial(key) := intent],
       map[])
  }

  function AfterEnqueue(key: Key, db: Db, publisher: Process): State {
    State(db, map[Ready(Dispatch) := [Job(0, Initial(key))]], map[0 := publisher], {}, {}, 0,
          Log({Initial(key)}, {0}, multiset{}, multiset{}))
  }

  const OPENED: Intent := Intent(FromInitial, Unpublished, None, None)
  const LEASED: Intent := Intent(FromInitial, Publishing, Some(0), None)
  const CLOSED: Intent := Intent(FromInitial, Published, None, Some(0))

  lemma Created(key: Key, due: Option<Time>)
    requires due in {None, Some(0)}
    ensures Apply(INIT, Api(OpCreate(key, due))) == INIT.(db := Rows1(key, due, None, OPENED))
  {
    var row := Notification(0, due, None, None, Accepted);
    assert InsertAttempt(EMPTY.(notifications := map[key := row]), Initial(key), key, 1)
        == Ok(EMPTY.(notifications := map[key := row], attempts := map[Initial(key) := Attempt(key, 1, Pending, None, None)]));
  }

  lemma Claimed(key: Key, due: Option<Time>)
    requires due in {None, Some(0)}
    ensures Apply(INIT.(db := Rows1(key, due, None, OPENED)), Publish(0, OpClaim([Initial(key)]))) ==
      INIT.(db := Rows1(key, due, None, LEASED), procs := map[0 := Publisher([Claim(Initial(key), 0)], ToEnqueue)])
  {
    var s := INIT.(db := Rows1(key, due, None, OPENED));
    var a := Initial(key);
    assert ClaimAllowed(s, [a]);
    assert Leased([a], 0) == [Claim(a, 0)];
    assert Lease(s.db, (set b | b in [a]), 0).outbox == map[a := LEASED];
  }

  lemma Enqueues(key: Key, due: Option<Time>)
    requires due in {None, Some(0)}
    ensures Apply(INIT.(db := Rows1(key, due, None, LEASED), procs := map[0 := Publisher([Claim(Initial(key), 0)], ToEnqueue)]), Publish(0, OpEnqueue(0)))
      == AfterEnqueue(key, Rows1(key, due, None, LEASED), Publisher([Claim(Initial(key), 0)], ToMark))
  {
    var a := Initial(key);
    assert Items(map[], Ready(Dispatch)) + [Job(0, a)] == [Job(0, a)];
    assert PushRight(map[], Ready(Dispatch), Job(0, a)) == map[Ready(Dispatch) := [Job(0, a)]];
    assert {} + {a} == {a};
  }

  lemma Marks(key: Key, due: Option<Time>)
    requires due in {None, Some(0)}
    ensures Apply(AfterEnqueue(key, Rows1(key, due, None, LEASED), Publisher([Claim(Initial(key), 0)], ToMark)), Publish(0, OpMark))
      == AfterEnqueue(key, Rows1(key, due, Some(0), CLOSED), Publisher([], ToEnqueue))
  {
    var a := Initial(key);
    var db := Rows1(key, due, None, LEASED);
    assert db.outbox[a := CLOSED] == map[a := CLOSED];
    assert db.attempts[a := Attempt(key, 1, Pending, None, Some(0))] == map[a := Attempt(key, 1, Pending, None, Some(0))];
    assert MarkPublished(db, a, 0, 0) == Ok(Rows1(key, due, Some(0), CLOSED));
    assert [Claim(a, 0)][1..] == [];
  }

  // Submitted, claimed, enqueued and marked.
  function Published4(key: Key, due: Option<Time>): seq<Action> {
    [Api(OpCreate(key, due)), Publish(0, OpClaim([Initial(key)])), Publish(0, OpEnqueue(0)), Publish(0, OpMark)]
  }

  lemma AfterPublished(key: Key, due: Option<Time>)
    requires due in {None, Some(0)}
    ensures Exec(Published4(key, due)) == AfterEnqueue(key, Rows1(key, due, Some(0), CLOSED), Publisher([], ToEnqueue))
  {
    FourSteps(INIT, Api(OpCreate(key, due)), Publish(0, OpClaim([Initial(key)])), Publish(0, OpEnqueue(0)), Publish(0, OpMark));
    Created(key, due);
    Claimed(key, due);
    Enqueues(key, due);
    Marks(key, due);
  }

  lemma FourSteps(s: State, a: Action, b: Action, c: Action, d: Action)
    ensures RunFrom(s, [a, b, c, d]) == Apply(Apply(Apply(Apply(s, a), b), c), d)
  {
    ThreeSteps(s, a, b, c);
    RunSnoc(s, [a, b, c], d);
    assert [a, b, c] + [d] == [a, b, c, d];
  }

  // ------------------------------------------------------------- lost work

  // Routed, and reserved by a worker of its channel.
  function Reserved4(key: Key): seq<Action> {
    [Route(1, OpReserveDispatch), Route(1, OpRoute), Route(1, OpAckRouted), Work(2, OpReserve(key.channel))]
  }

  lemma AfterReserved(key: Key, s: State)
    requires s.redis == map[Ready(Dispatch) := [Job(0, Initial(key))]] && 1 !in s.procs && 2 !in s.procs
    ensures var end := RunFrom(s, Reserved4(key));
      var queue := WorkQueue(key.channel);
      && end.db == s.db && end.log == s.log
      && end.procs == s.procs[2 := Worker(queue, Job(0, Initial(key)), ToActivate)]
      && Items(end.redis, Reserved(queue)) == [Job(0, Initial(key))]
      && forall l :: l != Reserved(queue) ==> Items(end.redis, l) == []
  {
    var j := Job(0, Initial(key));
    RunConcat(s, [Route(1, OpReserveDispatch), Route(1, OpRoute), Route(1, OpAckRouted)], [Work(2, OpReserve(key.channel))]);
    assert Reserved4(key) ==
      [Route(1, OpReserveDispatch), Route(1, OpRoute), Route(1, OpAckRouted)] + [Work(2, OpReserve(key.channel))];
    AckRun(s, 1, j);
    var r := Remove(RoutedTo(s.redis, j), Reserved(Dispatch), j);
    RoutedLists(s.redis, j);
    OneStep(s.(redis := r), Work(2, OpReserve(key.channel)));
  }

  lemma RoutedLists(r: Redis, j: Job)
    requires r == map[Ready(Dispatch) := [j]]
    ensures var r' := Remove(RoutedTo(r, j), Reserved(Dispatch), j);
      && Items(r', Ready(ChannelQueue(j))) == [j]
      && forall l :: l != Ready(ChannelQueue(j)) ==> Items(r', l) == []
  {
    PopPushLists(r, Ready(Dispatch), Reserved(Dispatch));
    assert Items(Taken(r), Ready(Dispatch)) == [] && Items(Taken(r), Reserved(Dispatch)) == [j];
    assert Items(RoutedTo(r, j), Ready(ChannelQueue(j))) == [j];
    assert RemoveFirst([j], j) == [];
  }

  // A run without a store error, up to the worker's call.
  lemma AfterBoth(key: Key) returns (s: State)
    ensures s == Exec(Published4(key, None) + Reserved4(key))
    ensures s.db == Rows1(key, None, Some(0), CLOSED) && s.log.sent == multiset{}
    ensures var queue := WorkQueue(key.channel);
      && s.procs == map[0 := Publisher([], ToEnqueue), 2 := Worker(queue, Job(0, Initial(key)), ToActivate)]
      && Items(s.redis, Reserved(queue)) == [Job(0, Initial(key))]
      && forall l :: l != Reserved(queue) ==> Items(s.redis, l) == []
  {
    AfterPublished(key, None);
    RunConcat(INIT, Published4(key, None), Reserved4(key));
    AfterReserved(key, Exec(Published4(key, None)));
    s := Exec(Published4(key, None) + Reserved4(key));
  }

  lemma Dropped(s: State, j: Job)
    requires 2 in s.procs && s.procs[2] == Worker(ChannelQueue(j), j, ToActivate)
    requires Items(s.redis, Reserved(ChannelQueue(j))) == [j]
    requires forall l :: l != Reserved(ChannelQueue(j)) ==> Items(s.redis, l) == []
    ensures var end := Apply(Apply(s, Work(2, OpStoreError)), Work(2, OpAck));
      end.db == s.db && !HasJob(end.redis, j.attempt)
  {
    var end := Apply(Apply(s, Work(2, OpStoreError)), Work(2, OpAck));
    assert RemoveFirst([j], j) == [];
    var s1 := Apply(s, Work(2, OpStoreError));
    assert s1.redis == s.redis && s1.procs[2] == Worker(ChannelQueue(j), j, ToFinish);
    assert end.redis == Remove(s.redis, Reserved(ChannelQueue(j)), j);
    forall l ensures Items(end.redis, l) == [] {
      if l == Reserved(ChannelQueue(j)) {
        assert Items(end.redis, l) == RemoveFirst(Items(s.redis, l), j);
      } else {
        assert Items(end.redis, l) == Items(s.redis, l);
      }
    }
  }

  // The worker's activation fails in the store, its job is acknowledged, and
  // pending work is left with no intent and no job.
  lemma WorkCanBeLost(key: Key)
    ensures exists acts :: IsPending(Exec(acts).db, Initial(key)) && !Accounted(Exec(acts), Initial(key))
  {
    var acts, fail, ack := Published4(key, None) + Reserved4(key), Work(2, OpStoreError), Work(2, OpAck);
    var s := AfterBoth(key);
    Dropped(s, Job(0, Initial(key)));
    RunConcat(INIT, acts, [fail, ack]);
    TwoSteps(s, fail, ack);
    assert IsPending(Exec(acts + [fail, ack]).db, Initial(key));
  }

  // ------------------------------------------------------ stuck in progress

  lemma CrashedCall(s: State, a: AttemptId, queue: QueueName, j: Job)
    requires s.procs == map[0 := Publisher([], ToEnqueue), 2 := Worker(queue, j, ToActivate)]
    requires j.attempt == a && IsPending(s.db, a)
    ensures var end := Apply(Apply(s, Work(2, OpActivate)), Environment(OpCrash(2)));
      HasStatus(end.db, a, InProgress) && Unowned(end, a) && end.log.sent == s.log.sent
  {
  }

  // The worker crashes between its activation and its provider call: the attempt
  // stays in progress in every continuation, and no sender was called for it.
  lemma WorkCanGetStuck(key: Key)
    ensures exists acts :: Stuck(acts, Initial(key)) && Initial(key) !in Exec(acts).log.sent
  {
    var acts, activate, crash := Published4(key, None) + Reserved4(key), Work(2, OpActivate), Environment(OpCrash(2));
    var s := AfterBoth(key);
    CrashedCall(s, Initial(key), WorkQueue(key.channel), Job(0, Initial(key)));
    RunConcat(INIT, acts, [activate, crash]);
    TwoSteps(s, activate, crash);
    forall more ensures HasStatus(RunFrom(Exec(acts + [activate, crash]), more).db, Initial(key), InProgress) {
      StuckForever(Exec(acts + [activate, crash]), more, Initial(key));
    }
    assert Stuck(acts + [activate, crash], Initial(key));
  }

  ghost predicate Stuck(acts: seq<Action>, a: AttemptId) {
    && HasStatus(Exec(acts).db, a, InProgress) && Unowned(Exec(acts), a)
    && forall more :: HasStatus(RunFrom(Exec(acts), more).db, a, InProgress)
  }

  // ------------------------------------------------------- dispatched twice

  lemma RowCleaned(key: Key, due: Option<Time>)
    ensures CleanOutbox(Rows1(key, due, Some(0), CLOSED), 1) == Rows1(key, due, Some(0), CLOSED).(outbox := map[])
  {
    var db := Rows1(key, due, Some(0), CLOSED);
    assert CleanOutbox(db, 1).outbox == map[];
  }

  lemma Reopened(s: State, key: Key, due: Option<Time>, promote: bool)
    requires s.db == Rows1(key, due, Some(0), CLOSED).(outbox := map[]) && s.paused == s.held == {}
    requires promote ==> due == Some(0)
    ensures HasOpenIntent(Apply(s, Api(if promote then OpPromote(key) else OpRedrive(key))).db, Initial(key))
  {
  }

  // The steps up to the deletion of the published row.
  function Cleaned6(key: Key, due: Option<Time>): seq<Action> {
    Published4(key, due) + [Environment(OpTick(1)), Api(OpCleanOutbox(1))]
  }

  // After maintenance removed the published intent, an operator's redrive opens
  // a new one for an attempt that was enqueued long ago; for work that was
  // submitted with a schedule already due, so does the next promotion sweep.
  lemma RedriveCanReopen(key: Key, due: Option<Time>, promote: bool)
    requires due in {None, Some(0)} && (promote ==> due == Some(0))
    ensures var s := Exec(Cleaned6(key, due));
      && IsEnqueued(s.db, Initial(key)) && !HasOpenIntent(s.db, Initial(key))
      && HasOpenIntent(Apply(s, Api(if promote then OpPromote(key) else OpRedrive(key))).db, Initial(key))
  {
    var tick, clean := Environment(OpTick(1)), Api(OpCleanOutbox(1));
    var s := Exec(Published4(key, due));
    AfterPublished(key, due);
    RunConcat(INIT, Published4(key, due), [tick, clean]);
    TwoSteps(s, tick, clean);
    RowCleaned(key, due);
    Reopened(Apply(Apply(s, tick), clean), key, due, promote);
  }
}
