// The consumers of the lists as the code writes them: the dispatcher's round,
// the worker call with its acknowledgement, and the sweep of the retry worker.
module Calls {
  import opened Wrappers
  import opened Rows
  import opened Transactions
  import opened Transport
  import opened Protocol
  import opened Steps
  import opened Chain
  import opened Store
  import opened Queue
  import opened Processes

  lemma RunSnoc(s: State, acts: seq<Action>, a: Action)
    ensures RunFrom(s, acts + [a]) == Apply(RunFrom(s, acts), a)
  {
    RunConcat(s, acts, [a]);
    OneStep(RunFrom(s, acts), a);
  }

  lemma ThreeSteps(s: State, a: Action, b: Action, c: Action)
    ensures RunFrom(s, [a, b, c]) == Apply(Apply(Apply(s, a), b), c)
  {
    TwoSteps(s, a, b);
    RunSnoc(s, [a, b], c);
    assert [a, b] + [c] == [a, b, c];
  }

  // --------------------------------------------------------------- dispatcher

  datatype RouteResult = Idle | Routed | Requeued | LeftReserved

  // What a round does to the lists: the newest job leaves the dispatch list and,
  // if the push took effect, is the newest of its channel. Its reservation is
  // gone, unless the round ended without an answer, and a job given back waits
  // behind all others.
  ghost predicate RoundLeaves(before: Redis, after: Redis, j: Job, pushed: bool, r: RouteResult) {
    var waiting, channel := Items(before, Ready(Dispatch)), Ready(WorkQueue(KeyOf(j.attempt).channel));
    && waiting != [] && j == waiting[|waiting| - 1]
    && Items(after, Ready(Dispatch)) == (if r.Requeued? then [j] else []) + waiting[..|waiting| - 1]
    && Items(after, Reserved(Dispatch)) == (if r.LeftReserved? then [j] else []) + Items(before, Reserved(Dispatch))
    && Items(after, channel) == Items(before, channel) + (if pushed then [j] else [])
    && forall l :: l !in {Ready(Dispatch), Reserved(Dispatch), channel} ==> Items(after, l) == Items(before, l)
  }

  lemma TakenLists(r: Redis, j: Job, pushed: bool)
    requires Items(r, Ready(Dispatch)) != [] && j == Last(Items(r, Ready(Dispatch)))
    ensures RoundLeaves(r, if pushed then RoutedTo(r, j) else Taken(r), j, pushed, LeftReserved)
  {
    PopPushLists(r, Ready(Dispatch), Reserved(Dispatch));
  }

  // From a reservation that is still there to one that was acknowledged, and to
  // a job that was given back.
  lemma Answered(r: Redis, mid: Redis, j: Job, pushed: bool)
    requires RoundLeaves(r, mid, j, pushed, LeftReserved)
    ensures RoundLeaves(r, Remove(mid, Reserved(Dispatch), j), j, pushed, Routed)
    ensures RoundLeaves(r, Requeue(mid, Dispatch, j), j, pushed, Requeued)
  {
    assert RemoveFirst([j] + Items(r, Reserved(Dispatch)), j) == Items(r, Reserved(Dispatch));
  }

  lemma RoundMoves(r: Redis, j: Job, pushed: bool)
    requires Items(r, Ready(Dispatch)) != [] && j == Last(Items(r, Ready(Dispatch)))
    ensures var mid := if pushed then RoutedTo(r, j) else Taken(r);
      && RoundLeaves(r, mid, j, pushed, LeftReserved)
      && RoundLeaves(r, Remove(mid, Reserved(Dispatch), j), j, pushed, Routed)
      && RoundLeaves(r, Requeue(mid, Dispatch, j), j, pushed, Requeued)
  {
    TakenLists(r, j, pushed);
    Answered(r, if pushed then RoutedTo(r, j) else Taken(r), j, pushed);
  }

  // One round: reserve, push to the channel list, and acknowledge or give back.
  // Whatever fails, no attempt loses its last job.
  method RouteOnce(q: RedisQueue, push: SendResult, acked: bool, requeued: bool, ghost s: State, ghost pid: nat)
    returns (r: RouteResult, ghost acts: seq<Action>)
    requires s.redis == q.lists && pid !in s.procs
    modifies q
    ensures RunFrom(s, acts) == s.(redis := q.lists)
    ensures forall a :: HasJob(old(q.lists), a) ==> HasJob(q.lists, a)
    ensures r.Idle? <==> old(Items(q.lists, Ready(Dispatch))) == []
    ensures r.Idle? ==> q.lists == old(q.lists)
    ensures !r.Idle? ==> r == if push.Sent? then (if acked then Routed else LeftReserved) else if requeued then Requeued else LeftReserved
    ensures !r.Idle? ==> RoundLeaves(old(q.lists), q.lists, Last(old(Items(q.lists, Ready(Dispatch)))), push != SendFailed(false), r)
    ensures r.Routed? ==> HasChannelJob(q.lists, Last(old(Items(q.lists, Ready(Dispatch)))).attempt)
  {
    var reserved := q.Reserve(Dispatch);
    if reserved.None? {
      return Idle, [];
    }
    var j := reserved.value;
    RoutedJobs(s.redis, j);
    RoundMoves(s.redis, j, push != SendFailed(false));
    q.Enqueue(ChannelQueue(j), j, push);
    if push.SendFailed? {
      if !requeued {
        LeaveRun(s, pid, j, OpRouteError(push.applied));
        return LeftReserved, [Route(pid, OpReserveDispatch), Route(pid, OpRouteError(push.applied)), Environment(OpCrash(pid))];
      }
      GivenBack(s.redis, j, push.applied);
      var _ := q.RequeueReserved(Dispatch, j);
      RequeueRun(s, pid, j, push.applied);
      return Requeued, [Route(pid, OpReserveDispatch), Route(pid, OpRouteError(push.applied)), Route(pid, OpRequeue)];
    }
    if !acked {
      LeaveRun(s, pid, j, OpRoute);
      return LeftReserved, [Route(pid, OpReserveDispatch), Route(pid, OpRoute), Environment(OpCrash(pid))];
    }
    var _ := q.AckReserved(Dispatch, j);
    AckRun(s, pid, j);
    return Routed, [Route(pid, OpReserveDispatch), Route(pid, OpRoute), Route(pid, OpAckRouted)];
  }

  predicate CanTake(s: State, pid: nat, j: Job) {
    pid !in s.procs && Items(s.redis, Ready(Dispatch)) != [] && j == Last(Items(s.redis, Ready(Dispatch)))
  }

  function RoutedTo(r: Redis, j: Job): Redis {
    PushRight(Taken(r), Ready(ChannelQueue(j)), j)
  }

  // `s` with other lists, and the dispatcher somewhere in its round.
  function At(s: State, pid: nat, j: Job, phase: RoutePhase, r: Redis): State {
    s.(redis := r, procs := s.procs[pid := Dispatcher(j, phase)])
  }

  lemma TakeStep(s: State, pid: nat, j: Job)
    requires CanTake(s, pid, j)
    ensures Apply(s, Route(pid, OpReserveDispatch)) == At(s, pid, j, ToRoute, Taken(s.redis))
  {
  }

  lemma RouteTaken(s: State, pid: nat, j: Job, op: DispatcherOp, r: Redis)
    requires op.OpRoute? || op.OpRouteError?
    ensures Apply(At(s, pid, j, ToRoute, r), Route(pid, op)) ==
      At(s, pid, j, if op.OpRoute? then ToAck else ToRequeue,
         if op.OpRoute? || op.applied then PushRight(r, Ready(ChannelQueue(j)), j) else r)
  {
    Overwrite(s.procs, pid, Dispatcher(j, ToRoute), Dispatcher(j, if op.OpRoute? then ToAck else ToRequeue));
  }

  lemma EndRound(s: State, pid: nat, j: Job, phase: RoutePhase, r: Redis)
    requires pid !in s.procs
    ensures Stop(At(s, pid, j, phase, r), pid) == s.(redis := r)
    ensures Apply(At(s, pid, j, phase, r), Environment(OpCrash(pid))) == s.(redis := r)
    ensures phase == ToAck ==>
      Apply(At(s, pid, j, phase, r), Route(pid, OpAckRouted)) == s.(redis := Remove(r, Reserved(Dispatch), j))
    ensures phase == ToRequeue ==>
      Apply(At(s, pid, j, phase, r), Route(pid, OpRequeue)) == s.(redis := Requeue(r, Dispatch, j))
  {
    assert s.procs[pid := Dispatcher(j, phase)] - {pid} == s.procs;
  }

  lemma LeaveRun(s: State, pid: nat, j: Job, op: DispatcherOp)
    requires CanTake(s, pid, j) && (op.OpRoute? || op.OpRouteError?)
    ensures RunFrom(s, [Route(pid, OpReserveDispatch), Route(pid, op), Environment(OpCrash(pid))]) ==
      s.(redis := if op.OpRoute? || op.applied then RoutedTo(s.redis, j) else Taken(s.redis))
  {
    ThreeSteps(s, Route(pid, OpReserveDispatch), Route(pid, op), Environment(OpCrash(pid)));
    TakeStep(s, pid, j);
    RouteTaken(s, pid, j, op, Taken(s.redis));
    EndRound(s, pid, j, if op.OpRoute? then ToAck else ToRequeue,
             if op.OpRoute? || op.applied then RoutedTo(s.redis, j) else Taken(s.redis));
  }

  lemma RequeueRun(s: State, pid: nat, j: Job, applied: bool)
    requires CanTake(s, pid, j)
    ensures RunFrom(s, [Route(pid, OpReserveDispatch), Route(pid, OpRouteError(applied)), Route(pid, OpRequeue)]) ==
      s.(redis := Requeue(if applied then RoutedTo(s.redis, j) else Taken(s.redis), Dispatch, j))
  {
    ThreeSteps(s, Route(pid, OpReserveDispatch), Route(pid, OpRouteError(applied)), Route(pid, OpRequeue));
    TakeStep(s, pid, j);
    RouteTaken(s, pid, j, OpRouteError(applied), Taken(s.redis));
    EndRound(s, pid, j, ToRequeue, if applied then RoutedTo(s.redis, j) else Taken(s.redis));
  }

  lemma AckRun(s: State, pid: nat, j: Job)
    requires CanTake(s, pid, j)
    ensures RunFrom(s, [Route(pid, OpReserveDispatch), Route(pid, OpRoute), Route(pid, OpAckRouted)]) ==
      s.(redis := Remove(RoutedTo(s.redis, j), Reserved(Dispatch), j))
  {
    ThreeSteps(s, Route(pid, OpReserveDispatch), Route(pid, OpRoute), Route(pid, OpAckRouted));
    TakeStep(s, pid, j);
    RouteTaken(s, pid, j, OpRoute, Taken(s.redis));
    EndRound(s, pid, j, ToAck, RoutedTo(s.redis, j));
  }

  function Taken(r: Redis): Redis {
    PopPush(r, Ready(Dispatch), Reserved(Dispatch))
  }

  // Routing a reserved job, and then removing it from the dispatch list.
  lemma RoutedJobs(r: Redis, j: Job)
    requires Items(r, Ready(Dispatch)) != [] && j == Last(Items(r, Ready(Dispatch)))
    ensures var pushed := RoutedTo(r, j);
      var acked := Remove(pushed, Reserved(Dispatch), j);
      && (forall a :: HasJob(r, a) ==> HasJob(Taken(r), a) && HasJob(pushed, a) && HasJob(acked, a))
      && HasChannelJob(acked, j.attempt)
  {
    var pushed := RoutedTo(r, j);
    forall a ensures HasJob(r, a) ==> HasJob(Taken(r), a) && HasJob(pushed, a) && HasJob(Remove(pushed, Reserved(Dispatch), j), a) {
      PopPushJobs(r, Ready(Dispatch), Reserved(Dispatch), a);
      PushJobs(Taken(r), pushed, Ready(ChannelQueue(j)), j, a);
      RemoveJobs(pushed, Reserved(Dispatch), j, a);
    }
    PushJobs(Taken(r), pushed, Ready(ChannelQueue(j)), j, j.attempt);
    RemoveJobs(pushed, Reserved(Dispatch), j, j.attempt);
  }

  lemma GivenBack(r: Redis, j: Job, applied: bool)
    requires Items(r, Ready(Dispatch)) != [] && j == Last(Items(r, Ready(Dispatch)))
    ensures var pushed := if applied then RoutedTo(r, j) else Taken(r);
      forall a :: HasJob(r, a) ==> HasJob(Requeue(pushed, Dispatch, j), a)
  {
    RoutedJobs(r, j);
    var pushed := if applied then RoutedTo(r, j) else Taken(r);
    forall a | HasJob(r, a) ensures HasJob(Requeue(pushed, Dispatch, j), a) {
      RequeueJobs(pushed, Dispatch, j, a);
    }
  }

  // ------------------------------------------------------------- retry sweep

  // Each due attempt gets its retry. A row that another worker was faster with
  // is passed over, and in a reachable state nothing else can go wrong.
  method RetrySweep(st: Postgres, due: seq<AttemptId>, now: Time, ghost s: State)
    returns (ok: bool, ghost acts: seq<Action>)
    requires s.db == st.Tables() && s.now == now
    modifies st
    ensures RunFrom(s, acts) == s.(db := st.Tables())
    ensures Inv(s) ==> ok
    ensures ok ==> forall j :: 0 <= j < |due| ==> Retried(old(st.Tables()), st.Tables(), due[j], now)
  {
    acts := [];
    ghost var before := st.Tables();
    for i := 0 to |due|
      invariant RunFrom(s, acts) == s.(db := st.Tables()) && (Inv(s) ==> Inv(RunFrom(s, acts)))
      invariant Grown(before, st.Tables())
      invariant forall j :: 0 <= j < i ==> Retried(before, st.Tables(), due[j], now)
    {
      ghost var db := st.Tables();
      SweepStep(s, acts, due[i]);
      acts := acts + [Api(OpEnsureRetry(due[i]))];
      RetryGrows(before, db, due[i], now);
      OneMoreRetried(before, db, due, i, now);
      var error := st.EnsureRetryAttempt(due[i], now);
      if error.Some? && error.value != NotFound {
        return false, acts;
      }
    }
    ok := true;
  }

  // An attempt that waited for its retry, and whose time has come, has it.
  ghost predicate Retried(before: Db, db: Db, a: AttemptId, now: Time) {
    a in before.attempts && before.attempts[a].status == RetryScheduled
    && before.attempts[a].nextRetryAt.Some? && before.attempts[a].nextRetryAt.value <= now
    ==> Retry(a) in db.attempts
  }

  lemma SweepStep(s: State, acts: seq<Action>, a: AttemptId)
    ensures var cur, act := RunFrom(s, acts), Api(OpEnsureRetry(a));
      && RunFrom(s, acts + [act]) == cur.(db := After(EnsureRetry(cur.db, a, cur.now), cur.db))
      && (Inv(cur) ==> Inv(RunFrom(s, acts + [act])))
      && (Inv(cur) ==> EnsureRetry(cur.db, a, cur.now).Ok? || EnsureRetry(cur.db, a, cur.now) == Err(NotFound))
  {
    RunSnoc(s, acts, Api(OpEnsureRetry(a)));
    var cur := RunFrom(s, acts);
    if Inv(cur) {
      StepKeeps(cur, Api(OpEnsureRetry(a)));
      RetryNeverConflicts(cur, a);
    }
  }

  // Attempts stay, and one that changed has its retry.
  ghost predicate Grown(before: Db, db: Db) {
    forall a :: a in before.attempts ==>
      a in db.attempts && (db.attempts[a] == before.attempts[a] || Retry(a) in db.attempts)
  }

  lemma RetryGrows(before: Db, db: Db, p: AttemptId, now: Time)
    requires Grown(before, db)
    ensures var db' := After(EnsureRetry(db, p, now), db);
      && Grown(before, db') && (forall a :: a in db.attempts ==> a in db'.attempts)
      && (EnsureRetry(db, p, now).Ok? ==> Retry(p) in db'.attempts)
      && (EnsureRetry(db, p, now) == Err(NotFound) && p in before.attempts && RetryDue(before.attempts[p], now) ==>
            Retry(p) in db.attempts)
  {
    if EnsureRetry(db, p, now).Ok? {
      var grown := RetryShape(db, p, now);
      assert InsertIntent(grown, Retry(p), FromRetry, grown.attempts[Retry(p)].enqueuedAt).attempts == grown.attempts;
    }
  }

  lemma OneMoreRetried(before: Db, db: Db, due: seq<AttemptId>, i: nat, now: Time)
    requires i < |due| && Grown(before, db) && forall j :: 0 <= j < i ==> Retried(before, db, due[j], now)
    ensures var tx := EnsureRetry(db, due[i], now);
      tx.Ok? || tx == Err(NotFound) ==> forall j :: 0 <= j < i + 1 ==> Retried(before, After(tx, db), due[j], now)
  {
    RetryGrows(before, db, due[i], now);
  }

  lemma RetryNeverConflicts(s: State, p: AttemptId)
    requires Inv(s)
    ensures EnsureRetry(s.db, p, s.now).Ok? || EnsureRetry(s.db, p, s.now) == Err(NotFound)
  {
    if p in s.db.attempts && RetryDue(s.db.attempts[p], s.now) && Retry(p) !in s.db.attempts {
      RetrySlotFree(s.db, p);
    }
  }
}
