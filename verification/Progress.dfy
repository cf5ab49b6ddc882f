// Accounted-for work can also be reached: from every reachable state, each
// pending attempt that is accounted for and neither cancelled nor paused still
// has a continuation in which a worker activates it, whatever crashed before.
module Progress {
  import opened Rows
  import opened Transactions
  import opened Transport
  import opened Protocol
  import opened Chain
  import opened Claims
  import opened Jobs
  import opened Fetch
  import opened Cover
  import opened Loss

  ghost predicate Activates(s: State, more: seq<Action>, a: AttemptId) {
    Clean(more) && HasStatus(RunFrom(s, more).db, a, InProgress)
  }

  // Prefixing harmless steps.
  lemma Then(s: State, first: seq<Action>, more: seq<Action>, a: AttemptId)
    requires Clean(first) && Activates(RunFrom(s, first), more, a)
    ensures Activates(s, first + more, a)
  {
    RunConcat(s, first, more);
    CleanConcat(first, more);
  }

  // A job on its channel is fetched and activated.
  lemma FromChannel(s: State, j: Job) returns (more: seq<Action>)
    requires IsPending(s.db, j.attempt) && Copies(s.redis, ChannelQueue(j), j) > 0
    ensures Activates(s, more, j.attempt)
  {
    var fetch, pid := FetchJob(s, ChannelQueue(j), j);
    var e, activate := RunFrom(s, fetch), Work(pid, OpActivate);
    RunOne(e, activate);
    Then(s, fetch, [activate], j.attempt);
    more := fetch + [activate];
  }

  // A job in the dispatch lists is fetched and routed first.
  lemma FromDispatch(s: State, j: Job) returns (more: seq<Action>)
    requires IsPending(s.db, j.attempt) && Copies(s.redis, Dispatch, j) > 0
    ensures Activates(s, more, j.attempt)
  {
    var fetch, pid := FetchJob(s, Dispatch, j);
    var e, route := RunFrom(s, fetch), Route(pid, OpRoute);
    var routed := Apply(e, route);
    RunOne(e, route);
    assert routed.redis == PushRight(e.redis, Ready(ChannelQueue(j)), j);
    PushCopies(e.redis, Ready(ChannelQueue(j)), j, false, ChannelQueue(j), j);
    more := FromChannel(routed, j);
    Then(e, [route], more, j.attempt);
    Then(s, fetch, [route] + more, j.attempt);
    more := fetch + ([route] + more);
  }

  lemma FromJob(s: State, a: AttemptId) returns (more: seq<Action>)
    requires JobsOk(s) && IsPending(s.db, a) && HasJob(s.redis, a)
    ensures Activates(s, more, a)
  {
    var l :| Holds(s.redis, l, a);
    var j :| j in Items(s.redis, l) && j.attempt == a;
    assert InPlace(s, l, j);
    CountMember(Items(s.redis, l), j);
    if l.queue == Dispatch {
      more := FromDispatch(s, j);
    } else {
      more := FromChannel(s, j);
    }
  }

  lemma FromClaimable(s: State, a: AttemptId) returns (more: seq<Action>)
    requires IsPending(s.db, a) && ClaimAllowed(s, [a])
    ensures Activates(s, more, a)
  {
    var pid := FreshPid(s.procs);
    var serial := MaxOf(s.log.serials) + 1;
    var claim, enqueue := Publish(pid, OpClaim([a])), Publish(pid, OpEnqueue(serial));
    var s1 := Apply(s, claim);
    assert s1.procs[pid].batch[0] == Claim(a, s.now);
    var s2 := Apply(s1, enqueue);
    assert s2.redis == PushRight(s1.redis, Ready(Dispatch), Job(serial, a));
    PushCopies(s1.redis, Ready(Dispatch), Job(serial, a), false, Dispatch, Job(serial, a));
    more := FromDispatch(s2, Job(serial, a));
    RunOne(s1, enqueue);
    Then(s1, [enqueue], more, a);
    RunOne(s, claim);
    Then(s, [claim], [enqueue] + more, a);
    more := [claim] + ([enqueue] + more);
  }

  lemma FromIntent(s: State, a: AttemptId) returns (more: seq<Action>)
    requires ClaimsOk(s) && IsPending(s.db, a) && HasOpenIntent(s.db, a) && KeyOf(a) !in s.paused
    ensures Activates(s, more, a)
  {
    assert RowClaimOk(s, a);
    var wait := Environment(OpTick(CLAIM_TIMEOUT));
    RunOne(s, wait);
    assert forall b :: b in [a] ==> b == a;
    more := FromClaimable(Apply(s, wait), a);
    Then(s, [wait], more, a);
    more := [wait] + more;
  }

  lemma FromSchedule(s: State, a: AttemptId) returns (more: seq<Action>)
    requires Inv(s) && ClaimsOk(s) && IsPending(s.db, a) && Deferred(s.db, a)
    requires s.db.notifications[a.key].cancelledAt.None? && a.key !in s.paused
    ensures Activates(s, more, a)
  {
    assert AttemptOk(s.db, a);
    var wait := Environment(OpTick(s.db.notifications[a.key].scheduledFor.value));
    var promote := Api(OpPromote(a.key));
    var s1 := Apply(s, wait);
    var s2 := Apply(s1, promote);
    ClaimsStep(s, wait);
    ClaimsStep(s1, promote);
    assert HasOpenIntent(s2.db, a) && IsPending(s2.db, a);
    more := FromIntent(s2, a);
    RunOne(s1, promote);
    Then(s1, [promote], more, a);
    RunOne(s, wait);
    Then(s, [wait], [promote] + more, a);
    more := [wait] + ([promote] + more);
  }

  // Whatever is accounted for can be brought to activation, from every reachable
  // state, by steps that lose nothing.
  lemma AccountedIsReachable(acts: seq<Action>, a: AttemptId) returns (more: seq<Action>)
    requires var s := Exec(acts);
      && IsPending(s.db, a) && Accounted(s, a) && KeyOf(a) !in s.paused
      && (KeyOf(a) in s.db.notifications ==> s.db.notifications[KeyOf(a)].cancelledAt.None?)
    ensures Clean(more) && HasStatus(Exec(acts + more).db, a, InProgress)
  {
    var s := Exec(acts);
    AllAlways(acts);
    if HasJob(s.redis, a) {
      more := FromJob(s, a);
    } else if HasOpenIntent(s.db, a) {
      more := FromIntent(s, a);
    } else {
      more := FromSchedule(s, a);
    }
    RunConcat(INIT, acts, more);
  }

  // Nothing pending is ever out of reach, unless it was itself dropped.
  lemma AlwaysReachable(acts: seq<Action>, a: AttemptId) returns (more: seq<Action>)
    requires DropFree(INIT, acts, a)
    requires var s := Exec(acts);
      && IsPending(s.db, a) && KeyOf(a) !in s.paused
      && (KeyOf(a) in s.db.notifications ==> s.db.notifications[KeyOf(a)].cancelledAt.None?)
    ensures DropFree(Exec(acts), more, a) && HasStatus(Exec(acts + more).db, a, InProgress)
  {
    NoLostWork(acts, a);
    more := AccountedIsReachable(acts, a);
    CleanIsDropFree(Exec(acts), more, a);
  }
}
