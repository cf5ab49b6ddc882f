// When work is lost. `Safe` is not only enough for a pending attempt to stay
// accounted for: where it fails, the processes already under way can take out
// every job the attempt still has, without any further error. This makes it the
// exact condition under which an acknowledged store error costs an attempt.
module Loss {
  import opened Rows
  import opened Transport
  import opened Protocol
  import opened Steps
  import opened Markers
  import opened Jobs
  import opened Fetch
  import opened Cover

  lemma {:induction false} CleanIsDropFree(s: State, more: seq<Action>, a: AttemptId)
    requires Clean(more)
    ensures DropFree(s, more, a)
  {
    if more != [] {
      var front := more[..|more| - 1];
      assert forall act :: act in front ==> act in more;
      assert more[|more| - 1] in more;
      CleanIsDropFree(s, front, a);
    }
  }

  lemma {:induction false} JobsRun(s: State, more: seq<Action>)
    requires JobsOk(s)
    ensures JobsOk(RunFrom(s, more))
  {
    if more != [] {
      JobsRun(s, more[..|more| - 1]);
      JobsStep(RunFrom(s, more[..|more| - 1]), more[|more| - 1]);
    }
  }

  // Nothing but jobs accounts for the attempt, and every one of them is due to
  // be taken out.
  ghost predicate Doomed(s: State, a: AttemptId) {
    && JobsOk(s) && IsPending(s.db, a) && !HasOpenIntent(s.db, a) && !Deferred(s.db, a)
    && forall j: Job :: j.attempt == a ==> Surplus(s, j) <= 0
  }

  lemma RearrangedSurplus(s: State, e: State, j: Job)
    requires Rearranged(s, e)
    ensures Surplus(e, j) == Surplus(s, j)
    ensures HowMany(e.procs, Routed(j)) == HowMany(s.procs, Routed(j)) && HowMany(e.procs, Over(j)) == HowMany(s.procs, Over(j))
  {
    assert Those(e.procs, Routed(j)) == Those(s.procs, Routed(j));
    assert Those(e.procs, Over(j)) == Those(s.procs, Over(j));
  }

  lemma RearrangedDoomed(s: State, more: seq<Action>, a: AttemptId)
    requires Doomed(s, a) && Rearranged(s, RunFrom(s, more))
    ensures Doomed(RunFrom(s, more), a)
  {
    JobsRun(s, more);
    forall j: Job | j.attempt == a ensures Surplus(RunFrom(s, more), j) <= 0 {
      RearrangedSurplus(s, RunFrom(s, more), j);
    }
  }

  lemma RemoveSize(r: Redis, l: ListName, j: Job, q: QueueName)
    requires j in Items(r, l)
    ensures Size(Remove(r, l, j), q) == Size(r, q) - if q == l.queue then 1 else 0
  {
    CountRemoved(Items(r, l), j, j);
  }

  // The measure of the jobs that are left: one in the dispatch lists can still
  // move to the lists of its channel.
  function Left(r: Redis, a: AttemptId): nat {
    2 * Size(r, Dispatch) + Size(r, WorkQueue(KeyOf(a).channel))
  }

  // A dispatcher that had routed its job acknowledges the source copy.
  lemma SourceCopyGoes(s: State, pid: nat, j: Job)
    requires pid in s.procs && s.procs[pid] == Routed(j) && j in Items(s.redis, Reserved(Dispatch))
    ensures var e := Apply(s, Route(pid, OpAckRouted));
      e.db == s.db && Left(e.redis, j.attempt) < Left(s.redis, j.attempt)
    ensures forall k :: Surplus(Apply(s, Route(pid, OpAckRouted)), k) <= Surplus(s, k)
  {
    RemoveSize(s.redis, Reserved(Dispatch), j, Dispatch);
    RemoveSize(s.redis, Reserved(Dispatch), j, WorkQueue(KeyOf(j.attempt).channel));
    forall k ensures Surplus(Apply(s, Route(pid, OpAckRouted)), k) <= Surplus(s, k) { SourceSurplus(s, pid, j, k); }
  }

  lemma SourceSurplus(s: State, pid: nat, j: Job, k: Job)
    requires pid in s.procs && s.procs[pid] == Routed(j) && j in Items(s.redis, Reserved(Dispatch))
    ensures Surplus(Apply(s, Route(pid, OpAckRouted)), k) <= Surplus(s, k)
  {
    HowManyAfterStop(s.procs, pid, Routed(k));
    HowManyAfterStop(s.procs, pid, Over(k));
    RemoveCopies(s.redis, Reserved(Dispatch), j, Dispatch, k);
    RemoveCopies(s.redis, Reserved(Dispatch), j, ChannelQueue(k), k);
  }

  // A worker call that is over acknowledges a channel copy.
  lemma ChannelCopyGoes(s: State, pid: nat, j: Job)
    requires pid in s.procs && s.procs[pid] == Over(j) && j in Items(s.redis, Reserved(ChannelQueue(j)))
    ensures var e := Apply(s, Work(pid, OpAck));
      e.db == s.db && Left(e.redis, j.attempt) < Left(s.redis, j.attempt)
    ensures forall k :: Surplus(Apply(s, Work(pid, OpAck)), k) <= Surplus(s, k)
  {
    RemoveSize(s.redis, Reserved(ChannelQueue(j)), j, Dispatch);
    RemoveSize(s.redis, Reserved(ChannelQueue(j)), j, ChannelQueue(j));
    forall k ensures Surplus(Apply(s, Work(pid, OpAck)), k) <= Surplus(s, k) { ChannelSurplus(s, pid, j, k); }
  }

  lemma ChannelSurplus(s: State, pid: nat, j: Job, k: Job)
    requires pid in s.procs && s.procs[pid] == Over(j) && j in Items(s.redis, Reserved(ChannelQueue(j)))
    ensures Surplus(Apply(s, Work(pid, OpAck)), k) <= Surplus(s, k)
  {
    HowManyAfterStop(s.procs, pid, Routed(k));
    HowManyAfterStop(s.procs, pid, Over(k));
    RemoveCopies(s.redis, Reserved(ChannelQueue(j)), j, Dispatch, k);
    RemoveCopies(s.redis, Reserved(ChannelQueue(j)), j, ChannelQueue(k), k);
  }

  // A dispatcher carries a job over to the channel: the copy only changes place.
  lemma CopyMoves(s: State, pid: nat, j: Job) returns (e: State)
    requires pid in s.procs && s.procs[pid] == Dispatcher(j, ToRoute) && j in Items(s.redis, Reserved(Dispatch))
    requires HowMany(s.procs, Routed(j)) == 0
    ensures e == RunFrom(s, [Route(pid, OpRoute), Route(pid, OpAckRouted)])
    ensures e.db == s.db && Left(e.redis, j.attempt) < Left(s.redis, j.attempt)
    ensures forall k :: Surplus(e, k) <= Surplus(s, k)
  {
    var route, ack, target := Route(pid, OpRoute), Route(pid, OpAckRouted), Ready(ChannelQueue(j));
    var s1 := Apply(s, route);
    e := Apply(s1, ack);
    RunOne(s1, ack);
    RunCons(s, route, [ack]);
    assert [route] + [ack] == [route, ack];
    assert s1.redis == PushRight(s.redis, target, j) && Items(s1.redis, Reserved(Dispatch)) == Items(s.redis, Reserved(Dispatch));
    SourceCopyGoes(s1, pid, j);
    RemoveSize(s1.redis, Reserved(Dispatch), j, Dispatch);
    RemoveSize(s1.redis, Reserved(Dispatch), j, ChannelQueue(j));
    forall k ensures Surplus(e, k) <= Surplus(s, k) {
      if k == j { MovedSurplus(s, pid, j); } else { OtherSurplus(s, pid, j, k); }
    }
  }

  lemma MovedSurplus(s: State, pid: nat, j: Job)
    requires pid in s.procs && s.procs[pid] == Dispatcher(j, ToRoute) && j in Items(s.redis, Reserved(Dispatch))
    requires HowMany(s.procs, Routed(j)) == 0
    ensures Surplus(Apply(Apply(s, Route(pid, OpRoute)), Route(pid, OpAckRouted)), j) <= Surplus(s, j)
  {
    var s1, target := Apply(s, Route(pid, OpRoute)), Ready(ChannelQueue(j));
    HowManyAfterUpdate(s.procs, pid, Routed(j), Routed(j));
    HowManyAfterUpdate(s.procs, pid, Routed(j), Over(j));
    PushCopies(s.redis, target, j, false, Dispatch, j);
    PushCopies(s.redis, target, j, false, ChannelQueue(j), j);
    assert Items(s1.redis, Reserved(Dispatch)) == Items(s.redis, Reserved(Dispatch));
    AckedCounts(s1, pid, j);
  }

  lemma AckedCounts(s: State, pid: nat, j: Job)
    requires pid in s.procs && s.procs[pid] == Routed(j) && j in Items(s.redis, Reserved(Dispatch))
    ensures var e := Apply(s, Route(pid, OpAckRouted));
      && Copies(e.redis, Dispatch, j) == Copies(s.redis, Dispatch, j) - 1
      && Copies(e.redis, ChannelQueue(j), j) == Copies(s.redis, ChannelQueue(j), j)
      && HowMany(e.procs, Routed(j)) == HowMany(s.procs, Routed(j)) - 1 && HowMany(e.procs, Over(j)) == HowMany(s.procs, Over(j))
  {
    HowManyAfterStop(s.procs, pid, Routed(j));
    HowManyAfterStop(s.procs, pid, Over(j));
    RemoveCopies(s.redis, Reserved(Dispatch), j, Dispatch, j);
    RemoveCopies(s.redis, Reserved(Dispatch), j, ChannelQueue(j), j);
  }

  lemma OtherSurplus(s: State, pid: nat, j: Job, k: Job)
    requires pid in s.procs && s.procs[pid] == Dispatcher(j, ToRoute) && j in Items(s.redis, Reserved(Dispatch)) && k != j
    ensures Surplus(Apply(Apply(s, Route(pid, OpRoute)), Route(pid, OpAckRouted)), k) <= Surplus(s, k)
  {
    var s1, target := Apply(s, Route(pid, OpRoute)), Ready(ChannelQueue(j));
    HowManyAfterUpdate(s.procs, pid, Routed(j), Routed(k));
    HowManyAfterUpdate(s.procs, pid, Routed(j), Over(k));
    PushCopies(s.redis, target, j, false, Dispatch, k);
    PushCopies(s.redis, target, j, false, ChannelQueue(k), k);
    assert Items(s1.redis, Reserved(Dispatch)) == Items(s.redis, Reserved(Dispatch));
    SourceSurplus(s1, pid, j, k);
  }

  // ------------------------------------------------------- the whole schedule

  lemma DoomedJob(s: State, a: AttemptId) returns (j: Job)
    requires Doomed(s, a) && HasJob(s.redis, a)
    ensures j.attempt == a && (Copies(s.redis, Dispatch, j) > 0 || Copies(s.redis, ChannelQueue(j), j) > 0)
  {
    var l :| Holds(s.redis, l, a);
    j :| j in Items(s.redis, l) && j.attempt == a;
    assert InPlace(s, l, j);
    CountMember(Items(s.redis, l), j);
  }

  // One job of the attempt comes closer to its end.
  lemma OneLess(s: State, a: AttemptId) returns (more: seq<Action>)
    requires Doomed(s, a) && HasJob(s.redis, a)
    ensures Clean(more) && Doomed(RunFrom(s, more), a) && Left(RunFrom(s, more).redis, a) < Left(s.redis, a)
  {
    var j := DoomedJob(s, a);
    if Copies(s.redis, Dispatch, j) > 0 {
      more := OneLessInDispatch(s, j);
    } else {
      more := OneLessInChannel(s, j);
    }
  }

  lemma FetchedDoomed(s: State, q: QueueName, j: Job) returns (more: seq<Action>, pid: nat, e: State)
    requires Doomed(s, j.attempt) && Copies(s.redis, q, j) > 0
    ensures Clean(more) && e == RunFrom(s, more) && Doomed(e, j.attempt) && Rearranged(s, e)
    ensures pid in e.procs && e.procs[pid] == Taker(q, j) && j in Items(e.redis, Reserved(q))
    ensures Left(e.redis, j.attempt) == Left(s.redis, j.attempt)
    ensures HowMany(e.procs, Routed(j)) == HowMany(s.procs, Routed(j)) && HowMany(e.procs, Over(j)) == HowMany(s.procs, Over(j))
  {
    more, pid := FetchJob(s, q, j);
    e := RunFrom(s, more);
    RearrangedDoomed(s, more, j.attempt);
    RearrangedSurplus(s, e, j);
  }

  lemma FinishDoomed(s: State, more: seq<Action>, act: seq<Action>, a: AttemptId)
    requires Clean(more) && Clean(act) && Doomed(RunFrom(s, more), a)
    requires RunFrom(RunFrom(s, more), act).db == RunFrom(s, more).db
    requires forall k :: Surplus(RunFrom(RunFrom(s, more), act), k) <= Surplus(RunFrom(s, more), k)
    ensures Clean(more + act) && Doomed(RunFrom(s, more + act), a)
    ensures RunFrom(s, more + act) == RunFrom(RunFrom(s, more), act)
  {
    RunConcat(s, more, act);
    JobsRun(RunFrom(s, more), act);
    CleanConcat(more, act);
  }

  lemma OneLessInDispatch(s: State, j: Job) returns (more: seq<Action>)
    requires Doomed(s, j.attempt) && Copies(s.redis, Dispatch, j) > 0
    ensures Clean(more) && Doomed(RunFrom(s, more), j.attempt)
    ensures Left(RunFrom(s, more).redis, j.attempt) < Left(s.redis, j.attempt)
  {
    var fetch, pid, e := FetchedDoomed(s, Dispatch, j);
    if HowMany(e.procs, Routed(j)) > 0 {
      var p := CallExists(e.procs, Routed(j));
      SourceCopyGoes(e, p, j);
      RunOne(e, Route(p, OpAckRouted));
      FinishDoomed(s, fetch, [Route(p, OpAckRouted)], j.attempt);
      more := fetch + [Route(p, OpAckRouted)];
    } else {
      var end := CopyMoves(e, pid, j);
      FinishDoomed(s, fetch, [Route(pid, OpRoute), Route(pid, OpAckRouted)], j.attempt);
      more := fetch + [Route(pid, OpRoute), Route(pid, OpAckRouted)];
    }
  }

  lemma OneLessInChannel(s: State, j: Job) returns (more: seq<Action>)
    requires Doomed(s, j.attempt) && Copies(s.redis, Dispatch, j) == 0 && Copies(s.redis, ChannelQueue(j), j) > 0
    ensures Clean(more) && Doomed(RunFrom(s, more), j.attempt)
    ensures Left(RunFrom(s, more).redis, j.attempt) < Left(s.redis, j.attempt)
  {
    assert Surplus(s, j) <= 0;
    var fetch, pid, e := FetchedDoomed(s, ChannelQueue(j), j);
    var p := CallExists(e.procs, Over(j));
    ChannelCopyGoes(e, p, j);
    RunOne(e, Work(p, OpAck));
    FinishDoomed(s, fetch, [Work(p, OpAck)], j.attempt);
    more := fetch + [Work(p, OpAck)];
  }

  // Every job of a doomed attempt can be taken out by steps already due.
  lemma {:induction false} DoomedIsLost(s: State, a: AttemptId) returns (more: seq<Action>)
    requires Doomed(s, a)
    ensures Clean(more) && IsPending(RunFrom(s, more).db, a) && !Accounted(RunFrom(s, more), a)
    decreases Left(s.redis, a)
  {
    more := [];
    if HasJob(s.redis, a) {
      more := OneLess(s, a);
      var rest := DoomedIsLost(RunFrom(s, more), a);
      RunConcat(s, more, rest);
      CleanConcat(more, rest);
      more := more + rest;
    }
  }

  // A publisher that has pushed its job closes the intent.
  lemma CloseIntent(s: State, pid: nat, a: AttemptId) returns (e: State)
    requires AllOk(s) && IsPending(s.db, a) && pid in s.procs && Closing(s, s.procs[pid], a) && !Carried(s, a)
    ensures e == Apply(s, Publish(pid, OpMark)) && Doomed(e, a)
  {
    e := Apply(s, Publish(pid, OpMark));
    JobsStep(s, Publish(pid, OpMark));
    RowsStep(s, Publish(pid, OpMark), a);
    assert a in e.db.outbox && e.db.outbox[a].status == Published;
    forall j: Job | j.attempt == a ensures Surplus(e, j) <= 0 { CloseSurplus(s, pid, j); }
  }

  lemma CloseSurplus(s: State, pid: nat, j: Job)
    requires pid in s.procs && s.procs[pid].Publisher?
    ensures Surplus(PublishStep(s, pid, OpMark), j) == Surplus(s, j)
  {
    var s' := PublishStep(s, pid, OpMark);
    if pid in s'.procs {
      HowManyAfterUpdate(s.procs, pid, s'.procs[pid], Routed(j));
      HowManyAfterUpdate(s.procs, pid, s'.procs[pid], Over(j));
      assert s'.procs == s.procs[pid := s'.procs[pid]] && s'.procs[pid].Publisher?;
    } else {
      HowManyAfterStop(s.procs, pid, Routed(j));
      HowManyAfterStop(s.procs, pid, Over(j));
    }
  }

  lemma UnsafeIsLost(s: State, a: AttemptId) returns (more: seq<Action>)
    requires AllOk(s) && IsPending(s.db, a) && !Safe(s, a)
    ensures Clean(more) && IsPending(RunFrom(s, more).db, a) && !Accounted(RunFrom(s, more), a)
  {
    if HasOpenIntent(s.db, a) {
      var pid :| pid in s.procs && Closing(s, s.procs[pid], a);
      var e := CloseIntent(s, pid, a);
      more := DoomedIsLost(e, a);
      RunCons(s, Publish(pid, OpMark), more);
      more := [Publish(pid, OpMark)] + more;
    } else {
      more := DoomedIsLost(s, a);
    }
  }

  // However the run goes on without another drop of the attempt, it stays
  // accounted for as long as it is pending.
  ghost predicate NeverLost(s: State, a: AttemptId) {
    forall more :: DropFree(s, more, a) && IsPending(RunFrom(s, more).db, a) ==> Accounted(RunFrom(s, more), a)
  }

  // In every reachable state, whatever was dropped before, pending work stays
  // accounted for in all continuations exactly if it is safe.
  lemma NeverLostIff(acts: seq<Action>, a: AttemptId)
    requires IsPending(Exec(acts).db, a)
    ensures NeverLost(Exec(acts), a) <==> Safe(Exec(acts), a)
  {
    AllAlways(acts);
    SafeIffNeverLost(Exec(acts), a);
  }

  lemma SafeIffNeverLost(s: State, a: AttemptId)
    requires AllOk(s) && IsPending(s.db, a)
    ensures NeverLost(s, a) <==> Safe(s, a)
  {
    if Safe(s, a) {
      forall more | DropFree(s, more, a) && IsPending(RunFrom(s, more).db, a) ensures Accounted(RunFrom(s, more), a) {
        SafeForever(s, more, a);
        SafeIsAccounted(RunFrom(s, more), a);
      }
    } else {
      var more := UnsafeIsLost(s, a);
      CleanIsDropFree(s, more, a);
    }
  }

  // ----------------------------------------------- an acknowledged store error

  // What will still carry the attempt when the job `j` is acknowledged too.
  ghost predicate Spared(s: State, j: Job) {
    Queued(s, j.attempt) || exists k: Job :: k.attempt == j.attempt && Surplus(s, k) > if k == j then 1 else 0
  }

  // The service acknowledges a job even when activating its attempt failed in
  // the store. From there on the attempt is beyond being lost, whatever other
  // processes do before, between and after, exactly if it had an intent that no
  // publisher was about to close, or a job beyond this one and beyond those that
  // calls under way were about to acknowledge.
  lemma StoreErrorLoses(acts: seq<Action>, pid: nat)
    requires var s := Exec(acts);
      pid in s.procs && s.procs[pid].Worker? && s.procs[pid].work == ToActivate
      && IsPending(s.db, s.procs[pid].job.attempt)
    ensures var s := Exec(acts);
      var j := s.procs[pid].job;
      NeverLost(Apply(s, Work(pid, OpStoreError)), j.attempt) <==> Spared(s, j)
  {
    AllAlways(acts);
    var s := Exec(acts);
    var j, e := s.procs[pid].job, Apply(s, Work(pid, OpStoreError));
    AllStep(s, Work(pid, OpStoreError));
    SafeIffNeverLost(e, j.attempt);
    ErrorSafe(s, pid);
  }

  lemma ErrorSafe(s: State, pid: nat)
    requires AllOk(s) && pid in s.procs && s.procs[pid].Worker? && s.procs[pid].work == ToActivate
    ensures var j, e := s.procs[pid].job, Apply(s, Work(pid, OpStoreError));
      Safe(e, j.attempt) <==> Spared(s, j)
  {
    var j, e := s.procs[pid].job, Apply(s, Work(pid, OpStoreError));
    var a := j.attempt;
    assert ProcMarked(s, s.procs[pid]) && AttemptMarked(s, a) && CarriesOk(s, s.procs[pid]);
    assert !Deferred(s.db, a);
    forall k: Job ensures Surplus(e, k) == Surplus(s, k) - if k == j then 1 else 0 { ErrorSurplus(s, pid, k); }
    ErrorQueued(s, pid, a);
  }

  lemma ErrorQueued(s: State, pid: nat, a: AttemptId)
    requires pid in s.procs && s.procs[pid].Worker? && s.procs[pid].work == ToActivate
    ensures Queued(Apply(s, Work(pid, OpStoreError)), a) <==> Queued(s, a)
  {
    var e := Apply(s, Work(pid, OpStoreError));
    assert e.db == s.db && e.procs == s.procs[pid := s.procs[pid].(work := ToFinish)];
    assert forall p :: p in s.procs ==> (Closing(e, e.procs[p], a) <==> Closing(s, s.procs[p], a));
  }

  lemma ErrorSurplus(s: State, pid: nat, k: Job)
    requires JobsOk(s) && pid in s.procs && s.procs[pid].Worker? && s.procs[pid].work == ToActivate
    ensures Surplus(Apply(s, Work(pid, OpStoreError)), k) == Surplus(s, k) - if k == s.procs[pid].job then 1 else 0
  {
    var j := s.procs[pid].job;
    assert CarriesOk(s, s.procs[pid]);
    HowManyAfterUpdate(s.procs, pid, Over(j), Routed(k));
    HowManyAfterUpdate(s.procs, pid, Over(j), Over(k));
  }
}
