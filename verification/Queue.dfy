// The Redis queue client over the lists it works on: one method per call of the
// client, and what their order means for the jobs.
module Queue {
  import opened Wrappers
  import opened Transport

  // What a push reports back. A failed push may still have been applied, when
  // only the reply was lost.
  datatype SendResult = Sent | SendFailed(applied: bool)

  class RedisQueue {
    var lists: Redis

    constructor ()
      ensures lists == map[]
    {
      lists := map[];
    }

    // RPUSH. The job is on the list, and next in turn, unless the push had no
    // effect; either way no other list changes.
    method Enqueue(queue: QueueName, j: Job, result: SendResult)
      modifies this
      ensures result == SendFailed(false) ==> lists == old(lists)
      ensures result != SendFailed(false) ==> lists == PushRight(old(lists), Ready(queue), j)
      ensures result != SendFailed(false) ==> HasJob(lists, j.attempt) && Last(Items(lists, Ready(queue))) == j
      ensures forall q, k ::
        Copies(lists, q, k) == old(Copies(lists, q, k)) + if result != SendFailed(false) && q == queue && k == j then 1 else 0
      ensures forall l :: l != Ready(queue) ==> Items(lists, l) == old(Items(lists, l))
    {
      if result.Sent? || result.applied {
        var list := Ready(queue);
        var waiting := if list in lists then lists[list] else [];
        lists := lists[list := waiting + [j]];
        EnqueuedJob(old(lists), queue, j);
      }
    }

    // BRPOPLPUSH; None when the wait timed out.
    method Reserve(queue: QueueName) returns (job: Option<Job>)
      modifies this
      ensures job.None? <==> old(Items(lists, Ready(queue))) == []
      ensures job.Some? ==> job.value == Last(old(Items(lists, Ready(queue))))
      ensures lists == PopPush(old(lists), Ready(queue), Reserved(queue))
    {
      if Items(lists, Ready(queue)) == [] {
        return None;
      }
      job := Some(Last(Items(lists, Ready(queue))));
      lists := PopPush(lists, Ready(queue), Reserved(queue));
    }

    // LREM. One copy of the payload goes, the first from the left, if there is one.
    method AckReserved(queue: QueueName, j: Job) returns (found: bool)
      modifies this
      ensures lists == Remove(old(lists), Reserved(queue), j)
      ensures found <==> j in old(Items(lists, Reserved(queue)))
      ensures forall q, k :: Copies(lists, q, k) == old(Copies(lists, q, k)) - if found && q == queue && k == j then 1 else 0
      ensures forall l :: l != Reserved(queue) ==> Items(lists, l) == old(Items(lists, l))
    {
      found := j in Items(lists, Reserved(queue));
      lists := Remove(lists, Reserved(queue), j);
      forall q, k ensures Copies(lists, q, k) == old(Copies(lists, q, k)) - if found && q == queue && k == j then 1 else 0 {
        RemoveCopies(old(lists), Reserved(queue), j, q, k);
      }
    }

    // LREM and LPUSH in one transaction. The push is applied even when the
    // payload was no longer reserved, and then adds a copy; no attempt is left
    // without the jobs it had.
    method RequeueReserved(queue: QueueName, j: Job) returns (found: bool)
      modifies this
      ensures lists == Requeue(old(lists), queue, j)
      ensures found <==> j in old(Items(lists, Reserved(queue)))
      ensures Items(lists, Ready(queue)) == [j] + old(Items(lists, Ready(queue)))
      ensures forall q, k :: Copies(lists, q, k) == old(Copies(lists, q, k)) + if !found && q == queue && k == j then 1 else 0
      ensures forall a :: old(HasJob(lists, a)) ==> HasJob(lists, a)
    {
      var before := lists;
      found := AckReserved(queue, j);
      var removed := lists;
      var list := Ready(queue);
      var waiting := if list in lists then lists[list] else [];
      lists := lists[list := [j] + waiting];
      assert lists == PushLeft(removed, list, j);
      RequeuedJobs(before, queue, j);
    }

    // RPOPLPUSH until the processing list is empty.
    method RecoverProcessingQueue(queue: QueueName) returns (recovered: nat)
      modifies this
      ensures recovered == |old(Items(lists, Reserved(queue)))|
      ensures Items(lists, Reserved(queue)) == []
      ensures Items(lists, Ready(queue)) == old(Items(lists, Reserved(queue)) + Items(lists, Ready(queue)))
      ensures forall l: ListName :: l.queue != queue ==> Items(lists, l) == old(Items(lists, l))
    {
      recovered := 0;
      ghost var ready, front, moved := Items(lists, Ready(queue)), Items(lists, Reserved(queue)), [];
      NothingMoved(front, ready);
      while Items(lists, Reserved(queue)) != []
        invariant Midway(lists, queue, front, moved, ready) && recovered == |moved|
        invariant front + moved == old(Items(lists, Reserved(queue)))
        invariant forall l: ListName :: l.queue != queue ==> Items(lists, l) == old(Items(lists, l))
        decreases |front|
      {
        RecoverOne(lists, queue, front, moved, ready);
        lists := PopPush(lists, Reserved(queue), Ready(queue));
        front, moved := front[..|front| - 1], [Last(front)] + moved;
        recovered := recovered + 1;
      }
      NothingLeft(front, moved);
    }
  }

  // A recovery in progress: `front` is still reserved, `moved` is back.
  predicate Midway(r: Redis, queue: QueueName, front: seq<Job>, moved: seq<Job>, ready: seq<Job>) {
    Items(r, Reserved(queue)) == front && Items(r, Ready(queue)) == moved + ready
  }

  lemma NothingMoved(front: seq<Job>, ready: seq<Job>)
    ensures front + [] == front && [] + ready == ready
  {
  }

  lemma NothingLeft(front: seq<Job>, moved: seq<Job>)
    requires front == []
    ensures front + moved == moved
  {
  }

  // One more job back in front of those that wait.
  lemma RecoverOne(r: Redis, queue: QueueName, front: seq<Job>, moved: seq<Job>, ready: seq<Job>)
    requires Midway(r, queue, front, moved, ready) && front != []
    ensures var rest, moved' := front[..|front| - 1], [Last(front)] + moved;
      && Midway(PopPush(r, Reserved(queue), Ready(queue)), queue, rest, moved', ready)
      && rest + moved' == front + moved
    ensures forall l: ListName :: l.queue != queue ==> Items(PopPush(r, Reserved(queue), Ready(queue)), l) == Items(r, l)
  {
    PopPushLists(r, Reserved(queue), Ready(queue));
    Prepend(Last(front), moved, ready);
    Regroup(front, moved);
  }

  lemma Regroup(front: seq<Job>, moved: seq<Job>)
    requires front != []
    ensures front[..|front| - 1] + ([Last(front)] + moved) == front + moved
  {
  }

  lemma Prepend(j: Job, s: seq<Job>, t: seq<Job>)
    ensures [j] + (s + t) == ([j] + s) + t
  {
  }

  lemma EnqueuedJob(r: Redis, queue: QueueName, j: Job)
    ensures var r' := PushRight(r, Ready(queue), j);
      && HasJob(r', j.attempt)
      && forall q, k :: Copies(r', q, k) == Copies(r, q, k) + if q == queue && k == j then 1 else 0
  {
    var r' := PushRight(r, Ready(queue), j);
    PushKeeps(r, Ready(queue), j, false, Ready(queue), j.attempt);
    forall q, k ensures Copies(r', q, k) == Copies(r, q, k) + if q == queue && k == j then 1 else 0 {
      PushCopies(r, Ready(queue), j, false, q, k);
    }
  }

  lemma RequeuedJobs(r: Redis, queue: QueueName, j: Job)
    ensures var r', found := Requeue(r, queue, j), j in Items(r, Reserved(queue));
      && (forall q, k :: Copies(r', q, k) == Copies(r, q, k) + if !found && q == queue && k == j then 1 else 0)
      && (forall a :: HasJob(r, a) ==> HasJob(r', a))
  {
    var r' := Requeue(r, queue, j);
    forall q, k ensures Copies(r', q, k) == Copies(r, q, k) + if j !in Items(r, Reserved(queue)) && q == queue && k == j then 1 else 0 {
      RemoveCopies(r, Reserved(queue), j, q, k);
      PushCopies(Remove(r, Reserved(queue), j), Ready(queue), j, true, q, k);
    }
    forall a | HasJob(r, a) ensures HasJob(r', a) { RequeueJobs(r, queue, j, a); }
  }

  lemma PopPushLists(r: Redis, from: ListName, to: ListName)
    requires from != to && Items(r, from) != []
    ensures var r' := PopPush(r, from, to);
      && Items(r', from) == Items(r, from)[..|Items(r, from)| - 1]
      && Items(r', to) == [Last(Items(r, from))] + Items(r, to)
      && forall l :: l != from && l != to ==> Items(r', l) == Items(r, l)
  {
  }

  // -------------------------------------------------------------- the order

  // Jobs are pushed and popped on the same side: the newest goes first.
  lemma NewestFirst(r: Redis, queue: QueueName, j: Job)
    ensures var pushed := PushRight(r, Ready(queue), j);
      && Last(Items(pushed, Ready(queue))) == j
      && Items(PopPush(pushed, Ready(queue), Reserved(queue)), Ready(queue)) == Items(r, Ready(queue))
  {
    SnocFront(Items(r, Ready(queue)), j);
    PopPushLists(PushRight(r, Ready(queue), j), Ready(queue), Reserved(queue));
  }

  lemma SnocFront(s: seq<Job>, j: Job)
    ensures (s + [j])[..|s + [j]| - 1] == s
  {
  }

  // Acknowledging what was just reserved takes out that copy and no other: the
  // queue is as if the job had never been on it.
  lemma AckAfterReserve(r: Redis, queue: QueueName, s: seq<Job>, j: Job)
    requires Items(r, Ready(queue)) == s + [j]
    ensures var acked := Remove(PopPush(r, Ready(queue), Reserved(queue)), Reserved(queue), j);
      && Items(acked, Ready(queue)) == s && Items(acked, Reserved(queue)) == Items(r, Reserved(queue))
      && forall l: ListName :: l.queue != queue ==> Items(acked, l) == Items(r, l)
  {
    ReserveOne(r, queue, s, j);
  }

  // Giving it back leaves nothing reserved and puts it behind all that wait.
  lemma RequeueAfterReserve(r: Redis, queue: QueueName, s: seq<Job>, j: Job)
    requires Items(r, Ready(queue)) == s + [j]
    ensures var back := Requeue(PopPush(r, Ready(queue), Reserved(queue)), queue, j);
      && Items(back, Ready(queue)) == [j] + s && Items(back, Reserved(queue)) == Items(r, Reserved(queue))
      && forall l: ListName :: l.queue != queue ==> Items(back, l) == Items(r, l)
  {
    AckAfterReserve(r, queue, s, j);
  }

  function ReserveMany(r: Redis, queue: QueueName, n: nat): Redis {
    if n == 0 then r else PopPush(ReserveMany(r, queue, n - 1), Ready(queue), Reserved(queue))
  }

  lemma ReserveOne(r: Redis, queue: QueueName, a: seq<Job>, j: Job)
    requires Items(r, Ready(queue)) == a + [j]
    ensures var r' := PopPush(r, Ready(queue), Reserved(queue));
      Items(r', Ready(queue)) == a && Items(r', Reserved(queue)) == [j] + Items(r, Reserved(queue))
  {
    PopPushLists(r, Ready(queue), Reserved(queue));
    SnocFront(a, j);
  }

  lemma Shift(a: seq<Job>, b: seq<Job>, c: seq<Job>)
    requires b != []
    ensures a + b == (a + [b[0]]) + b[1..]
    ensures [b[0]] + (b[1..] + c) == b + c
  {
  }

  // Reserving moves the end of the list, in order.
  lemma {:induction false} ReservedSuffix(r: Redis, queue: QueueName, a: seq<Job>, b: seq<Job>)
    requires Items(r, Ready(queue)) == a + b
    ensures var r' := ReserveMany(r, queue, |b|);
      Items(r', Ready(queue)) == a && Items(r', Reserved(queue)) == b + Items(r, Reserved(queue))
    decreases |b|
  {
    if b == [] {
      Empty(a, Items(r, Reserved(queue)));
    } else {
      Shift(a, b, Items(r, Reserved(queue)));
      ReservedSuffix(r, queue, a + [b[0]], b[1..]);
      ReserveOne(ReserveMany(r, queue, |b| - 1), queue, a, b[0]);
    }
  }

  lemma Empty(a: seq<Job>, c: seq<Job>)
    ensures a + [] == a && [] + c == c
  {
  }

  // What a recovery sweep makes of it after every consumer crashed: nothing is
  // lost or copied, but the list is rotated, and what had been reserved is now
  // served last.
  lemma RecoveryRotates(r: Redis, queue: QueueName, a: seq<Job>, b: seq<Job>)
    requires Items(r, Ready(queue)) == a + b && Items(r, Reserved(queue)) == []
    ensures var r' := ReserveMany(r, queue, |b|);
      var recovered := Items(r', Reserved(queue)) + Items(r', Ready(queue));
      recovered == b + a && multiset(recovered) == multiset(Items(r, Ready(queue)))
  {
    ReservedSuffix(r, queue, a, b);
    assert b + [] == b;
  }
}
