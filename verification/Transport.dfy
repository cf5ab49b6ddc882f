// The six Redis lists of the transport, as values: a shared dispatch list, one
// list per channel, and a processing twin for each. Redis treats a missing key
// as an empty list.
module Transport {
  import opened Rows

  datatype QueueName = Dispatch | WorkQueue(channel: Channel)

  datatype ListName = Ready(queue: QueueName) | Reserved(queue: QueueName)

  // `serial` stands for the generated job id and timestamp of the payload.
  datatype Job = Job(serial: nat, attempt: AttemptId)

  type Redis = map<ListName, seq<Job>>

  function ChannelQueue(j: Job): QueueName {
    WorkQueue(KeyOf(j.attempt).channel)
  }

  function Items(r: Redis, l: ListName): seq<Job> {
    if l in r then r[l] else []
  }

  // RPUSH
  function PushRight(r: Redis, l: ListName, j: Job): Redis {
    r[l := Items(r, l) + [j]]
  }

  // LPUSH
  function PushLeft(r: Redis, l: ListName, j: Job): Redis {
    r[l := [j] + Items(r, l)]
  }

  function Last(s: seq<Job>): Job
    requires s != []
  {
    s[|s| - 1]
  }

  // RPOPLPUSH and, when something is there to pop, BRPOPLPUSH
  function PopPush(r: Redis, from: ListName, to: ListName): Redis {
    if Items(r, from) == [] then r
    else
      var s := Items(r, from);
      PushLeft(r[from := s[..|s| - 1]], to, Last(s))
  }

  // LREM key 1 payload
  function RemoveFirst(s: seq<Job>, j: Job): (t: seq<Job>)
    ensures forall k :: k in t ==> k in s
    ensures forall k :: k in s && k != j ==> k in t
  {
    if s == [] then []
    else if s[0] == j then s[1..]
    else [s[0]] + RemoveFirst(s[1..], j)
  }

  function Remove(r: Redis, l: ListName, j: Job): Redis {
    r[l := RemoveFirst(Items(r, l), j)]
  }

  // MULTI; LREM reserved; LPUSH ready; EXEC
  function Requeue(r: Redis, queue: QueueName, j: Job): Redis {
    PushLeft(Remove(r, Reserved(queue), j), Ready(queue), j)
  }

  ghost predicate Holds(r: Redis, l: ListName, a: AttemptId) {
    exists j :: j in Items(r, l) && j.attempt == a
  }

  // Some list carries a job for the attempt.
  ghost predicate HasJob(r: Redis, a: AttemptId) {
    exists l :: Holds(r, l, a)
  }

  // One of the two lists of the attempt's own channel carries a job for it.
  ghost predicate HasChannelJob(r: Redis, a: AttemptId) {
    var queue := WorkQueue(KeyOf(a).channel);
    Holds(r, Ready(queue), a) || Holds(r, Reserved(queue), a)
  }

  // ------------------------------------------------ what commands keep

  lemma PushKeeps(r: Redis, l: ListName, j: Job, left: bool, m: ListName, a: AttemptId)
    ensures var r' := if left then PushLeft(r, l, j) else PushRight(r, l, j);
      && Holds(r', l, j.attempt)
      && (Holds(r', m, a) <==> Holds(r, m, a) || (m == l && a == j.attempt))
  {
    var r' := if left then PushLeft(r, l, j) else PushRight(r, l, j);
    assert j in Items(r', l);
    if Holds(r, m, a) {
      var k :| k in Items(r, m) && k.attempt == a;
      assert k in Items(r', m);
    }
  }

  lemma RemoveKeeps(r: Redis, l: ListName, j: Job, m: ListName, a: AttemptId)
    ensures Holds(Remove(r, l, j), m, a) ==> Holds(r, m, a)
    ensures (m != l || a != j.attempt) && Holds(r, m, a) ==> Holds(Remove(r, l, j), m, a)
  {
    var r' := Remove(r, l, j);
    assert Items(r', m) == if m == l then RemoveFirst(Items(r, l), j) else Items(r, m);
    if (m != l || a != j.attempt) && Holds(r, m, a) {
      var k :| k in Items(r, m) && k.attempt == a;
      assert k in Items(r', m);
    }
    if Holds(r', m, a) {
      var k :| k in Items(r', m) && k.attempt == a;
      assert k in Items(r, m);
    }
  }

  // A move keeps every attempt in one of the two lists it touches, and leaves
  // the other lists alone.
  lemma PopPushKeeps(r: Redis, from: ListName, to: ListName, m: ListName, a: AttemptId)
    requires from != to
    ensures var r' := PopPush(r, from, to);
      && (m != from && m != to ==> (Holds(r', m, a) <==> Holds(r, m, a)))
      && (Holds(r', from, a) || Holds(r', to, a) <==> Holds(r, from, a) || Holds(r, to, a))
      && (Holds(r, to, a) ==> Holds(r', to, a))
  {
    var r' := PopPush(r, from, to);
    var s := Items(r, from);
    if s != [] {
      assert s == s[..|s| - 1] + [Last(s)];
      forall k | k in s ensures k in Items(r', from) || k in Items(r', to) {
      }
      if Holds(r, from, a) {
        var k :| k in s && k.attempt == a;
        assert k in Items(r', from) || k in Items(r', to);
      }
      if Holds(r, to, a) {
        var k :| k in Items(r, to) && k.attempt == a;
        assert k in Items(r', to);
      }
      if m != from && m != to {
        assert Items(r', m) == Items(r, m);
      }
      if Holds(r', from, a) {
        var k :| k in Items(r', from) && k.attempt == a;
        assert k in s;
      } else if Holds(r', to, a) {
        var k :| k in Items(r', to) && k.attempt == a;
        assert k == Last(s) || k in Items(r, to);
      }
    }
  }

  // ------------------------------------- the same, for the transport as a whole

  lemma PushJobs(r: Redis, r': Redis, l: ListName, j: Job, a: AttemptId)
    requires r' == PushLeft(r, l, j) || r' == PushRight(r, l, j)
    ensures HasJob(r', a) <==> HasJob(r, a) || a == j.attempt
    ensures HasChannelJob(r, a) ==> HasChannelJob(r', a)
    ensures l == Ready(ChannelQueue(j)) && a == j.attempt ==> HasChannelJob(r', a)
  {
    forall m ensures Holds(r', m, a) <==> Holds(r, m, a) || (m == l && a == j.attempt) {
      PushKeeps(r, l, j, r' == PushLeft(r, l, j), m, a);
    }
    assert a == j.attempt ==> Holds(r', l, a);
  }

  lemma RemoveJobs(r: Redis, l: ListName, j: Job, a: AttemptId)
    ensures HasJob(Remove(r, l, j), a) ==> HasJob(r, a)
    ensures a != j.attempt && HasJob(r, a) ==> HasJob(Remove(r, l, j), a)
    ensures (a != j.attempt || l.queue == Dispatch) && HasChannelJob(r, a) ==>
      HasChannelJob(Remove(r, l, j), a) && HasJob(Remove(r, l, j), a)
  {
    forall m ensures Holds(Remove(r, l, j), m, a) ==> Holds(r, m, a) {
      RemoveKeeps(r, l, j, m, a);
    }
    forall m ensures (m != l || a != j.attempt) && Holds(r, m, a) ==> Holds(Remove(r, l, j), m, a) {
      RemoveKeeps(r, l, j, m, a);
    }
  }

  lemma PopPushJobs(r: Redis, from: ListName, to: ListName, a: AttemptId)
    requires from != to && from.queue == to.queue
    ensures HasJob(PopPush(r, from, to), a) <==> HasJob(r, a)
    ensures HasChannelJob(PopPush(r, from, to), a) <==> HasChannelJob(r, a)
  {
    var r' := PopPush(r, from, to);
    PopPushKeeps(r, from, to, from, a);
    var ready, reserved := Ready(WorkQueue(KeyOf(a).channel)), Reserved(WorkQueue(KeyOf(a).channel));
    PopPushKeeps(r, from, to, ready, a);
    PopPushKeeps(r, from, to, reserved, a);
    assert {from, to} == {ready, reserved} || (from !in {ready, reserved} && to !in {ready, reserved});
    if HasJob(r, a) {
      var m :| Holds(r, m, a);
      PopPushKeeps(r, from, to, m, a);
    }
    if HasJob(r', a) {
      var m :| Holds(r', m, a);
      PopPushKeeps(r, from, to, m, a);
    }
  }

  lemma PoppedJob(r: Redis, from: ListName)
    requires Items(r, from) != []
    ensures Holds(r, from, Last(Items(r, from)).attempt)
  {
    assert Last(Items(r, from)) in Items(r, from);
  }

  lemma RequeueJobs(r: Redis, queue: QueueName, j: Job, a: AttemptId)
    ensures HasJob(r, a) ==> HasJob(Requeue(r, queue, j), a)
    ensures HasJob(Requeue(r, queue, j), a) ==> HasJob(r, a) || a == j.attempt
    ensures queue == Dispatch && HasChannelJob(r, a) ==> HasChannelJob(Requeue(r, queue, j), a)
  {
    var r1 := Remove(r, Reserved(queue), j);
    RemoveJobs(r, Reserved(queue), j, a);
    PushJobs(r1, PushLeft(r1, Ready(queue), j), Ready(queue), j, a);
  }

  // ---------------------------------------------------------------- copies

  function Count(s: seq<Job>, j: Job): nat {
    if s == [] then 0 else Count(s[1..], j) + if s[0] == j then 1 else 0
  }

  lemma {:induction false} CountAppend(s: seq<Job>, t: seq<Job>, j: Job)
    ensures Count(s + t, j) == Count(s, j) + Count(t, j)
  {
    if s == [] {
      assert s + t == t;
    } else {
      assert (s + t)[1..] == s[1..] + t;
      CountAppend(s[1..], t, j);
    }
  }

  lemma CountOne(j: Job, k: Job)
    ensures Count([j], k) == if j == k then 1 else 0
  {
  }

  lemma {:induction false} CountMember(s: seq<Job>, j: Job)
    ensures Count(s, j) > 0 <==> j in s
  {
    if s != [] { CountMember(s[1..], j); }
  }

  lemma {:induction false} CountRemoved(s: seq<Job>, j: Job, k: Job)
    ensures Count(RemoveFirst(s, j), k) == Count(s, k) - if k == j && j in s then 1 else 0
    ensures |RemoveFirst(s, j)| == |s| - if j in s then 1 else 0
  {
    if s != [] && s[0] != j { CountRemoved(s[1..], j, k); }
  }

  // In the two lists of a queue together.
  function Copies(r: Redis, q: QueueName, j: Job): nat {
    Count(Items(r, Ready(q)), j) + Count(Items(r, Reserved(q)), j)
  }

  lemma PushCopies(r: Redis, l: ListName, j: Job, left: bool, q: QueueName, k: Job)
    ensures var r' := if left then PushLeft(r, l, j) else PushRight(r, l, j);
      Copies(r', q, k) == Copies(r, q, k) + if q == l.queue && k == j then 1 else 0
  {
    CountAppend([j], Items(r, l), k);
    CountAppend(Items(r, l), [j], k);
    CountOne(j, k);
  }

  lemma RemoveCopies(r: Redis, l: ListName, j: Job, q: QueueName, k: Job)
    ensures Copies(Remove(r, l, j), q, k) ==
      Copies(r, q, k) - if q == l.queue && k == j && j in Items(r, l) then 1 else 0
  {
    CountRemoved(Items(r, l), j, k);
  }

  lemma PopPushCopies(r: Redis, from: ListName, to: ListName, q: QueueName, k: Job)
    requires from != to && from.queue == to.queue
    ensures Copies(PopPush(r, from, to), q, k) == Copies(r, q, k)
  {
    var s := Items(r, from);
    if s != [] {
      var front, last := s[..|s| - 1], Last(s);
      assert s == front + [last];
      CountAppend(front, [last], k);
      CountAppend([last], Items(r, to), k);
    }
  }

  // Taken out once and pushed once: a requeue loses nothing.
  lemma RequeueCopies(r: Redis, queue: QueueName, j: Job, q: QueueName, k: Job)
    ensures Copies(Requeue(r, queue, j), q, k) >= Copies(r, q, k)
  {
    RemoveCopies(r, Reserved(queue), j, q, k);
    PushCopies(Remove(r, Reserved(queue), j), Ready(queue), j, true, q, k);
  }

  lemma CopyIsJob(r: Redis, q: QueueName, j: Job)
    requires Copies(r, q, j) > 0
    ensures HasJob(r, j.attempt)
  {
    CountMember(Items(r, Ready(q)), j);
    CountMember(Items(r, Reserved(q)), j);
    assert Holds(r, Ready(q), j.attempt) || Holds(r, Reserved(q), j.attempt);
  }
}
