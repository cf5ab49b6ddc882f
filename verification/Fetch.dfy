// Any job in the lists of a queue can be brought into the hands of a fresh
// process: recovery sweeps carry it to the source list, and processes that take
// the jobs in front of it uncover it. Nothing else changes.
module Fetch {
  import opened Transactions
  import opened Transport
  import opened Protocol

  // A continuation without a store error.
  ghost predicate Clean(more: seq<Action>) {
    forall act :: act in more ==> !(act.Work? && act.work == OpStoreError)
  }

  lemma CleanConcat(more: seq<Action>, rest: seq<Action>)
    requires Clean(more) && Clean(rest)
    ensures Clean(more + rest)
  {
  }

  lemma RunOne(s: State, act: Action)
    ensures RunFrom(s, [act]) == Apply(s, act)
  {
    assert [act][..0] == [];
  }

  lemma RunCons(s: State, act: Action, more: seq<Action>)
    ensures RunFrom(s, [act] + more) == RunFrom(Apply(s, act), more)
  {
    RunConcat(s, [act], more);
    RunOne(s, act);
  }

  lemma FreshPid(procs: map<nat, Process>) returns (pid: nat)
    ensures pid !in procs
  {
    pid := MaxOf(procs.Keys) + 1;
  }

  function Size(r: Redis, q: QueueName): nat {
    |Items(r, Ready(q))| + |Items(r, Reserved(q))|
  }

  // A process that has just taken the job.
  function Taker(q: QueueName, j: Job): Process {
    if q == Dispatch then Dispatcher(j, ToRoute) else Worker(q, j, ToActivate)
  }

  predicate JustTaken(p: Process) {
    (p.Dispatcher? && p.route == ToRoute) || (p.Worker? && p.work == ToActivate)
  }

  // Only jobs moved between a list and its twin, and only processes came that
  // have just taken one.
  ghost predicate Rearranged(s: State, e: State) {
    && e == s.(redis := e.redis, procs := e.procs)
    && (forall p :: p in s.procs ==> p in e.procs && e.procs[p] == s.procs[p])
    && (forall p :: p in e.procs && p !in s.procs ==> JustTaken(e.procs[p]))
    && (forall q, j :: Copies(e.redis, q, j) == Copies(s.redis, q, j))
    && (forall q :: Size(e.redis, q) == Size(s.redis, q))
  }

  lemma RearrangedTwice(s: State, m: State, e: State)
    requires Rearranged(s, m) && Rearranged(m, e)
    ensures Rearranged(s, e)
  {
  }

  // The step by which a fresh process takes the newest job of a queue.
  function Take(pid: nat, q: QueueName): Action {
    if q == Dispatch then Route(pid, OpReserveDispatch) else Work(pid, OpReserve(q.channel))
  }

  lemma TakeStep(s: State, pid: nat, q: QueueName)
    requires pid !in s.procs && Items(s.redis, Ready(q)) != []
    ensures var jobs := Items(s.redis, Ready(q));
      var e := Apply(s, Take(pid, q));
      && Rearranged(s, e) && pid in e.procs && e.procs[pid] == Taker(q, Last(jobs))
      && Items(e.redis, Ready(q)) == jobs[..|jobs| - 1] && Last(jobs) in Items(e.redis, Reserved(q))
  {
    MovedOne(s.redis, Ready(q), Reserved(q));
    var e := Apply(s, Take(pid, q));
    assert e.redis == PopPush(s.redis, Ready(q), Reserved(q));
  }

  lemma MovedOne(r: Redis, from: ListName, to: ListName)
    requires from != to && from.queue == to.queue && Items(r, from) != []
    ensures var r', jobs := PopPush(r, from, to), Items(r, from);
      && (forall q, j :: Copies(r', q, j) == Copies(r, q, j))
      && (forall q :: Size(r', q) == Size(r, q))
      && Items(r', from) == jobs[..|jobs| - 1] && Items(r', to) == [Last(jobs)] + Items(r, to)
  {
    forall q, j ensures Copies(PopPush(r, from, to), q, j) == Copies(r, q, j) { PopPushCopies(r, from, to, q, j); }
  }

  // From the source list.
  lemma {:induction false} FromReady(s: State, q: QueueName, i: nat) returns (more: seq<Action>, pid: nat)
    requires i < |Items(s.redis, Ready(q))|
    ensures var j, e := Items(s.redis, Ready(q))[i], RunFrom(s, more);
      && Clean(more) && Rearranged(s, e)
      && pid !in s.procs && pid in e.procs && e.procs[pid] == Taker(q, j) && j in Items(e.redis, Reserved(q))
    decreases |Items(s.redis, Ready(q))|
  {
    var taker := FreshPid(s.procs);
    TakeStep(s, taker, q);
    var s1 := Apply(s, Take(taker, q));
    RunOne(s, Take(taker, q));
    if i == |Items(s.redis, Ready(q))| - 1 {
      more, pid := [Take(taker, q)], taker;
    } else {
      var rest;
      rest, pid := FromReady(s1, q, i);
      RunCons(s, Take(taker, q), rest);
      RearrangedTwice(s, s1, RunFrom(s1, rest));
      more := [Take(taker, q)] + rest;
    }
  }

  lemma RecoverStep(s: State, q: QueueName)
    requires Items(s.redis, Reserved(q)) != []
    ensures var jobs := Items(s.redis, Reserved(q));
      var e := Apply(s, Environment(OpRecover(q)));
      && Rearranged(s, e) && e.procs == s.procs && Items(e.redis, Reserved(q)) == jobs[..|jobs| - 1]
      && Items(e.redis, Ready(q)) != [] && Items(e.redis, Ready(q))[0] == Last(jobs)
  {
    MovedOne(s.redis, Reserved(q), Ready(q));
  }

  // From the processing list, by recovery sweeps first.
  lemma {:induction false} FromReserved(s: State, q: QueueName, i: nat) returns (more: seq<Action>, pid: nat)
    requires i < |Items(s.redis, Reserved(q))|
    ensures var j, e := Items(s.redis, Reserved(q))[i], RunFrom(s, more);
      && Clean(more) && Rearranged(s, e)
      && pid !in s.procs && pid in e.procs && e.procs[pid] == Taker(q, j) && j in Items(e.redis, Reserved(q))
    decreases |Items(s.redis, Reserved(q))|
  {
    var recover := Environment(OpRecover(q));
    var s1 := Apply(s, recover);
    RecoverStep(s, q);
    var rest;
    if i == |Items(s.redis, Reserved(q))| - 1 {
      rest, pid := FromReady(s1, q, 0);
    } else {
      rest, pid := FromReserved(s1, q, i);
    }
    RunCons(s, recover, rest);
    RearrangedTwice(s, s1, RunFrom(s1, rest));
    more := [recover] + rest;
  }

  lemma FetchJob(s: State, q: QueueName, j: Job) returns (more: seq<Action>, pid: nat)
    requires Copies(s.redis, q, j) > 0
    ensures var e := RunFrom(s, more);
      && Clean(more) && Rearranged(s, e)
      && pid !in s.procs && pid in e.procs && e.procs[pid] == Taker(q, j) && j in Items(e.redis, Reserved(q))
  {
    CountMember(Items(s.redis, Ready(q)), j);
    CountMember(Items(s.redis, Reserved(q)), j);
    if j in Items(s.redis, Ready(q)) {
      var i :| 0 <= i < |Items(s.redis, Ready(q))| && Items(s.redis, Ready(q))[i] == j;
      more, pid := FromReady(s, q, i);
    } else {
      var i :| 0 <= i < |Items(s.redis, Reserved(q))| && Items(s.redis, Reserved(q))[i] == j;
      more, pid := FromReserved(s, q, i);
    }
  }
}
