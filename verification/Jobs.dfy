// The jobs of one attempt, counted: how many copies of a payload the lists
// hold, and how many of them calls that are already under way will still take
// out. What remains beyond those is what no later step can lose.
module Jobs {
  import opened Rows
  import opened Transport
  import opened Protocol
  import opened Steps
  import opened Chain

  // ----------------------------------------------------------------- calls

  // The processes exactly at this point.
  ghost function Those(procs: map<nat, Process>, p: Process): set<nat> {
    set pid | pid in procs && procs[pid] == p
  }

  ghost function HowMany(procs: map<nat, Process>, p: Process): nat {
    |Those(procs, p)|
  }

  lemma HowManyAfterUpdate(procs: map<nat, Process>, pid: nat, p': Process, p: Process)
    ensures HowMany(procs[pid := p'], p) ==
      HowMany(procs, p) - (if pid in procs && procs[pid] == p then 1 else 0) + (if p' == p then 1 else 0)
  {
    var before, after := Those(procs, p), Those(procs[pid := p'], p);
    if p' == p { assert after == before + {pid}; } else { assert after == before - {pid}; }
  }

  lemma HowManyAfterStop(procs: map<nat, Process>, pid: nat, p: Process)
    ensures HowMany(procs - {pid}, p) == HowMany(procs, p) - if pid in procs && procs[pid] == p then 1 else 0
  {
    assert Those(procs - {pid}, p) == Those(procs, p) - {pid};
  }

  lemma CallExists(procs: map<nat, Process>, p: Process) returns (pid: nat)
    requires HowMany(procs, p) > 0
    ensures pid in procs && procs[pid] == p
  {
    pid :| pid in Those(procs, p);
  }

  // --------------------------------------------------------------- surplus

  // A dispatcher that has routed the job and will acknowledge its source copy,
  // and a worker call that is over and will acknowledge its own.
  function Routed(j: Job): Process {
    Dispatcher(j, ToAck)
  }

  function Over(j: Job): Process {
    Worker(ChannelQueue(j), j, ToFinish)
  }

  // Copies beyond those that calls under way take out. A dispatcher only takes
  // source copies, and may find none left.
  ghost function Surplus(s: State, j: Job): int {
    var source := Copies(s.redis, Dispatch, j) - HowMany(s.procs, Routed(j));
    (if source > 0 then source else 0) + Copies(s.redis, ChannelQueue(j), j) - HowMany(s.procs, Over(j))
  }

  lemma SurplusIsJob(s: State, j: Job)
    requires Surplus(s, j) > 0
    ensures HasJob(s.redis, j.attempt)
  {
    if Copies(s.redis, Dispatch, j) > 0 {
      CopyIsJob(s.redis, Dispatch, j);
    } else {
      CopyIsJob(s.redis, ChannelQueue(j), j);
    }
  }

  // ---------------------------------------------------- where jobs are found

  // Every job was pushed under an id of its own, and a channel's lists carry
  // only jobs of that channel.
  predicate InPlace(s: State, l: ListName, j: Job) {
    j.serial in s.log.serials && (l.queue == Dispatch || l.queue == ChannelQueue(j))
  }

  predicate CarriesOk(s: State, p: Process) {
    match p
    case Publisher(_, _) => true
    case Dispatcher(j, _) => j.serial in s.log.serials
    case Worker(q, j, _) => j.serial in s.log.serials && q == ChannelQueue(j)
  }

  ghost predicate JobsOk(s: State) {
    && (forall l, j {:trigger InPlace(s, l, j)} | j in Items(s.redis, l) :: InPlace(s, l, j))
    && (forall p {:trigger CarriesOk(s, s.procs[p])} | p in s.procs :: CarriesOk(s, s.procs[p]))
  }

  lemma LastIsItem(r: Redis, l: ListName)
    requires Items(r, l) != []
    ensures Last(Items(r, l)) in Items(r, l)
  {
  }

  // What a list can hold after one command.
  lemma ItemAfter(r: Redis, r': Redis, l: ListName, j: Job, m: ListName, k: Job)
    requires r' == PushLeft(r, l, j) || r' == PushRight(r, l, j) || r' == Remove(r, l, j)
    ensures k in Items(r', m) ==> k in Items(r, m) || (m == l && k == j)
  {
  }

  lemma ItemAfterPop(r: Redis, from: ListName, to: ListName, m: ListName, k: Job)
    requires from != to
    ensures k in Items(PopPush(r, from, to), m) ==> k in Items(r, m) || (m == to && k in Items(r, from))
  {
    if Items(r, from) != [] { LastIsItem(r, from); }
  }

  lemma ItemStep(s: State, act: Action, m: ListName, k: Job)
    requires JobsOk(s) && k in Items(Apply(s, act).redis, m)
    ensures InPlace(Apply(s, act), m, k)
  {
    match act {
      case Api(_) => assert InPlace(s, m, k);
      case Publish(pid, op) => PublishItems(s, pid, op, m, k);
      case Route(pid, op) => RouteItems(s, pid, op, m, k);
      case Work(pid, op) => WorkItems(s, pid, op, m, k);
      case Environment(op) =>
        if op.OpRecover? {
          ItemAfterPop(s.redis, Reserved(op.queue), Ready(op.queue), m, k);
          assert k in Items(s.redis, Reserved(op.queue)) ==> InPlace(s, Reserved(op.queue), k);
        }
        assert k in Items(s.redis, m) ==> InPlace(s, m, k);
    }
  }

  lemma PublishItems(s: State, pid: nat, op: PublisherOp, m: ListName, k: Job)
    requires JobsOk(s) && k in Items(PublishStep(s, pid, op).redis, m)
    ensures InPlace(PublishStep(s, pid, op), m, k)
  {
    if (op.OpEnqueue? || op.OpEnqueueError?) && pid in s.procs && s.procs[pid].Publisher? && s.procs[pid].batch != []
       && PublishStep(s, pid, op).redis != s.redis {
      var j := Job(op.serial, s.procs[pid].batch[0].attempt);
      ItemAfter(s.redis, PushRight(s.redis, Ready(Dispatch), j), Ready(Dispatch), j, m, k);
    }
    assert k in Items(s.redis, m) ==> InPlace(s, m, k);
  }

  lemma RouteItems(s: State, pid: nat, op: DispatcherOp, m: ListName, k: Job)
    requires JobsOk(s) && k in Items(RouteStep(s, pid, op).redis, m)
    ensures InPlace(RouteStep(s, pid, op), m, k)
  {
    if op.OpReserveDispatch? {
      ItemAfterPop(s.redis, Ready(Dispatch), Reserved(Dispatch), m, k);
      assert k in Items(s.redis, Ready(Dispatch)) ==> InPlace(s, Ready(Dispatch), k);
    } else if pid in s.procs && s.procs[pid].Dispatcher? {
      var j := s.procs[pid].routed;
      assert CarriesOk(s, s.procs[pid]);
      var removed, target := Remove(s.redis, Reserved(Dispatch), j), Ready(ChannelQueue(j));
      match op {
        case OpAckRouted => ItemAfter(s.redis, removed, Reserved(Dispatch), j, m, k);
        case OpRequeue =>
          ItemAfter(removed, Requeue(s.redis, Dispatch, j), Ready(Dispatch), j, m, k);
          ItemAfter(s.redis, removed, Reserved(Dispatch), j, m, k);
        case _ =>
          ItemAfter(s.redis, PushRight(s.redis, target, j), target, j, m, k);
      }
    }
    assert k in Items(s.redis, m) ==> InPlace(s, m, k);
  }

  lemma WorkItems(s: State, pid: nat, op: WorkerOp, m: ListName, k: Job)
    requires JobsOk(s) && k in Items(WorkStep(s, pid, op).redis, m)
    ensures InPlace(WorkStep(s, pid, op), m, k)
  {
    if op.OpReserve? {
      var queue := WorkQueue(op.channel);
      ItemAfterPop(s.redis, Ready(queue), Reserved(queue), m, k);
      assert k in Items(s.redis, Ready(queue)) ==> InPlace(s, Ready(queue), k);
    } else if pid in s.procs && s.procs[pid].Worker? {
      if s.procs[pid].work.ToRecord? { RecordTouches(s, pid, s.procs[pid].work.outcome); }
    }
    assert k in Items(s.redis, m) ==> InPlace(s, m, k);
  }

  lemma CarryStep(s: State, act: Action, p: nat)
    requires JobsOk(s) && p in Apply(s, act).procs
    ensures CarriesOk(Apply(s, act), Apply(s, act).procs[p])
  {
    if p in s.procs { assert CarriesOk(s, s.procs[p]); }
    SerialsGrow(s, act);
    if !ActsFor(act, p) {
      OthersUntouched(s, act, p);
    } else {
      match act {
        case Route(_, op) => if op.OpReserveDispatch? { TakenOk(s, Dispatch); }
        case Work(_, op) => WorkerCarries(s, p, op);
        case _ =>
      }
    }
  }

  lemma SerialsGrow(s: State, act: Action)
    ensures s.log.serials <= Apply(s, act).log.serials
  {
    if act.Work? && act.worker in s.procs && s.procs[act.worker].Worker? && s.procs[act.worker].work.ToRecord? {
      RecordTouches(s, act.worker, s.procs[act.worker].work.outcome);
    }
  }

  lemma WorkerCarries(s: State, p: nat, op: WorkerOp)
    requires JobsOk(s) && p in WorkStep(s, p, op).procs && (p in s.procs ==> CarriesOk(s, s.procs[p]))
    ensures CarriesOk(WorkStep(s, p, op), WorkStep(s, p, op).procs[p])
  {
    if op.OpReserve? {
      TakenOk(s, WorkQueue(op.channel));
    } else if p in s.procs && s.procs[p].Worker? && s.procs[p].work.ToRecord? {
      RecordTouches(s, p, s.procs[p].work.outcome);
    }
  }

  lemma TakenOk(s: State, queue: QueueName)
    requires JobsOk(s)
    ensures Items(s.redis, Ready(queue)) != [] ==> InPlace(s, Ready(queue), Last(Items(s.redis, Ready(queue))))
  {
    if Items(s.redis, Ready(queue)) != [] { LastIsItem(s.redis, Ready(queue)); }
  }

  lemma {:induction false} JobsAlways(acts: seq<Action>)
    ensures JobsOk(Exec(acts))
  {
    if acts != [] {
      var s, act := Exec(acts[..|acts| - 1]), acts[|acts| - 1];
      JobsAlways(acts[..|acts| - 1]);
      JobsStep(s, act);
    }
  }

  lemma JobsStep(s: State, act: Action)
    requires JobsOk(s)
    ensures JobsOk(Apply(s, act))
  {
    var s' := Apply(s, act);
    forall l, j | j in Items(s'.redis, l) ensures InPlace(s', l, j) { ItemStep(s, act, l, j); }
    forall p | p in s'.procs ensures CarriesOk(s', s'.procs[p]) { CarryStep(s, act, p); }
  }

  // A job under a new id has no copies yet, and nobody is about to remove one.
  lemma NewJob(s: State, j: Job)
    requires JobsOk(s) && j.serial !in s.log.serials
    ensures forall q :: Copies(s.redis, q, j) == 0
    ensures HowMany(s.procs, Routed(j)) == 0 && HowMany(s.procs, Over(j)) == 0
  {
    forall l ensures Count(Items(s.redis, l), j) == 0 {
      CountMember(Items(s.redis, l), j);
      assert j in Items(s.redis, l) ==> InPlace(s, l, j);
    }
    forall pid | pid in s.procs ensures s.procs[pid] != Routed(j) && s.procs[pid] != Over(j) {
      assert CarriesOk(s, s.procs[pid]);
    }
    assert Those(s.procs, Routed(j)) == {} && Those(s.procs, Over(j)) == {};
  }

  // ------------------------------------------------- what keeps the surplus

  lemma NoNewThreats(s: State, s': State, pid: nat, j: Job)
    requires forall q :: q != pid ==> (q in s'.procs <==> q in s.procs) && (q in s.procs ==> s'.procs[q] == s.procs[q])
    requires pid in s'.procs ==> s'.procs[pid] !in {Routed(j), Over(j)} || (pid in s.procs && s'.procs[pid] == s.procs[pid])
    ensures HowMany(s'.procs, Routed(j)) <= HowMany(s.procs, Routed(j)) && HowMany(s'.procs, Over(j)) <= HowMany(s.procs, Over(j))
  {
    NoMoreThan(s.procs, s'.procs, pid, Routed(j));
    NoMoreThan(s.procs, s'.procs, pid, Over(j));
  }

  lemma NoMoreThan(procs: map<nat, Process>, procs': map<nat, Process>, pid: nat, p: Process)
    requires forall q :: q != pid ==> (q in procs' <==> q in procs) && (q in procs ==> procs'[q] == procs[q])
    requires pid in procs' && procs'[pid] == p ==> pid in procs && procs[pid] == p
    ensures HowMany(procs', p) <= HowMany(procs, p)
  {
    if pid in procs' {
      assert procs' == procs[pid := procs'[pid]];
      HowManyAfterUpdate(procs, pid, procs'[pid], p);
    } else {
      assert procs' == procs - {pid};
      HowManyAfterStop(procs, pid, p);
    }
  }

  // The step takes a worker call on a pending attempt to its end: the store
  // failed before the activation, and the job will be acknowledged.
  predicate Drops(s: State, act: Action, a: AttemptId) {
    && act.Work? && act.work == OpStoreError
    && act.worker in s.procs && s.procs[act.worker].Worker? && s.procs[act.worker].work == ToActivate
    && s.procs[act.worker].job.attempt == a && IsPending(s.db, a)
  }

  // No step but a drop takes away what is beyond the acknowledgements to come.
  lemma SurplusStays(s: State, act: Action, j: Job)
    requires Inv(s) && JobsOk(s)
    requires IsPending(s.db, j.attempt) && IsPending(Apply(s, act).db, j.attempt) && !Drops(s, act, j.attempt)
    ensures Surplus(Apply(s, act), j) >= Surplus(s, j)
  {
    match act {
      case Api(_) =>
      case Publish(pid, op) => PublishSurplus(s, pid, op, j);
      case Route(pid, op) => RouteSurplus(s, pid, op, j);
      case Work(pid, op) => WorkSurplus(s, pid, op, j);
      case Environment(op) =>
        if op.OpRecover? {
          PopPushCopies(s.redis, Reserved(op.queue), Ready(op.queue), Dispatch, j);
          PopPushCopies(s.redis, Reserved(op.queue), Ready(op.queue), ChannelQueue(j), j);
        } else if op.OpCrash? {
          HowManyAfterStop(s.procs, op.pid, Routed(j));
          HowManyAfterStop(s.procs, op.pid, Over(j));
        }
    }
  }

  lemma PublishSurplus(s: State, pid: nat, op: PublisherOp, j: Job)
    ensures Surplus(PublishStep(s, pid, op), j) >= Surplus(s, j)
  {
    var s' := PublishStep(s, pid, op);
    if pid in s'.procs { assert s'.procs[pid].Publisher? || s' == s; }
    NoNewThreats(s, s', pid, j);
    PublishCopies(s, pid, op, Dispatch, j);
    PublishCopies(s, pid, op, ChannelQueue(j), j);
  }

  lemma PublishCopies(s: State, pid: nat, op: PublisherOp, q: QueueName, j: Job)
    ensures Copies(PublishStep(s, pid, op).redis, q, j) >= Copies(s.redis, q, j)
  {
    if PublishStep(s, pid, op).redis != s.redis {
      PushCopies(s.redis, Ready(Dispatch), Job(op.serial, s.procs[pid].batch[0].attempt), false, q, j);
    }
  }

  lemma RouteSurplus(s: State, pid: nat, op: DispatcherOp, j: Job)
    ensures Surplus(RouteStep(s, pid, op), j) >= Surplus(s, j)
  {
    var s' := RouteStep(s, pid, op);
    if op.OpReserveDispatch? {
      NoNewThreats(s, s', pid, j);
      PopPushCopies(s.redis, Ready(Dispatch), Reserved(Dispatch), Dispatch, j);
      PopPushCopies(s.redis, Ready(Dispatch), Reserved(Dispatch), ChannelQueue(j), j);
    } else if pid in s.procs && s.procs[pid].Dispatcher? && s' != s {
      match op {
        case OpRoute => RoutingSurplus(s, pid, Routed(s.procs[pid].routed), j);
        case OpRouteError(applied) =>
          if applied {
            RoutingSurplus(s, pid, Dispatcher(s.procs[pid].routed, ToRequeue), j);
          } else {
            NoNewThreats(s, s', pid, j);
          }
        case OpAckRouted => AckSurplus(s, pid, j);
        case OpRequeue =>
          NoNewThreats(s, s', pid, j);
          RequeueCopies(s.redis, Dispatch, s.procs[pid].routed, Dispatch, j);
          RequeueCopies(s.redis, Dispatch, s.procs[pid].routed, ChannelQueue(j), j);
      }
    }
  }

  lemma RoutingSurplus(s: State, pid: nat, p: Process, j: Job)
    requires pid in s.procs && s.procs[pid].Dispatcher? && s.procs[pid].route == ToRoute
    requires p.Dispatcher? && p.routed == s.procs[pid].routed
    ensures var k := p.routed;
      Surplus(s.(redis := PushRight(s.redis, Ready(ChannelQueue(k)), k), procs := s.procs[pid := p]), j) >= Surplus(s, j)
  {
    var k := p.routed;
    HowManyAfterUpdate(s.procs, pid, p, Routed(j));
    HowManyAfterUpdate(s.procs, pid, p, Over(j));
    PushCopies(s.redis, Ready(ChannelQueue(k)), k, false, Dispatch, j);
    PushCopies(s.redis, Ready(ChannelQueue(k)), k, false, ChannelQueue(j), j);
  }

  lemma AckSurplus(s: State, pid: nat, j: Job)
    requires pid in s.procs && s.procs[pid].Dispatcher? && s.procs[pid].route == ToAck
    ensures Surplus(RouteStep(s, pid, OpAckRouted), j) >= Surplus(s, j)
  {
    var k := s.procs[pid].routed;
    HowManyAfterStop(s.procs, pid, Routed(j));
    HowManyAfterStop(s.procs, pid, Over(j));
    RemoveCopies(s.redis, Reserved(Dispatch), k, Dispatch, j);
    RemoveCopies(s.redis, Reserved(Dispatch), k, ChannelQueue(j), j);
  }

  lemma WorkSurplus(s: State, pid: nat, op: WorkerOp, j: Job)
    requires Inv(s) && JobsOk(s)
    requires IsPending(s.db, j.attempt) && IsPending(WorkStep(s, pid, op).db, j.attempt) && !Drops(s, Work(pid, op), j.attempt)
    ensures Surplus(WorkStep(s, pid, op), j) >= Surplus(s, j)
  {
    var s' := WorkStep(s, pid, op);
    if op.OpReserve? {
      NoNewThreats(s, s', pid, j);
      PopPushCopies(s.redis, Ready(WorkQueue(op.channel)), Reserved(WorkQueue(op.channel)), Dispatch, j);
      PopPushCopies(s.redis, Ready(WorkQueue(op.channel)), Reserved(WorkQueue(op.channel)), ChannelQueue(j), j);
    } else if pid in s.procs && s.procs[pid].Worker? {
      if s.procs[pid].work == ToFinish { AckedSurplus(s, pid, op, j); } else { CallSurplus(s, pid, op, j); }
    }
  }

  lemma AckedSurplus(s: State, pid: nat, op: WorkerOp, j: Job)
    requires JobsOk(s) && !op.OpReserve?
    requires pid in s.procs && s.procs[pid].Worker? && s.procs[pid].work == ToFinish
    ensures Surplus(WorkStep(s, pid, op), j) >= Surplus(s, j)
  {
    var p := s.procs[pid];
    assert CarriesOk(s, p);
    if op == OpAck {
      HowManyAfterStop(s.procs, pid, Routed(j));
      HowManyAfterStop(s.procs, pid, Over(j));
      RemoveCopies(s.redis, Reserved(p.queue), p.job, Dispatch, j);
      RemoveCopies(s.redis, Reserved(p.queue), p.job, ChannelQueue(j), j);
    } else {
      NoNewThreats(s, WorkStep(s, pid, op), pid, j);
    }
  }

  // A call that is not over: while its attempt is pending it cannot get there.
  lemma CallSurplus(s: State, pid: nat, op: WorkerOp, j: Job)
    requires Inv(s) && !op.OpReserve?
    requires pid in s.procs && s.procs[pid].Worker? && s.procs[pid].work != ToFinish
    requires IsPending(s.db, j.attempt) && IsPending(WorkStep(s, pid, op).db, j.attempt) && !Drops(s, Work(pid, op), j.attempt)
    ensures Surplus(WorkStep(s, pid, op), j) >= Surplus(s, j)
  {
    var s' := WorkStep(s, pid, op);
    assert WorkOk(s.db, s.procs[pid]);
    if s.procs[pid].work.ToRecord? { RecordTouches(s, pid, s.procs[pid].work.outcome); }
    NoNewThreats(s, s', pid, j);
  }
}
