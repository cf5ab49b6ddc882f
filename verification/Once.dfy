// One activation and at most one provider call per attempt, whatever jobs are
// duplicated, republished or recovered.
module Once {
  import opened Wrappers
  import opened Rows
  import opened Protocol
  import opened Steps
  import opened Chain

  ghost predicate CountsOk(s: State, a: AttemptId) {
    && s.log.activated[a] == (if a in s.db.attempts && s.db.attempts[a].status != Pending then 1 else 0)
    && s.log.sent[a] <= s.log.activated[a]
  }

  ghost predicate CallOk(s: State, p: Process) {
    p.Worker? && p.work == ToSend ==> s.log.sent[p.job.attempt] == 0
  }

  ghost predicate LogOk(s: State) {
    && (forall a :: CountsOk(s, a))
    && (forall p :: p in s.procs ==> CallOk(s, s.procs[p]))
  }

  lemma CountsStep(s: State, act: Action, a: AttemptId)
    requires Inv(s) && LogOk(s)
    ensures CountsOk(Apply(s, act), a)
  {
    RowsStep(s, act, a);
    assert CountsOk(s, a);
    if act.Work? { WorkCountsStep(s, act.worker, act.work, a); }
  }

  lemma WorkCountsStep(s: State, pid: nat, op: WorkerOp, a: AttemptId)
    requires Inv(s) && LogOk(s) && CountsOk(s, a) && RowStep(s, Work(pid, op), WorkStep(s, pid, op).db, a)
    ensures CountsOk(WorkStep(s, pid, op), a)
  {
    if pid in s.procs && s.procs[pid].Worker? {
      var p := s.procs[pid];
      assert WorkOk(s.db, p) && CallOk(s, p);
      if p.work.ToRecord? { RecordTouches(s, pid, p.work.outcome); }
    }
  }

  // The call that is about to send is the only one that may, and it has not.
  lemma WorkCallsStep(s: State, worker: nat, op: WorkerOp, pid: nat)
    requires Inv(s) && LogOk(s) && pid in WorkStep(s, worker, op).procs
    ensures CallOk(WorkStep(s, worker, op), WorkStep(s, worker, op).procs[pid])
  {
    if pid in s.procs { assert CallOk(s, s.procs[pid]); }
    if worker in s.procs && s.procs[worker].Worker? {
      var p := s.procs[worker];
      assert CountsOk(s, p.job.attempt);
      if p.work.ToRecord? {
        RecordTouches(s, worker, p.work.outcome);
      } else if p.work == ToSend && pid in s.procs && pid != worker {
        assert Owned(p).Some? ==> Owned(s.procs[pid]) != Owned(p);
      }
    }
  }

  lemma OtherCallsStep(s: State, act: Action, pid: nat)
    requires LogOk(s) && !act.Work? && pid in Apply(s, act).procs
    ensures CallOk(Apply(s, act), Apply(s, act).procs[pid])
  {
    if pid in s.procs { assert CallOk(s, s.procs[pid]); }
  }

  lemma CallsStep(s: State, act: Action, pid: nat)
    requires Inv(s) && LogOk(s) && pid in Apply(s, act).procs
    ensures CallOk(Apply(s, act), Apply(s, act).procs[pid])
  {
    if act.Work? {
      if pid in s.procs { assert CallOk(s, s.procs[pid]); }
      WorkCallsStep(s, act.worker, act.work, pid);
    } else {
      OtherCallsStep(s, act, pid);
    }
  }

  lemma {:induction false} LogAlways(acts: seq<Action>)
    ensures LogOk(Exec(acts))
  {
    if acts != [] {
      var s, act := Exec(acts[..|acts| - 1]), acts[|acts| - 1];
      LogAlways(acts[..|acts| - 1]);
      Always(acts[..|acts| - 1]);
      forall a ensures CountsOk(Apply(s, act), a) { CountsStep(s, act, a); }
      forall p | p in Apply(s, act).procs ensures CallOk(Apply(s, act), Apply(s, act).procs[p]) { CallsStep(s, act, p); }
    }
  }

  // In every run an attempt is activated exactly once if it ever left pending,
  // and at most one call reached a sender for it, always after the activation.
  lemma AtMostOneSend(acts: seq<Action>, a: AttemptId)
    ensures var s := Exec(acts);
      && s.log.sent[a] <= s.log.activated[a] <= 1
      && (s.log.activated[a] == 1 <==> a in s.db.attempts && !IsPending(s.db, a))
      && (s.log.sent[a] == 1 ==> a in s.db.attempts && s.db.attempts[a].status != Pending)
  {
    LogAlways(acts);
    assert CountsOk(Exec(acts), a);
  }

  // ------------------------------------------------------- stuck in progress

  // No call is left that could settle the attempt.
  ghost predicate Unowned(s: State, a: AttemptId) {
    forall p :: p in s.procs ==> Owned(s.procs[p]) != Some(a)
  }

  lemma StuckStep(s: State, act: Action, a: AttemptId)
    requires HasStatus(s.db, a, InProgress) && Unowned(s, a)
    ensures HasStatus(Apply(s, act).db, a, InProgress) && Unowned(Apply(s, act), a)
  {
    if act.Work? {
      WorkStuckStep(s, act.worker, act.work, a);
    } else {
      RowsStep(s, act, a);
      forall p | p in Apply(s, act).procs ensures Owned(Apply(s, act).procs[p]) != Some(a) {
        if p in s.procs { assert Owned(s.procs[p]) != Some(a); }
      }
    }
  }

  lemma WorkStuckStep(s: State, pid: nat, op: WorkerOp, a: AttemptId)
    requires HasStatus(s.db, a, InProgress) && Unowned(s, a)
    ensures HasStatus(WorkStep(s, pid, op).db, a, InProgress) && Unowned(WorkStep(s, pid, op), a)
  {
    RowsStep(s, Work(pid, op), a);
    if pid in s.procs && s.procs[pid].Worker? && s.procs[pid].work.ToRecord? {
      assert Owned(s.procs[pid]) != Some(a);
      RecordTouches(s, pid, s.procs[pid].work.outcome);
    }
    forall p | p in WorkStep(s, pid, op).procs ensures Owned(WorkStep(s, pid, op).procs[p]) != Some(a) {
      if p in s.procs { assert Owned(s.procs[p]) != Some(a); }
    }
  }

  lemma {:induction false} StuckForever(s: State, more: seq<Action>, a: AttemptId)
    requires HasStatus(s.db, a, InProgress) && Unowned(s, a)
    ensures HasStatus(RunFrom(s, more).db, a, InProgress) && Unowned(RunFrom(s, more), a)
  {
    if more != [] {
      StuckForever(s, more[..|more| - 1], a);
      StuckStep(RunFrom(s, more[..|more| - 1]), more[|more| - 1], a);
    }
  }

  // An attempt in progress can still be settled exactly while a call owns it: a
  // crash after activation leaves it in progress for good, and a recovered copy
  // of its job is suppressed, not sent again.
  lemma SettlesIffOwned(acts: seq<Action>, a: AttemptId)
    requires HasStatus(Exec(acts).db, a, InProgress)
    ensures (exists more :: !HasStatus(RunFrom(Exec(acts), more).db, a, InProgress)) <==> !Unowned(Exec(acts), a)
  {
    var s := Exec(acts);
    if Unowned(s, a) {
      forall more ensures HasStatus(RunFrom(s, more).db, a, InProgress) {
        StuckForever(s, more, a);
      }
    } else {
      Always(acts);
      var p :| p in s.procs && Owned(s.procs[p]) == Some(a);
      assert WorkOk(s.db, s.procs[p]);
      var more := OwnerSettles(s, p, a);
    }
  }

  lemma RecordSettles(s: State, p: nat, a: AttemptId)
    requires HasStatus(s.db, a, InProgress) && p in s.procs && s.procs[p].Worker?
    requires s.procs[p].work.ToRecord? && s.procs[p].job.attempt == a
    ensures !HasStatus(Apply(s, Work(p, OpRecord)).db, a, InProgress)
  {
  }

  // An owner that goes on settles its attempt.
  lemma OwnerSettles(s: State, p: nat, a: AttemptId) returns (more: seq<Action>)
    requires HasStatus(s.db, a, InProgress) && p in s.procs && Owned(s.procs[p]) == Some(a) && WorkOk(s.db, s.procs[p])
    ensures !HasStatus(RunFrom(s, more).db, a, InProgress)
  {
    var record, send := Work(p, OpRecord), Work(p, OpSend(Terminal));
    if s.procs[p].work.ToRecord? {
      RecordSettles(s, p, a);
      more := [record];
      assert RunFrom(s, more[..0]) == s;
    } else {
      assert s.procs[p].work == ToSend;
      var s1 := Apply(s, send);
      RecordSettles(s1, p, a);
      more := [send, record];
      assert RunFrom(s, [send][..0]) == s;
      assert RunFrom(s, [send]) == s1;
      assert more[..1] == [send];
    }
  }
}
