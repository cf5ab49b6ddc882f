// One worker call as the code writes it: activate the attempt, call a sender,
// record what came of it, acknowledge the job. Any store call may fail, before
// or after it took effect.
module Delivery {
  import opened Wrappers
  import opened Rows
  import opened Transactions
  import opened Transport
  import opened Protocol
  import opened Store
  import opened Queue
  import opened Processes

  datatype Point = AtActivation | AfterActivation | AtRecord | AfterRecord | AtLetter | AtAck

  // What the sender reports; an error that is not classified counts as retryable.
  datatype Report = Success | Permanent | Transient | Unclassified

  predicate MaybeRetryable(r: Report) {
    r.Transient? || r.Unclassified?
  }

  datatype Provider = Primary | Backup

  datatype Call = Call(to: Provider, report: Report)

  // The senders of one channel, with the calls made to them; `answers` is what
  // they come back with, call after call.
  class Senders {
    const hasBackup: bool
    const answers: nat -> Report
    var calls: seq<Call>

    method Ask(to: Provider) returns (report: Report)
      modifies this
      ensures calls == old(calls) + [Call(to, report)] && report == answers(old(|calls|))
    {
      report := answers(|calls|);
      calls := calls + [Call(to, report)];
    }

    // The sender function of a channel. A message that has no recipient or cannot
    // be rendered fails for good before any call.
    method Send(ready: bool, failover: bool) returns (report: Report, usedBackup: bool)
      modifies this
      ensures old(calls) <= calls
      ensures Exchange(calls[|old(calls)|..], ready, failover && hasBackup, report)
      ensures usedBackup <==> |calls| == |old(calls)| + 2 && report.Success?
    {
      usedBackup := false;
      if !ready {
        return Permanent, false;
      }
      report := Ask(Primary);
      if MaybeRetryable(report) && failover && hasBackup {
        var second := Ask(Backup);
        if second.Success? {
          return Success, true;
        }
      }
    }
  }

  // What one message may cause at the senders: nothing if it is not ready, else
  // one call of the primary, and a second call, of the backup, exactly when it may
  // be asked and the first failed but not for good. The first report stands unless
  // the backup delivered.
  ghost predicate Exchange(made: seq<Call>, ready: bool, mayFailOver: bool, report: Report) {
    && |made| <= 2
    && (ready <==> |made| > 0)
    && (ready ==> made[0].to == Primary)
    && (|made| == 2 <==> ready && mayFailOver && made[0].report in {Transient, Unclassified})
    && (|made| == 2 ==> made[1].to == Backup)
    && report == if |made| == 2 && made[1].report.Success? then Success else if ready then made[0].report else Permanent
  }

  datatype Verdict = VSent | VFailed | VRetryScheduled(at: Time) | VDeadLettered(id: DeadLetterId) | VSuppressed | VError

  function LimitInForce(service: nat, override: Option<int>): nat {
    if override.Some? && override.value > 0 then override.value else service
  }

  function OutcomeOf(r: Report, limit: nat, retryAt: Time): Outcome {
    if r.Success? then Outcome.Delivered else if MaybeRetryable(r) then Retryable(limit, retryAt) else Terminal
  }

  // ------------------------------------------------- the call as machine steps

  function On(s: State, pid: nat, queue: QueueName, j: Job, phase: WorkPhase, db: Db, log: Log): State {
    s.(db := db, procs := s.procs[pid := Worker(queue, j, phase)], log := log)
  }

  lemma Rewrite(procs: map<nat, Process>, pid: nat, p: Process, p': Process)
    ensures procs[pid := p][pid := p'] == procs[pid := p']
  {
  }

  lemma ActivateStep(s: State, pid: nat, queue: QueueName, j: Job, db: Db, log: Log)
    ensures Apply(On(s, pid, queue, j, ToActivate, db, log), Work(pid, OpActivate)) ==
      match MarkInProgress(db, j.attempt)
      case Ok(db') => On(s, pid, queue, j, ToSend, db', log.(activated := log.activated + multiset{j.attempt}))
      case Err(_) => On(s, pid, queue, j, ToFinish, db, log)
    ensures Apply(On(s, pid, queue, j, ToActivate, db, log), Work(pid, OpStoreError)) == On(s, pid, queue, j, ToFinish, db, log)
  {
    Rewrite(s.procs, pid, Worker(queue, j, ToActivate), Worker(queue, j, ToSend));
    Rewrite(s.procs, pid, Worker(queue, j, ToActivate), Worker(queue, j, ToFinish));
  }

  lemma AbandonStep(s: State, pid: nat, queue: QueueName, j: Job, phase: WorkPhase, db: Db, log: Log)
    requires phase != ToActivate
    ensures Apply(On(s, pid, queue, j, phase, db, log), Work(pid, OpAbandon)) == On(s, pid, queue, j, ToFinish, db, log)
  {
    Rewrite(s.procs, pid, Worker(queue, j, phase), Worker(queue, j, ToFinish));
  }

  lemma SendStep(s: State, pid: nat, queue: QueueName, j: Job, db: Db, log: Log, outcome: Outcome)
    ensures Apply(On(s, pid, queue, j, ToSend, db, log), Work(pid, OpSend(outcome))) ==
      On(s, pid, queue, j, ToRecord(outcome), db, log.(sent := log.sent + multiset{j.attempt}))
  {
    Rewrite(s.procs, pid, Worker(queue, j, ToSend), Worker(queue, j, ToRecord(outcome)));
  }

  // Where a recorded outcome leads.
  function AfterOutcome(db: Db, a: AttemptId, outcome: Outcome): (Db, WorkPhase) {
    match outcome
    case Delivered => (After(MarkSent(db, a), db), ToFinish)
    case Terminal => (After(MarkFailed(db, a), db), ToFinish)
    case Retryable(limit, retryAt) =>
      if a in db.attempts && db.attempts[a].number >= limit then
        (After(MarkDeadLettered(db, a), db), if MarkDeadLettered(db, a).Ok? then ToInsertDeadLetter else ToFinish)
      else (After(ScheduleRetry(db, a, retryAt), db), ToFinish)
  }

  lemma OutcomeStep(s: State, pid: nat, queue: QueueName, j: Job, db: Db, log: Log, outcome: Outcome)
    ensures var (db', phase) := AfterOutcome(db, j.attempt, outcome);
      Apply(On(s, pid, queue, j, ToRecord(outcome), db, log), Work(pid, OpRecord)) == On(s, pid, queue, j, phase, db', log)
  {
    Rewrite(s.procs, pid, Worker(queue, j, ToRecord(outcome)), Worker(queue, j, ToFinish));
    Rewrite(s.procs, pid, Worker(queue, j, ToRecord(outcome)), Worker(queue, j, ToInsertDeadLetter));
  }

  lemma LetterStep(s: State, pid: nat, queue: QueueName, j: Job, db: Db, log: Log, serial: nat)
    ensures Apply(On(s, pid, queue, j, ToInsertDeadLetter, db, log), Work(pid, OpInsertDeadLetter(serial))) ==
      On(s, pid, queue, j, ToFinish,
         After(InsertDeadLetter(db, DeadLetterId(j.attempt, serial), KeyOf(j.attempt), s.now), db), log)
  {
    Rewrite(s.procs, pid, Worker(queue, j, ToInsertDeadLetter), Worker(queue, j, ToFinish));
  }

  // ------------------------------------------------------ recording an outcome

  // How the rows differ after the attempt `a` was settled by `outcome`.
  ghost predicate Settled(before: Db, after: Db, a: AttemptId, outcome: Outcome, serial: nat, now: Time)
    requires a in before.attempts
  {
    var row := before.attempts[a];
    var spent := outcome.Retryable? && row.number >= outcome.limit;
    && after.notifications == before.notifications && after.outbox == before.outbox
    && after.attempts.Keys == before.attempts.Keys
    && (forall b :: b in before.attempts && b != a ==> after.attempts[b] == before.attempts[b])
    && after.attempts[a].key == row.key && after.attempts[a].number == row.number && after.attempts[a].enqueuedAt == row.enqueuedAt
    && after.attempts[a].status == (
         if outcome.Delivered? then AttemptStatus.Sent else if outcome.Terminal? then Failed
         else if spent then DeadLettered else RetryScheduled)
    && (outcome.Retryable? ==> after.attempts[a].nextRetryAt == if spent then None else Some(outcome.retryAt))
    && (if spent
        then after.deadLetters == before.deadLetters[DeadLetterId(a, serial) := DeadLetter(KeyOf(a), now, None, None)]
        else after.deadLetters == before.deadLetters)
  }

  // MarkAttemptSent, failTerminal or handleRetryable.
  method Record(st: Postgres, a: AttemptId, outcome: Outcome, serial: nat, now: Time, fails: set<Point>,
                ghost s: State, ghost pid: nat, ghost queue: QueueName, ghost j: Job, ghost log: Log)
    returns (v: Verdict, ghost acts: seq<Action>)
    requires a in st.attempts && st.attempts[a].status == InProgress && j.attempt == a && s.now == now
    modifies st
    ensures !v.VSuppressed?
    ensures RunFrom(On(s, pid, queue, j, ToRecord(outcome), old(st.Tables()), log), acts)
         == On(s, pid, queue, j, ToFinish, st.Tables(), log)
    ensures fails == {} && DeadLetterId(a, serial) !in old(st.deadLetters) ==>
      Settled(old(st.Tables()), st.Tables(), a, outcome, serial, now) && VerdictOf(v, outcome, old(st.attempts)[a].number, a, serial)
  {
    ghost var db := st.Tables();
    ghost var start := On(s, pid, queue, j, ToRecord(outcome), db, log);
    if AtRecord in fails {
      AbandonStep(s, pid, queue, j, ToRecord(outcome), db, log);
      OneStep(start, Work(pid, OpAbandon));
      return VError, [Work(pid, OpAbandon)];
    }
    OutcomeStep(s, pid, queue, j, db, log, outcome);
    OneStep(start, Work(pid, OpRecord));
    acts := [Work(pid, OpRecord)];
    match outcome {
      case Delivered =>
        var _ := st.MarkAttemptSent(a);
        v := VSent;
      case Terminal =>
        var _ := st.MarkAttemptFailed(a);
        v := VFailed;
      case Retryable(limit, retryAt) =>
        if st.attempts[a].number < limit {
          var _ := st.ScheduleAttemptRetry(a, retryAt);
          v := VRetryScheduled(retryAt);
        } else {
          var _ := st.MarkAttemptDeadLettered(a);
          if AfterRecord in fails || AtLetter in fails {
            AbandonStep(s, pid, queue, j, ToInsertDeadLetter, st.Tables(), log);
            TwoSteps(start, Work(pid, OpRecord), Work(pid, OpAbandon));
            return VError, [Work(pid, OpRecord), Work(pid, OpAbandon)];
          }
          LetterStep(s, pid, queue, j, st.Tables(), log, serial);
          var error := st.AddDeadLetter(DeadLetterId(a, serial), KeyOf(a), now);
          TwoSteps(start, Work(pid, OpRecord), Work(pid, OpInsertDeadLetter(serial)));
          return if error.None? then VDeadLettered(DeadLetterId(a, serial)) else VError,
            [Work(pid, OpRecord), Work(pid, OpInsertDeadLetter(serial))];
        }
    }
    if AfterRecord in fails {
      v := VError;
    }
  }

  predicate VerdictOf(v: Verdict, outcome: Outcome, number: nat, a: AttemptId, serial: nat) {
    match outcome
    case Delivered => v == VSent
    case Terminal => v == VFailed
    case Retryable(limit, retryAt) => v == if number >= limit then VDeadLettered(DeadLetterId(a, serial)) else VRetryScheduled(retryAt)
  }

  // ------------------------------------------------------------ the whole call

  // MarkAttemptInProgress and what its errors mean.
  method Activate(st: Postgres, j: Job, fails: set<Point>, ghost s: State, ghost pid: nat, ghost queue: QueueName)
    returns (won: bool, v: Verdict, ghost acts: seq<Action>)
    requires s.db == st.Tables()
    requires pid in s.procs && s.procs[pid] == Worker(queue, j, ToActivate)
    modifies st
    ensures RunFrom(s, acts) == On(s, pid, queue, j, if won then ToSend else ToFinish, st.Tables(),
                                   if won then s.log.(activated := s.log.activated + multiset{j.attempt}) else s.log)
    ensures won <==> old(IsPending(st.Tables(), j.attempt)) && AtActivation !in fails
    ensures if won then MarkInProgress(old(st.Tables()), j.attempt) == Ok(st.Tables()) else st.Tables() == old(st.Tables())
    ensures !won ==>
      (v.VSuppressed? <==> AtActivation !in fails && j.attempt in old(st.attempts) && old(st.attempts)[j.attempt].status != Pending)
  {
    assert s == On(s, pid, queue, j, ToActivate, st.Tables(), s.log) by {
      assert s.procs[pid := s.procs[pid]] == s.procs;
    }
    ActivateStep(s, pid, queue, j, st.Tables(), s.log);
    if AtActivation in fails {
      OneStep(s, Work(pid, OpStoreError));
      return false, VError, [Work(pid, OpStoreError)];
    }
    OneStep(s, Work(pid, OpActivate));
    var error := st.MarkAttemptInProgress(j.attempt);
    acts := [Work(pid, OpActivate)];
    won, v := error.None?, if error.Some? && error.value in {AlreadyFinalized, AlreadyProcessing} then VSuppressed else VError;
  }

  // A call that did not win the activation leaves the senders alone.
  ghost predicate Sends(senders: Senders, before: seq<Call>, ready: bool, failover: bool, sent: Option<Report>)
    reads senders
  {
    if sent.None? then senders.calls == before
    else
      before <= senders.calls && Exchange(senders.calls[|before|..], ready, failover && senders.hasBackup, sent.value)
  }

  // What the service and the policy say about a retryable failure.
  datatype Terms = Terms(service: nat, override: Option<int>, retryAt: Time)

  function OutcomeUnder(r: Report, terms: Terms): Outcome {
    OutcomeOf(r, LimitInForce(terms.service, terms.override), terms.retryAt)
  }

  // The attempt's row gets this status, and no other row changes.
  ghost predicate OnlyMoves(before: Db, after: Db, a: AttemptId, status: AttemptStatus) {
    && a in before.attempts && after.attempts.Keys == before.attempts.Keys
    && (forall b :: b in before.attempts && b != a ==> after.attempts[b] == before.attempts[b])
    && after.attempts[a] == before.attempts[a].(status := status, nextRetryAt := after.attempts[a].nextRetryAt)
    && after.notifications == before.notifications && after.outbox == before.outbox
  }

  // The rows and the verdict after a call that met no store error, by what the
  // senders reported: sent; failed for good; or, for a failure that may pass,
  // tried again at the given time while attempts are left, and dead-lettered with
  // a new letter after that. A positive override limits the attempts, else the
  // service does.
  ghost predicate Concluded(before: Db, after: Db, a: AttemptId, sent: Option<Report>, terms: Terms, serial: nat, now: Time, v: Verdict) {
    && sent.Some? && a in before.attempts
    && var limit := if terms.override.Some? && terms.override.value > 0 then terms.override.value else terms.service;
    var mayPass, left := sent.value in {Transient, Unclassified}, before.attempts[a].number < limit;
    && (sent.value == Success ==> OnlyMoves(before, after, a, AttemptStatus.Sent) && v == VSent)
    && (sent.value == Permanent ==> OnlyMoves(before, after, a, Failed) && v == VFailed)
    && (mayPass && left ==>
          && OnlyMoves(before, after, a, RetryScheduled)
          && after.attempts[a].nextRetryAt == Some(terms.retryAt) && v == VRetryScheduled(terms.retryAt))
    && (mayPass && !left ==>
          && OnlyMoves(before, after, a, DeadLettered)
          && after.attempts[a].nextRetryAt == None && v == VDeadLettered(DeadLetterId(a, serial)))
    && after.deadLetters ==
         if mayPass && !left then before.deadLetters[DeadLetterId(a, serial) := DeadLetter(KeyOf(a), now, None, None)]
         else before.deadLetters
  }

  lemma ConcludedByTable(before: Db, after: Db, a: AttemptId, report: Report, terms: Terms, serial: nat, now: Time, v: Verdict)
    requires a in before.attempts && Settled(before, after, a, OutcomeUnder(report, terms), serial, now)
    requires VerdictOf(v, OutcomeUnder(report, terms), before.attempts[a].number, a, serial)
    ensures Concluded(before, after, a, Some(report), terms, serial, now, v)
  {
  }

  lemma ConcludedSinceActivation(db: Db, before: Db, after: Db, a: AttemptId, sent: Option<Report>, terms: Terms,
                                 serial: nat, now: Time, v: Verdict)
    requires MarkInProgress(db, a) == Ok(before) && Concluded(before, after, a, sent, terms, serial, now, v)
    ensures Concluded(db, after, a, sent, terms, serial, now, v)
  {
  }

  // Load the job and the policy, send, record.
  method Deliver(st: Postgres, senders: Senders, j: Job, ready: bool, failover: bool, terms: Terms, serial: nat,
                 now: Time, fails: set<Point>, ghost s: State, ghost pid: nat, ghost queue: QueueName, ghost log: Log)
    returns (v: Verdict, sent: Option<Report>, ghost acts: seq<Action>)
    requires j.attempt in st.attempts && st.attempts[j.attempt].status == InProgress && s.now == now
    modifies st, senders
    ensures !v.VSuppressed?
    ensures RunFrom(On(s, pid, queue, j, ToSend, old(st.Tables()), log), acts)
         == On(s, pid, queue, j, ToFinish, st.Tables(), if sent.Some? then log.(sent := log.sent + multiset{j.attempt}) else log)
    ensures sent.Some? <==> AfterActivation !in fails
    ensures Sends(senders, old(senders.calls), ready, failover, sent)
    ensures fails == {} && DeadLetterId(j.attempt, serial) !in old(st.deadLetters) ==>
      Concluded(old(st.Tables()), st.Tables(), j.attempt, sent, terms, serial, now, v)
  {
    ghost var start := On(s, pid, queue, j, ToSend, st.Tables(), log);
    if AfterActivation in fails {
      AbandonStep(s, pid, queue, j, ToSend, st.Tables(), log);
      OneStep(start, Work(pid, OpAbandon));
      return VError, None, [Work(pid, OpAbandon)];
    }
    var report, _ := senders.Send(ready, failover);
    var outcome := OutcomeUnder(report, terms);
    SendStep(s, pid, queue, j, st.Tables(), log, outcome);
    OneStep(start, Work(pid, OpSend(outcome)));
    ghost var more;
    v, more := Record(st, j.attempt, outcome, serial, now, fails, s, pid, queue, j, log.(sent := log.sent + multiset{j.attempt}));
    if fails == {} && DeadLetterId(j.attempt, serial) !in old(st.deadLetters) {
      ConcludedByTable(old(st.Tables()), st.Tables(), j.attempt, report, terms, serial, now, v);
    }
    sent, acts := Some(report), [Work(pid, OpSend(outcome))] + more;
    RunConcat(start, [Work(pid, OpSend(outcome))], more);
  }

  // The senders are turned to exactly when this call won the activation; everything
  // else leaves a duplicate, an orphan or a store error behind.
  method Process(st: Postgres, senders: Senders, j: Job, ready: bool, failover: bool, terms: Terms, serial: nat,
                 now: Time, fails: set<Point>, ghost s: State, ghost pid: nat, ghost queue: QueueName)
    returns (v: Verdict, sent: Option<Report>, ghost acts: seq<Action>)
    requires s.db == st.Tables() && s.now == now
    requires pid in s.procs && s.procs[pid] == Worker(queue, j, ToActivate)
    modifies st, senders
    ensures var end := RunFrom(s, acts);
      && end == On(s, pid, queue, j, ToFinish, st.Tables(), end.log)
      && end.log.sent == (if sent.Some? then s.log.sent + multiset{j.attempt} else s.log.sent)
    ensures sent.Some? <==> old(IsPending(st.Tables(), j.attempt)) && AtActivation !in fails && AfterActivation !in fails
    ensures Sends(senders, old(senders.calls), ready, failover, sent)
    ensures v.VSuppressed? <==>
      AtActivation !in fails && j.attempt in old(st.attempts) && old(st.attempts)[j.attempt].status != Pending
    ensures !old(IsPending(st.Tables(), j.attempt)) || AtActivation in fails ==> st.Tables() == old(st.Tables())
    ensures old(IsPending(st.Tables(), j.attempt)) && fails == {} && DeadLetterId(j.attempt, serial) !in old(st.deadLetters) ==>
      Concluded(old(st.Tables()), st.Tables(), j.attempt, sent, terms, serial, now, v)
  {
    var won;
    won, v, acts := Activate(st, j, fails, s, pid, queue);
    sent := None;
    if won {
      ghost var log, db := s.log.(activated := s.log.activated + multiset{j.attempt}), st.Tables();
      ghost var more;
      v, sent, more := Deliver(st, senders, j, ready, failover, terms, serial, now, fails, s, pid, queue, log);
      RunConcat(s, acts, more);
      acts := acts + more;
      if fails == {} && DeadLetterId(j.attempt, serial) !in db.deadLetters {
        ConcludedSinceActivation(old(st.Tables()), db, st.Tables(), j.attempt, sent, terms, serial, now, v);
      }
    }
  }

  // The job is acknowledged whatever the call came to; only a failed
  // acknowledgement leaves it for recovery.
  method RunReserved(st: Postgres, q: RedisQueue, senders: Senders, queue: QueueName, j: Job, ready: bool,
                     failover: bool, terms: Terms, serial: nat, now: Time, fails: set<Point>,
                     ghost s: State, ghost pid: nat)
    returns (v: Verdict, sent: Option<Report>, ghost acts: seq<Action>)
    requires Mirrors(s, st, q) && s.now == now
    requires pid in s.procs && s.procs[pid] == Worker(queue, j, ToActivate)
    modifies st, q, senders
    ensures var end := RunFrom(s, acts);
      && end == s.(db := st.Tables(), redis := q.lists, procs := s.procs - {pid}, log := end.log)
      && end.log.sent == (if sent.Some? then s.log.sent + multiset{j.attempt} else s.log.sent)
    ensures sent.Some? <==> old(IsPending(st.Tables(), j.attempt)) && AtActivation !in fails && AfterActivation !in fails
    ensures q.lists == if AtAck in fails then old(q.lists) else Remove(old(q.lists), Reserved(queue), j)
    ensures Sends(senders, old(senders.calls), ready, failover, sent)
    ensures AtActivation in fails ==> st.Tables() == old(st.Tables())
  {
    v, sent, acts := Process(st, senders, j, ready, failover, terms, serial, now, fails, s, pid, queue);
    ghost var log, last := RunFrom(s, acts).log, if AtAck in fails then Environment(OpCrash(pid)) else Work(pid, OpAck);
    FinishStep(s, pid, queue, j, st.Tables(), log);
    RunConcat(s, acts, [last]);
    OneStep(RunFrom(s, acts), last);
    acts := acts + [last];
    if AtAck !in fails {
      var _ := q.AckReserved(queue, j);
    }
  }

  lemma FinishStep(s: State, pid: nat, queue: QueueName, j: Job, db: Db, log: Log)
    ensures var gone := s.(db := db, procs := s.procs - {pid}, log := log);
      && Apply(On(s, pid, queue, j, ToFinish, db, log), Environment(OpCrash(pid))) == gone
      && Apply(On(s, pid, queue, j, ToFinish, db, log), Work(pid, OpAck)) == gone.(redis := Remove(s.redis, Reserved(queue), j))
  {
    Overwrite(s.procs, pid, Worker(queue, j, ToFinish), Worker(queue, j, ToFinish));
  }
}
