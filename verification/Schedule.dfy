// Scheduled work: promotion, redrive and cancellation exclude each other, and
// future work is not dispatched before one of the first two lets it go.
module Schedule {
  import opened Wrappers
  import opened Rows
  import opened Transactions
  import opened Transport
  import opened Protocol
  import opened Steps
  import opened Chain
  import opened Token
  import opened Markers

  // Scheduled later than it was submitted.
  predicate IsFuture(row: Notification) {
    row.scheduledFor.Some? && row.scheduledFor.value > row.submittedAt
  }

  // Nobody repaired this notification through an idempotent resubmission.
  ghost predicate Unrepaired(acts: seq<Action>, key: Key) {
    forall act :: act in acts ==> act != Api(OpEnsureInitial(key))
  }

  // Nothing was ever done about the initial attempt.
  ghost predicate Untouched(s: State, key: Key) {
    IsPending(s.db, Initial(key)) && Initial(key) !in s.db.outbox && Initial(key) !in s.log.enqueued
  }

  ghost predicate ScheduleOk(s: State, key: Key) {
    key in s.db.notifications ==>
      var row := s.db.notifications[key];
      && row.submittedAt <= s.now
      && !(row.promotedAt.Some? && row.cancelledAt.Some?)
      && (row.cancelledAt.Some? ==> IsFuture(row))
      && (IsFuture(row) && row.promotedAt.None? ==> Untouched(s, key))
  }

  lemma UntouchedByProcs(s: State, act: Action, key: Key)
    requires Inv(s) && MarkersOk(s) && Untouched(s, key) && !act.Api?
    ensures Untouched(Apply(s, act), key)
  {
    var a := Initial(key);
    assert AttemptMarked(s, a);
    RowsStep(s, act, a);
    match act {
      case Publish(pid, op) =>
        if pid in s.procs {
          assert ProcMarked(s, s.procs[pid]);
          if s.procs[pid].Publisher? && s.procs[pid].batch != [] { assert s.procs[pid].batch[0] in s.procs[pid].batch; }
        }
      case Work(pid, op) =>
        WorkTouches(s, pid, op);
        if pid in s.procs {
          assert ProcMarked(s, s.procs[pid]);
          if !op.OpReserve? { WorkLetters(s, pid, op); }
        }
      case _ =>
    }
  }

  // What an API call other than the submission, repair, promotion or redrive of
  // the notification itself leaves.
  lemma UntouchedByApi(s: State, op: ApiOp, key: Key)
    requires Inv(s) && MarkersOk(s) && Untouched(s, key)
    requires op != OpEnsureInitial(key) && op != OpPromote(key) && op != OpRedrive(key)
    ensures Untouched(Apply(s, Api(op)), key)
  {
    var a := Initial(key);
    RowsStep(s, Api(op), a);
    if op.OpEnsureRetry? {
      RetryTouches(s.db, op.scheduled, s.now);
    } else if op.OpEnsureReplay? {
      ReplayTouches(s.db, op.deadLetter);
      ReplayTarget(s.db, op.deadLetter);
    } else if op.OpCreate? {
      CreateTouches(s.db, op.key, op.scheduledFor, s.now);
      CreateNeedsFreshId(s.db, op.key, op.scheduledFor, s.now);
    }
    if op.OpEnsureRetry? && op.scheduled == a { assert s.db.attempts[a].status == Pending; }
  }

  lemma CreateNeedsFreshId(db: Db, key: Key, scheduledFor: Option<Time>, now: Time)
    ensures key in db.notifications ==> After(CreateNotification(db, key, scheduledFor, now), db) == db
  {
    assert key == Key(key.notification, if key.channel == Webhook then Webhook else Email);
  }

  lemma ScheduleStep(s: State, act: Action, key: Key)
    requires Inv(s) && MarkersOk(s) && ScheduleOk(s, key) && act != Api(OpEnsureInitial(key))
    ensures ScheduleOk(Apply(s, act), key)
  {
    var s' := Apply(s, act);
    if key in s.db.notifications {
      NotificationsStay(s, act, key);
      ScheduleRow(s, act, key);
      if Untouched(s, key) {
        if !act.Api? {
          UntouchedByProcs(s, act, key);
        } else if act.api != OpPromote(key) && act.api != OpRedrive(key) {
          UntouchedByApi(s, act.api, key);
        }
      }
    } else if key in s'.db.notifications {
      NewNotification(s, act, key);
    }
  }

  lemma ClockNeverFalls(s: State, act: Action)
    ensures s.now <= Apply(s, act).now
  {
    if act.Work? && act.worker in s.procs && s.procs[act.worker].Worker? && s.procs[act.worker].work.ToRecord? {
      RecordTouches(s, act.worker, s.procs[act.worker].work.outcome);
    }
  }

  // How a step may change the schedule columns of an existing notification.
  lemma ScheduleRow(s: State, act: Action, key: Key)
    requires Inv(s) && key in s.db.notifications
    ensures key in Apply(s, act).db.notifications
    ensures var before, after := s.db.notifications[key], Apply(s, act).db.notifications[key];
      && s.now <= Apply(s, act).now
      && (after.promotedAt != before.promotedAt ==>
            before.promotedAt.None? && before.cancelledAt.None? && act.Api? && act.api in {OpPromote(key), OpRedrive(key)})
      && (after.cancelledAt != before.cancelledAt ==>
            before.promotedAt.None? && act == Api(OpCancel(key)) && before.scheduledFor.Some? && before.scheduledFor.value > s.now)
      && (act.Api? && act.api in {OpPromote(key), OpRedrive(key)} && ApiTx(s, act.api).Ok? ==> after.promotedAt.Some?)
      && (act.Api? && act.api in {OpPromote(key), OpRedrive(key)} && ApiTx(s, act.api).Err? ==> Apply(s, act) == s)
  {
    if act.Api? {
      ApiScheduleRow(s, act.api, key);
    } else {
      OnlyApiWritesNotifications(s, act);
      ClockNeverFalls(s, act);
    }
  }

  lemma ApiScheduleRow(s: State, op: ApiOp, key: Key)
    requires key in s.db.notifications
    ensures var db' := After(ApiTx(s, op), s.db);
      && key in db'.notifications
      && var before, after := s.db.notifications[key], db'.notifications[key];
      && (after.promotedAt != before.promotedAt ==>
            before.promotedAt.None? && before.cancelledAt.None? && op in {OpPromote(key), OpRedrive(key)})
      && (after.cancelledAt != before.cancelledAt ==>
            before.promotedAt.None? && op == OpCancel(key) && before.scheduledFor.Some? && before.scheduledFor.value > s.now)
      && (op in {OpPromote(key), OpRedrive(key)} && ApiTx(s, op).Ok? ==> after.promotedAt.Some?)
  {
    match op
    case OpEnsureRetry(a) => RetryTouches(s.db, a, s.now);
    case OpEnsureReplay(d) => ReplayTouches(s.db, d);
    case OpCreate(k, scheduledFor) => CreateTouches(s.db, k, scheduledFor, s.now);
    case _ =>
  }

  lemma OnlyCreateAdds(s: State, act: Action, key: Key)
    requires key !in s.db.notifications && key in Apply(s, act).db.notifications
    ensures act.Api? && act.api.OpCreate? && act.api.key == key
  {
    if act.Api? { ApiOnlyCreateAdds(s, act.api, key); } else { OnlyApiWritesNotifications(s, act); }
  }

  lemma ApiOnlyCreateAdds(s: State, op: ApiOp, key: Key)
    requires key !in s.db.notifications && key in After(ApiTx(s, op), s.db).notifications
    ensures op.OpCreate? && op.key == key
  {
    match op
    case OpEnsureRetry(a) => RetryTouches(s.db, a, s.now);
    case OpEnsureReplay(d) => ReplayTouches(s.db, d);
    case _ =>
  }

  lemma NewNotification(s: State, act: Action, key: Key)
    requires Inv(s) && MarkersOk(s)
    requires key !in s.db.notifications && key in Apply(s, act).db.notifications
    ensures ScheduleOk(Apply(s, act), key)
  {
    OnlyCreateAdds(s, act, key);
    var db' := CreateNotification(s.db, key, act.api.scheduledFor, s.now).value;
    assert AttemptMarked(s, Initial(key));
    assert Initial(key) !in s.db.attempts;
    assert db'.attempts == s.db.attempts[Initial(key) := Attempt(key, 1, Pending, None, None)];
  }

  lemma {:induction false} ScheduleAlways(acts: seq<Action>, key: Key)
    requires Unrepaired(acts, key)
    ensures ScheduleOk(Exec(acts), key)
  {
    if acts != [] {
      var front := acts[..|acts| - 1];
      assert forall act :: act in front ==> act in acts;
      assert acts[|acts| - 1] in acts;
      ScheduleAlways(front, key);
      Always(front);
      MarkersAlways(front);
      ScheduleStep(Exec(front), acts[|acts| - 1], key);
    }
  }

  // -------------------------------------------------------------- theorems

  lemma PromotedOrCancelled(acts: seq<Action>, key: Key)
    requires Unrepaired(acts, key) && key in Exec(acts).db.notifications
    ensures var row := Exec(acts).db.notifications[key]; row.promotedAt.None? || row.cancelledAt.None?
  {
    ScheduleAlways(acts, key);
  }

  // A cancelled notification has one attempt, which nobody touched: no outbox
  // row, no job and no provider call, now or later.
  lemma CancelledStaysSilent(acts: seq<Action>, key: Key)
    requires Unrepaired(acts, key) && key in Exec(acts).db.notifications
    requires Exec(acts).db.notifications[key].cancelledAt.Some?
    ensures var s := Exec(acts);
      && !HasOutboxRow(s.db, key)
      && forall a :: KeyOf(a) == key && (a in s.db.attempts || HasJob(s.redis, a)) ==>
           a == Initial(key) && IsPending(s.db, a) && !HasJob(s.redis, a)
  {
    ScheduleAlways(acts, key);
    Always(acts);
    MarkersAlways(acts);
    var s := Exec(acts);
    forall a | KeyOf(a) == key && (a in s.db.attempts || HasJob(s.redis, a))
      ensures a == Initial(key) && IsPending(s.db, a) && !HasJob(s.redis, a) {
      assert AttemptMarked(s, a) && AttemptMarked(s, Initial(key));
      var root := AncestorAt(s.db, a, 1);
      OnePerSlot(s.db, root, Initial(key));
      OnePerSlot(s.db, a, a);
    }
  }

  // Future work gets its first outbox row from a promotion once it is due or
  // from an explicit redrive, in both cases only while what it asks does not call the work paused.
  lemma FirstDispatchIsAllowed(acts: seq<Action>, act: Action, key: Key)
    requires Unrepaired(acts + [act], key) && key in Exec(acts).db.notifications
    requires var row := Exec(acts).db.notifications[key]; IsFuture(row) && row.promotedAt.None?
    requires Initial(key) in Apply(Exec(acts), act).db.outbox
    ensures var s := Exec(acts);
      || (act == Api(OpRedrive(key)) && key !in s.held)
      || (act == Api(OpPromote(key)) && key !in s.paused && s.db.notifications[key].scheduledFor.value <= s.now)
  {
    assert forall x :: x in acts ==> x in acts + [act];
    assert act in acts + [act];
    ScheduleAlways(acts, key);
    Always(acts);
    MarkersAlways(acts);
    var s := Exec(acts);
    if !act.Api? {
      UntouchedByProcs(s, act, key);
    } else if act.api != OpPromote(key) && act.api != OpRedrive(key) {
      UntouchedByApi(s, act.api, key);
    }
  }

  // A repair through an idempotent resubmission looks at neither schedule nor
  // cancellation: it opens a dispatch exactly when none was ever recorded.
  lemma RepairIgnoresSchedule(acts: seq<Action>, key: Key)
    requires key in Exec(acts).db.notifications
    ensures var s := Exec(acts);
      HasOpenIntent(Apply(s, Api(OpEnsureInitial(key))).db, Initial(key)) <==>
        HasOpenIntent(s.db, Initial(key)) || (Initial(key) !in s.db.outbox && !IsEnqueued(s.db, Initial(key)))
  {
    Always(acts);
  }

  // So the exclusion above needs its premise: cancelled work can be dispatched.
  lemma CancelledCanBeDispatched(key: Key)
    ensures var s := Exec([Api(OpCreate(key, Some(10))), Api(OpCancel(key)), Api(OpEnsureInitial(key))]);
      && key in s.db.notifications && s.db.notifications[key].cancelledAt.Some?
      && HasOpenIntent(s.db, Initial(key)) && ClaimAllowed(s, [Initial(key)])
  {
    var acts := [Api(OpCreate(key, Some(10))), Api(OpCancel(key)), Api(OpEnsureInitial(key))];
    var s1 := Apply(INIT, acts[0]);
    assert acts[..1] == [acts[0]] && acts[..2] == [acts[0], acts[1]];
    assert Exec(acts[..0]) == INIT;
    assert Exec(acts[..1]) == s1 by { assert acts[..1][..0] == []; }
    var s2 := Apply(s1, acts[1]);
    assert Exec(acts[..2]) == s2 by { assert acts[..2][..1] == acts[..1]; }
    var s3 := Apply(s2, acts[2]);
    assert Exec(acts) == s3;
    assert s1.db.outbox == map[] && Initial(key) in s1.db.attempts;
    assert s2.db.notifications[key].cancelledAt == Some(0);
    assert s3.db.outbox == map[Initial(key) := Intent(FromInitial, Unpublished, None, None)];
  }
}
