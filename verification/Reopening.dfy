// Work that was dispatched once and is dispatched again: after maintenance has
// deleted the published outbox row, promotion and redrive can no longer see it.
module Reopening {
  import opened Rows
  import opened Transactions
  import opened Protocol
  import opened Steps
  import opened Chain
  import opened Markers
  import opened Claims

  // The run deleted the attempt's published row, and no intent came back since.
  ghost predicate Cleaned(acts: seq<Action>, a: AttemptId) {
    acts != [] && a !in Exec(acts).db.outbox
    && (Cleaned(acts[..|acts| - 1], a) || Deletes(Exec(acts[..|acts| - 1]), acts[|acts| - 1], a))
  }

  // One maintenance step that removes the row, published before its cutoff.
  predicate Deletes(s: State, act: Action, a: AttemptId) {
    && act.Api? && act.api.OpCleanOutbox? && a in s.db.outbox && s.db.outbox[a].status == Published
    && s.db.outbox[a].publishedAt.Some? && s.db.outbox[a].publishedAt.value < act.api.cutoff
  }

  // Only maintenance takes rows out, and only the mark of a publisher, which
  // needs the row, sets the marker of an attempt.
  lemma RowGone(s: State, act: Action, a: AttemptId)
    requires MarkersOk(s) && RowClaimOk(s, a)
    requires a !in Apply(s, act).db.outbox && IsEnqueued(Apply(s, act).db, a)
    ensures Deletes(s, act, a) || (a !in s.db.outbox && IsEnqueued(s.db, a))
  {
    assert IntentMarked(s.db, a);
    match act {
      case Api(op) =>
        ApiLeavesLeases(s, op, a);
        RowsStep(s, act, a);
        if a in s.db.outbox { PublishedStays(s, act, a); }
      case Publish(pid, op) =>
        PublishOutbox(s, pid, op, a);
        if !IsEnqueued(s.db, a) && a !in s.db.outbox { PublishLeavesUnmarked(s, pid, op, a); }
      case Work(pid, op) =>
        WorkTouches(s, pid, op);
        RowsStep(s, act, a);
      case _ =>
    }
  }

  lemma EnqueuedStays(s: State, act: Action, a: AttemptId)
    requires IsEnqueued(s.db, a)
    ensures IsEnqueued(Apply(s, act).db, a)
  {
    RowsStep(s, act, a);
  }

  // In a reachable state, an enqueued attempt without an outbox row is one whose
  // published row maintenance deleted, and no other.
  lemma {:induction false} CleanedIff(acts: seq<Action>, a: AttemptId)
    ensures Cleaned(acts, a) <==> IsEnqueued(Exec(acts).db, a) && a !in Exec(acts).db.outbox
  {
    if acts != [] {
      var front, act := acts[..|acts| - 1], acts[|acts| - 1];
      var s := Exec(front);
      CleanedIff(front, a);
      MarkersAlways(front);
      ClaimsAlways(front);
      assert RowClaimOk(s, a) && IntentMarked(s.db, a);
      if IsEnqueued(s.db, a) { EnqueuedStays(s, act, a); }
      if a !in Exec(acts).db.outbox && IsEnqueued(Exec(acts).db, a) { RowGone(s, act, a); }
    }
  }

  // What an operator, or the sweep, finds when it looks at the notification.
  ghost predicate Eligible(s: State, key: Key, promote: bool) {
    && key in s.db.notifications
    && s.db.notifications[key].promotedAt.None? && s.db.notifications[key].cancelledAt.None?
    && (if promote
        then key !in s.paused && s.db.notifications[key].scheduledFor.Some? && s.db.notifications[key].scheduledFor.value <= s.now
        else key !in s.held)
  }

  lemma Accepts(s: State, key: Key, promote: bool)
    requires Inv(s)
    ensures ApiTx(s, if promote then OpPromote(key) else OpRedrive(key)).Ok?
      <==> Eligible(s, key, promote) && Initial(key) !in s.db.outbox
  {
    if key in s.db.notifications { assert AttemptOk(s.db, Initial(key)); }
  }

  predicate Opened(db: Db, db': Db, a: AttemptId) {
    HasOpenIntent(db', a) && !HasOpenIntent(db, a)
  }

  lemma OpensOne(s: State, key: Key, promote: bool, a: AttemptId)
    requires Inv(s)
    ensures Opened(s.db, Apply(s, Api(if promote then OpPromote(key) else OpRedrive(key))).db, a)
      <==> a == Initial(key) && Eligible(s, key, promote) && a !in s.db.outbox
  {
    Accepts(s, key, promote);
  }

  // Promotion and redrive open an intent for work that was enqueued before
  // exactly if the notification is eligible and maintenance has deleted the
  // published row of its first attempt.
  lemma RedriveReopens(acts: seq<Action>, key: Key, promote: bool)
    ensures var s := Exec(acts);
      var s' := Apply(s, Api(if promote then OpPromote(key) else OpRedrive(key)));
      (exists a :: IsEnqueued(s.db, a) && Opened(s.db, s'.db, a))
        <==> Eligible(s, key, promote) && Cleaned(acts, Initial(key))
  {
    var s := Exec(acts);
    var s' := Apply(s, Api(if promote then OpPromote(key) else OpRedrive(key)));
    Always(acts);
    Accepts(s, key, promote);
    CleanedIff(acts, Initial(key));
    forall a ensures Opened(s.db, s'.db, a) <==> a == Initial(key) && Eligible(s, key, promote) && a !in s.db.outbox {
      OpensOne(s, key, promote, a);
    }
    if Eligible(s, key, promote) && Cleaned(acts, Initial(key)) { assert Opened(s.db, s'.db, Initial(key)); }
  }
}
