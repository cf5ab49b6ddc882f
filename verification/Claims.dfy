// Leases on outbox rows. A claim is fenced by its timestamp: once it is stale
// its holder can never again mark or release the row, and until it times out
// nobody but its holder can end it.
module Claims {
  import opened Wrappers
  import opened Rows
  import opened Transactions
  import opened Protocol
  import opened Steps

  ghost predicate Valid(db: Db, c: Claim) {
    c.attempt in db.outbox && db.outbox[c.attempt].status == Publishing && db.outbox[c.attempt].claimedAt == Some(c.claimedAt)
  }

  ghost predicate RowClaimOk(s: State, a: AttemptId) {
    a in s.db.outbox ==>
      && (s.db.outbox[a].status == Publishing <==> s.db.outbox[a].claimedAt.Some?)
      && (s.db.outbox[a].claimedAt.Some? ==> s.db.outbox[a].claimedAt.value <= s.now)
  }

  // A lease is current or strictly in the past.
  ghost predicate HeldOk(s: State, p: Process) {
    p.Publisher? ==>
      && (forall c :: c in p.batch ==> c.claimedAt <= s.now && (Valid(s.db, c) || c.claimedAt < s.now))
      && (forall i, j :: 0 <= i < j < |p.batch| ==> p.batch[i].attempt != p.batch[j].attempt)
  }

  ghost predicate Holding(p: Process, c: Claim) {
    p.Publisher? && c in p.batch
  }

  ghost predicate ClaimsOk(s: State) {
    && (forall a {:trigger RowClaimOk(s, a)} :: RowClaimOk(s, a))
    && (forall p {:trigger HeldOk(s, s.procs[p])} :: p in s.procs ==> HeldOk(s, s.procs[p]))
    && (forall p, q, c {:trigger Holding(s.procs[p], c), Holding(s.procs[q], c)} ::
          p in s.procs && q in s.procs && p != q && Holding(s.procs[p], c) && Holding(s.procs[q], c) ==> !Valid(s.db, c))
  }

  // ------------------------------------------------------------ one step

  // A claim that is not current becomes current only if it is taken right now.
  lemma StaleStays(s: State, act: Action, c: Claim)
    requires !Valid(s.db, c) && Valid(Apply(s, act).db, c)
    ensures act.Publish? && act.publish.OpClaim? && act.publisher !in s.procs && ClaimAllowed(s, act.publish.batch)
    ensures c.attempt in act.publish.batch && c.claimedAt == s.now
  {
    match act {
      case Api(op) => ApiLeavesLeases(s, op, c.attempt);
      case Work(pid, op) => WorkTouches(s, pid, op);
      case Publish(pid, op) => PublishStaleStays(s, pid, op, c);
      case _ =>
    }
  }

  lemma PublishStaleStays(s: State, pid: nat, op: PublisherOp, c: Claim)
    requires !Valid(s.db, c) && Valid(PublishStep(s, pid, op).db, c)
    ensures op.OpClaim? && pid !in s.procs && ClaimAllowed(s, op.batch)
    ensures c.attempt in op.batch && c.claimedAt == s.now
  {
  }

  lemma ApiLeavesLeases(s: State, op: ApiOp, a: AttemptId)
    ensures var db' := Apply(s, Api(op)).db;
      && (a in s.db.outbox && a in db'.outbox ==> db'.outbox[a] == s.db.outbox[a])
      && (a in s.db.outbox && a !in db'.outbox ==> s.db.outbox[a].status == Published)
      && (a !in s.db.outbox && a in db'.outbox ==> db'.outbox[a].status != Publishing && db'.outbox[a].claimedAt.None?)
  {
    if op.OpEnsureRetry? {
      RetryTouches(s.db, op.scheduled, s.now);
    } else if op.OpEnsureReplay? {
      ReplayTouches(s.db, op.deadLetter);
    } else if op.OpCreate? {
      CreateTouches(s.db, op.key, op.scheduledFor, s.now);
    }
  }

  // A current claim ends by its holder's own mark or release, or by a reclaim
  // after the lease timed out.
  lemma CurrentEnds(s: State, act: Action, c: Claim)
    requires ClaimsOk(s) && Valid(s.db, c) && !Valid(Apply(s, act).db, c)
    ensures act.Publish?
    ensures act.publish.OpClaim? ==> c.claimedAt + CLAIM_TIMEOUT <= s.now
    ensures !act.publish.OpClaim? ==>
      && act.publisher in s.procs && Holding(s.procs[act.publisher], c)
      && s.procs[act.publisher].batch[0] == c
      && (act.publisher in Apply(s, act).procs ==>
            Apply(s, act).procs[act.publisher] == Publisher(s.procs[act.publisher].batch[1..], ToEnqueue))
  {
    match act {
      case Api(op) => ApiLeavesLeases(s, op, c.attempt);
      case Work(pid, op) => WorkTouches(s, pid, op);
      case Publish(pid, op) => PublishCurrentEnds(s, pid, op, c);
      case _ =>
    }
  }

  lemma PublishCurrentEnds(s: State, pid: nat, op: PublisherOp, c: Claim)
    requires Valid(s.db, c) && !Valid(PublishStep(s, pid, op).db, c)
    ensures op.OpClaim? ==> c.claimedAt + CLAIM_TIMEOUT <= s.now
    ensures !op.OpClaim? ==>
      && pid in s.procs && Holding(s.procs[pid], c) && s.procs[pid].batch[0] == c
      && (pid in PublishStep(s, pid, op).procs ==>
            PublishStep(s, pid, op).procs[pid] == Publisher(s.procs[pid].batch[1..], ToEnqueue))
  {
  }

  // ----------------------------------------------------------- invariant

  lemma RowClaimStep(s: State, act: Action, a: AttemptId)
    requires ClaimsOk(s)
    ensures RowClaimOk(Apply(s, act), a)
  {
    assert RowClaimOk(s, a);
    match act {
      case Api(op) => ApiLeavesLeases(s, op, a);
      case Work(pid, op) => WorkTouches(s, pid, op);
      case _ =>
    }
    ClockRuns(s, act);
  }

  lemma ClockRuns(s: State, act: Action)
    ensures s.now <= Apply(s, act).now
    ensures s.now < Apply(s, act).now ==> act.Environment?
  {
    if act.Work? && act.worker in s.procs && s.procs[act.worker].Worker? && s.procs[act.worker].work.ToRecord? {
      RecordTouches(s, act.worker, s.procs[act.worker].work.outcome);
    }
  }

  // Where the leases of a publisher after a step come from.
  lemma HeldBefore(s: State, act: Action, pid: nat)
    requires pid in Apply(s, act).procs && Apply(s, act).procs[pid].Publisher?
    ensures var after := Apply(s, act).procs[pid].batch;
      || (pid in s.procs && s.procs[pid].Publisher? && (after == s.procs[pid].batch
            || (s.procs[pid].batch != [] && after == s.procs[pid].batch[1..])))
      || (pid !in s.procs && act.Publish? && act.publisher == pid && act.publish.OpClaim?
            && ClaimAllowed(s, act.publish.batch) && after == Leased(act.publish.batch, s.now))
  {
    if !ActsFor(act, pid) { OthersUntouched(s, act, pid); }
    if act.Work? && act.worker in s.procs && s.procs[act.worker].Worker? && s.procs[act.worker].work.ToRecord? {
      RecordTouches(s, act.worker, s.procs[act.worker].work.outcome);
    }
  }

  lemma HeldStep(s: State, act: Action, pid: nat)
    requires ClaimsOk(s) && pid in Apply(s, act).procs
    ensures HeldOk(Apply(s, act), Apply(s, act).procs[pid])
  {
    var s' := Apply(s, act);
    var p := s'.procs[pid];
    ClockRuns(s, act);
    if p.Publisher? {
      HeldBefore(s, act, pid);
      if pid in s.procs {
        assert HeldOk(s, s.procs[pid]);
        forall c | c in p.batch ensures c.claimedAt <= s'.now && (Valid(s'.db, c) || c.claimedAt < s'.now) {
          assert Holding(s.procs[pid], c);
          if Valid(s.db, c) && !Valid(s'.db, c) { EndedInThePast(s, act, pid, c); }
        }
      } else {
        forall c | c in p.batch ensures c.claimedAt == s.now && Valid(s'.db, c) {
          assert c.attempt in act.publish.batch;
        }
      }
    }
  }

  // When the lease of a live publisher ends under it, it ended by timeout.
  lemma EndedInThePast(s: State, act: Action, pid: nat, c: Claim)
    requires ClaimsOk(s) && pid in s.procs && Holding(s.procs[pid], c)
    requires Valid(s.db, c) && !Valid(Apply(s, act).db, c)
    requires pid in Apply(s, act).procs && Holding(Apply(s, act).procs[pid], c)
    ensures c.claimedAt + CLAIM_TIMEOUT <= s.now
  {
    CurrentEnds(s, act, c);
    assert HeldOk(s, s.procs[pid]);
  }

  lemma SoleHolderStep(s: State, act: Action, p: nat, q: nat, c: Claim)
    requires ClaimsOk(s)
    requires var s' := Apply(s, act);
      p in s'.procs && q in s'.procs && p != q && Holding(s'.procs[p], c) && Holding(s'.procs[q], c)
    ensures !Valid(Apply(s, act).db, c)
  {
    var s' := Apply(s, act);
    HeldBefore(s, act, p);
    HeldBefore(s, act, q);
    forall h | h in s.procs ensures HeldOk(s, s.procs[h]) {}
    if p in s.procs && q in s.procs {
      assert Holding(s.procs[p], c) && Holding(s.procs[q], c) && HeldOk(s, s.procs[p]);
      if Valid(s'.db, c) { StaleStays(s, act, c); }
    }
  }

  lemma ClaimsStep(s: State, act: Action)
    requires ClaimsOk(s)
    ensures ClaimsOk(Apply(s, act))
  {
    var s' := Apply(s, act);
    forall a ensures RowClaimOk(s', a) { RowClaimStep(s, act, a); }
    forall p | p in s'.procs ensures HeldOk(s', s'.procs[p]) { HeldStep(s, act, p); }
    forall p, q, c | p in s'.procs && q in s'.procs && p != q && Holding(s'.procs[p], c) && Holding(s'.procs[q], c)
      ensures !Valid(s'.db, c) {
      SoleHolderStep(s, act, p, q, c);
    }
  }

  lemma {:induction false} ClaimsAlways(acts: seq<Action>)
    ensures ClaimsOk(Exec(acts))
  {
    if acts != [] {
      ClaimsAlways(acts[..|acts| - 1]);
      ClaimsStep(Exec(acts[..|acts| - 1]), acts[|acts| - 1]);
    }
  }

  // ------------------------------------------------------------- theorems

  // A stale write changes nothing.
  lemma StaleWritesNothing(db: Db, c: Claim, now: Time)
    requires !Valid(db, c)
    ensures After(MarkPublished(db, c.attempt, c.claimedAt, now), db) == db
    ensures After(RecordIntentError(db, c.attempt, c.claimedAt), db) == db
  {
  }

  lemma {:induction false} StaleForever(s: State, more: seq<Action>, c: Claim)
    requires !Valid(s.db, c) && c.claimedAt < s.now
    ensures !Valid(RunFrom(s, more).db, c) && c.claimedAt < RunFrom(s, more).now
  {
    if more != [] {
      StaleForever(s, more[..|more| - 1], c);
      var mid, act := RunFrom(s, more[..|more| - 1]), more[|more| - 1];
      ClockRuns(mid, act);
      if Valid(Apply(mid, act).db, c) { StaleStays(mid, act, c); }
    }
  }

  // Fencing: a publisher whose lease is no longer current can never again
  // publish or release that row, however the run continues.
  lemma Fenced(acts: seq<Action>, more: seq<Action>, pid: nat, c: Claim)
    requires var s := Exec(acts); pid in s.procs && Holding(s.procs[pid], c) && !Valid(s.db, c)
    ensures var end := RunFrom(Exec(acts), more);
      && !Valid(end.db, c)
      && After(MarkPublished(end.db, c.attempt, c.claimedAt, end.now), end.db) == end.db
      && After(RecordIntentError(end.db, c.attempt, c.claimedAt), end.db) == end.db
  {
    ClaimsAlways(acts);
    assert HeldOk(Exec(acts), Exec(acts).procs[pid]);
    StaleForever(Exec(acts), more, c);
    StaleWritesNothing(RunFrom(Exec(acts), more).db, c, RunFrom(Exec(acts), more).now);
  }

  // Two publishers never hold a current lease on the same row, and a row is
  // leased exactly while it carries a claim time.
  lemma OneLeaseHolder(acts: seq<Action>, p: nat, q: nat, c: Claim, d: Claim)
    requires var s := Exec(acts);
      && p in s.procs && q in s.procs && Holding(s.procs[p], c) && Holding(s.procs[q], d)
      && c.attempt == d.attempt && Valid(s.db, c) && Valid(s.db, d)
    ensures p == q && c == d
  {
    ClaimsAlways(acts);
    var s := Exec(acts);
    assert c == d;
  }

  lemma ClaimTimeIffPublishing(acts: seq<Action>, a: AttemptId)
    requires a in Exec(acts).db.outbox
    ensures Exec(acts).db.outbox[a].status == Publishing <==> Exec(acts).db.outbox[a].claimedAt.Some?
  {
    ClaimsAlways(acts);
    assert RowClaimOk(Exec(acts), a);
  }

  // A published row stays published until maintenance deletes it.
  lemma PublishedStays(s: State, act: Action, a: AttemptId)
    requires a in s.db.outbox && s.db.outbox[a].status == Published && RowClaimOk(s, a)
    ensures a in Apply(s, act).db.outbox ==> Apply(s, act).db.outbox[a] == s.db.outbox[a]
    ensures a !in Apply(s, act).db.outbox ==>
      && act.Api? && act.api.OpCleanOutbox?
      && s.db.outbox[a].publishedAt.Some? && s.db.outbox[a].publishedAt.value < act.api.cutoff
  {
    match act {
      case Api(op) =>
        ApiLeavesLeases(s, op, a);
        if !op.OpCleanOutbox? { OnlyCleaningDeletes(s, op, a); }
      case Work(pid, op) => WorkTouches(s, pid, op);
      case Publish(pid, op) => PublishKeepsPublished(s, pid, op, a);
      case _ =>
    }
  }

  lemma PublishKeepsPublished(s: State, pid: nat, op: PublisherOp, a: AttemptId)
    requires a in s.db.outbox && s.db.outbox[a].status == Published
    ensures a in PublishStep(s, pid, op).db.outbox && PublishStep(s, pid, op).db.outbox[a] == s.db.outbox[a]
  {
  }

  lemma OnlyCleaningDeletes(s: State, op: ApiOp, a: AttemptId)
    requires a in s.db.outbox && !op.OpCleanOutbox?
    ensures a in Apply(s, Api(op)).db.outbox
  {
    if op.OpEnsureRetry? {
      RetryTouches(s.db, op.scheduled, s.now);
    } else if op.OpEnsureReplay? {
      ReplayTouches(s.db, op.deadLetter);
    } else if op.OpCreate? {
      CreateTouches(s.db, op.key, op.scheduledFor, s.now);
    }
  }

  // While the lease is younger than the timeout, nobody but its holder ends it.
  lemma {:induction false} LeaseSurvives(s: State, more: seq<Action>, pid: nat, c: Claim)
    requires ClaimsOk(s) && pid in s.procs && Holding(s.procs[pid], c) && Valid(s.db, c)
    requires forall act :: act in more ==> !ActsFor(act, pid) && act != Environment(OpCrash(pid))
    requires RunFrom(s, more).now < c.claimedAt + CLAIM_TIMEOUT
    ensures ClaimsOk(RunFrom(s, more)) && Valid(RunFrom(s, more).db, c)
    ensures pid in RunFrom(s, more).procs && RunFrom(s, more).procs[pid] == s.procs[pid]
  {
    if more != [] {
      var front, act := more[..|more| - 1], more[|more| - 1];
      var mid := RunFrom(s, front);
      ClockRuns(mid, act);
      assert forall b :: b in front ==> b in more;
      LeaseSurvives(s, front, pid, c);
      assert act in more;
      ClaimsStep(mid, act);
      BystanderStays(mid, act, pid);
      if !Valid(Apply(mid, act).db, c) {
        EndedInThePast(mid, act, pid, c);
      }
    }
  }

  lemma BystanderStays(s: State, act: Action, pid: nat)
    requires pid in s.procs && !ActsFor(act, pid) && act != Environment(OpCrash(pid))
    ensures pid in Apply(s, act).procs && Apply(s, act).procs[pid] == s.procs[pid]
  {
    if act.Work? && act.worker in s.procs && s.procs[act.worker].Worker? && s.procs[act.worker].work.ToRecord? {
      RecordTouches(s, act.worker, s.procs[act.worker].work.outcome);
    }
  }

  // A lease that its publisher still has on its list, and that has not timed
  // out, is current.
  ghost predicate FreshOk(s: State) {
    forall p, c {:trigger Holding(s.procs[p], c)} :: p in s.procs && Holding(s.procs[p], c) ==>
      Valid(s.db, c) || c.claimedAt + CLAIM_TIMEOUT <= s.now
  }

  lemma FreshClaim(s: State, act: Action, p: nat, c: Claim)
    requires ClaimsOk(s) && FreshOk(s) && p in Apply(s, act).procs && Holding(Apply(s, act).procs[p], c)
    ensures Valid(Apply(s, act).db, c) || c.claimedAt + CLAIM_TIMEOUT <= Apply(s, act).now
  {
    HeldBefore(s, act, p);
    ClockRuns(s, act);
    if p in s.procs {
      assert Holding(s.procs[p], c);
      if Valid(s.db, c) && !Valid(Apply(s, act).db, c) { EndedInThePast(s, act, p, c); }
    } else {
      assert c.attempt in act.publish.batch;
    }
  }

  lemma {:induction false} FreshAlways(acts: seq<Action>)
    ensures FreshOk(Exec(acts))
  {
    if acts != [] {
      var s, act := Exec(acts[..|acts| - 1]), acts[|acts| - 1];
      FreshAlways(acts[..|acts| - 1]);
      ClaimsAlways(acts[..|acts| - 1]);
      forall p, c | p in Exec(acts).procs && Holding(Exec(acts).procs[p], c)
        ensures Valid(Exec(acts).db, c) || c.claimedAt + CLAIM_TIMEOUT <= Exec(acts).now {
        FreshClaim(s, act, p, c);
      }
    }
  }
}
