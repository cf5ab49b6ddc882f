// What the chain structure gives: one live token per notification, gap-free
// attempt numbers, and a bound on the work one submission can cause.
module Token {
  import opened Wrappers
  import opened Rows
  import opened Transactions
  import opened Transport
  import opened Protocol
  import opened Steps
  import opened Chain

  // ---------------------------------------------------------- the live token

  // The five ways a notification can still, or can no longer, move on.
  datatype Live =
    | Active(attempt: AttemptId)
    | Done(attempt: AttemptId)
    | GaveUp(attempt: AttemptId)
    | Unfiled(attempt: AttemptId)          // dead-lettered, its dead letter never inserted
    | OpenLetter(deadLetter: DeadLetterId)

  ghost predicate IsLive(db: Db, key: Key, t: Live) {
    match t
    case Active(a) => a in db.attempts && db.attempts[a].key == key
        && db.attempts[a].status in {Pending, InProgress, RetryScheduled}
    case Done(a) => a in db.attempts && db.attempts[a].key == key && db.attempts[a].status == Sent
    case GaveUp(a) => a in db.attempts && db.attempts[a].key == key && db.attempts[a].status == Failed
        && Retry(a) !in db.attempts
    case Unfiled(a) => a in db.attempts && db.attempts[a].key == key && db.attempts[a].status == DeadLettered
        && NeverIssued(db, a)
    case OpenLetter(d) => d in db.deadLetters && db.deadLetters[d].key == key && Replay(d) !in db.attempts
  }

  function Carrier(t: Live): AttemptId {
    if t.OpenLetter? then t.deadLetter.origin else t.attempt
  }

  ghost predicate IsLeaf(db: Db, a: AttemptId) {
    a in db.attempts && forall b :: b in db.attempts && !b.Initial? ==> Parent(b) != a
  }

  // The attempt at the end of the chain.
  ghost function Leaf(db: Db, key: Key): (a: AttemptId)
    requires ChainOk(db) && key in db.notifications
    ensures IsLeaf(db, a) && KeyOf(a) == key
    ensures Depth(a) == MaxOf(NumbersOf(db, key))
  {
    var numbers := NumbersOf(db, key);
    assert AttemptOk(db, Initial(key));
    assert db.attempts[Initial(key)].number in numbers;
    var a :| a in db.attempts && db.attempts[a].key == key && db.attempts[a].number == MaxOf(numbers);
    assert AttemptOk(db, a);
    assert IsLeaf(db, a) by {
      forall b | b in db.attempts && !b.Initial? ensures Parent(b) != a {
        assert AttemptOk(db, b);
        assert db.attempts[b].key == key ==> db.attempts[b].number in numbers;
      }
    }
    a
  }

  lemma LeafUnique(db: Db, a: AttemptId, b: AttemptId)
    requires ChainOk(db) && IsLeaf(db, a) && IsLeaf(db, b) && KeyOf(a) == KeyOf(b)
    ensures a == b
  {
    LeafBounds(db, a, b);
    LeafBounds(db, b, a);
    OnePerSlot(db, a, b);
  }

  lemma TokenIsOnLeaf(db: Db, key: Key, t: Live)
    requires ChainOk(db) && IsLive(db, key, t)
    ensures IsLeaf(db, Carrier(t)) && KeyOf(Carrier(t)) == key
  {
    var a := Carrier(t);
    if t.OpenLetter? { assert LetterOk(db, t.deadLetter); }
    assert AttemptOk(db, a);
    forall b | b in db.attempts && !b.Initial? ensures Parent(b) != a {
      assert AttemptOk(db, b);
      if b.Replay? {
        assert Issued(db, b.deadLetter);
        assert t.OpenLetter? ==> Issued(db, t.deadLetter);
      }
    }
  }

  lemma TokenExists(db: Db, key: Key) returns (t: Live)
    requires ChainOk(db) && key in db.notifications
    ensures IsLive(db, key, t)
  {
    var a := Leaf(db, key);
    assert AttemptOk(db, a);
    match db.attempts[a].status {
      case Sent => t := Done(a);
      case Failed =>
        t := GaveUp(a);
        assert Retry(a) in db.attempts ==> Parent(Retry(a)) == a;
      case DeadLettered =>
        if d :| Issued(db, d) && d.origin == a {
          assert Replay(d) in db.attempts ==> Parent(Replay(d)) == a;
          assert LetterOk(db, d);
          t := OpenLetter(d);
        } else {
          t := Unfiled(a);
        }
      case _ => t := Active(a);
    }
  }

  lemma TokenUnique(db: Db, key: Key, t: Live, u: Live)
    requires ChainOk(db) && IsLive(db, key, t) && IsLive(db, key, u)
    ensures t == u
  {
    TokenIsOnLeaf(db, key, t);
    TokenIsOnLeaf(db, key, u);
    LeafUnique(db, Carrier(t), Carrier(u));
    if t.OpenLetter? { assert LetterOk(db, t.deadLetter) && Issued(db, t.deadLetter); }
    if u.OpenLetter? { assert LetterOk(db, u.deadLetter) && Issued(db, u.deadLetter); }
  }

  // In every state of every run each notification has exactly one live token.
  lemma OneLiveToken(acts: seq<Action>, key: Key)
    requires key in Exec(acts).db.notifications
    ensures exists t :: IsLive(Exec(acts).db, key, t) && forall u :: IsLive(Exec(acts).db, key, u) ==> u == t
  {
    Always(acts);
    var db := Exec(acts).db;
    var t := TokenExists(db, key);
    forall u | IsLive(db, key, u) ensures u == t {
      TokenUnique(db, key, t, u);
    }
  }

  // Concurrent and repeated retries, replays and repairs never meet a unique
  // constraint: only a submission can conflict.
  lemma OnlySubmissionConflicts(acts: seq<Action>, op: ApiOp)
    ensures ApiTx(Exec(acts), op) == Err(Conflict) ==> op.OpCreate?
  {
    Always(acts);
    ApiKeeps(Exec(acts), op);
  }

  // Nor does the insertion of a dead letter.
  lemma DeadLetterNeverConflicts(acts: seq<Action>, pid: nat, serial: nat)
    requires var s := Exec(acts);
      pid in s.procs && s.procs[pid].Worker? && s.procs[pid].work == ToInsertDeadLetter
    ensures var s := Exec(acts);
      var a := s.procs[pid].job.attempt;
      InsertDeadLetter(s.db, DeadLetterId(a, serial), KeyOf(a), s.now).Ok?
  {
    Always(acts);
    var s := Exec(acts);
    assert WorkOk(s.db, s.procs[pid]);
    assert !Issued(s.db, DeadLetterId(s.procs[pid].job.attempt, serial));
  }

  // A retry is created by its sweep, when it is due and not before; a replay by
  // an operator, for a dead letter that has none. Either gets the next number
  // and an open intent, and a retried attempt is retired in the same step.
  lemma ChildIsEarned(acts: seq<Action>, act: Action, child: AttemptId)
    requires var s := Exec(acts);
      !child.Initial? && child !in s.db.attempts && child in Apply(s, act).db.attempts
    ensures var s := Exec(acts);
      var db' := Apply(s, act).db;
      var parent := Parent(child);
      && parent in s.db.attempts && parent in db'.attempts
      && (if child.Retry?
          then
            && act == Api(OpEnsureRetry(parent)) && s.db.attempts[parent].status == RetryScheduled
            && s.db.attempts[parent].nextRetryAt.Some? && s.db.attempts[parent].nextRetryAt.value <= s.now
            && db'.attempts[parent].status == Failed
          else act == Api(OpEnsureReplay(child.deadLetter)) && child.deadLetter in s.db.deadLetters
               && s.db.attempts[parent].status == DeadLettered)
      && db'.attempts[child].number == s.db.attempts[parent].number + 1
      && db'.attempts[child].status == Pending && HasOpenIntent(db', child)
  {
    Always(acts);
    var s := Exec(acts);
    RowsStep(s, act, child);
    InsertedBy(s, act, child);
    if child.Retry? { RetryEarned(s, child.scheduled); } else { ReplayEarned(s, child.deadLetter); }
  }

  lemma InsertedBy(s: State, act: Action, child: AttemptId)
    requires Inv(s) && !child.Initial? && Inserted(s, act) == Some(child)
    ensures act == Api(if child.Retry? then OpEnsureRetry(child.scheduled) else OpEnsureReplay(child.deadLetter))
    ensures child.Replay? ==> child.deadLetter in s.db.deadLetters
  {
    if act.Api? && act.api.OpEnsureReplay? {
      assert LetterOk(s.db, act.api.deadLetter);
    }
  }

  // The outbox row of an attempt that is only just inserted is a fresh one.
  lemma FreshIntent(db: Db, a: AttemptId, key: Key, number: nat, source: Source)
    requires ChainOk(db) && a !in db.attempts
    ensures var grown := WithAttempt(db, a, key, number);
      var db' := InsertIntent(grown, a, source, grown.attempts[a].enqueuedAt);
      HasOpenIntent(db', a) && db'.attempts == grown.attempts && grown.attempts[a] == Attempt(key, number, Pending, None, None)
  {
  }

  lemma RetryEarned(s: State, p: AttemptId)
    requires Inv(s) && Retry(p) !in s.db.attempts && Retry(p) in After(EnsureRetry(s.db, p, s.now), s.db).attempts
    ensures var db' := After(EnsureRetry(s.db, p, s.now), s.db);
      && p in s.db.attempts && s.db.attempts[p].status == RetryScheduled
      && s.db.attempts[p].nextRetryAt.Some? && s.db.attempts[p].nextRetryAt.value <= s.now
      && p in db'.attempts && db'.attempts[p].status == Failed
      && db'.attempts[Retry(p)].number == s.db.attempts[p].number + 1
      && db'.attempts[Retry(p)].status == Pending && HasOpenIntent(db', Retry(p))
  {
    var grown := RetryShape(s.db, p, s.now);
    FreshIntent(s.db, Retry(p), s.db.attempts[p].key, s.db.attempts[p].number + 1, FromRetry);
  }

  lemma ReplayEarned(s: State, d: DeadLetterId)
    requires Inv(s) && d in s.db.deadLetters && Replay(d) !in s.db.attempts
    requires Replay(d) in After(EnsureReplay(s.db, d), s.db).attempts
    ensures var db' := After(EnsureReplay(s.db, d), s.db);
      && HasStatus(s.db, d.origin, DeadLettered) && d.origin in db'.attempts
      && db'.attempts[Replay(d)].number == s.db.attempts[d.origin].number + 1
      && db'.attempts[Replay(d)].status == Pending && HasOpenIntent(db', Replay(d))
  {
    assert LetterOk(s.db, d);
    assert AttemptOk(s.db, d.origin);
    ReplaySlotFree(s.db, d);
    var row := s.db.deadLetters[d];
    var number := MaxOf(NumbersOf(s.db, row.key)) + 1;
    var a, grown := ReplayShape(s.db, d);
    FreshIntent(s.db, Replay(d), row.key, number, FromReplay);
  }

  // ---------------------------------------------------------------- numbering

  lemma {:induction false} AncestorAt(db: Db, a: AttemptId, n: nat) returns (b: AttemptId)
    requires ChainOk(db) && a in db.attempts && 1 <= n <= Depth(a)
    ensures b in db.attempts && KeyOf(b) == KeyOf(a) && Depth(b) == n
    ensures n < Depth(a) ==> db.attempts[b].status in {Failed, DeadLettered}
    decreases Depth(a)
  {
    assert AttemptOk(db, a);
    if n == Depth(a) {
      b := a;
    } else {
      b := AncestorAt(db, Parent(a), n);
      if n == Depth(Parent(a)) { OnePerSlot(db, b, Parent(a)); }
    }
  }

  // The attempts of a notification are numbered 1..k, each number once; every
  // attempt but the last is failed or dead-lettered.
  lemma NumberedWithoutGaps(acts: seq<Action>, key: Key)
    requires key in Exec(acts).db.notifications
    ensures var db := Exec(acts).db;
      var k := MaxOf(NumbersOf(db, key));
      && (forall n :: n in NumbersOf(db, key) <==> 1 <= n <= k)
      && (forall a, b | a in db.attempts && b in db.attempts && db.attempts[a].key == db.attempts[b].key == key ::
            db.attempts[a].number == db.attempts[b].number ==> a == b)
      && (forall a :: a in db.attempts && db.attempts[a].key == key && db.attempts[a].number < k ==>
            db.attempts[a].status in {Failed, DeadLettered})
  {
    Always(acts);
    var db := Exec(acts).db;
    var leaf := Leaf(db, key);
    var k := MaxOf(NumbersOf(db, key));
    forall n: nat | 1 <= n <= k ensures n in NumbersOf(db, key) {
      var b := AncestorAt(db, leaf, n);
      assert AttemptOk(db, b);
      assert db.attempts[b].number == n;
    }
    forall n | n in NumbersOf(db, key) ensures 1 <= n <= k {
      var b :| b in db.attempts && db.attempts[b].key == key && db.attempts[b].number == n;
      assert AttemptOk(db, b);
    }
    forall a, b | a in db.attempts && b in db.attempts && db.attempts[a].key == db.attempts[b].key == key
        && db.attempts[a].number == db.attempts[b].number ensures a == b {
      assert AttemptOk(db, a) && AttemptOk(db, b);
      OnePerSlot(db, a, b);
    }
    forall a | a in db.attempts && db.attempts[a].key == key && db.attempts[a].number < k
      ensures db.attempts[a].status in {Failed, DeadLettered} {
      assert AttemptOk(db, a);
      var b := AncestorAt(db, leaf, Depth(a));
      OnePerSlot(db, a, b);
    }
  }

  // ------------------------------------------------------------ bounded work

  ghost predicate CallWithin(p: Process, m: nat) {
    p.Worker? && p.work.ToRecord? && p.work.outcome.Retryable? ==> p.work.outcome.limit <= m
  }

  ghost predicate BudgetOk(s: State, m: nat) {
    && (forall a :: HasStatus(s.db, a, RetryScheduled) ==> Depth(a) < m)
    && (forall a {:trigger Retry(a)} :: Retry(a) in s.db.attempts ==> Depth(a) < m)
    && (forall p :: p in s.procs ==> CallWithin(s.procs[p], m))
  }

  ghost predicate WithinLimit(act: Action, m: nat) {
    act.Work? && act.work.OpSend? && act.work.outcome.Retryable? ==> act.work.outcome.limit <= m
  }

  lemma BudgetStatuses(s: State, act: Action, m: nat, a: AttemptId)
    requires Inv(s) && BudgetOk(s, m)
    ensures HasStatus(Apply(s, act).db, a, RetryScheduled) ==> Depth(a) < m
  {
    RowsStep(s, act, a);
    if act.Work? && HasStatus(Apply(s, act).db, a, RetryScheduled) && !HasStatus(s.db, a, RetryScheduled) {
      WorkBudget(s, act.worker, act.work, m, a);
    }
  }

  // Only a recorded retryable failure below its limit schedules a retry.
  lemma WorkBudget(s: State, pid: nat, op: WorkerOp, m: nat, a: AttemptId)
    requires Inv(s) && BudgetOk(s, m) && RowStep(s, Work(pid, op), WorkStep(s, pid, op).db, a)
    requires HasStatus(WorkStep(s, pid, op).db, a, RetryScheduled) && !HasStatus(s.db, a, RetryScheduled)
    ensures Depth(a) < m
  {
    assert CallWithin(s.procs[pid], m);
    assert AttemptOk(s.db, a);
  }

  lemma BudgetStep(s: State, act: Action, m: nat)
    requires Inv(s) && BudgetOk(s, m) && WithinLimit(act, m)
    ensures BudgetOk(Apply(s, act), m)
  {
    var s' := Apply(s, act);
    forall a ensures HasStatus(s'.db, a, RetryScheduled) ==> Depth(a) < m {
      BudgetStatuses(s, act, m, a);
    }
    forall a {:trigger Retry(a)} | Retry(a) in s'.db.attempts ensures Depth(a) < m {
      RowsStep(s, act, Retry(a));
      if act.Api? && act.api.OpEnsureReplay? && act.api.deadLetter in s.db.deadLetters {
        assert LetterOk(s.db, act.api.deadLetter);
      }
    }
    forall p | p in s'.procs ensures CallWithin(s'.procs[p], m) { BudgetCalls(s, act, m, p); }
  }

  lemma BudgetCalls(s: State, act: Action, m: nat, p: nat)
    requires Inv(s) && BudgetOk(s, m) && WithinLimit(act, m) && p in Apply(s, act).procs
    ensures CallWithin(Apply(s, act).procs[p], m)
  {
    if p in s.procs { assert CallWithin(s.procs[p], m); }
    if !ActsFor(act, p) {
      OthersUntouched(s, act, p);
    } else if act.Work? {
      WorkerWithin(s, p, act.work, m);
    }
  }

  lemma WorkerWithin(s: State, p: nat, op: WorkerOp, m: nat)
    requires WithinLimit(Work(p, op), m) && p in WorkStep(s, p, op).procs && (p in s.procs ==> CallWithin(s.procs[p], m))
    ensures CallWithin(WorkStep(s, p, op).procs[p], m)
  {
    if p in s.procs && s.procs[p].Worker? && s.procs[p].work.ToRecord? {
      RecordTouches(s, p, s.procs[p].work.outcome);
    }
  }

  lemma {:induction false} BudgetAlways(acts: seq<Action>, m: nat)
    requires forall act :: act in acts ==> WithinLimit(act, m)
    ensures BudgetOk(Exec(acts), m)
  {
    if acts != [] {
      var front := acts[..|acts| - 1];
      BudgetAlways(front, m);
      Always(front);
      BudgetStep(Exec(front), acts[|acts| - 1], m);
    }
  }

  lemma {:induction false} DepthBounded(s: State, a: AttemptId, m: nat)
    requires Inv(s) && BudgetOk(s, m) && m >= 1 && a in s.db.attempts
    ensures Depth(a) <= m + Replays(a)
  {
    assert AttemptOk(s.db, a);
    match a {
      case Initial(_) =>
      case Retry(p) =>
      case Replay(d) => DepthBounded(s, d.origin, m);
    }
  }

  // With every attempt limit at most `m`, no attempt has a number above `m`
  // plus the replays an operator asked for on its chain.
  lemma AttemptsBounded(acts: seq<Action>, m: nat, a: AttemptId)
    requires m >= 1 && forall act :: act in acts ==> WithinLimit(act, m)
    requires a in Exec(acts).db.attempts
    ensures Exec(acts).db.attempts[a].number <= m + Replays(a)
  {
    Always(acts);
    BudgetAlways(acts, m);
    assert AttemptOk(Exec(acts).db, a);
    DepthBounded(Exec(acts), a, m);
  }

  // How many status changes and new attempts the notification can still see
  // without an operator replay, when every limit is at most `m`.
  ghost function Remaining(db: Db, key: Key, m: nat): int
    requires ChainOk(db) && key in db.notifications
  {
    var leaf := Leaf(db, key);
    4 * (m + Replays(leaf) - Depth(leaf)) + 3 - Rank(db.attempts[leaf].status)
  }

  ghost predicate ChangesAttempts(db: Db, db': Db, key: Key) {
    exists a :: a in db'.attempts && KeyOf(a) == key
      && (a !in db.attempts || db'.attempts[a].status != db.attempts[a].status)
  }

  predicate ReplaysKey(act: Action, key: Key) {
    act.Api? && act.api.OpEnsureReplay? && KeyOf(act.api.deadLetter.origin) == key
  }

  // Where the end of the chain is after a step that is not a replay.
  lemma LeafStep(s: State, act: Action, key: Key)
    requires Inv(s) && key in s.db.notifications && !ReplaysKey(act, key)
    ensures var db' := Apply(s, act).db;
      && ChainOk(db') && key in db'.notifications
      && var leaf := Leaf(s.db, key);
      && Leaf(db', key) == (if Retry(leaf) in db'.attempts then Retry(leaf) else leaf)
      && (Retry(leaf) in db'.attempts ==> s.db.attempts[leaf].status == RetryScheduled && IsPending(db', Retry(leaf)))
      && (forall a :: a in db'.attempts && a !in s.db.attempts && KeyOf(a) == key ==> a == Retry(leaf))
  {
    var db' := Apply(s, act).db;
    StepKeeps(s, act);
    NotificationsStay(s, act, key);
    if act.Api? && act.api.OpEnsureReplay? { ReplayTarget(s.db, act.api.deadLetter); }
    var leaf := Leaf(s.db, key);
    var next := if Retry(leaf) in db'.attempts then Retry(leaf) else leaf;
    RowsStep(s, act, leaf);
    RowsStep(s, act, Retry(leaf));
    forall a | a in db'.attempts && a !in s.db.attempts && KeyOf(a) == key ensures a == Retry(leaf) {
      NewAttemptFollowsLeaf(s, act, key, a);
    }
    forall b | b in db'.attempts && !b.Initial? ensures Parent(b) != next {
      assert AttemptOk(db', b);
      if b in s.db.attempts { assert AttemptOk(s.db, b); }
    }
    assert IsLeaf(db', next);
    LeafUnique(db', next, Leaf(db', key));
  }

  lemma ReplayTarget(db: Db, d: DeadLetterId)
    requires ChainOk(db)
    ensures d in db.deadLetters ==>
      db.deadLetters[d].key == KeyOf(d.origin) && db.deadLetters[d].replayAttempt.GetOr(Replay(d)) == Replay(d)
  {
    if d in db.deadLetters { assert LetterOk(db, d); }
  }

  lemma NewAttemptFollowsLeaf(s: State, act: Action, key: Key, a: AttemptId)
    requires Inv(s) && key in s.db.notifications && !ReplaysKey(act, key)
    requires a in Apply(s, act).db.attempts && a !in s.db.attempts && KeyOf(a) == key
    ensures a == Retry(Leaf(s.db, key))
  {
    if act.Api? && act.api.OpEnsureReplay? { ReplayTarget(s.db, act.api.deadLetter); }
    RowsStep(s, act, a);
    if a.Retry? {
      var p := a.scheduled;
      NoChild(s.db, p);
      LeafUnique(s.db, p, Leaf(s.db, key));
    }
  }

  // Only the last attempt of a chain can still move.
  lemma OnlyLeafMoves(s: State, act: Action, a: AttemptId)
    requires Inv(s) && a in s.db.attempts && KeyOf(a) in s.db.notifications
    ensures a in Apply(s, act).db.attempts
    ensures a != Leaf(s.db, KeyOf(a)) ==> Apply(s, act).db.attempts[a].status == s.db.attempts[a].status
  {
    RowsStep(s, act, a);
    var leaf := Leaf(s.db, KeyOf(a));
    LeafBounds(s.db, leaf, a);
    var b := AncestorAt(s.db, leaf, Depth(a));
    OnePerSlot(s.db, a, b);
    if Depth(a) == Depth(leaf) { OnePerSlot(s.db, a, leaf); }
  }

  lemma RemainingFalls(s: State, act: Action, key: Key, m: nat)
    requires Inv(s) && key in s.db.notifications && !ReplaysKey(act, key)
    ensures var db' := Apply(s, act).db;
      && ChainOk(db') && key in db'.notifications
      && Remaining(db', key, m) + (if ChangesAttempts(s.db, db', key) then 1 else 0) <= Remaining(s.db, key, m)
  {
    var db' := Apply(s, act).db;
    LeafStep(s, act, key);
    var leaf := Leaf(s.db, key);
    StatusNeverFalls(s, act, leaf);
    if ChangesAttempts(s.db, db', key) && Retry(leaf) !in db'.attempts {
      var a :| a in db'.attempts && KeyOf(a) == key
        && (a !in s.db.attempts || db'.attempts[a].status != s.db.attempts[a].status);
      OnlyLeafMoves(s, act, a);
    }
  }

  ghost function Changes(s: State, acts: seq<Action>, key: Key): nat {
    if acts == [] then 0
    else
      var front := RunFrom(s, acts[..|acts| - 1]);
      Changes(s, acts[..|acts| - 1], key)
      + if ChangesAttempts(front.db, Apply(front, acts[|acts| - 1]).db, key) then 1 else 0
  }

  lemma {:induction false} ChangesWithin(s: State, acts: seq<Action>, key: Key, m: nat)
    requires Inv(s) && key in s.db.notifications
    requires forall act :: act in acts ==> !ReplaysKey(act, key)
    ensures var end := RunFrom(s, acts);
      && Inv(end) && key in end.db.notifications
      && Changes(s, acts, key) + Remaining(end.db, key, m) <= Remaining(s.db, key, m)
  {
    if acts != [] {
      var front, last := acts[..|acts| - 1], acts[|acts| - 1];
      ChangesWithin(s, front, key, m);
      assert last in acts;
      StepKeeps(RunFrom(s, front), last);
      RemainingFalls(RunFrom(s, front), last, key, m);
    }
  }

  // Without operator replays the attempts of a notification settle: from any
  // reachable state, however the run goes on, they change at most
  // 4·(m + replays so far) times.
  lemma BoundedWork(acts: seq<Action>, more: seq<Action>, key: Key, m: nat)
    requires m >= 1 && forall act :: act in acts + more ==> WithinLimit(act, m)
    requires key in Exec(acts).db.notifications
    requires forall act :: act in more ==> !ReplaysKey(act, key)
    ensures ChainOk(Exec(acts).db)
    ensures Changes(Exec(acts), more, key) <= Remaining(Exec(acts).db, key, m)
    ensures Remaining(Exec(acts).db, key, m) < 4 * (m + Replays(Leaf(Exec(acts).db, key)))
  {
    var s, end := Exec(acts), RunFrom(Exec(acts), more);
    Always(acts);
    ChangesWithin(s, more, key, m);
    RunConcat(INIT, acts, more);
    BudgetAlways(acts + more, m);
    DepthBounded(end, Leaf(end.db, key), m);
  }
}
