// Attempts and dead letters carry no link to each other; the inspection query
// pairs them by rank. The pairing is right exactly when dead letters are ordered
// like their attempts and none is missing before a present one. Runs without
// dead-letter cleanup keep both, even when a process crashes between marking an
// attempt and inserting its dead letter.
module Pairing {
  import opened Rows
  import opened Transactions
  import opened Protocol
  import opened Steps
  import opened Chain
  import opened Token
  import opened Claims

  // The order of generated id texts.
  type IdOrder = (DeadLetterId, DeadLetterId) -> bool

  ghost predicate StrictTotal(less: IdOrder) {
    && (forall d :: !less(d, d))
    && (forall d, e :: d != e ==> less(d, e) || less(e, d))
    && (forall d, e, f :: less(d, e) && less(e, f) ==> less(d, f))
  }

  ghost predicate IsLetter(db: Db, key: Key, d: DeadLetterId) {
    d in db.deadLetters && db.deadLetters[d].key == key
  }

  ghost predicate IsDeadLettered(db: Db, key: Key, a: AttemptId) {
    a in db.attempts && db.attempts[a].key == key && db.attempts[a].status == DeadLettered
  }

  // ORDER BY dead_lettered_at, id
  ghost predicate Before(db: Db, less: IdOrder, d: DeadLetterId, e: DeadLetterId)
    requires d in db.deadLetters && e in db.deadLetters
  {
    var t, u := db.deadLetters[d].deadLetteredAt, db.deadLetters[e].deadLetteredAt;
    t < u || (t == u && less(d, e))
  }

  ghost function LettersUpTo(db: Db, key: Key, less: IdOrder, d: DeadLetterId): set<DeadLetterId>
    requires d in db.deadLetters
  {
    set e | e in db.deadLetters && IsLetter(db, key, e) && (e == d || Before(db, less, e, d))
  }

  ghost function AttemptsUpTo(db: Db, key: Key, a: AttemptId): set<AttemptId>
    requires a in db.attempts
  {
    set b | b in db.attempts && IsDeadLettered(db, key, b) && db.attempts[b].number <= db.attempts[a].number
  }

  // The two ROW_NUMBER() columns of the query.
  ghost function LetterRank(db: Db, key: Key, less: IdOrder, d: DeadLetterId): nat
    requires d in db.deadLetters
  {
    |LettersUpTo(db, key, less, d)|
  }

  ghost function AttemptRank(db: Db, key: Key, a: AttemptId): nat
    requires a in db.attempts
  {
    |AttemptsUpTo(db, key, a)|
  }

  // The join returns for each dead-lettered attempt the dead letter inserted for it.
  ghost predicate PairsRightly(db: Db, key: Key, less: IdOrder) {
    forall a, d :: IsDeadLettered(db, key, a) && IsLetter(db, key, d) ==>
      (AttemptRank(db, key, a) == LetterRank(db, key, less, d) <==> d.origin == a)
  }

  ghost predicate OrderedLikeAttempts(db: Db, key: Key, less: IdOrder) {
    forall d, e :: IsLetter(db, key, d) && IsLetter(db, key, e) && Depth(d.origin) < Depth(e.origin) ==>
      Before(db, less, d, e)
  }

  ghost predicate HasLetter(db: Db, key: Key, a: AttemptId) {
    exists d :: IsLetter(db, key, d) && d.origin == a
  }

  // No dead-lettered attempt lacks a dead letter while a later one has it.
  ghost predicate NoneMissing(db: Db, key: Key) {
    forall a, d | IsDeadLettered(db, key, a) && IsLetter(db, key, d) && db.attempts[a].number < Depth(d.origin) ::
      HasLetter(db, key, a)
  }

  // ------------------------------------------------------------- counting

  function Origins(letters: set<DeadLetterId>): set<AttemptId> {
    set d | d in letters :: d.origin
  }

  lemma {:induction false} OriginsCount(letters: set<DeadLetterId>)
    requires forall d, e :: d in letters && e in letters && d.origin == e.origin ==> d == e
    ensures |Origins(letters)| == |letters|
  {
    if letters != {} {
      var d :| d in letters;
      OriginsCount(letters - {d});
      assert Origins(letters) == Origins(letters - {d}) + {d.origin};
      assert d.origin !in Origins(letters - {d});
    }
  }

  lemma {:induction false} SubsetCount<T>(small: set<T>, big: set<T>)
    requires small <= big
    ensures |small| <= |big|
    ensures |small| == |big| ==> small == big
  {
    if small != {} {
      var x :| x in small;
      SubsetCount(small - {x}, big - {x});
    }
  }

  lemma LetterFacts(db: Db, key: Key, d: DeadLetterId)
    requires ChainOk(db) && IsLetter(db, key, d)
    ensures IsDeadLettered(db, key, d.origin) && db.attempts[d.origin].number == Depth(d.origin)
    ensures KeyOf(d.origin) == key
  {
    assert LetterOk(db, d) && AttemptOk(db, d.origin);
  }

  // Ranks of attempts follow their numbers.
  lemma AttemptRankMonotone(db: Db, key: Key, a: AttemptId, b: AttemptId)
    requires ChainOk(db) && IsDeadLettered(db, key, a) && IsDeadLettered(db, key, b)
    ensures db.attempts[a].number < db.attempts[b].number <==> AttemptRank(db, key, a) < AttemptRank(db, key, b)
    ensures AttemptRank(db, key, a) == AttemptRank(db, key, b) ==> a == b
  {
    assert AttemptOk(db, a) && AttemptOk(db, b);
    var upA, upB := AttemptsUpTo(db, key, a), AttemptsUpTo(db, key, b);
    assert a in upA && b in upB;
    if db.attempts[a].number < db.attempts[b].number {
      assert b !in upA;
      SubsetCount(upA, upB);
    } else if db.attempts[b].number < db.attempts[a].number {
      assert a !in upB;
      SubsetCount(upB, upA);
    } else {
      OnePerSlot(db, a, b);
    }
  }

  lemma LetterRankMonotone(db: Db, key: Key, less: IdOrder, d: DeadLetterId, e: DeadLetterId)
    requires StrictTotal(less) && IsLetter(db, key, d) && IsLetter(db, key, e)
    ensures LetterRank(db, key, less, d) < LetterRank(db, key, less, e) ==> Before(db, less, d, e)
  {
    if !Before(db, less, d, e) {
      SubsetCount(LettersUpTo(db, key, less, e), LettersUpTo(db, key, less, d));
    }
  }

  // In the right order, the letters up to `d` belong to the earlier
  // dead-lettered attempts that have one.
  lemma UpToOrigins(db: Db, key: Key, less: IdOrder, d: DeadLetterId)
    requires ChainOk(db) && StrictTotal(less) && OrderedLikeAttempts(db, key, less) && IsLetter(db, key, d)
    ensures d.origin in db.attempts
    ensures LetterRank(db, key, less, d) == |Origins(LettersUpTo(db, key, less, d))|
    ensures forall a :: a in Origins(LettersUpTo(db, key, less, d)) <==>
      a in AttemptsUpTo(db, key, d.origin) && HasLetter(db, key, a)
  {
    var letters := LettersUpTo(db, key, less, d);
    LetterFacts(db, key, d);
    forall e, f | e in letters && f in letters && e.origin == f.origin ensures e == f {
      assert Issued(db, e) && Issued(db, f);
    }
    OriginsCount(letters);
    forall a | a in Origins(letters) ensures a in AttemptsUpTo(db, key, d.origin) && HasLetter(db, key, a) {
      var e :| e in letters && e.origin == a;
      LetterFacts(db, key, e);
      assert Depth(d.origin) < Depth(e.origin) ==> Before(db, less, d, e);
    }
    forall a | a in AttemptsUpTo(db, key, d.origin) && HasLetter(db, key, a) ensures a in Origins(letters) {
      var e :| IsLetter(db, key, e) && e.origin == a;
      LetterFacts(db, key, e);
      if Depth(a) == Depth(d.origin) {
        OnePerSlot(db, a, d.origin);
        assert Issued(db, d) && Issued(db, e);
      }
      assert e in letters;
    }
  }

  lemma RankOfOrigin(db: Db, key: Key, less: IdOrder, d: DeadLetterId)
    requires ChainOk(db) && StrictTotal(less) && OrderedLikeAttempts(db, key, less) && IsLetter(db, key, d)
    ensures d.origin in db.attempts
    ensures LetterRank(db, key, less, d) == AttemptRank(db, key, d.origin) <==>
      forall a :: a in AttemptsUpTo(db, key, d.origin) ==> HasLetter(db, key, a)
  {
    LetterFacts(db, key, d);
    UpToOrigins(db, key, less, d);
    var have, all := Origins(LettersUpTo(db, key, less, d)), AttemptsUpTo(db, key, d.origin);
    SubsetCount(have, all);
    if forall a :: a in all ==> HasLetter(db, key, a) {
      assert have == all;
    }
  }

  // --------------------------------------------------------- when it is right

  lemma RightImpliesOrdered(db: Db, key: Key, less: IdOrder)
    requires ChainOk(db) && StrictTotal(less) && PairsRightly(db, key, less)
    ensures OrderedLikeAttempts(db, key, less)
  {
    forall d, e | IsLetter(db, key, d) && IsLetter(db, key, e) && Depth(d.origin) < Depth(e.origin)
      ensures Before(db, less, d, e) {
      LetterFacts(db, key, d);
      LetterFacts(db, key, e);
      AttemptRankMonotone(db, key, d.origin, e.origin);
      LetterRankMonotone(db, key, less, d, e);
    }
  }

  lemma PairsRightlyIff(db: Db, key: Key, less: IdOrder)
    requires ChainOk(db) && StrictTotal(less)
    ensures PairsRightly(db, key, less) <==> OrderedLikeAttempts(db, key, less) && NoneMissing(db, key)
  {
    if PairsRightly(db, key, less) {
      RightImpliesOrdered(db, key, less);
      forall a, d | IsDeadLettered(db, key, a) && IsLetter(db, key, d) && db.attempts[a].number < Depth(d.origin)
        ensures HasLetter(db, key, a) {
        LetterFacts(db, key, d);
        RankOfOrigin(db, key, less, d);
        assert a in AttemptsUpTo(db, key, d.origin);
      }
    }
    if OrderedLikeAttempts(db, key, less) && NoneMissing(db, key) {
      forall a, d | IsDeadLettered(db, key, a) && IsLetter(db, key, d)
        ensures AttemptRank(db, key, a) == LetterRank(db, key, less, d) <==> d.origin == a {
        LetterFacts(db, key, d);
        RankOfOrigin(db, key, less, d);
        forall b | b in AttemptsUpTo(db, key, d.origin) ensures HasLetter(db, key, b) {
          assert AttemptOk(db, b);
          if Depth(b) == Depth(d.origin) { OnePerSlot(db, b, d.origin); }
        }
        AttemptRankMonotone(db, key, a, d.origin);
      }
    }
  }

  // ------------------------------------------------------------ over runs

  // Insertion times never run against the order of attempts.
  ghost predicate TimesOk(s: State) {
    && (forall d :: d in s.db.deadLetters ==> s.db.deadLetters[d].deadLetteredAt <= s.now)
    && (forall d, e | d in s.db.deadLetters && e in s.db.deadLetters && s.db.deadLetters[d].key == s.db.deadLetters[e].key ::
          Depth(d.origin) < Depth(e.origin) ==>
            s.db.deadLetters[d].deadLetteredAt <= s.db.deadLetters[e].deadLetteredAt)
  }

  // What may become of the dead letters in one step.
  ghost predicate SameDates(before: Db, after: Db) {
    forall d :: d in after.deadLetters ==>
      && d in before.deadLetters
      && after.deadLetters[d].key == before.deadLetters[d].key
      && after.deadLetters[d].deadLetteredAt == before.deadLetters[d].deadLetteredAt
  }

  lemma ApiKeepsDates(s: State, op: ApiOp)
    ensures SameDates(s.db, After(ApiTx(s, op), s.db))
  {
    match op
    case OpEnsureRetry(a) => RetryTouches(s.db, a, s.now);
    case OpEnsureReplay(d) => ReplayLetters(s.db, d);
    case OpCreate(key, scheduledFor) => CreateTouches(s.db, key, scheduledFor, s.now);
    case _ =>
  }

  // One insert besides.
  ghost predicate LettersOf(s: State, act: Action, after: Db) {
    forall d :: d in after.deadLetters ==>
      if d in s.db.deadLetters
      then after.deadLetters[d].key == s.db.deadLetters[d].key
        && after.deadLetters[d].deadLetteredAt == s.db.deadLetters[d].deadLetteredAt
      else Adds(s, act, d) && after.deadLetters[d].key == KeyOf(d.origin) && after.deadLetters[d].deadLetteredAt == s.now
  }

  lemma PublishLetters(s: State, pid: nat, op: PublisherOp)
    ensures LettersOf(s, Publish(pid, op), PublishStep(s, pid, op).db)
  {
  }

  lemma WorkLetters(s: State, pid: nat, op: WorkerOp)
    requires Inv(s)
    ensures LettersOf(s, Work(pid, op), WorkStep(s, pid, op).db)
  {
    if pid in s.procs && s.procs[pid].Worker? && s.procs[pid].work.ToRecord? {
      RecordTouches(s, pid, s.procs[pid].work.outcome);
    }
  }

  // How a step may change the dead letters.
  lemma LettersStep(s: State, act: Action)
    requires Inv(s)
    ensures LettersOf(s, act, Apply(s, act).db)
  {
    match act {
      case Api(op) => ApiKeepsDates(s, op);
      case Work(pid, op) => WorkLetters(s, pid, op);
      case Publish(pid, op) => PublishLetters(s, pid, op);
      case _ =>
    }
  }

  ghost predicate Adds(s: State, act: Action, d: DeadLetterId) {
    && act.Work? && act.work.OpInsertDeadLetter?
    && act.worker in s.procs && s.procs[act.worker].Worker? && s.procs[act.worker].work == ToInsertDeadLetter
    && d == DeadLetterId(s.procs[act.worker].job.attempt, act.work.serial)
  }

  lemma ReplayLetters(db: Db, d: DeadLetterId)
    ensures var db' := After(EnsureReplay(db, d), db);
      && db'.deadLetters.Keys == db.deadLetters.Keys
      && forall e :: e in db.deadLetters ==>
           db'.deadLetters[e].key == db.deadLetters[e].key && db'.deadLetters[e].deadLetteredAt == db.deadLetters[e].deadLetteredAt
  {
    ReplayTouches(db, d);
  }

  // A dead letter is inserted for the last attempt of its notification.
  lemma AddsAtTheEnd(s: State, act: Action, d: DeadLetterId, e: DeadLetterId)
    requires Inv(s) && Adds(s, act, d) && e in s.db.deadLetters && KeyOf(e.origin) == KeyOf(d.origin)
    ensures Depth(e.origin) < Depth(d.origin)
  {
    var a := d.origin;
    assert WorkOk(s.db, s.procs[act.worker]);
    assert LetterOk(s.db, e) && Issued(s.db, e);
    forall b | b in s.db.attempts && !b.Initial? ensures Parent(b) != a {
      assert AttemptOk(s.db, b);
      if b.Replay? { assert Issued(s.db, b.deadLetter); }
    }
    LeafBounds(s.db, a, e.origin);
    if Depth(e.origin) == Depth(a) { OnePerSlot(s.db, a, e.origin); }
  }

  lemma TimesStep(s: State, act: Action)
    requires Inv(s) && TimesOk(s)
    ensures TimesOk(Apply(s, act))
  {
    var s' := Apply(s, act);
    LettersStep(s, act);
    ClockRuns(s, act);
    forall d, e | d in s'.db.deadLetters && e in s'.db.deadLetters && s'.db.deadLetters[d].key == s'.db.deadLetters[e].key
      ensures Depth(d.origin) < Depth(e.origin) ==>
        s'.db.deadLetters[d].deadLetteredAt <= s'.db.deadLetters[e].deadLetteredAt {
      if d !in s.db.deadLetters && e in s.db.deadLetters {
        assert LetterOk(s.db, e);
        AddsAtTheEnd(s, act, d, e);
      }
    }
  }

  lemma {:induction false} TimesAlways(acts: seq<Action>)
    ensures TimesOk(Exec(acts))
  {
    if acts != [] {
      TimesAlways(acts[..|acts| - 1]);
      Always(acts[..|acts| - 1]);
      TimesStep(Exec(acts[..|acts| - 1]), acts[|acts| - 1]);
    }
  }

  ghost predicate NoCleanup(acts: seq<Action>) {
    forall act :: act in acts ==> !(act.Api? && act.api.OpCleanDeadLetters?)
  }

  lemma {:induction false} LettersKept(acts: seq<Action>)
    requires NoCleanup(acts)
    ensures forall d {:trigger Replay(d)} :: Replay(d) in Exec(acts).db.attempts ==> d in Exec(acts).db.deadLetters
  {
    if acts != [] {
      var front, act := acts[..|acts| - 1], acts[|acts| - 1];
      assert forall x :: x in front ==> x in acts;
      assert act in acts;
      LettersKept(front);
      Always(front);
      forall d {:trigger Replay(d)} | Replay(d) in Apply(Exec(front), act).db.attempts
        ensures d in Apply(Exec(front), act).db.deadLetters {
        RowsStep(Exec(front), act, Replay(d));
        if act.Api? && act.api.OpEnsureReplay? { ReplayTarget(Exec(front).db, act.api.deadLetter); }
        LetterStays(Exec(front), act, d);
      }
    }
  }

  // Only maintenance removes a dead letter, and only one replayed before its cutoff.
  lemma LetterStays(s: State, act: Action, d: DeadLetterId)
    ensures d in s.db.deadLetters && d !in Apply(s, act).db.deadLetters ==>
      && act.Api? && act.api.OpCleanDeadLetters?
      && s.db.deadLetters[d].replayedAt.Some? && s.db.deadLetters[d].replayedAt.value < act.api.cutoff
  {
    match act {
      case Api(op) =>
        if op.OpEnsureRetry? {
          RetryTouches(s.db, op.scheduled, s.now);
        } else if op.OpEnsureReplay? {
          ReplayTouches(s.db, op.deadLetter);
        } else if op.OpCreate? {
          CreateTouches(s.db, op.key, op.scheduledFor, s.now);
        }
      case Work(pid, op) =>
        if pid in s.procs && s.procs[pid].Worker? && s.procs[pid].work.ToRecord? {
          RecordTouches(s, pid, s.procs[pid].work.outcome);
        }
      case _ =>
    }
  }

  // The exact condition in every reachable state: no dead letter is missing
  // before a present one, and the id order decides equal times rightly.
  lemma PairingExact(acts: seq<Action>, key: Key, less: IdOrder)
    requires StrictTotal(less)
    ensures var db := Exec(acts).db;
      PairsRightly(db, key, less) <==>
        && NoneMissing(db, key)
        && (forall d, e | IsLetter(db, key, d) && IsLetter(db, key, e)
              && db.deadLetters[d].deadLetteredAt == db.deadLetters[e].deadLetteredAt ::
              Depth(d.origin) < Depth(e.origin) ==> less(d, e))
  {
    Always(acts);
    TimesAlways(acts);
    PairsRightlyIff(Exec(acts).db, key, less);
  }

  // Without dead-letter cleanup and with distinct insertion times the query
  // never shows an attempt the dead letter of another.
  lemma PairingRight(acts: seq<Action>, key: Key, less: IdOrder)
    requires StrictTotal(less) && NoCleanup(acts)
    requires forall d, e :: IsLetter(Exec(acts).db, key, d) && IsLetter(Exec(acts).db, key, e) && d != e ==>
      Exec(acts).db.deadLetters[d].deadLetteredAt != Exec(acts).db.deadLetters[e].deadLetteredAt
    ensures PairsRightly(Exec(acts).db, key, less)
  {
    var db := Exec(acts).db;
    Always(acts);
    LettersKept(acts);
    PairingExact(acts, key, less);
    forall a, d | IsDeadLettered(db, key, a) && IsLetter(db, key, d) && db.attempts[a].number < Depth(d.origin)
      ensures HasLetter(db, key, a) {
      LetterFacts(db, key, d);
      assert AttemptOk(db, a);
      HasSuccessor(db, a, d.origin);
    }
  }

  // An attempt that is not the last of its chain was replayed or retried.
  lemma HasSuccessor(db: Db, a: AttemptId, b: AttemptId)
    requires ChainOk(db) && a in db.attempts && b in db.attempts && KeyOf(a) == KeyOf(b)
    requires db.attempts[a].status == DeadLettered && Depth(a) < Depth(b)
    requires forall d {:trigger Replay(d)} :: Replay(d) in db.attempts ==> d in db.deadLetters
    ensures HasLetter(db, KeyOf(a), a)
  {
    var c := AncestorAt(db, b, Depth(a) + 1);
    assert AttemptOk(db, c) && AttemptOk(db, a);
    assert AttemptOk(db, Parent(c));
    OnePerSlot(db, Parent(c), a);
    assert LetterOk(db, c.deadLetter);
    assert IsLetter(db, KeyOf(a), c.deadLetter);
  }
}
