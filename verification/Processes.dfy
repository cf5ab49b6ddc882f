// The outbox publisher as the code writes it, over a store and a queue that it
// updates in place. It is proved to take only steps of the protocol machine, so
// what holds of every run of the machine holds of every interleaving of its
// steps with those of others; and to reach, on its own, the result it is there
// for. Dispatcher and retry sweep are in Calls, the worker call in Delivery.
module Processes {
  import opened Wrappers
  import opened Rows
  import opened Transactions
  import opened Transport
  import opened Protocol
  import opened Store
  import opened Queue

  // The machine state `s` with the tables and lists of two objects.
  ghost predicate Mirrors(s: State, st: Postgres, q: RedisQueue)
    reads st, q
  {
    s.db == st.Tables() && s.redis == q.lists
  }

  // What the outside does to the calls of one process: the k-th push, whether
  // the store commits the k-th write, and how long the k-th item took.
  datatype Conditions = Conditions(push: nat -> SendResult, stored: nat -> bool, took: nat -> nat)

  // Job ids from `k` on were not given out yet.
  ghost predicate FreshFrom(s: State, k: nat) {
    forall i :: i >= k ==> i !in s.log.serials
  }

  lemma OneStep(s: State, a: Action)
    ensures RunFrom(s, [a]) == Apply(s, a)
  {
    assert [a][..0] == [];
  }

  lemma TwoSteps(s: State, a: Action, b: Action)
    ensures RunFrom(s, [a, b]) == Apply(Apply(s, a), b)
  {
    assert [a, b][..1] == [a];
    OneStep(s, a);
  }

  // ---------------------------------------------------------------- publisher

  datatype ItemResult = Marked | Released | StoreDown

  function Pushed(r: Redis, k: nat, a: AttemptId): Redis {
    PushRight(r, Ready(Dispatch), Job(k, a))
  }

  lemma MarkRun(s: State, pid: nat, batch: seq<Claim>, k: nat)
    requires pid in s.procs && batch != [] && s.procs[pid] == Publisher(batch, ToEnqueue)
    requires k !in s.log.serials
    ensures var s1 := Enqueued(s, batch[0].attempt, k).(procs := s.procs[pid := Publisher(batch, ToMark)]);
      RunFrom(s, [Publish(pid, OpEnqueue(k)), Publish(pid, OpMark)]) ==
        match MarkPublished(s.db, batch[0].attempt, batch[0].claimedAt, s.now)
        case Ok(db') => s1.(db := db', procs := s1.procs[pid := Publisher(batch[1..], ToEnqueue)])
        case Err(_) => s1.(procs := s1.procs - {pid})
  {
    TwoSteps(s, Publish(pid, OpEnqueue(k)), Publish(pid, OpMark));
  }

  lemma DownRun(s: State, pid: nat, batch: seq<Claim>, k: nat)
    requires pid in s.procs && batch != [] && s.procs[pid] == Publisher(batch, ToEnqueue)
    requires k !in s.log.serials
    ensures RunFrom(s, [Publish(pid, OpEnqueue(k)), Environment(OpCrash(pid))]) ==
      Enqueued(s, batch[0].attempt, k).(procs := s.procs - {pid})
  {
    TwoSteps(s, Publish(pid, OpEnqueue(k)), Environment(OpCrash(pid)));
    assert s.procs[pid := Publisher(batch, ToMark)] - {pid} == s.procs - {pid};
  }

  lemma ReleaseRun(s: State, pid: nat, batch: seq<Claim>, k: nat, applied: bool, stored: bool)
    requires pid in s.procs && batch != [] && s.procs[pid] == Publisher(batch, ToEnqueue)
    requires k !in s.log.serials
    ensures var c := batch[0];
      RunFrom(s, [Publish(pid, OpEnqueueError(applied, k)), Publish(pid, OpRelease(stored))]) ==
        (if applied then Enqueued(s, c.attempt, k) else s).(
          db := if stored then After(RecordIntentError(s.db, c.attempt, c.claimedAt), s.db) else s.db,
          procs := s.procs[pid := Publisher(batch[1..], ToEnqueue)])
  {
    TwoSteps(s, Publish(pid, OpEnqueueError(applied, k)), Publish(pid, OpRelease(stored)));
    assert s.procs[pid := Publisher(batch, ToRelease)][pid := Publisher(batch[1..], ToEnqueue)]
        == s.procs[pid := Publisher(batch[1..], ToEnqueue)];
  }

  // What one item does to the tables and to the lists: after a push that failed,
  // with or without effect, the intent is given back if the store commits; after
  // one that did not, it is marked, and the run ends if the store is down or the
  // lease was lost.
  ghost predicate ItemEffect(w: Conditions, r: ItemResult, db: Db, db': Db, lists: Redis, lists': Redis, k: nat, c: Claim, now: Time) {
    var marked := MarkPublished(db, c.attempt, c.claimedAt, now);
    match w.push(k)
    case SendFailed(applied) =>
      && r == Released && lists' == (if applied then Pushed(lists, k, c.attempt) else lists)
      && db' == if w.stored(k) then After(RecordIntentError(db, c.attempt, c.claimedAt), db) else db
    case Sent =>
      && lists' == Pushed(lists, k, c.attempt)
      && if w.stored(k) && marked.Ok? then r == Marked && db' == marked.value else r == StoreDown && db' == db
  }

  // One claimed intent: push the job, then mark it or give it back.
  method PublishItem(st: Postgres, q: RedisQueue, w: Conditions, k: nat, now: Time, c: Claim,
                     ghost s: State, ghost pid: nat, ghost batch: seq<Claim>)
    returns (r: ItemResult, ghost acts: seq<Action>)
    requires Mirrors(s, st, q) && s.now == now && FreshFrom(s, k)
    requires pid in s.procs && batch != [] && batch[0] == c && s.procs[pid] == Publisher(batch, ToEnqueue)
    modifies st, q
    ensures var end := RunFrom(s, acts);
      && Mirrors(end, st, q) && end.now == now && end.paused == s.paused && FreshFrom(end, k + 1)
      && end.procs == if r.StoreDown? then s.procs - {pid} else s.procs[pid := Publisher(batch[1..], ToEnqueue)]
    ensures ItemEffect(w, r, old(st.Tables()), st.Tables(), old(q.lists), q.lists, k, c, now)
  {
    var sent := w.push(k);
    q.Enqueue(Dispatch, Job(k, c.attempt), sent);
    if sent.SendFailed? {
      if w.stored(k) {
        var _ := st.RecordDispatchIntentError(c.attempt, c.claimedAt);
      }
      ReleaseRun(s, pid, batch, k, sent.applied, w.stored(k));
      return Released, [Publish(pid, OpEnqueueError(sent.applied, k)), Publish(pid, OpRelease(w.stored(k)))];
    }
    if !w.stored(k) {
      DownRun(s, pid, batch, k);
      return StoreDown, [Publish(pid, OpEnqueue(k)), Environment(OpCrash(pid))];
    }
    var error := st.MarkDispatchIntentPublished(c.attempt, c.claimedAt, now);
    MarkRun(s, pid, batch, k);
    assert s.procs[pid := Publisher(batch, ToMark)] - {pid} == s.procs - {pid};
    assert s.procs[pid := Publisher(batch, ToMark)][pid := Publisher(batch[1..], ToEnqueue)]
        == s.procs[pid := Publisher(batch[1..], ToEnqueue)];
    return if error.None? then Marked else StoreDown, [Publish(pid, OpEnqueue(k)), Publish(pid, OpMark)];
  }

  // Published now, and not before: its job is on the dispatch list.
  ghost predicate Backed(before: map<AttemptId, Intent>, after: map<AttemptId, Intent>, r: Redis) {
    forall a :: a in after && after[a].status == Published ==>
      (a in before && before[a].status == Published) || Holds(r, Ready(Dispatch), a)
  }

  ghost predicate OnlyTouches(before: map<AttemptId, Intent>, after: map<AttemptId, Intent>, touched: set<AttemptId>) {
    after.Keys == before.Keys && forall a :: a in after && a !in touched ==> after[a] == before[a]
  }

  lemma PushedHolds(r: Redis, k: nat, a: AttemptId)
    ensures Holds(Pushed(r, k, a), Ready(Dispatch), a)
    ensures forall b :: Holds(r, Ready(Dispatch), b) ==> Holds(Pushed(r, k, a), Ready(Dispatch), b)
  {
    forall b ensures Holds(Pushed(r, k, a), Ready(Dispatch), b) <==> Holds(r, Ready(Dispatch), b) || b == a {
      PushKeeps(r, Ready(Dispatch), Job(k, a), false, Ready(Dispatch), b);
    }
  }

  lemma MarkedOutbox(db: Db, a: AttemptId, claimedAt: Time, now: Time)
    requires MarkPublished(db, a, claimedAt, now).Ok?
    ensures var after := MarkPublished(db, a, claimedAt, now).value.outbox;
      OnlyTouches(db.outbox, after, {a}) && a in after && after[a].status == Published
  {
  }

  lemma ReleasedOutbox(db: Db, a: AttemptId, claimedAt: Time)
    ensures var after := After(RecordIntentError(db, a, claimedAt), db).outbox;
      OnlyTouches(db.outbox, after, {a}) && (a in after && after[a].status == Published ==> db.outbox[a].status == Published)
  {
  }

  // What one item does to a batch in progress.
  lemma ItemKeeps(origin: map<AttemptId, Intent>, before: map<AttemptId, Intent>, done: set<AttemptId>,
                  w: Conditions, r: ItemResult, db: Db, db': Db, lists: Redis, lists': Redis, k: nat, c: Claim, now: Time)
    requires OnlyTouches(before, db.outbox, done) && Backed(origin, db.outbox, lists)
    requires ItemEffect(w, r, db, db', lists, lists', k, c, now)
    ensures OnlyTouches(before, db'.outbox, done + {c.attempt}) && Backed(origin, db'.outbox, lists')
    ensures OnlyTouches(db.outbox, db'.outbox, {c.attempt})
    ensures r.Marked? ==> c.attempt in db'.outbox && db'.outbox[c.attempt].status == Published
  {
    var a := c.attempt;
    PushedHolds(lists, k, a);
    if r.Marked? { MarkedOutbox(db, a, c.claimedAt, now); } else { ReleasedOutbox(db, a, c.claimedAt); }
    forall b | b in db'.outbox && db'.outbox[b].status == Published
      ensures (b in origin && origin[b].status == Published) || Holds(lists', Ready(Dispatch), b) {
      if b != a { assert db'.outbox[b] == db.outbox[b]; }
    }
  }

  datatype BatchResult = AllMarked | SomeReleased | Aborted

  function Attempts(batch: seq<Claim>): set<AttemptId> {
    set c | c in batch :: c.attempt
  }

  lemma NextItem(batch: seq<Claim>, i: nat)
    requires i < |batch|
    ensures Attempts(batch[..i + 1]) == Attempts(batch[..i]) + {batch[i].attempt} <= Attempts(batch)
    ensures batch[i..][1..] == batch[i + 1..] && batch[i..][0] == batch[i]
  {
  }

  predicate IsPublished(outbox: map<AttemptId, Intent>, a: AttemptId) {
    a in outbox && outbox[a].status == Published
  }

  // The machine at time `now`, mirrored by the objects, with `k` the next job id.
  ghost predicate Stands(s: State, cur: State, st: Postgres, q: RedisQueue, now: Time, k: nat)
    reads st, q
  {
    Mirrors(cur, st, q) && cur.now == now && cur.paused == s.paused && FreshFrom(cur, k)
  }

  // A publisher of `s` that has come as far as the claims `rest`.
  ghost predicate Midway(s: State, cur: State, st: Postgres, q: RedisQueue, now: Time, k: nat, pid: nat, rest: seq<Claim>)
    reads st, q
  {
    Stands(s, cur, st, q, now, k) && cur.procs == s.procs[pid := Publisher(rest, ToEnqueue)]
  }

  ghost predicate Stopped(s: State, cur: State, st: Postgres, q: RedisQueue, now: Time, k: nat, pid: nat)
    reads st, q
  {
    Stands(s, cur, st, q, now, k) && cur.procs == s.procs - {pid}
  }

  lemma Overwrite(procs: map<nat, Process>, pid: nat, p: Process, p': Process)
    ensures procs[pid := p][pid := p'] == procs[pid := p']
    ensures procs[pid := p] - {pid} == procs - {pid}
  {
  }

  // The tables and lists after the first `i` items of a batch.
  ghost predicate BatchOk(origin: map<AttemptId, Intent>, before: map<AttemptId, Intent>, outbox: map<AttemptId, Intent>,
                          lists: Redis, batch: seq<Claim>, i: nat, failed: bool)
    requires i <= |batch|
  {
    && OnlyTouches(before, outbox, Attempts(batch[..i])) && Backed(origin, outbox, lists)
    && (!failed ==> forall j :: 0 <= j < i ==> IsPublished(outbox, batch[j].attempt))
  }

  lemma BatchStep(origin: map<AttemptId, Intent>, before: map<AttemptId, Intent>, batch: seq<Claim>, i: nat, failed: bool,
                  w: Conditions, item: ItemResult, db: Db, db': Db, lists: Redis, lists': Redis, k: nat, now: Time)
    requires i < |batch| && BatchOk(origin, before, db.outbox, lists, batch, i, failed)
    requires ItemEffect(w, item, db, db', lists, lists', k, batch[i], now)
    ensures BatchOk(origin, before, db'.outbox, lists', batch, i + 1, failed || !item.Marked?)
  {
    NextItem(batch, i);
    ItemKeeps(origin, before, Attempts(batch[..i]), w, item, db, db', lists, lists', k, batch[i], now);
  }

  // An item that did not end the run: given back after a failed push, else pushed
  // and stored.
  predicate WentThrough(w: Conditions, k: nat, item: ItemResult) {
    !item.StoreDown? ==> (item.Released? <==> w.push(k).SendFailed?) && (w.push(k).Sent? ==> w.stored(k))
  }

  // How long the items from job id `k` on took.
  ghost function Elapsed(w: Conditions, k: nat, n: nat): nat {
    if n == 0 then 0 else Elapsed(w, k, n - 1) + w.took(k + n - 1)
  }

  // The first `n` items of a batch that began at `now` went through.
  ghost predicate Outcomes(w: Conditions, k: nat, now: Time, n: nat, failed: bool, later: Time) {
    && later == now + Elapsed(w, k, n)
    && (failed <==> exists j :: k <= j < k + n && w.push(j).SendFailed?)
    && forall j :: k <= j < k + n && w.push(j).Sent? ==> w.stored(j)
  }

  lemma NextOutcome(w: Conditions, k: nat, now: Time, n: nat, failed: bool, later: Time, item: ItemResult)
    requires Outcomes(w, k, now, n, failed, later) && WentThrough(w, k + n, item) && !item.StoreDown?
    ensures Outcomes(w, k, now, n + 1, failed || !item.Marked?, later + w.took(k + n))
  {
  }

  // The body of the loop over a batch, with what it keeps; time passes behind it.
  method PublishNext(st: Postgres, q: RedisQueue, w: Conditions, k: nat, now: Time, batch: seq<Claim>, i: nat, failed: bool,
                     ghost s: State, ghost done: seq<Action>, ghost pid: nat, ghost origin: map<AttemptId, Intent>,
                     ghost before: map<AttemptId, Intent>, ghost first: nat, ghost start: Time)
    returns (item: ItemResult, later: Time, ghost acts: seq<Action>)
    requires k == first + i && Outcomes(w, first, start, i, failed, now)
    requires i < |batch| && Midway(s, RunFrom(s, done), st, q, now, k, pid, batch[i..])
    requires BatchOk(origin, before, st.outbox, q.lists, batch, i, failed)
    modifies st, q
    ensures later == now + w.took(k)
    ensures !item.StoreDown? ==> Outcomes(w, first, start, i + 1, failed || !item.Marked?, later)
    ensures if item.StoreDown? then Stopped(s, RunFrom(s, acts), st, q, later, k + 1, pid)
            else Midway(s, RunFrom(s, acts), st, q, later, k + 1, pid, batch[i + 1..])
    ensures BatchOk(origin, before, st.outbox, q.lists, batch, i + 1, failed || !item.Marked?)
  {
    ghost var db, lists, rest := st.Tables(), q.lists, batch[i..];
    ghost var itemActs;
    item, itemActs := PublishItem(st, q, w, k, now, batch[i], RunFrom(s, done), pid, rest);
    BatchStep(origin, before, batch, i, failed, w, item, db, st.Tables(), lists, q.lists, k, now);
    later := now + w.took(k);
    if !item.StoreDown? { NextOutcome(w, first, start, i, failed, now, item); }
    acts := done + itemActs + [Environment(OpTick(w.took(k)))];
    ItemRun(s, done, itemActs, w.took(k), pid, batch, i, item.StoreDown?);
  }

  // The machine over one item and the time it took.
  lemma ItemRun(s: State, done: seq<Action>, itemActs: seq<Action>, elapsed: nat, pid: nat, batch: seq<Claim>, i: nat, down: bool)
    requires i < |batch| && RunFrom(s, done).procs == s.procs[pid := Publisher(batch[i..], ToEnqueue)]
    requires RunFrom(RunFrom(s, done), itemActs).procs ==
      if down then RunFrom(s, done).procs - {pid} else RunFrom(s, done).procs[pid := Publisher(batch[i..][1..], ToEnqueue)]
    ensures var end := RunFrom(RunFrom(s, done), itemActs);
      RunFrom(s, done + itemActs + [Environment(OpTick(elapsed))]) ==
        end.(now := end.now + elapsed,
             procs := if down then s.procs - {pid} else s.procs[pid := Publisher(batch[i + 1..], ToEnqueue)])
  {
    NextItem(batch, i);
    Overwrite(s.procs, pid, Publisher(batch[i..], ToEnqueue), Publisher(batch[i + 1..], ToEnqueue));
    RunConcat(s, done, itemActs);
    TimePasses(s, done + itemActs, elapsed);
  }

  lemma TimePasses(s: State, acts: seq<Action>, elapsed: nat)
    ensures var cur := RunFrom(s, acts);
      RunFrom(s, acts + [Environment(OpTick(elapsed))]) == cur.(now := cur.now + elapsed)
  {
    RunConcat(s, acts, [Environment(OpTick(elapsed))]);
    OneStep(RunFrom(s, acts), Environment(OpTick(elapsed)));
  }

  // The loop over one claimed batch.
  method PublishBatch(st: Postgres, q: RedisQueue, w: Conditions, k: nat, now: Time, batch: seq<Claim>,
                      ghost s: State, ghost pid: nat, ghost origin: map<AttemptId, Intent>)
    returns (r: BatchResult, later: Time, ghost acts: seq<Action>)
    requires Midway(s, s, st, q, now, k, pid, batch) && Backed(origin, st.outbox, q.lists)
    modifies st, q
    ensures later >= now
    ensures if r.Aborted? then Stopped(s, RunFrom(s, acts), st, q, later, k + |batch|, pid)
            else Midway(s, RunFrom(s, acts), st, q, later, k + |batch|, pid, [])
    ensures OnlyTouches(old(st.outbox), st.outbox, Attempts(batch))
    ensures Backed(origin, st.outbox, q.lists)
    ensures r.AllMarked? ==> forall j :: 0 <= j < |batch| ==> IsPublished(st.outbox, batch[j].attempt)
    ensures !r.Aborted? ==> Outcomes(w, k, now, |batch|, r.SomeReleased?, later)
  {
    acts := [];
    later := now;
    var failed := false;
    var i := 0;
    ghost var before := st.outbox;
    assert batch[0..] == batch && batch[..|batch|] == batch && batch[|batch|..] == [];
    while i < |batch|
      invariant 0 <= i <= |batch| && later >= now && Outcomes(w, k, now, i, failed, later)
      invariant Midway(s, RunFrom(s, acts), st, q, later, k + i, pid, batch[i..])
      invariant BatchOk(origin, before, st.outbox, q.lists, batch, i, failed)
    {
      var item;
      item, later, acts := PublishNext(st, q, w, k + i, later, batch, i, failed, s, acts, pid, origin, before, k, now);
      if item.StoreDown? {
        NextItem(batch, i);
        return Aborted, later, acts;
      }
      failed := failed || item.Released?;
      i := i + 1;
    }
    r := if failed then SomeReleased else AllMarked;
  }

  // ------------------------------------------------------- one publisher run

  datatype RunResult = Drained | Delayed | PublishFailed | RunAborted

  ghost function Open(outbox: map<AttemptId, Intent>): set<AttemptId> {
    set a | a in outbox && outbox[a].status != Published
  }

  // A batch that was claimed and then published leaves fewer open intents.
  lemma OpenShrinks(db: Db, batch: seq<AttemptId>, now: Time, after: map<AttemptId, Intent>)
    requires batch != [] && batch[0] in Open(db.outbox)
    requires OnlyTouches(Lease(db, (set a | a in batch), now).outbox, after, Attempts(Leased(batch, now)))
    requires forall j :: 0 <= j < |batch| ==> IsPublished(after, batch[j])
    ensures Open(after) < Open(db.outbox)
  {
    LeasedAttempts(batch, now);
    forall a | a in Open(after) ensures a in Open(db.outbox) {
      assert a !in batch;
    }
    assert batch[0] !in Open(after);
  }

  lemma LeasedAttempts(batch: seq<AttemptId>, now: Time)
    ensures Attempts(Leased(batch, now)) == set a | a in batch
  {
    forall a | a in batch ensures a in Attempts(Leased(batch, now)) {
      var i :| 0 <= i < |batch| && batch[i] == a;
      assert Leased(batch, now)[i] in Leased(batch, now);
    }
  }

  lemma LeaseBacked(origin: map<AttemptId, Intent>, db: Db, batch: set<AttemptId>, now: Time, r: Redis)
    requires Backed(origin, db.outbox, r)
    ensures Backed(origin, Lease(db, batch, now).outbox, r)
    ensures Lease(db, batch, now).outbox.Keys == db.outbox.Keys
  {
  }

  // Every row of the outbox, in some order.
  method OutboxRows(st: Postgres) returns (rows: seq<AttemptId>)
    ensures forall a :: a in rows <==> a in st.outbox
    ensures forall i, j :: 0 <= i < j < |rows| ==> rows[i] != rows[j]
  {
    rows := [];
    var rest := st.outbox.Keys;
    while rest != {}
      invariant forall a :: a in rows <==> a in st.outbox && a !in rest
      invariant rest <= st.outbox.Keys
      invariant forall i, j :: 0 <= i < j < |rows| ==> rows[i] != rows[j]
      decreases rest
    {
      var a :| a in rest;
      rows, rest := rows + [a], rest - {a};
    }
  }

  // Claims and publishes batch after batch until a claim comes back empty. Run
  // by itself it stops, every intent it published has its job on the dispatch
  // list, and when it reports success no intent is left that was claimable at
  // its last look and is not paused.
  method RunOnce(st: Postgres, q: RedisQueue, w: Conditions, limited: nat -> bool, paused: set<Key>, now: Time, first: nat,
                 ghost s: State, ghost pid: nat)
    returns (r: RunResult, later: Time, next: nat, ghost acts: seq<Action>)
    requires Mirrors(s, st, q) && s.now == now && s.paused == paused && pid !in s.procs && FreshFrom(s, first)
    modifies st, q
    ensures later >= now && next >= first && Stopped(s, RunFrom(s, acts), st, q, later, next, pid)
    ensures st.outbox.Keys == old(st.outbox).Keys && Backed(old(st.outbox), st.outbox, q.lists)
    ensures r.Delayed? <==> limited(next) && !r.PublishFailed? && !r.RunAborted?
    ensures r.Drained? ==> forall a :: a in st.outbox && KeyOf(a) !in paused ==>
      || st.outbox[a].status == Published
      || (st.outbox[a].status == Publishing && (st.outbox[a].claimedAt.None? || later - st.outbox[a].claimedAt.value < 165))
  {
    acts := [];
    later, next := now, first;
    ghost var origin := st.outbox;
    assert s.procs - {pid} == s.procs;
    while true
      invariant later >= now && next >= first && Stopped(s, RunFrom(s, acts), st, q, later, next, pid)
      invariant st.outbox.Keys == origin.Keys && Backed(origin, st.outbox, q.lists)
      decreases Open(st.outbox)
    {
      if limited(next) {
        return Delayed, later, next, acts;
      }
      ghost var db, cur, more := st.Tables(), RunFrom(s, acts), [];
      var rows := OutboxRows(st);
      var claimed := st.ClaimPendingDispatchIntents(rows, CLAIM_BATCH_SIZE, paused, later, CLAIM_TIMEOUT);
      var batch := claimed.value;
      if |batch| == 0 {
        assert st.Tables() == db;
        return Drained, later, next, acts;
      }
      ghost var claimedAt := later;
      var result;
      result, later, more := ClaimedBatch(st, q, w, next, later, batch, cur, pid, origin, db);
      RunConcat(s, acts, more);
      acts := acts + more;
      next := next + |batch|;
      assert s.procs - {pid} - {pid} == s.procs - {pid};
      assert Stopped(s, RunFrom(s, acts), st, q, later, next, pid);
      if result.Aborted? {
        return RunAborted, later, next, acts;
      } else if result.SomeReleased? {
        return PublishFailed, later, next, acts;
      }
      OpenShrinks(db, batch, claimedAt, st.outbox);
    }
  }

  // From the claim to the end of its batch.
  method ClaimedBatch(st: Postgres, q: RedisQueue, w: Conditions, k: nat, now: Time, batch: seq<AttemptId>,
                      ghost s: State, ghost pid: nat, ghost origin: map<AttemptId, Intent>, ghost db: Db)
    returns (r: BatchResult, later: Time, ghost acts: seq<Action>)
    requires s.db == db && st.Tables() == Lease(db, (set a | a in batch), now) && s.redis == q.lists
    requires s.now == now && pid !in s.procs && ClaimAllowed(s, batch) && Backed(origin, db.outbox, q.lists) && FreshFrom(s, k)
    modifies st, q
    ensures later >= now && Stopped(s, RunFrom(s, acts), st, q, later, k + |batch|, pid)
    ensures st.outbox.Keys == db.outbox.Keys && Backed(origin, st.outbox, q.lists)
    ensures OnlyTouches(Lease(db, (set a | a in batch), now).outbox, st.outbox, Attempts(Leased(batch, now)))
    ensures r.AllMarked? ==> forall j :: 0 <= j < |batch| ==> IsPublished(st.outbox, batch[j])
  {
    ghost var claim, stop := Publish(pid, OpClaim(batch)), Environment(OpCrash(pid));
    ghost var s1 := ClaimRun(s, pid, batch);
    LeaseBacked(origin, db, (set a | a in batch), now, q.lists);
    ghost var more;
    r, later, more := PublishBatch(st, q, w, k, now, Leased(batch, now), s1, pid, origin);
    BatchRun(s, s1, claim, more, stop);
    Overwrite(s.procs, pid, Publisher(Leased(batch, now), ToEnqueue), Publisher([], ToEnqueue));
    Overwrite(s.procs, pid, Publisher([], ToEnqueue), Publisher([], ToEnqueue));
    acts := [claim] + more;
    if !r.Aborted? {
      acts := acts + [stop];
    }
    forall j | 0 <= j < |batch| && r.AllMarked? ensures IsPublished(st.outbox, batch[j]) {
      assert IsPublished(st.outbox, Leased(batch, now)[j].attempt);
    }
  }

  lemma ClaimRun(s: State, pid: nat, batch: seq<AttemptId>) returns (s1: State)
    requires pid !in s.procs && ClaimAllowed(s, batch)
    ensures s1 == Apply(s, Publish(pid, OpClaim(batch)))
    ensures s1.db == Lease(s.db, (set a | a in batch), s.now)
    ensures s1.redis == s.redis && s1.now == s.now && s1.paused == s.paused && s1.log == s.log
    ensures s1.procs == s.procs[pid := Publisher(Leased(batch, s.now), ToEnqueue)]
    ensures s1.procs == s1.procs[pid := Publisher(Leased(batch, s.now), ToEnqueue)]
  {
    s1 := Apply(s, Publish(pid, OpClaim(batch)));
  }

  // The steps of one batch, with the end of its publisher.
  lemma BatchRun(s: State, s1: State, claim: Action, more: seq<Action>, stop: Action)
    requires s1 == Apply(s, claim)
    ensures RunFrom(s, [claim] + more) == RunFrom(s1, more)
    ensures RunFrom(s, [claim] + more + [stop]) == Apply(RunFrom(s1, more), stop)
  {
    OneStep(s, claim);
    RunConcat(s, [claim], more);
    RunConcat(s, [claim] + more, [stop]);
    OneStep(RunFrom(s1, more), stop);
  }
}
