// A publisher against its own lease: the time a run lets pass while it works
// through a batch, and why no claim goes stale in its hands.
module Deadline {
  import opened Transactions
  import opened Protocol
  import opened Claims

  // What passed for a publisher since its claim: items done, time in the push of
  // the current item, in all pushes, and in store calls; and whether some push
  // took longer than its timeout.
  datatype Watch = Watch(done: nat, item: nat, pushing: nat, storing: nat, late: bool)

  const FROM_CLAIM: Watch := Watch(0, 0, 0, 0, false)

  predicate Publishes(s: State, pid: nat) {
    pid in s.procs && s.procs[pid].Publisher?
  }

  // Read off the run: ticks count for the phase the publisher is in.
  ghost function Watched(acts: seq<Action>, pid: nat): Watch {
    if acts == [] then FROM_CLAIM
    else
      var front, act := acts[..|acts| - 1], acts[|acts| - 1];
      Next(Exec(front), act, pid, Watched(front, pid))
  }

  ghost function Next(s: State, act: Action, pid: nat, w: Watch): Watch {
    var s' := Apply(s, act);
    if !Publishes(s, pid) || !Publishes(s', pid) then FROM_CLAIM
    else if act.Environment? && act.env.OpTick? then
      var t := act.env.elapsed;
      if s.procs[pid].publish == ToEnqueue
      then w.(item := w.item + t, pushing := w.pushing + t, late := w.late || w.item + t > PUBLISH_TIMEOUT)
      else w.(storing := w.storing + t)
    else if |s'.procs[pid].batch| < |s.procs[pid].batch| then w.(done := w.done + 1, item := 0)
    else w
  }

  ghost predicate WatchOk(s: State, pid: nat, w: Watch) {
    Publishes(s, pid) ==>
      var batch := s.procs[pid].batch;
      && w.done + |batch| <= CLAIM_BATCH_SIZE
      && (forall c :: c in batch ==> s.now == c.claimedAt + w.pushing + w.storing)
      && (!w.late ==> w.pushing <= PUBLISH_TIMEOUT * w.done + w.item && w.item <= PUBLISH_TIMEOUT)
  }

  lemma NewBatch(s: State, act: Action, pid: nat)
    requires !Publishes(s, pid) && Publishes(Apply(s, act), pid)
    ensures WatchOk(Apply(s, act), pid, FROM_CLAIM)
  {
    HeldBefore(s, act, pid);
    ClockRuns(s, act);
  }

  lemma TickKeeps(s: State, elapsed: nat, pid: nat, w: Watch)
    requires WatchOk(s, pid, w)
    ensures WatchOk(Apply(s, Environment(OpTick(elapsed))), pid, Next(s, Environment(OpTick(elapsed)), pid, w))
  {
  }

  lemma ItemKeeps(s: State, act: Action, pid: nat, w: Watch)
    requires WatchOk(s, pid, w) && Publishes(s, pid) && Publishes(Apply(s, act), pid)
    requires !(act.Environment? && act.env.OpTick?)
    ensures WatchOk(Apply(s, act), pid, Next(s, act, pid, w))
  {
    HeldBefore(s, act, pid);
    SameTime(s, act);
  }

  lemma SameTime(s: State, act: Action)
    requires !(act.Environment? && act.env.OpTick?)
    ensures Apply(s, act).now == s.now
  {
    ClockRuns(s, act);
  }

  lemma {:induction false} WatchAlways(acts: seq<Action>, pid: nat)
    ensures WatchOk(Exec(acts), pid, Watched(acts, pid))
  {
    if acts != [] {
      var front, act := acts[..|acts| - 1], acts[|acts| - 1];
      WatchAlways(front, pid);
      if Publishes(Exec(acts), pid) {
        if !Publishes(Exec(front), pid) {
          NewBatch(Exec(front), act, pid);
        } else if act.Environment? && act.env.OpTick? {
          TickKeeps(Exec(front), act.env.elapsed, pid, Watched(front, pid));
        } else {
          ItemKeeps(Exec(front), act, pid, Watched(front, pid));
        }
      }
    }
  }

  // In any run in which each push of the batch so far kept to its timeout and the
  // store calls took less than one more in total, nothing left in the batch has
  // gone stale: it can still be marked, and nobody else holds it, whatever the
  // other processes did in the meantime.
  lemma BatchWithinLease(acts: seq<Action>, pid: nat, c: Claim)
    requires pid in Exec(acts).procs && Holding(Exec(acts).procs[pid], c)
    requires !Watched(acts, pid).late && Watched(acts, pid).storing < PUBLISH_TIMEOUT
    ensures var s := Exec(acts);
      && s.now < c.claimedAt + CLAIM_TIMEOUT && Valid(s.db, c)
      && MarkPublished(s.db, c.attempt, c.claimedAt, s.now).Ok?
      && forall p, d :: p in s.procs && Holding(s.procs[p], d) && d.attempt == c.attempt && Valid(s.db, d) ==> p == pid
  {
    var s := Exec(acts);
    WatchAlways(acts, pid);
    FreshAlways(acts);
    assert Publishes(s, pid) && c in s.procs[pid].batch;
    forall p, d | p in s.procs && Holding(s.procs[p], d) && d.attempt == c.attempt && Valid(s.db, d) ensures p == pid {
      OneLeaseHolder(acts, p, pid, d, c);
    }
  }
}
